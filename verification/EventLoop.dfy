/** EventLoop.cpp: the functor queue and its wakeup pipe, as the interleaved steps of the
    loop's thread and of any number of producer threads. */
module EventLoops {
  import opened Common

  /** A queued callback: who pushed it, and which. */
  datatype Functor = Functor(producer: nat, id: nat)

  /** Where the loop's thread is: before the first call of loop(), at the loop test, inside poll,
      handling active channels, about to swap the queue, running the swapped batch, or returned,
      from where loop() may be called again. */
  datatype Pc = Start | Test | Polling | Handling | Swapping | Running | Returned

  /**
   * `pipe` counts unread bytes; `writing` are the producers between their push (or their
   * quit flag) and their write to the pipe. `wake`: the wakeup channel is active and unread;
   * `consumed`: its byte was read and the queue not swapped since.
   * `pushed`, `executed` and `inlined` are the functors queued, run from the queue, and run
   * directly by runInLoop on the loop's own thread; `rounds` counts finished iterations.
   */
  datatype Loop = Loop(
    pc: Pc, quit: bool, pending: seq<Functor>, batch: seq<Functor>,
    pipe: nat, writing: set<nat>, wake: bool, consumed: bool,
    pushed: seq<Functor>, executed: seq<Functor>, inlined: seq<Functor>, rounds: nat)

  const INITIAL := Loop(Start, false, [], [], 0, {}, false, false, [], [], [], 0)

  datatype Op =
    | Enter                             // loop() is called: looping = true; quit_ = false
    | TestQuit
    | PollReturns
    | ReadWakeup
    | FinishHandling
    | Swap
    | RunHead(inline: seq<Functor>)     // the callback hands `inline` to runInLoop
    | FinishBatch
    | QuitInLoop
    | Push(producer: nat, id: nat)
    | QuitByOther(producer: nat)
    | WriteByte(producer: nat)

  predicate Enabled(l: Loop, op: Op) {
    match op
    case Enter => l.pc == Start || l.pc == Returned
    case TestQuit => l.pc == Test
    case PollReturns => l.pc == Polling
    case ReadWakeup => l.pc == Handling && l.wake && l.pipe > 0
    case FinishHandling => l.pc == Handling && !l.wake
    case Swap => l.pc == Swapping
    case RunHead(_) => l.pc == Running && l.batch != []
    case FinishBatch => l.pc == Running && l.batch == []
    case QuitInLoop => l.pc == Handling || l.pc == Running
    case Push(p, _) => p !in l.writing
    case QuitByOther(p) => p !in l.writing
    case WriteByte(p) => p in l.writing
  }

  function Step(l: Loop, op: Op): Loop {
    if !Enabled(l, op) then l
    else match op
      case Enter => l.(pc := Test, quit := false)
      case TestQuit => l.(pc := if l.quit then Returned else Polling)
      // Level-triggered: the wakeup channel is active whenever the pipe holds a byte.
      // With an empty pipe poll returns for another channel or for its timeout.
      case PollReturns => l.(pc := Handling, wake := l.pipe > 0)
      case ReadWakeup => l.(pipe := l.pipe - 1, wake := false, consumed := true)
      case FinishHandling => l.(pc := Swapping)
      case Swap => l.(pc := Running, batch := l.pending, pending := [], consumed := false)
      case RunHead(inline) =>
        l.(batch := l.batch[1..], executed := l.executed + [l.batch[0]], inlined := l.inlined + inline)
      case FinishBatch => l.(pc := Test, rounds := l.rounds + 1)
      case QuitInLoop => l.(quit := true)
      case Push(p, id) =>
        l.(pending := l.pending + [Functor(p, id)], pushed := l.pushed + [Functor(p, id)], writing := l.writing + {p})
      case QuitByOther(p) => l.(quit := true, writing := l.writing + {p})
      case WriteByte(p) => l.(pipe := l.pipe + 1, writing := l.writing - {p})
  }

  function Run(l: Loop, ops: seq<Op>): Loop
    decreases ops
  {
    if ops == [] then l else Run(Step(l, ops[0]), ops[1..])
  }

  // ----- Exactly once, in order -----

  /** Every pushed functor is run, in the running batch, or still queued: in that order. */
  ghost predicate Fifo(l: Loop) {
    && l.pushed == l.executed + l.batch + l.pending
    && (l.pc != Running ==> l.batch == [])
  }

  lemma SwapKeepsFifo(l: Loop)
    requires Fifo(l) && l.pc == Swapping
    ensures Fifo(Step(l, Swap))
  {
    assert l.executed + l.batch + l.pending == l.executed + l.pending + [];
  }

  lemma RunHeadKeepsFifo(l: Loop, inline: seq<Functor>)
    requires Fifo(l) && l.pc == Running && l.batch != []
    ensures Fifo(Step(l, RunHead(inline))) && l.executed <= Step(l, RunHead(inline)).executed
  {
    assert l.batch == [l.batch[0]] + l.batch[1..];
    assert l.executed + l.batch + l.pending == l.executed + [l.batch[0]] + l.batch[1..] + l.pending;
  }

  lemma PushKeepsFifo(l: Loop, p: nat, id: nat)
    requires Fifo(l) && p !in l.writing
    ensures Fifo(Step(l, Push(p, id))) && l.pushed <= Step(l, Push(p, id)).pushed
  {
    assert l.executed + l.batch + (l.pending + [Functor(p, id)]) == l.pushed + [Functor(p, id)];
  }

  lemma StepKeepsFifo(l: Loop, op: Op)
    requires Fifo(l)
    ensures Fifo(Step(l, op))
    ensures l.pushed <= Step(l, op).pushed && l.executed <= Step(l, op).executed
  {
    if Enabled(l, op) {
      match op {
        case Swap => SwapKeepsFifo(l);
        case RunHead(inline) => RunHeadKeepsFifo(l, inline);
        case Push(p, id) => PushKeepsFifo(l, p, id);
        case _ =>
      }
    }
  }

  lemma {:induction false} RunIsFifo(l: Loop, ops: seq<Op>)
    requires Fifo(l)
    ensures Fifo(Run(l, ops))
    ensures l.pushed <= Run(l, ops).pushed && l.executed <= Run(l, ops).executed
    decreases ops
  {
    if ops != [] {
      StepKeepsFifo(l, ops[0]);
      RunIsFifo(Step(l, ops[0]), ops[1..]);
    }
  }

  /** One producer's functors among `fs`, in order. */
  function Of(fs: seq<Functor>, producer: nat): seq<Functor> {
    if fs == [] then []
    else if fs[0].producer == producer then [fs[0]] + Of(fs[1..], producer)
    else Of(fs[1..], producer)
  }

  lemma {:induction false} OfConcat(a: seq<Functor>, b: seq<Functor>, producer: nat)
    ensures Of(a + b, producer) == Of(a, producer) + Of(b, producer)
  {
    if a == [] {
      assert a + b == b;
    } else {
      assert (a + b)[1..] == a[1..] + b;
      OfConcat(a[1..], b, producer);
    }
  }

  /** The functors other threads hand to runInLoop in a run, in order; a thread that is still on its
      way to write its byte hands over nothing. */
  function Pushes(l: Loop, ops: seq<Op>): seq<Functor>
    decreases ops
  {
    if ops == [] then []
    else
      (if ops[0].Push? && ops[0].producer !in l.writing then [Functor(ops[0].producer, ops[0].id)] else [])
      + Pushes(Step(l, ops[0]), ops[1..])
  }

  lemma StepPushes(l: Loop, op: Op, later: seq<Functor>)
    ensures Step(l, op).pushed + later ==
            l.pushed + ((if op.Push? && op.producer !in l.writing then [Functor(op.producer, op.id)] else []) + later)
  {
  }

  lemma {:induction false} RunPushes(l: Loop, ops: seq<Op>)
    ensures Run(l, ops).pushed == l.pushed + Pushes(l, ops)
    decreases ops
  {
    if ops != [] {
      RunPushes(Step(l, ops[0]), ops[1..]);
      StepPushes(l, ops[0], Pushes(Step(l, ops[0]), ops[1..]));
    }
  }

  /** In every interleaving what has been handed over is what has run, what is running and what still
      waits, in that order: each functor once, and each producer's in the order it handed them over. */
  lemma ExactlyOnceInOrder(ops: seq<Op>, producer: nat)
    ensures var l, handed := Run(INITIAL, ops), Pushes(INITIAL, ops);
            && handed == l.executed + l.batch + l.pending
            && Of(l.executed, producer) <= Of(handed, producer)
            && multiset(handed) == multiset(l.executed) + multiset(l.batch + l.pending)
  {
    RunIsFifo(INITIAL, ops);
    RunPushes(INITIAL, ops);
    var l, handed := Run(INITIAL, ops), Pushes(INITIAL, ops);
    assert l.pushed == [] + handed == handed;
    assert handed == l.executed + (l.batch + l.pending);
    OfConcat(l.executed, l.batch + l.pending, producer);
  }

  // ----- No lost wakeup -----

  /** Pending functors are covered by unread bytes, by producers about to write one, and by
      the one byte read since the last swap; inside poll an unserved quit is covered too. */
  ghost predicate Covered(l: Loop) {
    && |l.pending| <= l.pipe + |l.writing| + Bit(l.consumed)
    && (l.consumed ==> (l.pc == Handling || l.pc == Swapping) && !l.wake)
    && (l.wake ==> l.pc == Handling && l.pipe > 0)
    && (l.pc == Polling ==> |l.pending| + Bit(l.quit) <= l.pipe + |l.writing|)
  }

  lemma StepKeepsCovered(l: Loop, op: Op)
    requires Covered(l)
    ensures Covered(Step(l, op))
  {
    if op.WriteByte? && op.producer in l.writing {
      assert |l.writing - {op.producer}| == |l.writing| - 1;
    }
  }

  lemma {:induction false} RunIsCovered(l: Loop, ops: seq<Op>)
    requires Covered(l)
    ensures Covered(Run(l, ops))
    decreases ops
  {
    if ops != [] {
      StepKeepsCovered(l, ops[0]);
      RunIsCovered(Step(l, ops[0]), ops[1..]);
    }
  }

  /** In every interleaving: a loop inside poll with an empty pipe, and no producer on its way
      to write, has nothing queued and no quit to serve. */
  lemma NoLostWakeup(ops: seq<Op>)
    requires var l := Run(INITIAL, ops); l.pc == Polling && l.pipe == 0 && l.writing == {}
    ensures var l := Run(INITIAL, ops); l.pending == [] && !l.quit && l.executed == l.pushed
  {
    RunIsCovered(INITIAL, ops);
    RunIsFifo(INITIAL, ops);
  }

  // ----- Service -----

  /** How far the iteration that started in `l0` has come. */
  ghost predicate Serving(l0: Loop, l: Loop) {
    if l.rounds == l0.rounds && (l.pc == Polling || l.pc == Handling || l.pc == Swapping) then
      l0.pushed <= l.pushed
    else if l.rounds == l0.rounds && l.pc == Running then
      l0.pushed <= l.executed + l.batch
    else
      l.rounds > l0.rounds && l0.pushed <= l.executed
  }

  lemma StepServes(l0: Loop, l: Loop, op: Op)
    requires Fifo(l) && Serving(l0, l)
    ensures Serving(l0, Step(l, op))
  {
    StepKeepsFifo(l, op);
    var l1 := Step(l, op);
    if Enabled(l, op) {
      match op {
        case Swap => assert l1.executed + l1.batch == l.pushed;
        case RunHead(inline) =>
          assert l.batch == [l.batch[0]] + l.batch[1..];
          assert l1.executed + l1.batch == l.executed + l.batch;
        case FinishBatch => assert l.executed + l.batch == l.executed;
        case _ =>
      }
    }
  }

  lemma {:induction false} RunServes(l0: Loop, l: Loop, ops: seq<Op>)
    requires Fifo(l) && Serving(l0, l)
    ensures Serving(l0, Run(l, ops))
    decreases ops
  {
    if ops != [] {
      StepServes(l0, l, ops[0]);
      StepKeepsFifo(l, ops[0]);
      RunServes(l0, Step(l, ops[0]), ops[1..]);
    }
  }

  /** Whatever was pushed before poll was entered or while it waited has been run once that
      iteration is over, however the producers interleave with it. */
  lemma ServedWithinOneIteration(before: seq<Op>, after: seq<Op>)
    requires Run(INITIAL, before).pc == Polling
    requires Run(Run(INITIAL, before), after).rounds > Run(INITIAL, before).rounds
    ensures Run(INITIAL, before).pushed <= Run(Run(INITIAL, before), after).executed
  {
    var l0 := Run(INITIAL, before);
    RunIsFifo(INITIAL, before);
    RunServes(l0, l0, after);
  }

  /** Steps of the loop's thread alone, whose callbacks ask for nothing. */
  predicate Undisturbed(ops: seq<Op>) {
    forall op | op in ops :: op == PollReturns || op == ReadWakeup || op == FinishHandling || op == Swap
                             || op == RunHead([]) || op == FinishBatch
  }

  lemma {:induction false} RunConcat(l: Loop, a: seq<Op>, b: seq<Op>)
    ensures Run(l, a + b) == Run(Run(l, a), b)
    decreases a
  {
    if a == [] {
      assert a + b == b;
    } else {
      assert (a + b)[0] == a[0] && (a + b)[1..] == a[1..] + b;
      RunConcat(Step(l, a[0]), a[1..], b);
    }
  }

  lemma RunOne(l: Loop, op: Op)
    ensures Run(l, [op]) == Step(l, op)
  {
    assert [op][1..] == [];
    assert Run(Step(l, op), []) == Step(l, op);
  }

  lemma {:induction false} BatchCompletes(l: Loop) returns (ops: seq<Op>)
    requires l.pc == Running
    ensures Undisturbed(ops)
    ensures var d := Run(l, ops);
            d.pc == Test && d.rounds == l.rounds + 1 && d.executed == l.executed + l.batch && d.pending == l.pending
    decreases |l.batch|
  {
    if l.batch == [] {
      ops := [FinishBatch];
      RunOne(l, FinishBatch);
      assert l.executed + [] == l.executed;
    } else {
      var l1 := Step(l, RunHead([]));
      var rest := BatchCompletes(l1);
      ops := [RunHead([])] + rest;
      assert ops[1..] == rest;
      assert l.batch == [l.batch[0]] + l.batch[1..];
      assert l1.executed + l1.batch == l.executed + l.batch;
    }
  }

  lemma HandlingCompletes(l: Loop) returns (ops: seq<Op>)
    requires l.pc == Polling
    ensures Undisturbed(ops)
    ensures var d := Run(l, ops);
            d.pc == Handling && !d.wake && d.rounds == l.rounds
            && d.executed == l.executed && d.pending == l.pending
  {
    var l1 := Step(l, PollReturns);
    RunOne(l, PollReturns);
    ops := [PollReturns];
    if l.pipe > 0 {
      RunConcat(l, [PollReturns], [ReadWakeup]);
      RunOne(l1, ReadWakeup);
      ops := [PollReturns] + [ReadWakeup];
    }
  }

  lemma SwappingCompletes(l: Loop) returns (ops: seq<Op>)
    requires l.pc == Handling && !l.wake
    ensures Undisturbed(ops)
    ensures var d := Run(l, ops);
            d.pc == Test && d.rounds == l.rounds + 1 && d.executed == l.executed + l.pending && d.pending == []
  {
    var l1 := Step(l, FinishHandling);
    var l2 := Step(l1, Swap);
    RunOne(l, FinishHandling);
    RunOne(l1, Swap);
    var rest := BatchCompletes(l2);
    ops := [FinishHandling] + ([Swap] + rest);
    RunConcat(l, [FinishHandling], [Swap] + rest);
    RunConcat(l1, [Swap], rest);
  }

  /** The loop is never stuck: from a poll its thread can finish the iteration by itself, and has
      then run everything that was queued. */
  lemma IterationCompletes(l: Loop) returns (ops: seq<Op>)
    requires Fifo(l) && l.pc == Polling
    ensures Undisturbed(ops)
    ensures var d := Run(l, ops);
            d.pc == Test && d.rounds == l.rounds + 1 && d.executed == l.pushed && d.pending == []
  {
    var handled := HandlingCompletes(l);
    var rest := SwappingCompletes(Run(l, handled));
    ops := handled + rest;
    RunConcat(l, handled, rest);
    assert l.pushed == l.executed + [] + l.pending == l.executed + l.pending;
  }

  /** What callbacks hand to runInLoop on the loop's own thread, in a run. */
  function Inlines(l: Loop, ops: seq<Op>): seq<Functor>
    decreases ops
  {
    if ops == [] then []
    else (if ops[0].RunHead? && l.pc == Running && l.batch != [] then ops[0].inline else []) + Inlines(Step(l, ops[0]), ops[1..])
  }

  /** It is run there and then, in order, and never queued. */
  lemma {:induction false} InlinesRun(l: Loop, ops: seq<Op>)
    ensures Run(l, ops).inlined == l.inlined + Inlines(l, ops)
    decreases ops
  {
    if ops != [] {
      InlinesRun(Step(l, ops[0]), ops[1..]);
      StepInlines(l, ops[0], Inlines(Step(l, ops[0]), ops[1..]));
    }
  }

  lemma StepInlines(l: Loop, op: Op, later: seq<Functor>)
    ensures Step(l, op).inlined + later ==
            l.inlined + ((if op.RunHead? && l.pc == Running && l.batch != [] then op.inline else []) + later)
  {
  }

  function Writes(l: Loop, ops: seq<Op>): nat
    decreases ops
  {
    if ops == [] then 0
    else Bit(ops[0].WriteByte? && ops[0].producer in l.writing) + Writes(Step(l, ops[0]), ops[1..])
  }

  /** How the pipe stands to that of `l0`, which was about to poll a readable one, after `written`
      further bytes. */
  ghost predicate Reading(l0: Loop, l: Loop, written: nat) {
    if l.rounds == l0.rounds then
      match l.pc
      case Polling => l.pipe == l0.pipe + written
      case Handling => l.pipe + Bit(!l.wake) == l0.pipe + written
      case Swapping => l.pipe + 1 == l0.pipe + written
      case Running => l.pipe + 1 == l0.pipe + written
      case _ => false
    else
      l.rounds == l0.rounds + 1 && l.pc == Test ==> l.pipe + 1 == l0.pipe + written
  }

  lemma StepReads(l0: Loop, l: Loop, written: nat, op: Op)
    requires Reading(l0, l, written) && l0.pipe > 0 && l.rounds == l0.rounds
    ensures Reading(l0, Step(l, op), written + Bit(op.WriteByte? && op.producer in l.writing))
    ensures Step(l, op).rounds == l0.rounds || (Step(l, op).rounds == l0.rounds + 1 && Step(l, op).pc == Test)
  {
  }

  /** All but the last of the states a run passes through are still in the iteration it began in. */
  predicate InOneIteration(l: Loop, rounds: nat, ops: seq<Op>)
    decreases ops
  {
    ops == [] || (l.rounds == rounds && InOneIteration(Step(l, ops[0]), rounds, ops[1..]))
  }

  lemma {:induction false} RunReads(l0: Loop, l: Loop, written: nat, ops: seq<Op>)
    requires Reading(l0, l, written) && l0.pipe > 0 && InOneIteration(l, l0.rounds, ops)
    requires l.rounds == l0.rounds || (l.rounds == l0.rounds + 1 && l.pc == Test)
    ensures var d := Run(l, ops);
            && Reading(l0, d, written + Writes(l, ops))
            && (d.rounds == l0.rounds || (d.rounds == l0.rounds + 1 && d.pc == Test))
    decreases ops
  {
    if ops != [] {
      StepReads(l0, l, written, ops[0]);
      RunReads(l0, Step(l, ops[0]), written + Bit(ops[0].WriteByte? && ops[0].producer in l.writing), ops[1..]);
    }
  }

  /** An iteration that polls a readable pipe takes exactly one byte from it, whoever writes meanwhile. */
  lemma IterationReadsOne(l: Loop, ops: seq<Op>)
    requires l.pc == Polling && l.pipe > 0
    requires InOneIteration(l, l.rounds, ops) && Run(l, ops).rounds > l.rounds
    ensures Run(l, ops).pc == Test && Run(l, ops).pipe == l.pipe + Writes(l, ops) - 1
  {
    RunReads(l, l, 0, ops);
  }

  // ----- Quit -----

  /** Some step of the run is a call of loop(). */
  predicate Enters(l: Loop, ops: seq<Op>)
    decreases ops
  {
    ops != [] && ((ops[0].Enter? && Enabled(l, Enter)) || Enters(Step(l, ops[0]), ops[1..]))
  }

  /** Until loop() is called again a quit holds, the next test of the loop returns, and no further
      iteration is begun. */
  lemma {:induction false} QuitIsServed(l: Loop, ops: seq<Op>)
    requires l.quit && l.pc != Start && !Enters(l, ops)
    ensures Run(l, ops).quit
    ensures Run(l, ops).rounds <= l.rounds + 1
    ensures Run(l, ops).pc == Polling ==> l.pc == Polling
    ensures Run(l, ops).rounds > l.rounds ==> Run(l, ops).pc == Test || Run(l, ops).pc == Returned
    ensures l.pc == Test || l.pc == Returned ==> Run(l, ops).rounds == l.rounds && (Run(l, ops).pc == Test || Run(l, ops).pc == Returned)
    decreases ops
  {
    if ops != [] {
      QuitIsServed(Step(l, ops[0]), ops[1..]);
    }
  }

  predicate NoQuits(ops: seq<Op>) {
    forall op | op in ops :: !op.QuitByOther? && !op.QuitInLoop?
  }

  /** A quit, of a callback or of another thread and wherever the loop is, still stands after any
      further steps, no other quit among them, if and only if none of these is a call of loop(). */
  lemma QuitStandsIff(l: Loop, op: Op, ops: seq<Op>)
    requires (op.QuitByOther? || op == QuitInLoop) && Enabled(l, op) && NoQuits(ops)
    ensures Run(Step(l, op), ops).quit <==> !Enters(Step(l, op), ops)
  {
    QuitFlagOver(Step(l, op), ops);
  }

  /** It happens: another thread quits before loop() is first called. */
  lemma QuitBeforeLoop(producer: nat)
    ensures var l := Run(INITIAL, [QuitByOther(producer), WriteByte(producer), Enter, TestQuit]);
            !l.quit && l.pc == Polling
  {
    var ops := [QuitByOther(producer), WriteByte(producer), Enter, TestQuit];
    assert ops[1..] == [WriteByte(producer), Enter, TestQuit] && ops[1..][1..] == [Enter, TestQuit];
    assert ops[1..][1..][1..] == [TestQuit] && [TestQuit][1..] == [];
    var l := Step(Step(INITIAL, ops[0]), ops[1]);
    assert Run(INITIAL, ops) == Run(l, [Enter, TestQuit]) == Run(Step(l, Enter), [TestQuit]);
    assert Run(Step(Step(l, Enter), TestQuit), []) == Step(Step(l, Enter), TestQuit);
  }

  lemma {:induction false} QuitFlagOver(l: Loop, ops: seq<Op>)
    requires NoQuits(ops)
    ensures Run(l, ops).quit <==> l.quit && !Enters(l, ops)
    decreases ops
  {
    if ops != [] {
      assert ops[0] in ops;
      QuitFlagOver(Step(l, ops[0]), ops[1..]);
    }
  }

  // ----- The object -----

  /** What other threads do to the loop, each call run to its end. */
  datatype Event = CallRunInLoop(functor: Functor) | CallQuit

  /** One iteration as the environment shapes it: calls arriving before poll returns, calls
      arriving while the k-th functor runs. */
  datatype Round = Round(atPoll: seq<Event>, during: nat -> seq<Event>)

  /** The calls that arrive while the first `n` functors run. */
  function Arrivals(during: nat -> seq<Event>, n: nat): seq<Event> {
    if n == 0 then [] else Arrivals(during, n - 1) + during(n - 1)
  }

  lemma SeenConcat(pushed: seq<Functor>, seen: seq<Event>, came: seq<Event>)
    ensures pushed + Functors(seen + came) == pushed + Functors(seen) + Functors(came)
  {
    FunctorsConcat(seen, came);
  }

  // What a round brings, decided by the environment's round and the number of functors queued alone.

  /** The calls that arrive in a round begun with `queued` functors. */
  function CameIn(round: Round, queued: nat): seq<Event> {
    round.atPoll + CameLate(round, queued)
  }

  /** Those that arrive while its batch runs. */
  function CameLate(round: Round, queued: nat): seq<Event> {
    Arrivals(round.during, queued + |Functors(round.atPoll)|)
  }

  /** The loop between two rounds, but for which functors are queued. `pushed` and `executed` are all
      those so far. */
  datatype Snapshot = Snapshot(queued: nat, pipe: nat, pushed: seq<Functor>, executed: seq<Functor>, quit: bool)

  /** A round runs everything queued when it began or pushed before its poll returned, and no more;
      of what poll finds readable, it reads one byte. */
  function AfterRound(round: Round, s: Snapshot): Snapshot {
    var came := CameIn(round, s.queued);
    Snapshot(|Functors(CameLate(round, s.queued))|,
             s.pipe + |came| - Bit(s.pipe + |round.atPoll| > 0),
             s.pushed + Functors(came), s.pushed + Functors(round.atPoll), s.quit || CallQuit in came)
  }

  /** After the first `n` rounds. */
  function StateAt(rounds: seq<Round>, n: nat, s: Snapshot): Snapshot
    requires n <= |rounds|
  {
    if n == 0 then s else AfterRound(rounds[n - 1], StateAt(rounds, n - 1, s))
  }

  /** Each round runs what had been pushed when it began, and what came before its poll returned. */
  lemma {:induction false} EachRoundServes(rounds: seq<Round>, k: nat, s: Snapshot)
    requires k < |rounds| && s.executed <= s.pushed
    ensures StateAt(rounds, k + 1, s).executed == StateAt(rounds, k, s).pushed + Functors(rounds[k].atPoll)
    ensures s.pushed <= StateAt(rounds, k, s).pushed <= StateAt(rounds, k + 1, s).pushed
    ensures StateAt(rounds, k, s).executed <= StateAt(rounds, k, s).pushed
  {
    FunctorsConcat(rounds[k].atPoll, CameLate(rounds[k], StateAt(rounds, k, s).queued));
    if k > 0 {
      EachRoundServes(rounds, k - 1, s);
      FunctorsConcat(rounds[k - 1].atPoll, CameLate(rounds[k - 1], StateAt(rounds, k - 1, s).queued));
    }
  }

  /** A round that polls a readable pipe leaves it one byte short of what the calls have written. */
  lemma ReadableIsRead(round: Round, s: Snapshot)
    requires s.pipe > 0 || round.atPoll != []
    ensures AfterRound(round, s).pipe == s.pipe + |CameIn(round, s.queued)| - 1
  {
  }

  /** Somebody calls quit() in the round, before poll returns or while one of its functors runs. */
  ghost predicate QuitsIn(round: Round) {
    CallQuit in round.atPoll || QuitsDuring(round.during)
  }

  ghost predicate QuitsDuring(during: nat -> seq<Event>) {
    exists k :: CallQuit in during(k)
  }

  lemma {:induction false} QuitAmongArrivals(during: nat -> seq<Event>, n: nat)
    requires CallQuit in Arrivals(during, n)
    ensures QuitsDuring(during)
  {
    if CallQuit !in during(n - 1) { QuitAmongArrivals(during, n - 1); }
  }

  /** The flag is set in a round only if somebody calls quit() in it. */
  lemma OnlyQuitsQuit(round: Round, s: Snapshot)
    requires !s.quit && AfterRound(round, s).quit
    ensures QuitsIn(round)
  {
    if CallQuit !in round.atPoll {
      QuitAmongArrivals(round.during, s.queued + |Functors(round.atPoll)|);
    }
  }

  /** And every quit() before poll returns sets it. */
  lemma QuitAtPollQuits(round: Round, s: Snapshot)
    requires CallQuit in round.atPoll
    ensures AfterRound(round, s).quit
  {
  }

  lemma {:induction false} NobodyQuits(rounds: seq<Round>, n: nat, s: Snapshot)
    requires n <= |rounds| && !s.quit && forall k | 0 <= k < n :: !QuitsIn(rounds[k])
    ensures !StateAt(rounds, n, s).quit
  {
    if n > 0 {
      NobodyQuits(rounds, n - 1, s);
      if StateAt(rounds, n, s).quit { OnlyQuitsQuit(rounds[n - 1], StateAt(rounds, n - 1, s)); }
    }
  }

  class EventLoop {
    var looping: bool
    var quit: bool
    var callingPendingFunctors: bool
    var pendingFunctors: seq<Functor>
    var pipe: nat
    ghost var pushed: seq<Functor>
    ghost var executed: seq<Functor>
    ghost var inlined: seq<Functor>

    constructor ()
      ensures !looping && !quit && pendingFunctors == [] && pipe == 0
      ensures pushed == [] && executed == [] && inlined == []
    {
      looping, quit, callingPendingFunctors := false, false, false;
      pendingFunctors, pipe := [], 0;
      pushed, executed, inlined := [], [], [];
    }

    /** Between calls every queued functor has its own unread byte. */
    ghost predicate Valid()
      reads this
    {
      pushed == executed + pendingFunctors && |pendingFunctors| <= pipe
    }

    ghost function Now(): Snapshot
      reads this
    {
      Snapshot(|pendingFunctors|, pipe, pushed, executed, quit)
    }

    method Wakeup()
      modifies this`pipe
      ensures pipe == old(pipe) + 1
    {
      pipe := pipe + 1;
    }

    method HandleRead()
      requires pipe > 0
      modifies this`pipe
      ensures pipe == old(pipe) - 1
    {
      pipe := pipe - 1;
    }

    method Quit(inLoop: bool)
      modifies this`quit, this`pipe
      ensures quit && pipe == old(pipe) + (if inLoop then 0 else 1)
    {
      quit := true;
      if !inLoop {
        Wakeup();
      }
    }

    method RunInLoop(cb: Functor, inLoop: bool)
      modifies this`pendingFunctors, this`pipe, this`pushed, this`inlined
      ensures inLoop ==> inlined == old(inlined) + [cb] && pushed == old(pushed)
                         && pendingFunctors == old(pendingFunctors) && pipe == old(pipe)
      ensures !inLoop ==> inlined == old(inlined) && pushed == old(pushed) + [cb]
                          && pendingFunctors == old(pendingFunctors) + [cb] && pipe == old(pipe) + 1
    {
      if inLoop {
        inlined := inlined + [cb];
      } else {
        pendingFunctors := pendingFunctors + [cb];
        pushed := pushed + [cb];
        if !inLoop || callingPendingFunctors {
          Wakeup();
        }
      }
    }

    /** Calls from other threads arrive. */
    method Arrive(events: seq<Event>)
      modifies this`quit, this`pipe, this`pendingFunctors, this`pushed, this`inlined
      ensures pendingFunctors == old(pendingFunctors) + Functors(events)
      ensures pushed == old(pushed) + Functors(events)
      ensures pipe == old(pipe) + |events|
      ensures quit <==> old(quit) || CallQuit in events
      ensures inlined == old(inlined)
    {
      for i := 0 to |events|
        invariant pendingFunctors == old(pendingFunctors) + Functors(events[..i])
        invariant pushed == old(pushed) + Functors(events[..i])
        invariant pipe == old(pipe) + i
        invariant quit <==> old(quit) || CallQuit in events[..i]
        invariant inlined == old(inlined)
      {
        assert events[..i + 1][..i] == events[..i];
        match events[i] {
          case CallRunInLoop(f) => RunInLoop(f, false);
          case CallQuit => Quit(false);
        }
      }
      assert events[..|events|] == events;
    }

    /** The batch is what was queued at the swap, run in order; what arrives meanwhile waits,
        with a byte each in the pipe. */
    method DoPendingFunctors(during: nat -> seq<Event>)
      requires pushed == executed + pendingFunctors
      modifies this
      ensures executed == old(executed) + old(pendingFunctors)
      ensures var came := Arrivals(during, |old(pendingFunctors)|);
              && pendingFunctors == Functors(came)
              && pushed == old(pushed) + Functors(came)
              && pipe == old(pipe) + |came|
              && (quit <==> old(quit) || CallQuit in came)
      ensures looping == old(looping) && inlined == old(inlined) && !callingPendingFunctors
    {
      callingPendingFunctors := true;
      var callbacks := pendingFunctors;
      pendingFunctors := [];
      ghost var pushed0, executed0, pipe0, quit0 := pushed, executed, pipe, quit;
      for i := 0 to |callbacks|
        invariant executed == executed0 + callbacks[..i]
        invariant Came(Arrivals(during, i), pendingFunctors, pushed0, pushed, pipe0, pipe, quit0, quit)
        invariant looping == old(looping) && inlined == old(inlined)
      {
        executed := executed + [callbacks[i]];
        assert callbacks[..i + 1] == callbacks[..i] + [callbacks[i]];
        MoreCame(Arrivals(during, i), during(i), pendingFunctors, pushed0, pushed, pipe0, pipe, quit0, quit);
        Arrive(during(i));
      }
      callingPendingFunctors := false;
    }

    /** One iteration of loop(): everything queued when it began is run, with what came before poll
        returned; what came later is queued; a readable pipe is read once. */
    method Iterate(round: Round)
      requires Valid() && looping
      modifies this
      ensures Valid() && looping && inlined == old(inlined)
      ensures Now() == AfterRound(round, old(Now()))
      ensures pendingFunctors == Functors(CameLate(round, |old(pendingFunctors)|))
    {
      RoundSums(round, pendingFunctors, executed, pushed);
      Arrive(round.atPoll);
      if pipe > 0 {
        HandleRead();
      }
      DoPendingFunctors(round.during);
    }

    /** loop(), for as many rounds as the environment has. It runs them all, in order, unless quit()
        is called in one, which is then the last; a quit from before is forgotten. */
    method LoopFor(rounds: seq<Round>) returns (done: nat)
      requires Valid() && !looping
      modifies this
      ensures Valid() && !looping && inlined == old(inlined)
      ensures done <= |rounds| && (rounds != [] ==> done > 0)
      ensures Now() == StateAt(rounds, done, old(Now()).(quit := false))
      ensures forall k | 0 <= k < done :: !StateAt(rounds, k, old(Now()).(quit := false)).quit
      ensures done < |rounds| ==> quit
      ensures quit ==> done > 0 && QuitsIn(rounds[done - 1])
      ensures (forall k | 0 <= k < |rounds| :: !QuitsIn(rounds[k])) ==> done == |rounds| && !quit
    {
      looping := true;
      quit := false;
      done := 0;
      ghost var start, inlined0 := Now(), inlined;
      while !quit && done < |rounds|
        invariant Valid() && looping && inlined == inlined0
        invariant done <= |rounds| && Now() == StateAt(rounds, done, start)
        invariant forall k | 0 <= k < done :: !StateAt(rounds, k, start).quit
        invariant quit ==> done > 0 && QuitsIn(rounds[done - 1])
        decreases |rounds| - done
      {
        ghost var before := Now();
        Iterate(rounds[done]);
        if quit {
          OnlyQuitsQuit(rounds[done], before);
        }
        done := done + 1;
      }
      looping := false;
    }
  }

  /** The sums a round comes to. */
  lemma RoundSums(round: Round, pending: seq<Functor>, executed: seq<Functor>, pushed: seq<Functor>)
    requires pushed == executed + pending
    ensures executed + (pending + Functors(round.atPoll)) == pushed + Functors(round.atPoll)
    ensures pushed + Functors(round.atPoll) + Functors(CameLate(round, |pending|)) == pushed + Functors(CameIn(round, |pending|))
    ensures CallQuit in CameIn(round, |pending|) <==> CallQuit in round.atPoll || CallQuit in CameLate(round, |pending|)
    ensures |CameIn(round, |pending|)| == |round.atPoll| + |CameLate(round, |pending|)|
    ensures CameLate(round, |pending|) == Arrivals(round.during, |pending + Functors(round.atPoll)|)
  {
    SeenConcat(pushed, round.atPoll, CameLate(round, |pending|));
  }

  /** The functors among the calls. */
  function Functors(events: seq<Event>): (fs: seq<Functor>)
    ensures |fs| <= |events|
  {
    if events == [] then []
    else
      var n := |events| - 1;
      match events[n]
      case CallRunInLoop(f) => Functors(events[..n]) + [f]
      case CallQuit => Functors(events[..n])
  }

  /** The calls `came` have brought the queue, the log, the pipe and the flag to where they are. */
  ghost predicate Came(came: seq<Event>, pending: seq<Functor>, pushed0: seq<Functor>, pushed: seq<Functor>,
                       pipe0: nat, pipe: nat, quit0: bool, quit: bool) {
    && pending == Functors(came)
    && pushed == pushed0 + Functors(came)
    && pipe == pipe0 + |came|
    && (quit <==> quit0 || CallQuit in came)
  }

  lemma MoreCame(came: seq<Event>, more: seq<Event>, pending: seq<Functor>, pushed0: seq<Functor>, pushed: seq<Functor>,
                 pipe0: nat, pipe: nat, quit0: bool, quit: bool)
    requires Came(came, pending, pushed0, pushed, pipe0, pipe, quit0, quit)
    ensures Came(came + more, pending + Functors(more), pushed0, pushed + Functors(more),
                 pipe0, pipe + |more|, quit0, quit || CallQuit in more)
  {
    SeenConcat(pushed0, came, more);
    FunctorsConcat(came, more);
  }

  lemma {:induction false} FunctorsConcat(a: seq<Event>, b: seq<Event>)
    ensures Functors(a + b) == Functors(a) + Functors(b)
  {
    if b == [] {
      assert a + b == a;
    } else {
      assert (a + b)[..|a + b| - 1] == a + b[..|b| - 1];
      FunctorsConcat(a, b[..|b| - 1]);
    }
  }
}
