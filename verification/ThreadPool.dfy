/** EventLoopThreadPool.cpp: round-robin choice of an I/O loop. Loops are numbered; without
    worker threads every connection goes to the base loop. */
module ThreadPools {
  import opened Common

  type LoopId = nat

  class EventLoopThreadPool {
    const baseLoop: LoopId
    var started: bool
    var numThreads: nat
    var next: nat
    var loops: seq<LoopId>
    // The loops on which the thread-init callback has run, each on its own thread.
    ghost var initialised: seq<LoopId>

    constructor (baseLoop: LoopId)
      ensures this.baseLoop == baseLoop && !started && numThreads == 0 && next == 0 && loops == []
      ensures initialised == []
    {
      this.baseLoop := baseLoop;
      started, numThreads, next, loops, initialised := false, 0, 0, [], [];
    }

    ghost predicate Valid()
      reads this
    {
      started && (if loops == [] then next == 0 else next < |loops|)
    }

    method SetThreadNum(numThreads: nat)
      modifies this`numThreads
      ensures this.numThreads == numThreads
    {
      this.numThreads := numThreads;
    }

    /** `spawned` are the loops the worker threads start, in order. A thread runs the callback, if
        there is one, before startLoop() returns its loop; without threads the base loop runs it. */
    method Start(spawned: seq<LoopId>, callback: bool)
      requires !started && loops == [] && next == 0 && initialised == [] && |spawned| == numThreads
      modifies this`started, this`loops, this`initialised
      ensures Valid() && loops == spawned
      ensures initialised == if !callback then [] else if spawned == [] then [baseLoop] else spawned
    {
      var i := 0;
      while i < numThreads
        invariant i <= numThreads && loops == spawned[..i]
        invariant initialised == if callback then spawned[..i] else []
      {
        StartLoop(spawned[i], callback);
        loops := loops + [spawned[i]];
        i := i + 1;
      }
      if numThreads == 0 && callback {
        initialised := initialised + [baseLoop];
      }
      started := true;
    }

    /** EventLoopThread::startLoop, which waits until its thread has published the loop. */
    method StartLoop(loop: LoopId, callback: bool)
      modifies this`initialised
      ensures initialised == if callback then old(initialised) + [loop] else old(initialised)
    {
      if callback {
        initialised := initialised + [loop];
      }
    }

    method GetNextLoop() returns (loop: LoopId)
      requires Valid()
      modifies this`next
      ensures Valid()
      ensures loop == if loops == [] then baseLoop else loops[old(next)]
      ensures loops != [] ==> next == if old(next) + 1 == |loops| then 0 else old(next) + 1
    {
      loop := baseLoop;
      if loops != [] {
        loop := loops[next];
        next := next + 1;
        if next >= |loops| {
          next := 0;
        }
      }
    }

    method GetLoopAtIndex(index: nat) returns (loop: LoopId)
      requires Valid()
      ensures loop == if loops == [] then baseLoop else loops[index % |loops|]
    {
      loop := baseLoop;
      if loops != [] {
        loop := loops[index % |loops|];
      }
    }

    /** `count` accepted connections in a row, from a spawned cursor: the i-th goes to the loop
        that the index i selects. */
    method Assign(count: nat) returns (chosen: seq<LoopId>)
      requires Valid() && next == 0
      modifies this`next
      ensures Valid() && |chosen| == count
      ensures loops == [] ==> forall i | 0 <= i < count :: chosen[i] == baseLoop
      ensures loops != [] ==> next == count % |loops| && forall i | 0 <= i < count :: chosen[i] == loops[i % |loops|]
    {
      chosen := [];
      while |chosen| < count
        invariant Valid() && |chosen| <= count
        invariant loops == [] ==> forall i | 0 <= i < |chosen| :: chosen[i] == baseLoop
        invariant loops != [] ==> next == |chosen| % |loops|
        invariant loops != [] ==> forall i | 0 <= i < |chosen| :: chosen[i] == loops[i % |loops|]
      {
        if loops != [] {
          SuccMod(|chosen|, |loops|);
        }
        var loop := GetNextLoop();
        chosen := chosen + [loop];
      }
    }
  }

  lemma SuccMod(i: nat, n: nat)
    requires n > 0
    ensures if i % n + 1 == n then (i + 1) % n == 0 && (i + 1) / n == i / n + 1
            else (i + 1) % n == i % n + 1 && (i + 1) / n == i / n
  {
    DivModNext(i, n, i / n, i % n);
  }

  lemma DivModNext(i: nat, n: nat, q: nat, r: nat)
    requires r < n && i == q * n + r
    ensures if r + 1 == n then (i + 1) % n == 0 && (i + 1) / n == q + 1
            else (i + 1) % n == r + 1 && (i + 1) / n == q
  {
    if r + 1 == n {
      assert (q + 1) * n == q * n + n;
      DivModUnique(i + 1, n, q + 1, 0);
    } else {
      DivModUnique(i + 1, n, q, r + 1);
    }
  }

  /** How many of the first `count` connections go to the k-th of `n` loops. */
  function Load(count: nat, n: nat, k: nat): nat
    requires n > 0
  {
    if count == 0 then 0 else Load(count - 1, n, k) + (if (count - 1) % n == k then 1 else 0)
  }

  /** Balance: every loop gets the floor, and the first `count % n` of them one more. */
  lemma {:induction false} LoadIsBalanced(count: nat, n: nat, k: nat)
    requires k < n
    ensures Load(count, n, k) == count / n + (if k < count % n then 1 else 0)
  {
    if count > 0 {
      LoadIsBalanced(count - 1, n, k);
      SuccMod(count - 1, n);
    } else {
      DivModUnique(0, n, 0, 0);
    }
  }
}
