# A verified model of reactor_rpc

`reactor_rpc` is a reactor-style TCP and RPC library: event loops that poll channels, connections
that buffer what a socket will not take, a server that spreads connections over I/O threads, a
client that reconnects with backoff, and a length-prefixed framing of calls. This project models
its core in Dafny and proves what that core keeps over every run.

System calls are the environment: `write` takes any part of what it is given or fails, `read`
yields data, end of file or an error, `poll` reports any events, `connect` ends in any of its
outcomes. Each handler, and each check-and-set of `state_`, is one atomic step. A failed assert,
an `exit(1)` or undefined behaviour is the flag `broken`; nothing runs after it.

Most components come as a state machine (a datatype and its step functions), as the class whose
methods are proved to take their object exactly where the step functions go, and as theorems
about all runs of the machine. The methods of `EventLoop` and `EventLoopThreadPool` are proved
against contracts of their own: one such call spans several steps of the interleaved loop
machine, and the pool has no machine.

| file | component |
|---|---|
| `Common.dfy`, `Channel.dfy` | byte strings; the channel object and its requests of the poller |
| `Connection.dfy`, `TcpConnection.dfy` | the connection machine and the TcpConnection object |
| `ConnectionStream.dfy`, `ConnectionClose.dfy`, `ConnectionEffects.dfy` | lossless output stream; half-close, single close, channel discipline; what each call and dispatch brings about |
| `PollTable.dfy`, `PollPoller.dfy`, `PollDiscipline.dfy` | the poll table, the PollPoller object, and why the table watches what channels ask for |
| `EventLoop.dfy` | functor queue and wakeup pipe over all interleavings, and the EventLoop object |
| `ThreadPool.dfy`, `ServerLifecycle.dfy`, `TcpServer.dfy` | round robin; the two-loop close handshake and the TcpServer object |
| `ServerConnections.dfy`, `ServerSystem.dfy`, `ServerPolls.dfy` | the whole server: handshake, connections, other threads and pollers together |
| `Framing.dfy`, `RpcEndpoints.dfy` | header arithmetic and reassembly; the RPC_Server and RPC_Client objects |
| `Connector.dfy`, `TcpClientMachine.dfy`, `ConnectorObjects.dfy` | backoff and socket ownership; the client; the Connector and TcpClient objects |
| `EndToEnd.dfy` | one call from `send` to `handle_request`, and its reply back to the waiting call |

`dafny verify dfyconfig.toml` checks everything.

## Where the code departs from what it is for

Each of these is proved, with the exact condition under which the code does what it should; where
a run is at fault, a lemma gives one from the initial state.

- A `send` of another thread that is still queued when its connection closes is written to the
  closed side, switches write events on again, and makes `connectDestroyed` fail the assert of
  `Channel::remove`. A closed connection can be destroyed, and keeps its discipline towards the
  poller, if and only if no queued functor has bytes to send (`ConnectionClose.DestroyableIff`,
  `PollDiscipline.ClosedIsDisciplinedIff`, `ConnectionClose.SendAcrossCloseBreaks`). Over the whole
  server this and the demands on `poll` are all that a step needs (`ServerSystems.StepTiesIff`).
- `PollPoller::removeChannel` keeps the table consistent if and only if the removed slot is the
  last (`PollTables.EraseKeepsIff`, `PollTables.FirstOfTwoErased`). What the channel above then
  does is said by `PollTables.UpdateAfterMiddleErase` and `PollTables.EraseAfterMiddleErase`;
  `PollTables.EraseThenReindexKeeps` says that re-indexing is the missing step. Over whole runs a
  poller stays consistent if and only if it removes last slots only (`PollDiscipline.ConsistentIff`,
  `ServerPolls.PollersConsistentIff`). Two connections on one loop are enough for it not to: the
  second close fails an assert (`ServerPolls.SecondCloseFails`).
- A channel that loses all interest and gets one back is never watched again until it is removed
  (`PollTables.ParkedIffOff`, `PollTables.RefinesIff`, `PollTables.SwitchedOnUnwatched`).
  Connections do not do this (`PollDiscipline.ConnectionIsDisciplined`), nor does the connector
  (`Connectors.ChannelsAreDisciplined`).
- `sendInLoopChar` rebuilds its remainder as a C string (`ConnectionStream.SendCharsExactIff`). For
  the four-byte header it is exact if and only if its own write takes all four
  (`EndToEnd.HeaderSafeIff`, `EndToEnd.ShortWriteBreaks`).
- A half-close is final exactly when no functor of the connection is still queued
  (`ConnectionClose.HalfCloseFinalIff`, `ConnectionClose.HalfCloseWithSendQueued`); with callers on
  the loop's thread none ever is.
- POLLHUP without POLLIN runs close and then read; an assert fails exactly when that read
  returns end of file (`ConnectionClose.DispatchBreaksIff`, `ConnectionClose.HangUpThenEofBreaks`).
- A quit is forgotten if and only if `loop()` is called after it (`EventLoops.QuitStandsIff`,
  `EventLoops.QuitBeforeLoop`).
- With signed `char` the header is read back exactly when bits 7, 15 and 23 of the length are
  clear (`Framing.HeaderRoundTrip`, `Framing.LengthMisread`). Shifts and additions are taken modulo
  2^32 in two's complement.
- A first chunk under four bytes fires a request on an empty buffer (`Framing.ShortFirstChunkFires`).
- The client's waiting call is not notified when its whole reply comes in one chunk
  (`Framing.NotifiedIff`). The constructor's registration of `onMessage` is commented out in
  `RPC_Client.h:27`; the model takes it as registered.
- `Connector::resetChannel` runs inline, because `runInLoop` does so on the loop's thread,
  although the comment at `Connector.cpp:106` says the channel cannot be reset there.
- After a connection closes without a restart the connector stays in `kConnected`, so no socket
  is ever opened again (`TcpClientMachine.ReconnectsIff`) and a further `connect()` fails the
  assert of `startInLoop` (`TcpClientMachine.StepBreaksIff`, `TcpClientMachine.ConnectTwiceBreaks`).
- `sleep` takes seconds and is given milliseconds times 1000; the model records the argument.

## Model

| member | source | states |
|---|---|---|
| Channels.Channel.EnableReading | Channel.h:38 | Read interest is added to what there was, and the poller is told the new interest |
| Channels.Channel.EnableWriting | Channel.h:39 | Write interest is added to what there was, and the poller is told the new interest |
| Channels.Channel.DisableWriting | Channel.h:42 | Only write interest is dropped, and the poller is told the new interest |
| Channels.Channel.DisableAll | Channel.h:43 | All interest is dropped, and the poller is told |
| Channels.Channel.Update | Channel.cpp:42-45 | The poller gets the current interest and the channel counts as added |
| Channels.Channel.Remove | Channel.cpp:47-51 | Only a channel without interest is removed; the poller is told once |
| ConnectionStream.RunConserves | TcpConnection.cpp:52-166 | After any run by any threads, wire followed by buffer is every accepted message in order; a live connection has write interest exactly while bytes are buffered; no requested half-close is forgotten |
| ConnectionStream.StepKeeps | TcpConnection.cpp:52-166 | Each handler and each call of another thread keeps that invariant |
| ConnectionStream.SendCharsExactIff | TcpConnection.cpp:130-148 | The char-pointer send accepts exactly its message if and only if its own write took all of it or the memory is a C string of that length |
| ConnectionStream.SendCharsKeeps | TcpConnection.cpp:130-166 | In those cases it does the same as the string send |
| ConnectionClose.HalfCloseFinalIff | TcpConnection.cpp:52-113 | After a half-close no write and no second shutdown can follow if and only if no functor of the connection is queued |
| ConnectionClose.HalfCloseIsDrained | TcpConnection.cpp:101-113 | Whoever calls, the step that half-closes an open connection leaves every accepted byte on the wire, and is final if and only if no functor is queued |
| ConnectionClose.HalfCloseWithSendQueued | TcpConnection.cpp:101-106 | A run that half-closes while a send of another thread is queued |
| ConnectionClose.RunKept | TcpConnection.cpp:37-166 | Over every run of the loop's thread and any others whose steps meet their demands, no assert fails, the close callback runs once per closed connection and the channel keeps its discipline |
| ConnectionClose.StepKeptIff | TcpConnection.cpp:37-166 | One step of anybody keeps all of that if and only if its demands are met: established once, no POLLNVAL, no end of file behind POLLHUP alone, destroyed while registered, closed with no bytes queued |
| ConnectionClose.DestroyableIff | TcpConnection.cpp:83-91 | Whatever follows a close, connectDestroyed passes its assert, if and only if no queued functor still has bytes to send |
| ConnectionClose.SendAcrossCloseBreaks | TcpConnection.cpp:115-120 | A run of five steps in which it does not: a send of another thread, end of file, then the send's functor, then connectDestroyed |
| ConnectionClose.RunLocal | TcpConnection.cpp:37-128 | With loop-thread callers, besides: at most one half-close, and only over a drained buffer |
| ConnectionClose.GracefulHalfClose | TcpConnection.cpp:101-113 | If all callers up to the half-close are on the loop's thread, it comes once, every accepted byte is on the wire, and whatever anybody does after it writes nothing and half-closes no more |
| ConnectionClose.DispatchBreaksIff | Channel.cpp:17-40 | For every event set without POLLNVAL, a dispatch on a live connection fails an assert exactly on POLLHUP without POLLIN followed by end of file, and closes at most once |
| ConnectionClose.WriteAfterCloseIsIdle | TcpConnection.cpp:52-77 | A write callback after the close in the same dispatch changes nothing: the dispatch is the close |
| ConnectionEffects.SendReaches | TcpConnection.cpp:149-166 | A send on the loop's thread of a connected connection is accepted; over an idle output as much as write() takes is on the wire at once and the rest is buffered, otherwise all of it is buffered |
| ConnectionEffects.QueuedSendRuns | TcpConnection.cpp:115-120 | A queued send, when its functor runs, does exactly that |
| ConnectionEffects.ActsPerform | TcpConnection.cpp:101-166 | Of a list of user calls every message up to the first shutdown is accepted, behind what is buffered; a shutdown half-closes an empty buffer once and turns the rest away |
| ConnectionEffects.DispatchReads | TcpConnection.cpp:37-50 | A dispatch that does not close runs the message callback on data: everything it sends is accepted, and its shutdown takes effect |
| ConnectionEffects.DispatchWrites | TcpConnection.cpp:52-69 | On POLLOUT, and only then, a dispatch writes from the front of everything buffered as much as write() takes; the rest stays, and write interest and a waiting half-close go by whether anything does |
| ConnectionEffects.EstablishPerforms | TcpConnection.cpp:93-99 | The connection is connected and reading, and what the connection callback sends or asks is carried out |
| ConnectionEffects.ShutdownAsks | TcpConnection.cpp:101-106 | A shutdown by any thread changes the state at once; on the loop's thread an empty buffer is half-closed at once, another thread's request is queued |
| ConnectionEffects.QueuedShutdownRuns | TcpConnection.cpp:108-113 | Its functor half-closes an empty buffer and leaves a full one to the writes |
| ConnectionEffects.DrainHalfCloses | TcpConnection.cpp:52-69 | Over any run of writable dispatches of a disconnecting connection the buffer shrinks strictly, in order, and the dispatch that empties it half-closes, once |
| ConnectionEffects.DrainedInTime | TcpConnection.cpp:52-69 | As many such dispatches as there are bytes put all of them on the wire and half-close |
| TcpConnections.TcpConnection.constructor | TcpConnection.cpp:26-35 | A new object is in the machine's initial state |
| TcpConnections.TcpConnection.HandleWrite | TcpConnection.cpp:52-69 | Takes the object where the machine's HandleWrite goes |
| TcpConnections.TcpConnection.HandleClose | TcpConnection.cpp:71-77 | Given the source's assert, takes the object where the machine's HandleClose goes |
| TcpConnections.TcpConnection.HandleRead | TcpConnection.cpp:37-50 | Data goes to the user's callback, end of file closes, an error does neither |
| TcpConnections.TcpConnection.HandleEvent | Channel.cpp:17-40 | The channel's callbacks in their order take the object where the machine's Dispatch goes |
| TcpConnections.TcpConnection.ConnectEstablished | TcpConnection.cpp:93-99 | Given the source's assert, takes the object where the machine's Establish goes |
| TcpConnections.TcpConnection.ConnectDestroyed | TcpConnection.cpp:83-91 | Takes the object where the machine's Destroy goes, its branch for an open connection included |
| TcpConnections.TcpConnection.Shutdown | TcpConnection.cpp:101-106 | The state changes at once, the half-close inline or through the queue |
| TcpConnections.TcpConnection.ShutdownInLoop | TcpConnection.cpp:108-113 | Half-closes exactly when nothing waits to be written |
| TcpConnections.TcpConnection.Send | TcpConnection.cpp:115-120 | Only a connected connection sends, inline or through the queue |
| TcpConnections.TcpConnection.SendChars | TcpConnection.cpp:122-127 | The same for a char pointer |
| TcpConnections.TcpConnection.SendInLoop | TcpConnection.cpp:149-166 | Direct write, buffered remainder and write interest as the machine's SendInLoop has them |
| TcpConnections.TcpConnection.SendInLoopChar | TcpConnection.cpp:130-148 | The same with the remainder taken from the C string |
| TcpConnections.TcpConnection.UserCallback | TcpConnection.h:24-26 | User code's sends and shutdowns, in order, are the machine's PerformAll |
| TcpConnections.StrLen | TcpConnection.cpp:142 | The index of the first zero byte |
| PollTables.RunKeeps | PollPoller.cpp:28-61 | Over every run of updates and last-slot removals vector, map and indices agree and no assert of the poller fails |
| PollTables.ModifyRewrites | PollPoller.cpp:39-52 | An update rewrites the channel's own slot with its interest, ignored once it has had none, reporting nothing until the next poll, and touches no other |
| PollTables.EraseShifts | PollPoller.cpp:55-61 | Removing slot k leaves exactly the channels above k with an index one too large |
| PollTables.EraseKeepsIff | PollPoller.cpp:58 | The removal keeps the table consistent if and only if the slot is the last |
| PollTables.FirstOfTwoErased | PollPoller.cpp:55-61 | Two registrations and the removal of the first leave an inconsistent table |
| PollTables.EraseThenReindexKeeps | PollPoller.cpp:55-61 | Moving the indices above k down by one restores consistency after any removal |
| PollTables.UpdateAfterMiddleErase | PollPoller.cpp:40-46 | After a middle removal, an update of a channel above it passes the asserts exactly when its stale index still points at an ignored slot |
| PollTables.EraseAfterMiddleErase | PollPoller.cpp:55-61 | After a middle removal, removing a channel above it passes unless that channel sat last, and then erases the slot of the next channel up |
| PollTables.CloseAboveFails | PollPoller.cpp:40-46 | After a lower channel is switched off and removed, switching off the channel in the last slot fails an assert |
| PollTables.ParkedIffOff | PollPoller.cpp:44-51 | A slot is ignored exactly when its channel was updated to no interest since it was registered, whatever it asked for afterwards |
| PollTables.RefinesIff | PollPoller.cpp:28-61 | The watched slots are the channels' interests if and only if no channel with an ignored slot wants anything |
| PollTables.SwitchedOnUnwatched | PollPoller.cpp:44-51 | Registered, switched off and on again, a channel wants an event and nothing is watched |
| PollDiscipline.ConnectionIsDisciplined | TcpConnection.cpp:37-166 | In every run of any threads that meets its steps' demands a connection's channel, once without interest, is only removed |
| PollDiscipline.ClosedIsDisciplinedIff | TcpConnection.cpp:149-166 | After a close this goes on to hold, whatever follows, if and only if no queued functor still has bytes to send |
| PollDiscipline.AlternatingIsAdmissible | PollPoller.cpp:28-61 | Requests of disciplined channels of which every removal is of the last slot are all the poller asks for, and the table holds the descriptors not removed |
| PollDiscipline.ConsistentIff | PollPoller.cpp:28-61 | For channels that are registered once, then used, then removed, over every run: no assert fails and vector, map and indices agree after every request, if and only if every removal was of the last slot |
| PollDiscipline.PollerWatchesInterests | PollPoller.cpp:28-61 | Over every run of disciplined channels, descriptors reused and interleaved at will, whose removals are of last slots only, the poller watches exactly their interests |
| PollPollers.PollPoller.UpdateChannel | PollPoller.cpp:28-53 | Given the source's asserts, takes the table where its Register or Modify step goes, and files the channel |
| PollPollers.PollPoller.RemoveChannel | PollPoller.cpp:55-61 | Takes the table where its Erase step goes, and clears the channel's index |
| PollPollers.PollPoller.Poll | PollPoller.cpp:7-11 | On a consistent table the channels listed are those whose slots were reported, in order, with their own revents |
| PollPollers.PollPoller.FillActiveChannels | PollPoller.cpp:12-26 | For any count the early-exit scan lists the first that many active slots of the full scan, each channel given its slot's revents and no other touched |
| PollPollers.ConsistentTableScans | PollPoller.cpp:18-21 | On a consistent table whose ignored slots report nothing every lookup of the scan succeeds and no descriptor occurs twice |
| EventLoops.RunIsFifo | EventLoop.cpp:73-100 | In every interleaving what was pushed is what was executed, then the rest of the batch, then the queue |
| EventLoops.ExactlyOnceInOrder | EventLoop.cpp:73-100 | In every interleaving what other threads handed to runInLoop is what was executed, then the batch, then the queue: each functor once, each producer's in its order |
| EventLoops.RunIsCovered | EventLoop.cpp:49-111 | Pending functors are bounded by unread bytes, producers about to write, and the one byte read since the last swap |
| EventLoops.NoLostWakeup | EventLoop.cpp:49-111 | Inside poll with an empty pipe and no producer in flight, nothing is queued and no quit is unserved |
| EventLoops.ServedWithinOneIteration | EventLoop.cpp:55-62 | What was pushed before a poll has been executed once that iteration is over |
| EventLoops.IterationCompletes | EventLoop.cpp:55-62 | The loop is never stuck: from a poll its thread alone can finish the iteration, and has then run everything queued |
| EventLoops.QuitIsServed | EventLoop.cpp:52-62 | A quit after line 53 holds until loop() is called again, and at most the current iteration is finished |
| EventLoops.QuitStandsIff | EventLoop.cpp:49-53 | A quit, by a callback or another thread, stands, wherever the loop was when it came, if and only if loop() is not called after it |
| EventLoops.EventLoop.RunInLoop | EventLoop.cpp:73-85 | Inline on the loop's thread, otherwise queued with one byte written |
| EventLoops.EventLoop.DoPendingFunctors | EventLoop.cpp:87-100 | Runs exactly what was queued at the swap, in order; arrivals meanwhile wait with a byte each |
| EventLoops.EventLoop.Quit | EventLoop.h:28-32 | The flag is set, and the pipe written unless on the loop's thread |
| EventLoops.EventLoop.HandleRead | EventLoop.cpp:108-111 | One byte is taken from the pipe |
| EventLoops.EventLoop.Iterate | EventLoop.cpp:55-62 | One iteration leaves the loop where the calls that arrive take it: it runs everything queued when it began or pushed before poll returned and nothing later, and reads one byte of a readable pipe |
| EventLoops.EventLoop.LoopFor | EventLoop.cpp:49-65 | Earlier quits are forgotten; the rounds are run one after another from where the last left off, at least one if there are any, and all of them unless quit() is called in one, which is then the last |
| EventLoops.EachRoundServes | EventLoop.cpp:55-62 | Each round of loop() runs exactly what had been pushed when it began and what came before its poll returned |
| EventLoops.ReadableIsRead | EventLoop.cpp:102-111 | A round that polls a readable pipe leaves it one byte short of what was written |
| EventLoops.OnlyQuitsQuit | EventLoop.cpp:55-62 | A round ends with the flag set only if quit() was called in it |
| EventLoops.NobodyQuits | EventLoop.cpp:55-62 | Rounds without a quit() leave the flag clear |
| EventLoops.InlinesRun | EventLoop.cpp:73-76 | What callbacks hand to runInLoop on the loop's thread is run at once and in order, and nothing else is |
| EventLoops.IterationReadsOne | EventLoop.cpp:102-111 | In every interleaving an iteration that polls a readable pipe takes exactly one byte from it |
| ThreadPools.EventLoopThreadPool.Start | EventLoopThreadPool.cpp:13-28 | The started loops are listed in order, and the thread-init callback has run once on each of them, or on the base loop if there are none |
| ThreadPools.EventLoopThreadPool.GetNextLoop | EventLoopThreadPool.cpp:30-41 | The loop under the cursor, or the base loop; the cursor stays in range and wraps around |
| ThreadPools.EventLoopThreadPool.GetLoopAtIndex | EventLoopThreadPool.cpp:43-53 | The loop the index selects modulo their number, or the base loop |
| ThreadPools.EventLoopThreadPool.Assign | EventLoopThreadPool.cpp:30-41 | From a fresh cursor the i-th choice is the loop at i modulo their number |
| ThreadPools.LoadIsBalanced | EventLoopThreadPool.cpp:30-41 | After N choices each of n loops has the floor of N/n, and the first N mod n one more |
| ServerLifecycle.LifecycleSafe | TcpServer.cpp:50-79 | In every interleaving of the handshake the asserts of removeConnectionInLoop (TcpServer.cpp:76), handleClose and connectEstablished (TcpConnection.cpp:73 and 95) hold, every queued connectDestroyed is for a closed connection that is registered and off, each connection holds one phase token, closes at most once and sits on its round-robin loop; sends and pollers are those of ServerSystems and ServerPolls |
| ServerLifecycle.OpenDestroyIsNoticed | TcpConnection.cpp:83-91 | Met open, connectDestroyed would run the close callback |
| ServerLifecycle.StepKeeps | TcpServer.cpp:50-79 | Each step of either kind of loop keeps the handshake's invariant |
| ServerLifecycle.PhasesAdvance | TcpServer.cpp:50-79 | No connection goes back a phase; the one a step concerns advances by exactly one, or from open to destroyed when there are no I/O threads |
| ServerLifecycle.DrainedRegistry | TcpServer.cpp:73-79 | With every queue empty the registry is the set of open connections and all others are closed once and out of their poller |
| ServerLifecycle.CloseInline | TcpServer.cpp:69-79 | Without I/O threads the whole handshake runs inside handleClose |
| TcpServers.TcpServer.NewConnection | TcpServer.cpp:50-67 | Takes the server where its machine's NewConnection goes, with the pool's next loop |
| TcpServers.TcpServer.RemoveConnection | TcpServer.cpp:69-71 | Takes the server where its machine's CloseCallback goes |
| TcpServers.TcpServer.RemoveConnectionInLoop | TcpServer.cpp:73-79 | Given the source's assert, takes the server where its machine's removal goes |
| TcpServers.TcpServer.HandleClose | TcpConnection.cpp:71-77 | The close of a connection seen from the server |
| TcpServers.TcpServer.ConnectEstablished | TcpConnection.cpp:93-99 | The establishment of a connection seen from the server |
| TcpServers.TcpServer.ConnectDestroyed | TcpConnection.cpp:83-91 | The destruction of a connection seen from the server, its branch for an open one included |
| ServerConnections.EstablishIsSeen | TcpConnection.cpp:93-99 | The connection machine's establishment moves the server's record as the handshake has it |
| ServerConnections.StepIsSeen | TcpConnection.cpp:37-166 | Between establishment and destruction the record changes only by a half-close request or the one close, which comes exactly on POLLHUP alone or a read that meets end of file |
| ServerConnections.DestroyIsSeen | TcpServer.cpp:73-79 | Where the handshake calls connectDestroyed the connection is closed and registered, and the call passes its assert if and only if write events are off; then it only takes the channel from the poller |
| ServerSystems.StepTiesIff | TcpServer.cpp:50-79 | One step of any loop or thread keeps every connection sound and equal to the server's record of it if and only if its demands on poll and on queued sends are met |
| ServerSystems.SystemSafe | TcpServer.cpp:50-79 | Over every run of all loops and threads that meets these demands no assert of TcpServer, TcpConnection or Channel fails, records and connections agree, each closes once, streams are lossless and channels disciplined |
| ServerSystems.RunIsRun | TcpServer.cpp:50-79 | In every run of the whole server each connection goes where its own calls, dispatches and functors take it, from the initial state |
| ServerSystems.RunServerIsRun | TcpServer.cpp:50-79 | And its server goes where the accepts, the loops' tasks and the closes and half-closes of its connections take the handshake |
| ServerPolls.PollersConsistentIff | PollPoller.cpp:28-61 | In every such run of the whole server each poller has stayed consistent and failed no assert if and only if every removal was of its last slot |
| ServerPolls.PollersSafe | PollPoller.cpp:28-61 | In every such run a poller whose removals were all of its last slot has failed no assert and watches exactly its loop's own channels and open connections, each for what it asks |
| ServerPolls.SecondCloseFails | PollPoller.cpp:40-46 | Two accepted connections on one loop whose peers end their streams one after the other meet every demand, and the second close fails an assert of the poller |
| Framing.CalHeaders | Codec.h:75-85 | The four bytes of the 32-bit length, most significant first |
| Framing.HeaderRoundTrip | Codec.h:75-85 | For every length below 2^32 the decoded header is the length if and only if chars are unsigned or bits 7, 15 and 23 are clear |
| Framing.ServeIsPerConnection | RPC_Server.h:38-62 | After any interleaving each connection's buffer, length and requests are what its own chunks come to |
| Framing.Reassembly | RPC_Server.h:38-62 | The buffer is the stream minus four bytes; the request fires at most once, with the declared bytes, and exactly when a chunk ends at the frame's end |
| Framing.ShortFirstChunkFires | RPC_Server.h:41-43 | A first chunk under four bytes fires once, on an empty buffer, and is dropped |
| Framing.ClientAgreesWithServer | RPC_Client.h:49-88 | For a positive length behind a whole header the client's condition holds in exactly the states where the server's does |
| Framing.ReceiveAny | RPC_Client.h:59-88 | On any chunks at all: what comes before the first positive length leaves its bytes after the header, a short chunk nothing; that length then stands and everything after its header is appended |
| Framing.ShortChunksDropped | RPC_Client.h:60-63 | Chunks under four bytes before any header leave the client as if they had not come |
| Framing.FirstChunkAgreesIff | RPC_Client.h:59-77 | On a first chunk alone the two conditions differ exactly for an incomplete header or an empty frame |
| Framing.NotifiedIff | RPC_Client.h:78-86 | A complete reply has notified the waiting call exactly when it came in more than one chunk |
| RpcEndpoints.RpcServer.OnMessage | RPC_Server.h:38-62 | Takes the object where the reassembly machine goes, default entries included |
| RpcEndpoints.RpcClient.OnMessage | RPC_Client.h:59-88 | Takes the object where the client machine goes |
| RpcEndpoints.ParseHeader | RPC_Server.h:45-49 | Four wrapping 32-bit additions come to the declared length |
| Connectors.StartKeeps | Connector.cpp:24-84 | However connect and its retries go, sockets stay accounted for, a channel exists exactly while connecting, the delay stays in bounds and nothing is handed over |
| Connectors.Backoff | Connector.cpp:114-124 | The whole outcome of a start, for any answers of connect() and any requests during the sleeps: equal sleeps, a delay doubled as often up to 30000, which sockets were opened and closed, which is being connected |
| Connectors.UnstoppedRuns | Connector.cpp:114-124 | Without a stop during a sleep these are as many sleeps as failures, and one socket more |
| Connectors.ErrorRetries | Connector.cpp:139-145 | A failed connect gives its socket up and, if wanted, backs off and opens further ones, as Backoff has it; if not, it does no more |
| Connectors.StopRetries | Connector.cpp:91-98 | So does a stopped one, which is wanted only if a start has come since |
| Connectors.WriteHandsOver | Connector.cpp:126-137 | A connect that succeeds takes its channel from the poller and hands its socket over, or closes it if it is not wanted |
| Connectors.RestartBacksOff | Connector.cpp:147-153 | A restart is wanted, and backs off from the initial delay |
| Connectors.HandleErrorKeeps | Connector.cpp:139-145 | A failed connect keeps the ownership invariant |
| Connectors.StopKeeps | Connector.cpp:91-98 | A stop keeps the ownership invariant and hands nothing over |
| Connectors.ChannelsAreDisciplined | Connector.cpp:73-112 | Each socket's channel has asked the poller for nothing, for write events while it is in use, or for these, then none, then its removal |
| Connectors.IdsCountOnce | Connector.cpp:34 | Each opened socket is counted once |
| TcpClientMachine.StepBreaksIff | Connector.cpp:24-30 | On a consistent client an assert of connector or client fails exactly when start() finds the connector not disconnected |
| TcpClientMachine.ConnectTwiceBreaks | Connector.cpp:24-30 | Two connects on a new client fail it |
| TcpClientMachine.SocketsAccountedFor | Connector.cpp:19-153 | Over every such run each socket opened is held, closed once or handed over once; each one handed over became the next connection, established once, and destroyed before the next |
| TcpClientMachine.RunKeeps | TcpClient.cpp:33-91 | Over every run in which starts find the connector disconnected the client stays consistent |
| TcpClientMachine.StopIsFinal | TcpClient.cpp:51-54 | After stop, until the next connect, nothing is handed over, opened or slept for |
| TcpClientMachine.StopStops | Connector.cpp:86-98 | A stop reaches that state and, on the loop's thread, drops the channel at once |
| TcpClientMachine.ReconnectsIff | TcpClient.cpp:76-91 | A closed connection is followed by another socket if it retries and is wanted, and otherwise never |
| TcpClientMachine.FlagsFollow | TcpClient.cpp:33-54 | Over every run the client is wanted exactly if its last connect came after its last stop or disconnect, and retries exactly if it was told to |
| TcpClientMachine.ReconnectsOverRuns | TcpClient.cpp:76-91 | So over every run the close of the open connection destroys it and, in just that case, opens further sockets from the initial delay; otherwise none is ever opened again |
| TcpClientMachine.ConnectStarts | TcpClient.cpp:33-36 | connect() makes the client wanted and on the loop's thread opens sockets at once; another thread's is queued |
| TcpClientMachine.QueuedStartRuns | Connector.cpp:24-30 | The queued start opens sockets when it runs, if still wanted |
| TcpClientMachine.StopGivesUp | TcpClient.cpp:51-54 | stop() makes the client unwanted and on the loop's thread gives a connect under way up for good; another thread's is queued |
| TcpClientMachine.QueuedStopRuns | Connector.cpp:91-98 | The queued stop gives it up when it runs, with a retry only if a start has come since |
| TcpClientMachine.ErrorIsRetried | Connector.cpp:139-145 | The failure of a connect under way is retried |
| TcpClientMachine.WritableConnects | TcpClient.cpp:56-74 | The success of a wanted connect makes one established connection of its socket; an unwanted one is closed |
| TcpClientMachine.DisconnectShutsDown | TcpClient.cpp:38-49 | disconnect() makes the client unwanted, shuts the current connection down and leaves the connector be |
| ConnectorObjects.Connector.StartInLoop | Connector.cpp:24-30 | Takes the object where the machine goes |
| ConnectorObjects.Connector.Connect | Connector.cpp:32-71 | Takes the object where the machine goes, for each class of errno |
| ConnectorObjects.Connector.BeginConnecting | Connector.cpp:73-84 | Given the source's assert, the channel holds the socket |
| ConnectorObjects.Connector.Retry | Connector.cpp:114-124 | Closes, sleeps, starts again inline and then doubles the delay, as the machine does |
| ConnectorObjects.Connector.HandleWrite | Connector.cpp:126-137 | Hands the socket over exactly when still wanted, else closes it |
| ConnectorObjects.Connector.HandleError | Connector.cpp:139-145 | Takes the object where the machine goes |
| ConnectorObjects.Connector.StopInLoop | Connector.cpp:91-98 | Takes the object where the machine goes |
| ConnectorObjects.Connector.Restart | Connector.cpp:147-153 | Takes the object where the machine goes, from the initial delay |
| ConnectorObjects.Connector.RemoveAndResetChannel | Connector.cpp:100-112 | The channel is switched off and removed from the poller, is gone at once, and its socket is returned |
| ConnectorObjects.Connector.Start | Connector.cpp:19-22 | The flag at once, the start inline or through the queue |
| ConnectorObjects.Connector.Stop | Connector.cpp:86-89 | The flag at once, the stop inline or through the queue |
| ConnectorObjects.TcpClient.Connect | TcpClient.cpp:33-36 | Takes the client where its machine goes |
| ConnectorObjects.TcpClient.Stop | TcpClient.cpp:51-54 | Takes the client where its machine goes |
| ConnectorObjects.TcpClient.Disconnect | TcpClient.cpp:38-49 | Takes the client where its machine goes |
| ConnectorObjects.TcpClient.EnableRetry | TcpClient.h:41 | Takes the client where its machine goes |
| ConnectorObjects.TcpClient.NewConnection | TcpClient.cpp:56-74 | The socket's connection becomes the current one and is established |
| ConnectorObjects.TcpClient.OnWritable | Connector.cpp:126-137 | A connection is made exactly when the connector hands a socket over |
| ConnectorObjects.TcpClient.RemoveConnection | TcpClient.cpp:76-91 | Given the source's assert, the connection is destroyed before any restart, as its machine has it |
| EndToEnd.FrameReceived | RPC_Server.h:38-62 | However a prefix of a frame is cut, the server has that much of the payload and fires once, with exactly the payload, if and only if all of it came |
| EndToEnd.FrameArrives | RPC_Server.h:38-62 | The same for what any run of a connection that accepted a frame, or part of one, has put on the wire |
| EndToEnd.CallArrives | RPC_Client.h:41-44 | For a call on a thread of its own whose header is taken whole, every interleaving of its two functors with whatever sends nothing else, every pattern of partial writes and every cutting of the wire delivers a prefix of the payload, handled once and exactly when all of it came; unless the connection closes first, all of it is sent |
| EndToEnd.ReplyArrives | RPC_Server.h:104-109 | For a reply sent on the loop's thread whose header is taken whole, the waiting call's condition holds exactly when the whole reply came, and its buffer is then the reply; on a connection that is up, all of it is sent |
| EndToEnd.HeaderSafeIff | Codec.h:75-85 | A send of the four allocated header bytes is safe if and only if its own write takes all four |
| EndToEnd.ShortWriteBreaks | TcpConnection.cpp:130-148 | Two of the four header bytes taken: the remainder starts past the end of the rebuilt string |

## Left out

- ConnectionStream.RunConserves: a char-pointer send must be safe when it executes (its write takes
  all of it, or the memory is a C string of its length); `SendCharsExactIff` shows that is exact.
- ConnectionClose.RunKept: takes steps that meet their demands; `StepKeptIff` shows these are exact.
- ConnectionClose.RunLocal: takes callers on the loop's thread; `HalfCloseFinalIff` and
  `HalfCloseIsDrained` say exactly what happens without this.
- ServerSystems.SystemSafe: takes steps that meet their demands; `StepTiesIff` shows these are
  exact. Descriptors are one per connection there; `PollerWatchesInterests` has them reused.
- ServerPolls.PollersSafe: takes removals of the last slot only, by `PollersConsistentIff`.
- PollTables.RunKeeps: takes removals of the last slot only, by `EraseKeepsIff`.
- PollDiscipline.PollerWatchesInterests: takes removals of the last slot only, by `ConsistentIff`.
- Framing.Reassembly: chunks are not empty, since `read` returned a positive count.
- Negative lengths passed to `send(const char*, int)`.
- `write` to the wakeup pipe always succeeds, as it does on a blocking pipe once there is room.
- Requests that arrive while the connector sleeps reach the connector; the client's own
  `connect_` flag set by such a call is a step of its own (`WantOp`, `DisconnectOp`).
- User callbacks of a client's connection do not call back into the client.
- JSON packing and unpacking, function dispatch and `traits.h`: payloads are opaque bytes.
- `Socket.cpp`, `InetAddress.cpp`, socket options, logging and `main.cpp`; of `Acceptor.cpp` only its
  channel and the callback are there.
- `Poller.cpp` (a copy of `PollPoller.cpp`), `KqueuePoller`, `ThreadPool.h`, `ThreadSafeQueue.h`,
  `CountdownLatch.h`, `ThreadJoiner.h`, `Timer.h` and `TimerFd`.
- Memory lifetime (a channel reset inside its own `handleEvent`, leaked headers), data races of
  the C++ memory model, and real time.
- Connection names are their counter; descriptors of the connector are numbered as opened.
