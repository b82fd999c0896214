# Bellagio OpenMAX IL: the buffer protocol, verified

A Dafny model of the hard parts of the Bellagio OpenMAX IL 1.1 runtime: how buffers
travel between an IL client or a tunnelled peer, a component's message thread and its
buffer management thread, and the pieces that protocol rests on. Check it with
`dafny verify dfyconfig.toml`.

Two forms are used. Where several threads share data, the code is a state machine whose
steps are the code's own atomic actions (a semaphore call, a ring call, a section under a
mutex, one test of a flag), and the results are about every interleaving. Where one
function updates fields, arrays or links in place, it is a method on a class with those
fields, proved against a specification function, and the results are about that function.

| File | What it models |
|---|---|
| `Ring.dfy` | the circular linked ring of `queue.c`, and its destruction |
| `ConcurrentRing.dfy` | the same ring under concurrent callers, whose tests are outside the mutex |
| `Semaphore.dfy` | the counting semaphore made of a mutex and a condition variable |
| `FlushProtocol.dfy` | a filter's manager, its message thread and any number of senders, flushing ports that are not suppliers |
| `FlushHistory.dfy` | the same runs with the commands that led to them |
| `FlushCommands.dfy` | what one command does to the two ports, from its first step to its last |
| `TunnelExchange.dfy` | both ends of a tunnel, four threads, the commands of the supplier, flushes of either end |
| `TunnelLimits.dfy` | which tunnels can come to dequeue NULL, by the commands given to the supplier |
| `PortBuffers.dfy` | sending, returning and flushing as single calls on the fields of a port |
| `FilterStream.dfy` | the filter's loop as a stream transformer |
| `TunnelSetup.dfy` | tunnel negotiation and supplier override |
| `BufferSlots.dfy` | slot arrays: allocate, use, free, and populating and depopulating a tunnel |
| `Population.dfy` | the `pAllocSem` handshake over any number of cycles between Loaded and Idle |
| `Lifecycle.dfy` | the state graph and the command queue |
| `Mixer.dfy` | 16-bit mixing and the mixer's pass over its inputs |
| `Enumeration.dfy` | finding components by index, name and role |
| `Registry.dfy` | the registrar's search path, the file it writes, the loader that reads it |

## What the proofs found

Each of these is proved; the code is modelled as it is.

- A flush can hang behind a pause. The manager may have tested the state and not yet be waiting
  when `tsem_signal` comes, and the wait has no predicate. After a given history of commands the
  next flush hangs on some interleaving if and only if the component has been in Pause since its
  last flush, that flush included, or since the start (`FlushHistory.FlushCanHangExactly`). It may
  still be paused, the flush's own signal being lost, or Executing again: the resume loses its
  signal, and a flush while Executing sends none. Every other flush is answered within nineteen
  manager steps (`FlushHistory.UnpausedFlushIsAnswered`). A waiting flush can still be answered if
  and only if the manager neither sleeps nor is about to (`FlushProtocol.AnswerableExactly`), unless
  `pthread_cond_wait` returns for no reason, which POSIX allows and which is enough
  (`FlushProtocol.SpuriousWakeAnswers`).
- A tunnelled supplier can come to hand out more semaphore units than it has buffers, and then a
  flush dequeues NULL. Its flush resets the semaphore after counting the ring, when a peer may be
  between `queue` and `tsem_up`; a flush in Idle hands out the units of the restart before the next
  command to Executing does so again; and Pause to Executing hands out a unit for each buffer
  whenever none seems to be out. With n buffers and k units at a restart,
  `TunnelLimits.NullDequeuedExactly` says which tunnels can come to it: if the client never pauses
  and flushes only in Executing, exactly those with k >= 1 and k >= n; if it also flushes in Idle,
  those with k >= 1 and 2k >= n; if it pauses, those with a buffer or a unit, that is all that carry
  anything. k is the peer's minimum and n the supplier's count, both 2 unless a component sets them
  (src/base/omx_base_port.c:39, 41, 923, 1053). No buffer changes place because of it before that
  dequeue (`TunnelExchange.EveryBufferInOnePlace`).
- An input with the end of stream flag is reported, by an event and a flagged output, if and only if
  it has no other flag and, when it is empty, an output buffer was held or queued
  (`FilterStream.EndOfStreamReportedExactly`, for a pass of the loop
  `FilterStream.Filter.PassAtEndOfStream`; a run that loses it, `FilterStream.EmptyEndOfStreamIsLost`).
- A foreign mark is lost if and only if a later one comes before the next output is made
  (`FilterStream.MarkIsLostExactly`).
- `MAX_QUEUE_ELEMENTS` is 10 but nine buffers fit the ring, and a tenth is dropped silently
  (`ConcurrentRing.NineBuffersAndNoMore`).
- Against an output end that leaves the choice to the input end, a failed setup can leave the
  input port remembering that it supplies (`TunnelSetup.RefusedRemembers`), and the next ordinary
  setup of the same ports then succeeds with no supplier (`TunnelSetup.RefusedThenNoSupplier`).
  `OMX_SetupTunnel` over ports of this code alone never changes what the input port remembers,
  except to forget it (`TunnelSetup.SetupTunnel`).
  `OMX_SetupTunnel` calls through NULL when only an input handle is given and it rejects the request.
- Supplier overrides leave two suppliers, or none, exactly when one that asks for something new is
  not taken by the other end (`TunnelSetup.OneSupplierThroughoutExactly`).
- `FreeBuffer` outside the way to Loaded, and a second command to Idle while the first is
  pending, break the population handshake; both have their exact condition (`Population.FreeIsSafeExactly`,
  `Population.RepeatedIdleIsSafeExactly`).
- WaitForResources to Idle starts no buffer management thread (`Lifecycle.ThreadExistsExactly`).
- A sender that lets a tenth command be pending ends the message thread in the state Loaded; with at
  most nine it ends in Invalid only (`Lifecycle.NineCommandsAndNoMore`).
- The mixer's `SetConfig` refuses volumes above 100 but none below. Which volumes overflow for no
  samples is decided by two extreme inputs (`Mixer.NeverOverflowsExactly`). From -100 to 100 it is
  decided by the signs: exactly volumes of different signs can overflow
  (`Mixer.SignsDecideWithinHundred`). Below that signs decide nothing (`Mixer.SignsDoNotDecideBelow`).
- `OMX_GetHandle` reports a lack of resources only if it was the last loader's
  (`Enumeration.GetHandle`).

## Model

| member | source | states |
|---|---|---|
| Ring.Ring.constructor | src/queue.c:41-58 | nine nodes in a closed ring, empty |
| Ring.Ring.Enqueue | src/queue.c:89-98 | the contents grow by one at the end, or nothing changes when the ring is full |
| Ring.Ring.Dequeue | src/queue.c:107-120 | the head leaves, the ring turns by one node, NULL exactly when empty |
| Ring.Ring.GetNelem | src/queue.c:128-134 | the counter is the length of the contents |
| Ring.Ring.Deinit | src/queue.c:65-81 | each of the nine nodes is freed, none twice, and none is read after it is freed |
| ConcurrentRing.RingCallsAreAtomic | src/queue.c:89-120 | with at most nine buffers and one taker, every interleaving of the test and the locked part keeps FIFO order and loses and overwrites nothing |
| ConcurrentRing.NineBuffersAndNoMore | src/queue.c:41-58 | no run can lose a buffer if and only if there are at most nine |
| ConcurrentRing.CallsSucceed | src/queue.c:89-120 | on such a run a lone taker gets the oldest buffer if there is one, and a caller of `queue` gets in |
| Semaphore.BlockedExactlyAtZero | src/tsemaphore.c:62-80 | over all runs, spurious wake-ups included, a thread inside `tsem_down` can go on if and only if the value is positive |
| Semaphore.SettlesLikeACounter | src/tsemaphore.c:62-80 | left alone, the waiters take as many units as there are or as they are |
| Semaphore.ValueIsConserved | src/tsemaphore.c:62-90 | the value is the initial one plus ups, less downs and what resets cleared |
| Semaphore.CallsAreCounted | src/tsemaphore.c:62-90 | each `tsem_up` adds one unit, and each thread that called `tsem_down` waits there or has taken one |
| FlushProtocol.MutualExclusion | src/base/omx_base_port.c:171-229 | in every interleaving the two flush semaphores never hold more than one unit together |
| FlushProtocol.DrainIsExclusive | src/base/omx_base_port.c:187-227 | while a port is emptied the manager is parked on `flush_condition` and holds none of its buffers |
| FlushProtocol.PortDownNeverBlocks | src/base/omx_base_filter.c:151-175 | a port semaphore seen positive is positive at the `tsem_down`, in both threads, and the dequeue finds a buffer |
| FlushProtocol.BuffersComeBackInOrder | src/base/omx_base_filter.c:91-175 | what arrived at a port is, in order, what was handed back, then the buffers in hand, then the ring |
| FlushProtocol.FlushOutcome | src/base/omx_base_port.c:192-214 | when the drain ends, everything has been handed back except buffers whose sender has not raised the semaphore |
| FlushCommands.OnePortIsFlushed | src/base/omx_base_component.c:1368-1371 | in every interleaving a flush of port p never flags the other port and hands none of its buffers back; when the message thread is idle again all that had come to p when the command began is back, but for senders before their semaphore |
| FlushCommands.BothPortsAreFlushed | src/base/omx_base_component.c:1359-1367 | a flush of all ports, and a command from Executing to Idle, do so for both ports; the state is then as it was, or Idle |
| FlushCommands.OthersDoNotFlush | src/base/omx_base_component.c:428-529 | any other state command raises no flag, hands nothing back, and its state is entered |
| FlushProtocol.DrainTerminates | src/base/omx_base_port.c:192-214 | the drain loop takes a bounded number of steps whatever senders do |
| FlushProtocol.NoLostWakeup | src/base/omx_base_filter.c:125-144 | a manager blocked on `bMgmtSem` waits for a port whose queued buffers all belong to senders that have still to signal, and no flush waits for it |
| FlushProtocol.MgmtIsConserved | src/base/omx_base_filter.c:125-144 | on every run `bMgmtSem` is what senders and flushes raised less what the manager took and flushes cleared |
| FlushProtocol.BothGoBack | src/base/omx_base_filter.c:197-264 | outside Pause an input and an output in hand, filled and consumed, both go back within five manager steps |
| FlushProtocol.OnlyInputGoesBack | src/base/omx_base_filter.c:253-264 | with one of them missing nothing is processed, and an empty input goes back within three |
| FlushProtocol.FlushFindsManagerAwake | src/base/omx_base_port.c:173-185 | with a flush announced, the manager is blocked if and only if it sleeps on `bStateSem` |
| FlushProtocol.FlushIsAnswered | src/base/omx_base_filter.c:91-123 | a manager that neither sleeps on `bStateSem` nor is about to answers within nineteen of its steps in every interleaving |
| FlushProtocol.AnswerableExactly | src/base/omx_base_filter.c:253-256 | a waiting flush can be answered on some continuation without spurious wake-ups if and only if the manager neither sleeps on `bStateSem` nor is about to |
| FlushProtocol.HungForever | src/tsemaphore.c:96-110 | a flush that waits for a manager that sleeps or is about to stays unanswered on every continuation without spurious wake-ups |
| FlushProtocol.SpuriousWakeAnswers | src/tsemaphore.c:96-110 | one spurious wake-up lets the flush be answered |
| FlushProtocol.WokenExactly | src/base/omx_base_port.c:179-182 | a manager asleep on `bStateSem` is woken by a command that leaves Pause, by the signal of a flush outside Executing, by no reason, and by nothing else |
| FlushHistory.FlushCanHangExactly | src/base/omx_base_filter.c:239-256 | after any history of commands, a flush hangs on some interleaving if and only if the component has been in Pause since its last flush, that one included, or since the start |
| FlushHistory.UnpausedFlushIsAnswered | src/base/omx_base_filter.c:91-123 | a flush after any other history is answered within nineteen manager steps in every interleaving |
| FlushHistory.PausedFlushCanHang | src/base/omx_base_filter.c:253-256 | the flush of a paused component, its signal sent, can hang |
| FlushHistory.ExecutingFlushCanHang | src/base/omx_base_port.c:179-182 | so can the flush of an Executing component, which sends no signal |
| TunnelExchange.EveryBufferInOnePlace | src/base/omx_base_port.c:835-892 | in every state of every run, rejected sends, flushes of either end and all state commands of the supplier included, every tunnel buffer is in exactly one ring or hand of the two ends and no ring overflows, as long as no thread has gone on with a NULL |
| TunnelExchange.RingsAreFifo | src/queue.c:89-120 | no step of any thread takes from a ring anything but its head, or puts anything but at its end |
| TunnelExchange.SemIsConserved | src/base/omx_base_port.c:835-892 | on every run the supplier's semaphore is what returns of either end and restarts raised less what was taken, waited for and reset |
| TunnelExchange.OfferedToPeer | src/base/omx_base_port.c:777-826 | a buffer goes to the peer if and only if that is enabled, manages buffers, and is not being disabled, flushed or brought to Idle; else to the supplier's own ring |
| TunnelExchange.OfferedToSupplier | src/base/omx_base_port.c:777-826 | a buffer goes back to the supplier if and only if that is enabled and manages buffers, flushed or not |
| TunnelExchange.CommandReachesItsState | src/base/omx_base_component.c:428-529 | once a command is done, whatever the threads did meanwhile, the supplier's component is in the state it named |
| TunnelExchange.PeerFindsBuffers | src/base/omx_base_port.c:192-206 | the threads of the other end never dequeue NULL, on any run |
| TunnelExchange.TimelyRunsAreUnbroken | src/base/omx_base_port.c:192-223 | in a run whose resets come with few enough threads at the supplier's port, which resumes from Pause only with all buffers home and none, and does not go from Pause to Idle, no thread dequeues NULL and the semaphore never exceeds the ring |
| TunnelExchange.SupplierFlushOutcome | src/base/omx_base_port.c:207-223 | a supplier's flush ends with all its buffers in its ring, each once, its semaphore 0 or, once a late thread has raised it, 1; 0 in a timely run whose restart hands out a unit for each buffer |
| TunnelExchange.PeerFlushOutcome | src/base/omx_base_port.c:192-206 | a flush of the other end leaves at most the one buffer whose semaphore is still to be raised |
| TunnelExchange.SupplierFlushIsWoken | src/base/omx_base_port.c:217-222 | a supplier waiting for its buffers is not left waiting once they are back |
| TunnelExchange.SupplierDrainTerminates | src/base/omx_base_port.c:192-214 | on every run moving the ring round ends within a bound on the semaphore and the buffers, in a timely one on the buffers alone, whatever the peer sends meanwhile |
| TunnelExchange.PeerDrainTerminates | src/base/omx_base_port.c:192-214 | on every run the other end's flush empties its ring within a bound, whatever the supplier sends meanwhile |
| TunnelLimits.NullDequeuedExactly | src/base/omx_base_component.c:428-529 | for any n buffers, nine at most, and any k units at a restart: some run dequeues NULL if and only if k >= 1 and k >= n without Pause and flushes in Idle, k >= 1 and 2k >= n without Pause, n >= 1 or k >= 1 with it |
| TunnelLimits.RoomyTunnelIsUnbroken | src/base/omx_base_component.c:428-529 | under the same conditions, in any other tunnel the semaphore never exceeds the ring and no run dequeues NULL, however flushes and threads fall |
| TunnelLimits.ExceedsTheRing | src/base/omx_base_component.c:489-529 | runs, one for each condition, that end with all buffers home and more units than buffers |
| TunnelLimits.NullDequeued | src/base/omx_base_port.c:192-206 | from there all buffers leave and the next flush dequeues NULL |
| PortBuffers.Port.SendBufferFunction | src/base/omx_base_port.c:753-830 | each error code by its guard, with no effect; else the header is queued and the port's semaphore raised, and the manager's too unless a supplier is being flushed or disabled |
| PortBuffers.Port.ReturnBufferFunction | src/base/omx_base_port.c:835-895 | to the client, through the tunnel with both indices set, or back to the own ring when the peer refuses or a flush is on |
| PortBuffers.Port.FlushOne | src/base/omx_base_port.c:197-214 | one header leaves the head of the ring for the client, the peer, or the end of the same ring; NULL exactly when the ring is empty |
| PortBuffers.Port.FlushProcessingBuffers | src/base/omx_base_port.c:164-244 | for any semaphore and ring: it meets NULL exactly when there are more units than headers, or at a supplier units and an empty ring; it waits exactly at a supplier whose buffers are not all back; else the flag is down and `flush_condition` up. As many headers as it counted go back in order, and a supplier's ring is turned |
| PortBuffers.RotatedKeeps | src/base/omx_base_port.c:207-208 | turning a supplier's ring loses and doubles no header |
| FilterStream.Filter.ManagerLoop | src/base/omx_base_filter.c:88-265 | over any schedule of arrivals, what comes back is the stream function of the inputs taken; outputs are supplied buffers and inputs handed back, each in order. Field by field: but for empty buffers output k has sample by sample the gain of input k's; with no empty inputs its time, flag and foreign mark too; each mark for this component is reported with its data and no other |
| FilterStream.Filter.Pass | src/base/omx_base_filter.c:88-265 | one pass keeps all of this and settles exactly the input it takes: processed if an output was held, queued or came in time, skipped if it is empty and none did, else kept |
| FilterStream.Filter.Process | src/base/omx_base_filter.c:197-251 | with an input and an output in hand, exactly that input is accounted for as processed |
| FilterStream.Filter.TakeMark | src/base/omx_base_filter.c:177-195 | a mark for this component gives one event with its data; any other is kept to pass on and gives none |
| FilterStream.Filter.ReturnInput | src/base/omx_base_filter.c:258-264 | an input goes back exactly when it is empty, processed or not |
| FilterStream.FilledInputsAreMapped | src/base/omx_base_filter.c:197-251 | inputs that are not empty map one to one, in order: samples, copied timestamp, foreign mark, flag; one event for each self mark and each end of stream |
| FilterStream.StreamOnlyGrows | src/base/omx_base_filter.c:244-250 | more inputs never change the outputs and events already given |
| FilterStream.OutputsGoBackExactly | src/base/omx_base_filter.c:244-250 | an input makes one output go back if and only if it is processed and has samples, ends the stream, or comes after the end |
| FilterStream.StartTimeIsCarried | src/base/omx_base_filter.c:206-211 | the start time flag of an empty input waits, over empty ones, for the next output |
| FilterStream.SamplesAreMapped | src/base/omx_base_filter.c:215-224 | for any fates, empty inputs included, the outputs with samples are the inputs with samples through the callback |
| FilterStream.MarksAreReported | src/base/omx_base_filter.c:177-195 | for any fates, the mark events are those of the marks for this component |
| FilterStream.OutputsHaveTheNewest | src/base/omx_base_filter.c:177-204 | every output, and the one to come, carries the last foreign mark that came before it was made |
| FilterStream.CarriesExactlyTheLast | src/base/omx_base_filter.c:177-204 | an output carries an input's own mark if and only if that input was the last with a foreign mark to come for it |
| FilterStream.MarkIsLostExactly | src/base/omx_base_filter.c:177-204 | a foreign mark is on no output if and only if a later one comes before the next output is made; else it is on exactly one |
| FilterStream.EmptyInputCanLoseItsMark | src/base/omx_base_filter.c:199-204 | two inputs that show it |
| FilterStream.EndOfStreamReportedExactly | src/base/omx_base_filter.c:197-264 | an input with the end of stream flag is reported by an event and a flagged output if and only if it has no other flag and, when empty, an output was there; else nothing says that the stream ended |
| FilterStream.Filter.PassAtEndOfStream | src/base/omx_base_filter.c:88-265 | the same of a pass of the loop: what was held, queued or arrives before it takes an output decides |
| FilterStream.EmptyEndOfStreamIsLost | src/base/omx_base_filter.c:258-264 | a run of the loop in which an empty end of stream goes back with no event and no output |
| TunnelSetup.Component.RequestOutput | src/base/omx_base_port.c:898-911 | the output end accepts exactly a compatible port and then is established and supplier |
| TunnelSetup.Component.RequestInput | src/base/omx_base_port.c:898-1014 | the input end accepts exactly a compatible port whose component takes the supplier change; who supplies follows from the setup and what the port remembers; a refused port remembers what it was to tell |
| TunnelSetup.SecondStage | src/omxcore.c:303-319 | for anything the output end proposes: linked both ways, or the output end released and the input end remembering what it was to tell; exactly one supplier if and only if the input takes it or remembers nothing |
| TunnelSetup.SetupTunnel | src/omxcore.c:269-328 | success if and only if the domains are equal, outside Image both encodings are set, and the output component is Loaded or WaitForResources or its port disabled; then both ends point at each other with each other's buffer counts; else ports not compatible, and neither is newly established; what the input port remembers is as before, or forgotten without an output end; every error code, and the one call through NULL |
| TunnelSetup.RefusedRemembers | src/base/omx_base_port.c:968-1001 | two such calls that leave the input port remembering that it supplies |
| TunnelSetup.RefusedThenNoSupplier | src/omxcore.c:269-328 | the next ordinary setup of these ports links them with no supplier |
| TunnelSetup.Component.SetBufferSupplier | src/base/omx_base_component.c:986-1053 | the two flags after a change are a function of the two before, with the relay at most once |
| TunnelSetup.OneSupplierThroughoutExactly | src/base/omx_base_component.c:1021-1051 | a sequence of changes, each taken by the other end or not, keeps one supplier throughout if and only if each is taken or names nothing or the end last asked for |
| TunnelSetup.OverridesKeepOneSupplier | src/base/omx_base_component.c:1021-1051 | such a sequence ends with one supplier, the end last asked for |
| TunnelSetup.ClientOverrides | src/base/omx_base_component.c:1021-1051 | the ports' flags follow the sequence sent to the input end, whether the output end takes changes or not |
| BufferSlots.Port.AllocateBuffer | src/base/omx_base_port.c:363-431 | the first free slot gets a header and a data block of its own; count, flags and semaphore follow; the error cases change nothing |
| BufferSlots.Port.UseBuffer | src/base/omx_base_port.c:441-518 | the first free slot keeps a header for the caller's block and a second header goes out |
| BufferSlots.Port.FreeBuffer | src/base/omx_base_port.c:525-587 | the first busy slot is emptied whatever header is passed, exactly its memory is freed, the semaphore rises when it was the last; something not live is freed if and only if the two blocks are not live and different: the slot's own for a slot that was allocated, the header passed and the port's own for one that was assigned |
| BufferSlots.Port.OfferBuffer | src/base/omx_base_port.c:637-656 | retries exactly while the peer is not ready and fewer than twenty refusals have been counted |
| BufferSlots.Port.AllocateTunnelBuffer | src/base/omx_base_port.c:589-675 | whatever earlier calls have filled, both ends are filled further in lockstep, the new headers queued in slot order, the peer's semaphore raised once when its last slot is filled; success exactly when every slot was served |
| BufferSlots.Port.QueueSays | src/base/omx_base_port.c:670 | behind what was there the ring has the headers of the new slots in slot order, up to nine in all |
| BufferSlots.Port.FreeTunnelBuffer | src/base/omx_base_port.c:677-746 | every data block and both its headers are freed once, both ends are empty |
| BufferSlots.PopulateAndDepopulate | src/base/omx_base_port.c:589-746 | depopulating undoes populating: after any number of attempts, each resuming where the last one failed, the heap is as before |
| BufferSlots.ServedInFullExactly | src/base/omx_base_port.c:637-661 | every slot is served if and only if the peer has as many and is ready often enough with nineteen refusals in all |
| Population.CyclesAreClean | src/base/omx_base_component.c:298-416 | over any number of cycles the count is the number of busy slots, Idle is reached with every enabled port full and Loaded with every port empty, `pAllocSem` at 0 |
| Population.WaitsExactly | src/base/omx_base_component.c:298-416 | the message thread waits if and only if the port it is at is not yet full, or not yet empty |
| Population.IdleIsReached | src/base/omx_base_component.c:378-404 | from every point of the way to Idle there is a way to finish it |
| Population.LoadedIsReached | src/base/omx_base_component.c:298-343 | from every point of the way to Loaded there is a way to finish it |
| Population.CountsKept | src/base/omx_base_port.c:419-427 | filling and freeing keep count and flag right in any state |
| Population.FreeIsSafeExactly | src/base/omx_base_port.c:542-584 | after a free, no disciplined continuation breaks what CyclesAreClean states if and only if the component is on its way to Loaded, or on its way to Idle at a port still ahead, neither full nor left empty |
| Population.RepeatedIdleIsSafeExactly | src/base/omx_base_component.c:1149-1174 | after a second command to Idle, no disciplined continuation breaks it if and only if no slot was filled yet |
| Lifecycle.Component.DoStateSet | src/base/omx_base_component.c:277-567 | the graph pair by pair: between Idle, Executing and Pause every change; between Loaded and Idle what the ports answer; WaitForResources from Loaded, and from there Loaded or Idle; Invalid from everywhere; the same-state code, and the refusal of every other pair with no effect |
| Lifecycle.Component.HandleStateSet | src/base/omx_base_component.c:1323-1345 | one event for each state command, completion or error |
| Lifecycle.Component.SendCommand | src/base/omx_base_component.c:1122-1256 | refuses with each code by its guard and no effect, or announces the transient state of the three changes that have one, queues, and raises the semaphore |
| Lifecycle.StatesFollowTheGraph | src/base/omx_base_component.c:286-566 | every run is a path in the state graph from Loaded |
| Lifecycle.HistoriesAreExactlyPaths | src/base/omx_base_component.c:286-566 | a sequence of states is the history of some run if and only if it is a path in the graph that begins at Loaded |
| Lifecycle.EveryStateIsReached | src/base/omx_base_component.c:286-566 | from rest in any state but Invalid some run goes on to rest in any state |
| Lifecycle.InvalidIsAbsorbing | src/base/omx_base_component.c:536-565 | Invalid is never left and accepts no command |
| Lifecycle.ThreadExistsExactly | src/base/omx_base_component.c:378-416 | the buffer management thread exists if and only if the state is Idle, Executing or Pause and was not entered from WaitForResources |
| Lifecycle.CompletionIsTruthful | src/base/omx_base_component.c:1323-1345 | a completion event names the state the component is in |
| Lifecycle.CommandsHandledInOrder | src/base/omx_base_component.c:1264-1296 | commands are handled once, in send order; the semaphore never exceeds the ring; the handler never dequeues NULL |
| Lifecycle.OneEventEach | src/base/omx_base_component.c:1323-1345 | as many events as state commands handled |
| Lifecycle.NineCommandsAndNoMore | src/base/omx_base_component.c:1247-1251 | on all runs with at most n commands pending the message thread ends in Invalid only, if and only if n is at most nine |
| Mixer.Mixer.Denominator | src/components/audio_effects/omx_audiomixer_component.c:174-179 | the sum of the volumes of the enabled ports |
| Mixer.Mixer.BufferMgmtCallback | src/components/audio_effects/omx_audiomixer_component.c:168-200 | every sample becomes what it was, or nothing, plus the weighted sample, with both casts |
| Mixer.Mixer.Pass | src/components/audio_effects/omx_audiomixer_component.c:505-575 | each input in hand is mixed at most once and used up; the output goes back exactly if anything was mixed and is the mix of all inputs |
| Mixer.MixIsWeightedMean | src/components/audio_effects/omx_audiomixer_component.c:184-196 | with volumes of one sign and products that fit 32 bits no partial sum leaves 16 bits and the result is the weighted mean up to less than one unit for each input heard |
| Mixer.EqualInputsComeThrough | src/components/audio_effects/omx_audiomixer_component.c:184-196 | a sample that n inputs agree on is mixed to less than n units off it |
| Mixer.CastsAreModular | src/components/audio_effects/omx_audiomixer_component.c:184-196 | the casts throw away whole multiples of 2^16 and 2^32 |
| Mixer.NeverOverflowsExactly | src/components/audio_effects/omx_audiomixer_component.c:203-234 | for any volumes and denominator, no samples overflow a product or a partial sum if and only if two extreme inputs do not |
| Mixer.SignsDecideWithinHundred | src/components/audio_effects/omx_audiomixer_component.c:203-234 | with volumes from -100 to 100 no samples overflow if and only if all volumes have the same sign |
| Mixer.SignsDoNotDecideBelow | src/components/audio_effects/omx_audiomixer_component.c:203-234 | two volumes that SetConfig accepts, of different signs, that never overflow |
| Mixer.RoundingError | src/components/audio_effects/omx_audiomixer_component.c:184-196 | the error of truncating division adds up to less than one unit for each input heard |
| Enumeration.LoaderNameEnum | src/st_static_component_loader.c:327-369 | the k-th name of the loader's flattened list, or NoMore exactly past its end |
| Enumeration.ComponentNameEnum | src/omxcore.c:223-255 | the k-th name over all loaders, or NoMore exactly past the end |
| Enumeration.EntryIs | src/st_static_component_loader.c:335-365 | the list has each template's general name, then its specific names in order, then the next template's |
| Enumeration.FindTemplate | src/st_static_component_loader.c:246-273 | the first template with that name, or none exactly when no template has it |
| Enumeration.CreatableExactlyWhenEnumerated | src/omxcore.c:223-255 | a name is found for creation if and only if some index enumerates it |
| Enumeration.GetHandle | src/omxcore.c:158-185 | the first loader that makes the component; which error when none does |
| Enumeration.LoaderComponentsOfRole | src/st_static_component_loader.c:442-474 | the count of matches, and their names in order as far as the bound goes |
| Enumeration.GetComponentsOfRole | src/omxcore.c:364-417 | the count over all loaders; with an array the first entries of the whole list, in order, the rest untouched |
| Enumeration.ListedExactlyWhenPlayed | src/st_static_component_loader.c:457-471 | a name is listed if and only if it is the general name of a template that plays the role |
| Enumeration.MatchIs | src/st_static_component_loader.c:457-471 | a template's general name is listed once for each specific name with the role, after those of the templates before it |
| Registry.SplitPath | src/omxregister.c:85-105 | the directories of any path, each ending in a slash, but for an empty first one after a slash in memory |
| Registry.MemoryMattersExactly | src/omxregister.c:94-101 | what stands before the path in memory matters if and only if it is a slash and the path is empty or begins with a colon |
| Registry.JoinOfSplit | src/omxregister.c:85-105 | splitting loses nothing: joined with colons the segments are the path |
| Registry.SplitOfJoin | src/omxregister.c:85-105 | the split is the only one into segments without a colon |
| Registry.PathSurvivesExactly | src/omxregister.c:85-105 | the directories joined are the path if and only if every segment ends in a slash |
| Registry.WriteRegistry | src/omxregister.c:146-213 | the file is the lines of the scan: each library, then its components not met before |
| Registry.EachNameOnce | src/omxregister.c:146-169 | a scan has one line for each library and one for each different component name |
| Registry.LineSays | src/omxregister.c:180-204 | a component's line, taken apart, is its name and its specific names in order |
| Registry.FileSaysTheScan | src/omxregister.c:146-213 | the file, taken apart, is the libraries in order, each with its components not met before, as they were |
| Registry.ReadRegistry | src/st_static_component_loader.c:109-117 | the lines of the file that are not about components |
| Registry.RoundTripExactly | src/st_static_component_loader.c:109-117 | the loader reads back exactly the libraries written if and only if no path contains a newline or begins with " =" |

## Left out

- Clock ports: their flush skips the handshake but still raises `flush_condition`.
- Spurious returns of `pthread_cond_wait` other than at `bStateSem`: `tsem_down` has a loop, and Semaphore.dfy shows that they make no difference there.
- Enabling and disabling ports while buffers flow: they raise the buffer semaphore again or reset `bMgmtSem`.
- A tunnelled port in FlushProtocol: a refused return and the peer's threads are in TunnelExchange, where the handshake is a flag and a place.
- Header indices that do not name both ports of a tunnel, and headers never yet sent, at a flush of the other end.
- FilterStream.Filter.ManagerLoop: covers the component while Executing and not flushed, with output buffers that arrive blank and a callback of one output sample for each input sample; headers are values with one owner.
- FilterStream.Filter.TakeMark: the MarkBuffer command, which sets the same pending mark from the message thread, is not part of the stream.
- PortBuffers.Port.FlushProcessingBuffers: one call without interference, up to its wait or its NULL; how the wait ends is in TunnelExchange, and what the peer or the client does with a NULL is left out.
- PortBuffers.Port.ReturnBufferFunction: calls the peer's port directly; the dispatch by port index in EmptyThisBuffer and FillThisBuffer is not part of this model.
- BufferSlots.Port.AllocateTunnelBuffer: the slots filled already were filled by earlier calls, alike at both ends; allocation succeeds and hands out addresses in increasing order; the peer's readiness at each attempt is a parameter, there is no clock.
- Population: a tunnelled supplier's own allocation succeeds; failures of it are a parameter of `Lifecycle.Component.DoStateSet`.
- Lifecycle.Component.DoStateSet: the ports' part is one answer; thread creation succeeds; the destructor is not modelled.
- Creation and destruction of handles beyond the lookup, roles of a component, and the copying of names longer than their buffers, of which only the truncation of `strncpy` in enumeration is modelled.
- Buffer lengths in the mixer are counted in samples; end of stream, marks and Pause in the mixer's loop are as in the filter and left out.
- Directory scanning, dlopen and dlsym, file and socket I/O, environment lookup, content pipes and ALSA components.
- The source and sink loops: smaller copies of the filter's.
- The volume gain in floating point and the copying of format parameters.
