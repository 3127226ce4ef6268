# nvme-snsd in Dafny

A model of the parts of nvme-snsd whose correctness is hard to see from one function: the peon
scheduler that decides when connects and disconnects run, the notify protocol with its receive walk,
acknowledgement and message pool, and the structures these and the port handling stand on.

Code that changes things step by step is modelled by classes and methods that do the same in place;
each is proved equal to a function on values, and the theorems are about those functions.

| file | what it holds |
|---|---|
| `Options.dfy`, `Limits.dfy`, `Collections.dfy`, `Bytes.dfy` | missing values; lengths; sequences, sets and maps; octets, address fields, network order, writes into buffers |
| `PeonModel.dfy` | the scheduler as a step system: every section under the list lock is one step |
| `PeonInvariants.dfy`, `PeonSteps.dfy` | the invariant of all runs, and that every step keeps it |
| `PeonTheorems.dfy` | order and time of dispatches, conservation, workers, counters |
| `PeonFates.dfy` | what becomes of dead and superseded tasks in every continuation |
| `PeonPasses.dfy` | what one pass of a worker establishes |
| `PeonOutcomes.dfy` | in literal terms: whom a judgement concerns, what a pass leaves undone, where completed, rechecked and new tasks go |
| `PeonDynamics.dfy` | what a step leaves alone, and the life of a dynamic peon |
| `PeonProgress.dfy` | from every reachable state the working lists can be emptied |
| `PeonOvertaking.dfy` | exactly which numbers can still be served after a larger one |
| `PeonExamples.dfy` | runs that show which orders the scheduler does not guarantee |
| `PeonScheduler.dfy` | the scheduler in place: lists, task objects and loops, proved to take those steps |
| `NotifyCodec.dfy` | the grammar of notify packets, the validity bitmap, the acknowledgement |
| `MessagePool.dfy` | the thousand nodes between the two threads, and the calls they lead to |
| `NotifyServer.dfy` | the receive walk, the message record, the acknowledgement buffer, whole frames |
| `NotifyRequests.dfy` | from the fields of a sender to the octets, to the call and the acknowledgement |
| `IntrusiveList.dfy` | the circular list of heap nodes and its delete-safe loop |
| `SocketTable.dfy` | the shared sockets: holders, indices, waiting times, port identifiers |
| `BondingSlaves.dfy`, `BondingList.dfy` | the slaves of a bonding port: names in a text, mark and sweep on the linked list |
| `BondingRuns.dfy` | that port as a holder of shared sockets, over every run of verifications and sweeps |
| `LldpFrame.dfy` | the LLDP encoder against the walk of IEEE Std 802.1AB |

## How to read the scheduler model

A state has a heap of tasks, the peons with their lists, the counter of dynamic workers and the last
serial number issued. Beside what the program keeps it carries history: where each task ever accepted
is, which tasks were added as inherited, the numbers issued and not yet inserted, a log of what was done
to tasks, with the clock reading where one was taken, the numbers then pending, and the numbers of the
batches then being handled for the task's host, and a list of the judgements that put a task off. A
disconnect is inherited only from a batch in processing, under its number and for its host, since the
batch handler is the only caller (src/snsd_conn_nvme.c:953-1010). Handler results, recheck results, clock
readings, whether a dynamic peon could be created, the numbers other threads issue meanwhile, and the
order in which threads get the lock are arbitrary inputs of the steps. Issuing a number and inserting its
task are two steps, as in the program, and a number may be given up in between.

Some orders that one might expect do not hold, and are shown by runs (`PeonExamples.dfy`): a connect can
be handed out while a disconnect of its device is still being handled, since a deferred task is not
deferred again by a rival it has marked dead (`ChosenIff` says exactly when a task is handed out, and
`DeferredAgain` who can put it off again); a number issued early and inserted late is served late; a batch
hands its old number on to a disconnect that is served after a newer connect, and kills it while it is
parked for rechecking, because parked connects carry the number 0 (`SettledDies` says exactly when).

`DispatchOrder` states the order that does hold, for all runs and all tasks in working lists: the later
number is larger, or was out already at the first dispatch, pending or with a batch. `OvertakenIff` says
that this is exact: right after a dispatch a smaller number can be served against the order if and only
if it is out, so `OrderIff` says when order holds for ever. Nobody watches dynamic peons, so none of this
speaks of their tasks being dispatched after others.

## Model

| member | source | states |
|---|---|---|
| `PeonTheorems.DispatchOrder` | src/snsd_conn_peon.c:273-447 | in every run, if a dispatch had to wait for or supersede tasks like a later one, the later one has the larger serial number, unless that number was already out at the first dispatch: issued and not yet inserted, or, for an inherited later task, held by a batch that was then being handled; equal numbers mean one task (a retry) or that one of the two was inherited |
| `PeonTheorems.StrictOrder` | src/snsd_conn_peon.c:273-447 | between any two entries of a log: if no older number is out at a dispatch, pending or, for a connect, with a batch of its host, everything it had to wait for or supersede and that is dispatched later has no smaller number; `OrderIff` has both directions |
| `PeonOvertaking.OvertakenIff` | src/snsd_conn_peon.c:273-447 | right after any dispatch, some continuation serves a task with a given smaller number that the dispatched one had to wait for or supersede iff that number is out: pending, or, after a connect, held by the batch being handled for its host (and the address family is IPv4 or IPv6) |
| `PeonOvertaking.OrderIff` | src/snsd_conn_peon.c:273-447 | from right after a dispatch on, no continuation breaks the serial order for it iff no smaller number is out then |
| `PeonOvertaking.CanOvertake` | src/snsd_conn_peon.c:189-193 | in every reachable state, for every dispatch of the log, some run ends with a task under any pending number, for its device, dispatched after it; so does one under the number of a dead batch being handled |
| `PeonTheorems.DeferredAgain` | src/snsd_conn_peon.c:273-302 | in every run, who puts a task off again under the same number had a smaller one that was out when the task was first put off: pending, or, for a connect, held by a batch of its host |
| `PeonTheorems.FailedWaits` | src/snsd_conn_peon.c:425-430 | in every run a task whose handler failed is not dispatched again with a clock reading less than 60 seconds after, unless it was relived in between |
| `PeonTheorems.RestrainHolds` | src/snsd_conn_peon.c:362-377 | in every run no task is dispatched inside the restrain time set for its peon, unless the clock stands before the task's arrival |
| `PeonTheorems.Conservation` | src/snsd_conn_peon.c:128-236 | every task ever accepted is in exactly one list, once, or has been freed exactly once, in every reachable state |
| `PeonTheorems.InFlight` | src/snsd_conn_peon.c:379-478 | the busy workers of a peon correspond to its processing list one to one, so at most 1 connect, 16 disconnects and 1 batch are in flight; the dynamic worker counter is the number of dynamic peons and stays within 0..513 |
| `PeonTheorems.CounterLaw` | src/snsd_conn_peon.c:172-173 | the worker counter of a working peon is the length of its two lists less one for each failed retry and, for connects, each relive |
| `PeonTheorems.CounterExact` | src/snsd_conn_peon.c:388-442 | for disconnects and batches whose handlers never fail the counter is exactly the length of the two lists |
| `PeonSteps.NextInv` | src/snsd_conn_peon.c:128-512 | every step of the scheduler keeps the invariant: lists and places agree, workers and lists agree, counters are right, numbers are unique, the log is ordered, the dead stay out of service |
| `PeonTheorems.ReachableInv` | src/snsd_conn_peon.c:128-512 | the invariant holds in every state that a run can reach |
| `PeonFates.DeadForEver` | src/snsd_conn_peon.c:379-512 | a dead task is never dispatched, retried, settled or relived in any continuation: it stays in its list until it is freed |
| `PeonFates.SupersededNeverRuns` | src/snsd_conn_peon.c:273-447 | a connect that waits while a newer live disconnect of its device waits in the static pool is never dispatched in any continuation, however that disconnect leaves |
| `PeonFates.NextFated` | src/snsd_conn_peon.c:379-512 | one step frees dead tasks at most, serves no superseded connect, and leaves a superseded connect superseded or dead |
| `PeonPasses.DispatchPostcondition` | src/snsd_conn_peon.c:379-416 | when a task is handed out, it was live, its time had come, and every scanned task for its device with another number is dead |
| `PeonPasses.JudgeTwice` | src/snsd_conn_peon.c:304-360 | judging a task again at once changes no state, discards as the first time, and never defers |
| `PeonPasses.QuiescentNormalForm` | src/snsd_conn_peon.c:379-416 | after a connect pass that hands out nothing, the live connects that wait are for different devices |
| `PeonPasses.ChosenIff` | src/snsd_conn_peon.c:379-416 | a judged task is handed out iff it is live and due, no live rival is newer, and no older live rival is being handled: one that deferred it was killed by an earlier judgement |
| `PeonPasses.DispatchPrecondition` | src/snsd_conn_peon.c:379-416 | every dispatch of a static peon is that of a waiting task which met this condition when its turn came |
| `PeonPasses.SettledDies` | src/snsd_conn_peon.c:218-225 | in reachable states, judging a waiting disconnect kills a live connect parked for rechecking iff they are for one device, whatever their ages |
| `PeonPasses.BatchDies` | src/snsd_conn_peon.c:304-324 | judging a connect kills a live batch that waits or is being handled iff the batch is older and of the same host |
| `PeonPasses.BatchDead` | src/snsd_conn_peon.c:304-324 | in every run, once a connect was dispatched an older batch of its host is dead for ever, waiting or being handled, unless its number was still pending then |
| `PeonOutcomes.MatchMeans` | src/snsd_conn_peon.c:253-271 | tasks match by host iff protocol, family and the host address (four octets for IPv4, sixteen for IPv6) agree, and by device iff port and target address do as well |
| `PeonOutcomes.JudgementKills` | src/snsd_conn_peon.c:304-360 | in reachable states a judgement kills exactly the live older tasks it concerns: for a connect, disconnects, connects and parked connects of its device and batches of its host; for a disconnect, connects and parked connects of its device; for a batch, connects of its host; nothing else changes |
| `PeonOutcomes.JudgementFlags` | src/snsd_conn_peon.c:273-302 | the task is put off iff an older one of those is being handled, and discarded iff one of them is newer |
| `PeonOutcomes.ConnectDies` | src/snsd_conn_peon.c:348-352 | judging a batch kills a live connect that waits or is being handled iff that is older and of the same host, whatever its target |
| `PeonOutcomes.ConnectDead` | src/snsd_conn_peon.c:348-352 | in every run, once a batch was dispatched an older connect of its host is dead for ever, unless its number was pending then |
| `PeonOutcomes.NoneOlderLive` | src/snsd_conn_peon.c:304-360 | in every run, whatever a dispatch concerned and is still live has no smaller number, unless that was out then |
| `PeonOutcomes.PassedOver` | src/snsd_conn_peon.c:379-416 | a live waiting task that nothing newer concerns survives a pass; if the pass hands nothing out, or a task further back in the list, then it was put off in that pass, or it failed less than its interval ago, or it is inside the restrain time, and nothing older that it concerns is left alive |
| `PeonOutcomes.Completed` | src/snsd_conn_peon.c:418-447 | in reachable states: a live task whose handler failed goes to the end of its wait list, to run again in 60 seconds under its number; a live connect that was served is parked with number 0; any other task is gone; the worker is free, and no other task changes |
| `PeonOutcomes.Rechecked` | src/snsd_conn_peon.c:480-512 | of the parked connects, the dead and those without recheck are gone, those whose device is lost wait to connect again, live, with a new arrival time and a number larger than all before, and those whose device is there are untouched, each iff |
| `PeonOutcomes.RecheckedOthers` | src/snsd_conn_peon.c:480-512 | a recheck touches no task that is not parked |
| `PeonOutcomes.Inserted` | src/snsd_conn_peon.c:128-181 | a new task goes to the end of the wait list it was meant for, and only a disconnect that finds 16 counted and at most 512 dynamic workers goes to a peon of its own |
| `PeonOutcomes.InheritedJoins` | src/snsd_conn_peon.c:238-251 | the same for an inherited disconnect, under its batch's number |
| `PeonOutcomes.Restrained` | src/snsd_conn_peon.c:105-119 | in every reachable state connects are restrained, by 3 seconds, iff disconnects are not, and batches never are |
| `PeonDynamics.DynamicOneChance` | src/snsd_conn_peon.c:640-661 | in every reachable state a dynamic peon about to make its pass has exactly one task, which is dispatched iff it meets the condition of `ChosenIff`, and is freed otherwise when the peon closes |
| `PeonDynamics.DispatchedOnce` | src/snsd_conn_peon.c:640-661 | in every run a task that a dynamic peon has dispatched is not dispatched again |
| `PeonDynamics.DynamicEnds` | src/snsd_conn_peon.c:528-558 | whether the handler of a dynamic peon's task fails or not, the task is gone after completion and closing |
| `PeonDynamics.NextActed` | src/snsd_conn_peon.c:128-512 | in one step one peon acts: the log grows by events of its tasks alone, with a dispatch last or none, and the other dynamic peons stay as they were |
| `PeonProgress.CanDrain` | src/snsd_conn_peon.c:379-512 | from every reachable state some run leaves no task waiting for a worker or in the hands of one, so deferral never deadlocks |
| `PeonExamples.Overlap` | src/snsd_conn_peon.c:281 | a reachable state has a connect and a disconnect of one device both in processing |
| `PeonExamples.LateInsertion` | src/snsd_conn_peon.c:189-193 | a reachable log has a smaller number dispatched after a larger one it should precede, when it was inserted late |
| `PeonExamples.InheritedKills` | src/snsd_conn_nvme.c:981-1010 | a reachable log has a connect dispatched, served and parked, and then a disconnect dispatched that inherited the smaller number of a batch handled all the while; it kills the connect |
| `PeonExamples.BatchKilled` | src/snsd_conn_peon.c:304-324 | a reachable state has a whole-host batch in processing that is dead by a connect to one target |
| `PeonExamples.DynamicServes` | src/snsd_conn_peon.c:155-170 | a reachable state has sixteen disconnects waiting and a later one of the same device dispatched by a dynamic peon of its own |
| `PeonScheduler.Scheduler.ScanList` | src/snsd_conn_peon.c:273-302 | the loop over one list kills exactly the older live matching tasks, and reports whether a newer one, and whether (in a processing list) an older one, was there |
| `PeonScheduler.Scheduler.ActionJudge` | src/snsd_conn_peon.c:304-360 | scanning the lists of a task's kind one after the other is the judgement of the model: the deaths of `JudgementKills`, the WAIT and DISCARD of `JudgementFlags` |
| `PeonScheduler.Scheduler.TaskGet` | src/snsd_conn_peon.c:379-416 | the loop over the wait list takes the model's get step |
| `PeonScheduler.Scheduler.TaskComplete` | src/snsd_conn_peon.c:418-447 | completion takes the model's step, whose outcome `Completed` states |
| `PeonScheduler.Scheduler.RunRecheck` | src/snsd_conn_peon.c:480-512 | the recheck loop takes the model's step, whose outcome `Rechecked` states, whatever numbers other threads issue between its turns |
| `PeonScheduler.Scheduler.TaskAdd` | src/snsd_conn_peon.c:128-181 | insertion takes the model's step, whose outcome `Inserted` states |
| `PeonScheduler.Scheduler.SnGenerate` | src/snsd_conn_peon.c:92-103 | a number is issued that is larger than all before |
| `PeonScheduler.Scheduler.Deconstruct` | src/snsd_conn_peon.c:528-558 | closing a dynamic peon frees whatever it left waiting |
| `NotifyCodec.BitmapExact` | src/snsd_server.c:656-660 | bit by bit, the validity bitmap is the set of known types that occurred with a legal length for the version; no other bit is ever set |
| `NotifyCodec.CompleteExact` | src/snsd_server.c:662-669 | a message passes the completeness test iff all fields of one family were seen and no address of the other family was |
| `NotifyCodec.LastFieldsWin` | src/snsd_server.c:725-797 | sequence number, state and reason are those of the last legal element, the latter two read big-endian in both lengths |
| `NotifyCodec.LastPair4Wins` | src/snsd_server.c:671-696 | without addresses of the other family the IPv4 pair in the union is that of the last legal elements |
| `NotifyCodec.LastPair6Wins` | src/snsd_server.c:698-723 | the same for IPv6 |
| `NotifyCodec.AdOctet` | src/snsd_server.c:799-810 | for every list of elements, each octet of the additional information but the port's is that of the last legal element reaching it, else 0 |
| `NotifyCodec.PortExact` | src/snsd_server.c:799-810 | for every list of elements the two octets of the port are what the legal elements make of them: six octets or more set them swapped, five set the first and swap, fewer swap |
| `NotifyCodec.PortRight` | src/snsd_server.c:806-807 | with none of five octets after it, the port is that of the last legal element of six or more iff an even number of shorter ones followed, or its two octets are equal |
| `NotifyCodec.LastAdWins` | src/snsd_server.c:799-810 | as far as the last legal additional information reaches, whatever its length, what is stored is its own, the port in host order |
| `NotifyCodec.ShortAdSwapsBack` | src/snsd_server.c:806-807 | a shorter later element leaves the port with its octets swapped |
| `NotifyCodec.AckFitsRoot` | src/snsd_server.c:827-938 | a complete IPv4 message took at least 32 octets beside its header and its acknowledgement takes 24; for IPv6 at least 56 and 48 |
| `NotifyCodec.AckFits` | src/snsd_server.c:998-1059 | after any number of structures the acknowledgement is not longer than the octets consumed, whichever posts succeed |
| `NotifyCodec.AckWalk` | src/snsd_server.c:889-938 | the acknowledgement, walked as a packet of acknowledgement type, has one structure per message, in order |
| `NotifyCodec.AckRoundTrip` | src/snsd_server.c:650-654 | each structure, walked, is exactly the source, destination and sequence element that its request gave last |
| `NotifyCodec.AckOfPacket` | src/snsd_server.c:998-1059 | for every packet and every outcome of the posts the acknowledgement is no longer than the packet and reads back, in order, as the answers to exactly those structures that request something of this port and whose post succeeded |
| `NotifyCodec.DestinationMeans` | src/snsd_server.c:977-996 | a complete message is for this port iff the destination it gave last is one of the port's addresses, compared in four or sixteen octets |
| `NotifyCodec.RequestsMeans` | src/snsd_server.c:977-1015 | a structure is taken iff its elements give every field of one family, no address of the other, and last a destination of this port |
| `NotifyCodec.AcceptedAre` | src/snsd_server.c:998-1015 | the messages taken from a packet are those of all such structures, in their order |
| `NotifyRequests.CompleteIff` | src/snsd_server.c:662-810 | a request laid out by a sender is complete iff each field has the length its version asks for |
| `NotifyRequests.RequestHeard` | src/snsd_server.c:1249-1292 | from a sender's fields to the call: both addresses, state, reason, protocol, port and name arrive, for both families and versions, and the request is for this port iff its destination is |
| `NotifyRequests.PacketReadBack` | src/snsd_server.c:1017-1059 | the walk over requests laid out one after the other finds them all, in order |
| `NotifyRequests.NotifyTags` | src/snsd_server.c:1031-1039 | the tags that open a notify structure are 21, 61, A1 and E1 hexadecimal |
| `NotifyRequests.AckOctets` | src/snsd_server.c:889-938 | the acknowledgement of a sender's request, octet by octet |
| `NotifyServer.NtMsg.GetValue` | src/snsd_server.c:812-825 | the decoders, writing into the record in place, do to it what the grammar's element does |
| `NotifyServer.NtMsg.GetWord` | src/snsd_server.c:758-797 | state and reason of one or four octets become their big-endian value |
| `NotifyServer.NtMsg.DecodeSubTlv` | src/snsd_server.c:827-864 | the cursor walk ends, stays inside its structure, and decodes exactly the elements of the grammar |
| `NotifyServer.DecodeNtTlv` | src/snsd_server.c:1017-1059 | the outer walk posts the complete messages for this host in order, with any dispatches in between, and the buffer holds the acknowledgements of those whose post succeeded; no write leaves the 1492 octets |
| `NotifyServer.GuardExact` | src/snsd_server.c:889-920 | the guard, which leaves out the header, lets writes past the buffer through iff the addresses and number would end in its last three places |
| `NotifyServer.AckBuffer.BuildTlvByFamily` | src/snsd_server.c:889-920 | wherever the writes it lets through fit, one acknowledgement is appended if the guard passes and nothing if not; no packet reaches the other places (`DecodeNtTlv`) |
| `NotifyServer.CheckHostIp` | src/snsd_server.c:977-996 | the loop finds whether the message is for this host, which `DestinationMeans` states by its destination |
| `NotifyServer.DealOneMsg` | src/snsd_server.c:998-1015 | only a complete message for this host is posted, and acknowledged iff its post succeeded |
| `NotifyServer.GetMsgHeader` | src/snsd_server.c:591-637 | the header is accepted iff 22 to 1514 octets came, for 01-80-C2-00-00-0D with type 88A7, version 0 or 1, and a payload that is not empty and fits |
| `NotifyServer.ReplyReadsBack` | src/snsd_server.c:866-887 | a frame sent back passes the same header check, carries the port's address and version 1, and its payload is the acknowledgements |
| `NotifyServer.Server.ProcessNtMsg` | src/snsd_server.c:1061-1082 | a frame with a bad header changes nothing but the drop counter; another is walked |
| `NotifyServer.Server.ClientNotify` | src/snsd_server.c:1131-1165 | from the received octets to the reply: a frame for an unknown listener, an empty one or one under attack is only counted; another is walked, with no reply iff nothing was acknowledged, and a reply that reads back as the acknowledgements; the terminating zero lands in the buffer, behind the octets read, except after exactly 1514 of them |
| `MessagePool.FirstInFirstOut` | src/snsd_server.c:171-200 | for every interleaving of posts and dispatches the calls issued, then those queued, are the calls of the messages taken, in the order taken |
| `MessagePool.FirstInFirstOutFrom` | src/snsd_server.c:171-200 | the same from any stocked pool on |
| `MessagePool.DispatchCatchesUp` | src/snsd_server.c:1294-1318 | after a dispatch every message taken so far has been acted on exactly once, those with another state octet than 0 and 1 by no call |
| `MessagePool.EveryNode` | src/snsd_server.c:108-128 | each of the thousand nodes is free or active, never both and never lost |
| `MessagePool.RefusedOnlyWhenFull` | src/snsd_server.c:171-200 | a post is refused iff it is not a client's and a thousand messages wait |
| `MessagePool.PostKeeps` | src/snsd_server.c:171-200 | posting takes one node and lengthens the queue by that message alone |
| `MessagePool.CallSays` | src/snsd_server.c:1249-1292 | the call for a complete message has the addresses, state and reason that its elements gave last, whatever surrounds them; a disconnect is forced iff the reason is 4, 5 or 6 |
| `MessagePool.CallPort` | src/snsd_server.c:1249-1292 | its port is that of the last legal additional information of six octets or more iff an even number of shorter ones, none of five octets, followed or its two octets are equal; otherwise it is that port with the octets swapped |
| `MessagePool.CallProtocol` | src/snsd_server.c:1249-1292 | its protocol is that of the last legal additional information of two octets or more, else 0 |
| `MessagePool.CallNqn` | src/snsd_server.c:1249-1292 | its name is what the additional information has from the eighth octet on, each octet that of the last one reaching it, up to a zero or 255 octets |
| `MessagePool.MessageQueue.PostOneMsg` | src/snsd_server.c:171-200 | the post in place is the post of the model |
| `MessagePool.MessageQueue.Dispatch` | src/snsd_server.c:1294-1318 | the loop takes node after node from the front of the active list until it is empty, makes their calls in order and returns every node blank |
| `IntrusiveList.ListAdd` | src/snsd_list.h:55-61 | the ring afterwards is the new node and then the old sequence |
| `IntrusiveList.ListAddTail` | src/snsd_list.h:64-70 | the ring afterwards is the old sequence and then the new node |
| `IntrusiveList.ListDel` | src/snsd_list.h:73-77 | the ring afterwards is the old sequence without that node, whose own pointers stay |
| `IntrusiveList.ListSplice` | src/snsd_list.h:80-89 | the ring afterwards is one sequence and then the other |
| `IntrusiveList.ListsUnique` | src/snsd_list.h:102-131 | the pointers determine what a list holds |
| `IntrusiveList.ForEachSafe` | src/snsd_list.h:126-131 | a loop whose body keeps, frees or moves the current node visits each original node once, in order, ends, and leaves two disjoint rings with those kept and those moved |
| `IntrusiveList.ThoseExactly` | src/snsd_list.h:126-131 | each original node is found under its own fate and under no other |
| `SocketTable.TableIsExact` | src/snsd_switch.c:49-123 | in every run of matched gets and puts no interface has two entries, an entry counts its holders, its map is the set of their indices, and an open socket has a holder |
| `SocketTable.SharedByInterface` | src/snsd_switch.c:70-104 | two holders share an entry iff they asked for the same interface |
| `SocketTable.ReuseWaits` | src/snsd_switch.c:70-123 | an entry passes to another interface only without holders and when the clock, read at that entry, is more than 130 seconds after its last put |
| `SocketTable.TakeFails` | src/snsd_switch.c:70-104 | in every run a get gives no handle iff the interface has an entry and all 64 numbers of it are out, one being wanted, or it has none and every entry is assigned and held or within 130 seconds of its last put |
| `SocketTable.TakeShares` | src/snsd_switch.c:74-86 | in every run a get without a number, on an interface that somebody holds, gives that entry, and nobody loses it |
| `SocketTable.FirstSendWaits` | src/snsd_switch.c:355-361 | in every run, a port that takes an entry, under whatever number, first sends more than 120 seconds after anything sent under that entry by one who has put it back |
| `SocketTable.FirstSendSoon` | src/snsd_switch.c:355-361 | it need not wait longer: it may send at once, or 130 seconds after the last put on the entry |
| `SocketTable.AnnouncementsApart` | src/snsd_switch.c:355-397 | in every run two ports that send under the same entry and index, one after the other, do so more than 120 seconds apart, so nothing of the first is alive when the second announces itself |
| `SocketTable.PortIdsDiffer` | src/snsd_reg.c:100-112 | holders of indices on one interface have different port identifiers, whatever their names |
| `SocketTable.PortIdApart` | src/snsd_reg.c:100-112 | a port identifier determines name and index |
| `SocketTable.NextInv` | src/snsd_switch.c:49-170 | every get, put and opening keeps the invariant of the table |
| `SocketTable.GetIndex` | src/snsd_switch.c:49-60 | the loop finds the first free index and marks it, or finds that there is none |
| `SocketTable.PortTable.GetFdInfo` | src/snsd_switch.c:70-104 | the loop over the table, reading the clock at each entry, gives the entry of the interface, else the first reusable one, else nothing; `TakeFails` says when nothing |
| `SocketTable.PortTable.PutFdInfo` | src/snsd_switch.c:111-123 | a put counts down, frees the index, closes the socket of the last holder, and starts the waiting time |
| `SocketTable.PortTable.GetFdData` | src/snsd_switch.c:136-170 | the call comes to a get, a socket if there is none, and a put if that or the address fails; success leaves one handle on an open socket, failure anywhere leaves nobody with a handle it took |
| `SocketTable.GetSucceeds` | src/snsd_switch.c:136-170 | such a call succeeds iff there is a handle, a socket, open or newly given, and the address is taken up |
| `SocketTable.NextKnows` | src/snsd_switch.c:70-170 | no step of others, nor another get of one's own, takes a handle, its interface or its open socket from a holder |
| `BondingSlaves.SeparateSlaves` | src/snsd_mgt.c:322-340 | cutting the buffer in place yields the names before each separator, at most 32 |
| `BondingSlaves.NameIsPlain` | src/snsd_mgt.c:322-340 | a name holds no separator |
| `BondingSlaves.NamesReadBack` | src/snsd_mgt.c:322-340 | names joined by blanks and line ends are read back in order, the first 32 of them, and no name without an end |
| `BondingSlaves.VerifiedMeans` | src/snsd_mgt.c:381-422 | verification keeps names distinct and old records as they were but for marks; if it succeeds, the unmarked names are exactly those of the text |
| `BondingSlaves.VerifiedSucceeds` | src/snsd_mgt.c:381-422 | verification succeeds iff each name of the text has a slave already, or has fewer than 16 characters and is known to the system |
| `BondingSlaves.VerifiedNew` | src/snsd_mgt.c:289-320 | new slaves are for names of the text, with the interface the system gave, and without sockets |
| `BondingSlaves.SweptMeans` | src/snsd_switch.c:220-255 | a sweep that gets to the end keeps the unmarked records in order, each with a socket, and puts back each marked one's socket once |
| `BondingSlaves.SweptOk` | src/snsd_switch.c:220-255 | a sweep gets to the end iff there is a socket for every unmarked record that has none |
| `BondingSlaves.SweptSockets` | src/snsd_switch.c:220-255 | then each of those has the socket given for its name |
| `BondingSlaves.SweptLosesNobody` | src/snsd_switch.c:220-255 | failed or not, a sweep keeps every unmarked record and the sockets they had |
| `BondingSlaves.VerifyThenSweep` | src/snsd_mgt.c:381-422 | after a verification that succeeds, and as many sweeps as it takes for one to get to the end, the list has each name of the text exactly once, survivors keep their sockets, and the sockets of those not named any more were put back, once each |
| `BondingRuns.SocketsConserved` | src/snsd_switch.c:220-255 | in every run of verifications, sweeps that fail or not, and steps of other holders: handles taken equal handles put back plus slaves with sockets, nothing is put back twice, and each slave's entry, interface and socket are those of the table |
| `BondingRuns.RetriesMean` | src/snsd_switch.c:366-389 | however many sweeps fail after a verification, and whatever others do meanwhile, once a sweep gets to the end the slaves are the names of the text and those that had a socket have kept it |
| `BondingRuns.SweepIsSwept` | src/snsd_switch.c:220-255 | on the table a sweep does to the list what the sweep on values does, for the sockets the table gave |
| `BondingList.BondingInfo.VerifySlave` | src/snsd_mgt.c:381-422 | on the linked list, in place: whether skipped or worked through, success means the unmarked names are those of the text; the count is the length |
| `BondingList.BondingInfo.NeedNewSlave` | src/snsd_mgt.c:369-379 | the loop unmarks the first slave of that name, or reports that there is none |
| `BondingList.BondingInfo.CreateSlave` | src/snsd_mgt.c:289-320 | a record is pushed in front, or nothing changes |
| `BondingList.BondingInfo.GetBondingFd` | src/snsd_switch.c:220-255 | the pointer-to-pointer sweep is the sweep on values; names stay distinct, the count is the length, and the list still means its text |
| `LldpFrame.FrameReadsBack` | src/snsd_reg.c:114-150 | a receiver's walk over the frame finds chassis, port identifier, time to live and the organisation's element, in this order, then the end |
| `LldpFrame.FrameOctets` | src/snsd_reg.c:114-150 | the frame octet by octet: addresses and type, chassis, port, 120 seconds, the organisation's element, the end |
| `LldpFrame.SmartReadsBack` | src/snsd_reg.c:35-76 | the organisation's element, taken apart, has the address, role, protocol, port and name that were to be announced |
| `LldpFrame.PortIdsDiffer` | src/snsd_reg.c:78-112 | equal port identifier elements come from equal names and indices |
| `LldpFrame.CreateSmartTlv` | src/snsd_reg.c:35-76 | clearing and laying down the packed fields gives the encoded element, whatever the memory held |
| `LldpFrame.CreatePortIdTlv` | src/snsd_reg.c:78-98 | prefix and identifier with a head for their length |
| `LldpFrame.InitChassisIdTlv` | src/snsd_reg.h:162-173 | the chassis element with the address of the port |
| `LldpFrame.InitTimeToLiveTlv` | src/snsd_reg.h:175-183 | the time-to-live element with 120 seconds |
| `LldpFrame.LldpSend` | src/snsd_reg.c:114-150 | the octets handed to the socket are the frame and nothing of the memory's old content |

## Where code and documentation differ

- The comment on connects (src/snsd_conn_peon.c:310-315) speaks of disconnects of the same device; the
  code compares batch tasks by host alone, so a newer connect to one target kills a whole-host batch
  (`BatchKilled`, `BatchDies`). The model follows the code.
- The guard of the acknowledgement builder does not count the three octets of the header. No packet
  reaches the places where that would matter, and this is proved (`GuardExact`, `DecodeNtTlv`).
- The zero that ends the received octets is written behind them; after a full 1514 octets that is behind
  the buffer (src/snsd_server.c:1151). `ClientNotify` says when.
- Additional information shorter than six octets swaps the port that an earlier one gave
  (`ShortAdSwapsBack`, `PortRight`).

## Left out

- Serial numbers wrap at 2^64 in the program; the model's numbers are unbounded.
- Failed allocations, and tasks whose context could not be made, give up their number before insertion;
  this is one step, without the error code.
- Threads, their creation, wake-ups and periods: any worker may take its step at any time. The window at
  start-up before a peon's type is set, and the end of the program, are not part of the model.
- Dynamic peons are listed beside the static ones with the same two lists; the joining of their own
  thread is not modelled.
- The lists of the scheduler are sequences of addresses; the pointers of such a list are modelled by
  themselves, in `IntrusiveList.dfy`.
- SocketTable.TableIsExact: speaks of gets and puts that match; releasing the slaves of a port that is
  removed (src/snsd_switch.c:416-424) does not check whether a slave has a socket, and is not modelled.
- SocketTable.GetIndex: the 64-bit map is a sequence of 64 truth values, with setting and clearing of
  one bit as updates. Interface numbers are not negative, as the kernel gives them.
- NotifyCodec.LastAdWins: says nothing of octets that the last element does not reach; `AdOctet` and `PortExact` do.
- MessagePool.MessageQueue.Dispatch: the active list is a sequence of node numbers, taken from its front; the
  delete-safe cursor over pointers is proved by itself, in `IntrusiveList.ForEachSafe`.
- PeonOvertaking.OvertakenIff: speaks of the moment right after a dispatch; later on, tasks inserted since may
  be waiting under numbers that were pending then.
- BondingRuns.SocketsConserved: begins with distinct names and no sockets; the removal of a port, which puts
  back the sockets of all its slaves, is not modelled.
- NotifyServer.Server.ClientNotify: reports a write behind the receive buffer; what lies there in memory is
  not part of the model.
- PeonProgress.CanDrain: some run empties the lists, in which handlers succeed and clocks are late enough;
  that the program's threads come to take those steps is not part of the model.
- SocketTable.AnnouncementsApart: the periods after which a port sends again are not modelled one by one; it
  may send at any time from its first on.
- The headers that are kept beside state, reason and additional information are not read by anybody
  and are not kept in the model; those of addresses and sequence numbers are.
- BondingSlaves.VerifiedMeans: assumes distinct names before; the first reading of slaves
  (src/snsd_mgt.c:342-367) does not look for repeated names. A missing text is not modelled.
- System calls, sysfs and the network: interface numbers, sockets, address registrations and clocks are
  inputs. Logging, the configuration parser, direct ports, the attack monitor, zone queries and the
  keep-alive commands are not part of this model.
- `switch_need_check_lldp`: the interval after a wrap of the poll counter is not modelled.
- Memory is little-endian; network order is written out octet by octet.
