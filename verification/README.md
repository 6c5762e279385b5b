# Verified models of six operating-systems exercises

This project models the parts of the repository whose correctness is hardest to see from the code, and proves what
they are for. Each concurrent program is a step relation over any number of processes, with one program counter value
per source statement; each sequential program is a set of methods that work on the heap, on an array or on a file the
way the source does.

| file | models |
|---|---|
| `LandingStrip.dfy` | the landing-strip monitor of `cw09/zad2`: planes, three mutexes, two condition variables, single signals |
| `LandingSections.dfy` | the sections of that monitor run without interruption, as runs and as methods on the shared variables |
| `LostWakeUps.dfy` | when its single signals lose a wake-up |
| `Philosophers.dfy` | the dining-philosophers monitor of `cw09/zad1`, with cancellation and cleanup handlers |
| `Stranding.dfy` | that monitor under partial cancellation: for which sets of cancelled threads a philosopher can be left asleep with nobody able to move |
| `BoundedBuffer.dfy` | the semaphore buffer of `cw07/zad1`, whose search loops have no bound check |
| `PrimeQueue.dfy` | the message-queue protocol of `cw06/zad1`, with the texts of its messages |
| `RecordSearch.dfy` | the parallel record search of `cw08/zad1/wersja3.c` |
| `Selection.dfy` | "take the first maximum, put it in front": the algorithm behind both sorts, and its tie behaviour |
| `PersonList.dfy` | the doubly linked list of `cw01/zad1`, on the heap |
| `FileSort.dfy` | the in-place record sort of `cw02/zad1`, at byte level |
| `Sums.dfy`, `Mutexes.dfy` | counting over sequences, used by all ledgers; the owner of a mutex |

How the concurrent models are built. A state holds a program counter per process and the shared variables. An
execution is any sequence of steps from an initial state, so every schedule is covered; nothing is assumed fair. A lock
or semaphore operation is a step only when it does not block. Each reachable state satisfies an inductive invariant
(`ReachableInv` in every module; in `PrimeQueue` the refinement `Refines`), from which the main results follow.
Constants are parameters: P planes with 1 <= K <= N, N >= 2 philosophers, MAX slots, any queue capacities of at least
one, any chunk size of at least one record, any thread count.

- `LandingStrip`: landing and taking off are mirror images, so one table `Code` lists both with their line numbers.
  The increments of the waiting counters, the change of `planes_on_board` and the signal after it are separate steps.
  A sleeper may wake spuriously at any time; a signal wakes one sleeper if there is one. Class `Monitor` holds
  the shared variables and updates them in place, statement by statement and section by section.
- `Philosophers`: class `Table` holds `philo_state` and the critical sections. In the monitor, `change_philo_state` is
  two steps (promotion, signal). Cancellation follows POSIX.1-2017, System Interfaces, section 2.9.5: `usleep` and
  `pthread_cond_wait` are cancellation points, and a thread cancelled inside the wait takes the mutex back before its
  handler releases it.
- `PrimeQueue`: messages carry text, printed and parsed as the source does with `sprintf`, `atoi` and `sscanf`. The
  abstract protocol gives each client one token; `Simulate` shows that every action of the message system moves one
  token along its cycle.
- `RecordSearch`: a log of events records each record scanned and each hit. `ThreadFunc` is the source's loop for a
  thread on its own; the step relation lets any number of threads interleave at each statement.
- `Selection`: keys are byte strings in `strcmp` order. `StableSort` is an independent reference (insertion sort).

Facts about the code that the models bring out:

- File sort: a record whose first byte is 0 is never selected, so the file ends up sorted exactly when the first bytes
  are all zero or none is (`FileSort.SortedExactlyWhen`, with a two-record example).
- Both sorts reverse the order of equal keys, so sorting a list twice is the stable sort and three times is once.
- Prime protocol: the server's table has 100 places and no bound check; an access outside it, or a read of an entry or
  id that was never set, is reachable exactly when there are more than 100 clients
  (`PrimeQueue.BadAccessExactlyWhen`). The client reports 0 and 1 as prime.
- Prime protocol: every `msgsnd` and `msgrcv` names `sizeof buf` as the size of the text (cw06/zad1/server.c:39, 45, 55,
  66, 78 and client.c:61, 67, 72, 86, 94). That size counts the `long` in front of the 32 bytes of text as well, so each
  send reads and each receive writes `sizeof(long)` bytes past `buf`, with any number of clients. The texts themselves
  fit: none is longer than 31 characters (`PrimeQueue.TextsFit`).
- Philosophers: the only way to get stuck is an incomplete cancellation, in which every living thread sleeps beside a
  dead neighbour in state EAT (`Philosophers.StuckExactlyWhen`). That neighbour was cancelled while eating, or it died
  waiting and `change_philo_state` promoted it afterwards, because the test does not ask whether it is alive
  (`Stranding.DeadWaiterStrands`). `Stranding.StrandsExactlyWhen` says for which sets of cancelled threads this can
  happen. The program's own `handler` goes on to cancel every thread, and then all of them end
  (`Philosophers.OrderlyShutdown`).
- Landing strip: the single signals do lose wake-ups. A plane can stay asleep on `landed` although it may take off,
  with everybody else outside the monitor, exactly when K >= 3 and P >= 3, and a plane can stay asleep on `took_off`
  although it may land exactly when K < N and P >= K + 2 (`LostWakeUps`). With the program's constants both happen. The
  sleeper has to wait for a later crossing or a spurious wake-up.
- No fairness is needed for overall progress. Without spurious wake-ups at most 19 P steps of the landing strip pass
  before some plane lands or takes off, and without cancellation at most 10 N steps of the philosophers before some meal
  ends.
- Record search: a `read` that fails returns -1, which is no record and not the end of the loop at line 33. If the file
  cannot be read, the threads never end (`RecordSearch.UnreadableFileLoops`); with finitely many failing reads every
  schedule ends (`RecordSearch.SearchTerminates`).
- List: `insertAtTail` on an empty list changes only its local copy of the head, so the node is lost.

## Model

| member | source | states |
|---|---|---|
| LandingStrip.CountersAreExact | cw09/zad2/main.c:38-84 | in every reachable state `planes_on_board` is the number of planes between touch-down and lift-off and lies in 0..N, both waiting counters are the numbers of planes between their increment and decrement, and fewer than min(K, P) planes sleep on `landed` |
| LandingStrip.AirSleepersNearThreshold | cw09/zad2/main.c:46-83 | while a plane sleeps on `took_off`, at least K-1 planes are aboard, and with exactly K-1 somebody awake is past its landing count or a take-off is about to signal |
| LandingStrip.LockDiscipline | cw09/zad2/main.c:38-84 | a mutex is owned exactly by the plane inside its region; unlocks and waits are only executed by the owner |
| LandingStrip.DeadlockFree | cw09/zad2/main.c:33-85 | for all P >= 1 and 1 <= K <= N, some plane can execute its next statement in every reachable state |
| LandingStrip.SomebodyIsAwake | cw09/zad2/main.c:46-50 | the invariant rules out that all planes sleep: the two guards refuse on opposite sides of K |
| LandingStrip.AwakeMeansProgress | cw09/zad2/main.c:42-84 | the lock order (strip first, never both counter mutexes) lets an awake plane run or points to one that can |
| LandingStrip.ReadyCanStep | cw09/zad2/main.c:33-85 | a plane whose mutex is free and which is not asleep has a successor state, whatever the statement |
| LandingStrip.TestsInNumbers | cw09/zad2/main.c:46-76 | the test lets a lander through if and only if the deck is not at N and is below K or nobody waits to take off, a take-off if and only if the deck is at K or above or nobody waits to land; it changes nothing else |
| LandingStrip.BlockedExactlyWhen | cw09/zad2/main.c:33-85 | a plane cannot execute if and only if it is asleep or wants a mutex that another plane owns; a sleeper can always wake spuriously |
| LostWakeUps.DeckFills | cw09/zad2/main.c:46-60 | for every k up to N and P a state with k planes aboard and nobody waiting is reachable |
| LostWakeUps.LosesOnDeckExactlyWhen | cw09/zad2/main.c:54-83 | a state with a plane asleep on `landed`, its loop condition false and every other plane asleep or in `usleep` is reachable if and only if 3 <= K and 3 <= P |
| LostWakeUps.LosesInAirExactlyWhen | cw09/zad2/main.c:46-83 | the same for `took_off`, if and only if K < N and K + 2 <= P |
| LostWakeUps.TheProgramLosesBoth | cw09/zad2/main.c:12-14 | with 15 planes, K = 5 and N = 10 both kinds of wake-up can be lost |
| LostWakeUps.LostOnDeck | cw09/zad2/main.c:54-83 | a run without spurious wake-ups that loses a wake-up on `landed`: one landing serves two sleepers with one signal |
| LostWakeUps.LostInAir | cw09/zad2/main.c:46-83 | a run without spurious wake-ups that loses a wake-up on `took_off`: one take-off serves two sleepers with one signal, and the deck refills to K |
| LostWakeUps.NoneLostWhenSmall | cw09/zad2/main.c:46-83 | with K < 3 or P < 3 none is lost on `landed`, with P <= K + 1 none on `took_off`, in any run |
| LostWakeUps.ReachableBacked | cw09/zad2/main.c:46-83 | in those cases every sleeper is refused by its condition, or a signal for it is due |
| LostWakeUps.FewSleepers | cw09/zad2/main.c:46-83 | in those cases at most one plane sleeps where a signal is about to go |
| LandingSections.Cross | cw09/zad2/main.c:42-84 | a plane whose test succeeds can run its section to the end: its counter and the deck count change by one, one sleeper of the other phase wakes if there is one, nothing else changes |
| LandingSections.Refuse | cw09/zad2/main.c:42-75 | a plane whose test fails can run into the wait: it sleeps, all mutexes are free, nothing else changes |
| LandingSections.Monitor.JoinQueue | cw09/zad2/main.c:38-67 | entering the queue in place adds one to the plane's counter, as a run of the statements does |
| LandingSections.Monitor.UseStrip | cw09/zad2/main.c:42-84 | the section in place: a lander crosses exactly when `planes_on_board` is not N and is below K or `waiting_to_takeoff` is 0, a take-off exactly when it is at least K or `waiting_to_land` is 0; a crossing wakes one sleeper of the other phase, a refused plane sleeps, as a run of the statements does |
| LandingSections.Monitor.Execute | cw09/zad2/main.c:33-85 | executing a plane's statement on the shared variables in place is a step of the model and happens exactly when the plane is not blocked |
| LandingSections.Monitor.ExecuteReachable | cw09/zad2/main.c:33-85 | the same on a state that satisfies the invariant, which still satisfies it afterwards |
| LandingSections.Monitor.SignalOne | cw09/zad2/main.c:59-83 | a signal wakes exactly one sleeper of the other phase when there is one, and nobody else changes |
| LandingSections.Monitor.constructor | cw09/zad2/main.c:94-107 | the initial values put the system into an initial state |
| LandingStrip.Throughput | cw09/zad2/main.c:33-85 | n steps of P planes contain enough landings, take-offs and spurious wake-ups: n <= 19 P + 20 crossings + 8 spurious wake-ups |
| LandingStrip.SomebodyCrosses | cw09/zad2/main.c:33-85 | without spurious wake-ups, a schedule of more than 19 P steps contains a landing or a take-off |
| LandingStrip.SignalSplits | cw09/zad2/main.c:59-83 | a signal is one wake-up followed by the signaller's own move |
| LandingStrip.Priority | cw09/zad2/main.c:46-82 | at every touch-down the deck is below N, and at K or more nobody sleeps on deck; at every lift-off below K nobody sleeps in the air |
| LandingStrip.NobodyWaitsNobodySleeps | cw09/zad2/main.c:39-79 | with a waiting counter at 0 nobody sleeps in its phase |
| LandingStrip.MoveLocal | cw09/zad2/main.c:46-82 | what a plane learned from its test stays true until it crosses, whatever the others do |
| LandingStrip.MoveWakeUp | cw09/zad2/main.c:46-83 | every instruction keeps the promise that sleepers in the air will be resumed |
| LandingStrip.MoveKeepsEvidence | cw09/zad2/main.c:46-83 | while the deck count stays at K-1 with sleepers in the air, the awake lander or the pending signal that accounts for them stays |
| LandingStrip.MoveDeckSleepers | cw09/zad2/main.c:71-74 | falling asleep on deck leaves fewer than min(K, P) sleepers there |
| LandingStrip.StepInv | cw09/zad2/main.c:33-85 | every step, spurious wake-ups included, keeps the invariant |
| LandingStrip.ReachableInv | cw09/zad2/main.c:33-85 | the invariant holds in every state of every run |
| Philosophers.NeighboursNeverEatTogether | cw09/zad1/main.c:19-58 | in every reachable state no two neighbours are in state EAT or at their meal, cancelled threads included |
| Philosophers.FreeMutexMeansSettled | cw09/zad1/main.c:19-47 | with the mutex free no two neighbours are in state EAT, every philosopher in state WAIT has a neighbour in EAT, at most half of the table is in EAT, and at most twice as many are in WAIT |
| Philosophers.NoLostWakeUp | cw09/zad1/main.c:19-37 | a philosopher asleep on its condition is in state WAIT unless the mutex owner is about to signal it |
| Philosophers.DeadThreadsOwnNothing | cw09/zad1/main.c:26-47 | no thread dies owning the mutex, including one cancelled inside the wait; only the owner releases or waits |
| Philosophers.DeathsAreOrderly | cw09/zad1/main.c:26-47 | a thread ends either at a `usleep` outside the monitor or in its cleanup handler, which releases the mutex it owns |
| Philosophers.StuckExactlyWhen | cw09/zad1/main.c:19-63 | nobody can move if and only if every thread is dead or asleep and not cancelled; then each sleeper has a dead neighbour in state EAT, cancelled while eating or promoted after it died waiting |
| Philosophers.BlockedExactlyWhen | cw09/zad1/main.c:19-63 | a thread can neither execute nor end if and only if it is dead, asleep and not cancelled, or wants the mutex another thread owns; a cancelled thread goes no further at a cancellation point |
| Stranding.PutsBack | cw09/zad1/main.c:40-47 | `put_back` without interruption: the philosopher thinks, its left and then its right neighbour is promoted if it may eat and woken if it sleeps |
| Stranding.StrandsExactlyWhen | cw09/zad1/main.c:19-63 | cancelling exactly a given set of threads can leave a living philosopher asleep with nobody able to move, if and only if somebody survives and some cancelled philosophers, no two of them neighbours, sit beside all survivors |
| Stranding.StrandedIsBlocked | cw09/zad1/main.c:19-63 | in such a state the dead philosophers in state EAT, cancelled while eating or promoted after they died waiting, are such a set |
| Stranding.OthersDie | cw09/zad1/main.c:19-63 | a run for any such set: they eat, the survivors fall asleep, the cancelled threads end |
| Stranding.DeadWaiterStrands | cw09/zad1/main.c:19-46 | a run in which a philosopher dies in state WAIT, is promoted to EAT by its neighbour and leaves that neighbour asleep with nobody able to move |
| Stranding.OneOfTwoStrands | cw09/zad1/main.c:19-63 | with two philosophers, cancelling one can strand the other |
| Philosophers.DeadlockFree | cw09/zad1/main.c:19-58 | without cancellation some thread can execute in every reachable state |
| Philosophers.Throughput | cw09/zad1/main.c:30-58 | n steps of N philosophers without cancellation contain enough finished meals and spurious wake-ups: n <= 10 N + 24 meals + 4 spurious wake-ups |
| Philosophers.SomebodyEats | cw09/zad1/main.c:30-58 | a run of more than 10 N statements contains the end of a meal |
| Philosophers.OrderlyShutdown | cw09/zad1/main.c:26-63 | once all threads are cancelled, every schedule takes at most 8 N more steps and can only stop with all threads dead and the mutex free |
| Philosophers.CancelledStep | cw09/zad1/main.c:26-47 | each step of a fully cancelled system lowers the summed rank of the program counters |
| Philosophers.SleeperBesideDeadEater | cw09/zad1/main.c:35-47 | among dead and sleeping threads a sleeper has a dead neighbour in state EAT |
| Philosophers.NobodyCancelledNobodyDies | cw09/zad1/main.c:60-63 | threads die only of cancellation |
| Philosophers.StepInv | cw09/zad1/main.c:19-63 | every statement, spurious wake-up, cancellation request and death keeps the invariant |
| Philosophers.StepTable | cw09/zad1/main.c:19-47 | inside a critical section only the philosophers its owner still has to examine may wait beside free forks |
| Philosophers.PromotionSettlesOne | cw09/zad1/main.c:19-24 | `change_philo_state(i)` keeps neighbours from eating together and settles philosopher i |
| Philosophers.ThinkingDisturbsNeighbours | cw09/zad1/main.c:43 | putting the forks back on a settled table can leave only the two neighbours unsettled |
| Philosophers.SettledQuantities | cw09/zad1/main.c:19-24 | double counting on the ring of any size >= 2 |
| Philosophers.Table.ChangePhiloState | cw09/zad1/main.c:19-24 | the array in place: promotion and signal exactly when the guard holds |
| Philosophers.Table.GetHungry | cw09/zad1/main.c:33-34 | from a settled table to a settled table: the philosopher eats unless a neighbour does, nobody else changes |
| Philosophers.Table.PutForksBack | cw09/zad1/main.c:43-45 | from a settled table to a settled table: the philosopher thinks, and exactly the neighbours that wait beside no other eater start to eat, the left one first |
| CStrings.StrCmpMeans | cw01/zad1/src/list.c:146 | `strcmp` is negative if and only if, at the first difference, the first string ends or has the smaller byte |
| Selection.SelectSortTies | cw01/zad1/src/list.c:146-149 | the strict comparison and the insertion in front bring equal keys out in reverse input order |
| Selection.SelectSortSorted | cw01/zad1/src/list.c:162-179 | the result is ascending |
| Selection.SelectSortPermutes | cw01/zad1/src/list.c:162-179 | the result is a permutation of the input |
| Selection.SelectSortIsStableOnReverse | cw01/zad1/src/list.c:162-179 | one pass is the stable ascending sort of the reversed input |
| Selection.SelectSortTwice | cw01/zad1/src/list.c:162-179 | two passes are the stable ascending sort |
| Selection.SelectSortThrice | cw01/zad1/src/list.c:162-179 | three passes are one pass |
| Selection.SelectSortByOrder | cw01/zad1/src/list.c:162-179 | the result lists the input positions in an order that depends on the keys alone, each once |
| Selection.FirstMaxExtends | cw01/zad1/src/list.c:146-150 | one comparison extends the first maximum of a prefix |
| Selection.SortedUnique | cw01/zad1/src/list.c:162-179 | two ascending sequences with the same equal-key subsequences are equal |
| PersonList.RemoveMax | cw01/zad1/src/list.c:110-160 | on any well-formed list the first maximum is returned unlinked, and the rest is a well-formed list in its old order |
| PersonList.FindMax | cw01/zad1/src/list.c:111-151 | the scan ends at the first maximum and its predecessor |
| PersonList.BypassedIsList | cw01/zad1/src/list.c:153-155 | bypassing one position leaves `prev` and `next` mutually inverse with null ends |
| PersonList.Sort | cw01/zad1/src/list.c:162-179 | terminates with a well-formed list of exactly the same nodes in the order of the abstract sort |
| PersonList.SortsByTheField | cw01/zad1/src/list.c:116-179 | for each of the six fields, the sorted nodes ascend by that field in `strcmp` order |
| PersonList.MoveMax | cw01/zad1/src/list.c:167-176 | one round moves the first maximum from one well-formed list to the front of the other |
| PersonList.SortTwice | cw01/zad1/src/list.c:162-179 | sorting a real list twice by one field leaves it stably sorted |
| PersonList.Find | cw01/zad1/src/list.c:79-108 | the first node whose field, one of the six by name, equals the argument, null when no node has it |
| PersonList.FindAfterSort | cw01/zad1/src/list.c:79-179 | after sorting, `find` returns the node that was last among its equals before |
| PersonList.InsertAtHead | cw01/zad1/src/list.c:34-43 | a new node with the given fields precedes the old nodes in a well-formed list |
| PersonList.RemoveAtHead | cw01/zad1/src/list.c:45-51 | the old nodes but the first, well formed |
| PersonList.InsertAtTail | cw01/zad1/src/list.c:54-66 | a new node with the given fields follows the old nodes; an empty list stays empty |
| PersonList.RemoveAtTail | cw01/zad1/src/list.c:68-77 | the old nodes but the last, well formed |
| PersonList.LastNode | cw01/zad1/src/list.c:62-63 | the walk ends at the last node |
| FileSort.SortFile | cw02/zad1/sort.c:26-63 | the first `file_size` records become the non-zero ones ascending with ties reversed, then the zero ones in their order; all later bytes are untouched |
| FileSort.Pass | cw02/zad1/sort.c:30-59 | one round moves the first maximum of the rest to the front of the file, or finds that the file is done |
| FileSort.Scan | cw02/zad1/sort.c:31-46 | the scan through the cursor finds the first maximum above zero from record i on, or that there is none |
| FileSort.Rotate | cw02/zad1/sort.c:49-59 | records 0..max_pos move up by one and the maximum becomes record 0 |
| FileSort.RecordsRoundTrip | cw02/zad1/sort.c:34-39 | cutting bytes into records and joining them gives the bytes back |
| FileSort.FlatUpdate | cw02/zad1/sort.c:53-54 | overwriting `record_size` bytes at `record_size * k` replaces record k and nothing else |
| FileSort.TakeMaximum | cw02/zad1/sort.c:36-46 | taking the first maximum of all records is taking the first maximum of the non-zero ones |
| FileSort.SortedFilePermutes | cw02/zad1/sort.c:26-63 | the result is a permutation of the records |
| FileSort.SortedExactlyWhen | cw02/zad1/sort.c:31-47 | the result is sorted by first byte if and only if the first bytes are all zero or none is |
| FileSort.UnsortedExample | cw02/zad1/sort.c:31-47 | first bytes 0, 1 end up as 1, 0 |
| FileSort.AgreesWithListSort | cw02/zad1/sort.c:29-60 | without zero keys the file sort and the linked-list sort apply the same permutation of positions |
| BoundedBuffer.SearchesStayInside | cw07/zad1/producer.c:102-104 | for any number of processes no search leaves the array, and the slot written or cleared is the first free or first full one at that moment |
| BoundedBuffer.LedgerBalances | cw07/zad1/producer.c:97-106 | EMPTY plus unspent and unposted EMPTY tokens is the number of -1 slots, dually for FILL, and at most one process is inside the critical section |
| BoundedBuffer.DrawsAreConserved | cw07/zad1/producer.c:99-104 | over every run each value has been drawn as often as it was written and is still held by producers |
| BoundedBuffer.ProducersWriteTheirDraws | cw07/zad1/producer.c:99-104 | what a producer holds, up to and including its write, is its own last draw, a number from 0 to 29999 |
| BoundedBuffer.BlockedExactlyWhen | cw07/zad1/consumer.c:98-107 | a process is held back if and only if EMPTY or FILL is 0 where it wants it or another process is inside the critical section; any number from 0 to 29999 can be drawn |
| BoundedBuffer.ItemsAreConserved | cw07/zad1/consumer.c:98-107 | over every run the multiset written is the multiset taken plus the array's contents, so every item is consumed at most once and at most MAX are pending |
| BoundedBuffer.DeadlockFree | cw07/zad1/consumer.c:98-107 | with a producer, a consumer and a slot, some process can execute in every reachable state |
| BoundedBuffer.Throughput | cw07/zad1/producer.c:97-106 | n steps of P processes contain enough writes and clearings: n <= (MAX + 6) P + (MAX + 7) transfers |
| BoundedBuffer.Deposit | cw07/zad1/producer.c:102-104 | with a free slot somewhere the unbounded search stops at the first one, which receives the value; nothing else changes |
| BoundedBuffer.Withdraw | cw07/zad1/consumer.c:102-105 | with a full slot somewhere the unbounded search stops at the first one, whose value is returned and which becomes free |
| BoundedBuffer.SearchStops | cw07/zad1/consumer.c:103 | the ledger implies that a search that has passed i slots has i < MAX |
| BoundedBuffer.StepTokens | cw07/zad1/producer.c:65-71 | each statement passes tokens on without creating or losing any; only writing and clearing trade one kind for a slot |
| BoundedBuffer.StepInv | cw07/zad1/producer.c:97-106 | every statement of either program keeps the invariant |
| BoundedBuffer.RolesStay | cw07/zad1/consumer.c:98-107 | a producer stays a producer and a consumer a consumer |
| PrimeQueue.OneMessagePerClient | cw06/zad1/client.c:56-98 | with at most 100 clients the table is only indexed where it was set and no unset id is read, each client has at most one message waiting or to send, and the server's send to it never blocks |
| PrimeQueue.EnabledExactlyWhen | cw06/zad1/client.c:61-98 | in every reachable state a client sends when it has a request and the server's queue has room, and receives when a reply waits; the server receives when a request waits, and its reply is never held back |
| PrimeQueue.RecordsAreTheRuns | cw06/zad1/server.c:60-79 | the pairs recorded as drawn, judged and printed are those of the requests received in the run, with the numbers drawn there |
| PrimeQueue.RepliesHaveOwners | cw06/zad1/server.c:45-80 | every reply on its way is addressed to some client's queue |
| PrimeQueue.DeadlockFree | cw06/zad1/server.c:44-82 | for all capacities >= 1 and at most 100 clients some message can move in every reachable state |
| PrimeQueue.Throughput | cw06/zad1/server.c:44-82 | n actions of C clients bring the server between (n - 9 C) / 8 and n / 8 verdicts, for any capacities and at most 100 clients |
| PrimeQueue.MoveToVerdict | cw06/zad1/client.c:66-98 | every action brings one client's message one action nearer to the next verdict, eight actions a cycle |
| PrimeQueue.ServedInTurn | cw06/zad1/server.c:45 | the request at position i of the server's queue is taken by receipt number i + 1, and i is below the capacity |
| PrimeQueue.QueueAdvances | cw06/zad1/server.c:45 | after r receipts the queue starts with what stood behind the first r requests |
| PrimeQueue.RequestsCarryIds | cw06/zad1/client.c:68-95 | every request of type 2 or 3 carries its sender's id, which has been assigned and whose table entry is the sender's queue |
| PrimeQueue.IdsIdentifyClients | cw06/zad1/server.c:46-59 | a client's id is a used index of the table, its entry is that client's queue, and no two clients share an id |
| PrimeQueue.PrintedNumbersWereDrawn | cw06/zad1/server.c:60-79 | a (client, number) pair is judged at most as often as it was drawn, printed each time it is judged if the number is prime or below 2, and never otherwise |
| PrimeQueue.BadAccessExactlyWhen | cw06/zad1/server.c:41-48 | an index outside `client_queues`, or a read of an entry or id that was never set, is reachable if and only if there are more than 100 clients |
| PrimeQueue.TextsFit | cw06/zad1/server.c:50-65 | with at most 100 clients and `int` queue identifiers, every message text in every reachable state is shorter than 32 characters |
| PrimeQueue.EncodeLength | cw06/zad1/client.c:80-92 | each kind of message fits, at the largest id, number and queue identifier |
| DecimalText.DecLength | cw06/zad1/server.c:51 | a number below ten to the k prints in at most k characters |
| PrimeQueue.Refines | cw06/zad1/server.c:44-82 | every reachable state of the message system represents a state of the token protocol |
| PrimeQueue.Simulate | cw06/zad1/client.c:66-98 | each send and receive of either program moves exactly one token along its cycle |
| PrimeQueue.ReactEncodes | cw06/zad1/client.c:68-95 | the client parses each reply and composes the request that answers it |
| PrimeQueue.ServeEncodes | cw06/zad1/server.c:46-80 | the server parses each request and addresses the right reply to its sender |
| PrimeQueue.Server.Dispatch | cw06/zad1/server.c:46-80 | the table and the counter updated in place, the reply and the printed pair, as the protocol's `Serve` says |
| PrimeQueue.ClientProcess.Dispatch | cw06/zad1/client.c:68-95 | the client's id updated in place and the answer sent, as the protocol's `React` says |
| PrimeQueue.IsPrime | cw06/zad1/client.c:17-28 | 1 exactly when no d from 2 to number/2 divides the number |
| PrimeQueue.LooksPrimeExactlyWhen | cw06/zad1/client.c:17-28 | that is so if and only if the number is below 2 or prime |
| PrimeQueue.PrimesAreNoProducts | cw06/zad1/client.c:17-28 | a number from 2 on is prime if and only if it is no product of two factors from 2 on |
| PrimeQueue.ZeroAndOneAreReported | cw06/zad1/client.c:17-28 | 0 and 1 pass although they are not prime |
| DecimalText.ReadNumber | cw08/zad1/wersja3.c:42 | reading white space, an optional sign, leading zeros, the digits of n and a non-digit gives n or -n |
| DecimalText.DecDigits | cw06/zad1/server.c:51 | the characters of a printed number are its decimal digits, without leading zeros |
| DecimalText.TripleRoundTrip | cw06/zad1/server.c:71 | `sscanf` reads back the three numbers that `sprintf` printed at client.c:81 |
| DecimalText.AtoiRoundTrip | cw06/zad1/server.c:47-51 | `atoi` reads back the number that `sprintf` printed |
| RecordSearch.ParallelEqualsSequential | cw08/zad1/wersja3.c:32-53 | when all threads have ended, whatever their number and the schedule, the multiset of visits and hits is that of the sequential scan |
| RecordSearch.NothingReportedTwice | cw08/zad1/wersja3.c:32-53 | at any moment the events so far are a sub-multiset of the sequential scan |
| RecordSearch.SequentialScanIsExact | cw08/zad1/wersja3.c:41-51 | the sequential scan visits each complete 1024-byte record once and reports once each place from offset 5 on where the file has the word between two blanks inside a record, with the number the record starts with, and nothing else |
| RecordSearch.HitCarriesNumber | cw08/zad1/wersja3.c:42-46 | a hit in a record that starts with white space, an optional sign and the digits of n carries n or -n |
| RecordSearch.BlockedExactlyWhen | cw08/zad1/wersja3.c:32-53 | a thread cannot execute if and only if it has ended, or wants the mutex while another thread is between lock and unlock |
| RecordSearch.ThreadFunc | cw08/zad1/wersja3.c:21-56 | a thread alone performs the sequential scan and ends |
| RecordSearch.ScanChunk | cw08/zad1/wersja3.c:39-51 | the loop over a chunk reports exactly the events of its complete records |
| RecordSearch.HitsAreMatches | cw08/zad1/wersja3.c:42-48 | the hits reported for a record stand at exactly the offsets the inner loop finds in it |
| RecordSearch.ScanRecord | cw08/zad1/wersja3.c:44-48 | the inner loop finds the matching offsets of the record, each once and in increasing order |
| RecordSearch.WordEq | cw08/zad1/wersja3.c:58-77 | true exactly when the byte before the position is a blank, the bytes from it on are the word and the byte after them is a blank |
| RecordSearch.MatchesFromAreExact | cw08/zad1/wersja3.c:44-48 | an offset is listed if and only if it is in range and the word stands there |
| RecordSearch.SpellsMeans | cw08/zad1/wersja3.c:63-71 | the character loop compares the word with the slice of the record |
| RecordSearch.ChunkBoundaries | cw08/zad1/wersja3.c:36-39 | a read from a record boundary delivers exactly the complete records it takes from the file and ends at a boundary or the end |
| RecordSearch.DeadlockFree | cw08/zad1/wersja3.c:32-53 | some thread can go on until all have ended |
| RecordSearch.SearchTerminates | cw08/zad1/wersja3.c:32-53 | T threads take at most 10 bytes-in-file + 4 T steps under every schedule, and 4 more for each `read` that fails |
| RecordSearch.UnreadableFileLoops | cw08/zad1/wersja3.c:33-37 | when every `read` fails there are runs of every length |

## Left out

- Printing, time formatting, the lengths of `sleep` and `usleep`, the quality of `rand`: random values are arbitrary in
  the range the code gives them. The unsynchronised reads of `planes_on_board` in `printf` are not modelled.
- The concurrent programs are step relations over values; only their critical sections and single statements are also
  methods that update state in place. Mutual exclusion inside `Monitor` is by program counters, not by real threads.
- Weak memory: shared variables are accessed under mutexes or semaphores and change one statement at a time.
- Starvation freedom of a single plane or philosopher: the programs do not provide it. How long a plane with a lost
  wake-up sleeps is not bounded.
- The payload of a list node is `const` in `PersonList`: the source assigns it in `createNode` only
  (cw01/zad1/src/list.c:11-16).
- `handler` (cw09/zad1/main.c:60-63) is one cancellation request per thread in any order and at any time, which covers
  its loop; on which thread the signal is delivered is not modelled.
- Creation of semaphores, shared memory and queues (cw07/zad1/producer.c:36-95, cw06/zad1/server.c:33-39): the models
  start after it, each client just before its first send. Removal of queues by signal handlers is out.
- Unsuccessful polls with `IPC_NOWAIT` change nothing and are not steps; a blocked `msgsnd` is an action that is not
  enabled. Queue capacities count messages, which all have the same size in the source.
- PrimeQueue.BadAccessExactlyWhen: does not cover the `sizeof(long)` bytes past `buf` that every send reads and every
  receive writes because of its size argument; what those bytes do to their neighbours is not modelled.
- PrimeQueue.OneMessagePerClient: does not cover those bytes either.
- Message texts are strings without a length limit, which loses nothing where `PrimeQueue.TextsFit` applies. `ReadInt`
  gives 0 where `sscanf` would leave a variable unset; no reachable message has such a text.
- The 255-byte copies in `find` and `removeMax` (cw01/zad1/src/list.c:81-144): fields are compared directly, which
  supposes shorter fields. Freeing memory and `deleteList` are out.
- PersonList.RemoveAtHead: excludes one-node lists, on which the source dereferences a null pointer.
- PersonList.RemoveAtTail: excludes one-node lists, on which the source dereferences a null pointer.
- FileSort.SortFile: requires a file of at least `record_size * file_size` bytes, because on a shorter one `read` leaves
  a freshly allocated buffer unset and the source compares and writes those bytes; `record_size` >= 1, because line 31
  writes the first byte of the record; and no integer overflow in `i * record_size`. Input-output errors are out. `lib_sort_file`
  (cw02/zad1/sort.c:65-102) is the same algorithm over another interface.
- RecordSearch.SearchTerminates: counts failing reads instead of excluding them; why a `read` fails is not modelled.
- RecordSearch.ParallelEqualsSequential: supposes that `read` delivers all the bytes there are up to the chunk size,
  and that `atoi` finds the end of a record's number inside the record.
- cw01/zad2 (a copy of the list), cw08/zad1/wersja1.c and wersja2.c (the search with early cancellation, in which hits
  may be missed), cw04/zad2, cw06/zad2, cw07/zad2 (where the reader count is not shared), cw10, and the file-system,
  pipe, process and signal demonstrations of cw02 to cw05 and cw08/zad2.
