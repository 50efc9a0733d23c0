# Nachos in Dafny

A model of the stateful parts of the Nachos teaching operating system, with its course extensions, and proofs of
what those parts keep. `dafny verify dfyconfig.toml` checks everything.

Each component comes in two forms. Its specification is a datatype of states with functions that take the steps of the C++ code,
branch by branch; the theorems are lemmas about runs of those functions. Beside it stands a class (or methods) with the
fields, arrays and loops of the C++ code, whose methods are proved to move from state to state as the specification says.
So the theorems hold of the classes too.

**The networked lock, condition-variable and monitor-variable service** (`network/nettest.cc`). `Wire`, `Tables` and `Protocol` say what one
server does with one message. `Network` puts servers together: one iteration of `Server()` is one atomic step, and each ordered
pair of servers has a reliable first-in-first-out channel. A trace records messages, answers, and two observations the code
does not make itself: `Issued` (a server takes on a request for a client) and `Ran` (it executes an operation on a slot).
`NameRace`, `Effects`, `TwoServers` and `TwoServersRun` prove unique names for two servers, and `ThreeServers` gives the run
that breaks them for three. `Sends`, `Emissions`, `Counting` and `Outstanding` keep the books on questions and replies; `Routing` and
`RoutingRun` say who executes what, in which order; `Waiters`, `WaitersRun`, `WakeOrder`, `WakeRuns`, `LockBooks` and `WaiterLedger` follow
clients through the queues; `CreateCounts` and `CreateCountsRun` count creates and destroys; `LockService`, `WaitService` and `CreateService` look at one server alone, and `ServiceFlaws` has runs that reach
what these find wanting. `ServerMachine` is the mutating server.

**Demand paging** (`userprog/exception.cc`, `userprog/addrspace.cc`, `machine/translate.cc`). `Paging` has the TLB, the inverted page table, the
frames, the swap file, the page tables and the executables, with fault handling, forks, exits and destruction as atomic steps.
`FlatMemory`, `Faults`, `Misses`, `Accesses`, `AddressSpaces` and `PagedRuns` prove that all of it together is one flat memory per address space;
`EvictionQueue` and `PagingTheorems` add the order of eviction and the theorems about runs, `Replacement` and `Exits` what a fault
replaces and an exit gives back, `Destructor` and `StaleQueue` what the
destructor does to that order. `PagerMachine` is the machine with its
arrays and bitmaps (`Bits`). The choice of the random eviction policy is a parameter of each fault.

**The file system** (`filesys/`, `userprog/bitmap.cc`). The disk is 1024 sectors of 128 bytes. `Disk` and `OpenFiles` treat files as arrays of bytes, `FileCodec` the formats of
header, free map and directory, `FreeMap` the ownership of sectors on decoded values, `FileSystem` and `FileSystemRuns` the same on the bytes of the
disk, and `NamedFiles` the disk as a map from names to arrays of bytes. `FileSystemMachine` has the mutable directory, header and file system.

**Threads, locks, interrupts, lists, arithmetic, disk timing.** `Threads`, `ThreadsOk`, `ThreadRuns`, `ThreadQueues`, `ThreadLedger` and `ThreadMachine`;
`Interrupts`, `InterruptAsks` and `InterruptMachine`;
`LinkedList` (nodes and pointers); `Multiply`; `DiskLatency`.

Five places where the code does not do what its names or comments say, modelled as the code has them:

- `~AddrSpace` searches the eviction list with the index of the list where the page's is meant (`userprog/addrspace.cc:272`).
  Memory contents are unaffected; the list keeps stale entries. `Destructor.LoadOrderIffErasesOwn` gives the exact condition,
  `StaleQueue.StaleEntriesReached` a run that fails it, and `PagingTheorems.QueueIsLoadOrder` speaks of runs with the index that is meant.
- The tie-break for creates is sound for two servers only (`network/nettest.cc:2055-2076`).
- `serverDoBroadcast` does not compare the caller's lock with the one the waiters released (`network/nettest.cc:1406-1435`); `WaitService.BroadcastReacquiresOwnLock`, `WakeRuns.ConservedIffCareful`.
- The status of a create on a full lock table tests the encoded identifier, which is -1 on machine 0 only (`network/nettest.cc:691-706`); elsewhere the client is told that it succeeded. `CreateService.LockStatusIsRightWhen`, `ServiceFlaws.FullTableReached`.
- A lock that is destroyed more often than it was created while a client holds it stays in the table after its release, and after creates make up for the destroys, since only destroys and releases look at the count (`network/nettest.cc:733-751`).
  `CreateCountsRun.DestroyTakesAwayIff` and `CreateCountsRun.ReleaseTakesAwayIff` say exactly when a lock goes, `ServiceFlaws.OverdraftReached` is such a run.

## Model

| member | source | states |
|---|---|---|
| `TwoServersRun.TwoServersAgree` | `nachos-csci402/code/network/nettest.cc:1971-2087` | With two servers, in every run without destroys in which no table fills: at most one server ever owns a name, never more answers to creates of a name than creates, and once no message about the name is in flight every create of it has been answered and nothing about it is pending |
| `TwoServersRun.OwnershipIsPermanent` | `nachos-csci402/code/network/nettest.cc:661-706` | Once one of the two servers owns a name, it owns it in every later state of the run, and the other never does |
| `NameRace.MoveKeeps` | `nachos-csci402/code/network/nettest.cc:1971-2087` | The race of two servers for one name, seen through the messages, pending requests and answers about it alone: every client create and every message read keeps its invariant, the tie-break by machine number included |
| `NameRace.InvMeans` | `nachos-csci402/code/network/nettest.cc:1989-2084` | That invariant means: never two owners, never more answers than creates, and nothing left waiting once the channels are empty |
| `TwoServersRun.StepKeepsRace` | `nachos-csci402/code/network/nettest.cc:1920-2087` | Each iteration of a real server, with all its tables, its whole pending list and all its traffic, is for every name a move of that name's race or leaves it alone |
| `ThreeServers.ThreeServersDisagree` | `nachos-csci402/code/network/nettest.cc:2042-2084` | The two-server bound is tight: a run of three servers, without destroys or full tables, that ends with two of them owning the same name |
| `Outstanding.RepliesConserved` | `nachos-csci402/code/network/nettest.cc:228-295` | Any number of servers, any requests, every run: a forwarded request has been answered NO fewer times than it was sent, and sent = NOs counted + questions and replies still in flight; a parked create waits behind a forwarded create of the same name on that server |
| `Outstanding.NothingForgotten` | `nachos-csci402/code/network/nettest.cc:1989-2084` | When nothing is in flight, no server has a pending request |
| `Outstanding.StepKeepsBooks` | `nachos-csci402/code/network/nettest.cc:212-216` | Each server iteration keeps these books for every server at once, whatever the request |
| `Counting.DistinctTickets` | `nachos-csci402/code/network/nettest.cc:228-262` | No two pending requests of a server can be answered by the same reply |
| `RoutingRun.ExecutedByOwnerInOrder` | `nachos-csci402/code/network/nettest.cc:797-816` | Any number of servers, every run: of the requests by identifier for an owner that is up, those another server took on are, in order, those the owner said YES to and those still travelling; the owner ran exactly what it said YES to or took on itself, in that order, on slot id % 100; nobody else ran any of them |
| `RoutingRun.OwnerUpNeverAllNo` | `nachos-csci402/code/network/nettest.cc:2091-2156` | While the owner is up no server ever counts the last NO for such a request, so the fallback that takes a global identifier for a slot is not reached |
| `RoutingRun.LastNoRunsHere` | `nachos-csci402/code/network/nettest.cc:2113-2130` | The last NO to a request by identifier runs it here on the slot whose number is the whole identifier; an earlier NO is only counted |
| `RoutingRun.StepKeepsRouting` | `nachos-csci402/code/network/nettest.cc:1930-1960` | Each server iteration keeps that order and that every request for another owner still has its question or its YES on the way |
| `Wire.DecodeEncode` | `nachos-csci402/code/network/nettest.cc:606-628` | An identifier decodes to its slot on the machine that issued it and to -1 on every other |
| `WaitersRun.TablesStaySound` | `nachos-csci402/code/network/nettest.cc:661-688` | Every run, creates and destroys included: a bit is set exactly when its slot is live, live names differ, the first clear bit never points beyond the vector (the ASSERT(FALSE) is unreachable), and a free lock has no queue |
| `Tables.FindWithinVector` | `nachos-csci402/code/network/nettest.cc:664-686` | The first clear bit is at most the size of the vector, and there is none exactly when the table is full |
| `Tables.CreateNamedOk` | `nachos-csci402/code/network/nettest.cc:644-688` | Find-or-create keeps the table's invariant and adds ownership of exactly that name, unless the table is full (what it does to the create count: CreateCountsRun.CountsAreCreates) |
| `Tables.DeleteOk` | `nachos-csci402/code/network/nettest.cc:733-751` | Destroying a slot keeps the invariant and gives up exactly that name |
| `CreateCountsRun.CountsAreCreates` | `nachos-csci402/code/network/nettest.cc:661-688` | Every run, each of the three tables: the create count of a live slot = creates answered with its identifier since it was filled - destroys run on it since, both read off the trace; a monitor variable is there only while creates exceed destroys; so is a free lock whose creates were never outnumbered |
| `CreateCountsRun.GoneOnlyWhenEqual` | `nachos-csci402/code/network/nettest.cc:733-751` | Every run and whatever comes next: an entry goes away only when creates and destroys, those of the step included, are equal; so nothing that two clients created goes with one destroy |
| `CreateCountsRun.DestroyTakesAwayIff` | `nachos-csci402/code/network/nettest.cc:866-881` | In every reached state a destroy takes the entry away if and only if it makes destroys equal creates and, for a lock, it is free, for a condition variable, nobody waits; any other destroy counts down by one |
| `CreateCountsRun.ReleaseTakesAwayIff` | `nachos-csci402/code/network/nettest.cc:818-842` | In every reached state a release takes the lock away if and only if it is the holder's, nobody waits and destroys equal creates |
| `ServiceFlaws.OverdraftReached` | `nachos-csci402/code/network/nettest.cc:733-751` | A run of one server from the start in which a lock is destroyed twice while held, released and created again: it is free, created as often as destroyed, and still there |
| `Tables.FindNamed` | `nachos-csci402/code/network/nettest.cc:644-659` | The first live slot with the name, or -1 when none has it |
| `WaitersRun.AcquiresConserved` | `nachos-csci402/code/network/nettest.cc:754-794` | Every run, every server: acquires run for a client = answers it was given for them + its places in lock queues |
| `WaitersRun.WaitersConserved` | `nachos-csci402/code/network/nettest.cc:1138-1177` | Every run, every server: waits accepted for a client = wake-ups issued for it + its places in condition-variable queues |
| `WakeRuns.ConservedIffCareful` | `nachos-csci402/code/network/nettest.cc:1406-1435` | Over every run in which waits name a lock: the waiters of each lock are conserved at every point if and only if no broadcast that is run names another lock than that of the waiters it finds |
| `WakeOrder.DoBroadcastAccounts` | `nachos-csci402/code/network/nettest.cc:1406-1435` | A broadcast keeps the books of waits and wake-ups if and only if it names the lock of the waiters it finds |
| `WakeRuns.WaitersConservedPerLock` | `nachos-csci402/code/network/nettest.cc:1261-1308` | In such a careful run, for each lock: releases issued for waits = acquires issued for wake-ups + clients still queued to reacquire that lock |
| `WakeRuns.ReleaseComesFirst` | `nachos-csci402/code/network/nettest.cc:1138-1177` | In such a run a wake-up never overtakes: at any point the lock's owner has run, of what a condition-variable server asked for a client, no more acquires than releases, but for acquires the client sent itself |
| `WakeRuns.ReleaseComesFirstHere` | `nachos-csci402/code/network/nettest.cc:797-864` | The same when lock and condition variable live on one server |
| `WakeRuns.WaitingLockIffWaiters` | `nachos-csci402/code/network/nettest.cc:1145-1170` | Every run in which waits name a lock, whatever is broadcast: a condition variable has a waiting lock exactly while someone waits, so Signal always finds a waiter to remove |
| `WakeOrder.DoAccounts` | `nachos-csci402/code/network/nettest.cc:1261-1308` | What each operation issues for each lock matches the change in who waits with it, unless it is a broadcast that names another lock than its waiters', which never matches; and no operation issues both a release and an acquire of one lock for one client |
| `WaiterLedger.NoWaiterLost` | `nachos-csci402/code/network/nettest.cc:1138-1308` | Over all servers, for each lock whose owner is up and each client, at every point of such a run: waits accepted + acquires the client sent = places in condition variables' queues + acquires on their way to the owner + places in the lock's queue + answers the owner gave about it |
| `WaiterLedger.SlotConserved` | `nachos-csci402/code/network/nettest.cc:754-842` | Every run, any requests, every lock slot: acquires run on it = answers given about it + places in its queue |
| `LockService.FirstComeFirstServed` | `nachos-csci402/code/network/nettest.cc:818-842` | Any sequence of acquires, releases and destroys: those queued at the start and those left waiting since are, in order, those handed the lock and those still queued |
| `LockService.OneHolder` | `nachos-csci402/code/network/nettest.cc:754-794` | The holder of a lock changes only by the holder's own release, and whoever is told it has the lock is the holder |
| `LockService.HeldUntilReleased` | `nachos-csci402/code/network/nettest.cc:818-842` | Until the holder releases, nobody else is told it has the lock, over any sequence of operations |
| `LockService.DeletedOnlyWhenUnused` | `nachos-csci402/code/network/nettest.cc:733-751` | One operation: a lock disappears only when it is marked, nobody holds it any more, its queue is empty and its create count, whose meaning is CreateCountsRun.CountsAreCreates, comes to 0 |
| `LockService.AcquireAnswers` | `nachos-csci402/code/network/nettest.cc:754-794` | An acquire is answered at once with success if and only if the lock is free or the client's own; otherwise the client is queued last without an answer; a slot without a lock is answered with failure |
| `LockService.ReleaseHandsOver` | `nachos-csci402/code/network/nettest.cc:818-842` | The holder's release makes the client that waited longest the holder and tells it so, or frees the lock when nobody waits; any other release changes nothing |
| `WaitService.WokenInOrder` | `nachos-csci402/code/network/nettest.cc:1406-1435` | Any sequence of waits, signals and broadcasts: waiters are woken in the order in which they were accepted, none skipped and none twice |
| `WaitService.BroadcastReacquiresOwnLock` | `nachos-csci402/code/network/nettest.cc:1406-1435` | Broadcast does not check its lock: the waiters reacquire the lock they released if and only if the caller names it |
| `WaitService.WaitAcceptedIff` | `nachos-csci402/code/network/nettest.cc:1138-1177` | A wait is accepted, queued last and its release issued, if and only if the variable is there and nobody waits with another lock; else it fails and changes nothing |
| `WaitService.SignalWakesIff` | `nachos-csci402/code/network/nettest.cc:1261-1308` | A signal wakes the longest waiter, with an acquire issued for it, if and only if it names the waiters' lock; and when it is answered with success or failure |
| `WaitService.BroadcastWakesAll` | `nachos-csci402/code/network/nettest.cc:1406-1435` | A broadcast empties the queue, issues an acquire of the lock it names for every waiter in order, and succeeds unless the variable is not there |
| `ServiceFlaws.MismatchReached` | `nachos-csci402/code/network/nettest.cc:1406-1435` | A run of one server from the start in which a broadcast finds a waiter under another lock, and the waiters of that lock are not conserved |
| `WaitService.GetSeesLastSet` | `nachos-csci402/code/network/nettest.cc:1736-1825` | Set and get as the server dispatches them: a get after a set sees the value set at that index and the old ones elsewhere; indices out of range and variables that are not there are refused by both |
| `WaitService.SetTouchesOneVariable` | `nachos-csci402/code/network/nettest.cc:1736-1767` | A set changes no other variable, and a get changes nothing |
| `WaitService.NewVariableIsZero` | `nachos-csci402/code/network/nettest.cc:1609-1643` | A get from a variable just created returns 0 at every index up to the size asked for, and fails beyond it |
| `CreateService.StartsIdle` | `nachos-csci402/code/network/nettest.cc:661-688` | What a create of a new name leaves in its slot: one create, a free lock without waiters, a condition variable without waiters, or zeros |
| `CreateService.CreateAnswersItsSlot` | `nachos-csci402/code/network/nettest.cc:691-706` | With room, a create answers once, with an identifier that decodes here to the slot holding the name; a monitor variable of another size is refused and nothing changes |
| `CreateService.IdentifierIsStable` | `nachos-csci402/code/network/nettest.cc:661-688` | Creating anything moves no name that is there: its identifier stays |
| `CreateService.FullTableAnswer` | `nachos-csci402/code/network/nettest.cc:1037-1055` | On a full table a create of a new name changes nothing, and says so, but for locks on machines other than 0 |
| `CreateService.LockStatusIsRightWhen` | `nachos-csci402/code/network/nettest.cc:691-706` | The status of a lock create is right if and only if there was room for it or this is machine 0 |
| `ServiceFlaws.FullTableReached` | `nachos-csci402/code/network/nettest.cc:691-706` | A run of a hundred creates on machine 1 that fills its lock table; the next client is told it succeeded, with identifier 99, and nobody owns the name |
| `ServerMachine.Machine.constructor` | `nachos-csci402/code/network/nettest.cc:1920-1929` | A new server has empty tables, nothing pending and nothing sent |
| `ServerMachine.Machine.Handle` | `nachos-csci402/code/network/nettest.cc:1930-1960` | One message from a server, read by the mutating server, has the tables, pending list, counters, messages and answers, in order, of the function the theorems are about |
| `ServerMachine.Machine.FromClient` | `nachos-csci402/code/network/nettest.cc:1971-1980` | The same for a request from a client |
| `ServerMachine.Machine.FromServer` | `nachos-csci402/code/network/nettest.cc:2042-2084` | The same for a request forwarded by a server: YES with the work done, YES with the request parked, or NO |
| `ServerMachine.Machine.FromReply` | `nachos-csci402/code/network/nettest.cc:1989-2037` | The same for a YES or a NO to a request of its own, the last NO included |
| `ServerMachine.Machine.AllNo` | `nachos-csci402/code/network/nettest.cc:2019-2036` | The last NO: the work is done here, every create parked behind it is answered, and the request is forgotten |
| `ServerMachine.Machine.AnswerAll` | `nachos-csci402/code/network/nettest.cc:2025-2035` | The loop that answers every pending create of a name answers each once, in order, and forgets them |
| `ServerMachine.Machine.DropAll` | `nachos-csci402/code/network/nettest.cc:2004-2011` | The loop that deletes every pending create of a name deletes exactly those |
| `ServerMachine.Machine.SendPending` | `nachos-csci402/code/network/nettest.cc:228-295` | The loop that asks every other machine: one question to each that is up, the count of them in the pending request, a fresh request number either way |
| `ServerMachine.Machine.SendToAll` | `nachos-csci402/code/network/nettest.cc:267-283` | Each machine that can be reached but this one gets the message once, and the count is how many did |
| `ServerMachine.Machine.CheckLockAndDestroyHere` | `nachos-csci402/code/network/nettest.cc:733-751` | Deletes the lock exactly when it is marked, free and no longer created by anyone |
| `ServerMachine.Machine.AcquireHere` | `nachos-csci402/code/network/nettest.cc:754-794` | The acquire body on the tables in place |
| `ServerMachine.Machine.ReleaseHere` | `nachos-csci402/code/network/nettest.cc:818-842` | The release body: only by the owner, hand-over to the front of the queue with its reply |
| `ServerMachine.Machine.DestroyLockHere` | `nachos-csci402/code/network/nettest.cc:866-881` | The destroy body: marked, count down, deleted when unused |
| `ServerMachine.Machine.IssueLockHere` | `nachos-csci402/code/network/nettest.cc:797-816` | Run here when the lock is this server's, forwarded otherwise, run anyway when alone |
| `ServerMachine.Machine.WaitHere` | `nachos-csci402/code/network/nettest.cc:1138-1177` | The wait body, with its release of a lock that may be elsewhere |
| `ServerMachine.Machine.SignalHere` | `nachos-csci402/code/network/nettest.cc:1261-1308` | The signal body, with its acquire for the waiter that is woken |
| `ServerMachine.Machine.BroadcastHere` | `nachos-csci402/code/network/nettest.cc:1406-1435` | The broadcast loop over the queue |
| `ServerMachine.Machine.DestroyCVHere` | `nachos-csci402/code/network/nettest.cc:1103-1113` | The destroy body of condition variables |
| `ServerMachine.Machine.SetHere` | `nachos-csci402/code/network/nettest.cc:1736-1767` | The set body with its bounds checks |
| `ServerMachine.Machine.GetHere` | `nachos-csci402/code/network/nettest.cc:1795-1825` | The get body with its bounds checks |
| `ServerMachine.Machine.DestroyMVHere` | `nachos-csci402/code/network/nettest.cc:1689-1709` | The destroy body of monitor variables |
| `ServerMachine.Machine.CreateHere` | `nachos-csci402/code/network/nettest.cc:691-706` | Find-or-create with its reply, for the three kinds |
| `ServerMachine.FindNamedRequest` | `nachos-csci402/code/network/nettest.cc:317-327` | The first pending create of that kind and name, or -1 |
| `ServerMachine.FindRequest` | `nachos-csci402/code/network/nettest.cc:300-314` | The first pending request that a reply matches in number, type, name or identifier, and client, or -1 |
| `ServerMachine.CreateIn` | `nachos-csci402/code/network/nettest.cc:661-688` | The search, the bitmap's Find and the vector of one table: the table found, counted up or grown exactly as specified (and CreateCountsRun.CountsAreCreates holds of it) |
| `PagingTheorems.PagingIsFlatMemory` | `nachos-csci402/code/userprog/exception.cc:1537-1748` | Over every interleaving of reads, writes, faults, evictions, context switches, creations, forks, exits and destructions: each byte of a read that completes is what was last written to that address of that space, or the executable's byte; an access is an address error if and only if it is not aligned; after a fault the access succeeds; and the machine stops only when no frame is free, the swap file is full and the victim is dirty |
| `PagedRuns.StepKeeps` | `nachos-csci402/code/userprog/exception.cc:1537-1748` | Each such step keeps TLB, inverted page table, page tables, frames, swap file and executables together equal to the flat memory after the step |
| `PagingTheorems.StructureHolds` | `nachos-csci402/code/userprog/exception.cc:1550-1707` | Over every run: a frame bit is set exactly when its entry is valid, valid entries map distinct pages, valid TLB entries are distinct, of the current space and of a valid frame, a swap bit is set exactly when one page lives in it, and a dirty resident page is dirty in the inverted table |
| `PagingTheorems.RetrySucceeds` | `nachos-csci402/code/machine/translate.cc:198-266` | After one fault is served, the same access goes through |
| `Misses.MissServes` | `nachos-csci402/code/userprog/exception.cc:1714-1748` | A TLB miss that does not halt the machine leaves the page in the TLB, the memory unchanged and everything else touchable still touchable |
| `Misses.FailsOnlyWhenSwapFull` | `nachos-csci402/code/userprog/exception.cc:1567-1582` | The machine halts at a fault if and only if the page is not resident, no frame and no swap page is free, and the victim is dirty |
| `FlatMemory.BreakIsEnough` | `nachos-csci402/code/userprog/exception.cc:1609-1661` | Leaving the eviction's TLB loop at the first hit unmaps the frame completely, and its dirty bit ends up in the inverted table |
| `FlatMemory.PropagateKeeps` | `nachos-csci402/code/userprog/exception.cc:1537-1544` | Propagating a TLB entry's dirty bit loses none and changes no mapping |
| `FlatMemory.PopulateKeeps` | `nachos-csci402/code/userprog/exception.cc:1550-1563` | Overwriting the next TLB entry loses no dirty bit and maps the page |
| `Replacement.EntriesTakeTurns` | `nachos-csci402/code/userprog/exception.cc:1550-1563` | A fault fills the TLB entry at the turn with the page and moves the turn to the next of four; every other entry stays, but for the one that maps an evicted frame |
| `Replacement.EvictedGoesTo` | `nachos-csci402/code/userprog/exception.cc:1567-1661` | A page is evicted only when no frame is free; a dirty one is in the first free swap page afterwards, as it was in its frame, a clean one is to be read from the executable again |
| `Faults.SaveKeeps` | `nachos-csci402/code/userprog/exception.cc:1567-1582` | Evicting a page, written to swap when dirty and relabelled when clean, keeps every space's contents |
| `Faults.LoadKeeps` | `nachos-csci402/code/userprog/exception.cc:1666-1707` | Loading a page from swap, executable or nowhere keeps every space's contents, and freeing its swap page is safe |
| `FlatMemory.FlushKeeps` | `nachos-csci402/code/userprog/addrspace.cc:527-539` | A context switch saves every dirty bit of the TLB before it is cleared |
| `AddressSpaces.CreateKeeps` | `nachos-csci402/code/userprog/addrspace.cc:143-248` | A new space starts as its executable followed by unspecified stack bytes |
| `AddressSpaces.ForkKeeps` | `nachos-csci402/code/userprog/addrspace.cc:319-380` | A fork adds eight stack pages and changes nothing else |
| `AddressSpaces.ExitKeeps` | `nachos-csci402/code/userprog/addrspace.cc:388-455` | Reclaiming an exiting thread's stack keeps the invariant against the same flat memory (what is given back: Exits.ExitGivesBack) |
| `Exits.ExitGivesBack` | `nachos-csci402/code/userprog/addrspace.cc:388-455` | In every reached state: after an exit each page of the stack is not loaded, each frame and swap page that held one is free and has no inverted-table entry, none of those frames is in the FIFO list if it was exact, and every other page, frame and swap page is as it was |
| `AddressSpaces.ReleaseKeeps` | `nachos-csci402/code/userprog/addrspace.cc:258-293` | Releasing one page frees exactly its frame or its swap page |
| `AddressSpaces.DestroyKeeps` | `nachos-csci402/code/userprog/addrspace.cc:258-293` | Destroying a space frees all it had and changes no other space, whichever queue entry the index bug erases |
| `Accesses.ReadSees` | `nachos-csci402/code/machine/translate.cc:89-128` | A completed read of 1, 2 or 4 bytes is assembled and sign-extended as the size demands, and each of its bytes that the flat memory fixes is what is there |
| `Accesses.WriteKeeps` | `nachos-csci402/code/machine/translate.cc:144-180` | A completed write changes exactly those bytes of the flat memory |
| `Bytes.ReadsBackWhatWasWritten` | `nachos-csci402/code/machine/translate.cc:89-180` | A value written in 1, 2 or 4 bytes is read back |
| `Bytes.BytesOfWhatWasRead` | `nachos-csci402/code/machine/translate.cc:89-128` | The bytes of a value that was read are the bytes it was read from |
| `Bytes.LowEndFirst` | `nachos-csci402/code/machine/translate.cc:144-180` | Byte k of a value written is its k-th digit to the base 256, from the low end |
| `EvictionQueue.MissQueue` | `nachos-csci402/code/userprog/exception.cc:1594-1661` | A fault that loads a page appends its frame to the FIFO list, after taking it out when it was in use, and one that does not leaves the list alone |
| `EvictionQueue.StepKeepsQueue` | `nachos-csci402/code/userprog/exception.cc:1594-1661` | The FIFO list is always at least as long as the number of frames in use, so eviction never finds it empty |
| `PagingTheorems.QueueIsLoadOrder` | `nachos-csci402/code/userprog/addrspace.cc:417-423` | With the index the destructor intends, the FIFO list is at every point of every run a duplicate-free list of exactly the frames in use, in the order of their last load |
| `PagingTheorems.VictimIsOldest` | `nachos-csci402/code/userprog/exception.cc:1609-1661` | The FIFO victim is the frame loaded longest ago |
| `Destructor.LoadOrderIffErasesOwn` | `nachos-csci402/code/userprog/addrspace.cc:258-293` | With the destructor as written, the FIFO list is at every point of a run the frames in use in load order if and only if, at each destruction, each of its searches, which compare with page `ii` of the table, erases one of the frames of the space |
| `Destructor.DestroyOldestIff` | `nachos-csci402/code/userprog/addrspace.cc:258-293` | The same for one destruction, as a condition on the list and the page table before it |
| `Destructor.ErasesRightFrame` | `nachos-csci402/code/userprog/addrspace.cc:271-276` | One search on a list without duplicates erases position i if and only if its comparison first succeeds there |
| `StaleQueue.StaleEntriesReached` | `nachos-csci402/code/userprog/addrspace.cc:271-276` | From every boot state, a run (touch page 1, touch page 0, destroy the space) after which two frames are listed and none is in use |
| `PagerMachine.Machine.constructor` | `nachos-csci402/code/userprog/addrspace.cc:143-160` | Boots with every TLB and inverted-table entry invalid and every frame and swap page free |
| `PagerMachine.Machine.PropagateDirty` | `nachos-csci402/code/userprog/exception.cc:1537-1544` | In place, the state after propagation |
| `PagerMachine.Machine.PopulateTLB` | `nachos-csci402/code/userprog/exception.cc:1550-1563` | In place, the TLB entry at the turn replaced and the turn advanced |
| `PagerMachine.Machine.SaveState` | `nachos-csci402/code/userprog/addrspace.cc:527-539` | The loop over the TLB: every dirty bit propagated, every entry invalid |
| `PagerMachine.Machine.RemoveFromQueue` | `nachos-csci402/code/userprog/exception.cc:1594-1603` | The search loop erases the first occurrence only |
| `PagerMachine.Machine.UnmapFrame` | `nachos-csci402/code/userprog/exception.cc:1609-1661` | The TLB loop with its break |
| `PagerMachine.Machine.SaveFrame` | `nachos-csci402/code/userprog/exception.cc:1567-1582` | Saving a frame, or None for a full swap file |
| `PagerMachine.Machine.FindOrEvict` | `nachos-csci402/code/userprog/exception.cc:1609-1661` | A free frame, or the victim's, saved |
| `PagerMachine.Machine.LoadPage` | `nachos-csci402/code/userprog/exception.cc:1666-1707` | Reading the page in and entering it in both tables |
| `PagerMachine.Machine.IPTMiss` | `nachos-csci402/code/userprog/exception.cc:1666-1707` | A page that is in no frame |
| `PagerMachine.Machine.TLBMiss` | `nachos-csci402/code/userprog/exception.cc:1714-1748` | The handler: the specification's state, or a halt exactly when it has none |
| `PagerMachine.Machine.TranslateHere` | `nachos-csci402/code/machine/translate.cc:198-266` | Alignment, the TLB search, the dirty bit, or the fault |
| `PagerMachine.Machine.Read` | `nachos-csci402/code/machine/translate.cc:89-128` | Value, outcome and state of a read |
| `PagerMachine.Machine.Write` | `nachos-csci402/code/machine/translate.cc:144-180` | Outcome and state of a write |
| `PagerMachine.Machine.CreateSpace` | `nachos-csci402/code/userprog/addrspace.cc:143-248` | The loops that set up the page table |
| `PagerMachine.Machine.Fork` | `nachos-csci402/code/userprog/addrspace.cc:319-380` | The loop that copies and extends the page table |
| `PagerMachine.Machine.ExitThread` | `nachos-csci402/code/userprog/addrspace.cc:388-455` | The loop that gives back a stack, as Exits.ExitGivesBack describes it |
| `PagerMachine.Machine.RemoveSpace` | `nachos-csci402/code/userprog/addrspace.cc:258-293` | The destructor's loop, its index as written |
| `Bits.BitMap.Mark` | `nachos-csci402/code/userprog/bitmap.cc:47-51` | Sets that bit of the packed words and no other |
| `Bits.BitMap.Clear` | `nachos-csci402/code/userprog/bitmap.cc:61-65` | Clears that bit and no other |
| `Bits.BitMap.Test` | `nachos-csci402/code/userprog/bitmap.cc:75-83` | Whether the bit is set |
| `Bits.BitMap.Find` | `nachos-csci402/code/userprog/bitmap.cc:95-103` | The smallest clear bit, now set, or -1 with nothing changed when all are set |
| `Bits.BitMap.NumClear` | `nachos-csci402/code/userprog/bitmap.cc:112-119` | The number of clear bits |
| `Bits.FindMeansCount` | `nachos-csci402/code/userprog/bitmap.cc:95-119` | Find fails exactly when NumClear is 0 |
| `NamedFiles.DiskIsNamedFiles` | `nachos-csci402/code/filesys/filesys.cc:80-288` | A formatted disk has no files, and over every run of creates, removes and writes the bytes of the disk act as a map from names to arrays of bytes: each operation does to it what it should and touches no other file |
| `NamedFiles.CreateMakes` | `nachos-csci402/code/filesys/filesys.cc:175-215` | A create that succeeds adds one name, with that many bytes; one that fails changes nothing; no other file changes |
| `NamedFiles.RemoveRemoves` | `nachos-csci402/code/filesys/filesys.cc:258-288` | A remove succeeds exactly when the name has a file, takes it away, and changes no other |
| `NamedFiles.PutWrites` | `nachos-csci402/code/filesys/filesys.cc:228-241` | Opening a name through the directory and writing changes those of its bytes that lie before its end, and no other file |
| `NamedFiles.FoundSector` | `nachos-csci402/code/filesys/directory.cc:109-116` | The sector that the directory finds for a name is -1 exactly when there is no such file, and otherwise holds the header whose contents on the disk are that file's bytes |
| `NamedFiles.GetReads` | `nachos-csci402/code/filesys/filesys.cc:228-241` | Opening a name and reading returns that file's bytes from the position on, cut off at its end, or NULL exactly when there is no such file |
| `FileSystemRuns.FreeMapIsExact` | `nachos-csci402/code/filesys/filesys.cc:80-143` | In every state reached from a format by Create and Remove (and writes to files): the sectors marked on disk are exactly sectors 0 and 1, the data of the two system files and each entry's header and data; no sector has two owners, names differ, and mounting the disk again gives the same file system |
| `FileSystemRuns.OwnersListed` | `nachos-csci402/code/filesys/filesys.cc:80-143` | Which sectors those are |
| `FileSystemRuns.FormatReady` | `nachos-csci402/code/filesys/filesys.cc:80-143` | Formatting any disk succeeds and establishes all of this with an empty directory |
| `FileSystemRuns.CreateOnDisk` | `nachos-csci402/code/filesys/filesys.cc:175-215` | Create on the bytes of the disk is Create on the directory and free map they encode; when it fails the disk is unchanged |
| `FileSystemRuns.RemoveOnDisk` | `nachos-csci402/code/filesys/filesys.cc:258-288` | The same for Remove, which succeeds exactly when the name is there |
| `FileSystemRuns.CreateKeepsFiles` | `nachos-csci402/code/filesys/filesys.cc:175-215` | Create leaves every byte of every existing file |
| `FileSystemRuns.RemoveKeepsFiles` | `nachos-csci402/code/filesys/filesys.cc:258-288` | Remove leaves every byte of every other file, and of the removed one |
| `FileSystemRuns.PutOnDisk` | `nachos-csci402/code/filesys/openfile.cc:148-187` | Writing to a file found in the directory changes neither directory nor free map nor any header |
| `FileSystemRuns.RestoredOnDisk` | `nachos-csci402/code/filesys/filesys.cc:258-288` | Create and then Remove of a name restores the free map bit for bit and what every name finds |
| `FileSystemRuns.DataIsPrivate` | `nachos-csci402/code/filesys/filehdr.cc:42-52` | No file's data sector is a system sector, a header or another file's data |
| `FreeMap.CreateFailsWhen` | `nachos-csci402/code/filesys/filesys.cc:175-215` | Create fails if and only if the name is taken, the directory is full, or there are not enough clear sectors for header and data |
| `FreeMap.CreateKeeps` | `nachos-csci402/code/filesys/filehdr.cc:42-52` | Create keeps the free map exact and all sectors singly owned |
| `FreeMap.RemoveKeeps` | `nachos-csci402/code/filesys/filehdr.cc:62-68` | Remove keeps the free map exact and all sectors singly owned |
| `FreeMap.TakeFresh` | `nachos-csci402/code/filesys/filehdr.cc:42-52` | Allocation marks that many distinct sectors that were clear, and no others |
| `FreeMap.DeallocateFindsMarked` | `nachos-csci402/code/filesys/filehdr.cc:62-68` | Every sector that Remove frees was marked: the ASSERT in Deallocate holds |
| `FreeMap.RemoveUndoesCreate` | `nachos-csci402/code/filesys/filesys.cc:258-288` | Create and Remove of a name restore the free map and the directory as a finite map |
| `FileSystem.RemountIsSame` | `nachos-csci402/code/filesys/filesys.cc:80-143` | What the memory holds of the file system is what the disk holds |
| `FileSystem.SavedBoth` | `nachos-csci402/code/filesys/directory.cc:77-80` | Saving directory and free map, in either order, leaves both readable |
| `FileCodec.HeaderRoundTrip` | `nachos-csci402/code/filesys/filehdr.cc:78-94` | A header written to its sector is read back |
| `FileCodec.HeaderLayout` | `nachos-csci402/code/filesys/filehdr.cc:78-94` | Words 0 and 1 of the sector are the two sizes, the others the sector numbers in order |
| `FileCodec.MapLayout` | `nachos-csci402/code/userprog/bitmap.cc:149-165` | The mark of sector i is bit i % 8 of byte i / 8 |
| `FileCodec.TableLayout` | `nachos-csci402/code/filesys/directory.cc:64-80` | Where the flag, the sector and the name of entry i are in the twenty bytes from 20 i on |
| `FileCodec.MapRoundTrip` | `nachos-csci402/code/userprog/bitmap.cc:149-165` | The free map written to its file is read back |
| `FileCodec.TableRoundTrip` | `nachos-csci402/code/filesys/directory.cc:64-80` | The directory written to its file is read back |
| `FileCodec.StrncmpIsKey` | `nachos-csci402/code/filesys/directory.cc:91-97` | The nine-character comparison of names is equality of their stored, cut-off forms |
| `Disk.WriteUpdatesContents` | `nachos-csci402/code/filesys/openfile.cc:148-187` | A write changes exactly the bytes from position up to min(numBytes, length - position) bytes on, for every alignment of its ends |
| `Disk.WriteTouchesOnlyFile` | `nachos-csci402/code/filesys/openfile.cc:148-187` | A write touches no sector outside the file's data |
| `Disk.WriteLeavesOtherFiles` | `nachos-csci402/code/filesys/openfile.cc:148-187` | A write changes no byte of a file with other sectors |
| `Disk.ReadAfterWrite` | `nachos-csci402/code/filesys/openfile.cc:118-187` | Any read after any write sees the written bytes where they overlap and the old ones elsewhere |
| `OpenFiles.OpenFile.ReadAt` | `nachos-csci402/code/filesys/openfile.cc:118-145` | The sector buffer and the copy out of it give that slice of the file, cut off at its end |
| `OpenFiles.OpenFile.WriteAt` | `nachos-csci402/code/filesys/openfile.cc:148-187` | Reading the partial end sectors, copying and writing back in place give the specified disk |
| `OpenFiles.OpenFile.Read` | `nachos-csci402/code/filesys/openfile.cc:76-81` | Reads at the seek position and advances it by what was read |
| `OpenFiles.OpenFile.Write` | `nachos-csci402/code/filesys/openfile.cc:84-89` | Writes at the seek position and advances it by what was written |
| `OpenFiles.OpenFile.ReadEnds` | `nachos-csci402/code/filesys/openfile.cc:171-176` | After the end sectors are read, every byte of the buffer that will not be overwritten is the file's own |
| `FileSystemMachine.Directory.Index` | `nachos-csci402/code/filesys/directory.cc:91-97` | The search loop finds the first entry in use with the name, or -1 |
| `FileSystemMachine.Directory.Find` | `nachos-csci402/code/filesys/directory.cc:109-116` | The sector of the name, or -1; which sector that is: NamedFiles.FoundSector |
| `FileSystemMachine.Directory.Add` | `nachos-csci402/code/filesys/directory.cc:130-143` | Fills the first free entry, unless the name is there or the table is full |
| `FileSystemMachine.Directory.Remove` | `nachos-csci402/code/filesys/directory.cc:154-162` | Frees the name's entry in place, keeping its stale name and sector |
| `FileSystemMachine.FileHeader.Allocate` | `nachos-csci402/code/filesys/filehdr.cc:42-52` | Takes sectors one by one; when there are too few the free map is as it was, and only the header's two sizes have changed |
| `FileSystemMachine.FileHeader.Deallocate` | `nachos-csci402/code/filesys/filehdr.cc:62-68` | Clears exactly the file's sectors |
| `FileSystemMachine.Files.Create` | `nachos-csci402/code/filesys/filesys.cc:175-215` | Fetch, check, allocate and write back on the mutable disk |
| `FileSystemMachine.Files.Open` | `nachos-csci402/code/filesys/filesys.cc:228-241` | Fetches the directory, and opens the header in the sector found, or returns null |
| `FileSystemMachine.Files.Remove` | `nachos-csci402/code/filesys/filesys.cc:258-288` | Fetch, deallocate and write back on the mutable disk |
| `Multiply.Mult` | `nachos-csci402/code/machine/mipssim.cc:634-691` | hi and lo together are the exact product modulo 2^64 for all 32-bit operands, signed and unsigned, INT_MIN and the early exit included |
| `Multiply.MultiplyBits` | `nachos-csci402/code/machine/mipssim.cc:655-677` | The shift-and-add loop, with its carries by hand, multiplies modulo 2^64 |
| `Multiply.AddInto` | `nachos-csci402/code/machine/mipssim.cc:660-668` | Adding with the carry found by comparison is addition modulo 2^64 |
| `Multiply.Negate` | `nachos-csci402/code/machine/mipssim.cc:680-686` | Complementing both halves and carrying is negation modulo 2^64 |
| `ThreadRuns.ThreadsConserved` | `nachos-csci402/code/threads/synch.cc:64-250` | Every run: every started, unfinished thread is in exactly one place (running, ready or one queue) and no other thread is in any; a lock is busy exactly when it has an owner, and a free one has no queue; a condition has a waiting lock exactly when its queue is not empty; and no semaphore with waiters has more value than woken threads on the way to it |
| `ThreadRuns.StepKeeps` | `nachos-csci402/code/threads/thread.cc:94-232` | Each step, from fork to finish, keeps all of that |
| `ThreadLedger.LockIsALine` | `nachos-csci402/code/threads/synch.cc:116-155` | Every run: a lock is the line that its calls make (who asks and is not at the front joins at the end, the front leaves by Release or an accepted Wait), its front is the owner, it is busy while the line is not empty; and a thread that asks runs on if and only if it is then the front |
| `ThreadLedger.ReleaseHandsOver` | `nachos-csci402/code/threads/synch.cc:139-155` | In every reached state the owner's Release, or the Wait it sleeps in, makes the thread that waited longest the owner, or frees the lock when nobody waited |
| `ThreadLedger.FreedIsTaken` | `nachos-csci402/code/threads/synch.cc:116-135` | In every reached state a thread that acquires a free lock runs on as its owner |
| `ThreadLedger.SemaphoreBalance` | `nachos-csci402/code/threads/synch.cc:64-98` | Every run: value = first value + Vs - threads that got past, counted off the run; and a thread that tests runs on if and only if the value is positive |
| `ThreadLedger.WaitsIff` | `nachos-csci402/code/threads/synch.cc:192-215` | In every reached state a Wait puts its thread to sleep, last in the queue, if and only if it names a lock and nobody waits with another; else nothing changes |
| `ThreadLedger.WakesOne` | `nachos-csci402/code/threads/synch.cc:88-98` | In every reached state a V readies exactly the longest waiter, if any; so does a Signal with the waiters' lock, and no other Signal readies any |
| `ThreadLedger.RunnableThreads` | `nachos-csci402/code/threads/thread.cc:94-160` | Every run: exactly the main thread and the forked ones that did not finish are somewhere, each in one place; a fork makes its thread the last of the ready ones, and a thread that finishes stops running |
| `ThreadRuns.AcquireMeansOwner` | `nachos-csci402/code/threads/synch.cc:116-135` | Whichever step of whichever run makes a thread come back from Acquire, at once or by any switch to it after it slept, or from Wait, the thread owns the lock |
| `ThreadRuns.OwnerReleases` | `nachos-csci402/code/threads/synch.cc:139-155` | A lock changes owner only by its owner's Release, or its Wait with that lock (and then it does: ThreadLedger.ReleaseHandsOver) |
| `ThreadRuns.BroadcastWakesAll` | `nachos-csci402/code/threads/synch.cc:236-250` | Broadcast with the matching lock and without a time slice between its signals ends, with the queue empty and all its threads ready in order |
| `ThreadRuns.BroadcastEndsIff` | `nachos-csci402/code/threads/synch.cc:236-250` | The loop ends if and only if nobody waits or the lock is the waiters': with another lock a signal changes nothing |
| `ThreadQueues.BroadcastDespiteSlices` | `nachos-csci402/code/threads/synch.cc:236-250` | Whatever other threads and handlers do between the signals: after as many rounds as there were waiters, every one of them has been woken, in order |
| `ThreadQueues.ServedInOrder` | `nachos-csci402/code/threads/synch.cc:64-250` | Every run, every semaphore, lock and condition: those put to sleep on it are, in order, those woken (for a lock: made owner) and those still waiting |
| `ThreadQueues.StepInOrder` | `nachos-csci402/code/threads/synch.cc:64-250` | No step skips, reorders or drops a waiting thread, also when a thread that is switched to goes back to sleep |
| `ThreadQueues.ReadyInOrder` | `nachos-csci402/code/threads/scheduler.cc:54-140` | The ready list: a switch takes the front, whoever becomes ready goes to the end, a yielding thread behind all others |
| `ThreadMachine.Machine.Down` | `nachos-csci402/code/threads/synch.cc:65-77` | P: the value consumed, or the thread queued and asleep |
| `ThreadMachine.Machine.Up` | `nachos-csci402/code/threads/synch.cc:88-98` | V: the value raised and the first waiter made ready |
| `ThreadMachine.Machine.AcquireLock` | `nachos-csci402/code/threads/synch.cc:116-135` | Owner, or queued and asleep |
| `ThreadMachine.Machine.ReleaseLock` | `nachos-csci402/code/threads/synch.cc:139-155` | Handed to the front of the queue, or freed; nothing for a thread that is not the owner (over runs: ThreadLedger.ReleaseHandsOver) |
| `ThreadMachine.Machine.WaitOn` | `nachos-csci402/code/threads/synch.cc:192-215` | Queued, the lock released, asleep until it must be reacquired; refused for another lock |
| `ThreadMachine.Machine.SignalOne` | `nachos-csci402/code/threads/synch.cc:217-234` | The first waiter made ready, the waiting lock forgotten with the last |
| `ThreadMachine.Machine.BroadcastAll` | `nachos-csci402/code/threads/synch.cc:236-250` | The loop of signals ends with everyone ready |
| `ThreadMachine.Machine.Switch` | `nachos-csci402/code/threads/scheduler.cc:71-140` | The front of the ready list goes on where it stopped |
| `ThreadMachine.Machine.YieldThread` | `nachos-csci402/code/threads/thread.cc:181-196` | To the back of the ready list, unless nobody else is ready |
| `ThreadMachine.Machine.ForkThread` | `nachos-csci402/code/threads/thread.cc:94-105` | The new thread is ready |
| `ThreadMachine.Machine.FinishThread` | `nachos-csci402/code/threads/thread.cc:150-160` | The thread is in no place any more |
| `LinkedList.InsertedSorted` | `nachos-csci402/code/threads/list.cc:179-202` | Sorted insertion keeps a list sorted |
| `LinkedList.InsertedAt` | `nachos-csci402/code/threads/list.cc:179-202` | The new item goes behind all items with keys no larger, and the rest keeps its order |
| `LinkedList.List.Append` | `nachos-csci402/code/threads/list.cc:77-88` | Pointers and all, the item is added at the end |
| `LinkedList.List.Prepend` | `nachos-csci402/code/threads/list.cc:103-114` | The item is added at the front |
| `LinkedList.List.SortedInsert` | `nachos-csci402/code/threads/list.cc:179-202` | The traversal loop finds the place, and the pointers are changed there only |
| `LinkedList.List.SortedRemove` | `nachos-csci402/code/threads/list.cc:218-237` | The first item and its key, or none |
| `LinkedList.List.Remove` | `nachos-csci402/code/threads/list.cc:125-128` | The first item, or none |
| `LinkedList.List.IsEmpty` | `nachos-csci402/code/threads/list.cc:155-161` | Whether nothing is in the list |
| `Interrupts.ClockNeverGoesBack` | `nachos-csci402/code/machine/interrupt.cc:150-356` | Every run: total = idle + system + user, the clock never goes back, handlers fire in order of time and never early |
| `Interrupts.TickLeavesNothingDue` | `nachos-csci402/code/machine/interrupt.cc:150-186` | OneTick ends with nothing left due, the clock and the count of the mode's time advanced by 10 in system mode and by 1 otherwise, no idle time, the mode as it was and the request to yield used up |
| `Interrupts.DueDecreases` | `nachos-csci402/code/machine/interrupt.cc:302-356` | Calling a handler lowers the number of events due by exactly one, since handlers only schedule for later |
| `Interrupts.CheckKeeps` | `nachos-csci402/code/machine/interrupt.cc:302-356` | CheckIfDue keeps the order of the queue, the sums of times and the order of firing, with or without advancing the clock |
| `Interrupts.IdleAdvances` | `nachos-csci402/code/machine/interrupt.cc:218-241` | Idle halts exactly when nothing, or only the timer, is pending; otherwise it jumps to the next event unless that is due, counts the jump as idle time, fires that event first, leaves nothing due but perhaps the timer, and goes on in system mode |
| `Interrupts.ScheduleKeeps` | `nachos-csci402/code/machine/interrupt.cc:272-284` | Schedule keeps the queue in order |
| `InterruptAsks.EverythingAskedHappens` | `nachos-csci402/code/machine/interrupt.cc:272-356` | Every run: the events whose handlers were called and those still pending are together, each as often, those pending at the start and those asked for since, by threads or by handlers, each due exactly its fromNow after the time it was asked for |
| `InterruptAsks.YieldsWhenAsked` | `nachos-csci402/code/machine/interrupt.cc:150-204` | A tick yields if and only if a handler called in it, or before it, asked for that |
| `InterruptMachine.Interrupt.Schedule` | `nachos-csci402/code/machine/interrupt.cc:272-284` | In place, the event is queued by its time, which is that of InterruptAsks.EverythingAskedHappens |
| `InterruptMachine.Interrupt.Check` | `nachos-csci402/code/machine/interrupt.cc:302-356` | One event removed and fired, or put back |
| `InterruptMachine.Interrupt.CallDue` | `nachos-csci402/code/machine/interrupt.cc:150-186` | The loop over due events ends |
| `InterruptMachine.Interrupt.Tick` | `nachos-csci402/code/machine/interrupt.cc:150-186` | Time, the loop, the levels around it, and whether it yields |
| `InterruptMachine.Interrupt.SetLevel` | `nachos-csci402/code/machine/interrupt.cc:114-126` | A tick passes exactly when interrupts go from off to on |
| `InterruptMachine.Interrupt.Wait` | `nachos-csci402/code/machine/interrupt.cc:218-241` | Idle, or the halt |
| `DiskLatency.SeekEndsAtBoundary` | `nachos-csci402/code/machine/disk.cc:180-194` | now + seek + rotation is a multiple of the rotation time of a sector |
| `DiskLatency.FinishesAsSectorPasses` | `nachos-csci402/code/machine/disk.cc:233-253` | A request that the buffer does not serve finishes exactly as the target sector has passed the head, modulo 32 |
| `DiskLatency.LatencyIsLeast` | `nachos-csci402/code/machine/disk.cc:180-253` | Seeking costs 500 ticks a track; a request that the buffer serves takes 500; any other ends at the first moment at which the sector can have passed the head whole after the seek |
| `DiskLatency.LatencyBounds` | `nachos-csci402/code/machine/disk.cc:233-253` | 500 <= latency <= 31999 for all sectors on the disk |
| `DiskLatency.BufferedMeansPassed` | `nachos-csci402/code/machine/disk.cc:233-253` | The track buffer serves a request if and only if it is a read on the same track of a sector that has passed the head since the buffer began to fill |
| `DiskLatency.WaitsLeast` | `nachos-csci402/code/machine/disk.cc:203-209` | The modular distance is the least wait that brings the head to the sector |
| `DiskLatency.Disk.Request` | `nachos-csci402/code/machine/disk.cc:116-153` | The latency reported, and the head and buffer after it |
| `DiskLatency.Disk.Done` | `nachos-csci402/code/machine/disk.cc:162-166` | The disk is idle, and head and buffer are as they were |

## Left out

- TwoServersRun.TwoServersAgree: runs with destroys or full tables are excluded: a name destroyed while a create of it is pending has no owner to answer for it.
- RoutingRun.ExecutedByOwnerInOrder: the owner must be up. When it is down every server says NO and the asking server runs the operation on the slot whose number is the global identifier (network/nettest.cc:2128); the step is modelled, its consequences are not studied.
- WakeRuns.ReleaseComesFirst: for runs in which no broadcast that is run names another lock than that of the waiters it finds, as WakeRuns.ConservedIffCareful shows is needed for conservation; after another broadcast the waiters acquire a lock they never released. Waits name a lock that is not negative, as the clients' system calls ensure.
- WaiterLedger.NoWaiterLost: counts apart the acquires that ran on the lock's slot under another identifier, which takes machine 0 to be down.
- LockService.OneHolder: mutual exclusion is at the owning server. A release is not acknowledged, so a client that goes through two servers can see its release and next acquire reordered.
- Reply texts, their buffers' lifetimes, and the textual message format: messages are datatypes.
- Sockets, the post office, packet loss and duplicates: channels are reliable and ordered, and `Send` succeeds exactly to machines that are up, which stay up.
- The client side of the service, beyond that its system calls refuse negative identifiers.
- PagingTheorems.PagingIsFlatMemory: executable bytes past the end of the file, and stack bytes never written (also after a clean stack page was evicted and relabelled as part of the executable, userprog/exception.cc:1651), are unspecified; programs are assumed to touch only pages they have, not stack pages already reclaimed.
- The use bits, `readOnly` (always FALSE here) and the `lastUsed` times: nothing modelled reads them.
- Page faults inside system calls, the argument-copying wrappers, `Exec`, `Join` and the console.
- FileSystemRuns.FreeMapIsExact: sizes are at most MaxFileSize (`Allocate` does not check); removing open files and concurrent access are not modelled.
- FileCodec.TableRoundTrip: the padding bytes of a directory entry on disk are taken to be 0.
- FileSystemMachine.FetchMap: the bitmap's copy of raw words to and from the disk is modelled bit by bit.
- The UNIX-file variant of the file system and its stubs.
- ThreadRuns.BroadcastWakesAll: one step of the kernel, without a time slice between its signals; ThreadQueues.BroadcastDespiteSlices is about the loop with slices.
- ThreadMachine.Machine.BroadcastAll: requires the waiters' lock, because with another one the loop does not end (ThreadRuns.BroadcastEndsIff); the step CallBroadcast then stands for no change.
- ThreadRuns.ThreadsConserved: each call up to its return or its sleep is one step. In the code interrupts are off for most of that; an idle machine is a state without a running thread.
- Stack switching, register save and restore, memory allocation, and the deletion of finished threads' stacks.
- InterruptMachine.Interrupt.Schedule: the pending list is a sequence field, as the ready and wait queues of ThreadMachine are; the linked list itself is proved separately (LinkedList.List.SortedInsert, with the same specification function).
- The bodies of interrupt handlers: a parameter that may depend on the handlers called before and ask for later events and a yield.
- DiskLatency.Disk.Request: times do not overflow, and the data transfer itself is not part of the timing model.
- The other MIPS instructions, the profiling statistics and the debugging output.
- The passport-office programs and the utilities under `bin/`.
- InterruptMachine.Interrupt.Tick: says that OneTick yields; the switch that follows is Threads.Yield, and the model does not join the two.
