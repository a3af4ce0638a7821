# A verified model of the native zygote

The zygote is a process server: it preloads what applications have in common and forks a child for
each request that arrives on a socket.  A fork copies every open descriptor, so the server keeps a
*registry* that says, for each one, what a child must do with it.  This project models that registry,
the server's event loop and its children, the abstract kernel beneath them, the derive macros that
turn message declarations into encoders and decoders, and the wait-status codec, and proves what they
keep and promise.

`dafny verify dfyconfig.toml` checks the whole project.

## How it is modelled

- `Kernel.dfy`, `Os.dfy`: a process is a map from numbers to open file descriptions; descriptions are
  shared by fork and dup3 and only ever added.  New numbers are the lowest free ones, an epoll instance
  is a description holding a map from watches to words.  Every system call may fail; a failure that the
  state does not explain is counted, so contracts can say what happens when there was none.  A close
  frees its number even when it reports an error, as on Linux.
- `FileDescriptors.dfy`, `ForkEffects.dfy`: registry entries, the specification of running all actions
  after a fork, and what it means for the child, its parent, and a registry put back into service.
- `Registry.dfy`: the registry as a class over its sorted table, method by method.
- `ServerSocket.dfy`, `Traffic.dfy`, `Reaper.dfy`: the server socket; clients' packets, replies and
  connections; children, coalescing SIGCHLDs and the reaping loop.
- `ServerState.dfy`, `ServerLife.dfy`: the server invariant (`Consistent`) over the kernel, the registry,
  the server's handles and the epoll interest list, and every step that establishes, keeps or ends it.
- `ServerSteps.dfy`: what one event, one batch and a whole run may do, over snapshots of the state.
- `Server.dfy`: the server as a class: start-up, the event loop, spawning, re-initialisation, `Drop`.
- `EpollData.dfy`, `WaitStatus.dfy`, `SpawnParams.dfy`: three small codecs and merges, with exact laws.
- `Parcel.dfy`, `Messages.dfy`: declarations as a datatype, the generated encoder and decoder as their
  semantics over abstract tables, and the protocol's own declarations as the instance.
- `Arrivals.dfy`: what a receiver sees of each field, as tables that mention no encoder or decoder.
- `Schema.dfy`, `Wire.dfy`, `Packets.dfy`, `Requests.dfy`: the schema verifier, the protocol's schema, what
  a server makes of the bytes one recvmsg hands over, and what reaches it of every message.
- `Counterexamples.dfy`, `AbortingParcels.dfy`: servers in good order on which the code falls short of its
  comments, and parcels that abort it.

The operating system, the species' callbacks and what clients send are parameters: nondeterministic
choices in `Os`, `Network` and `Children`, allow lists in `Policy`, the payloads a species understands
in `Identity`, the files a species opens while it re-initialises in `opens`.  A run is any number of
rounds over finitely many packets, connections and stray signals.

## What the code does that its comments do not say

- `execute_actions` never closes the descriptor on `/dev/null` it opens, so every successful call leaves
  one more open number (zygote/src/file_descriptors.rs:905-913).
- `execute` returns the entry's flag, so a later call answers true where the comment promises false
  (511-512, 605).
- A duplicated entry keeps the information it was registered with, so the audit that ends a reset rejects
  it unless it already described that `/dev/null` (533-538; `ForkEffects.AuditAfterReset`).  A species that
  allows any bound socket can therefore not fork a subspecies (`Counterexamples.FirstNeverResets`).
- `executed` is never reset: what was reopened for a subspecies is not reopened in its own children.
- `is_registered` matches closed entries too.  A number opened on a closed slot is never registered, and
  the audit fails; this stops a subspecies from forking another one, on the server
  `Counterexamples.AgainNeverResets` is about (927-940; the exact condition is that of
  `Registry.FileDescriptorRegistry.ResetForSubspecies`).
- The closed-slot path of `register` skips the check that a Reopen needs a file (962-966, 973).
- `register_new` may leave an unsorted tail behind when it fails (1067-1072).
- `override_and_close` does not skip closed entries.  It fails on any registry that has one, and a
  freshly re-initialised subspecies server always has one (610-624;
  `ServerLife.ReinitializedHasClosedSlot`).
- Reopening always seeks, so a file that cannot seek cannot be reopened; the comment says its offset is
  ignored (254-270, 542-602).
- F_SETFL changes only some flags, so a file registered with others cannot pass the audit after a reopen
  (`ForkEffects.ReopenedInfo`).
- A subspecies request whose socket argument is an integer always fails, because the reset has just
  registered every open number (zygote/src/server.rs:466-478).
- A spawn request without `common`, which the schema does not require, aborts the server in the decoder
  (zygote-proc-macros/src/unmarshal.rs:315; `AbortingParcels.MissingCommonAborts`).
- More groups, limits or arguments than fit abort it while they are collected, even equal groups that the
  merge would reduce to one, and even in a request for another species (zygote-messages/src/lib.rs:150-173;
  `AbortingParcels.CrowdedAborts`).
- Merging spawn parameters aborts the server when a client's groups or limits and the server's own do not
  fit together (zygote-messages/src/lib.rs:253-279).

## Model

| member | source | states |
|---|---|---|
| `FileDescriptors.InfoReads` | zygote/src/file_descriptors.rs:181-320 | what one reading says of each kind of object: a socket goes by its own name where it has one and by its peer's otherwise, a file by its path, with the status flags split into those open takes and the rest, and offset 0 if it cannot seek; only directories and nameless sockets cannot be read |
| `FileDescriptors.SearchFinds` | zygote/src/file_descriptors.rs:958-997 | the binary search shared by `register` and `remove` hits exactly when some entry has the number |
| `FileDescriptors.InsertedSpec` | zygote/src/file_descriptors.rs:958-985 | inserting at the searched place keeps the table strictly sorted and adds exactly one entry |
| `FileDescriptors.WithoutSpec` | zygote/src/file_descriptors.rs:988-997 | removing a slot keeps the table strictly sorted and loses exactly the entries of its number |
| `FileDescriptors.ReplacedSpec` | zygote/src/file_descriptors.rs:961-966 | putting an entry back through a slot of the same number keeps the table sorted and exchanges exactly that entry |
| `FileDescriptors.ActStep` | zygote/src/file_descriptors.rs:513-606 | one entry's action changes its own number and nothing an earlier action left, although temporary numbers may be ones freed just before |
| `FileDescriptors.ActionsEffect` | zygote/src/file_descriptors.rs:902-914 | after the whole loop every number is in the state its own entry's action prescribes, every number without an entry is as it was, and no older description is touched |
| `FileDescriptors.ActionsSucceed` | zygote/src/file_descriptors.rs:513-606 | with every unexecuted entry open, the loop can be stopped by nothing but an entry to reopen that is no file, whose path is gone, or whose file cannot seek; if and only if |
| `ForkEffects.ActionsOnAudited` | zygote/src/file_descriptors.rs:902-914 | from an audited table a successful `execute_actions` leaves exactly the surviving entries, the unregistered numbers as they were, and one new close-on-exec number on `/dev/null` |
| `ForkEffects.OpenAfterActions` | zygote/src/file_descriptors.rs:501-606 | after the call an entry reports itself closed exactly when its number is gone, and the open numbers are the live entries plus one |
| `ForkEffects.ChildSharesOnlyInherited` | zygote/src/file_descriptors.rs:359-372 | after fork and first actions a child shares an open description with its parent at a number if and only if that entry is ignored, already executed, or the signalfd kept for a subspecies; the parent's table is untouched |
| `ForkEffects.ActionAtMostOnce` | zygote/src/file_descriptors.rs:501-606 | over any history of fork kinds an action is performed at most once; `CloseUnlessSpawnSubspecies` is closed exactly by the first Application call |
| `ForkEffects.AuditAfterReset` | zygote/src/file_descriptors.rs:797-808 | the audit ending a reset succeeds if and only if every duplicated or reopened entry still describes its number and no unregistered number, the new `/dev/null` included, carries the number of a closed entry |
| `ForkEffects.LowestClosedIsStale` | zygote/src/file_descriptors.rs:927-940 | a closed slot below which every number is live is hit by the next number a child opens, its own or the reset's: the audit condition fails |
| `ForkEffects.DuplicatedIsStale` | zygote/src/file_descriptors.rs:533-538 | so it does for any entry duplicated from `/dev/null` that was no file before |
| `ForkEffects.ActionsRun` | zygote/src/file_descriptors.rs:902-914 | on an audited table the actions run through if and only if every file to reopen can be reopened |
| `ForkEffects.KeptInfo` | zygote/src/file_descriptors.rs:513-606 | an entry that stays open is described correctly afterwards exactly when its action reproduces what was recorded |
| `ForkEffects.ReopenedInfo` | zygote/src/file_descriptors.rs:254-270 | reopening restores path, both flag halves, offset and close-on-exec if and only if the path names the same file and the recorded flags are ones the calls can set |
| `ForkEffects.OverrideEffect` | zygote/src/file_descriptors.rs:945-955 | `override_and_close` runs through if and only if every number not ignored is open, and then removes exactly those numbers |
| `ForkEffects.ShutdownCloses` | zygote/src/file_descriptors.rs:610-624 | on an audited registry it succeeds if and only if no entry is closed, and leaves exactly the ignored numbers |
| `Os.Os.ReadInfo` | zygote/src/file_descriptors.rs:181-320 | one reading of a descriptor; fails without an unexplained fault only for objects that have no description |
| `Os.Os.ListFds` | zygote/src/file_descriptors.rs:837-882 | `/proc/self/fd` as an ascending sequence of all open numbers, possibly cut short by a read error |
| `Os.Os.EpollWait` | zygote-sys/src/lib.rs:377-386 | reports each watch at most once with the word it was added with; a listening socket or signalfd never hangs up |
| `Os.Os.EpollAdd` | zygote-sys/src/lib.rs:361-364 | adds a watch unless the number is already watched for the same description |
| `Os.Os.EpollDel` | zygote-sys/src/lib.rs:373-376 | removes exactly one watch |
| `Os.Os.Fork` | zygote/src/server.rs:908-930 | one process becomes two with the same table and shared descriptions |
| `Registry.FileDescriptorRegistry.New` | zygote/src/file_descriptors.rs:778-794 | a new registry ignores exactly the three standard streams; without unexplained failures there is one if and only if all three can be described |
| `Registry.FileDescriptorRegistry.Register` | zygote/src/file_descriptors.rs:958-985 | a live number is refused, a closed slot reused without the Reopen check, a new number inserted in order with its current information; aborts only when all 128 slots are taken |
| `Registry.FileDescriptorRegistry.Remove` | zygote/src/file_descriptors.rs:988-997 | takes exactly the entry of the number out, or reports that there is none |
| `Registry.FileDescriptorRegistry.IsRegistered` | zygote/src/file_descriptors.rs:927-940 | the cursor scan answers plain membership in the entries that were there before, closed ones included, for any ascending queries |
| `Registry.FileDescriptorRegistry.Audit` | zygote/src/file_descriptors.rs:837-882 | Ok if and only if the live entries are the open numbers with their current information; every error names a real divergence or a failed read |
| `Registry.FileDescriptorRegistry.Execute` | zygote/src/file_descriptors.rs:513-606 | performs one entry's action, marks it, and returns the entry's flag; aborts exactly on a Reopen of something that is no file |
| `Registry.FileDescriptorRegistry.ReopenFile` | zygote/src/file_descriptors.rs:542-602 | open, set both flag words and the offset on a temporary number, move it over the registered one, close the temporary |
| `Registry.FileDescriptorRegistry.ExecuteActions` | zygote/src/file_descriptors.rs:902-914 | equals the specified run over all entries; without unexplained faults it fails exactly when that run gets stuck |
| `Registry.FileDescriptorRegistry.OverrideAndClose` | zygote/src/file_descriptors.rs:945-955 | equals the specified closing run, closed entries included |
| `Registry.FileDescriptorRegistry.RegisterNew` | zygote/src/file_descriptors.rs:1002-1075 | on Ok the table is strictly sorted, keeps every entry, and has exactly one entry with current information for each open number that had none: an allowed file with the action the species asks for, or Reopen where it asks for none, an allowed peer socket with the species' action or DupeNull, an allowed bound socket with DupeNull, and nothing else; an error names an unregistered number that is not allowed or cannot be read, or a failed listing |
| `Registry.FileDescriptorRegistry.AppendNew` | zygote/src/file_descriptors.rs:1009-1065 | its loop over the listing: exactly one allowed entry, in order, for each number listed that had none; an error is about one of these |
| `Registry.FileDescriptorRegistry.AllowedEntry` | zygote/src/file_descriptors.rs:1016-1064 | the entry of one such number, or why it gets none |
| `Registry.FileDescriptorRegistry.ResetForSubspecies` | zygote/src/file_descriptors.rs:797-808 | on Ok the table is exact again; without unexplained faults or overflow it succeeds if and only if the registry is resettable |
| `Registry.LiveEntriesSpec` | zygote/src/file_descriptors.rs:837-845 | the entries the audit compares are the live ones, in order |
| `Registry.SortedByFdSpec` | zygote/src/file_descriptors.rs:1067-1072 | the final sort permutes the entries into strict order |
| `Registry.AppendedThenSorted` | zygote/src/file_descriptors.rs:1002-1075 | the tail collected by the loop, merged and sorted, registers every open number once |
| `Registry.AddedSharing` | zygote/src/file_descriptors.rs:1023-1064 | of what `register_new` added and is not closed, a child shares a description with its parent if and only if the species asked for Ignore, the action has been performed before, or, for a subspecies, the species asked for CloseUnlessSpawnSubspecies |
| `ServerSocket.ArgumentIs` | zygote/src/server.rs:525-552 | a text is an open descriptor's number if and only if it is that number printed, with a fitting sign or none and any leading zeros, in the range of a descriptor; an abstract name exactly when it is @ and that name; and otherwise the path it spells |
| `ServerSocket.GetServerSocket` | zygote/src/server.rs:524-575 | a named socket is new on the lowest free number and listens without blocking, and a path it was bound to exists from then on; a given one keeps number, addresses and description; without unexplained failures there is a socket if and only if the argument is not refused, and each refusal is the one error the code gives for it; a named socket goes by the abstract name or the path asked for |
| `EpollData.RoundTrip` | zygote/src/server.rs:84-107 | every descriptor and class decodes from the word it was encoded in |
| `EpollData.AcceptedWords` | zygote/src/server.rs:92-107 | which of all 64-bit words are accepted, and that re-encoding loses only the bits the tag's narrowing drops |
| `EpollData.FillerRejected` | zygote/src/server.rs:1203-1203 | the filler of the event buffer is never mistaken for an event |
| `ServerState.FreshNumberIsSmall` | zygote/src/file_descriptors.rs:46-47 | an audited process has at most as many open numbers as entries, so a new number fits the epoll word |
| `ServerState.AcceptKeeps` | zygote/src/server.rs:683-711 | accepting, registering and watching a connection keeps all views together |
| `ServerState.RemoveKeeps` | zygote/src/server.rs:1179-1191 | unregistering, unwatching, forgetting and closing a client keeps all views together, and its registry and epoll lookups cannot fail |
| `ServerState.ForkKeeps` | zygote/src/server.rs:908-930 | a fork keeps the parent's views and gives the child the same ones |
| `ServerState.BatchDecodes` | zygote/src/server.rs:577-600 | every event of a batch decodes to the number and class it was added with, its watch is in place, and only a client hangs up |
| `ServerLife.LaunchCompletes` | zygote/src/server.rs:410-412 | registering the rest and auditing establishes the whole invariant with nothing executed |
| `ServerLife.RecordedAgrees` | zygote/src/server.rs:410-412 | a table that records every number start-up has taken, completed by `register_new`, passes the audit |
| `ServerLife.RegisteredWereAllowed` | zygote/src/server.rs:410-412 | whatever else it was completed with was open and allowed when start-up began |
| `ServerLife.ServerSocketReady` | zygote/src/server.rs:374-384 | the server socket is ready beside the epoll instance, and nothing registered reads otherwise because of it |
| `ServerLife.FirstGenerationResets` | zygote/src/server.rs:466-468 | a registry that has executed nothing, duplicates nothing and reopens only restorable files is resettable |
| `ServerLife.SignalSurvivesReset` | zygote/src/server.rs:466-468 | the reset leaves the signalfd open on the same description and registered as before |
| `ServerLife.ReinitListens` | zygote/src/server.rs:469-478 | the child's new server socket, on a number perhaps closed just before, joins the audited table |
| `ServerLife.ReinitPolls` | zygote/src/server.rs:480-496 | so does its new epoll instance |
| `ServerLife.ReinitWatches` | zygote/src/server.rs:497-510 | watching the new server socket and the old signalfd restores the whole invariant with no clients |
| `ServerLife.ReinitializedHasClosedSlot` | zygote/src/server.rs:466-514 | a server just re-initialised always keeps a closed slot: three numbers were closed and only two taken again |
| `ServerLife.ChildLeavesParent` | zygote/src/server.rs:466-514 | no child that touches only what it created changes its parent's table, descriptions or interest list: the parent is as consistent as before |
| `ServerLife.ExtrasAreUnknown` | zygote/src/server.rs:1088-1094 | what the species opens in the child is all the registry does not know there |
| `ServerLife.ApplicationChildEnds` | zygote/src/server.rs:1242-1255 | after `Drop` an application child of a primary or a subspecies holds exactly the ignored, duplicated and reopened numbers and one on `/dev/null`; epoll, server, signal and client numbers are gone |
| `ServerLife.ApplicationActionsRun` | zygote/src/server.rs:1247-1251 | its actions are fatal to it only where a file cannot be reopened; if and only if |
| `ServerLife.ShutdownCompletes` | zygote/src/server.rs:1229-1241 | shutdown closes all of a server's numbers if and only if its registry has no closed slot; one that executed nothing has none |
| `Counterexamples.AgainConsistent` | zygote/src/server.rs:466-514 | a subspecies server whose whole invariant holds: it was forked from a server with two clients, and one client has connected since |
| `Counterexamples.AgainNeverResets` | zygote/src/file_descriptors.rs:927-940 | no child of it can ever be reset, whatever the species opens or allows |
| `Counterexamples.AgainFailsTheAudit` | zygote/src/file_descriptors.rs:797-808 | in a child just forked the actions do succeed, and the audit rejects whatever `register_new` leaves |
| `Counterexamples.AgainCannotShutDown` | zygote/src/file_descriptors.rs:945-955 | nor can it close its own descriptors when it shuts down |
| `Counterexamples.FirstConsistent` | zygote/src/server.rs:360-460 | a primary server just started whose whole invariant holds, with a bound socket its species allows |
| `Counterexamples.FirstNeverResets` | zygote/src/file_descriptors.rs:533-538 | no child of it can ever be reset, because `register_new` has such a socket duplicated from `/dev/null` |
| `Counterexamples.FirstFailsTheAudit` | zygote/src/file_descriptors.rs:797-808 | in a child just forked it is the audit that rejects it |
| `Traffic.AnswersByPosition` | zygote/src/server.rs:784-860 | the reply relation means: as many replies as packets that want one, the i-th answering the i-th |
| `Traffic.AnswersConcat` | zygote/src/server.rs:643-677 | answers to two stretches of a queue are answers to both together |
| `Traffic.ExchangeConserves` | zygote/src/server.rs:643-677 | no packet is lost, repeated or reordered between queue and server |
| `Traffic.ExchangeAnswers` | zygote/src/server.rs:643-677 | a drain that answered its packets keeps a stream fully answered |
| `Traffic.InboxIsDecoded` | zygote/src/server.rs:654-654 | every packet the server reads is what the datagram in its place decodes to |
| `Traffic.Network.Recv` | zygote-sys/src/lib.rs:1597-1618 | takes exactly the head of one stream's queue, or nothing; a call that would block is on record with how far the stream had been read |
| `Traffic.Network.Send` | zygote-sys/src/lib.rs:1620-1650 | appends exactly one reply to one stream, or nothing |
| `Traffic.Network.Accept` | zygote-sys/src/lib.rs:962-966 | a connection under the listener's address on the lowest free number; a call that would block is on record |
| `Reaper.AccountedBirth` | zygote/src/server.rs:944-946 | a fork adds one wait that is due |
| `Reaper.AccountedWait` | zygote/src/server.rs:727-742 | a wait settles exactly one |
| `Reaper.NoChildLost` | zygote/src/server.rs:718-782 | once no zombie is left, each child ever forked has been reported exactly once, or is running and has not been |
| `Reaper.ReportTellsTheTruth` | zygote/src/server.rs:729-742 | a species is told which child it was and whose, and a status word that decodes to what the kernel said, with the core-dump bit set exactly when core was dumped |
| `Reaper.Children.WaitAny` | zygote/src/server.rs:727-758 | a non-blocking wait for any terminated child |
| `Reaper.ReapAll` | zygote/src/server.rs:725-760 | the inner loop: zombies may be unannounced while it runs, and it ends with none; it fails if and only if a wait does |
| `Reaper.HandleSignalfdEvents` | zygote/src/server.rs:718-782 | "a zombie implies a pending SIGCHLD" is kept around every turn, so stopping because nothing is pending leaves nothing to reap: only SIGCHLDs were read, and each child ever forked has been reported exactly once or is still running; it tells the server to shut down only when the last signal read is SIGINT or SIGTERM; it fails if and only if a read or a wait does |
| `ZygoteServer.Server.Launch` | zygote/src/server.rs:360-460 | on Ok a server in its full invariant, with no clients and nothing executed; without unexplained failures, and unless the table overflows, it starts if and only if the standard streams can be described, the server socket can be had and is none of them, and everything else open is allowed; the server has the given name, species, parameters and species files, listens where the argument says, and every number it did not open itself is registered with the action `RegisterNew` gives it |
| `ZygoteServer.Server.Prepare` | zygote/src/server.rs:363-412 | its registry and handles |
| `ZygoteServer.Server.OpenHandles` | zygote/src/server.rs:371-407 | epoll instance, server socket and signalfd, registered beside the standard streams and watched |
| `ZygoteServer.Server.OpenListener` | zygote/src/server.rs:371-384 | the first two of them; fails without an unexplained fault only for an argument no socket can be had for |
| `ZygoteServer.Server.OpenPoll` | zygote/src/server.rs:371-372 | the epoll instance of start-up |
| `ZygoteServer.Server.AddListener` | zygote/src/server.rs:374-384 | its server socket, named or given by number; a standard stream's number is refused |
| `ZygoteServer.Server.WatchListener` | zygote/src/server.rs:377-384 | which becomes the instance's only watch |
| `ZygoteServer.Server.Enter` | zygote/src/server.rs:371-404 | one registration of start-up: taken if and only if the number is not registered yet |
| `ZygoteServer.Server.OpenSignals` | zygote/src/server.rs:386-407 | its signalfd, which cannot fail without an unexplained fault |
| `ZygoteServer.Server.RegisterTheRest` | zygote/src/server.rs:410-412 | its other descriptors, and the audit: without unexplained failures it succeeds if and only if everything else open is allowed |
| `ZygoteServer.Server.HandleServerEvents` | zygote/src/server.rs:679-715 | accepts until accept would block, or until a client too many was refused without harm, keeping the invariant; nothing but clients takes a slot, and nothing of other processes but its own epoll instance is touched; aborts only if start-up took more than 112 slots |
| `ZygoteServer.Server.AdmitClient` | zygote/src/server.rs:684-696 | one connection: non-blocking, then refused when 16 clients are connected |
| `ZygoteServer.Server.WatchClient` | zygote/src/server.rs:697-711 | otherwise registered and watched |
| `ZygoteServer.Server.RegisterClient` | zygote/src/server.rs:697-700 | where nothing has been executed the table grows by exactly the client |
| `ZygoteServer.Server.RemoveClientSocket` | zygote/src/server.rs:1179-1191 | forgets exactly one client in all four views; fails only with a system call or for a number that is no client |
| `ZygoteServer.Server.HandleSpawn` | zygote/src/server.rs:883-995 | parent: exactly the new process is one more child, alive, recorded once, and answered with its identifier, and nothing else it sees changes; child: an exact copy with no children; aborts exactly when the merged parameters overflow |
| `ZygoteServer.Server.AnswerSpawn` | zygote/src/server.rs:944-957 | the parent's half |
| `ZygoteServer.Server.HandleMessageSpawn` | zygote/src/server.rs:1021-1070 | an application child leaves with the merged parameters and the payload: in each field the request's value where it has one and the server's where it has none |
| `ZygoteServer.Server.HandleMessageSpawnSubspecies` | zygote/src/server.rs:1074-1098 | a subspecies child goes on as a valid server of its own; without unexplained failures, and with a slot left, if and only if its registry can be reset and the name it was given is free; it then listens under the name the client asked for |
| `ZygoteServer.Server.ContinueAsSubspecies` | zygote/src/server.rs:1084-1097 | what the child of such a fork does |
| `ZygoteServer.Server.BecomeSubspecies` | zygote/src/server.rs:1084-1097 | the child's half: a valid server on a new epoll instance, never for an integer socket argument, with a closed slot left; without unexplained failures, and with a slot left, it succeeds if and only if the registry, with whatever the species opened, can be reset and the name is free |
| `ZygoteServer.Server.ReInitializeAsSubspecies` | zygote/src/server.rs:466-514 | restores the whole invariant with no clients and touches nothing older than itself; without unexplained faults, and unless all 128 slots are taken, it succeeds if and only if the registry is resettable and the socket name free; the new server socket goes by that name |
| `ZygoteServer.Server.ResetRegistry` | zygote/src/server.rs:466-468 | its first step |
| `ZygoteServer.Server.ListenAgain` | zygote/src/server.rs:469-478 | its server socket; an integer argument always names a registered number and fails |
| `ZygoteServer.Server.PollAgain` | zygote/src/server.rs:480-510 | its epoll instance, watching exactly the server socket and the signalfd |
| `ZygoteServer.Server.ServeAgain` | zygote/src/server.rs:469-513 | its fields replaced, its process identifier taken |
| `ZygoteServer.Server.HandleMessageExit` | zygote/src/server.rs:851-860 | acknowledged, then shut down whether or not the acknowledgement got out |
| `ZygoteServer.Server.HandleMessageIdentityQuery` | zygote/src/server.rs:863-880 | answered with the server's name, species and architecture |
| `ZygoteServer.Server.HandleMessageStat` | zygote/src/server.rs:1100-1135 | answered unless the statistics cannot be read |
| `ZygoteServer.Server.HandleSpawnRequest` | zygote/src/server.rs:807-829 | a spawn request with another species' payload is passed over, any other handled |
| `ZygoteServer.Server.DispatchMessageHandler` | zygote/src/server.rs:784-849 | one reply per Exit, IdentityQuery, Spawn, SpawnSubspecies or Stat, none for another species' payload or other messages |
| `ZygoteServer.Server.HandleOnePacket` | zygote/src/server.rs:647-669 | one packet read and handled; one whose decoding aborts takes the server with it |
| `ZygoteServer.Server.DrainRound` | zygote-sys/src/lib.rs:773-793 | one turn of `try_until_would_block` over a client |
| `ZygoteServer.Server.HandleClientEvents` | zygote/src/server.rs:643-677 | the packets handled are a prefix of the queue in order; the replies are exactly the answers to them; it goes on only after recvmsg would block, once and last, or after an empty read or an unparsable packet, and otherwise stops at Exit, a spawn in the child, a failure, or a packet that aborts the server |
| `ZygoteServer.Server.DrainClient` | zygote/src/server.rs:643-677 | what a drain keeps of the run: conservation, every other client fully answered, and the stream read up |
| `ZygoteServer.Server.HandleClientEvent` | zygote/src/server.rs:592-636 | a client event: its stream alone is read and written; drained until recvmsg would block or a packet ends the drain, or else removed; removed whenever it hung up; the removal never fails a lookup; the same server goes on, or the last packet read says why not |
| `ZygoteServer.Server.HandleServerEvent` | zygote/src/server.rs:597-632 | a server event |
| `ZygoteServer.Server.HandleSignalEvent` | zygote/src/server.rs:598-636 | a signalfd event: it goes on with every signal read, nothing left to reap and every child reported once or running; it shuts down only on SIGINT or SIGTERM; it returns an error exactly when a read or a wait failed |
| `ZygoteServer.Server.HandleClientReady` | zygote/src/server.rs:583-636 | the event of a client's watch, readable, hung up or both; a hung-up client is gone afterwards |
| `ZygoteServer.Server.HandleServerReady` | zygote/src/server.rs:583-632 | the event of the server socket's watch, which cannot hang up |
| `ZygoteServer.Server.HandleSignalReady` | zygote/src/server.rs:583-636 | the event of the signalfd's watch, which cannot either |
| `ZygoteServer.Server.HandleEvent` | zygote/src/server.rs:581-637 | after one event either the batch goes on, the same server in its full invariant with every other watch in place and the event given all it is owed, or it ends for the reason `EndedBy` gives: shutdown by SIGINT, SIGTERM or that client's Exit, a child by that client's spawn request, an abort by a packet that aborts or by too many slots; an undecodable word and a hang-up of the server's own descriptors cannot happen |
| `ZygoteServer.Server.CheckEpollEvents` | zygote/src/server.rs:577-641 | a batch in order, up to and including the event that ends it, each event by its own law over the recorded states: no event is skipped, and nothing but the streams, the backlog and the signals of the watches handled was touched; what ended it is the last packet of that event's client or a signal, and no client before had asked for an exit; the lookups in `remove_client_socket` never fail; unless it shuts down, no client at all has asked for an exit |
| `ServerSteps.LaterWatchesUntouched` | zygote/src/server.rs:577-641 | every watch after the event that ended a batch has been left alone: a client's stream, the backlog, the signals |
| `ZygoteServer.Server.Serve` | zygote/src/server.rs:1200-1221 | in every state from which the loop goes round the server is valid, and every connected client has been sent exactly the answers to all that was read from it; in the process it began in, the table takes no more slots over its clients than at the start, and exactly as many if nothing had been executed; it aborts there only if those slots and 16 clients exceed 128 or a packet was read whose decoding aborts or whose parameters overflow; any other process that serves on or leaves was forked from it and has touched nothing it had at that moment; why it ends: stopped by a client whose last packet was Exit, or by a SIGINT or SIGTERM read during it, and no Exit was read from anyone unless it was stopped; left by a child whose payload and parameters are those of the last packet of a client, a spawn request for this species, filled in with the server's own; lost to a request for a subspecies; an error only after a call failed or the kernel reported an error; an abort in whatever process only by a packet or with all 128 slots taken |
| `ZygoteServer.Server.ServeRound` | zygote/src/server.rs:1205-1220 | one turn of the loop: it waits, ends with an error that leaves everything as it was if that fails, and otherwise handles what it was told of in order, all of it or up to the event that ends the turn |
| `ServerSteps.BatchEndsRun` | zygote/src/server.rs:1211-1219 | what ended a batch is what ends the run: the last packet of that event's client is still the last of some client over the whole run, and a signal that stops the server was read during it |
| `ServerSteps.RunLeavesServer` | zygote/src/server.rs:883-995 | seen from whoever has left a run, the server it left has the same descriptors and descriptions and is as consistent as before |
| `ServerSteps.RunIsTakenOver` | zygote/src/server.rs:1074-1098 | so through any number of generations of subspecies servers |
| `ServerSteps.StayedTwice` | zygote/src/server.rs:883-995 | over any stretch of a run the children recorded are exactly the processes that were forked, each once and alive |
| `ZygoteServer.Server.Drop` | zygote/src/server.rs:1224-1255 | the server branch closes everything exactly when no slot is closed; the other branch succeeds exactly when every file to reopen can be reopened and leaves exactly what `ApplicationChildEnds` says; neither touches what is older than it or reaches the `unreachable!` arm |
| `ZygoteServer.Server.ServeAndDrop` | zygote/src/server.rs:1200-1255 | both together: a child that left holds none of the server's descriptors and has touched nothing of the server it left, a stopped server took the server branch, one still in the process it began in has as many slots over its clients as at the start and can always close everything; the run ended for one of the reasons `Serve` gives |
| `ServerSteps.DrainEnds` | zygote/src/server.rs:643-677 | the last packet's law is the whole drain's |
| `ServerSteps.DrainKeepsAnswers` | zygote/src/server.rs:643-677 | a drain leaves every other client answered, and its own unless it ended in an error |
| `WaitStatus.StatusAgrees` | zygote-sys/src/lib.rs:1821-1861 | decoding the encoded status equals decoding the siginfo if and only if the value is one the kernel can report: exit codes 0 to 255, signals 1 to 126, stop values the shift does not overflow |
| `WaitStatus.StatusWords` | zygote-sys/src/lib.rs:1896-1934 | the word itself for every value the kernel can report: an exit code in the second byte, a signal in the low seven bits with the eighth for a core dump, a stop above the marker 0x7f |
| `SpawnParams.UniqueSpec` | zygote-messages/src/lib.rs:253-279 | the merged groups are the members of the concatenation, each once, ordered by first occurrence |
| `SpawnParams.OrAssociative` | zygote-messages/src/lib.rs:253-279 | merging is associative, and aborts one way round exactly when it does the other |
| `SpawnParams.OrPrefersLeft` | zygote-messages/src/lib.rs:253-279 | each of the twelve optional fields is the left value's where it has one and the right value's otherwise, limits are the left ones followed by the right ones, groups those of both once each; it aborts if and only if there are more than 32 different groups or more than 16 limits |
| `SpawnParams.EmptyIsIdentity` | zygote-messages/src/lib.rs:253-279 | an empty value is an identity, on either side, exactly on values without repeated groups |
| `SpawnParams.UniqueLeft` | zygote-messages/src/lib.rs:262-272 | removing repetitions first from the left part changes nothing |
| `SpawnParams.UniqueRight` | zygote-messages/src/lib.rs:262-272 | nor first from the right part |
| `SpawnParams.UniqueFixed` | zygote-messages/src/lib.rs:262-272 | nothing is removed exactly when nothing repeats |
| `Parcel.ParcelRoundTrip` | zygote-proc-macros/src/unmarshal.rs:214-327 | for every declaration with distinct names and inverting attribute pairs, decoding the encoded value is Ok of its normal form, and the normal form is a fixed point |
| `Parcel.FieldRoundTrip` | zygote-proc-macros/src/unmarshal.rs:302-327 | one field, through nested tables, flattening and unions |
| `Parcel.UnionRoundTrip` | zygote-proc-macros/src/unmarshal.rs:167-250 | a union written by one variant is read back as that variant |
| `Parcel.FieldsRoundTrip` | zygote-proc-macros/src/unmarshal.rs:214-250 | a whole list of fields, none overwriting another |
| `Parcel.EncodeFieldFrame` | zygote-proc-macros/src/marshal.rs:259-291 | a field writes only its own names |
| `Parcel.EncodeFieldsFrame` | zygote-proc-macros/src/marshal.rs:107-147 | a list of fields writes only theirs |
| `Parcel.NamesWritten` | zygote-proc-macros/src/marshal.rs:149-190 | every name a decoder reads has been written |
| `Parcel.NormFieldStable` | zygote-proc-macros/src/unmarshal.rs:302-327 | normalising a field twice is normalising it once |
| `Parcel.NormFieldsStable` | zygote-proc-macros/src/unmarshal.rs:214-250 | so for a list of fields |
| `Schema.WrittenFieldVerifies` | zygote-proc-macros/src/unmarshal.rs:130-142 | what a declaration writes for a schema field passes the verifier, through nested tables and unions |
| `Schema.VerifiedRoundTrip` | zygote-proc-macros/src/unmarshal.rs:110-165 | so an encoded message is verified and then decoded to its normal form |
| `Wire.AllMessagesWrite` | zygote-messages/schemas/messages.fbs:1-136 | the protocol's declarations write its schema |
| `Packets.AbortsExactly` | zygote-proc-macros/src/unmarshal.rs:302-327 | decoding a parcel aborts the server if and only if the verifier accepts it and it is a spawn request without common parameters, or with more than 32 groups, 16 limits or 32 arguments |
| `Packets.DecodedParamsFit` | zygote-messages/src/lib.rs:156-173 | parameters that were decoded fit their vectors |
| `Requests.GarbageExactly` | zygote/src/server.rs:654-669 | a buffer is taken for garbage if and only if the verifier refuses it, the schema does not know its message, or it is a spawn request that does not abort and whose payload the schema does not know; it is never taken for the end of the stream |
| `Requests.IncompleteIsGarbage` | zygote-messages/schemas/messages.fbs:83-98 | a spawn request without payload or socket path, or whose parameters lack the limits, is garbage and does not abort the server |
| `Requests.MessageReaches` | zygote/src/server.rs:802-845 | every message of the protocol reaches the server as the request of its name: Exit as Exit, IdentityQuery, Stat, Spawn and SpawnSubspecies likewise and only they, and every reply as no request |
| `Requests.TypedCarries` | zygote-messages/src/lib.rs:192-250 | every well-typed spawn request carries parameters a client can hold and a payload, and for a subspecies a socket path |
| `Requests.SpawnReaches` | zygote/src/server.rs:654-669 | a spawn request a client encodes reaches the server as that request, with the parameters' normal form and the payload's kind |
| `Requests.SubspeciesReaches` | zygote/src/server.rs:819-826 | so does a request for a subspecies, with the socket argument its path spells |
| `AbortingParcels.MissingCommonAborts` | zygote-proc-macros/src/unmarshal.rs:314-316 | a verified spawn request without common parameters that aborts the server |
| `AbortingParcels.CrowdedAborts` | zygote-messages/src/lib.rs:169-173 | so does every one with more than 32 groups, however they would merge |
| `AbortingParcels.EqualGroupsMerge` | zygote-messages/src/lib.rs:262-272 | any number of equal groups merge into one |
| `Messages.DefaultedOk` | zygote-messages/src/lib.rs:192-250 | a default on one side and a valid range on the other invert each other if and only if the default is out of range, or is a proper value and nothing is out of range |
| `Messages.CapNormal` | zygote-messages/src/lib.rs:124-148 | a capability set arrives as its known capabilities, and as absent when it was absent or all ones |
| `Messages.StringNorm` | zygote-messages/src/lib.rs:131-190 | an absent string becomes the empty one, and no other changes |
| `Messages.VectorNorm` | zygote-messages/src/lib.rs:156-173 | vectors come back as they were |
| `Messages.CommonOk` | zygote-messages/src/lib.rs:192-250 | the spawn parameters' declaration meets every condition |
| `Messages.ParamsRoundTrip` | zygote-messages/src/lib.rs:192-250 | spawn parameters come back with None turned into Some(0), Some(false) and Some("") where the wire has no absence, and out-of-range identifiers and priorities dropped |
| `Messages.SpawnPayloadOk` | zygote-messages/src/lib.rs:480-560 | the payload union meets every condition |
| `Messages.MessageOk` | zygote-messages/src/lib.rs:284-360 | the message union meets every condition |
| `Arrivals.FieldArrives` | zygote-proc-macros/src/unmarshal.rs:302-327 | a declaration read by a table does to every value of its type what the table says, through nested structs and unions |
| `Arrivals.AllMessagesRead` | zygote-messages/src/lib.rs:284-360 | the protocol's declarations are read by its table: every number, flag, required text and vector as sent, an absent `preload_func` as empty, an empty `preloading_cmd` as absent, the common parameters by their own rows |
| `Arrivals.MessageRoundTrip` | zygote-messages/src/lib.rs:284-360 | every message of the protocol arrives as the table says, field by field, and a second trip changes nothing more |
| `Arrivals.CommonIsNormal` | zygote-messages/src/lib.rs:192-250 | the table's rows for the common parameters are their normal form `NormalParams` |
| `Arrivals.SpawnArrives` | zygote-messages/src/lib.rs:284-360 | the common parameters of either spawn request arrive in that normal form, whatever payload comes with them |
| `Arrivals.OthersArriveAsSent` | zygote-messages/src/lib.rs:284-360 | a message whose rows are all as-sent, such as a process identifier or statistics, is received unchanged |

## Left out

- ZygoteServer.Server.Serve: says nothing about a child whose subspecies re-initialisation failed; the code does not promise that such a child leaves the loop.
- ZygoteServer.Server.ReInitializeAsSubspecies: assumes that `sync_fd_state` does nothing; reopening Android's log descriptors depends on liblog.
- ZygoteServer.Server.BecomeSubspecies: reduces `child_process::re_initialize` and `speciate` to the files they open.
- ZygoteServer.Server.Drop: leaves out removing the socket file, the signal mask and the species callback, and is stated for states in which `serve` returned normally.
- ZygoteServer.Server.HandleMessageStat: the statistics themselves come from procfs and are not modelled.
- ZygoteServer.Server.Launch: preloading libraries, the process group and the process name are foreign calls after the audit; a process with nearly as many open numbers as `fs.nr_open` allows is not covered.
- ServerSocket.GetServerSocket: two sockets under one abstract name are not told apart; binding the second is an unexplained failure.
- Os.Os.EpollWait: does not say when an event must be reported, so nothing is proved about progress.
- Os.Os.Fork: process identifiers are not reused within a run.
- Registry.FileDescriptorRegistry.RegisterNew: the dynamic and the static allow lists of registry and species are one policy per species that does not change during a run.
- Parcel.ParcelRoundTrip: tables are abstract maps with one tag field per union and every scalar present; the byte layout of FlatBuffers, the verifier's limits on depth and size, and the generated accessors are not part of this model.
- Messages.CapNormal: the `cap` crate is not part of this model; the known capabilities are those numbered 0 to 40.
- Exec-spawn mode, in which there is no server socket, epoll instance or signalfd.
- `gestate`, statslog, SELinux, seccomp and cgroup calls: straight-line calls into code not shown.
- Retrying interrupted system calls, the thread checks and the debug-only audits before a spawn.
- Offsets of shared descriptions moved by logging between a fork and an audit.
- Command-line parsing, logging, tracing, allow-list dates, procfs parsing, socket address buffers, process-name copying and level parsers: they would only add easy members.
