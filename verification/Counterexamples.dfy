/** Servers and parcels on which the zygote falls short of what its comments or its names
    suggest.  Each has its exact condition elsewhere: `ServerLife.ShutdownCompletes`,
    `ForkEffects.AuditAfterReset`, `Registry.Resettable`, `Packets.AbortsExactly`. */
module Counterexamples {
  import opened Results
  import opened Kernel
  import opened FileDescriptors
  import opened ForkEffects
  import opened Os
  import opened Registry
  import opened EpollData
  import opened ServerSocket
  import opened ServerState
  import opened ServerLife

  const NULL_NODE: Node := Node(1, 3, true)
  const FILES: map<string, Node> := map[DEV_NULL := NULL_NODE]
  const NAME: Address := PathAddress("/run/zygote")

  /** /dev/null as the fork before left it, and as it was registered. */
  const OPEN_NULL: Description := OpenFile(NULL_NODE, DEV_NULL, {Rdwr} + FORCED_FLAGS, 0)
  const NULL_ENTRY: Info := File(1, 3, DEV_NULL, true, {Rdwr}, FORCED_FLAGS, 0)

  function Stdio(fd: Fd): Entry {
    NewEntry(fd, Fifo, Ignore)
  }

  lemma OpenNullInfo()
    ensures InfoOf(OPEN_NULL, true) == Some(NULL_ENTRY)
  {
    assert ({Rdwr} + FORCED_FLAGS) * OPEN_MASK == {Rdwr};
    assert ({Rdwr} + FORCED_FLAGS) - OPEN_MASK == FORCED_FLAGS;
  }

  lemma LiveAt(data: seq<Entry>, i: nat)
    requires i < |data| && !IsClosed(data[i])
    ensures HasLive(data, data[i].fd)
  {
    assert data[i] in data;
  }

  // ---- A subspecies server that cannot fork another ----

  /** A server with clients on 6 and 7 forked a subspecies: the child opened /dev/null on 8,
      closed 3, 4, 6 and 7, and listened and polled on 3 and 4 again.  Then one client
      connected, on 6; slot 7 is still closed. */
  const AGAIN: Handles := Handles(4, 3, 5, [6])

  const AGAIN_INTEREST: map<Watch, int> :=
    map[Watch(3, 1) := Encode(EpollData(3, EpollTag.Server)),
        Watch(5, 3) := Encode(EpollData(5, EpollTag.Signal)),
        Watch(6, 4) := Encode(EpollData(6, EpollTag.Client))]

  const AGAIN_KERNEL: Kernel :=
    Kernel(8,
           map[0 := Slot(0, false), 1 := Slot(0, false), 2 := Slot(0, false), 3 := Slot(1, false), 4 := Slot(2, false),
               5 := Slot(3, false), 6 := Slot(4, false), 8 := Slot(5, true)],
           map[7 := map[]],
           [Pipe, ListenerAt(NAME), EpollInstance(AGAIN_INTEREST), SignalQueue,
            Socket(Accepted, Some(NAME), None, true, true), OPEN_NULL],
           FILES, {"/run/zygote"})

  const CLOSED_SLOT: Entry := Entry(7, BoundSocket(NAME), Close, true)

  const AGAIN_DATA: seq<Entry> :=
    [Stdio(0), Stdio(1), Stdio(2), NewEntry(3, BoundSocket(NAME), Close), NewEntry(4, EpollFd, Close),
     NewEntry(5, FileDescriptors.SignalFd, CloseUnlessSpawnSubspecies), NewEntry(6, BoundSocket(NAME), Close),
     CLOSED_SLOT, NewEntry(8, NULL_ENTRY, Reopen)]

  lemma AgainReads()
    ensures forall fd: Fd | fd < 3 :: CurrentInfo(AGAIN_KERNEL, fd) == Some(Fifo)
    ensures CurrentInfo(AGAIN_KERNEL, 3) == Some(BoundSocket(NAME)) && CurrentInfo(AGAIN_KERNEL, 4) == Some(EpollFd)
    ensures CurrentInfo(AGAIN_KERNEL, 5) == Some(FileDescriptors.SignalFd)
    ensures CurrentInfo(AGAIN_KERNEL, 6) == Some(BoundSocket(NAME)) && CurrentInfo(AGAIN_KERNEL, 8) == Some(NULL_ENTRY)
    ensures AGAIN_KERNEL.fds.Keys == {0, 1, 2, 3, 4, 5, 6, 8}
  {
    OpenNullInfo();
  }

  lemma AgainLive()
    ensures forall fd: Fd | fd < 7 || fd == 8 :: HasLive(AGAIN_DATA, fd)
    ensures HasEntry(AGAIN_DATA, 7) && !HasLive(AGAIN_DATA, 7)
  {
    var d := AGAIN_DATA;
    forall i: nat | i < 7 || i == 8 ensures HasLive(d, d[i].fd) {
      LiveAt(d, i);
    }
    assert forall i: nat | i < 9 :: d[i].fd == i;
    assert d[7] in d;
  }

  lemma AgainSound()
    ensures TableSound(AGAIN_DATA)
  {
  }

  lemma AgainAgrees(k: Kernel)
    requires k.fds.Keys == {0, 1, 2, 3, 4, 5, 6, 8} && forall fd: Fd | fd < 3 :: CurrentInfo(k, fd) == Some(Fifo)
    requires CurrentInfo(k, 3) == Some(BoundSocket(NAME)) && CurrentInfo(k, 4) == Some(EpollFd)
    requires CurrentInfo(k, 5) == Some(FileDescriptors.SignalFd)
    requires CurrentInfo(k, 6) == Some(BoundSocket(NAME)) && CurrentInfo(k, 8) == Some(NULL_ENTRY)
    ensures Agree(AGAIN_DATA, k)
  {
    AgainLive();
  }

  lemma AgainTracks()
    ensures Apart(AGAIN) && HandlesTracked(AGAIN_DATA, AGAIN)
  {
    var d := AGAIN_DATA;
    assert d[3] in d && d[4] in d && d[5] in d && d[6] in d;
  }

  lemma AgainListens()
    ensures SocketsReady(AGAIN_KERNEL, AGAIN) && StreamsApart(AGAIN_KERNEL, AGAIN.clients) && WellFormed(AGAIN_KERNEL)
  {
  }

  lemma AgainWatches()
    ensures InterestExact(AGAIN_KERNEL, AGAIN)
  {
    assert InterestOf(AGAIN_KERNEL, 4) == Some(AGAIN_INTEREST);
    assert WatchOf(AGAIN_KERNEL, 3) == Watch(3, 1) && WatchOf(AGAIN_KERNEL, 5) == Watch(5, 3);
    assert WatchOf(AGAIN_KERNEL, 6) == Watch(6, 4);
  }

  /** It is a server in good order. */
  lemma AgainConsistent()
    ensures Consistent(AGAIN_KERNEL, AGAIN_DATA, AGAIN)
  {
    AgainReads();
    AgainAgrees(AGAIN_KERNEL);
    AgainSound();
    AgainTracks();
    AgainListens();
    AgainWatches();
    Aspects(AGAIN_KERNEL, AGAIN_DATA, AGAIN);
  }

  /** Whatever a child of it opens first lands on the closed slot's number, which the registry
      takes for registered: no child of it can be reset, whatever it has done since. */
  lemma AgainNeverResets(k: Kernel, extra: set<Fd>, policy: Policy)
    requires WellFormed(k) && AgreeExcept(AGAIN_DATA, k, extra)
    ensures !Resettable(k, AGAIN_DATA, extra, policy)
  {
    AgainLive();
    LowestClosedIsStale(k, AGAIN_DATA, extra, 7);
  }

  /** The actions do run in a child just forked, so the audit is where the reset breaks off,
      whatever `register_new` added. */
  lemma AgainFailsTheAudit(child: Pid, after: seq<Entry>)
    requires child != AGAIN_KERNEL.pid && child !in AGAIN_KERNEL.others
    ensures var k := ForkedChild(AGAIN_KERNEL, child);
            && WellFormed(k) && AfterActions(k, AGAIN_DATA, Subspecies).Some?
            && (NewRegistered(MarkedAll(AGAIN_DATA, Subspecies), after, AfterActions(k, AGAIN_DATA, Subspecies).value) ==>
                  !Agree(after, AfterActions(k, AGAIN_DATA, Subspecies).value))
  {
    var k := ForkedChild(AGAIN_KERNEL, child);
    AgainConsistent();
    ForkKeeps(AGAIN_KERNEL, child, AGAIN_DATA, AGAIN);
    Aspects(k, AGAIN_DATA, AGAIN);
    AgainReopens(k);
    ActionsRun(k, AGAIN_DATA, {}, Subspecies);
    AgainLive();
    LowestClosedIsStale(k, AGAIN_DATA, {}, 7);
    StaleFailsTheAudit(k, AGAIN_DATA, {}, after);
  }

  lemma AgainReopens(k: Kernel)
    requires k.fs == FILES
    ensures AllReopen(k, AGAIN_DATA, Subspecies)
  {
  }

  /** Nor can it be shut down: the loop closes the slot's number a second time and stops. */
  lemma AgainCannotShutDown()
    ensures OverrideAll(AGAIN_KERNEL, AGAIN_DATA).None?
  {
    AgainConsistent();
    ShutdownCompletes(AGAIN_KERNEL, AGAIN_DATA, AGAIN);
    assert CLOSED_SLOT == AGAIN_DATA[7] && CLOSED_SLOT in AGAIN_DATA && IsClosed(CLOSED_SLOT);
  }

  // ---- A species with an allowed socket ----

  /** A primary server just after start-up, with a bound socket on 6 that its species allows:
      `register_new` has every such socket duplicated from /dev/null. */
  const FIRST: Handles := Handles(3, 4, 5, [])

  const FIRST_INTEREST: map<Watch, int> :=
    map[Watch(4, 2) := Encode(EpollData(4, EpollTag.Server)), Watch(5, 3) := Encode(EpollData(5, EpollTag.Signal))]

  const FIRST_KERNEL: Kernel :=
    Kernel(7,
           map[0 := Slot(0, false), 1 := Slot(0, false), 2 := Slot(0, false), 3 := Slot(1, false), 4 := Slot(2, false),
               5 := Slot(3, false), 6 := Slot(4, false)],
           map[],
           [Pipe, EpollInstance(FIRST_INTEREST), ListenerAt(NAME), SignalQueue,
            Socket(Plain, Some(NAME), None, false, true)],
           FILES, {"/run/zygote"})

  const DUPLICATED: Entry := NewEntry(6, BoundSocket(NAME), DupeNull)

  const FIRST_DATA: seq<Entry> :=
    [Stdio(0), Stdio(1), Stdio(2), NewEntry(3, EpollFd, Close), NewEntry(4, BoundSocket(NAME), Close),
     NewEntry(5, FileDescriptors.SignalFd, CloseUnlessSpawnSubspecies), DUPLICATED]

  lemma FirstReads()
    ensures forall fd: Fd | fd < 3 :: CurrentInfo(FIRST_KERNEL, fd) == Some(Fifo)
    ensures CurrentInfo(FIRST_KERNEL, 3) == Some(EpollFd) && CurrentInfo(FIRST_KERNEL, 4) == Some(BoundSocket(NAME))
    ensures CurrentInfo(FIRST_KERNEL, 5) == Some(FileDescriptors.SignalFd)
        && CurrentInfo(FIRST_KERNEL, 6) == Some(BoundSocket(NAME))
    ensures FIRST_KERNEL.fds.Keys == {0, 1, 2, 3, 4, 5, 6}
  {
  }

  lemma FirstAgrees(k: Kernel)
    requires k.fds.Keys == {0, 1, 2, 3, 4, 5, 6} && forall fd: Fd | fd < 3 :: CurrentInfo(k, fd) == Some(Fifo)
    requires CurrentInfo(k, 3) == Some(EpollFd) && CurrentInfo(k, 4) == Some(BoundSocket(NAME))
    requires CurrentInfo(k, 5) == Some(FileDescriptors.SignalFd) && CurrentInfo(k, 6) == Some(BoundSocket(NAME))
    ensures Agree(FIRST_DATA, k)
  {
    var d := FIRST_DATA;
    forall i: nat | i < 7 ensures HasLive(d, d[i].fd) {
      LiveAt(d, i);
    }
    assert forall i: nat | i < 7 :: d[i].fd == i;
  }

  lemma FirstTracks()
    ensures TableSound(FIRST_DATA) && Apart(FIRST) && HandlesTracked(FIRST_DATA, FIRST)
  {
    var d := FIRST_DATA;
    assert d[3] in d && d[4] in d && d[5] in d;
  }

  lemma FirstWatches()
    ensures InterestExact(FIRST_KERNEL, FIRST) && SocketsReady(FIRST_KERNEL, FIRST)
        && StreamsApart(FIRST_KERNEL, FIRST.clients)
    ensures WellFormed(FIRST_KERNEL)
  {
  }

  /** It is a server in good order. */
  lemma FirstConsistent()
    ensures Consistent(FIRST_KERNEL, FIRST_DATA, FIRST)
  {
    FirstReads();
    FirstAgrees(FIRST_KERNEL);
    FirstTracks();
    FirstWatches();
    Aspects(FIRST_KERNEL, FIRST_DATA, FIRST);
  }

  /** The number duplicated from /dev/null keeps the information it was registered with, so
      no child of it can be reset: the audit rejects the entry if nothing fails before. */
  lemma FirstNeverResets(k: Kernel, extra: set<Fd>, policy: Policy)
    requires WellFormed(k) && AgreeExcept(FIRST_DATA, k, extra)
    ensures !Resettable(k, FIRST_DATA, extra, policy)
  {
    assert DUPLICATED == FIRST_DATA[6];
    DuplicatedIsStale(k, FIRST_DATA, DUPLICATED);
  }

  lemma FirstFailsTheAudit(child: Pid, after: seq<Entry>)
    requires child != FIRST_KERNEL.pid && child !in FIRST_KERNEL.others
    ensures var k := ForkedChild(FIRST_KERNEL, child);
            && WellFormed(k) && AfterActions(k, FIRST_DATA, Subspecies).Some?
            && (NewRegistered(MarkedAll(FIRST_DATA, Subspecies), after, AfterActions(k, FIRST_DATA, Subspecies).value) ==>
                  !Agree(after, AfterActions(k, FIRST_DATA, Subspecies).value))
  {
    var k := ForkedChild(FIRST_KERNEL, child);
    FirstConsistent();
    ForkKeeps(FIRST_KERNEL, child, FIRST_DATA, FIRST);
    Aspects(k, FIRST_DATA, FIRST);
    FirstReopens(k);
    ActionsRun(k, FIRST_DATA, {}, Subspecies);
    assert DUPLICATED == FIRST_DATA[6];
    DuplicatedIsStale(k, FIRST_DATA, DUPLICATED);
    StaleFailsTheAudit(k, FIRST_DATA, {}, after);
  }

  lemma FirstReopens(k: Kernel)
    ensures AllReopen(k, FIRST_DATA, Subspecies)
  {
  }
}
