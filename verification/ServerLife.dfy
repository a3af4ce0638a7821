/** How a server comes to be, how a forked child becomes a server of its own, and how a
    server or a child of one ends. */
module ServerLife {
  import opened Results
  import opened Kernel
  import opened FileDescriptors
  import opened ForkEffects
  import opened Os
  import opened Registry
  import opened EpollData
  import opened ServerSocket
  import opened ServerState

  function ServerData(fd: Fd): int
    requires IsRawFd(fd)
  {
    Encode(EpollData(fd, EpollTag.Server))
  }

  function SignalData(fd: Fd): int
    requires IsRawFd(fd)
  {
    Encode(EpollData(fd, EpollTag.Signal))
  }

  // ---- Filling a fresh epoll instance ----

  /** The instance at `epfd` watches `server` and nothing else. */
  ghost predicate WatchesServer(k: Kernel, epfd: Fd, server: Fd) {
    && IsRawFd(server) && server in k.fds
    && InterestOf(k, epfd) == Some(map[WatchOf(k, server) := ServerData(server)])
  }

  lemma FirstWatch(k: Kernel, epfd: Fd, server: Fd)
    requires WellFormed(k) && InterestOf(k, epfd) == Some(map[]) && server in k.fds && IsRawFd(server)
    ensures CanWatch(k, epfd, server)
    ensures WatchesServer(Watched(k, epfd, server, ServerData(server)), epfd, server)
  {
  }

  lemma WatchesServerJoined(k: Kernel, k': Kernel, epfd: Fd, server: Fd, fd: Fd)
    requires WatchesServer(k, epfd, server) && Joined(k, k', fd)
    ensures WatchesServer(k', epfd, server)
  {
  }

  lemma SecondWatch(k: Kernel, h: Handles)
    requires WellFormed(k) && Apart(h) && h.clients == [] && WatchesServer(k, h.epoll, h.server)
    requires h.signal in k.fds && SocketsReady(k, h)
    ensures CanWatch(k, h.epoll, h.signal)
    ensures var k' := Watched(k, h.epoll, h.signal, SignalData(h.signal));
            WellFormed(k') && InterestExact(k', h) && SocketsReady(k', h)
  {
    assert IsWatchedFd(h, h.signal);
    WatchingKeepsInfo(k, h.epoll, h.signal, SignalData(h.signal));
    var k' := Watched(k, h.epoll, h.signal, SignalData(h.signal));
    forall fd: Fd | IsWatchedFd(h, fd) ensures WatchedAs(k', h.epoll, fd, EpollData(fd, TagOf(h, fd))) {
      assert fd == h.server || fd == h.signal;
    }
  }

  /** Watching on an instance younger than `k0` touches nothing `k0` had. */
  lemma WatchFrame(k0: Kernel, k: Kernel, epfd: Fd, fd: Fd, word: int)
    requires Frame(k0, k) && CanWatch(k, epfd, fd) && k.fds[epfd].id >= |k0.descs|
    ensures Frame(k0, Watched(k, epfd, fd, word))
  {
  }

  // ---- Start-up ----

  /** The numbers a server opens for itself. */
  function OwnHandles(h: Handles): set<Fd> {
    {h.epoll, h.server, h.signal}
  }

  /** No process has more numbers open than this; see `fs.nr_open` in proc(5). */
  const MAX_OPEN: nat := 0x7fff_ffc0

  /** A number is larger than the count of open ones only if someone chose it. */
  lemma FreshNumberFits(k: Kernel)
    requires |k.fds| <= MAX_OPEN
    ensures IsRawFd(LowestFree(k))
  {
    InitialSegment(k.fds.Keys, LowestFree(k));
  }

  lemma AllocationCounts(k: Kernel, d: Description)
    ensures |Allocated(k, d, false).fds| == |k.fds| + 1
  {
  }

  /** Nothing performed yet, and nothing to reopen. */
  ghost predicate Quiet(data: seq<Entry>) {
    forall e | e in data :: !e.executed && !e.action.Reopen?
  }

  datatype StartPart = KernelPart | RegistryPart

  ghost predicate StartedIn(p: StartPart, k: Kernel, data: seq<Entry>, epoll: Fd, server: Fd) {
    match p
    case KernelPart => WellFormed(k) && epoll in k.fds && epoll != server && IsRawFd(server)
      && ReadySocket(k, server, Listening)
    case RegistryPart =>
      Sorted(data) && |data| <= 5 && Quiet(data) && Tracked(data, epoll, Close) && Tracked(data, server, Close)
  }

  /** The first half of start-up: an epoll instance and a server socket, both registered. */
  ghost predicate Started(k: Kernel, data: seq<Entry>, epoll: Fd, server: Fd) {
    forall p :: StartedIn(p, k, data, epoll, server)
  }

  lemma StartedMeans(k: Kernel, data: seq<Entry>, epoll: Fd, server: Fd)
    ensures Started(k, data, epoll, server) <==>
              && WellFormed(k) && epoll in k.fds && epoll != server && IsRawFd(server) && ReadySocket(k, server, Listening)
              && Sorted(data) && |data| <= 5 && Quiet(data) && Tracked(data, epoll, Close) && Tracked(data, server, Close)
  {
    assert Started(k, data, epoll, server) <==>
             StartedIn(KernelPart, k, data, epoll, server) && StartedIn(RegistryPart, k, data, epoll, server);
  }

  ghost predicate HandlesIn(p: StartPart, k: Kernel, data: seq<Entry>, h: Handles) {
    match p
    case KernelPart => WellFormed(k) && Apart(h) && h.clients == [] && InterestExact(k, h) && SocketsReady(k, h)
    case RegistryPart => Sorted(data) && |data| <= 6 && Quiet(data) && HandlesTracked(data, h)
  }

  /** After the second half: the signalfd as well, and both are watched. */
  ghost predicate HandlesOpened(k: Kernel, data: seq<Entry>, h: Handles) {
    forall p :: HandlesIn(p, k, data, h)
  }

  lemma HandlesMean(k: Kernel, data: seq<Entry>, h: Handles)
    ensures HandlesOpened(k, data, h) <==>
              && WellFormed(k) && Apart(h) && h.clients == [] && InterestExact(k, h) && SocketsReady(k, h)
              && Sorted(data) && |data| <= 6 && Quiet(data) && HandlesTracked(data, h)
  {
    assert HandlesOpened(k, data, h) <==> HandlesIn(KernelPart, k, data, h) && HandlesIn(RegistryPart, k, data, h);
  }

  /** A socket handed over by number is another description than the epoll instance. */
  lemma GivenSocketKeepsEpoll(k: Kernel, epoll: Fd, fd: Fd, d: Description)
    requires WellFormed(k) && InterestOf(k, epoll) == Some(map[]) && DescAt(k, fd).Some? && DescAt(k, fd).value.Socket?
    requires d.Socket?
    ensures WellFormed(WithDesc(k, fd, d)) && InterestOf(WithDesc(k, fd, d), epoll) == Some(map[])
    ensures DescAt(WithDesc(k, fd, d), fd) == Some(d)
  {
  }

  lemma RegisteredIsTracked(data: seq<Entry>, data': seq<Entry>, e: Entry)
    requires RegisteredAs(data, data', e) && !e.executed
    ensures Tracked(data', e.fd, e.action)
  {
    assert e in data';
  }

  lemma ServerRegistered(k: Kernel, data: seq<Entry>, data': seq<Entry>, epoll: Fd, server: Fd, info: Info)
    requires WellFormed(k) && epoll in k.fds && epoll != server && IsRawFd(server) && ReadySocket(k, server, Listening)
    requires Tracked(data, epoll, Close) && Quiet(data)
    requires Sorted(data') && |data'| <= 5 && RegisteredAs(data, data', NewEntry(server, info, Close))
    ensures Started(k, data', epoll, server)
  {
    var e := NewEntry(server, info, Close);
    RegisterKeepsTracked(data, data', e, epoll, Close);
    assert e in data';
    StartedMeans(k, data', epoll, server);
  }

  lemma ListenerWatched(k: Kernel, data: seq<Entry>, epoll: Fd, server: Fd)
    requires Started(k, data, epoll, server) && InterestOf(k, epoll) == Some(map[])
    ensures IsRawFd(server) && CanWatch(k, epoll, server)
    ensures var k' := Watched(k, epoll, server, ServerData(server));
            Started(k', data, epoll, server) && WatchesServer(k', epoll, server)
  {
    StartedMeans(k, data, epoll, server);
    FirstWatch(k, epoll, server);
    WatchingKeepsInfo(k, epoll, server, ServerData(server));
    StartedMeans(Watched(k, epoll, server, ServerData(server)), data, epoll, server);
  }

  lemma SignalsWatched(k: Kernel, data: seq<Entry>, data': seq<Entry>, epoll: Fd, server: Fd)
    requires Started(k, data, epoll, server) && WatchesServer(k, epoll, server) && IsRawFd(LowestFree(k))
    requires Sorted(data') && |data'| <= 6
    requires RegisteredAs(data, data', NewEntry(LowestFree(k), FileDescriptors.SignalFd, CloseUnlessSpawnSubspecies))
    ensures var k1, h := Allocated(k, SignalQueue, false), Handles(epoll, server, LowestFree(k), []);
            && CanWatch(k1, epoll, LowestFree(k))
            && HandlesOpened(Watched(k1, epoll, LowestFree(k), SignalData(LowestFree(k))), data', h)
  {
    StartedMeans(k, data, epoll, server);
    var signal := LowestFree(k);
    var k1, h := Allocated(k, SignalQueue, false), Handles(epoll, server, signal, []);
    AllocationJoins(k, SignalQueue);
    WatchesServerJoined(k, k1, epoll, server, signal);
    SecondWatch(k1, h);
    var e := NewEntry(signal, FileDescriptors.SignalFd, CloseUnlessSpawnSubspecies);
    RegisterKeepsTracked(data, data', e, epoll, Close);
    RegisterKeepsTracked(data, data', e, server, Close);
    assert e in data';
    HandlesMean(Watched(k1, epoll, signal, SignalData(signal)), data', h);
  }

  /** The rest of start-up registers what else is open and audits the result. */
  lemma LaunchCompletes(k: Kernel, data: seq<Entry>, data': seq<Entry>, h: Handles)
    requires HandlesOpened(k, data, h)
    requires NewRegistered(data, data', k) && TableSound(data') && Agree(data', k)
    ensures Consistent(k, data', h) && forall e | e in data' :: !e.executed
  {
    HandlesMean(k, data, h);
    forall fd, action | Tracked(data, fd, action) ensures Tracked(data', fd, action) {
      var e :| e in data && e.fd == fd && e.action == action && !e.executed;
      assert e in data';
    }
    Aspects(k, data', h);
  }

  // ---- When start-up succeeds ----

  datatype RecordPart = CoverPart | DescribePart | NumberPart | UnchangedPart

  ghost predicate RecordsIn(p: RecordPart, k0: Kernel, k: Kernel, data: seq<Entry>, own: set<Fd>) {
    match p
    case CoverPart => forall fd | fd in k.fds :: fd in k0.fds || fd in own
    case DescribePart => forall e | e in data :: Describes(k, e) && !e.executed
    case NumberPart => forall fd :: HasEntry(data, fd) <==> fd in own
    case UnchangedPart => forall fd | fd in k0.fds :: fd in k.fds && CurrentInfo(k, fd) == CurrentInfo(k0, fd)
  }

  /** The table so far: the numbers `own`, each with its current information.  What was open
      at the start, in `k0`, still is and reads the same; nothing else is open unregistered. */
  ghost predicate Recorded(k0: Kernel, k: Kernel, data: seq<Entry>, own: set<Fd>) {
    forall p :: RecordsIn(p, k0, k, data, own)
  }

  lemma RecordedMeans(k0: Kernel, k: Kernel, data: seq<Entry>, own: set<Fd>)
    ensures Recorded(k0, k, data, own) <==>
              && (forall fd | fd in k.fds :: fd in k0.fds || fd in own)
              && (forall e | e in data :: Describes(k, e) && !e.executed)
              && (forall fd :: HasEntry(data, fd) <==> fd in own)
              && (forall fd | fd in k0.fds :: fd in k.fds && CurrentInfo(k, fd) == CurrentInfo(k0, fd))
  {
    assert Recorded(k0, k, data, own) <==>
             && RecordsIn(CoverPart, k0, k, data, own) && RecordsIn(DescribePart, k0, k, data, own)
             && RecordsIn(NumberPart, k0, k, data, own) && RecordsIn(UnchangedPart, k0, k, data, own);
  }

  lemma StandardStreamsRecorded(k: Kernel, data: seq<Entry>)
    ensures StandardStreams(data, k) ==> Recorded(k, k, data, STDIO) && Quiet(data)
  {
    if StandardStreams(data, k) { RecordedMeans(k, k, data, STDIO); }
  }

  /** At most one more number is open, and what was open reads the same. */
  ghost predicate Extends(k: Kernel, k': Kernel, fd: Fd) {
    && (forall x | x in k.fds :: x in k'.fds && CurrentInfo(k', x) == CurrentInfo(k, x))
    && forall x | x in k'.fds :: x in k.fds || x == fd
  }

  lemma RecordedMore(k0: Kernel, k: Kernel, k': Kernel, data: seq<Entry>, data': seq<Entry>, own: set<Fd>, e: Entry)
    requires Extends(k, k', e.fd) && RegisteredAs(data, data', e) && Describes(k', e) && !e.executed
    ensures Recorded(k0, k, data, own) ==> Recorded(k0, k', data', own + {e.fd})
  {
    if Recorded(k0, k, data, own) {
      RecordedMeans(k0, k, data, own);
      forall x | x in data' ensures Describes(k', x) && !x.executed {
        if x != e { assert Describes(k, x); }
      }
      forall fd ensures HasEntry(data', fd) <==> fd in own + {e.fd} {
        assert e in data';
        if HasEntry(data, fd) && fd != e.fd {
          var x :| x in data && x.fd == fd;
          assert x in data';
        }
      }
      RecordedMeans(k0, k', data', own + {e.fd});
    }
  }

  lemma RecordedSame(k0: Kernel, k: Kernel, k': Kernel, data: seq<Entry>, own: set<Fd>)
    requires k'.fds == k.fds && forall x :: CurrentInfo(k', x) == CurrentInfo(k, x)
    ensures Recorded(k0, k, data, own) ==> Recorded(k0, k', data, own)
  {
    if Recorded(k0, k, data, own) {
      RecordedMeans(k0, k, data, own);
      forall e | e in data ensures Describes(k', e) {
        assert Describes(k, e);
      }
      RecordedMeans(k0, k', data, own);
    }
  }

  lemma AllocationExtends(k: Kernel, d: Description)
    requires WellFormed(k)
    ensures Extends(k, Allocated(k, d, false), LowestFree(k))
  {
  }

  lemma FreshPollInfo(k: Kernel)
    ensures CurrentInfo(Allocated(k, EpollInstance(map[]), false), LowestFree(k)) == Some(EpollFd)
  {
  }

  lemma FreshSignalsInfo(k: Kernel)
    ensures CurrentInfo(Allocated(k, SignalQueue, false), LowestFree(k)) == Some(FileDescriptors.SignalFd)
  {
  }

  /** Listening on a socket changes nothing a registry records. */
  lemma ListeningExtends(k: Kernel, fd: Fd)
    requires WellFormed(k) && DescAt(k, fd).Some? && DescAt(k, fd).value.Socket?
    ensures Extends(k, WithDesc(k, fd, DescAt(k, fd).value.(role := Listening, nonblocking := true)), fd)
  {
  }

  /** A number not among `own` can be registered, one among them cannot. */
  lemma OwnIsLive(k0: Kernel, k: Kernel, data: seq<Entry>, own: set<Fd>, fd: Fd)
    requires Recorded(k0, k, data, own)
    ensures HasLive(data, fd) <==> fd in own
    ensures HasEntry(data, fd) <==> fd in own
  {
    RecordedMeans(k0, k, data, own);
  }

  /** What a start-up needs: readable standard streams, a socket to listen on that is none of
      them, and nothing else open that the species does not allow. */
  ghost predicate Launchable(k: Kernel, socket: SocketArg, policy: Policy) {
    && (forall fd | fd in STDIO :: CurrentInfo(k, fd).Some?)
    && SocketAvailable(k, socket)
    && RestAllowed(k, policy, STDIO + (if socket.GivenFd? && socket.fd >= 0 then {socket.fd as Fd} else {}))
  }

  ghost predicate SocketAvailable(k: Kernel, socket: SocketArg) {
    if socket.GivenFd? then CanServe(socket, k) && socket.fd !in STDIO else NameIsFree(socket, k)
  }

  ghost predicate RestAllowed(k: Kernel, policy: Policy, own: set<Fd>) {
    forall fd | fd in k.fds && fd !in own :: IsAllowed(k, fd, policy)
  }

  /** The server socket is the one handed over, or a number that was not open. */
  ghost predicate IsGivenOrNew(k: Kernel, socket: SocketArg, fd: Fd) {
    if socket.GivenFd? then socket.fd == fd else fd !in k.fds
  }

  ghost predicate OwnNumbers(k: Kernel, socket: SocketArg, h: Handles) {
    h.epoll !in k.fds && h.signal !in k.fds && IsGivenOrNew(k, socket, h.server)
  }

  lemma LaunchableRest(k: Kernel, socket: SocketArg, policy: Policy, h: Handles)
    requires OwnNumbers(k, socket, h)
    ensures RestAllowed(k, policy, STDIO + {h.epoll, h.server, h.signal}) <==>
            RestAllowed(k, policy, STDIO + (if socket.GivenFd? && socket.fd >= 0 then {socket.fd as Fd} else {}))
  {
  }

  lemma NewIsNotRecorded(k0: Kernel, k: Kernel, data: seq<Entry>, own: set<Fd>, fd: Fd)
    requires Recorded(k0, k, data, own) && fd !in k.fds
    ensures !HasEntry(data, fd) && !HasLive(data, fd) && fd !in own && fd !in k0.fds
  {
    RecordedMeans(k0, k, data, own);
    assert forall e | e in data :: Describes(k, e);
  }

  /** The epoll instance takes no socket away. */
  lemma AvailableStill(k: Kernel, d: Description, socket: SocketArg)
    requires WellFormed(k) && !d.Socket?
    ensures SocketAvailable(Allocated(k, d, false), socket) <==> SocketAvailable(k, socket)
    ensures forall fd :: IsGivenOrNew(Allocated(k, d, false), socket, fd) ==> IsGivenOrNew(k, socket, fd)
  {
  }

  /** What `get_server_socket` leaves: a readable listening socket beside the epoll instance. */
  lemma ServerSocketReady(k: Kernel, k': Kernel, epoll: Fd, socket: SocketArg, server: Fd)
    requires WellFormed(k) && InterestOf(k, epoll) == Some(map[]) && epoll in k.fds
    requires |k.fds| < MAX_OPEN - 1 && (socket.GivenFd? ==> IsRawFd(socket.fd))
    requires !socket.GivenFd? ==>
               && server == LowestFree(k)
               && k' == Allocated(Bind(k, AddressOf(socket)), ListenerAt(AddressOf(socket)), false)
    requires socket.GivenFd? ==>
               && socket.fd == server && CanServe(socket, k)
               && k' == WithDesc(k, server, DescAt(k, server).value.(role := Listening, nonblocking := true))
    ensures WellFormed(k') && InterestOf(k', epoll) == Some(map[]) && epoll != server && IsRawFd(server)
    ensures ReadySocket(k', server, Listening) && CurrentInfo(k', server).Some? && Extends(k, k', server)
    ensures |k'.fds| <= |k.fds| + 1 && IsGivenOrNew(k, socket, server)
  {
    if socket.GivenFd? {
      GivenSocketKeepsEpoll(k, epoll, server, DescAt(k, server).value.(role := Listening, nonblocking := true));
      ListeningExtends(k, server);
    } else {
      var bound := Bind(k, AddressOf(socket));
      AllocationJoins(bound, ListenerAt(AddressOf(socket)));
      AllocationCounts(bound, ListenerAt(AddressOf(socket)));
      AllocationExtends(bound, ListenerAt(AddressOf(socket)));
      FreshNumberFits(k);
    }
  }

  /** The socket got is one the registry takes, unless it was a standard stream's number. */
  lemma SocketIsRegisterable(k0: Kernel, k: Kernel, data: seq<Entry>, epoll: Fd, socket: SocketArg, server: Fd)
    requires Recorded(k0, k, data, STDIO + {epoll}) && IsGivenOrNew(k, socket, server) && epoll != server
    requires if socket.GivenFd? then CanServe(socket, k) else NameIsFree(socket, k)
    ensures server !in STDIO + {epoll} <==> SocketAvailable(k, socket)
  {
    if !socket.GivenFd? { NewIsNotRecorded(k0, k, data, STDIO + {epoll}, server); }
  }

  /** A table that records all it has, completed by `register_new`, passes the audit. */
  lemma RecordedAgrees(k0: Kernel, k: Kernel, data: seq<Entry>, data': seq<Entry>, own: set<Fd>)
    requires Recorded(k0, k, data, own) && NewRegistered(data, data', k)
    ensures Agree(data', k)
  {
    RecordedMeans(k0, k, data, own);
    forall fd | fd in k.fds ensures HasLive(data', fd) {
      if HasEntry(data, fd) {
        var e :| e in data && e.fd == fd;
        assert e in data' && !IsClosed(e);
      }
    }
  }

  /** Every other number it completes the table with was open and allowed from the start. */
  lemma RegisteredWereAllowed(k0: Kernel, k: Kernel, data: seq<Entry>, data': seq<Entry>, own: set<Fd>, policy: Policy)
    requires Recorded(k0, k, data, own) && NewRegistered(data, data', k)
    requires forall e | e in data' && e !in data :: AddedAs(policy, e.info, e.action)
    ensures RestAllowed(k0, policy, own)
    ensures forall e | e in data' && e.fd !in own :: AddedAs(policy, e.info, e.action)
  {
    RecordedMeans(k0, k, data, own);
    assert forall e | e in data' && e.fd !in own :: e in data ==> HasEntry(data, e.fd);
    forall fd | fd in k0.fds && fd !in own ensures IsAllowed(k0, fd, policy) {
      assert !HasEntry(data, fd);
      var e :| e in data' && e.fd == fd && !IsClosed(e);
      assert e !in data && Describes(k, e);
    }
  }

  lemma RestCanBeRegistered(k0: Kernel, k: Kernel, data: seq<Entry>, own: set<Fd>, policy: Policy)
    requires Recorded(k0, k, data, own) && RestAllowed(k0, policy, own)
    ensures forall fd | fd in k.fds && !HasEntry(data, fd) ::
              CurrentInfo(k, fd).Some? && MayAdd(policy, CurrentInfo(k, fd).value)
  {
    RecordedMeans(k0, k, data, own);
    forall fd | fd in k.fds && !HasEntry(data, fd)
      ensures CurrentInfo(k, fd).Some? && MayAdd(policy, CurrentInfo(k, fd).value)
    {
      assert IsAllowed(k0, fd, policy);
    }
  }

  // ---- Subspecies ----

  /** A server that has executed nothing, has nothing to duplicate and only files that can be
      restored can always be reset: no number it opens can hit a stale slot. */
  lemma FirstGenerationResets(k: Kernel, data: seq<Entry>, extra: set<Fd>, policy: Policy)
    requires WellFormed(k) && AgreeExcept(data, k, extra)
    requires forall e | e in data :: !e.executed && !e.action.DupeNull?
    requires forall e | e in data && e.action.Reopen? :: Restorable(k, e)
    requires forall x | x in extra :: IsAllowed(k, x, policy)
    ensures Resettable(k, data, extra, policy)
  {
  }

  datatype Part = OpenPart | NamedPart | TablePart

  ghost predicate ListensIn(p: Part, k: Kernel, data: seq<Entry>, server: Fd, signal: Fd) {
    match p
    case OpenPart => ReadySocket(k, server, Listening) && DescAt(k, signal) == Some(SignalQueue) && WellFormed(k)
    case NamedPart => server != signal && IsRawFd(server) && IsRawFd(signal)
    case TablePart =>
      && TableSound(data) && Agree(data, k)
      && Tracked(data, server, Close) && Tracked(data, signal, CloseUnlessSpawnSubspecies)
  }

  /** A server socket and a signalfd, registered and ready, in an audited process. */
  ghost predicate Listens(k: Kernel, data: seq<Entry>, server: Fd, signal: Fd) {
    forall p :: ListensIn(p, k, data, server, signal)
  }

  lemma Parts(k: Kernel, data: seq<Entry>, server: Fd, signal: Fd)
    ensures Listens(k, data, server, signal) <==>
              && WellFormed(k) && TableSound(data) && Agree(data, k)
              && server != signal && IsRawFd(server) && IsRawFd(signal)
              && Tracked(data, server, Close) && Tracked(data, signal, CloseUnlessSpawnSubspecies)
              && ReadySocket(k, server, Listening) && DescAt(k, signal) == Some(SignalQueue)
  {
    assert Listens(k, data, server, signal) <==>
             && ListensIn(OpenPart, k, data, server, signal)
             && ListensIn(NamedPart, k, data, server, signal)
             && ListensIn(TablePart, k, data, server, signal);
  }

  lemma BindKeepsReadings(k: Kernel, address: Address, data: seq<Entry>)
    ensures LowestFree(Bind(k, address)) == LowestFree(k)
    ensures forall fd :: DescAt(Bind(k, address), fd) == DescAt(k, fd)
    ensures WellFormed(k) ==> WellFormed(Bind(k, address)) && Frame(k, Bind(k, address))
    ensures Agree(data, k) ==> Agree(data, Bind(k, address))
  {
    var k' := Bind(k, address);
    if Agree(data, k) {
      forall e | e in data && !IsClosed(e) ensures Describes(k', e) {
        assert Describes(k, e);
      }
    }
  }

  lemma ReinitListens(k: Kernel, data: seq<Entry>, data': seq<Entry>, signal: Fd, address: Address)
    requires WellFormed(k) && TableSound(data) && Agree(data, k) && IsRawFd(signal)
    requires Tracked(data, signal, CloseUnlessSpawnSubspecies) && DescAt(k, signal) == Some(SignalQueue)
    requires TableSound(data') && RegisteredAs(data, data', NewEntry(LowestFree(k), BoundSocket(address), Close))
    ensures Listens(Allocated(Bind(k, address), ListenerAt(address), false), data', LowestFree(k), signal)
    ensures Frame(k, Allocated(Bind(k, address), ListenerAt(address), false))
  {
    BindKeepsReadings(k, address, data);
    ListenerJoins(Bind(k, address), data, data', signal, address);
  }

  lemma ListenerJoins(k: Kernel, data: seq<Entry>, data': seq<Entry>, signal: Fd, address: Address)
    requires WellFormed(k) && TableSound(data) && Agree(data, k) && IsRawFd(signal)
    requires Tracked(data, signal, CloseUnlessSpawnSubspecies) && DescAt(k, signal) == Some(SignalQueue)
    requires TableSound(data') && RegisteredAs(data, data', NewEntry(LowestFree(k), BoundSocket(address), Close))
    ensures Listens(Allocated(k, ListenerAt(address), false), data', LowestFree(k), signal)
    ensures Frame(k, Allocated(k, ListenerAt(address), false))
  {
    var k', server := Allocated(k, ListenerAt(address), false), LowestFree(k);
    AllocationJoins(k, ListenerAt(address));
    assert CurrentInfo(k', server) == Some(BoundSocket(address));
    FreshNumberIsSmall(k, data);
    RegisterKeepsAgreement(k, k', data, data', server, Close);
    RegisterKeepsTracked(data, data', NewEntry(server, BoundSocket(address), Close), signal, CloseUnlessSpawnSubspecies);
    assert NewEntry(server, BoundSocket(address), Close) in data';
    Parts(k', data', server, signal);
  }

  ghost predicate Polls(k: Kernel, data: seq<Entry>, h: Handles) {
    && Listens(k, data, h.server, h.signal)
    && Tracked(data, h.epoll, Close) && h.epoll != h.server && h.epoll != h.signal
    && InterestOf(k, h.epoll) == Some(map[]) && h.clients == []
  }

  lemma ReinitPolls(k: Kernel, data: seq<Entry>, data': seq<Entry>, server: Fd, signal: Fd)
    requires Listens(k, data, server, signal)
    requires TableSound(data') && RegisteredAs(data, data', NewEntry(LowestFree(k), EpollFd, Close))
    ensures Polls(Allocated(k, EpollInstance(map[]), false), data', Handles(LowestFree(k), server, signal, []))
  {
    Parts(k, data, server, signal);
    var k', epoll := Allocated(k, EpollInstance(map[]), false), LowestFree(k);
    AllocationJoins(k, EpollInstance(map[]));
    RegisterKeepsAgreement(k, k', data, data', epoll, Close);
    var e := NewEntry(epoll, EpollFd, Close);
    assert server in k.fds && signal in k.fds;
    RegisterKeepsTracked(data, data', e, server, Close);
    RegisterKeepsTracked(data, data', e, signal, CloseUnlessSpawnSubspecies);
    assert e in data';
    Parts(k', data', server, signal);
  }

  /** Neither a new instance nor its watches change how the server socket reads. */
  lemma PollKeepsInfo(k: Kernel, h: Handles)
    requires WellFormed(k) && h.epoll == LowestFree(k) && h.server in k.fds && IsRawFd(h.server) && IsRawFd(h.signal)
    ensures var k1 := Allocated(k, EpollInstance(map[]), false);
            CanWatch(k1, h.epoll, h.server) ==>
              var k2 := Watched(k1, h.epoll, h.server, ServerData(h.server));
              CanWatch(k2, h.epoll, h.signal) ==>
                CurrentInfo(Watched(k2, h.epoll, h.signal, SignalData(h.signal)), h.server) == CurrentInfo(k, h.server)
  {
    AllocationJoins(k, EpollInstance(map[]));
  }

  lemma ReinitWatches(k: Kernel, data: seq<Entry>, h: Handles)
    requires Polls(k, data, h)
    ensures IsRawFd(h.server) && IsRawFd(h.signal) && CanWatch(k, h.epoll, h.server)
    ensures var k1 := Watched(k, h.epoll, h.server, ServerData(h.server));
            && CanWatch(k1, h.epoll, h.signal)
            && Consistent(Watched(k1, h.epoll, h.signal, SignalData(h.signal)), data, h)
  {
    Parts(k, data, h.server, h.signal);
    assert h.server in k.fds && h.signal in k.fds;
    FirstWatch(k, h.epoll, h.server);
    var k1 := Watched(k, h.epoll, h.server, ServerData(h.server));
    WatchingKeepsInfo(k, h.epoll, h.server, ServerData(h.server));
    SecondWatch(k1, h);
    WatchingKeepsInfo(k1, h.epoll, h.signal, SignalData(h.signal));
    SameInfoAgrees(k, k1, data);
    SameInfoAgrees(k1, Watched(k1, h.epoll, h.signal, SignalData(h.signal)), data);
    Aspects(Watched(k1, h.epoll, h.signal, SignalData(h.signal)), data, h);
  }

  /** What the reset leaves of the old handles: the signalfd open and tracked as it was. */
  lemma SignalSurvivesReset(k: Kernel, data: seq<Entry>, signal: Fd, extra: set<Fd>, k': Kernel, data': seq<Entry>)
    requires WellFormed(k) && Sorted(data) && AgreeExcept(data, k, extra)
    requires Tracked(data, signal, CloseUnlessSpawnSubspecies) && DescAt(k, signal) == Some(SignalQueue)
    requires AfterActions(k, data, Subspecies) == Some(k') && NewRegistered(MarkedAll(data, Subspecies), data', k')
    ensures Frame(k, k') && Tracked(data', signal, CloseUnlessSpawnSubspecies)
    ensures DescAt(k', signal) == Some(SignalQueue) && k'.fds[signal] == k.fds[signal]
  {
    var e :| e in data && e.fd == signal && e.action == CloseUnlessSpawnSubspecies && !e.executed;
    TrackedStays(data, e, k', data');
    LiveActionDone(k, data, extra, e, k');
    UntouchedEntry(k, k', e, LowestFree(k));
  }

  lemma TrackedStays(data: seq<Entry>, e: Entry, k': Kernel, data': seq<Entry>)
    requires e in data && e.action == CloseUnlessSpawnSubspecies && !e.executed
    requires NewRegistered(MarkedAll(data, Subspecies), data', k')
    ensures Tracked(data', e.fd, CloseUnlessSpawnSubspecies)
  {
  }

  lemma LiveActionDone(k: Kernel, data: seq<Entry>, extra: set<Fd>, e: Entry, k': Kernel)
    requires WellFormed(k) && Sorted(data) && AgreeExcept(data, k, extra)
    requires AfterActions(k, data, Subspecies) == Some(k') && e in data && !IsClosed(e)
    ensures Frame(k, k') && e.fd in k.fds && ActionDone(WithNull(k), k', e, LowestFree(k), Subspecies)
  {
    ActionsOnAudited(k, data, extra, Subspecies);
    assert Describes(k, e);
  }

  lemma UntouchedEntry(k: Kernel, k': Kernel, e: Entry, dn: Fd)
    requires WellFormed(k) && Frame(k, k') && dn == LowestFree(k) && e.fd in k.fds
    requires !Performs(e, Subspecies) && ActionDone(WithNull(k), k', e, dn, Subspecies)
    ensures e.fd in k'.fds && k'.fds[e.fd] == k.fds[e.fd] && DescAt(k', e.fd) == DescAt(k, e.fd)
  {
  }

  /** Every entry but those of some numbers is still there. */
  ghost predicate RetainsBut(data: seq<Entry>, data': seq<Entry>, fds: set<Fd>) {
    forall e | e in data && e.fd !in fds :: e in data'
  }

  /** A server that was just re-initialised still holds a closed slot: the fork closed the old
      epoll instance, the old server socket and the requesting client, and only two of those
      numbers can have been taken again. */
  lemma ReinitializedHasClosedSlot(data: seq<Entry>, h: Handles, data1: seq<Entry>, data2: seq<Entry>,
                                   k': Kernel, server: Fd, epoll: Fd)
    requires Apart(h) && HandlesTracked(data, h) && h.clients != []
    requires NewRegistered(MarkedAll(data, Subspecies), data1, k')
    requires RetainsBut(data1, data2, {server, epoll})
    ensures exists e :: e in data2 && IsClosed(e)
  {
    assert IsWatchedFd(h, h.server) && IsWatchedFd(h, h.clients[0]);
    var fd := if h.epoll !in {server, epoll} then h.epoll
              else if h.server !in {server, epoll} then h.server
              else h.clients[0];
    assert fd !in {server, epoll} && Tracked(data, fd, Close);
    ClosedSlotStays(data, data1, data2, k', fd, {server, epoll});
  }

  lemma ClosedSlotStays(data: seq<Entry>, data1: seq<Entry>, data2: seq<Entry>, k': Kernel, fd: Fd, taken: set<Fd>)
    requires Tracked(data, fd, Close) && fd !in taken
    requires NewRegistered(MarkedAll(data, Subspecies), data1, k') && RetainsBut(data1, data2, taken)
    ensures exists e :: e in data2 && IsClosed(e)
  {
  }

  // ---- Parents ----

  /** The process `pid` as it would see itself. */
  function SeenBy(k: Kernel, pid: Pid): Kernel
    requires pid in k.others
  {
    k.(pid := pid, fds := k.others[pid], others := k.others - {pid})
  }

  /** No process that was there has lost its table or had it changed. */
  ghost predicate OthersKept(k: Kernel, k': Kernel) {
    forall p | p in k.others :: p in k'.others && k'.others[p] == k.others[p]
  }

  /** `k` belongs to a child forked from `parent`, or to a child of that child, none of which
      has touched the parent's table or any description the parent had. */
  ghost predicate BranchedFrom(parent: Kernel, k: Kernel) {
    && k.pid != parent.pid && parent.pid in k.others && k.others[parent.pid] == parent.fds
    && OthersKept(parent, k)
    && parent.descs <= k.descs && k.fs == parent.fs
    && WellFormed(parent) && WellFormed(k)
  }

  /** Nothing such a child did reaches its parent: same descriptors, same descriptions behind
      them, same epoll interest list, so the parent is as consistent as it was. */
  lemma ChildLeavesParent(parent: Kernel, k: Kernel, data: seq<Entry>, h: Handles)
    requires Consistent(parent, data, h) && BranchedFrom(parent, k)
    ensures SeenBy(k, parent.pid).fds == parent.fds
    ensures forall fd :: DescAt(SeenBy(k, parent.pid), fd) == DescAt(parent, fd)
    ensures Consistent(SeenBy(k, parent.pid), data, h)
  {
    Aspects(parent, data, h);
    var seen := SeenBy(k, parent.pid);
    forall fd ensures DescAt(seen, fd) == DescAt(parent, fd) {
      if fd in parent.fds { assert parent.fds[fd].id < |parent.descs|; }
    }
    assert WellFormed(seen);
    LooksSameKeeps(parent, seen, data, h);
  }

  /** A child that leaves older descriptions alone stays a child that leaves its parent alone. */
  lemma BranchExtends(parent: Kernel, k: Kernel, k': Kernel)
    ensures BranchedFrom(parent, k) && Frame(k, k') ==> BranchedFrom(parent, k')
  {
  }

  /** Numbers opened since the fork are all that a child's registry does not know. */
  lemma ExtrasAreUnknown(k: Kernel, k': Kernel, data: seq<Entry>, h: Handles, extra: set<Fd>)
    requires Consistent(k, data, h) && Frame(k, k')
    requires extra !! k.fds.Keys && k'.fds.Keys == k.fds.Keys + extra
    requires forall fd | fd in k.fds :: k'.fds[fd] == k.fds[fd]
    ensures WellFormed(k') && TableSound(data) && AgreeExcept(data, k', extra)
    ensures Apart(h) && HandlesTracked(data, h) && DescAt(k', h.signal) == Some(SignalQueue)
  {
    Aspects(k, data, h);
    forall e | e in data && !IsClosed(e) ensures Describes(k', e) && e.fd !in extra {
      assert Describes(k, e);
    }
  }

  // ---- Ends ----

  /** An application child that has dropped its copy of the server, of a primary or of a
      subspecies, holds exactly the ignored, duplicated and reopened numbers and one on
      /dev/null; the server's own descriptors are gone. */
  lemma ApplicationChildEnds(k: Kernel, data: seq<Entry>, h: Handles)
    requires Consistent(k, data, h) && WellFormed(k) && AfterActions(k, data, Application).Some?
    ensures var k' := AfterActions(k, data, Application).value;
            && (forall fd :: fd in k'.fds <==> fd == LowestFree(k) || KeptFor(data, fd))
            && DescAt(k', LowestFree(k)) == Some(FreshFile(k, DEV_NULL, {Rdwr}))
            && h.epoll !in k'.fds && (forall fd | IsWatchedFd(h, fd) :: fd !in k'.fds)
  {
    Aspects(k, data, h);
    ActionsOnAudited(k, data, {}, Application);
    OpenAfterActions(k, data, Application);
    var k' := AfterActions(k, data, Application).value;
    forall fd ensures fd in k'.fds <==> fd == LowestFree(k) || KeptFor(data, fd) {
      SurvivorsAreLive(data, fd, Application);
      SurvivesIsKept(data, fd);
    }
    forall fd | fd == h.epoll || IsWatchedFd(h, fd) ensures fd !in k'.fds {
      HandleIsNotKept(k, data, h, fd);
    }
  }

  /** An application child's actions can be stopped only by a file that cannot be reopened. */
  lemma ApplicationActionsRun(k: Kernel, data: seq<Entry>, h: Handles)
    requires Consistent(k, data, h)
    ensures WellFormed(k) && ReopensFiles(data)
    ensures AfterActions(k, data, Application).Some? <==> AllReopen(k, data, Application)
  {
    Aspects(k, data, h);
    ActionsRun(k, data, {}, Application);
  }

  ghost predicate KeptFor(data: seq<Entry>, fd: Fd) {
    exists e :: e in data && e.fd == fd && (e.action.Ignore? || e.action.DupeNull? || e.action.Reopen?)
  }

  lemma SurvivesIsKept(data: seq<Entry>, fd: Fd)
    ensures Survives(data, fd, Application) <==> KeptFor(data, fd)
  {
  }

  lemma HandleIsNotKept(k: Kernel, data: seq<Entry>, h: Handles, fd: Fd)
    requires Sorted(data) && Agree(data, k) && HandlesTracked(data, h) && (fd == h.epoll || IsWatchedFd(h, fd))
    ensures fd != LowestFree(k) && !KeptFor(data, fd)
  {
    var action :=
      if fd == h.signal && fd != h.epoll && fd != h.server && fd !in h.clients
      then CloseUnlessSpawnSubspecies
      else Close;
    assert Tracked(data, fd, action);
    TrackedIsOpen(k, data, fd, action);
    var e :| e in data && e.fd == fd && e.action == action && !e.executed;
    if KeptFor(data, fd) {
      var x :| x in data && x.fd == fd && (x.action.Ignore? || x.action.DupeNull? || x.action.Reopen?);
      SameFdSameEntry(data, e, x);
    }
  }

  /** Shutting a server down closes all its own descriptors, each while it is open, if and
      only if its registry has no closed slot; a primary server's never has one. */
  lemma ShutdownCompletes(k: Kernel, data: seq<Entry>, h: Handles)
    requires Consistent(k, data, h)
    ensures OverrideAll(k, data).Some? <==> forall e | e in data :: !IsClosed(e)
    ensures (forall e | e in data :: !e.executed) ==> OverrideAll(k, data).Some?
    ensures OverrideAll(k, data).Some? ==>
              var k' := OverrideAll(k, data).value;
              h.epoll !in k'.fds && forall fd | IsWatchedFd(h, fd) :: fd !in k'.fds
  {
    Aspects(k, data, h);
    ShutdownCloses(k, data);
    if OverrideAll(k, data).Some? {
      var k' := OverrideAll(k, data).value;
      forall fd | fd == h.epoll || IsWatchedFd(h, fd) ensures fd !in k'.fds {
        HandleIsNotKept(k, data, h, fd);
        assert !exists e :: e in data && e.fd == fd && e.action.Ignore?;
      }
    }
  }
}
