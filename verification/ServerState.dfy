/** The server's four views of the same facts, kernel table, registry, own handles and epoll
    interest list, and the steps that keep them together. */
module ServerState {
  import opened Results
  import opened Kernel
  import opened FileDescriptors
  import opened ForkEffects
  import opened Os
  import opened Registry
  import opened EpollData
  import opened ServerSocket

  const MAX_CLIENTS: nat := 16
  const MAX_EVENTS: nat := 32

  /** `epoll_handle`, `server_socket`, `signal_fd` and `client_sockets`. */
  datatype Handles = Handles(epoll: Fd, server: Fd, signal: Fd, clients: seq<Fd>)

  predicate IsWatchedFd(h: Handles, fd: Fd) {
    fd == h.server || fd == h.signal || fd in h.clients
  }

  function TagOf(h: Handles, fd: Fd): EpollTag {
    if fd == h.server then EpollTag.Server else if fd == h.signal then EpollTag.Signal else EpollTag.Client
  }

  ghost predicate Apart(h: Handles) {
    && Distinct(h.clients) && |h.clients| <= MAX_CLIENTS
    && h.server != h.signal && h.server !in h.clients && h.signal !in h.clients
    && !IsWatchedFd(h, h.epoll)
    && forall fd: Fd | IsWatchedFd(h, fd) :: IsRawFd(fd)
  }

  ghost predicate Tracked(data: seq<Entry>, fd: Fd, action: Action) {
    exists e :: e in data && e.fd == fd && e.action == action && !e.executed
  }

  ghost predicate HandlesTracked(data: seq<Entry>, h: Handles) {
    && Tracked(data, h.epoll, Close)
    && Tracked(data, h.server, Close)
    && Tracked(data, h.signal, CloseUnlessSpawnSubspecies)
    && forall fd | fd in h.clients :: Tracked(data, fd, Close)
  }

  /** The interest list watches the server socket, the signalfd and the clients, each under
      its present description with its own tag, and nothing else. */
  ghost predicate InterestExact(k: Kernel, h: Handles) {
    && InterestOf(k, h.epoll).Some?
    && (forall fd: Fd | IsWatchedFd(h, fd) :: WatchedAs(k, h.epoll, fd, EpollData(fd, TagOf(h, fd))))
    && (forall w | w in InterestOf(k, h.epoll).value ::
          IsWatchedFd(h, w.fd) && w.fd in k.fds && w == WatchOf(k, w.fd))
  }

  ghost predicate WatchedAs(k: Kernel, epfd: Fd, fd: Fd, d: EpollData) {
    IsRawFd(d.fd) && IsWatched(k, epfd, fd) && InterestOf(k, epfd).value[WatchOf(k, fd)] == Encode(d)
  }

  /** A named socket no accept, recvmsg or sendmsg can block on. */
  ghost predicate ReadySocket(k: Kernel, fd: Fd, role: Role) {
    match DescAt(k, fd)
    case Some(Socket(r, local, _, nonblocking, _)) => r == role && local.Some? && nonblocking
    case _ => false
  }

  ghost predicate SocketsReady(k: Kernel, h: Handles) {
    && ReadySocket(k, h.server, Listening)
    && DescAt(k, h.signal) == Some(SignalQueue)
    && forall fd | fd in h.clients :: ReadySocket(k, fd, Accepted)
  }

  /** No two clients are numbers for one connection. */
  ghost predicate StreamsApart(k: Kernel, clients: seq<Fd>) {
    forall c, d | c in clients && d in clients && c in k.fds && d in k.fds && k.fds[c].id == k.fds[d].id :: c == d
  }

  ghost predicate TableSound(data: seq<Entry>) {
    Sorted(data) && |data| <= REGISTRY_SIZE && ReopensFiles(data)
  }

  datatype Aspect = Agreeing | Interested | KernelSound | Separate | SocketsUsable | StreamsSeparate | TableKept | Tracking

  ghost predicate Holds(a: Aspect, k: Kernel, data: seq<Entry>, h: Handles) {
    match a
    case Agreeing => Agree(data, k)
    case Interested => InterestExact(k, h)
    case KernelSound => WellFormed(k)
    case Separate => Apart(h)
    case SocketsUsable => SocketsReady(k, h)
    case StreamsSeparate => StreamsApart(k, h.clients)
    case TableKept => TableSound(data)
    case Tracking => HandlesTracked(data, h)
  }

  /** What holds whenever the server goes round its loop: every aspect of it. */
  ghost predicate Consistent(k: Kernel, data: seq<Entry>, h: Handles) {
    forall a :: Holds(a, k, data, h)
  }

  lemma Aspects(k: Kernel, data: seq<Entry>, h: Handles)
    ensures Consistent(k, data, h) <==>
              && WellFormed(k)
              && TableSound(data) && Agree(data, k)
              && Apart(h) && HandlesTracked(data, h)
              && InterestExact(k, h) && SocketsReady(k, h) && StreamsApart(k, h.clients)
  {
    assert Holds(KernelSound, k, data, h) <==> WellFormed(k);
    assert Holds(TableKept, k, data, h) <==> TableSound(data);
    assert Holds(Agreeing, k, data, h) <==> Agree(data, k);
    assert Holds(Separate, k, data, h) <==> Apart(h);
    assert Holds(Tracking, k, data, h) <==> HandlesTracked(data, h);
    assert Holds(Interested, k, data, h) <==> InterestExact(k, h);
    assert Holds(SocketsUsable, k, data, h) <==> SocketsReady(k, h);
    assert Holds(StreamsSeparate, k, data, h) <==> StreamsApart(k, h.clients);
  }

  // ---- Counting open descriptors ----

  ghost predicate AllBelow(n: nat, keys: set<Fd>) {
    forall m | 0 <= m < n :: m in keys
  }

  lemma {:induction false} InitialSegment(keys: set<Fd>, n: nat)
    requires AllBelow(n, keys)
    ensures n <= |keys|
    decreases n
  {
    if n > 0 {
      assert AllBelow(n - 1, keys - {n - 1});
      InitialSegment(keys - {n - 1}, n - 1);
    }
  }

  function FdSet(data: seq<Entry>): set<Fd> {
    if data == [] then {} else {data[0].fd} + FdSet(data[1..])
  }

  lemma {:induction false} FdSetSpec(data: seq<Entry>)
    ensures |FdSet(data)| <= |data|
    ensures forall e | e in data :: e.fd in FdSet(data)
  {
    if data != [] {
      FdSetSpec(data[1..]);
      assert data == [data[0]] + data[1..];
    }
  }

  /** An audited process has no more open descriptors than entries, so a new number is small. */
  lemma FreshNumberIsSmall(k: Kernel, data: seq<Entry>)
    requires Agree(data, k) && |data| <= REGISTRY_SIZE
    ensures LowestFree(k) <= |k.fds| <= |data| && IsRawFd(LowestFree(k))
  {
    InitialSegment(k.fds.Keys, LowestFree(k));
    FdSetSpec(data);
    forall fd | fd in k.fds ensures fd in FdSet(data) {
      var e :| e in data && e.fd == fd && !IsClosed(e);
    }
    SubsetSize(k.fds.Keys, FdSet(data));
  }

  // ---- Kernel steps that leave a process's own view alone ----

  /** Same numbers on descriptions that read the same. */
  ghost predicate LooksSame(k: Kernel, k': Kernel) {
    k'.fds == k.fds && forall fd :: DescAt(k', fd) == DescAt(k, fd)
  }

  lemma LooksSameKeeps(k: Kernel, k': Kernel, data: seq<Entry>, h: Handles)
    requires Consistent(k, data, h) && LooksSame(k, k') && WellFormed(k')
    ensures Consistent(k', data, h)
  {
    Aspects(k, data, h);
    forall e | e in data && !IsClosed(e) ensures Describes(k', e) {
      assert Describes(k, e);
    }
    forall fd: Fd | IsWatchedFd(h, fd) ensures WatchedAs(k', h.epoll, fd, EpollData(fd, TagOf(h, fd))) {
      assert WatchedAs(k, h.epoll, fd, EpollData(fd, TagOf(h, fd)));
    }
    Aspects(k', data, h);
  }

  /** A fork changes neither the parent's view nor the one the child starts with. */
  lemma ForkKeeps(k: Kernel, child: Pid, data: seq<Entry>, h: Handles)
    requires Consistent(k, data, h) && child != k.pid && child !in k.others
    ensures Consistent(ForkedParent(k, child), data, h)
    ensures Consistent(ForkedChild(k, child), data, h)
  {
    Aspects(k, data, h);
    assert WellFormed(ForkedParent(k, child)) && WellFormed(ForkedChild(k, child));
    LooksSameKeeps(k, ForkedParent(k, child), data, h);
    LooksSameKeeps(k, ForkedChild(k, child), data, h);
  }

  // ---- Registering a new number ----

  /** What a successful `register` did to the table. */
  ghost predicate RegisteredAs(data: seq<Entry>, data': seq<Entry>, e: Entry) {
    forall x :: x in data' <==> (x in data && x.fd != e.fd) || x == e
  }

  /** A new number joins the kernel's table; everything that was open reads as before. */
  ghost predicate Joined(k: Kernel, k': Kernel, fd: Fd) {
    && fd !in k.fds && k'.fds.Keys == k.fds.Keys + {fd}
    && forall x | x in k.fds :: k'.fds[x] == k.fds[x] && DescAt(k', x) == DescAt(k, x)
  }

  lemma AllocationJoins(k: Kernel, d: Description)
    requires WellFormed(k)
    ensures WellFormed(Allocated(k, d, false)) && Frame(k, Allocated(k, d, false))
    ensures Joined(k, Allocated(k, d, false), LowestFree(k))
    ensures DescAt(Allocated(k, d, false), LowestFree(k)) == Some(d)
  {
  }

  lemma RegisterKeepsAgreement(k: Kernel, k': Kernel, data: seq<Entry>, data': seq<Entry>, fd: Fd, action: Action)
    requires TableIn(k.fds, |k.descs|) && Agree(data, k) && Joined(k, k', fd) && CurrentInfo(k', fd).Some?
    requires RegisteredAs(data, data', NewEntry(fd, CurrentInfo(k', fd).value, action))
    ensures Agree(data', k')
    ensures !HasLive(data, fd)
  {
  }

  lemma RegisterKeepsTracked(data: seq<Entry>, data': seq<Entry>, e: Entry, fd: Fd, action: Action)
    requires RegisteredAs(data, data', e)
    requires Tracked(data, fd, action) && fd != e.fd
    ensures Tracked(data', fd, action)
  {
  }

  // ---- Watching a number ----

  /** Adding a watch changes the interest list of one description and nothing a registry sees. */
  lemma WatchingKeepsInfo(k: Kernel, epfd: Fd, fd: Fd, word: int)
    requires WellFormed(k) && CanWatch(k, epfd, fd)
    ensures var k' := Watched(k, epfd, fd, word);
            && WellFormed(k') && k'.fds == k.fds
            && (forall x :: CurrentInfo(k', x) == CurrentInfo(k, x))
            && (forall x :: InterestOf(k, x).None? ==> DescAt(k', x) == DescAt(k, x))
            && InterestOf(k', epfd) == Some(InterestOf(k, epfd).value[WatchOf(k, fd) := word])
  {
  }

  lemma SameInfoAgrees(k: Kernel, k': Kernel, data: seq<Entry>)
    requires Agree(data, k) && k'.fds == k.fds && forall x :: CurrentInfo(k', x) == CurrentInfo(k, x)
    ensures Agree(data, k')
  {
  }

  // ---- accept ----

  function WithClient(h: Handles, fd: Fd): Handles {
    h.(clients := h.clients + [fd])
  }

  /** A connection accepted, made non-blocking, registered and watched. */
  lemma AcceptKeeps(k: Kernel, k1: Kernel, data: seq<Entry>, data': seq<Entry>, h: Handles, fd: Fd)
    requires Consistent(k, data, h) && |h.clients| < MAX_CLIENTS
    requires WellFormed(k1) && Joined(k, k1, fd) && fd == LowestFree(k) && k1.fds[fd].id == |k.descs|
    requires ReadySocket(k1, fd, Accepted) && CurrentInfo(k1, fd).Some?
    requires TableSound(data') && RegisteredAs(data, data', NewEntry(fd, CurrentInfo(k1, fd).value, Close))
    ensures IsRawFd(fd) && CanWatch(k1, h.epoll, fd)
    ensures Consistent(Watched(k1, h.epoll, fd, Encode(EpollData(fd, EpollTag.Client))), data', WithClient(h, fd))
  {
    Aspects(k, data, h);
    AcceptRegistered(k, k1, data, data', h, fd);
    AcceptAgrees(k1, data', h, fd);
    AcceptInterest(k, k1, h, fd);
    AcceptStreams(k, k1, h, fd);
    Aspects(Watched(k1, h.epoll, fd, Encode(EpollData(fd, EpollTag.Client))), data', WithClient(h, fd));
  }

  lemma AcceptStreams(k: Kernel, k1: Kernel, h: Handles, fd: Fd)
    requires TableIn(k.fds, |k.descs|) && StreamsApart(k, h.clients) && (forall c | c in h.clients :: c in k.fds)
    requires Joined(k, k1, fd) && k1.fds[fd].id == |k.descs| && IsRawFd(fd) && CanWatch(k1, h.epoll, fd)
    ensures StreamsApart(Watched(k1, h.epoll, fd, Encode(EpollData(fd, EpollTag.Client))), WithClient(h, fd).clients)
  {
  }

  lemma AcceptRegistered(k: Kernel, k1: Kernel, data: seq<Entry>, data': seq<Entry>, h: Handles, fd: Fd)
    requires Consistent(k, data, h) && |h.clients| < MAX_CLIENTS
    requires Joined(k, k1, fd) && fd == LowestFree(k) && k1.fds[fd].id == |k.descs| && CurrentInfo(k1, fd).Some?
    requires RegisteredAs(data, data', NewEntry(fd, CurrentInfo(k1, fd).value, Close))
    ensures IsRawFd(fd) && CanWatch(k1, h.epoll, fd)
    ensures Agree(data', k1) && HandlesTracked(data', WithClient(h, fd)) && Apart(WithClient(h, fd))
    ensures forall c | c in h.clients :: c in k.fds
  {
    Aspects(k, data, h);
    forall c | c in h.clients ensures c in k.fds { TrackedIsOpen(k, data, c, Close); }
    FreshNumberIsSmall(k, data);
    NewNumberIsNoHandle(k, data, h, fd);
    RegisterKeepsAgreement(k, k1, data, data', fd, Close);
    AcceptCanWatch(k, k1, h, fd);
    AcceptTracked(k1, data, data', h, fd);
    AcceptApart(h, fd);
  }

  lemma AcceptApart(h: Handles, fd: Fd)
    requires Apart(h) && |h.clients| < MAX_CLIENTS && fd != h.epoll && !IsWatchedFd(h, fd) && IsRawFd(fd)
    ensures Apart(WithClient(h, fd))
  {
  }

  lemma AcceptAgrees(k1: Kernel, data': seq<Entry>, h: Handles, fd: Fd)
    requires WellFormed(k1) && Agree(data', k1) && IsRawFd(fd) && CanWatch(k1, h.epoll, fd)
    ensures var k2 := Watched(k1, h.epoll, fd, Encode(EpollData(fd, EpollTag.Client)));
            WellFormed(k2) && Agree(data', k2)
  {
  }

  lemma NewNumberIsNoHandle(k: Kernel, data: seq<Entry>, h: Handles, fd: Fd)
    requires Agree(data, k) && HandlesTracked(data, h) && fd !in k.fds
    ensures fd != h.epoll && !IsWatchedFd(h, fd)
  {
  }

  lemma TrackedIsOpen(k: Kernel, data: seq<Entry>, fd: Fd, action: Action)
    requires Agree(data, k) && Tracked(data, fd, action)
    ensures fd in k.fds && HasLive(data, fd)
  {
  }

  lemma AcceptCanWatch(k: Kernel, k1: Kernel, h: Handles, fd: Fd)
    requires WellFormed(k) && Apart(h) && InterestExact(k, h) && Joined(k, k1, fd) && k1.fds[fd].id == |k.descs|
    ensures CanWatch(k1, h.epoll, fd)
  {
  }

  lemma AcceptTracked(k1: Kernel, data: seq<Entry>, data': seq<Entry>, h: Handles, fd: Fd)
    requires HandlesTracked(data, h) && fd != h.epoll && !IsWatchedFd(h, fd) && CurrentInfo(k1, fd).Some?
    requires RegisteredAs(data, data', NewEntry(fd, CurrentInfo(k1, fd).value, Close))
    ensures HandlesTracked(data', WithClient(h, fd))
  {
  }

  lemma AcceptInterest(k: Kernel, k1: Kernel, h: Handles, fd: Fd)
    requires WellFormed(k) && WellFormed(k1) && Apart(h) && InterestExact(k, h) && SocketsReady(k, h)
    requires Joined(k, k1, fd) && k1.fds[fd].id == |k.descs|
    requires ReadySocket(k1, fd, Accepted) && IsRawFd(fd)
    requires CanWatch(k1, h.epoll, fd) && Apart(WithClient(h, fd))
    ensures var k2 := Watched(k1, h.epoll, fd, Encode(EpollData(fd, EpollTag.Client)));
            InterestExact(k2, WithClient(h, fd)) && SocketsReady(k2, WithClient(h, fd))
  {
    var word := Encode(EpollData(fd, EpollTag.Client));
    var k2, h' := Watched(k1, h.epoll, fd, word), WithClient(h, fd);
    WatchingKeepsInfo(k1, h.epoll, fd, word);
    forall x: Fd | IsWatchedFd(h', x) ensures WatchedAs(k2, h.epoll, x, EpollData(x, TagOf(h', x))) {
      if x != fd { AcceptWatches(k, k1, k2, h, fd, word, x); }
    }
    AcceptSockets(k, k1, k2, h, fd);
  }

  lemma AcceptWatches(k: Kernel, k1: Kernel, k2: Kernel, h: Handles, fd: Fd, word: int, x: Fd)
    requires Joined(k, k1, fd) && InterestExact(k, h) && x != fd && IsWatchedFd(WithClient(h, fd), x)
    requires CanWatch(k1, h.epoll, fd) && k2.fds == k1.fds && k1.fds[fd].id == |k.descs| && TableIn(k.fds, |k.descs|)
    requires InterestOf(k2, h.epoll) == Some(InterestOf(k1, h.epoll).value[WatchOf(k1, fd) := word])
    ensures WatchedAs(k2, h.epoll, x, EpollData(x, TagOf(WithClient(h, fd), x)))
  {
    assert IsWatchedFd(h, x) && TagOf(WithClient(h, fd), x) == TagOf(h, x);
    assert WatchedAs(k, h.epoll, x, EpollData(x, TagOf(h, x)));
  }

  lemma AcceptSockets(k: Kernel, k1: Kernel, k2: Kernel, h: Handles, fd: Fd)
    requires Joined(k, k1, fd) && SocketsReady(k, h) && ReadySocket(k1, fd, Accepted)
    requires forall x :: InterestOf(k1, x).None? ==> DescAt(k2, x) == DescAt(k1, x)
    ensures SocketsReady(k2, WithClient(h, fd))
  {
  }

  // ---- remove_client_socket ----

  function WithoutClient(h: Handles, i: nat): Handles
    requires i < |h.clients|
  {
    h.(clients := h.clients[..i] + h.clients[i + 1..])
  }

  lemma WithoutClientMembers(h: Handles, i: nat)
    requires Apart(h) && i < |h.clients|
    ensures Apart(WithoutClient(h, i))
    ensures forall fd :: fd in WithoutClient(h, i).clients <==> fd in h.clients && fd != h.clients[i]
  {
  }

  /** A client unregistered, unwatched, forgotten and closed. */
  lemma RemoveKeeps(k: Kernel, data: seq<Entry>, data': seq<Entry>, h: Handles, i: nat)
    requires Consistent(k, data, h) && i < |h.clients|
    requires Sorted(data') && |data'| <= |data|
    requires forall e :: e in data' <==> e in data && e.fd != h.clients[i]
    ensures IsWatched(k, h.epoll, h.clients[i]) && HasEntry(data, h.clients[i])
    ensures Consistent(Closed(Unwatched(k, h.epoll, h.clients[i]), h.clients[i]), data', WithoutClient(h, i))
  {
    ClientIsWatched(k, data, h, i);
    var fd := h.clients[i];
    RemoveKeepsTable(k, data, data', h, i);
    RemoveKeepsWatches(k, data, h, i);
    Aspects(Closed(Unwatched(k, h.epoll, fd), fd), data', WithoutClient(h, i));
  }

  lemma RemoveKeepsTable(k: Kernel, data: seq<Entry>, data': seq<Entry>, h: Handles, i: nat)
    requires Consistent(k, data, h) && i < |h.clients| && IsWatched(k, h.epoll, h.clients[i])
    requires Sorted(data') && |data'| <= |data|
    requires forall e :: e in data' <==> e in data && e.fd != h.clients[i]
    ensures TableSound(data') && HandlesTracked(data', WithoutClient(h, i))
    ensures Agree(data', Closed(Unwatched(k, h.epoll, h.clients[i]), h.clients[i]))
  {
    Aspects(k, data, h);
    UnwatchingKeepsInfo(k, h.epoll, h.clients[i]);
    RemoveAgrees(k, Unwatched(k, h.epoll, h.clients[i]), data, data', h.clients[i]);
    RemoveTracked(data, data', h, i);
  }

  lemma RemoveKeepsWatches(k: Kernel, data: seq<Entry>, h: Handles, i: nat)
    requires Consistent(k, data, h) && i < |h.clients| && IsWatched(k, h.epoll, h.clients[i])
    ensures Apart(WithoutClient(h, i))
    ensures var k2 := Closed(Unwatched(k, h.epoll, h.clients[i]), h.clients[i]);
            && WellFormed(k2) && InterestExact(k2, WithoutClient(h, i)) && SocketsReady(k2, WithoutClient(h, i))
            && StreamsApart(k2, WithoutClient(h, i).clients)
  {
    Aspects(k, data, h);
    WithoutClientMembers(h, i);
    RemoveInterest(k, h, i);
  }

  lemma ClientIsWatched(k: Kernel, data: seq<Entry>, h: Handles, i: nat)
    requires Consistent(k, data, h) && i < |h.clients|
    ensures IsWatched(k, h.epoll, h.clients[i]) && HasEntry(data, h.clients[i]) && h.clients[i] in k.fds
  {
    Aspects(k, data, h);
    var fd := h.clients[i];
    assert IsWatchedFd(h, fd) && WatchedAs(k, h.epoll, fd, EpollData(fd, TagOf(h, fd)));
    TrackedIsOpen(k, data, fd, Close);
  }

  lemma UnwatchingKeepsInfo(k: Kernel, epfd: Fd, fd: Fd)
    requires WellFormed(k) && IsWatched(k, epfd, fd)
    ensures var k' := Unwatched(k, epfd, fd);
            && WellFormed(k') && k'.fds == k.fds
            && (forall x :: CurrentInfo(k', x) == CurrentInfo(k, x))
            && (forall x :: InterestOf(k, x).None? ==> DescAt(k', x) == DescAt(k, x))
            && InterestOf(k', epfd) == Some(InterestOf(k, epfd).value - {WatchOf(k, fd)})
  {
  }

  lemma RemoveAgrees(k: Kernel, k1: Kernel, data: seq<Entry>, data': seq<Entry>, fd: Fd)
    requires Agree(data, k) && k1.fds == k.fds && forall x :: CurrentInfo(k1, x) == CurrentInfo(k, x)
    requires forall e :: e in data' <==> e in data && e.fd != fd
    ensures Agree(data', Closed(k1, fd))
  {
  }

  lemma RemoveTracked(data: seq<Entry>, data': seq<Entry>, h: Handles, i: nat)
    requires Apart(h) && HandlesTracked(data, h) && i < |h.clients|
    requires forall e :: e in data' <==> e in data && e.fd != h.clients[i]
    ensures HandlesTracked(data', WithoutClient(h, i))
  {
    WithoutClientMembers(h, i);
    forall fd, action | fd != h.clients[i] && Tracked(data, fd, action) ensures Tracked(data', fd, action) {
      var e :| e in data && e.fd == fd && e.action == action && !e.executed;
      assert e in data';
    }
    assert IsWatchedFd(h, h.clients[i]);
  }

  lemma RemoveInterest(k: Kernel, h: Handles, i: nat)
    requires WellFormed(k) && Apart(h) && i < |h.clients| && InterestExact(k, h) && SocketsReady(k, h)
    requires IsWatched(k, h.epoll, h.clients[i]) && Apart(WithoutClient(h, i))
    ensures var k2 := Closed(Unwatched(k, h.epoll, h.clients[i]), h.clients[i]);
            WellFormed(k2) && InterestExact(k2, WithoutClient(h, i)) && SocketsReady(k2, WithoutClient(h, i))
  {
    var fd := h.clients[i];
    var k1, h' := Unwatched(k, h.epoll, fd), WithoutClient(h, i);
    var k2 := Closed(k1, fd);
    UnwatchingKeepsInfo(k, h.epoll, fd);
    WithoutClientMembers(h, i);
    assert IsWatchedFd(h, fd);
    assert fd != h.epoll;
    ClosingKeepsOthers(k1, fd);
    forall x: Fd | IsWatchedFd(h', x) ensures WatchedAs(k2, h.epoll, x, EpollData(x, TagOf(h', x))) {
      assert IsWatchedFd(h, x) && x != fd && TagOf(h', x) == TagOf(h, x);
      assert WatchedAs(k, h.epoll, x, EpollData(x, TagOf(h, x)));
    }
    assert IsWatchedFd(h, h.server) && IsWatchedFd(h, h.signal);
    assert InterestExact(k2, h');
    forall c | c in h'.clients ensures ReadySocket(k2, c, Accepted) {
      assert ReadySocket(k, c, Accepted);
    }
  }

  lemma ClosingKeepsOthers(k: Kernel, fd: Fd)
    requires WellFormed(k)
    ensures WellFormed(Closed(k, fd))
    ensures forall x | x != fd :: DescAt(Closed(k, fd), x) == DescAt(k, x)
    ensures forall x | x != fd :: InterestOf(Closed(k, fd), x) == InterestOf(k, x)
  {
  }

  // ---- One epoll batch ----

  ghost predicate StillWatched(k: Kernel, h: Handles, w: Watch) {
    IsWatchedFd(h, w.fd) && w.fd in k.fds && w == WatchOf(k, w.fd)
  }

  /** The event names the descriptor and class its watch was added with; only a client hangs up. */
  ghost predicate EventTells(h: Handles, e: Event, w: Watch) {
    && 0 <= e.data < TWO_64
    && Decode(e.data) == Some(EpollData(w.fd, TagOf(h, w.fd)))
    && (e.hangup ==> TagOf(h, w.fd).Client?)
  }

  lemma BatchDecodes(k: Kernel, data: seq<Entry>, h: Handles, events: seq<Event>, watches: seq<Watch>)
    requires Consistent(k, data, h) && InterestOf(k, h.epoll).Some?
    requires IsBatch(k, InterestOf(k, h.epoll).value, events, watches, MAX_EVENTS)
    ensures forall i | 0 <= i < |events| :: StillWatched(k, h, watches[i]) && EventTells(h, events[i], watches[i])
  {
    Aspects(k, data, h);
    forall i | 0 <= i < |events| ensures StillWatched(k, h, watches[i]) && EventTells(h, events[i], watches[i]) {
      var w := watches[i];
      EventDecodes(k, h, events[i], w);
    }
  }

  lemma EventDecodes(k: Kernel, h: Handles, e: Event, w: Watch)
    requires Apart(h) && InterestExact(k, h) && SocketsReady(k, h)
    requires w in InterestOf(k, h.epoll).value && e.data == InterestOf(k, h.epoll).value[w]
    requires e.hangup ==> w.id < |k.descs| && HangsUp(k.descs[w.id])
    ensures StillWatched(k, h, w) && EventTells(h, e, w)
  {
    assert WatchedAs(k, h.epoll, w.fd, EpollData(w.fd, TagOf(h, w.fd)));
    RoundTrip(EpollData(w.fd, TagOf(h, w.fd)));
  }
}
