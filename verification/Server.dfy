/** The process server: accepting, serving, spawning, re-initialising, reaping, shutting down. */
module ZygoteServer {
  import opened Results
  import opened Kernel
  import opened FileDescriptors
  import opened ForkEffects
  import opened Os
  import opened Registry
  import opened EpollData
  import opened ServerSocket
  import opened SpawnParams
  import opened Packets
  import opened Traffic
  import opened Reaper
  import opened ServerState
  import opened ServerLife
  import opened ServerSteps

  class Server {
    const os: Os
    const registry: FileDescriptorRegistry
    const net: Network
    const kids: Children
    const reports: Reports
    const who: Identity
    const spawnParams: SpawnParamsCommon
    /** The files species code opens while a subspecies child re-initialises. */
    const opens: seq<string>
    var pid: Pid
    var epollHandle: Fd
    var serverSocket: Fd
    var signalFd: Fd
    var clientSockets: seq<Fd>

    constructor (registry: FileDescriptorRegistry, net: Network, kids: Children, reports: Reports,
                 who: Identity, spawnParams: SpawnParamsCommon, opens: seq<string>, h: Handles, pid: Pid)
      ensures this.registry == registry && os == registry.os && this.net == net && this.kids == kids
      ensures this.reports == reports && this.who == who && this.spawnParams == spawnParams
      ensures View() == h && this.pid == pid && this.opens == opens
    {
      this.os, this.registry, this.net, this.kids, this.reports := registry.os, registry, net, kids, reports;
      this.who, this.spawnParams, this.opens := who, spawnParams, opens;
      epollHandle, serverSocket, signalFd, clientSockets := h.epoll, h.server, h.signal, h.clients;
      this.pid := pid;
    }

    /** Start-up: the standard streams, an epoll instance, a server socket and a signalfd,
        registered and watched, then everything else the process has open, then an audit.
        Without unexplained failures, and unless the table overflows, it succeeds if and only
        if the process is `Launchable`. */
    static method Launch(os: Os, policy: Policy, net: Network, kids: Children, reports: Reports, who: Identity,
                         spawnParams: SpawnParamsCommon, opens: seq<string>, socket: SocketArg)
      returns (r: Outcome<Server, ServerError>)
      requires WellFormed(os.k) && |os.k.fds| < MAX_OPEN - 2 && (socket.GivenFd? ==> IsRawFd(socket.fd))
      requires NoPeerReopen(policy)
      requires kids.Valid() && Reported(reports.log, kids.reaped) && NoneLost(kids.f) && Present(kids.f) == {}
      modifies os
      ensures os.faults >= old(os.faults)
      ensures r.Ok? ==>
                && fresh(r.value) && fresh(r.value.registry) && r.value.os == os && r.value.net == net
                  && r.value.kids == kids
                && r.value.Valid() && NoneExecuted(r.value.registry.data) && r.value.clientSockets == []
      ensures r.Ok? ==>
                && r.value.who == who && r.value.spawnParams == spawnParams && r.value.opens == opens
                && r.value.reports == reports && r.value.registry.policy == policy
      ensures r.Ok? ==> ListensAs(os.k, r.value.serverSocket, socket)
      ensures r.Ok? ==>
          forall e | e in r.value.registry.data && e.fd !in STDIO + OwnHandles(r.value.View()) ::
            AddedAs(policy, e.info, e.action)
      ensures r.Ok? && UnusedFrom(net.Mailbox(), 0) ==> r.value.AllAnswered()
      ensures os.faults == old(os.faults) && !r.Panic? ==> (r.Ok? <==> Launchable(old(os.k), socket, policy))
    {
      var prepared := Prepare(os, policy, socket);
      match prepared {
        case Panic => return Panic;
        case Err(error) => return Err(error);
        case Ok((registry, h)) =>
          var launched := new Server(registry, net, kids, reports, who, spawnParams, opens, h, os.k.pid);
          return Ok(launched);
      }
    }

    /** Start-up as far as the audit: the registry and the handles of the server to be. */
    static method Prepare(os: Os, policy: Policy, socket: SocketArg)
      returns (r: Outcome<(FileDescriptorRegistry, Handles), ServerError>)
      requires WellFormed(os.k) && |os.k.fds| < MAX_OPEN - 2 && (socket.GivenFd? ==> IsRawFd(socket.fd))
      requires NoPeerReopen(policy)
      modifies os
      ensures os.faults >= old(os.faults)
      ensures r.Ok? ==>
                && fresh(r.value.0) && r.value.0.os == os && r.value.0.policy == policy
                && Consistent(os.k, r.value.0.data, r.value.1) && NoneExecuted(r.value.0.data) && r.value.1.clients == []
      ensures r.Ok? ==> ListensAs(os.k, r.value.1.server, socket)
      ensures r.Ok? ==>
          forall e | e in r.value.0.data && e.fd !in STDIO + OwnHandles(r.value.1) :: AddedAs(policy, e.info, e.action)
      ensures os.faults == old(os.faults) && !r.Panic? ==> (r.Ok? <==> Launchable(old(os.k), socket, policy))
    {
      ghost var k0 := os.k;
      var made := FileDescriptorRegistry.New(os, policy);
      if !made.Ok? { return Err(FdRegistryFailure(made.error)); }
      var registry := made.value;
      StandardStreamsRecorded(k0, registry.data);
      var handles := OpenHandles(registry, socket);
      if !handles.Ok? { return Err(handles.error); }
      var h := handles.value;
      var complete := RegisterTheRest(registry, h, k0, STDIO + OwnHandles(h));
      LaunchableRest(k0, socket, policy, h);
      if !complete.Ok? { return if complete.Panic? then Panic else Err(complete.error); }
      return Ok((registry, h));
    }

    /** The three descriptors every server has, none of them open before but a given socket. */
    static method OpenHandles(registry: FileDescriptorRegistry, socket: SocketArg) returns (r: Outcome<Handles, ServerError>)
      requires registry.Valid() && |registry.data| == 3 && Quiet(registry.data) && WellFormed(registry.os.k)
      requires Recorded(registry.os.k, registry.os.k, registry.data, STDIO)
      requires |registry.os.k.fds| < MAX_OPEN - 2 && (socket.GivenFd? ==> IsRawFd(socket.fd))
      modifies registry`data, registry.os
      ensures registry.os.faults >= old(registry.os.faults) && !r.Panic?
      ensures r.Ok? ==>
                && HandlesOpened(registry.os.k, registry.data, r.value) && r.value.clients == []
                && Recorded(old(registry.os.k), registry.os.k, registry.data,
                            STDIO + {r.value.epoll, r.value.server, r.value.signal})
                && OwnNumbers(old(registry.os.k), socket, r.value)
      ensures r.Ok? ==> ListensAs(registry.os.k, r.value.server, socket)
      ensures registry.os.faults == old(registry.os.faults) ==> (r.Ok? <==> SocketAvailable(old(registry.os.k), socket))
    {
      ghost var k0 := registry.os.k;
      var listening := OpenListener(registry, socket);
      if !listening.Ok? { return Err(listening.error); }
      var (epoll, server) := listening.value;
      var signalling := OpenSignals(registry, epoll, server, k0, STDIO + {epoll} + {server});
      if !signalling.Ok? { return Err(signalling.error); }
      assert STDIO + {epoll} + {server} + {signalling.value} == STDIO + {epoll, server, signalling.value};
      return Ok(Handles(epoll, server, signalling.value, []));
    }

    /** Completes a table that records `own` with everything else that was open in `k0`. */
    static method RegisterTheRest(registry: FileDescriptorRegistry, ghost h: Handles, ghost k0: Kernel, ghost own: set<Fd>)
      returns (r: Outcome<(), ServerError>)
      requires HandlesOpened(registry.os.k, registry.data, h) && NoPeerReopen(registry.policy)
      requires Recorded(k0, registry.os.k, registry.data, own)
      modifies registry`data, registry.os`faults
      ensures registry.os.faults >= old(registry.os.faults)
      ensures r.Ok? ==> Consistent(registry.os.k, registry.data, h) && NoneExecuted(registry.data)
      ensures r.Ok? ==> forall e | e in registry.data && e.fd !in own :: AddedAs(registry.policy, e.info, e.action)
      ensures registry.os.faults == old(registry.os.faults) && !r.Panic? ==>
          (r.Ok? <==> RestAllowed(k0, registry.policy, own))
    {
      ghost var k, data := registry.os.k, registry.data;
      HandlesMean(k, data, h);
      if RestAllowed(k0, registry.policy, own) { RestCanBeRegistered(k0, k, data, own, registry.policy); }
      var registered := registry.RegisterNew();
      if !registered.Ok? { return if registered.Panic? then Panic else Err(FdRegistryFailure(registered.error)); }
      RecordedAgrees(k0, k, data, registry.data, own);
      RegisteredWereAllowed(k0, k, data, registry.data, own, registry.policy);
      var audited := registry.Audit();
      match audited {
        case Panic => return Panic;
        case Err(error) => return Err(FdRegistryFailure(AuditFailure(error)));
        case Ok(_) =>
          LaunchCompletes(k, data, registry.data, h);
          return Ok(());
      }
    }

    /** The epoll instance, and the server socket as its first watch. */
    static method OpenListener(registry: FileDescriptorRegistry, socket: SocketArg)
      returns (r: Outcome<(Fd, Fd), ServerError>)
      requires registry.Valid() && |registry.data| == 3 && Quiet(registry.data) && WellFormed(registry.os.k)
      requires Recorded(registry.os.k, registry.os.k, registry.data, STDIO)
      requires |registry.os.k.fds| < MAX_OPEN - 2 && (socket.GivenFd? ==> IsRawFd(socket.fd))
      modifies registry`data, registry.os
      ensures registry.os.faults >= old(registry.os.faults) && !r.Panic?
      ensures r.Ok? ==>
                && Started(registry.os.k, registry.data, r.value.0, r.value.1)
                && WatchesServer(registry.os.k, r.value.0, r.value.1)
                && |registry.os.k.fds| <= |old(registry.os.k).fds| + 2
                && Recorded(old(registry.os.k), registry.os.k, registry.data, STDIO + {r.value.0} + {r.value.1})
                && r.value.0 !in old(registry.os.k).fds && IsGivenOrNew(old(registry.os.k), socket, r.value.1)
      ensures r.Ok? ==> ListensAs(registry.os.k, r.value.1, socket)
      ensures registry.os.faults == old(registry.os.faults) ==> (r.Ok? <==> SocketAvailable(old(registry.os.k), socket))
    {
      ghost var k := registry.os.k;
      var created := OpenPoll(registry);
      if !created.Ok? { return Err(created.error); }
      var epoll := created.value;
      AvailableStill(k, EpollInstance(map[]), socket);
      var listening := AddListener(registry, epoll, socket, k);
      if !listening.Ok? { return Err(listening.error); }
      var ok := WatchListener(registry, epoll, listening.value, k, STDIO + {epoll} + {listening.value});
      if !ok { return Err(PollFailure); }
      return Ok((epoll, listening.value));
    }

    /** Registers a number start-up has just obtained; it takes any that is not registered. */
    static method Enter(registry: FileDescriptorRegistry, fd: Fd, action: Action, ghost info: Info,
                        ghost k0: Kernel, ghost k: Kernel, ghost own: set<Fd>)
      returns (r: Outcome<(), ServerError>)
      requires registry.Valid() && |registry.data| < 6 && !action.Reopen? && Quiet(registry.data)
      requires Recorded(k0, k, registry.data, own) && Extends(k, registry.os.k, fd)
          && CurrentInfo(registry.os.k, fd) == Some(info)
      modifies registry`data, registry.os`faults
      ensures registry.os.faults >= old(registry.os.faults) && !r.Panic?
      ensures r.Ok? ==>
                && registry.Valid() && |registry.data| <= |old(registry.data)| + 1 && Quiet(registry.data)
                && RegisteredAs(old(registry.data), registry.data, NewEntry(fd, info, action))
                && Recorded(k0, registry.os.k, registry.data, own + {fd})
      ensures registry.os.faults == old(registry.os.faults) ==> (r.Ok? <==> fd !in own)
      ensures r.Ok? ==> registry.os.faults == old(registry.os.faults)
    {
      ghost var data := registry.data;
      OwnIsLive(k0, k, data, own, fd);
      var registered := registry.Register(fd, action);
      if !registered.Ok? { return Err(FdRegistryFailure(registered.error)); }
      RecordedMore(k0, k, registry.os.k, data, registry.data, own, NewEntry(fd, info, action));
      return Ok(());
    }

    static method OpenPoll(registry: FileDescriptorRegistry) returns (r: Outcome<Fd, ServerError>)
      requires registry.Valid() && |registry.data| == 3 && Quiet(registry.data) && WellFormed(registry.os.k)
      requires Recorded(registry.os.k, registry.os.k, registry.data, STDIO)
      modifies registry`data, registry.os
      ensures registry.os.faults >= old(registry.os.faults) && !r.Panic?
      ensures r.Ok? ==>
                && r.value == LowestFree(old(registry.os.k))
                && registry.os.k == Allocated(old(registry.os.k), EpollInstance(map[]), false) && WellFormed(registry.os.k)
                && InterestOf(registry.os.k, r.value) == Some(map[])
                && |registry.os.k.fds| == |old(registry.os.k).fds| + 1
                && registry.Valid() && |registry.data| <= 4 && Tracked(registry.data, r.value, Close) && Quiet(registry.data)
                && Recorded(old(registry.os.k), registry.os.k, registry.data, STDIO + {r.value})
      ensures registry.os.faults == old(registry.os.faults) ==> r.Ok?
    {
      var os := registry.os;
      ghost var k, data := os.k, registry.data;
      NewIsNotRecorded(k, k, data, STDIO, LowestFree(k));
      var created := os.EpollCreate();
      if created.None? { return Err(PollFailure); }
      var epoll := created.value;
      AllocationJoins(k, EpollInstance(map[]));
      AllocationCounts(k, EpollInstance(map[]));
      AllocationExtends(k, EpollInstance(map[]));
      FreshPollInfo(k);
      var entered := Enter(registry, epoll, Close, EpollFd, k, k, STDIO);
      if !entered.Ok? { return Err(entered.error); }
      RegisteredIsTracked(data, registry.data, NewEntry(epoll, EpollFd, Close));
      return Ok(epoll);
    }

    static method AddListener(registry: FileDescriptorRegistry, epoll: Fd, socket: SocketArg, ghost k0: Kernel)
      returns (r: Outcome<Fd, ServerError>)
      requires WellFormed(registry.os.k) && InterestOf(registry.os.k, epoll) == Some(map[]) && epoll in registry.os.k.fds
      requires Sorted(registry.data) && |registry.data| <= 4 && Tracked(registry.data, epoll, Close) && Quiet(registry.data)
      requires |registry.os.k.fds| < MAX_OPEN - 1 && (socket.GivenFd? ==> IsRawFd(socket.fd))
      requires Recorded(k0, registry.os.k, registry.data, STDIO + {epoll})
      modifies registry`data, registry.os
      ensures registry.os.faults >= old(registry.os.faults) && !r.Panic?
      ensures r.Ok? ==>
                && Started(registry.os.k, registry.data, epoll, r.value) && InterestOf(registry.os.k, epoll) == Some(map[])
                && |registry.os.k.fds| <= |old(registry.os.k).fds| + 1
                && Recorded(k0, registry.os.k, registry.data, STDIO + {epoll} + {r.value})
                && IsGivenOrNew(old(registry.os.k), socket, r.value)
      ensures r.Ok? ==> ListensAs(registry.os.k, r.value, socket)
      ensures registry.os.faults == old(registry.os.faults) ==> (r.Ok? <==> SocketAvailable(old(registry.os.k), socket))
    {
      var os := registry.os;
      ghost var k, data := os.k, registry.data;
      var listening := GetServerSocket(os, socket);
      RefusalIs(socket, k);
      if !listening.Ok? { return Err(ServerSocketFailure(listening.error)); }
      var server := listening.value;
      ServerSocketReady(k, os.k, epoll, socket, server);
      SocketIsRegisterable(k0, k, data, epoll, socket, server);
      ghost var info := CurrentInfo(os.k, server).value;
      var entered := Enter(registry, server, Close, info, k0, k, STDIO + {epoll});
      if !entered.Ok? { return Err(entered.error); }
      ServerRegistered(os.k, data, registry.data, epoll, server, info);
      return Ok(server);
    }

    /** Watches the server socket, the instance's first. */
    static method WatchListener(registry: FileDescriptorRegistry, epoll: Fd, server: Fd, ghost k0: Kernel,
                                ghost own: set<Fd>)
      returns (ok: bool)
      requires Started(registry.os.k, registry.data, epoll, server) && InterestOf(registry.os.k, epoll) == Some(map[])
      requires Recorded(k0, registry.os.k, registry.data, own)
      modifies registry.os
      ensures registry.os.faults >= old(registry.os.faults) && (ok <==> registry.os.faults == old(registry.os.faults))
      ensures ok ==>
                && Started(registry.os.k, registry.data, epoll, server) && WatchesServer(registry.os.k, epoll, server)
                && registry.os.k.fds == old(registry.os.k).fds && Recorded(k0, registry.os.k, registry.data, own)
                && CurrentInfo(registry.os.k, server) == CurrentInfo(old(registry.os.k), server)
    {
      var os := registry.os;
      ghost var k := os.k;
      StartedMeans(k, registry.data, epoll, server);
      ListenerWatched(k, registry.data, epoll, server);
      WatchingKeepsInfo(k, epoll, server, ServerData(server));
      RecordedSame(k0, k, Watched(k, epoll, server, ServerData(server)), registry.data, own);
      ok := os.EpollAdd(epoll, server, Encode(EpollData(server, EpollTag.Server)));
    }

    /** The signalfd, watched beside the server socket. */
    static method OpenSignals(registry: FileDescriptorRegistry, epoll: Fd, server: Fd, ghost k0: Kernel, ghost own: set<Fd>)
      returns (r: Outcome<Fd, ServerError>)
      requires Started(registry.os.k, registry.data, epoll, server) && WatchesServer(registry.os.k, epoll, server)
      requires Recorded(k0, registry.os.k, registry.data, own) && |registry.os.k.fds| <= MAX_OPEN
      modifies registry`data, registry.os
      ensures registry.os.faults >= old(registry.os.faults) && !r.Panic?
      ensures r.Ok? ==>
                && HandlesOpened(registry.os.k, registry.data, Handles(epoll, server, r.value, []))
                && Recorded(k0, registry.os.k, registry.data, own + {r.value}) && r.value !in k0.fds
                && CurrentInfo(registry.os.k, server) == CurrentInfo(old(registry.os.k), server)
      ensures registry.os.faults == old(registry.os.faults) ==> r.Ok?
    {
      var os := registry.os;
      ghost var k, data := os.k, registry.data;
      StartedMeans(k, data, epoll, server);
      FreshNumberFits(k);
      NewIsNotRecorded(k0, k, data, own, LowestFree(k));
      var created := os.SignalFdCreate();
      if created.None? { return Err(SignalFdFailure); }
      var signal := created.value;
      AllocationExtends(k, SignalQueue);
      FreshSignalsInfo(k);
      ghost var k1 := os.k;
      var entered := Enter(registry, signal, CloseUnlessSpawnSubspecies, FileDescriptors.SignalFd, k0, k, own);
      if !entered.Ok? { return Err(entered.error); }
      SignalsWatched(k, data, registry.data, epoll, server);
      WatchingKeepsInfo(k1, epoll, signal, SignalData(signal));
      RecordedSame(k0, k1, Watched(k1, epoll, signal, SignalData(signal)), registry.data, own + {signal});
      var ok := os.EpollAdd(epoll, signal, Encode(EpollData(signal, EpollTag.Signal)));
      if !ok { return Err(PollFailure); }
      return Ok(signal);
    }

    ghost function View(): Handles
      reads this
    {
      Handles(epollHandle, serverSocket, signalFd, clientSockets)
    }

    ghost function Now(): Snapshot
      reads this, os`k, os`faults, registry`data, kids`f, kids`births, kids`faults, reports, net`connections, net`faults
    {
      Snapshot(os.k, registry.data, View(), pid, kids.f, reports.log, net.connections, kids.births,
               os.faults + net.faults + kids.faults)
    }

    /** The server's views agree. */
    ghost predicate Serving(k: Kernel)
      reads this, registry`data
    {
      && registry.os == os && NoPeerReopen(registry.policy)
      && Consistent(k, registry.data, View())
      && pid == k.pid
    }

    /** Children are accounted for, and none that terminated goes unannounced. */
    ghost predicate FamilySound()
      reads kids, reports
    {
      kids.Valid() && Reported(reports.log, kids.reaped) && NoneLost(kids.f)
    }

    /** What holds whenever `serve` goes round its loop. */
    ghost predicate Valid()
      reads this, os`k, registry`data, kids, reports
    {
      Serving(os.k) && FamilySound() && ChildrenExist(os.k, kids.f)
    }

    // ---- Clients coming and going ----

    /** Accepts until the backlog is empty. */
    method HandleServerEvents() returns (r: Outcome<Control, SocketError>)
      requires Serving(os.k)
      modifies this`clientSockets, registry`data, os, net`connections, net`stalls
      ensures os.faults >= old(os.faults) && os.k.pid == old(os.k).pid
      ensures r.Ok? ==> r.value == PollContinue && os.faults == old(os.faults)
      ensures r.Ok? || r == Err(TooManyClients) ==> OwnInstanceOnly(old(os.k), os.k, epollHandle)
      ensures r.Ok? ==> SaysDry(old(net.Mailbox()), net.Mailbox(), BacklogDry(net.connections))
      ensures old(net.stalls) <= net.stalls
      ensures r.Ok? || r == Err(TooManyClients) ==>
                && Serving(os.k) && os.k.others == old(os.k.others) && Kept(old(os.k), os.k)
                && old(clientSockets) <= clientSockets
                && SlotsKept(old(registry.data), old(clientSockets), registry.data, clientSockets)
      ensures r.Ok? || r == Err(TooManyClients) ==> NewStreams(old(os.k), os.k, old(clientSockets), clientSockets)
      ensures r == Err(TooManyClients) ==> |clientSockets| == MAX_CLIENTS && net.connections < old(net.connections)
      ensures r.Err? && r != Err(TooManyClients) ==> os.faults > old(os.faults)
      ensures r.Panic? ==> |registry.data| == REGISTRY_SIZE
      ensures r.Panic? ==> Overhead(old(registry.data), old(clientSockets)) + MAX_CLIENTS > REGISTRY_SIZE
    {
      EpollIsOpen(os.k, registry.data, View());
      while true
        invariant Serving(os.k) && os.k.others == old(os.k.others) && os.k.pid == old(os.k).pid
        invariant old(clientSockets) <= clientSockets
        invariant SlotsKept(old(registry.data), old(clientSockets), registry.data, clientSockets)
        invariant Kept(old(os.k), os.k) && os.faults == old(os.faults)
        invariant OwnInstanceOnly(old(os.k), os.k, epollHandle) && net.stalls == old(net.stalls)
        invariant net.connections <= old(net.connections)
        invariant NewStreams(old(os.k), os.k, old(clientSockets), clientSockets)
        decreases net.connections
      {
        ghost var k := os.k;
        var connection := net.Accept(os, serverSocket);
        match connection {
          case NoConnection => return Ok(PollContinue);
          case AcceptFailed => return Err(Accept);
          case Taken(fd) =>
            var admitted := AdmitClient(fd, k);
            InstanceTwice(old(os.k), k, os.k, epollHandle);
            match admitted {
              case Ok(_) =>
              case Err(error) => return Err(error);
              case Panic => return Panic;
            }
        }
      }
    }

    /** Handles one accepted connection; `k` is the kernel before the accept. */
    method AdmitClient(fd: Fd, ghost k: Kernel) returns (r: Outcome<(), SocketError>)
      requires Serving(k) && fd == LowestFree(k)
      requires DescAt(k, serverSocket).Some? && DescAt(k, serverSocket).value.Socket?
      requires exists peer :: os.k == Allocated(k, AcceptedSocket(DescAt(k, serverSocket).value, peer), false)
      modifies this`clientSockets, registry`data, os
      ensures os.faults >= old(os.faults) && os.k.pid == old(os.k).pid
      ensures r.Ok? || r == Err(TooManyClients) ==> Serving(os.k) && os.k.others == old(os.k.others) && Kept(k, os.k)
      ensures r.Ok? || r == Err(TooManyClients) ==> OwnInstanceOnly(k, os.k, epollHandle)
      ensures r.Ok? ==> os.faults == old(os.faults) && clientSockets == old(clientSockets) + [fd]
      ensures r.Ok? ==> SlotsKept(old(registry.data), old(clientSockets), registry.data, clientSockets)
      ensures r.Ok? ==> fd in os.k.fds && os.k.fds[fd].id >= |k.descs|
      ensures r.Ok? || r == Err(TooManyClients) ==> |os.k.descs| > |k.descs|
      ensures r == Err(TooManyClients) ==>
                |clientSockets| == MAX_CLIENTS && clientSockets == old(clientSockets) && registry.data == old(registry.data)
      ensures r.Err? && r != Err(TooManyClients) ==> os.faults > old(os.faults)
      ensures r.Panic? ==> |registry.data| == REGISTRY_SIZE
      ensures r.Panic? ==> Overhead(old(registry.data), old(clientSockets)) + MAX_CLIENTS > REGISTRY_SIZE
    {
      ghost var listener := DescAt(k, serverSocket).value;
      ghost var peer :| os.k == Allocated(k, AcceptedSocket(listener, peer), false);
      ListenerNamed(k, registry.data, View());
      EpollIsOpen(k, registry.data, View());
      AcceptedJoins(k, listener, peer, epollHandle);
      var ok := os.SetNonblocking(fd);
      if !ok { return Err(Metadata); }
      assert os.k == WithDesc(Allocated(k, AcceptedSocket(listener, peer), false), fd, AcceptedReady(listener, peer));
      if |clientSockets| == MAX_CLIENTS {
        var _ := os.Close(fd);
        RefusedKeeps(k, os.k, registry.data, View());
        return Err(TooManyClients);
      }
      r := WatchClient(fd, k);
    }

    method WatchClient(fd: Fd, ghost k: Kernel) returns (r: Outcome<(), SocketError>)
      requires Serving(k) && fd == LowestFree(k) && |clientSockets| < MAX_CLIENTS
      requires WellFormed(os.k) && Joined(k, os.k, fd) && os.k.fds[fd].id == |k.descs| && os.k.others == k.others
      requires os.k.pid == k.pid && ReadySocket(os.k, fd, Accepted) && CurrentInfo(os.k, fd).Some?
      requires OwnInstanceOnly(k, os.k, epollHandle)
      modifies this`clientSockets, registry`data, os
      ensures os.faults >= old(os.faults) && os.k.pid == old(os.k).pid
      ensures r.Ok? ==> Serving(os.k) && os.k.others == old(os.k.others) && Kept(k, os.k)
      ensures r.Ok? ==> OwnInstanceOnly(k, os.k, epollHandle)
      ensures r.Ok? ==> os.faults == old(os.faults) && clientSockets == old(clientSockets) + [fd]
      ensures r.Ok? ==> SlotsKept(old(registry.data), old(clientSockets), registry.data, clientSockets)
      ensures r.Ok? ==> fd in os.k.fds && os.k.fds[fd].id >= |k.descs| && |os.k.descs| == |old(os.k).descs|
      ensures r.Err? ==> os.faults > old(os.faults) && r != Err(TooManyClients)
      ensures r.Panic? ==> |registry.data| == REGISTRY_SIZE
      ensures r.Panic? ==> Overhead(old(registry.data), old(clientSockets)) + MAX_CLIENTS > REGISTRY_SIZE
    {
      ghost var data, h := registry.data, View();
      ConsistentBasics(k, data, h, fd);
      r := RegisterClient(fd);
      if !r.Ok? { return; }
      AdmittedKeeps(k, os.k, data, registry.data, h, fd);
      var ok := os.EpollAdd(epollHandle, fd, Encode(EpollData(fd, EpollTag.Client)));
      if !ok { return Err(SocketError.Poll); }
    }

    method RegisterClient(fd: Fd) returns (r: Outcome<(), SocketError>)
      requires registry.os == os && registry.Valid() && !HasLive(registry.data, fd) && CurrentInfo(os.k, fd).Some?
      modifies this`clientSockets, registry`data, os`faults
      ensures os.faults >= old(os.faults) && clientSockets == old(clientSockets) + [fd]
      ensures r.Ok? ==>
                && os.faults == old(os.faults) && registry.Valid()
                && RegisteredAs(old(registry.data), registry.data, NewEntry(fd, CurrentInfo(os.k, fd).value, Close))
                && |registry.data| <= |old(registry.data)| + 1
      ensures r.Ok? && NoneExecuted(old(registry.data)) ==>
                NoneExecuted(registry.data) && |registry.data| == |old(registry.data)| + 1
      ensures r.Err? ==> os.faults > old(os.faults) && r != Err(TooManyClients)
      ensures r.Panic? ==> |registry.data| == |old(registry.data)| == REGISTRY_SIZE
    {
      ghost var data := registry.data;
      clientSockets := clientSockets + [fd];
      var registered := registry.Register(fd, Close);
      match registered {
        case Panic => return Panic;
        case Err(cause) => return Err(ClientRegistration(cause));
        case Ok(_) =>
          PrimaryGrows(data, registry.data, NewEntry(fd, CurrentInfo(os.k, fd).value, Close));
          return Ok(());
      }
    }

    /** Forgets one client in all four views; it fails only if a system call does, or if `fd`
        is no client. */
    method RemoveClientSocket(fd: Fd) returns (r: Outcome<(), ClientError>)
      requires Serving(os.k)
      modifies this`clientSockets, registry`data, os
      ensures os.faults >= old(os.faults) && os.k.others == old(os.k.others) && os.k.pid == old(os.k).pid
      ensures r.Ok? ==>
                && Serving(os.k) && os.faults == old(os.faults) && fd in old(clientSockets)
                && (forall c :: c in clientSockets <==> c in old(clientSockets) && c != fd)
                && KeptBut(old(os.k), os.k, fd) && |os.k.descs| == |old(os.k).descs|
                && OwnInstanceOnly(old(os.k), os.k, epollHandle)
      ensures r.Ok? ==> SlotsKept(old(registry.data), old(clientSockets), registry.data, clientSockets)
      ensures r.Err? && fd in old(clientSockets) ==>
                os.faults > old(os.faults) && (r.error == PollFailed || r.error == CloseFailed(fd))
      ensures !r.Panic?
    {
      ghost var k, data, h := os.k, registry.data, View();
      SortedTable(k, data, h);
      var removed := registry.Remove(fd);
      if fd in clientSockets {
        RemovedKeeps(k, data, registry.data, h, fd);
      }
      if !removed.Ok? { return Err(RegistryUpdate(UnregisteredFd(fd))); }
      var ok := os.EpollDel(epollHandle, fd);
      if !ok { return Err(PollFailed); }
      var i := Position(clientSockets, fd);
      if i.None? { return Err(InvalidClientSocketFd(fd)); }
      clientSockets := clientSockets[..i.value] + clientSockets[i.value + 1..];
      ok := os.Close(fd);
      if !ok { return Err(CloseFailed(fd)); }
      return Ok(());
    }

    // ---- Spawning ----

    ghost function Stream(fd: Fd): nat
      reads os`k
    {
      if fd in os.k.fds then os.k.fds[fd].id else 0
    }

    /** What a fresh child of the server has: the server's views, and no children. */
    ghost predicate ChildStarts()
      reads this, os`k, registry`data, kids, reports
    {
      && registry.os == os && NoPeerReopen(registry.policy)
      && Consistent(os.k, registry.data, View())
      && FamilySound() && Present(kids.f) == {}
    }

    /** Merges the parameters, forks, and in the parent answers with the child's identifier. */
    method HandleSpawn(fd: Fd, common: SpawnParamsCommon) returns (r: Spawned, ghost reply: Option<Reply>)
      requires Valid() && fd in os.k.fds
      modifies os, net`sent, net`faults, kids, reports
      ensures os.faults >= old(os.faults) && net.faults >= old(net.faults)
      ensures r.Overflow? <==> Or(common, spawnParams).Panic?
      ensures !r.ChildRuns? ==> Valid() && Stayed(old(Now()), Now())
      ensures r.NotSpawned? || r.Overflow? ==> Now() == old(Now()).(faults := Now().faults)
      ensures r.ParentRuns? ==>
                && r.child !in old(os.k).others && os.k == ForkedParent(old(os.k), r.child)
                && kids.births == old(kids.births) + [r.child]
                && kids.f == old(kids.f).(alive := old(kids.f).alive + {r.child})
      ensures r.ChildRuns? ==> BranchedOff(old(Now()), Now()) && ChildStarts() && Or(common, spawnParams) == Ok(r.params)
      ensures r.ChildRuns? ==> ForkedFrom(old(os.k), os.k)
      ensures r.ParentRuns? && r.answered ==> reply == Some(SpawnResponse(r.child))
      ensures Exchanged(old(net.Mailbox()), net.Mailbox(), old(Stream(fd)), [], if reply.Some? then [reply.value] else [])
      ensures !(r.ParentRuns? && r.answered) ==> reply.None? && net.Mailbox() == old(net.Mailbox())
      ensures r.NotSpawned? || (r.ParentRuns? && !r.answered) ==> os.faults > old(os.faults) || net.faults > old(net.faults)
    {
      reply := None;
      ghost var a, k := Now(), os.k;
      StayedPut(a, a);
      NothingExchanged(net.Mailbox(), Stream(fd));
      var params := Or(common, spawnParams);
      if params.Panic? { return Overflow, None; }
      var forked := os.Fork();
      match forked {
        case Failed =>
          StayedPut(a, Now());
          return NotSpawned, None;
        case InChild =>
          ForkedKeeps(k, os.k, registry.data, View());
          kids.Forget();
          reports.Forget();
          return ChildRuns(params.value), None;
        case InParent(child) =>
          var answered := AnswerSpawn(fd, child, a);
          return ParentRuns(child, answered), if answered then Some(SpawnResponse(child)) else None;
      }
    }

    /** The parent's half: one more child, and one answer; `a` is the state before the fork. */
    method AnswerSpawn(fd: Fd, child: Pid, ghost a: Snapshot) returns (answered: bool)
      requires fd in a.k.fds && child !in a.k.others && child != a.k.pid && Now() == a.(k := ForkedParent(a.k, child))
      requires Serving(a.k) && FamilySound() && ChildrenExist(a.k, kids.f)
      modifies kids, net`sent, net`faults
      ensures Valid() && Stayed(a, Now()) && net.faults >= old(net.faults)
      ensures kids.births == a.births + [child] && kids.f == a.family.(alive := a.family.alive + {child})
      ensures answered ==> Exchanged(old(net.Mailbox()), net.Mailbox(), a.k.fds[fd].id, [], [SpawnResponse(child)])
      ensures !answered ==> net.Mailbox() == old(net.Mailbox()) && net.faults > old(net.faults)
    {
      ForkKeeps(a.k, child, registry.data, View());
      kids.Add(child);
      answered := net.Send(os.k.fds[fd].id, SpawnResponse(child));
      StayedForking(a, child, Now().faults);
    }

    // ---- Subspecies ----

    /** A forked child whose species has opened the numbers `extra`. */
    ghost predicate Reinitializable(extra: set<Fd>)
      reads this, os`k, registry`data
    {
      && registry.os == os && NoPeerReopen(registry.policy) && WellFormed(os.k)
      && TableSound(registry.data) && AgreeExcept(registry.data, os.k, extra)
      && Apart(View()) && HandlesTracked(registry.data, View())
      && DescAt(os.k, signalFd) == Some(SignalQueue)
    }

    /** Resets the registry, then takes a new server socket and a new epoll instance.  The
        whole server invariant is back afterwards, with no clients; without unexplained
        failures, and unless the table overflows, it comes back if and only if the registry can
        be reset and the socket name is free. */
    method ReInitializeAsSubspecies(socket: SocketArg, ghost extra: set<Fd>) returns (r: Outcome<(), ServerError>)
      requires Reinitializable(extra)
      modifies this, registry`data, os
      ensures os.faults >= old(os.faults) && os.k.pid == old(os.k).pid
      ensures r.Panic? ==> |registry.data| == REGISTRY_SIZE
      ensures r.Ok? ==> Serving(os.k) && clientSockets == [] && Frame(old(os.k), os.k)
      ensures r.Ok? ==> signalFd == old(signalFd)
      ensures r.Ok? ==> epollHandle in os.k.fds && os.k.fds[epollHandle].id >= |old(os.k).descs|
      ensures r.Ok? ==> ListensAs(os.k, serverSocket, socket)
      ensures r.Ok? && old(clientSockets) != [] ==> exists e :: e in registry.data && IsClosed(e)
      ensures r.Ok? ==> CanRestart(old(os.k), old(registry.data), extra, registry.policy, socket)
      ensures (os.faults == old(os.faults) && !r.Panic?) ==>
                (r.Ok? <==> CanRestart(old(os.k), old(registry.data), extra, registry.policy, socket))
    {
      ghost var data0, h, k0 := registry.data, View(), os.k;
      r := ResetRegistry(extra);
      if !r.Ok? { return; }
      ghost var data1, k1 := registry.data, os.k;
      r := ServeAgain(socket);
      if !r.Ok? { return; }
      FrameTrans(k0, k1, os.k);
      if h.clients != [] {
        ReinitializedHasClosedSlot(data0, h, data1, registry.data, k1, serverSocket, epollHandle);
      }
    }

    /** A new server socket and a new epoll instance for a process whose registry is audited. */
    method ServeAgain(socket: SocketArg) returns (r: Outcome<(), ServerError>)
      requires registry.os == os && NoPeerReopen(registry.policy)
      requires WellFormed(os.k) && TableSound(registry.data) && Agree(registry.data, os.k)
      requires IsRawFd(signalFd) && DescAt(os.k, signalFd) == Some(SignalQueue)
      requires Tracked(registry.data, signalFd, CloseUnlessSpawnSubspecies)
      modifies this, registry`data, os
      ensures os.faults >= old(os.faults) && os.k.pid == old(os.k).pid
      ensures r.Panic? ==> |registry.data| == REGISTRY_SIZE
      ensures r.Ok? ==> Serving(os.k) && clientSockets == [] && Frame(old(os.k), os.k)
      ensures r.Ok? ==> signalFd == old(signalFd)
      ensures r.Ok? ==> epollHandle in os.k.fds && os.k.fds[epollHandle].id >= |old(os.k).descs|
      ensures r.Ok? ==> ListensAs(os.k, serverSocket, socket)
      ensures r.Ok? ==>
          NameIsFree(socket, old(os.k)) && RetainsBut(old(registry.data), registry.data, {serverSocket, epollHandle})
      ensures (os.faults == old(os.faults) && !r.Panic?
               && NameIsFree(socket, old(os.k))) ==> r.Ok?
    {
      ghost var k := os.k;
      var listening := ListenAgain(socket);
      if !listening.Ok? { return if listening.Panic? then Panic else Err(listening.error); }
      ghost var k1 := os.k;
      clientSockets := [];
      serverSocket := listening.value;
      var polling := PollAgain();
      if !polling.Ok? { return if polling.Panic? then Panic else Err(polling.error); }
      FrameTrans(k, k1, os.k);
      epollHandle := polling.value;
      pid := os.k.pid;
      return Ok(());
    }

    method ResetRegistry(ghost extra: set<Fd>) returns (r: Outcome<(), ServerError>)
      requires Reinitializable(extra)
      modifies registry`data, os
      ensures os.faults >= old(os.faults) && os.k.pid == old(os.k).pid
      ensures r.Panic? ==> |registry.data| == REGISTRY_SIZE
      ensures r.Ok? ==>
                && WellFormed(os.k) && TableSound(registry.data) && Agree(registry.data, os.k) && Frame(old(os.k), os.k)
                && Tracked(registry.data, signalFd, CloseUnlessSpawnSubspecies)
                  && DescAt(os.k, signalFd) == Some(SignalQueue)
                && NewRegistered(MarkedAll(old(registry.data), Subspecies), registry.data, os.k)
                && os.k.bound == old(os.k).bound
      ensures r.Ok? ==> Resettable(old(os.k), old(registry.data), extra, registry.policy)
      ensures (os.faults == old(os.faults) && !r.Panic?
               && Resettable(old(os.k), old(registry.data), extra, registry.policy)) ==> r.Ok?
    {
      ghost var k, data := os.k, registry.data;
      var reset := registry.ResetForSubspecies(extra);
      match reset {
        case Panic => return Panic;
        case Err(error) => return Err(FdRegistryFailure(error));
        case Ok(_) =>
          SignalSurvivesReset(k, data, signalFd, extra, os.k, registry.data);
          return Ok(());
      }
    }

    method ListenAgain(socket: SocketArg) returns (r: Outcome<Fd, ServerError>)
      requires registry.os == os && WellFormed(os.k) && TableSound(registry.data) && Agree(registry.data, os.k)
      requires IsRawFd(signalFd) && DescAt(os.k, signalFd) == Some(SignalQueue)
      requires Tracked(registry.data, signalFd, CloseUnlessSpawnSubspecies)
      modifies registry`data, os
      ensures os.faults >= old(os.faults) && os.k.pid == old(os.k).pid
      ensures r.Panic? ==> |registry.data| == REGISTRY_SIZE
      ensures r.Ok? ==> Listens(os.k, registry.data, r.value, signalFd) && Frame(old(os.k), os.k)
      ensures r.Ok? ==> NameIsFree(socket, old(os.k)) && ListensAs(os.k, r.value, socket)
      ensures r.Ok? ==> RetainsBut(old(registry.data), registry.data, {r.value})
      ensures (os.faults == old(os.faults) && !r.Panic?
               && NameIsFree(socket, old(os.k))) ==> r.Ok?
    {
      ghost var k, data := os.k, registry.data;
      var acquired := GetServerSocket(os, socket);
      RefusalIs(socket, k);
      if !acquired.Ok? { return Err(ServerSocketFailure(acquired.error)); }
      if !socket.GivenFd? {
        AllocationJoins(k, ListenerAt(AddressOf(socket)));
        NotLiveBefore(k, data, acquired.value);
      }
      var registered := registry.Register(acquired.value, Close);
      match registered {
        case Panic => return Panic;
        case Err(error) => return Err(FdRegistryFailure(error));
        case Ok(_) =>
          assert !socket.GivenFd?;
          ReinitListens(k, data, registry.data, signalFd, AddressOf(socket));
          return Ok(acquired.value);
      }
    }

    method PollAgain() returns (r: Outcome<Fd, ServerError>)
      requires registry.os == os && clientSockets == [] && Listens(os.k, registry.data, serverSocket, signalFd)
      modifies registry`data, os
      ensures os.faults >= old(os.faults) && os.k.pid == old(os.k).pid
      ensures r.Panic? ==> |registry.data| == REGISTRY_SIZE
      ensures r.Ok? ==>
                && Consistent(os.k, registry.data, Handles(r.value, serverSocket, signalFd, []))
                && Frame(old(os.k), os.k) && r.value in os.k.fds && os.k.fds[r.value].id >= |old(os.k).descs|
      ensures r.Ok? ==> RetainsBut(old(registry.data), registry.data, {r.value})
      ensures r.Ok? ==> CurrentInfo(os.k, serverSocket) == CurrentInfo(old(os.k), serverSocket)
      ensures os.faults == old(os.faults) && !r.Panic? ==> r.Ok?
    {
      ghost var k, data := os.k, registry.data;
      ListenersAudited(k, data, serverSocket, signalFd);
      var created := os.EpollCreate();
      if created.None? { return Err(PollFailure); }
      var epoll := created.value;
      AllocationJoins(k, EpollInstance(map[]));
      NotLiveBefore(k, data, epoll);
      var registered := registry.Register(epoll, Close);
      match registered {
        case Panic => return Panic;
        case Err(error) => return Err(FdRegistryFailure(error));
        case Ok(_) =>
      }
      ghost var h := Handles(epoll, serverSocket, signalFd, []);
      ReinitPolls(k, data, registry.data, serverSocket, signalFd);
      ReinitWatches(os.k, registry.data, h);
      PollKeepsInfo(k, h);
      WatchFrame(k, os.k, epoll, serverSocket, ServerData(serverSocket));
      var ok := os.EpollAdd(epoll, serverSocket, Encode(EpollData(serverSocket, EpollTag.Server)));
      if !ok { return Err(PollFailure); }
      WatchFrame(k, os.k, epoll, signalFd, SignalData(signalFd));
      ok := os.EpollAdd(epoll, signalFd, Encode(EpollData(signalFd, EpollTag.Signal)));
      if !ok { return Err(PollFailure); }
      return Ok(epoll);
    }

    // ---- Messages ----

    ghost predicate Faulted(osFaults: nat, netFaults: nat)
      reads os`faults, net`faults
    {
      os.faults > osFaults || net.faults > netFaults
    }

    /** What each way for a request or a whole drain to end leaves behind. */
    ghost predicate Lands(r: Outcome<Control, ClientError>)
      reads this, os`k, registry`data, kids, reports
    {
      match r
      case Ok(Trampoline(_, _)) => ChildStarts()
      case Ok(Abandoned) => true
      case _ => Valid()
    }

    method HandleMessageSpawn(fd: Fd, request: Request) returns (r: Step, ghost reply: Option<Reply>)
      requires Valid() && fd in os.k.fds && request.Spawn? && request.payload in who.payloads
      modifies os, net`sent, net`faults, kids, reports
      ensures os.faults >= old(os.faults) && net.faults >= old(net.faults)
      ensures StepLaw(r, request, reply, Faulted(old(os.faults), old(net.faults)), who, spawnParams)
      ensures r.Continue? ==> Valid() && Stayed(old(Now()), Now())
      ensures r.Break? ==> Lands(r.result) && ControlLaw(r.result, old(Now()), Now())
      ensures r.Break? && r.result.Ok? ==>
                && r.result.value.Trampoline? && r.result.value.payload == request.payload
                && LeftFirst(r.result.value.params, request.common, spawnParams)
      ensures Exchanged(old(net.Mailbox()), net.Mailbox(), old(Stream(fd)), [], if reply.Some? then [reply.value] else [])
    {
      var spawned;
      spawned, reply := HandleSpawn(fd, request.common);
      OrPrefersLeft(request.common, spawnParams);
      if spawned.ChildRuns? { return Break(Ok(Trampoline(spawned.params, request.payload))), reply; }
      ParentStepLaw(spawned, fd, request, reply, Faulted(old(os.faults), old(net.faults)), who, spawnParams);
      return ParentStep(spawned, fd), reply;
    }

    method HandleMessageSpawnSubspecies(fd: Fd, request: Request) returns (r: Step, ghost reply: Option<Reply>)
      requires Valid() && fd in clientSockets && fd in os.k.fds
      requires request.SpawnSubspecies? && request.payload in who.payloads
      modifies this, registry`data, os, net`sent, net`faults, kids, reports
      ensures os.faults >= old(os.faults) && net.faults >= old(net.faults)
      ensures StepLaw(r, request, reply, Faulted(old(os.faults), old(net.faults)), who, spawnParams)
      ensures r.Continue? ==> Valid() && Stayed(old(Now()), Now())
      ensures r.Break? ==> Lands(r.result) && ControlLaw(r.result, old(Now()), Now())
      ensures Exchanged(old(net.Mailbox()), net.Mailbox(), old(Stream(fd)), [], if reply.Some? then [reply.value] else [])
      ensures r.Break? && (r.result == Ok(PollBreak) || r.result == Ok(Abandoned)) ==>
                RestartLaw(r.result == Ok(PollBreak), os.faults == old(os.faults) && |registry.data| < REGISTRY_SIZE,
                           old(os.k), old(registry.data), registry.policy, request.socket)
      ensures r == Break(Ok(PollBreak)) ==> ListensAs(os.k, serverSocket, request.socket)
    {
      ghost var a := Now();
      var spawned;
      spawned, reply := HandleSpawn(fd, request.common);
      if spawned.ChildRuns? {
        r := ContinueAsSubspecies(request, a);
        SubspeciesStepLaw(r, request, Faulted(old(os.faults), old(net.faults)), who, spawnParams);
        return r, None;
      }
      ParentStepLaw(spawned, fd, request, reply, Faulted(old(os.faults), old(net.faults)), who, spawnParams);
      return ParentStep(spawned, fd), reply;
    }

    /** What the child of a subspecies spawn does; `a` is the state before the fork. */
    method ContinueAsSubspecies(request: Request, ghost a: Snapshot) returns (r: Step)
      requires ChildStarts() && BranchedOff(a, Now()) && ForkedFrom(a.k, os.k) && clientSockets != []
      requires request.SpawnSubspecies?
      modifies this, registry`data, os
      ensures os.faults >= old(os.faults)
      ensures r == SubspeciesStep(r == Break(Ok(PollBreak)))
      ensures Lands(r.result) && ControlLaw(r.result, a, Now())
      ensures r.result == Ok(PollBreak) ==> ListensAs(os.k, serverSocket, request.socket)
      ensures RestartLaw(r.result == Ok(PollBreak), os.faults == old(os.faults) && |registry.data| < REGISTRY_SIZE,
                         a.k, a.data, registry.policy, request.socket)
    {
      ghost var child, start, extra := os.k, os.k, {};
      var reborn;
      reborn, start, extra := BecomeSubspecies(request.socket, a.k);
      assert Attempted(a.k, child, start, extra);
      return SubspeciesStep(reborn);
    }

    /** The child's half of a subspecies spawn; `parent` is the kernel before the fork, `opened`
        the one the registry is reset in, with the numbers `extra` opened since.  Without
        unexplained failures, and with a slot left, it succeeds if and only if the registry can
        be reset there and the socket's name is free. */
    method BecomeSubspecies(socket: SocketArg, ghost parent: Kernel)
      returns (ok: bool, ghost start: Kernel, ghost extra: set<Fd>)
      requires ChildStarts() && BranchedFrom(parent, os.k) && parent.descs == os.k.descs && clientSockets != []
      modifies this, registry`data, os
      ensures os.faults >= old(os.faults)
      ensures ok ==> Valid() && clientSockets == [] && BranchedFrom(parent, os.k)
      ensures ok ==> signalFd == old(signalFd)
      ensures os.k.pid == old(os.k).pid
      ensures ok ==> epollHandle in os.k.fds && os.k.fds[epollHandle].id >= |parent.descs|
      ensures ok ==> exists e :: e in registry.data && IsClosed(e)
      ensures ok ==> !socket.GivenFd? && ListensAs(os.k, serverSocket, socket)
      ensures WellFormed(start) && OpenedSince(old(os.k), start, extra)
      ensures ok ==> CanRestart(start, old(registry.data), extra, registry.policy, socket)
      ensures os.faults == old(os.faults) && |registry.data| < REGISTRY_SIZE ==>
                (ok <==> CanRestart(start, old(registry.data), extra, registry.policy, socket))
    {
      ghost var k := os.k;
      extra := OpenSpeciesFiles();
      start := os.k;
      BranchExtends(parent, k, start);
      var r := ReInitializeAsSubspecies(socket, extra);
      if r.Ok? { BranchExtends(parent, start, os.k); }
      return r.Ok?, start, extra;
    }

    method OpenSpeciesFiles() returns (ghost extra: set<Fd>)
      requires ChildStarts()
      modifies os
      ensures os.faults >= old(os.faults) && Frame(old(os.k), os.k) && Reinitializable(extra)
      ensures OpenedSince(old(os.k), os.k, extra)
    {
      ghost var k := os.k;
      SoundKernel(k, registry.data, View());
      extra := os.OpenExtras(opens);
      ExtrasAreUnknown(k, os.k, registry.data, View(), extra);
    }

    /** Sends one reply on a client's stream. */
    method Respond(fd: Fd, reply: Reply) returns (ok: bool)
      requires fd in os.k.fds
      modifies net`sent, net`faults
      ensures net.faults >= old(net.faults) && (!ok ==> net.faults > old(net.faults))
      ensures Exchanged(old(net.Mailbox()), net.Mailbox(), Stream(fd), [], if ok then [reply] else [])
    {
      ok := net.Send(os.k.fds[fd].id, reply);
    }

    /** The requests that are answered on the spot and change nothing else. */
    method HandleMessageExit(fd: Fd, request: Request) returns (r: Step, ghost reply: Option<Reply>)
      requires fd in os.k.fds && request.Exit?
      modifies net`sent, net`faults
      ensures os.faults >= old(os.faults) && net.faults >= old(net.faults) && os.k == old(os.k)
      ensures StepLaw(r, request, reply, Faulted(old(os.faults), old(net.faults)), who, spawnParams)
      ensures r.Break? ==> r.result == Ok(Shutdown) || r.result.Err?
      ensures Exchanged(old(net.Mailbox()), net.Mailbox(), old(Stream(fd)), [], if reply.Some? then [reply.value] else [])
    {
      var ok := Respond(fd, AckResponse);
      return Break(Ok(Shutdown)), if ok then Some(AckResponse) else None;
    }

    method HandleMessageIdentityQuery(fd: Fd, request: Request) returns (r: Step, ghost reply: Option<Reply>)
      requires fd in os.k.fds && request.IdentityQuery?
      modifies net`sent, net`faults
      ensures os.faults >= old(os.faults) && net.faults >= old(net.faults) && os.k == old(os.k)
      ensures StepLaw(r, request, reply, Faulted(old(os.faults), old(net.faults)), who, spawnParams)
      ensures r.Break? ==> r.result == Ok(Shutdown) || r.result.Err?
      ensures Exchanged(old(net.Mailbox()), net.Mailbox(), old(Stream(fd)), [], if reply.Some? then [reply.value] else [])
    {
      var response := IdentityQueryResponse(who.name, who.species, who.arch);
      var ok := Respond(fd, response);
      if !ok { return Break(Err(IdentityQueryFailed(fd))), None; }
      return Continue, Some(response);
    }

    method HandleMessageStat(fd: Fd, request: Request) returns (r: Step, ghost reply: Option<Reply>)
      requires fd in os.k.fds && request.Stat?
      modifies os`faults, net`sent, net`faults
      ensures os.faults >= old(os.faults) && net.faults >= old(net.faults) && os.k == old(os.k)
      ensures StepLaw(r, request, reply, Faulted(old(os.faults), old(net.faults)), who, spawnParams)
      ensures r.Break? ==> r.result == Ok(Shutdown) || r.result.Err?
      ensures Exchanged(old(net.Mailbox()), net.Mailbox(), old(Stream(fd)), [], if reply.Some? then [reply.value] else [])
    {
      var unreadable := os.Fault();
      if unreadable { return Break(Err(StatReadFailed(fd))), None; }
      var ok := Respond(fd, StatResponse);
      if !ok { return Break(Err(StatResponseFailed(fd))), None; }
      return Continue, Some(StatResponse);
    }

    /** A request with another species' payload is passed over without an answer. */
    method HandleSpawnRequest(fd: Fd, request: Request) returns (r: Step, ghost reply: Option<Reply>)
      requires Valid() && fd in clientSockets && fd in os.k.fds && (request.Spawn? || request.SpawnSubspecies?)
      modifies this, registry`data, os, net`sent, net`faults, kids, reports
      ensures os.faults >= old(os.faults) && net.faults >= old(net.faults)
      ensures StepLaw(r, request, reply, Faulted(old(os.faults), old(net.faults)), who, spawnParams)
      ensures r.Continue? ==> Valid() && Stayed(old(Now()), Now())
      ensures r.Break? ==> Lands(r.result) && ControlLaw(r.result, old(Now()), Now())
      ensures Exchanged(old(net.Mailbox()), net.Mailbox(), old(Stream(fd)), [], if reply.Some? then [reply.value] else [])
    {
      reply := None;
      if request.payload !in who.payloads {
        StayedPut(Now(), Now());
        return Continue, None;
      }
      if request.Spawn? {
        r, reply := HandleMessageSpawn(fd, request);
      } else {
        r, reply := HandleMessageSpawnSubspecies(fd, request);
      }
    }

    method DispatchMessageHandler(fd: Fd, request: Request) returns (r: Step, ghost reply: Option<Reply>)
      requires Valid() && fd in clientSockets && fd in os.k.fds
      modifies this, registry`data, os, net`sent, net`faults, kids, reports
      ensures os.faults >= old(os.faults) && net.faults >= old(net.faults)
      ensures StepLaw(r, request, reply, Faulted(old(os.faults), old(net.faults)), who, spawnParams)
      ensures r.Continue? ==> Valid() && Stayed(old(Now()), Now())
      ensures r.Break? ==> Lands(r.result) && ControlLaw(r.result, old(Now()), Now())
      ensures Exchanged(old(net.Mailbox()), net.Mailbox(), old(Stream(fd)), [], if reply.Some? then [reply.value] else [])
    {
      reply := None;
      ghost var a := Now();
      match request {
        case Exit =>
          r, reply := HandleMessageExit(fd, request);
          StayedPut(a, Now());
        case IdentityQuery =>
          r, reply := HandleMessageIdentityQuery(fd, request);
          StayedPut(a, Now());
        case Spawn(_, _) =>
          r, reply := HandleSpawnRequest(fd, request);
        case SpawnSubspecies(_, _, _) =>
          r, reply := HandleSpawnRequest(fd, request);
        case Stat =>
          r, reply := HandleMessageStat(fd, request);
          StayedPut(a, Now());
        case Other =>
          StayedPut(a, a);
          return Continue, None;
      }
    }

    /** Reads at most one packet of a client and handles it. */
    method HandleOnePacket(fd: Fd) returns (r: Step, ghost got: seq<Packet>, ghost replies: seq<Reply>)
      requires Valid() && fd in clientSockets && fd in os.k.fds
      modifies this, registry`data, os, net`inbox, net`taken, net`sent, net`stalls, net`faults, kids, reports
      ensures os.faults >= old(os.faults) && net.faults >= old(net.faults)
      ensures Exchanged(old(net.Mailbox()), net.Mailbox(), old(Stream(fd)), got, replies)
      ensures r.Continue? ==>
                && |got| == 1 && ReadsOn(got[0]) && Answers(replies, got, who)
                && |QueueOf(net.inbox, old(Stream(fd)))| < |QueueOf(old(net.inbox), old(Stream(fd)))|
                && Valid() && Stayed(old(Now()), Now())
      ensures r.Break? ==>
                && |got| <= 1 && DrainLaw(r.result, got, replies, Faulted(old(os.faults), old(net.faults)), who, spawnParams)
                && Lands(r.result) && ControlLaw(r.result, old(Now()), Now())
      ensures r.Continue? ==> net.stalls == old(net.stalls)
      ensures r.Break? ==> StallsBy(old(net.Mailbox()), net.Mailbox(), old(Stream(fd)), r.result, got)
    {
      ghost var a, id, mail := Now(), Stream(fd), net.Mailbox();
      got, replies := [], [];
      var received := net.Recv(os.k.fds[fd].id);
      StayedPut(a, Now());
      match received {
        case WouldBlock => return Break(Ok(PollContinue)), got, replies;
        case Broken => return Break(Err(ReadFailed)), got, replies;
        case Got(packet) =>
          got := [packet];
          NoRequestDrains(packet, Faulted(old(os.faults), old(net.faults)), who, spawnParams);
          if packet.Fatal? { return Break(Panic), got, replies; }
          if !packet.Parcel? { return Break(Ok(PollContinue)), got, replies; }
          ghost var mid, reply := net.Mailbox(), None;
          r, reply := DispatchMessageHandler(fd, packet.request);
          replies := if reply.Some? then [reply.value] else [];
          ExchangedMore(mail, mid, net.Mailbox(), id, [packet], [], [], replies);
          StepDrains(r, packet, reply, replies, Faulted(old(os.faults), old(net.faults)), who, spawnParams);
      }
    }

    /** One round of the drain that began in the state `a` with `mail`, and has so far read
        `got` and sent `replies`. */
    method DrainRound(fd: Fd, ghost a: Snapshot, ghost mail: Mail, ghost got: seq<Packet>, ghost replies: seq<Reply>)
      returns (r: Step, ghost more: seq<Packet>, ghost answers: seq<Reply>)
      requires Valid() && fd in clientSockets && fd in os.k.fds && Stayed(a, Now())
      requires Exchanged(mail, net.Mailbox(), Stream(fd), got, replies) && AllReadOn(got) && Answers(replies, got, who)
      requires net.stalls == mail.stalls
      modifies this, registry`data, os, net`inbox, net`taken, net`sent, net`stalls, net`faults, kids, reports
      ensures os.faults >= old(os.faults) && net.faults >= old(net.faults)
      ensures Exchanged(mail, net.Mailbox(), old(Stream(fd)), got + more, replies + answers)
      ensures r.Continue? ==>
                && AllReadOn(got + more) && Answers(replies + answers, got + more, who)
                && |QueueOf(net.inbox, old(Stream(fd)))| < |QueueOf(old(net.inbox), old(Stream(fd)))|
                && Valid() && Stayed(a, Now()) && net.stalls == mail.stalls
                && os.k.fds == old(os.k).fds && View() == old(View())
      ensures r.Break? ==> StallsBy(mail, net.Mailbox(), old(Stream(fd)), r.result, got + more)
      ensures r.Break? ==>
                && DrainLaw(r.result, got + more, replies + answers, Faulted(old(os.faults), old(net.faults)), who,
                            spawnParams)
                && Lands(r.result) && ControlLaw(r.result, a, Now())
    {
      ghost var before, snapshot, id := net.Mailbox(), Now(), Stream(fd);
      r, more, answers := HandleOnePacket(fd);
      ExchangedMore(mail, before, net.Mailbox(), id, got, replies, more, answers);
      match r {
        case Continue =>
          RoundGoesOn(got, replies, more, answers, who);
          StayedView(snapshot, Now());
          StayedTwice(a, snapshot, Now());
        case Break(result) =>
          DrainEnds(result, got, replies, more, answers, Faulted(old(os.faults), old(net.faults)), who, spawnParams);
          StayedThen(result, a, snapshot, Now());
          StallsJoin(mail, before, net.Mailbox(), id, result, got, more);
      }
    }

    /** Reads one client's packets until there are none for now, or until one of them ends it. */
    method HandleClientEvents(fd: Fd)
      returns (r: Outcome<Control, ClientError>, ghost got: seq<Packet>, ghost replies: seq<Reply>)
      requires Valid() && fd in clientSockets && fd in os.k.fds
      modifies this, registry`data, os, net`inbox, net`taken, net`sent, net`stalls, net`faults, kids, reports
      ensures os.faults >= old(os.faults) && net.faults >= old(net.faults)
      ensures DrainLaw(r, got, replies, Faulted(old(os.faults), old(net.faults)), who, spawnParams)
      ensures Exchanged(old(net.Mailbox()), net.Mailbox(), old(Stream(fd)), got, replies)
      ensures StallsBy(old(net.Mailbox()), net.Mailbox(), old(Stream(fd)), r, got)
      ensures Lands(r) && ControlLaw(r, old(Now()), Now())
    {
      StayedPut(Now(), Now());
      ghost var id, start := Stream(fd), net.Mailbox();
      got, replies := [], [];
      while true
        invariant Valid() && Stayed(old(Now()), Now()) && fd in clientSockets && fd in os.k.fds && Stream(fd) == id
        invariant os.faults >= old(os.faults) && net.faults >= old(net.faults) && net.stalls == start.stalls
        invariant Exchanged(start, net.Mailbox(), id, got, replies)
        invariant AllReadOn(got) && Answers(replies, got, who)
        decreases |QueueOf(net.inbox, id)|
      {
        ghost var osFaults, netFaults := os.faults, net.faults;
        var step;
        ghost var more, answers;
        step, more, answers := DrainRound(fd, old(Now()), start, got, replies);
        got, replies := got + more, replies + answers;
        if step.Break? {
          FaultedLater(step.result, got, replies, Faulted(osFaults, netFaults), Faulted(old(os.faults), old(net.faults)),
                       who, spawnParams);
          return step.result, got, replies;
        }
      }
    }

    // ---- Event batches ----

    /** Every connected client has been sent exactly the answers to all it was read. */
    ghost predicate AllAnswered()
      reads this, os`k, net`inbox, net`taken, net`sent, net`stalls
    {
      ClientsAnswered(net.Mailbox(), os.k, clientSockets, who)
    }

    /** The state the outcome of an event or a batch stands for. */
    ghost predicate Settles(r: Outcome<Control, ServerError>)
      reads this, os`k, registry`data, kids, reports
    {
      match r
      case Ok(Trampoline(_, _)) => ChildStarts()
      case Ok(PollContinue) => false
      case Ok(Abandoned) => true
      case Ok(_) => Valid()
      case Err(ServerSocketFailure(error)) => error != TooManyClients
      case Err(ClientFailure(error)) => error.PollFailed? || error.CloseFailed?
      case Err(_) => true
      case Panic => true
    }

    /** The drain of one client, and what it keeps of the run so far. */
    method DrainClient(fd: Fd) returns (r: Outcome<Control, ClientError>)
      requires Valid() && fd in clientSockets
      modifies this, registry`data, os, net`inbox, net`taken, net`sent, net`stalls, net`faults, kids, reports
      ensures fd in old(os.k).fds && StreamsApart(old(os.k), old(clientSockets))
      ensures ClientDrained(r, old(Now()), Now(), old(net.Mailbox()), net.Mailbox(), fd, old(Stream(fd)), who, spawnParams)
      ensures Lands(r)
    {
      ghost var a, k, clients, mail, id := Now(), os.k, clientSockets, net.Mailbox(), Stream(fd);
      ClientStreams(k, registry.data, View(), fd);
      ghost var got, replies;
      r, got, replies := HandleClientEvents(fd);
      ExchangeConserves(mail, net.Mailbox(), id, got, replies);
      DrainReads(mail, net.Mailbox(), id, got, replies, r, Faulted(old(os.faults), old(net.faults)), who, spawnParams);
      DrainReadsUp(mail, net.Mailbox(), id, got, replies, r);
      if r == Ok(PollContinue) { StayedMeans(a, Now()); }
      if ClientsAnswered(mail, k, clients, who) {
        DrainKeepsAnswers(mail, net.Mailbox(), k, clients, fd, got, replies, who);
      }
    }

    method HandleClientEvent(fd: Fd, hangup: bool) returns (r: Handled)
      requires Valid() && fd in clientSockets
      modifies this, registry`data, os, net`inbox, net`taken, net`sent, net`stalls, net`faults, kids, reports
      ensures ClientHandled(r, old(Now()), Now(), old(net.Mailbox()), net.Mailbox(), fd, old(Stream(fd)), true, hangup,
                            who, spawnParams)
      ensures if r.Next? then Valid() else Settles(r.result)
    {
      ghost var a, before, id := Now(), net.Mailbox(), Stream(fd);
      var drained := DrainClient(fd);
      DrainSettles(drained, a, Now(), before, net.Mailbox(), fd, id, hangup, who, spawnParams);
      match drained {
        case Ok(PollContinue) =>
          if !hangup { return Next; }
        case Ok(control) => return Return(Ok(control));
        case Err(_) =>
        case Panic => return Return(Panic);
      }
      r := DisconnectDrained(fd, drained, a, before, id, hangup);
    }

    /** Removes a client whose drain, begun in the state `a` with the mail `before`, failed, or
        that has hung up. */
    method DisconnectDrained(fd: Fd, ghost drained: Outcome<Control, ClientError>, ghost a: Snapshot, ghost before: Mail,
                             ghost id: nat, ghost hangup: bool)
      returns (r: Handled)
      requires Valid() && Consistent(a.k, a.data, a.h) && fd in a.h.clients
      requires ClientDrained(drained, a, Now(), before, net.Mailbox(), fd, id, who, spawnParams)
      requires drained.Err? || drained == Ok(PollContinue)
      modifies this`clientSockets, registry`data, os
      ensures ClientHandled(r, a, Now(), before, net.Mailbox(), fd, id, true, hangup, who, spawnParams)
      ensures if r.Next? then Valid() else Settles(r.result)
    {
      ghost var b := Now();
      DrainedSame(drained, a, b);
      r := DisconnectClient(fd);
      RemovalSettles(drained, r, a, b, Now(), before, net.Mailbox(), fd, id, hangup, who, spawnParams);
    }

    method DisconnectClient(fd: Fd) returns (r: Handled)
      requires Valid() && fd in clientSockets
      modifies this`clientSockets, registry`data, os
      ensures r.Next? ==>
                && Valid() && SameServer(old(Now()), Now()) && KeptBut(old(os.k), os.k, fd)
                && |os.k.descs| == |old(os.k).descs|
                && (forall c :: c in clientSockets <==> c in old(clientSockets) && c != fd)
      ensures r.Next? && OthersAnswered(net.Mailbox(), old(os.k), old(clientSockets), fd, who) ==> AllAnswered()
      ensures r.Return? ==> Settles(r.result) && r.result.Err? && r.result.error.ClientFailure? && os.faults > old(os.faults)
      ensures os.k.pid == old(os.k).pid && os.faults >= old(os.faults)
    {
      ghost var a, k, data, h := Now(), os.k, registry.data, View();
      var removed := RemoveClientSocket(fd);
      FewerClientsAnswered(net.Mailbox(), k, os.k, data, h, clientSockets, fd, who);
      if removed.Ok? { SameMeans(a, Now()); }
      r := if removed.Err? then Return(Err(ClientFailure(removed.error))) else Next;
    }

    method HandleServerEvent() returns (r: Handled)
      requires Valid()
      modifies this`clientSockets, registry`data, os, net`connections, net`stalls
      ensures old(net.stalls) <= net.stalls
      ensures r.Next? ==> AcceptedUp(old(Now()), Now(), old(net.Mailbox()), net.Mailbox())
      ensures r.Next? ==>
                && Valid() && SameServer(old(Now()), Now()) && Kept(old(os.k), os.k)
                && (forall c | c in old(clientSockets) :: c in clientSockets)
      ensures r.Next? && old(AllAnswered()) ==> AllAnswered()
      ensures r.Return? ==> Settles(r.result) && BatchLaw(r.result, old(Now()), Now())
      ensures r.Return? ==> r.result.Panic? || (r.result.Err? && r.result.error.ServerSocketFailure?)
      ensures r.Return? && r.result.Err? ==> old(Now()).faults < Now().faults
      ensures r.Return? && r.result.Panic? ==>
          |registry.data| == REGISTRY_SIZE && Overhead(old(registry.data), old(clientSockets)) + MAX_CLIENTS > REGISTRY_SIZE
    {
      ghost var a := Now();
      ClientsAreOpen(os.k, registry.data, View());
      var accepted := HandleServerEvents();
      match accepted {
        case Ok(_) => r := Next;
        case Err(TooManyClients) => r := Next;
        case Err(error) => return Return(Err(ServerSocketFailure(error)));
        case Panic => return Return(Panic);
      }
      MoreClientsAnswered(net.Mailbox(), old(os.k), os.k, old(clientSockets), clientSockets, who);
      SameMeans(a, Now());
    }

    method HandleSignalEvent() returns (r: Handled)
      requires Valid()
      modifies kids`f, kids`reaped, kids`faults, reports
      ensures r.Next? ==> Valid() && kids.f.zombies == map[]
      ensures r.Next? ==> SignalsUp(old(Now()), Now())
      ensures r.Return? ==>
          Settles(r.result)
          && (r.result == Ok(Shutdown) || (r.result.Err? && r.result.error.SignalHandlerFailure?))
      ensures r == Return(Ok(Shutdown)) ==> StopSignal(old(Now()), Now())
      ensures r.Return? && r.result.Err? <==> kids.faults > old(kids.faults)
      ensures old(kids.f.read) <= kids.f.read && kids.faults >= old(kids.faults)
    {
      var drained := HandleSignalfdEvents(kids, reports);
      match drained {
        case Ok(Drained) => return Next;
        case Ok(ShutDown) => return Return(Ok(Shutdown));
        case Err(error) => return Return(Err(SignalHandlerFailure(error)));
      }
    }

    /** Handles one event of a batch.  Every other watch of the batch is still in place after
        it, and only what the event's own watch is for was read or written. */
    method HandleEvent(event: Event, ghost w: Watch) returns (r: Handled)
      requires Valid() && StillWatched(os.k, View(), w) && EventTells(View(), event, w)
      modifies this, registry`data, os, net, kids, reports
      ensures EventLaw(r, old(Now()), Now(), old(net.Mailbox()), net.Mailbox(), event, w, who, spawnParams)
      ensures if r.Next? then Valid() else Settles(r.result)
      ensures (r.Next? || r.result == Ok(PollBreak)) && old(AllAnswered()) ==> AllAnswered()
    {
      var decoded := Decode(event.data);
      if event.broken {
        r := Return(Err(EpollBroken(decoded.value)));
        BrokenEvent(r, Now(), net.Mailbox(), event, w, who, spawnParams);
        return;
      }
      match decoded.value.tag {
        case Client => r := HandleClientReady(event, decoded.value.fd, w);
        case Server => r := HandleServerReady(event, w);
        case Signal => r := HandleSignalReady(event, w);
      }
    }

    method HandleClientReady(event: Event, fd: Fd, ghost w: Watch) returns (r: Handled)
      requires Valid() && StillWatched(os.k, View(), w) && fd == w.fd && TagOf(View(), w.fd).Client?
      modifies this, registry`data, os, net`inbox, net`taken, net`sent, net`stalls, net`faults, kids, reports
      ensures EventLaw(r, old(Now()), Now(), old(net.Mailbox()), net.Mailbox(), event, w, who, spawnParams)
      ensures if r.Next? then Valid() else Settles(r.result)
      ensures (r.Next? || r.result == Ok(PollBreak)) && old(AllAnswered()) ==> AllAnswered()
    {
      ghost var a, before := Now(), net.Mailbox();
      OwnNumbersApart(os.k, registry.data, View());
      EpollIsOpen(os.k, registry.data, View());
      SameAtAll(a);
      if event.readable {
        r := HandleClientEvent(fd, event.hangup);
      } else if event.hangup {
        r := DisconnectClient(fd);
      } else {
        r := Next;
      }
      ClientEventLaw(r, a, Now(), before, net.Mailbox(), event, w, who, spawnParams);
    }

    method HandleServerReady(event: Event, ghost w: Watch) returns (r: Handled)
      requires Valid() && StillWatched(os.k, View(), w) && EventTells(View(), event, w) && TagOf(View(), w.fd).Server?
      modifies this`clientSockets, registry`data, os, net`connections, net`stalls
      ensures EventLaw(r, old(Now()), Now(), old(net.Mailbox()), net.Mailbox(), event, w, who, spawnParams)
      ensures if r.Next? then Valid() else Settles(r.result)
      ensures r.Next? && old(AllAnswered()) ==> AllAnswered()
      ensures r.Return? ==> r.result != Ok(PollBreak)
    {
      ghost var a, mail := Now(), net.Mailbox();
      EpollIsOpen(os.k, registry.data, View());
      SameAtAll(a);
      if event.hangup { assert false; }
      r := Next;
      if event.readable { r := HandleServerEvent(); }
      ServerEventLaw(r, a, Now(), mail, net.Mailbox(), event, w, who, spawnParams);
    }

    method HandleSignalReady(event: Event, ghost w: Watch) returns (r: Handled)
      requires Valid() && StillWatched(os.k, View(), w) && EventTells(View(), event, w) && TagOf(View(), w.fd).Signal?
      modifies kids`f, kids`reaped, kids`faults, reports
      ensures EventLaw(r, old(Now()), Now(), old(net.Mailbox()), net.Mailbox(), event, w, who, spawnParams)
      ensures if r.Next? then Valid() else Settles(r.result)
      ensures r.Return? ==> r.result != Ok(PollBreak)
    {
      ghost var a, mail := Now(), net.Mailbox();
      EpollIsOpen(os.k, registry.data, View());
      if event.hangup { assert false; }
      r := Next;
      if event.readable { r := HandleSignalEvent(); }
      SignalEventLaw(r, a, Now(), mail, event, w, who, spawnParams);
    }

    /** Handles a batch in order: `trace` holds what each of the first `seen` events found and
        left, each having been handled by its own law, and no other event was handled: nothing
        outside what their watches are for was read or written.  Either that was all of them,
        or the last of them ended the batch, and `EndedBy` says how. */
    method CheckEpollEvents(events: seq<Event>, ghost watches: seq<Watch>)
      returns (r: Outcome<Control, ServerError>, ghost seen: nat, ghost trace: seq<(Snapshot, Mail)>)
      requires Valid() && InterestOf(os.k, epollHandle).Some?
      requires IsBatch(os.k, InterestOf(os.k, epollHandle).value, events, watches, MAX_EVENTS)
      modifies this, registry`data, os, net, kids, reports
      ensures seen <= |events| && Settles(r)
      ensures |trace| == seen + 1 && trace[0] == (old(Now()), old(net.Mailbox())) && trace[seen] == (Now(), net.Mailbox())
      ensures Confined(old(Now()), Now(), old(net.Mailbox()), net.Mailbox(), old(View()), watches[..seen])
      ensures Conserved(old(net.Mailbox()), net.Mailbox())
      ensures r != Ok(Shutdown) ==> NoExits(old(net.Mailbox()), net.Mailbox())
      ensures r == Ok(PollBreak) && old(AllAnswered()) ==> AllAnswered()
      ensures BatchHandled(r, events, watches, seen, trace, who, spawnParams)
      ensures || (r == Ok(PollBreak) && seen == |events| && SameServer(old(Now()), Now()))
              || (&& seen > 0 && BatchLaw(r, old(Now()), Now())
                  && EndedBy(r, events[seen - 1], watches[seen - 1], old(Now()), Now(),
                             old(net.Mailbox()), net.Mailbox(), who, spawnParams))
      ensures PassedOver(old(net.Mailbox()), net.Mailbox(), old(View()), watches, if seen > 0 then seen - 1 else 0)
      ensures r.Panic? ==> MayAbort(old(Now()), net.Mailbox(), who, spawnParams)
    {
      ghost var mail, h0, start := net.Mailbox(), View(), Now();
      EpollIsOpen(os.k, registry.data, h0);
      BatchDecodes(os.k, registry.data, h0, events, watches);
      BatchStreamsDiffer(os.k, registry.data, h0, watches);
      ProgressNone(start, mail, h0, watches);
      seen, trace := 0, [(start, mail)];
      for i := 0 to |events|
        invariant Valid() && seen == i && (old(AllAnswered()) ==> AllAnswered())
        invariant |trace| == i + 1 && trace[0] == (start, mail) && trace[i] == (Now(), net.Mailbox())
        invariant AllNext(trace, events, watches, i, who, spawnParams)
        invariant Progress(start, Now(), mail, net.Mailbox(), h0, watches, i)
        invariant forall j | i <= j < |events| :: Awaits(os.k, View(), events[j], watches[j])
      {
        ghost var mid, before := Now(), net.Mailbox();
        ProgressMeans(start, mid, mail, before, h0, watches, i);
        var handled := HandleEvent(events[i], watches[i]);
        TraceMore(handled, trace, (Now(), net.Mailbox()), events, watches, i, who, spawnParams);
        seen, trace := i + 1, trace + [(Now(), net.Mailbox())];
        if handled.Return? {
          BatchEnds(handled.result, start, mid, Now(), mail, before, net.Mailbox(), h0, events[i], watches, i,
                    who, spawnParams);
          return handled.result, seen, trace;
        }
        ProgressMore(handled, start, mid, Now(), mail, before, net.Mailbox(), h0, events[i], watches, i, who, spawnParams);
        EventKeepsOwn(handled, mid, Now(), before, net.Mailbox(), events[i], watches[i], who, spawnParams);
        AwaitingStays(mid.k, mid.h, os.k, View(), events, watches, i);
      }
      ProgressMeans(start, Now(), mail, net.Mailbox(), h0, watches, |events|);
      return Ok(PollBreak), seen, trace;
    }

    // ---- The main loop and its end ----

    /** The loop, for any number of rounds: whatever the clients, the children and the kernel
        do, the server is valid each time it goes round.  In the process it began in, the table
        never takes more slots than its clients account for, and exactly as many while nothing
        has been executed.  Any other process that serves on or leaves was forked from it, and
        has touched nothing the server had at that moment.  `RunEnds` says why it ended. */
    method Serve(rounds: nat) returns (r: Outcome<Served, ServerError>)
      requires Valid()
      modifies this, registry`data, os, net, kids, reports
      ensures r == Ok(Running) || r == Ok(Stopped) ==> Valid()
      ensures r == Ok(Running) && old(AllAnswered()) ==> AllAnswered()
      ensures Conserved(old(net.Mailbox()), net.Mailbox())
      ensures r == Ok(Running) || r == Ok(Stopped) ==> SameServer(old(Now()), Now()) || TookOver(old(Now()), Now())
      ensures r.Ok? && r.value.Leaves? ==> ChildStarts() && pid != os.k.pid && Descends(old(Now()), Now())
      ensures r.Panic? && os.k.pid == old(os.k).pid ==> MayAbort(old(Now()), net.Mailbox(), who, spawnParams)
      ensures RunEnds(r, old(Now()), Now(), old(net.Mailbox()), net.Mailbox(), who, spawnParams)
    {
      ghost var start, mail := Now(), net.Mailbox();
      EpollIsOpen(os.k, registry.data, View());
      SameAtAll(start);
      for round := 0 to rounds
        invariant Valid() && (SameServer(start, Now()) || TookOver(start, Now())) && start.faults <= Now().faults
        invariant Conserved(mail, net.Mailbox()) && NoExits(mail, net.Mailbox())
        invariant old(AllAnswered()) ==> AllAnswered()
      {
        var control;
        ghost var events, watches, seen, trace;
        control, events, watches, seen, trace := ServeRound(start, mail);
        match control {
          case Ok(PollBreak) =>
          case Ok(PollContinue) =>
          case Ok(Shutdown) => return Ok(Stopped);
          case Ok(Trampoline(params, payload)) => return Ok(Leaves(params, payload));
          case Ok(Abandoned) => return Ok(Lost);
          case Err(error) => return Err(error);
          case Panic => return Panic;
        }
      }
      return Ok(Running);
    }

    /** One turn of the loop, of a run that began in the state `start` with `mail`: it waits, and
        unless that fails it handles what it was told of, all of it or up to what ends the turn. */
    method ServeRound(ghost start: Snapshot, ghost mail: Mail)
      returns (r: Outcome<Control, ServerError>, ghost events: seq<Event>, ghost watches: seq<Watch>, ghost seen: nat,
               ghost trace: seq<(Snapshot, Mail)>)
      requires Valid() && (SameServer(start, Now()) || TookOver(start, Now())) && start.faults <= Now().faults
      requires Conserved(mail, net.Mailbox()) && NoExits(mail, net.Mailbox())
      modifies this, registry`data, os, net, kids, reports
      ensures Conserved(mail, net.Mailbox()) && r != Ok(PollContinue)
      ensures r == Ok(PollBreak) || r == Ok(Shutdown) ==> Valid() && (SameServer(start, Now()) || TookOver(start, Now()))
      ensures r == Ok(PollBreak) ==> start.faults <= Now().faults
      ensures r == Ok(PollBreak) && old(AllAnswered()) ==> AllAnswered()
      ensures r.Ok? && r.value.Trampoline? ==> ChildStarts() && pid != os.k.pid && Descends(start, Now())
      ensures r.Panic? && os.k.pid == start.k.pid ==> MayAbort(start, net.Mailbox(), who, spawnParams)
      ensures RoundEnds(r, start, Now(), mail, net.Mailbox(), who, spawnParams)
      ensures r == Err(PollFailure) ==>
                && os.faults > old(os.faults) && Now() == old(Now()).(faults := Now().faults)
                && net.Mailbox() == old(net.Mailbox())
      ensures r != Err(PollFailure) ==>
                && BatchHandled(r, events, watches, seen, trace, who, spawnParams)
                && Waited(old(Now()), old(net.Mailbox()), events, watches, trace[0])
                && trace[seen] == (Now(), net.Mailbox())
    {
      ghost var mid := Now();
      SoundKernel(os.k, registry.data, View());
      var woken;
      woken, watches := os.EpollWait(epollHandle, MAX_EVENTS);
      events, seen, trace := [], 0, [];
      if woken.None? { return Err(PollFailure), events, watches, seen, trace; }
      events := woken.value;
      FailedOnly(start, mid, Now());
      r, seen, trace := ServeBatch(woken.value, watches, start, mail);
    }

    /** The batch of one turn. */
    method ServeBatch(events: seq<Event>, ghost watches: seq<Watch>, ghost start: Snapshot, ghost mail: Mail)
      returns (r: Outcome<Control, ServerError>, ghost seen: nat, ghost trace: seq<(Snapshot, Mail)>)
      requires Valid() && InterestOf(os.k, epollHandle).Some?
      requires IsBatch(os.k, InterestOf(os.k, epollHandle).value, events, watches, MAX_EVENTS)
      requires (SameServer(start, Now()) || TookOver(start, Now())) && start.faults <= Now().faults
      requires (exists e :: e in events && e.broken) ==> start.faults < Now().faults
      requires Conserved(mail, net.Mailbox()) && NoExits(mail, net.Mailbox())
      modifies this, registry`data, os, net, kids, reports
      ensures Conserved(mail, net.Mailbox()) && r != Ok(PollContinue)
      ensures r == Ok(PollBreak) || r == Ok(Shutdown) ==> Valid() && (SameServer(start, Now()) || TookOver(start, Now()))
      ensures r == Ok(PollBreak) ==> start.faults <= Now().faults
      ensures r == Ok(PollBreak) && old(AllAnswered()) ==> AllAnswered()
      ensures r.Ok? && r.value.Trampoline? ==> ChildStarts() && pid != os.k.pid && Descends(start, Now())
      ensures r.Panic? && os.k.pid == start.k.pid ==> MayAbort(start, net.Mailbox(), who, spawnParams)
      ensures RoundEnds(r, start, Now(), mail, net.Mailbox(), who, spawnParams)
      ensures BatchHandled(r, events, watches, seen, trace, who, spawnParams) && r != Err(PollFailure)
      ensures trace[0] == (old(Now()), old(net.Mailbox())) && trace[seen] == (Now(), net.Mailbox())
    {
      ghost var mid, before := Now(), net.Mailbox();
      r, seen, trace := CheckEpollEvents(events, watches);
      NoPollFailure(r, events, watches, seen, trace, who, spawnParams);
      ConservedMore(mail, before, net.Mailbox());
      BatchGoesOn(r, start, mid, Now(), registry.data, View());
      if r.Panic? { AbortsAsBegun(start, mid, Now(), net.Mailbox(), who, spawnParams); }
      BatchEnded(r, events, watches, seen, start, mid, Now(), mail, before, net.Mailbox(), who, spawnParams);
    }

    /** A server shuts its descriptors down; anyone else runs the actions of an application
        child, and does not survive an error.  The abort of a Reopen that is no file cannot
        happen. */
    method Drop() returns (r: Outcome<(), RegistryError>)
      requires registry.os == os && Consistent(os.k, registry.data, View())
      modifies registry`data, os
      ensures os.faults >= old(os.faults) && Frame(old(os.k), os.k) && !r.Panic?
      ensures pid == old(os.k).pid ==> registry.data == old(registry.data)
      ensures pid == old(os.k).pid && r.Ok? ==> OverrideAll(old(os.k), registry.data) == Some(os.k)
      ensures (pid == old(os.k).pid && os.faults == old(os.faults)) ==>
          (r.Ok? <==> forall e | e in registry.data :: !IsClosed(e))
      ensures pid != old(os.k).pid && r.Ok? ==>
                && (forall fd :: fd in os.k.fds <==> fd == LowestFree(old(os.k)) || KeptFor(old(registry.data), fd))
                && epollHandle !in os.k.fds && forall fd | IsWatchedFd(View(), fd) :: fd !in os.k.fds
      ensures (pid != old(os.k).pid && os.faults == old(os.faults)) ==>
                (r.Ok? <==> AllReopen(old(os.k), old(registry.data), Application))
    {
      SoundKernel(os.k, registry.data, View());
      if pid == os.k.pid {
        ShutdownCompletes(os.k, registry.data, View());
        r := registry.OverrideAndClose();
      } else {
        ghost var k, data := os.k, registry.data;
        ApplicationActionsRun(k, data, View());
        r := registry.ExecuteActions(Application);
        if r.Ok? { ApplicationChildEnds(k, data, View()); }
      }
    }

    /** Serves, and drops the server once it has stopped or a child has left it.  `last` is the
        state it was dropped in, `clean` whether dropping it succeeded. */
    method ServeAndDrop(rounds: nat) returns (r: Outcome<Served, ServerError>, ghost last: Snapshot, clean: bool)
      requires Valid() && NoneExecuted(registry.data)
      modifies this, registry`data, os, net, kids, reports
      ensures last.h == View() && last.pid == pid
      ensures RunEnds(r, old(Now()), last, old(net.Mailbox()), net.Mailbox(), who, spawnParams)
      ensures r.Ok? && (r.value.Leaves? || r.value.Stopped?) ==>
                && Consistent(last.k, last.data, last.h) && (r.value.Stopped? <==> last.pid == last.k.pid)
                && Frame(last.k, os.k)
      ensures r.Ok? && r.value.Stopped? ==> SameServer(old(Now()), last) || TookOver(old(Now()), last)
      ensures r.Ok? && r.value.Leaves? ==> exists m :: SameServer(old(Now()), m) && LeftBehind(m, os.k)
      ensures r.Ok? && r.value.Leaves? && clean ==>
                && (forall fd :: fd in os.k.fds <==> fd == LowestFree(last.k) || KeptFor(last.data, fd))
                && last.h.epoll !in os.k.fds && forall fd | IsWatchedFd(last.h, fd) :: fd !in os.k.fds
      ensures r.Ok? && r.value.Stopped? && clean ==> OverrideAll(last.k, last.data) == Some(os.k)
      ensures r.Ok? && r.value.Stopped? && last.k.pid == old(os.k).pid ==>
                && |last.data| - |last.h.clients| == |old(registry.data)| - |old(clientSockets)|
                && OverrideAll(last.k, last.data).Some?
    {
      r := Serve(rounds);
      last, clean := Now(), false;
      if r.Ok? && (r.value.Leaves? || r.value.Stopped?) {
        ShutdownCompletes(last.k, last.data, last.h);
        if r.value.Stopped? && last.k.pid == old(os.k).pid { SlotsAsBegun(old(Now()), last); }
        var dropped := Drop();
        clean := dropped.Ok?;
        if r.value.Leaves? {
          ghost var m :| SameServer(old(Now()), m) && LeftBehind(m, last.k);
          BranchExtends(m.k, last.k, os.k);
          assert LeftBehind(m, os.k);
        }
      }
    }
  }
}
