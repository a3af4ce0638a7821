/** System calls of the running process on file descriptors.  Each may fail for no reason the
    model knows; every such failure is counted in `faults`, so a contract can say
    what a caller gets when none occurred. */
module Os {
  import opened Results
  import opened Kernel
  import opened FileDescriptors

  /** A directory listing of /proc/self/fd; `cut` when reading it broke off. */
  datatype Listing = Listing(fds: seq<Fd>, cut: bool)

  predicate Ascending(fds: seq<Fd>) {
    forall i, j | 0 <= i < j < |fds| :: fds[i] < fds[j]
  }

  /** The listing stops early only because of `cut`. */
  predicate ListsUpTo(fds: seq<Fd>, table: Table, cut: bool) {
    && Ascending(fds)
    && (forall fd | fd in fds :: fd in table)
    && (forall fd | fd in table :: fd in fds || (cut && forall j | 0 <= j < |fds| :: fds[j] < fd))
  }

  /** One element of the array `epoll_wait` fills in. */
  datatype Event = Event(readable: bool, hangup: bool, broken: bool, data: int)

  /** A listening socket and a signalfd never report a hang-up. */
  predicate HangsUp(d: Description) {
    !(d.Socket? && d.role.Listening?) && !d.SignalQueue?
  }

  /** Each watch is reported at most once, with the word it was added with. */
  predicate IsBatch(k: Kernel, interest: map<Watch, int>, events: seq<Event>, watches: seq<Watch>, limit: nat) {
    && |events| == |watches| <= limit
    && (forall i, j | 0 <= i < j < |watches| :: watches[i] != watches[j])
    && (forall i | 0 <= i < |watches| ::
          && watches[i] in interest
          && interest[watches[i]] == events[i].data
          && (events[i].hangup ==> watches[i].id < |k.descs| && HangsUp(k.descs[watches[i].id])))
  }

  class Os {
    var k: Kernel
    ghost var faults: nat

    constructor (k: Kernel)
      ensures this.k == k && faults == 0
    {
      this.k := k;
      faults := 0;
    }

    method Fault() returns (fault: bool)
      modifies this`faults
      ensures if fault then faults == old(faults) + 1 else faults == old(faults)
    {
      fault := *;
      if fault { faults := faults + 1; }
    }

    method Open(path: string, flags: set<StatusFlag>, cloexec: bool) returns (r: Option<Fd>)
      modifies this
      ensures r.Some? ==> path in old(k).fs && r.value == LowestFree(old(k))
                          && k == Opened(old(k), path, flags, cloexec) && faults == old(faults)
      ensures r.None? ==> k == old(k) && faults >= old(faults) && (path in k.fs ==> faults > old(faults))
    {
      var fault := Fault();
      if fault || path !in k.fs {
        r := None;
      } else {
        r := Some(LowestFree(k));
        k := Opened(k, path, flags, cloexec);
      }
    }

    /** An open number is free afterwards even if the call reports an error. */
    method Close(fd: Fd) returns (ok: bool)
      modifies this
      ensures k == if fd in old(k).fds then Closed(old(k), fd) else old(k)
      ensures ok ==> fd in old(k).fds && faults == old(faults)
      ensures !ok ==> faults >= old(faults) && (fd in old(k).fds ==> faults > old(faults))
    {
      var fault := Fault();
      ok := !fault && fd in k.fds;
      if fd in k.fds { k := Closed(k, fd); }
    }

    method Dup3(oldFd: Fd, newFd: Fd, cloexec: bool) returns (ok: bool)
      modifies this
      ensures ok ==> oldFd in old(k).fds && oldFd != newFd
                     && k == Duped(old(k), oldFd, newFd, cloexec) && faults == old(faults)
      ensures !ok ==> k == old(k) && faults >= old(faults)
                      && (oldFd in k.fds && oldFd != newFd ==> faults > old(faults))
    {
      var fault := Fault();
      ok := !fault && oldFd in k.fds && oldFd != newFd;
      if ok { k := Duped(k, oldFd, newFd, cloexec); }
    }

    method SetFdFlags(fd: Fd, cloexec: bool) returns (ok: bool)
      modifies this
      ensures ok ==> fd in old(k).fds && faults == old(faults)
                     && k == old(k).(fds := old(k).fds[fd := old(k).fds[fd].(cloexec := cloexec)])
      ensures !ok ==> k == old(k) && faults >= old(faults) && (fd in k.fds ==> faults > old(faults))
    {
      var fault := Fault();
      ok := !fault && fd in k.fds;
      if ok { k := k.(fds := k.fds[fd := k.fds[fd].(cloexec := cloexec)]); }
    }

    /** F_SETFL on a file: only the bits of SETFL_MASK change. */
    method SetFileFlags(fd: Fd, flags: set<StatusFlag>) returns (ok: bool)
      requires DescAt(k, fd).Some? && DescAt(k, fd).value.OpenFile?
      modifies this
      ensures ok ==> faults == old(faults)
                     && var d := DescAt(old(k), fd).value;
                        k == WithDesc(old(k), fd, d.(flags := d.flags - SETFL_MASK + flags * SETFL_MASK))
      ensures !ok ==> k == old(k) && faults > old(faults)
    {
      var fault := Fault();
      ok := !fault;
      if ok {
        var d := DescAt(k, fd).value;
        k := WithDesc(k, fd, d.(flags := d.flags - SETFL_MASK + flags * SETFL_MASK));
      }
    }

    method Seek(fd: Fd, offset: int) returns (ok: bool)
      requires DescAt(k, fd).Some? && DescAt(k, fd).value.OpenFile?
      modifies this
      ensures ok ==> faults == old(faults) && DescAt(old(k), fd).value.node.seekable
                     && k == WithDesc(old(k), fd, DescAt(old(k), fd).value.(offset := offset))
      ensures !ok ==> k == old(k) && faults >= old(faults)
                      && (DescAt(k, fd).value.node.seekable ==> faults > old(faults))
    {
      var fault := Fault();
      ok := !fault && DescAt(k, fd).value.node.seekable;
      if ok { k := WithDesc(k, fd, DescAt(k, fd).value.(offset := offset)); }
    }

    /** The stat, readlink, fcntl, lseek and getsockname calls behind one reading. */
    method ReadInfo(fd: Fd) returns (r: Option<Info>)
      modifies this`faults
      ensures r.Some? ==> r == CurrentInfo(k, fd) && faults == old(faults)
      ensures r.None? ==> faults >= old(faults) && (CurrentInfo(k, fd).Some? ==> faults > old(faults))
    {
      var fault := Fault();
      r := if fault then None else CurrentInfo(k, fd);
    }

    /** The open numbers in ascending order, without the iterator's own directory. */
    method ListFds() returns (r: Option<Listing>)
      modifies this`faults
      ensures r.Some? ==> ListsUpTo(r.value.fds, k.fds, r.value.cut)
      ensures r.Some? && !r.value.cut ==> faults == old(faults)
      ensures r.None? || r.value.cut ==> faults > old(faults)
    {
      var fds: seq<Fd> := *;
      var cut: bool := *;
      if ListsUpTo(fds, k.fds, cut) {
        r := Some(Listing(fds, cut));
      } else {
        r := None;
      }
      if r.None? || cut { faults := faults + 1; }
    }

    method EpollCreate() returns (r: Option<Fd>)
      modifies this
      ensures r.Some? ==> r.value == LowestFree(old(k)) && k == Allocated(old(k), EpollInstance(map[]), false)
                          && faults == old(faults)
      ensures r.None? ==> k == old(k) && faults > old(faults)
    {
      var fault := Fault();
      if fault {
        r := None;
      } else {
        r := Some(LowestFree(k));
        k := Allocated(k, EpollInstance(map[]), false);
      }
    }

    /** EPOLL_CTL_ADD refuses a number that is already watched for the same description. */
    method EpollAdd(epfd: Fd, fd: Fd, data: int) returns (ok: bool)
      modifies this
      ensures ok ==> faults == old(faults) && CanWatch(old(k), epfd, fd) && k == Watched(old(k), epfd, fd, data)
      ensures !ok ==> k == old(k) && faults >= old(faults) && (CanWatch(k, epfd, fd) ==> faults > old(faults))
    {
      var fault := Fault();
      ok := !fault && CanWatch(k, epfd, fd);
      if ok { k := Watched(k, epfd, fd, data); }
    }

    method EpollDel(epfd: Fd, fd: Fd) returns (ok: bool)
      modifies this
      ensures ok ==> faults == old(faults) && IsWatched(old(k), epfd, fd) && k == Unwatched(old(k), epfd, fd)
      ensures !ok ==> k == old(k) && faults >= old(faults) && (IsWatched(k, epfd, fd) ==> faults > old(faults))
    {
      var fault := Fault();
      ok := !fault && IsWatched(k, epfd, fd);
      if ok { k := Unwatched(k, epfd, fd); }
    }

    /** An error reported on a descriptor is a failure the state does not explain. */
    method EpollWait(epfd: Fd, limit: nat) returns (r: Option<seq<Event>>, ghost watches: seq<Watch>)
      modifies this`faults
      ensures faults >= old(faults)
      ensures r.Some? ==> InterestOf(k, epfd).Some? && IsBatch(k, InterestOf(k, epfd).value, r.value, watches, limit)
      ensures r.None? || (exists e :: e in r.value && e.broken) <==> faults > old(faults)
    {
      var events: seq<Event> := *;
      var from: seq<Watch> := *;
      watches := from;
      if InterestOf(k, epfd).Some? && IsBatch(k, InterestOf(k, epfd).value, events, from, limit) {
        r := Some(events);
      } else {
        r := None;
      }
      if r.None? || exists e :: e in events && e.broken { faults := faults + 1; }
    }

    /** socket and bind together; a failing bind leaves the new socket open. */
    method BoundSocket(address: Address) returns (r: Option<Fd>)
      modifies this
      ensures r.Some? ==> r.value == LowestFree(old(k)) && faults == old(faults)
                          && k == Allocated(Bind(old(k), address), Socket(Plain, Some(address), None, false, true), false)
      ensures r.None? ==> faults > old(faults)
                          && (k == old(k) || k == Allocated(old(k), Socket(Plain, None, None, false, true), false))
    {
      var fault := Fault();
      if fault { return None; }
      var fd := LowestFree(k);
      var named := Fault();
      if named {
        k := Allocated(k, Socket(Plain, None, None, false, true), false);
        return None;
      }
      k := Allocated(Bind(k, address), Socket(Plain, Some(address), None, false, true), false);
      return Some(fd);
    }

    /** F_SETFL with O_NONBLOCK on a socket. */
    method SetNonblocking(fd: Fd) returns (ok: bool)
      requires DescAt(k, fd).Some? && DescAt(k, fd).value.Socket?
      modifies this
      ensures ok ==> faults == old(faults) && k == WithDesc(old(k), fd, DescAt(old(k), fd).value.(nonblocking := true))
      ensures !ok ==> k == old(k) && faults > old(faults)
    {
      var fault := Fault();
      ok := !fault;
      if ok { k := WithDesc(k, fd, DescAt(k, fd).value.(nonblocking := true)); }
    }

    /** Only a bound, unconnected socket can listen. */
    method Listen(fd: Fd) returns (ok: bool)
      requires DescAt(k, fd).Some? && DescAt(k, fd).value.Socket?
      modifies this
      ensures ok ==> faults == old(faults) && CanListen(DescAt(old(k), fd).value)
                     && k == WithDesc(old(k), fd, DescAt(old(k), fd).value.(role := Listening))
      ensures !ok ==> k == old(k) && faults >= old(faults) && (CanListen(DescAt(k, fd).value) ==> faults > old(faults))
    {
      var fault := Fault();
      ok := !fault && CanListen(DescAt(k, fd).value);
      if ok { k := WithDesc(k, fd, DescAt(k, fd).value.(role := Listening)); }
    }

    /** A connection on a listening socket: a socket under the listener's own address. */
    method TakeConnection(listener: Fd) returns (r: Option<Fd>)
      modifies this
      ensures r.Some? ==> && faults == old(faults) && r.value == LowestFree(old(k))
                          && DescAt(old(k), listener).Some? && DescAt(old(k), listener).value.Socket?
                          && exists peer ::
                                k == Allocated(old(k), AcceptedSocket(DescAt(old(k), listener).value, peer), false)
      ensures r.None? ==> k == old(k) && faults > old(faults)
    {
      var fault := Fault();
      var peer: Option<Address> := *;
      if fault {
        r := None;
      } else if DescAt(k, listener).Some? && DescAt(k, listener).value.Socket? {
        r := Some(LowestFree(k));
        k := Allocated(k, AcceptedSocket(DescAt(k, listener).value, peer), false);
      } else {
        r := None;
        faults := faults + 1;
      }
    }

    /** Opens by code outside the model between a fork and the registry's reset: any number of
        files on free numbers, reported in `extra`. */
    method OpenExtras(paths: seq<string>) returns (ghost extra: set<Fd>)
      requires WellFormed(k)
      modifies this
      ensures faults >= old(faults) && Frame(old(k), k)
      ensures extra !! old(k).fds.Keys && k.fds.Keys == old(k).fds.Keys + extra
      ensures forall fd | fd in old(k).fds :: k.fds[fd] == old(k).fds[fd]
    {
      extra := {};
      for i := 0 to |paths|
        invariant faults >= old(faults) && Frame(old(k), k)
        invariant extra !! old(k).fds.Keys && k.fds.Keys == old(k).fds.Keys + extra
        invariant forall fd | fd in old(k).fds :: k.fds[fd] == old(k).fds[fd]
      {
        var r := Open(paths[i], {}, false);
        if r.Some? { extra := extra + {r.value}; }
      }
    }

    method SignalFdCreate() returns (r: Option<Fd>)
      modifies this
      ensures r.Some? ==> r.value == LowestFree(old(k)) && k == Allocated(old(k), SignalQueue, false)
                          && faults == old(faults)
      ensures r.None? ==> k == old(k) && faults > old(faults)
    {
      var fault := Fault();
      if fault {
        r := None;
      } else {
        r := Some(LowestFree(k));
        k := Allocated(k, SignalQueue, false);
      }
    }

    /** The calling process splits in two; the model goes on as one of them. */
    method Fork() returns (r: ForkResult)
      modifies this
      ensures faults >= old(faults)
      ensures r.Failed? ==> k == old(k) && faults > old(faults)
      ensures !r.Failed? ==> faults == old(faults)
      ensures r.InChild? ==> k.pid != old(k).pid && k.pid !in old(k).others && k == ForkedChild(old(k), k.pid)
      ensures r.InParent? ==> r.child != k.pid && r.child !in old(k).others && k == ForkedParent(old(k), r.child)
    {
      var child: Pid := *;
      var follow: bool := *;
      var fault := Fault();
      if fault || child == k.pid || child in k.others {
        if !fault { faults := faults + 1; }
        r := Failed;
      } else if follow {
        k := ForkedChild(k, child);
        r := InChild;
      } else {
        k := ForkedParent(k, child);
        r := InParent(child);
      }
    }
  }

  datatype ForkResult = Failed | InChild | InParent(child: Pid)

  predicate CanListen(d: Description) {
    d.Socket? && d.local.Some? && d.peer.None?
  }

  function AcceptedSocket(listener: Description, peer: Option<Address>): Description
    requires listener.Socket?
  {
    Socket(Accepted, listener.local, peer, false, listener.seqpacket)
  }

  // ---- epoll interest lists ----

  function InterestOf(k: Kernel, epfd: Fd): Option<map<Watch, int>> {
    match DescAt(k, epfd)
    case Some(EpollInstance(interest)) => Some(interest)
    case _ => None
  }

  function WatchOf(k: Kernel, fd: Fd): Watch
    requires fd in k.fds
  {
    Watch(fd, k.fds[fd].id)
  }

  predicate IsWatched(k: Kernel, epfd: Fd, fd: Fd) {
    InterestOf(k, epfd).Some? && fd in k.fds && WatchOf(k, fd) in InterestOf(k, epfd).value
  }

  predicate CanWatch(k: Kernel, epfd: Fd, fd: Fd) {
    InterestOf(k, epfd).Some? && fd in k.fds && WatchOf(k, fd) !in InterestOf(k, epfd).value
  }

  function Watched(k: Kernel, epfd: Fd, fd: Fd, data: int): Kernel
    requires CanWatch(k, epfd, fd)
  {
    WithDesc(k, epfd, EpollInstance(InterestOf(k, epfd).value[WatchOf(k, fd) := data]))
  }

  function Unwatched(k: Kernel, epfd: Fd, fd: Fd): Kernel
    requires IsWatched(k, epfd, fd)
  {
    WithDesc(k, epfd, EpollInstance(InterestOf(k, epfd).value - {WatchOf(k, fd)}))
  }
}
