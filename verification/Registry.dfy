/** The file descriptor registry: a sorted table kept in step with the kernel's own. */
module Registry {
  import opened Results
  import opened Kernel
  import opened FileDescriptors
  import opened ForkEffects
  import opened Os

  const REGISTRY_SIZE: nat := 128

  const ALLOWED_FILE_PATHS: seq<string> := ["/dev/null", "/dev/urandom"]

  datatype AuditError =
    | FileDescriptorAbsent(absent: Fd)
    | FileDescriptorUnexpected(unexpected: Fd)
    | RegistryOrderMismatch(expected: Fd, actual: Fd)
    | RegistryStateMismatch(mismatched: Fd)
    | AuditInfoFailure(unreadable: Fd)
    | AuditProcFailure

  datatype RegistryError =
    | AuditFailure(audit: AuditError)
    | DevNullFailure
    | EntryActionFailure(failed: Fd)
    | FdInfoFailure(unreadable: Fd)
    | InvalidActionForFileType(invalid: Fd)
    | ProcFailure
    | ReregisteredFd(registered: Fd)
    | Unregistered(unexpected: Fd, info: Info)
    | UnregisteredFd(unknown: Fd)

  /** The allow lists and action lookups of one species, and the registry's own lists. */
  datatype Policy = Policy(
    fileAllowed: string -> bool,
    fileAction: string -> Option<Action>,
    boundAllowed: Address -> bool,
    peerAllowed: string -> bool,
    peerAction: string -> Option<Action>)

  /** Which numbers can be allowed, and by which list. */
  predicate MayAdd(policy: Policy, info: Info) {
    match info
    case File(_, _, path, _, _, _, _) => path == "/dev/null" || path == "/dev/urandom" || policy.fileAllowed(path)
    case ConnectedSocket(address) => address.PathAddress? && policy.peerAllowed(address.text)
    case BoundSocket(address) => policy.boundAllowed(address)
    case EpollFd | Fifo | SignalFd => false
  }

  /** What the species says should become of such a number. */
  function AskedFor(policy: Policy, info: Info): Option<Action> {
    match info
    case File(_, _, path, _, _, _, _) => policy.fileAction(path)
    case ConnectedSocket(address) => if address.PathAddress? then policy.peerAction(address.text) else None
    case BoundSocket(_) | EpollFd | Fifo | SignalFd => None
  }

  /** An allowed number is treated as the species asks; where it does not ask, a file is opened
      again and a socket becomes /dev/null. */
  predicate AddedAs(policy: Policy, info: Info, action: Action) {
    && MayAdd(policy, info)
    && match AskedFor(policy, info)
       case Some(asked) => action == asked
       case None => if info.File? then action == Reopen else action == DupeNull
  }

  /** The action `register_new` gives an unregistered descriptor; None when it is not allowed. */
  function DefaultAction(policy: Policy, info: Info): (r: Option<Action>)
    ensures r.Some? <==> MayAdd(policy, info)
    ensures r.Some? ==> AddedAs(policy, info, r.value)
  {
    match info
    case BoundSocket(address) => if policy.boundAllowed(address) then Some(DupeNull) else None
    case ConnectedSocket(address) =>
      if address.PathAddress? && policy.peerAllowed(address.text)
      then Some(GetOr(policy.peerAction(address.text), DupeNull))
      else None
    case File(_, _, path, _, _, _, _) =>
      if path in ALLOWED_FILE_PATHS || policy.fileAllowed(path)
      then Some(GetOr(policy.fileAction(path), Reopen))
      else None
    case EpollFd | Fifo | SignalFd => None
  }

  function GetOr<T>(o: Option<T>, default: T): T {
    match o
    case Some(value) => value
    case None => default
  }

  /** A species never asks for a peer socket to be reopened. */
  ghost predicate NoPeerReopen(policy: Policy) {
    forall path :: policy.peerAction(path) != Some(Reopen)
  }

  const STDIO: set<Fd> := {0, 1, 2}

  /** Exactly the three standard streams, each ignored. */
  ghost predicate StandardStreams(data: seq<Entry>, k: Kernel) {
    && |data| == 3
    && (forall fd | fd in STDIO :: HasEntry(data, fd))
    && forall e | e in data :: e.fd in STDIO && e.action == Ignore && !e.executed && Describes(k, e)
  }

  class FileDescriptorRegistry {
    const os: Os
    const policy: Policy
    var data: seq<Entry>

    /** A table with nothing in it; `New` fills in the standard streams. */
    constructor (os: Os, policy: Policy)
      ensures this.os == os && this.policy == policy && data == []
    {
      this.os := os;
      this.policy := policy;
      data := [];
    }

    /** A registry that ignores standard input, output and error, and holds nothing else.  It
        is there, without unexplained failures, if and only if all three can be described. */
    static method New(os: Os, policy: Policy) returns (r: Outcome<FileDescriptorRegistry, RegistryError>)
      modifies os`faults
      ensures os.faults >= old(os.faults) && !r.Panic?
      ensures r.Ok? ==>
                && fresh(r.value) && r.value.os == os && r.value.policy == policy && r.value.Valid()
                && StandardStreams(r.value.data, os.k)
      ensures os.faults == old(os.faults) ==> (r.Ok? <==> forall fd | fd in STDIO :: CurrentInfo(os.k, fd).Some?)
    {
      var registry := new FileDescriptorRegistry(os, policy);
      for fd := 0 to 3
        invariant fresh(registry) && registry.os == os && registry.policy == policy && registry.Valid()
        invariant os.faults >= old(os.faults) && |registry.data| == fd
        invariant forall x | 0 <= x < fd :: CurrentInfo(os.k, x).Some?
        invariant forall e :: e in registry.data <==>
                              0 <= e.fd < fd && CurrentInfo(os.k, e.fd).Some?
                              && e == NewEntry(e.fd, CurrentInfo(os.k, e.fd).value, Ignore)
      {
        var registered := registry.Register(fd, Ignore);
        match registered {
          case Err(error) => return Err(error);
          case Panic => return Panic;
          case Ok(_) =>
        }
      }
      forall fd | fd in STDIO ensures HasEntry(registry.data, fd) {
        assert NewEntry(fd, CurrentInfo(os.k, fd).value, Ignore) in registry.data;
      }
      return Ok(registry);
    }

    ghost predicate Valid()
      reads this
    {
      Sorted(data) && |data| <= REGISTRY_SIZE
    }

    /** A closed slot is reused, a live one refused, and a new number inserted in order. */
    method Register(fd: Fd, action: Action) returns (r: Outcome<(), RegistryError>)
      requires Valid()
      modifies this`data, os`faults
      ensures Valid() && os.faults >= old(os.faults)
      ensures !r.Ok? ==> data == old(data)
      ensures r.Ok? ==>
                && os.faults == old(os.faults) && !HasLive(old(data), fd) && CurrentInfo(os.k, fd).Some?
                && (forall e :: e in data <==> (e in old(data) && e.fd != fd)
                                               || e == NewEntry(fd, CurrentInfo(os.k, fd).value, action))
                && |data| == |old(data)| + (if HasEntry(old(data), fd) then 0 else 1)
      ensures r.Ok? && action.Reopen? && !HasEntry(old(data), fd) ==> CurrentInfo(os.k, fd).value.File?
      ensures r.Panic? ==> |data| == REGISTRY_SIZE && !HasEntry(data, fd)
      ensures (os.faults == old(os.faults) && !HasLive(old(data), fd) && CurrentInfo(os.k, fd).Some? && action != Reopen) ==>
                !r.Err?
      ensures r == Err(ReregisteredFd(fd)) <==> HasLive(old(data), fd)
      ensures r == Err(InvalidActionForFileType(fd)) ==>
                action.Reopen? && !HasEntry(data, fd) && CurrentInfo(os.k, fd).Some? && !CurrentInfo(os.k, fd).value.File?
    {
      SearchFinds(data, fd);
      var i := LowerBound(data, fd);
      if FoundAt(data, fd, i) {
        assert HasLive(data, fd) <==> !IsClosed(data[i]) by {
          if HasLive(data, fd) {
            var e :| e in data && e.fd == fd && !IsClosed(e);
            SameFdSameEntry(data, e, data[i]);
          }
        }
        if IsClosed(data[i]) {
          var info := os.ReadInfo(fd);
          if info.None? { return Err(FdInfoFailure(fd)); }
          ReplacedSpec(data, i, NewEntry(fd, info.value, action));
          data := data[i := NewEntry(fd, info.value, action)];
          return Ok(());
        } else {
          return Err(ReregisteredFd(fd));
        }
      } else {
        var info := os.ReadInfo(fd);
        if info.None? { return Err(FdInfoFailure(fd)); }
        if action.Reopen? && !info.value.File? {
          return Err(InvalidActionForFileType(fd));
        }
        if |data| == REGISTRY_SIZE { return Panic; }
        InsertedSpec(data, NewEntry(fd, info.value, action));
        data := Inserted(data, i, NewEntry(fd, info.value, action));
        return Ok(());
      }
    }

    method Remove(fd: Fd) returns (r: Outcome<(), RegistryError>)
      requires Valid()
      modifies this`data
      ensures Valid()
      ensures r == if HasEntry(old(data), fd) then Ok(()) else Err(UnregisteredFd(fd))
      ensures forall e :: e in data <==> e in old(data) && e.fd != fd
      ensures |data| == |old(data)| - (if r.Ok? then 1 else 0)
    {
      SearchFinds(data, fd);
      var i := LowerBound(data, fd);
      if FoundAt(data, fd, i) {
        WithoutSpec(data, i);
        data := Without(data, i);
        return Ok(());
      } else {
        return Err(UnregisteredFd(fd));
      }
    }

    /** One cursor step: with everything before the cursor below `fd`, the scan answers plain
        membership in the first `end` entries and leaves the cursor right for any larger number. */
    method IsRegistered(fd: Fd, index: nat, end: nat) returns (found: bool, next: nat)
      requires index <= end <= |data| && Sorted(data[..end])
      requires forall j | 0 <= j < index :: data[j].fd < fd
      ensures found <==> HasEntry(data[..end], fd)
      ensures index <= next <= end && forall j | 0 <= j < next :: data[j].fd <= fd
    {
      next := index;
      while next < end
        invariant index <= next <= end
        invariant forall j | 0 <= j < next :: data[j].fd < fd
      {
        if data[next].fd < fd {
          next := next + 1;
        } else if data[next].fd == fd {
          assert data[..end][next] == data[next];
          next := next + 1;
          return true, next;
        } else {
          forall e | e in data[..end] ensures e.fd != fd {
            var j :| 0 <= j < end && data[..end][j] == e;
            assert j < next || data[..end][next] == data[next];
          }
          return false, next;
        }
      }
      assert forall e | e in data[..end] :: e.fd != fd;
      return false, next;
    }

    /** Ok exactly when the live entries are the open descriptors with their current
        information; an error that is no read failure names a real divergence. */
    method Audit() returns (r: Outcome<(), AuditError>)
      requires Valid()
      modifies os`faults
      ensures os.faults >= old(os.faults)
      ensures r.Ok? ==> Agree(data, os.k)
      ensures os.faults == old(os.faults) ==> (r.Ok? <==> Agree(data, os.k))
      ensures r.Err? ==>
        match r.error
        case FileDescriptorAbsent(fd) => HasLive(data, fd) && fd !in os.k.fds
        case FileDescriptorUnexpected(fd) => !HasLive(data, fd) && fd in os.k.fds
        case RegistryOrderMismatch(expected, actual) =>
          (HasLive(data, expected) && expected !in os.k.fds) || (!HasLive(data, actual) && actual in os.k.fds)
        case RegistryStateMismatch(fd) => exists e :: e in data && e.fd == fd && !IsClosed(e) && !Describes(os.k, e)
        case AuditInfoFailure(fd) => fd in os.k.fds && (os.faults > old(os.faults) || CurrentInfo(os.k, fd).None?)
        case AuditProcFailure => os.faults > old(os.faults)
      ensures !r.Panic?
    {
      var listing := os.ListFds();
      if listing.None? { return Err(AuditProcFailure); }
      var fds, cut, live := listing.value.fds, listing.value.cut, LiveEntries(data);
      LiveEntriesSpec(data);
      var i := 0;
      while i < |live| || i < |fds|
        invariant i <= |fds| && i <= |live|
        invariant forall j | 0 <= j < i :: live[j].fd == fds[j] && Describes(os.k, live[j])
        invariant os.faults >= old(os.faults)
        invariant os.faults == old(os.faults) <==> !cut
        decreases |live| + |fds| - i
      {
        if i < |live| && i < |fds| {
          assert live[i] in live && fds[i] in fds;
          if live[i].fd != fds[i] {
            OrderDiffers(data, live, fds, os.k.fds, cut, i);
            return Err(RegistryOrderMismatch(live[i].fd, fds[i]));
          }
          var info := os.ReadInfo(fds[i]);
          if info.None? { return Err(AuditInfoFailure(fds[i])); }
          if live[i].info != info.value {
            return Err(RegistryStateMismatch(live[i].fd));
          }
        } else if i < |live| {
          if cut { return Err(AuditProcFailure); }
          assert live[i] in live;
          LongerLive(data, live, fds, os.k.fds, i);
          return Err(FileDescriptorAbsent(live[i].fd));
        } else {
          assert fds[i] in fds;
          var info := os.ReadInfo(fds[i]);
          if info.None? { return Err(AuditInfoFailure(fds[i])); }
          LongerOpen(data, live, fds, i);
          return Err(FileDescriptorUnexpected(fds[i]));
        }
        i := i + 1;
      }
      if cut { return Err(AuditProcFailure); }
      SameSequences(data, live, fds, os.k);
      return Ok(());
    }

    /** Performs one entry's action; the flag returned is the entry's own, so a second call
        on an executed entry answers true without doing anything. */
    method Execute(i: nat, dn: Fd, ft: ForkType) returns (r: Outcome<bool, RegistryError>)
      requires i < |data| && WellFormed(os.k)
      modifies this`data, os
      ensures os.faults >= old(os.faults) && Frame(old(os.k), os.k)
      ensures r.Panic? <==> Performs(old(data)[i], ft) && old(data)[i].action.Reopen? && !old(data)[i].info.File?
      ensures r.Ok? ==> (Performs(old(data)[i], ft) ==> CanAct(old(os.k), old(data)[i], dn))
                        && os.k == Acted(old(os.k), old(data)[i], dn, ft)
                        && data == old(data)[i := Marked(old(data)[i], ft)]
                        && r.value == data[i].executed && os.faults == old(os.faults)
      ensures !r.Ok? ==> data == old(data)
      ensures os.faults == old(os.faults) ==> (r.Ok? <==> (Performs(data[i], ft) ==> CanAct(old(os.k), old(data)[i], dn)))
    {
      var e := data[i];
      if !e.executed {
        match e.action {
          case Close =>
            var ok := os.Close(e.fd);
            if !ok { return Err(EntryActionFailure(e.fd)); }
            data := data[i := e.(executed := true)];
          case CloseUnlessSpawnSubspecies =>
            if ft.Application? {
              var ok := os.Close(e.fd);
              if !ok { return Err(EntryActionFailure(e.fd)); }
              data := data[i := e.(executed := true)];
            }
          case DupeNull =>
            var ok := os.Dup3(dn, e.fd, true);
            if !ok { return Err(EntryActionFailure(e.fd)); }
            data := data[i := e.(executed := true)];
          case Ignore =>
          case Reopen =>
            if !e.info.File? { return Panic; }
            var ok := ReopenFile(e);
            if !ok { return Err(EntryActionFailure(e.fd)); }
            data := data[i := e.(executed := true)];
        }
      }
      return Ok(data[i].executed);
    }

    /** Opens the recorded path on a temporary number, restores flags and offset there, and
        moves it over the registered number. */
    method ReopenFile(e: Entry) returns (ok: bool)
      requires WellFormed(os.k) && e.info.File?
      modifies os
      ensures os.faults >= old(os.faults) && Frame(old(os.k), os.k)
      ensures ok ==> e.info.path in old(os.k).fs && old(os.k).fs[e.info.path].seekable && e.fd != LowestFree(old(os.k))
                     && os.k == Acted(old(os.k), Entry(e.fd, e.info, Reopen, false), 0, Application)
                     && os.faults == old(os.faults)
      ensures !ok ==> os.faults > old(os.faults)
                      || !(e.info.path in old(os.k).fs && old(os.k).fs[e.info.path].seekable
                           && e.fd != LowestFree(old(os.k)))
    {
      ghost var k0 := os.k;
      var tmp := os.Open(e.info.path, e.info.openFlags, false);
      if tmp.None? { return false; }
      var newFd := tmp.value;
      ok := os.SetFdFlags(newFd, e.info.cloexec);
      if !ok { return; }
      ok := os.SetFileFlags(newFd, e.info.fcntlFlags);
      if !ok { return; }
      ok := os.Seek(newFd, e.info.offset);
      if !ok { return; }
      assert os.k.descs == k0.descs + [Reopened(k0.fs, e.info)];
      assert os.k.fds == k0.fds[newFd := Slot(|k0.descs|, e.info.cloexec)];
      ok := os.Dup3(newFd, e.fd, e.info.cloexec);
      if !ok { return; }
      ok := os.Close(newFd);
      assert os.k.fds == k0.fds[e.fd := Slot(|k0.descs|, e.info.cloexec)];
    }

    /** Runs every entry's action in table order.  On success the descriptor on /dev/null
        stays open beside whatever the actions leave. */
    method ExecuteActions(ft: ForkType) returns (r: Outcome<(), RegistryError>)
      requires WellFormed(os.k)
      modifies this`data, os
      ensures os.faults >= old(os.faults) && Frame(old(os.k), os.k)
      ensures r.Ok? ==> AfterActions(old(os.k), old(data), ft) == Some(os.k) && data == MarkedAll(old(data), ft)
      ensures os.faults == old(os.faults) ==> (r.Ok? <==> AfterActions(old(os.k), old(data), ft).Some?)
      ensures r.Panic? ==> !ReopensFiles(old(data))
      ensures |data| == |old(data)|
    {
      var dn := os.Open(DEV_NULL, {Rdwr}, true);
      if dn.None? { return Err(DevNullFailure); }
      ghost var k0 := os.k;
      var i := 0;
      while i < |data|
        invariant i <= |data| == |old(data)| && os.faults == old(os.faults)
        invariant Frame(old(os.k), os.k)
        invariant ActedAll(k0, old(data)[..i], dn.value, ft) == Some(os.k)
        invariant forall j | 0 <= j < |data| :: data[j] == if j < i then Marked(old(data)[j], ft) else old(data)[j]
      {
        assert old(data)[..i + 1][..i] == old(data)[..i];
        var done := this.Execute(i, dn.value, ft);
        if !done.Ok? {
          assert os.faults == old(os.faults) ==> AfterActions(old(os.k), old(data), ft).None? by {
            if os.faults == old(os.faults) { StuckStaysStuck(k0, old(data), dn.value, ft, i + 1); }
          }
          assert done.Panic? ==> old(data)[i] in old(data);
          return if done.Panic? then Panic else Err(done.error);
        }
        i := i + 1;
      }
      assert old(data)[..|data|] == old(data);
      return Ok(());
    }

    /** Closes everything that is not to be ignored, stopping at the first failure. */
    method OverrideAndClose() returns (r: Outcome<(), RegistryError>)
      modifies os
      ensures os.faults >= old(os.faults)
      ensures WellFormed(old(os.k)) ==> Frame(old(os.k), os.k)
      ensures r.Ok? ==> OverrideAll(old(os.k), data) == Some(os.k)
      ensures os.faults == old(os.faults) ==> (r.Ok? <==> OverrideAll(old(os.k), data).Some?)
      ensures !r.Panic?
    {
      var i := 0;
      while i < |data|
        invariant i <= |data| && os.faults == old(os.faults)
        invariant WellFormed(old(os.k)) ==> Frame(old(os.k), os.k)
        invariant OverrideAll(old(os.k), data[..i]) == Some(os.k)
      {
        assert data[..i + 1][..i] == data[..i];
        if !data[i].action.Ignore? {
          var ok := os.Close(data[i].fd);
          if !ok {
            if os.faults == old(os.faults) { OverrideStuck(old(os.k), data, i + 1); }
            return Err(EntryActionFailure(data[i].fd));
          }
        }
        i := i + 1;
      }
      assert data[..|data|] == data;
      return Ok(());
    }

    /** Registers every open number that has no entry, with the action its kind and name
        are allowed; the entries it had keep their place in the order. */
    method RegisterNew() returns (r: Outcome<(), RegistryError>)
      requires Valid() && WellFormed(os.k)
      modifies this`data, os`faults
      ensures os.faults >= old(os.faults)
      ensures r.Ok? ==> Valid() && NewRegistered(old(data), data, os.k)
      ensures r.Ok? ==> forall e | e in data && e !in old(data) :: AddedAs(policy, e.info, e.action)
      ensures old(data) <= data || r.Ok?
      ensures NoPeerReopen(policy) && ReopensFiles(old(data)) && r.Ok? ==> ReopensFiles(data)
      ensures r.Panic? ==> |data| == REGISTRY_SIZE
      ensures r.Err? ==>
        match r.error
        case Unregistered(fd, info) =>
          fd in os.k.fds && !HasEntry(old(data), fd) && CurrentInfo(os.k, fd) == Some(info) && !MayAdd(policy, info)
        case FdInfoFailure(fd) =>
          && fd in os.k.fds && !HasEntry(old(data), fd)
          && (os.faults > old(os.faults) || CurrentInfo(os.k, fd).None?)
        case ProcFailure => os.faults > old(os.faults)
        case _ => false
      ensures (os.faults == old(os.faults) && !r.Panic? && forall fd | fd in os.k.fds && !HasEntry(old(data), fd) ::
                CurrentInfo(os.k, fd).Some? && MayAdd(policy, CurrentInfo(os.k, fd).value)) ==> r.Ok?
    {
      ghost var before := data;
      var count := |data|;
      var listing := os.ListFds();
      if listing.None? { return Err(ProcFailure); }
      var fds, cut := listing.value.fds, listing.value.cut;
      ghost var news;
      r, news := AppendNew(fds);
      if !r.Ok? { return; }
      if cut { return Err(ProcFailure); }
      if |data| != count {
        data := SortedByFd(data);
      }
      AppendedThenSorted(before, news, fds, os.k, policy, data);
      return Ok(());
    }

    /** Goes over a listing and appends an entry for every number in it that had none. */
    method AppendNew(fds: seq<Fd>) returns (r: Outcome<(), RegistryError>, ghost news: seq<Entry>)
      requires Valid() && Ascending(fds) && forall fd | fd in fds :: fd in os.k.fds
      modifies this`data, os`faults
      ensures os.faults >= old(os.faults) && data == old(data) + news && |data| <= REGISTRY_SIZE
      ensures r.Ok? ==> Appended(old(data), news, fds, os.k, policy) && os.faults == old(os.faults)
      ensures r.Panic? ==> |data| == REGISTRY_SIZE
      ensures r.Err? ==>
                exists fd :: fd in fds && !HasEntry(old(data), fd) && Unregistrable(r.error, fd, os.faults > old(os.faults))
    {
      ghost var before := data;
      var index, count := 0, |data|;
      news := [];
      var i := 0;
      while i < |fds|
        invariant i <= |fds| && index <= count == |before| && |data| <= REGISTRY_SIZE
        invariant data == before + news
        invariant i < |fds| ==> forall j | 0 <= j < index :: before[j].fd < fds[i]
        invariant Appended(before, news, fds[..i], os.k, policy)
        invariant os.faults == old(os.faults)
      {
        var fd := fds[i];
        assert data[..count] == before;
        var found;
        found, index := IsRegistered(fd, index, count);
        if found {
          AppendedSkip(before, news, fds, i, os.k, policy);
        } else {
          assert fd in fds;
          var allowed := AllowedEntry(fd);
          if allowed.Err? { return Err(allowed.error), news; }
          if |data| == REGISTRY_SIZE { return Panic, news; }
          var e := allowed.value;
          data := data + [e];
          AppendedStep(before, news, fds, i, e, os.k, policy);
          news := news + [e];
        }
        i := i + 1;
      }
      assert fds[..i] == fds;
      return Ok(()), news;
    }

    /** Why a number cannot be given an entry: it is not allowed one, or it cannot be read. */
    ghost predicate Unregistrable(error: RegistryError, fd: Fd, faulted: bool)
      reads os`k
    {
      || (CurrentInfo(os.k, fd).Some? && error == Unregistered(fd, CurrentInfo(os.k, fd).value)
          && !MayAdd(policy, CurrentInfo(os.k, fd).value))
      || (error == FdInfoFailure(fd) && (faulted || CurrentInfo(os.k, fd).None?))
    }

    /** The entry of a number that has none, if it is allowed one. */
    method AllowedEntry(fd: Fd) returns (r: Outcome<Entry, RegistryError>)
      modifies os`faults
      ensures os.faults >= old(os.faults) && !r.Panic?
      ensures r.Ok? ==>
                && os.faults == old(os.faults) && r.value.fd == fd && !r.value.executed
                && (fd in os.k.fds ==> Describes(os.k, r.value)) && AddedAs(policy, r.value.info, r.value.action)
      ensures r.Err? ==> Unregistrable(r.error, fd, os.faults > old(os.faults))
    {
      var info := os.ReadInfo(fd);
      if info.None? { return Err(FdInfoFailure(fd)); }
      var action := DefaultAction(policy, info.value);
      if action.None? { return Err(Unregistered(fd, info.value)); }
      return Ok(NewEntry(fd, info.value, action.value));
    }

    /** Puts a child's registry back into service; `extra` are the numbers the child opened
        since the fork.  Without unexplained failures this succeeds exactly when `Resettable`. */
    method ResetForSubspecies(ghost extra: set<Fd>) returns (r: Outcome<(), RegistryError>)
      requires Valid() && WellFormed(os.k) && AgreeExcept(data, os.k, extra)
      modifies this`data, os
      ensures os.faults >= old(os.faults) && Frame(old(os.k), os.k)
      ensures r.Ok? ==> Valid() && Agree(data, os.k)
      ensures r.Ok? ==> AfterActions(old(os.k), old(data), Subspecies) == Some(os.k)
                        && NewRegistered(MarkedAll(old(data), Subspecies), data, os.k)
      ensures r.Ok? ==> os.k.bound == old(os.k).bound
      ensures r.Ok? && NoPeerReopen(policy) && ReopensFiles(old(data)) ==> ReopensFiles(data)
      ensures r.Ok? ==> Resettable(old(os.k), old(data), extra, policy)
      ensures r.Panic? && ReopensFiles(old(data)) ==> |data| == REGISTRY_SIZE
      ensures os.faults == old(os.faults) && !r.Panic? && Resettable(old(os.k), old(data), extra, policy) ==> r.Ok?
    {
      ghost var k0, before := os.k, data;
      MarkedMembers(data, Subspecies);
      ResetActionsRun(k0, data, extra, policy);
      var acted := ExecuteActions(Subspecies);
      if !acted.Ok? { return acted; }
      ResetAllowed(k0, os.k, before, extra, policy);
      var registered := RegisterNew();
      if !registered.Ok? { return registered; }
      AuditAfterReset(k0, before, extra, Subspecies, data);
      var audited := Audit();
      match audited {
        case Ok(_) =>
          ActionsBindNothing(WithNull(k0), before, LowestFree(k0), Subspecies);
          ResetWasPossible(k0, os.k, before, extra, policy, data);
          return Ok(());
        case Err(error) => return Err(AuditFailure(error));
        case Panic => return Panic;
      }
    }
  }

  /** The entries `audit` compares, in order. */
  function LiveEntries(data: seq<Entry>): seq<Entry> {
    if data == [] then []
    else (if IsClosed(data[0]) then [] else [data[0]]) + LiveEntries(data[1..])
  }

  lemma {:induction false} LiveEntriesSpec(data: seq<Entry>)
    requires Sorted(data)
    ensures Sorted(LiveEntries(data))
    ensures forall e :: e in LiveEntries(data) <==> e in data && !IsClosed(e)
  {
    if data != [] {
      LiveEntriesSpec(data[1..]);
      var rest := LiveEntries(data[1..]);
      assert data == [data[0]] + data[1..];
      forall j | 0 <= j < |rest| ensures data[0].fd < rest[j].fd {
        assert rest[j] in data[1..];
      }
    }
  }

  /** Two ascending sequences that agree up to `i` and differ there: the smaller of the two
      elements is missing from the other side. */
  lemma OrderDiffers(data: seq<Entry>, live: seq<Entry>, fds: seq<Fd>, table: Table, cut: bool, i: nat)
    requires Sorted(live) && (forall e :: e in live <==> e in data && !IsClosed(e))
    requires ListsUpTo(fds, table, cut) && i < |live| && i < |fds| && live[i].fd != fds[i]
    requires forall j | 0 <= j < i :: live[j].fd == fds[j]
    ensures (HasLive(data, live[i].fd) && live[i].fd !in table) || (!HasLive(data, fds[i]) && fds[i] in table)
  {
  }

  /** Both sequences ran out together. */
  lemma SameSequences(data: seq<Entry>, live: seq<Entry>, fds: seq<Fd>, k: Kernel)
    requires forall e :: e in live <==> e in data && !IsClosed(e)
    requires ListsUpTo(fds, k.fds, false) && |live| == |fds|
    requires forall j | 0 <= j < |live| :: live[j].fd == fds[j] && Describes(k, live[j])
    ensures Agree(data, k)
  {
  }

  lemma LongerLive(data: seq<Entry>, live: seq<Entry>, fds: seq<Fd>, table: Table, i: nat)
    requires Sorted(live) && (forall e :: e in live <==> e in data && !IsClosed(e))
    requires ListsUpTo(fds, table, false) && |fds| == i < |live|
    requires forall j | 0 <= j < i :: live[j].fd == fds[j]
    ensures HasLive(data, live[i].fd) && live[i].fd !in table
  {
  }

  lemma LongerOpen(data: seq<Entry>, live: seq<Entry>, fds: seq<Fd>, i: nat)
    requires forall e :: e in live <==> e in data && !IsClosed(e)
    requires Ascending(fds) && |live| == i < |fds|
    requires forall j | 0 <= j < i :: live[j].fd == fds[j]
    ensures !HasLive(data, fds[i])
  {
  }

  // ---- register_new ----

  /** `news` holds one allowed entry, in order, for each of `fds` that `data` has none for. */
  ghost predicate Appended(data: seq<Entry>, news: seq<Entry>, fds: seq<Fd>, k: Kernel, policy: Policy) {
    && Sorted(news)
    && (forall e | e in news ::
          e.fd in fds && !HasEntry(data, e.fd) && !e.executed && Describes(k, e)
          && AddedAs(policy, e.info, e.action))
    && (forall fd | fd in fds && !HasEntry(data, fd) :: HasLive(news, fd))
  }

  function SortedByFd(data: seq<Entry>): (r: seq<Entry>)
    ensures |r| == |data|
  {
    if data == [] then []
    else
      var rest := SortedByFd(data[1..]);
      Inserted(rest, LowerBound(rest, data[0].fd), data[0])
  }

  lemma {:induction false} SortedByFdSpec(data: seq<Entry>)
    requires forall i, j | 0 <= i < j < |data| :: data[i].fd != data[j].fd
    ensures Sorted(SortedByFd(data))
    ensures forall e :: e in SortedByFd(data) <==> e in data
  {
    if data != [] {
      SortedByFdSpec(data[1..]);
      var rest := SortedByFd(data[1..]);
      assert data == [data[0]] + data[1..];
      assert !HasEntry(rest, data[0].fd);
      InsertedSpec(rest, data[0]);
    }
  }

  lemma AppendedSkip(data: seq<Entry>, news: seq<Entry>, fds: seq<Fd>, i: nat, k: Kernel, policy: Policy)
    requires i < |fds| && Appended(data, news, fds[..i], k, policy) && HasEntry(data, fds[i])
    ensures Appended(data, news, fds[..i + 1], k, policy)
  {
  }

  lemma AppendedStep(data: seq<Entry>, news: seq<Entry>, fds: seq<Fd>, i: nat, e: Entry, k: Kernel, policy: Policy)
    requires Ascending(fds) && i < |fds| && Appended(data, news, fds[..i], k, policy)
    requires e.fd == fds[i] && !HasEntry(data, e.fd) && !e.executed && Describes(k, e)
    requires AddedAs(policy, e.info, e.action)
    ensures Appended(data, news + [e], fds[..i + 1], k, policy)
  {
  }

  lemma AppendedThenSorted(data: seq<Entry>, news: seq<Entry>, fds: seq<Fd>, k: Kernel, policy: Policy, after: seq<Entry>)
    requires Sorted(data) && Appended(data, news, fds, k, policy)
    requires ListsUpTo(fds, k.fds, false)
    requires after == if news == [] then data else SortedByFd(data + news)
    ensures NewRegistered(data, after, k)
    ensures forall e | e in after && e !in data :: AddedAs(policy, e.info, e.action)
    ensures NoPeerReopen(policy) && ReopensFiles(data) ==> ReopensFiles(after)
  {
    MergedMembers(data, news, fds, k, policy, after);
    MergedIsNewRegistered(data, news, fds, k, policy, after);
    MergedActions(data, news, fds, k, policy, after);
  }

  lemma MergedMembers(data: seq<Entry>, news: seq<Entry>, fds: seq<Fd>, k: Kernel, policy: Policy, after: seq<Entry>)
    requires Sorted(data) && Appended(data, news, fds, k, policy)
    requires after == if news == [] then data else SortedByFd(data + news)
    ensures Sorted(after)
    ensures forall e :: e in after <==> e in data || e in news
  {
    if news != [] {
      AppendedDistinct(data, news, fds, k, policy);
      SortedByFdSpec(data + news);
    }
  }

  lemma MergedActions(data: seq<Entry>, news: seq<Entry>, fds: seq<Fd>, k: Kernel, policy: Policy, after: seq<Entry>)
    requires Appended(data, news, fds, k, policy)
    requires forall e :: e in after <==> e in data || e in news
    ensures forall e | e in after && e !in data :: AddedAs(policy, e.info, e.action)
    ensures NoPeerReopen(policy) && ReopensFiles(data) ==> ReopensFiles(after)
  {
  }

  lemma MergedIsNewRegistered(data: seq<Entry>, news: seq<Entry>, fds: seq<Fd>, k: Kernel, policy: Policy, after: seq<Entry>)
    requires Appended(data, news, fds, k, policy) && ListsUpTo(fds, k.fds, false)
    requires Sorted(after) && forall e :: e in after <==> e in data || e in news
    ensures NewRegistered(data, after, k)
  {
  }

  lemma AppendedDistinct(data: seq<Entry>, news: seq<Entry>, fds: seq<Fd>, k: Kernel, policy: Policy)
    requires Sorted(data) && Appended(data, news, fds, k, policy)
    ensures var all := data + news; forall i, j | 0 <= i < j < |all| :: all[i].fd != all[j].fd
  {
  }

  /** Of what `register_new` has added, a child shares a description with its parent only where
      the species asked for that, or where the action has been performed before. */
  lemma AddedSharing(parent: Kernel, child: Pid, data: seq<Entry>, ft: ForkType, policy: Policy, e: Entry)
    requires WellFormed(parent) && child != parent.pid && child !in parent.others
    requires Sorted(data) && Agree(data, parent)
    requires AfterActions(ForkedChild(parent, child), data, ft).Some?
    requires e in data && !IsClosed(e) && AddedAs(policy, e.info, e.action)
    ensures SharesWith(AfterActions(ForkedChild(parent, child), data, ft).value, parent.pid, e.fd) <==>
              || e.executed || AskedFor(policy, e.info) == Some(Ignore)
              || (ft.Subspecies? && AskedFor(policy, e.info) == Some(CloseUnlessSpawnSubspecies))
  {
    ChildSharesOnlyInherited(parent, child, data, ft);
    if HasInherited(data, e.fd, ft) {
      var x :| x in data && x.fd == e.fd && Inherited(x, ft);
      SameFdSameEntry(data, x, e);
    }
  }

  // ---- reset_for_subspecies ----

  /** What a reset needs: files that reopen to what is recorded, entries for /dev/null only
      where /dev/null is what gets duplicated, allowed new files, and no stale number. */
  ghost predicate Resettable(k: Kernel, data: seq<Entry>, extra: set<Fd>, policy: Policy)
    requires WellFormed(k)
  {
    && AllKeepInfo(k, data, Subspecies)
    && NoStaleNumber(k, data, extra)
    && (forall x | x in extra :: IsAllowed(k, x, policy))
  }

  ghost predicate IsAllowed(k: Kernel, fd: Fd, policy: Policy) {
    CurrentInfo(k, fd).Some? && MayAdd(policy, CurrentInfo(k, fd).value)
  }

  lemma ResetActionsRun(k: Kernel, data: seq<Entry>, extra: set<Fd>, policy: Policy)
    requires WellFormed(k) && Sorted(data) && AgreeExcept(data, k, extra)
    ensures Resettable(k, data, extra, policy) ==> AfterActions(k, data, Subspecies).Some?
    ensures AfterActions(k, data, Subspecies).Some? ==>
              AllReopen(k, data, Subspecies)
  {
    ActionsRun(k, data, extra, Subspecies);
  }

  lemma ResetAllowed(k: Kernel, k': Kernel, data: seq<Entry>, extra: set<Fd>, policy: Policy)
    requires WellFormed(k) && Sorted(data) && AgreeExcept(data, k, extra)
    requires AfterActions(k, data, Subspecies) == Some(k')
    ensures Frame(k, k') && forall x | x in extra :: x in k'.fds && CurrentInfo(k', x) == CurrentInfo(k, x)
    ensures Resettable(k, data, extra, policy) ==>
              forall fd | fd in k'.fds && !HasEntry(MarkedAll(data, Subspecies), fd) :: IsAllowed(k', fd, policy)
  {
    ActionsOnAudited(k, data, extra, Subspecies);
    if Resettable(k, data, extra, policy) {
      forall fd | fd in k'.fds && !HasEntry(MarkedAll(data, Subspecies), fd) ensures IsAllowed(k', fd, policy) {
        SurvivorsAreLive(data, fd, Subspecies);
        if fd == LowestFree(k) {
          assert CurrentInfo(k', fd).value.path in ALLOWED_FILE_PATHS by { assert DEV_NULL == ALLOWED_FILE_PATHS[0]; }
        } else {
          assert IsAllowed(k, fd, policy);
        }
      }
    }
  }

  lemma ResetWasPossible(k: Kernel, k': Kernel, data: seq<Entry>, extra: set<Fd>, policy: Policy, after: seq<Entry>)
    requires WellFormed(k) && Sorted(data) && AgreeExcept(data, k, extra) && Frame(k, k')
    requires forall x | x in extra :: x in k'.fds && CurrentInfo(k', x) == CurrentInfo(k, x)
    requires NewRegistered(MarkedAll(data, Subspecies), after, k') && Agree(after, k')
    requires forall e | e in after && e !in MarkedAll(data, Subspecies) :: AddedAs(policy, e.info, e.action)
    requires AllKeepInfo(k, data, Subspecies) && NoStaleNumber(k, data, extra)
    ensures Resettable(k, data, extra, policy)
  {
    MarkedMembers(data, Subspecies);
    forall x | x in extra ensures IsAllowed(k, x, policy) {
      var e :| e in after && e.fd == x && !IsClosed(e);
      assert e !in MarkedAll(data, Subspecies);
      assert Describes(k', e);
    }
  }
}
