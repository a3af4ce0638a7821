/** Registry entries, the actions run after a fork, and what those actions do to a process table. */
module FileDescriptors {
  import opened Results
  import opened Kernel

  datatype Info =
    | BoundSocket(bound: Address)
    | ConnectedSocket(remote: Address)
    | EpollFd
    | Fifo
    | File(dev: nat, inode: nat, path: string, cloexec: bool,
           openFlags: set<StatusFlag>, fcntlFlags: set<StatusFlag>, offset: int)
    | SignalFd

  datatype Action = Close | CloseUnlessSpawnSubspecies | DupeNull | Ignore | Reopen

  datatype ForkType = Application | Subspecies

  datatype Entry = Entry(fd: Fd, info: Info, action: Action, executed: bool)

  function NewEntry(fd: Fd, info: Info, action: Action): Entry {
    Entry(fd, info, action, false)
  }

  // ---- Reading a descriptor ----

  /** What `FileDescriptorInfo::try_from` sees; None for an unsupported or nameless object. */
  function InfoOf(d: Description, cloexec: bool): Option<Info> {
    match d
    case OpenFile(node, path, flags, offset) =>
      Some(File(node.dev, node.inode, path, cloexec,
                flags * OPEN_MASK, flags - OPEN_MASK, if node.seekable then offset else 0))
    case Socket(_, local, peer, _, _) =>
      if local.Some? then Some(BoundSocket(local.value))
      else if peer.Some? then Some(ConnectedSocket(peer.value))
      else None
    case Pipe => Some(Fifo)
    case SignalQueue => Some(SignalFd)
    case EpollInstance(_) => Some(EpollFd)
    case Directory => None
  }

  /** Only a directory and a socket without any name cannot be read.  A socket goes by its own
      name where it has one, and by its peer's otherwise; a file by its path, with the status
      flags split in two and the offset it is at, or the start if it cannot seek. */
  lemma InfoReads(d: Description, cloexec: bool)
    ensures InfoOf(d, cloexec).None? <==> d.Directory? || (d.Socket? && d.local.None? && d.peer.None?)
    ensures forall name :: InfoOf(d, cloexec) == Some(BoundSocket(name)) <==> d.Socket? && d.local == Some(name)
    ensures forall name :: InfoOf(d, cloexec) == Some(ConnectedSocket(name)) <==>
              d.Socket? && d.local.None? && d.peer == Some(name)
    ensures InfoOf(d, cloexec) == Some(Fifo) <==> d.Pipe?
    ensures InfoOf(d, cloexec) == Some(SignalFd) <==> d.SignalQueue?
    ensures InfoOf(d, cloexec) == Some(EpollFd) <==> d.EpollInstance?
    ensures forall info: Info | info.File? :: InfoOf(d, cloexec) == Some(info) <==>
              && d.OpenFile? && info.path == d.path && info.cloexec == cloexec
              && info.dev == d.node.dev && info.inode == d.node.inode
              && info.openFlags + info.fcntlFlags == d.flags
              && info.openFlags <= {Wronly, Rdwr, Dsync, SyncBit} && info.fcntlFlags !! {Wronly, Rdwr, Dsync, SyncBit}
              && info.offset == if d.node.seekable then d.offset else 0
  {
    if d.OpenFile? {
      forall early: set<StatusFlag>, rest: set<StatusFlag>
        ensures (early == d.flags * OPEN_MASK && rest == d.flags - OPEN_MASK)
            <==> (early + rest == d.flags && early <= OPEN_MASK && rest !! OPEN_MASK)
      {
        FlagsSplit(d.flags, early, rest);
      }
    }
  }

  lemma FlagsSplit(flags: set<StatusFlag>, early: set<StatusFlag>, rest: set<StatusFlag>)
    ensures (early == flags * OPEN_MASK && rest == flags - OPEN_MASK)
        <==> (early + rest == flags && early <= OPEN_MASK && rest !! OPEN_MASK)
  {
    if early + rest == flags && early <= OPEN_MASK && rest !! OPEN_MASK {
      assert early == flags * OPEN_MASK && rest == flags - OPEN_MASK;
    }
  }

  function CurrentInfo(k: Kernel, fd: Fd): Option<Info> {
    if DescAt(k, fd).Some? then InfoOf(DescAt(k, fd).value, k.fds[fd].cloexec) else None
  }

  // ---- The table of entries ----

  predicate IsClosed(e: Entry) {
    match e.action
    case Close | CloseUnlessSpawnSubspecies => e.executed
    case DupeNull | Ignore | Reopen => false
  }

  predicate Sorted(data: seq<Entry>) {
    forall i, j | 0 <= i < j < |data| :: data[i].fd < data[j].fd
  }

  ghost predicate Describes(k: Kernel, e: Entry) {
    e.fd in k.fds && CurrentInfo(k, e.fd) == Some(e.info)
  }

  ghost predicate HasLive(data: seq<Entry>, fd: Fd) {
    exists e :: e in data && e.fd == fd && !IsClosed(e)
  }

  ghost predicate HasEntry(data: seq<Entry>, fd: Fd) {
    exists e :: e in data && e.fd == fd
  }

  /** The cached copy agrees with the kernel: the entries that are not closed are
      exactly the open descriptors, each with its current information. */
  ghost predicate Agree(data: seq<Entry>, k: Kernel) {
    && (forall e | e in data && !IsClosed(e) :: Describes(k, e))
    && (forall fd | fd in k.fds :: HasLive(data, fd))
  }

  /** The check `register` makes for a new slot: only a file can be reopened. */
  ghost predicate ReopensFiles(data: seq<Entry>) {
    forall e | e in data && e.action.Reopen? :: e.info.File?
  }

  function LowerBound(data: seq<Entry>, fd: Fd): (i: nat)
    ensures i <= |data|
    ensures forall j | 0 <= j < i :: data[j].fd < fd
    ensures i < |data| ==> fd <= data[i].fd
  {
    if data == [] || fd <= data[0].fd then 0 else 1 + LowerBound(data[1..], fd)
  }

  predicate FoundAt(data: seq<Entry>, fd: Fd, i: nat) {
    i < |data| && data[i].fd == fd
  }

  lemma SearchFinds(data: seq<Entry>, fd: Fd)
    requires Sorted(data)
    ensures FoundAt(data, fd, LowerBound(data, fd)) <==> HasEntry(data, fd)
  {
  }

  lemma SameFdSameEntry(data: seq<Entry>, a: Entry, b: Entry)
    requires Sorted(data) && a in data && b in data && a.fd == b.fd
    ensures a == b
  {
  }

  function Inserted(data: seq<Entry>, i: nat, e: Entry): seq<Entry>
    requires i <= |data|
  {
    data[..i] + [e] + data[i..]
  }

  function Without(data: seq<Entry>, i: nat): seq<Entry>
    requires i < |data|
  {
    data[..i] + data[i + 1..]
  }

  lemma InsertedSpec(data: seq<Entry>, e: Entry)
    requires Sorted(data) && !HasEntry(data, e.fd)
    ensures Sorted(Inserted(data, LowerBound(data, e.fd), e))
    ensures forall x :: x in Inserted(data, LowerBound(data, e.fd), e) <==> x in data || x == e
  {
    var i := LowerBound(data, e.fd);
    InsertedMembers(data, i, e);
    SearchFinds(data, e.fd);
    assert i < |data| ==> e.fd < data[i].fd;
    InsertedSorted(data, i, e);
  }

  lemma InsertedMembers(data: seq<Entry>, i: nat, e: Entry)
    requires i <= |data|
    ensures forall x :: x in Inserted(data, i, e) <==> x in data || x == e
  {
  }

  lemma InsertedSorted(data: seq<Entry>, i: nat, e: Entry)
    requires Sorted(data) && i <= |data|
    requires forall j | 0 <= j < i :: data[j].fd < e.fd
    requires i < |data| ==> e.fd < data[i].fd
    ensures Sorted(Inserted(data, i, e))
  {
  }

  lemma WithoutSpec(data: seq<Entry>, i: nat)
    requires Sorted(data) && i < |data|
    ensures Sorted(Without(data, i))
    ensures forall x :: x in Without(data, i) <==> x in data && x.fd != data[i].fd
  {
  }

  lemma ReplacedSpec(data: seq<Entry>, i: nat, e: Entry)
    requires Sorted(data) && i < |data| && data[i].fd == e.fd
    ensures Sorted(data[i := e])
    ensures forall x :: x in data[i := e] <==> (x in data && x.fd != e.fd) || x == e
  {
    var r := data[i := e];
    forall x ensures x in r <==> (x in data && x.fd != e.fd) || x == e {
      if x in r {
        var j :| 0 <= j < |r| && r[j] == x;
        assert j != i ==> x == data[j];
      }
      if x in data && x.fd != e.fd {
        var j :| 0 <= j < |data| && data[j] == x;
        assert r[j] == x;
      }
      assert r[i] == e;
    }
  }

  // ---- One entry's action ----

  predicate ClosesOn(e: Entry, ft: ForkType) {
    e.action.Close? || (e.action.CloseUnlessSpawnSubspecies? && ft.Application?)
  }

  /** The action is still to be performed and this kind of fork performs it. */
  predicate Performs(e: Entry, ft: ForkType) {
    !e.executed && (ClosesOn(e, ft) || e.action.DupeNull? || e.action.Reopen?)
  }

  function Marked(e: Entry, ft: ForkType): Entry {
    e.(executed := e.executed || Performs(e, ft))
  }

  /** The description a reopened file ends up with. */
  function Reopened(fs: map<string, Node>, info: Info): Description
    requires info.File? && info.path in fs
  {
    OpenFile(fs[info.path], info.path,
             info.openFlags + FORCED_FLAGS - SETFL_MASK + info.fcntlFlags * SETFL_MASK, info.offset)
  }

  /** The reopened file can be told apart from the registered one by nothing `audit` compares. */
  predicate ReopenStable(fs: map<string, Node>, info: Info)
    requires info.File? && info.path in fs
  {
    && fs[info.path].dev == info.dev
    && fs[info.path].inode == info.inode
    && info.openFlags <= OPEN_MASK
    && FORCED_FLAGS <= info.fcntlFlags <= SETFL_MASK + FORCED_FLAGS
  }

  /** An entry to reopen that the kernel can reopen. */
  predicate CanReopen(k: Kernel, e: Entry) {
    e.info.File? && e.info.path in k.fs && k.fs[e.info.path].seekable
  }

  /** No reason within the kernel for `e`'s action to fail. */
  predicate CanAct(k: Kernel, e: Entry, dn: Fd) {
    match e.action
    case Close | CloseUnlessSpawnSubspecies => e.fd in k.fds
    case DupeNull => dn in k.fds && dn != e.fd
    case Ignore => true
    case Reopen => CanReopen(k, e) && e.fd != LowestFree(k)
  }

  /** The kernel after `e`'s action succeeded, `dn` being the descriptor on /dev/null. */
  function Acted(k: Kernel, e: Entry, dn: Fd, ft: ForkType): Kernel
    requires Performs(e, ft) ==> CanAct(k, e, dn)
  {
    if !Performs(e, ft) then k
    else match e.action
      case Close | CloseUnlessSpawnSubspecies => Closed(k, e.fd)
      case DupeNull => Duped(k, dn, e.fd, true)
      case Ignore => k
      case Reopen =>
        k.(fds := k.fds[e.fd := Slot(|k.descs|, e.info.cloexec)],
           descs := k.descs + [Reopened(k.fs, e.info)])
  }

  // ---- All actions, in table order ----

  function ActedAll(k: Kernel, data: seq<Entry>, dn: Fd, ft: ForkType): Option<Kernel>
    decreases |data|
  {
    if data == [] then Some(k)
    else
      var before := ActedAll(k, data[..|data| - 1], dn, ft);
      var e := data[|data| - 1];
      if before.Some? && (Performs(e, ft) ==> CanAct(before.value, e, dn))
      then Some(Acted(before.value, e, dn, ft))
      else None
  }

  lemma {:induction false} ActionsBindNothing(k: Kernel, data: seq<Entry>, dn: Fd, ft: ForkType)
    requires ActedAll(k, data, dn, ft).Some?
    ensures ActedAll(k, data, dn, ft).value.bound == k.bound
    decreases |data|
  {
    if data != [] { ActionsBindNothing(k, data[..|data| - 1], dn, ft); }
  }

  function MarkedAll(data: seq<Entry>, ft: ForkType): (r: seq<Entry>)
    ensures |r| == |data|
    ensures forall i | 0 <= i < |data| :: r[i] == Marked(data[i], ft)
  {
    seq(|data|, i requires 0 <= i < |data| => Marked(data[i], ft))
  }

  /** What happened to the number of entry `e` between `k` and `k'`. */
  ghost predicate ActionDone(k: Kernel, k': Kernel, e: Entry, dn: Fd, ft: ForkType)
    requires dn in k.fds
  {
    if !Performs(e, ft) then
      (e.fd in k'.fds <==> e.fd in k.fds) && (e.fd in k.fds ==> k'.fds[e.fd] == k.fds[e.fd])
    else if ClosesOn(e, ft) then e.fd !in k'.fds
    else if e.action.DupeNull? then e.fd in k'.fds && k'.fds[e.fd] == Slot(k.fds[dn].id, true)
    else
      && CanReopen(k, e)
      && e.fd in k'.fds && k'.fds[e.fd].cloexec == e.info.cloexec
      && |k.descs| <= k'.fds[e.fd].id < |k'.descs|
      && k'.descs[k'.fds[e.fd].id] == Reopened(k.fs, e.info)
      && (forall fd | fd in k'.fds && fd != e.fd :: k'.fds[fd].id != k'.fds[e.fd].id)
  }

  /** The table effect of a whole run, number by number: each entry's own action, and
      nothing anywhere else. */
  lemma {:induction false} ActionsEffect(k: Kernel, data: seq<Entry>, dn: Fd, ft: ForkType)
    requires WellFormed(k) && dn in k.fds && Sorted(data) && ActedAll(k, data, dn, ft).Some?
    requires forall e | e in data && Performs(e, ft) :: e.fd != dn
    ensures Frame(k, ActedAll(k, data, dn, ft).value)
    ensures forall e | e in data :: ActionDone(k, ActedAll(k, data, dn, ft).value, e, dn, ft)
    ensures forall fd | !HasEntry(data, fd) ::
              var k' := ActedAll(k, data, dn, ft).value;
              (fd in k'.fds <==> fd in k.fds) && (fd in k.fds ==> k'.fds[fd] == k.fds[fd])
    decreases |data|
  {
    if data != [] {
      var init, e := data[..|data| - 1], data[|data| - 1];
      assert data == init + [e];
      assert forall x | x in init :: x in data;
      ActionsEffect(k, init, dn, ft);
      var mid := ActedAll(k, init, dn, ft).value;
      var k' := Acted(mid, e, dn, ft);
      assert ActedAll(k, data, dn, ft).value == k';
      ActStep(k, mid, init, e, dn, ft);
    }
  }

  lemma ActStep(k: Kernel, mid: Kernel, init: seq<Entry>, e: Entry, dn: Fd, ft: ForkType)
    requires WellFormed(k) && dn in k.fds && dn in mid.fds && mid.fds[dn] == k.fds[dn]
    requires Frame(k, mid)
    requires forall x | x in init :: ActionDone(k, mid, x, dn, ft)
    requires forall x | x in init :: x.fd != e.fd
    requires Performs(e, ft) ==> CanAct(mid, e, dn) && e.fd != dn
    requires (e.fd in mid.fds <==> e.fd in k.fds) && (e.fd in k.fds ==> mid.fds[e.fd] == k.fds[e.fd])
    ensures var k' := Acted(mid, e, dn, ft);
            && Frame(k, k')
            && ActionDone(k, k', e, dn, ft)
            && (forall x | x in init :: ActionDone(k, k', x, dn, ft))
            && (forall fd | fd != e.fd :: (fd in k'.fds <==> fd in mid.fds) && (fd in mid.fds ==> k'.fds[fd] == mid.fds[fd]))
  {
  }

  ghost predicate AllReopen(k: Kernel, data: seq<Entry>, ft: ForkType) {
    forall e | e in data && Performs(e, ft) && e.action.Reopen? :: CanReopen(k, e)
  }

  /** Where every unexecuted entry is open, the run can only be stopped by an entry to reopen
      that is not a file, whose path is gone, or whose file cannot seek. */
  lemma {:induction false} ActionsSucceed(k: Kernel, data: seq<Entry>, dn: Fd, ft: ForkType)
    requires WellFormed(k) && dn in k.fds && Sorted(data)
    requires forall e | e in data && Performs(e, ft) :: e.fd != dn && e.fd in k.fds
    ensures ActedAll(k, data, dn, ft).Some? <==> AllReopen(k, data, ft)
    decreases |data|
  {
    if data != [] {
      var init, e := data[..|data| - 1], data[|data| - 1];
      assert data == init + [e];
      ActionsSucceed(k, init, dn, ft);
      assert AllReopen(k, data, ft) <==>
             AllReopen(k, init, ft) && (Performs(e, ft) && e.action.Reopen? ==> CanReopen(k, e));
      if ActedAll(k, init, dn, ft).Some? {
        LastCanAct(k, init, e, dn, ft);
      }
    }
  }

  /** Earlier entries neither close an entry's number nor take away what reopening it needs. */
  lemma LastCanAct(k: Kernel, init: seq<Entry>, e: Entry, dn: Fd, ft: ForkType)
    requires WellFormed(k) && dn in k.fds && Sorted(init + [e]) && ActedAll(k, init, dn, ft).Some?
    requires forall x | x in init && Performs(x, ft) :: x.fd != dn
    requires Performs(e, ft) ==> e.fd != dn && e.fd in k.fds
    ensures Performs(e, ft) ==>
              (CanAct(ActedAll(k, init, dn, ft).value, e, dn) <==> (e.action.Reopen? ==> CanReopen(k, e)))
  {
    var data := init + [e];
    forall x | x in init ensures x.fd != e.fd {
      var i :| 0 <= i < |init| && init[i] == x;
      assert data[i] == x && data[|init|] == e;
    }
    assert Sorted(init) by {
      forall i, j | 0 <= i < j < |init| ensures init[i].fd < init[j].fd {
        assert data[i] == init[i] && data[j] == init[j];
      }
    }
    ActionsEffect(k, init, dn, ft);
    assert !HasEntry(init, e.fd);
    assert dn in ActedAll(k, init, dn, ft).value.fds by {
      if HasEntry(init, dn) {
        var x :| x in init && x.fd == dn;
        assert ActionDone(k, ActedAll(k, init, dn, ft).value, x, dn, ft);
      }
    }
  }
}
