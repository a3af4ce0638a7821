/** The part of a Unix kernel the zygote relies on, as a value: one process table
    per process, and open file descriptions that fork and dup3 share. */
module Kernel {
  import opened Results

  type Fd = nat
  type Pid = nat

  /** File status flags, one per bit; read-only access is the absence of the first two. */
  datatype StatusFlag =
    | Wronly | Rdwr | Dsync | SyncBit
    | Append | Nonblock | Direct | Noatime | Async
    | Largefile | Nofollow

  /** Bits `open` takes over from the caller and `F_SETFL` cannot change. */
  const OPEN_MASK: set<StatusFlag> := {Wronly, Rdwr, Dsync, SyncBit}
  /** Bits `F_SETFL` can change. */
  const SETFL_MASK: set<StatusFlag> := {Append, Nonblock, Direct, Noatime, Async}
  /** Bits a 64-bit kernel adds to every open file. */
  const FORCED_FLAGS: set<StatusFlag> := {Largefile}

  const DEV_NULL: string := "/dev/null"

  datatype Node = Node(dev: nat, inode: nat, seekable: bool)

  datatype Address = PathAddress(text: string) | AbstractAddress(text: string)

  datatype Role = Listening | Accepted | Plain

  datatype Watch = Watch(fd: Fd, id: nat)

  /** An open file description. */
  datatype Description =
    | OpenFile(node: Node, path: string, flags: set<StatusFlag>, offset: int)
    | Socket(role: Role, local: Option<Address>, peer: Option<Address>, nonblocking: bool, seqpacket: bool)
    | Pipe
    | SignalQueue
    | EpollInstance(interest: map<Watch, int>)
    | Directory

  /** One entry of a process table: which description, and the close-on-exec bit. */
  datatype Slot = Slot(id: nat, cloexec: bool)

  type Table = map<Fd, Slot>

  /** `fds` is the table of the running process `pid`, `others` are the tables of
      every other process, and `descs` only ever grows, so an identifier is never
      reused.  `bound` are the paths sockets were bound to: they exist but cannot be opened. */
  datatype Kernel = Kernel(
    pid: Pid,
    fds: Table,
    others: map<Pid, Table>,
    descs: seq<Description>,
    fs: map<string, Node>,
    bound: set<string>)

  ghost predicate TableIn(table: Table, n: nat) {
    forall fd | fd in table :: table[fd].id < n
  }

  ghost predicate WellFormed(k: Kernel) {
    && TableIn(k.fds, |k.descs|)
    && (forall p | p in k.others :: TableIn(k.others[p], |k.descs|))
    && k.pid !in k.others
    && DEV_NULL in k.fs
  }

  /** Everything a system call of one process leaves alone unless it says otherwise:
      the other processes and every description that already existed. */
  ghost predicate Frame(k: Kernel, k': Kernel) {
    && k'.pid == k.pid
    && k'.others == k.others
    && k'.fs == k.fs && k.bound <= k'.bound
    && k.descs <= k'.descs
    && WellFormed(k')
  }

  lemma FrameTrans(a: Kernel, b: Kernel, c: Kernel)
    requires Frame(a, b) && Frame(b, c)
    ensures Frame(a, c)
  {
  }

  function LowestFrom(keys: set<Fd>, n: Fd): (r: Fd)
    ensures n <= r && r !in keys
    ensures forall m | n <= m < r :: m in keys
    decreases keys
  {
    if n in keys then LowestFrom(keys - {n}, n + 1) else n
  }

  /** The number every descriptor-returning call hands out. */
  function LowestFree(k: Kernel): (fd: Fd)
    ensures fd !in k.fds
    ensures forall m | 0 <= m < fd :: m in k.fds
  {
    LowestFrom(k.fds.Keys, 0)
  }

  function DescAt(k: Kernel, fd: Fd): (d: Option<Description>) {
    if fd in k.fds && k.fds[fd].id < |k.descs| then Some(k.descs[k.fds[fd].id]) else None
  }

  /** A new description behind the lowest free number. */
  function Allocated(k: Kernel, d: Description, cloexec: bool): Kernel {
    k.(fds := k.fds[LowestFree(k) := Slot(|k.descs|, cloexec)], descs := k.descs + [d])
  }

  /** A socket bound to a path makes the path exist. */
  function Bind(k: Kernel, address: Address): Kernel {
    if address.PathAddress? then k.(bound := k.bound + {address.text}) else k
  }

  function FreshFile(k: Kernel, path: string, flags: set<StatusFlag>): Description
    requires path in k.fs
  {
    OpenFile(k.fs[path], path, flags + FORCED_FLAGS, 0)
  }

  function Opened(k: Kernel, path: string, flags: set<StatusFlag>, cloexec: bool): Kernel
    requires path in k.fs
  {
    Allocated(k, FreshFile(k, path, flags), cloexec)
  }

  function Closed(k: Kernel, fd: Fd): Kernel {
    k.(fds := k.fds - {fd})
  }

  function Duped(k: Kernel, oldFd: Fd, newFd: Fd, cloexec: bool): Kernel
    requires oldFd in k.fds
  {
    k.(fds := k.fds[newFd := Slot(k.fds[oldFd].id, cloexec)])
  }

  function WithDesc(k: Kernel, fd: Fd, d: Description): Kernel
    requires DescAt(k, fd).Some?
  {
    k.(descs := k.descs[k.fds[fd].id := d])
  }

  /** The running process becomes the child: same table, same descriptions. */
  function ForkedChild(k: Kernel, child: Pid): Kernel {
    k.(pid := child, others := k.others[k.pid := k.fds])
  }

  function ForkedParent(k: Kernel, child: Pid): Kernel {
    k.(others := k.others[child := k.fds])
  }
}
