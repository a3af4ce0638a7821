/** What one step, one event, one batch and a whole run of the server may do, over snapshots
    of everything they can change. */
module ServerSteps {
  import opened Results
  import opened Kernel
  import opened FileDescriptors
  import opened ForkEffects
  import opened Os
  import opened Registry
  import opened EpollData
  import opened ServerSocket
  import opened SpawnParams
  import opened Packets
  import opened Traffic
  import opened Reaper
  import opened ServerState
  import opened ServerLife

  datatype ClientError =
    | CloseFailed(fd: Fd)
    | IdentityQueryFailed(fd: Fd)
    | InvalidClientSocketFd(fd: Fd)
    | PollFailed
    | ProcessCreationFailure(fd: Fd)
    | ReadFailed
    | RegistryUpdate(cause: RegistryError)
    | SpawnResponseFailed(fd: Fd)
    | StatReadFailed(fd: Fd)
    | StatResponseFailed(fd: Fd)

  datatype ServerError =
    | ClientFailure(client: ClientError)
    | EpollBroken(data: EpollData)
    | FdRegistryFailure(registry: RegistryError)
    | InvalidEpollData(word: int)
    | PollFailure
    | ServerSocketFailure(socket: SocketError)
    | SignalHandlerFailure(signal: SignalError)
    | SignalFdFailure

  /** `Abandoned` is a child whose re-initialisation failed: the model follows it no further. */
  datatype Control =
    | PollBreak
    | PollContinue
    | Shutdown
    | Trampoline(params: SpawnParamsCommon, payload: PayloadKind)
    | Abandoned

  // ---- What a step may do, over snapshots ----

  /** Everything a step can change but the mail: the kernel and the registry's table, the
      server's own fields, its children, what its species was told, how many connections are
      still to come, the processes forked so far, and how many calls have failed. */
  datatype Snapshot = Snapshot(k: Kernel, data: seq<Entry>, h: Handles, pid: Pid, family: Family, log: seq<Report>,
                               connections: nat, births: seq<int>, faults: nat)

  /** The processes in `k'` that were not there in `k`. */
  function NewProcesses(k: Kernel, k': Kernel): set<int> {
    set p | p in k'.others.Keys && p !in k.others.Keys
  }

  /** The forks recorded since `was`, once each, are of exactly these processes. */
  ghost predicate Born(was: seq<int>, now: seq<int>, processes: set<int>) {
    was <= now && Distinct(now[|was|..]) && forall p :: p in now[|was|..] <==> p in processes
  }

  datatype StayPart = OwnStatePart | KernelKeptPart | FamilyPart | BirthsPart

  ghost predicate StayedIn(p: StayPart, a: Snapshot, b: Snapshot) {
    match p
    case OwnStatePart =>
      b == a.(k := b.k, family := b.family, births := b.births, faults := b.faults) && a.faults <= b.faults
    case KernelKeptPart => b.k == a.k.(others := b.k.others) && OthersKept(a.k, b.k)
    case FamilyPart => b.family == a.family.(alive := a.family.alive + NewProcesses(a.k, b.k))
    case BirthsPart => Born(a.births, b.births, NewProcesses(a.k, b.k))
  }

  /** The parent goes on: it may have forked, every new process is one more living child of
      it, recorded once, and nothing else it sees has changed. */
  ghost predicate Stayed(a: Snapshot, b: Snapshot) {
    forall p :: StayedIn(p, a, b)
  }

  lemma StayedMeans(a: Snapshot, b: Snapshot)
    ensures Stayed(a, b) <==>
              && b == a.(k := b.k, family := b.family, births := b.births, faults := b.faults) && a.faults <= b.faults
              && b.k == a.k.(others := b.k.others) && OthersKept(a.k, b.k)
              && b.family == a.family.(alive := a.family.alive + NewProcesses(a.k, b.k))
              && Born(a.births, b.births, NewProcesses(a.k, b.k))
  {
    assert Stayed(a, b) <==>
             && StayedIn(OwnStatePart, a, b) && StayedIn(KernelKeptPart, a, b)
             && StayedIn(FamilyPart, a, b) && StayedIn(BirthsPart, a, b);
  }

  /** Where at most some calls have failed. */
  lemma StayedPut(a: Snapshot, b: Snapshot)
    requires b == a.(faults := b.faults) && a.faults <= b.faults
    ensures Stayed(a, b)
  {
    assert a.births[|a.births|..] == [];
    StayedMeans(a, b);
  }

  lemma StayedView(a: Snapshot, b: Snapshot)
    ensures Stayed(a, b) ==> b.h == a.h && b.data == a.data && b.pid == a.pid && b.k.pid == a.k.pid && b.k.fds == a.k.fds
  {
    if Stayed(a, b) { StayedMeans(a, b); }
  }

  /** One fork is one birth. */
  lemma StayedForking(a: Snapshot, child: Pid, faults: nat)
    requires child !in a.k.others && faults >= a.faults
    ensures Stayed(a, a.(k := ForkedParent(a.k, child), family := a.family.(alive := a.family.alive + {child}),
                         births := a.births + [child], faults := faults))
  {
    var b := a.(k := ForkedParent(a.k, child), family := a.family.(alive := a.family.alive + {child}),
                births := a.births + [child], faults := faults);
    assert NewProcesses(a.k, b.k) == {child} && b.births[|a.births|..] == [child];
    StayedMeans(a, b);
  }

  lemma StayedTwice(a: Snapshot, b: Snapshot, c: Snapshot)
    ensures Stayed(a, b) && Stayed(b, c) ==> Stayed(a, c)
  {
    if Stayed(a, b) && Stayed(b, c) {
      StayedMeans(a, b);
      StayedMeans(b, c);
      assert NewProcesses(a.k, c.k) == NewProcesses(a.k, b.k) + NewProcesses(b.k, c.k);
      BornTwice(a.births, b.births, c.births, NewProcesses(a.k, b.k), NewProcesses(b.k, c.k));
      StayedMeans(a, c);
    }
  }

  lemma BornTwice(a: seq<int>, b: seq<int>, c: seq<int>, first: set<int>, later: set<int>)
    requires Born(a, b, first) && Born(b, c, later) && first !! later
    ensures Born(a, c, first + later)
  {
    assert c[|a|..] == b[|a|..] + c[|b|..];
    var early, late, all := b[|a|..], c[|b|..], c[|a|..];
    forall i, j | 0 <= i < j < |all| ensures all[i] != all[j] {
      if i < |early| <= j { assert all[i] in early && all[j] in late; }
    }
  }

  /** A forked process has no children, no pending signals, and has reported nothing. */
  ghost predicate Newborn(a: Snapshot, b: Snapshot) {
    && b.k.pid != a.k.pid
    && b.family == NO_CHILDREN.(noise := a.family.noise) && b.log == [] && b.births == []
    && b.connections == a.connections && a.faults <= b.faults
  }

  /** An application child goes on with an exact copy, under another process identifier. */
  ghost predicate BranchedOff(a: Snapshot, b: Snapshot) {
    && b == a.(k := b.k, family := b.family, log := [], births := [], faults := b.faults) && Newborn(a, b)
    && BranchedFrom(a.k, b.k) && b.k.fds == a.k.fds && b.k.descs == a.k.descs
  }

  /** A subspecies child goes on as a server of its own, with no clients, on a new epoll
      instance, and with at least one closed slot left from the fork. */
  ghost predicate Reborn(a: Snapshot, b: Snapshot) {
    && Newborn(a, b) && BranchedFrom(a.k, b.k)
    && b.h.clients == [] && b.h.signal == a.h.signal && b.pid == b.k.pid
    && b.h.epoll in b.k.fds && b.k.fds[b.h.epoll].id >= |a.k.descs|
    && exists e :: e in b.data && IsClosed(e)
  }

  ghost predicate ControlLaw<E>(r: Outcome<Control, E>, a: Snapshot, b: Snapshot) {
    match r
    case Ok(PollBreak) => Reborn(a, b)
    case Ok(Trampoline(_, _)) => BranchedOff(a, b) && b.pid == a.pid
    case Ok(Abandoned) => Newborn(a, b)
    case _ => Stayed(a, b)
  }

  /** Table slots that are not for clients. */
  function Overhead(data: seq<Entry>, clients: seq<Fd>): int {
    |data| - |clients|
  }

  /** What a table keeps while clients come and go: nothing but clients takes a slot, and where
      nothing has been executed no slot is ever given up either. */
  ghost predicate SlotsKept(data: seq<Entry>, clients: seq<Fd>, data': seq<Entry>, clients': seq<Fd>) {
    && Overhead(data', clients') <= Overhead(data, clients)
    && (NoneExecuted(data) ==> NoneExecuted(data') && Overhead(data', clients') == Overhead(data, clients))
  }

  /** Of all that other processes can see, at most the epoll instance at `epfd` has changed. */
  ghost predicate OwnInstanceOnly(k: Kernel, k': Kernel, epfd: Fd) {
    && OthersKept(k, k') && k'.fs == k.fs && |k.descs| <= |k'.descs|
    && epfd in k.fds && epfd in k'.fds && k'.fds[epfd] == k.fds[epfd]
    && forall i | 0 <= i < |k.descs| && i != k.fds[epfd].id :: k'.descs[i] == k.descs[i]
  }

  lemma InstanceTwice(a: Kernel, b: Kernel, c: Kernel, epfd: Fd)
    ensures OwnInstanceOnly(a, b, epfd) && OwnInstanceOnly(b, c, epfd) ==> OwnInstanceOnly(a, c, epfd)
  {
  }

  datatype ServerPart = ProcessPart | InstancePart | HandlesPart | SlotsPart

  ghost predicate SameIn(p: ServerPart, a: Snapshot, b: Snapshot) {
    match p
    case ProcessPart =>
      b.k.pid == a.k.pid && b.pid == a.pid && a.family.read <= b.family.read && a.faults <= b.faults
    case InstancePart => OwnInstanceOnly(a.k, b.k, a.h.epoll)
    case HandlesPart => SameOwn(a.h, b.h)
    case SlotsPart => SlotsKept(a.data, a.h.clients, b.data, b.h.clients)
  }

  /** The same process, still the same server: its own handles, no more slots than its clients
      account for, no signal unread again, and nothing else's descriptors touched. */
  ghost predicate SameServer(a: Snapshot, b: Snapshot) {
    forall p :: SameIn(p, a, b)
  }

  lemma SameMeans(a: Snapshot, b: Snapshot)
    ensures SameServer(a, b) <==>
              && b.k.pid == a.k.pid && b.pid == a.pid && a.family.read <= b.family.read && a.faults <= b.faults
              && OwnInstanceOnly(a.k, b.k, a.h.epoll) && SameOwn(a.h, b.h)
              && SlotsKept(a.data, a.h.clients, b.data, b.h.clients)
  {
    assert SameServer(a, b) <==>
             && SameIn(ProcessPart, a, b) && SameIn(InstancePart, a, b) && SameIn(HandlesPart, a, b)
               && SameIn(SlotsPart, a, b);
  }

  lemma SameAtAll(a: Snapshot)
    requires a.h.epoll in a.k.fds
    ensures SameServer(a, a)
  {
    SameMeans(a, a);
  }

  lemma SameTwice(a: Snapshot, b: Snapshot, c: Snapshot)
    ensures SameServer(a, b) && SameServer(b, c) ==> SameServer(a, c)
  {
    if SameServer(a, b) && SameServer(b, c) {
      SameMeans(a, b);
      SameMeans(b, c);
      InstanceTwice(a.k, b.k, c.k, a.h.epoll);
      SameMeans(a, c);
    }
  }

  /** The server `m` was in good order when `k` left it, and nothing it had has been touched. */
  ghost predicate LeftBehind(m: Snapshot, k: Kernel) {
    Consistent(m.k, m.data, m.h) && BranchedFrom(m.k, k)
  }

  /** A process forked since, by this one or by one that was, that has touched nothing the
      process it was forked from had at that moment. */
  ghost predicate Descends(a: Snapshot, b: Snapshot) {
    exists m :: SameServer(a, m) && LeftBehind(m, b.k)
  }

  /** Such a process, serving on an epoll instance of its own. */
  ghost predicate ServesOn(m: Snapshot, b: Snapshot) {
    && LeftBehind(m, b.k) && b.pid == b.k.pid
    && b.h.epoll in b.k.fds && b.k.fds[b.h.epoll].id >= |m.k.descs|
  }

  /** A subspecies server that has taken over from a process that was this server. */
  ghost predicate TookOver(a: Snapshot, b: Snapshot) {
    exists m :: SameServer(a, m) && ServesOn(m, b)
  }

  /** A subspecies server that has just taken over from a batch of its parent's. */
  ghost predicate TakesOver(a: Snapshot, b: Snapshot) {
    && TookOver(a, b) && b.h.clients == []
    && exists e :: e in b.data && IsClosed(e)
  }

  /** The process a batch leaves behind, by how it ended. */
  ghost predicate BatchLaw<E>(r: Outcome<Control, E>, a: Snapshot, b: Snapshot) {
    && a.faults <= b.faults
    && match r
       case Ok(PollBreak) => TakesOver(a, b)
       case Ok(Trampoline(_, _)) => Descends(a, b) && b.pid == a.pid
       case Ok(Abandoned) => b.k.pid != a.k.pid
       case Ok(Shutdown) => SameServer(a, b)
       case _ => b.k.pid == a.k.pid
  }

  // ---- What a batch may touch ----

  /** No signal was read: the pending ones and the reports are as they were, or this is a
      forked process, which has neither. */
  ghost predicate SignalsUnread(a: Snapshot, b: Snapshot) {
    || (b.family.pending == a.family.pending && b.family.zombies == a.family.zombies && b.log == a.log
        && b.family.read == a.family.read)
    || (b.k.pid != a.k.pid && b.family.pending == {} && Present(b.family) == {} && b.log == [])
  }

  /** Only what the watches `ws` are for was read or written: their clients' streams, the
      backlog if the server socket is among them, the signals if the signalfd is. */
  ghost predicate Confined(a: Snapshot, b: Snapshot, before: Mail, after: Mail, h: Handles, ws: seq<Watch>) {
    && (forall id | NoStreamOf(h, ws, id) :: Untouched(before, after, id))
    && (NoneTagged(h, ws, EpollTag.Server) ==> b.connections == a.connections)
    && (NoneTagged(h, ws, EpollTag.Signal) ==> SignalsUnread(a, b))
  }

  ghost predicate NoStreamOf(h: Handles, ws: seq<Watch>, id: nat) {
    forall w | w in ws && TagOf(h, w.fd).Client? :: w.id != id
  }

  ghost predicate NoneTagged(h: Handles, ws: seq<Watch>, tag: EpollTag) {
    forall w | w in ws :: TagOf(h, w.fd) != tag
  }

  /** The last packet read from a stream since `before`, if any was. */
  function LastRead(before: Mail, after: Mail, id: nat): Option<Packet> {
    var was, now := QueueOf(before.taken, id), QueueOf(after.taken, id);
    if |was| < |now| then Some(now[|now| - 1]) else None
  }

  /** No client has asked for an exit on this stream since `before`. */
  ghost predicate NoExit(before: Mail, after: Mail, id: nat) {
    var was, now := QueueOf(before.taken, id), QueueOf(after.taken, id);
    |was| <= |now| && forall i | |was| <= i < |now| :: now[i] != Parcel(Exit)
  }

  /** No client has asked for one at all. */
  ghost predicate NoExits(before: Mail, after: Mail) {
    forall id :: NoExit(before, after, id)
  }

  /** The kernel as a child just forked sees it. */
  ghost predicate ForkedFrom(k: Kernel, child: Kernel) {
    child.pid != k.pid && child == ForkedChild(k, child.pid)
  }

  /** The numbers `extra` have been opened since, and nothing else has changed. */
  ghost predicate OpenedSince(k: Kernel, k': Kernel, extra: set<Fd>) {
    && Frame(k, k') && extra !! k.fds.Keys && k'.fds.Keys == k.fds.Keys + extra
    && forall fd | fd in k.fds :: k'.fds[fd] == k.fds[fd]
  }

  ghost predicate Attempted(k: Kernel, child: Kernel, start: Kernel, extra: set<Fd>) {
    ForkedFrom(k, child) && WellFormed(start) && OpenedSince(child, start, extra)
  }

  /** A child forked from `k` opened some numbers and re-initialised: it goes on only if it can
      restart, and, where nothing unexplained failed and a slot was left, whenever it can. */
  ghost predicate RestartLaw(reborn: bool, exact: bool, k: Kernel, data: seq<Entry>, policy: Policy, socket: SocketArg) {
    exists child, start, extra :: Attempted(k, child, start, extra)
      && (reborn ==> CanRestart(start, data, extra, policy, socket))
      && (exact && !reborn ==> !CanRestart(start, data, extra, policy, socket))
  }

  /** What a re-initialisation needs: a registry that can be reset and a free name. */
  ghost predicate CanRestart(k: Kernel, data: seq<Entry>, extra: set<Fd>, policy: Policy, socket: SocketArg)
    requires WellFormed(k)
  {
    Resettable(k, data, extra, policy) && NameIsFree(socket, k)
  }

  /** Why a server can abort: start-up and the clients together need more slots than there
      are, or a client has sent a packet that aborts it. */
  ghost predicate MayAbort(a: Snapshot, mail: Mail, who: Identity, defaults: SpawnParamsCommon) {
    Overhead(a.data, a.h.clients) + MAX_CLIENTS > REGISTRY_SIZE || SomeKills(mail.taken, who, defaults)
  }

  // ---- What an event is owed ----

  /** Since `before`, a call would have blocked in this way. */
  ghost predicate SaysDry(before: Mail, after: Mail, stall: Stall) {
    before.stalls <= after.stalls && stall in after.stalls[|before.stalls|..]
  }

  /** A stream has been read until recvmsg would block, or up to a packet that ends a drain. */
  ghost predicate ReadUp(before: Mail, after: Mail, id: nat) {
    var last := LastRead(before, after, id);
    (last.Some? && !ReadsOn(last.value)) || SaysDry(before, after, StreamDry(id, |QueueOf(after.taken, id)|))
  }

  /** The backlog has been accepted until it would block, or until there was no room for one. */
  ghost predicate AcceptedUp(a: Snapshot, b: Snapshot, before: Mail, after: Mail) {
    || (|b.h.clients| == MAX_CLIENTS && b.connections < a.connections)
    || SaysDry(before, after, BacklogDry(b.connections))
  }

  /** The pending signals have all been read, and were SIGCHLDs; no child is left to reap, and
      each has been reported once or is running. */
  ghost predicate SignalsUp(a: Snapshot, b: Snapshot) {
    && OnlyChildren(a.family.read, b.family.read)
    && b.family.pending == {} && b.family.zombies == map[]
    && EveryChildReported(b.births, b.family.alive, b.log)
  }

  /** What an event that does not end a batch is owed. */
  ghost predicate Done(event: Event, w: Watch, a: Snapshot, b: Snapshot, before: Mail, after: Mail) {
    match TagOf(a.h, w.fd)
    case Client =>
      && (event.hangup ==> w.fd !in b.h.clients)
      && (event.readable && w.fd in b.h.clients ==> ReadUp(before, after, w.id))
    case Server => event.readable ==> AcceptedUp(a, b, before, after)
    case Signal => event.readable ==> SignalsUp(a, b)
  }

  /** What handling the event of one watch does. */
  ghost predicate EventLaw(r: Handled, a: Snapshot, b: Snapshot, before: Mail, after: Mail,
                           event: Event, w: Watch, who: Identity, defaults: SpawnParamsCommon)
  {
    && Confined(a, b, before, after, a.h, [w]) && Conserved(before, after)
    && match r
       case Next =>
         && SameServer(a, b) && OthersWatched(a.k, a.h, b.k, b.h, w)
         && NoExits(before, after) && Done(event, w, a, b, before, after)
       case Return(result) =>
         && BatchLaw(result, a, b) && EndedBy(result, event, w, a, b, before, after, who, defaults)
         && (result != Ok(Shutdown) ==> NoExits(before, after))
         && (result.Panic? ==> MayAbort(a, after, who, defaults))
  }

  /** The last signal read is a new one and stops the server. */
  ghost predicate StopSignal(a: Snapshot, b: Snapshot) {
    |a.family.read| < |b.family.read| && StopsServer(b.family.read[|b.family.read| - 1])
  }

  /** The event that ended a batch, and why it did. */
  ghost predicate EndedBy(r: Outcome<Control, ServerError>, event: Event, w: Watch, a: Snapshot, b: Snapshot,
                          before: Mail, after: Mail, who: Identity, defaults: SpawnParamsCommon)
  {
    var tag, last := TagOf(a.h, w.fd), LastRead(before, after, w.id);
    match r
    case Ok(PollContinue) => false
    case Ok(Shutdown) => (tag.Signal? && StopSignal(a, b)) || (tag.Client? && last == Some(Parcel(Exit)))
    case Ok(Trampoline(params, payload)) =>
      tag.Client? && last.Some? && LastLaw(Ok(Trampoline(params, payload)), last.value, false, false, who, defaults)
    case Ok(PollBreak) | Ok(Abandoned) =>
      tag.Client? && last.Some? && WantsReply(last.value, who) && last.value.request.SpawnSubspecies?
    case Panic =>
      (tag.Server? && |b.data| == REGISTRY_SIZE) || (tag.Client? && last.Some? && Kills(last.value, who, defaults))
    case Err(ClientFailure(_)) => tag.Client? && a.faults < b.faults
    case Err(ServerSocketFailure(_)) => tag.Server? && a.faults < b.faults
    case Err(SignalHandlerFailure(_)) => tag.Signal? && a.faults < b.faults
    case Err(EpollBroken(data)) => event.broken && data == EpollData(w.fd, tag)
    case Err(_) => false
  }

  datatype Spawned = ParentRuns(child: Pid, answered: bool) | ChildRuns(params: SpawnParamsCommon) | NotSpawned | Overflow

  datatype Served = Running | Stopped | Leaves(params: SpawnParamsCommon, payload: PayloadKind) | Lost

  datatype Handled = Next | Return(result: Outcome<Control, ServerError>)

  ghost predicate SameOwn(a: Handles, b: Handles) {
    b.epoll == a.epoll && b.server == a.server && b.signal == a.signal
  }

  /** Every watch but one that was in place still is. */
  ghost predicate OthersWatched(k: Kernel, h: Handles, k': Kernel, h': Handles, gone: Watch) {
    forall w | StillWatched(k, h, w) && w != gone :: StillWatched(k', h', w)
  }

  ghost predicate Awaits(k: Kernel, h: Handles, event: Event, w: Watch) {
    StillWatched(k, h, w) && EventTells(h, event, w)
  }

  // ---- What a step may say to a client ----

  /** Merging the request's parameters with the server's overflows a fixed-size vector. */
  predicate Overflows(packet: Packet, who: Identity, defaults: SpawnParamsCommon) {
    && WantsReply(packet, who)
    && match packet.request
       case Spawn(common, _) => Or(common, defaults).Panic?
       case SpawnSubspecies(common, _, _) => Or(common, defaults).Panic?
       case _ => false
  }

  /** A packet that aborts the server: its decoding does, or merging its parameters. */
  predicate Kills(packet: Packet, who: Identity, defaults: SpawnParamsCommon) {
    packet.Fatal? || Overflows(packet, who, defaults)
  }

  ghost predicate SomeKills(taken: map<nat, seq<Packet>>, who: Identity, defaults: SpawnParamsCommon) {
    exists id, packet :: packet in QueueOf(taken, id) && Kills(packet, who, defaults)
  }

  datatype Step = Continue | Break(result: Outcome<Control, ClientError>)

  /** How the last packet of a drain relates to its outcome and to what was answered. */
  ghost predicate LastLaw(r: Outcome<Control, ClientError>, packet: Packet, answered: bool, faulted: bool,
                          who: Identity, defaults: SpawnParamsCommon)
  {
    match r
    case Ok(PollContinue) => answered && packet != Parcel(Exit)
    case Ok(Shutdown) => packet == Parcel(Exit) && (answered || faulted)
    case Err(_) => faulted && packet != Parcel(Exit)
    case Panic => Kills(packet, who, defaults)
    case Ok(Trampoline(params, payload)) =>
      && WantsReply(packet, who) && packet.request.Spawn?
      && Or(packet.request.common, defaults) == Ok(params) && payload == packet.request.payload
    case Ok(PollBreak) | Ok(Abandoned) => WantsReply(packet, who) && packet.request.SpawnSubspecies?
  }

  /** What handling one request promises about its reply and its outcome. */
  ghost predicate StepLaw(s: Step, request: Request, reply: Option<Reply>, faulted: bool, who: Identity,
                          defaults: SpawnParamsCommon)
  {
    && (reply.Some? ==> WantsReply(Parcel(request), who) && IsReplyTo(reply.value, request, who))
    && match s
       case Continue => !request.Exit? && (WantsReply(Parcel(request), who) ==> reply.Some?)
       case Break(result) =>
         && result != Ok(PollContinue)
         && LastLaw(result, Parcel(request), reply.Some?, faulted, who, defaults)
  }

  /** How a spawn goes on in the parent. */
  function ParentStep(spawned: Spawned, fd: Fd): (s: Step)
    requires !spawned.ChildRuns?
    ensures s.Break? ==> s.result.Err? || s.result.Panic?
  {
    match spawned
    case ParentRuns(_, answered) => if answered then Continue else Break(Err(SpawnResponseFailed(fd)))
    case NotSpawned => Break(Err(ProcessCreationFailure(fd)))
    case Overflow => Break(Panic)
  }

  lemma ParentStepLaw(spawned: Spawned, fd: Fd, request: Request, reply: Option<Reply>, faulted: bool,
                      who: Identity, defaults: SpawnParamsCommon)
    requires !spawned.ChildRuns? && (request.Spawn? || request.SpawnSubspecies?) && request.payload in who.payloads
    requires spawned.Overflow? <==> Or(request.common, defaults).Panic?
    requires if spawned.ParentRuns? && spawned.answered then reply == Some(SpawnResponse(spawned.child)) else reply.None?
    requires spawned.NotSpawned? || (spawned.ParentRuns? && !spawned.answered) ==> faulted
    ensures StepLaw(ParentStep(spawned, fd), request, reply, faulted, who, defaults)
  {
  }

  /** How it goes on in the child of a subspecies spawn. */
  function SubspeciesStep(reborn: bool): Step {
    Break(Ok(if reborn then PollBreak else Abandoned))
  }

  lemma SubspeciesStepLaw(s: Step, request: Request, faulted: bool, who: Identity, defaults: SpawnParamsCommon)
    requires request.SpawnSubspecies? && request.payload in who.payloads && exists reborn :: s == SubspeciesStep(reborn)
    ensures StepLaw(s, request, None, faulted, who, defaults)
  {
  }

  /** A drain handles the packets `got` and sends `replies`: each packet but the last is one
      after which the server reads on, and each is answered, the last one unless the outcome
      says why not. */
  ghost predicate DrainLaw(r: Outcome<Control, ClientError>, got: seq<Packet>, replies: seq<Reply>, faulted: bool,
                           who: Identity, defaults: SpawnParamsCommon)
  {
    && StopsOnlyAtEnd(got)
    && if got == [] then replies == [] && (r == Ok(PollContinue) || (r.Err? && faulted))
       else
         && LastLaw(r, got[|got| - 1], Answers(replies, got, who), faulted, who, defaults)
         && (Answers(replies, got, who) || Answers(replies, got[..|got| - 1], who))
  }

  /** A drain ends with a call that would block, the only one it makes, unless something it read
      or a failure ended it. */
  ghost predicate StallsBy(before: Mail, after: Mail, id: nat, r: Outcome<Control, ClientError>, got: seq<Packet>) {
    after.stalls == before.stalls +
      if r == Ok(PollContinue) && (got == [] || ReadsOn(got[|got| - 1])) then [StreamDry(id, |QueueOf(after.taken, id)|)]
      else []
  }

  ghost predicate ChildrenExist(k: Kernel, f: Family) {
    forall p | p in Present(f) :: p in k.others
  }

  /** Nothing that was open has been closed or replaced. */
  ghost predicate Kept(k: Kernel, k': Kernel) {
    forall fd | fd in k.fds :: fd in k'.fds && k'.fds[fd] == k.fds[fd]
  }

  ghost predicate NoneExecuted(data: seq<Entry>) {
    forall e | e in data :: !e.executed
  }

  /** A live table that gains an entry for a number it had none for has no closed slot to reuse. */
  lemma PrimaryGrows(data: seq<Entry>, data': seq<Entry>, e: Entry)
    requires RegisteredAs(data, data', e) && !e.executed && !HasLive(data, e.fd)
    ensures NoneExecuted(data) ==> NoneExecuted(data') && !HasEntry(data, e.fd)
  {
  }

  lemma AdmittedKeeps(k: Kernel, k1: Kernel, data: seq<Entry>, data': seq<Entry>, h: Handles, fd: Fd)
    requires Consistent(k, data, h) && |h.clients| < MAX_CLIENTS
    requires WellFormed(k1) && Joined(k, k1, fd) && fd == LowestFree(k) && k1.fds[fd].id == |k.descs|
    requires ReadySocket(k1, fd, Accepted) && CurrentInfo(k1, fd).Some?
    requires Sorted(data') && |data'| <= REGISTRY_SIZE
    requires RegisteredAs(data, data', NewEntry(fd, CurrentInfo(k1, fd).value, Close))
    ensures IsRawFd(fd) && CanWatch(k1, h.epoll, fd)
    ensures var k2 := Watched(k1, h.epoll, fd, Encode(EpollData(fd, EpollTag.Client)));
            && Consistent(k2, data', WithClient(h, fd)) && Kept(k, k2) && k2.pid == k1.pid && k2.others == k1.others
            && (OwnInstanceOnly(k, k1, h.epoll) ==> OwnInstanceOnly(k, k2, h.epoll))
  {
    Aspects(k, data, h);
    EpollIsOpen(k, data, h);
    assert ReopensFiles(data');
    AcceptKeeps(k, k1, data, data', h, fd);
  }

  lemma ConsistentBasics(k: Kernel, data: seq<Entry>, h: Handles, fd: Fd)
    requires Consistent(k, data, h) && fd !in k.fds
    ensures Sorted(data) && |data| <= REGISTRY_SIZE && !HasLive(data, fd)
  {
    Aspects(k, data, h);
  }

  /** Clients that were not there before are on descriptions that were not there before. */
  ghost predicate NewStreams(k: Kernel, k': Kernel, clients: seq<Fd>, clients': seq<Fd>) {
    && |k.descs| <= |k'.descs|
    && forall c | c in clients' && c !in clients :: c in k'.fds && k'.fds[c].id >= |k.descs|
  }

  /** Nothing that was open has been closed or replaced, but `gone`. */
  ghost predicate KeptBut(k: Kernel, k': Kernel, gone: Fd) {
    forall fd | fd in k.fds && fd != gone :: fd in k'.fds && k'.fds[fd] == k.fds[fd]
  }

  function Position(fds: seq<Fd>, fd: Fd): (i: Option<nat>)
    ensures i.None? <==> fd !in fds
    ensures i.Some? ==> i.value < |fds| && fds[i.value] == fd
  {
    if fds == [] then None
    else if fds[0] == fd then Some(0)
    else
      match Position(fds[1..], fd)
      case Some(i) => Some(i + 1)
      case None => None
  }

  lemma SortedTable(k: Kernel, data: seq<Entry>, h: Handles)
    requires Consistent(k, data, h)
    ensures Sorted(data) && |data| <= REGISTRY_SIZE
  {
    Aspects(k, data, h);
  }

  lemma RemovedKeeps(k: Kernel, data: seq<Entry>, data': seq<Entry>, h: Handles, fd: Fd)
    requires Consistent(k, data, h) && fd in h.clients
    requires Sorted(data') && |data'| == |data| - (if HasEntry(data, fd) then 1 else 0)
    requires forall e :: e in data' <==> e in data && e.fd != fd
    ensures HasEntry(data, fd) && IsWatched(k, h.epoll, fd) && fd in Unwatched(k, h.epoll, fd).fds
    ensures var i, k2 := Position(h.clients, fd).value, Closed(Unwatched(k, h.epoll, fd), fd);
            && Consistent(k2, data', WithoutClient(h, i))
            && KeptBut(k, k2, fd) && k2.others == k.others && k2.pid == k.pid && OwnInstanceOnly(k, k2, h.epoll)
            && (forall c :: c in WithoutClient(h, i).clients <==> c in h.clients && c != fd)
    ensures NoneExecuted(data) ==> NoneExecuted(data')
  {
    var i := Position(h.clients, fd).value;
    EpollIsOpen(k, data, h);
    EpollIsNoClient(k, data, h, fd);
    ClientIsWatched(k, data, h, i);
    RemoveKeeps(k, data, data', h, i);
    OtherClientsStay(k, data, h, i);
  }

  lemma EpollIsNoClient(k: Kernel, data: seq<Entry>, h: Handles, fd: Fd)
    requires Consistent(k, data, h) && fd in h.clients
    ensures h.epoll != fd
  {
    Aspects(k, data, h);
    assert IsWatchedFd(h, fd);
  }

  lemma OtherClientsStay(k: Kernel, data: seq<Entry>, h: Handles, i: nat)
    requires Consistent(k, data, h) && i < |h.clients|
    ensures forall c :: c in WithoutClient(h, i).clients <==> c in h.clients && c != h.clients[i]
  {
    Aspects(k, data, h);
    WithoutClientMembers(h, i);
  }

  lemma ListenersAudited(k: Kernel, data: seq<Entry>, server: Fd, signal: Fd)
    requires Listens(k, data, server, signal)
    ensures WellFormed(k) && TableSound(data) && Agree(data, k) && IsRawFd(server) && IsRawFd(signal)
  {
    Parts(k, data, server, signal);
  }

  lemma NotLiveBefore(k: Kernel, data: seq<Entry>, fd: Fd)
    requires Agree(data, k) && fd !in k.fds
    ensures !HasLive(data, fd)
  {
  }

  lemma ForkedKeeps(parent: Kernel, k: Kernel, data: seq<Entry>, h: Handles)
    requires Consistent(parent, data, h) && k.pid != parent.pid && k.pid !in parent.others
    requires k == ForkedChild(parent, k.pid)
    ensures Consistent(k, data, h) && BranchedFrom(parent, k)
  {
    ForkKeeps(parent, k.pid, data, h);
    Aspects(parent, data, h);
    Aspects(k, data, h);
  }

  lemma SoundKernel(k: Kernel, data: seq<Entry>, h: Handles)
    requires Consistent(k, data, h)
    ensures WellFormed(k)
  {
    Aspects(k, data, h);
  }

  lemma OneAnswer(packet: Packet, reply: Option<Reply>, who: Identity)
    requires reply.Some? ==> WantsReply(packet, who) && IsReplyTo(reply.value, packet.request, who)
    ensures Answers(if reply.Some? then [reply.value] else [], [packet], who) <==> (WantsReply(packet, who) ==> reply.Some?)
    ensures reply.None? ==> Answers([], [packet][..0], who)
    ensures Answers(if reply.Some? then [reply.value] else [], [packet], who) || reply.None?
  {
  }

  /** The step of one request, as the drain of one packet. */
  lemma StepDrains(s: Step, packet: Packet, reply: Option<Reply>, replies: seq<Reply>, faulted: bool, who: Identity,
                   defaults: SpawnParamsCommon)
    requires packet.Parcel? && replies == if reply.Some? then [reply.value] else []
    ensures StepLaw(s, packet.request, reply, faulted, who, defaults) ==>
              if s.Continue? then ReadsOn(packet) && Answers(replies, [packet], who)
              else s.result != Ok(PollContinue) && DrainLaw(s.result, [packet], replies, faulted, who, defaults)
  {
    if StepLaw(s, packet.request, reply, faulted, who, defaults) {
      OneAnswer(packet, reply, who);
      assert [packet][..0] == [];
    }
  }

  /** A packet that is no request. */
  lemma NoRequestDrains(packet: Packet, faulted: bool, who: Identity, defaults: SpawnParamsCommon)
    ensures packet.Fatal? ==> DrainLaw(Panic, [packet], [], faulted, who, defaults)
    ensures !packet.Fatal? && !packet.Parcel? ==> DrainLaw(Ok(PollContinue), [packet], [], faulted, who, defaults)
  {
    OneAnswer(packet, None, who);
  }

  lemma RoundGoesOn(got: seq<Packet>, replies: seq<Reply>, more: seq<Packet>, answers: seq<Reply>, who: Identity)
    requires AllReadOn(got) && Answers(replies, got, who)
    requires |more| == 1 && ReadsOn(more[0]) && Answers(answers, more, who)
    ensures AllReadOn(got + more) && Answers(replies + answers, got + more, who)
  {
    AnswersConcat(replies, got, answers, more, who);
  }

  lemma AnsweredLater(r: Outcome<Control, ClientError>, packet: Packet, now: bool, later: bool, faulted: bool,
                      who: Identity, defaults: SpawnParamsCommon)
    requires now ==> later
    ensures LastLaw(r, packet, now, faulted, who, defaults) ==> LastLaw(r, packet, later, faulted, who, defaults)
  {
  }

  lemma AnswersJoin(got: seq<Packet>, replies: seq<Reply>, packet: Packet, answers: seq<Reply>, who: Identity)
    requires Answers(replies, got, who)
    ensures Answers(answers, [packet], who) ==> Answers(replies + answers, got + [packet], who)
    ensures Answers(answers, [], who) ==> Answers(replies + answers, (got + [packet])[..|got|], who)
  {
    assert (got + [packet])[..|got|] == got + [];
    if Answers(answers, [packet], who) { AnswersConcat(replies, got, answers, [packet], who); }
    if Answers(answers, [], who) { AnswersConcat(replies, got, answers, [], who); }
  }

  lemma ReadsOnThrough(got: seq<Packet>, packet: Packet)
    requires AllReadOn(got)
    ensures StopsOnlyAtEnd(got + [packet])
  {
  }

  /** The last packet's law is the whole drain's, all earlier packets having been answered. */
  lemma DrainEnds(r: Outcome<Control, ClientError>, got: seq<Packet>, replies: seq<Reply>, more: seq<Packet>,
                  answers: seq<Reply>, faulted: bool, who: Identity, defaults: SpawnParamsCommon)
    requires AllReadOn(got) && Answers(replies, got, who) && |more| <= 1
    ensures DrainLaw(r, more, answers, faulted, who, defaults) ==>
              DrainLaw(r, got + more, replies + answers, faulted, who, defaults)
  {
    if DrainLaw(r, more, answers, faulted, who, defaults) {
      if more == [] {
        NothingMore(r, got, replies, faulted, who, defaults);
        assert got + more == got && replies + answers == replies;
      } else {
        assert more == [more[0]] && more[..0] == [];
        ReadsOnThrough(got, more[0]);
        AnswersJoin(got, replies, more[0], answers, who);
        AnsweredLater(r, more[0], Answers(answers, more, who), Answers(replies + answers, got + more, who), faulted, who,
                      defaults);
      }
    }
  }

  lemma NothingMore(r: Outcome<Control, ClientError>, got: seq<Packet>, replies: seq<Reply>, faulted: bool,
                    who: Identity, defaults: SpawnParamsCommon)
    requires AllReadOn(got) && Answers(replies, got, who) && (r == Ok(PollContinue) || (r.Err? && faulted))
    ensures DrainLaw(r, got, replies, faulted, who, defaults)
  {
    if got != [] { assert ReadsOn(got[|got| - 1]); }
  }

  lemma FaultedLater(r: Outcome<Control, ClientError>, got: seq<Packet>, replies: seq<Reply>, late: bool, ever: bool,
                     who: Identity, defaults: SpawnParamsCommon)
    requires late ==> ever
    ensures DrainLaw(r, got, replies, late, who, defaults) ==> DrainLaw(r, got, replies, ever, who, defaults)
  {
  }

  lemma StayedThen(r: Outcome<Control, ClientError>, a: Snapshot, b: Snapshot, c: Snapshot)
    requires Stayed(a, b)
    ensures ControlLaw(r, b, c) ==> ControlLaw(r, a, c)
  {
    StayedMeans(a, b);
    StayedTwice(a, b, c);
  }

  lemma ClientIsOpen(k: Kernel, data: seq<Entry>, h: Handles, fd: Fd)
    requires Consistent(k, data, h) && fd in h.clients
    ensures fd in k.fds
  {
    ClientIsWatched(k, data, h, Position(h.clients, fd).value);
  }

  /** `OthersAnswered` is all a drain keeps of a client it then removes. */
  ghost predicate OthersAnswered(mail: Mail, k: Kernel, clients: seq<Fd>, but: Fd, who: Identity) {
    && (forall c | c in clients && c in k.fds && c != but :: StreamAnswered(mail, k.fds[c].id, who))
    && UnusedFrom(mail, |k.descs|)
  }

  ghost predicate ClientsAnswered(mail: Mail, k: Kernel, clients: seq<Fd>, who: Identity) {
    && (forall c | c in clients && c in k.fds :: StreamAnswered(mail, k.fds[c].id, who))
    && UnusedFrom(mail, |k.descs|)
  }

  lemma ClientStreams(k: Kernel, data: seq<Entry>, h: Handles, fd: Fd)
    requires Consistent(k, data, h) && fd in h.clients
    ensures fd in k.fds && k.fds[fd].id < |k.descs| && StreamsApart(k, h.clients)
    ensures forall c | c in h.clients :: c in k.fds
  {
    forall c | c in h.clients ensures c in k.fds { ClientIsOpen(k, data, h, c); }
    Aspects(k, data, h);
  }

  lemma DrainKeepsAnswers(a: Mail, b: Mail, k: Kernel, clients: seq<Fd>, fd: Fd,
                          got: seq<Packet>, replies: seq<Reply>, who: Identity)
    requires fd in clients && fd in k.fds && k.fds[fd].id < |k.descs| && StreamsApart(k, clients)
    requires Exchanged(a, b, k.fds[fd].id, got, replies) && ClientsAnswered(a, k, clients, who)
    ensures OthersAnswered(b, k, clients, fd, who)
    ensures Answers(replies, got, who) ==> ClientsAnswered(b, k, clients, who)
  {
    forall c | c in clients && c in k.fds && c != fd ensures StreamAnswered(b, k.fds[c].id, who) {
      assert StreamAnswered(a, k.fds[c].id, who) && Untouched(a, b, k.fds[c].id);
    }
    forall id | id >= |k.descs| ensures QueueOf(b.taken, id) == [] && QueueOf(b.sent, id) == [] {
      assert Untouched(a, b, id);
    }
    if Answers(replies, got, who) { ExchangeAnswers(a, b, k.fds[fd].id, got, replies, who); }
  }

  /** With one client gone, what is kept of the others is all there is to keep. */
  lemma FewerClientsAnswered(mail: Mail, k: Kernel, k': Kernel, data: seq<Entry>, h: Handles, clients': seq<Fd>,
                             fd: Fd, who: Identity)
    ensures Consistent(k, data, h) && KeptBut(k, k', fd) && |k.descs| <= |k'.descs|
            && OthersAnswered(mail, k, h.clients, fd, who)
            && (forall c :: c in clients' <==> c in h.clients && c != fd)
            ==> ClientsAnswered(mail, k', clients', who)
  {
    if Consistent(k, data, h) { ClientsAreOpen(k, data, h); }
  }

  lemma ClientsAreOpen(k: Kernel, data: seq<Entry>, h: Handles)
    requires Consistent(k, data, h)
    ensures forall c | c in h.clients :: c in k.fds
  {
    forall c | c in h.clients ensures c in k.fds { ClientIsOpen(k, data, h, c); }
  }

  lemma MoreClientsAnswered(mail: Mail, k: Kernel, k': Kernel, clients: seq<Fd>, clients': seq<Fd>, who: Identity)
    requires forall c | c in clients :: c in k.fds
    ensures Kept(k, k') && NewStreams(k, k', clients, clients') && ClientsAnswered(mail, k, clients, who) ==>
              ClientsAnswered(mail, k', clients', who)
  {
  }

  lemma OwnNumbersApart(k: Kernel, data: seq<Entry>, h: Handles)
    requires Consistent(k, data, h)
    ensures h.server != h.signal && h.server !in h.clients && h.signal !in h.clients
  {
    Aspects(k, data, h);
  }

  // ---- Batches ----

  /** How what a drain last read goes with its outcome. */
  ghost predicate ReadLaw(r: Outcome<Control, ClientError>, last: Option<Packet>, who: Identity,
                          defaults: SpawnParamsCommon) {
    match r
    case Ok(PollContinue) | Err(_) => true
    case Ok(Shutdown) => last == Some(Parcel(Exit))
    case Ok(Trampoline(params, payload)) =>
      last.Some? && LastLaw(Ok(Trampoline(params, payload)), last.value, false, false, who, defaults)
    case Ok(PollBreak) | Ok(Abandoned) => last.Some? && WantsReply(last.value, who) && last.value.request.SpawnSubspecies?
    case Panic => last.Some? && Kills(last.value, who, defaults)
  }

  /** The same for the outcome of a client's event. */
  ghost predicate ClientEnds(r: Outcome<Control, ServerError>, last: Option<Packet>, who: Identity,
                             defaults: SpawnParamsCommon) {
    match r
    case Ok(PollContinue) => false
    case Ok(control) => ReadLaw(Ok(control), last, who, defaults)
    case Err(error) => error.ClientFailure?
    case Panic => ReadLaw(Panic, last, who, defaults)
  }

  lemma EpollIsOpen(k: Kernel, data: seq<Entry>, h: Handles)
    requires Consistent(k, data, h)
    ensures h.epoll in k.fds
  {
    Aspects(k, data, h);
    TrackedIsOpen(k, data, h.epoll, Close);
  }

  lemma StayedIsSame(a: Snapshot, b: Snapshot)
    requires a.h.epoll in a.k.fds && Stayed(a, b)
    ensures SameServer(a, b) && SignalsUnread(a, b) && b.k.pid == a.k.pid && b.pid == a.pid && a.faults <= b.faults
    ensures b.k.fds == a.k.fds && b.k.descs == a.k.descs && b.h == a.h && b.connections == a.connections
  {
    StayedMeans(a, b);
    SameMeans(a, b);
  }

  /** A drain reads no signal and accepts nobody; what it ends is what a batch ends. */
  lemma ControlEnds(r: Outcome<Control, ClientError>, a: Snapshot, b: Snapshot)
    requires a.h.epoll in a.k.fds && Consistent(a.k, a.data, a.h) && ControlLaw(r, a, b)
    ensures SignalsUnread(a, b) && b.connections == a.connections
    ensures r.Ok? ==> r.value.PollContinue? || BatchLaw<ServerError>(Ok(r.value), a, b)
    ensures !r.Ok? || r.value.PollContinue? ==>
              && SameServer(a, b) && b.k.pid == a.k.pid && b.k.fds == a.k.fds && b.k.descs == a.k.descs && b.h == a.h
              && a.faults <= b.faults
  {
    SameAtAll(a);
    match r {
      case Ok(PollBreak) => assert ServesOn(a, b);
      case Ok(Trampoline(_, _)) => assert SameServer(a, a) && LeftBehind(a, b.k);
      case Ok(Abandoned) =>
      case _ => StayedIsSame(a, b);
    }
  }

  lemma StallsJoin(a: Mail, b: Mail, c: Mail, id: nat, r: Outcome<Control, ClientError>, got: seq<Packet>, more: seq<Packet>)
    requires a.stalls == b.stalls && AllReadOn(got)
    ensures StallsBy(b, c, id, r, more) ==> StallsBy(a, c, id, r, got + more)
  {
    if more == [] { assert got + more == got; }
  }

  lemma DrainReadsUp(a: Mail, b: Mail, id: nat, got: seq<Packet>, replies: seq<Reply>, r: Outcome<Control, ClientError>)
    requires Exchanged(a, b, id, got, replies)
    ensures StallsBy(a, b, id, r, got) && r == Ok(PollContinue) ==> ReadUp(a, b, id)
  {
    var now := QueueOf(b.taken, id);
    if got != [] { assert now[|now| - 1] == got[|got| - 1]; }
    if StallsBy(a, b, id, r, got) && r == Ok(PollContinue) && (got == [] || ReadsOn(got[|got| - 1])) {
      assert b.stalls[|a.stalls|..] == [StreamDry(id, |now|)];
    }
  }

  lemma DrainReads(a: Mail, b: Mail, id: nat, got: seq<Packet>, replies: seq<Reply>, r: Outcome<Control, ClientError>,
                   faulted: bool, who: Identity, defaults: SpawnParamsCommon)
    requires Exchanged(a, b, id, got, replies)
    ensures DrainLaw(r, got, replies, faulted, who, defaults) ==> ReadLaw(r, LastRead(a, b, id), who, defaults)
    ensures DrainLaw(r, got, replies, faulted, who, defaults) && r != Ok(Shutdown) ==> NoExit(a, b, id)
    ensures DrainLaw(r, got, replies, faulted, who, defaults) && r.Panic? ==> SomeKills(b.taken, who, defaults)
  {
    var now := QueueOf(b.taken, id);
    if DrainLaw(r, got, replies, faulted, who, defaults) && got != [] {
      assert now[|now| - 1] == got[|got| - 1];
      if r != Ok(Shutdown) {
        forall i | |QueueOf(a.taken, id)| <= i < |now| ensures now[i] != Parcel(Exit) {
          assert now[i] == got[i - |QueueOf(a.taken, id)|];
          assert i < |now| - 1 ==> ReadsOn(got[i - |QueueOf(a.taken, id)|]);
        }
      }
    }
  }

  /** The clients among the first `n` watches were drained without any asking for an exit. */
  ghost predicate PassedOver(before: Mail, after: Mail, h: Handles, watches: seq<Watch>, n: nat)
    requires n <= |watches|
  {
    forall j | 0 <= j < n && TagOf(h, watches[j].fd).Client? :: NoExit(before, after, watches[j].id)
  }

  /** Different client watches of a batch are for different streams. */
  ghost predicate StreamsDiffer(h: Handles, watches: seq<Watch>) {
    forall i, j | 0 <= i < j < |watches| && TagOf(h, watches[i].fd).Client? && TagOf(h, watches[j].fd).Client? ::
      watches[i].id != watches[j].id
  }

  lemma BatchStreamsDiffer(k: Kernel, data: seq<Entry>, h: Handles, watches: seq<Watch>)
    requires Consistent(k, data, h) && forall i | 0 <= i < |watches| :: StillWatched(k, h, watches[i])
    requires forall a, b | 0 <= a < b < |watches| :: watches[a] != watches[b]
    ensures StreamsDiffer(h, watches)
  {
    Aspects(k, data, h);
  }

  lemma BrokenEvent(r: Handled, a: Snapshot, mail: Mail, event: Event, w: Watch, who: Identity, defaults: SpawnParamsCommon)
    requires event.broken && r == Return(Err(EpollBroken(EpollData(w.fd, TagOf(a.h, w.fd)))))
    ensures EventLaw(r, a, a, mail, mail, event, w, who, defaults)
  {
  }

  /** What the event of one client does: its stream alone is used, and either the server goes on,
      without the client if that has hung up, or the last packet read or a failure says why not. */
  ghost predicate ClientHandled(r: Handled, a: Snapshot, b: Snapshot, before: Mail, after: Mail, fd: Fd, id: nat,
                                readable: bool, hangup: bool, who: Identity, defaults: SpawnParamsCommon)
  {
    && Conserved(before, after) && SignalsUnread(a, b) && b.connections == a.connections
    && (forall other | other != id :: Untouched(before, after, other))
    && (r != Return(Ok(Shutdown)) ==> NoExit(before, after, id))
    && ((r.Next? || r.result == Ok(PollBreak)) && ClientsAnswered(before, a.k, a.h.clients, who) ==>
          ClientsAnswered(after, b.k, b.h.clients, who))
    && match r
       case Next =>
         && SameServer(a, b) && KeptBut(a.k, b.k, fd)
         && (forall c | c in a.h.clients && c != fd :: c in b.h.clients)
         && (hangup ==> fd !in b.h.clients)
         && (readable && fd in b.h.clients ==> ReadUp(before, after, id))
       case Return(result) =>
         && BatchLaw(result, a, b) && ClientEnds(result, LastRead(before, after, id), who, defaults)
         && (result.Err? ==> a.faults < b.faults)
         && (result.Panic? ==> SomeKills(after.taken, who, defaults))
  }

  /** What the drain of one client does. */
  ghost predicate ClientDrained(r: Outcome<Control, ClientError>, a: Snapshot, b: Snapshot, before: Mail, after: Mail,
                                fd: Fd, id: nat, who: Identity, defaults: SpawnParamsCommon)
  {
    && Conserved(before, after) && ControlLaw(r, a, b) && ReadLaw(r, LastRead(before, after, id), who, defaults)
    && (forall other | other != id :: Untouched(before, after, other))
    && (r != Ok(Shutdown) ==> NoExit(before, after, id))
    && (r == Ok(PollContinue) ==> ReadUp(before, after, id))
    && (r.Panic? ==> SomeKills(after.taken, who, defaults))
    && (ClientsAnswered(before, a.k, a.h.clients, who) ==>
          && OthersAnswered(after, a.k, a.h.clients, fd, who)
          && (r == Ok(PollContinue) ==> ClientsAnswered(after, b.k, b.h.clients, who)))
  }

  /** Where the drain settles the event. */
  lemma DrainSettles(r: Outcome<Control, ClientError>, a: Snapshot, b: Snapshot, before: Mail, after: Mail,
                     fd: Fd, id: nat, hangup: bool, who: Identity, defaults: SpawnParamsCommon)
    requires Consistent(a.k, a.data, a.h) && ClientDrained(r, a, b, before, after, fd, id, who, defaults)
    ensures r.Ok? && r != Ok(PollContinue) ==>
              ClientHandled(Return(Ok(r.value)), a, b, before, after, fd, id, true, hangup, who, defaults)
    ensures r.Panic? ==> ClientHandled(Return(Panic), a, b, before, after, fd, id, true, hangup, who, defaults)
    ensures r == Ok(PollContinue) && !hangup ==>
              ClientHandled(Next, a, b, before, after, fd, id, true, hangup, who, defaults)
  {
    EpollIsOpen(a.k, a.data, a.h);
    ControlEnds(r, a, b);
    RebornAnswered(r, a, b, after, fd, who);
  }

  /** A subspecies server starts without clients, and no stream it could give one has been used. */
  lemma RebornAnswered(r: Outcome<Control, ClientError>, a: Snapshot, b: Snapshot, mail: Mail, fd: Fd, who: Identity)
    requires ControlLaw(r, a, b)
    ensures r == Ok(PollBreak) && OthersAnswered(mail, a.k, a.h.clients, fd, who) ==>
              ClientsAnswered(mail, b.k, b.h.clients, who)
  {
  }

  /** Where the client is removed after it; `c` is the state then. */
  lemma RemovalSettles(drained: Outcome<Control, ClientError>, r: Handled, a: Snapshot, b: Snapshot, c: Snapshot,
                       before: Mail, after: Mail, fd: Fd, id: nat, hangup: bool, who: Identity, defaults: SpawnParamsCommon)
    requires Consistent(a.k, a.data, a.h) && ClientDrained(drained, a, b, before, after, fd, id, who, defaults)
    requires drained.Err? || drained == Ok(PollContinue)
    requires c.family == b.family && c.log == b.log && c.connections == b.connections && c.k.pid == b.k.pid
    requires r.Next? ==>
               && SameServer(b, c) && KeptBut(b.k, c.k, fd)
               && (forall x :: x in c.h.clients <==> x in b.h.clients && x != fd)
    requires r.Next? && OthersAnswered(after, b.k, b.h.clients, fd, who) ==> ClientsAnswered(after, c.k, c.h.clients, who)
    requires b.faults <= c.faults
    requires r.Return? ==> r.result.Err? && r.result.error.ClientFailure? && b.faults < c.faults
    ensures ClientHandled(r, a, c, before, after, fd, id, true, hangup, who, defaults)
  {
    EpollIsOpen(a.k, a.data, a.h);
    ControlEnds(drained, a, b);
    SameTwice(a, b, c);
  }

  /** A drain that goes on or fails leaves the clients and their descriptors alone. */
  lemma DrainedSame(r: Outcome<Control, ClientError>, a: Snapshot, b: Snapshot)
    requires ControlLaw(r, a, b)
    ensures r.Err? || r == Ok(PollContinue) ==> b.h == a.h && b.k.fds == a.k.fds && b.k.descs == a.k.descs
  {
    if Stayed(a, b) { StayedMeans(a, b); }
  }

  lemma ClientEventLaw(r: Handled, a: Snapshot, b: Snapshot, before: Mail, after: Mail,
                       event: Event, w: Watch, who: Identity, defaults: SpawnParamsCommon)
    requires StillWatched(a.k, a.h, w) && TagOf(a.h, w.fd).Client?
    ensures ClientHandled(r, a, b, before, after, w.fd, w.id, event.readable, event.hangup, who, defaults)
            ==> EventLaw(r, a, b, before, after, event, w, who, defaults)
  {
    assert w in [w];
    SameMeans(a, b);
    if (forall id | id != w.id :: Untouched(before, after, id)) && NoExit(before, after, w.id) {
      NoOtherExit(before, after, w.id);
    }
  }

  lemma NoOtherExit(before: Mail, after: Mail, id: nat)
    requires (forall other | other != id :: Untouched(before, after, other)) && NoExit(before, after, id)
    ensures NoExits(before, after)
  {
    forall other ensures NoExit(before, after, other) {
      assert other != id ==> Untouched(before, after, other);
    }
  }

  lemma ServerEventLaw(r: Handled, a: Snapshot, b: Snapshot, before: Mail, after: Mail,
                       event: Event, w: Watch, who: Identity, defaults: SpawnParamsCommon)
    requires StillWatched(a.k, a.h, w) && TagOf(a.h, w.fd).Server?
    ensures && b.family == a.family && b.log == a.log
            && after == before.(stalls := after.stalls) && before.stalls <= after.stalls
            && (r.Next? ==>
                  && SameServer(a, b) && Kept(a.k, b.k) && (forall c | c in a.h.clients :: c in b.h.clients)
                  && (event.readable ==> AcceptedUp(a, b, before, after)))
            && (r.Return? ==>
                  && BatchLaw(r.result, a, b) && (r.result.Panic? || (r.result.Err? && r.result.error.ServerSocketFailure?))
                  && (r.result.Err? ==> a.faults < b.faults)
                  && (r.result.Panic? ==>
                        |b.data| == REGISTRY_SIZE && Overhead(a.data, a.h.clients) + MAX_CLIENTS > REGISTRY_SIZE))
            ==> EventLaw(r, a, b, before, after, event, w, who, defaults)
  {
    assert w in [w];
    SameMeans(a, b);
  }

  lemma SignalEventLaw(r: Handled, a: Snapshot, b: Snapshot, mail: Mail, event: Event, w: Watch, who: Identity,
                       defaults: SpawnParamsCommon)
    requires StillWatched(a.k, a.h, w) && TagOf(a.h, w.fd).Signal?
    requires a.h.epoll in a.k.fds
    ensures && b == a.(family := b.family, log := b.log, faults := b.faults)
            && a.family.read <= b.family.read && a.faults <= b.faults
            && (r.Next? && event.readable ==> SignalsUp(a, b))
            && (r.Return? ==>
                  || (r.result == Ok(Shutdown) && StopSignal(a, b))
                  || (r.result.Err? && r.result.error.SignalHandlerFailure? && a.faults < b.faults))
            ==> EventLaw(r, a, b, mail, mail, event, w, who, defaults)
  {
    assert w in [w];
    SameMeans(a, b);
  }

  /** Handling one more event adds that event's watch to what was touched. */
  lemma ConfinedMore(a: Snapshot, b: Snapshot, c: Snapshot, before: Mail, mid: Mail, after: Mail,
                     h0: Handles, h: Handles, watches: seq<Watch>, i: nat)
    requires i < |watches| && SameOwn(h0, h) && b.k.pid == a.k.pid
    ensures Confined(a, b, before, mid, h0, watches[..i]) && Confined(b, c, mid, after, h, [watches[i]]) ==>
              Confined(a, c, before, after, h0, watches[..i + 1])
  {
    if Confined(a, b, before, mid, h0, watches[..i]) && Confined(b, c, mid, after, h, [watches[i]]) {
      assert watches[..i + 1] == watches[..i] + [watches[i]];
      ConfinedBoth(a, b, c, before, mid, after, h0, h, watches[..i], watches[i]);
    }
  }

  lemma ConfinedBoth(a: Snapshot, b: Snapshot, c: Snapshot, before: Mail, mid: Mail, after: Mail,
                     h0: Handles, h: Handles, ws: seq<Watch>, w: Watch)
    requires SameOwn(h0, h) && b.k.pid == a.k.pid
    requires Confined(a, b, before, mid, h0, ws) && Confined(b, c, mid, after, h, [w])
    ensures Confined(a, c, before, after, h0, ws + [w])
  {
    forall id | NoStreamOf(h0, ws + [w], id) ensures Untouched(before, after, id) {
      NoStreamOfBoth(h0, h, ws, w, id);
      assert Untouched(before, mid, id) && Untouched(mid, after, id);
    }
    NoneTaggedBoth(h0, h, ws, w, EpollTag.Server);
    NoneTaggedBoth(h0, h, ws, w, EpollTag.Signal);
  }

  lemma NoStreamOfBoth(h0: Handles, h: Handles, ws: seq<Watch>, w: Watch, id: nat)
    requires SameOwn(h0, h)
    ensures NoStreamOf(h0, ws + [w], id) ==> NoStreamOf(h0, ws, id) && NoStreamOf(h, [w], id)
  {
    assert w in ws + [w] && forall x | x in ws :: x in ws + [w];
  }

  lemma NoneTaggedBoth(h0: Handles, h: Handles, ws: seq<Watch>, w: Watch, tag: EpollTag)
    requires SameOwn(h0, h)
    ensures NoneTagged(h0, ws + [w], tag) ==> NoneTagged(h0, ws, tag) && NoneTagged(h, [w], tag)
  {
    assert w in ws + [w] && forall x | x in ws :: x in ws + [w];
  }

  /** Every later watch of a batch, of whichever class, has been left alone. */
  lemma LaterWatchesUntouched(a: Snapshot, b: Snapshot, before: Mail, after: Mail, h: Handles, watches: seq<Watch>,
                              seen: nat, j: nat)
    requires seen <= j < |watches| && Confined(a, b, before, after, h, watches[..seen]) && StreamsDiffer(h, watches)
    requires forall x, y | 0 <= x < y < |watches| :: watches[x].fd != watches[y].fd
    ensures TagOf(h, watches[j].fd).Client? ==> Untouched(before, after, watches[j].id)
    ensures watches[j].fd == h.server ==> b.connections == a.connections
    ensures watches[j].fd == h.signal && h.signal != h.server ==> SignalsUnread(a, b)
  {
    if TagOf(h, watches[j].fd).Client? {
      forall w | w in watches[..seen] && TagOf(h, w.fd).Client? ensures w.id != watches[j].id {
        var x :| 0 <= x < seen && watches[x] == w;
      }
      assert NoStreamOf(h, watches[..seen], watches[j].id);
    }
    if watches[j].fd == h.server { assert NoneTagged(h, watches[..seen], EpollTag.Server); }
    if watches[j].fd == h.signal && h.signal != h.server { assert NoneTagged(h, watches[..seen], EpollTag.Signal); }
  }

  lemma LawFromTheStart<E>(r: Outcome<Control, E>, a: Snapshot, b: Snapshot, c: Snapshot)
    requires SameServer(a, b) && BatchLaw(r, b, c)
    ensures BatchLaw(r, a, c)
  {
    SameMeans(a, b);
    match r {
      case Ok(PollBreak) =>
        var m :| SameServer(b, m) && ServesOn(m, c);
        SameTwice(a, b, m);
      case Ok(Trampoline(_, _)) =>
        var m :| SameServer(b, m) && LeftBehind(m, c.k);
        SameTwice(a, b, m);
      case Ok(Shutdown) => SameTwice(a, b, c);
      case _ =>
    }
  }

  /** The event that ended a batch ended it for the whole batch: its stream had not been
      touched before, and the process is what the event made of the one that began. */
  lemma EndsWholeBatch(r: Outcome<Control, ServerError>, a: Snapshot, b: Snapshot, c: Snapshot,
                       before: Mail, mid: Mail, after: Mail, h0: Handles, h: Handles,
                       event: Event, watches: seq<Watch>, i: nat, who: Identity, defaults: SpawnParamsCommon)
    requires i < |watches| && SameOwn(h0, h)
    requires a.h == h0 && b.h == h && SameServer(a, b)
    ensures BatchLaw(r, b, c) ==> BatchLaw(r, a, c)
    ensures StreamsDiffer(h0, watches) && Confined(a, b, before, mid, h0, watches[..i]) &&
            EndedBy(r, event, watches[i], b, c, mid, after, who, defaults) ==>
              EndedBy(r, event, watches[i], a, c, before, after, who, defaults)
  {
    var w := watches[i];
    assert TagOf(h0, w.fd) == TagOf(h, w.fd);
    SameMeans(a, b);
    if BatchLaw(r, b, c) { LawFromTheStart(r, a, b, c); }
    if TagOf(h0, w.fd).Client? && StreamsDiffer(h0, watches) && Confined(a, b, before, mid, h0, watches[..i]) {
      assert NoStreamOf(h0, watches[..i], w.id);
      assert Untouched(before, mid, w.id);
    }
  }

  /** What holds between two events of a batch, the first `n` having been handled. */
  datatype Track = SameOne | Within | PassedBy | NothingLost

  ghost predicate OnTrack(t: Track, a: Snapshot, b: Snapshot, before: Mail, after: Mail, h: Handles,
                          watches: seq<Watch>, n: nat)
    requires n <= |watches|
  {
    match t
    case SameOne => SameServer(a, b)
    case Within => Confined(a, b, before, after, h, watches[..n])
    case PassedBy => PassedOver(before, after, h, watches, n) && StreamsDiffer(h, watches)
    case NothingLost => Conserved(before, after) && NoExits(before, after) && SameOwn(h, b.h) && a.h == h
  }

  ghost predicate Progress(a: Snapshot, b: Snapshot, before: Mail, after: Mail, h: Handles, watches: seq<Watch>, n: nat) {
    n <= |watches| && forall t :: OnTrack(t, a, b, before, after, h, watches, n)
  }

  lemma ProgressMeans(a: Snapshot, b: Snapshot, before: Mail, after: Mail, h: Handles, watches: seq<Watch>, n: nat)
    requires n <= |watches|
    ensures Progress(a, b, before, after, h, watches, n) <==>
              && SameServer(a, b) && Confined(a, b, before, after, h, watches[..n])
              && PassedOver(before, after, h, watches, n) && StreamsDiffer(h, watches)
              && Conserved(before, after) && NoExits(before, after) && SameOwn(h, b.h) && a.h == h
  {
    assert Progress(a, b, before, after, h, watches, n) <==>
             && OnTrack(SameOne, a, b, before, after, h, watches, n) && OnTrack(Within, a, b, before, after, h, watches, n)
             && OnTrack(PassedBy, a, b, before, after, h, watches, n)
               && OnTrack(NothingLost, a, b, before, after, h, watches, n);
  }

  lemma ProgressNone(a: Snapshot, mail: Mail, h: Handles, watches: seq<Watch>)
    requires a.h == h && StreamsDiffer(h, watches) && h.epoll in a.k.fds
    ensures Progress(a, a, mail, mail, h, watches, 0)
  {
    SameAtAll(a);
    assert watches[..0] == [];
    ProgressMeans(a, a, mail, mail, h, watches, 0);
  }

  lemma ProgressMore(r: Handled, a: Snapshot, b: Snapshot, c: Snapshot, before: Mail, mid: Mail, after: Mail,
                     h0: Handles, event: Event, watches: seq<Watch>, i: nat, who: Identity, defaults: SpawnParamsCommon)
    requires i < |watches| && r.Next?
    ensures Progress(a, b, before, mid, h0, watches, i) && EventLaw(r, b, c, mid, after, event, watches[i], who, defaults)
            ==> Progress(a, c, before, after, h0, watches, i + 1)
  {
    if Progress(a, b, before, mid, h0, watches, i) && EventLaw(r, b, c, mid, after, event, watches[i], who, defaults) {
      ProgressMeans(a, b, before, mid, h0, watches, i);
      SameMeans(a, b);
      SameMeans(b, c);
      SameTwice(a, b, c);
      ConfinedMore(a, b, c, before, mid, after, h0, b.h, watches, i);
      PassedMore(a, b, c, before, mid, after, h0, b.h, watches, i);
      ConservedMore(before, mid, after);
      ProgressMeans(a, c, before, after, h0, watches, i + 1);
    }
  }

  lemma ConservedMore(a: Mail, b: Mail, c: Mail)
    requires Conserved(a, b) && Conserved(b, c)
    ensures Conserved(a, c)
    ensures NoExits(a, b) && NoExits(b, c) ==> NoExits(a, c)
  {
    if NoExits(a, b) && NoExits(b, c) {
      forall id ensures NoExit(a, c, id) {
        assert NoExit(a, b, id) && NoExit(b, c, id);
        assert QueueOf(a.taken, id) <= QueueOf(b.taken, id) <= QueueOf(c.taken, id);
      }
    }
  }

  lemma PassedMore(a: Snapshot, b: Snapshot, c: Snapshot, before: Mail, mid: Mail, after: Mail,
                   h0: Handles, h: Handles, watches: seq<Watch>, i: nat)
    requires i < |watches| && SameOwn(h0, h) && PassedOver(before, mid, h0, watches, i) && StreamsDiffer(h0, watches)
    requires Confined(a, b, before, mid, h0, watches[..i]) && Confined(b, c, mid, after, h, [watches[i]])
    requires TagOf(h, watches[i].fd).Client? ==> NoExit(mid, after, watches[i].id)
    ensures PassedOver(before, after, h0, watches, i + 1)
  {
    forall j | 0 <= j < i + 1 && TagOf(h0, watches[j].fd).Client? ensures NoExit(before, after, watches[j].id) {
      if j < i {
        assert NoStreamOf(h, [watches[i]], watches[j].id);
        assert Untouched(mid, after, watches[j].id) && NoExit(before, mid, watches[j].id);
      } else {
        assert NoStreamOf(h0, watches[..i], watches[i].id);
        assert Untouched(before, mid, watches[i].id);
      }
    }
  }

  /** The law of event `i` of a batch, over the states the trace recorded around it. */
  ghost predicate Traced(r: Handled, trace: seq<(Snapshot, Mail)>, i: nat, event: Event, w: Watch,
                         who: Identity, defaults: SpawnParamsCommon)
  {
    i + 1 < |trace| && EventLaw(r, trace[i].0, trace[i + 1].0, trace[i].1, trace[i + 1].1, event, w, who, defaults)
  }

  /** The first `n` events of a batch did not end it. */
  ghost predicate AllNext(trace: seq<(Snapshot, Mail)>, events: seq<Event>, watches: seq<Watch>, n: nat,
                          who: Identity, defaults: SpawnParamsCommon)
  {
    n <= |events| && n <= |watches| && forall i | 0 <= i < n :: Traced(Next, trace, i, events[i], watches[i], who, defaults)
  }

  /** The first `seen` events of a batch were handled in order, each by its own law: all of them,
      none ending the batch, or up to the one that did.  `trace` holds what each found and left. */
  ghost predicate BatchHandled(r: Outcome<Control, ServerError>, events: seq<Event>, watches: seq<Watch>, seen: nat,
                               trace: seq<(Snapshot, Mail)>, who: Identity, defaults: SpawnParamsCommon)
  {
    && seen <= |events| == |watches| && |trace| == seen + 1
    && (|| (r == Ok(PollBreak) && seen == |events| && AllNext(trace, events, watches, seen, who, defaults))
        || (&& seen > 0 && AllNext(trace, events, watches, seen - 1, who, defaults)
            && Traced(Return(r), trace, seen - 1, events[seen - 1], watches[seen - 1], who, defaults)))
  }

  /** What epoll_wait returned in the state `a`, with which the trace begins. */
  ghost predicate Waited(a: Snapshot, mail: Mail, events: seq<Event>, watches: seq<Watch>, first: (Snapshot, Mail)) {
    && InterestOf(a.k, a.h.epoll).Some?
    && IsBatch(a.k, InterestOf(a.k, a.h.epoll).value, events, watches, MAX_EVENTS)
    && first == (a.(faults := first.0.faults), mail) && a.faults <= first.0.faults
    && (a.faults < first.0.faults <==> exists e :: e in events && e.broken)
  }

  lemma NoPollFailure(r: Outcome<Control, ServerError>, events: seq<Event>, watches: seq<Watch>, seen: nat,
                      trace: seq<(Snapshot, Mail)>, who: Identity, defaults: SpawnParamsCommon)
    requires BatchHandled(r, events, watches, seen, trace, who, defaults)
    ensures r != Err(PollFailure)
  {
  }

  lemma TraceMore(r: Handled, trace: seq<(Snapshot, Mail)>, now: (Snapshot, Mail), events: seq<Event>, watches: seq<Watch>,
                  i: nat, who: Identity, defaults: SpawnParamsCommon)
    requires i < |events| && i < |watches| && |trace| == i + 1 && AllNext(trace, events, watches, i, who, defaults)
    requires EventLaw(r, trace[i].0, now.0, trace[i].1, now.1, events[i], watches[i], who, defaults)
    ensures AllNext(trace + [now], events, watches, i, who, defaults)
    ensures Traced(r, trace + [now], i, events[i], watches[i], who, defaults)
    ensures r.Next? ==> AllNext(trace + [now], events, watches, i + 1, who, defaults)
  {
    var longer := trace + [now];
    forall j | 0 <= j < i ensures Traced(Next, longer, j, events[j], watches[j], who, defaults) {
      assert Traced(Next, trace, j, events[j], watches[j], who, defaults);
    }
  }

  lemma EventKeepsOwn(r: Handled, a: Snapshot, b: Snapshot, before: Mail, after: Mail, event: Event, w: Watch,
                      who: Identity, defaults: SpawnParamsCommon)
    requires r.Next? && EventLaw(r, a, b, before, after, event, w, who, defaults)
    ensures SameOwn(a.h, b.h) && OthersWatched(a.k, a.h, b.k, b.h, w)
  {
    SameMeans(a, b);
  }

  /** Everything a batch promises when its event `i` ended it. */
  ghost predicate Ended(r: Outcome<Control, ServerError>, a: Snapshot, c: Snapshot, before: Mail, after: Mail,
                        event: Event, watches: seq<Watch>, i: nat, who: Identity, defaults: SpawnParamsCommon)
    requires i < |watches|
  {
    && BatchLaw(r, a, c) && EndedBy(r, event, watches[i], a, c, before, after, who, defaults)
    && Confined(a, c, before, after, a.h, watches[..i + 1]) && PassedOver(before, after, a.h, watches, i)
    && Conserved(before, after) && (r != Ok(Shutdown) ==> NoExits(before, after))
    && (r.Panic? ==> MayAbort(a, after, who, defaults))
  }

  lemma BatchEnds(r: Outcome<Control, ServerError>, a: Snapshot, b: Snapshot, c: Snapshot,
                  before: Mail, mid: Mail, after: Mail, h0: Handles,
                  event: Event, watches: seq<Watch>, i: nat, who: Identity, defaults: SpawnParamsCommon)
    requires i < |watches|
    ensures Progress(a, b, before, mid, h0, watches, i)
            && EventLaw(Return(r), b, c, mid, after, event, watches[i], who, defaults)
            ==> Ended(r, a, c, before, after, event, watches, i, who, defaults)
  {
    if Progress(a, b, before, mid, h0, watches, i)
      && EventLaw(Return(r), b, c, mid, after, event, watches[i], who, defaults) {
      ProgressMeans(a, b, before, mid, h0, watches, i);
      SameMeans(a, b);
      ConfinedMore(a, b, c, before, mid, after, h0, b.h, watches, i);
      EndsWholeBatch(r, a, b, c, before, mid, after, h0, b.h, event, watches, i, who, defaults);
      ConservedMore(before, mid, after);
      PassedStays(b, c, before, mid, after, h0, b.h, watches, i);
    }
  }

  lemma PassedStays(b: Snapshot, c: Snapshot, before: Mail, mid: Mail, after: Mail,
                    h0: Handles, h: Handles, watches: seq<Watch>, i: nat)
    requires i < |watches| && SameOwn(h0, h) && PassedOver(before, mid, h0, watches, i) && StreamsDiffer(h0, watches)
    requires Confined(b, c, mid, after, h, [watches[i]])
    ensures PassedOver(before, after, h0, watches, i)
  {
    forall j | 0 <= j < i && TagOf(h0, watches[j].fd).Client? ensures NoExit(before, after, watches[j].id) {
      assert NoStreamOf(h, [watches[i]], watches[j].id);
      assert Untouched(mid, after, watches[j].id) && NoExit(before, mid, watches[j].id);
    }
  }

  /** A subspecies that goes on serving still touches nothing of the process it came from. */
  lemma ServesStill(m: Snapshot, b: Snapshot, c: Snapshot)
    requires ServesOn(m, b) && SameServer(b, c) && WellFormed(c.k)
    ensures ServesOn(m, c)
  {
    SameMeans(b, c);
  }

  lemma BranchTwice(a: Kernel, b: Kernel, c: Kernel)
    requires BranchedFrom(a, b) && BranchedFrom(b, c)
    ensures BranchedFrom(a, c)
  {
    assert a.pid in c.others;
  }

  /** A run continues its process, or one that took over from it. */
  lemma RunGoesOn(a: Snapshot, b: Snapshot, c: Snapshot)
    requires (SameServer(a, b) || TookOver(a, b)) && SameServer(b, c) && WellFormed(c.k)
    ensures SameServer(a, c) || TookOver(a, c)
  {
    SameTwice(a, b, c);
    if TookOver(a, b) {
      var m :| SameServer(a, m) && ServesOn(m, b);
      ServesStill(m, b, c);
    }
  }

  lemma RunIsTakenOver(a: Snapshot, b: Snapshot, c: Snapshot)
    requires (SameServer(a, b) || TookOver(a, b)) && TookOver(b, c)
    ensures TookOver(a, c)
  {
    var n :| SameServer(b, n) && ServesOn(n, c);
    SameTwice(a, b, n);
    if TookOver(a, b) {
      var m :| SameServer(a, m) && ServesOn(m, b);
      ServesStill(m, b, n);
      BranchTwice(m.k, n.k, c.k);
      assert ServesOn(m, c);
    }
  }

  /** Whoever leaves a run has touched nothing that was there when its line left the server the
      run began in. */
  lemma RunIsLeft(a: Snapshot, b: Snapshot, c: Snapshot)
    requires (SameServer(a, b) || TookOver(a, b)) && Descends(b, c)
    ensures Descends(a, c)
  {
    var n :| SameServer(b, n) && LeftBehind(n, c.k);
    SameTwice(a, b, n);
    if TookOver(a, b) {
      var m :| SameServer(a, m) && ServesOn(m, b);
      ServesStill(m, b, n);
      BranchTwice(m.k, n.k, c.k);
      assert LeftBehind(m, c.k);
    }
  }

  /** Seen from whoever has left, the server it left is as it was: same descriptors, same
      descriptions, and as consistent. */
  lemma RunLeavesServer(a: Snapshot, m: Snapshot, k: Kernel)
    requires SameServer(a, m) && LeftBehind(m, k)
    ensures m.k.pid == a.k.pid && m.k.pid in k.others && SeenBy(k, m.k.pid).fds == m.k.fds
    ensures forall fd :: DescAt(SeenBy(k, m.k.pid), fd) == DescAt(m.k, fd)
    ensures Consistent(SeenBy(k, m.k.pid), m.data, m.h)
  {
    SameMeans(a, m);
    ChildLeavesParent(m.k, k, m.data, m.h);
  }

  lemma TookOverIsOther(a: Snapshot, b: Snapshot)
    requires TookOver(a, b)
    ensures b.k.pid != a.k.pid
  {
    var m :| SameServer(a, m) && ServesOn(m, b);
    SameMeans(a, m);
  }

  lemma AbortsAsBegun(a: Snapshot, b: Snapshot, c: Snapshot, mail: Mail, who: Identity, defaults: SpawnParamsCommon)
    requires (SameServer(a, b) || TookOver(a, b)) && c.k.pid == b.k.pid && MayAbort(b, mail, who, defaults)
    ensures c.k.pid == a.k.pid ==> MayAbort(a, mail, who, defaults)
  {
    if TookOver(a, b) { TookOverIsOther(a, b); } else { SameMeans(a, b); }
  }

  lemma SlotsAsBegun(a: Snapshot, b: Snapshot)
    requires (SameServer(a, b) || TookOver(a, b)) && b.k.pid == a.k.pid
    ensures SameServer(a, b) && SlotsKept(a.data, a.h.clients, b.data, b.h.clients)
  {
    if TookOver(a, b) { TookOverIsOther(a, b); }
    SameMeans(a, b);
  }

  /** What a whole batch makes of the run so far. */
  lemma BatchGoesOn(r: Outcome<Control, ServerError>, a: Snapshot, b: Snapshot, c: Snapshot, data: seq<Entry>, h: Handles)
    requires SameServer(a, b) || TookOver(a, b)
    requires r.Ok? && !r.value.Abandoned? ==> Consistent(c.k, data, h)
    requires BatchLaw(r, b, c) || (r == Ok(PollBreak) && SameServer(b, c))
    ensures r == Ok(PollBreak) || r == Ok(Shutdown) ==> SameServer(a, c) || TookOver(a, c)
    ensures r.Ok? && r.value.Trampoline? ==> Descends(a, c)
    ensures r.Ok? && r.value.Trampoline? && b.pid == b.k.pid ==> c.pid != c.k.pid
  {
    if r.Ok? && !r.value.Abandoned? { SoundKernel(c.k, data, h); }
    if (r == Ok(PollBreak) || r == Ok(Shutdown)) && SameServer(b, c) {
      RunGoesOn(a, b, c);
    } else if r == Ok(PollBreak) {
      RunIsTakenOver(a, b, c);
    } else if r.Ok? && r.value.Trampoline? {
      RunIsLeft(a, b, c);
      var n :| SameServer(b, n) && LeftBehind(n, c.k);
      SameMeans(b, n);
    }
  }

  lemma AwaitingStays(k: Kernel, h: Handles, k': Kernel, h': Handles, events: seq<Event>, watches: seq<Watch>, i: nat)
    requires |events| == |watches| && i < |events|
    requires forall j | i <= j < |events| :: Awaits(k, h, events[j], watches[j])
    requires forall a, b | 0 <= a < b < |watches| :: watches[a] != watches[b]
    requires SameOwn(h, h') && OthersWatched(k, h, k', h', watches[i])
    ensures forall j | i < j < |events| :: Awaits(k', h', events[j], watches[j])
  {
  }

  // ---- How a run ends ----

  /** This was the last packet read from some stream. */
  ghost predicate LastOfSome(before: Mail, after: Mail, packet: Packet) {
    exists id :: LastRead(before, after, id) == Some(packet)
  }

  /** A client asked for the child that leaves: it runs with what the client said and, where the
      client said nothing, with what the server's own parameters say. */
  ghost predicate AskedToLeave(p: SpawnParamsCommon, payload: PayloadKind, before: Mail, after: Mail,
                               who: Identity, defaults: SpawnParamsCommon) {
    payload in who.payloads
    && exists common :: LastOfSome(before, after, Parcel(Spawn(common, payload))) && LeftFirst(p, common, defaults)
  }

  ghost predicate AskedForSubspecies(before: Mail, after: Mail, who: Identity) {
    exists common, socket, payload ::
      payload in who.payloads && LastOfSome(before, after, Parcel(SpawnSubspecies(common, socket, payload)))
  }

  /** The last signal that was read stops a server, and was read during the run. */
  ghost predicate StoppedBySignal(a: Snapshot, b: Snapshot) {
    && b.family.read != [] && StopsServer(b.family.read[|b.family.read| - 1])
    && (b.k.pid == a.k.pid ==> |a.family.read| < |b.family.read|)
  }

  /** Why a run that began in the state `a` with the mail `before` ended as it did. */
  ghost predicate RunEnds(r: Outcome<Served, ServerError>, a: Snapshot, b: Snapshot, before: Mail, after: Mail,
                          who: Identity, defaults: SpawnParamsCommon)
  {
    && (r != Ok(Stopped) ==> NoExits(before, after))
    && match r
       case Ok(Running) => true
       case Ok(Stopped) => StoppedBySignal(a, b) || LastOfSome(before, after, Parcel(Exit))
       case Ok(Leaves(p, payload)) => AskedToLeave(p, payload, before, after, who, defaults)
       case Ok(Lost) => AskedForSubspecies(before, after, who)
       case Err(_) => a.faults < b.faults
       case Panic => SomeKills(after.taken, who, defaults) || |b.data| == REGISTRY_SIZE
  }

  /** The same for one turn of the loop; a run goes on after it only if it was not told to stop. */
  ghost predicate RoundEnds(r: Outcome<Control, ServerError>, a: Snapshot, b: Snapshot, before: Mail, after: Mail,
                            who: Identity, defaults: SpawnParamsCommon)
  {
    match r
    case Ok(PollBreak) | Ok(PollContinue) => NoExits(before, after)
    case Ok(Shutdown) => RunEnds(Ok(Stopped), a, b, before, after, who, defaults)
    case Ok(Trampoline(p, payload)) => RunEnds(Ok(Leaves(p, payload)), a, b, before, after, who, defaults)
    case Ok(Abandoned) => RunEnds(Ok(Lost), a, b, before, after, who, defaults)
    case Err(error) => RunEnds(Err(error), a, b, before, after, who, defaults)
    case Panic => RunEnds(Panic, a, b, before, after, who, defaults)
  }

  lemma LastReadSince(a: Mail, b: Mail, c: Mail, id: nat)
    requires Conserved(a, b)
    ensures LastRead(b, c, id).Some? ==> LastRead(a, c, id) == LastRead(b, c, id)
  {
    assert QueueOf(a.taken, id) <= QueueOf(b.taken, id);
  }

  lemma StopsTheRun(a: Snapshot, b: Snapshot, c: Snapshot)
    requires (SameServer(a, b) || TookOver(a, b)) && SameServer(b, c) && StopSignal(b, c)
    ensures StoppedBySignal(a, c)
  {
    SameMeans(b, c);
    if TookOver(a, b) { TookOverIsOther(a, b); } else { SameMeans(a, b); }
  }

  /** What the last packet of a batch asked for is what the run's did. */
  lemma LastPacketEnds(r: Outcome<Control, ServerError>, id: nat, before: Mail, mid: Mail, after: Mail,
                       who: Identity, defaults: SpawnParamsCommon)
    requires Conserved(before, mid) && LastRead(mid, after, id).Some?
    ensures var last := LastRead(mid, after, id).value;
            match r
            case Ok(Shutdown) => last == Parcel(Exit) ==> LastOfSome(before, after, Parcel(Exit))
            case Ok(Trampoline(p, payload)) =>
              LastLaw(Ok(Trampoline(p, payload)), last, false, false, who, defaults) ==>
                AskedToLeave(p, payload, before, after, who, defaults)
            case Ok(Abandoned) =>
              WantsReply(last, who) && last.request.SpawnSubspecies? ==> AskedForSubspecies(before, after, who)
            case _ => true
  {
    var last := LastRead(mid, after, id).value;
    LastReadSince(before, mid, after, id);
    assert LastOfSome(before, after, last);
    if last.Parcel? && last.request.Spawn? {
      OrPrefersLeft(last.request.common, defaults);
    }
    if last.Parcel? && last.request.SpawnSubspecies? {
      var common, socket, payload := last.request.common, last.request.socket, last.request.payload;
      assert last == Parcel(SpawnSubspecies(common, socket, payload));
    }
  }

  lemma KillerWasRead(before: Mail, after: Mail, id: nat, who: Identity, defaults: SpawnParamsCommon)
    requires LastRead(before, after, id).Some? && Kills(LastRead(before, after, id).value, who, defaults)
    ensures SomeKills(after.taken, who, defaults)
  {
    assert LastRead(before, after, id).value in QueueOf(after.taken, id);
  }

  /** The event that ended a batch ended the run for the same reason. */
  lemma BatchEndsRun(r: Outcome<Control, ServerError>, event: Event, w: Watch, a: Snapshot, b: Snapshot, c: Snapshot,
                     before: Mail, mid: Mail, after: Mail, who: Identity, defaults: SpawnParamsCommon)
    requires (SameServer(a, b) || TookOver(a, b)) && a.faults <= b.faults && (event.broken ==> a.faults < b.faults)
    requires BatchLaw(r, b, c) && EndedBy(r, event, w, b, c, mid, after, who, defaults)
    requires Conserved(before, mid) && (r != Ok(Shutdown) ==> NoExits(before, after))
    ensures RoundEnds(r, a, c, before, after, who, defaults)
  {
    if LastRead(mid, after, w.id).Some? {
      LastPacketEnds(r, w.id, before, mid, after, who, defaults);
      if r.Panic? && Kills(LastRead(mid, after, w.id).value, who, defaults) {
        KillerWasRead(mid, after, w.id, who, defaults);
      }
    }
    if r == Ok(Shutdown) && StopSignal(b, c) { StopsTheRun(a, b, c); }
  }

  /** A batch either ran to its end or was ended by the last event handled. */
  lemma BatchEnded(r: Outcome<Control, ServerError>, events: seq<Event>, watches: seq<Watch>, seen: nat,
                   a: Snapshot, b: Snapshot, c: Snapshot, before: Mail, mid: Mail, after: Mail,
                   who: Identity, defaults: SpawnParamsCommon)
    requires (SameServer(a, b) || TookOver(a, b)) && a.faults <= b.faults && seen <= |events| == |watches|
    requires (exists e :: e in events && e.broken) ==> a.faults < b.faults
    requires || (r == Ok(PollBreak) && SameServer(b, c))
             || (seen > 0 && BatchLaw(r, b, c)
                 && EndedBy(r, events[seen - 1], watches[seen - 1], b, c, mid, after, who, defaults))
    requires Conserved(before, mid) && (r != Ok(Shutdown) ==> NoExits(before, after))
    ensures RoundEnds(r, a, c, before, after, who, defaults) && a.faults <= c.faults
  {
    if r == Ok(PollBreak) && SameServer(b, c) {
      SameMeans(b, c);
    } else {
      assert events[seen - 1] in events;
      BatchEndsRun(r, events[seen - 1], watches[seen - 1], a, b, c, before, mid, after, who, defaults);
    }
  }

  /** Nothing but the count of failures has changed. */
  lemma FailedOnly(a: Snapshot, b: Snapshot, c: Snapshot)
    requires c == b.(faults := c.faults) && b.faults <= c.faults
    ensures SameServer(a, b) ==> SameServer(a, c)
    ensures TookOver(a, b) ==> TookOver(a, c)
  {
    SameMeans(a, b);
    SameMeans(a, c);
    if TookOver(a, b) {
      var m :| SameServer(a, m) && ServesOn(m, b);
      assert ServesOn(m, c);
    }
  }

  function AcceptedReady(listener: Description, peer: Option<Address>): Description
    requires listener.Socket?
  {
    Socket(Accepted, listener.local, peer, true, listener.seqpacket)
  }

  lemma AcceptedJoins(k: Kernel, listener: Description, peer: Option<Address>, epfd: Fd)
    requires WellFormed(k) && listener.Socket? && listener.local.Some? && epfd in k.fds
    ensures var fd, mid := LowestFree(k), Allocated(k, AcceptedSocket(listener, peer), false);
            var k1 := WithDesc(mid, fd, AcceptedReady(listener, peer));
            && DescAt(mid, fd) == Some(AcceptedSocket(listener, peer))
            && WellFormed(k1) && Joined(k, k1, fd) && k1.fds[fd].id == |k.descs| && k1.pid == k.pid
            && k1.others == k.others && k.descs <= k1.descs && OwnInstanceOnly(k, k1, epfd)
            && ReadySocket(k1, fd, Accepted) && CurrentInfo(k1, fd) == Some(BoundSocket(listener.local.value))
  {
  }

  lemma ListenerNamed(k: Kernel, data: seq<Entry>, h: Handles)
    requires Consistent(k, data, h)
    ensures WellFormed(k) && |h.clients| <= MAX_CLIENTS
    ensures DescAt(k, h.server).Some? && DescAt(k, h.server).value.Socket? && DescAt(k, h.server).value.local.Some?
  {
    Aspects(k, data, h);
  }

  lemma RefusedKeeps(k: Kernel, k': Kernel, data: seq<Entry>, h: Handles)
    requires Consistent(k, data, h) && WellFormed(k')
    requires k'.fds == k.fds && k.descs <= k'.descs && OthersKept(k, k') && k'.fs == k.fs
    ensures Consistent(k', data, h) && OwnInstanceOnly(k, k', h.epoll)
  {
    Aspects(k, data, h);
    EpollIsOpen(k, data, h);
    LooksSameKeeps(k, k', data, h);
  }
}
