/** Child processes, the signals the server waits for, and the loop that accounts for
    terminated children. */
module Reaper {
  import opened Results
  import opened WaitStatus

  datatype Signal = Child | Interrupt | Terminate

  datatype Wait<+T> = Got(value: T) | Nothing | Failed

  /** What the kernel can say about a terminated process. */
  predicate IsDeath(s: SigInfo) {
    s.signo == SIGCHLD && Representable(s) && (s.code.CldExited? || s.code.CldKilled? || s.code.CldDumped?)
  }

  /** The children of a process and its pending signals.  Standard signals do not queue:
      however many children terminate, one SIGCHLD is pending.  `noise` bounds the SIGCHLDs
      that no termination causes; `read` are the signals read so far. */
  datatype Family = Family(alive: set<int>, zombies: map<int, SigInfo>, pending: set<Signal>, noise: nat, read: seq<Signal>)

  const NO_CHILDREN: Family := Family({}, map[], {}, 0, [])

  function Present(f: Family): set<int> {
    f.alive + f.zombies.Keys
  }

  ghost predicate WellFormedFamily(f: Family) {
    && f.alive !! f.zombies.Keys
    && forall p | p in f.zombies :: f.zombies[p].pid == p && IsDeath(f.zombies[p])
  }

  /** The invariant of coalescing: a zombie is always announced. */
  ghost predicate NoneLost(f: Family) {
    f.zombies != map[] ==> Child in f.pending
  }

  /** Children `dead` terminate. */
  ghost predicate CanDie(f: Family, dead: map<int, SigInfo>) {
    dead != map[] && dead.Keys <= f.alive && forall p | p in dead :: dead[p].pid == p && IsDeath(dead[p])
  }

  function Died(f: Family, dead: map<int, SigInfo>): Family {
    f.(alive := f.alive - dead.Keys, zombies := f.zombies + dead, pending := f.pending + {Child})
  }

  /** Time passes. */
  ghost predicate Passes(f: Family, f': Family) {
    && WellFormedFamily(f')
    && Present(f') == Present(f) && f'.alive <= f.alive
    && f.zombies.Keys <= f'.zombies.Keys
    && f.pending <= f'.pending && f'.read == f.read
    && (f'.zombies != f.zombies ==> Child in f'.pending)
    && Unread(f') <= Unread(f) && Unwaited(f') == Unwaited(f)
  }

  /** Bounds the SIGCHLD reads still possible. */
  ghost function Unread(f: Family): nat {
    2 * (|f.alive| + f.noise) + if Child in f.pending then 1 else 0
  }

  /** Bounds the successful waits still possible. */
  ghost function Unwaited(f: Family): nat {
    |f.alive| + |f.zombies.Keys|
  }

  lemma DeathPasses(f: Family, dead: map<int, SigInfo>)
    requires WellFormedFamily(f) && CanDie(f, dead)
    ensures Passes(f, Died(f, dead))
  {
    DeathKeepsFamily(f, dead);
    MovedCount(f.alive, f.zombies.Keys, dead.Keys);
  }

  /** Signals `sent`, and perhaps a SIGCHLD nobody's termination caused, become pending. */
  function Signalled(f: Family, sent: set<Signal>, stray: bool): Family
    requires stray ==> f.noise > 0
  {
    if stray then f.(pending := f.pending + sent + {Child}, noise := f.noise - 1)
    else f.(pending := f.pending + sent)
  }

  lemma SignalsPass(f: Family, mid: Family, sent: set<Signal>, stray: bool)
    requires Passes(f, mid) && Child !in sent && (stray ==> mid.noise > 0)
    ensures Passes(f, Signalled(mid, sent, stray))
  {
  }

  function WaitedFor(f: Family, p: int): Family {
    f.(zombies := f.zombies - {p})
  }

  lemma WaitShrinks(f: Family, p: int)
    requires WellFormedFamily(f) && p in f.zombies
    ensures WellFormedFamily(WaitedFor(f, p)) && Present(WaitedFor(f, p)) == Present(f) - {p}
    ensures Unwaited(WaitedFor(f, p)) < Unwaited(f)
  {
  }

  lemma SomeZombie(f: Family)
    ensures f.zombies != map[] ==> exists p :: p in f.zombies
  {
    if forall p :: p !in f.zombies { assert f.zombies == map[]; }
  }

  lemma DeathKeepsFamily(f: Family, dead: map<int, SigInfo>)
    requires WellFormedFamily(f) && CanDie(f, dead)
    ensures Died(f, dead).zombies.Keys == f.zombies.Keys + dead.Keys && dead.Keys != {}
    ensures WellFormedFamily(Died(f, dead)) && Present(Died(f, dead)) == Present(f)
  {
  }

  lemma MovedCount(alive: set<int>, gone: set<int>, moved: set<int>)
    requires moved != {} && moved <= alive && alive !! gone
    ensures |alive - moved| + |gone + moved| == |alive| + |gone|
    ensures |alive - moved| < |alive|
  {
  }

  // ---- Accounting ----

  ghost function Forks(births: seq<int>, p: int): nat {
    if births == [] then 0 else (if births[0] == p then 1 else 0) + Forks(births[1..], p)
  }

  ghost function Waits(reaped: seq<SigInfo>, p: int): nat {
    if reaped == [] then 0 else (if reaped[0].pid == p then 1 else 0) + Waits(reaped[1..], p)
  }

  /** Forks of `p` equal waits for `p`, but for one that is outstanding while `p` is there. */
  ghost predicate Balanced(births: seq<int>, present: set<int>, reaped: seq<SigInfo>, p: int) {
    Forks(births, p) == Waits(reaped, p) + if p in present then 1 else 0
  }

  ghost predicate Accounted(births: seq<int>, present: set<int>, reaped: seq<SigInfo>) {
    forall p :: Balanced(births, present, reaped, p)
  }

  lemma {:induction false} ForksAppend(births: seq<int>, q: int, p: int)
    ensures Forks(births + [q], p) == Forks(births, p) + if q == p then 1 else 0
  {
    if births != [] {
      ForksAppend(births[1..], q, p);
      assert (births + [q])[1..] == births[1..] + [q];
    }
  }

  lemma {:induction false} WaitsAppend(reaped: seq<SigInfo>, s: SigInfo, p: int)
    ensures Waits(reaped + [s], p) == Waits(reaped, p) + if s.pid == p then 1 else 0
  {
    if reaped != [] {
      WaitsAppend(reaped[1..], s, p);
      assert (reaped + [s])[1..] == reaped[1..] + [s];
    }
  }

  lemma AccountedBirth(births: seq<int>, present: set<int>, reaped: seq<SigInfo>, child: int)
    requires Accounted(births, present, reaped) && child !in present
    ensures Accounted(births + [child], present + {child}, reaped)
  {
    forall p ensures Balanced(births + [child], present + {child}, reaped, p) {
      assert Balanced(births, present, reaped, p);
      ForksAppend(births, child, p);
    }
  }

  lemma AccountedWait(births: seq<int>, present: set<int>, reaped: seq<SigInfo>, s: SigInfo)
    requires Accounted(births, present, reaped) && s.pid in present
    ensures Accounted(births, present - {s.pid}, reaped + [s])
  {
    forall p ensures Balanced(births, present - {s.pid}, reaped + [s], p) {
      assert Balanced(births, present, reaped, p);
      WaitsAppend(reaped, s, p);
    }
  }

  class Children {
    var f: Family
    ghost var births: seq<int>
    ghost var reaped: seq<SigInfo>
    /** The calls that failed. */
    ghost var faults: nat

    constructor (noise: nat)
      ensures Valid() && NoneLost(f) && Present(f) == {} && births == [] && reaped == [] && faults == 0
    {
      f := NO_CHILDREN.(noise := noise);
      births, reaped, faults := [], [], 0;
    }

    /** Every child ever forked is alive, a zombie, or has been waited for, once each. */
    ghost predicate Valid()
      reads this
    {
      && WellFormedFamily(f)
      && Accounted(births, Present(f), reaped)
      && forall s | s in reaped :: IsDeath(s)
    }

    /** In a forked child: children and pending signals belong to one process only. */
    method Forget()
      modifies this
      ensures Valid() && NoneLost(f) && Present(f) == {} && births == [] && reaped == []
      ensures f == NO_CHILDREN.(noise := old(f).noise) && faults == old(faults)
    {
      f := NO_CHILDREN.(noise := f.noise);
      births, reaped := [], [];
    }

    method Add(child: int)
      requires Valid() && NoneLost(f) && child !in Present(f)
      modifies this
      ensures Valid() && NoneLost(f) && Present(f) == old(Present(f)) + {child}
      ensures f == old(f).(alive := old(f).alive + {child})
      ensures reaped == old(reaped) && births == old(births) + [child] && faults == old(faults)
    {
      AccountedBirth(births, Present(f), reaped, child);
      f := f.(alive := f.alive + {child});
      assert Present(f) == old(Present(f)) + {child};
      births := births + [child];
    }

    /** Any children terminate, signals from elsewhere arrive. */
    method Tick()
      requires Valid()
      modifies this`f
      ensures Valid() && Passes(old(f), f)
    {
      var dead: map<int, SigInfo> := *;
      var sent: set<Signal> := *;
      var stray: bool := *;
      if dead != map[] && dead.Keys <= f.alive && forall p | p in dead.Keys :: dead[p].pid == p && IsDeath(dead[p]) {
        DeathPasses(f, dead);
        f := Died(f, dead);
      }
      SignalsPass(old(f), f, sent * {Interrupt, Terminate}, stray && f.noise > 0);
      f := Signalled(f, sent * {Interrupt, Terminate}, stray && f.noise > 0);
    }

    /** Reads one pending signal from the signalfd. */
    method ReadSignal() returns (r: Wait<Signal>)
      requires Valid() && NoneLost(f)
      modifies this`f, this`faults
      ensures faults == old(faults) + if r.Failed? then 1 else 0
      ensures Valid() && Present(f) == old(Present(f)) && f.alive <= old(f.alive) && Unread(f) <= old(Unread(f))
      ensures r != Got(Child) ==> NoneLost(f)
      ensures r == Got(Child) ==> Unread(f) < old(Unread(f))
      ensures f.read == if r.Got? then old(f.read) + [r.value] else old(f.read)
      ensures r.Nothing? ==> f.zombies == map[] && f.pending == {}
    {
      Tick();
      var broken: bool := *;
      if broken {
        faults := faults + 1;
        return Failed;
      }
      if f.pending == {} { return Nothing; }
      var signal :| signal in f.pending;
      f := f.(pending := f.pending - {signal}, read := f.read + [signal]);
      return Got(signal);
    }

    /** waitid for any terminated child, without blocking; Nothing when there is none,
        whether or not other children are left. */
    method WaitAny() returns (r: Wait<SigInfo>)
      requires Valid()
      modifies this`f, this`reaped, this`faults
      ensures faults == old(faults) + if r.Failed? then 1 else 0
      ensures Valid() && f.alive <= old(f.alive) && Present(f) <= old(Present(f)) && Unread(f) <= old(Unread(f))
      ensures f.read == old(f.read)
      ensures r.Got? ==> reaped == old(reaped) + [r.value] && IsDeath(r.value) && Unwaited(f) < old(Unwaited(f))
      ensures !r.Got? ==> reaped == old(reaped)
      ensures r.Nothing? ==> f.zombies == map[]
    {
      Tick();
      var broken: bool := *;
      if broken {
        faults := faults + 1;
        return Failed;
      }
      if f.zombies == map[] { return Nothing; }
      SomeZombie(f);
      var p :| p in f.zombies;
      r := Got(f.zombies[p]);
      AccountedWait(births, Present(f), reaped, f.zombies[p]);
      WaitShrinks(f, p);
      reaped := reaped + [f.zombies[p]];
      f := WaitedFor(f, p);
    }
  }

  // ---- Reports to the species ----

  datatype Report = Report(pid: int, uid: int, status: int)

  function ReportOf(s: SigInfo): Report
    requires RawStatusFromSiginfo(s).Ok?
  {
    Report(s.pid, s.uid, RawStatusFromSiginfo(s).value)
  }

  /** `reports` says, in order, what `infos` said. */
  ghost predicate Reported(reports: seq<Report>, infos: seq<SigInfo>) {
    && |reports| == |infos|
    && forall i | 0 <= i < |infos| :: SaysSo(reports[i], infos[i])
  }

  predicate SaysSo(report: Report, info: SigInfo) {
    RawStatusFromSiginfo(info).Ok? && report == ReportOf(info)
  }

  /** A species is told which child it was, whose it was, and a status word that decodes to what
      the kernel said about it, with the core-dump bit set exactly when core was dumped. */
  lemma ReportTellsTheTruth(s: SigInfo)
    requires IsDeath(s)
    ensures RawStatusFromSiginfo(s).Ok?
    ensures var report := ReportOf(s);
            && report.pid == s.pid && report.uid == s.uid && TryFromStatus(report.status) == TryFromSiginfo(s)
            && (report.status % 0x100 >= 0x80 <==> s.code.CldDumped?)
  {
    StatusAgrees(s);
    StatusWords(s);
  }

  function ReportsOn(reports: seq<Report>, p: int): nat {
    if reports == [] then 0 else (if reports[0].pid == p then 1 else 0) + ReportsOn(reports[1..], p)
  }

  lemma {:induction false} ReportsCountWaits(reports: seq<Report>, reaped: seq<SigInfo>, p: int)
    requires Reported(reports, reaped)
    ensures ReportsOn(reports, p) == Waits(reaped, p)
  {
    if reports != [] {
      assert SaysSo(reports[0], reaped[0]);
      forall i | 0 <= i < |reaped[1..]| ensures SaysSo(reports[1..][i], reaped[1..][i]) {
        assert SaysSo(reports[i + 1], reaped[i + 1]);
      }
      ReportsCountWaits(reports[1..], reaped[1..], p);
    }
  }

  /** Every child ever forked has been reported exactly once, except those still running. */
  ghost predicate EveryChildReported(births: seq<int>, alive: set<int>, reports: seq<Report>) {
    forall p :: ReportedOnce(births, alive, reports, p)
  }

  ghost predicate ReportedOnce(births: seq<int>, alive: set<int>, reports: seq<Report>, p: int) {
    Forks(births, p) == ReportsOn(reports, p) + if p in alive then 1 else 0
  }

  /** With nothing left to reap, no child is lost: the running ones have not been reported, all
      others have been, once. */
  lemma NoChildLost(births: seq<int>, f: Family, reaped: seq<SigInfo>, reports: seq<Report>)
    requires Accounted(births, Present(f), reaped) && Reported(reports, reaped) && f.zombies == map[]
    ensures EveryChildReported(births, f.alive, reports)
  {
    forall p ensures ReportedOnce(births, f.alive, reports, p) {
      assert Balanced(births, Present(f), reaped, p);
      ReportsCountWaits(reports, reaped, p);
    }
  }

  class Reports {
    var log: seq<Report>

    constructor ()
      ensures log == []
    {
      log := [];
    }

    method Forget()
      modifies this
      ensures log == []
    {
      log := [];
    }

    method HandleSigchld(report: Report)
      modifies this
      ensures log == old(log) + [report]
    {
      log := log + [report];
    }
  }

  datatype SignalError = Read | ProcessAccounting

  datatype SignalOutcome = Drained | ShutDown

  predicate StopsServer(signal: Signal) {
    signal.Interrupt? || signal.Terminate?
  }

  /** Since `was`, SIGCHLDs have been read and then a signal that stops the server. */
  predicate StopRead(was: seq<Signal>, now: seq<Signal>) {
    was < now && StopsServer(now[|now| - 1]) && OnlyChildren(was, now[..|now| - 1])
  }

  /** Since `was`, SIGCHLDs have been read and nothing else. */
  predicate OnlyChildren(was: seq<Signal>, now: seq<Signal>) {
    was <= now && forall i | |was| <= i < |now| :: now[i].Child?
  }

  lemma OneMoreRead(was: seq<Signal>, now: seq<Signal>, signal: Signal)
    requires OnlyChildren(was, now)
    ensures signal.Child? ==> OnlyChildren(was, now + [signal])
    ensures StopsServer(signal) ==> StopRead(was, now + [signal])
  {
    assert (now + [signal])[..|now|] == now;
  }

  /** Reads signals until none is pending, or until one of them stops the server.  With
      children terminating at any point, nothing is left to reap when the loop stops because
      nothing is pending, and everything waited for was reported.  Only a failing call stops it
      otherwise. */
  method HandleSignalfdEvents(kids: Children, reports: Reports) returns (r: Outcome<SignalOutcome, SignalError>)
    requires kids.Valid() && NoneLost(kids.f) && Reported(reports.log, kids.reaped)
    modifies kids`f, kids`reaped, kids`faults, reports
    ensures kids.faults >= old(kids.faults) && (r.Err? <==> kids.faults > old(kids.faults))
    ensures kids.Valid() && Present(kids.f) <= old(Present(kids.f))
    ensures r.Ok? ==> NoneLost(kids.f)
    ensures r == Ok(Drained) ==> kids.f.zombies == map[] && EveryChildReported(kids.births, kids.f.alive, reports.log)
    ensures r == Ok(Drained) ==> kids.f.pending == {} && OnlyChildren(old(kids.f.read), kids.f.read)
    ensures r == Ok(ShutDown) ==> StopRead(old(kids.f.read), kids.f.read)
    ensures old(kids.f.read) <= kids.f.read
    ensures old(reports.log) <= reports.log && Reported(reports.log, kids.reaped)
    ensures !r.Panic?
  {
    while true
      invariant kids.Valid() && NoneLost(kids.f) && Present(kids.f) <= old(Present(kids.f))
      invariant OnlyChildren(old(kids.f.read), kids.f.read) && kids.faults == old(kids.faults)
      invariant old(reports.log) <= reports.log && Reported(reports.log, kids.reaped)
      decreases Unread(kids.f)
    {
      ghost var read := kids.f.read;
      var signal := kids.ReadSignal();
      if signal.Got? { OneMoreRead(old(kids.f.read), read, signal.value); }
      match signal {
        case Nothing =>
          NoChildLost(kids.births, kids.f, kids.reaped, reports.log);
          return Ok(Drained);
        case Failed => return Err(Read);
        case Got(Interrupt) => return Ok(ShutDown);
        case Got(Terminate) => return Ok(ShutDown);
        case Got(Child) =>
          var ok := ReapAll(kids, reports);
          if !ok { return Err(ProcessAccounting); }
      }
    }
  }

  /** The inner loop: while it runs zombies need no pending SIGCHLD, and it ends with none. */
  method ReapAll(kids: Children, reports: Reports) returns (ok: bool)
    requires kids.Valid() && Reported(reports.log, kids.reaped)
    modifies kids`f, kids`reaped, kids`faults, reports
    ensures kids.faults >= old(kids.faults) && (ok <==> kids.faults == old(kids.faults))
    ensures kids.Valid() && Unread(kids.f) <= old(Unread(kids.f)) && Present(kids.f) <= old(Present(kids.f))
    ensures ok ==> kids.f.zombies == map[]
    ensures kids.f.read == old(kids.f.read)
    ensures old(reports.log) <= reports.log && Reported(reports.log, kids.reaped)
  {
    while true
      invariant kids.Valid() && Unread(kids.f) <= old(Unread(kids.f)) && Present(kids.f) <= old(Present(kids.f))
      invariant kids.f.read == old(kids.f.read) && kids.faults == old(kids.faults)
      invariant old(reports.log) <= reports.log && Reported(reports.log, kids.reaped)
      decreases Unwaited(kids.f)
    {
      var waited := kids.WaitAny();
      match waited {
        case Failed => return false;
        case Nothing => return true;
        case Got(info) =>
          if !RawStatusFromSiginfo(info).Ok? { return false; }
          reports.HandleSigchld(ReportOf(info));
      }
    }
  }
}
