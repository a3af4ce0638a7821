/** What running the registry's actions in a forked child means for the child, for its
    parent, and for a registry that is put back into service afterwards. */
module ForkEffects {
  import opened Results
  import opened Kernel
  import opened FileDescriptors

  /** The kernel as the action loop finds it: /dev/null was just opened read-write. */
  function WithNull(k: Kernel): Kernel
    requires WellFormed(k)
  {
    Opened(k, DEV_NULL, {Rdwr}, true)
  }

  function AfterActions(k: Kernel, data: seq<Entry>, ft: ForkType): Option<Kernel>
    requires WellFormed(k)
  {
    ActedAll(WithNull(k), data, LowestFree(k), ft)
  }

  /** Numbers open without a live entry, on top of an otherwise exact registry. */
  ghost predicate AgreeExcept(data: seq<Entry>, k: Kernel, extra: set<Fd>) {
    && extra <= k.fds.Keys
    && (forall e | e in data && !IsClosed(e) :: Describes(k, e) && e.fd !in extra)
    && (forall fd | fd in k.fds :: fd in extra || HasLive(data, fd))
  }

  /** An entry that is open and whose action does not close it. */
  predicate StaysOpen(e: Entry, ft: ForkType) {
    !IsClosed(e) && !(Performs(e, ft) && ClosesOn(e, ft))
  }

  ghost predicate Survives(data: seq<Entry>, fd: Fd, ft: ForkType) {
    exists e :: e in data && e.fd == fd && StaysOpen(e, ft)
  }

  lemma ClosedIsNotOpen(k: Kernel, data: seq<Entry>, extra: set<Fd>, e: Entry)
    requires Sorted(data) && AgreeExcept(data, k, extra) && e in data && IsClosed(e)
    ensures e.fd in k.fds ==> e.fd in extra
  {
  }

  /** The effect of a successful `execute_actions` on an audited table. */
  lemma ActionsOnAudited(k: Kernel, data: seq<Entry>, extra: set<Fd>, ft: ForkType)
    requires WellFormed(k) && Sorted(data) && AgreeExcept(data, k, extra)
    requires AfterActions(k, data, ft).Some?
    ensures var k', dn := AfterActions(k, data, ft).value, LowestFree(k);
            && Frame(k, k')
            && dn in k'.fds && dn !in k.fds
            && (forall x | x in extra :: x in k'.fds && k'.fds[x] == k.fds[x])
            && k'.fds[dn] == Slot(|k.descs|, true)
            && DescAt(k', dn) == Some(FreshFile(k, DEV_NULL, {Rdwr}))
            && (forall e | e in data && !IsClosed(e) :: ActionDone(WithNull(k), k', e, dn, ft))
            && (forall fd | fd in k'.fds ::
                  fd == dn || fd in extra
                  || Survives(data, fd, ft))
  {
    var n, dn := WithNull(k), LowestFree(k);
    assert WellFormed(n);
    forall e | e in data && Performs(e, ft) ensures e.fd != dn {
      assert !IsClosed(e);
    }
    ActionsEffect(n, data, dn, ft);
    var k' := AfterActions(k, data, ft).value;
    assert Frame(k, n);
    forall x | x in extra + {dn} ensures x in k'.fds && k'.fds[x] == n.fds[x] {
      if HasEntry(data, x) {
        var e :| e in data && e.fd == x;
        assert IsClosed(e);
        assert ActionDone(n, k', e, dn, ft);
      }
    }
    forall fd | fd in k'.fds && fd != dn && fd !in extra
      ensures Survives(data, fd, ft)
    {
      if HasEntry(data, fd) {
        var e :| e in data && e.fd == fd;
        assert ActionDone(n, k', e, dn, ft);
        if IsClosed(e) { ClosedIsNotOpen(k, data, extra, e); }
      }
    }
  }

  /** The numbers a successful `execute_actions` leaves open, and the entries it closes:
      an entry calls itself closed afterwards exactly when its number is gone. */
  lemma OpenAfterActions(k: Kernel, data: seq<Entry>, ft: ForkType)
    requires WellFormed(k) && Sorted(data) && Agree(data, k) && AfterActions(k, data, ft).Some?
    ensures var k' := AfterActions(k, data, ft).value;
            && (forall e | e in data && !IsClosed(e) :: e.fd in k'.fds <==> !IsClosed(Marked(e, ft)))
            && (forall fd :: fd in k'.fds <==> fd == LowestFree(k) || HasLive(MarkedAll(data, ft), fd))
  {
    ActionsOnAudited(k, data, {}, ft);
    var k' := AfterActions(k, data, ft).value;
    forall e | e in data && !IsClosed(e) ensures e.fd in k'.fds <==> !IsClosed(Marked(e, ft)) {
      DoneDecidesOpen(k, k', e, LowestFree(k), ft);
    }
    forall fd ensures fd in k'.fds <==> fd == LowestFree(k) || HasLive(MarkedAll(data, ft), fd) {
      SurvivorsAreLive(data, fd, ft);
      if Survives(data, fd, ft) {
        var e :| e in data && e.fd == fd && StaysOpen(e, ft);
        DoneDecidesOpen(k, k', e, LowestFree(k), ft);
      }
    }
  }

  lemma DoneDecidesOpen(k: Kernel, k': Kernel, e: Entry, dn: Fd, ft: ForkType)
    requires WellFormed(k) && dn == LowestFree(k) && Describes(k, e) && !IsClosed(e)
    requires ActionDone(WithNull(k), k', e, dn, ft)
    ensures e.fd in k'.fds <==> !IsClosed(Marked(e, ft))
    ensures e.fd in k'.fds <==> StaysOpen(e, ft)
  {
  }

  lemma SurvivorsAreLive(data: seq<Entry>, fd: Fd, ft: ForkType)
    ensures Survives(data, fd, ft) <==> HasLive(MarkedAll(data, ft), fd)
  {
  }

  lemma MarkedMembers(data: seq<Entry>, ft: ForkType)
    ensures forall e | e in data :: Marked(e, ft) in MarkedAll(data, ft)
    ensures forall m | m in MarkedAll(data, ft) :: exists e :: e in data && m == Marked(e, ft)
    ensures Sorted(data) ==> Sorted(MarkedAll(data, ft))
    ensures ReopensFiles(data) ==> ReopensFiles(MarkedAll(data, ft))
  {
  }

  // ---- Parent and child ----

  ghost predicate SharesWith(k: Kernel, other: Pid, fd: Fd) {
    && fd in k.fds && other in k.others
    && exists p :: p in k.others[other] && k.others[other][p].id == k.fds[fd].id
  }

  /** The entries whose description a child keeps in common with its parent. */
  predicate Inherited(e: Entry, ft: ForkType) {
    !IsClosed(e) &&
    (e.executed || e.action.Ignore? || (e.action.CloseUnlessSpawnSubspecies? && ft.Subspecies?))
  }

  ghost predicate HasInherited(data: seq<Entry>, fd: Fd, ft: ForkType) {
    exists e :: e in data && e.fd == fd && Inherited(e, ft)
  }

  /** After fork and `execute_actions` the child shares a description with its parent
      exactly through the inherited entries, and the parent has lost nothing. */
  lemma ChildSharesOnlyInherited(parent: Kernel, child: Pid, data: seq<Entry>, ft: ForkType)
    requires WellFormed(parent) && child != parent.pid && child !in parent.others
    requires Sorted(data) && Agree(data, parent)
    requires AfterActions(ForkedChild(parent, child), data, ft).Some?
    ensures var k' := AfterActions(ForkedChild(parent, child), data, ft).value;
            && parent.pid in k'.others && k'.others[parent.pid] == parent.fds
            && parent.descs <= k'.descs
            && (forall fd :: SharesWith(k', parent.pid, fd) <==>
                             HasInherited(data, fd, ft))
  {
    var k := ForkedChild(parent, child);
    assert AgreeExcept(data, k, {}) by {
      forall e | e in data && !IsClosed(e) ensures Describes(k, e) {
        assert Describes(parent, e);
      }
    }
    ActionsOnAudited(k, data, {}, ft);
    var k' := AfterActions(k, data, ft).value;
    forall fd ensures SharesWith(k', parent.pid, fd) <==> HasInherited(data, fd, ft) {
      SharedNumber(parent, child, data, ft, k', fd);
    }
  }

  lemma SharedNumber(parent: Kernel, child: Pid, data: seq<Entry>, ft: ForkType, k': Kernel, fd: Fd)
    requires WellFormed(parent) && child != parent.pid && child !in parent.others && Agree(data, parent)
    requires var k, dn := ForkedChild(parent, child), LowestFree(ForkedChild(parent, child));
             && Frame(k, k') && dn in k'.fds && k'.fds[dn].id == |parent.descs|
             && (forall e | e in data && !IsClosed(e) :: ActionDone(WithNull(k), k', e, dn, ft))
             && (fd in k'.fds ==> fd == dn || Survives(data, fd, ft))
    ensures SharesWith(k', parent.pid, fd) <==> HasInherited(data, fd, ft)
  {
    var k, dn := ForkedChild(parent, child), LowestFree(ForkedChild(parent, child));
    if SharesWith(k', parent.pid, fd) {
      var e :| e in data && e.fd == fd && StaysOpen(e, ft);
      assert ActionDone(WithNull(k), k', e, dn, ft);
      assert Inherited(e, ft);
    }
    if HasInherited(data, fd, ft) {
      var e :| e in data && e.fd == fd && Inherited(e, ft);
      assert ActionDone(WithNull(k), k', e, dn, ft) && Describes(parent, e);
      assert parent.fds[fd].id == k'.fds[fd].id;
    }
  }

  // ---- Repeated calls ----

  function AfterHistory(e: Entry, history: seq<ForkType>): Entry
    decreases |history|
  {
    if history == [] then e else AfterHistory(Marked(e, history[0]), history[1..])
  }

  function TimesPerformed(e: Entry, history: seq<ForkType>): nat
    decreases |history|
  {
    if history == [] then 0
    else (if Performs(e, history[0]) then 1 else 0) + TimesPerformed(Marked(e, history[0]), history[1..])
  }

  /** However often and for whatever kind of fork the actions run, an entry's own action
      happens at most once, and which calls trigger it depends only on the action. */
  lemma {:induction false} ActionAtMostOnce(e: Entry, history: seq<ForkType>)
    ensures TimesPerformed(e, history) <= 1
    ensures TimesPerformed(e, history) == 1 <==> !e.executed && AfterHistory(e, history).executed
    ensures e.action.CloseUnlessSpawnSubspecies? ==>
              (IsClosed(AfterHistory(e, history)) <==> e.executed || Application in history)
    ensures e.action.Close? ==> (IsClosed(AfterHistory(e, history)) <==> e.executed || history != [])
    ensures e.action.DupeNull? || e.action.Reopen? ==>
              (AfterHistory(e, history).executed <==> e.executed || history != []) && !IsClosed(AfterHistory(e, history))
    ensures e.action.Ignore? ==> AfterHistory(e, history) == e
    decreases |history|
  {
    if history != [] {
      ActionAtMostOnce(Marked(e, history[0]), history[1..]);
      assert history == [history[0]] + history[1..];
    }
  }

  // ---- Putting a registry back into service ----

  /** The table after a successful `register_new`: sorted, nothing lost, and one entry with
      current information for every open number that had none. */
  ghost predicate NewRegistered(before: seq<Entry>, after: seq<Entry>, k: Kernel) {
    && Sorted(after)
    && (forall e | e in before :: e in after)
    && (forall fd | fd in k.fds && !HasEntry(before, fd) :: HasLive(after, fd))
    && (forall e | e in after && e !in before ::
          !HasEntry(before, e.fd) && !e.executed && Describes(k, e))
  }

  function NullInfo(k: Kernel): Info
    requires WellFormed(k)
  {
    InfoOf(FreshFile(k, DEV_NULL, {Rdwr}), true).value
  }

  /** An entry to reopen whose path still leads to the recorded file, with flags that can be
      set again. */
  predicate Restorable(k: Kernel, e: Entry) {
    CanReopen(k, e) && ReopenStable(k.fs, e.info)
  }

  /** An entry whose recorded information is still right once its action has run. */
  ghost predicate KeepsInfo(k: Kernel, e: Entry, ft: ForkType)
    requires WellFormed(k)
  {
    Performs(e, ft) && !ClosesOn(e, ft) ==>
      if e.action.DupeNull? then e.info == NullInfo(k)
      else Restorable(k, e)
  }

  /** No unregistered number carries the number of an entry. */
  ghost predicate NoStaleNumber(k: Kernel, data: seq<Entry>, extra: set<Fd>) {
    forall x | x in extra + {LowestFree(k)} :: !HasEntry(data, x)
  }

  ghost predicate AllKeepInfo(k: Kernel, data: seq<Entry>, ft: ForkType)
    requires WellFormed(k)
  {
    forall e | e in data :: KeepsInfo(k, e, ft)
  }

  /** Every entry that stays open describes its number. */
  ghost predicate SurvivorsDescribed(k': Kernel, data: seq<Entry>, ft: ForkType) {
    forall e | e in data && StaysOpen(e, ft) :: Describes(k', Marked(e, ft))
  }

  /** After the actions and `register_new`, `audit` succeeds if and only if every duplicated
      or reopened entry still describes its number and no unregistered number, the new
      /dev/null included, carries the number of an entry that was already closed. */
  lemma AuditAfterReset(k: Kernel, data: seq<Entry>, extra: set<Fd>, ft: ForkType, after: seq<Entry>)
    requires WellFormed(k) && Sorted(data) && AgreeExcept(data, k, extra)
    requires AfterActions(k, data, ft).Some?
    requires NewRegistered(MarkedAll(data, ft), after, AfterActions(k, data, ft).value)
    ensures Agree(after, AfterActions(k, data, ft).value) <==>
              AllKeepInfo(k, data, ft) && NoStaleNumber(k, data, extra)
  {
    var k' := AfterActions(k, data, ft).value;
    SurvivorsKeepInfo(k, data, extra, ft);
    if Agree(after, k') {
      AuditedDescribes(k', data, ft, after);
      AuditedHasNoStaleNumber(k, data, extra, ft, after);
    }
    if AllKeepInfo(k, data, ft) && NoStaleNumber(k, data, extra) {
      NumbersAfterActions(k, data, extra, ft);
      ResetAgrees(k, k', data, extra, ft, after);
    }
  }

  lemma StaleFailsTheAudit(k: Kernel, data: seq<Entry>, extra: set<Fd>, after: seq<Entry>)
    requires WellFormed(k) && Sorted(data) && AgreeExcept(data, k, extra) && AfterActions(k, data, Subspecies).Some?
    requires !AllKeepInfo(k, data, Subspecies) || !NoStaleNumber(k, data, extra)
    ensures NewRegistered(MarkedAll(data, Subspecies), after, AfterActions(k, data, Subspecies).value) ==>
              !Agree(after, AfterActions(k, data, Subspecies).value)
  {
    if NewRegistered(MarkedAll(data, Subspecies), after, AfterActions(k, data, Subspecies).value) {
      AuditAfterReset(k, data, extra, Subspecies, after);
    }
  }

  /** A closed slot below which every number is live is hit by the next number opened, be it
      one the species opens or the reset's own. */
  lemma LowestClosedIsStale(k: Kernel, data: seq<Entry>, extra: set<Fd>, n: Fd)
    requires AgreeExcept(data, k, extra)
    requires HasEntry(data, n) && !HasLive(data, n) && forall fd: Fd | fd < n :: HasLive(data, fd)
    ensures !NoStaleNumber(k, data, extra)
  {
    forall fd: Fd | fd < n ensures fd in k.fds {
      assert HasLive(data, fd);
      var e :| e in data && e.fd == fd && !IsClosed(e);
      assert Describes(k, e);
    }
    assert n in extra + {LowestFree(k)};
  }

  /** What was no file before is on /dev/null once it has been duplicated. */
  lemma DuplicatedIsStale(k: Kernel, data: seq<Entry>, e: Entry)
    requires WellFormed(k) && e in data && e.action == DupeNull && !e.executed && !e.info.File?
    ensures !AllKeepInfo(k, data, Subspecies)
  {
    assert !KeepsInfo(k, e, Subspecies);
  }

  /** The actions on an audited table can be stopped only by a file that cannot be reopened. */
  lemma ActionsRun(k: Kernel, data: seq<Entry>, extra: set<Fd>, ft: ForkType)
    requires WellFormed(k) && Sorted(data) && AgreeExcept(data, k, extra)
    ensures AfterActions(k, data, ft).Some? <==> AllReopen(k, data, ft)
  {
    forall e | e in data && Performs(e, ft) ensures e.fd in k.fds {
      assert !IsClosed(e) && Describes(k, e);
    }
    ActionsSucceed(WithNull(k), data, LowestFree(k), ft);
    SameReopens(k, data, ft);
  }

  lemma SameReopens(k: Kernel, data: seq<Entry>, ft: ForkType)
    requires WellFormed(k)
    ensures AllReopen(WithNull(k), data, ft) <==> AllReopen(k, data, ft)
  {
    forall e ensures CanReopen(WithNull(k), e) <==> CanReopen(k, e) {}
  }

  lemma SurvivorsKeepInfo(k: Kernel, data: seq<Entry>, extra: set<Fd>, ft: ForkType)
    requires WellFormed(k) && Sorted(data) && AgreeExcept(data, k, extra) && AfterActions(k, data, ft).Some?
    ensures SurvivorsDescribed(AfterActions(k, data, ft).value, data, ft) <==> AllKeepInfo(k, data, ft)
  {
    var k' := AfterActions(k, data, ft).value;
    forall e | e in data && StaysOpen(e, ft) ensures Describes(k', Marked(e, ft)) <==> KeepsInfo(k, e, ft) {
      SurvivorKeepsInfo(k, data, extra, ft, e);
    }
    forall e | e in data && !StaysOpen(e, ft) ensures KeepsInfo(k, e, ft) {
      GoneKeepsInfo(k, e, ft);
    }
  }

  lemma SurvivorKeepsInfo(k: Kernel, data: seq<Entry>, extra: set<Fd>, ft: ForkType, e: Entry)
    requires WellFormed(k) && Sorted(data) && AgreeExcept(data, k, extra) && AfterActions(k, data, ft).Some?
    requires e in data && StaysOpen(e, ft)
    ensures Describes(AfterActions(k, data, ft).value, Marked(e, ft)) <==> KeepsInfo(k, e, ft)
  {
    ActionsOnAudited(k, data, extra, ft);
    KeptInfo(k, AfterActions(k, data, ft).value, e, LowestFree(k), ft);
  }

  lemma GoneKeepsInfo(k: Kernel, e: Entry, ft: ForkType)
    requires WellFormed(k) && !StaysOpen(e, ft)
    ensures KeepsInfo(k, e, ft)
  {
  }

  lemma AuditedDescribes(k': Kernel, data: seq<Entry>, ft: ForkType, after: seq<Entry>)
    requires NewRegistered(MarkedAll(data, ft), after, k') && Agree(after, k')
    ensures SurvivorsDescribed(k', data, ft)
  {
    MarkedMembers(data, ft);
    forall e | e in data && StaysOpen(e, ft) ensures Describes(k', Marked(e, ft)) {
      assert Marked(e, ft) in after && !IsClosed(Marked(e, ft));
    }
  }

  lemma AuditedHasNoStaleNumber(k: Kernel, data: seq<Entry>, extra: set<Fd>, ft: ForkType, after: seq<Entry>)
    requires WellFormed(k) && Sorted(data) && AgreeExcept(data, k, extra) && AfterActions(k, data, ft).Some?
    requires NewRegistered(MarkedAll(data, ft), after, AfterActions(k, data, ft).value)
    requires Agree(after, AfterActions(k, data, ft).value)
    ensures NoStaleNumber(k, data, extra)
  {
    NumbersAfterActions(k, data, extra, ft);
    forall x | x in extra + {LowestFree(k)} ensures !HasEntry(data, x) {
      if HasEntry(data, x) { StaleSlotUnaudited(k, AfterActions(k, data, ft).value, data, extra, ft, after, x); }
    }
  }

  /** The open numbers after the actions, and nothing else about them. */
  lemma NumbersAfterActions(k: Kernel, data: seq<Entry>, extra: set<Fd>, ft: ForkType)
    requires WellFormed(k) && Sorted(data) && AgreeExcept(data, k, extra) && AfterActions(k, data, ft).Some?
    ensures var k' := AfterActions(k, data, ft).value;
            && extra + {LowestFree(k)} <= k'.fds.Keys
            && (forall fd | fd in k'.fds :: fd == LowestFree(k) || fd in extra || Survives(data, fd, ft))
  {
    ActionsOnAudited(k, data, extra, ft);
  }

  lemma KeptInfo(k: Kernel, k': Kernel, e: Entry, dn: Fd, ft: ForkType)
    requires WellFormed(k) && dn == LowestFree(k) && Frame(k, k') && |k.descs| < |k'.descs|
    requires k'.descs[|k.descs|] == FreshFile(k, DEV_NULL, {Rdwr})
    requires !IsClosed(e) && Describes(k, e) && ActionDone(WithNull(k), k', e, dn, ft)
    requires !(Performs(e, ft) && ClosesOn(e, ft))
    ensures Describes(k', Marked(e, ft)) <==> KeepsInfo(k, e, ft)
  {
    if Performs(e, ft) && e.action.Reopen? {
      ReopenedInfo(k.fs, e.info);
    }
  }

  /** Path, both halves of the flags, offset and close-on-exec survive a reopen, unless the
      path now names something else or the recorded flags include bits F_SETFL cannot set. */
  lemma ReopenedInfo(fs: map<string, Node>, info: Info)
    requires info.File? && info.path in fs && fs[info.path].seekable
    requires info.openFlags <= OPEN_MASK && info.fcntlFlags !! OPEN_MASK
    ensures InfoOf(Reopened(fs, info), info.cloexec) == Some(info) <==> ReopenStable(fs, info)
  {
    var d := Reopened(fs, info);
    assert d.flags * OPEN_MASK == info.openFlags;
    assert d.flags - OPEN_MASK == FORCED_FLAGS + info.fcntlFlags * SETFL_MASK;
    if FORCED_FLAGS <= info.fcntlFlags <= SETFL_MASK + FORCED_FLAGS {
      assert FORCED_FLAGS + info.fcntlFlags * SETFL_MASK == info.fcntlFlags;
    }
  }

  lemma StaleSlotUnaudited(k: Kernel, k': Kernel, data: seq<Entry>, extra: set<Fd>, ft: ForkType,
                           after: seq<Entry>, x: Fd)
    requires WellFormed(k) && Sorted(data) && AgreeExcept(data, k, extra)
    requires NewRegistered(MarkedAll(data, ft), after, k')
    requires x in k'.fds && x in extra + {LowestFree(k)} && HasEntry(data, x)
    ensures !Agree(after, k')
  {
    var e :| e in data && e.fd == x;
    assert IsClosed(e);
    MarkedMembers(data, ft);
    if HasLive(after, x) {
      var live :| live in after && live.fd == x && !IsClosed(live);
      SameFdSameEntry(after, live, Marked(e, ft));
    }
  }

  lemma ResetAgrees(k: Kernel, k': Kernel, data: seq<Entry>, extra: set<Fd>, ft: ForkType, after: seq<Entry>)
    requires WellFormed(k) && Sorted(data) && AgreeExcept(data, k, extra)
    requires NewRegistered(MarkedAll(data, ft), after, k')
    requires SurvivorsDescribed(k', data, ft) && NoStaleNumber(k, data, extra)
    requires forall fd | fd in k'.fds ::
               fd == LowestFree(k) || fd in extra
               || Survives(data, fd, ft)
    ensures Agree(after, k')
  {
    var marked := MarkedAll(data, ft);
    forall fd | fd in k'.fds ensures HasLive(after, fd) {
      if fd in extra + {LowestFree(k)} {
        assert !HasEntry(marked, fd) by { MarkedMembers(data, ft); }
      } else {
        SurvivorsAreLive(data, fd, ft);
        var m :| m in marked && m.fd == fd && !IsClosed(m);
        assert m in after;
      }
    }
    forall m | m in after && !IsClosed(m) ensures Describes(k', m) {
      if m in marked {
        MarkedMembers(data, ft);
        var e :| e in data && m == Marked(e, ft);
        assert StaysOpen(e, ft);
      }
    }
  }

  /** An action that cannot be performed stops the run for good. */
  lemma {:induction false} StuckStaysStuck(k: Kernel, data: seq<Entry>, dn: Fd, ft: ForkType, i: nat)
    requires i <= |data| && ActedAll(k, data[..i], dn, ft).None?
    ensures ActedAll(k, data, dn, ft).None?
    decreases |data|
  {
    if i < |data| {
      assert data[..|data| - 1][..i] == data[..i];
      StuckStaysStuck(k, data[..|data| - 1], dn, ft, i);
    } else {
      assert data[..i] == data;
    }
  }

  // ---- Shutdown ----

  /** The kernel after closing every entry that is not ignored, closed entries included;
      None if one of those numbers is not open when its turn comes. */
  function OverrideAll(k: Kernel, data: seq<Entry>): Option<Kernel>
    decreases |data|
  {
    if data == [] then Some(k)
    else
      var before := OverrideAll(k, data[..|data| - 1]);
      var e := data[|data| - 1];
      if before.None? || e.action.Ignore? then before
      else if e.fd in before.value.fds then Some(Closed(before.value, e.fd))
      else None
  }

  lemma {:induction false} OverrideStuck(k: Kernel, data: seq<Entry>, i: nat)
    requires i <= |data| && OverrideAll(k, data[..i]).None?
    ensures OverrideAll(k, data).None?
    decreases |data|
  {
    if i < |data| {
      assert data[..|data| - 1][..i] == data[..i];
      OverrideStuck(k, data[..|data| - 1], i);
    } else {
      assert data[..i] == data;
    }
  }

  ghost predicate Overridden(data: seq<Entry>, fd: Fd) {
    exists e :: e in data && e.fd == fd && !e.action.Ignore?
  }

  ghost predicate AllOverridable(k: Kernel, data: seq<Entry>) {
    forall e | e in data && !e.action.Ignore? :: e.fd in k.fds
  }

  lemma SortedSnoc(init: seq<Entry>, e: Entry)
    requires Sorted(init + [e])
    ensures Sorted(init) && forall x | x in init :: x.fd < e.fd
  {
    var data := init + [e];
    forall i, j | 0 <= i < j < |init| ensures init[i].fd < init[j].fd {
      assert data[i] == init[i] && data[j] == init[j];
    }
    forall x | x in init ensures x.fd < e.fd {
      var i :| 0 <= i < |init| && init[i] == x;
      assert data[i] == x && data[|init|] == e;
    }
  }

  /** The numbers of `data` that are not ignored are gone, and nothing else has changed. */
  ghost predicate Stripped(k: Kernel, k': Kernel, data: seq<Entry>) {
    k' == k.(fds := k'.fds) && forall fd :: fd in k'.fds <==> fd in k.fds && !Overridden(data, fd)
  }

  lemma StrippedSnoc(k: Kernel, mid: Kernel, init: seq<Entry>, e: Entry)
    requires Stripped(k, mid, init)
    ensures Stripped(k, if e.action.Ignore? then mid else Closed(mid, e.fd), init + [e])
  {
  }

  lemma {:induction false} OverrideStrips(k: Kernel, data: seq<Entry>)
    requires OverrideAll(k, data).Some?
    ensures Stripped(k, OverrideAll(k, data).value, data)
    decreases |data|
  {
    if data != [] {
      var init, e := data[..|data| - 1], data[|data| - 1];
      OverrideStrips(k, init);
      StrippedSnoc(k, OverrideAll(k, init).value, init, e);
      assert data == init + [e];
    }
  }

  lemma {:induction false} OverrideEffect(k: Kernel, data: seq<Entry>)
    requires Sorted(data)
    ensures OverrideAll(k, data).Some? <==> AllOverridable(k, data)
    ensures OverrideAll(k, data).Some? ==> Stripped(k, OverrideAll(k, data).value, data)
    decreases |data|
  {
    if OverrideAll(k, data).Some? { OverrideStrips(k, data); }
    if data != [] {
      var init, e := data[..|data| - 1], data[|data| - 1];
      assert data == init + [e];
      SortedSnoc(init, e);
      OverrideEffect(k, init);
      assert AllOverridable(k, data) <==> AllOverridable(k, init) && (!e.action.Ignore? ==> e.fd in k.fds);
      assert !Overridden(init, e.fd);
    }
  }

  /** Shutting down an audited registry closes each of its numbers once, on an open number,
      and leaves exactly the ignored ones, if and only if no entry was closed before: the
      loop does not skip closed entries. */
  lemma ShutdownCloses(k: Kernel, data: seq<Entry>)
    requires Sorted(data) && Agree(data, k)
    ensures OverrideAll(k, data).Some? <==> forall e | e in data :: !IsClosed(e)
    ensures OverrideAll(k, data).Some? ==>
              forall fd :: fd in OverrideAll(k, data).value.fds <==> exists e :: e in data && e.fd == fd && e.action.Ignore?
  {
    OverrideEffect(k, data);
    forall e | e in data ensures e.fd in k.fds <==> !IsClosed(e) {
      if HasLive(data, e.fd) {
        var live :| live in data && live.fd == e.fd && !IsClosed(live);
        SameFdSameEntry(data, e, live);
      }
    }
    if OverrideAll(k, data).Some? {
      forall fd ensures fd in OverrideAll(k, data).value.fds <==> exists e :: e in data && e.fd == fd && e.action.Ignore? {
        if fd in k.fds {
          var e :| e in data && e.fd == fd && !IsClosed(e);
          assert e.action.Ignore? || Overridden(data, fd);
        }
        if e :| e in data && e.fd == fd && e.action.Ignore? {
          if Overridden(data, fd) {
            var x :| x in data && x.fd == fd && !x.action.Ignore?;
            SameFdSameEntry(data, e, x);
          }
        }
      }
    }
  }
}
