/** Spawn parameters and the merge that fills in a server's defaults. */
module SpawnParams {
  import opened Results

  const GID_VECTOR_SIZE: nat := 32
  const RLIMIT_VECTOR_SIZE: nat := 16

  datatype RLimitData = RLimitData(resource: int, hard: int, soft: int)

  datatype SpawnParamsCommon = SpawnParamsCommon(
    selinuxFlags: Option<int>,
    noNewPrivs: Option<bool>,
    uid: Option<int>,
    gid: Option<int>,
    processName: Option<string>,
    priorityInitial: Option<int>,
    priorityFinal: Option<int>,
    capEffective: Option<set<nat>>,
    capPermitted: Option<set<nat>>,
    capInheritable: Option<set<nat>>,
    capBound: Option<set<nat>>,
    seInfo: Option<string>,
    secondaryGroups: seq<int>,
    rlimits: seq<RLimitData>)

  const EMPTY: SpawnParamsCommon :=
    SpawnParamsCommon(None, None, None, None, None, None, None, None, None, None, None, None, [], [])

  /** The fixed-capacity vectors hold no more than they can. */
  predicate Fits(p: SpawnParamsCommon) {
    |p.secondaryGroups| <= GID_VECTOR_SIZE && |p.rlimits| <= RLIMIT_VECTOR_SIZE
  }

  function OrElse<T>(a: Option<T>, b: Option<T>): Option<T> {
    if a.Some? then a else b
  }

  /** Drops every element that occurred before. */
  function Unique(s: seq<int>): seq<int>
    decreases |s|
  {
    if s == [] then []
    else
      var before := Unique(s[..|s| - 1]);
      if s[|s| - 1] in before then before else before + [s[|s| - 1]]
  }

  function Merged(a: SpawnParamsCommon, b: SpawnParamsCommon): SpawnParamsCommon {
    SpawnParamsCommon(
      OrElse(a.selinuxFlags, b.selinuxFlags),
      OrElse(a.noNewPrivs, b.noNewPrivs),
      OrElse(a.uid, b.uid),
      OrElse(a.gid, b.gid),
      OrElse(a.processName, b.processName),
      OrElse(a.priorityInitial, b.priorityInitial),
      OrElse(a.priorityFinal, b.priorityFinal),
      OrElse(a.capEffective, b.capEffective),
      OrElse(a.capPermitted, b.capPermitted),
      OrElse(a.capInheritable, b.capInheritable),
      OrElse(a.capBound, b.capBound),
      OrElse(a.seInfo, b.seInfo),
      Unique(a.secondaryGroups + b.secondaryGroups),
      a.rlimits + b.rlimits)
  }

  /** Collecting into a full vector aborts. */
  function Or(a: SpawnParamsCommon, b: SpawnParamsCommon): Outcome<SpawnParamsCommon, ()> {
    if Fits(Merged(a, b)) then Ok(Merged(a, b)) else Panic
  }

  function OrRight(a: SpawnParamsCommon, b: Outcome<SpawnParamsCommon, ()>): Outcome<SpawnParamsCommon, ()> {
    if b.Ok? then Or(a, b.value) else b
  }

  function OrLeft(a: Outcome<SpawnParamsCommon, ()>, b: SpawnParamsCommon): Outcome<SpawnParamsCommon, ()> {
    if a.Ok? then Or(a.value, b) else a
  }

  // ---- First-occurrence deduplication ----

  function FirstIndex(s: seq<int>, x: int): (i: nat)
    requires x in s
    ensures i < |s| && s[i] == x && x !in s[..i]
  {
    if s[0] == x then 0 else 1 + FirstIndex(s[1..], x)
  }

  /** The merged groups are the members of the concatenation, each once, in the order of
      their first occurrence. */
  lemma {:induction false} UniqueSpec(s: seq<int>)
    ensures Distinct(Unique(s)) && forall x :: x in Unique(s) <==> x in s
    ensures forall i, j | 0 <= i < j < |Unique(s)| ::
              Unique(s)[i] in s && Unique(s)[j] in s && FirstIndex(s, Unique(s)[i]) < FirstIndex(s, Unique(s)[j])
    decreases |s|
  {
    if s != [] {
      var init, last := s[..|s| - 1], s[|s| - 1];
      assert s == init + [last];
      UniqueSpec(init);
      var u, r := Unique(init), Unique(s);
      forall i, j | 0 <= i < j < |r| ensures r[i] in s && r[j] in s && FirstIndex(s, r[i]) < FirstIndex(s, r[j]) {
        assert r[i] == u[i] && u[i] in u;
        FirstIndexInPrefix(init, last, r[i]);
        if j < |u| {
          assert u[j] in u;
          FirstIndexInPrefix(init, last, r[j]);
        } else {
          assert FirstIndex(s, last) >= |init|;
        }
      }
    }
  }

  lemma FirstIndexInPrefix(init: seq<int>, last: int, x: int)
    requires x in init
    ensures FirstIndex(init + [last], x) == FirstIndex(init, x)
  {
    var s, i, j := init + [last], FirstIndex(init, x), FirstIndex(init + [last], x);
    assert s[i] == x;
    assert forall m | 0 <= m < j :: s[..j][m] == s[m];
    assert forall m | 0 <= m < i :: init[..i][m] == s[m];
  }

  lemma {:induction false} UniqueLeft(s: seq<int>, t: seq<int>)
    ensures Unique(Unique(s) + t) == Unique(s + t)
    decreases |t|
  {
    if t == [] {
      assert s + t == s && Unique(s) + t == Unique(s);
      UniqueSpec(s);
      UniqueFixed(Unique(s));
    } else {
      var init, last := t[..|t| - 1], t[|t| - 1];
      UniqueLeft(s, init);
      assert (s + t)[..|s + t| - 1] == s + init;
      assert (Unique(s) + t)[..|Unique(s) + t| - 1] == Unique(s) + init;
    }
  }

  lemma {:induction false} UniqueFixed(s: seq<int>)
    ensures Unique(s) == s <==> Distinct(s)
    decreases |s|
  {
    if s != [] {
      var init, last := s[..|s| - 1], s[|s| - 1];
      assert s == init + [last];
      UniqueFixed(init);
      UniqueSpec(s);
      UniqueSpec(init);
    }
  }

  lemma UniqueSnoc(s: seq<int>, x: int)
    ensures Unique(s + [x]) == if x in s then Unique(s) else Unique(s) + [x]
  {
    UniqueSpec(s);
    assert (s + [x])[..|s|] == s;
  }

  lemma {:induction false} UniqueRight(s: seq<int>, t: seq<int>)
    ensures Unique(s + Unique(t)) == Unique(s + t)
    decreases |t|
  {
    if t != [] {
      var init, last := t[..|t| - 1], t[|t| - 1];
      var u := Unique(init);
      assert t == init + [last] && s + t == (s + init) + [last];
      UniqueRight(s, init);
      UniqueSpec(init);
      UniqueSnoc(init, last);
      UniqueSnoc(s + init, last);
      if last !in init {
        assert s + (u + [last]) == (s + u) + [last];
        UniqueSnoc(s + u, last);
      }
    }
  }

  function Members(s: seq<int>): set<int> {
    set x | x in s
  }

  lemma {:induction false} UniqueCount(s: seq<int>)
    ensures |Unique(s)| == |Members(s)|
    decreases |s|
  {
    if s != [] {
      var init, last := s[..|s| - 1], s[|s| - 1];
      assert s == init + [last];
      UniqueCount(init);
      UniqueSnoc(init, last);
      if last in init {
        assert Members(s) == Members(init);
      } else {
        assert Members(s) == Members(init) + {last};
      }
    }
  }

  lemma UniqueGrows(s: seq<int>, t: seq<int>)
    ensures |Unique(s)| <= |Unique(s + t)| && |Unique(t)| <= |Unique(s + t)|
  {
    UniqueCount(s);
    UniqueCount(t);
    UniqueCount(s + t);
    SubsetSize(Members(s), Members(s + t));
    SubsetSize(Members(t), Members(s + t));
  }

  // ---- Laws of the merge ----

  /** Field by field what the left value says, and what the right one says where the left says
      nothing; the limits of both, one after the other; and the groups of both, once each,
      the left ones first. */
  ghost predicate LeftFirst(p: SpawnParamsCommon, a: SpawnParamsCommon, b: SpawnParamsCommon) {
    && p.selinuxFlags == (if a.selinuxFlags.Some? then a.selinuxFlags else b.selinuxFlags)
    && p.noNewPrivs == (if a.noNewPrivs.Some? then a.noNewPrivs else b.noNewPrivs)
    && p.uid == (if a.uid.Some? then a.uid else b.uid)
    && p.gid == (if a.gid.Some? then a.gid else b.gid)
    && p.processName == (if a.processName.Some? then a.processName else b.processName)
    && p.priorityInitial == (if a.priorityInitial.Some? then a.priorityInitial else b.priorityInitial)
    && p.priorityFinal == (if a.priorityFinal.Some? then a.priorityFinal else b.priorityFinal)
    && p.capEffective == (if a.capEffective.Some? then a.capEffective else b.capEffective)
    && p.capPermitted == (if a.capPermitted.Some? then a.capPermitted else b.capPermitted)
    && p.capInheritable == (if a.capInheritable.Some? then a.capInheritable else b.capInheritable)
    && p.capBound == (if a.capBound.Some? then a.capBound else b.capBound)
    && p.seInfo == (if a.seInfo.Some? then a.seInfo else b.seInfo)
    && p.rlimits == a.rlimits + b.rlimits
    && p.secondaryGroups == Unique(a.secondaryGroups + b.secondaryGroups)
  }

  /** Merging aborts exactly when there are more different groups, or more limits, than fit;
      otherwise the left value comes first in everything. */
  lemma OrPrefersLeft(a: SpawnParamsCommon, b: SpawnParamsCommon)
    ensures Or(a, b).Ok? <==>
              && |Members(a.secondaryGroups) + Members(b.secondaryGroups)| <= GID_VECTOR_SIZE
              && |a.rlimits| + |b.rlimits| <= RLIMIT_VECTOR_SIZE
    ensures !Or(a, b).Err?
    ensures Or(a, b).Ok? ==> LeftFirst(Or(a, b).value, a, b)
  {
    var groups := a.secondaryGroups + b.secondaryGroups;
    UniqueSpec(groups);
    UniqueCount(groups);
    var ours, theirs := Members(a.secondaryGroups), Members(b.secondaryGroups);
    forall x ensures x in groups <==> x in ours || x in theirs {
      assert x in groups <==> x in a.secondaryGroups || x in b.secondaryGroups;
    }
    assert Members(groups) == ours + theirs;
    forall x ensures x in Members(Unique(groups)) <==> x in Members(groups) {
      assert x in Unique(groups) <==> x in groups;
    }
  }

  /** Merging is associative, and it aborts on the one side exactly when it does on the other. */
  lemma OrAssociative(a: SpawnParamsCommon, b: SpawnParamsCommon, c: SpawnParamsCommon)
    ensures OrLeft(Or(a, b), c) == OrRight(a, Or(b, c))
  {
    var ga, gb, gc := a.secondaryGroups, b.secondaryGroups, c.secondaryGroups;
    MergedAssociative(a, b, c);
    assert ga + gb + gc == ga + (gb + gc);
    UniqueLeft(ga + gb, gc);
    UniqueGrows(ga + gb, gc);
    UniqueGrows(ga, gb + gc);
  }

  lemma MergedAssociative(a: SpawnParamsCommon, b: SpawnParamsCommon, c: SpawnParamsCommon)
    ensures Merged(Merged(a, b), c) == Merged(a, Merged(b, c))
  {
    var ga, gb, gc := a.secondaryGroups, b.secondaryGroups, c.secondaryGroups;
    assert ga + gb + gc == ga + (gb + gc);
    assert a.rlimits + b.rlimits + c.rlimits == a.rlimits + (b.rlimits + c.rlimits);
    UniqueLeft(ga + gb, gc);
    UniqueRight(ga, gb + gc);
  }

  lemma MergedWithEmpty(p: SpawnParamsCommon)
    ensures Merged(EMPTY, p) == p.(secondaryGroups := Unique(p.secondaryGroups))
    ensures Merged(p, EMPTY) == p.(secondaryGroups := Unique(p.secondaryGroups))
  {
    var g := p.secondaryGroups;
    assert [] + g == g && g + [] == g && p.rlimits + [] == p.rlimits && [] + p.rlimits == p.rlimits;
  }

  /** An empty value is an identity on exactly the values without repeated groups. */
  lemma EmptyIsIdentity(p: SpawnParamsCommon)
    requires Fits(p)
    ensures Or(EMPTY, p) == Ok(p) <==> Distinct(p.secondaryGroups)
    ensures Or(p, EMPTY) == Ok(p) <==> Distinct(p.secondaryGroups)
  {
    MergedWithEmpty(p);
    UniqueFixed(p.secondaryGroups);
    var normal := p.(secondaryGroups := Unique(p.secondaryGroups));
    assert normal == p <==> Distinct(p.secondaryGroups);
  }
}
