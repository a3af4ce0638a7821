/** The message declarations of the zygote protocol. */
module Messages {
  import opened Results
  import opened Parcel
  import opened SpawnParams

  const I32_MAX: int := 0x7fff_ffff
  const MESSAGE_ARG_BUFFER_MAX: nat := 32

  /** All 64 bits of a raw capability word, and the capabilities Linux defines. */
  const ALL_BITS: set<nat> := set i: nat | i < 64
  const KNOWN_CAPS: set<nat> := set i: nat | i <= 40

  // ---- Leaf types ----

  predicate IsNum(v: Value, lo: int, hi: int) {
    v.Num? && lo <= v.n < hi
  }

  predicate IsOpt(v: Value, inner: Value -> bool) {
    v.Opt? && (v.o.Some? ==> inner(v.o.value))
  }

  predicate IsText(v: Value) {
    v.Text?
  }

  predicate IsByte(v: Value) {
    IsNum(v, 0, 256)
  }

  predicate IsBytes(v: Value) {
    v.List? && forall e | e in v.elems :: IsByte(e)
  }

  function RefOr(c: Cell, default: Value): Value {
    if c.Ref? && c.o.Some? then c.o.value else default
  }

  /** A scalar copied both ways. */
  function PlainField(name: string, valid: Value -> bool): FieldDecl {
    FieldDecl(name, Leaf(valid, v => Scalar(v), c => CellValue(c)), [OtherAttribute])
  }

  function NumField(name: string, lo: int, hi: int): FieldDecl {
    PlainField(name, v => IsNum(v, lo, hi))
  }

  /** `marshal(default = literal)`, `unmarshal(valid_range = range)`. */
  function DefaultedField(name: string, inner: Value -> bool, literal: Value, range: Value -> bool): FieldDecl {
    FieldDecl(name, Leaf(v => IsOpt(v, inner), v => Scalar(v), c => CellValue(c)),
              [MarshalAttribute([DefaultItem(literal)]), UnmarshalAttribute([ValidRangeItem(range)])])
  }

  /** A required string, packed. */
  function TextField(name: string): FieldDecl {
    FieldDecl(name, Leaf(IsText, v => Ref(Some(v)), c => RefOr(c, Text(""))), [MarshalAttribute([PackedItem])])
  }

  /** An optional string, packed: absence is sent as the empty string. */
  function OptTextField(name: string): FieldDecl {
    FieldDecl(name, Leaf(v => IsOpt(v, IsText), v => Ref(Some(UnwrapOr(v, Text("")))), UnmarshalString),
              [MarshalAttribute([PackedItem])])
  }

  function MarshalString(v: Value): Cell {
    Ref(Some(UnwrapOr(v, Text(""))))
  }

  function UnmarshalString(c: Cell): Value {
    Opt(if c.Ref? then c.o else None)
  }

  function StringField(name: string): FieldDecl {
    FieldDecl(name, Leaf(v => IsOpt(v, IsText), v => Scalar(v), c => CellValue(c)),
              [MarshalAttribute([MarshalMapItem(MarshalString)]),
               UnmarshalAttribute([UnmarshalMapItem(UnmarshalString, c => true)])])
  }

  predicate IsCaps(v: Value) {
    v.Caps? && v.bits <= ALL_BITS
  }

  function MarshalCapabilityFlags(v: Value): Cell {
    Scalar(UnwrapOr(v, Caps(ALL_BITS)))
  }

  /** The all-ones word means no capabilities were given; unknown bits are dropped. */
  function UnmarshalCapabilityFlags(c: Cell): Value {
    if CellValue(c) == Caps(ALL_BITS) || !CellValue(c).Caps? then Opt(None)
    else Opt(Some(Caps(CellValue(c).bits * KNOWN_CAPS)))
  }

  function CapsField(name: string): FieldDecl {
    FieldDecl(name, Leaf(v => IsOpt(v, IsCaps), v => Scalar(v), c => CellValue(c)),
              [MarshalAttribute([MarshalMapItem(MarshalCapabilityFlags)]),
               UnmarshalAttribute([UnmarshalMapItem(UnmarshalCapabilityFlags, c => true)])])
  }

  predicate IsList(v: Value, capacity: nat, element: Value -> bool) {
    v.List? && |v.elems| <= capacity && forall e | e in v.elems :: element(e)
  }

  predicate WithinCapacity(c: Cell, capacity: nat) {
    RefOr(c, List([])).List? ==> |RefOr(c, List([])).elems| <= capacity
  }

  /** A bounded vector, packed; an absent vector reads as an empty one, and collecting one that
      is too long aborts. */
  function VectorField(name: string, capacity: nat, element: Value -> bool): FieldDecl {
    FieldDecl(name, Leaf(v => IsList(v, capacity, element), v => Ref(Some(v)), c => RefOr(c, List([]))),
              [MarshalAttribute([PackedItem]),
               UnmarshalAttribute([UnmarshalMapItem(c => RefOr(c, List([])), c => WithinCapacity(c, capacity))])])
  }

  /** The preloading command: an empty one reads as none. */
  function UnmarshalPreloadingCmd(c: Cell): Value {
    if RefOr(c, List([])) == List([]) then Opt(None) else Opt(Some(RefOr(c, List([]))))
  }

  function BytesField(name: string): FieldDecl {
    FieldDecl(name, Leaf(v => IsOpt(v, IsBytes), v => Ref(Some(UnwrapOr(v, List([])))), c => CellValue(c)),
              [MarshalAttribute([PackedItem]), UnmarshalAttribute([UnmarshalMapItem(UnmarshalPreloadingCmd, c => true)])])
  }

  // ---- What one trip does to each kind of leaf ----

  lemma PlainOk(name: string, valid: Value -> bool)
    ensures LeafOk(PlainField(name, valid))
  {
    var f := PlainField(name, valid);
    assert ChooseMarshal(f.attrs[1..]) == MPlain && ChooseUnmarshal(f.attrs[1..]) == UPlain;
  }

  function DefaultedNormal(v: Value, literal: Value, range: Value -> bool): Value {
    if range(UnwrapOr(v, literal)) then Opt(Some(UnwrapOr(v, literal))) else Opt(None)
  }

  lemma DefaultedNorm(name: string, inner: Value -> bool, literal: Value, range: Value -> bool, v: Value)
    ensures LeafNorm(DefaultedField(name, inner, literal, range), v) == DefaultedNormal(v, literal, range)
  {
    SecondDecides(DefaultedField(name, inner, literal, range).attrs);
  }

  /** The default is read back as absence, or it is a proper value and nothing is out of range. */
  ghost predicate DefaultFits(inner: Value -> bool, literal: Value, range: Value -> bool) {
    !range(literal) || (inner(literal) && forall x: Value | inner(x) :: range(x))
  }

  /** A default and a valid range invert each other exactly when they fit: otherwise a value
      that is out of range is sent back as absence, and comes back as the default next time. */
  lemma DefaultedOk(name: string, inner: Value -> bool, literal: Value, range: Value -> bool)
    ensures LeafOk(DefaultedField(name, inner, literal, range)) <==> DefaultFits(inner, literal, range)
  {
    var f := DefaultedField(name, inner, literal, range);
    SecondDecides(f.attrs);
    forall v: Value ensures LeafNorm(f, v) == DefaultedNormal(v, literal, range) {
      DefaultedNorm(name, inner, literal, range, v);
    }
    if LeafOk(f) && range(literal) {
      assert f.ty.valid(Opt(None));
      assert f.ty.valid(LeafNorm(f, Opt(None)));
      forall x: Value | inner(x) ensures range(x) {
        assert f.ty.valid(Opt(Some(x)));
        assert LeafNorm(f, LeafNorm(f, Opt(Some(x)))) == LeafNorm(f, Opt(Some(x)));
      }
    }
  }

  lemma SecondDecides(attrs: seq<Attribute>)
    requires |attrs| == 2 && UnmarshalKindOf(attrs[0]).None? && UnmarshalKindOf(attrs[1]).Some?
    ensures ChooseUnmarshal(attrs) == UnmarshalKindOf(attrs[1]).value
  {
  }

  lemma TextOk(name: string)
    ensures LeafOk(TextField(name))
  {
    var f := TextField(name);
    assert ChooseMarshal(f.attrs) == MPacked && ChooseUnmarshal(f.attrs[1..]) == UPlain;
  }

  lemma OptTextOk(name: string)
    ensures LeafOk(OptTextField(name))
  {
    var f := OptTextField(name);
    assert ChooseMarshal(f.attrs) == MPacked && ChooseUnmarshal(f.attrs[1..]) == UPlain;
  }

  lemma StringNorm(name: string, v: Value)
    ensures LeafNorm(StringField(name), v) == Opt(Some(UnwrapOr(v, Text(""))))
  {
    SecondDecides(StringField(name).attrs);
  }

  lemma StringOk(name: string)
    ensures LeafOk(StringField(name))
  {
    var f := StringField(name);
    SecondDecides(f.attrs);
    forall v: Value | f.ty.valid(v)
      ensures f.ty.valid(LeafNorm(f, v)) && LeafNorm(f, LeafNorm(f, v)) == LeafNorm(f, v)
    {
      StringNorm(name, v);
      StringNorm(name, LeafNorm(f, v));
    }
  }

  function CapsNormal(v: Value): Value {
    var word := UnwrapOr(v, Caps(ALL_BITS));
    if word == Caps(ALL_BITS) || !word.Caps? then Opt(None) else Opt(Some(Caps(word.bits * KNOWN_CAPS)))
  }

  lemma CapsNorm(name: string, v: Value)
    ensures LeafNorm(CapsField(name), v) == CapsNormal(v)
  {
    SecondDecides(CapsField(name).attrs);
  }

  lemma CapsOk(name: string)
    ensures LeafOk(CapsField(name))
  {
    var f := CapsField(name);
    SecondDecides(f.attrs);
    assert 63 in ALL_BITS && 63 !in KNOWN_CAPS;
    forall v: Value | f.ty.valid(v)
      ensures f.ty.valid(LeafNorm(f, v)) && LeafNorm(f, LeafNorm(f, v)) == LeafNorm(f, v)
    {
      CapsNorm(name, v);
      CapsNorm(name, LeafNorm(f, v));
      if CapsNormal(v).o.Some? {
        var bits := v.o.value.bits;
        assert (bits * KNOWN_CAPS) * KNOWN_CAPS == bits * KNOWN_CAPS;
        assert 63 !in bits * KNOWN_CAPS;
      }
    }
  }

  lemma VectorNorm(name: string, capacity: nat, element: Value -> bool, v: Value)
    ensures LeafNorm(VectorField(name, capacity, element), v) == v
  {
  }

  lemma VectorOk(name: string, capacity: nat, element: Value -> bool)
    ensures LeafOk(VectorField(name, capacity, element))
  {
    SecondDecides(VectorField(name, capacity, element).attrs);
  }

  lemma BytesOk(name: string)
    ensures LeafOk(BytesField(name))
  {
    SecondDecides(BytesField(name).attrs);
  }

  // ---- SpawnParamsCommon ----

  predicate IsU64(v: Value) { IsNum(v, 0, TWO_64) }
  predicate IsI32(v: Value) { IsNum(v, -I32_MAX - 1, I32_MAX + 1) }
  predicate IsU32(v: Value) { IsNum(v, 0, 0x1_0000_0000) }
  predicate IsFlag(v: Value) { v.Flag? }
  predicate IsId(v: Value) { v.Num? && 1 <= v.n }
  predicate IsPriority(v: Value) { v.Num? && -20 <= v.n < 20 }
  predicate IsLimit(v: Value) { v.Limit? }

  const SELINUX_FLAGS: FieldDecl := DefaultedField("selinux_flags", IsU64, Num(0), IsU64)
  const NO_NEW_PRIVS: FieldDecl := DefaultedField("no_new_privs", IsFlag, Flag(false), IsFlag)

  function IdField(name: string): FieldDecl {
    DefaultedField(name, IsI32, Num(-1), IsId)
  }

  function PriorityField(name: string): FieldDecl {
    DefaultedField(name, IsI32, Num(I32_MAX), IsPriority)
  }

  const ID_FIELDS: seq<FieldDecl> := [SELINUX_FLAGS, NO_NEW_PRIVS, IdField("uid"), IdField("gid")]
  const NAME_FIELDS: seq<FieldDecl> :=
    [StringField("process_name"), PriorityField("priority_initial"), PriorityField("priority_final")]
  const CAP_FIELDS: seq<FieldDecl> :=
    [CapsField("cap_effective"), CapsField("cap_permitted"), CapsField("cap_inheritable"), CapsField("cap_bound")]
  const TAIL_FIELDS: seq<FieldDecl> :=
    [StringField("se_info"), VectorField("secondary_groups", GID_VECTOR_SIZE, IsU32),
     VectorField("rlimits", RLIMIT_VECTOR_SIZE, IsLimit)]

  const COMMON_FIELDS: seq<FieldDecl> := ID_FIELDS + NAME_FIELDS + CAP_FIELDS + TAIL_FIELDS

  const COMMON: StructDecl := StructDecl("SpawnCommon", COMMON_FIELDS)

  lemma TwoOk(a: FieldDecl, b: FieldDecl)
    requires LeafOk(a) && LeafOk(b)
    ensures LeavesOk([a, b])
  {
  }

  lemma ThreeOk(a: FieldDecl, b: FieldDecl, c: FieldDecl)
    requires LeafOk(a) && LeafOk(b) && LeafOk(c)
    ensures LeavesOk([a, b, c])
  {
  }

  lemma FourOk(a: FieldDecl, b: FieldDecl, c: FieldDecl, d: FieldDecl)
    requires LeafOk(a) && LeafOk(b) && LeafOk(c) && LeafOk(d)
    ensures LeavesOk([a, b, c, d])
  {
  }

  lemma JoinOk(a: seq<FieldDecl>, b: seq<FieldDecl>)
    requires LeavesOk(a) && LeavesOk(b)
    ensures LeavesOk(a + b)
  {
  }

  lemma IdFieldsOk()
    ensures LeavesOk(ID_FIELDS)
  {
    DefaultedOk("selinux_flags", IsU64, Num(0), IsU64);
    DefaultedOk("no_new_privs", IsFlag, Flag(false), IsFlag);
    DefaultedOk("uid", IsI32, Num(-1), IsId);
    DefaultedOk("gid", IsI32, Num(-1), IsId);
    FourOk(SELINUX_FLAGS, NO_NEW_PRIVS, IdField("uid"), IdField("gid"));
  }

  lemma NameFieldsOk()
    ensures LeavesOk(NAME_FIELDS)
  {
    StringOk("process_name");
    DefaultedOk("priority_initial", IsI32, Num(I32_MAX), IsPriority);
    DefaultedOk("priority_final", IsI32, Num(I32_MAX), IsPriority);
    ThreeOk(StringField("process_name"), PriorityField("priority_initial"), PriorityField("priority_final"));
  }

  lemma CapFieldsOk()
    ensures LeavesOk(CAP_FIELDS)
  {
    CapsOk("cap_effective");
    CapsOk("cap_permitted");
    CapsOk("cap_inheritable");
    CapsOk("cap_bound");
    FourOk(CapsField("cap_effective"), CapsField("cap_permitted"), CapsField("cap_inheritable"), CapsField("cap_bound"));
  }

  lemma TailFieldsOk()
    ensures LeavesOk(TAIL_FIELDS)
  {
    StringOk("se_info");
    VectorOk("secondary_groups", GID_VECTOR_SIZE, IsU32);
    VectorOk("rlimits", RLIMIT_VECTOR_SIZE, IsLimit);
    ThreeOk(StringField("se_info"), VectorField("secondary_groups", GID_VECTOR_SIZE, IsU32),
            VectorField("rlimits", RLIMIT_VECTOR_SIZE, IsLimit));
  }

  lemma CommonOk()
    ensures TableOk(COMMON_FIELDS, "SpawnCommon")
  {
    IdFieldsOk();
    NameFieldsOk();
    CapFieldsOk();
    TailFieldsOk();
    JoinOk(ID_FIELDS, NAME_FIELDS);
    JoinOk(ID_FIELDS + NAME_FIELDS, CAP_FIELDS);
    JoinOk(ID_FIELDS + NAME_FIELDS + CAP_FIELDS, TAIL_FIELDS);
    CommonNames();
    LeafTableOk(COMMON_FIELDS, "SpawnCommon");
  }

  lemma CommonNames()
    ensures DistinctNames(COMMON_FIELDS)
  {
  }

  // ---- SpawnParamsCommon as a value, and its normal form ----

  function NumValue(o: Option<int>): Value {
    Opt(if o.Some? then Some(Num(o.value)) else None)
  }

  function FlagValue(o: Option<bool>): Value {
    Opt(if o.Some? then Some(Flag(o.value)) else None)
  }

  function TextValue(o: Option<string>): Value {
    Opt(if o.Some? then Some(Text(o.value)) else None)
  }

  function CapsValue(o: Option<set<nat>>): Value {
    Opt(if o.Some? then Some(Caps(o.value)) else None)
  }

  function GroupsValue(groups: seq<int>): Value {
    List(seq(|groups|, i requires 0 <= i < |groups| => Num(groups[i])))
  }

  function LimitsValue(limits: seq<RLimitData>): Value {
    List(seq(|limits|, i requires 0 <= i < |limits| => Limit(limits[i].resource, limits[i].hard, limits[i].soft)))
  }

  function IdValues(p: SpawnParamsCommon): seq<Value> {
    [NumValue(p.selinuxFlags), FlagValue(p.noNewPrivs), NumValue(p.uid), NumValue(p.gid)]
  }

  function NameValues(p: SpawnParamsCommon): seq<Value> {
    [TextValue(p.processName), NumValue(p.priorityInitial), NumValue(p.priorityFinal)]
  }

  function CapValues(p: SpawnParamsCommon): seq<Value> {
    [CapsValue(p.capEffective), CapsValue(p.capPermitted), CapsValue(p.capInheritable), CapsValue(p.capBound)]
  }

  function TailValues(p: SpawnParamsCommon): seq<Value> {
    [TextValue(p.seInfo), GroupsValue(p.secondaryGroups), LimitsValue(p.rlimits)]
  }

  function ParamValues(p: SpawnParamsCommon): (r: seq<Value>)
    ensures |r| == 14
  {
    IdValues(p) + NameValues(p) + CapValues(p) + TailValues(p)
  }

  /** The parameters as the fields of the generated encoder's argument. */
  function ParamFields(p: SpawnParamsCommon): map<string, Value> {
    Zip(COMMON_FIELDS, ParamValues(p))
  }

  predicate InRange(o: Option<int>, lo: int, hi: int) {
    o.Some? ==> lo <= o.value < hi
  }

  predicate CapsFit(o: Option<set<nat>>) {
    o.Some? ==> o.value <= ALL_BITS
  }

  /** The parameters the Rust types can hold. */
  predicate ValidParams(p: SpawnParamsCommon) {
    && InRange(p.selinuxFlags, 0, TWO_64)
    && InRange(p.uid, -I32_MAX - 1, I32_MAX + 1) && InRange(p.gid, -I32_MAX - 1, I32_MAX + 1)
    && InRange(p.priorityInitial, -I32_MAX - 1, I32_MAX + 1) && InRange(p.priorityFinal, -I32_MAX - 1, I32_MAX + 1)
    && CapsFit(p.capEffective) && CapsFit(p.capPermitted) && CapsFit(p.capInheritable) && CapsFit(p.capBound)
    && Fits(p) && forall g | g in p.secondaryGroups :: 0 <= g < 0x1_0000_0000
  }

  function OnlyIf(o: Option<int>, lo: int, hi: int): Option<int> {
    if o.Some? && lo <= o.value < hi then o else None
  }

  function KnownCaps(o: Option<set<nat>>): Option<set<nat>> {
    if o.Some? && o.value != ALL_BITS then Some(o.value * KNOWN_CAPS) else None
  }

  /** What the receiver sees: an absent flag word, flag or string arrives as zero, false or
      empty, and an identifier or priority outside its valid range arrives as absent. */
  function NormalParams(p: SpawnParamsCommon): SpawnParamsCommon {
    p.(selinuxFlags := OrElse(p.selinuxFlags, Some(0)),
       noNewPrivs := OrElse(p.noNewPrivs, Some(false)),
       uid := OnlyIf(p.uid, 1, I32_MAX + 1),
       gid := OnlyIf(p.gid, 1, I32_MAX + 1),
       processName := OrElse(p.processName, Some("")),
       priorityInitial := OnlyIf(p.priorityInitial, -20, 20),
       priorityFinal := OnlyIf(p.priorityFinal, -20, 20),
       capEffective := KnownCaps(p.capEffective),
       capPermitted := KnownCaps(p.capPermitted),
       capInheritable := KnownCaps(p.capInheritable),
       capBound := KnownCaps(p.capBound),
       seInfo := OrElse(p.seInfo, Some("")))
  }

  /** Values `vals` of leaf fields `fs` are typed and normalise to `normal`. */
  ghost predicate NormalTo(fs: seq<FieldDecl>, vals: seq<Value>, normal: seq<Value>) {
    |fs| == |vals| == |normal| && forall i | 0 <= i < |fs| :: NormalOne(fs[i], vals[i], normal[i])
  }

  ghost predicate NormalOne(f: FieldDecl, v: Value, normal: Value) {
    f.ty.Leaf? && f.ty.valid(v) && LeafNorm(f, v) == normal
  }

  lemma IdsNormal(p: SpawnParamsCommon)
    requires ValidParams(p)
    ensures NormalTo(ID_FIELDS, IdValues(p), IdValues(NormalParams(p)))
  {
    var n := NormalParams(p);
    DefaultedNorm("selinux_flags", IsU64, Num(0), IsU64, NumValue(p.selinuxFlags));
    DefaultedNorm("no_new_privs", IsFlag, Flag(false), IsFlag, FlagValue(p.noNewPrivs));
    DefaultedNorm("uid", IsI32, Num(-1), IsId, NumValue(p.uid));
    DefaultedNorm("gid", IsI32, Num(-1), IsId, NumValue(p.gid));
    assert NormalOne(SELINUX_FLAGS, NumValue(p.selinuxFlags), NumValue(n.selinuxFlags));
    assert NormalOne(NO_NEW_PRIVS, FlagValue(p.noNewPrivs), FlagValue(n.noNewPrivs));
    assert NormalOne(IdField("uid"), NumValue(p.uid), NumValue(n.uid));
    assert NormalOne(IdField("gid"), NumValue(p.gid), NumValue(n.gid));
  }

  lemma NamesNormal(p: SpawnParamsCommon)
    requires ValidParams(p)
    ensures NormalTo(NAME_FIELDS, NameValues(p), NameValues(NormalParams(p)))
  {
    var n := NormalParams(p);
    StringNorm("process_name", TextValue(p.processName));
    DefaultedNorm("priority_initial", IsI32, Num(I32_MAX), IsPriority, NumValue(p.priorityInitial));
    DefaultedNorm("priority_final", IsI32, Num(I32_MAX), IsPriority, NumValue(p.priorityFinal));
    assert NormalOne(StringField("process_name"), TextValue(p.processName), TextValue(n.processName));
    assert NormalOne(PriorityField("priority_initial"), NumValue(p.priorityInitial), NumValue(n.priorityInitial));
    assert NormalOne(PriorityField("priority_final"), NumValue(p.priorityFinal), NumValue(n.priorityFinal));
  }

  lemma CapNormal(name: string, o: Option<set<nat>>)
    requires CapsFit(o)
    ensures NormalOne(CapsField(name), CapsValue(o), CapsValue(KnownCaps(o)))
  {
    CapsNorm(name, CapsValue(o));
  }

  lemma CapsNormalAll(p: SpawnParamsCommon)
    requires ValidParams(p)
    ensures NormalTo(CAP_FIELDS, CapValues(p), CapValues(NormalParams(p)))
  {
    CapNormal("cap_effective", p.capEffective);
    CapNormal("cap_permitted", p.capPermitted);
    CapNormal("cap_inheritable", p.capInheritable);
    CapNormal("cap_bound", p.capBound);
  }

  lemma TailNormal(p: SpawnParamsCommon)
    requires ValidParams(p)
    ensures NormalTo(TAIL_FIELDS, TailValues(p), TailValues(NormalParams(p)))
  {
    StringNorm("se_info", TextValue(p.seInfo));
    VectorNorm("secondary_groups", GID_VECTOR_SIZE, IsU32, GroupsValue(p.secondaryGroups));
    VectorNorm("rlimits", RLIMIT_VECTOR_SIZE, IsLimit, LimitsValue(p.rlimits));
    assert NormalOne(StringField("se_info"), TextValue(p.seInfo), TextValue(NormalParams(p).seInfo));
    forall e | e in GroupsValue(p.secondaryGroups).elems ensures IsU32(e) {
      var i :| 0 <= i < |p.secondaryGroups| && Num(p.secondaryGroups[i]) == e;
      assert p.secondaryGroups[i] in p.secondaryGroups;
    }
    assert NormalOne(VectorField("secondary_groups", GID_VECTOR_SIZE, IsU32), GroupsValue(p.secondaryGroups),
                     GroupsValue(p.secondaryGroups));
    assert NormalOne(VectorField("rlimits", RLIMIT_VECTOR_SIZE, IsLimit), LimitsValue(p.rlimits), LimitsValue(p.rlimits));
  }

  lemma JoinNormal(fs: seq<FieldDecl>, a: seq<Value>, na: seq<Value>, gs: seq<FieldDecl>, b: seq<Value>, nb: seq<Value>)
    requires NormalTo(fs, a, na) && NormalTo(gs, b, nb)
    ensures NormalTo(fs + gs, a + b, na + nb)
  {
  }

  lemma ParamsNormal(p: SpawnParamsCommon)
    requires ValidParams(p)
    ensures NormalTo(COMMON_FIELDS, ParamValues(p), ParamValues(NormalParams(p)))
  {
    var n := NormalParams(p);
    IdsNormal(p);
    NamesNormal(p);
    CapsNormalAll(p);
    TailNormal(p);
    JoinNormal(ID_FIELDS, IdValues(p), IdValues(n), NAME_FIELDS, NameValues(p), NameValues(n));
    JoinNormal(ID_FIELDS + NAME_FIELDS, IdValues(p) + NameValues(p), IdValues(n) + NameValues(n), CAP_FIELDS,
               CapValues(p), CapValues(n));
    JoinNormal(ID_FIELDS + NAME_FIELDS + CAP_FIELDS, IdValues(p) + NameValues(p) + CapValues(p),
               IdValues(n) + NameValues(n) + CapValues(n),
               TAIL_FIELDS, TailValues(p), TailValues(n));
  }

  lemma LeavesNormalise(fs: seq<FieldDecl>, vals: seq<Value>, normal: seq<Value>)
    requires DistinctNames(fs) && NormalTo(fs, vals, normal)
    ensures FieldsTyped(fs, Zip(fs, vals)) && NormFields(fs, Zip(fs, vals)) == Zip(fs, normal)
  {
    ZipLookup(fs, vals);
    forall i | 0 <= i < |fs| ensures HasType(fs[i].ty, vals[i]) && NormField(fs[i], vals[i]) == normal[i] {
      assert NormalOne(fs[i], vals[i], normal[i]);
    }
    ZipTyped(fs, vals, Zip(fs, vals));
    ZipNorm(fs, vals, normal, Zip(fs, vals));
  }

  /** The spawn parameters that arrive are the normal form of those that were sent. */
  lemma ParamsRoundTrip(p: SpawnParamsCommon)
    requires ValidParams(p)
    ensures DecodeFields(COMMON_FIELDS, EncodeFields(COMMON_FIELDS, ParamFields(p), map[]))
         == Ok(ParamFields(NormalParams(p)))
  {
    CommonOk();
    CommonNames();
    ParamsNormal(p);
    LeavesNormalise(COMMON_FIELDS, ParamValues(p), ParamValues(NormalParams(p)));
    NamesWritten(COMMON_FIELDS, ParamFields(p), "SpawnCommon", map[]);
    FieldsRoundTrip(COMMON_FIELDS, ParamFields(p), "SpawnCommon", map[], EncodeFields(COMMON_FIELDS, ParamFields(p), map[]));
  }

  // ---- SpawnPayload ----

  const ANDROID_NATIVE_FIELDS: seq<FieldDecl> := [
    BytesField("preloading_cmd"),
    TextField("package"),
    NumField("start_seq", -0x8000_0000_0000_0000, 0x8000_0000_0000_0000),
    NumField("target_sdk_version", -I32_MAX - 1, I32_MAX + 1),
    NumField("runtime_flags", 0, 0x1_0000_0000),
    PlainField("top_app", IsFlag)]

  const VERSION_FIELDS: seq<FieldDecl> := [
    NumField("target_sdk_version", -I32_MAX - 1, I32_MAX + 1),
    NumField("runtime_flags", 0, 0x1_0000_0000),
    TextField("library_path"),
    TextField("library_dirs")]
  const PATH_FIELDS: seq<FieldDecl> := [
    TextField("permitted_library_paths"),
    PlainField("shared", IsFlag),
    TextField("zip_path"),
    TextField("native_shared_lib_path")]
  const PRELOAD_FIELDS: seq<FieldDecl> := [
    OptTextField("preload_func"),
    NumField("uid_gid_min", 0, 0x1_0000_0000),
    NumField("uid_gid_max", 0, 0x1_0000_0000)]

  const SUBSPECIES_FIELDS: seq<FieldDecl> := VERSION_FIELDS + PATH_FIELDS + PRELOAD_FIELDS

  const LIB_APP_FIELDS: seq<FieldDecl> := [TextField("path"), VectorField("args", MESSAGE_ARG_BUFFER_MAX, IsText)]

  const MOCK_FIELDS: seq<FieldDecl> := [TextField("name")]

  const ANDROID_NATIVE: VariantDecl := VariantDecl("AndroidNative", "SpawnAndroidNative", ANDROID_NATIVE_FIELDS)
  const ANDROID_NATIVE_SUBSPECIES: VariantDecl :=
    VariantDecl("AndroidNativeSubspecies", "SpawnSubspeciesAndroidNative", SUBSPECIES_FIELDS)
  const LIB_APP: VariantDecl := VariantDecl("LibApp", "SpawnLibApp", LIB_APP_FIELDS)
  const MOCK: VariantDecl := VariantDecl("Mock", "SpawnMock", MOCK_FIELDS)

  const PAYLOADS: seq<VariantDecl> := [ANDROID_NATIVE] + [ANDROID_NATIVE_SUBSPECIES] + [LIB_APP] + [MOCK]

  const SPAWN_PAYLOAD: EnumDecl := EnumDecl("SpawnPayload", [("Spawn", "payload"), ("SpawnSubspecies", "payload")], PAYLOADS)

  lemma AndroidNativeOk()
    ensures TableOk(ANDROID_NATIVE_FIELDS, "SpawnAndroidNative")
  {
    BytesOk("preloading_cmd");
    TextOk("package");
    PlainOk("start_seq", v => IsNum(v, -0x8000_0000_0000_0000, 0x8000_0000_0000_0000));
    NumFieldsOk();
    PlainOk("top_app", IsFlag);
    LeafTableOk(ANDROID_NATIVE_FIELDS, "SpawnAndroidNative");
  }

  lemma NumFieldsOk()
    ensures forall name, lo, hi :: LeafOk(NumField(name, lo, hi))
    ensures forall name :: LeafOk(TextField(name))
  {
  }

  lemma SubspeciesOk()
    ensures TableOk(SUBSPECIES_FIELDS, "SpawnSubspeciesAndroidNative")
  {
    NumFieldsOk();
    PlainOk("shared", IsFlag);
    OptTextOk("preload_func");
    FourOk(VERSION_FIELDS[0], VERSION_FIELDS[1], VERSION_FIELDS[2], VERSION_FIELDS[3]);
    FourOk(PATH_FIELDS[0], PATH_FIELDS[1], PATH_FIELDS[2], PATH_FIELDS[3]);
    ThreeOk(PRELOAD_FIELDS[0], PRELOAD_FIELDS[1], PRELOAD_FIELDS[2]);
    JoinOk(VERSION_FIELDS, PATH_FIELDS);
    JoinOk(VERSION_FIELDS + PATH_FIELDS, PRELOAD_FIELDS);
    SubspeciesNames();
    LeafTableOk(SUBSPECIES_FIELDS, "SpawnSubspeciesAndroidNative");
  }

  lemma SubspeciesNames()
    ensures DistinctNames(SUBSPECIES_FIELDS)
  {
  }

  lemma LibAppOk()
    ensures TableOk(LIB_APP_FIELDS, "SpawnLibApp")
  {
    TextOk("path");
    VectorOk("args", MESSAGE_ARG_BUFFER_MAX, IsText);
    TwoOk(TextField("path"), VectorField("args", MESSAGE_ARG_BUFFER_MAX, IsText));
    LeafTableOk(LIB_APP_FIELDS, "SpawnLibApp");
  }

  lemma MockOk()
    ensures TableOk(MOCK_FIELDS, "SpawnMock")
  {
  }

  lemma PayloadsDistinct()
    ensures DistinctVariants(PAYLOADS)
  {
  }

  lemma SpawnPayloadOk()
    ensures EnumOk(SPAWN_PAYLOAD)
  {
    AndroidNativeOk();
    SubspeciesOk();
    LibAppOk();
    MockOk();
    MoreVariants([], ANDROID_NATIVE);
    MoreVariants([ANDROID_NATIVE], ANDROID_NATIVE_SUBSPECIES);
    MoreVariants([ANDROID_NATIVE] + [ANDROID_NATIVE_SUBSPECIES], LIB_APP);
    MoreVariants([ANDROID_NATIVE] + [ANDROID_NATIVE_SUBSPECIES] + [LIB_APP], MOCK);
    PayloadsDistinct();
    VariantsMakeEnum("SpawnPayload", [("Spawn", "payload"), ("SpawnSubspecies", "payload")], PAYLOADS);
  }

  // ---- Message ----

  const COMMON_FIELD: FieldDecl := FieldDecl("common", StructType(COMMON), [TableAttribute])

  function PayloadField(table: string): FieldDecl {
    FieldDecl("payload", EnumType(SPAWN_PAYLOAD), [UnionAttribute(table)])
  }

  const SPAWN_FIELDS: seq<FieldDecl> := [COMMON_FIELD, PayloadField("Spawn")]

  const SPAWN_SUBSPECIES_FIELDS: seq<FieldDecl> := [COMMON_FIELD, TextField("socket_path"), PayloadField("SpawnSubspecies")]

  function CountField(name: string): FieldDecl {
    NumField(name, 0, TWO_64)
  }

  const STAT_IDS: seq<FieldDecl> := [
    NumField("pid", 0, 0x1_0000_0000), NumField("pgrp", 0, 0x1_0000_0000), CountField("minflt"), CountField("cminflt")]
  const STAT_TIMES: seq<FieldDecl> := [CountField("majflt"), CountField("cmajflt"), CountField("utime"), CountField("stime")]
  const STAT_SIZES: seq<FieldDecl> := [CountField("num_threads"), CountField("vsize"), CountField("rss")]

  const STAT_FIELDS: seq<FieldDecl> := STAT_IDS + STAT_TIMES + STAT_SIZES

  const IDENTITY_FIELDS: seq<FieldDecl> := [TextField("name"), TextField("species"), TextField("arch")]

  const PID_FIELDS: seq<FieldDecl> := [NumField("pid", -I32_MAX - 1, I32_MAX + 1)]

  const ACK: VariantDecl := VariantDecl("AckResponse", "Ack", [])
  const EXIT: VariantDecl := VariantDecl("Exit", "Exit", [])
  const IDENTITY_QUERY: VariantDecl := VariantDecl("IdentityQuery", "IdentityQuery", [])
  const IDENTITY_QUERY_RESPONSE: VariantDecl :=
    VariantDecl("IdentityQueryResponse", "IdentityQueryResponse", IDENTITY_FIELDS)
  const SPAWN: VariantDecl := VariantDecl("Spawn", "Spawn", SPAWN_FIELDS)
  const SPAWN_SUBSPECIES: VariantDecl := VariantDecl("SpawnSubspecies", "SpawnSubspecies", SPAWN_SUBSPECIES_FIELDS)
  const SPAWN_RESPONSE: VariantDecl := VariantDecl("SpawnResponse", "SpawnResponse", PID_FIELDS)
  const STAT: VariantDecl := VariantDecl("Stat", "Stat", [])
  const STAT_RESPONSE: VariantDecl := VariantDecl("StatResponse", "StatResponse", STAT_FIELDS)

  const REQUESTS: seq<VariantDecl> := [ACK] + [EXIT] + [IDENTITY_QUERY] + [IDENTITY_QUERY_RESPONSE]
  const SPAWNS: seq<VariantDecl> := REQUESTS + [SPAWN] + [SPAWN_SUBSPECIES]
  const VARIANTS: seq<VariantDecl> := SPAWNS + [SPAWN_RESPONSE] + [STAT] + [STAT_RESPONSE]

  const MESSAGE: EnumDecl := EnumDecl("Message", [], VARIANTS)

  lemma PayloadFieldOk(table: string)
    requires table == "Spawn" || table == "SpawnSubspecies"
    ensures FieldOk(PayloadField(table), table)
    ensures FieldNames(PayloadField(table)) == [TypeField("payload"), "payload"]
  {
    SpawnPayloadOk();
    assert SourceField(SPAWN_PAYLOAD.sources[1..], "SpawnSubspecies") == Some("payload");
  }

  lemma CommonFieldOk(table: string)
    ensures FieldOk(COMMON_FIELD, table) && FieldNames(COMMON_FIELD) == ["common"]
  {
    CommonOk();
  }

  lemma SpawnOk()
    ensures TableOk(SPAWN_FIELDS, "Spawn")
  {
    CommonFieldOk("Spawn");
    PayloadFieldOk("Spawn");
    assert |TypeField("payload")| == 12;
    TwoFieldsOk(COMMON_FIELD, PayloadField("Spawn"), "Spawn");
  }

  lemma SocketPathOk()
    ensures FieldOk(TextField("socket_path"), "SpawnSubspecies") && FieldNames(TextField("socket_path")) == ["socket_path"]
  {
    TextOk("socket_path");
  }

  lemma SocketAndPayloadOk()
    ensures TableOk([TextField("socket_path"), PayloadField("SpawnSubspecies")], "SpawnSubspecies")
    ensures AllNames([TextField("socket_path"), PayloadField("SpawnSubspecies")])
         == ["socket_path", TypeField("payload"), "payload"]
  {
    SocketPathOk();
    PayloadFieldOk("SpawnSubspecies");
    assert |TypeField("payload")| == 12;
    TwoFieldsOk(TextField("socket_path"), PayloadField("SpawnSubspecies"), "SpawnSubspecies");
  }

  lemma SpawnSubspeciesNames()
    ensures Distinct(["common"] + ["socket_path", TypeField("payload"), "payload"])
  {
  }

  lemma SpawnSubspeciesOk()
    ensures TableOk(SPAWN_SUBSPECIES_FIELDS, "SpawnSubspecies")
  {
    SocketAndPayloadOk();
    CommonFieldOk("SpawnSubspecies");
    SpawnSubspeciesNames();
    ThreeFieldsOk(COMMON_FIELD, TextField("socket_path"), PayloadField("SpawnSubspecies"), "SpawnSubspecies");
  }

  lemma IdentityOk()
    ensures TableOk(IDENTITY_FIELDS, "IdentityQueryResponse")
  {
    TextOk("name");
    TextOk("species");
    TextOk("arch");
    ThreeOk(TextField("name"), TextField("species"), TextField("arch"));
    LeafTableOk(IDENTITY_FIELDS, "IdentityQueryResponse");
  }

  lemma PidOk()
    ensures TableOk(PID_FIELDS, "SpawnResponse")
  {
  }

  lemma StatOk()
    ensures TableOk(STAT_FIELDS, "StatResponse")
  {
    NumFieldsOk();
    FourOk(STAT_IDS[0], STAT_IDS[1], STAT_IDS[2], STAT_IDS[3]);
    FourOk(STAT_TIMES[0], STAT_TIMES[1], STAT_TIMES[2], STAT_TIMES[3]);
    ThreeOk(STAT_SIZES[0], STAT_SIZES[1], STAT_SIZES[2]);
    JoinOk(STAT_IDS, STAT_TIMES);
    JoinOk(STAT_IDS + STAT_TIMES, STAT_SIZES);
    StatNames();
    LeafTableOk(STAT_FIELDS, "StatResponse");
  }

  lemma StatNames()
    ensures DistinctNames(STAT_FIELDS)
  {
  }

  lemma UnitsOk()
    ensures VariantsOk([ACK] + [EXIT] + [IDENTITY_QUERY]) && TableOk(STAT.fields, STAT.innerName)
  {
  }

  predicate Apart(vs: seq<VariantDecl>, v: VariantDecl) {
    forall i | 0 <= i < |vs| :: vs[i].name != v.name && vs[i].innerName != v.innerName
  }

  lemma DistinctMore(vs: seq<VariantDecl>, v: VariantDecl)
    requires DistinctVariants(vs) && Apart(vs, v)
    ensures DistinctVariants(vs + [v])
  {
  }

  lemma ApartMore(vs: seq<VariantDecl>, w: VariantDecl, v: VariantDecl)
    requires Apart(vs, v) && Apart([w], v)
    ensures Apart(vs + [w], v)
  {
  }

  lemma SpawnsDistinct()
    ensures DistinctVariants(SPAWNS)
  {
  }

  lemma SpawnsApart()
    ensures Apart(SPAWNS, SPAWN_RESPONSE) && Apart(SPAWNS, STAT) && Apart(SPAWNS, STAT_RESPONSE)
  {
  }

  lemma LaterApart()
    ensures Apart([SPAWN_RESPONSE], STAT) && Apart([SPAWN_RESPONSE], STAT_RESPONSE) && Apart([STAT], STAT_RESPONSE)
  {
  }

  lemma VariantsDistinct()
    ensures DistinctVariants(VARIANTS)
  {
    SpawnsDistinct();
    SpawnsApart();
    LaterApart();
    DistinctMore(SPAWNS, SPAWN_RESPONSE);
    ApartMore(SPAWNS, SPAWN_RESPONSE, STAT);
    DistinctMore(SPAWNS + [SPAWN_RESPONSE], STAT);
    ApartMore(SPAWNS, SPAWN_RESPONSE, STAT_RESPONSE);
    ApartMore(SPAWNS + [SPAWN_RESPONSE], STAT, STAT_RESPONSE);
    DistinctMore(SPAWNS + [SPAWN_RESPONSE] + [STAT], STAT_RESPONSE);
  }

  lemma SpawnVariantsOk()
    ensures VariantsOk(SPAWNS)
  {
    UnitsOk();
    IdentityOk();
    SpawnOk();
    SpawnSubspeciesOk();
    MoreVariants([ACK] + [EXIT] + [IDENTITY_QUERY], IDENTITY_QUERY_RESPONSE);
    MoreVariants(REQUESTS, SPAWN);
    MoreVariants(REQUESTS + [SPAWN], SPAWN_SUBSPECIES);
  }

  /** The protocol's own declarations satisfy everything the round trip needs. */
  lemma MessageOk()
    ensures EnumOk(MESSAGE)
  {
    SpawnVariantsOk();
    PidOk();
    UnitsOk();
    StatOk();
    MoreVariants(SPAWNS, SPAWN_RESPONSE);
    MoreVariants(SPAWNS + [SPAWN_RESPONSE], STAT);
    MoreVariants(SPAWNS + [SPAWN_RESPONSE] + [STAT], STAT_RESPONSE);
    VariantsDistinct();
    VariantsMakeEnum("Message", [], VARIANTS);
  }
}
