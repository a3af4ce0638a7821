/** What a server makes of the bytes one recvmsg hands over, and the parcels that abort it. */
module Packets {
  import opened Results
  import opened Parcel
  import opened SpawnParams
  import opened Messages
  import opened Schema
  import opened Wire
  import opened Arrivals
  import opened ServerSocket

  /** The union variant of a spawn payload. */
  type PayloadKind = string

  datatype Request =
    | Exit
    | IdentityQuery
    | Spawn(common: SpawnParamsCommon, payload: PayloadKind)
    | SpawnSubspecies(common: SpawnParamsCommon, socket: SocketArg, payload: PayloadKind)
    | Stat
    | Other

  /** One datagram: end of stream, or a buffer read as a table. */
  datatype Datagram = EndOfStream | Buffer(parcel: Table)

  /** End of stream, bytes that do not decode, bytes whose decoding aborts, or a message. */
  datatype Packet = Empty | Garbage | Fatal | Parcel(request: Request)

  // ---- Requests as values ----

  function NumOf(v: Value): Option<int> {
    if v.Opt? && v.o.Some? && v.o.value.Num? then Some(v.o.value.n) else None
  }

  function FlagOf(v: Value): Option<bool> {
    if v.Opt? && v.o.Some? && v.o.value.Flag? then Some(v.o.value.b) else None
  }

  function StringOf(v: Value): Option<string> {
    if v.Opt? && v.o.Some? && v.o.value.Text? then Some(v.o.value.s) else None
  }

  function CapsOf(v: Value): Option<set<nat>> {
    if v.Opt? && v.o.Some? && v.o.value.Caps? then Some(v.o.value.bits) else None
  }

  function GroupOf(v: Value): int {
    if v.Num? then v.n else 0
  }

  function LimitOf(v: Value): RLimitData {
    if v.Limit? then RLimitData(v.resource, v.hard, v.soft) else RLimitData(0, 0, 0)
  }

  function ElementsOf<T>(v: Value, f: Value -> T): (r: seq<T>)
    ensures v.List? ==> |r| == |v.elems| && forall i | 0 <= i < |r| :: r[i] == f(v.elems[i])
  {
    if v.List? then seq(|v.elems|, i requires 0 <= i < |v.elems| => f(v.elems[i])) else []
  }

  /** The decoded struct behind the fields of a message. */
  function ParamsOf(m: map<string, Value>): SpawnParamsCommon {
    SpawnParamsCommon(
      NumOf(FieldOf(m, "selinux_flags")), FlagOf(FieldOf(m, "no_new_privs")),
      NumOf(FieldOf(m, "uid")), NumOf(FieldOf(m, "gid")),
      StringOf(FieldOf(m, "process_name")),
      NumOf(FieldOf(m, "priority_initial")), NumOf(FieldOf(m, "priority_final")),
      CapsOf(FieldOf(m, "cap_effective")), CapsOf(FieldOf(m, "cap_permitted")),
      CapsOf(FieldOf(m, "cap_inheritable")), CapsOf(FieldOf(m, "cap_bound")),
      StringOf(FieldOf(m, "se_info")),
      ElementsOf(FieldOf(m, "secondary_groups"), GroupOf), ElementsOf(FieldOf(m, "rlimits"), LimitOf))
  }

  function CommonOf(fields: map<string, Value>): SpawnParamsCommon {
    var common := FieldOf(fields, "common");
    if common.Record? then ParamsOf(common.fields) else EMPTY
  }

  function KindOf(fields: map<string, Value>): PayloadKind {
    var payload := FieldOf(fields, "payload");
    if payload.Variant? then payload.name else ""
  }

  function PathOf(fields: map<string, Value>): string {
    var path := FieldOf(fields, "socket_path");
    if path.Text? then path.s else ""
  }

  function RequestOf(v: Value): Request {
    if !v.Variant? then Other
    else if v.name == "Exit" then Exit
    else if v.name == "IdentityQuery" then IdentityQuery
    else if v.name == "Spawn" then Spawn(CommonOf(v.fields), KindOf(v.fields))
    else if v.name == "SpawnSubspecies"
    then SpawnSubspecies(CommonOf(v.fields), SocketArgOf(PathOf(v.fields)), KindOf(v.fields))
    else if v.name == "Stat" then Stat
    else Other
  }

  function PacketOf(d: Datagram): Packet {
    match d
    case EndOfStream => Empty
    case Buffer(parcel) =>
      match TryFromParcel(MESSAGE_MEMBERS, MESSAGE, parcel)
      case Ok(v) => Parcel(RequestOf(v))
      case Err(_) => Garbage
      case Panic => Fatal
  }

  // ---- Decoding fields one by one ----

  ghost predicate AllFit(fs: seq<FieldDecl>, t: Table) {
    forall f | f in fs :: LeafFits(f, CellOf(t, f.name))
  }

  ghost predicate ReadAsLeaf(f: FieldDecl) {
    var u := ChooseUnmarshal(f.attrs);
    u.URange? || u.UMap? || u.UPlain?
  }

  ghost predicate ReadAsLeaves(fs: seq<FieldDecl>) {
    forall f | f in fs :: ReadAsLeaf(f)
  }

  lemma LeavesAreRead(fs: seq<FieldDecl>)
    requires LeavesOk(fs)
    ensures ReadAsLeaves(fs)
  {
    forall f | f in fs ensures ReadAsLeaf(f) {
      assert LeafOk(f);
    }
  }

  lemma LeafDecodes(f: FieldDecl, t: Table)
    requires ReadAsLeaf(f)
    ensures DecodeField(f, t) == if LeafFits(f, CellOf(t, f.name)) then Ok(LeafValue(f, CellOf(t, f.name))) else Panic
  {
  }

  /** A table of leaves is never refused; decoding it aborts exactly when a cell does not fit. */
  lemma {:induction false} LeavesDecode(fs: seq<FieldDecl>, t: Table)
    requires ReadAsLeaves(fs)
    ensures AllFit(fs, t) ==> DecodeFields(fs, t).Ok?
    ensures !AllFit(fs, t) ==> DecodeFields(fs, t).Panic?
    decreases |fs|
  {
    if |fs| > 0 {
      assert fs[0] in fs && forall f | f in fs[1..] :: f in fs;
      LeafDecodes(fs[0], t);
      FitJoined([fs[0]], fs[1..], t);
      assert fs == [fs[0]] + fs[1..];
      LeavesDecode(fs[1..], t);
    }
  }

  lemma DecodedHead(fs: seq<FieldDecl>, t: Table)
    requires |fs| > 0 && ReadAsLeaf(fs[0]) && DecodeFields(fs, t).Ok?
    ensures DecodeFields(fs[1..], t).Ok?
    ensures DecodeFields(fs, t).value
            == map[fs[0].name := LeafValue(fs[0], CellOf(t, fs[0].name))] + DecodeFields(fs[1..], t).value
  {
    LeafDecodes(fs[0], t);
  }

  lemma LaterLeaves(fs: seq<FieldDecl>)
    requires |fs| > 0 && ReadAsLeaves(fs) && DistinctNames(fs)
    ensures ReadAsLeaf(fs[0]) && ReadAsLeaves(fs[1..]) && DistinctNames(fs[1..])
  {
    assert fs[0] in fs && forall f | f in fs[1..] :: f in fs;
  }

  /** What is decoded is decoded cell by cell. */
  lemma {:induction false} DecodedLeaf(fs: seq<FieldDecl>, t: Table, i: nat)
    requires ReadAsLeaves(fs) && DistinctNames(fs) && i < |fs| && DecodeFields(fs, t).Ok?
    ensures FieldOf(DecodeFields(fs, t).value, fs[i].name) == LeafValue(fs[i], CellOf(t, fs[i].name))
    decreases |fs|
  {
    LaterLeaves(fs);
    DecodedHead(fs, t);
    if i == 0 {
      FirstNameOnly(fs, t);
    } else {
      DecodedLeaf(fs[1..], t, i - 1);
      LaterName(fs, t, i);
    }
  }

  lemma LaterName(fs: seq<FieldDecl>, t: Table, i: nat)
    requires 0 < i < |fs| && DecodeFields(fs[1..], t).Ok?
    ensures fs[1..][i - 1] == fs[i] && fs[i].name in DecodeFields(fs[1..], t).value
  {
    DecodedNames(fs[1..], t);
    assert fs[1..][i - 1] in fs[1..];
  }

  lemma FirstNameOnly(fs: seq<FieldDecl>, t: Table)
    requires |fs| > 0 && DistinctNames(fs) && DecodeFields(fs[1..], t).Ok?
    ensures fs[0].name !in DecodeFields(fs[1..], t).value
  {
    DecodedNames(fs[1..], t);
    forall f | f in fs[1..] ensures f.name != fs[0].name {
      var j :| 0 <= j < |fs[1..]| && fs[1..][j] == f;
      assert fs[j + 1] == f;
    }
  }

  lemma {:induction false} DecodedNames(fs: seq<FieldDecl>, t: Table)
    requires DecodeFields(fs, t).Ok?
    ensures forall n | n in DecodeFields(fs, t).value :: exists f :: f in fs && f.name == n
    ensures forall f | f in fs :: f.name in DecodeFields(fs, t).value
    decreases |fs|
  {
    if |fs| > 0 {
      NamesFollow(fs, t);
      DecodedNames(fs[1..], t);
      assert fs == [fs[0]] + fs[1..];
      forall n | n in DecodeFields(fs, t).value ensures exists f :: f in fs && f.name == n {
        var f :| f in [fs[0]] + fs[1..] && f.name == n;
      }
    }
  }

  lemma NamesFollow(fs: seq<FieldDecl>, t: Table)
    requires |fs| > 0 && DecodeFields(fs, t).Ok?
    ensures DecodeFields(fs[1..], t).Ok?
    ensures DecodeFields(fs, t).value.Keys == {fs[0].name} + DecodeFields(fs[1..], t).value.Keys
  {
  }

  lemma FitJoined(a: seq<FieldDecl>, b: seq<FieldDecl>, t: Table)
    ensures AllFit(a + b, t) <==> AllFit(a, t) && AllFit(b, t)
  {
    assert forall f :: f in a + b <==> f in a || f in b;
  }

  // ---- The parcels that abort a server ----

  /** A vector of the common parameters is longer than what it is collected into. */
  predicate CommonOverlong(common: Table) {
    || !WithinCapacity(CellOf(common, "secondary_groups"), GID_VECTOR_SIZE)
    || !WithinCapacity(CellOf(common, "rlimits"), RLIMIT_VECTOR_SIZE)
  }

  /** So are the arguments of a library application. */
  predicate PayloadOverlong(spawn: Table) {
    var c := CellOf(spawn, "payload");
    && CellOf(spawn, TypeField("payload")) == Tag("SpawnLibApp")
    && c.Nested? && c.table.Some? && !WithinCapacity(CellOf(c.table.value, "args"), MESSAGE_ARG_BUFFER_MAX)
  }

  /** The common parameters are missing, or some vector is too long. */
  predicate SpawnAborts(spawn: Table) {
    var c := CellOf(spawn, "common");
    !c.Nested? || c.table.None? || CommonOverlong(c.table.value) || PayloadOverlong(spawn)
  }

  predicate Verified(parcel: Table) {
    FieldVerifies(WireField(MESSAGE_FIELD, UnionType(MESSAGE_MEMBERS), false), parcel)
  }

  predicate Aborts(parcel: Table) {
    var tag, c := CellOf(parcel, TypeField(MESSAGE_FIELD)), CellOf(parcel, MESSAGE_FIELD);
    && (tag == Tag("Spawn") || tag == Tag("SpawnSubspecies"))
    && c.Nested? && c.table.Some? && SpawnAborts(c.table.value)
  }

  lemma CommonFits(t: Table)
    ensures AllFit(COMMON_FIELDS, t) <==> !CommonOverlong(t)
  {
    FitJoined(ID_FIELDS + NAME_FIELDS + CAP_FIELDS, TAIL_FIELDS, t);
    FitJoined(ID_FIELDS + NAME_FIELDS, CAP_FIELDS, t);
    FitJoined(ID_FIELDS, NAME_FIELDS, t);
    OthersFit(t);
    TailFits(t);
  }

  lemma DefaultedFits(name: string, inner: Value -> bool, literal: Value, range: Value -> bool, c: Cell)
    ensures LeafFits(DefaultedField(name, inner, literal, range), c)
  {
    SecondDecides(DefaultedField(name, inner, literal, range).attrs);
  }

  lemma MappedFits(name: string, c: Cell)
    ensures LeafFits(StringField(name), c) && LeafFits(CapsField(name), c)
  {
    SecondDecides(StringField(name).attrs);
    SecondDecides(CapsField(name).attrs);
  }

  lemma OthersFit(t: Table)
    ensures AllFit(ID_FIELDS, t) && AllFit(NAME_FIELDS, t) && AllFit(CAP_FIELDS, t)
  {
    forall f | f in ID_FIELDS ensures LeafFits(f, CellOf(t, f.name)) { IdFits(f, CellOf(t, f.name)); }
    forall f | f in NAME_FIELDS ensures LeafFits(f, CellOf(t, f.name)) { NameFits(f, CellOf(t, f.name)); }
    forall f | f in CAP_FIELDS ensures LeafFits(f, CellOf(t, f.name)) { CapFits(f, CellOf(t, f.name)); }
  }

  lemma IdFits(f: FieldDecl, c: Cell)
    requires f in ID_FIELDS
    ensures LeafFits(f, c)
  {
    DefaultedFits("selinux_flags", IsU64, Num(0), IsU64, c);
    DefaultedFits("no_new_privs", IsFlag, Flag(false), IsFlag, c);
    DefaultedFits("uid", IsI32, Num(-1), IsId, c);
    DefaultedFits("gid", IsI32, Num(-1), IsId, c);
  }

  lemma NameFits(f: FieldDecl, c: Cell)
    requires f in NAME_FIELDS
    ensures LeafFits(f, c)
  {
    MappedFits("process_name", c);
    DefaultedFits("priority_initial", IsI32, Num(I32_MAX), IsPriority, c);
    DefaultedFits("priority_final", IsI32, Num(I32_MAX), IsPriority, c);
  }

  lemma CapFits(f: FieldDecl, c: Cell)
    requires f in CAP_FIELDS
    ensures LeafFits(f, c)
  {
    MappedFits("cap_effective", c);
    MappedFits("cap_permitted", c);
    MappedFits("cap_inheritable", c);
    MappedFits("cap_bound", c);
  }

  lemma VectorFits(name: string, capacity: nat, element: Value -> bool, c: Cell)
    ensures LeafFits(VectorField(name, capacity, element), c) <==> WithinCapacity(c, capacity)
    ensures LeafValue(VectorField(name, capacity, element), c) == RefOr(c, List([]))
  {
    SecondDecides(VectorField(name, capacity, element).attrs);
  }

  lemma TailFits(t: Table)
    ensures AllFit(TAIL_FIELDS, t) <==> !CommonOverlong(t)
  {
    VectorFits("secondary_groups", GID_VECTOR_SIZE, IsU32, CellOf(t, "secondary_groups"));
    VectorFits("rlimits", RLIMIT_VECTOR_SIZE, IsLimit, CellOf(t, "rlimits"));
    MappedFits("se_info", CellOf(t, "se_info"));
    assert TAIL_FIELDS[0] in TAIL_FIELDS && TAIL_FIELDS[1] in TAIL_FIELDS && TAIL_FIELDS[2] in TAIL_FIELDS;
  }

  lemma CommonDecodes(t: Table)
    ensures !CommonOverlong(t) ==> DecodeFields(COMMON_FIELDS, t).Ok?
    ensures CommonOverlong(t) ==> DecodeFields(COMMON_FIELDS, t).Panic?
  {
    CommonLeaves();
    LeavesDecode(COMMON_FIELDS, t);
    CommonFits(t);
  }

  lemma CommonLeaves()
    ensures ReadAsLeaves(COMMON_FIELDS)
  {
    IdFieldsOk();
    NameFieldsOk();
    CapFieldsOk();
    TailFieldsOk();
    JoinOk(ID_FIELDS, NAME_FIELDS);
    JoinOk(ID_FIELDS + NAME_FIELDS, CAP_FIELDS);
    JoinOk(ID_FIELDS + NAME_FIELDS + CAP_FIELDS, TAIL_FIELDS);
    LeavesAreRead(COMMON_FIELDS);
  }

  lemma UnionDecodes(d: EnumDecl, name: string, src: Table, tag: string, inner: Table)
    requires CellOf(src, TypeField(name)) == Tag(tag) && CellOf(src, name) == Nested(Some(inner))
    ensures var variant := ByInner(d.variants, tag);
            if variant.None? then DecodeUnion(d, name, src).Err?
            else
              && (DecodeUnion(d, name, src).Panic? <==> DecodeFields(variant.value.fields, inner).Panic?)
              && (DecodeUnion(d, name, src).Ok? <==> DecodeFields(variant.value.fields, inner).Ok?)
  {
  }

  /** A leaf that fits whatever its cell holds. */
  ghost predicate AlwaysFits(f: FieldDecl) {
    ReadAsLeaf(f) && forall c :: LeafFits(f, c)
  }

  ghost predicate AllAlwaysFit(fs: seq<FieldDecl>) {
    forall f | f in fs :: AlwaysFits(f)
  }

  lemma NeverAborts(fs: seq<FieldDecl>, t: Table)
    requires AllAlwaysFit(fs)
    ensures DecodeFields(fs, t).Ok?
  {
    assert forall f | f in fs :: AlwaysFits(f);
    LeavesDecode(fs, t);
  }

  lemma ScalarsFit()
    ensures forall name, lo, hi :: AlwaysFits(NumField(name, lo, hi))
    ensures forall name ::
        AlwaysFits(TextField(name)) && AlwaysFits(OptTextField(name)) && AlwaysFits(PlainField(name, IsFlag))
  {
  }

  lemma AppsDecode(t: Table)
    ensures DecodeFields(ANDROID_NATIVE_FIELDS, t).Ok? && DecodeFields(MOCK_FIELDS, t).Ok?
  {
    ScalarsFit();
    SecondDecides(BytesField("preloading_cmd").attrs);
    assert AlwaysFits(BytesField("preloading_cmd"));
    NeverAborts(ANDROID_NATIVE_FIELDS, t);
    NeverAborts(MOCK_FIELDS, t);
  }

  lemma SubspeciesDecodes(t: Table)
    ensures DecodeFields(SUBSPECIES_FIELDS, t).Ok?
  {
    ScalarsFit();
    NeverAborts(SUBSPECIES_FIELDS, t);
  }

  lemma LibAppDecodes(t: Table)
    ensures !DecodeFields(LIB_APP_FIELDS, t).Err?
    ensures DecodeFields(LIB_APP_FIELDS, t).Panic? <==> !WithinCapacity(CellOf(t, "args"), MESSAGE_ARG_BUFFER_MAX)
  {
    ScalarsFit();
    VectorFits("args", MESSAGE_ARG_BUFFER_MAX, IsText, CellOf(t, "args"));
    VectorOk("args", MESSAGE_ARG_BUFFER_MAX, IsText);
    assert LIB_APP_FIELDS[0] in LIB_APP_FIELDS && LIB_APP_FIELDS[1] in LIB_APP_FIELDS;
    assert AlwaysFits(LIB_APP_FIELDS[0]);
    LeavesDecode(LIB_APP_FIELDS, t);
  }

  lemma PayloadVariantDecodes(variant: VariantDecl, t: Table)
    requires variant in PAYLOADS
    ensures DecodeFields(variant.fields, t).Panic? <==>
              variant.innerName == "SpawnLibApp" && !WithinCapacity(CellOf(t, "args"), MESSAGE_ARG_BUFFER_MAX)
  {
    var i :| 0 <= i < |PAYLOADS| && PAYLOADS[i] == variant;
    PayloadAt(i);
    if i == LIB_APP_AT {
      LibAppDecodes(t);
    } else {
      AppsDecode(t);
      SubspeciesDecodes(t);
    }
  }

  const LIB_APP_AT: nat := 2

  lemma PayloadAt(i: nat)
    requires i < |PAYLOADS|
    ensures PAYLOADS[i].innerName == "SpawnLibApp" <==> i == LIB_APP_AT
    ensures var fs := PAYLOADS[i].fields;
            if i == LIB_APP_AT then fs == LIB_APP_FIELDS
            else fs == ANDROID_NATIVE_FIELDS || fs == SUBSPECIES_FIELDS || fs == MOCK_FIELDS
  {
    PayloadsDistinct();
    assert PAYLOADS[LIB_APP_AT] == LIB_APP;
  }

  lemma PayloadDecodes(t: Table)
    requires FieldVerifies(PAYLOAD_WIRE, t)
    ensures DecodeUnion(SPAWN_PAYLOAD, "payload", t).Panic? <==> PayloadOverlong(t)
  {
    var tag, inner := CellOf(t, TypeField("payload")).tag, CellOf(t, "payload").table.value;
    UnionDecodes(SPAWN_PAYLOAD, "payload", t, tag, inner);
    var variant := ByInner(PAYLOADS, tag);
    if variant.Some? { PayloadVariantDecodes(variant.value, inner); }
    SpawnPayloadOk();
    TagFindsVariant(SPAWN_PAYLOAD, LIB_APP);
  }

  lemma CommonFieldDecodes(t: Table)
    requires FieldVerifies(COMMON_WIRE, t)
    ensures var c := CellOf(t, "common");
            && !DecodeField(COMMON_FIELD, t).Err?
            && (DecodeField(COMMON_FIELD, t).Panic? <==> !c.Nested? || c.table.None? || CommonOverlong(c.table.value))
  {
    var c := CellOf(t, "common");
    if c.Nested? && c.table.Some? { CommonDecodes(c.table.value); }
  }

  lemma PayloadFieldDecodes(table: string, t: Table)
    requires table == "Spawn" || table == "SpawnSubspecies"
    ensures DecodeField(PayloadField(table), t) == DecodeUnion(SPAWN_PAYLOAD, "payload", t)
  {
    assert SourceField(SPAWN_PAYLOAD.sources[1..], "SpawnSubspecies") == Some("payload");
  }

  lemma TwoDecode(f: FieldDecl, g: FieldDecl, t: Table)
    ensures DecodeFields([f, g], t).Panic?
         <==> DecodeField(f, t).Panic? || (DecodeField(f, t).Ok? && DecodeField(g, t).Panic?)
  {
    assert [f, g][1..] == [g] && [g][1..] == [];
    assert DecodeFields([g], t).Panic? <==> DecodeField(g, t).Panic?;
  }

  lemma SpawnDecodes(t: Table)
    requires FieldVerifies(COMMON_WIRE, t) && FieldVerifies(PAYLOAD_WIRE, t)
    ensures DecodeFields(SPAWN_FIELDS, t).Panic? <==> SpawnAborts(t)
  {
    CommonFieldDecodes(t);
    PayloadDecodes(t);
    PayloadFieldDecodes("Spawn", t);
    TwoDecode(COMMON_FIELD, PayloadField("Spawn"), t);
  }

  lemma SpawnSubspeciesDecodes(t: Table)
    requires FieldVerifies(COMMON_WIRE, t) && FieldVerifies(PAYLOAD_WIRE, t)
    ensures DecodeFields(SPAWN_SUBSPECIES_FIELDS, t).Panic? <==> SpawnAborts(t)
  {
    CommonFieldDecodes(t);
    PayloadDecodes(t);
    PayloadFieldDecodes("SpawnSubspecies", t);
    TwoDecode(TextField("socket_path"), PayloadField("SpawnSubspecies"), t);
    ScalarsFit();
    LeafDecodes(TextField("socket_path"), t);
    assert SPAWN_SUBSPECIES_FIELDS[1..] == [TextField("socket_path"), PayloadField("SpawnSubspecies")];
  }

  lemma ResponsesDecode(t: Table)
    ensures DecodeFields(IDENTITY_FIELDS, t).Ok? && DecodeFields(PID_FIELDS, t).Ok? && DecodeFields(STAT_FIELDS, t).Ok?
  {
    ScalarsFit();
    NeverAborts(IDENTITY_FIELDS, t);
    NeverAborts(PID_FIELDS, t);
    StatFits();
    NeverAborts(STAT_FIELDS, t);
  }

  lemma StatFits()
    ensures AllAlwaysFit(STAT_FIELDS)
  {
    ScalarsFit();
    assert AllAlwaysFit(STAT_IDS);
    assert AllAlwaysFit(STAT_TIMES);
    assert AllAlwaysFit(STAT_SIZES);
    assert forall f :: f in STAT_FIELDS <==> f in STAT_IDS || f in STAT_TIMES || f in STAT_SIZES;
  }

  const SPAWN_AT: nat := 4
  const SPAWN_SUBSPECIES_AT: nat := 5

  lemma VariantFields(i: nat)
    requires i < |VARIANTS|
    ensures |VARIANTS| == |MESSAGE_MEMBERS| == 9 && VARIANTS[i].innerName == MESSAGE_MEMBERS[i].tag
    ensures VARIANTS[i].fields ==
              [[], [], [], IDENTITY_FIELDS, SPAWN_FIELDS, SPAWN_SUBSPECIES_FIELDS, PID_FIELDS, [], STAT_FIELDS][i]
  {
    AllMessagesWrite();
  }

  lemma SpawnsAt()
    ensures VARIANTS[SPAWN_AT] == SPAWN && VARIANTS[SPAWN_SUBSPECIES_AT] == SPAWN_SUBSPECIES
    ensures MESSAGE_MEMBERS[SPAWN_AT].fields == SPAWN_SCHEMA
    ensures MESSAGE_MEMBERS[SPAWN_SUBSPECIES_AT].fields == SPAWN_SUBSPECIES_SCHEMA
    ensures SPAWN in VARIANTS && SPAWN_SUBSPECIES in VARIANTS
  {
  }

  lemma SpawnsVerify(t: Table)
    ensures TableVerifies(SPAWN_SCHEMA, t) ==> FieldVerifies(COMMON_WIRE, t) && FieldVerifies(PAYLOAD_WIRE, t)
    ensures TableVerifies(SPAWN_SUBSPECIES_SCHEMA, t) ==> FieldVerifies(COMMON_WIRE, t) && FieldVerifies(PAYLOAD_WIRE, t)
  {
    assert SPAWN_SCHEMA[0] == COMMON_WIRE == SPAWN_SUBSPECIES_SCHEMA[0];
    assert SPAWN_SCHEMA[1] == PAYLOAD_WIRE == SPAWN_SUBSPECIES_SCHEMA[2];
  }

  lemma VariantDecodes(i: nat, t: Table)
    requires i < |VARIANTS| && i < |MESSAGE_MEMBERS| && TableVerifies(MESSAGE_MEMBERS[i].fields, t)
    ensures DecodeFields(VARIANTS[i].fields, t).Panic? <==> (i == SPAWN_AT || i == SPAWN_SUBSPECIES_AT) && SpawnAborts(t)
  {
    if i == SPAWN_AT || i == SPAWN_SUBSPECIES_AT {
      SpawnsAt();
      SpawnsVerify(t);
      if i == SPAWN_AT { SpawnDecodes(t); } else { SpawnSubspeciesDecodes(t); }
    } else {
      OtherDecodes(i, t);
    }
  }

  lemma OtherDecodes(i: nat, t: Table)
    requires i < |VARIANTS| && i != SPAWN_AT && i != SPAWN_SUBSPECIES_AT
    ensures DecodeFields(VARIANTS[i].fields, t).Ok?
  {
    OtherFields(i);
    ResponsesDecode(t);
  }

  lemma OtherFields(i: nat)
    requires i < |VARIANTS| && i != SPAWN_AT && i != SPAWN_SUBSPECIES_AT
    ensures var fs := VARIANTS[i].fields; fs == [] || fs == IDENTITY_FIELDS || fs == PID_FIELDS || fs == STAT_FIELDS
  {
    VariantFields(i);
  }

  lemma TagAt(d: EnumDecl, i: nat, tag: string)
    requires EnumOk(d) && i < |d.variants|
    ensures ByInner(d.variants, tag) == Some(d.variants[i]) <==> tag == d.variants[i].innerName
  {
    if tag == d.variants[i].innerName { TagFindsVariant(d, d.variants[i]); }
  }

  lemma IndexOfTag(d: EnumDecl, tag: string) returns (i: nat)
    requires ByInner(d.variants, tag).Some?
    ensures i < |d.variants| && d.variants[i] == ByInner(d.variants, tag).value && d.variants[i].innerName == tag
  {
    var variant := ByInner(d.variants, tag).value;
    i :| 0 <= i < |d.variants| && d.variants[i] == variant;
  }

  lemma MessageDecodes(parcel: Table, tag: string, t: Table)
    requires CellOf(parcel, TypeField(MESSAGE_FIELD)) == Tag(tag) && CellOf(parcel, MESSAGE_FIELD) == Nested(Some(t))
    requires MemberVerifies(MESSAGE_MEMBERS, tag, t)
    ensures DecodeParcel(MESSAGE, parcel).Panic? <==> (tag == "Spawn" || tag == "SpawnSubspecies") && SpawnAborts(t)
  {
    UnionDecodes(MESSAGE, MESSAGE_FIELD, parcel, tag, t);
    MessageOk();
    SpawnsAt();
    TagAt(MESSAGE, SPAWN_AT, tag);
    TagAt(MESSAGE, SPAWN_SUBSPECIES_AT, tag);
    if ByInner(VARIANTS, tag).Some? {
      var i := IndexOfTag(MESSAGE, tag);
      VariantFields(i);
      VariantDecodes(i, t);
      SameTag(i, tag);
    }
  }

  lemma SameTag(i: nat, tag: string)
    requires i < |VARIANTS| && VARIANTS[i].innerName == tag
    ensures (i == SPAWN_AT <==> tag == "Spawn") && (i == SPAWN_SUBSPECIES_AT <==> tag == "SpawnSubspecies")
  {
    SpawnsAt();
    VariantsDistinct();
  }

  /** Decoding aborts the server on exactly these parcels: a spawn request the verifier accepts,
      without common parameters or with a vector beyond its capacity. */
  lemma AbortsExactly(parcel: Table)
    ensures PacketOf(Buffer(parcel)) == Fatal <==> Verified(parcel) && Aborts(parcel)
  {
    var tag, c := CellOf(parcel, TypeField(MESSAGE_FIELD)), CellOf(parcel, MESSAGE_FIELD);
    if Verified(parcel) && tag.Tag? { MessageDecodes(parcel, tag.tag, c.table.value); }
  }

  // ---- What reaches the server ----

  lemma ParamNames()
    ensures |COMMON_FIELDS| == 14
    ensures COMMON_FIELDS[0].name == "selinux_flags" && COMMON_FIELDS[1].name == "no_new_privs"
    ensures COMMON_FIELDS[2].name == "uid" && COMMON_FIELDS[3].name == "gid" && COMMON_FIELDS[4].name == "process_name"
    ensures COMMON_FIELDS[5].name == "priority_initial" && COMMON_FIELDS[6].name == "priority_final"
    ensures COMMON_FIELDS[7].name == "cap_effective" && COMMON_FIELDS[8].name == "cap_permitted"
    ensures COMMON_FIELDS[9].name == "cap_inheritable" && COMMON_FIELDS[10].name == "cap_bound"
    ensures COMMON_FIELDS[11].name == "se_info"
    ensures COMMON_FIELDS[12] == VectorField("secondary_groups", GID_VECTOR_SIZE, IsU32)
    ensures COMMON_FIELDS[13] == VectorField("rlimits", RLIMIT_VECTOR_SIZE, IsLimit)
  {
  }

  ghost predicate HoldsParams(m: map<string, Value>, p: SpawnParamsCommon) {
    && FieldOf(m, "selinux_flags") == NumValue(p.selinuxFlags) && FieldOf(m, "no_new_privs") == FlagValue(p.noNewPrivs)
    && FieldOf(m, "uid") == NumValue(p.uid) && FieldOf(m, "gid") == NumValue(p.gid)
    && FieldOf(m, "process_name") == TextValue(p.processName)
    && FieldOf(m, "priority_initial") == NumValue(p.priorityInitial)
    && FieldOf(m, "priority_final") == NumValue(p.priorityFinal)
    && FieldOf(m, "cap_effective") == CapsValue(p.capEffective) && FieldOf(m, "cap_permitted") == CapsValue(p.capPermitted)
    && FieldOf(m, "cap_inheritable") == CapsValue(p.capInheritable) && FieldOf(m, "cap_bound") == CapsValue(p.capBound)
    && FieldOf(m, "se_info") == TextValue(p.seInfo)
    && FieldOf(m, "secondary_groups") == GroupsValue(p.secondaryGroups) && FieldOf(m, "rlimits") == LimitsValue(p.rlimits)
  }

  lemma ParamsLookUp(fs: seq<FieldDecl>, vals: seq<Value>, i: nat)
    requires |fs| == |vals| && DistinctNames(fs) && i < |fs|
    ensures FieldOf(Zip(fs, vals), fs[i].name) == vals[i]
  {
    ZipLookup(fs, vals);
  }

  lemma ParamsAreHeld(p: SpawnParamsCommon)
    ensures HoldsParams(ParamFields(p), p)
  {
    CommonNames();
    ParamNames();
    forall i: nat | i < 14 ensures FieldOf(ParamFields(p), COMMON_FIELDS[i].name) == ParamValues(p)[i] {
      ParamsLookUp(COMMON_FIELDS, ParamValues(p), i);
    }
    ParamsInOrder(p);
  }

  lemma ParamsInOrder(p: SpawnParamsCommon)
    ensures var v := ParamValues(p);
            && v[0] == NumValue(p.selinuxFlags) && v[1] == FlagValue(p.noNewPrivs) && v[2] == NumValue(p.uid)
            && v[3] == NumValue(p.gid) && v[4] == TextValue(p.processName) && v[5] == NumValue(p.priorityInitial)
            && v[6] == NumValue(p.priorityFinal) && v[7] == CapsValue(p.capEffective) && v[8] == CapsValue(p.capPermitted)
            && v[9] == CapsValue(p.capInheritable) && v[10] == CapsValue(p.capBound)
            && v[11] == TextValue(p.seInfo) && v[12] == GroupsValue(p.secondaryGroups) && v[13] == LimitsValue(p.rlimits)
  {
  }

  /** A struct of the encoder's argument, read back as the struct it was. */
  lemma ParamsAreRead(m: map<string, Value>, p: SpawnParamsCommon)
    requires HoldsParams(m, p)
    ensures ParamsOf(m) == p
  {
    assert ElementsOf(GroupsValue(p.secondaryGroups), GroupOf) == p.secondaryGroups;
    assert ElementsOf(LimitsValue(p.rlimits), LimitOf) == p.rlimits;
  }

  lemma CommonDecodedFits(t: Table)
    requires DecodeFields(COMMON_FIELDS, t).Ok?
    ensures Fits(ParamsOf(DecodeFields(COMMON_FIELDS, t).value))
  {
    CommonDecodes(t);
    CommonLeaves();
    CommonNames();
    ParamNames();
    DecodedLeaf(COMMON_FIELDS, t, 12);
    DecodedLeaf(COMMON_FIELDS, t, 13);
    VectorFits("secondary_groups", GID_VECTOR_SIZE, IsU32, CellOf(t, "secondary_groups"));
    VectorFits("rlimits", RLIMIT_VECTOR_SIZE, IsLimit, CellOf(t, "rlimits"));
  }

  lemma ParamsSurvive(p: SpawnParamsCommon)
    ensures ParamsOf(ParamFields(p)) == p
  {
    ParamsAreHeld(p);
    ParamsAreRead(ParamFields(p), p);
  }

  lemma PacketIs(parcel: Table, v: Value)
    requires TryFromParcel(MESSAGE_MEMBERS, MESSAGE, parcel) == Ok(v)
    ensures PacketOf(Buffer(parcel)) == Parcel(RequestOf(v))
  {
  }

  lemma KindArrives(payload: Value)
    ensures Arrived(PAYLOAD_ROW.arrival, payload).Variant? <==> payload.Variant?
    ensures payload.Variant? ==> Arrived(PAYLOAD_ROW.arrival, payload).name == payload.name
  {
  }

  lemma HeadDecoded(fs: seq<FieldDecl>, t: Table)
    requires |fs| > 0 && DistinctNames(fs) && DecodeFields(fs, t).Ok?
    ensures DecodeField(fs[0], t).Ok? && FieldOf(DecodeFields(fs, t).value, fs[0].name) == DecodeField(fs[0], t).value
  {
    FirstNameOnly(fs, t);
  }

  lemma SpawnFits(fs: seq<FieldDecl>, t: Table)
    requires |fs| > 0 && fs[0] == COMMON_FIELD && DistinctNames(fs) && DecodeFields(fs, t).Ok?
    ensures Fits(CommonOf(DecodeFields(fs, t).value))
  {
    HeadDecoded(fs, t);
    CommonDecodedFits(CellOf(t, "common").table.value);
  }

  lemma SpawnNames()
    ensures DistinctNames(SPAWN_FIELDS) && DistinctNames(SPAWN_SUBSPECIES_FIELDS)
    ensures SPAWN_FIELDS[0] == COMMON_FIELD == SPAWN_SUBSPECIES_FIELDS[0]
    ensures forall v | v in VARIANTS ::
        (v.name == "Spawn" ==> v == SPAWN) && (v.name == "SpawnSubspecies" ==> v == SPAWN_SUBSPECIES)
  {
    SpawnsAt();
    VariantsDistinct();
    forall v | v in VARIANTS ensures (v.name == "Spawn" ==> v == SPAWN)
      && (v.name == "SpawnSubspecies" ==> v == SPAWN_SUBSPECIES) {
      var i :| 0 <= i < |VARIANTS| && VARIANTS[i] == v;
    }
  }

  /** Parameters that were decoded never exceed their vectors: longer ones abort before. */
  lemma DecodedParamsFit(d: Datagram)
    requires PacketOf(d).Parcel? && (PacketOf(d).request.Spawn? || PacketOf(d).request.SpawnSubspecies?)
    ensures Fits(PacketOf(d).request.common)
  {
    var parcel := d.parcel;
    var tag, c := CellOf(parcel, TypeField(MESSAGE_FIELD)), CellOf(parcel, MESSAGE_FIELD);
    var variant := ByInner(VARIANTS, tag.tag).value;
    SpawnNames();
    SpawnFits(variant.fields, c.table.value);
  }
}
