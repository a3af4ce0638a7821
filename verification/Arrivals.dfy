/** What the receiver of a message sees of it, written down field by field and without the
    encoders and decoders, and the proof that a trip through a parcel is exactly that. */
module Arrivals {
  import opened Results
  import opened Parcel
  import opened SpawnParams
  import opened Messages
  import opened Schema
  import opened Wire

  // ---- Reading tables ----

  /** What becomes of one field on its way. */
  datatype Arrival =
    | AsSent
    | OrLiteral(literal: Value)
    | OnlyWithin(lo: int, hi: int)
    | Capabilities
    | NoneIfEmpty
    | FieldByField(rows: seq<Row>)
    | ByVariant(variants: seq<VariantRows>)

  datatype Row = Row(name: string, arrival: Arrival)

  datatype VariantRows = VariantRows(name: string, rows: seq<Row>)

  function RowsOf(variants: seq<VariantRows>, name: string): Option<seq<Row>> {
    if |variants| == 0 then None
    else if variants[0].name == name then Some(variants[0].rows)
    else RowsOf(variants[1..], name)
  }

  function Arrived(a: Arrival, v: Value): Value
    decreases a, 1
  {
    match a
    case AsSent => v
    case OrLiteral(literal) => if v == Opt(None) then Opt(Some(literal)) else v
    case OnlyWithin(lo, hi) => if v.Opt? && v.o.Some? && IsNum(v.o.value, lo, hi) then v else Opt(None)
    case Capabilities =>
      if v.Opt? && v.o.Some? && v.o.value.Caps? && v.o.value.bits != ALL_BITS
      then Opt(Some(Caps(v.o.value.bits * KNOWN_CAPS)))
      else Opt(None)
    case NoneIfEmpty => if v == Opt(Some(List([]))) then Opt(None) else v
    case FieldByField(rows) => if v.Record? then Record(AllArrived(rows, v.fields)) else v
    case ByVariant(variants) =>
      if v.Variant? && RowsOf(variants, v.name).Some?
      then (RowsAreSmaller(variants, v.name); Variant(v.name, AllArrived(RowsOf(variants, v.name).value, v.fields)))
      else v
  }

  /** The named fields, each as it arrives; anything else a message carries is not sent. */
  function AllArrived(rows: seq<Row>, vals: map<string, Value>): map<string, Value>
    decreases rows, 0
  {
    if |rows| == 0 then map[]
    else map[rows[0].name := Arrived(rows[0].arrival, FieldOf(vals, rows[0].name))] + AllArrived(rows[1..], vals)
  }

  lemma RowsAreSmaller(variants: seq<VariantRows>, name: string)
    requires RowsOf(variants, name).Some?
    ensures exists v :: v in variants && v.name == name && RowsOf(variants, name) == Some(v.rows)
  {
  }

  // ---- A declaration read by a table ----

  /** What the generated code does to field `f` is what the row says. */
  ghost predicate Reads(f: FieldDecl, row: Row)
    decreases f, 1
  {
    f.name == row.name &&
    match f.ty
    case Leaf(valid, _, _) => forall v: Value | valid(v) :: LeafNorm(f, v) == Arrived(row.arrival, v)
    case StructType(d) => row.arrival.FieldByField? && AllRead(d.fields, row.arrival.rows)
    case EnumType(d) => row.arrival.ByVariant? && VariantsRead(d.variants, row.arrival.variants)
  }

  ghost predicate AllRead(fs: seq<FieldDecl>, rows: seq<Row>)
    decreases fs, 0
  {
    |fs| == |rows| && forall i | 0 <= i < |fs| :: Reads(fs[i], rows[i])
  }

  ghost predicate VariantsRead(vs: seq<VariantDecl>, rows: seq<VariantRows>)
    decreases vs, 0
  {
    |vs| == |rows| && forall i | 0 <= i < |vs| :: vs[i].name == rows[i].name && AllRead(vs[i].fields, rows[i].rows)
  }

  lemma {:induction false} FieldArrives(f: FieldDecl, row: Row, v: Value)
    requires Reads(f, row) && HasType(f.ty, v)
    ensures NormField(f, v) == Arrived(row.arrival, v)
    decreases f, 1
  {
    match f.ty
    case Leaf(_, _, _) =>
    case StructType(d) => FieldsArrive(d.fields, row.arrival.rows, v.fields);
    case EnumType(d) => UnionArrives(d, row.arrival.variants, v);
  }

  lemma {:induction false} UnionArrives(d: EnumDecl, variants: seq<VariantRows>, v: Value)
    requires VariantsRead(d.variants, variants) && HasEnumType(d, v)
    ensures NormUnion(d, v) == Arrived(ByVariant(variants), v)
    decreases d, 2
  {
    var variant := ByName(d.variants, v.name).value;
    SameVariant(d.variants, variants, v.name);
    FieldsArrive(variant.fields, RowsOf(variants, v.name).value, v.fields);
  }

  lemma {:induction false} SameVariant(vs: seq<VariantDecl>, rows: seq<VariantRows>, name: string)
    requires VariantsRead(vs, rows) && ByName(vs, name).Some?
    ensures RowsOf(rows, name).Some? && AllRead(ByName(vs, name).value.fields, RowsOf(rows, name).value)
    decreases |vs|
  {
    if vs[0].name != name { SameVariant(vs[1..], rows[1..], name); }
  }

  lemma {:induction false} FieldsArrive(fs: seq<FieldDecl>, rows: seq<Row>, vals: map<string, Value>)
    requires AllRead(fs, rows) && FieldsTyped(fs, vals)
    ensures NormFields(fs, vals) == AllArrived(rows, vals)
    decreases fs, 0
  {
    if |fs| > 0 {
      assert Reads(fs[0], rows[0]);
      FieldArrives(fs[0], rows[0], FieldOf(vals, fs[0].name));
      FieldsArrive(fs[1..], rows[1..], vals);
    }
  }

  lemma ReadsOne(f: FieldDecl, row: Row)
    requires Reads(f, row)
    ensures AllRead([f], [row])
  {
  }

  lemma ReadsJoined(fs: seq<FieldDecl>, rows: seq<Row>, gs: seq<FieldDecl>, more: seq<Row>)
    requires AllRead(fs, rows) && AllRead(gs, more)
    ensures AllRead(fs + gs, rows + more)
  {
  }

  lemma ReadsTwo(f: FieldDecl, row: Row, g: FieldDecl, next: Row)
    ensures Reads(f, row) && Reads(g, next) ==> AllRead([f, g], [row, next])
  {
  }

  lemma ReadsThree(f: FieldDecl, row: Row, g: FieldDecl, next: Row, h: FieldDecl, last: Row)
    ensures Reads(f, row) && Reads(g, next) && Reads(h, last) ==> AllRead([f, g, h], [row, next, last])
  {
  }

  lemma ReadsFour(f: FieldDecl, row: Row, g: FieldDecl, next: Row, h: FieldDecl, third: Row, i: FieldDecl, last: Row)
    ensures Reads(f, row) && Reads(g, next) && Reads(h, third) && Reads(i, last) ==>
        AllRead([f, g, h, i], [row, next, third, last])
  {
  }

  // ---- The protocol's leaves ----

  lemma PlainArrives(name: string, valid: Value -> bool)
    ensures Reads(PlainField(name, valid), Row(name, AsSent))
  {
    var f := PlainField(name, valid);
    assert ChooseMarshal(f.attrs[1..]) == MPlain && ChooseUnmarshal(f.attrs[1..]) == UPlain;
  }

  lemma TextArrives(name: string)
    ensures Reads(TextField(name), Row(name, AsSent))
  {
  }

  lemma VectorArrives(name: string, capacity: nat, element: Value -> bool)
    ensures Reads(VectorField(name, capacity, element), Row(name, AsSent))
  {
    forall v: Value ensures LeafNorm(VectorField(name, capacity, element), v) == v {
      VectorNorm(name, capacity, element, v);
    }
  }

  lemma OptTextArrives(name: string)
    ensures Reads(OptTextField(name), Row(name, OrLiteral(Text(""))))
  {
  }

  lemma StringArrives(name: string)
    ensures Reads(StringField(name), Row(name, OrLiteral(Text(""))))
  {
    forall v: Value ensures LeafNorm(StringField(name), v) == Opt(Some(UnwrapOr(v, Text("")))) {
      StringNorm(name, v);
    }
  }

  lemma CapsArrive(name: string)
    ensures Reads(CapsField(name), Row(name, Capabilities))
  {
    forall v: Value ensures LeafNorm(CapsField(name), v) == CapsNormal(v) {
      CapsNorm(name, v);
    }
  }

  lemma BytesArrive(name: string)
    ensures Reads(BytesField(name), Row(name, NoneIfEmpty))
  {
    SecondDecides(BytesField(name).attrs);
  }

  /** A default every value of which is in range stands in for absence. */
  lemma LiteralArrives(name: string, inner: Value -> bool, literal: Value)
    requires inner(literal)
    ensures Reads(DefaultedField(name, inner, literal, inner), Row(name, OrLiteral(literal)))
  {
    forall v: Value ensures LeafNorm(DefaultedField(name, inner, literal, inner), v) == DefaultedNormal(v, literal, inner) {
      DefaultedNorm(name, inner, literal, inner, v);
    }
  }

  lemma IdArrives(name: string)
    ensures Reads(IdField(name), Row(name, OnlyWithin(1, I32_MAX + 1)))
  {
    forall v: Value ensures LeafNorm(IdField(name), v) == DefaultedNormal(v, Num(-1), IsId) {
      DefaultedNorm(name, IsI32, Num(-1), IsId, v);
    }
  }

  lemma PriorityArrives(name: string)
    ensures Reads(PriorityField(name), Row(name, OnlyWithin(-20, 20)))
  {
    forall v: Value ensures LeafNorm(PriorityField(name), v) == DefaultedNormal(v, Num(I32_MAX), IsPriority) {
      DefaultedNorm(name, IsI32, Num(I32_MAX), IsPriority, v);
    }
  }

  // ---- The protocol's tables ----

  const ID_ROWS: seq<Row> := [
    Row("selinux_flags", OrLiteral(Num(0))), Row("no_new_privs", OrLiteral(Flag(false))),
    Row("uid", OnlyWithin(1, I32_MAX + 1)), Row("gid", OnlyWithin(1, I32_MAX + 1))]
  const NAME_ROWS: seq<Row> := [
    Row("process_name", OrLiteral(Text(""))),
    Row("priority_initial", OnlyWithin(-20, 20)), Row("priority_final", OnlyWithin(-20, 20))]
  const CAP_ROWS: seq<Row> := [
    Row("cap_effective", Capabilities), Row("cap_permitted", Capabilities),
    Row("cap_inheritable", Capabilities), Row("cap_bound", Capabilities)]
  const TAIL_ROWS: seq<Row> := [
    Row("se_info", OrLiteral(Text(""))), Row("secondary_groups", AsSent), Row("rlimits", AsSent)]

  const COMMON_ROWS: seq<Row> := ID_ROWS + NAME_ROWS + CAP_ROWS + TAIL_ROWS

  const ANDROID_NATIVE_ROWS: seq<Row> := [
    Row("preloading_cmd", NoneIfEmpty), Row("package", AsSent), Row("start_seq", AsSent),
    Row("target_sdk_version", AsSent), Row("runtime_flags", AsSent), Row("top_app", AsSent)]

  const SUBSPECIES_ROWS: seq<Row> := [
    Row("target_sdk_version", AsSent), Row("runtime_flags", AsSent), Row("library_path", AsSent),
    Row("library_dirs", AsSent), Row("permitted_library_paths", AsSent), Row("shared", AsSent),
    Row("zip_path", AsSent), Row("native_shared_lib_path", AsSent), Row("preload_func", OrLiteral(Text(""))),
    Row("uid_gid_min", AsSent), Row("uid_gid_max", AsSent)]

  const LIB_APP_ROWS: seq<Row> := [Row("path", AsSent), Row("args", AsSent)]

  const MOCK_ROWS: seq<Row> := [Row("name", AsSent)]

  const PAYLOAD_ARRIVES: seq<VariantRows> :=
    [VariantRows("AndroidNative", ANDROID_NATIVE_ROWS)] + [VariantRows("AndroidNativeSubspecies", SUBSPECIES_ROWS)]
    + [VariantRows("LibApp", LIB_APP_ROWS)] + [VariantRows("Mock", MOCK_ROWS)]

  const COMMON_ROW: Row := Row("common", FieldByField(COMMON_ROWS))
  const PAYLOAD_ROW: Row := Row("payload", ByVariant(PAYLOAD_ARRIVES))

  const SPAWN_ROWS: seq<Row> := [COMMON_ROW, PAYLOAD_ROW]
  const SPAWN_SUBSPECIES_ROWS: seq<Row> := [COMMON_ROW, Row("socket_path", AsSent), PAYLOAD_ROW]

  const PID_ROWS: seq<Row> := [Row("pid", AsSent)]

  const STAT_ROWS: seq<Row> := [
    Row("pid", AsSent), Row("pgrp", AsSent), Row("minflt", AsSent), Row("cminflt", AsSent), Row("majflt", AsSent),
    Row("cmajflt", AsSent), Row("utime", AsSent), Row("stime", AsSent), Row("num_threads", AsSent),
    Row("vsize", AsSent), Row("rss", AsSent)]

  const IDENTITY_ROWS: seq<Row> := [Row("name", AsSent), Row("species", AsSent), Row("arch", AsSent)]

  const MESSAGE_ARRIVES: seq<VariantRows> :=
    [VariantRows("AckResponse", [])] + [VariantRows("Exit", [])] + [VariantRows("IdentityQuery", [])]
    + [VariantRows("IdentityQueryResponse", IDENTITY_ROWS)]
    + [VariantRows("Spawn", SPAWN_ROWS)] + [VariantRows("SpawnSubspecies", SPAWN_SUBSPECIES_ROWS)]
    + [VariantRows("SpawnResponse", PID_ROWS)] + [VariantRows("Stat", [])] + [VariantRows("StatResponse", STAT_ROWS)]

  lemma IdFieldsArrive()
    ensures AllRead(ID_FIELDS, ID_ROWS)
  {
    LiteralArrives("selinux_flags", IsU64, Num(0));
    LiteralArrives("no_new_privs", IsFlag, Flag(false));
    IdArrives("uid");
    IdArrives("gid");
    ReadsFour(SELINUX_FLAGS, ID_ROWS[0], NO_NEW_PRIVS, ID_ROWS[1], IdField("uid"), ID_ROWS[2], IdField("gid"), ID_ROWS[3]);
  }

  lemma NameFieldsArrive()
    ensures AllRead(NAME_FIELDS, NAME_ROWS)
  {
    StringArrives("process_name");
    PriorityArrives("priority_initial");
    PriorityArrives("priority_final");
    ReadsThree(StringField("process_name"), NAME_ROWS[0], PriorityField("priority_initial"), NAME_ROWS[1],
               PriorityField("priority_final"), NAME_ROWS[2]);
  }

  lemma CapFieldsArrive()
    ensures AllRead(CAP_FIELDS, CAP_ROWS)
  {
    CapsArrive("cap_effective");
    CapsArrive("cap_permitted");
    CapsArrive("cap_inheritable");
    CapsArrive("cap_bound");
    ReadsFour(CapsField("cap_effective"), CAP_ROWS[0], CapsField("cap_permitted"), CAP_ROWS[1],
              CapsField("cap_inheritable"), CAP_ROWS[2], CapsField("cap_bound"), CAP_ROWS[3]);
  }

  lemma TailFieldsArrive()
    ensures AllRead(TAIL_FIELDS, TAIL_ROWS)
  {
    StringArrives("se_info");
    VectorArrives("secondary_groups", GID_VECTOR_SIZE, IsU32);
    VectorArrives("rlimits", RLIMIT_VECTOR_SIZE, IsLimit);
    ReadsThree(StringField("se_info"), TAIL_ROWS[0], VectorField("secondary_groups", GID_VECTOR_SIZE, IsU32), TAIL_ROWS[1],
               VectorField("rlimits", RLIMIT_VECTOR_SIZE, IsLimit), TAIL_ROWS[2]);
  }

  lemma CommonArrives()
    ensures Reads(COMMON_FIELD, COMMON_ROW)
  {
    IdFieldsArrive();
    NameFieldsArrive();
    CapFieldsArrive();
    TailFieldsArrive();
    ReadsJoined(ID_FIELDS, ID_ROWS, NAME_FIELDS, NAME_ROWS);
    ReadsJoined(ID_FIELDS + NAME_FIELDS, ID_ROWS + NAME_ROWS, CAP_FIELDS, CAP_ROWS);
    ReadsJoined(ID_FIELDS + NAME_FIELDS + CAP_FIELDS, ID_ROWS + NAME_ROWS + CAP_ROWS, TAIL_FIELDS, TAIL_ROWS);
  }

  lemma ScalarsArrive()
    ensures forall name, lo, hi :: Reads(NumField(name, lo, hi), Row(name, AsSent))
    ensures forall name :: Reads(TextField(name), Row(name, AsSent))
  {
  }

  lemma AndroidNativeArrives()
    ensures AllRead(ANDROID_NATIVE_FIELDS, ANDROID_NATIVE_ROWS)
  {
    BytesArrive("preloading_cmd");
    PlainArrives("top_app", IsFlag);
    ScalarsArrive();
  }

  lemma SubspeciesArrives()
    ensures AllRead(SUBSPECIES_FIELDS, SUBSPECIES_ROWS)
  {
    PlainArrives("shared", IsFlag);
    OptTextArrives("preload_func");
    ScalarsArrive();
  }

  lemma LibAppArrives()
    ensures AllRead(LIB_APP_FIELDS, LIB_APP_ROWS)
  {
    TextArrives("path");
    VectorArrives("args", MESSAGE_ARG_BUFFER_MAX, IsText);
    ReadsTwo(TextField("path"), LIB_APP_ROWS[0], VectorField("args", MESSAGE_ARG_BUFFER_MAX, IsText), LIB_APP_ROWS[1]);
  }

  lemma PayloadArrives(table: string)
    ensures Reads(PayloadField(table), PAYLOAD_ROW)
  {
    AndroidNativeArrives();
    SubspeciesArrives();
    LibAppArrives();
    TextArrives("name");
    ReadsOne(TextField("name"), MOCK_ROWS[0]);
  }

  lemma SpawnsArrive()
    ensures AllRead(SPAWN_FIELDS, SPAWN_ROWS) && AllRead(SPAWN_SUBSPECIES_FIELDS, SPAWN_SUBSPECIES_ROWS)
  {
    CommonArrives();
    PayloadArrives("Spawn");
    PayloadArrives("SpawnSubspecies");
    TextArrives("socket_path");
    ReadsTwo(COMMON_FIELD, COMMON_ROW, PayloadField("Spawn"), PAYLOAD_ROW);
    ReadsThree(COMMON_FIELD, COMMON_ROW, TextField("socket_path"), Row("socket_path", AsSent),
               PayloadField("SpawnSubspecies"), PAYLOAD_ROW);
  }

  lemma ResponsesArrive()
    ensures AllRead(IDENTITY_FIELDS, IDENTITY_ROWS) && AllRead(PID_FIELDS, PID_ROWS) && AllRead(STAT_FIELDS, STAT_ROWS)
  {
    ScalarsArrive();
  }

  lemma AllMessagesRead()
    ensures VariantsRead(VARIANTS, MESSAGE_ARRIVES)
  {
    SpawnsArrive();
    ResponsesArrive();
  }

  // ---- Round trips ----

  lemma UnionReceived(ms: seq<WireMember>, d: EnumDecl, variants: seq<VariantRows>, v: Value)
    requires VariantsWrite(d.variants, ms) && EnumOk(d) && VariantsRead(d.variants, variants) && HasEnumType(d, v)
    ensures Arrived(ByVariant(variants), v).Variant? && Arrived(ByVariant(variants), v).name == v.name
    ensures TryFromParcel(ms, d, ToParcel(d, v)) == Ok(Arrived(ByVariant(variants), v))
    ensures HasEnumType(d, Arrived(ByVariant(variants), v))
    ensures TryFromParcel(ms, d, ToParcel(d, Arrived(ByVariant(variants), v))) == Ok(Arrived(ByVariant(variants), v))
  {
    UnionArrives(d, variants, v);
    ParcelRoundTrip(d, v);
    VerifiedRoundTrip(ms, d, v);
  }

  /** What the receiver gets for a message. */
  function Received(v: Value): Value {
    Arrived(ByVariant(MESSAGE_ARRIVES), v)
  }

  /** Any message of the protocol arrives as its table says, and a second trip changes
      nothing more. */
  lemma MessageRoundTrip(v: Value)
    requires HasEnumType(MESSAGE, v)
    ensures Received(v).Variant? && Received(v).name == v.name && HasEnumType(MESSAGE, Received(v))
    ensures TryFromParcel(MESSAGE_MEMBERS, MESSAGE, ToParcel(MESSAGE, v)) == Ok(Received(v))
    ensures TryFromParcel(MESSAGE_MEMBERS, MESSAGE, ToParcel(MESSAGE, Received(v))) == Ok(Received(v))
  {
    MessageOk();
    AllMessagesRead();
    AllMessagesWrite();
    UnionReceived(MESSAGE_MEMBERS, MESSAGE, MESSAGE_ARRIVES, v);
  }

  /** The table of the common parameters is the normal form of their own type. */
  lemma CommonIsNormal(p: SpawnParamsCommon)
    requires ValidParams(p)
    ensures AllArrived(COMMON_ROWS, ParamFields(p)) == ParamFields(NormalParams(p))
  {
    CommonNames();
    CommonArrives();
    ParamsNormal(p);
    LeavesNormalise(COMMON_FIELDS, ParamValues(p), ParamValues(NormalParams(p)));
    FieldsArrive(COMMON_FIELDS, COMMON_ROWS, ParamFields(p));
  }

  lemma {:induction false} FieldReceived(rows: seq<Row>, vals: map<string, Value>, row: Row)
    requires row in rows && forall r | r in rows && r.name == row.name :: r == row
    ensures FieldOf(AllArrived(rows, vals), row.name) == Arrived(row.arrival, FieldOf(vals, row.name))
  {
    if row in rows[1..] { FieldReceived(rows[1..], vals, row); } else { RowNames(rows[1..], vals); }
  }

  lemma {:induction false} RowNames(rows: seq<Row>, vals: map<string, Value>)
    ensures forall name | name in AllArrived(rows, vals) :: exists r :: r in rows && r.name == name
  {
    if |rows| > 0 {
      RowNames(rows[1..], vals);
      assert rows[0] in rows && forall r | r in rows[1..] :: r in rows;
    }
  }

  ghost predicate RowIs(rows: seq<Row>, row: Row) {
    row in rows && forall r | r in rows && r.name == row.name :: r == row
  }

  /** A field of a union's variant arrives as the variant's row for it says. */
  lemma PartReceived(variants: seq<VariantRows>, v: Value, rows: seq<Row>, row: Row, got: Value)
    requires v.Variant? && RowsOf(variants, v.name) == Some(rows) && RowIs(rows, row)
    requires Arrived(row.arrival, FieldOf(v.fields, row.name)) == got
    ensures Arrived(ByVariant(variants), v).Variant? && FieldOf(Arrived(ByVariant(variants), v).fields, row.name) == got
  {
    FieldReceived(rows, v.fields, row);
  }

  lemma {:induction false} RowsFound(variants: seq<VariantRows>, i: nat)
    requires i < |variants| && forall j | 0 <= j < i :: variants[j].name != variants[i].name
    ensures RowsOf(variants, variants[i].name) == Some(variants[i].rows)
  {
    if i > 0 { RowsFound(variants[1..], i - 1); }
  }

  const SPAWN_INDEX: nat := 4
  const SPAWN_SUBSPECIES_INDEX: nat := 5

  lemma SpawnRowsFound()
    ensures RowsOf(MESSAGE_ARRIVES, "Spawn") == Some(SPAWN_ROWS)
    ensures RowsOf(MESSAGE_ARRIVES, "SpawnSubspecies") == Some(SPAWN_SUBSPECIES_ROWS)
  {
    assert MESSAGE_ARRIVES[SPAWN_INDEX] == VariantRows("Spawn", SPAWN_ROWS);
    assert MESSAGE_ARRIVES[SPAWN_SUBSPECIES_INDEX] == VariantRows("SpawnSubspecies", SPAWN_SUBSPECIES_ROWS);
    RowsFound(MESSAGE_ARRIVES, SPAWN_INDEX);
    RowsFound(MESSAGE_ARRIVES, SPAWN_SUBSPECIES_INDEX);
  }

  lemma SpawnRows()
    ensures RowIs(SPAWN_ROWS, COMMON_ROW) && RowIs(SPAWN_ROWS, PAYLOAD_ROW)
    ensures RowIs(SPAWN_SUBSPECIES_ROWS, COMMON_ROW) && RowIs(SPAWN_SUBSPECIES_ROWS, PAYLOAD_ROW)
  {
    assert COMMON_ROW == SPAWN_ROWS[0] == SPAWN_SUBSPECIES_ROWS[0];
    assert PAYLOAD_ROW == SPAWN_ROWS[1] == SPAWN_SUBSPECIES_ROWS[2];
  }

  lemma CommonReceived(p: SpawnParamsCommon)
    requires ValidParams(p)
    ensures Arrived(COMMON_ROW.arrival, Record(ParamFields(p))) == Record(ParamFields(NormalParams(p)))
  {
    CommonIsNormal(p);
  }

  /** A spawn request's parameters arrive in their normal form, whatever comes with them. */
  lemma SpawnArrives(v: Value, p: SpawnParamsCommon)
    requires v.Variant? && (v.name == "Spawn" || v.name == "SpawnSubspecies")
    requires ValidParams(p) && FieldOf(v.fields, "common") == Record(ParamFields(p))
    ensures Received(v).Variant? && FieldOf(Received(v).fields, "common") == Record(ParamFields(NormalParams(p)))
    ensures FieldOf(Received(v).fields, "payload") == Arrived(PAYLOAD_ROW.arrival, FieldOf(v.fields, "payload"))
  {
    SpawnRowsFound();
    SpawnRows();
    CommonReceived(p);
    var rows := if v.name == "Spawn" then SPAWN_ROWS else SPAWN_SUBSPECIES_ROWS;
    PartReceived(MESSAGE_ARRIVES, v, rows, COMMON_ROW, Record(ParamFields(NormalParams(p))));
    PartReceived(MESSAGE_ARRIVES, v, rows, PAYLOAD_ROW, Arrived(PAYLOAD_ROW.arrival, FieldOf(v.fields, "payload")));
  }

  ghost predicate AllAsSent(rows: seq<Row>) {
    forall row | row in rows :: row.arrival == AsSent
  }

  /** Exactly the fields of some rows are there. */
  ghost predicate Carries(vals: map<string, Value>, rows: seq<Row>) {
    forall name :: name in vals <==> exists row :: row in rows && row.name == name
  }

  lemma {:induction false} SentIsReceived(rows: seq<Row>, vals: map<string, Value>)
    requires AllAsSent(rows) && forall row | row in rows :: row.name in vals
    ensures forall name | name in AllArrived(rows, vals) :: name in vals && AllArrived(rows, vals)[name] == vals[name]
    ensures forall row | row in rows :: row.name in AllArrived(rows, vals)
  {
    if |rows| > 0 {
      assert rows[0] in rows && forall r | r in rows[1..] :: r in rows;
      SentIsReceived(rows[1..], vals);
    }
  }

  lemma AsSentIsReceived(variants: seq<VariantRows>, v: Value, rows: seq<Row>)
    requires v.Variant? && RowsOf(variants, v.name) == Some(rows) && AllAsSent(rows) && Carries(v.fields, rows)
    ensures Arrived(ByVariant(variants), v) == v
  {
    SentIsReceived(rows, v.fields);
    assert AllArrived(rows, v.fields) == v.fields;
  }

  /** A message all of whose fields travel as sent, which is every one but the spawn
      requests, is received unchanged. */
  lemma OthersArriveAsSent(v: Value, rows: seq<Row>)
    requires HasEnumType(MESSAGE, v)
    requires RowsOf(MESSAGE_ARRIVES, v.name) == Some(rows) && AllAsSent(rows) && Carries(v.fields, rows)
    ensures TryFromParcel(MESSAGE_MEMBERS, MESSAGE, ToParcel(MESSAGE, v)) == Ok(v)
  {
    MessageRoundTrip(v);
    AsSentIsReceived(MESSAGE_ARRIVES, v, rows);
  }
}
