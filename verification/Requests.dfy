/** What reaches the server of each message a client sends, and which buffers are none. */
module Requests {
  import opened Results
  import opened Parcel
  import opened SpawnParams
  import opened Messages
  import opened Schema
  import opened Wire
  import opened Arrivals
  import opened ServerSocket
  import opened Packets

  // ---- Buffers that are no message ----

  /** The schema has a member of this tag. */
  predicate KnownTag(members: seq<WireMember>, tag: string) {
    exists i :: 0 <= i < |members| && members[i].tag == tag
  }

  /** A spawn request whose parameters decode, with a payload the schema does not know. */
  predicate StrangePayload(spawn: Table) {
    var tag := CellOf(spawn, TypeField("payload"));
    !SpawnAborts(spawn) && tag.Tag? && !KnownTag(PAYLOAD_MEMBERS, tag.tag)
  }

  /** No message, or one the schema does not know, or one with a payload it does not know. */
  predicate Strange(parcel: Table) {
    var tag, c := CellOf(parcel, TypeField(MESSAGE_FIELD)), CellOf(parcel, MESSAGE_FIELD);
    || !tag.Tag? || !KnownTag(MESSAGE_MEMBERS, tag.tag)
    || ((tag.tag == "Spawn" || tag.tag == "SpawnSubspecies")
        && c.Nested? && c.table.Some? && StrangePayload(c.table.value))
  }

  lemma TagsKnown(variants: seq<VariantDecl>, members: seq<WireMember>, tag: string)
    requires VariantsWrite(variants, members)
    ensures ByInner(variants, tag).Some? <==> KnownTag(members, tag)
  {
    if KnownTag(members, tag) {
      var i :| 0 <= i < |members| && members[i].tag == tag;
      assert variants[i] in variants && variants[i].innerName == tag;
    }
    if ByInner(variants, tag).Some? {
      var i :| 0 <= i < |variants| && variants[i] == ByInner(variants, tag).value;
      assert members[i].tag == tag;
    }
  }

  lemma PayloadsWritten()
    ensures VariantsWrite(PAYLOADS, PAYLOAD_MEMBERS)
  {
    PayloadWrites("Spawn");
  }

  lemma PayloadNotRefused(variant: VariantDecl, t: Table)
    requires variant in PAYLOADS
    ensures !DecodeFields(variant.fields, t).Err?
  {
    var i :| 0 <= i < |PAYLOADS| && PAYLOADS[i] == variant;
    PayloadAt(i);
    LibAppDecodes(t);
    AppsDecode(t);
    SubspeciesDecodes(t);
  }

  lemma PayloadRefused(t: Table)
    requires FieldVerifies(PAYLOAD_WIRE, t)
    ensures DecodeUnion(SPAWN_PAYLOAD, "payload", t).Err?
       <==> !KnownTag(PAYLOAD_MEMBERS, CellOf(t, TypeField("payload")).tag)
  {
    var tag, inner := CellOf(t, TypeField("payload")).tag, CellOf(t, "payload").table.value;
    UnionDecodes(SPAWN_PAYLOAD, "payload", t, tag, inner);
    PayloadsWritten();
    TagsKnown(PAYLOADS, PAYLOAD_MEMBERS, tag);
    var variant := ByInner(PAYLOADS, tag);
    if variant.Some? { PayloadNotRefused(variant.value, inner); }
  }

  lemma TwoRefused(f: FieldDecl, g: FieldDecl, t: Table)
    ensures DecodeFields([f, g], t).Err? <==> DecodeField(f, t).Err? || (DecodeField(f, t).Ok? && DecodeField(g, t).Err?)
  {
    assert [f, g][1..] == [g] && [g][1..] == [];
    assert DecodeFields([g], t).Err? <==> DecodeField(g, t).Err?;
  }

  lemma SpawnRefused(t: Table)
    requires FieldVerifies(COMMON_WIRE, t) && FieldVerifies(PAYLOAD_WIRE, t)
    ensures DecodeFields(SPAWN_FIELDS, t).Err? <==> StrangePayload(t)
  {
    CommonFieldDecodes(t);
    PayloadRefused(t);
    PayloadDecodes(t);
    PayloadFieldDecodes("Spawn", t);
    TwoRefused(COMMON_FIELD, PayloadField("Spawn"), t);
  }

  lemma SpawnSubspeciesRefused(t: Table)
    requires FieldVerifies(COMMON_WIRE, t) && FieldVerifies(PAYLOAD_WIRE, t)
    ensures DecodeFields(SPAWN_SUBSPECIES_FIELDS, t).Err? <==> StrangePayload(t)
  {
    CommonFieldDecodes(t);
    PayloadRefused(t);
    PayloadDecodes(t);
    PayloadFieldDecodes("SpawnSubspecies", t);
    TwoRefused(TextField("socket_path"), PayloadField("SpawnSubspecies"), t);
    ScalarsFit();
    LeafDecodes(TextField("socket_path"), t);
    assert SPAWN_SUBSPECIES_FIELDS[1..] == [TextField("socket_path"), PayloadField("SpawnSubspecies")];
  }

  lemma VariantRefused(i: nat, t: Table)
    requires i < |VARIANTS| && i < |MESSAGE_MEMBERS| && TableVerifies(MESSAGE_MEMBERS[i].fields, t)
    ensures DecodeFields(VARIANTS[i].fields, t).Err? <==> (i == SPAWN_AT || i == SPAWN_SUBSPECIES_AT) && StrangePayload(t)
  {
    if i == SPAWN_AT || i == SPAWN_SUBSPECIES_AT {
      SpawnsAt();
      SpawnsVerify(t);
      if i == SPAWN_AT { SpawnRefused(t); } else { SpawnSubspeciesRefused(t); }
    } else {
      OtherDecodes(i, t);
    }
  }

  lemma MessageRefused(parcel: Table, tag: string, t: Table)
    requires CellOf(parcel, TypeField(MESSAGE_FIELD)) == Tag(tag) && CellOf(parcel, MESSAGE_FIELD) == Nested(Some(t))
    requires MemberVerifies(MESSAGE_MEMBERS, tag, t)
    ensures DecodeParcel(MESSAGE, parcel).Err? <==> Strange(parcel)
  {
    UnionDecodes(MESSAGE, MESSAGE_FIELD, parcel, tag, t);
    AllMessagesWrite();
    TagsKnown(VARIANTS, MESSAGE_MEMBERS, tag);
    if ByInner(VARIANTS, tag).Some? {
      var i := IndexOfTag(MESSAGE, tag);
      VariantFields(i);
      VariantRefused(i, t);
      SameTag(i, tag);
    }
  }

  /** The server takes a buffer for garbage exactly when the verifier refuses it or it is strange,
      and for the end of the stream never. */
  lemma GarbageExactly(parcel: Table)
    ensures PacketOf(Buffer(parcel)) == Garbage <==> !Verified(parcel) || Strange(parcel)
    ensures PacketOf(Buffer(parcel)) != Empty && PacketOf(EndOfStream) == Empty
  {
    var tag, c := CellOf(parcel, TypeField(MESSAGE_FIELD)), CellOf(parcel, MESSAGE_FIELD);
    if Verified(parcel) && tag.Tag? { MessageRefused(parcel, tag.tag, c.table.value); }
  }

  /** A field the schema requires is not there. */
  predicate Incomplete(tag: string, spawn: Table) {
    var common := CellOf(spawn, "common");
    || IsAbsent(CellOf(spawn, "payload"))
    || (tag == "SpawnSubspecies" && IsAbsent(CellOf(spawn, "socket_path")))
    || (common.Nested? && common.table.Some? && IsAbsent(CellOf(common.table.value, "rlimits")))
  }

  lemma LimitsRequired(common: Table)
    ensures TableVerifies(COMMON_SCHEMA, common) ==> !IsAbsent(CellOf(common, "rlimits"))
  {
    var i := |ID_SCHEMA + NAME_SCHEMA + CAP_SCHEMA| + 2;
    assert COMMON_SCHEMA[i] == TAIL_SCHEMA[2] == RLIMITS_SCHEMA;
    if TableVerifies(COMMON_SCHEMA, common) { assert FieldVerifies(RLIMITS_SCHEMA, common); }
  }

  lemma SpawnIncomplete(tag: string, spawn: Table)
    requires Incomplete(tag, spawn)
    ensures tag == "Spawn" ==> !TableVerifies(SPAWN_SCHEMA, spawn)
    ensures tag == "SpawnSubspecies" ==> !TableVerifies(SPAWN_SUBSPECIES_SCHEMA, spawn)
  {
    SpawnsVerify(spawn);
    var common := CellOf(spawn, "common");
    if common.Nested? && common.table.Some? { LimitsRequired(common.table.value); }
    assert SPAWN_SUBSPECIES_SCHEMA[1] == RequiredText("socket_path");
  }

  /** A spawn request without a payload or a socket path, or whose parameters have no limits, is
      garbage, not even one that aborts the server. */
  lemma IncompleteIsGarbage(parcel: Table, tag: string, spawn: Table)
    requires tag == "Spawn" || tag == "SpawnSubspecies"
    requires CellOf(parcel, TypeField(MESSAGE_FIELD)) == Tag(tag) && CellOf(parcel, MESSAGE_FIELD) == Nested(Some(spawn))
    requires Incomplete(tag, spawn)
    ensures PacketOf(Buffer(parcel)) == Garbage
  {
    SpawnIncomplete(tag, spawn);
    MemberRefuses(tag, spawn);
    UnverifiedIsGarbage(parcel, tag, spawn);
  }

  lemma MemberRefuses(tag: string, spawn: Table)
    requires tag == "Spawn" ==> !TableVerifies(SPAWN_SCHEMA, spawn)
    requires tag == "SpawnSubspecies" ==> !TableVerifies(SPAWN_SUBSPECIES_SCHEMA, spawn)
    requires tag == "Spawn" || tag == "SpawnSubspecies"
    ensures !MemberVerifies(MESSAGE_MEMBERS, tag, spawn)
  {
    var i := if tag == "Spawn" then SPAWN_AT else SPAWN_SUBSPECIES_AT;
    SpawnsAt();
    assert MESSAGE_MEMBERS[i].tag == tag;
  }

  lemma UnverifiedIsGarbage(parcel: Table, tag: string, t: Table)
    requires CellOf(parcel, TypeField(MESSAGE_FIELD)) == Tag(tag) && CellOf(parcel, MESSAGE_FIELD) == Nested(Some(t))
    requires !MemberVerifies(MESSAGE_MEMBERS, tag, t)
    ensures PacketOf(Buffer(parcel)) == Garbage
  {
  }

  // ---- The common parameters of a typed message ----

  lemma {:induction false} TypedAt(fs: seq<FieldDecl>, vals: map<string, Value>, i: nat)
    requires FieldsTyped(fs, vals) && i < |fs|
    ensures HasType(fs[i].ty, FieldOf(vals, fs[i].name))
  {
    if i > 0 { TypedAt(fs[1..], vals, i - 1); }
  }

  lemma {:induction false} TypedParts(fs: seq<FieldDecl>, gs: seq<FieldDecl>, vals: map<string, Value>)
    ensures FieldsTyped(fs + gs, vals) <==> FieldsTyped(fs, vals) && FieldsTyped(gs, vals)
  {
    if |fs| == 0 {
      assert fs + gs == gs;
    } else {
      assert (fs + gs)[1..] == fs[1..] + gs;
      TypedParts(fs[1..], gs, vals);
    }
  }

  lemma IdsTyped(m: map<string, Value>)
    requires FieldsTyped(ID_FIELDS, m)
    ensures IsOpt(FieldOf(m, "selinux_flags"), IsU64) && IsOpt(FieldOf(m, "no_new_privs"), IsFlag)
    ensures IsOpt(FieldOf(m, "uid"), IsI32) && IsOpt(FieldOf(m, "gid"), IsI32)
  {
    forall i: nat | i < 4 ensures HasType(ID_FIELDS[i].ty, FieldOf(m, ID_FIELDS[i].name)) { TypedAt(ID_FIELDS, m, i); }
    assert ID_FIELDS[0] == SELINUX_FLAGS && ID_FIELDS[1] == NO_NEW_PRIVS;
    assert ID_FIELDS[2] == IdField("uid") && ID_FIELDS[3] == IdField("gid");
  }

  lemma NamesTyped(m: map<string, Value>)
    requires FieldsTyped(NAME_FIELDS, m)
    ensures IsOpt(FieldOf(m, "process_name"), IsText)
    ensures IsOpt(FieldOf(m, "priority_initial"), IsI32) && IsOpt(FieldOf(m, "priority_final"), IsI32)
  {
    forall i: nat | i < 3 ensures HasType(NAME_FIELDS[i].ty, FieldOf(m, NAME_FIELDS[i].name)) { TypedAt(NAME_FIELDS, m, i); }
    assert NAME_FIELDS[0] == StringField("process_name");
    assert NAME_FIELDS[1] == PriorityField("priority_initial") && NAME_FIELDS[2] == PriorityField("priority_final");
  }

  lemma CapsTyped(m: map<string, Value>)
    requires FieldsTyped(CAP_FIELDS, m)
    ensures IsOpt(FieldOf(m, "cap_effective"), IsCaps) && IsOpt(FieldOf(m, "cap_permitted"), IsCaps)
    ensures IsOpt(FieldOf(m, "cap_inheritable"), IsCaps) && IsOpt(FieldOf(m, "cap_bound"), IsCaps)
  {
    forall i: nat | i < 4 ensures HasType(CAP_FIELDS[i].ty, FieldOf(m, CAP_FIELDS[i].name)) { TypedAt(CAP_FIELDS, m, i); }
    assert CAP_FIELDS[0] == CapsField("cap_effective") && CAP_FIELDS[1] == CapsField("cap_permitted");
    assert CAP_FIELDS[2] == CapsField("cap_inheritable") && CAP_FIELDS[3] == CapsField("cap_bound");
  }

  lemma TailTyped(m: map<string, Value>)
    requires FieldsTyped(TAIL_FIELDS, m)
    ensures IsOpt(FieldOf(m, "se_info"), IsText)
    ensures IsList(FieldOf(m, "secondary_groups"), GID_VECTOR_SIZE, IsU32)
    ensures IsList(FieldOf(m, "rlimits"), RLIMIT_VECTOR_SIZE, IsLimit)
  {
    forall i: nat | i < 3 ensures HasType(TAIL_FIELDS[i].ty, FieldOf(m, TAIL_FIELDS[i].name)) { TypedAt(TAIL_FIELDS, m, i); }
    assert TAIL_FIELDS[0] == StringField("se_info");
    assert TAIL_FIELDS[1] == VectorField("secondary_groups", GID_VECTOR_SIZE, IsU32);
    assert TAIL_FIELDS[2] == VectorField("rlimits", RLIMIT_VECTOR_SIZE, IsLimit);
  }

  lemma GroupsHeld(v: Value)
    requires IsList(v, GID_VECTOR_SIZE, IsU32)
    ensures v == GroupsValue(ElementsOf(v, GroupOf)) && |ElementsOf(v, GroupOf)| <= GID_VECTOR_SIZE
    ensures forall g | g in ElementsOf(v, GroupOf) :: 0 <= g < 0x1_0000_0000
  {
    var groups := ElementsOf(v, GroupOf);
    forall i | 0 <= i < |groups| ensures v.elems[i] == Num(groups[i]) && 0 <= groups[i] < 0x1_0000_0000 {
      assert v.elems[i] in v.elems;
    }
    assert v.elems == GroupsValue(groups).elems;
  }

  lemma LimitsHeld(v: Value)
    requires IsList(v, RLIMIT_VECTOR_SIZE, IsLimit)
    ensures v == LimitsValue(ElementsOf(v, LimitOf)) && |ElementsOf(v, LimitOf)| <= RLIMIT_VECTOR_SIZE
  {
    var limits := ElementsOf(v, LimitOf);
    forall i | 0 <= i < |limits|
      ensures v.elems[i] == Limit(limits[i].resource, limits[i].hard, limits[i].soft)
    {
      assert v.elems[i] in v.elems;
    }
    assert v.elems == LimitsValue(limits).elems;
  }

  lemma NumHeld(v: Value, lo: int, hi: int)
    requires IsOpt(v, x => IsNum(x, lo, hi))
    ensures v == NumValue(NumOf(v)) && InRange(NumOf(v), lo, hi)
  {
  }

  lemma TextHeld(v: Value)
    requires IsOpt(v, IsText)
    ensures v == TextValue(StringOf(v))
  {
  }

  lemma CapsHeld(v: Value)
    requires IsOpt(v, IsCaps)
    ensures v == CapsValue(CapsOf(v)) && CapsFit(CapsOf(v))
  {
  }

  lemma IdsHeld(m: map<string, Value>)
    requires FieldsTyped(ID_FIELDS, m)
    ensures var p := ParamsOf(m);
            && FieldOf(m, "selinux_flags") == NumValue(p.selinuxFlags)
            && FieldOf(m, "no_new_privs") == FlagValue(p.noNewPrivs)
            && FieldOf(m, "uid") == NumValue(p.uid) && FieldOf(m, "gid") == NumValue(p.gid)
            && InRange(p.selinuxFlags, 0, TWO_64)
            && InRange(p.uid, -I32_MAX - 1, I32_MAX + 1) && InRange(p.gid, -I32_MAX - 1, I32_MAX + 1)
  {
    IdsTyped(m);
    NumHeld(FieldOf(m, "selinux_flags"), 0, TWO_64);
    NumHeld(FieldOf(m, "uid"), -I32_MAX - 1, I32_MAX + 1);
    NumHeld(FieldOf(m, "gid"), -I32_MAX - 1, I32_MAX + 1);
  }

  lemma NamesHeld(m: map<string, Value>)
    requires FieldsTyped(NAME_FIELDS, m)
    ensures var p := ParamsOf(m);
            && FieldOf(m, "process_name") == TextValue(p.processName)
            && FieldOf(m, "priority_initial") == NumValue(p.priorityInitial)
            && FieldOf(m, "priority_final") == NumValue(p.priorityFinal)
            && InRange(p.priorityInitial, -I32_MAX - 1, I32_MAX + 1) && InRange(p.priorityFinal, -I32_MAX - 1, I32_MAX + 1)
  {
    NamesTyped(m);
    TextHeld(FieldOf(m, "process_name"));
    NumHeld(FieldOf(m, "priority_initial"), -I32_MAX - 1, I32_MAX + 1);
    NumHeld(FieldOf(m, "priority_final"), -I32_MAX - 1, I32_MAX + 1);
  }

  lemma FlagsHeld(m: map<string, Value>)
    requires FieldsTyped(CAP_FIELDS, m)
    ensures var p := ParamsOf(m);
            && FieldOf(m, "cap_effective") == CapsValue(p.capEffective)
            && FieldOf(m, "cap_permitted") == CapsValue(p.capPermitted)
            && FieldOf(m, "cap_inheritable") == CapsValue(p.capInheritable)
            && FieldOf(m, "cap_bound") == CapsValue(p.capBound)
            && CapsFit(p.capEffective) && CapsFit(p.capPermitted) && CapsFit(p.capInheritable) && CapsFit(p.capBound)
  {
    CapsTyped(m);
    CapsHeld(FieldOf(m, "cap_effective"));
    CapsHeld(FieldOf(m, "cap_permitted"));
    CapsHeld(FieldOf(m, "cap_inheritable"));
    CapsHeld(FieldOf(m, "cap_bound"));
  }

  lemma TailHeld(m: map<string, Value>)
    requires FieldsTyped(TAIL_FIELDS, m)
    ensures var p := ParamsOf(m);
            && FieldOf(m, "se_info") == TextValue(p.seInfo)
            && FieldOf(m, "secondary_groups") == GroupsValue(p.secondaryGroups)
            && FieldOf(m, "rlimits") == LimitsValue(p.rlimits)
            && Fits(p) && forall g | g in p.secondaryGroups :: 0 <= g < 0x1_0000_0000
  {
    TailTyped(m);
    TextHeld(FieldOf(m, "se_info"));
    GroupsHeld(FieldOf(m, "secondary_groups"));
    LimitsHeld(FieldOf(m, "rlimits"));
  }

  /** Typed fields are the fields of some parameters a client can hold. */
  lemma CommonHeld(m: map<string, Value>)
    requires FieldsTyped(COMMON_FIELDS, m)
    ensures HoldsParams(m, ParamsOf(m)) && ValidParams(ParamsOf(m))
  {
    TypedParts(ID_FIELDS + NAME_FIELDS + CAP_FIELDS, TAIL_FIELDS, m);
    TypedParts(ID_FIELDS + NAME_FIELDS, CAP_FIELDS, m);
    TypedParts(ID_FIELDS, NAME_FIELDS, m);
    IdsHeld(m);
    NamesHeld(m);
    FlagsHeld(m);
    TailHeld(m);
  }

  lemma {:induction false} ArriveAlike(rows: seq<Row>, m: map<string, Value>, n: map<string, Value>)
    requires forall row | row in rows :: FieldOf(m, row.name) == FieldOf(n, row.name)
    ensures AllArrived(rows, m) == AllArrived(rows, n)
  {
    if |rows| > 0 {
      assert rows[0] in rows && forall r | r in rows[1..] :: r in rows;
      ArriveAlike(rows[1..], m, n);
    }
  }

  predicate IsParamName(name: string) {
    name in ["selinux_flags", "no_new_privs", "uid", "gid", "process_name", "priority_initial", "priority_final",
             "cap_effective", "cap_permitted", "cap_inheritable", "cap_bound", "se_info", "secondary_groups", "rlimits"]
  }

  predicate ParamRows(rows: seq<Row>) {
    forall i | 0 <= i < |rows| :: IsParamName(rows[i].name)
  }

  lemma RowsJoined(rows: seq<Row>, more: seq<Row>)
    requires ParamRows(rows) && ParamRows(more)
    ensures ParamRows(rows + more)
  {
  }

  lemma CommonRowsNamed()
    ensures ParamRows(COMMON_ROWS)
  {
    RowsJoined(ID_ROWS, NAME_ROWS);
    RowsJoined(ID_ROWS + NAME_ROWS, CAP_ROWS);
    RowsJoined(ID_ROWS + NAME_ROWS + CAP_ROWS, TAIL_ROWS);
  }

  lemma HeldAlike(m: map<string, Value>, n: map<string, Value>, p: SpawnParamsCommon, name: string)
    requires HoldsParams(m, p) && HoldsParams(n, p) && IsParamName(name)
    ensures FieldOf(m, name) == FieldOf(n, name)
  {
  }

  lemma CommonArrivesNormal(m: map<string, Value>, p: SpawnParamsCommon)
    requires HoldsParams(m, p) && ValidParams(p)
    ensures AllArrived(COMMON_ROWS, m) == ParamFields(NormalParams(p))
  {
    ParamsAreHeld(p);
    CommonRowsNamed();
    forall row | row in COMMON_ROWS ensures FieldOf(m, row.name) == FieldOf(ParamFields(p), row.name) {
      HeldAlike(m, ParamFields(p), p, row.name);
    }
    ArriveAlike(COMMON_ROWS, m, ParamFields(p));
    CommonIsNormal(p);
  }

  // ---- Requests ----

  /** A spawn request carries these parameters and a payload of this kind. */
  ghost predicate Carries(v: Value, p: SpawnParamsCommon, kind: PayloadKind) {
    && v.Variant? && (v.name == "Spawn" || v.name == "SpawnSubspecies") && ValidParams(p)
    && FieldOf(v.fields, "common").Record? && HoldsParams(FieldOf(v.fields, "common").fields, p)
    && FieldOf(v.fields, "payload").Variant? && FieldOf(v.fields, "payload").name == kind
  }

  lemma SpawnsTyped(v: Value)
    requires HasEnumType(MESSAGE, v)
    ensures v.name == "Spawn" ==> FieldsTyped(SPAWN_FIELDS, v.fields)
    ensures v.name == "SpawnSubspecies" ==> FieldsTyped(SPAWN_SUBSPECIES_FIELDS, v.fields)
  {
    SpawnNames();
  }

  /** Every typed spawn request carries some, and for a subspecies a socket path. */
  lemma TypedCarries(v: Value) returns (p: SpawnParamsCommon, kind: PayloadKind)
    requires HasEnumType(MESSAGE, v) && (v.name == "Spawn" || v.name == "SpawnSubspecies")
    ensures Carries(v, p, kind)
    ensures v.name == "SpawnSubspecies" ==> FieldOf(v.fields, "socket_path").Text?
  {
    SpawnsTyped(v);
    if v.name == "Spawn" {
      TypedAt(SPAWN_FIELDS, v.fields, 0);
      TypedAt(SPAWN_FIELDS, v.fields, 1);
    } else {
      TypedAt(SPAWN_SUBSPECIES_FIELDS, v.fields, 0);
      TypedAt(SPAWN_SUBSPECIES_FIELDS, v.fields, 1);
      TypedAt(SPAWN_SUBSPECIES_FIELDS, v.fields, 2);
    }
    p, kind := ParamsOf(FieldOf(v.fields, "common").fields), FieldOf(v.fields, "payload").name;
    CommonHeld(FieldOf(v.fields, "common").fields);
  }

  lemma SocketPathRow()
    ensures RowIs(SPAWN_SUBSPECIES_ROWS, Row("socket_path", AsSent))
  {
    assert Row("socket_path", AsSent) == SPAWN_SUBSPECIES_ROWS[1];
  }

  lemma CommonReachesAs(v: Value, p: SpawnParamsCommon, kind: PayloadKind)
    requires Carries(v, p, kind)
    ensures Arrived(COMMON_ROW.arrival, FieldOf(v.fields, "common")) == Record(ParamFields(NormalParams(p)))
  {
    CommonArrivesNormal(FieldOf(v.fields, "common").fields, p);
  }

  lemma CommonReaches(v: Value, p: SpawnParamsCommon, kind: PayloadKind)
    requires Carries(v, p, kind)
    ensures Received(v).Variant? && CommonOf(Received(v).fields) == NormalParams(p)
  {
    var rows := if v.name == "Spawn" then SPAWN_ROWS else SPAWN_SUBSPECIES_ROWS;
    SpawnRowsFound();
    SpawnRows();
    CommonReachesAs(v, p, kind);
    PartReceived(MESSAGE_ARRIVES, v, rows, COMMON_ROW, Record(ParamFields(NormalParams(p))));
    ParamsSurvive(NormalParams(p));
  }

  lemma PayloadReaches(v: Value, p: SpawnParamsCommon, kind: PayloadKind)
    requires Carries(v, p, kind)
    ensures Received(v).Variant? && KindOf(Received(v).fields) == kind
  {
    var rows := if v.name == "Spawn" then SPAWN_ROWS else SPAWN_SUBSPECIES_ROWS;
    var payload := FieldOf(v.fields, "payload");
    SpawnRowsFound();
    SpawnRows();
    KindArrives(payload);
    PartReceived(MESSAGE_ARRIVES, v, rows, PAYLOAD_ROW, Arrived(PAYLOAD_ROW.arrival, payload));
  }

  lemma PathReaches(v: Value, path: string)
    requires v.Variant? && v.name == "SpawnSubspecies" && FieldOf(v.fields, "socket_path") == Text(path)
    ensures Received(v).Variant? && PathOf(Received(v).fields) == path
  {
    SpawnRowsFound();
    SocketPathRow();
    PartReceived(MESSAGE_ARRIVES, v, SPAWN_SUBSPECIES_ROWS, Row("socket_path", AsSent), Text(path));
  }

  /** A decoded message, by its name. */
  lemma RequestByName(v: Value)
    requires v.Variant?
    ensures RequestOf(v).Exit? <==> v.name == "Exit"
    ensures RequestOf(v).IdentityQuery? <==> v.name == "IdentityQuery"
    ensures RequestOf(v).Stat? <==> v.name == "Stat"
    ensures RequestOf(v).Spawn? <==> v.name == "Spawn"
    ensures RequestOf(v).SpawnSubspecies? <==> v.name == "SpawnSubspecies"
  {
  }

  ghost predicate NamesRequest(name: string, packet: Packet) {
    && packet.Parcel?
    && (packet.request.Exit? <==> name == "Exit") && (packet.request.IdentityQuery? <==> name == "IdentityQuery")
    && (packet.request.Stat? <==> name == "Stat") && (packet.request.Spawn? <==> name == "Spawn")
    && (packet.request.SpawnSubspecies? <==> name == "SpawnSubspecies")
  }

  /** Every message a client can encode reaches the server as the request of its name; one that
      is a reply reaches it as no request. */
  lemma MessageReaches(v: Value)
    requires HasEnumType(MESSAGE, v)
    ensures NamesRequest(v.name, PacketOf(Buffer(ToParcel(MESSAGE, v))))
  {
    MessageRoundTrip(v);
    PacketIs(ToParcel(MESSAGE, v), Received(v));
    RequestByName(Received(v));
  }

  /** A spawn request reaches it with the parameters' normal form and the payload's kind. */
  lemma SpawnReaches(v: Value, p: SpawnParamsCommon, kind: PayloadKind)
    requires HasEnumType(MESSAGE, v) && v.name == "Spawn" && Carries(v, p, kind)
    ensures PacketOf(Buffer(ToParcel(MESSAGE, v))) == Parcel(Spawn(NormalParams(p), kind))
  {
    MessageRoundTrip(v);
    PacketIs(ToParcel(MESSAGE, v), Received(v));
    CommonReaches(v, p, kind);
    PayloadReaches(v, p, kind);
  }

  /** A request for a subspecies does so too, with the socket its path spells. */
  lemma SubspeciesReaches(v: Value, p: SpawnParamsCommon, kind: PayloadKind, path: string)
    requires HasEnumType(MESSAGE, v) && v.name == "SpawnSubspecies" && Carries(v, p, kind)
    requires FieldOf(v.fields, "socket_path") == Text(path)
    ensures PacketOf(Buffer(ToParcel(MESSAGE, v))) == Parcel(SpawnSubspecies(NormalParams(p), SocketArgOf(path), kind))
  {
    MessageRoundTrip(v);
    PacketIs(ToParcel(MESSAGE, v), Received(v));
    CommonReaches(v, p, kind);
    PayloadReaches(v, p, kind);
    PathReaches(v, path);
    RequestByName(Received(v));
  }

  /** Parameters written as the encoder's argument are the ones carried. */
  lemma MadeIsCarried(p: SpawnParamsCommon, m: map<string, Value>)
    ensures HoldsParams(ParamFields(p), p)
    ensures HoldsParams(m, p) ==> ParamsOf(m) == p
  {
    ParamsAreHeld(p);
    if HoldsParams(m, p) { ParamsAreRead(m, p); }
  }
}
