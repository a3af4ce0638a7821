/** The schema of the zygote protocol, and the proof that its declarations write it. */
module Wire {
  import opened Results
  import opened Parcel
  import opened SpawnParams
  import opened Messages
  import opened Schema

  function ScalarField(name: string, holds: Value -> bool): WireField {
    WireField(name, ScalarType(holds), false)
  }

  function NumScalar(name: string, lo: int, hi: int): WireField {
    ScalarField(name, v => IsNum(v, lo, hi))
  }

  function TextOf(name: string): WireField {
    WireField(name, TextType, false)
  }

  function RequiredText(name: string): WireField {
    WireField(name, TextType, true)
  }

  // ---- The tables ----

  const ID_SCHEMA: seq<WireField> := [
    ScalarField("selinux_flags", IsU64), ScalarField("no_new_privs", IsFlag), ScalarField("uid", IsI32),
      ScalarField("gid", IsI32)]
  const NAME_SCHEMA: seq<WireField> := [
    TextOf("process_name"), ScalarField("priority_initial", IsI32), ScalarField("priority_final", IsI32)]
  const CAP_SCHEMA: seq<WireField> := [
    ScalarField("cap_effective", IsCaps), ScalarField("cap_permitted", IsCaps),
    ScalarField("cap_inheritable", IsCaps), ScalarField("cap_bound", IsCaps)]
  const GROUPS_SCHEMA: WireField := WireField("secondary_groups", VectorType(IsU32), false)
  const RLIMITS_SCHEMA: WireField := WireField("rlimits", VectorType(IsLimit), true)
  const TAIL_SCHEMA: seq<WireField> := [TextOf("se_info"), GROUPS_SCHEMA, RLIMITS_SCHEMA]

  const COMMON_SCHEMA: seq<WireField> := ID_SCHEMA + NAME_SCHEMA + CAP_SCHEMA + TAIL_SCHEMA

  const ANDROID_NATIVE_SCHEMA: seq<WireField> := [
    WireField("preloading_cmd", VectorType(IsByte), false), RequiredText("package"),
    NumScalar("start_seq", -0x8000_0000_0000_0000, 0x8000_0000_0000_0000),
    NumScalar("target_sdk_version", -I32_MAX - 1, I32_MAX + 1),
    NumScalar("runtime_flags", 0, 0x1_0000_0000),
    ScalarField("top_app", IsFlag)]

  const SUBSPECIES_SCHEMA: seq<WireField> := [
    NumScalar("target_sdk_version", -I32_MAX - 1, I32_MAX + 1), NumScalar("runtime_flags", 0, 0x1_0000_0000),
    RequiredText("library_path"), RequiredText("library_dirs"), RequiredText("permitted_library_paths"),
    ScalarField("shared", IsFlag), RequiredText("zip_path"), RequiredText("native_shared_lib_path"),
    TextOf("preload_func"), NumScalar("uid_gid_min", 0, 0x1_0000_0000), NumScalar("uid_gid_max", 0, 0x1_0000_0000)]

  const ARGS_SCHEMA: WireField := WireField("args", VectorType(IsText), true)
  const LIB_APP_SCHEMA: seq<WireField> := [RequiredText("path"), ARGS_SCHEMA]

  const MOCK_SCHEMA: seq<WireField> := [RequiredText("name")]

  const PAYLOAD_MEMBERS: seq<WireMember> := [
    WireMember("SpawnAndroidNative", ANDROID_NATIVE_SCHEMA),
    WireMember("SpawnSubspeciesAndroidNative", SUBSPECIES_SCHEMA),
    WireMember("SpawnLibApp", LIB_APP_SCHEMA),
    WireMember("SpawnMock", MOCK_SCHEMA)]

  /** The common parameters are not required, the payload is. */
  const COMMON_WIRE: WireField := WireField("common", TableType(COMMON_SCHEMA), false)
  const PAYLOAD_WIRE: WireField := WireField("payload", UnionType(PAYLOAD_MEMBERS), true)

  const SPAWN_SCHEMA: seq<WireField> := [COMMON_WIRE, PAYLOAD_WIRE]
  const SPAWN_SUBSPECIES_SCHEMA: seq<WireField> := [COMMON_WIRE, RequiredText("socket_path"), PAYLOAD_WIRE]

  const IDENTITY_SCHEMA: seq<WireField> := [RequiredText("name"), RequiredText("species"), RequiredText("arch")]

  const PID_SCHEMA: seq<WireField> := [NumScalar("pid", -I32_MAX - 1, I32_MAX + 1)]

  function CountScalar(name: string): WireField {
    NumScalar(name, 0, TWO_64)
  }

  const STAT_SCHEMA: seq<WireField> := [
    NumScalar("pid", 0, 0x1_0000_0000), NumScalar("pgrp", 0, 0x1_0000_0000),
    CountScalar("minflt"), CountScalar("cminflt"), CountScalar("majflt"), CountScalar("cmajflt"),
    CountScalar("utime"), CountScalar("stime"), CountScalar("num_threads"), CountScalar("vsize"), CountScalar("rss")]

  const MESSAGE_MEMBERS: seq<WireMember> := [
    WireMember("Ack", []), WireMember("Exit", []), WireMember("IdentityQuery", []),
    WireMember("IdentityQueryResponse", IDENTITY_SCHEMA),
    WireMember("Spawn", SPAWN_SCHEMA), WireMember("SpawnSubspecies", SPAWN_SUBSPECIES_SCHEMA),
    WireMember("SpawnResponse", PID_SCHEMA), WireMember("Stat", []), WireMember("StatResponse", STAT_SCHEMA)]

  // ---- What the declarations write ----

  lemma PlainWrites(name: string, valid: Value -> bool)
    ensures Writes(PlainField(name, valid), ScalarField(name, valid))
  {
    var f := PlainField(name, valid);
    assert ChooseMarshal(f.attrs[1..]) == MPlain;
  }

  lemma ScalarsWrite()
    ensures forall name, lo, hi :: Writes(NumField(name, lo, hi), NumScalar(name, lo, hi))
    ensures forall name :: Writes(TextField(name), RequiredText(name))
  {
  }

  lemma DefaultedWrites(name: string, inner: Value -> bool, literal: Value, range: Value -> bool)
    requires inner(literal)
    ensures Writes(DefaultedField(name, inner, literal, range), ScalarField(name, inner))
  {
  }

  lemma StringWrites(name: string)
    ensures Writes(StringField(name), TextOf(name)) && Writes(OptTextField(name), TextOf(name))
  {
  }

  lemma CapsWrite(name: string)
    ensures Writes(CapsField(name), ScalarField(name, IsCaps))
  {
  }

  lemma VectorWrites(name: string, capacity: nat, element: Value -> bool, required: bool)
    ensures Writes(VectorField(name, capacity, element), WireField(name, VectorType(element), required))
  {
  }

  lemma BytesWrite(name: string)
    ensures Writes(BytesField(name), WireField(name, VectorType(IsByte), false))
  {
  }

  lemma WritesJoined(fs: seq<FieldDecl>, ws: seq<WireField>, gs: seq<FieldDecl>, more: seq<WireField>)
    requires AllWrite(fs, ws) && AllWrite(gs, more)
    ensures AllWrite(fs + gs, ws + more)
  {
  }

  lemma CommonWrites()
    ensures Writes(COMMON_FIELD, COMMON_WIRE)
  {
    IdsWrite();
    NamesAndCapsWrite();
    TailWrites();
    WritesJoined(ID_FIELDS, ID_SCHEMA, NAME_FIELDS, NAME_SCHEMA);
    WritesJoined(ID_FIELDS + NAME_FIELDS, ID_SCHEMA + NAME_SCHEMA, CAP_FIELDS, CAP_SCHEMA);
    WritesJoined(ID_FIELDS + NAME_FIELDS + CAP_FIELDS, ID_SCHEMA + NAME_SCHEMA + CAP_SCHEMA, TAIL_FIELDS, TAIL_SCHEMA);
  }

  lemma IdsWrite()
    ensures AllWrite(ID_FIELDS, ID_SCHEMA)
  {
    DefaultedWrites("selinux_flags", IsU64, Num(0), IsU64);
    DefaultedWrites("no_new_privs", IsFlag, Flag(false), IsFlag);
    DefaultedWrites("uid", IsI32, Num(-1), IsId);
    DefaultedWrites("gid", IsI32, Num(-1), IsId);
  }

  lemma NamesAndCapsWrite()
    ensures AllWrite(NAME_FIELDS, NAME_SCHEMA) && AllWrite(CAP_FIELDS, CAP_SCHEMA)
  {
    StringWrites("process_name");
    DefaultedWrites("priority_initial", IsI32, Num(I32_MAX), IsPriority);
    DefaultedWrites("priority_final", IsI32, Num(I32_MAX), IsPriority);
    CapsWrite("cap_effective");
    CapsWrite("cap_permitted");
    CapsWrite("cap_inheritable");
    CapsWrite("cap_bound");
  }

  lemma TailWrites()
    ensures AllWrite(TAIL_FIELDS, TAIL_SCHEMA)
  {
    StringWrites("se_info");
    VectorWrites("secondary_groups", GID_VECTOR_SIZE, IsU32, false);
    VectorWrites("rlimits", RLIMIT_VECTOR_SIZE, IsLimit, true);
  }

  lemma AppsWrite()
    ensures AllWrite(ANDROID_NATIVE_FIELDS, ANDROID_NATIVE_SCHEMA)
    ensures AllWrite(LIB_APP_FIELDS, LIB_APP_SCHEMA) && AllWrite(MOCK_FIELDS, MOCK_SCHEMA)
  {
    BytesWrite("preloading_cmd");
    PlainWrites("top_app", IsFlag);
    VectorWrites("args", MESSAGE_ARG_BUFFER_MAX, IsText, true);
    ScalarsWrite();
  }

  lemma SubspeciesWrites()
    ensures AllWrite(SUBSPECIES_FIELDS, SUBSPECIES_SCHEMA)
  {
    PlainWrites("shared", IsFlag);
    StringWrites("preload_func");
    ScalarsWrite();
  }

  lemma PayloadWrites(table: string)
    ensures Writes(PayloadField(table), PAYLOAD_WIRE)
  {
    AppsWrite();
    SubspeciesWrites();
  }

  lemma RequestsWrite()
    ensures AllWrite(SPAWN_FIELDS, SPAWN_SCHEMA) && AllWrite(SPAWN_SUBSPECIES_FIELDS, SPAWN_SUBSPECIES_SCHEMA)
  {
    CommonWrites();
    PayloadWrites("Spawn");
    PayloadWrites("SpawnSubspecies");
    ScalarsWrite();
  }

  lemma ResponsesWrite()
    ensures AllWrite(IDENTITY_FIELDS, IDENTITY_SCHEMA) && AllWrite(PID_FIELDS, PID_SCHEMA)
        && AllWrite(STAT_FIELDS, STAT_SCHEMA)
  {
    ScalarsWrite();
  }

  /** Every message the protocol can encode is one its own verifier accepts. */
  lemma AllMessagesWrite()
    ensures VariantsWrite(VARIANTS, MESSAGE_MEMBERS)
  {
    RequestsWrite();
    ResponsesWrite();
  }
}
