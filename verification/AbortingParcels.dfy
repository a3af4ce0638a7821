/** Parcels the verifier accepts and whose decoding aborts the server; `Packets.AbortsExactly`
    has the exact condition. */
module AbortingParcels {
  import opened Results
  import opened Parcel
  import opened SpawnParams
  import opened Messages
  import opened Schema
  import opened Wire
  import opened Packets

  const TURTLE: Table := map["name" := Ref(Some(Text("turtle")))]

  /** A spawn request with the common parameters `common`. */
  function SpawnWith(common: Cell): Table {
    map["common" := common, TypeField("payload") := Tag("SpawnMock"), "payload" := Nested(Some(TURTLE))]
  }

  function Message(spawn: Table): Table {
    map[TypeField(MESSAGE_FIELD) := Tag("Spawn"), MESSAGE_FIELD := Nested(Some(spawn))]
  }

  lemma TurtleVerifies(common: Cell)
    ensures FieldVerifies(PAYLOAD_WIRE, SpawnWith(common))
  {
    assert |TypeField("payload")| == 12;
    forall i | 0 <= i < |PAYLOAD_MEMBERS| && PAYLOAD_MEMBERS[i].tag == "SpawnMock"
      ensures TableVerifies(PAYLOAD_MEMBERS[i].fields, TURTLE)
    {
      MockOnly(i);
      assert MOCK_SCHEMA == [RequiredText("name")];
    }
    assert MemberVerifies(PAYLOAD_MEMBERS, "SpawnMock", TURTLE);
  }

  lemma MockOnly(i: nat)
    requires i < |PAYLOAD_MEMBERS| && PAYLOAD_MEMBERS[i].tag == "SpawnMock"
    ensures PAYLOAD_MEMBERS[i].fields == MOCK_SCHEMA
  {
  }

  lemma SpawnOnly(i: nat)
    requires i < |MESSAGE_MEMBERS| && MESSAGE_MEMBERS[i].tag == "Spawn"
    ensures MESSAGE_MEMBERS[i].fields == SPAWN_SCHEMA
  {
    VariantFields(i);
    SameTag(i, "Spawn");
  }

  lemma MessageVerifies(common: Cell)
    requires FieldVerifies(COMMON_WIRE, SpawnWith(common))
    ensures Verified(Message(SpawnWith(common)))
  {
    var spawn := SpawnWith(common);
    TurtleVerifies(common);
    assert SPAWN_SCHEMA == [COMMON_WIRE, PAYLOAD_WIRE];
    forall i | 0 <= i < |MESSAGE_MEMBERS| && MESSAGE_MEMBERS[i].tag == "Spawn"
      ensures TableVerifies(MESSAGE_MEMBERS[i].fields, spawn)
    {
      SpawnOnly(i);
    }
    assert MemberVerifies(MESSAGE_MEMBERS, "Spawn", spawn);
    assert |TypeField(MESSAGE_FIELD)| == 12;
  }

  /** A spawn request that leaves its common parameters out, as the schema allows. */
  lemma MissingCommonAborts()
    ensures Verified(Message(SpawnWith(Nested(None)))) && PacketOf(Buffer(Message(SpawnWith(Nested(None))))) == Fatal
  {
    var common := Nested(None);
    assert CellOf(SpawnWith(common), "common") == common by { assert |TypeField("payload")| == 12; }
    MessageVerifies(common);
    assert |TypeField(MESSAGE_FIELD)| == 12;
    AbortsExactly(Message(SpawnWith(common)));
  }

  // ---- More groups than fit ----

  /** The parameters `p`, but for a list of groups another encoder chose. */
  function Crowded(p: SpawnParamsCommon, groups: seq<int>): Table {
    EncodeFields(COMMON_FIELDS, ParamFields(p), map[])["secondary_groups" := Ref(Some(GroupsValue(groups)))]
  }

  lemma EncodedCommonVerifies(p: SpawnParamsCommon)
    requires ValidParams(p)
    ensures TableVerifies(COMMON_SCHEMA, EncodeFields(COMMON_FIELDS, ParamFields(p), map[]))
  {
    CommonOk();
    CommonNames();
    CommonWrites();
    ParamsNormal(p);
    LeavesNormalise(COMMON_FIELDS, ParamValues(p), ParamValues(NormalParams(p)));
    NamesWritten(COMMON_FIELDS, ParamFields(p), "SpawnCommon", map[]);
    WrittenTableVerifies(COMMON_FIELDS, COMMON_SCHEMA, ParamFields(p), "SpawnCommon", map[],
                         EncodeFields(COMMON_FIELDS, ParamFields(p), map[]));
  }

  lemma SchemaNames(i: nat)
    requires i < |COMMON_SCHEMA|
    ensures |COMMON_SCHEMA| == 14 && COMMON_SCHEMA[12] == GROUPS_SCHEMA
    ensures COMMON_SCHEMA[i].name == "secondary_groups" <==> i == 12
    ensures !COMMON_SCHEMA[i].ty.TableType? && !COMMON_SCHEMA[i].ty.UnionType?
  {
    CommonWrites();
    CommonNames();
    ParamNames();
    assert Writes(COMMON_FIELDS[i], COMMON_SCHEMA[i]);
  }

  lemma CrowdedVerifies(p: SpawnParamsCommon, groups: seq<int>)
    requires ValidParams(p) && forall g | g in groups :: 0 <= g < 0x1_0000_0000
    ensures TableVerifies(COMMON_SCHEMA, Crowded(p, groups))
  {
    var t, crowded := EncodeFields(COMMON_FIELDS, ParamFields(p), map[]), Crowded(p, groups);
    EncodedCommonVerifies(p);
    forall e | e in GroupsValue(groups).elems ensures IsU32(e) {
      var j :| 0 <= j < |groups| && Num(groups[j]) == e;
      assert groups[j] in groups;
    }
    forall i | 0 <= i < |COMMON_SCHEMA| ensures FieldVerifies(COMMON_SCHEMA[i], crowded) {
      SchemaNames(i);
      assert FieldVerifies(COMMON_SCHEMA[i], t);
      assert i != 12 ==> CellOf(crowded, COMMON_SCHEMA[i].name) == CellOf(t, COMMON_SCHEMA[i].name);
    }
  }

  /** A request with more than 32 groups, even if they are all the same one and merging would
      leave that one. */
  lemma CrowdedAborts(p: SpawnParamsCommon, groups: seq<int>)
    requires ValidParams(p) && |groups| > GID_VECTOR_SIZE && forall g | g in groups :: 0 <= g < 0x1_0000_0000
    ensures var parcel := Message(SpawnWith(Nested(Some(Crowded(p, groups)))));
            Verified(parcel) && PacketOf(Buffer(parcel)) == Fatal
  {
    var common := Nested(Some(Crowded(p, groups)));
    CrowdedVerifies(p, groups);
    SpawnAbortsWith(common);
    AbortsExactly(Message(SpawnWith(common)));
  }

  lemma SpawnAbortsWith(common: Cell)
    requires common.Nested? && common.table.Some? && TableVerifies(COMMON_SCHEMA, common.table.value)
    requires CommonOverlong(common.table.value)
    ensures Verified(Message(SpawnWith(common))) && Aborts(Message(SpawnWith(common)))
  {
    assert CellOf(SpawnWith(common), "common") == common by { assert |TypeField("payload")| == 12; }
    MessageVerifies(common);
    assert |TypeField(MESSAGE_FIELD)| == 12;
  }

  /** 33 times the same group. */
  lemma EqualGroupsMerge(g: int, n: nat)
    requires n > 0
    ensures Unique(seq(n, i => g)) == [g]
  {
    var s := seq(n, i => g);
    if n == 1 {
      assert s == [g];
    } else {
      assert s[..|s| - 1] == seq(n - 1, i => g);
      EqualGroupsMerge(g, n - 1);
    }
  }
}
