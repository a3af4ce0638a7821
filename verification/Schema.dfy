/** The FlatBuffers schema of a message: which tables the verifier lets a decoder see. */
module Schema {
  import opened Results
  import opened Parcel

  /** Fields as the schema declares them.  A scalar that was not written reads as its default,
      so a table always has one; strings, vectors, tables and unions may be absent. */
  datatype WireType =
    | ScalarType(holds: Value -> bool)
    | TextType
    | VectorType(element: Value -> bool)
    | TableType(fields: seq<WireField>)
    | UnionType(members: seq<WireMember>)

  datatype WireField = WireField(name: string, ty: WireType, required: bool)

  datatype WireMember = WireMember(tag: string, fields: seq<WireField>)

  predicate IsAbsent(c: Cell) {
    c == Ref(None) || c == Nested(None)
  }

  /** A field that holds a value and no table. */
  predicate CellVerifies(f: WireField, c: Cell) {
    match f.ty
    case ScalarType(holds) => c.Scalar? && holds(c.v)
    case TextType => if IsAbsent(c) then !f.required else c.Ref? && c.o.value.Text?
    case VectorType(element) =>
      if IsAbsent(c) then !f.required else c.Ref? && c.o.value.List? && forall e | e in c.o.value.elems :: element(e)
    case TableType(_) | UnionType(_) => false
  }

  predicate FieldVerifies(f: WireField, t: Table)
    decreases f, 0
  {
    var c := CellOf(t, f.name);
    match f.ty
    case TableType(fields) => if IsAbsent(c) then !f.required else c.Nested? && TableVerifies(fields, c.table.value)
    case UnionType(members) =>
      var tag := CellOf(t, TypeField(f.name));
      if IsAbsent(tag) && IsAbsent(c) then !f.required
      else tag.Tag? && c.Nested? && c.table.Some? && MemberVerifies(members, tag.tag, c.table.value)
    case _ => CellVerifies(f, c)
  }

  predicate TableVerifies(fs: seq<WireField>, t: Table)
    decreases fs, 0
  {
    forall i | 0 <= i < |fs| :: FieldVerifies(fs[i], t)
  }

  /** A tag the schema does not know is for the decoder to refuse. */
  predicate MemberVerifies(members: seq<WireMember>, tag: string, t: Table)
    decreases members, 0
  {
    forall i | 0 <= i < |members| :: members[i].tag == tag ==> TableVerifies(members[i].fields, t)
  }

  /** Verification, then decoding. */
  function TryFromParcel(members: seq<WireMember>, d: EnumDecl, parcel: Table): Outcome<Value, ParcelError> {
    if FieldVerifies(WireField(MESSAGE_FIELD, UnionType(members), false), parcel) then DecodeParcel(d, parcel)
    else Err(InvalidFlatBuffer)
  }

  // ---- A declaration that writes what a schema wants ----

  ghost predicate Writes(f: FieldDecl, w: WireField)
    decreases f, 1
  {
    f.name == w.name &&
    match ChooseMarshal(f.attrs)
    case MFlatten => false
    case MTable => f.ty.StructType? && w.ty.TableType? && AllWrite(f.ty.struct.fields, w.ty.fields)
    case MUnion => f.ty.EnumType? && w.ty.UnionType? && VariantsWrite(f.ty.enum.variants, w.ty.members)
    case _ =>
      f.ty.Leaf? && !w.ty.TableType? && !w.ty.UnionType?
      && forall v: Value | f.ty.valid(v) :: CellVerifies(w, LeafCell(f, v))
  }

  ghost predicate AllWrite(fs: seq<FieldDecl>, ws: seq<WireField>)
    decreases fs, 0
  {
    |fs| == |ws| && forall i | 0 <= i < |fs| :: Writes(fs[i], ws[i])
  }

  ghost predicate VariantsWrite(vs: seq<VariantDecl>, ms: seq<WireMember>)
    decreases vs, 0
  {
    |vs| == |ms| && forall i | 0 <= i < |vs| :: vs[i].innerName == ms[i].tag && AllWrite(vs[i].fields, ms[i].fields)
  }

  lemma {:induction false} WrittenFieldVerifies(f: FieldDecl, w: WireField, v: Value, table: string, args: Table, t: Table)
    requires Writes(f, w) && FieldOk(f, table) && Distinct(FieldNames(f)) && HasType(f.ty, v)
    requires AgreeOn(t, EncodeField(f, v, args), FieldNames(f))
    ensures FieldVerifies(w, t)
    decreases f, 1
  {
    assert f.name in FieldNames(f);
    match ChooseMarshal(f.attrs)
    case MTable =>
      var inner := EncodeFields(f.ty.struct.fields, v.fields, map[]);
      NamesWritten(f.ty.struct.fields, v.fields, f.ty.struct.innerName, map[]);
      WrittenTableVerifies(f.ty.struct.fields, w.ty.fields, v.fields, f.ty.struct.innerName, map[], inner);
    case MUnion =>
      assert TypeField(f.name) in FieldNames(f) && |TypeField(f.name)| > |f.name|;
      WrittenUnionVerifies(f.ty.enum, f.name, w.ty.members, w.required, v, args, t);
    case _ =>
  }

  lemma {:induction false} WrittenUnionVerifies(d: EnumDecl, name: string, ms: seq<WireMember>, required: bool,
                                                v: Value, args: Table, t: Table)
    requires VariantsWrite(d.variants, ms) && EnumOk(d) && HasEnumType(d, v)
    requires AgreeOn(t, EncodeUnion(d, name, v, args), [TypeField(name), name])
    ensures FieldVerifies(WireField(name, UnionType(ms), required), t)
    decreases d, 2
  {
    var variant := ByName(d.variants, v.name).value;
    var inner := EncodeFields(variant.fields, v.fields, map[]);
    assert name in [TypeField(name), name] && TypeField(name) in [TypeField(name), name];
    assert |TypeField(name)| > |name|;
    forall i | 0 <= i < |ms| && ms[i].tag == variant.innerName ensures TableVerifies(ms[i].fields, inner) {
      TagIsVariant(d, variant, i);
      NamesWritten(variant.fields, v.fields, variant.innerName, map[]);
      WrittenTableVerifies(variant.fields, ms[i].fields, v.fields, variant.innerName, map[], inner);
    }
    assert MemberVerifies(ms, variant.innerName, inner);
  }

  lemma TagIsVariant(d: EnumDecl, variant: VariantDecl, i: nat)
    requires EnumOk(d) && variant in d.variants && i < |d.variants| && d.variants[i].innerName == variant.innerName
    ensures d.variants[i] == variant
  {
  }

  lemma {:induction false} WrittenTableVerifies(fs: seq<FieldDecl>, ws: seq<WireField>, vals: map<string, Value>,
                                                table: string, args: Table, t: Table)
    requires AllWrite(fs, ws) && FieldsOk(fs, table) && Distinct(AllNames(fs)) && FieldsTyped(fs, vals)
    requires AgreeOn(t, EncodeFields(fs, vals, args), AllNames(fs))
    ensures TableVerifies(ws, t)
    decreases fs, 0
  {
    if |fs| > 0 {
      var f, rest := fs[0], fs[1..];
      var v := FieldOf(vals, f.name);
      var mid := EncodeField(f, v, args);
      SplitNames(FieldNames(f), AllNames(rest));
      forall n | n in FieldNames(f) ensures n in t && n in mid && t[n] == mid[n] {
        assert n in AllNames(fs);
        EncodeFieldsFrame(rest, vals, mid, n);
      }
      assert Writes(f, ws[0]);
      WrittenFieldVerifies(f, ws[0], v, table, args, t);
      assert forall n | n in AllNames(rest) :: n in AllNames(fs);
      WrittenTableVerifies(rest, ws[1..], vals, table, mid, t);
      assert forall i | 0 < i < |ws| :: ws[i] == ws[1..][i - 1];
    }
  }

  /** Every encoded message passes the verifier and is decoded to its normal form. */
  lemma VerifiedRoundTrip(ms: seq<WireMember>, d: EnumDecl, v: Value)
    requires VariantsWrite(d.variants, ms) && EnumOk(d) && HasEnumType(d, v)
    ensures TryFromParcel(ms, d, ToParcel(d, v)) == Ok(NormUnion(d, v))
    ensures TryFromParcel(ms, d, ToParcel(d, NormUnion(d, v))) == Ok(NormUnion(d, v))
  {
    ParcelRoundTrip(d, v);
    WrittenUnionVerifies(d, MESSAGE_FIELD, ms, false, v, map[], ToParcel(d, v));
    WrittenUnionVerifies(d, MESSAGE_FIELD, ms, false, NormUnion(d, v), map[], ToParcel(d, NormUnion(d, v)));
  }
}
