/** The marshalling derive macros: declarations with field attributes, and what the generated
    encoder and decoder do on FlatBuffers tables. */
module Parcel {
  import opened Results

  // ---- Run-time values and tables ----

  datatype Value =
    | Num(n: int)
    | Flag(b: bool)
    | Text(s: string)
    | Caps(bits: set<nat>)
    | Limit(resource: int, hard: int, soft: int)
    | Opt(o: Option<Value>)
    | List(elems: seq<Value>)
    | Record(fields: map<string, Value>)
    | Variant(name: string, fields: map<string, Value>)

  /** What one field of a table holds: a scalar, an offset to a string or vector, an
      offset to another table, or a union's type tag. */
  datatype Cell =
    | Scalar(v: Value)
    | Ref(o: Option<Value>)
    | Nested(table: Option<Table>)
    | Tag(tag: string)

  type Table = map<string, Cell>

  datatype ParcelError = InvalidFlatBuffer | UnknownVariant(union: string, tag: string)

  /** What a union's type field reads as when it was not written. */
  const NONE_TAG: string := "NONE"

  // ---- Declarations ----

  datatype MarshalItem = PackedItem | DefaultItem(literal: Value) | MarshalMapItem(marshal: Value -> Cell)

  /** A map function aborts on a cell that does not fit what it collects into. */
  datatype UnmarshalItem =
    | ValidRangeItem(range: Value -> bool)
    | UnmarshalMapItem(unmarshal: Cell -> Value, fits: Cell -> bool)

  datatype Attribute =
    | FlattenAttribute
    | TableAttribute
    | UnionAttribute(source: string)
    | MarshalAttribute(toWire: seq<MarshalItem>)
    | UnmarshalAttribute(fromWire: seq<UnmarshalItem>)
    | OtherAttribute

  /** A leaf type: its values, its `to_packed`, and how the accessor of its table field
      presents a cell. */
  datatype FieldType =
    | Leaf(valid: Value -> bool, pack: Value -> Cell, read: Cell -> Value)
    | StructType(struct: StructDecl)
    | EnumType(enum: EnumDecl)

  datatype FieldDecl = FieldDecl(name: string, ty: FieldType, attrs: seq<Attribute>)

  datatype StructDecl = StructDecl(innerName: string, fields: seq<FieldDecl>)

  datatype VariantDecl = VariantDecl(name: string, innerName: string, fields: seq<FieldDecl>)

  /** `sources` are the `unmarshal_from` attributes: source table and union field. */
  datatype EnumDecl = EnumDecl(name: string, sources: seq<(string, string)>, variants: seq<VariantDecl>)

  // ---- Attribute selection ----

  datatype MarshalKind =
    | MDefault(literal: Value) | MFlatten | MPacked | MTable | MUnion | MMap(marshal: Value -> Cell) | MPlain

  datatype UnmarshalKind =
    | URange(range: Value -> bool) | UMap(unmarshal: Cell -> Value, fits: Cell -> bool)
    | UTable | UUnion(source: string) | UFlatten | UPlain

  /** Of several items in one attribute the last decides; an empty attribute decides nothing. */
  function MarshalKindOf(a: Attribute): Option<MarshalKind> {
    match a
    case FlattenAttribute => Some(MFlatten)
    case UnionAttribute(_) => Some(MUnion)
    case TableAttribute => Some(MTable)
    case MarshalAttribute(items) =>
      if items == [] then None
      else (match items[|items| - 1]
            case PackedItem => Some(MPacked)
            case DefaultItem(literal) => Some(MDefault(literal))
            case MarshalMapItem(f) => Some(MMap(f)))
    case UnmarshalAttribute(_) | OtherAttribute => None
  }

  function UnmarshalKindOf(a: Attribute): Option<UnmarshalKind> {
    match a
    case FlattenAttribute => Some(UFlatten)
    case TableAttribute => Some(UTable)
    case UnionAttribute(source) => Some(UUnion(source))
    case UnmarshalAttribute(items) =>
      if items == [] then None
      else (match items[|items| - 1]
            case ValidRangeItem(range) => Some(URange(range))
            case UnmarshalMapItem(f, fits) => Some(UMap(f, fits)))
    case MarshalAttribute(_) | OtherAttribute => None
  }

  /** The first attribute that decides anything. */
  function ChooseMarshal(attrs: seq<Attribute>): MarshalKind {
    if attrs == [] then MPlain
    else if MarshalKindOf(attrs[0]).Some? then MarshalKindOf(attrs[0]).value
    else ChooseMarshal(attrs[1..])
  }

  function ChooseUnmarshal(attrs: seq<Attribute>): UnmarshalKind {
    if attrs == [] then UPlain
    else if UnmarshalKindOf(attrs[0]).Some? then UnmarshalKindOf(attrs[0]).value
    else ChooseUnmarshal(attrs[1..])
  }

  // ---- Lookups ----

  function TypeField(name: string): string {
    name + "_type"
  }

  function ByName(variants: seq<VariantDecl>, name: string): (r: Option<VariantDecl>)
    ensures r.Some? ==> r.value in variants && r.value.name == name
  {
    if |variants| == 0 then None
    else if variants[0].name == name then Some(variants[0])
    else ByName(variants[1..], name)
  }

  /** The match arms in order: the first whose inner type is the tag. */
  function ByInner(variants: seq<VariantDecl>, tag: string): (r: Option<VariantDecl>)
    ensures r.Some? ==> r.value in variants && r.value.innerName == tag
    ensures r.None? ==> forall v | v in variants :: v.innerName != tag
  {
    if |variants| == 0 then None
    else if variants[0].innerName == tag then Some(variants[0])
    else ByInner(variants[1..], tag)
  }

  function SourceField(sources: seq<(string, string)>, source: string): Option<string> {
    if sources == [] then None
    else if sources[0].0 == source then Some(sources[0].1)
    else SourceField(sources[1..], source)
  }

  function FieldOf(fields: map<string, Value>, name: string): Value {
    if name in fields then fields[name] else Num(0)
  }

  function CellOf(table: Table, name: string): Cell {
    if name in table then table[name] else Ref(None)
  }

  // ---- Generated encoder ----

  function UnwrapOr(v: Value, literal: Value): Value {
    if v.Opt? && v.o.Some? then v.o.value else literal
  }

  /** The assignment generated for a field that is neither flattened, a table nor a union. */
  function LeafCell(f: FieldDecl, v: Value): Cell {
    match ChooseMarshal(f.attrs)
    case MDefault(literal) => Scalar(UnwrapOr(v, literal))
    case MPacked => if f.ty.Leaf? then f.ty.pack(v) else Ref(None)
    case MMap(marshal) => marshal(v)
    case _ => Scalar(v)
  }

  function EncodeField(f: FieldDecl, v: Value, args: Table): Table
    decreases f, 1
  {
    match ChooseMarshal(f.attrs)
    case MFlatten =>
      if f.ty.StructType? && v.Record? then EncodeFields(f.ty.struct.fields, v.fields, args) else args
    case MTable =>
      if f.ty.StructType? && v.Record?
      then args[f.name := Nested(Some(EncodeFields(f.ty.struct.fields, v.fields, map[])))]
      else args
    case MUnion =>
      if f.ty.EnumType? && v.Variant? then EncodeUnion(f.ty.enum, f.name, v, args) else args
    case _ => args[f.name := LeafCell(f, v)]
  }

  /** `inner_type` goes to the type field, the variant's own table to the field itself. */
  function EncodeUnion(d: EnumDecl, name: string, v: Value, args: Table): Table
    requires v.Variant?
    decreases d, 2
  {
    var variant := ByName(d.variants, v.name);
    if variant.None? then args
    else args[TypeField(name) := Tag(variant.value.innerName)]
             [name := Nested(Some(EncodeFields(variant.value.fields, v.fields, map[])))]
  }

  function EncodeFields(fs: seq<FieldDecl>, vals: map<string, Value>, args: Table): Table
    decreases fs, 0
  {
    if |fs| == 0 then args
    else EncodeFields(fs[1..], vals, EncodeField(fs[0], FieldOf(vals, fs[0].name), args))
  }

  // ---- Generated decoder ----

  function CellValue(c: Cell): Value {
    if c.Scalar? then c.v else Num(0)
  }

  function LeafValue(f: FieldDecl, c: Cell): Value {
    match ChooseUnmarshal(f.attrs)
    case URange(range) => if range(CellValue(c)) then Opt(Some(CellValue(c))) else Opt(None)
    case UMap(unmarshal, _) => unmarshal(c)
    case _ => if f.ty.Leaf? then f.ty.read(c) else Num(0)
  }

  function LeafFits(f: FieldDecl, c: Cell): bool {
    match ChooseUnmarshal(f.attrs)
    case UMap(_, fits) => fits(c)
    case _ => true
  }

  /** A missing table aborts, so does a vector over capacity, an unknown tag is an error; a field
      whose type does not suit its attribute would not compile, which counts as an abort too. */
  function DecodeField(f: FieldDecl, src: Table): Outcome<Value, ParcelError>
    decreases f, 1
  {
    match ChooseUnmarshal(f.attrs)
    case UFlatten =>
      if f.ty.StructType? then AsRecord(DecodeFields(f.ty.struct.fields, src)) else Panic
    case UTable =>
      var c := CellOf(src, f.name);
      if f.ty.StructType? && c.Nested? && c.table.Some?
      then AsRecord(DecodeFields(f.ty.struct.fields, c.table.value))
      else Panic
    case UUnion(source) =>
      if f.ty.EnumType? && SourceField(f.ty.enum.sources, source).Some?
      then DecodeUnion(f.ty.enum, SourceField(f.ty.enum.sources, source).value, src)
      else Panic
    case _ => if LeafFits(f, CellOf(src, f.name)) then Ok(LeafValue(f, CellOf(src, f.name))) else Panic
  }

  function DecodeUnion(d: EnumDecl, name: string, src: Table): (r: Outcome<Value, ParcelError>)
    ensures var c := CellOf(src, TypeField(name));
            c.Tag? && (forall v | v in d.variants :: v.innerName != c.tag) ==> r == Err(UnknownVariant(d.name, c.tag))
    decreases d, 2
  {
    var tag := CellOf(src, TypeField(name));
    if !tag.Tag? then Err(UnknownVariant(d.name, NONE_TAG))
    else
      var variant := ByInner(d.variants, tag.tag);
      if variant.None? then Err(UnknownVariant(d.name, tag.tag))
      else if |variant.value.fields| == 0 then Ok(Variant(variant.value.name, map[]))
      else
        var c := CellOf(src, name);
        if !c.Nested? || c.table.None? then Panic
        else AsVariant(variant.value.name, DecodeFields(variant.value.fields, c.table.value))
  }

  function DecodeFields(fs: seq<FieldDecl>, src: Table): Outcome<map<string, Value>, ParcelError>
    decreases fs, 0
  {
    if |fs| == 0 then Ok(map[])
    else
      match DecodeField(fs[0], src)
      case Err(e) => Err(e)
      case Panic => Panic
      case Ok(v) =>
        match DecodeFields(fs[1..], src)
        case Ok(rest) => Ok(map[fs[0].name := v] + rest)
        case Err(e) => Err(e)
        case Panic => Panic
  }

  function AsRecord(r: Outcome<map<string, Value>, ParcelError>): Outcome<Value, ParcelError> {
    match r
    case Ok(fields) => Ok(Record(fields))
    case Err(e) => Err(e)
    case Panic => Panic
  }

  function AsVariant(name: string, r: Outcome<map<string, Value>, ParcelError>): Outcome<Value, ParcelError> {
    match r
    case Ok(fields) => Ok(Variant(name, fields))
    case Err(e) => Err(e)
    case Panic => Panic
  }

  // ---- Well-formed declarations and their values ----

  /** The table fields an encoder writes for one declared field. */
  function FieldNames(f: FieldDecl): seq<string>
    decreases f, 1
  {
    match ChooseMarshal(f.attrs)
    case MFlatten => if f.ty.StructType? then AllNames(f.ty.struct.fields) else []
    case MUnion => [TypeField(f.name), f.name]
    case _ => [f.name]
  }

  function AllNames(fs: seq<FieldDecl>): seq<string>
    decreases fs, 0
  {
    if |fs| == 0 then [] else FieldNames(fs[0]) + AllNames(fs[1..])
  }

  predicate IsLeafKind(m: MarshalKind, u: UnmarshalKind) {
    (m.MDefault? || m.MPacked? || m.MMap? || m.MPlain?) && (u.URange? || u.UMap? || u.UPlain?)
  }

  /** What one trip through the table does to a leaf field. */
  function LeafNorm(f: FieldDecl, v: Value): Value {
    LeafValue(f, LeafCell(f, v))
  }

  /** The two attributes of a leaf invert each other up to a normaliser. */
  ghost predicate LeafInverts(f: FieldDecl) {
    f.ty.Leaf? && forall v: Value | f.ty.valid(v) ::
      LeafFits(f, LeafCell(f, v)) && f.ty.valid(LeafNorm(f, v)) && LeafNorm(f, LeafNorm(f, v)) == LeafNorm(f, v)
  }

  /** A field of the table `table` whose two halves fit its type and each other. */
  ghost predicate FieldOk(f: FieldDecl, table: string)
    decreases f, 1
  {
    match (ChooseMarshal(f.attrs), ChooseUnmarshal(f.attrs))
    case (MFlatten, UFlatten) => f.ty.StructType? && FieldsOk(f.ty.struct.fields, table)
    case (MTable, UTable) => f.ty.StructType? && TableOk(f.ty.struct.fields, f.ty.struct.innerName)
    case (MUnion, UUnion(source)) =>
      && f.ty.EnumType? && source == table
      && SourceField(f.ty.enum.sources, source) == Some(f.name)
      && EnumOk(f.ty.enum)
    case (m, u) => IsLeafKind(m, u) && LeafInverts(f)
  }

  ghost predicate FieldsOk(fs: seq<FieldDecl>, table: string)
    decreases fs, 0
  {
    |fs| > 0 ==>
      FieldOk(fs[0], table) && FieldsOk(fs[1..], table) && forall g | g in fs[1..] :: g.name != fs[0].name
  }

  /** No two fields of one table, flattened and type fields included, share a name. */
  ghost predicate TableOk(fs: seq<FieldDecl>, table: string)
    decreases fs, 1
  {
    FieldsOk(fs, table) && Distinct(AllNames(fs))
  }

  ghost predicate EnumOk(d: EnumDecl)
    decreases d, 3
  {
    && (forall v | v in d.variants :: TableOk(v.fields, v.innerName))
    && (forall i, j | 0 <= i < j < |d.variants| ::
          d.variants[i].innerName != d.variants[j].innerName && d.variants[i].name != d.variants[j].name)
  }

  predicate HasType(ty: FieldType, v: Value)
    decreases ty, 1
  {
    match ty
    case Leaf(valid, _, _) => valid(v)
    case StructType(d) => v.Record? && FieldsTyped(d.fields, v.fields)
    case EnumType(d) => HasEnumType(d, v)
  }

  predicate HasEnumType(d: EnumDecl, v: Value)
    decreases d, 2
  {
    v.Variant? && ByName(d.variants, v.name).Some? && FieldsTyped(ByName(d.variants, v.name).value.fields, v.fields)
  }

  predicate FieldsTyped(fs: seq<FieldDecl>, vals: map<string, Value>)
    decreases fs, 0
  {
    |fs| > 0 ==> HasType(fs[0].ty, FieldOf(vals, fs[0].name)) && FieldsTyped(fs[1..], vals)
  }

  // ---- The normal form ----

  function NormField(f: FieldDecl, v: Value): Value
    decreases f, 1
  {
    match f.ty
    case Leaf(_, _, _) => LeafNorm(f, v)
    case StructType(d) => if v.Record? then Record(NormFields(d.fields, v.fields)) else v
    case EnumType(d) => if v.Variant? then NormUnion(d, v) else v
  }

  function NormUnion(d: EnumDecl, v: Value): Value
    requires v.Variant?
    decreases d, 2
  {
    var variant := ByName(d.variants, v.name);
    if variant.None? then v else Variant(v.name, NormFields(variant.value.fields, v.fields))
  }

  function NormFields(fs: seq<FieldDecl>, vals: map<string, Value>): map<string, Value>
    decreases fs, 0
  {
    if |fs| == 0 then map[]
    else map[fs[0].name := NormField(fs[0], FieldOf(vals, fs[0].name))] + NormFields(fs[1..], vals)
  }

  // ---- Round trip ----

  ghost predicate AgreeOn(a: Table, b: Table, names: seq<string>) {
    forall n | n in names :: n in a && n in b && a[n] == b[n]
  }

  /** An encoder writes its own names and nothing else. */
  lemma {:induction false} EncodeFieldFrame(f: FieldDecl, v: Value, args: Table, n: string)
    requires n !in FieldNames(f)
    ensures n in EncodeField(f, v, args) <==> n in args
    ensures n in args ==> EncodeField(f, v, args)[n] == args[n]
    decreases f, 1
  {
    if ChooseMarshal(f.attrs).MFlatten? && f.ty.StructType? && v.Record? {
      EncodeFieldsFrame(f.ty.struct.fields, v.fields, args, n);
    }
  }

  lemma {:induction false} EncodeFieldsFrame(fs: seq<FieldDecl>, vals: map<string, Value>, args: Table, n: string)
    requires n !in AllNames(fs)
    ensures n in EncodeFields(fs, vals, args) <==> n in args
    ensures n in args ==> EncodeFields(fs, vals, args)[n] == args[n]
    decreases fs, 0
  {
    if |fs| > 0 {
      EncodeFieldFrame(fs[0], FieldOf(vals, fs[0].name), args, n);
      EncodeFieldsFrame(fs[1..], vals, EncodeField(fs[0], FieldOf(vals, fs[0].name), args), n);
    }
  }

  lemma {:induction false} FieldRoundTrip(f: FieldDecl, v: Value, table: string, args: Table, src: Table)
    requires FieldOk(f, table) && Distinct(FieldNames(f)) && HasType(f.ty, v)
    requires AgreeOn(src, EncodeField(f, v, args), FieldNames(f))
    ensures DecodeField(f, src) == Ok(NormField(f, v))
    decreases f, 1
  {
    match ChooseMarshal(f.attrs)
    case MFlatten =>
      FieldsRoundTrip(f.ty.struct.fields, v.fields, table, args, src);
    case MTable =>
      var inner := EncodeFields(f.ty.struct.fields, v.fields, map[]);
      assert f.name in FieldNames(f);
      NamesWritten(f.ty.struct.fields, v.fields, f.ty.struct.innerName, map[]);
      FieldsRoundTrip(f.ty.struct.fields, v.fields, f.ty.struct.innerName, map[], inner);
    case MUnion =>
      assert f.name in FieldNames(f) && TypeField(f.name) in FieldNames(f);
      assert TypeField(f.name) != f.name;
      UnionRoundTrip(f.ty.enum, f.name, v, args, src);
    case _ =>
      assert f.name in FieldNames(f);
  }

  lemma {:induction false} UnionRoundTrip(d: EnumDecl, name: string, v: Value, args: Table, src: Table)
    requires EnumOk(d) && HasEnumType(d, v)
    requires AgreeOn(src, EncodeUnion(d, name, v, args), [TypeField(name), name])
    ensures DecodeUnion(d, name, src) == Ok(NormUnion(d, v))
    decreases d, 2
  {
    var variant := ByName(d.variants, v.name).value;
    var inner := EncodeFields(variant.fields, v.fields, map[]);
    assert name in [TypeField(name), name] && TypeField(name) in [TypeField(name), name];
    assert TypeField(name) != name by { assert |TypeField(name)| > |name|; }
    TagFindsVariant(d, variant);
    NamesWritten(variant.fields, v.fields, variant.innerName, map[]);
    FieldsRoundTrip(variant.fields, v.fields, variant.innerName, map[], inner);
  }

  lemma TagFindsVariant(d: EnumDecl, variant: VariantDecl)
    requires EnumOk(d) && variant in d.variants
    ensures ByInner(d.variants, variant.innerName) == Some(variant)
  {
  }

  lemma {:induction false} FieldsRoundTrip(fs: seq<FieldDecl>, vals: map<string, Value>, table: string, args: Table,
                                           src: Table)
    requires FieldsOk(fs, table) && Distinct(AllNames(fs)) && FieldsTyped(fs, vals)
    requires AgreeOn(src, EncodeFields(fs, vals, args), AllNames(fs))
    ensures DecodeFields(fs, src) == Ok(NormFields(fs, vals))
    decreases fs, 0
  {
    if |fs| > 0 {
      var f, rest := fs[0], fs[1..];
      var v := FieldOf(vals, f.name);
      var mid := EncodeField(f, v, args);
      SplitNames(FieldNames(f), AllNames(rest));
      forall n | n in FieldNames(f) ensures n in src && n in mid && src[n] == mid[n] {
        assert n in AllNames(fs);
        EncodeFieldsFrame(rest, vals, mid, n);
      }
      FieldRoundTrip(f, v, table, args, src);
      assert forall n | n in AllNames(rest) :: n in AllNames(fs);
      FieldsRoundTrip(rest, vals, table, mid, src);
    }
  }

  lemma SplitNames(a: seq<string>, b: seq<string>)
    requires Distinct(a + b)
    ensures Distinct(a) && Distinct(b) && forall n | n in a :: n !in b
  {
    var s := a + b;
    assert forall i | 0 <= i < |a| :: s[i] == a[i];
    assert forall i | 0 <= i < |b| :: s[|a| + i] == b[i];
  }

  lemma {:induction false} NamesWritten(fs: seq<FieldDecl>, vals: map<string, Value>, table: string, args: Table)
    requires FieldsOk(fs, table) && FieldsTyped(fs, vals)
    ensures forall n | n in AllNames(fs) :: n in EncodeFields(fs, vals, args)
    decreases fs, 0
  {
    if |fs| > 0 {
      var f, rest := fs[0], fs[1..];
      var mid := EncodeField(f, FieldOf(vals, f.name), args);
      FieldNamesWritten(f, FieldOf(vals, f.name), table, args);
      NamesWritten(rest, vals, table, mid);
      forall n | n in FieldNames(f) ensures n in EncodeFields(fs, vals, args) {
        if n !in AllNames(rest) { EncodeFieldsFrame(rest, vals, mid, n); }
      }
    }
  }

  lemma {:induction false} FieldNamesWritten(f: FieldDecl, v: Value, table: string, args: Table)
    requires FieldOk(f, table) && HasType(f.ty, v)
    ensures forall n | n in FieldNames(f) :: n in EncodeField(f, v, args)
    decreases f, 1
  {
    match ChooseMarshal(f.attrs)
    case MFlatten => NamesWritten(f.ty.struct.fields, v.fields, table, args);
    case MUnion => assert EncodeField(f, v, args) == EncodeUnion(f.ty.enum, f.name, v, args);
    case _ =>
  }

  // ---- The normal form is one ----

  lemma {:induction false} NormFieldStable(f: FieldDecl, table: string, v: Value)
    requires FieldOk(f, table) && HasType(f.ty, v)
    ensures HasType(f.ty, NormField(f, v)) && NormField(f, NormField(f, v)) == NormField(f, v)
    decreases f, 1
  {
    match f.ty
    case Leaf(_, _, _) =>
    case StructType(d) =>
      var inner := if ChooseMarshal(f.attrs).MFlatten? then table else d.innerName;
      NormFieldsStable(d.fields, inner, v.fields, NormFields(d.fields, v.fields));
    case EnumType(d) =>
      var variant := ByName(d.variants, v.name).value;
      assert TableOk(variant.fields, variant.innerName);
      NormFieldsStable(variant.fields, variant.innerName, v.fields, NormFields(variant.fields, v.fields));
  }

  lemma {:induction false} NormKeys(fs: seq<FieldDecl>, vals: map<string, Value>)
    ensures forall n | n in NormFields(fs, vals) :: exists f :: f in fs && f.name == n
    decreases fs
  {
    if |fs| > 0 {
      NormKeys(fs[1..], vals);
      assert fs[0] in fs;
    }
  }

  /** `normal` agrees with the normal form of `vals` on every field of `fs`. */
  lemma {:induction false} NormFieldsStable(fs: seq<FieldDecl>, table: string, vals: map<string, Value>,
                                            normal: map<string, Value>)
    requires FieldsOk(fs, table) && FieldsTyped(fs, vals)
    requires forall n | n in NormFields(fs, vals) :: n in normal && normal[n] == NormFields(fs, vals)[n]
    ensures FieldsTyped(fs, normal) && NormFields(fs, normal) == NormFields(fs, vals)
    decreases fs, 0
  {
    if |fs| > 0 {
      var f, v := fs[0], FieldOf(vals, fs[0].name);
      NormFieldStable(f, table, v);
      NormKeys(fs[1..], vals);
      assert f.name !in NormFields(fs[1..], vals);
      assert FieldOf(normal, f.name) == NormField(f, v);
      NormFieldsStable(fs[1..], table, vals, normal);
    }
  }

  // ---- Whole parcels ----

  const MESSAGE_FIELD: string := "message"

  function ToParcel(d: EnumDecl, v: Value): Table
    requires v.Variant?
  {
    EncodeUnion(d, MESSAGE_FIELD, v, map[])
  }

  function DecodeParcel(d: EnumDecl, parcel: Table): Outcome<Value, ParcelError> {
    DecodeUnion(d, MESSAGE_FIELD, parcel)
  }

  /** Every generated decoder undoes its encoder, up to the per-field normal form, which a
      second trip no longer changes. */
  lemma ParcelRoundTrip(d: EnumDecl, v: Value)
    requires EnumOk(d) && HasEnumType(d, v)
    ensures DecodeParcel(d, ToParcel(d, v)) == Ok(NormUnion(d, v))
    ensures HasEnumType(d, NormUnion(d, v))
    ensures DecodeParcel(d, ToParcel(d, NormUnion(d, v))) == Ok(NormUnion(d, v))
  {
    var variant := ByName(d.variants, v.name).value;
    var normal := NormUnion(d, v);
    UnionRoundTrip(d, MESSAGE_FIELD, v, map[], ToParcel(d, v));
    NormFieldsStable(variant.fields, variant.innerName, v.fields, normal.fields);
    UnionRoundTrip(d, MESSAGE_FIELD, normal, map[], ToParcel(d, normal));
  }

  // ---- Tables of leaves ----

  ghost predicate LeafOk(f: FieldDecl) {
    IsLeafKind(ChooseMarshal(f.attrs), ChooseUnmarshal(f.attrs)) && LeafInverts(f)
  }

  ghost predicate LeavesOk(fs: seq<FieldDecl>) {
    forall f | f in fs :: LeafOk(f)
  }

  predicate DistinctNames(fs: seq<FieldDecl>) {
    forall i, j | 0 <= i < j < |fs| :: fs[i].name != fs[j].name
  }

  lemma {:induction false} LeafNames(fs: seq<FieldDecl>)
    requires LeavesOk(fs)
    ensures |AllNames(fs)| == |fs| && (forall i | 0 <= i < |fs| :: AllNames(fs)[i] == fs[i].name)
    decreases fs
  {
    if |fs| > 0 {
      assert LeafOk(fs[0]) && forall f | f in fs[1..] :: f in fs;
      LeafNames(fs[1..]);
      assert AllNames(fs) == [fs[0].name] + AllNames(fs[1..]);
    }
  }

  lemma {:induction false} LeafFieldsOk(fs: seq<FieldDecl>, table: string)
    requires LeavesOk(fs) && DistinctNames(fs)
    ensures FieldsOk(fs, table)
    decreases fs
  {
    if |fs| > 0 {
      assert LeafOk(fs[0]) && forall f | f in fs[1..] :: f in fs;
      LeafFieldsOk(fs[1..], table);
      forall g | g in fs[1..] ensures g.name != fs[0].name {
        var i :| 0 <= i < |fs[1..]| && fs[1..][i] == g;
        assert fs[i + 1] == g;
      }
    }
  }

  lemma LeafTableOk(fs: seq<FieldDecl>, table: string)
    requires LeavesOk(fs) && DistinctNames(fs)
    ensures TableOk(fs, table)
  {
    LeafNames(fs);
    LeafFieldsOk(fs, table);
  }

  lemma TwoFieldsOk(a: FieldDecl, b: FieldDecl, table: string)
    requires FieldOk(a, table) && FieldOk(b, table) && a.name != b.name && Distinct(FieldNames(a) + FieldNames(b))
    ensures TableOk([a, b], table) && AllNames([a, b]) == FieldNames(a) + FieldNames(b)
  {
    assert [a, b][1..] == [b] && [b][1..] == [];
    assert AllNames([b]) == FieldNames(b) && FieldsOk([b], table);
    assert AllNames([a, b]) == FieldNames(a) + FieldNames(b);
  }

  lemma ThreeFieldsOk(a: FieldDecl, b: FieldDecl, c: FieldDecl, table: string)
    requires a.name != b.name && a.name != c.name
    ensures FieldOk(a, table) && TableOk([b, c], table) && Distinct(FieldNames(a) + AllNames([b, c])) ==>
              TableOk([a, b, c], table)
  {
  }

  // ---- Lists of variants ----

  ghost predicate VariantsOk(vs: seq<VariantDecl>) {
    forall v | v in vs :: TableOk(v.fields, v.innerName)
  }

  predicate DistinctVariants(vs: seq<VariantDecl>) {
    forall i, j | 0 <= i < j < |vs| :: vs[i].innerName != vs[j].innerName && vs[i].name != vs[j].name
  }

  lemma MoreVariants(vs: seq<VariantDecl>, v: VariantDecl)
    requires VariantsOk(vs) && TableOk(v.fields, v.innerName)
    ensures VariantsOk(vs + [v])
  {
  }

  lemma VariantsMakeEnum(name: string, sources: seq<(string, string)>, vs: seq<VariantDecl>)
    requires VariantsOk(vs) && DistinctVariants(vs)
    ensures EnumOk(EnumDecl(name, sources, vs))
  {
  }

  /** The fields of a struct, in declaration order. */
  function Zip(fs: seq<FieldDecl>, vals: seq<Value>): map<string, Value>
    requires |fs| == |vals|
    decreases |fs|
  {
    if |fs| == 0 then map[] else Zip(fs[1..], vals[1..])[fs[0].name := vals[0]]
  }

  lemma {:induction false} ZipLookup(fs: seq<FieldDecl>, vals: seq<Value>)
    requires |fs| == |vals| && DistinctNames(fs)
    ensures forall i | 0 <= i < |fs| :: fs[i].name in Zip(fs, vals) && Zip(fs, vals)[fs[i].name] == vals[i]
    decreases |fs|
  {
    if |fs| > 0 {
      ZipLookup(fs[1..], vals[1..]);
      forall i | 0 < i < |fs| ensures fs[i].name in Zip(fs, vals) && Zip(fs, vals)[fs[i].name] == vals[i] {
        assert fs[1..][i - 1] == fs[i];
      }
    }
  }

  lemma {:induction false} ZipTyped(fs: seq<FieldDecl>, vals: seq<Value>, m: map<string, Value>)
    requires |fs| == |vals|
    requires forall i | 0 <= i < |fs| :: fs[i].name in m && m[fs[i].name] == vals[i] && HasType(fs[i].ty, vals[i])
    ensures FieldsTyped(fs, m)
    decreases |fs|
  {
    if |fs| > 0 {
      ZipTyped(fs[1..], vals[1..], m);
    }
  }

  lemma {:induction false} ZipNorm(fs: seq<FieldDecl>, vals: seq<Value>, normal: seq<Value>, m: map<string, Value>)
    requires |fs| == |vals| == |normal| && DistinctNames(fs)
    requires forall i | 0 <= i < |fs| ::
               fs[i].name in m && m[fs[i].name] == vals[i] && NormField(fs[i], vals[i]) == normal[i]
    ensures NormFields(fs, m) == Zip(fs, normal)
    decreases |fs|
  {
    if |fs| > 0 {
      ZipNorm(fs[1..], vals[1..], normal[1..], m);
      NormKeys(fs[1..], m);
      assert fs[0].name !in NormFields(fs[1..], m);
    }
  }
}
