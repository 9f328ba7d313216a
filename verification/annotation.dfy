/** The column-descriptor builder and metadata extractor of annotation.go.

    Go reflection is replaced by an explicit description of a struct type:
    a `Field` has a name, a kind and its struct tag (as a key/value map), and
    a struct kind carries its fields. The extractor appends one `Column` per
    walked field to a table-keyed map, recursing into column-tagged struct
    fields under the field's own name. */
module Annotation {
  import opened Text

  /** The struct-tag keys the builder reads, one constructor per key. */
  datatype TagKey =
    | ColumnTag | DbskipTag | DatatypeTag | NullTag | DefaultTag
    | PrimaryKeyTag | ForeignKeyTag | ReferencesTag | JoinTag | TableNameTag

  /** The key as it is written in a Go struct tag. */
  function TagText(k: TagKey): string {
    match k
    case ColumnTag => "column"
    case DbskipTag => "dbskip"
    case DatatypeTag => "datatype"
    case NullTag => "null"
    case DefaultTag => "default"
    case PrimaryKeyTag => "primaryKey"
    case ForeignKeyTag => "foreignKey"
    case ReferencesTag => "references"
    case JoinTag => "join"
    case TableNameTag => "tableName"
  }

  /** The key a struct-tag key text names, if the builder reads it. */
  function TagKeyOf(text: string): Option<TagKey> {
    if text == "column" then Some(ColumnTag)
    else if text == "dbskip" then Some(DbskipTag)
    else if text == "datatype" then Some(DatatypeTag)
    else if text == "null" then Some(NullTag)
    else if text == "default" then Some(DefaultTag)
    else if text == "primaryKey" then Some(PrimaryKeyTag)
    else if text == "foreignKey" then Some(ForeignKeyTag)
    else if text == "references" then Some(ReferencesTag)
    else if text == "join" then Some(JoinTag)
    else if text == "tableName" then Some(TableNameTag)
    else None
  }

  /** Every key is read back from its own text, so no two keys share a
      spelling. */
  lemma TagTextRoundTrip(k: TagKey)
    ensures TagKeyOf(TagText(k)) == Some(k)
  {
  }

  /** A struct tag: the value of each key present (`Lookup` succeeds). Keys
      the builder never reads are not represented. */
  type Tags = map<TagKey, string>

  /** The reflect kinds the builder distinguishes. Every signed width
      (Int8 … Int) is `Int`, every unsigned width (Uint8 … Uint) is `Uint`,
      Float32/Float64 are `Float`; any kind without a case of its own
      (maps, funcs, chans, interfaces, Uintptr, …) is `Other`. */
  datatype Kind =
    | String
    | Int
    | Uint
    | Bool
    | Float
    | Array
    | Slice
    | Ptr(elem: Kind)
    | Struct(fields: seq<Field>)
    | Other

  /** One struct field: `reflect.StructField` reduced to what the builder reads. */
  datatype Field = Field(name: string, kind: Kind, tags: Tags)

  /** The descriptor of one field (annotation.go `Column`). */
  datatype Column = Column(
    attributeName: string,
    columnString: string,
    typeString: string,
    foreignKey: string,
    referenceString: string,
    primaryKey: string,
    nullString: string,
    defaultString: string,
    joinString: string,
    tableName: string,
    sqlDefinition: string)

  /** `Column{}`: the "not persisted" sentinel. */
  const EmptyColumn := Column("", "", "", "", "", "", "", "", "", "", "")

  const UuidType := "uuid.UUID"
  const TimeType := "time.TIME"

  /** The tag value, or "" when the tag is absent. */
  function Tag(tags: Tags, k: TagKey): string {
    if k in tags then tags[k] else ""
  }

  predicate HasDatatype(tags: Tags, v: string) {
    DatatypeTag in tags && tags[DatatypeTag] == v
  }

  predicate IsCollection(k: Kind) { k.Array? || k.Slice? }

  /** Kinds whose descriptor carries the `join` tag. */
  predicate CarriesJoin(k: Kind) {
    IsCollection(k) || (k.Ptr? && IsCollection(k.elem))
  }

  predicate IsPtrToStruct(k: Kind) { k.Ptr? && k.elem.Struct? }

  /** Kinds whose `null` tag is normalised ("true"/"false"). */
  predicate NormalisesNull(k: Kind) { k.String? || k.Int? || k.Uint? }

  /** `uuid.UUID` strings and pointers to structs are the only fields whose
      key annotations are honoured. */
  predicate HonoursKeys(f: Field) {
    (f.kind.String? && HasDatatype(f.tags, UuidType)) || IsPtrToStruct(f.kind)
  }

  /** annotation.go lines 102-106 (and their copies): "true" reads as "null", "false" as
      "not null", anything else leaves the descriptor as it is. */
  function NormaliseNull(c: Column, tags: Tags): Column {
    if NullTag in tags && tags[NullTag] == "true" then c.(nullString := "null")
    else if NullTag in tags && tags[NullTag] == "false" then c.(nullString := "not null")
    else c
  }

  function WithDefault(c: Column, tags: Tags): Column {
    if DefaultTag in tags then c.(defaultString := tags[DefaultTag]) else c
  }

  /** The string case: the datatype tag picks the SQL type; only `uuid.UUID`
      takes key annotations; `uuid.UUID` and `time.TIME` copy the raw null tag
      before it is normalised. */
  function StringColumn(base: Column, tags: Tags): Column {
    var typed :=
      if DatatypeTag in tags then
        var dt := tags[DatatypeTag];
        if dt == UuidType then
          base.(typeString := "varchar(35)", primaryKey := Tag(tags, PrimaryKeyTag),
                nullString := Tag(tags, NullTag), defaultString := Tag(tags, DefaultTag),
                foreignKey := Tag(tags, ForeignKeyTag), referenceString := Tag(tags, ReferencesTag))
        else if dt == TimeType then
          base.(typeString := "datetime", defaultString := Tag(tags, DefaultTag),
                nullString := Tag(tags, NullTag))
        else base.(typeString := dt)
      else base.(typeString := "varchar(255)");
    WithDefault(NormaliseNull(typed, tags), tags)
  }

  /** The signed and unsigned integer cases (identical in the source). */
  function IntegerColumn(base: Column, tags: Tags): Column {
    var typed := base.(typeString := if DatatypeTag in tags then tags[DatatypeTag] else "integer");
    WithDefault(NormaliseNull(typed, tags), tags)
  }

  function PtrColumn(base: Column, elem: Kind, tags: Tags): Column {
    var joined := if IsCollection(elem) && JoinTag in tags then base.(joinString := tags[JoinTag]) else base;
    if elem.Struct? then
      joined.(typeString := "varchar(35)", foreignKey := Tag(tags, ForeignKeyTag),
              referenceString := Tag(tags, ReferencesTag), nullString := Tag(tags, NullTag))
    else joined
  }

  /** The descriptor `regularLogic` builds for a column-tagged field, one
      case per kind, in the order the source assigns the fields. What each
      field of the result is, as a function of the kind and the tags, is
      stated by the four lemmas that follow. */
  function Describe(f: Field): Column
    requires ColumnTag in f.tags
  {
    var tags := f.tags;
    var base := Column(f.name, tags[ColumnTag], "", "", "", "", "", "", "", Tag(tags, TableNameTag), "");
    match f.kind
    case String => StringColumn(base, tags)
    case Int => IntegerColumn(base, tags)
    case Uint => IntegerColumn(base, tags)
    case Bool =>
      WithDefault(base.(typeString := if DatatypeTag in tags then tags[DatatypeTag] else "tinyint(1)"), tags)
    case Float =>
      base.(typeString := if DatatypeTag in tags then tags[DatatypeTag] else "float(8,2)")
    case Array => if JoinTag in tags then base.(joinString := tags[JoinTag]) else base
    case Slice => if JoinTag in tags then base.(joinString := tags[JoinTag]) else base
    case Ptr(elem) => PtrColumn(base, elem, tags)
    case Struct(_) => base
    case Other => base
  }

  /** Every kind keeps the field name, the column name and the table name,
      and no kind fills in the SQL definition. */
  lemma DescribeNames(f: Field)
    requires ColumnTag in f.tags
    ensures Describe(f).attributeName == f.name && Describe(f).columnString == f.tags[ColumnTag]
    ensures Describe(f).tableName == Tag(f.tags, TableNameTag) && Describe(f).sqlDefinition == ""
  {
  }

  /** SQL type resolution, per kind. */
  lemma DescribeType(f: Field)
    requires ColumnTag in f.tags
    ensures f.kind.String? && DatatypeTag !in f.tags ==> Describe(f).typeString == "varchar(255)"
    ensures f.kind.String? && HasDatatype(f.tags, UuidType) ==> Describe(f).typeString == "varchar(35)"
    ensures f.kind.String? && HasDatatype(f.tags, TimeType) ==> Describe(f).typeString == "datetime"
    ensures (f.kind.String? && DatatypeTag in f.tags && f.tags[DatatypeTag] !in {UuidType, TimeType})
            ==> Describe(f).typeString == f.tags[DatatypeTag]
    ensures (f.kind.Int? || f.kind.Uint?)
            ==> Describe(f).typeString == (if DatatypeTag in f.tags then f.tags[DatatypeTag] else "integer")
    ensures f.kind.Bool?
            ==> Describe(f).typeString == (if DatatypeTag in f.tags then f.tags[DatatypeTag] else "tinyint(1)")
    ensures f.kind.Float?
            ==> Describe(f).typeString == (if DatatypeTag in f.tags then f.tags[DatatypeTag] else "float(8,2)")
    ensures IsPtrToStruct(f.kind) ==> Describe(f).typeString == "varchar(35)"
    ensures (f.kind.Array? || f.kind.Slice? || f.kind.Struct? || f.kind.Other? || (f.kind.Ptr? && !f.kind.elem.Struct?))
            ==> Describe(f).typeString == ""
  {
  }

  /** Nullability: normalised for strings and integers, raw for pointers to
      structs, never set for the other kinds. */
  lemma DescribeNull(f: Field)
    requires ColumnTag in f.tags
    ensures (NormalisesNull(f.kind) && NullTag in f.tags && f.tags[NullTag] == "true")
            ==> Describe(f).nullString == "null"
    ensures (NormalisesNull(f.kind) && NullTag in f.tags && f.tags[NullTag] == "false")
            ==> Describe(f).nullString == "not null"
    ensures (NormalisesNull(f.kind) && Tag(f.tags, NullTag) !in {"true", "false"})
            ==> Describe(f).nullString
                == (if f.kind.String? && (HasDatatype(f.tags, UuidType) || HasDatatype(f.tags, TimeType))
                    then Tag(f.tags, NullTag) else "")
    ensures IsPtrToStruct(f.kind) ==> Describe(f).nullString == Tag(f.tags, NullTag)
    ensures (!NormalisesNull(f.kind) && !IsPtrToStruct(f.kind)) ==> Describe(f).nullString == ""
  {
  }

  /** Key annotations are honoured only for `uuid.UUID` strings (all three)
      and pointers to structs (foreign key and reference). */
  lemma DescribeKeys(f: Field)
    requires ColumnTag in f.tags
    ensures Describe(f).primaryKey
            == (if f.kind.String? && HasDatatype(f.tags, UuidType) then Tag(f.tags, PrimaryKeyTag) else "")
    ensures Describe(f).foreignKey == (if HonoursKeys(f) then Tag(f.tags, ForeignKeyTag) else "")
    ensures Describe(f).referenceString == (if HonoursKeys(f) then Tag(f.tags, ReferencesTag) else "")
  {
  }

  /** The default tag is kept for strings, integers and booleans; the join
      tag for arrays, slices and pointers to them. */
  lemma DescribeDefaultAndJoin(f: Field)
    requires ColumnTag in f.tags
    ensures Describe(f).defaultString
            == (if NormalisesNull(f.kind) || f.kind.Bool? then Tag(f.tags, DefaultTag) else "")
    ensures Describe(f).joinString == (if CarriesJoin(f.kind) then Tag(f.tags, JoinTag) else "")
  {
  }

  /** What `regularLogic` appends for `f`: the sentinel for a skipped or
      untagged field, the descriptor otherwise. */
  function ColumnFor(f: Field): Column {
    if DbskipTag in f.tags || ColumnTag !in f.tags then EmptyColumn else Describe(f)
  }

  /** A field whose handling walks a nested struct. */
  predicate Recurses(f: Field) {
    DbskipTag !in f.tags && ColumnTag in f.tags && f.kind.Struct?
  }

  predicate Skipped(f: Field) { DbskipTag in f.tags }

  // ---------------------------------------------------------------------
  // The table-keyed column map
  // ---------------------------------------------------------------------

  type Columns = map<string, seq<Column>>

  /** `columns[key]` in Go: a missing key reads as the empty (nil) slice. */
  function Get(m: Columns, k: string): seq<Column> {
    if k in m then m[k] else []
  }

  /** `columns[key] = append(columns[key], c)`. */
  function Append(m: Columns, k: string, c: Column): (r: Columns)
    ensures Get(r, k) == Get(m, k) + [c]
    ensures forall k' :: k' != k ==> Get(r, k') == Get(m, k')
    ensures r.Keys == m.Keys + {k}
  {
    m[k := Get(m, k) + [c]]
  }

  /** Every list of `m` is a prefix of the list under the same key in `m'`:
      nothing is removed or rewritten, entries are only appended. */
  ghost predicate Grows(m: Columns, m': Columns) {
    forall k :: k in m ==> k in m' && m[k] <= m'[k]
  }

  /** `regularLogic`: append the field's descriptor under `key`; a
      column-tagged struct field is first walked under its own name. */
  function RegularLogic(f: Field, columns: Columns, key: string): (r: Columns)
    ensures !Recurses(f) ==> r == Append(columns, key, ColumnFor(f))
    decreases f.kind, 2, 0
  {
    if DbskipTag in f.tags then Append(columns, key, EmptyColumn)
    else if ColumnTag !in f.tags then Append(columns, key, EmptyColumn)
    else match f.kind
      case Struct(_) =>
        var nested := ProcessTypeForColumns(f.kind, columns, f.name);
        Append(nested, key, Describe(f))
      case _ => Append(columns, key, Describe(f))
  }

  /** `processTypeForColumns`: walk the fields of a struct type in order,
      skipping `dbskip` fields; any other type leaves the map unchanged. */
  function ProcessTypeForColumns(t: Kind, columns: Columns, key: string): (r: Columns)
    ensures !t.Struct? ==> r == columns
    decreases t, 1, 0
  {
    if t.Struct? then ProcessFields(t.fields, |t.fields|, columns, key) else columns
  }

  /** The loop of `processTypeForColumns` after its first `n` iterations. */
  function ProcessFields(fs: seq<Field>, n: nat, columns: Columns, key: string): (r: Columns)
    requires n <= |fs|
    decreases Struct(fs), 0, n
  {
    if n == 0 then columns
    else
      var m := ProcessFields(fs, n - 1, columns, key);
      var f := fs[n - 1];
      if Skipped(f) then m else RegularLogic(f, m, key)
  }

  /** `regularLogic` only appends: every list already in the map is a prefix
      of the list under the same key afterwards. */
  lemma {:induction false} RegularLogicGrows(f: Field, columns: Columns, key: string)
    ensures Grows(columns, RegularLogic(f, columns, key))
    decreases f.kind, 2, 0
  {
    if Recurses(f) {
      var nested := ProcessTypeForColumns(f.kind, columns, f.name);
      TypeGrows(f.kind, columns, f.name);
      AppendGrows(nested, key, Describe(f));
    } else {
      AppendGrows(columns, key, ColumnFor(f));
    }
  }

  /** Whatever the nested walk did, the last entry under `key` afterwards is
      the field's own descriptor. */
  lemma RegularLogicAppendsLast(f: Field, columns: Columns, key: string)
    ensures var r := Get(RegularLogic(f, columns, key), key);
            |r| > 0 && r[|r| - 1] == ColumnFor(f)
  {
  }

  /** The same for `processTypeForColumns`. */
  lemma {:induction false} TypeGrows(t: Kind, columns: Columns, key: string)
    ensures Grows(columns, ProcessTypeForColumns(t, columns, key))
    decreases t, 1, 0
  {
    if t.Struct? {
      FieldsGrows(t.fields, |t.fields|, columns, key);
    }
  }

  /** The same for the first `n` iterations of its loop. */
  lemma {:induction false} FieldsGrows(fs: seq<Field>, n: nat, columns: Columns, key: string)
    requires n <= |fs|
    ensures Grows(columns, ProcessFields(fs, n, columns, key))
    decreases Struct(fs), 0, n
  {
    if n > 0 {
      var m := ProcessFields(fs, n - 1, columns, key);
      FieldsGrows(fs, n - 1, columns, key);
      FieldsStep(fs, n, columns, key);
      if !Skipped(fs[n - 1]) {
        RegularLogicGrows(fs[n - 1], m, key);
        GrowsTransitive(columns, m, RegularLogic(fs[n - 1], m, key));
      }
    }
  }

  lemma AppendGrows(m: Columns, k: string, c: Column)
    ensures Grows(m, Append(m, k, c))
  {
  }

  lemma GrowsTransitive(a: Columns, b: Columns, c: Columns)
    requires Grows(a, b) && Grows(b, c)
    ensures Grows(a, c)
  {
  }

  /** `ptrLogic`: `regularLogic` without the struct case, so a struct field
      is appended like any other kind and never walked. */
  function PtrLogic(f: Field, columns: Columns, key: string): (r: Columns)
    ensures Get(r, key) == Get(columns, key) + [ColumnFor(f)]
    ensures forall k :: k != key ==> Get(r, k) == Get(columns, k)
  {
    if DbskipTag in f.tags then Append(columns, key, EmptyColumn)
    else if ColumnTag !in f.tags then Append(columns, key, EmptyColumn)
    else Append(columns, key, Describe(f))
  }

  // ---------------------------------------------------------------------
  // Properties of the walk
  // ---------------------------------------------------------------------

  /** A column-tagged struct field is walked under its own name first, and
      then leaves an untyped descriptor under the parent key; a struct field
      without a `column` tag only leaves the sentinel. */
  lemma StructFieldWalk(f: Field, columns: Columns, key: string)
    requires f.kind.Struct? && !Skipped(f)
    ensures ColumnTag in f.tags ==>
              && RegularLogic(f, columns, key)
                 == Append(ProcessTypeForColumns(f.kind, columns, f.name), key, ColumnFor(f))
              && ColumnFor(f).columnString == f.tags[ColumnTag]
              && ColumnFor(f).typeString == ""
    ensures ColumnTag !in f.tags ==> RegularLogic(f, columns, key) == Append(columns, key, EmptyColumn)
  {
    if ColumnTag in f.tags {
      DescribeType(f);
    }
  }

  /** `ptrLogic` agrees with `regularLogic` on every field that is not of
      struct kind; on a struct field it appends the descriptor without
      walking the nested type. */
  lemma PtrLogicAgrees(f: Field, columns: Columns, key: string)
    ensures !f.kind.Struct? ==> PtrLogic(f, columns, key) == RegularLogic(f, columns, key)
    ensures f.kind.Struct? ==> PtrLogic(f, columns, key) == Append(columns, key, ColumnFor(f))
  {
  }

  /** The descriptors a walk over the first `n` fields appends when no field
      recurses: one per field that is not skipped, in field order. */
  function Kept(fs: seq<Field>, n: nat): seq<Column>
    requires n <= |fs|
  {
    if n == 0 then []
    else Kept(fs, n - 1) + (if Skipped(fs[n - 1]) then [] else [ColumnFor(fs[n - 1])])
  }

  /** `columns[key] = append(columns[key], cs...)`; no entry at all when
      `cs` is empty. */
  function AppendAll(m: Columns, k: string, cs: seq<Column>): (r: Columns)
    ensures Get(r, k) == Get(m, k) + cs
    ensures forall k' :: k' != k ==> Get(r, k') == Get(m, k')
  {
    if cs == [] then m else m[k := Get(m, k) + cs]
  }

  lemma AppendAllSnoc(m: Columns, k: string, cs: seq<Column>, c: Column)
    ensures Append(AppendAll(m, k, cs), k, c) == AppendAll(m, k, cs + [c])
  {
    if cs == [] {
      assert cs + [c] == [c];
    } else {
      assert (Get(m, k) + cs) + [c] == Get(m, k) + (cs + [c]);
    }
  }

  /** A struct with no nested column-tagged struct field: the walk appends
      exactly the kept descriptors under `key`, in field order, and touches
      no other key. */
  lemma {:induction false} FlatWalk(fs: seq<Field>, n: nat, columns: Columns, key: string)
    requires n <= |fs|
    requires forall i :: 0 <= i < n ==> !Recurses(fs[i])
    ensures ProcessFields(fs, n, columns, key) == AppendAll(columns, key, Kept(fs, n))
  {
    if n > 0 {
      FlatWalk(fs, n - 1, columns, key);
      FlatStep(fs, n, columns, key);
    }
  }

  /** One iteration of `FlatWalk`. */
  lemma FlatStep(fs: seq<Field>, n: nat, columns: Columns, key: string)
    requires 0 < n <= |fs| && !Recurses(fs[n - 1])
    requires ProcessFields(fs, n - 1, columns, key) == AppendAll(columns, key, Kept(fs, n - 1))
    ensures ProcessFields(fs, n, columns, key) == AppendAll(columns, key, Kept(fs, n))
  {
    var f, kept := fs[n - 1], Kept(fs, n - 1);
    var m := ProcessFields(fs, n - 1, columns, key);
    FieldsStep(fs, n, columns, key);
    if Skipped(f) {
      assert Kept(fs, n) == kept + [];
      assert kept + [] == kept;
    } else {
      assert ProcessFields(fs, n, columns, key) == Append(m, key, ColumnFor(f));
      assert Kept(fs, n) == kept + [ColumnFor(f)];
      AppendAllSnoc(columns, key, kept, ColumnFor(f));
    }
  }

  /** The fields of `fs` without a `dbskip` tag, in order. */
  function Unskipped(fs: seq<Field>): (r: seq<Field>)
    ensures |r| <= |fs|
    ensures forall i :: 0 <= i < |r| ==> !Skipped(r[i])
  {
    if |fs| == 0 then []
    else Unskipped(fs[..|fs| - 1]) + (if Skipped(fs[|fs| - 1]) then [] else [fs[|fs| - 1]])
  }

  /** One iteration of the walk. */
  lemma FieldsStep(fs: seq<Field>, n: nat, columns: Columns, key: string)
    requires 0 < n <= |fs|
    ensures ProcessFields(fs, n, columns, key)
            == if Skipped(fs[n - 1]) then ProcessFields(fs, n - 1, columns, key)
               else RegularLogic(fs[n - 1], ProcessFields(fs, n - 1, columns, key), key)
  {
  }

  /** The walk over the first `n` fields reads only those fields. */
  lemma {:induction false} ProcessFieldsPrefix(fs: seq<Field>, gs: seq<Field>, n: nat, columns: Columns, key: string)
    requires n <= |fs| && n <= |gs| && fs[..n] == gs[..n]
    ensures ProcessFields(fs, n, columns, key) == ProcessFields(gs, n, columns, key)
  {
    if n > 0 {
      assert fs[n - 1] == fs[..n][n - 1] == gs[n - 1];
      assert fs[..n - 1] == fs[..n][..n - 1];
      assert gs[..n - 1] == gs[..n][..n - 1];
      ProcessFieldsPrefix(fs, gs, n - 1, columns, key);
    }
  }

  /** Walking `fs` after `p` extended by one field `f`. */
  lemma WalkSnoc(p: seq<Field>, f: Field, columns: Columns, key: string)
    ensures ProcessFields(p + [f], |p| + 1, columns, key)
            == if Skipped(f) then ProcessFields(p, |p|, columns, key)
               else RegularLogic(f, ProcessFields(p, |p|, columns, key), key)
  {
    var fs := p + [f];
    FieldsStep(fs, |fs|, columns, key);
    assert fs[|fs| - 1] == f;
    assert fs[..|p|] == p[..|p|];
    ProcessFieldsPrefix(fs, p, |p|, columns, key);
  }

  lemma UnskippedSnoc(p: seq<Field>, f: Field)
    ensures Unskipped(p + [f]) == Unskipped(p) + (if Skipped(f) then [] else [f])
  {
    assert (p + [f])[..|p|] == p;
  }

  /** `dbskip` fields are invisible to the walk: walking the fields gives the
      same map as walking them with the skipped fields deleted. */
  lemma {:induction false} SkippedFieldsInvisible(fs: seq<Field>, columns: Columns, key: string)
    ensures ProcessFields(fs, |fs|, columns, key)
            == ProcessFields(Unskipped(fs), |Unskipped(fs)|, columns, key)
  {
    if |fs| > 0 {
      var p, f := fs[..|fs| - 1], fs[|fs| - 1];
      assert fs == p + [f];
      SkippedFieldsInvisible(p, columns, key);
      WalkSnoc(p, f, columns, key);
      UnskippedSnoc(p, f);
      var u := Unskipped(p);
      if Skipped(f) {
        assert u + [] == u;
      } else {
        WalkSnoc(u, f, columns, key);
      }
    }
  }

  /** The same fact for whole struct types. */
  lemma WalkIgnoresSkipped(fs: seq<Field>, columns: Columns, key: string)
    ensures ProcessTypeForColumns(Struct(fs), columns, key)
            == ProcessTypeForColumns(Struct(Unskipped(fs)), columns, key)
  {
    SkippedFieldsInvisible(fs, columns, key);
  }
}
