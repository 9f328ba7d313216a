/** The schema synthesizer of repository.go `CreateTables` (lines 374-442):
    the extracted descriptors, table by table, become CREATE TABLE
    statements, join tables and foreign-key statements.

    Go ranges over a slice of maps, and over each map in an unspecified
    order; the model takes that order as input — a sequence of entries
    (table key, descriptors) — and folds over it. The `tableName` variable
    of the source is declared once, before both loops, and is never reset:
    it is part of the fold's state. */
module Synthesis {
  import opened Text
  import opened Naming
  import opened Annotation
  import opened Render

  /** One key of an extracted map with its descriptors. */
  datatype Entry = Entry(key: string, attributes: seq<Column>)

  /** The three lists `CreateTables` builds, and the shared table name. */
  datatype Schema = Schema(tables: seq<string>, joins: seq<JoinTable>, alters: seq<Alter>, tableName: string)

  const Start := Schema([], [], [], "")

  /** A descriptor that becomes a column definition. */
  predicate Renders(a: Column) {
    a.columnString != "" && a.joinString == "" && a.typeString != ""
  }

  /** A descriptor that becomes a join table. */
  predicate IsJoin(a: Column) {
    a.columnString != "" && a.joinString != ""
  }

  /** A descriptor that becomes a foreign-key statement. */
  predicate IsReference(a: Column) {
    a.referenceString != ""
  }

  /** The synthesizer indexes the split `join` tag without checking it: a
      malformed tag panics, so every join descriptor must be well formed. */
  predicate JoinsWellFormed(attrs: seq<Column>) {
    forall i :: 0 <= i < |attrs| && IsJoin(attrs[i]) ==> WellFormedJoin(attrs[i].joinString)
  }

  /** The CREATE TABLE statement of one key. */
  function TableText(name: string, defs: seq<string>): string {
    "CREATE TABLE IF NOT EXISTS " + name + " (\r\n" + Join(defs, ",\r\n") + "\r\n)\r\n"
  }

  /** The join branch: parse `T1:k1,T2:k2`, name the join table after both
      participants unless a table name is already known, and emit the join
      table and one foreign key towards each participant. */
  function JoinStep(s: Schema, a: Column): (r: Schema)
    requires IsJoin(a) && WellFormedJoin(a.joinString)
    ensures r.tables == s.tables
    ensures |r.joins| == |s.joins| + 1 && s.joins <= r.joins
    ensures |r.alters| == |s.alters| + 2 && s.alters <= r.alters
    ensures r.tableName != ""
    ensures s.tableName != "" ==> r.tableName == s.tableName
  {
    var (t1, k1, t2, k2) := ParseJoin(a.joinString);
    var name := if s.tableName == "" then CamelToSnake(t1 + "_" + t2) else s.tableName;
    assert name != "" by {
      if s.tableName == "" {
        assert |t1 + "_" + t2| > 0;
      }
    }
    var jt := JoinTable(t1, t2, k1, k2, JoinTableText(name, k1, k2));
    var first := GenerateAlter(Alter(name, "", k1, t1, ""), name);
    var second := GenerateAlter(Alter(name, "", k2, t2, ""), name);
    s.(tableName := name, alters := s.alters + [first, second], joins := s.joins + [jt])
  }

  /** The reference branch: one foreign key from this key's table (named
      after the key unless a table name is already known). `Key` is the
      column name; the foreign key is copied only when set, which leaves it
      equal to the descriptor's either way. */
  function ReferenceStep(s: Schema, key: string, a: Column): (r: Schema)
    requires IsReference(a)
    ensures r.tables == s.tables && r.joins == s.joins
    ensures |r.alters| == |s.alters| + 1 && s.alters <= r.alters
    ensures s.tableName != "" ==> r.tableName == s.tableName
  {
    var name := if s.tableName == "" then CamelToSnake(key) else s.tableName;
    var at := Alter(name, a.columnString, a.foreignKey, a.referenceString, "");
    s.(tableName := name, alters := s.alters + [GenerateAlter(at, at.table)])
  }

  /** The state part of one iteration of the inner loop: adopt the
      descriptor's table name, then run the join branch and the reference
      branch. A descriptor's own table name becomes the shared name; without
      one, a known shared name is never reset. */
  function StepState(s: Schema, key: string, a: Column): (r: Schema)
    requires IsJoin(a) ==> WellFormedJoin(a.joinString)
    ensures r.tables == s.tables
    ensures s.joins <= r.joins && s.alters <= r.alters
    ensures |r.joins| == |s.joins| + (if IsJoin(a) then 1 else 0)
    ensures |r.alters| == |s.alters| + (if IsJoin(a) then 2 else 0) + (if IsReference(a) then 1 else 0)
    ensures a.tableName != "" ==> r.tableName == a.tableName
    ensures a.tableName == "" && s.tableName != "" ==> r.tableName == s.tableName
  {
    var named := if a.tableName != "" then s.(tableName := a.tableName) else s;
    var joined := if IsJoin(a) then JoinStep(named, a) else named;
    if IsReference(a) then ReferenceStep(joined, key, a) else joined
  }

  /** The column definition a descriptor contributes ("" when none): it has
      a name and a type and is not a join. */
  function Definition(a: Column): (r: string)
    ensures r != "" <==> Renders(a)
    ensures Renders(a) ==> r == GenerateSQL(a).sqlDefinition
  {
    if Renders(a) then GenerateSQL(a).sqlDefinition else ""
  }

  /** One iteration of the inner loop: the new state and the column
      definition. */
  function AttributeStep(s: Schema, key: string, a: Column): (Schema, string)
    requires IsJoin(a) ==> WellFormedJoin(a.joinString)
  {
    (StepState(s, key, a), Definition(a))
  }

  /** The inner loop over the first `n` descriptors of a key: the state and
      the column definitions collected so far. */
  function Attributes(s: Schema, key: string, attrs: seq<Column>, n: nat): (r: (Schema, seq<string>))
    requires n <= |attrs| && JoinsWellFormed(attrs)
    ensures r.0.tables == s.tables
    ensures s.joins <= r.0.joins && s.alters <= r.0.alters
  {
    if n == 0 then (s, [])
    else
      var (s', defs) := Attributes(s, key, attrs, n - 1);
      var (s'', column) := AttributeStep(s', key, attrs[n - 1]);
      (s'', if column != "" then defs + [column] else defs)
  }

  /** One iteration of the middle loop: walk a key's descriptors and, when
      any produced a definition, add its CREATE TABLE statement. */
  function KeyStep(s: Schema, e: Entry): (r: Schema)
    requires JoinsWellFormed(e.attributes)
    ensures s.tables <= r.tables && s.joins <= r.joins && s.alters <= r.alters
  {
    var (s', defs) := Attributes(s, e.key, e.attributes, |e.attributes|);
    if |defs| > 0 then s'.(tables := s'.tables + [TableText(CamelToSnake(e.key), defs)]) else s'
  }

  predicate EntriesWellFormed(es: seq<Entry>) {
    forall j :: 0 <= j < |es| ==> JoinsWellFormed(es[j].attributes)
  }

  /** The loops over the first `n` entries. */
  function Entries(s: Schema, es: seq<Entry>, n: nat): (r: Schema)
    requires n <= |es| && EntriesWellFormed(es)
    ensures s.tables <= r.tables && s.joins <= r.joins && s.alters <= r.alters
  {
    if n == 0 then s else KeyStep(Entries(s, es, n - 1), es[n - 1])
  }

  /** The entries of all maps, map after map. */
  function Flatten(maps: seq<seq<Entry>>): seq<Entry> {
    if |maps| == 0 then [] else Flatten(maps[..|maps| - 1]) + maps[|maps| - 1]
  }

  /** Lines 374-442 of `CreateTables`, from empty lists and an empty table
      name. */
  function Synthesize(maps: seq<seq<Entry>>): Schema
    requires EntriesWellFormed(Flatten(maps))
  {
    Entries(Start, Flatten(maps), |Flatten(maps)|)
  }

  // ---------------------------------------------------------------------
  // Column definitions and CREATE TABLE statements
  // ---------------------------------------------------------------------

  /** The definitions of the rendering descriptors among the first `n`, in
      order — a filter that does not look at the state. */
  function Definitions(attrs: seq<Column>, n: nat): seq<string>
    requires n <= |attrs|
  {
    if n == 0 then []
    else Definitions(attrs, n - 1)
         + (if Renders(attrs[n - 1]) then [GenerateSQL(attrs[n - 1]).sqlDefinition] else [])
  }

  /** The states of the inner loop, without the definitions. */
  function States(s: Schema, key: string, attrs: seq<Column>, n: nat): Schema
    requires n <= |attrs| && JoinsWellFormed(attrs)
  {
    if n == 0 then s else StepState(States(s, key, attrs, n - 1), key, attrs[n - 1])
  }

  /** The inner loop is two independent walks: the states, and exactly the
      definitions of the rendering descriptors in descriptor order, whatever
      the state it starts from. */
  lemma {:induction false} AttributesDefinitions(s: Schema, key: string, attrs: seq<Column>, n: nat)
    requires n <= |attrs| && JoinsWellFormed(attrs)
    ensures Attributes(s, key, attrs, n).0 == States(s, key, attrs, n)
    ensures Attributes(s, key, attrs, n).1 == Definitions(attrs, n)
  {
    hide StepState, GenerateSQL, Definition, WellFormedJoin;
    if n > 0 {
      AttributesDefinitions(s, key, attrs, n - 1);
      assert IsJoin(attrs[n - 1]) ==> WellFormedJoin(attrs[n - 1].joinString);
    }
  }

  lemma {:induction false} DefinitionsNonEmpty(attrs: seq<Column>, n: nat)
    requires n <= |attrs|
    ensures |Definitions(attrs, n)| > 0 <==> exists i :: 0 <= i < n && Renders(attrs[i])
  {
    if n > 0 {
      DefinitionsNonEmpty(attrs, n - 1);
      if Renders(attrs[n - 1]) {
        assert 0 <= n - 1 < n && Renders(attrs[n - 1]);
      } else {
        assert (exists i :: 0 <= i < n && Renders(attrs[i])) ==> exists i :: 0 <= i < n - 1 && Renders(attrs[i]);
      }
    }
  }

  /** A key adds one CREATE TABLE statement exactly when one of its
      descriptors has a name and a type and no join; the statement names the
      normalised key and lists the definitions in descriptor order. */
  lemma KeyStepTables(s: Schema, e: Entry)
    requires JoinsWellFormed(e.attributes)
    ensures var defs := Definitions(e.attributes, |e.attributes|);
            KeyStep(s, e).tables
            == s.tables + (if exists i :: 0 <= i < |e.attributes| && Renders(e.attributes[i])
                           then [TableText(CamelToSnake(e.key), defs)] else [])
  {
    AttributesDefinitions(s, e.key, e.attributes, |e.attributes|);
    DefinitionsNonEmpty(e.attributes, |e.attributes|);
  }

  // ---------------------------------------------------------------------
  // Join and reference descriptors
  // ---------------------------------------------------------------------

  /** A join tag `T1:k1,T2:k2` (plain names, no table-name override, no
      reference) adds the join table {T1, k1, T2, k2} with its CREATE
      statement and the two foreign keys towards T1 on k1 and towards T2 on
      k2. The table is the shared table name, or `T1_T2` normalised when
      none is known yet; the shared name is that table afterwards. */
  lemma JoinAttribute(s: Schema, key: string, a: Column, t1: string, k1: string, t2: string, k2: string)
    requires Plain(t1) && Plain(k1) && Plain(t2) && Plain(k2)
    requires a.columnString != "" && a.joinString == FormatJoin(t1, k1, t2, k2)
    requires a.tableName == "" && !IsReference(a)
    ensures WellFormedJoin(a.joinString)
    ensures var name := if s.tableName == "" then CamelToSnake(t1 + "_" + t2) else s.tableName;
            var r := StepState(s, key, a);
            && r.joins == s.joins + [JoinTable(t1, t2, k1, k2, JoinTableText(name, k1, k2))]
            && r.alters == s.alters + [Alter(name, "", k1, t1, AlterText(CamelToSnake(name), k1, t1)),
                                       Alter(name, "", k2, t2, AlterText(CamelToSnake(name), k2, t2))]
            && r.tableName == name
  {
    hide FormatJoin, ParseJoin, WellFormedJoin, Before, After, CamelToSnake, JoinTableText, AlterText, GenerateSQL;
    ParseFormatJoin(t1, k1, t2, k2);
  }

  /** A reference descriptor (no join, no table-name override) adds one
      foreign key: from the shared table — or, when none is known yet, the
      table of the normalised key — on the descriptor's foreign key towards
      the referenced table, with `Key` set to the column name. */
  lemma ReferenceAttribute(s: Schema, key: string, a: Column)
    requires IsReference(a) && !IsJoin(a) && a.tableName == ""
    ensures var name := if s.tableName == "" then CamelToSnake(key) else s.tableName;
            var r := StepState(s, key, a);
            && r.joins == s.joins
            && r.alters == s.alters + [Alter(name, a.columnString, a.foreignKey, a.referenceString,
                                             AlterText(CamelToSnake(name), a.foreignKey, a.referenceString))]
            && r.tableName == name
  {
  }

  // ---------------------------------------------------------------------
  // The shared table name
  // ---------------------------------------------------------------------

  predicate NoOverrides(attrs: seq<Column>) {
    forall i :: 0 <= i < |attrs| ==> attrs[i].tableName == ""
  }

  /** Across a whole key: a key without table-name overrides keeps the name
      an earlier key left, so its foreign keys start from that earlier table
      rather than its own (`ReferenceAttribute`). */
  lemma {:induction false} StickyAcrossKey(s: Schema, key: string, attrs: seq<Column>, n: nat)
    requires n <= |attrs| && JoinsWellFormed(attrs) && NoOverrides(attrs)
    requires s.tableName != ""
    ensures States(s, key, attrs, n).tableName == s.tableName
  {
    hide StepState;
    if n > 0 {
      StickyAcrossKey(s, key, attrs, n - 1);
      assert attrs[n - 1].tableName == "";
    }
  }

  // ---------------------------------------------------------------------
  // How many statements
  // ---------------------------------------------------------------------

  /** Number of join descriptors among the first `n`. */
  function JoinCount(attrs: seq<Column>, n: nat): nat
    requires n <= |attrs|
  {
    if n == 0 then 0 else JoinCount(attrs, n - 1) + (if IsJoin(attrs[n - 1]) then 1 else 0)
  }

  /** Number of reference descriptors among the first `n`. */
  function ReferenceCount(attrs: seq<Column>, n: nat): nat
    requires n <= |attrs|
  {
    if n == 0 then 0 else ReferenceCount(attrs, n - 1) + (if IsReference(attrs[n - 1]) then 1 else 0)
  }

  /** One join table per join descriptor; two foreign keys per join
      descriptor and one per reference descriptor. */
  lemma {:induction false} StatesCounts(s: Schema, key: string, attrs: seq<Column>, n: nat)
    requires n <= |attrs| && JoinsWellFormed(attrs)
    ensures |States(s, key, attrs, n).joins| == |s.joins| + JoinCount(attrs, n)
    ensures |States(s, key, attrs, n).alters| == |s.alters| + 2 * JoinCount(attrs, n) + ReferenceCount(attrs, n)
  {
    hide StepState;
    if n > 0 {
      StatesCounts(s, key, attrs, n - 1);
      assert IsJoin(attrs[n - 1]) ==> WellFormedJoin(attrs[n - 1].joinString);
    }
  }

  /** The counts for one key. */
  lemma KeyStepCounts(s: Schema, e: Entry)
    requires JoinsWellFormed(e.attributes)
    ensures |KeyStep(s, e).joins| == |s.joins| + JoinCount(e.attributes, |e.attributes|)
    ensures |KeyStep(s, e).alters| == |s.alters| + 2 * JoinCount(e.attributes, |e.attributes|) + ReferenceCount(e.attributes, |e.attributes|)
  {
    hide Attributes, StepState, GenerateSQL;
    StatesCounts(s, e.key, e.attributes, |e.attributes|);
    AttributesDefinitions(s, e.key, e.attributes, |e.attributes|);
  }

  /** Join descriptors of all keys of the first `n` entries. */
  function EntryJoins(es: seq<Entry>, n: nat): nat
    requires n <= |es|
  {
    if n == 0 then 0 else EntryJoins(es, n - 1) + JoinCount(es[n - 1].attributes, |es[n - 1].attributes|)
  }

  /** Reference descriptors of all keys of the first `n` entries. */
  function EntryReferences(es: seq<Entry>, n: nat): nat
    requires n <= |es|
  {
    if n == 0 then 0 else EntryReferences(es, n - 1) + ReferenceCount(es[n - 1].attributes, |es[n - 1].attributes|)
  }

  /** The counts over a whole run. */
  lemma {:induction false} EntriesCounts(s: Schema, es: seq<Entry>, n: nat)
    requires n <= |es| && EntriesWellFormed(es)
    ensures |Entries(s, es, n).joins| == |s.joins| + EntryJoins(es, n)
    ensures |Entries(s, es, n).alters| == |s.alters| + 2 * EntryJoins(es, n) + EntryReferences(es, n)
  {
    hide KeyStep;
    if n > 0 {
      EntriesCounts(s, es, n - 1);
      assert JoinsWellFormed(es[n - 1].attributes);
      KeyStepCounts(Entries(s, es, n - 1), es[n - 1]);
    }
  }

  /** From empty lists: as many join tables as join descriptors, and twice
      as many foreign keys plus one per reference descriptor. */
  lemma SynthesizeCounts(maps: seq<seq<Entry>>)
    requires EntriesWellFormed(Flatten(maps))
    ensures var es := Flatten(maps);
            && |Synthesize(maps).joins| == EntryJoins(es, |es|)
            && |Synthesize(maps).alters| == 2 * EntryJoins(es, |es|) + EntryReferences(es, |es|)
  {
    EntriesCounts(Start, Flatten(maps), |Flatten(maps)|);
  }
}
