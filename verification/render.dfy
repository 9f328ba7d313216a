/** SQL text rendering of repository.go: one column definition
    (`Column.GenerateSQL`) and one foreign-key statement
    (`Alters.GenerateSQL`), together with the `Alters` and `JoinTable`
    records and the `join` tag format. */
module Render {
  import opened Text
  import opened Naming
  import opened Annotation

  // ---------------------------------------------------------------------
  // Column definitions
  // ---------------------------------------------------------------------

  /** The branches of the type switch in `Column.GenerateSQL`. */
  datatype Branch =
    | UuidBranch | DatetimeBranch | BoolBranch | FloatBranch | IntBranch | LongBranch | DefaultBranch

  /** Which branch a type string selects (fallthrough cases merged; "string"
      and every unknown string take the default branch). */
  function BranchOf(t: string): Branch {
    if t == "varchar(35)" || t == "uuid.UUID" then UuidBranch
    else if t == "datetime" || t == "time.TIME" then DatetimeBranch
    else if t == "bool" then BoolBranch
    else if t == "float" then FloatBranch
    else if t == "int" || t == "time.Duration" then IntBranch
    else if t == "long" then LongBranch
    else DefaultBranch
  }

  /** The SQL keyword each branch writes after the column name. */
  function Keyword(b: Branch): string {
    match b
    case UuidBranch => " varchar(35)"
    case DatetimeBranch => " DATETIME"
    case BoolBranch => " TINYINT(1)"
    case FloatBranch => " FLOAT(8, 2)"
    case IntBranch => " INT"
    case LongBranch => " TEXT"
    case DefaultBranch => " varchar(255)"
  }

  /** `Column.GenerateSQL`: when the column has a name, rebuild the
      definition from scratch — indent and name, then, when a type is known,
      the branch of the type switch appends, in this order, its keyword,
      NOT NULL when any null string is set and the default expression; the
      uuid branch then appends PRIMARY KEY. A column without a name is left
      as it is. */
  function GenerateSQL(c: Column): (r: Column)
    ensures r == c.(sqlDefinition := r.sqlDefinition)
    ensures c.columnString == "" ==> r == c
    ensures c.columnString != "" ==> "    " + c.columnString <= r.sqlDefinition
    ensures c.columnString != "" && c.typeString == "" ==> r.sqlDefinition == "    " + c.columnString
  {
    if c.columnString == "" then c
    else
      var head := "    " + c.columnString;
      if c.typeString == "" then c.(sqlDefinition := head)
      else
        var ds := if c.defaultString != "" then " DEFAULT " + c.defaultString else "";
        var nn := if c.nullString != "" then " NOT NULL" else "";
        var def :=
          match BranchOf(c.typeString)
          case UuidBranch => head + " varchar(35)" + nn + ds + (if c.primaryKey != "" then " PRIMARY KEY" else "")
          case DatetimeBranch => head + " DATETIME" + nn + ds
          case BoolBranch => head + " TINYINT(1)" + nn + ds
          case FloatBranch => head + " FLOAT(8, 2)" + nn + ds
          case IntBranch => head + " INT" + nn + ds
          case LongBranch => head + " TEXT" + nn + ds
          case DefaultBranch => head + " varchar(255)" + nn + ds;
        c.(sqlDefinition := def)
  }

  /** " NOT NULL" exactly when a null string is set, whatever it says. */
  function NotNullClause(c: Column): string {
    if c.nullString != "" then " NOT NULL" else ""
  }

  function DefaultClause(c: Column): string {
    if c.defaultString != "" then " DEFAULT " + c.defaultString else ""
  }

  /** " PRIMARY KEY" only in the uuid branch, and only when the flag is set. */
  function KeyClause(c: Column): string {
    if BranchOf(c.typeString) == UuidBranch && c.primaryKey != "" then " PRIMARY KEY" else ""
  }

  /** Every typed definition is the indented name, the keyword of its
      branch, then NOT NULL iff a null string is set (so "null" renders NOT
      NULL too), DEFAULT iff a default is set, and PRIMARY KEY only in the
      uuid branch: the seven branches of the switch differ in the keyword
      alone. */
  lemma GenerateSQLShape(c: Column)
    requires c.columnString != "" && c.typeString != ""
    ensures GenerateSQL(c).sqlDefinition
            == "    " + c.columnString + Keyword(BranchOf(c.typeString)) + NotNullClause(c) + DefaultClause(c) + KeyClause(c)
  {
    var d := "    " + c.columnString + Keyword(BranchOf(c.typeString)) + NotNullClause(c) + DefaultClause(c);
    assert d + "" == d;
  }

  /** Rendering again gives the same column: the definition is rebuilt from
      the other fields, never extended. */
  lemma GenerateSQLIdempotent(c: Column)
    ensures GenerateSQL(GenerateSQL(c)) == GenerateSQL(c)
  {
  }

  /** The type table of the switch, case by case. */
  lemma KnownTypes()
    ensures BranchOf("varchar(35)") == BranchOf("uuid.UUID") == UuidBranch
    ensures BranchOf("datetime") == BranchOf("time.TIME") == DatetimeBranch
    ensures BranchOf("bool") == BoolBranch && BranchOf("float") == FloatBranch
    ensures BranchOf("int") == BranchOf("time.Duration") == IntBranch
    ensures BranchOf("long") == LongBranch && BranchOf("string") == DefaultBranch
  {
  }

  /** The builder's own fallback type strings are not in the renderer's
      table: integers, booleans and floats typed by default render as
      varchar(255). */
  lemma BuilderDefaultsRenderAsVarchar()
    ensures BranchOf("integer") == BranchOf("tinyint(1)") == BranchOf("float(8,2)") == DefaultBranch
  {
  }

  // ---------------------------------------------------------------------
  // Foreign-key statements
  // ---------------------------------------------------------------------

  /** `Alters`: the owning table, the referencing column, the foreign key,
      the referenced table and the rendered statement. */
  datatype Alter = Alter(table: string, key: string, foreignKey: string, reference: string, sql: string)

  /** The backquote that delimits identifiers in the statement. */
  const Q := "`"

  /** The text of `Alters.GenerateSQL` for table `t` (already normalised):
      ALTER TABLE `t` ADD CONSTRAINT `fk_t_R` FOREIGN KEY (`FK`) REFERENCES `R` (`id`)
      — written piece by piece, each identifier between two backquotes. */
  function AlterText(t: string, foreignKey: string, reference: string): string {
    "ALTER TABLE " + Q + (t + Q + (" ADD CONSTRAINT " + Q + ("fk_" + t + "_" + reference + Q
    + (" FOREIGN KEY (" + Q + (foreignKey + Q + (") REFERENCES " + Q + (reference + Q
    + (" (" + Q + ("id" + Q + ")")))))))))
  }

  /** `Alters.GenerateSQL(tableName)`: normalise the table name and set the
      statement; no other field changes. */
  function GenerateAlter(a: Alter, tableName: string): (r: Alter)
    ensures r == a.(sql := r.sql)
    ensures r.sql == AlterText(CamelToSnake(tableName), a.foreignKey, a.reference)
  {
    a.(sql := AlterText(CamelToSnake(tableName), a.foreignKey, a.reference))
  }

  /** The statement is blind to `Key`: only the foreign key and the
      reference reach the text. */
  lemma AlterIgnoresKey(a: Alter, k: string, tableName: string)
    ensures GenerateAlter(a.(key := k), tableName).sql == GenerateAlter(a, tableName).sql
  {
  }

  /** The statement cut at its backquotes. */
  function AlterPieces(t: string, foreignKey: string, reference: string): seq<string> {
    ["ALTER TABLE ", t, " ADD CONSTRAINT ", "fk_" + t + "_" + reference, " FOREIGN KEY (",
     foreignKey, ") REFERENCES ", reference, " (", "id", ")"]
  }

  lemma {:induction false} AlterTextPieces(t: string, foreignKey: string, reference: string)
    ensures AlterText(t, foreignKey, reference) == Join(AlterPieces(t, foreignKey, reference), "`")
  {
    var p := AlterPieces(t, foreignKey, reference);
    var q := Q;
    JoinCons(p[9], p[10..], q);
    JoinCons(p[8], p[9..], q);
    JoinCons(p[7], p[8..], q);
    JoinCons(p[6], p[7..], q);
    JoinCons(p[5], p[6..], q);
    JoinCons(p[4], p[5..], q);
    JoinCons(p[3], p[4..], q);
    JoinCons(p[2], p[3..], q);
    JoinCons(p[1], p[2..], q);
    JoinCons(p[0], p[1..], q);
  }

  /** Reads the normalised table, the foreign key and the reference back
      out of a statement; `None` when the text does not have the shape of
      `AlterText`. */
  function ParseAlter(sql: string): Option<(string, string, string)> {
    var p := Split(sql, '`');
    if |p| == 11 && p[0] == "ALTER TABLE " && p[2] == " ADD CONSTRAINT "
       && p[3] == "fk_" + p[1] + "_" + p[7] && p[4] == " FOREIGN KEY ("
       && p[6] == ") REFERENCES " && p[8] == " (" && p[9] == "id" && p[10] == ")"
    then Some((p[1], p[5], p[7]))
    else None
  }

  /** No piece holds a backquote when the three names do not. */
  lemma AlterPiecesPlain(t: string, foreignKey: string, reference: string)
    requires '`' !in t && '`' !in foreignKey && '`' !in reference
    ensures forall i :: 0 <= i < 11 ==> '`' !in AlterPieces(t, foreignKey, reference)[i]
  {
    var p := AlterPieces(t, foreignKey, reference);
    var fk := "fk_" + t + "_" + reference;
    assert '`' !in fk by {
      assert forall i :: 0 <= i < |fk| ==> fk[i] != '`';
    }
    assert p[3] == fk;
  }

  /** Round trip: when neither the table name, the foreign key nor the
      reference holds a backquote, the statement determines all three —
      the normalised table name, the foreign key and the reference. */
  lemma ParseGenerateAlter(a: Alter, tableName: string)
    requires '`' !in tableName && '`' !in a.foreignKey && '`' !in a.reference
    ensures ParseAlter(GenerateAlter(a, tableName).sql)
            == Some((CamelToSnake(tableName), a.foreignKey, a.reference))
  {
    var t := CamelToSnake(tableName);
    CamelToSnakeAddsNothing(tableName, '`');
    var p := AlterPieces(t, a.foreignKey, a.reference);
    AlterTextPieces(t, a.foreignKey, a.reference);
    AlterPiecesPlain(t, a.foreignKey, a.reference);
    SplitJoin(p, '`');
    ParsePieces(GenerateAlter(a, tableName).sql, t, a.foreignKey, a.reference);
  }

  lemma ParsePieces(sql: string, t: string, foreignKey: string, reference: string)
    requires Split(sql, '`') == AlterPieces(t, foreignKey, reference)
    ensures ParseAlter(sql) == Some((t, foreignKey, reference))
  {
  }

  // ---------------------------------------------------------------------
  // Join tables
  // ---------------------------------------------------------------------

  /** `JoinTable`: the two participants, their key columns, and the
      statement creating the association table. */
  datatype JoinTable = JoinTable(firstTable: string, secondTable: string, firstKey: string, secondKey: string, sql: string)

  /** A `join` tag the synthesizer can index without panicking: a comma, and
      a colon before it and between it and any second comma. */
  predicate WellFormedJoin(s: string) {
    ',' in s && ':' in Before(s, ',') && ':' in Before(After(s, ','), ',')
  }

  /** The two `Table:key` halves of a well-formed tag; anything after a
      second comma or colon is ignored. */
  function ParseJoin(s: string): (string, string, string, string)
    requires WellFormedJoin(s)
  {
    var first, second := Before(s, ','), Before(After(s, ','), ',');
    (Before(first, ':'), Before(After(first, ':'), ':'), Before(second, ':'), Before(After(second, ':'), ':'))
  }

  /** The reading the synthesizer performs: split the tag at commas, split
      each of the first two pieces at colons, and index the pieces; it
      panics exactly when the tag is not well formed. */
  lemma ParseJoinSplits(s: string)
    ensures var first := Split(s, ',');
            WellFormedJoin(s) <==> |first| >= 2 && |Split(first[0], ':')| >= 2 && |Split(first[1], ':')| >= 2
    ensures WellFormedJoin(s) ==>
              var first := Split(s, ',');
              var t1, t2 := Split(first[0], ':'), Split(first[1], ':');
              ParseJoin(s) == (t1[0], t1[1], t2[0], t2[1])
  {
    SplitFirst(s, ',');
    var first := Split(s, ',');
    SplitFirst(first[0], ':');
    if ',' in s {
      SplitFirst(After(s, ','), ',');
      assert first[1] == Before(After(s, ','), ',');
      SplitFirst(first[1], ':');
      if ':' in first[0] {
        SplitFirst(After(first[0], ':'), ':');
      }
      if ':' in first[1] {
        SplitFirst(After(first[1], ':'), ':');
      }
    }
  }

  /** The tag text `T1:k1,T2:k2`. */
  function FormatJoin(t1: string, k1: string, t2: string, k2: string): string {
    t1 + ":" + k1 + "," + t2 + ":" + k2
  }

  predicate Plain(s: string) { ',' !in s && ':' !in s }

  /** A tag written from four plain names is well formed and parses back to
      those names. */
  lemma ParseFormatJoin(t1: string, k1: string, t2: string, k2: string)
    requires Plain(t1) && Plain(k1) && Plain(t2) && Plain(k2)
    ensures WellFormedJoin(FormatJoin(t1, k1, t2, k2))
    ensures ParseJoin(FormatJoin(t1, k1, t2, k2)) == (t1, k1, t2, k2)
  {
    var a, b := t1 + [':'] + k1, t2 + [':'] + k2;
    assert FormatJoin(t1, k1, t2, k2) == a + [','] + b;
    assert ',' !in a by {
      assert forall i :: 0 <= i < |a| ==> a[i] != ',';
    }
    assert ',' !in b by {
      assert forall i :: 0 <= i < |b| ==> b[i] != ',';
    }
    FirstAt(a, b, ',');
    FirstAt(t1, k1, ':');
    FirstAt(t2, k2, ':');
  }

  /** The statement creating join table `name` with the two key columns. */
  function JoinTableText(name: string, k1: string, k2: string): string {
    "CREATE TABLE IF NOT EXISTS " + name + " (" + k1 + " varchar(35) not null, " + k2 + " varchar(35) not null)"
  }
}
