/** The `Model` struct of struct.go (lines 83-87), the embedded base of the
    library's entities, taken end to end: its tags, the descriptors the
    builder makes of them, and the column definitions the renderer writes. */
module Fixture {
  import opened Text
  import opened Naming
  import opened Annotation
  import opened Render
  import opened Synthesis
  import opened Extraction

  /** `ID string` with `column:"id" datatype:"uuid.UUID" null:"false"
      primaryKey:"true"` (the `json` tag is not read by the builder). */
  const IdField := Field("ID", String, map[ColumnTag := "id", DatatypeTag := "uuid.UUID", NullTag := "false", PrimaryKeyTag := "true"])

  /** `Created string` with `column:"created" datatype:"time.TIME"
      null:"false" default:"NOW()"`. */
  const CreatedField := Field("Created", String, TimeTags("created"))

  /** `Updated string`, tagged like `Created`. */
  const UpdatedField := Field("Updated", String, TimeTags("updated"))

  /** The tags of a `time.TIME` column that is not null and defaults to the
      current time. */
  function TimeTags(column: string): Tags {
    map[ColumnTag := column, DatatypeTag := "time.TIME", NullTag := "false", DefaultTag := "NOW()"]
  }

  const ModelEntity := Entity("Model", [IdField, CreatedField, UpdatedField], false)

  /** The descriptor of `ID`: a varchar(35) primary key that is not null. */
  lemma IdDescriptor()
    ensures Describe(IdField) == Column("ID", "id", "varchar(35)", "", "", "true", "not null", "", "", "", "")
  {
    var f := IdField;
    DescribeNames(f);
    DescribeType(f);
    DescribeNull(f);
    DescribeKeys(f);
    DescribeDefaultAndJoin(f);
  }

  /** The descriptor of a `time.TIME` field with `null:"false"` and a
      default. */
  lemma TimeDescriptor(f: Field, name: string, column: string)
    requires f == Field(name, String, TimeTags(column))
    ensures Describe(f) == Column(name, column, "datetime", "", "", "", "not null", "NOW()", "", "", "")
  {
    DescribeNames(f);
    DescribeType(f);
    DescribeNull(f);
    DescribeKeys(f);
    DescribeDefaultAndJoin(f);
  }

  /** `ID` renders as "    id varchar(35) NOT NULL PRIMARY KEY". */
  lemma IdDefinition()
    ensures GenerateSQL(Describe(IdField)).sqlDefinition == "    id varchar(35) NOT NULL PRIMARY KEY"
  {
    IdDescriptor();
    var c := Describe(IdField);
    GenerateSQLShape(c);
    KnownTypes();
    IdSpelling("    ", "id", " varchar(35)", " NOT NULL", " PRIMARY KEY");
  }

  /** Splits a string-literal equality into steps the solver checks cheaply. */
  lemma IdSpelling(indent: string, name: string, kw: string, nn: string, pk: string)
    requires indent == "    " && name == "id" && kw == " varchar(35)" && nn == " NOT NULL" && pk == " PRIMARY KEY"
    ensures indent + name + kw + nn + "" + pk == "    id varchar(35) NOT NULL PRIMARY KEY"
  {
  }

  /** A `time.TIME` field with a default renders as
      "    <column> DATETIME NOT NULL DEFAULT NOW()". */
  lemma TimeDefinition(f: Field, name: string, column: string)
    requires f == Field(name, String, TimeTags(column))
    requires column != ""
    ensures GenerateSQL(Describe(f)).sqlDefinition == "    " + column + " DATETIME NOT NULL DEFAULT NOW()"
  {
    TimeDescriptor(f, name, column);
    var c := Describe(f);
    GenerateSQLShape(c);
    KnownTypes();
    assert KeyClause(c) == "";
    TimeSpelling(column, " DATETIME", " NOT NULL", " DEFAULT " + "NOW()");
  }

  /** Splits a string-literal equality into steps the solver checks cheaply. */
  lemma TimeSpelling(column: string, kw: string, nn: string, ds: string)
    requires kw == " DATETIME" && nn == " NOT NULL" && ds == " DEFAULT NOW()"
    ensures "    " + column + kw + nn + ds + "" == "    " + column + " DATETIME NOT NULL DEFAULT NOW()"
  {
  }

  /** Splits a string-literal equality into steps the solver checks cheaply. */
  lemma CreatedLine()
    ensures "    " + "created" + " DATETIME NOT NULL DEFAULT NOW()" == "    created DATETIME NOT NULL DEFAULT NOW()"
  {
  }

  /** Splits a string-literal equality into steps the solver checks cheaply. */
  lemma UpdatedLine()
    ensures "    " + "updated" + " DATETIME NOT NULL DEFAULT NOW()" == "    updated DATETIME NOT NULL DEFAULT NOW()"
  {
  }

  /** `Created` renders as "    created DATETIME NOT NULL DEFAULT NOW()". */
  lemma CreatedDefinition()
    ensures GenerateSQL(Describe(CreatedField)).sqlDefinition == "    created DATETIME NOT NULL DEFAULT NOW()"
  {
    hide Describe, GenerateSQL;
    TimeDefinition(CreatedField, "Created", "created");
    CreatedLine();
  }

  /** `Updated` renders as "    updated DATETIME NOT NULL DEFAULT NOW()". */
  lemma UpdatedDefinition()
    ensures GenerateSQL(Describe(UpdatedField)).sqlDefinition == "    updated DATETIME NOT NULL DEFAULT NOW()"
  {
    hide Describe, GenerateSQL;
    TimeDefinition(UpdatedField, "Updated", "updated");
    UpdatedLine();
  }

  /** A `null:"true"` string field is described as "null" and still renders
      NOT NULL: the renderer only asks whether a null string is set. */
  lemma NullableRendersNotNull(f: Field)
    requires f.kind == String && ColumnTag in f.tags && f.tags[ColumnTag] != ""
    requires DatatypeTag in f.tags ==> f.tags[DatatypeTag] != ""
    requires NullTag in f.tags && f.tags[NullTag] == "true"
    ensures Describe(f).nullString == "null"
    ensures var c := Describe(f);
            GenerateSQL(c).sqlDefinition
            == "    " + c.columnString + Keyword(BranchOf(c.typeString)) + " NOT NULL" + DefaultClause(c) + KeyClause(c)
  {
    DescribeNames(f);
    DescribeNull(f);
    var c := Describe(f);
    assert c.typeString != "" by {
      DescribeType(f);
    }
    GenerateSQLShape(c);
  }

  /** Read as an entity (it is registered by value, so as written and
      corrected agree), `Model` gives the three descriptors, in field order,
      under the key "Model". */
  lemma ModelColumns()
    ensures ReadEntity(ModelEntity)
            == map["Model" := [Describe(IdField), Describe(CreatedField), Describe(UpdatedField)]]
    ensures ReadEntityAsWritten(ModelEntity)
            == map["Model" := [Describe(IdField), Describe(CreatedField), Describe(UpdatedField)]]
  {
    hide Describe, ProcessTypeForColumns, ReadEntity, ReadEntityAsWritten;
    var fs := ModelEntity.fields;
    assert fs[0] == IdField && fs[1] == CreatedField && fs[2] == UpdatedField;
    assert forall i :: 0 <= i < |fs| ==> !Recurses(fs[i]) && !Skipped(fs[i]);
    FlatEntity(ModelEntity);
    var cs := [Describe(IdField), Describe(CreatedField), Describe(UpdatedField)];
    assert Kept(fs, 3) == cs by {
      assert Kept(fs, 1) == [Describe(IdField)];
      assert Kept(fs, 2) == cs[..2];
    }
  }

  /** Splits a string-literal equality into steps the solver checks cheaply. */
  lemma ModelSpelling(t: string)
    requires t == "odel"
    ensures "Model" == ['M'] + t && NoUpper(t)
  {
  }

  /** The table key "Model" is normalised to "model". */
  lemma ModelTableName()
    ensures CamelToSnake("Model") == "model"
  {
    ModelSpelling("odel");
    CamelToSnakeCons('M', "odel");
    InnerPiecesKeepsLowercase("odel");
  }

  /** Synthesised on its own, the `Model` entry adds exactly one statement:
      CREATE TABLE model with its three column definitions in field order,
      and no join table or foreign key. */
  lemma ModelTable(s: Schema)
    ensures var e := Entry("Model", [Describe(IdField), Describe(CreatedField), Describe(UpdatedField)]);
            && JoinsWellFormed(e.attributes)
            && KeyStep(s, e).tables == s.tables + [TableText("model", [
                 "    id varchar(35) NOT NULL PRIMARY KEY",
                 "    created DATETIME NOT NULL DEFAULT NOW()",
                 "    updated DATETIME NOT NULL DEFAULT NOW()"])]
            && KeyStep(s, e).joins == s.joins && KeyStep(s, e).alters == s.alters
  {
    hide Describe, GenerateSQL, KeyStep, CamelToSnake;
    IdDescriptor();
    TimeDescriptor(CreatedField, "Created", "created");
    TimeDescriptor(UpdatedField, "Updated", "updated");
    var cs := [Describe(IdField), Describe(CreatedField), Describe(UpdatedField)];
    var e := Entry("Model", cs);
    assert JoinsWellFormed(e.attributes);
    assert Renders(cs[0]) && Renders(cs[1]) && Renders(cs[2]);
    KeyStepTables(s, e);
    KeyStepCounts(s, e);
    assert !IsJoin(cs[0]) && !IsJoin(cs[1]) && !IsJoin(cs[2]);
    assert !IsReference(cs[0]) && !IsReference(cs[1]) && !IsReference(cs[2]);
    PlainCounts(cs);
    IdDefinition();
    CreatedDefinition();
    UpdatedDefinition();
    ModelTableName();
    PlainDefinitions(cs);
  }

  /** Three descriptors that are neither joins nor references add no join
      table and no foreign key. */
  lemma PlainCounts(cs: seq<Column>)
    requires |cs| == 3 && !IsJoin(cs[0]) && !IsJoin(cs[1]) && !IsJoin(cs[2])
    requires !IsReference(cs[0]) && !IsReference(cs[1]) && !IsReference(cs[2])
    ensures JoinCount(cs, 3) == 0 && ReferenceCount(cs, 3) == 0
  {
    hide GenerateSQL;
    assert JoinCount(cs, 1) == 0 && ReferenceCount(cs, 1) == 0;
    assert JoinCount(cs, 2) == 0 && ReferenceCount(cs, 2) == 0;
  }

  /** Three rendering descriptors give their three definitions, in order. */
  lemma PlainDefinitions(cs: seq<Column>)
    requires |cs| == 3 && Renders(cs[0]) && Renders(cs[1]) && Renders(cs[2])
    ensures Definitions(cs, 3)
            == [GenerateSQL(cs[0]).sqlDefinition, GenerateSQL(cs[1]).sqlDefinition, GenerateSQL(cs[2]).sqlDefinition]
  {
    hide GenerateSQL;
    assert Definitions(cs, 1) == [GenerateSQL(cs[0]).sqlDefinition];
    assert Definitions(cs, 2) == [GenerateSQL(cs[0]).sqlDefinition, GenerateSQL(cs[1]).sqlDefinition];
  }
}
