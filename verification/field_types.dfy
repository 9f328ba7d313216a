/** The second, list-driven schema renderer of repository.go:
    `GetFieldDataTypes` (lines 281-300) maps each (name, data type) pair to
    one column line, and `CreateTableSQL` (lines 302-307) wraps the lines in
    a CREATE TABLE statement. */
module FieldTypes {
  import opened Text

  /** `FieldDataTypes`: a column name and a data type alias. */
  datatype FieldDataType = FieldDataType(name: string, dataType: string)

  const SqlUuid: string := "varchar(35) not null"
  const SqlUuidPk: string := "varchar(35) not null primary key"
  const SqlString: string := "varchar(255) not null"
  const SqlLong: string := "text"
  const SqlInt: string := "int not null default 0"

  /** The five aliases the renderer knows. */
  predicate IsAlias(dataType: string) {
    dataType in {"string", "uuid", "uuidpk", "int", "long"}
  }

  /** The SQL type of one data type: an alias is expanded, anything else is
      copied verbatim. */
  function SqlType(dataType: string): string {
    if dataType == "string" then SqlString
    else if dataType == "uuid" then SqlUuid
    else if dataType == "uuidpk" then SqlUuidPk
    else if dataType == "int" then SqlInt
    else if dataType == "long" then SqlLong
    else dataType
  }

  /** What the aliases expand to, and that every other data type passes
      through unchanged. */
  lemma SqlTypeTable(dataType: string)
    ensures SqlType("string") == "varchar(255) not null"
    ensures SqlType("uuid") == "varchar(35) not null"
    ensures SqlType("uuidpk") == "varchar(35) not null primary key"
    ensures SqlType("int") == "int not null default 0"
    ensures SqlType("long") == "text"
    ensures !IsAlias(dataType) ==> SqlType(dataType) == dataType
  {
  }

  /** One column line: the upper-cased name, a space, the SQL type. */
  function FieldLine(d: FieldDataType): string {
    ToUpper(d.name) + " " + SqlType(d.dataType)
  }

  /** The line starts with the name in capitals, character for character,
      followed by a space and the SQL type. */
  lemma FieldLineShape(d: FieldDataType)
    ensures var r := FieldLine(d);
            && |r| == |d.name| + 1 + |SqlType(d.dataType)|
            && (forall i :: 0 <= i < |d.name| ==> r[i] == UpperChar(d.name[i]))
            && NoLower(r[..|d.name|])
            && r[|d.name|] == ' '
            && r[|d.name| + 1..] == SqlType(d.dataType)
  {
    var r := FieldLine(d);
    assert r[..|d.name|] == ToUpper(d.name);
  }

  /** The lines of all fields, in field order. */
  function Lines(f: seq<FieldDataType>): (r: seq<string>)
    ensures |r| == |f|
    ensures forall i :: 0 <= i < |f| ==> r[i] == FieldLine(f[i])
  {
    seq(|f|, i requires 0 <= i < |f| => FieldLine(f[i]))
  }

  /** `GetFieldDataTypes`: the lines joined by ",\n". */
  function GetFieldDataTypes(f: seq<FieldDataType>): string {
    Join(Lines(f), ",\n")
  }

  /** Rendering two lists is rendering each, joined by one ",\n". */
  lemma GetFieldDataTypesConcat(f: seq<FieldDataType>, g: seq<FieldDataType>)
    requires |f| > 0 && |g| > 0
    ensures GetFieldDataTypes(f + g) == GetFieldDataTypes(f) + ",\n" + GetFieldDataTypes(g)
  {
    assert Lines(f + g) == Lines(f) + Lines(g);
    JoinConcat(Lines(f), Lines(g), ",\n");
  }

  /** Every line but the last followed by a comma. */
  function Terminated(xs: seq<string>): (r: seq<string>)
    ensures |r| == |xs|
  {
    if |xs| <= 1 then xs else [xs[0] + ","] + Terminated(xs[1..])
  }

  /** Joining by ",\n" is joining the comma-terminated lines by "\n". */
  lemma {:induction false} JoinCommaNewline(xs: seq<string>)
    ensures Join(xs, ",\n") == Join(Terminated(xs), "\n")
  {
    if |xs| > 1 {
      var rest := Terminated(xs[1..]);
      JoinCommaNewline(xs[1..]);
      JoinCons(xs[0] + ",", rest, "\n");
      assert [xs[0] + ","] + rest == Terminated(xs);
      assert xs[0] + ",\n" + Join(rest, "\n") == (xs[0] + ",") + "\n" + Join(rest, "\n");
    }
  }

  /** The first line indented by two tabs; an empty list still leaves the
      indentation on a line of its own. */
  function Indented(xs: seq<string>): (r: seq<string>)
    ensures |r| >= 1
  {
    if |xs| == 0 then ["\t\t"] else ["\t\t" + xs[0]] + xs[1..]
  }

  lemma IndentedJoin(xs: seq<string>)
    ensures Join(Indented(xs), "\n") == "\t\t" + Join(xs, "\n")
  {
    if |xs| == 1 {
      assert Indented(xs) == ["\t\t" + xs[0]];
    } else if |xs| > 1 {
      JoinCons("\t\t" + xs[0], xs[1..], "\n");
      assert xs == [xs[0]] + xs[1..];
      JoinCons(xs[0], xs[1..], "\n");
    }
  }

  /** `CreateTableSQL`: the Go raw-string template with the table name and
      the rendered lines filled in. */
  function CreateTableSQL(table: string, f: seq<FieldDataType>): string {
    "CREATE TABLE " + table + " (\n\t\t" + GetFieldDataTypes(f) + "\n\t)"
  }

  /** The lines of the statement: the header, the column lines (each but
      the last ending in a comma, the first indented), the closing line. */
  function StatementLines(table: string, f: seq<FieldDataType>): seq<string> {
    ["CREATE TABLE " + table + " ("] + Indented(Terminated(Lines(f))) + ["\t)"]
  }

  /** The statement is its lines joined by newlines. */
  lemma CreateTableSQLJoin(table: string, f: seq<FieldDataType>)
    ensures CreateTableSQL(table, f) == Join(StatementLines(table, f), "\n")
  {
    hide Join, Lines, Terminated, Indented, FieldLine;
    var head, body, tail := "CREATE TABLE " + table + " (", Indented(Terminated(Lines(f))), "\t)";
    var g := GetFieldDataTypes(f);
    JoinCommaNewline(Lines(f));
    IndentedJoin(Terminated(Lines(f)));
    assert Join(body, "\n") == "\t\t" + g;
    JoinConcat(body, [tail], "\n");
    JoinCons(head, body + [tail], "\n");
    assert [head] + body + [tail] == [head] + (body + [tail]);
    assert CreateTableSQL(table, f) == head + "\n" + (("\t\t" + g) + "\n" + tail);
  }

  predicate NoNewline(s: string) { '\n' !in s }

  /** Upper-casing never introduces a newline. */
  lemma ToUpperNoNewline(s: string)
    requires NoNewline(s)
    ensures NoNewline(ToUpper(s))
  {
    assert forall i :: 0 <= i < |s| ==> ToUpper(s)[i] != '\n';
  }

  lemma FieldLineNoNewline(d: FieldDataType)
    requires NoNewline(d.name) && NoNewline(d.dataType)
    ensures NoNewline(FieldLine(d)) && NoNewline(FieldLine(d) + ",")
  {
    hide ToUpper;
    ToUpperNoNewline(d.name);
    var r := FieldLine(d);
    assert forall i :: 0 <= i < |r| ==> r[i] != '\n' by {
      FieldLineShape(d);
    }
  }

  lemma {:induction false} TerminatedNoNewline(f: seq<FieldDataType>)
    requires forall i :: 0 <= i < |f| ==> NoNewline(f[i].name) && NoNewline(f[i].dataType)
    ensures forall i :: 0 <= i < |f| ==> NoNewline(Terminated(Lines(f))[i])
    decreases |f|
  {
    if |f| > 1 {
      TerminatedNoNewline(f[1..]);
      assert Lines(f)[1..] == Lines(f[1..]);
      FieldLineNoNewline(f[0]);
      forall i | 1 <= i < |f|
        ensures NoNewline(Terminated(Lines(f))[i])
      {
        assert Terminated(Lines(f))[i] == Terminated(Lines(f[1..]))[i - 1];
      }
    } else if |f| == 1 {
      FieldLineNoNewline(f[0]);
    }
  }

  /** With no newline in the table name, the field names and the data
      types, the statement has exactly one line per field between its header
      and closing line: splitting it at newlines gives back its lines. */
  lemma CreateTableSQLLines(table: string, f: seq<FieldDataType>)
    requires NoNewline(table)
    requires forall i :: 0 <= i < |f| ==> NoNewline(f[i].name) && NoNewline(f[i].dataType)
    ensures Split(CreateTableSQL(table, f), '\n') == StatementLines(table, f)
    ensures |StatementLines(table, f)| == (if |f| == 0 then 3 else |f| + 2)
  {
    hide Join, Split, Lines, FieldLine, CreateTableSQL;
    CreateTableSQLJoin(table, f);
    TerminatedNoNewline(f);
    var lines := StatementLines(table, f);
    var t := Terminated(Lines(f));
    assert NoNewline("CREATE TABLE " + table + " (") by {
      assert forall i :: 0 <= i < |"CREATE TABLE " + table + " ("| ==> ("CREATE TABLE " + table + " (")[i] != '\n';
    }
    forall i | 0 <= i < |lines|
      ensures '\n' !in lines[i]
    {
      if 1 <= i < |lines| - 1 && |t| > 0 {
        if i == 1 {
          assert lines[i] == "\t\t" + t[0];
          assert forall j :: 0 <= j < |lines[i]| ==> lines[i][j] != '\n';
        } else {
          assert lines[i] == t[i - 1];
        }
      }
    }
    SplitJoin(lines, '\n');
  }
}
