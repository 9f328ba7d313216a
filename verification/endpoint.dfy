/** The fluent query builder of endpoint.go (lines 33-72): each call
    rewrites or extends the `query` text of a `DB` and hands back the same
    receiver, so a chain of calls is a sequence of state transitions. */
module Endpoint {
  import opened Text

  /** `DB`: the connection handle (an opaque reference here), the
      credentials, and the query under construction. */
  datatype DB = DB(conn: nat, user: string, pass: string, net: string, addr: string, dbn: string, query: string)

  /** `Table`: a table name, its alias in the query, and a key column. */
  datatype Table = Table(name: string, alias: string, key: string)

  /** Two states that differ at most in their query: the connection and the
      credentials are the same. */
  predicate SameSettings(a: DB, b: DB) {
    a.(query := "") == b.(query := "")
  }

  /** `QueryBuilder`: start a new, empty query on the same receiver. */
  function QueryBuilder(db: DB): (r: DB)
    ensures r.query == "" && SameSettings(db, r)
  {
    db.(query := "")
  }

  /** The column list after `Select`'s in-place rewrite: every element
      prefixed by the column alias and a dot. */
  function Qualified(columnAlias: string, columns: seq<string>): (r: seq<string>)
    ensures |r| == |columns|
    ensures forall i :: 0 <= i < |columns| ==> r[i] == columnAlias + "." + columns[i]
  {
    seq(|columns|, i requires 0 <= i < |columns| => columnAlias + "." + columns[i])
  }

  /** `Select`: replace the query by a SELECT of the qualified columns from
      the aliased table. Go rewrites the caller's slice in place; the model
      returns the rewritten slice beside the new state. */
  function Select(db: DB, table: string, tableAlias: string, columnAlias: string, columns: seq<string>): (r: (DB, seq<string>))
    ensures SameSettings(db, r.0)
    ensures r.1 == Qualified(columnAlias, columns)
    ensures r.0.query == "SELECT " + Join(r.1, ", ") + " FROM " + table + " " + tableAlias
  {
    var qualified := Qualified(columnAlias, columns);
    (db.(query := "SELECT " + Join(qualified, ", ") + " FROM " + table + " " + tableAlias), qualified)
  }

  /** What `Select` leaves as the query does not depend on the query before
      it: the query is replaced, not extended. */
  lemma SelectDiscardsQuery(db: DB, old_query: string, table: string, tableAlias: string, columnAlias: string, columns: seq<string>)
    ensures Select(db, table, tableAlias, columnAlias, columns).0
            == Select(db.(query := old_query), table, tableAlias, columnAlias, columns).0
  {
  }

  /** The new query opens with "SELECT " and the first qualified column, and
      closes with " FROM ", the table and its alias. */
  lemma SelectShape(db: DB, table: string, tableAlias: string, columnAlias: string, columns: seq<string>)
    requires |columns| > 0
    ensures var q := Select(db, table, tableAlias, columnAlias, columns).0.query;
            && "SELECT " + columnAlias + "." + columns[0] <= q
            && q[|q| - |" FROM " + table + " " + tableAlias|..] == " FROM " + table + " " + tableAlias
  {
    var qualified := Qualified(columnAlias, columns);
    var tail := " FROM " + table + " " + tableAlias;
    var q := "SELECT " + Join(qualified, ", ") + tail;
    assert q == ("SELECT " + Join(qualified, ", ")) + tail;
    if |columns| > 1 {
      JoinCons(qualified[0], qualified[1..], ", ");
      assert qualified == [qualified[0]] + qualified[1..];
    }
    assert qualified[0] <= Join(qualified, ", ");
    assert "SELECT " + qualified[0] <= "SELECT " + Join(qualified, ", ");
  }

  /** The text `Join` appends: the upper-cased join type, the first table
      and its alias, and the ON condition equating the two keys. */
  function JoinClause(joinType: string, t1: Table, t2: Table): string {
    ToUpper(joinType) + " " + t1.name + " " + t1.alias + " ON " + t1.alias + "." + t1.key + " = " + t2.alias + "." + t2.key
  }

  /** `Join`: append the join clause, with no separator before it. */
  function JoinTables(db: DB, joinType: string, t1: Table, t2: Table): (r: DB)
    ensures SameSettings(db, r)
    ensures db.query <= r.query
  {
    db.(query := db.query + JoinClause(joinType, t1, t2))
  }

  /** `Where`: append " WHERE alias.key op value". */
  function Where(db: DB, t: Table, v: string, o: string): (r: DB)
    ensures SameSettings(db, r)
    ensures db.query <= r.query
  {
    db.(query := db.query + " WHERE " + t.alias + "." + t.key + " " + o + " " + v)
  }

  /** `And`: append " AND". */
  function And(db: DB): (r: DB)
    ensures SameSettings(db, r)
    ensures db.query <= r.query
  {
    db.(query := db.query + " AND")
  }

  /** `Or`: append " OR". */
  function Or(db: DB): (r: DB)
    ensures SameSettings(db, r)
    ensures db.query <= r.query
  {
    db.(query := db.query + " OR")
  }

  /** One call of the chain after `Select`. */
  datatype Call =
    | JoinCall(joinType: string, t1: Table, t2: Table)
    | WhereCall(t: Table, v: string, o: string)
    | AndCall
    | OrCall

  /** Each call appends exactly its clause and changes nothing else. */
  function Apply(db: DB, c: Call): (r: DB)
    ensures r.query == db.query + Clause(c)
    ensures SameSettings(db, r)
  {
    match c
    case JoinCall(j, t1, t2) => JoinTables(db, j, t1, t2)
    case WhereCall(t, v, o) => Where(db, t, v, o)
    case AndCall => And(db)
    case OrCall => Or(db)
  }

  /** The text one call appends, independent of the state. */
  function Clause(c: Call): string {
    match c
    case JoinCall(j, t1, t2) => JoinClause(j, t1, t2)
    case WhereCall(t, v, o) => " WHERE " + t.alias + "." + t.key + " " + o + " " + v
    case AndCall => " AND"
    case OrCall => " OR"
  }

  /** A chain of calls, applied left to right. */
  function Run(db: DB, calls: seq<Call>): DB
    decreases |calls|
  {
    if |calls| == 0 then db else Run(Apply(db, calls[0]), calls[1..])
  }

  /** The clauses of a chain, concatenated in call order. */
  function Clauses(calls: seq<Call>): string {
    if |calls| == 0 then "" else Clause(calls[0]) + Clauses(calls[1..])
  }

  /** Every call only appends its clause: after a chain the query is the old
      query followed by the chain's clauses, and nothing else has changed. */
  lemma {:induction false} RunAppends(db: DB, calls: seq<Call>)
    ensures Run(db, calls).query == db.query + Clauses(calls)
    ensures SameSettings(db, Run(db, calls))
    decreases |calls|
  {
    hide Apply, Clause;
    if |calls| > 0 {
      var next := Apply(db, calls[0]);
      RunAppends(next, calls[1..]);
      var a, b, c := db.query, Clause(calls[0]), Clauses(calls[1..]);
      assert Clauses(calls) == b + c;
      assert a + b + c == a + (b + c);
    }
  }

  /** Hence the query before a chain is a prefix of the query after it. */
  lemma RunGrows(db: DB, calls: seq<Call>)
    ensures db.query <= Run(db, calls).query
  {
    RunAppends(db, calls);
  }

  /** A chain split in two runs as its halves one after the other. */
  lemma {:induction false} RunConcat(db: DB, a: seq<Call>, b: seq<Call>)
    ensures Run(db, a + b) == Run(Run(db, a), b)
    decreases |a|
  {
    if |a| > 0 {
      assert (a + b)[0] == a[0];
      assert (a + b)[1..] == a[1..] + b;
      RunConcat(Apply(db, a[0]), a[1..], b);
    } else {
      assert a + b == b;
    }
  }

  /** `QueryBuilder`, `Select`, then a chain: the result does not depend on
      the query the receiver held before. */
  lemma SelectChainFresh(db: DB, old_query: string, table: string, tableAlias: string, columnAlias: string,
                         columns: seq<string>, calls: seq<Call>)
    ensures var s := Select(QueryBuilder(db), table, tableAlias, columnAlias, columns).0;
            var s' := Select(QueryBuilder(db.(query := old_query)), table, tableAlias, columnAlias, columns).0;
            Run(s, calls) == Run(s', calls)
  {
  }

  /** `Join` directly after `Select` glues the join keyword to the table
      alias: the builder puts no space between them. */
  lemma JoinAfterSelect(db: DB, table: string, tableAlias: string, columnAlias: string, columns: seq<string>,
                        joinType: string, t1: Table, t2: Table)
    requires |tableAlias| > 0 && |joinType| > 0
    ensures var s := Select(db, table, tableAlias, columnAlias, columns).0;
            var q := JoinTables(s, joinType, t1, t2).query;
            && q == s.query + JoinClause(joinType, t1, t2)
            && q[|s.query| - 1] == tableAlias[|tableAlias| - 1]
            && q[|s.query|] == UpperChar(joinType[0])
  {
    var s := Select(db, table, tableAlias, columnAlias, columns).0;
    var head := "SELECT " + Join(Qualified(columnAlias, columns), ", ") + " FROM " + table + " ";
    assert s.query == head + tableAlias;
    var clause := JoinClause(joinType, t1, t2);
    assert clause[0] == ToUpper(joinType)[0];
  }
}
