/** The metadata reader of repository.go `readAnnotations` (lines 580-613)
    and the hand-off to the synthesizer.

    Every registered entity is walked by `processTypeForColumns` into a map
    of its own; the maps arrive over a channel in an order the scheduler
    chooses, which the model takes as input (`arrival`). After the channel
    closes, the receive loop appends the zero value of the channel — an
    empty map — once more. */
module Extraction {
  import opened Annotation
  import opened Synthesis

  /** One entry of `Repository.Tables`: a named struct type, registered
      either as a pointer to the struct or as the struct value. */
  datatype Entity = Entity(name: string, fields: seq<Field>, byPointer: bool)

  /** `reflect.TypeOf(e)`. */
  function TypeOf(e: Entity): (r: Kind)
    ensures r.Struct? <==> !e.byPointer
  {
    if e.byPointer then Ptr(Struct(e.fields)) else Struct(e.fields)
  }

  /** The goroutine of `readAnnotations` as written: the table name is taken
      from the element type of a pointer, but the walk is handed the pointer
      type itself. */
  function ReadEntityAsWritten(e: Entity): Columns {
    ProcessTypeForColumns(TypeOf(e), map[], e.name)
  }

  /** As written, an entity registered by pointer contributes no columns at
      all, whatever its fields. */
  lemma PointerEntityLosesColumns(e: Entity)
    requires e.byPointer
    ensures ReadEntityAsWritten(e) == map[]
  {
  }

  /** The corrected goroutine: walk the struct type, looking through a
      pointer exactly as the name lookup does. */
  function ReadEntity(e: Entity): Columns {
    ProcessTypeForColumns(Struct(e.fields), map[], e.name)
  }

  /** The correction changes nothing for entities registered by value, and
      makes pointer and value registration of the same struct agree. */
  lemma ReadEntityAgrees(e: Entity)
    ensures !e.byPointer ==> ReadEntity(e) == ReadEntityAsWritten(e)
    ensures ReadEntity(e) == ReadEntityAsWritten(e.(byPointer := false))
    ensures ReadEntity(e) == ReadEntity(e.(byPointer := !e.byPointer))
  {
  }

  /** A struct without nested column-tagged struct fields is read into one
      list under its own name: the descriptors of its fields that are not
      skipped, in field order; no entry at all when every field is skipped.
      As written this holds for an entity registered by value only. */
  lemma FlatEntity(e: Entity)
    requires forall i :: 0 <= i < |e.fields| ==> !Recurses(e.fields[i])
    ensures var kept := Kept(e.fields, |e.fields|);
            ReadEntity(e) == if kept == [] then map[] else map[e.name := kept]
    ensures var kept := Kept(e.fields, |e.fields|);
            !e.byPointer ==> ReadEntityAsWritten(e) == if kept == [] then map[] else map[e.name := kept]
  {
    ReadEntityAgrees(e);
    FlatWalk(e.fields, |e.fields|, map[], e.name);
    var kept := Kept(e.fields, |e.fields|);
    if kept != [] {
      assert Get(map[], e.name) + kept == kept;
    }
  }

  /** A `User` struct with one tagged string field, registered by pointer:
      as written it yields an empty map, corrected it yields the field's
      descriptor under "User". */
  lemma PointerEntityExample(f: Field, e: Entity)
    requires f == Field("Name", String, map[ColumnTag := "name"])
    requires e == Entity("User", [f], true)
    ensures ReadEntityAsWritten(e) == map[]
    ensures ReadEntity(e) == map["User" := [Describe(f)]]
    ensures Describe(f).columnString == "name"
  {
    assert e.fields[0] == f && !Recurses(f) && !Skipped(f);
    FlatEntity(e);
    assert ColumnFor(f) == Describe(f);
    assert Kept(e.fields, 1) == [] + [Describe(f)] == [Describe(f)];
    assert ReadEntity(e) == map[e.name := [Describe(f)]];
    DescribeNames(f);
  }

  /** `arrival` lists every index of `tables` exactly once. */
  predicate IsArrivalOrder(arrival: seq<nat>, count: nat) {
    && |arrival| == count
    && (forall i :: 0 <= i < |arrival| ==> arrival[i] < count)
    && (forall i, j :: 0 <= i < j < |arrival| ==> arrival[i] != arrival[j])
  }

  /** What the receive loop collects from the maps sent, in arrival order:
      nothing when no goroutine was started, otherwise the maps followed by
      the zero value (an empty map) received once the channel is closed. */
  function Received(ms: seq<Columns>): (r: seq<Columns>)
    ensures |ms| == 0 ==> r == []
    ensures |ms| > 0 ==> |r| == |ms| + 1 && r[..|ms|] == ms && r[|ms|] == map[]
  {
    if |ms| == 0 then [] else ms + [map[]]
  }

  /** `readAnnotations` as written: every entity read by the goroutine as
      written (`ReadEntityAsWritten`), in arrival order. */
  function ReadAnnotations(tables: seq<Entity>, arrival: seq<nat>): (r: seq<Columns>)
    requires IsArrivalOrder(arrival, |tables|)
    ensures |tables| == 0 ==> r == []
    ensures |tables| > 0 ==> |r| == |tables| + 1 && r[|tables|] == map[]
    ensures forall i :: 0 <= i < |arrival| ==> r[i] == ReadEntityAsWritten(tables[arrival[i]])
  {
    Received(seq(|arrival|, i requires 0 <= i < |arrival| => ReadEntityAsWritten(tables[arrival[i]])))
  }

  /** `readAnnotations` with the corrected goroutine (`ReadEntity`). */
  function ReadAnnotationsCorrected(tables: seq<Entity>, arrival: seq<nat>): (r: seq<Columns>)
    requires IsArrivalOrder(arrival, |tables|)
    ensures |tables| == 0 ==> r == []
    ensures |tables| > 0 ==> |r| == |tables| + 1 && r[|tables|] == map[]
    ensures forall i :: 0 <= i < |arrival| ==> r[i] == ReadEntity(tables[arrival[i]])
  {
    Received(seq(|arrival|, i requires 0 <= i < |arrival| => ReadEntity(tables[arrival[i]])))
  }

  /** The same registry with every entity registered by value. */
  function ByValue(tables: seq<Entity>): (r: seq<Entity>)
    ensures |r| == |tables|
    ensures forall i :: 0 <= i < |tables| ==> r[i] == tables[i].(byPointer := false)
  {
    seq(|tables|, i requires 0 <= i < |tables| => tables[i].(byPointer := false))
  }

  /** The corrected reading of a registry is the reading as written of the
      same registry by value; the two agree when nothing is registered by
      pointer. */
  lemma ReadAnnotationsCorrectedByValue(tables: seq<Entity>, arrival: seq<nat>)
    requires IsArrivalOrder(arrival, |tables|)
    ensures ReadAnnotationsCorrected(tables, arrival) == ReadAnnotations(ByValue(tables), arrival)
    ensures (forall i :: 0 <= i < |tables| ==> !tables[i].byPointer)
            ==> ReadAnnotationsCorrected(tables, arrival) == ReadAnnotations(tables, arrival)
  {
    var bv := ByValue(tables);
    forall i | 0 <= i < |tables|
      ensures ReadEntity(tables[i]) == ReadEntityAsWritten(bv[i])
      ensures !tables[i].byPointer ==> ReadEntity(tables[i]) == ReadEntityAsWritten(tables[i])
    {
      ReadEntityAgrees(tables[i]);
    }
  }

  /** `es` is one iteration order of `m`: every key once, with its list. */
  predicate Enumerates(m: Columns, es: seq<Entry>) {
    && |es| == |m.Keys|
    && (forall i :: 0 <= i < |es| ==> es[i].key in m && es[i].attributes == m[es[i].key])
    && (forall i, j :: 0 <= i < j < |es| ==> es[i].key != es[j].key)
  }

  /** The only iteration order of the empty map is the empty one. */
  lemma EnumeratesEmpty(es: seq<Entry>)
    requires Enumerates(map[], es)
    ensures es == []
  {
  }

  /** The trailing empty map adds no statement: synthesising with or without
      it gives the same schema. */
  lemma {:induction false} TrailingEmptyMap(orders: seq<seq<Entry>>)
    requires |orders| > 0 && orders[|orders| - 1] == []
    ensures Flatten(orders) == Flatten(orders[..|orders| - 1])
  {
    assert Flatten(orders) == Flatten(orders[..|orders| - 1]) + [];
  }

  /** `orders[i]` is one iteration order of `maps[i]`, for every map. */
  predicate Iterates(maps: seq<Columns>, orders: seq<seq<Entry>>) {
    && |orders| == |maps|
    && forall i :: 0 <= i < |orders| ==> Enumerates(maps[i], orders[i])
  }

  /** Lines 369-442 of `CreateTables`: read every entity as written, iterate
      each map in the order given by `orders`, and synthesise. With no
      entity there is nothing to emit. The corrected run is this function on
      `ByValue(tables)` (`ReadAnnotationsCorrectedByValue`). */
  function CreateTables(tables: seq<Entity>, arrival: seq<nat>, orders: seq<seq<Entry>>): (r: Schema)
    requires IsArrivalOrder(arrival, |tables|)
    requires Iterates(ReadAnnotations(tables, arrival), orders)
    requires EntriesWellFormed(Flatten(orders))
    ensures |tables| == 0 ==> r == Start
  {
    Synthesize(orders)
  }

  /** With entities, the map appended after the channel closes changes
      nothing: the synthesizer sees exactly the entries of the entities'
      maps. */
  lemma CreateTablesIgnoresTrailingMap(tables: seq<Entity>, arrival: seq<nat>, orders: seq<seq<Entry>>)
    requires IsArrivalOrder(arrival, |tables|) && |tables| > 0
    requires Iterates(ReadAnnotations(tables, arrival), orders)
    ensures Flatten(orders) == Flatten(orders[..|tables|])
  {
    EnumeratesEmpty(orders[|tables|]);
    TrailingEmptyMap(orders);
  }

  lemma {:induction false} FlattenEmpty(maps: seq<seq<Entry>>)
    requires forall i :: 0 <= i < |maps| ==> maps[i] == []
    ensures Flatten(maps) == []
    decreases |maps|
  {
    if |maps| > 0 {
      FlattenEmpty(maps[..|maps| - 1]);
    }
  }

  /** As written, a registry whose entities are all registered by pointer
      creates nothing: no table, no join table, no foreign key. */
  lemma PointerRegistryEmitsNothing(tables: seq<Entity>, arrival: seq<nat>, orders: seq<seq<Entry>>)
    requires IsArrivalOrder(arrival, |tables|)
    requires Iterates(ReadAnnotations(tables, arrival), orders)
    requires forall i :: 0 <= i < |tables| ==> tables[i].byPointer
    ensures EntriesWellFormed(Flatten(orders))
    ensures CreateTables(tables, arrival, orders) == Start
  {
    var maps := ReadAnnotations(tables, arrival);
    forall i | 0 <= i < |orders|
      ensures orders[i] == []
    {
      if i < |arrival| {
        PointerEntityLosesColumns(tables[arrival[i]]);
      }
      EnumeratesEmpty(orders[i]);
    }
    FlattenEmpty(orders);
  }
}
