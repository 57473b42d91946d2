/**
 * The database helpers of src/lib/helper/sql_helper.py. The database is an
 * abstract store: a table is the sequence of its rows, and the database maps
 * table names to tables. SQL text and pandas output are not modelled; what
 * is modelled is the table-name guard, which rows each helper looks at, and
 * what it does to the class-level cache of instances.
 */
module SqlHelper {
  import opened Wrappers
  import opened PyValues
  import opened Entities

  const InvalidTable := ValueError("Invalid table name")

  /** The guard every helper runs first: a table name must be a Python identifier. */
  function TableGuard(table: string): (r: Option<Error>)
    ensures r.None? <==> IsIdentifier(table)
    ensures r.Some? ==> r.value == InvalidTable
  {
    if IsIdentifier(table) then None else Some(InvalidTable)
  }

  /** The table names of the three entity classes pass the guard. */
  lemma EntityTablesPassGuard()
    ensures TableGuard("units").None? && TableGuard("tenants").None? && TableGuard("payments").None?
  {
    assert IsAsciiLetter('u') && IsAsciiLetter('t') && IsAsciiLetter('p');
  }

  /** A name with a space or a quote, as an injection attempt would have, is refused. */
  lemma InjectionRefused(before: string, after: string)
    ensures TableGuard(before + " " + after).Some?
    ensures TableGuard(before + ";" + after).Some?
  {
    var s1 := before + " " + after;
    var s2 := before + ";" + after;
    assert s1[|before|] == ' ' && s2[|before|] == ';';
  }

  /** Every row of a table has the layout of the schema. */
  ghost predicate RowsFit(s: Schema, rows: seq<Row>) {
    forall j :: 0 <= j < |rows| ==> |rows[j].cells| == |s.columns|
  }

  /** `fetchone()` of `SELECT * FROM table WHERE id = ?`: the first row with that id. */
  function FirstWithId(rows: seq<Row>, id: int): (r: Option<nat>)
    ensures r.Some? ==> r.value < |rows| && rows[r.value].id == id &&
                        forall j :: 0 <= j < r.value ==> rows[j].id != id
    ensures r.None? ==> forall j :: 0 <= j < |rows| ==> rows[j].id != id
  {
    if rows == [] then None
    else if rows[0].id == id then Some(0)
    else match FirstWithId(rows[1..], id)
      case None => None
      case Some(k) => Some(k + 1)
  }

  /**
   * `find_by_id`: after the guard, no row with the id gives None; otherwise
   * the first row with the id goes through `instance_from_db`: a cached
   * instance is refreshed from the row's columns in column order (keeping
   * the assignments made before a setter raises), and an uncached id builds
   * a new instance carrying the id and caches it.
   */
  method FindById(cache: Cache, table: string, rows: seq<Row>, id: int) returns (r: Result<Option<Entity>, Error>)
    requires cache.Valid() && WellFormed(cache.schema) && RowsFit(cache.schema, rows)
    modifies cache, cache.all.Values
    ensures cache.Valid()
    ensures !IsIdentifier(table) ==> r == Failure(InvalidTable) && cache.all == old(cache.all)
    ensures IsIdentifier(table) && FirstWithId(rows, id).None? ==> r == Success(None) && cache.all == old(cache.all)
    ensures r.Success? && r.value.Some? ==> id in cache.all && r.value.value == cache.all[id]
    ensures IsIdentifier(table) && FirstWithId(rows, id).Some? && id in old(cache.all) ==>
      var e := old(cache.all[id]);
      var refreshed := AssignAll(cache.schema, old(e.fields), cache.schema.columns, rows[FirstWithId(rows, id).value].cells);
      && cache.all == old(cache.all)
      && e.fields == refreshed.0 && e.id == old(e.id)
      && (refreshed.1.None? ==> r == Success(Some(e)))
      && (refreshed.1.Some? ==> r == Failure(refreshed.1.value))
      && (forall o :: o in old(cache.all.Values) && o != e ==> o.fields == old(o.fields) && o.id == old(o.id))
    ensures IsIdentifier(table) && FirstWithId(rows, id).Some? && id !in old(cache.all) ==>
      var b := Build(cache.schema, RowValues(cache.schema, rows[FirstWithId(rows, id).value]));
      && (forall o :: o in old(cache.all.Values) ==> o.fields == old(o.fields) && o.id == old(o.id))
      && (b.Failure? ==> r == Failure(b.error) && cache.all == old(cache.all))
      && (b.Success? ==>
            r.Success? && r.value.Some? && fresh(r.value.value) &&
            r.value.value.id == Int(id) && r.value.value.fields == b.value &&
            cache.all == old(cache.all)[id := r.value.value])
  {
    var g := TableGuard(table);
    if g.Some? {
      return Failure(g.value);
    }
    var k := FirstWithId(rows, id);
    if k.None? {
      return Success(None);
    }
    assert rows[k.value].id == id;
    var e := InstanceFromDb(cache, rows[k.value]);
    if e.Failure? {
      return Failure(e.error);
    }
    return Success(Some(e.value));
  }

  /** `drop_table`: after the guard, the table is gone and every other table is kept. */
  function DropTable(db: map<string, seq<Row>>, table: string): (r: Result<map<string, seq<Row>>, Error>)
    ensures r.Success? <==> IsIdentifier(table)
    ensures r.Failure? ==> r.error == InvalidTable
    ensures r.Success? ==> table !in r.value && forall t :: t in db && t != table ==> t in r.value && r.value[t] == db[t]
  {
    if TableGuard(table).Some? then Failure(InvalidTable) else Success(db - {table})
  }

  /**
   * `delete`: after the guard, the cache entry under the instance's id is
   * removed and the id becomes None; an id with no cache entry raises
   * KeyError and changes neither.
   */
  method Delete(inst: Entity, cache: Cache, table: string) returns (err: Option<Error>)
    requires cache.Valid()
    modifies inst`id, cache`all
    ensures cache.Valid()
    ensures !IsIdentifier(table) ==> err == Some(InvalidTable) && cache.all == old(cache.all) && inst.id == old(inst.id)
    ensures IsIdentifier(table) && !(IsInstanceInt(old(inst.id)) && IntOf(old(inst.id)) in old(cache.all)) ==>
      err == Some(KeyError) && cache.all == old(cache.all) && inst.id == old(inst.id)
    ensures IsIdentifier(table) && IsInstanceInt(old(inst.id)) && IntOf(old(inst.id)) in old(cache.all) ==>
      err.None? && cache.all == old(cache.all) - {IntOf(old(inst.id))} && inst.id == NoneV
  {
    var g := TableGuard(table);
    if g.Some? {
      return g;
    }
    if !(IsInstanceInt(inst.id) && IntOf(inst.id) in cache.all) {
      return Some(KeyError);
    }
    cache.all := cache.all - {IntOf(inst.id)};
    inst.id := NoneV;
    return None;
  }

  /** `id` is the primary key: no two rows of a table share it. */
  ghost predicate DistinctIds(rows: seq<Row>) {
    forall a, b :: 0 <= a < b < |rows| ==> rows[a].id != rows[b].id
  }

  /**
   * No two rows are served by the same cached object. An object cached under
   * two ids arises only when `save()` runs twice on one instance.
   */
  ghost predicate Unshared(all: map<int, Entity>, rows: seq<Row>) {
    forall a, b :: 0 <= a < b < |rows| && rows[a].id in all && rows[b].id in all ==> all[rows[a].id] != all[rows[b].id]
  }

  /**
   * `get_all(cls, table, output_as_instances=True)`: after the guard, one
   * `instance_from_db` per row, in row order. A cached id gives back the
   * cached object, refreshed from the row; an uncached id gives a new
   * instance carrying the id, now cached. Every cached instance keeps its
   * slot and its id. When no two rows share a cached object, each instance
   * holds the fields `RowResult` gives for its row, the call succeeds exactly
   * when every row's refresh or build does, and a failure is the error of the
   * first row whose refresh or build fails.
   */
  method GetAll(cache: Cache, table: string, rows: seq<Row>) returns (r: Result<seq<Entity>, Error>)
    requires cache.Valid() && WellFormed(cache.schema) && RowsFit(cache.schema, rows) && DistinctIds(rows)
    modifies cache, cache.all.Values
    ensures cache.Valid()
    ensures !IsIdentifier(table) ==> r == Failure(InvalidTable) && cache.all == old(cache.all)
    ensures forall k :: k in old(cache.all) ==> k in cache.all && cache.all[k] == old(cache.all)[k]
    ensures forall o :: o in old(cache.all.Values) ==> o.id == old(o.id)
    ensures r.Success? ==>
      && |r.value| == |rows|
      && (forall j :: 0 <= j < |rows| ==> rows[j].id in cache.all && r.value[j] == cache.all[rows[j].id])
      && (forall k :: k in cache.all ==> k in old(cache.all) || k in RowIds(rows))
      && (forall j :: 0 <= j < |rows| && rows[j].id !in old(cache.all) ==>
            fresh(r.value[j]) && r.value[j].id == Int(rows[j].id))
    ensures Unshared(old(cache.all), rows) && r.Success? ==>
      forall j :: 0 <= j < |rows| ==>
        && RowResult(cache.schema, old(CachedFields(cache.all, rows[j].id)), rows[j]).Success?
        && r.value[j].fields == RowResult(cache.schema, old(CachedFields(cache.all, rows[j].id)), rows[j]).value
    ensures Unshared(old(cache.all), rows) && IsIdentifier(table) ==>
      (r.Success? <==>
         forall j :: 0 <= j < |rows| ==> RowResult(cache.schema, old(CachedFields(cache.all, rows[j].id)), rows[j]).Success?)
    ensures Unshared(old(cache.all), rows) && IsIdentifier(table) && r.Failure? ==>
      exists j :: 0 <= j < |rows| && RowResult(cache.schema, old(CachedFields(cache.all, rows[j].id)), rows[j]) == Failure(r.error) &&
        forall l :: 0 <= l < j ==> RowResult(cache.schema, old(CachedFields(cache.all, rows[l].id)), rows[l]).Success?
  {
    var g := TableGuard(table);
    if g.Some? {
      return Failure(g.value);
    }
    var schema := cache.schema;
    ghost var start := cache.all;
    ghost var expected :=
      seq(|rows|, j reads start.Values requires 0 <= j < |rows| => RowResult(schema, CachedFields(start, rows[j].id), rows[j]));
    r := ReadRows(cache, rows, expected);
    if r.Success? {
      assert rows[..|rows|] == rows;
      forall j | 0 <= j < |rows|
        ensures rows[j].id !in old(cache.all) ==> fresh(r.value[j])
      {
        assert r.value[j] in cache.all.Values by { assert cache.all[rows[j].id] == r.value[j]; }
      }
    }
  }

  /** `[cls.instance_from_db(row) for row in rows]`, in row order. */
  method ReadRows(cache: Cache, rows: seq<Row>, ghost expected: seq<Result<map<string, Value>, Error>>)
    returns (r: Result<seq<Entity>, Error>)
    requires cache.Valid() && WellFormed(cache.schema) && RowsFit(cache.schema, rows) && DistinctIds(rows)
    requires |expected| == |rows|
    requires forall j {:trigger RowResult(cache.schema, CachedFields(cache.all, rows[j].id), rows[j])} :: 0 <= j < |rows| ==>
      expected[j] == RowResult(cache.schema, CachedFields(cache.all, rows[j].id), rows[j])
    modifies cache, cache.all.Values
    ensures cache.Valid()
    ensures forall o :: o in cache.all.Values ==> o in old(cache.all.Values) || fresh(o)
    ensures forall k :: k in old(cache.all) ==> k in cache.all && cache.all[k] == old(cache.all)[k]
    ensures forall o :: o in old(cache.all.Values) ==> o.id == old(o.id)
    ensures r.Success? ==>
      |r.value| == |rows| && Served(cache.all, rows, r.value) && Extends(old(cache.all), cache.all, rows, |rows|) &&
      NewIds(old(cache.all), cache.all)
    ensures Unshared(old(cache.all), rows) && r.Success? ==>
      forall j :: 0 <= j < |rows| ==> expected[j].Success? && r.value[j].fields == expected[j].value
    ensures Unshared(old(cache.all), rows) && r.Failure? ==>
      exists j :: 0 <= j < |rows| && expected[j] == Failure(r.error) && forall l :: 0 <= l < j ==> expected[l].Success?
  {
    ghost var start := cache.all;
    ghost var unshared := Unshared(start, rows);
    var out: seq<Entity> := [];
    var i := 0;
    while i < |rows|
      invariant 0 <= i <= |rows| && |out| == i
      invariant cache.Valid()
      invariant forall o :: o in cache.all.Values ==> o in start.Values || fresh(o)
      invariant forall o :: o in start.Values ==> o.id == old(o.id)
      invariant Served(cache.all, rows, out) && Extends(start, cache.all, rows, i) && NewIds(start, cache.all)
      invariant unshared ==> forall j :: 0 <= j < i ==> expected[j].Success? && out[j].fields == expected[j].value
      invariant unshared ==>
        forall l :: i <= l < |rows| && rows[l].id in start ==> start[rows[l].id].fields == old(start[rows[l].id].fields)
    {
      if unshared {
        RowIsNew(cache.all, start, rows, i);
        assert CachedFields(cache.all, rows[i].id) == old(CachedFields(cache.all, rows[i].id));
        assert expected[i] == old(RowResult(cache.schema, CachedFields(cache.all, rows[i].id), rows[i]));
      }
      var e := ReadNext(cache, rows, out, start, expected);
      if e.Failure? {
        return Failure(e.error);
      }
      out := out + [e.value];
      i := i + 1;
    }
    assert rows[..i] == rows;
    return Success(out);
  }

  /** One pass of `get_all`'s comprehension: reads the next row and keeps what the loop tracks. */
  method ReadNext(cache: Cache, rows: seq<Row>, out: seq<Entity>, ghost start: map<int, Entity>,
                  ghost expected: seq<Result<map<string, Value>, Error>>) returns (e: Result<Entity, Error>)
    requires cache.Valid() && WellFormed(cache.schema) && RowsFit(cache.schema, rows) && DistinctIds(rows)
    requires |out| < |rows| == |expected|
    requires Served(cache.all, rows, out) && Extends(start, cache.all, rows, |out|) && NewIds(start, cache.all)
    requires Unshared(start, rows) ==>
      && expected[|out|] == RowResult(cache.schema, CachedFields(cache.all, rows[|out|].id), rows[|out|])
      && forall j :: 0 <= j < |out| ==> expected[j].Success? && out[j].fields == expected[j].value
    modifies cache, cache.all.Values
    ensures cache.Valid()
    ensures forall o :: o in cache.all.Values ==> o in old(cache.all.Values) || fresh(o)
    ensures forall o :: o in old(cache.all.Values) ==> o.id == old(o.id)
    ensures forall k :: k in old(cache.all) ==> k in cache.all && cache.all[k] == old(cache.all)[k]
    ensures e.Failure? && Unshared(start, rows) ==> expected[|out|] == Failure(e.error)
    ensures e.Success? ==>
      Served(cache.all, rows, out + [e.value]) && Extends(start, cache.all, rows, |out| + 1) && NewIds(start, cache.all)
    ensures e.Success? && Unshared(start, rows) ==>
      && (forall j :: 0 <= j <= |out| ==> expected[j].Success? && (out + [e.value])[j].fields == expected[j].value)
      && (forall l :: |out| < l < |rows| && rows[l].id in start ==> start[rows[l].id].fields == old(start[rows[l].id].fields))
  {
    var i := |out|;
    RowIsNew(cache.all, start, rows, i);
    ghost var before := cache.all;
    if Unshared(start, rows) {
      Apart(before, start, rows, out);
    }
    e := ReadRow(cache, rows[i]);
    if e.Success? {
      KeysStep(before, cache.all, start, rows, i, e.value);
      assert NewIds(start, cache.all) by {
        forall k | k in cache.all && k !in start
          ensures cache.all[k].id == Int(k)
        {
          if k != rows[i].id {
            assert before[k] in before.Values;
          }
        }
      }
      ServedStep(before, cache.all, rows, out, e.value);
    }
  }

  /** `instance_from_db(row)`, stated as the effect one pass of `get_all` needs. */
  method ReadRow(cache: Cache, row: Row) returns (r: Result<Entity, Error>)
    requires cache.Valid() && WellFormed(cache.schema) && |row.cells| == |cache.schema.columns|
    modifies cache, cache.all.Values
    ensures cache.Valid()
    ensures cache.all == old(cache.all) || (row.id !in old(cache.all) && r.Success? && cache.all == old(cache.all)[row.id := r.value])
    ensures forall k :: k in old(cache.all) ==> k in cache.all && cache.all[k] == old(cache.all)[k]
    ensures forall o :: o in cache.all.Values ==> o in old(cache.all.Values) || fresh(o)
    ensures forall o :: o in old(cache.all.Values) ==> o.id == old(o.id)
    ensures forall o :: o in old(cache.all.Values) && (row.id in old(cache.all) ==> o != old(cache.all[row.id])) ==>
      o.fields == old(o.fields)
    ensures r.Success? ==>
      && row.id in cache.all && cache.all[row.id] == r.value
      && RowResult(cache.schema, old(CachedFields(cache.all, row.id)), row) == Success(r.value.fields)
    ensures r.Failure? ==> RowResult(cache.schema, old(CachedFields(cache.all, row.id)), row) == Failure(r.error)
    ensures row.id !in old(cache.all) && r.Success? ==> fresh(r.value) && r.value.id == Int(row.id)
  {
    r := InstanceFromDb(cache, row);
  }

  /** The first `|out|` rows are served, in order, by the instances the cache holds for their ids. */
  ghost predicate Served(all: map<int, Entity>, rows: seq<Row>, out: seq<Entity>) {
    |out| <= |rows| && forall j :: 0 <= j < |out| ==> rows[j].id in all && out[j] == all[rows[j].id]
  }

  /** Serving the next row keeps the earlier rows served, as their ids differ from it. */
  lemma ServedStep(before: map<int, Entity>, after: map<int, Entity>, rows: seq<Row>, out: seq<Entity>, e: Entity)
    requires Served(before, rows, out) && |out| < |rows| && DistinctIds(rows)
    requires after == before || (rows[|out|].id !in before && after == before[rows[|out|].id := e])
    requires rows[|out|].id in after && after[rows[|out|].id] == e
    ensures Served(after, rows, out + [e])
  {
    forall j | 0 <= j < |out|
      ensures rows[j].id in after && after[rows[j].id] == out[j]
    {
      assert rows[j].id != rows[|out|].id;
    }
  }

  /**
   * When no two rows share a cached object, the object that reading the next
   * row refreshes serves neither a row already read nor a cached row still
   * to come.
   */
  lemma Apart(before: map<int, Entity>, start: map<int, Entity>, rows: seq<Row>, out: seq<Entity>)
    requires DistinctIds(rows) && Unshared(start, rows) && |out| < |rows|
    requires Served(before, rows, out) && Extends(start, before, rows, |out|)
    requires rows[|out|].id in before ==> rows[|out|].id in start
    ensures forall j :: 0 <= j < |out| ==>
      out[j] in before.Values && (rows[|out|].id in before ==> out[j] != before[rows[|out|].id])
    ensures forall l :: |out| < l < |rows| && rows[l].id in start ==>
      start[rows[l].id] in before.Values && (rows[|out|].id in before ==> start[rows[l].id] != before[rows[|out|].id])
  {
    var id := rows[|out|].id;
    forall j | 0 <= j < |out|
      ensures out[j] in before.Values && (id in before ==> out[j] != before[id])
    {
      assert before[rows[j].id] == out[j];
      if id in before {
        if rows[j].id in start {
          assert start[rows[j].id] != start[id];
        } else {
          assert before[rows[j].id] !in start.Values && start[id] in start.Values;
        }
      }
    }
    forall l | |out| < l < |rows| && rows[l].id in start
      ensures start[rows[l].id] in before.Values && (id in before ==> start[rows[l].id] != before[id])
    {
      assert before[rows[l].id] == start[rows[l].id];
      if id in before {
        assert start[id] != start[rows[l].id];
      }
    }
  }

  /**
   * The cache `all` grew from `start` by reading the first `i` rows: every
   * starting entry is kept, and every other entry is a new object cached
   * under the id of a row read.
   */
  ghost predicate Extends(start: map<int, Entity>, all: map<int, Entity>, rows: seq<Row>, i: int)
    requires 0 <= i <= |rows|
  {
    && (forall k :: k in start ==> k in all && all[k] == start[k])
    && (forall k :: k in all ==> k in start || k in RowIds(rows[..i]))
    && (forall k :: k in all && k !in start ==> all[k] !in start.Values)
  }

  /** Each entry added to the cache carries its own id. */
  ghost predicate NewIds(start: map<int, Entity>, all: map<int, Entity>)
    reads all.Values
  {
    forall k :: k in all && k !in start ==> all[k].id == Int(k)
  }

  /** Caching row `i`'s id under a new object keeps `Extends`. */
  lemma KeysStep(before: map<int, Entity>, after: map<int, Entity>, start: map<int, Entity>, rows: seq<Row>, i: int, e: Entity)
    requires 0 <= i < |rows| && Extends(start, before, rows, i)
    requires rows[i].id in before ==> rows[i].id in start
    requires after == before || (rows[i].id !in before && e !in start.Values && after == before[rows[i].id := e])
    ensures Extends(start, after, rows, i + 1)
  {
    assert rows[..i + 1][..i] == rows[..i];
    assert RowIds(rows[..i + 1]) == RowIds(rows[..i]) + {rows[i].id};
  }

  /** A row not yet read whose id was not cached at the start is still not cached. */
  lemma RowIsNew(all: map<int, Entity>, start: map<int, Entity>, rows: seq<Row>, i: int)
    requires DistinctIds(rows) && 0 <= i < |rows| && Extends(start, all, rows, i)
    ensures rows[i].id in all ==> rows[i].id in start
  {
    if rows[i].id in all && rows[i].id !in start {
      RowIdsOnlyRows(rows[..i], rows[i].id);
    }
  }

  /** The ids of a sequence of rows. */
  function RowIds(rows: seq<Row>): (ids: set<int>)
    ensures forall j :: 0 <= j < |rows| ==> rows[j].id in ids
  {
    if rows == [] then {}
    else RowIds(rows[..|rows| - 1]) + {rows[|rows| - 1].id}
  }

  /** Only the ids of the rows are in `RowIds`. */
  lemma {:induction false} RowIdsOnlyRows(rows: seq<Row>, k: int)
    requires k in RowIds(rows)
    ensures exists j :: 0 <= j < |rows| && rows[j].id == k
    decreases |rows|
  {
    var last := |rows| - 1;
    if rows[last].id != k {
      RowIdsOnlyRows(rows[..last], k);
      var j :| 0 <= j < last && rows[..last][j].id == k;
      assert rows[j].id == k;
    }
  }

  /** The shape of the `get_all_transactions` query: which sub-queries filter by unit, and the bound parameters. */
  datatype TransactionQuery = TransactionQuery(expensesByUnit: bool, paymentsByUnit: bool, params: seq<Value>)

  /** The number of `?` placeholders the query text holds. */
  function Placeholders(q: TransactionQuery): nat {
    (if q.expensesByUnit then 1 else 0) + (if q.paymentsByUnit then 1 else 0)
  }

  /**
   * `get_all_transactions(unit_id)`: both sub-queries gain a unit filter
   * exactly when `unit_id` is truthy, each binding it once; a falsy id (None,
   * but also 0) covers every unit.
   */
  function TransactionsQuery(unitId: Value): (q: TransactionQuery)
    ensures q.expensesByUnit <==> Truthy(unitId)
    ensures q.paymentsByUnit <==> Truthy(unitId)
    ensures |q.params| == Placeholders(q)
    ensures forall p :: p in q.params ==> p == unitId
  {
    var filtered := Truthy(unitId);
    TransactionQuery(filtered, filtered, if filtered then [unitId, unitId] else [])
  }

  /** A transaction row as the query sees it: the unit it belongs to. */
  predicate Selected(q: TransactionQuery, unitId: Value, rowUnit: Value) {
    !q.expensesByUnit || PyEq(rowUnit, unitId)
  }

  /** The unit filter keeps exactly the rows of a truthy unit id, and every row otherwise. */
  lemma TransactionsFilterMeaning(unitId: Value, rowUnit: Value)
    ensures Truthy(unitId) ==> (Selected(TransactionsQuery(unitId), unitId, rowUnit) <==> PyEq(rowUnit, unitId))
    ensures !Truthy(unitId) ==> Selected(TransactionsQuery(unitId), unitId, rowUnit)
  {
  }
}
