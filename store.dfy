/** The database as an in-memory store: one table per model, each a map from
    database-assigned ids to rows, and the handful of Prisma operations the
    handlers use (findMany, findFirst/findUnique, create, update, delete).
    Identifiers come from one global counter, so a created row's id is new in
    every table. */
module Store {
  import opened Js

  datatype Model =
    | Location | Land | Building | Unit | Product | Lease | Media
    | Post | PostDetail | User

  /** A row maps column names to values; a column that is not in the map
      holds `null`. */
  type Row = map<string, Value>
  type Table = map<Id, Row>
  type Tables = map<Model, Table>

  /** A Prisma `where` object: every column it names with a value other than
      `undefined` must hold exactly that value. */
  type Where = map<string, Value>

  function Get(row: Row, column: string): Value {
    if column in row then row[column] else Null
  }

  predicate Matches(row: Row, where: Where) {
    forall c :: c in where && where[c] != Undefined ==> Get(row, c) == where[c]
  }

  /** The natural key of a Land or a Building: its name under its parent,
      the parent named by the column `parent`. */
  function NameKey(name: string, parent: string, id: Id): (key: Where)
    ensures key.Keys == {"name", parent}
    ensures forall c :: c in key ==> key[c] != Undefined
  {
    map["name" := Str(name), parent := Ref(id)]
  }

  /** What Prisma writes for a `data` object: properties set to `undefined`
      are skipped. */
  function Stored(data: map<string, Value>): (row: Row)
    ensures forall c :: c in row <==> c in data && data[c] != Undefined
    ensures forall c :: c in row ==> row[c] == data[c]
  {
    map c | c in data && data[c] != Undefined :: data[c]
  }

  /** The row after `update({ data })`: the columns `data` sets (to anything
      but `undefined`) take the new values, every other column keeps its
      value. */
  function Patched(row: Row, data: map<string, Value>): (r: Row)
    ensures forall c :: c in data && data[c] != Undefined ==> Get(r, c) == data[c]
    ensures forall c :: !(c in data && data[c] != Undefined) ==> Get(r, c) == Get(row, c)
  {
    row + Stored(data)
  }

  lemma MatchesOne(row: Row, c: string, v: Value)
    requires v != Undefined
    ensures Matches(row, map[c := v]) <==> Get(row, c) == v
  {
    if Get(row, c) == v {
      forall c' | c' in map[c := v] && map[c := v][c'] != Undefined
        ensures Get(row, c') == map[c := v][c']
      {
        assert c' == c;
      }
    }
  }

  lemma StoredOfDefined(data: map<string, Value>)
    requires forall c :: c in data ==> data[c] != Undefined
    ensures Stored(data) == data
  {
  }

  /** Stand-in for the message of the error Prisma throws when `update` or
      `delete` names a row that does not exist. */
  const RecordNotFound := "Record to update not found."

  /** Tables `before` and `after` agree on every model outside `changed`. */
  ghost predicate OnlyChanged(before: Tables, after: Tables, changed: set<Model>) {
    before.Keys == after.Keys &&
    forall m :: m in before && m !in changed ==> after[m] == before[m]
  }

  /** Whether `v` is the id of a row of `t`. */
  predicate Refers(t: Table, v: Value) {
    v.Ref? && v.id in t
  }

  /** `after` is `before` with one more row, under an id `before` lacks. */
  ghost predicate Inserted(before: Table, after: Table, id: Id, row: Row) {
    id !in before && after == before[id := row]
  }

  /** Updating a row just inserted is inserting the updated row. */
  lemma InsertedThenPatched(t0: Table, t1: Table, t2: Table, id: Id, row: Row, data: map<string, Value>)
    requires Inserted(t0, t1, id, row)
    requires t2 == t1[id := Patched(t1[id], data)]
    ensures Inserted(t0, t2, id, Patched(row, data))
  {
  }

  /** What a find-or-create routine reports: the final id and whether that
      row already existed. */
  datatype Resolved = Resolved(id: Id, existed: bool)

  /** One find-or-create step on a table: the first row matching `key` is
      reused and nothing is written, or, when no row matches, `row` is
      inserted under a fresh id. */
  ghost predicate FoundOrCreated(before: Table, after: Table, key: Where, row: Row, res: Resolved) {
    && res.id in after
    && (res.existed <==> exists id :: id in before && Matches(before[id], key))
    && (res.existed ==>
          after == before && Matches(before[res.id], key) &&
          forall id :: id in before && id < res.id ==> !Matches(before[id], key))
    && (!res.existed ==> Inserted(before, after, res.id, row))
  }

  /** Running the same find-or-create step again, with a key the inserted
      row matches, reuses the row the first step returned and writes
      nothing. */
  lemma FoundOrCreatedTwice(t0: Table, t1: Table, t2: Table, key: Where, row: Row, r1: Resolved, r2: Resolved)
    requires Matches(row, key)
    requires FoundOrCreated(t0, t1, key, row, r1)
    requires FoundOrCreated(t1, t2, key, row, r2)
    ensures r2 == Resolved(r1.id, true) && t2 == t1
  {
    assert Matches(t1[r1.id], key);
    if !r1.existed {
      forall id | id in t1 && id < r2.id ensures !Matches(t1[id], key) { }
      assert r2.id == r1.id;
    }
  }

  /** Rows `a` and `b` agree on every column of `cols`. */
  ghost predicate SameOn(a: Row, b: Row, cols: set<string>) {
    forall c :: c in cols ==> Get(a, c) == Get(b, c)
  }

  /** No two rows of `t` agree on all the columns of `cols`. */
  ghost predicate UniqueOn(t: Table, cols: set<string>) {
    forall i, j :: i in t && j in t && i != j ==> !SameOn(t[i], t[j], cols)
  }

  /** Inserting a row under a key no existing row matches keeps a table
      with at most one row per key that way. */
  lemma InsertUnmatchedKeepsUnique(before: Table, after: Table, key: Where, id: Id, row: Row)
    requires forall c :: c in key ==> key[c] != Undefined
    requires Matches(row, key)
    requires forall j :: j in before ==> !Matches(before[j], key)
    requires Inserted(before, after, id, row)
    requires UniqueOn(before, key.Keys)
    ensures UniqueOn(after, key.Keys)
  {
    forall j | j in before
      ensures !SameOn(row, before[j], key.Keys) && !SameOn(before[j], row, key.Keys)
    {
      if SameOn(row, before[j], key.Keys) || SameOn(before[j], row, key.Keys) {
        assert Matches(before[j], key);
      }
    }
  }

  /** A find-or-create step never adds a second row with the same key: a
      table with at most one row per key keeps that property. */
  lemma FoundOrCreatedKeepsUnique(before: Table, after: Table, key: Where, row: Row, res: Resolved)
    requires forall c :: c in key ==> key[c] != Undefined
    requires Matches(row, key)
    requires FoundOrCreated(before, after, key, row, res)
    requires UniqueOn(before, key.Keys)
    ensures UniqueOn(after, key.Keys)
  {
    if !res.existed {
      InsertUnmatchedKeepsUnique(before, after, key, res.id, row);
    }
  }

  /** The patch the handlers build column by column: every incoming column
      whose value is not `===` to the stored one, with its incoming value. */
  function Diff(existing: Row, incoming: map<string, Value>): (patch: map<string, Value>)
    ensures patch.Keys <= incoming.Keys
    ensures forall c :: c in incoming ==> (c in patch <==> !StrictEquals(incoming[c], Get(existing, c)))
    ensures forall c :: c in patch ==> patch[c] == incoming[c]
  {
    map c | c in incoming && !StrictEquals(incoming[c], Get(existing, c)) :: incoming[c]
  }

  /** Writing a patch (with any extra columns such as `updatedAt`) leaves
      every incoming column that is not `undefined` equal to its incoming
      value, and every column neither in the patch nor among the extras as
      it was. */
  lemma DiffWritten(existing: Row, incoming: map<string, Value>, extra: map<string, Value>)
    requires extra.Keys !! incoming.Keys
    ensures forall c :: c in incoming && incoming[c] != Undefined ==>
      Get(Patched(existing, Diff(existing, incoming) + extra), c) == incoming[c]
    ensures forall c :: c !in incoming && c !in extra ==>
      Get(Patched(existing, Diff(existing, incoming) + extra), c) == Get(existing, c)
  {
    var written := Patched(existing, Diff(existing, incoming) + extra);
    forall c | c in incoming && incoming[c] != Undefined
      ensures Get(written, c) == incoming[c]
    {
      if c !in Diff(existing, incoming) {
        assert StrictEquals(incoming[c], Get(existing, c));
      }
    }
  }

  /** The patch the update handlers write: the changed columns and, when
      there is at least one, `updatedAt` set to the current time. */
  function DiffPatch(existing: Row, incoming: map<string, Value>, now: int): (patch: map<string, Value>)
    ensures patch == map[] <==> forall c :: c in incoming ==> StrictEquals(incoming[c], Get(existing, c))
    ensures patch != map[] ==> "updatedAt" in patch && patch["updatedAt"] == Date(now)
    ensures forall c :: c in incoming && c != "updatedAt" ==>
      (c in patch <==> !StrictEquals(incoming[c], Get(existing, c)))
    ensures forall c :: c in patch && c != "updatedAt" ==> c in incoming && patch[c] == incoming[c]
  {
    var changed := Diff(existing, incoming);
    if changed == map[] then map[] else changed["updatedAt" := Date(now)]
  }

  /** After the patch is written, every incoming column that is not
      `undefined` holds its incoming value, and every other column except
      `updatedAt` is as it was. */
  lemma DiffPatchWritten(existing: Row, incoming: map<string, Value>, now: int)
    requires "updatedAt" !in incoming
    ensures forall c :: c in incoming && incoming[c] != Undefined ==>
      Get(Patched(existing, DiffPatch(existing, incoming, now)), c) == incoming[c]
    ensures forall c :: c !in incoming && c != "updatedAt" ==>
      Get(Patched(existing, DiffPatch(existing, incoming, now)), c) == Get(existing, c)
  {
    var patch := DiffPatch(existing, incoming, now);
    if patch != map[] {
      DiffWritten(existing, incoming, map["updatedAt" := Date(now)]);
      assert Diff(existing, incoming) + map["updatedAt" := Date(now)] == patch;
    } else {
      forall c | c in incoming && incoming[c] != Undefined
        ensures Get(existing, c) == incoming[c]
      {
        assert StrictEquals(incoming[c], Get(existing, c));
      }
    }
  }

  /** Once the patch of primitive values has been written, the same values
      yield the empty patch against the written row. */
  lemma {:induction false} DiffPatchSettles(existing: Row, incoming: map<string, Value>, now: int, later: int)
    requires "updatedAt" !in incoming
    requires forall c :: c in incoming ==> incoming[c] != Undefined && Primitive(incoming[c])
    ensures DiffPatch(Patched(existing, DiffPatch(existing, incoming, now)), incoming, later) == map[]
  {
    DiffPatchWritten(existing, incoming, now);
  }

  class Db {
    var tables: Tables
    var nextId: Id

    ghost predicate Valid()
      reads this
    {
      (forall m: Model :: m in tables) &&
      (forall m, id :: m in tables && id in tables[m] ==> id < nextId)
    }

    constructor ()
      ensures Valid()
      ensures forall m: Model :: tables[m] == map[]
    {
      tables := map[Location := map[], Land := map[], Building := map[], Unit := map[],
                    Product := map[], Lease := map[], Media := map[], Post := map[],
                    PostDetail := map[], User := map[]];
      nextId := 0;
      new;
      forall m: Model ensures m in tables {
        match m
        case Location => case Land => case Building => case Unit => case Product =>
        case Lease => case Media => case Post => case PostDetail => case User =>
      }
    }

    /** Whether `v` names an existing row of `m`, as `connect: { id: v }`
        demands. */
    predicate Has(m: Model, v: Value)
      reads this
      requires Valid()
    {
      Refers(tables[m], v)
    }

    /** `findMany`: the ids of the rows of `m` that `keep` accepts, in
        ascending id order. */
    method FindMany(m: Model, keep: Row -> bool) returns (ids: seq<Id>)
      requires Valid()
      ensures forall i :: 0 <= i < |ids| ==> ids[i] in tables[m] && keep(tables[m][ids[i]])
      ensures forall id :: id in tables[m] && keep(tables[m][id]) ==> id in ids
      ensures forall i, j :: 0 <= i < j < |ids| ==> ids[i] < ids[j]
    {
      var table := tables[m];
      ids := [];
      var k := 0;
      while k < nextId
        invariant k <= nextId
        invariant forall i :: 0 <= i < |ids| ==> ids[i] < k && ids[i] in table && keep(table[ids[i]])
        invariant forall id :: id < k && id in table && keep(table[id]) ==> id in ids
        invariant forall i, j :: 0 <= i < j < |ids| ==> ids[i] < ids[j]
      {
        if k in table && keep(table[k]) {
          ids := ids + [k];
        }
        k := k + 1;
      }
    }

    /** `findFirst({ where })` (and `findUnique` on a unique column): the
        matching row with the smallest id, if any. */
    method FindFirst(m: Model, where: Where) returns (r: Option<Id>)
      requires Valid()
      ensures r.Some? ==> r.value in tables[m] && Matches(tables[m][r.value], where)
      ensures r.Some? ==> forall id :: id in tables[m] && id < r.value ==> !Matches(tables[m][id], where)
      ensures r.None? <==> forall id :: id in tables[m] ==> !Matches(tables[m][id], where)
    {
      var ids := FindMany(m, (row: Row) => Matches(row, where));
      if ids == [] {
        r := None;
      } else {
        r := Some(ids[0]);
        assert forall i :: 0 <= i < |ids| ==> ids[0] <= ids[i];
      }
    }

    /** `create({ data })`: one new row under a fresh id. */
    method Create(m: Model, data: map<string, Value>) returns (id: Id)
      requires Valid()
      modifies this
      ensures Valid()
      ensures Inserted(old(tables[m]), tables[m], id, Stored(data))
      ensures tables == old(tables)[m := tables[m]]
      ensures OnlyChanged(old(tables), tables, {m})
    {
      id := nextId;
      var t: Table := tables[m][id := Stored(data)];
      tables := tables[m := t];
      nextId := nextId + 1;
    }

    /** `update({ where: { id }, data })`; fails when there is no such row. */
    method Update(m: Model, id: Id, data: map<string, Value>) returns (ok: bool)
      requires Valid()
      modifies this
      ensures Valid()
      ensures ok <==> id in old(tables[m])
      ensures ok ==> tables[m] == old(tables[m])[id := Patched(old(tables[m][id]), data)]
      ensures !ok ==> tables == old(tables)
      ensures tables == old(tables)[m := tables[m]]
      ensures OnlyChanged(old(tables), tables, {m})
    {
      ok := id in tables[m];
      if ok {
        var t: Table := tables[m][id := Patched(tables[m][id], data)];
        tables := tables[m := t];
      }
    }

    /** `delete({ where: { id } })`; fails when there is no such row. */
    method Delete(m: Model, id: Id) returns (ok: bool)
      requires Valid()
      modifies this
      ensures Valid()
      ensures ok <==> id in old(tables[m])
      ensures ok ==> tables[m] == old(tables[m]) - {id}
      ensures !ok ==> tables == old(tables)
      ensures tables == old(tables)[m := tables[m]]
      ensures OnlyChanged(old(tables), tables, {m})
    {
      ok := id in tables[m];
      if ok {
        var t: Table := tables[m] - {id};
        tables := tables[m := t];
      }
    }
  }
}
