/** A batch of edits to a table's rows (`sqliteMutate` in
    `database-browser-sqlite.ts`): all of it is saved, or nothing. */
module SqlEdits {
  import opened Options

  type RowId = nat
  type Byte = bv8

  datatype Value = Null | Number(number: int) | Text(text: string) | Blob(bytes: seq<Byte>)

  // A value as a client loaded it. A long blob shows only how it begins.
  datatype Loaded = Whole(value: Value) | Preview(size: nat, prefix: seq<Byte>)

  type Row = map<string, Value>
  type Rows = map<RowId, Row>

  // What locates a row.
  datatype Key = ByRowId(id: Value) | ByColumns(values: map<string, Value>)

  datatype Change =
    | Insert(values: map<string, Value>)
    | Update(key: Key, original: map<string, Loaded>, changed: map<string, Value>)
    | Delete(key: Key, original: map<string, Loaded>)

  // `primaryKey` is what locates its rows, if not their rowid; `allows` what
  // its constraints let its rows be; `defaults` what a new row holds unless
  // told; and `nextId` the rowid a new row gets.
  datatype Table = Table(
    columns: set<string>, generated: set<string>, primaryKey: Option<set<string>>,
    allows: Rows -> bool, defaults: Row, nextId: Rows -> RowId)

  predicate Matches(loaded: Loaded, value: Value) {
    match loaded
    case Whole(v) => v == value
    case Preview(size, prefix) => value.Blob? && |value.bytes| == size && prefix <= value.bytes
  }

  // Whether a change is one to this table at all.
  predicate Proper(table: Table, change: Change) {
    match change
    case Insert(values) => values.Keys <= table.columns - table.generated
    case Update(key, original, changed) =>
      ProperKey(table, key) && table.columns <= original.Keys && changed != map[]
        && changed.Keys <= table.columns - table.generated
    case Delete(key, original) => ProperKey(table, key) && table.columns <= original.Keys
  }

  predicate ProperKey(table: Table, key: Key) {
    if table.primaryKey.None? then key.ByRowId? else key.ByColumns? && key.values.Keys == table.primaryKey.value
  }

  predicate Located(key: Key, id: RowId, row: Row) {
    match key
    case ByRowId(value) => value == Number(id)
    case ByColumns(values) => forall c | c in values :: c in row && row[c] == values[c]
  }

  // Whether a row is the one a change is of, and holds what was loaded of it.
  predicate Unchanged(table: Table, key: Key, original: map<string, Loaded>, id: RowId, row: Row) {
    Located(key, id, row) && forall c | c in table.columns :: c in row && c in original && Matches(original[c], row[c])
  }

  function Targets(table: Table, rows: Rows, change: Change): set<RowId>
    requires !change.Insert?
  {
    set id | id in rows && Unchanged(table, change.key, change.original, id, rows[id])
  }

  // A table after a change, whatever it came to.
  function After(table: Table, rows: Rows, change: Change): Rows {
    match change
    case Insert(values) => rows[table.nextId(rows) := table.defaults + values]
    case Update(_, _, changed) =>
      var targets := Targets(table, rows, change);
      map id | id in rows :: if id in targets then rows[id] + changed else rows[id]
    case Delete(_, _) => rows - Targets(table, rows, change)
  }

  // How many rows a change changes.
  function Hits(table: Table, rows: Rows, change: Change): nat {
    if change.Insert? then 1 else |Targets(table, rows, change)|
  }

  // The columns a change sets.
  function Sets(change: Change): set<string> {
    match change
    case Insert(values) => values.Keys
    case Update(_, _, changed) => changed.Keys
    case Delete(_, _) => {}
  }

  // A change sets none but the table's own columns, and none that are
  // generated; an update sets some; and what is there already is told by its
  // rowid, or the whole of its key, and all that was loaded of it.
  lemma ProperMeans(table: Table, change: Change)
    ensures Proper(table, change) <==>
              && (forall c | c in Sets(change) :: c in table.columns && c !in table.generated)
              && (change.Update? ==> Sets(change) != {})
              && (!change.Insert? ==>
                    && (forall c | c in table.columns :: c in change.original)
                    && (table.primaryKey.None? <==> change.key.ByRowId?)
                    && (change.key.ByColumns? ==>
                          && table.primaryKey.Some?
                          && forall c :: c in change.key.values <==> c in table.primaryKey.value))
  {
    assert change.Update? ==> (change.changed != map[] <==> change.changed.Keys != {});
    assert !change.Insert? && change.key.ByColumns? && table.primaryKey.Some? ==>
             (change.key.values.Keys == table.primaryKey.value <==>
              forall c :: c in change.key.values <==> c in table.primaryKey.value);
  }

  // Whether a value is what a client loaded, or may be all of it.
  ghost predicate LooksLike(loaded: Loaded, value: Value) {
    || loaded == Whole(value)
    || (loaded.Preview? && exists rest: seq<Byte> ::
          value == Blob(loaded.prefix + rest) && loaded.size == |loaded.prefix| + |rest|)
  }

  // A row a change is of: the one its key tells, in all its columns as it was
  // loaded.
  lemma TargetsMean(table: Table, rows: Rows, change: Change, id: RowId)
    requires !change.Insert?
    ensures id in Targets(table, rows, change) <==>
              && id in rows
              && (change.key.ByRowId? ==> change.key.id == Number(id))
              && (change.key.ByColumns? ==>
                    forall c | c in change.key.values :: c in rows[id] && rows[id][c] == change.key.values[c])
              && (forall c | c in table.columns ::
                    c in rows[id] && c in change.original && LooksLike(change.original[c], rows[id][c]))
  {
    hide Matches, LooksLike;
    if id in rows {
      forall c | c in table.columns && c in rows[id] && c in change.original
        ensures Matches(change.original[c], rows[id][c]) <==> LooksLike(change.original[c], rows[id][c])
      {
        MatchesMeans(change.original[c], rows[id][c]);
      }
    }
  }

  lemma MatchesMeans(loaded: Loaded, value: Value)
    ensures Matches(loaded, value) <==> LooksLike(loaded, value)
  {
    if loaded.Preview? && Matches(loaded, value) {
      var rest := value.bytes[|loaded.prefix|..];
      assert value.bytes == loaded.prefix + rest;
    }
  }

  // A change hits a row it puts in, or each it is of.
  lemma HitsMean(table: Table, rows: Rows, change: Change)
    ensures change.Insert? ==> Hits(table, rows, change) == 1
    ensures !change.Insert? ==>
              && (Hits(table, rows, change) == 0 <==> forall id | id in rows :: id !in Targets(table, rows, change))
              && (Hits(table, rows, change) == 1 <==> exists id :: Targets(table, rows, change) == {id})
  {
    if !change.Insert? {
      var targets := Targets(table, rows, change);
      if |targets| == 1 {
        var id :| id in targets;
        assert |targets - {id}| == 0;
        assert targets == {id};
      }
    }
  }

  // What a change leaves: a new row with what was given and its defaults for
  // the rest, those it is of as changed, or without them; all else as it was.
  lemma AfterMeans(table: Table, rows: Rows, change: Change, id: RowId, c: string)
    ensures var after := After(table, rows, change);
            match change
            case Insert(values) =>
              && (id in after <==> id in rows || id == table.nextId(rows))
              && (id in rows && id != table.nextId(rows) ==> after[id] == rows[id])
              && (id == table.nextId(rows) ==>
                    && (c in after[id] <==> c in values || c in table.defaults)
                    && (c in values ==> after[id][c] == values[c])
                    && (c in table.defaults && c !in values ==> after[id][c] == table.defaults[c]))
            case Update(_, _, changed) =>
              && (id in after <==> id in rows)
              && (id in rows && id !in Targets(table, rows, change) ==> after[id] == rows[id])
              && (id in Targets(table, rows, change) ==>
                    && (c in after[id] <==> c in changed || c in rows[id])
                    && (c in changed ==> after[id][c] == changed[c])
                    && (c in rows[id] && c !in changed ==> after[id][c] == rows[id][c]))
            case Delete(_, _) =>
              && (id in after <==> id in rows && id !in Targets(table, rows, change))
              && (id in after ==> after[id] == rows[id])
  {
    hide Unchanged;
  }

  // The table as each change finds it.
  function Before(table: Table, rows: Rows, changes: seq<Change>, i: nat): Rows
    requires i <= |changes|
  {
    if i == 0 then rows else After(table, Before(table, rows, changes, i - 1), changes[i - 1])
  }

  // A change that can be made, or found not to apply, of the table as it is.
  predicate Makes(table: Table, rows: Rows, change: Change) {
    Proper(table, change) && Hits(table, rows, change) <= 1 &&
    (Hits(table, rows, change) == 1 ==> table.allows(After(table, rows, change)))
  }

  // Those of the first `count` changes that found no row as it was loaded.
  function Missed(table: Table, rows: Rows, changes: seq<Change>, count: nat): seq<nat>
    requires count <= |changes|
  {
    if count == 0 then []
    else
      Missed(table, rows, changes, count - 1) +
      if Hits(table, Before(table, rows, changes, count - 1), changes[count - 1]) == 0 then [count - 1] else []
  }

  datatype Conflict = Conflict(change: nat, current: Option<Row>)

  // A missed change tells what its row holds now, if it is still there.
  ghost predicate Tells(table: Table, rows: Rows, changes: seq<Change>, conflict: Conflict) {
    && conflict.change < |changes| && !changes[conflict.change].Insert?
    && var before, key := Before(table, rows, changes, conflict.change), changes[conflict.change].key;
    match conflict.current
    case Some(row) => exists id | id in before :: Located(key, id, before[id]) && before[id] == row
    case None => forall id | id in before :: !Located(key, id, before[id])
  }

  // `conflicts` are those of the first `count` changes that missed, in order.
  ghost predicate TellsAll(table: Table, rows: Rows, changes: seq<Change>, conflicts: seq<Conflict>, count: nat)
    requires count <= |changes|
  {
    && |conflicts| == |Missed(table, rows, changes, count)|
    && forall i | 0 <= i < |conflicts| ::
         && conflicts[i].change == Missed(table, rows, changes, count)[i]
         && Tells(table, rows, changes, conflicts[i])
  }

  // The first `count` changes can be made, or found not to apply.
  ghost predicate MakesAll(table: Table, rows: Rows, changes: seq<Change>, count: nat)
    requires count <= |changes|
  {
    forall i | 0 <= i < count :: Makes(table, Before(table, rows, changes, i), changes[i])
  }

  lemma TellsNext(
    table: Table, rows: Rows, changes: seq<Change>, conflicts: seq<Conflict>, count: nat, current: Option<Row>)
    requires count < |changes| && TellsAll(table, rows, changes, conflicts, count)
    ensures var hits := Hits(table, Before(table, rows, changes, count), changes[count]);
            && (hits > 0 ==> TellsAll(table, rows, changes, conflicts, count + 1))
            && (hits == 0 && Tells(table, rows, changes, Conflict(count, current)) ==>
                  TellsAll(table, rows, changes, conflicts + [Conflict(count, current)], count + 1))
  {
    hide Hits, Before, Tells;
  }

  lemma MakesNext(table: Table, rows: Rows, changes: seq<Change>, count: nat)
    requires count < |changes| && MakesAll(table, rows, changes, count)
    ensures MakesAll(table, rows, changes, count + 1) <==>
              Makes(table, Before(table, rows, changes, count), changes[count])
    ensures Before(table, rows, changes, count + 1) == After(table, Before(table, rows, changes, count), changes[count])
  {
    hide Makes, After;
  }

  // A change that can't be made leaves the batch unfit.
  lemma {:induction false} MakesNone(table: Table, rows: Rows, changes: seq<Change>, i: nat)
    requires i < |changes| && !Makes(table, Before(table, rows, changes, i), changes[i])
    ensures !Applies(table, rows, changes) && !MakesAll(table, rows, changes, |changes|)
  {
    hide After, Targets;
  }

  lemma {:induction false} AppliesWhen(table: Table, rows: Rows, changes: seq<Change>)
    requires MakesAll(table, rows, changes, |changes|)
    ensures Missed(table, rows, changes, |changes|) == [] <==> Applies(table, rows, changes)
  {
    hide After, Targets, Proper, Before;
    MissedNone(table, rows, changes, |changes|);
  }

  datatype Result = Saved(applied: nat) | Conflicting(conflicts: seq<Conflict>) | Failed

  // Every change applies to exactly one row, still as it was loaded, of the
  // table as the changes before it left it.
  ghost predicate Applies(table: Table, rows: Rows, changes: seq<Change>) {
    forall i | 0 <= i < |changes| ::
      var before := Before(table, rows, changes, i);
      && Proper(table, changes[i]) && Hits(table, before, changes[i]) == 1
      && table.allows(After(table, before, changes[i]))
  }

  lemma {:induction false} MissedNone(table: Table, rows: Rows, changes: seq<Change>, count: nat)
    requires count <= |changes|
    requires MakesAll(table, rows, changes, count)
    ensures Missed(table, rows, changes, count) == [] <==>
            forall i | 0 <= i < count :: Hits(table, Before(table, rows, changes, i), changes[i]) == 1
  {
    hide Before, Hits, Proper, After;
    if count > 0 {
      MissedNone(table, rows, changes, count - 1);
      var last := Before(table, rows, changes, count - 1);
      assert Makes(table, last, changes[count - 1]);
      assert Missed(table, rows, changes, count) ==
        Missed(table, rows, changes, count - 1)
        + if Hits(table, last, changes[count - 1]) == 0 then [count - 1] else [];
    }
  }

  method CurrentRow(rows: Rows, key: Key) returns (current: Option<Row>)
    ensures match current
            case Some(row) => exists id | id in rows :: Located(key, id, rows[id]) && rows[id] == row
            case None => forall id | id in rows :: !Located(key, id, rows[id])
  {
    var ids := rows.Keys;
    while ids != {}
      invariant ids <= rows.Keys
      invariant forall id | id in rows && id !in ids :: !Located(key, id, rows[id])
      decreases |ids|
    {
      var id :| id in ids;
      if Located(key, id, rows[id]) { return Some(rows[id]); }
      ids := ids - {id};
    }
    current := None;
  }

  lemma {:induction false} NothingYet(table: Table, rows: Rows, changes: seq<Change>)
    ensures MakesAll(table, rows, changes, 0) && TellsAll(table, rows, changes, [], 0)
            && Before(table, rows, changes, 0) == rows
  {
  }

  lemma {:induction false} AllMissed(table: Table, rows: Rows, changes: seq<Change>, conflicts: seq<Conflict>)
    requires TellsAll(table, rows, changes, conflicts, |changes|)
    ensures conflicts == [] <==> Missed(table, rows, changes, |changes|) == []
  {
  }

  class Database {
    var rows: Rows

    constructor (rows: Rows)
      ensures this.rows == rows
    {
      this.rows := rows;
    }

    // The changes in one transaction. `begins` is whether it could start,
    // `granted` whether its commit was, and `commits` whether that went
    // through. Every conflict is told, the first and those after it.
    method Mutate(table: Table, changes: seq<Change>, begins: bool, granted: bool, commits: bool)
      returns (result: Result)
      modifies this
      ensures result.Saved? <==> begins && granted && commits && Applies(table, old(rows), changes)
      ensures result.Saved? ==> rows == Before(table, old(rows), changes, |changes|) && result.applied == |changes|
      ensures !result.Saved? ==> rows == old(rows)
      ensures result.Conflicting? ==>
                result.conflicts != [] && TellsAll(table, old(rows), changes, result.conflicts, |changes|)
      ensures result.Conflicting? <==>
                begins && !Applies(table, old(rows), changes) && MakesAll(table, old(rows), changes, |changes|)
    {
      hide After, Proper, Targets, Located, Applies, MakesAll, TellsAll, Missed, Before;
      NothingYet(table, rows, changes);
      if !begins { return Failed; }
      var saved := rows;
      var applied := 0;
      var conflicts: seq<Conflict> := [];
      for index := 0 to |changes|
        invariant rows == Before(table, saved, changes, index) && saved == old(rows)
        invariant MakesAll(table, saved, changes, index) && TellsAll(table, saved, changes, conflicts, index)
        invariant applied + |conflicts| == index
      {
        var change := changes[index];
        var changed := Hits(table, rows, change);
        MakesNext(table, saved, changes, index);
        if !Proper(table, change) || (changed > 0 && !table.allows(After(table, rows, change))) || changed > 1 {
          MakesNone(table, saved, changes, index);
          rows := saved;
          return Failed;
        }
        if changed == 0 {
          var current := CurrentRow(rows, change.key);
          TellsNext(table, saved, changes, conflicts, index, current);
          conflicts := conflicts + [Conflict(index, current)];
        } else {
          TellsNext(table, saved, changes, conflicts, index, None);
          applied := applied + changed;
        }
        rows := After(table, rows, change);
      }
      AppliesWhen(table, saved, changes);
      AllMissed(table, saved, changes, conflicts);
      if conflicts != [] {
        rows := saved;
        return Conflicting(conflicts);
      }
      if !granted || !commits {
        rows := saved;
        return Failed;
      }
      result := Saved(applied);
    }
  }

  // A row changed from what a client loaded is changed by no edit of what it
  // loaded: it conflicts instead.
  lemma StaleEditMisses(table: Table, rows: Rows, change: Change, id: RowId, column: string)
    requires !change.Insert? && id in rows && column in table.columns && column in change.original
    requires column in rows[id] && !Matches(change.original[column], rows[id][column])
    ensures id !in Targets(table, rows, change)
    ensures !change.Delete? ==> After(table, rows, change)[id] == rows[id]
    ensures change.Delete? ==> id in After(table, rows, change)
  {
  }

  // Whether a row an update has changed still looks as it was loaded before:
  // each new value matches the loaded one, as it can where that is the preview
  // of a blob, and its key still locates it.
  predicate StillMatches(table: Table, update: Change, id: RowId, row: Row)
    requires update.Update?
  {
    && (forall c | c in update.changed && c in table.columns ::
          c in update.original && Matches(update.original[c], update.changed[c]))
    && Located(update.key, id, row + update.changed)
  }

  // Of two edits of the same loaded rows, the later is of exactly those that
  // the first changed and that still look as they were loaded.
  lemma LaterEditMisses(table: Table, rows: Rows, first: Change, second: Change)
    requires first.Update? && !second.Insert? && second.original == first.original && second.key == first.key
    ensures Targets(table, After(table, rows, first), second) ==
            set id | id in rows && id in Targets(table, rows, first) && StillMatches(table, first, id, rows[id])
  {
    var after := After(table, rows, first);
    forall id | id in after
      ensures id in Targets(table, after, second) <==>
                id in Targets(table, rows, first) && StillMatches(table, first, id, rows[id])
    {
      if id in Targets(table, rows, first) {
        StillUnchanged(table, first, id, rows[id]);
      } else {
        assert after[id] == rows[id];
      }
    }
  }

  // Two such edits of a blob loaded as its size and first byte: the second is
  // of the row the first has changed, as it still looks as it was loaded.
  lemma LaterEditOverwrites(table: Table) returns (rows: Rows, first: Change, second: Change)
    requires table.columns == {"c"} && table.generated == {} && table.primaryKey == None
    ensures first.Update? && second.Update? && second.original == first.original && second.key == first.key
    ensures Proper(table, first) && Proper(table, second)
    ensures var after := After(table, rows, first);
            && after != rows && Targets(table, after, second) == {0}
            && After(table, after, second) == map[0 := second.changed] && after[0] == first.changed != second.changed
  {
    var loaded: map<string, Loaded> := map["c" := Preview(2, [1])];
    rows := map[0 := map["c" := Blob([1, 1])]];
    first := Update(ByRowId(Number(0)), loaded, map["c" := Blob([1, 2])]);
    second := Update(ByRowId(Number(0)), loaded, map["c" := Blob([1, 3])]);
    assert "c" in first.changed && "c" in second.changed;
    assert Targets(table, rows, first) == {0};
    var after := After(table, rows, first);
    assert after[0] == first.changed && after[0] + second.changed == second.changed;
    LaterEditMisses(table, rows, first, second);
  }

  lemma StillUnchanged(table: Table, update: Change, id: RowId, row: Row)
    requires update.Update? && Unchanged(table, update.key, update.original, id, row)
    ensures Unchanged(table, update.key, update.original, id, row + update.changed) <==>
              StillMatches(table, update, id, row)
  {
    hide Matches, Located;
    var later := row + update.changed;
    forall c | c in table.columns
      ensures c in later && later[c] == if c in update.changed then update.changed[c] else row[c]
    {
    }
  }
}
