/** Open as the program runs it: the connection's file is brought up to date statement by statement,
    the copying ones row by row, stopping at the first error. */
module OpenFile {
  import opened Wrappers
  import opened RegistryTables
  import opened Migration

  // The ids of a table in the order a scan yields them.
  method Scan<T(==)>(rows: map<int, T>) returns (ids: seq<int>)
    ensures Listing(ids, rows.Keys)
  {
    var todo := rows.Items;
    ids := [];
    while todo != {}
      invariant todo <= rows.Items
      invariant forall i, j :: 0 <= i < j < |ids| ==> ids[i] != ids[j]
      invariant forall i :: 0 <= i < |ids| ==> ids[i] in rows && (ids[i], rows[ids[i]]) !in todo
      invariant forall id :: id in rows && (id, rows[id]) !in todo ==> exists i :: 0 <= i < |ids| && ids[i] == id
      decreases todo
    {
      var row :| row in todo;
      todo := todo - {row};
      assert rows[row.0] == row.1;
      ghost var before := ids;
      ids := ids + [row.0];
      assert ids[|before|] == row.0;
      assert forall i :: 0 <= i < |before| ==> ids[i] == before[i];
    }
  }

  // The schedules that refer to one database go, one row at a time; likewise the pairs that hold it.
  method DeleteSchedulesOf(rows: map<int, Schedule>, id: int) returns (left: map<int, Schedule>)
    ensures left == SchedulesWithout(rows, {id})
  {
    left := rows;
    var todo := rows.Items;
    while todo != {}
      invariant todo <= rows.Items
      invariant left == map s | s in rows && (rows[s].databaseId != id || (s, rows[s]) in todo) :: rows[s]
      decreases todo
    {
      var row :| row in todo;
      todo := todo - {row};
      if row.1.databaseId == id {
        left := left - {row.0};
      }
    }
  }

  method DeletePairsOf(pairs: set<(int, int)>, id: int, second: bool) returns (left: set<(int, int)>)
    ensures left == if second then MembersWithout(pairs, {id}) else LinksWithout(pairs, {id})
  {
    left := pairs;
    var todo := pairs;
    while todo != {}
      invariant todo <= pairs
      invariant left == set x | x in pairs && ((if second then x.1 else x.0) != id || x in todo)
      decreases todo
    {
      var x :| x in todo;
      todo := todo - {x};
      if (if second then x.1 else x.0) == id {
        left := left - {x};
      }
    }
  }

  lemma WithoutBoth(
    rows: map<int, Schedule>, members: set<(int, int)>, links: set<(int, int)>, a: set<int>, b: set<int>)
    ensures SchedulesWithout(SchedulesWithout(rows, a), b) == SchedulesWithout(rows, a + b)
    ensures MembersWithout(MembersWithout(members, a), b) == MembersWithout(members, a + b)
    ensures LinksWithout(LinksWithout(links, a), b) == LinksWithout(links, a + b)
  {}

  lemma {:induction false} MaxOfLonger(ids: seq<int>, id: int)
    ensures MaxOf(ids + [id]) == if id > MaxOf(ids) then id else MaxOf(ids)
  {
    if ids == [] {
      assert ids + [id] == [id];
    } else {
      assert (ids + [id])[1..] == ids[1..] + [id];
      MaxOfLonger(ids[1..], id);
    }
  }

  // INSERT INTO shared_schedule_times SELECT: one new row per old one, each under the next id.
  method InsertSelect(before: Tables, source: map<int, OldTime>, groups: seq<int>) returns (t: Tables)
    requires Covers(source, groups)
    ensures t == InsertTimes(before, source, groups)
  {
    t := before;
    var k := 0;
    while k < |groups|
      invariant k <= |groups|
      invariant InsertTimes(before, source, groups) == InsertTimes(t, source, groups[k..])
    {
      assert groups[k..][1..] == groups[k + 1..];
      var time := SharedTime(groups[k], source[groups[k]].timeOfDay, source[groups[k]].lastRun);
      t := t.(times := t.times[t.lastTime + 1 := time], lastTime := t.lastTime + 1);
      k := k + 1;
    }
  }

  class Connection {
    var file: File

    constructor (f: File)
      ensures file == Connect(f)
    {
      file := f.(fk := true);
    }

    method MigrateSharedScheduleTimes(groups: seq<int>)
      requires file.oldTimes.Some? ==> Covers(file.oldTimes.value, groups)
      modifies this
      ensures file == SharedTimes(old(file), groups)
    {
      if file.oldTimes.None? {
        return;
      }
      var t := InsertSelect(file.t, file.oldTimes.value, groups);
      file := file.(t := t, oldTimes := None);
    }

    // INSERT INTO databases_new SELECT: every row under the id it has; the new table's counter is
    // raised by any id beyond it.
    method CopyRows() returns (copy: map<int, Database>, last: nat, ghost ids: seq<int>)
      ensures Listing(ids, file.t.databases.Keys)
      ensures copy == file.t.databases && last == MaxOf(ids)
    {
      var rows := file.t.databases;
      var todo := rows.Items;
      copy, last, ids := map[], 0, [];
      while todo != {}
        invariant todo <= rows.Items
        invariant copy == map id | id in rows && (id, rows[id]) !in todo :: rows[id]
        invariant last == MaxOf(ids)
        invariant forall i, j :: 0 <= i < j < |ids| ==> ids[i] != ids[j]
        invariant forall i :: 0 <= i < |ids| ==> ids[i] in rows && (ids[i], rows[ids[i]]) !in todo
        invariant forall id :: id in rows && (id, rows[id]) !in todo ==> exists i :: 0 <= i < |ids| && ids[i] == id
        decreases todo
      {
        var row :| row in todo;
        todo := todo - {row};
        copy := copy[row.0 := row.1];
        if row.0 > last {
          last := row.0;
        }
        ghost var before := ids;
        ids := ids + [row.0];
        MaxOfLonger(before, row.0);
        assert ids[|before|] == row.0;
        assert forall i :: 0 <= i < |before| ==> ids[i] == before[i];
      }
    }

    // DROP TABLE databases: its rows are deleted first, each with the rows that refer to it when
    // foreign keys are enforced.
    method DropTable()
      modifies this
      ensures file == DropDatabases(old(file))
    {
      if file.fk {
        var schedules, members, links := file.t.schedules, file.t.members, file.t.links;
        var todo := file.t.databases.Items;
        ghost var gone: set<int> := {};
        while todo != {}
          invariant file == old(file) && todo <= file.t.databases.Items
          invariant forall id :: id in gone <==> id in file.t.databases && (id, file.t.databases[id]) !in todo
          invariant schedules == SchedulesWithout(file.t.schedules, gone)
          invariant members == MembersWithout(file.t.members, gone)
          invariant links == LinksWithout(file.t.links, gone)
          decreases todo
        {
          var row :| row in todo;
          todo := todo - {row};
          schedules := DeleteSchedulesOf(schedules, row.0);
          members := DeletePairsOf(members, row.0, true);
          links := DeletePairsOf(links, row.0, false);
          WithoutBoth(file.t.schedules, file.t.members, file.t.links, gone, {row.0});
          gone := gone + {row.0};
        }
        assert forall id :: id in gone <==> id in file.t.databases.Keys;
        assert gone == file.t.databases.Keys;
        file := file.(t := file.t.(schedules := schedules, members := members, links := links));
      }
      file := file.(nameUnique := false, tripleIndex := false, t := file.t.(databases := map[], lastDatabase := 0));
    }

    // Copies the rows into a table without the old constraint and puts it in place of the old one,
    // with foreign keys off so that dropping the old table cascades nowhere.
    method MigrateDatabasesNameUniqueScope() returns (ok: bool, ghost ids: seq<int>)
      modifies this
      ensures Listing(ids, old(file).t.databases.Keys)
      ensures file == NameScope(old(file), ids)
      ensures old(file).nameUnique ==>
                file.t == old(file).t.(lastDatabase := MaxOf(ids)) && file.fk && !file.nameUnique
      ensures ok <==> (old(file).nameUnique ==> NoDangling(file.t))
    {
      if !file.nameUnique {
        ids := Scan(file.t.databases);
        return true, ids;
      }
      file := file.(fk := false);
      var copy, last;
      copy, last, ids := CopyRows();
      DropTable();
      file := file.(t := file.t.(databases := copy, lastDatabase := last));
      file := file.(fk := true);
      ok := NoDangling(file.t);
    }

    // The stages before the rebuild.
    method AddShapes() returns (ghost groups: seq<int>)
      requires file.fk
      requires file.hasGroups && file.oldTimes.Some? ==> file.oldTimes.value.Keys == file.t.groups.Keys
      modifies this
      ensures Listing(groups, old(file).t.groups.Keys)
      ensures Coverable(old(file), Scans(groups, [])) && file == Fourth(old(file), Scans(groups, []))
      ensures file.t.databases.Keys == old(file).t.databases.Keys
    {
      file := ApplySchema(file);
      var scan := Scan(file.t.groups);
      groups := scan;
      MigrateSharedScheduleTimes(scan);
      file := file.(hasEvents := false);
      if !file.hasAgent {
        file := AgentColumn(file);
      }
    }

    // The stages after the rebuild.
    method AddNameAndIndex() returns (ok: bool)
      modifies this
      ensures ok <==> old(file).tripleIndex || TriplesUnique(NameColumn(old(file)).t)
      ensures file == if ok then NameColumn(old(file)).(tripleIndex := true) else NameColumn(old(file))
    {
      if !file.hasName {
        file := NameColumn(file);
      }
      ok := file.tripleIndex || TriplesUnique(file.t);
      if ok {
        file := file.(tripleIndex := true);
      }
    }

    // The whole chain; false is any of its errors.
    method Run() returns (ok: bool, ghost sc: Scans)
      requires file.fk
      requires file.hasGroups && file.oldTimes.Some? ==> file.oldTimes.value.Keys == file.t.groups.Keys
      modifies this
      ensures Scanned(old(file), sc)
      ensures ok <==> Open(old(file), sc).Ok?
      ensures ok ==> Open(old(file), sc) == Ok(file)
    {
      ghost var f := file;
      ghost var groups := AddShapes();
      ghost var rows;
      ok, rows := MigrateDatabasesNameUniqueScope();
      sc := Scans(groups, rows);
      assert Fourth(f, sc) == Fourth(f, Scans(groups, []));
      OpenInOrder(f, sc);
      if ok {
        ok := AddNameAndIndex();
      }
    }
  }

  ghost predicate Coverable(f: File, sc: Scans) {
    f.fk && (f.hasGroups && f.oldTimes.Some? ==> Covers(f.oldTimes.value, sc.groups))
  }

  ghost function Fourth(f: File, sc: Scans): File
    requires Coverable(f, sc)
  {
    AgentColumn(SharedTimes(ApplySchema(f), sc.groups).(hasEvents := false))
  }

  // The chain written out.
  ghost function InOrder(f: File, sc: Scans): Option<File>
    requires Coverable(f, sc)
  {
    var f4 := Fourth(f, sc);
    var f5 := NameScope(f4, sc.rows);
    if f4.nameUnique && !NoDangling(f5.t) then None
    else
      var f6 := NameColumn(f5);
      if !f6.tripleIndex && !TriplesUnique(f6.t) then None
      else Some(f6.(tripleIndex := true))
  }

  lemma {:induction false} FourStages(f: File, sc: Scans)
    requires Coverable(f, sc)
    ensures After(f, sc, 4) == Ok(Fourth(f, sc))
  {
    NextStage(f, sc, 0, f);
    var f1 := ApplySchema(f);
    NextStage(f, sc, 1, f1);
    var f2 := SharedTimes(f1, sc.groups);
    NextStage(f, sc, 2, f2);
    NextStage(f, sc, 3, f2.(hasEvents := false));
  }

  lemma OpenInOrder(f: File, sc: Scans)
    requires Coverable(f, sc)
    ensures Open(f, sc).Ok? <==> InOrder(f, sc).Some?
    ensures InOrder(f, sc).Some? ==> Open(f, sc) == Ok(InOrder(f, sc).value)
  {
    FourStages(f, sc);
    var f4 := Fourth(f, sc);
    var f5 := NameScope(f4, sc.rows);
    NextStage(f, sc, 4, f4);
    if f4.nameUnique && !NoDangling(f5.t) {
      FailedStays(f, sc, 5, STAGES);
    } else {
      NextStage(f, sc, 5, f5);
      NextStage(f, sc, 6, NameColumn(f5));
    }
  }

  lemma NextStage(f: File, sc: Scans, n: nat, g: File)
    requires After(f, sc, n) == Ok(g)
    ensures After(f, sc, n + 1) == Stage(g, sc, n + 1)
  {}

  lemma {:induction false} FailedStays(f: File, sc: Scans, n: nat, m: nat)
    requires After(f, sc, n).Err? && n <= m
    ensures After(f, sc, m).Err?
  {
    if n < m { FailedStays(f, sc, n, m - 1); }
  }
}
