/** The one query shape of the run log: the rows of a table that a condition keeps, newest first,
    counted, or a slice of them listed. */
module Query {
  // The rows kept, newest first.
  function Newest<T>(table: map<int, T>, last: nat, keep: T -> bool): (r: seq<(int, T)>) {
    if last == 0 then []
    else (if last in table && keep(table[last]) then [(last, table[last])] else [])
         + Newest(table, last - 1, keep)
  }

  ghost predicate Descending<T>(rows: seq<(int, T)>) {
    forall i, j :: 0 <= i < j < |rows| ==> rows[i].0 > rows[j].0
  }

  ghost predicate Lists<T>(rows: seq<(int, T)>, id: int, row: T) {
    exists i :: 0 <= i < |rows| && rows[i] == (id, row)
  }

  // The rows are some of the table's, and none is newer than last.
  ghost predicate Older<T>(rows: seq<(int, T)>, table: map<int, T>, last: int) {
    forall i :: 0 <= i < |rows| ==> 1 <= rows[i].0 <= last && rows[i].0 in table && table[rows[i].0] == rows[i].1
  }

  lemma PutFirst<T>(rows: seq<(int, T)>, table: map<int, T>, last: nat)
    requires last > 0 && last in table && Descending(rows) && Older(rows, table, last - 1)
    ensures Descending([(last, table[last])] + rows) && Older([(last, table[last])] + rows, table, last)
  {
    var all := [(last, table[last])] + rows;
    assert forall i :: 0 < i < |all| ==> all[i] == rows[i - 1];
  }

  lemma {:induction false} NewestIsSorted<T>(table: map<int, T>, last: nat, keep: T -> bool)
    ensures Descending(Newest(table, last, keep)) && Older(Newest(table, last, keep), table, last)
  {
    if last > 0 {
      NewestIsSorted(table, last - 1, keep);
      var rest := Newest(table, last - 1, keep);
      if last in table && keep(table[last]) {
        PutFirst(rest, table, last);
      } else {
        StillOlder(rest, table, last);
      }
    }
  }

  lemma StillOlder<T>(rows: seq<(int, T)>, table: map<int, T>, last: nat)
    requires last > 0 && Older(rows, table, last - 1)
    ensures Older(rows, table, last)
  {}

  lemma {:induction false} ListedAreKept<T>(table: map<int, T>, last: nat, keep: T -> bool, i: nat)
    requires i < |Newest(table, last, keep)|
    ensures keep(Newest(table, last, keep)[i].1)
  {
    if last > 0 {
      var k := if last in table && keep(table[last]) then 1 else 0;
      if i >= k { ListedAreKept(table, last - 1, keep, i - k); }
    }
  }

  // The list is exactly the rows kept, each once, newest first.
  lemma {:induction false} NewestIsExact<T>(table: map<int, T>, last: nat, keep: T -> bool, id: int, row: T)
    ensures Descending(Newest(table, last, keep))
    ensures Lists(Newest(table, last, keep), id, row)
       <==> 1 <= id <= last && id in table && table[id] == row && keep(row)
  {
    NewestIsSorted(table, last, keep);
    var r := Newest(table, last, keep);
    if Lists(r, id, row) {
      var i :| 0 <= i < |r| && r[i] == (id, row);
      ListedAreKept(table, last, keep, i);
    }
    if 1 <= id <= last && id in table && table[id] == row && keep(row) {
      ListsKept(table, last, keep, id);
    }
  }

  lemma {:induction false} ListsKept<T>(table: map<int, T>, last: nat, keep: T -> bool, id: int)
    requires 1 <= id <= last && id in table && keep(table[id])
    ensures Lists(Newest(table, last, keep), id, table[id])
  {
    var r := Newest(table, last, keep);
    if id == last {
      assert r[0] == (id, table[id]);
    } else {
      ListsKept(table, last - 1, keep, id);
      var rest := Newest(table, last - 1, keep);
      var i :| 0 <= i < |rest| && rest[i] == (id, table[id]);
      var k := if last in table && keep(table[last]) then 1 else 0;
      assert r[i + k] == (id, table[id]);
    }
  }

  // LIMIT and OFFSET: a negative limit means no limit, a negative offset none.
  function Page<T>(rows: seq<T>, limit: int, offset: int): seq<T> {
    var from := if offset < 0 then 0 else if offset > |rows| then |rows| else offset;
    var rest := rows[from..];
    if limit < 0 || limit > |rest| then rest else rest[..limit]
  }

  lemma {:induction false} NoMoreThanInserted<T>(table: map<int, T>, last: nat, keep: T -> bool)
    ensures |Newest(table, last, keep)| <= last
  {
    if last > 0 { NoMoreThanInserted(table, last - 1, keep); }
  }

  // SELECT COUNT(*) over the filter: a scan of the table.
  method Count<T>(table: map<int, T>, last: nat, keep: T -> bool) returns (count: nat)
    ensures count == |Newest(table, last, keep)|
  {
    count := 0;
    var id := last;
    while id > 0
      invariant 0 <= id && count + |Newest(table, id, keep)| == |Newest(table, last, keep)|
    {
      if id in table && keep(table[id]) {
        count := count + 1;
      }
      id := id - 1;
    }
  }

  // What is listed, and how many rows are still to be skipped, once some rows have been seen.
  ghost predicate Picked<T>(out: seq<T>, skip: int, seen: seq<T>, from: nat) {
    if from <= |seen| then skip == 0 && out == seen[from..] else skip == from - |seen| && out == []
  }

  lemma PickNext<T>(out: seq<T>, skip: int, seen: seq<T>, from: nat, x: T)
    requires Picked(out, skip, seen, from)
    ensures if skip > 0 then Picked(out, skip - 1, seen + [x], from) else Picked(out + [x], skip, seen + [x], from)
  {}

  lemma PickedIsPage<T>(out: seq<T>, skip: int, seen: seq<T>, rest: seq<T>, limit: int, offset: int)
    requires Picked(out, skip, seen, if offset < 0 then 0 else offset) && (limit >= 0 ==> |out| <= limit)
    requires rest == [] || (limit >= 0 && |out| == limit)
    ensures out == Page(seen + rest, limit, offset)
  {}

  lemma MoveOver<T>(seen: seq<T>, x: T, rest: seq<T>)
    ensures seen + ([x] + rest) == (seen + [x]) + rest
  {}

  // Appends the selected rows from the newest down, after skipping as many as the offset says and
  // until there are as many as the limit allows.
  method List<T>(table: map<int, T>, last: nat, keep: T -> bool, limit: int, offset: int) returns (out: seq<(int, T)>)
    ensures out == Page(Newest(table, last, keep), limit, offset)
  {
    out := [];
    var id, skip := last, if offset < 0 then 0 else offset;
    ghost var from, seen := skip, [];
    while id > 0 && (limit < 0 || |out| < limit)
      invariant 0 <= id && Newest(table, last, keep) == seen + Newest(table, id, keep)
      invariant Picked(out, skip, seen, from)
      invariant limit >= 0 ==> |out| <= limit
    {
      if id in table && keep(table[id]) {
        var row := (id, table[id]);
        PickNext(out, skip, seen, from, row);
        MoveOver(seen, row, Newest(table, id - 1, keep));
        seen := seen + [row];
        if skip > 0 {
          skip := skip - 1;
        } else {
          out := out + [row];
        }
      }
      id := id - 1;
    }
    PickedIsPage(out, skip, seen, Newest(table, id, keep), limit, offset);
  }
}
