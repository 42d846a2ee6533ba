/** Queue jobs, the connection string packed into them, and the Redis list they travel through. */
module Jobs {
  import opened Wrappers

  datatype Job = Job(
    cmd: string, dbName: string, driver: string, params: string,
    storageTargetId: int, agentId: int, runId: int)

  datatype Params = Params(host: string, port: string, username: string, password: string, authDb: string)

  function Pack(p: Params): string {
    p.host + ['|'] + (p.port + ['|'] + (p.username + ['|'] + (p.password + ['|'] + p.authDb)))
  }

  function NewBackupJob(dbName: string, driver: string, p: Params, storageTargetId: int, agentId: int, runId: int)
    : Job
  {
    Job("backup", dbName, driver, Pack(p), storageTargetId, agentId, runId)
  }

  // The pieces between separators; always at least one.
  function Split(s: string, sep: char): (parts: seq<string>)
    ensures |parts| >= 1
    ensures forall i :: 0 <= i < |parts| ==> sep !in parts[i]
  {
    if s == "" then [""]
    else
      var rest := Split(s[1..], sep);
      if s[0] == sep then [""] + rest else [[s[0]] + rest[0]] + rest[1..]
  }

  function ParseParams(raw: string): Params {
    var parts := Split(raw, '|');
    var get := (i: nat) => if i < |parts| then parts[i] else "";
    Params(get(0), get(1), get(2), get(3), get(4))
  }

  predicate Clean(p: Params) {
    '|' !in p.host && '|' !in p.port && '|' !in p.username && '|' !in p.password && '|' !in p.authDb
  }

  lemma {:induction false} SplitWhole(s: string, sep: char)
    requires sep !in s
    ensures Split(s, sep) == [s]
  {
    if s != "" {
      SplitWhole(s[1..], sep);
      assert [s[0]] + s[1..] == s;
    }
  }

  lemma {:induction false} SplitHead(a: string, sep: char, b: string)
    requires sep !in a
    ensures Split(a + [sep] + b, sep) == [a] + Split(b, sep)
  {
    var s := a + [sep] + b;
    if a == "" {
      assert s[1..] == b;
    } else {
      assert s[1..] == a[1..] + [sep] + b;
      SplitHead(a[1..], sep, b);
      var rest := Split(s[1..], sep);
      assert [s[0]] + a[1..] == a;
      assert rest[1..] == Split(b, sep);
    }
  }

  function Join(parts: seq<string>, sep: char): string
    requires |parts| >= 1
  {
    if |parts| == 1 then parts[0] else parts[0] + [sep] + Join(parts[1..], sep)
  }

  // Joining the pieces gives the text back, and pieces free of the separator are what their own
  // join splits into.
  lemma {:induction false} JoinSplit(s: string, sep: char)
    ensures Join(Split(s, sep), sep) == s
  {
    if s != "" {
      var rest := Split(s[1..], sep);
      JoinSplit(s[1..], sep);
      if s[0] == sep {
        assert ([""] + rest)[1..] == rest;
      } else {
        assert ([[s[0]] + rest[0]] + rest[1..])[1..] == rest[1..];
      }
    }
  }

  lemma {:induction false} SplitJoin(parts: seq<string>, sep: char)
    requires |parts| >= 1 && forall i :: 0 <= i < |parts| ==> sep !in parts[i]
    ensures Split(Join(parts, sep), sep) == parts
  {
    if |parts| == 1 {
      SplitWhole(parts[0], sep);
    } else {
      SplitJoin(parts[1..], sep);
      SplitHead(parts[0], sep, Join(parts[1..], sep));
    }
  }

  // Four clean fields come back, followed by whatever the rest splits into.
  lemma {:induction false} SplitFour(a: string, b: string, c: string, d: string, rest: string)
    requires '|' !in a && '|' !in b && '|' !in c && '|' !in d
    ensures Split(a + ['|'] + (b + ['|'] + (c + ['|'] + (d + ['|'] + rest))), '|')
         == [a, b, c, d] + Split(rest, '|')
  {
    var t3 := d + ['|'] + rest;
    var t2 := c + ['|'] + t3;
    var t1 := b + ['|'] + t2;
    SplitHead(a, '|', t1);
    SplitHead(b, '|', t2);
    SplitHead(c, '|', t3);
    SplitHead(d, '|', rest);
  }

  // A packed connection string gives its five fields back exactly when none holds the separator.
  lemma ParamsRoundTrip(p: Params)
    ensures ParseParams(Pack(p)) == p <==> Clean(p)
  {
    if Clean(p) {
      SplitFour(p.host, p.port, p.username, p.password, p.authDb);
      SplitWhole(p.authDb, '|');
    }
  }

  // A packed text is its five fields in order, with a bar between each two; a shorter one leaves
  // the last fields empty.
  lemma ParsesInOrder(host: string, port: string, username: string, password: string, authDb: string)
    requires Clean(Params(host, port, username, password, authDb))
    ensures ParseParams(host + "|" + (port + "|" + (username + "|" + (password + "|" + authDb))))
         == Params(host, port, username, password, authDb)
    ensures ParseParams(host + "|" + port) == Params(host, port, "", "", "")
    ensures ParseParams(host) == Params(host, "", "", "", "")
  {
    SplitFour(host, port, username, password, authDb);
    SplitWhole(authDb, '|');
    SplitHead(host, '|', port);
    SplitWhole(port, '|');
    SplitWhole(host, '|');
  }

  // A password holding one separator is cut there, and its tail displaces the next field.
  lemma SeparatorShiftsFields(p: Params, head: string, tail: string)
    requires Clean(p) && '|' !in head && '|' !in tail
    ensures ParseParams(Pack(p.(password := head + ['|'] + tail))) == p.(password := head, authDb := tail)
  {
    var rest := tail + ['|'] + p.authDb;
    assert head + ['|'] + tail + ['|'] + p.authDb == head + ['|'] + rest;
    SplitFour(p.host, p.port, p.username, head, rest);
    SplitHead(tail, '|', p.authDb);
  }

  /** The Redis list: RPUSH at the tail, BLPOP at the head. */
  class Client {
    var items: seq<Job>

    constructor ()
      ensures items == []
    {
      items := [];
    }

    // `stored` says whether the server appended the job; the caller sees only `ok`.
    method Push(job: Job, stored: bool, answered: bool) returns (ok: bool)
      modifies this
      ensures items == if stored then old(items) + [job] else old(items)
      ensures ok <==> stored && answered
    {
      if stored {
        items := items + [job];
      }
      ok := stored && answered;
    }

    // A pop that the server carried out takes the head off the list. The caller gets it only if the
    // answer arrives and decodes, and otherwise an error: the job is then lost. An empty list, with
    // an answer, is neither.
    method Pop(popped: bool, answered: bool, decodes: bool) returns (job: Option<Job>, ok: bool)
      modifies this
      ensures items == if popped && old(items) != [] then old(items)[1..] else old(items)
      ensures job == if popped && old(items) != [] && answered && decodes then Some(old(items)[0]) else None
      ensures ok <==> popped && answered && (old(items) != [] ==> decodes)
    {
      if !popped {
        return None, false;
      }
      if items == [] {
        return None, answered;
      }
      var head := items[0];
      items := items[1..];
      if !answered || !decodes {
        return None, false;
      }
      return Some(head), true;
    }
  }
}
