/** The statements that replace a set of memberships, interleaved: each caller deletes the key's
    pairs and then inserts its own one by one, and nothing keeps two callers apart. */
module Replacing {
  import opened RegistryTables

  // One statement on one key: which caller issued it, and for an insert the other id of the pair.
  datatype Stmt = Delete(who: int) | Insert(who: int, id: int)

  // An insert is refused, and changes nothing, for an unknown key or id or a pair already there.
  predicate Refused(pairs: set<(int, int)>, key: int, keyKnown: bool, known: set<int>, s: Stmt) {
    s.Insert? && (!keyKnown || s.id !in known || (key, s.id) in pairs)
  }

  function Step(pairs: set<(int, int)>, key: int, keyKnown: bool, known: set<int>, s: Stmt): set<(int, int)> {
    if s.Delete? then ExceptFirst(pairs, key)
    else if Refused(pairs, key, keyKnown, known, s) then pairs
    else pairs + {(key, s.id)}
  }

  // The pairs after the first n statements.
  function After(pairs: set<(int, int)>, key: int, keyKnown: bool, known: set<int>, trace: seq<Stmt>, n: nat)
    : set<(int, int)>
    requires n <= |trace|
  {
    if n == 0 then pairs
    else Step(After(pairs, key, keyKnown, known, trace, n - 1), key, keyKnown, known, trace[n - 1])
  }

  function Outcome(pairs: set<(int, int)>, key: int, keyKnown: bool, known: set<int>, trace: seq<Stmt>)
    : set<(int, int)>
  {
    After(pairs, key, keyKnown, known, trace, |trace|)
  }

  predicate Succeeds(
    pairs: set<(int, int)>, key: int, keyKnown: bool, known: set<int>, trace: seq<Stmt>, n: nat)
    requires n < |trace|
  {
    !Refused(After(pairs, key, keyKnown, known, trace, n), key, keyKnown, known, trace[n])
  }

  ghost predicate AllSucceed(pairs: set<(int, int)>, key: int, keyKnown: bool, known: set<int>, trace: seq<Stmt>) {
    forall n :: 0 <= n < |trace| ==> Succeeds(pairs, key, keyKnown, known, trace, n)
  }

  predicate LastDelete(trace: seq<Stmt>, p: nat) {
    p < |trace| && trace[p].Delete? && forall i :: p < i < |trace| ==> trace[i].Insert?
  }

  ghost predicate InsertedBetween(trace: seq<Stmt>, p: int, n: nat, id: int)
    requires n <= |trace|
  {
    exists i :: p < i < n && 0 <= i && trace[i].Insert? && trace[i].id == id
  }

  lemma {:induction false} OthersUntouched(
    pairs: set<(int, int)>, key: int, keyKnown: bool, known: set<int>, trace: seq<Stmt>, n: nat, m: (int, int))
    requires n <= |trace| && m.0 != key
    ensures m in After(pairs, key, keyKnown, known, trace, n) <==> m in pairs
  {
    if n > 0 { OthersUntouched(pairs, key, keyKnown, known, trace, n - 1, m); }
  }

  lemma {:induction false} SinceDelete(
    pairs: set<(int, int)>, key: int, keyKnown: bool, known: set<int>, trace: seq<Stmt>, p: nat, n: nat, id: int)
    requires LastDelete(trace, p) && p < n <= |trace|
    ensures (key, id) in After(pairs, key, keyKnown, known, trace, n)
       <==> keyKnown && id in known && InsertedBetween(trace, p, n, id)
  {
    if n > p + 1 {
      SinceDelete(pairs, key, keyKnown, known, trace, p, n - 1, id);
      assert trace[n - 1].Insert?;
      assert InsertedBetween(trace, p, n, id)
        <==> InsertedBetween(trace, p, n - 1, id) || trace[n - 1].id == id;
    }
  }

  // Whoever issued them and however they were mixed, and refused or not: what is left for the key
  // is what was inserted since the last delete, by any caller, and nothing else changes.
  lemma LastDeleteDecides(
    pairs: set<(int, int)>, key: int, keyKnown: bool, known: set<int>, trace: seq<Stmt>, p: nat, m: (int, int))
    requires LastDelete(trace, p)
    ensures m in Outcome(pairs, key, keyKnown, known, trace)
       <==> if m.0 != key then m in pairs
            else keyKnown && m.1 in known && InsertedBetween(trace, p, |trace|, m.1)
  {
    if m.0 != key {
      OthersUntouched(pairs, key, keyKnown, known, trace, |trace|, m);
    } else {
      SinceDelete(pairs, key, keyKnown, known, trace, p, |trace|, m.1);
      assert m == (key, m.1);
    }
  }

  // Two inserts of one id after the last delete cannot both succeed.
  lemma InsertsAreDistinct(
    pairs: set<(int, int)>, key: int, keyKnown: bool, known: set<int>, trace: seq<Stmt>, p: nat, i: nat, j: nat)
    requires LastDelete(trace, p) && AllSucceed(pairs, key, keyKnown, known, trace) && p < i < j < |trace|
    ensures trace[i].id != trace[j].id
  {
    SinceDelete(pairs, key, keyKnown, known, trace, p, j, trace[j].id);
    assert Succeeds(pairs, key, keyKnown, known, trace, j);
    assert !InsertedBetween(trace, p, j, trace[j].id);
  }

  // The ids a caller asked for.
  ghost predicate Asked(trace: seq<Stmt>, who: int, id: int) {
    exists i :: 0 <= i < |trace| && trace[i] == Insert(who, id)
  }

  // The key's ids are those that one caller asked for.
  ghost predicate HasSetOf(
    pairs: set<(int, int)>, key: int, keyKnown: bool, known: set<int>, trace: seq<Stmt>, who: int)
  {
    forall id :: (key, id) in Outcome(pairs, key, keyKnown, known, trace) <==> Asked(trace, who, id)
  }

  ghost predicate OwnInserts(trace: seq<Stmt>, p: nat, who: int) {
    forall i :: p < i < |trace| ==> trace[i].who == who
  }

  lemma MixedIsNotItsSet(
    pairs: set<(int, int)>, key: int, keyKnown: bool, known: set<int>, trace: seq<Stmt>, p: nat, i: nat)
    requires LastDelete(trace, p) && AllSucceed(pairs, key, keyKnown, known, trace)
    requires forall j :: 0 <= j < p && trace[j].Insert? ==> trace[j].who != trace[p].who
    requires p < i < |trace| && trace[i].who != trace[p].who
    ensures (key, trace[i].id) in Outcome(pairs, key, keyKnown, known, trace)
    ensures !Asked(trace, trace[p].who, trace[i].id)
  {
    InsertedStays(pairs, key, keyKnown, known, trace, p, i);
    if j: nat :| j < |trace| && trace[j] == Insert(trace[p].who, trace[i].id) {
      if i < j {
        InsertsAreDistinct(pairs, key, keyKnown, known, trace, p, i, j);
      } else {
        InsertsAreDistinct(pairs, key, keyKnown, known, trace, p, j, i);
      }
    }
  }

  lemma AskedIsInserted(trace: seq<Stmt>, p: nat, id: int)
    requires LastDelete(trace, p) && OwnInserts(trace, p, trace[p].who)
    requires forall j :: 0 <= j < p && trace[j].Insert? ==> trace[j].who != trace[p].who
    ensures InsertedBetween(trace, p, |trace|, id) <==> Asked(trace, trace[p].who, id)
  {
    if i :| p < i < |trace| && trace[i].Insert? && trace[i].id == id {
      assert trace[i] == Insert(trace[p].who, id);
    }
    if i :| 0 <= i < |trace| && trace[i] == Insert(trace[p].who, id) {
      assert p < i && trace[i].id == id;
    }
  }

  lemma OwnIsItsSet(
    pairs: set<(int, int)>, key: int, keyKnown: bool, known: set<int>, trace: seq<Stmt>, p: nat, id: int)
    requires LastDelete(trace, p) && AllSucceed(pairs, key, keyKnown, known, trace)
    requires forall j :: 0 <= j < p && trace[j].Insert? ==> trace[j].who != trace[p].who
    requires OwnInserts(trace, p, trace[p].who)
    ensures (key, id) in Outcome(pairs, key, keyKnown, known, trace) <==> Asked(trace, trace[p].who, id)
  {
    AskedIsInserted(trace, p, id);
    SinceDelete(pairs, key, keyKnown, known, trace, p, |trace|, id);
    if InsertedBetween(trace, p, |trace|, id) {
      InsertedIsThere(pairs, key, keyKnown, known, trace, p, id);
    }
  }

  lemma InsertedIsThere(
    pairs: set<(int, int)>, key: int, keyKnown: bool, known: set<int>, trace: seq<Stmt>, p: nat, id: int)
    requires LastDelete(trace, p) && AllSucceed(pairs, key, keyKnown, known, trace)
    requires InsertedBetween(trace, p, |trace|, id)
    ensures (key, id) in Outcome(pairs, key, keyKnown, known, trace)
  {
    var i :| p < i < |trace| && trace[i].Insert? && trace[i].id == id;
    InsertedStays(pairs, key, keyKnown, known, trace, p, i);
  }

  // The caller who deleted last gets exactly its own set, when no statement failed, exactly when
  // every insert after that delete was its own. Otherwise the sets of several callers are mixed,
  // although each of them was told that it succeeded.
  lemma LastCallerGetsItsSet(
    pairs: set<(int, int)>, key: int, keyKnown: bool, known: set<int>, trace: seq<Stmt>, p: nat)
    requires LastDelete(trace, p) && AllSucceed(pairs, key, keyKnown, known, trace)
    requires forall i :: 0 <= i < p && trace[i].Insert? ==> trace[i].who != trace[p].who
    ensures HasSetOf(pairs, key, keyKnown, known, trace, trace[p].who) <==> OwnInserts(trace, p, trace[p].who)
  {
    if OwnInserts(trace, p, trace[p].who) {
      forall id ensures (key, id) in Outcome(pairs, key, keyKnown, known, trace) <==> Asked(trace, trace[p].who, id) {
        OwnIsItsSet(pairs, key, keyKnown, known, trace, p, id);
      }
    } else {
      var i :| p < i < |trace| && trace[i].who != trace[p].who;
      MixedIsNotItsSet(pairs, key, keyKnown, known, trace, p, i);
    }
  }

  lemma InsertedStays(
    pairs: set<(int, int)>, key: int, keyKnown: bool, known: set<int>, trace: seq<Stmt>, p: nat, i: nat)
    requires LastDelete(trace, p) && AllSucceed(pairs, key, keyKnown, known, trace) && p < i < |trace|
    ensures (key, trace[i].id) in Outcome(pairs, key, keyKnown, known, trace)
  {
    assert Succeeds(pairs, key, keyKnown, known, trace, i);
    assert InsertedBetween(trace, p, |trace|, trace[i].id);
    SinceDelete(pairs, key, keyKnown, known, trace, p, |trace|, trace[i].id);
  }

  const MIX := [Delete(1), Delete(2), Insert(1, 10), Insert(2, 20)]

  // Two callers, each of which succeeds, leave the union of what they asked for.
  lemma TwoCallersMix(pairs: set<(int, int)>, key: int, known: set<int>)
    requires 10 in known && 20 in known
    ensures AllSucceed(pairs, key, true, known, MIX)
    ensures forall id :: (key, id) in Outcome(pairs, key, true, known, MIX) <==> id == 10 || id == 20
    ensures !HasSetOf(pairs, key, true, known, MIX, 1) && !HasSetOf(pairs, key, true, known, MIX, 2)
  {
    assert LastDelete(MIX, 1);
    SinceDelete(pairs, key, true, known, MIX, 1, 2, 10);
    SinceDelete(pairs, key, true, known, MIX, 1, 3, 20);
    forall id ensures (key, id) in Outcome(pairs, key, true, known, MIX) <==> id == 10 || id == 20 {
      SinceDelete(pairs, key, true, known, MIX, 1, 4, id);
      assert MIX[2] == Insert(1, 10) && MIX[3] == Insert(2, 20);
    }
    assert !Asked(MIX, 1, 20) && !Asked(MIX, 2, 10);
  }

  // ---------- One caller alone ----------

  function Inserts(who: int, ids: seq<int>): seq<Stmt> {
    seq(|ids|, i requires 0 <= i < |ids| => Insert(who, ids[i]))
  }

  // A caller with nobody in between, none of whose statements is refused, does what ReplaceAll does.
  lemma {:induction false} AloneIsReplaceAll(
    pairs: set<(int, int)>, key: int, keyKnown: bool, known: set<int>, who: int, ids: seq<int>)
    requires AllSucceed(pairs, key, keyKnown, known, [Delete(who)] + Inserts(who, ids))
    ensures ReplaceAll(pairs, key, keyKnown, known, ids)
         == (Outcome(pairs, key, keyKnown, known, [Delete(who)] + Inserts(who, ids)), true)
  {
    AloneFrom(pairs, key, keyKnown, known, who, ids, 0);
    assert ids[0..] == ids;
  }

  lemma {:induction false} AloneFrom(
    pairs: set<(int, int)>, key: int, keyKnown: bool, known: set<int>, who: int, ids: seq<int>, k: nat)
    requires k <= |ids| && AllSucceed(pairs, key, keyKnown, known, [Delete(who)] + Inserts(who, ids))
    ensures var trace := [Delete(who)] + Inserts(who, ids);
            InsertAll(After(pairs, key, keyKnown, known, trace, k + 1), key, keyKnown, known, ids[k..])
            == (Outcome(pairs, key, keyKnown, known, trace), true)
    decreases |ids| - k
  {
    var trace := [Delete(who)] + Inserts(who, ids);
    if k < |ids| {
      assert trace[k + 1] == Insert(who, ids[k]);
      assert Succeeds(pairs, key, keyKnown, known, trace, k + 1);
      AloneFrom(pairs, key, keyKnown, known, who, ids, k + 1);
      assert ids[k..][1..] == ids[k + 1..];
    }
  }
}
