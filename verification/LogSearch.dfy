/** Searching the run log: the LIKE predicate of section 8.5 of ISO/IEC 9075-2 in SQLite's
    case-insensitive form, and the escaping that makes a search text mean itself. */
module LogSearch {
  import opened RunLog

  const ESCAPE := '\\'

  function Fold(c: char): char {
    if 'A' <= c <= 'Z' then (c as int - 'A' as int + 'a' as int) as char else c
  }

  // LIKE with ESCAPE '\': % stands for any run of characters, _ for one, and an escape takes the
  // next pattern character literally. An escape with nothing after it matches nothing.
  predicate Like(p: string, s: string)
    decreases |p| + |s|
  {
    if p == "" then s == ""
    else if p[0] == '%' then Like(p[1..], s) || (s != "" && Like(p, s[1..]))
    else if s == "" then false
    else if p[0] == '_' then Like(p[1..], s[1..])
    else if p[0] == ESCAPE then |p| >= 2 && Fold(p[1]) == Fold(s[0]) && Like(p[2..], s[1..])
    else Fold(p[0]) == Fold(s[0]) && Like(p[1..], s[1..])
  }

  predicate IsSpecial(c: char) { c == ESCAPE || c == '%' || c == '_' }

  // One pass over the text: each special character gets an escape of its own.
  function Escape(q: string): string {
    if q == "" then ""
    else (if IsSpecial(q[0]) then [ESCAPE, q[0]] else [q[0]]) + Escape(q[1..])
  }

  // Case-insensitive equality over ASCII.
  predicate Equal(a: string, b: string) {
    |a| == |b| && forall i :: 0 <= i < |a| ==> Fold(a[i]) == Fold(b[i])
  }

  predicate StartsWith(s: string, q: string) {
    |q| <= |s| && Equal(s[..|q|], q)
  }

  predicate Contains(s: string, q: string) {
    exists i :: 0 <= i <= |s| && StartsWith(s[i..], q)
  }

  lemma {:induction false} PercentMatchesAll(s: string)
    ensures Like("%", s)
  {
    if s != "" { PercentMatchesAll(s[1..]); }
  }

  lemma StartsWithStep(s: string, q: string)
    requires s != "" && q != ""
    ensures StartsWith(s, q) <==> Fold(s[0]) == Fold(q[0]) && StartsWith(s[1..], q[1..])
  {
    if StartsWith(s, q) {
      assert forall i :: 0 <= i < |q| - 1 ==> s[1..][..|q| - 1][i] == s[..|q|][i + 1] && q[1..][i] == q[i + 1];
    }
    if Fold(s[0]) == Fold(q[0]) && StartsWith(s[1..], q[1..]) {
      forall i | 0 <= i < |q| ensures Fold(s[..|q|][i]) == Fold(q[i]) {
        if i > 0 { assert s[..|q|][i] == s[1..][..|q| - 1][i - 1] && q[i] == q[1..][i - 1]; }
      }
    }
  }

  lemma {:induction false} EscapedMeansPrefix(q: string, s: string)
    ensures Like(Escape(q) + "%", s) <==> StartsWith(s, q)
    decreases |q|
  {
    var p := Escape(q) + "%";
    if q == "" {
      assert p == "%";
      PercentMatchesAll(s);
    } else {
      if IsSpecial(q[0]) {
        assert p[2..] == Escape(q[1..]) + "%" && p[0] == ESCAPE && p[1] == q[0];
      } else {
        assert p[1..] == Escape(q[1..]) + "%" && p[0] == q[0];
      }
      if s != "" {
        EscapedMeansPrefix(q[1..], s[1..]);
        StartsWithStep(s, q);
      }
    }
  }

  lemma ContainsStep(s: string, q: string)
    ensures Contains(s, q) <==> StartsWith(s, q) || (s != "" && Contains(s[1..], q))
  {
    if Contains(s, q) && !StartsWith(s, q) {
      var i :| 0 <= i <= |s| && StartsWith(s[i..], q);
      assert s[0..] == s;
      assert s[i..] == s[1..][i - 1..];
    }
    if StartsWith(s, q) { assert s[0..] == s; }
    if s != "" && Contains(s[1..], q) {
      var i :| 0 <= i <= |s[1..]| && StartsWith(s[1..][i..], q);
      assert s[1..][i..] == s[i + 1..];
    }
  }

  // A search matches exactly the names that contain its text, whatever wildcards or escapes the
  // text holds.
  lemma {:induction false} SearchMeansContains(q: string, s: string)
    ensures Like("%" + Escape(q) + "%", s) <==> Contains(s, q)
    decreases |s|
  {
    var p := "%" + Escape(q) + "%";
    assert p[1..] == Escape(q) + "%";
    EscapedMeansPrefix(q, s);
    ContainsStep(s, q);
    if s != "" { SearchMeansContains(q, s[1..]); }
  }

  // Two characters are equal to a search exactly when they are the same, or the capital and the
  // small form of one of the letters A to Z.
  lemma FoldMeans(c: char, d: char)
    ensures Fold(c) == Fold(d)
       <==> c == d || ('A' <= c <= 'Z' && d as int == c as int + 32) || ('A' <= d <= 'Z' && c as int == d as int + 32)
  {}

  // Case does not matter, and an underscore in a search is only itself.
  lemma SomeSearches()
    ensures Contains("shop", "SHOP") && !Contains("shop", "sho_")
  {
    assert "shop"[0..] == "shop" && "shop"[..4] == "shop";
    assert Equal("shop", "SHOP");
    assert StartsWith("shop"[0..], "SHOP");
    assert !Equal("shop", "sho_") by { assert Fold("shop"[3]) != Fold("sho_"[3]); }
    forall i | 0 <= i <= 4 ensures !StartsWith("shop"[i..], "sho_") {}
  }

  // Unescaped, an underscore stands for any one character, and a percent sign for any number.
  lemma {:induction false} UnderscoresCount(n: nat, s: string)
    ensures Like(seq(n, _ => '_'), s) <==> |s| == n
    ensures Like(seq(n, _ => '_') + "%", s) <==> |s| >= n
  {
    var p := seq(n, _ => '_');
    if n == 0 {
      assert p + "%" == "%";
      PercentMatchesAll(s);
    } else {
      assert p[1..] == seq(n - 1, _ => '_') && (p + "%")[1..] == seq(n - 1, _ => '_') + "%";
      if s != "" { UnderscoresCount(n - 1, s[1..]); }
    }
  }

  // ---------- The escape itself ----------

  // No escape is left without a character to take.
  predicate WellEscaped(p: string) {
    if p == "" then true
    else if p[0] == ESCAPE then |p| >= 2 && IsSpecial(p[1]) && WellEscaped(p[2..])
    else !IsSpecial(p[0]) && WellEscaped(p[1..])
  }

  function Unescape(p: string): string
    requires WellEscaped(p)
  {
    if p == "" then ""
    else if p[0] == ESCAPE then [p[1]] + Unescape(p[2..])
    else [p[0]] + Unescape(p[1..])
  }

  lemma {:induction false} EscapeRoundTrip(q: string)
    ensures WellEscaped(Escape(q)) && Unescape(Escape(q)) == q
  {
    if q != "" {
      EscapeRoundTrip(q[1..]);
      var p := Escape(q);
      if IsSpecial(q[0]) {
        assert p[2..] == Escape(q[1..]);
      } else {
        assert p[1..] == Escape(q[1..]);
      }
    }
  }

  // ---------- The filter shared by count and list ----------

  datatype Filter = Filter(errorsOnly: bool, query: string)

  // The WHERE clause, as the list of its conditions.
  datatype Cond = StateIs(state: RunState) | NameLike(pattern: string)

  function Conds(f: Filter): seq<Cond> {
    (if f.errorsOnly then [StateIs(Error)] else [])
    + (if f.query != "" then [NameLike("%" + Escape(f.query) + "%")] else [])
  }

  predicate Holds(c: Cond, row: RunRow) {
    match c
    case StateIs(state) => row.state == state
    case NameLike(p) => Like(p, row.dbName)
  }

  predicate Selected(f: Filter, row: RunRow) {
    forall i :: 0 <= i < |Conds(f)| ==> Holds(Conds(f)[i], row)
  }

  lemma FilterMeans(f: Filter, row: RunRow)
    ensures Selected(f, row) <==> (f.errorsOnly ==> row.state == Error) && Contains(row.dbName, f.query)
  {
    SearchMeansContains(f.query, row.dbName);
    var cs := Conds(f);
    if f.errorsOnly { assert cs[0] == StateIs(Error); }
    if f.query != "" {
      assert cs[|cs| - 1] == NameLike("%" + Escape(f.query) + "%");
    } else {
      assert StartsWith(row.dbName[0..], "");
    }
  }
}
