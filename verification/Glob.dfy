/** Shell-style globs (`glob_match`, `glob_helper`): `*` is any run of characters, `?` any single
    character, everything else itself, anchored at both ends. */
module Glob {

  /** The matcher's recursion, as a function the rest of the model can mention. */
  predicate Matches(p: string, s: string)
    decreases |p|
  {
    if p == "" then s == ""
    else if p[0] == '*' then exists k :: 0 <= k <= |s| && Matches(p[1..], s[k..])
    else s != "" && (p[0] == '?' || s[0] == p[0]) && Matches(p[1..], s[1..])
  }

  /** The backtracking search itself, with its index arithmetic and its loop over split points. */
  method GlobHelper(p: string, pi: nat, t: string, ti: nat) returns (matched: bool)
    requires pi <= |p| && ti <= |t|
    ensures matched == Matches(p[pi..], t[ti..])
    decreases |p| - pi
  {
    if pi == |p| { return ti == |t|; }
    assert p[pi..][1..] == p[pi + 1..];
    if p[pi] == '*' {
      for k := ti to |t| + 1
        invariant forall j :: ti <= j < k ==> !Matches(p[pi + 1..], t[j..])
      {
        var here := GlobHelper(p, pi + 1, t, k);
        if here {
          assert t[ti..][k - ti..] == t[k..];
          return true;
        }
      }
      forall j | 0 <= j <= |t[ti..]| ensures !Matches(p[pi..][1..], t[ti..][j..]) {
        assert t[ti..][j..] == t[ti + j..];
      }
      return false;
    }
    if ti == |t| || (p[pi] != '?' && t[ti] != p[pi]) { return false; }
    assert t[ti..][1..] == t[ti + 1..];
    matched := GlobHelper(p, pi + 1, t, ti + 1);
  }

  method GlobMatch(pat: string, s: string) returns (matched: bool)
    ensures matched == Matches(pat, s)
  {
    matched := GlobHelper(pat, 0, s, 0);
    assert pat[0..] == pat && s[0..] == s;
  }

  // ---- Declarative meaning ----------------------------------------------------------------

  ghost predicate Fits(c: char, piece: string) {
    c == '*' || (if c == '?' then |piece| == 1 else piece == [c])
  }

  function Joined(pieces: seq<string>): string {
    if pieces == [] then "" else pieces[0] + Joined(pieces[1..])
  }

  ghost predicate Cut(p: string, s: string, pieces: seq<string>) {
    |pieces| == |p| && Joined(pieces) == s && forall i :: 0 <= i < |p| ==> Fits(p[i], pieces[i])
  }

  /** A string is in the language of a pattern when it can be cut into one piece per pattern character. */
  ghost predicate Denotes(p: string, s: string) { exists pieces :: Cut(p, s, pieces) }

  lemma {:induction false} MatchGivesCut(p: string, s: string) returns (pieces: seq<string>)
    requires Matches(p, s)
    ensures Cut(p, s, pieces)
    decreases |p|
  {
    if p == "" { return []; }
    var k := 1;
    if p[0] == '*' { k :| 0 <= k <= |s| && Matches(p[1..], s[k..]); }
    var rest := MatchGivesCut(p[1..], s[k..]);
    pieces := [s[..k]] + rest;
    assert s == s[..k] + s[k..];
  }

  lemma {:induction false} CutGivesMatch(p: string, s: string, pieces: seq<string>)
    requires Cut(p, s, pieces)
    ensures Matches(p, s)
    decreases |p|
  {
    if p != "" {
      var head, rest := pieces[0], Joined(pieces[1..]);
      assert s == head + rest && s[|head|..] == rest;
      assert Fits(p[0], head);
      forall i | 0 <= i < |p[1..]| ensures Fits(p[1..][i], pieces[1..][i]) {
        assert Fits(p[i + 1], pieces[i + 1]);
      }
      CutGivesMatch(p[1..], rest, pieces[1..]);
    }
  }

  /** The backtracking matcher decides exactly the language of the pattern. */
  lemma MatchesIsMeaning(p: string, s: string)
    ensures Matches(p, s) <==> Denotes(p, s)
  {
    if Matches(p, s) { var pieces := MatchGivesCut(p, s); }
    if Denotes(p, s) {
      var pieces :| Cut(p, s, pieces);
      CutGivesMatch(p, s, pieces);
    }
  }

  // ---- Concatenation ----------------------------------------------------------------------

  lemma {:induction false} JoinParts(p: string, q: string, a: string, b: string)
    requires Matches(p, a) && Matches(q, b)
    ensures Matches(p + q, a + b)
    decreases |p|
  {
    if p == "" {
      assert p + q == q && a + b == b;
    } else {
      assert (p + q)[1..] == p[1..] + q;
      var k := 1;
      if p[0] == '*' { k :| 0 <= k <= |a| && Matches(p[1..], a[k..]); }
      assert (a + b)[k..] == a[k..] + b;
      JoinParts(p[1..], q, a[k..], b);
    }
  }

  lemma {:induction false} SplitMatch(p: string, q: string, s: string) returns (k: nat)
    requires Matches(p + q, s)
    ensures k <= |s| && Matches(p, s[..k]) && Matches(q, s[k..])
    decreases |p|
  {
    if p == "" {
      assert p + q == q && s[0..] == s;
      return 0;
    }
    assert (p + q)[1..] == p[1..] + q;
    var j := 1;
    if p[0] == '*' { j :| 0 <= j <= |s| && Matches((p + q)[1..], s[j..]); }
    var k' := SplitMatch(p[1..], q, s[j..]);
    k := j + k';
    assert s[..k][j..] == s[j..][..k'] && s[k..] == s[j..][k'..];
  }

  /** The string splits at `k` into a part for either pattern. */
  predicate SplitsAt(p: string, q: string, s: string, k: nat) {
    k <= |s| && Matches(p, s[..k]) && Matches(q, s[k..])
  }

  lemma SplitsJoin(p: string, q: string, s: string, k: nat)
    requires SplitsAt(p, q, s, k)
    ensures Matches(p + q, s)
  {
    hide Matches;
    JoinParts(p, q, s[..k], s[k..]);
    assert s[..k] + s[k..] == s;
  }

  /** A concatenated pattern matches exactly the strings that split into two matching parts. */
  lemma ConcatenationSplits(p: string, q: string, s: string)
    ensures Matches(p + q, s) <==> exists k: nat :: SplitsAt(p, q, s, k)
  {
    hide Matches;
    if Matches(p + q, s) {
      var k := SplitMatch(p, q, s);
      assert SplitsAt(p, q, s, k);
    }
    if k: nat :| SplitsAt(p, q, s, k) { SplitsJoin(p, q, s, k); }
  }

  predicate Plain(c: string) { '*' !in c && '?' !in c }

  lemma {:induction false} PlainMatchesItself(c: string, s: string)
    requires Plain(c)
    ensures Matches(c, s) <==> s == c
  {
    if c != "" && s != "" {
      PlainMatchesItself(c[1..], s[1..]);
      assert c == [c[0]] + c[1..] && s == [s[0]] + s[1..];
    }
  }

  lemma StarMatchesAll(s: string)
    ensures Matches("*", s)
  {
    assert Matches("*"[1..], s[|s|..]);
  }

  /** A wildcard-free text followed by a star matches exactly what the text is a prefix of, ... */
  lemma PrefixPattern(prefix: string, s: string)
    requires Plain(prefix)
    ensures Matches(prefix + "*", s) <==> prefix <= s
  {
    hide Matches;
    ConcatenationSplits(prefix, "*", s);
    if k: nat :| SplitsAt(prefix, "*", s, k) { PlainMatchesItself(prefix, s[..k]); }
    if prefix <= s {
      PlainMatchesItself(prefix, s[..|prefix|]);
      StarMatchesAll(s[|prefix|..]);
      assert SplitsAt(prefix, "*", s, |prefix|);
    }
  }

  // ... so the class pattern "<name>/*" selects exactly the repositories under "<name>/".
  lemma ClassPattern(name: string, repo: string)
    requires Plain(name)
    ensures Matches(name + "/*", repo) <==> name + "/" <= repo
  {
    assert name + "/*" == name + "/" + "*";
    PrefixPattern(name + "/", repo);
  }
}
