/** Repository routing (`RepoRouter`): an ordered list of glob rules, longest matching pattern wins,
    earlier rule wins among equally long ones. */
module Routing {
  import opened Content
  import opened Volumes
  import opened Backends
  import Glob

  datatype Rule = Rule(pattern: string, backend: Backend)

  // ---- What resolution means --------------------------------------------------------------

  /** Rule `i` is the first of the longest rules matching `repo`. */
  ghost predicate Wins(rules: seq<Rule>, repo: string, i: nat) {
    && i < |rules| && Glob.Matches(rules[i].pattern, repo)
    && forall j :: 0 <= j < |rules| && Glob.Matches(rules[j].pattern, repo) ==>
         ByteLen(rules[j].pattern) <= ByteLen(rules[i].pattern)
         && (j < i ==> ByteLen(rules[j].pattern) < ByteLen(rules[i].pattern))
  }

  ghost predicate Unmatched(rules: seq<Rule>, repo: string) {
    forall j :: 0 <= j < |rules| ==> !Glob.Matches(rules[j].pattern, repo)
  }

  /** The winner among the first `n` rules. */
  function Best(rules: seq<Rule>, repo: string, n: nat): (best: Option<nat>)
    requires n <= |rules|
    ensures best.Some? ==> best.value < n
  {
    if n == 0 then None else
    var best := Best(rules, repo, n - 1);
    if Glob.Matches(rules[n - 1].pattern, repo)
       && (best.None? || ByteLen(rules[n - 1].pattern) > ByteLen(rules[best.value].pattern))
    then Some(n - 1) else best
  }

  lemma {:induction false} BestWins(rules: seq<Rule>, repo: string, n: nat)
    requires n <= |rules|
    ensures match Best(rules, repo, n)
            case Some(i) => Wins(rules[..n], repo, i)
            case None => Unmatched(rules[..n], repo)
  {
    hide Glob.Matches, ByteLen;
    if n > 0 {
      BestWins(rules, repo, n - 1);
      assert rules[..n] == rules[..n - 1] + [rules[n - 1]];
    }
  }

  /** Where operations on `repo` go; without any match, to the last rule. */
  function Route(rules: seq<Rule>, repo: string): Backend
    requires rules != []
  {
    var best := Best(rules, repo, |rules|);
    rules[if best.Some? then best.value else |rules| - 1].backend
  }

  /** `Route` is determined by the declarative reading: first longest match, else the last rule. */
  lemma RouteIsFirstLongestMatch(rules: seq<Rule>, repo: string, i: nat)
    requires rules != []
    ensures Wins(rules, repo, i) <==> Best(rules, repo, |rules|) == Some(i)
    ensures Wins(rules, repo, i) ==> Route(rules, repo) == rules[i].backend
    ensures Unmatched(rules, repo) <==> Best(rules, repo, |rules|).None?
    ensures Unmatched(rules, repo) ==> Route(rules, repo) == rules[|rules| - 1].backend
  {
    BestWins(rules, repo, |rules|);
    assert rules[..|rules|] == rules;
    hide Best;
    match Best(rules, repo, |rules|)
    case Some(k) => assert Glob.Matches(rules[k].pattern, repo);
    case None =>
  }

  // ---- Rule updates -----------------------------------------------------------------------

  /** Index of the first rule keyed by exactly this pattern, or the number of rules. */
  function FirstKeyed(rules: seq<Rule>, pattern: string): (i: nat)
    ensures i <= |rules| && (i < |rules| ==> rules[i].pattern == pattern)
    ensures forall j :: 0 <= j < i ==> rules[j].pattern != pattern
  {
    if rules == [] || rules[0].pattern == pattern then 0 else 1 + FirstKeyed(rules[1..], pattern)
  }

  function Upserted(rules: seq<Rule>, pattern: string, b: Backend): (r: seq<Rule>)
    ensures r != []
  {
    var i := FirstKeyed(rules, pattern);
    if i < |rules| then rules[i := Rule(pattern, b)] else rules + [Rule(pattern, b)]
  }

  function Repointed(rules: seq<Rule>, pattern: string, b: Backend): (r: seq<Rule>)
    ensures |r| == |rules|
  {
    seq(|rules|, i requires 0 <= i < |rules| => if rules[i].pattern == pattern then Rule(pattern, b) else rules[i])
  }

  /** The rules among the first `n` that are keyed by exactly this pattern. */
  function Keyed(rules: seq<Rule>, pattern: string, n: nat): set<int>
    requires n <= |rules|
  {
    set i | 0 <= i < n && rules[i].pattern == pattern
  }

  lemma NothingKeyed(rules: seq<Rule>, pattern: string)
    ensures Keyed(rules, pattern, 0) == {}
  {
  }

  lemma KeyedSnoc(rules: seq<Rule>, pattern: string, i: nat)
    requires i < |rules|
    ensures |Keyed(rules, pattern, i + 1)| == |Keyed(rules, pattern, i)| + if rules[i].pattern == pattern then 1 else 0
  {
    assert Keyed(rules, pattern, i + 1) == Keyed(rules, pattern, i) + if rules[i].pattern == pattern then {i} else {};
  }

  ghost predicate SamePatterns(rules: seq<Rule>, rules': seq<Rule>) {
    |rules| == |rules'| && forall i :: 0 <= i < |rules| ==> rules'[i].pattern == rules[i].pattern
  }

  lemma {:induction false} BestIgnoresBackends(rules: seq<Rule>, rules': seq<Rule>, repo: string, n: nat)
    requires n <= |rules| && n <= |rules'|
    requires forall i :: 0 <= i < n ==> rules'[i].pattern == rules[i].pattern
    ensures Best(rules', repo, n) == Best(rules, repo, n)
  {
    if n > 0 { BestIgnoresBackends(rules, rules', repo, n - 1); }
  }

  /** Swapping the backend of an existing rule moves exactly the repositories that rule wins (its first
      occurrence), plus the unmatched ones when it is the last rule. Everything else stays put. */
  lemma UpsertExistingFrame(rules: seq<Rule>, pattern: string, b: Backend, repo: string)
    requires FirstKeyed(rules, pattern) < |rules|
    ensures SamePatterns(rules, Upserted(rules, pattern, b))
    ensures var i := FirstKeyed(rules, pattern);
            Route(Upserted(rules, pattern, b), repo) ==
              if Wins(rules, repo, i) || (Unmatched(rules, repo) && i == |rules| - 1) then b else Route(rules, repo)
  {
    var i := FirstKeyed(rules, pattern);
    RouteIsFirstLongestMatch(rules, repo, i);
    BestIgnoresBackends(rules, Upserted(rules, pattern, b), repo, |rules|);
    match Best(rules, repo, |rules|)
    case Some(k) => RouteIsFirstLongestMatch(rules, repo, k);
    case None =>
  }

  /** An appended rule captures exactly the repositories it matches with a strictly longer pattern than
      their winner, and every repository nothing matched before, matched by it or not. */
  lemma UpsertAppendFrame(rules: seq<Rule>, pattern: string, b: Backend, repo: string, i: nat)
    requires rules != [] && FirstKeyed(rules, pattern) == |rules|
    ensures Wins(rules, repo, i) ==>
              Route(Upserted(rules, pattern, b), repo) ==
                if Glob.Matches(pattern, repo) && ByteLen(pattern) > ByteLen(rules[i].pattern) then b
                   else Route(rules, repo)
    ensures Unmatched(rules, repo) ==> Route(Upserted(rules, pattern, b), repo) == b
  {
    hide Wins, Unmatched, Glob.Matches, ByteLen;
    BestOfAppended(rules, Rule(pattern, b), repo);
    RouteIsFirstLongestMatch(rules, repo, i);
  }

  lemma BestOfAppended(rules: seq<Rule>, rule: Rule, repo: string)
    ensures var best, all := Best(rules, repo, |rules|), rules + [rule];
            Best(all, repo, |all|) ==
              if Glob.Matches(rule.pattern, repo)
                 && (best.None? || ByteLen(rule.pattern) > ByteLen(rules[best.value].pattern))
              then Some(|rules|) else best
  {
    hide Glob.Matches, ByteLen;
    BestIgnoresBackends(rules, rules + [rule], repo, |rules|);
  }

  /** With duplicate patterns `upsert` changes one rule and `repoint` all of them, yet every matched
      repository is routed the same by both. */
  lemma UpsertAgreesWithRepoint(rules: seq<Rule>, pattern: string, b: Backend, repo: string)
    requires FirstKeyed(rules, pattern) < |rules| && !Unmatched(rules, repo)
    ensures Route(Upserted(rules, pattern, b), repo) == Route(Repointed(rules, pattern, b), repo)
  {
    var up, re := Upserted(rules, pattern, b), Repointed(rules, pattern, b);
    BestIgnoresBackends(rules, up, repo, |rules|);
    BestIgnoresBackends(rules, re, repo, |rules|);
    RouteIsFirstLongestMatch(rules, repo, 0);
    var k := Best(rules, repo, |rules|).value;
    RouteIsFirstLongestMatch(rules, repo, k);
    RouteIsFirstLongestMatch(up, repo, k);
    RouteIsFirstLongestMatch(re, repo, k);
  }

  /** Exactly when replacing a rule is the same as `repoint`: always for a repository some rule matches;
      for an unmatched one unless the last rule is a later duplicate that only `repoint` reaches. */
  lemma UpsertIsRepointIff(rules: seq<Rule>, pattern: string, b: Backend, repo: string)
    requires FirstKeyed(rules, pattern) < |rules|
    ensures Route(Upserted(rules, pattern, b), repo) == Route(Repointed(rules, pattern, b), repo) <==>
              || !Unmatched(rules, repo)
              || rules[|rules| - 1].pattern != pattern
              || FirstKeyed(rules, pattern) == |rules| - 1
              || rules[|rules| - 1].backend == b
  {
    hide Wins, Unmatched, Best, Glob.Matches, ByteLen;
    if Unmatched(rules, repo) {
      var up, re := Upserted(rules, pattern, b), Repointed(rules, pattern, b);
      BestIgnoresBackends(rules, up, repo, |rules|);
      BestIgnoresBackends(rules, re, repo, |rules|);
      RouteIsFirstLongestMatch(rules, repo, 0);
    } else {
      UpsertAgreesWithRepoint(rules, pattern, b, repo);
    }
  }

  /** Updating a rule in place leaves it the first one with its pattern, ... */
  lemma KeyStays(rules: seq<Rule>, pattern: string, b: Backend)
    requires FirstKeyed(rules, pattern) < |rules|
    ensures FirstKeyed(Upserted(rules, pattern, b), pattern) == FirstKeyed(rules, pattern)
  {
    var i, mid := FirstKeyed(rules, pattern), Upserted(rules, pattern, b);
    assert mid[i].pattern == pattern && forall j :: 0 <= j < i ==> mid[j].pattern != pattern;
    assert FirstKeyed(mid, pattern) == i;
  }

  // ... so a second update replaces what the first one put in.
  lemma UpsertTwice(rules: seq<Rule>, pattern: string, a: Backend, b: Backend)
    requires FirstKeyed(rules, pattern) < |rules|
    ensures Upserted(Upserted(rules, pattern, a), pattern, b) == Upserted(rules, pattern, b)
  {
    KeyStays(rules, pattern, a);
  }

  // ---- The router object ------------------------------------------------------------------

  predicate AllValid(rules: seq<Rule>) { forall i :: 0 <= i < |rules| ==> Valid(rules[i].backend) }

  lemma RouteValid(rules: seq<Rule>, repo: string)
    requires rules != [] && AllValid(rules)
    ensures Valid(Route(rules, repo))
  {
  }

  class RepoRouter {
    var rules: seq<Rule>

    ghost predicate Ready()
      reads this
    {
      rules != [] && AllValid(rules)
    }

    constructor (rules: seq<Rule>)
      requires rules != [] && AllValid(rules)
      ensures Ready() && this.rules == rules
    {
      this.rules := rules;
    }

    /** The scan keeps the best rule so far; its answer is the first longest match. */
    method Resolve(repo: string) returns (b: Backend)
      requires Ready()
      ensures b == Route(rules, repo) && Valid(b)
    {
      var best: Option<(nat, nat)> := None;
      for i := 0 to |rules|
        invariant best.Some? ==> best.value.1 < i && best.value.0 == ByteLen(rules[best.value.1].pattern)
        invariant Best(rules, repo, i) == (if best.Some? then Some(best.value.1) else None)
      {
        var here := Glob.GlobMatch(rules[i].pattern, repo);
        if here && (best.None? || ByteLen(rules[i].pattern) > best.value.0) {
          best := Some((ByteLen(rules[i].pattern), i));
        }
      }
      b := if best.Some? then rules[best.value.1].backend else rules[|rules| - 1].backend;
    }

    method BackendForPattern(pattern: string) returns (b: Option<Backend>)
      requires Ready()
      ensures b == if FirstKeyed(rules, pattern) < |rules| then Some(rules[FirstKeyed(rules, pattern)].backend)
              else None
      ensures b.Some? ==> Valid(b.value)
    {
      for i := 0 to |rules|
        invariant forall j :: 0 <= j < i ==> rules[j].pattern != pattern
      {
        if rules[i].pattern == pattern {
          assert FirstKeyed(rules, pattern) == i;
          return Some(rules[i].backend);
        }
      }
      b := None;
    }

    /** Every rule keyed by the pattern is swapped, and the answer counts them. */
    method Repoint(pattern: string, backend: Backend) returns (updated: nat)
      requires Ready() && Valid(backend)
      modifies this
      ensures Ready() && rules == Repointed(old(rules), pattern, backend)
      ensures updated == |Keyed(old(rules), pattern, |old(rules)|)|
    {
      hide Keyed;
      updated := 0;
      ghost var start := rules;
      NothingKeyed(start, pattern);
      for i := 0 to |rules|
        invariant |rules| == |start| && AllValid(rules)
        invariant forall j :: 0 <= j < |start| ==>
                    rules[j] == if j < i then Repointed(start, pattern, backend)[j] else start[j]
        invariant updated == |Keyed(start, pattern, i)|
      {
        KeyedSnoc(start, pattern, i);
        if rules[i].pattern == pattern {
          rules := rules[i := Rule(pattern, backend)];
          updated := updated + 1;
        }
      }
      assert rules == Repointed(start, pattern, backend);
    }

    method Upsert(pattern: string, backend: Backend) returns (added: bool)
      requires Ready() && Valid(backend)
      modifies this
      ensures Ready() && rules == Upserted(old(rules), pattern, backend)
      ensures added <==> FirstKeyed(old(rules), pattern) == |old(rules)|
    {
      for i := 0 to |rules|
        invariant rules == old(rules) && forall j :: 0 <= j < i ==> rules[j].pattern != pattern
      {
        if rules[i].pattern == pattern {
          assert FirstKeyed(rules, pattern) == i;
          rules := rules[i := Rule(pattern, backend)];
          return false;
        }
      }
      rules := rules + [Rule(pattern, backend)];
      added := true;
    }

    /** One entry per distinct backend, in order of first appearance. */
    method DistinctBackends() returns (out: seq<Backend>)
      requires Ready()
      ensures forall b :: b in out <==> exists i :: 0 <= i < |rules| && rules[i].backend == b
      ensures forall i, j :: 0 <= i < j < |out| ==> out[i] != out[j]
    {
      out := [];
      for i := 0 to |rules|
        invariant forall b :: b in out <==> exists j :: 0 <= j < i && rules[j].backend == b
        invariant forall j, k :: 0 <= j < k < |out| ==> out[j] != out[k]
      {
        if rules[i].backend !in out { out := out + [rules[i].backend]; }
      }
    }
  }
}
