/** Pagination of the catalog and of tag lists (`catalog`, `tags_list`), and the query text through which
    a client comes back for the next page (`url_form_pairs`, `url_decode`).

    "Listing Tags" of the OCI Distribution Specification v1.1. Names are visible ASCII; strings are
    ordered byte by byte. */
module Pages {
  import opened Content
  import opened Volumes

  // ---- Order ------------------------------------------------------------------------------

  predicate Less(a: string, b: string) {
    b != "" && (a == "" || a[0] < b[0] || (a[0] == b[0] && Less(a[1..], b[1..])))
  }

  lemma {:induction false} LessOneWay(a: string, b: string)
    requires Less(a, b)
    ensures !Less(b, a)
  {
    if a != "" && a[0] == b[0] { LessOneWay(a[1..], b[1..]); }
  }

  lemma {:induction false} LessNotSelf(a: string)
    ensures !Less(a, a)
  {
    if a != "" { LessNotSelf(a[1..]); }
  }

  ghost predicate Sorted(list: seq<string>) { forall i, j :: 0 <= i < j < |list| ==> Less(list[i], list[j]) }

  // ---- One page ---------------------------------------------------------------------------

  /** The entries strictly after `last`. */
  function After(list: seq<string>, last: Option<string>): seq<string> {
    if list == [] then []
    else (if last.None? || Less(last.value, list[0]) then [list[0]] else []) + After(list[1..], last)
  }

  function PageOf(list: seq<string>, n: Option<nat>, last: Option<string>): seq<string> {
    var rest := After(list, last);
    if n.Some? && |rest| > n.value then rest[..n.value] else rest
  }

  /** The query of the next-page link: present when entries were cut off and the page is not empty. */
  function LinkOf(list: seq<string>, n: Option<nat>, last: Option<string>): Option<string> {
    var page := PageOf(list, n, last);
    if n.Some? && |After(list, last)| > n.value && page != [] then Some(Query(n.value, page[|page| - 1])) else None
  }

  /** The page as the handlers compute it, filtering and truncating one vector. */
  method Serve(list: seq<string>, n: Option<nat>, last: Option<string>)
    returns (page: seq<string>, link: Option<string>)
    ensures page == PageOf(list, n, last) && link == LinkOf(list, n, last)
  {
    hide After, Query;
    page := list;
    AfterNone(list);
    if last.Some? { page := Retain(list, last.value); }
    var truncated := false;
    if n.Some? {
      truncated := |page| > n.value;
      if truncated { page := page[..n.value]; }
    }
    link := None;
    if truncated && page != [] { link := Some(Query(n.value, page[|page| - 1])); }
  }

  method Retain(list: seq<string>, after: string) returns (kept: seq<string>)
    ensures kept == After(list, Some(after))
  {
    hide Less;
    kept := [];
    for i := 0 to |list|
      invariant kept + After(list[i..], Some(after)) == After(list, Some(after))
    {
      ghost var was := kept;
      assert list[i..][1..] == list[i + 1..];
      if Less(after, list[i]) { kept := kept + [list[i]]; }
      assert kept + After(list[i + 1..], Some(after)) == was + After(list[i..], Some(after));
    }
  }

  lemma {:induction false} AfterNone(list: seq<string>)
    ensures After(list, None) == list
  {
    if list != [] { AfterNone(list[1..]); }
  }

  /** `tags_list`: a repository without tags is not found unless it is listed; otherwise a page. */
  method TagsList(tags: seq<string>, repos: set<string>, repo: string, n: Option<nat>, last: Option<string>)
    returns (r: Result<seq<string>>, link: Option<string>)
    ensures r.NotFound? <==> tags == [] && repo !in repos
    ensures !r.NotFound? ==> r == Ok(PageOf(tags, n, last)) && link == LinkOf(tags, n, last)
  {
    if tags == [] && repo !in repos { return NotFound, None; }
    var page;
    page, link := Serve(tags, n, last);
    r := Ok(page);
  }

  // ---- The query of a link ----------------------------------------------------------------

  function Digits(n: nat): string {
    if n < 10 then [('0' as int + n) as char] else Digits(n / 10) + [('0' as int + n % 10) as char]
  }

  predicate IsDigit(c: char) { '0' <= c <= '9' }

  function Value(s: string): nat
    requires forall i :: 0 <= i < |s| ==> IsDigit(s[i])
  {
    if s == "" then 0 else
    assert IsDigit(s[|s| - 1]);
    10 * Value(s[..|s| - 1]) + (s[|s| - 1] as int - '0' as int)
  }

  const USIZE := 0x1_0000_0000_0000_0000

  /** Rust's `parse` of an unsigned number: decimal digits after an optional plus sign, in range. */
  function ParseNumber(s: string): Option<nat> {
    var t := if s != "" && s[0] == '+' then s[1..] else s;
    if t != "" && (forall i :: 0 <= i < |t| ==> IsDigit(t[i])) && Value(t) < USIZE then Some(Value(t)) else None
  }

  lemma {:induction false} DigitsRoundTrip(n: nat)
    ensures Digits(n) != "" && forall i :: 0 <= i < |Digits(n)| ==> IsDigit(Digits(n)[i])
    ensures Value(Digits(n)) == n
  {
    if n >= 10 {
      DigitsRoundTrip(n / 10);
      var s := Digits(n);
      assert s[..|s| - 1] == Digits(n / 10);
    }
  }

  function Query(n: nat, name: string): string { "n=" + Digits(n) + "&last=" + name }

  // ---- Reading a query --------------------------------------------------------------------

  function HexNibble(c: char): Option<int> {
    if '0' <= c <= '9' then Some(c as int - '0' as int)
    else if 'a' <= c <= 'f' then Some(c as int - 'a' as int + 10)
    else if 'A' <= c <= 'F' then Some(c as int - 'A' as int + 10)
    else None
  }

  /** An escape sequence at position `i`. */
  predicate EscapeAt(s: string, i: nat) {
    i + 2 < |s| && s[i] == '%' && HexNibble(s[i + 1]).Some? && HexNibble(s[i + 2]).Some?
  }

  function Unescaped(s: string, i: nat): char
    requires EscapeAt(s, i)
  {
    (16 * HexNibble(s[i + 1]).value + HexNibble(s[i + 2]).value) as char
  }

  function UrlDecode(s: string): string {
    if s == "" then ""
    else if s[0] == '+' then " " + UrlDecode(s[1..])
    else if EscapeAt(s, 0) then [Unescaped(s, 0)] + UrlDecode(s[3..])
    else [s[0]] + UrlDecode(s[1..])
  }

  lemma DecodeStep(s: string, i: nat)
    requires i < |s|
    ensures UrlDecode(s[i..]) == if s[i] == '+' then " " + UrlDecode(s[i + 1..])
                                 else if EscapeAt(s, i) then [Unescaped(s, i)] + UrlDecode(s[i + 3..])
                                 else [s[i]] + UrlDecode(s[i + 1..])
  {
    var t := s[i..];
    assert t[1..] == s[i + 1..];
    assert |t| > 2 ==> t[1] == s[i + 1] && t[2] == s[i + 2] && t[3..] == s[i + 3..];
  }

  /** `url_decode`: the scan over the buffer. */
  method DecodeLoop(s: string) returns (out: string)
    ensures out == UrlDecode(s)
  {
    hide UrlDecode;
    out := "";
    var i := 0;
    assert s[0..] == s;
    while i < |s|
      invariant i <= |s| && out + UrlDecode(s[i..]) == UrlDecode(s)
    {
      var step, c := 1, s[i];
      if s[i] == '+' {
        c := ' ';
      } else if EscapeAt(s, i) {
        step, c := 3, Unescaped(s, i);
      }
      DecodeStep(s, i);
      assert out + ([c] + UrlDecode(s[i + step..])) == out + [c] + UrlDecode(s[i + step..]);
      out, i := out + [c], i + step;
    }
    DecodeEnd(s, out);
  }

  lemma DecodeEnd(s: string, out: string)
    ensures out + UrlDecode(s[|s|..]) == out
  {
  }

  function KeyValue(pair: string): (string, string) {
    var j := IndexOf(pair, '=');
    if j == |pair| then (UrlDecode(pair), "") else (UrlDecode(pair[..j]), UrlDecode(pair[j + 1..]))
  }

  function FormPairs(q: string): seq<(string, string)> {
    var i := IndexOf(q, '&');
    var rest := if i == |q| then [] else FormPairs(q[i + 1..]);
    if i == 0 then rest else [KeyValue(q[..i])] + rest
  }

  /** `url_form_pairs`: the loop over the pieces between ampersands, empty pieces skipped. */
  method PairsLoop(q: string) returns (out: seq<(string, string)>)
    ensures out == FormPairs(q)
  {
    hide KeyValue, FormPairs, UrlDecode;
    out := [];
    var rest, more := q, true;
    while more
      invariant out + (if more then FormPairs(rest) else []) == FormPairs(q)
      decreases more, |rest|
    {
      ghost var was, all := out, FormPairs(rest);
      var i := IndexOf(rest, '&');
      PairsStep(rest);
      if i > 0 {
        var one := PairOf(rest[..i]);
        out := out + [one];
      }
      if i == |rest| { more := false; } else { rest := rest[i + 1..]; }
      assert out + (if more then FormPairs(rest) else []) == was + all;
    }
  }

  method PairOf(pair: string) returns (p: (string, string))
    ensures p == KeyValue(pair)
  {
    var j := IndexOf(pair, '=');
    var key := DecodeLoop(pair[..j]);
    var value := "";
    if j < |pair| { value := DecodeLoop(pair[j + 1..]); }
    KeyValueIs(pair);
    p := (key, value);
  }

  lemma PairsStep(q: string)
    ensures var i := IndexOf(q, '&');
            FormPairs(q) == (if i > 0 then [KeyValue(q[..i])] else []) + if i == |q| then [] else FormPairs(q[i + 1..])
  {
    hide KeyValue;
  }

  lemma KeyValueIs(pair: string)
    ensures var j := IndexOf(pair, '=');
            KeyValue(pair) == (UrlDecode(pair[..j]), if j < |pair| then UrlDecode(pair[j + 1..]) else "")
  {
    assert pair[..|pair|] == pair;
  }

  /** Of repeated keys the last one counts. */
  function ValueOf(pairs: seq<(string, string)>, key: string): Option<string> {
    if pairs == [] then None
    else if ValueOf(pairs[1..], key).Some? then ValueOf(pairs[1..], key)
    else if pairs[0].0 == key then Some(pairs[0].1) else None
  }

  /** The page a query asks for. */
  function Asked(q: string): (Option<nat>, Option<string>) {
    var pairs := FormPairs(q);
    var n := ValueOf(pairs, "n");
    (if n.Some? then ParseNumber(n.value) else None, ValueOf(pairs, "last"))
  }

  // ---- When a link comes back as printed --------------------------------------------------

  /** Nothing in the name means something else in a query. */
  predicate Literal(name: string) { '+' !in name && forall i: nat :: i < |name| ==> !EscapeAt(name, i) }

  lemma {:induction false} DecodeShortens(s: string)
    ensures |UrlDecode(s)| <= |s|
    decreases |s|
  {
    if s != "" {
      if s[0] != '+' && EscapeAt(s, 0) { DecodeShortens(s[3..]); } else { DecodeShortens(s[1..]); }
    }
  }

  lemma {:induction false} DecodeKeeps(s: string)
    ensures UrlDecode(s) == s <==> Literal(s)
    decreases |s|
  {
    if s != "" {
      var tail := s[1..];
      DecodeKeeps(tail);
      assert s == [s[0]] + tail;
      assert forall i: nat :: i < |tail| ==> tail[i] == s[i + 1];
      assert forall i: nat :: i < |tail| ==> (EscapeAt(tail, i) <==> EscapeAt(s, i + 1));
      if s[0] != '+' && EscapeAt(s, 0) {
        DecodeShortens(s[3..]);
      } else {
        assert Literal(s) <==> s[0] != '+' && Literal(tail) by { LiteralCons(s); }
        assert s[0] != '+' ==> UrlDecode(s) == [s[0]] + UrlDecode(tail);
        assert s[0] == '+' ==> UrlDecode(s)[0] == ' ';
        assert s[0] != '+' && UrlDecode(s) == s ==> UrlDecode(tail) == UrlDecode(s)[1..];
      }
    }
  }

  lemma LiteralCons(s: string)
    requires s != "" && !EscapeAt(s, 0)
    requires forall i: nat :: i < |s[1..]| ==> (EscapeAt(s[1..], i) <==> EscapeAt(s, i + 1))
    ensures Literal(s) <==> s[0] != '+' && Literal(s[1..])
  {
    assert s == [s[0]] + s[1..];
    if Literal(s[1..]) {
      forall i: nat | i < |s| ensures !EscapeAt(s, i) {
        if i > 0 { assert EscapeAt(s[1..], i - 1) <==> EscapeAt(s, i - 1 + 1); }
      }
    }
    if Literal(s) {
      forall i: nat | i < |s[1..]| ensures !EscapeAt(s[1..], i) { assert !EscapeAt(s, i + 1); }
    }
  }

  lemma {:induction false} ValuesAreShort(q: string, key: string)
    ensures ValueOf(FormPairs(q), key).Some? ==> |ValueOf(FormPairs(q), key).value| <= |q|
    decreases |q|
  {
    var i := IndexOf(q, '&');
    if i < |q| { ValuesAreShort(q[i + 1..], key); }
    if i > 0 {
      var pair, pairs := q[..i], FormPairs(q);
      var j := IndexOf(pair, '=');
      if j < |pair| { DecodeShortens(pair[j + 1..]); }
      assert pairs[1..] == if i == |q| then [] else FormPairs(q[i + 1..]);
    }
  }

  lemma IndexAfter(a: string, b: string, c: char)
    requires c !in a
    ensures IndexOf(a + [c] + b, c) == |a|
  {
    var s := a + [c] + b;
    assert s[|a|] == c;
    assert forall i :: 0 <= i < |a| ==> s[i] == a[i];
  }

  lemma SplitPair(key: string, text: string)
    requires '=' !in key
    ensures KeyValue(key + "=" + text) == (UrlDecode(key), UrlDecode(text))
  {
    hide UrlDecode;
    var pair := key + ['='] + text;
    IndexAfter(key, text, '=');
    assert pair == key + "=" + text;
    assert pair[..|key|] == key && pair[|key| + 1..] == text;
  }

  lemma OnePair(q: string)
    requires q != "" && '&' !in q
    ensures FormPairs(q) == [KeyValue(q)]
  {
    hide KeyValue;
    assert q[..|q|] == q;
  }

  lemma FirstPair(pair: string, rest: string)
    requires pair != "" && '&' !in pair
    ensures FormPairs(pair + "&" + rest) == [KeyValue(pair)] + FormPairs(rest)
  {
    hide KeyValue;
    var q := pair + ['&'] + rest;
    IndexAfter(pair, rest, '&');
    assert q == pair + "&" + rest;
    assert q[..|pair|] == pair && q[|pair| + 1..] == rest;
  }

  lemma LastPair(name: string)
    ensures '&' !in name ==> FormPairs("last=" + name) == [("last", UrlDecode(name))]
    ensures '&' in name ==> ValueOf(FormPairs("last=" + name), "last") != Some(name)
  {
    hide UrlDecode, FormPairs, KeyValue;
    KeysStay();
    if '&' in name {
      var i := IndexOf(name, '&');
      var head, rest := name[..i], name[i + 1..];
      assert "last=" + name == ("last=" + head) + "&" + rest;
      assert "last=" + head == "last" + "=" + head;
      FirstPair("last=" + head, rest);
      SplitPair("last", head);
      DecodeShortens(head);
      ValuesAreShort(rest, "last");
      assert FormPairs("last=" + name)[1..] == FormPairs(rest);
    } else {
      assert "last=" + name == "last" + "=" + name;
      OnePair("last=" + name);
      SplitPair("last", name);
    }
  }

  lemma KeysStay()
    ensures UrlDecode("last") == "last" && UrlDecode("n") == "n"
  {
    DecodeKeeps("last");
    DecodeKeeps("n");
  }

  lemma QueryPairs(n: nat, name: string)
    ensures FormPairs(Query(n, name)) == [("n", Digits(n))] + FormPairs("last=" + name)
  {
    hide UrlDecode, FormPairs, KeyValue, Digits;
    var d := Digits(n);
    DigitsRoundTrip(n);
    assert forall i :: 0 <= i < |d| ==> IsDigit(d[i]);
    assert Query(n, name) == ("n=" + d) + "&" + ("last=" + name);
    assert "n=" + d == "n" + "=" + d;
    FirstPair("n=" + d, "last=" + name);
    SplitPair("n", d);
    KeysStay();
    DecodeKeeps(d);
  }

  /** A link asks for what it was printed for if and only if its name reads literally in a query: no plus
      sign, no ampersand, no percent escape. */
  lemma LinkComesBackIff(n: nat, name: string)
    requires n < USIZE
    ensures Asked(Query(n, name)) == (Some(n), Some(name)) <==> Literal(name) && '&' !in name
  {
    var tail := FormPairs("last=" + name);
    var pairs := FormPairs(Query(n, name));
    QueryPairs(n, name);
    assert pairs[1..] == tail;
    LastPair(name);
    DecodeKeeps(name);
    DigitsRoundTrip(n);
    assert Digits(n)[0] != '+';
    if '&' !in name {
      assert tail[1..] == [];
      assert ValueOf(tail, "n") == None && ValueOf(tail, "last") == Some(UrlDecode(name));
    }
  }

  // ---- Following the links ----------------------------------------------------------------

  datatype Crawled = Crawled(pages: seq<seq<string>>, done: bool)

  /** What a client receives that follows at most `k` links from a first request. */
  function Crawl(list: seq<string>, n: Option<nat>, last: Option<string>, k: nat): Crawled
    decreases k
  {
    if k == 0 then Crawled([], false) else
    var page, link := PageOf(list, n, last), LinkOf(list, n, last);
    if link.None? then Crawled([page], true) else
    var (n', last') := Asked(link.value);
    var rest := Crawl(list, n', last', k - 1);
    Crawled([page] + rest.pages, rest.done)
  }

  function Flat(pages: seq<seq<string>>): seq<string> { if pages == [] then [] else pages[0] + Flat(pages[1..]) }

  function PageCount(len: nat, n: nat): nat
    requires n >= 1
  {
    if len <= n then 1 else 1 + PageCount(len - n, n)
  }

  /** `PageCount` is max(1, ceil(len / n)). */
  lemma {:induction false} PageCountIsCeiling(len: nat, n: nat)
    requires n >= 1
    ensures var p := PageCount(len, n); p >= 1 && len <= p * n && (p > 1 ==> (p - 1) * n < len)
    decreases len
  {
    if len > n {
      PageCountIsCeiling(len - n, n);
      var p := PageCount(len - n, n);
      assert (1 + p) * n == n + p * n;
      assert p * n == n + (p - 1) * n;
    }
  }

  lemma {:induction false} AfterEntry(list: seq<string>, i: nat, from: nat)
    requires Sorted(list) && i < |list| && from <= |list|
    ensures After(list[from..], Some(list[i])) == list[if from <= i then i + 1 else from..]
    decreases |list| - from
  {
    if from < |list| {
      AfterEntry(list, i, from + 1);
      assert list[from..][1..] == list[from + 1..];
      LessNotSelf(list[i]);
      if from < i { LessOneWay(list[from], list[i]); }
    }
  }

  /** All pages but the last are full. */
  ghost predicate FullPages(pages: seq<seq<string>>, n: nat) { forall i :: 0 <= i < |pages| - 1 ==> |pages[i]| == n }

  /** What following the links is promised to deliver: every entry exactly once, in order, in
      max(1, ceil(len / n)) pages, all full but the last. */
  ghost predicate VisitsOnce(c: Crawled, list: seq<string>, n: nat)
    requires n >= 1
  {
    c.done && Flat(c.pages) == list && |c.pages| == PageCount(|list|, n) && FullPages(c.pages, n)
  }

  function Chunks(list: seq<string>, n: nat): seq<seq<string>>
    requires n >= 1
  {
    if |list| <= n then [list] else [list[..n]] + Chunks(list[n..], n)
  }

  lemma {:induction false} ChunksVisit(list: seq<string>, n: nat)
    requires n >= 1
    ensures VisitsOnce(Crawled(Chunks(list, n), true), list, n)
    decreases |list|
  {
    if |list| <= n {
      FlatCons(list, []);
    } else {
      ChunksVisit(list[n..], n);
      FlatCons(list[..n], Chunks(list[n..], n));
      FullCons(list[..n], Chunks(list[n..], n), n);
    }
  }

  /** The promise determines the pages. */
  lemma {:induction false} VisitedIsChunks(pages: seq<seq<string>>, list: seq<string>, n: nat)
    requires n >= 1 && Flat(pages) == list && |pages| == PageCount(|list|, n) && FullPages(pages, n)
    ensures pages == Chunks(list, n)
    decreases |list|
  {
    assert pages == [pages[0]] + pages[1..];
    assert list == pages[0] + Flat(pages[1..]);
    if |list| <= n {
      assert pages[1..] == [] && Flat([]) == [];
      assert pages == [pages[0]] && pages[0] == list;
    } else {
      assert |pages[0]| == n && list[..n] == pages[0] && list[n..] == Flat(pages[1..]);
      assert FullPages(pages[1..], n);
      VisitedIsChunks(pages[1..], list[n..], n);
    }
  }

  /** The link printed at the end of the page before position `j` leads to the page that starts there. */
  ghost predicate Resumes(list: seq<string>, n: nat, j: nat)
    requires 0 < j < |list|
  {
    var (n', last') := Asked(Query(n, list[j - 1]));
    && After(list, last') == list[j..]
    && (n' == Some(n) || (|list| - j <= n && (n'.None? || |list| - j <= n'.value)))
  }

  ghost predicate AllResume(list: seq<string>, n: nat, i: nat)
    requires n >= 1 && i <= |list|
    decreases |list| - i
  {
    |list| - i > n ==> Resumes(list, n, i + n) && AllResume(list, n, i + n)
  }

  lemma {:induction false} AfterIsSuffix(list: seq<string>, last: Option<string>) returns (m: nat)
    requires Sorted(list)
    ensures m <= |list| && After(list, last) == list[m..]
    ensures last.Some? ==> forall i :: 0 <= i < |list| ==> (Less(last.value, list[i]) <==> m <= i)
  {
    if list == [] || last.None? {
      AfterNone(list);
      return 0;
    }
    var rest := list[1..];
    assert forall i :: 0 <= i < |rest| ==> rest[i] == list[i + 1];
    assert Sorted(rest);
    var k := AfterIsSuffix(rest, last);
    assert rest[k..] == list[k + 1..];
    if Less(last.value, list[0]) {
      forall i | 0 <= i < |rest| ensures Less(last.value, rest[i]) { LessTrans(last.value, list[0], list[i + 1]); }
      assert rest != [] ==> (Less(last.value, rest[0]) <==> k <= 0);
      assert list[0..] == [list[0]] + rest[k..];
      m := 0;
    } else {
      m := k + 1;
    }
  }

  lemma {:induction false} LessTrans(a: string, b: string, c: string)
    requires Less(a, b) && Less(b, c)
    ensures Less(a, c)
  {
    if a != "" && a[0] == b[0] == c[0] { LessTrans(a[1..], b[1..], c[1..]); }
  }

  /** A value asked for resumes exactly after position `j` if and only if it sorts at or after the entry
      before it and before the entry at it. */
  lemma AfterIsRestIff(list: seq<string>, x: string, j: nat)
    requires Sorted(list) && 0 < j < |list|
    ensures After(list, Some(x)) == list[j..] <==> !Less(x, list[j - 1]) && Less(x, list[j])
  {
    var m := AfterIsSuffix(list, Some(x));
    hide After, Less, Sorted;
    assert m == j <==> !Less(x, list[j - 1]) && Less(x, list[j]);
    assert list[m..] == list[j..] ==> |list[m..]| == |list[j..]|;
  }

  lemma LiteralResumes(list: seq<string>, n: nat, j: nat)
    requires Sorted(list) && n < USIZE && 0 < j < |list| && Literal(list[j - 1]) && '&' !in list[j - 1]
    ensures Resumes(list, n, j)
  {
    hide Asked, Query, Less;
    LinkComesBackIff(n, list[j - 1]);
    AfterEntry(list, j - 1, 0);
    assert list[0..] == list;
  }

  lemma CrawlStep(list: seq<string>, n: Option<nat>, last: Option<string>, k: nat, n': Option<nat>,
                  last': Option<string>)
    requires k > 0 && LinkOf(list, n, last).Some? && Asked(LinkOf(list, n, last).value) == (n', last')
    ensures var rest := Crawl(list, n', last', k - 1);
            Crawl(list, n, last, k) == Crawled([PageOf(list, n, last)] + rest.pages, rest.done)
  {
    hide Asked, LinkOf, PageOf;
  }

  lemma CrawlEnd(list: seq<string>, n: Option<nat>, last: Option<string>, k: nat)
    requires k > 0
    ensures LinkOf(list, n, last).None? ==> Crawl(list, n, last, k) == Crawled([PageOf(list, n, last)], true)
    ensures Crawl(list, n, last, k).pages != [] && Crawl(list, n, last, k).pages[0] == PageOf(list, n, last)
  {
    hide Asked, LinkOf, PageOf;
  }

  /** A page that equals the page wanted was resumed where it should have been. */
  lemma WrongPage(list: seq<string>, n: nat, j: nat, n': Option<nat>, last': Option<string>)
    requires Sorted(list) && n >= 1 && 0 < j < |list| && Asked(Query(n, list[j - 1])) == (n', last')
    requires PageOf(list, n', last') == Chunks(list[j..], n)[0]
    ensures Resumes(list, n, j)
  {
    hide Asked, Query, Less, After;
    var m := AfterIsSuffix(list, last');
    var page := PageOf(list, n', last');
    assert page != [] && page[0] == list[j];
    assert page[0] == list[m];
    if m < j { Distinct(list, m, j); }
    if j < m { Distinct(list, j, m); }
  }

  lemma Distinct(list: seq<string>, i: nat, j: nat)
    requires Sorted(list) && i < j < |list|
    ensures list[i] != list[j]
  {
    LessNotSelf(list[i]);
  }

  lemma {:induction false} CrawlExact(list: seq<string>, n: nat, i: nat, last: Option<string>, k: nat)
    requires Sorted(list) && 1 <= n < USIZE && i <= |list| && After(list, last) == list[i..]
    requires k >= PageCount(|list| - i, n)
    ensures Crawl(list, Some(n), last, k) == Crawled(Chunks(list[i..], n), true) <==> AllResume(list, n, i)
    decreases k
  {
    hide Sorted, Less, Asked, Query, After, Crawl;
    if |list| - i <= n {
      CrawlEnd(list, Some(n), last, k);
    } else {
      var j := i + n;
      var (n', last') := Asked(Query(n, list[j - 1]));
      CrawlOn(list, n, i, last, k, n', last');
      RestExact(list, n, j, n', last', k - 1);
      if Resumes(list, n, j) && n' == Some(n) { CrawlExact(list, n, j, last', k - 1); }
    }
  }

  /** A crawl is right if and only if the rest of it is. */
  lemma CrawlOn(list: seq<string>, n: nat, i: nat, last: Option<string>, k: nat, n': Option<nat>, last': Option<string>)
    requires 1 <= n < USIZE && i + n < |list| && After(list, last) == list[i..] && k > 0
    requires Asked(Query(n, list[i + n - 1])) == (n', last')
    ensures Crawl(list, Some(n), last, k) == Crawled(Chunks(list[i..], n), true) <==>
              Crawl(list, n', last', k - 1) == Crawled(Chunks(list[i + n..], n), true)
  {
    hide Asked, Query, After, Crawl;
    var j := i + n;
    assert PageOf(list, Some(n), last) == list[i..j] && list[i..j][n - 1] == list[j - 1];
    CrawlStep(list, Some(n), last, k, n', last');
    assert list[i..][..n] == list[i..j] && list[i..][n..] == list[j..];
    SameTail(list[i..j], Crawl(list, n', last', k - 1).pages, Chunks(list[j..], n));
  }

  lemma SameTail(page: seq<string>, a: seq<seq<string>>, b: seq<seq<string>>)
    ensures [page] + a == [page] + b <==> a == b
  {
    assert ([page] + a)[1..] == a && ([page] + b)[1..] == b;
  }

  lemma RestExact(list: seq<string>, n: nat, j: nat, n': Option<nat>, last': Option<string>, k: nat)
    requires Sorted(list) && 1 <= n && 0 < j < |list| && k > 0 && Asked(Query(n, list[j - 1])) == (n', last')
    ensures !Resumes(list, n, j) ==> Crawl(list, n', last', k) != Crawled(Chunks(list[j..], n), true)
    ensures Resumes(list, n, j) && n' != Some(n) ==>
              Crawl(list, n', last', k) == Crawled(Chunks(list[j..], n), true) && AllResume(list, n, j)
  {
    hide Sorted, Less, Asked, Query, After, Crawl;
    CrawlEnd(list, n', last', k);
    if Crawl(list, n', last', k) == Crawled(Chunks(list[j..], n), true) { WrongPage(list, n, j, n', last'); }
  }

  lemma FlatCons(page: seq<string>, pages: seq<seq<string>>)
    ensures Flat([page] + pages) == page + Flat(pages)
  {
    assert ([page] + pages)[1..] == pages;
  }

  lemma FullCons(page: seq<string>, pages: seq<seq<string>>, n: nat)
    requires pages != [] ==> |page| == n && FullPages(pages, n)
    ensures FullPages([page] + pages, n)
  {
  }

  /** The page ends of the whole list. */
  lemma {:induction false} AllResumeIff(list: seq<string>, n: nat, i: nat, p: nat)
    requires n >= 1 && i <= |list| && i == p * n
    ensures AllResume(list, n, i) <==> forall m: nat :: p < m && m * n < |list| ==> EndResumes(list, n, m)
    decreases |list| - i
  {
    hide Resumes;
    assert (p + 1) * n == i + n;
    forall m: nat | p < m ensures m * n >= (p + 1) * n { MulMono(p + 1, m, n); }
    if |list| - i > n {
      AllResumeIff(list, n, i + n, p + 1);
      assert EndResumes(list, n, p + 1) <==> Resumes(list, n, i + n);
    }
  }

  lemma MulMono(a: nat, b: nat, n: nat)
    requires a <= b
    ensures a * n <= b * n
  {
  }

  ghost predicate EndResumes(list: seq<string>, n: nat, m: nat) { 0 < m * n < |list| ==> Resumes(list, n, m * n) }

  /** Following the links of an unchanging strictly sorted list delivers what is promised if and only if
      every link printed at a page end leads to the page after it. */
  lemma CrawlVisitsOnceIff(list: seq<string>, n: nat, k: nat)
    requires Sorted(list) && 1 <= n < USIZE && k >= PageCount(|list|, n)
    ensures VisitsOnce(Crawl(list, Some(n), None, k), list, n) <==>
              forall m: nat :: 0 < m && m * n < |list| ==> EndResumes(list, n, m)
  {
    hide Sorted, Resumes, Asked, Crawl;
    AfterNone(list);
    assert list[0..] == list;
    CrawlExact(list, n, 0, None, k);
    AllResumeIff(list, n, 0, 0);
    ChunksVisit(list, n);
    var c := Crawl(list, Some(n), None, k);
    if VisitsOnce(c, list, n) { VisitedIsChunks(c.pages, list, n); }
  }

  /** In particular when the names at the page ends, the only ones ever printed, read literally. */
  lemma CrawlVisitsEverythingOnce(list: seq<string>, n: nat, k: nat)
    requires Sorted(list) && 1 <= n < USIZE && k >= PageCount(|list|, n)
    requires forall m: nat :: 0 < m && m * n < |list| ==> LiteralAt(list, m * n - 1)
    ensures VisitsOnce(Crawl(list, Some(n), None, k), list, n)
  {
    hide Sorted, Resumes, Crawl, VisitsOnce;
    CrawlVisitsOnceIff(list, n, k);
    forall m: nat | 0 < m && m * n < |list| ensures EndResumes(list, n, m) {
      MulMono(1, m, n);
      assert LiteralAt(list, m * n - 1);
      LiteralResumes(list, n, m * n);
    }
  }

  predicate LiteralAt(list: seq<string>, i: int) { 0 <= i < |list| && Literal(list[i]) && '&' !in list[i] }

  /** Names that do not read literally can break it: a tag `a+b` at the end of a page is asked for as
      `a b`, which sorts before it, and the same page comes back for ever. */
  lemma {:induction false} PlusSignRepeatsThePage(last: Option<string>, k: nat)
    requires last == None || last == Some("a b")
    ensures var c := Crawl(["a+b", "c"], Some(1), last, k);
            !c.done && |c.pages| == k && forall i :: 0 <= i < k ==> c.pages[i] == ["a+b"]
    decreases k
  {
    hide Crawl, Asked, LinkOf, PageOf, Query;
    if k == 0 {
      CrawlNothing(["a+b", "c"], Some(1), last);
    } else {
      PlusSignPage(last);
      PlusSignAsked();
      CrawlStep(["a+b", "c"], Some(1), last, k, Some(1), Some("a b"));
      PlusSignRepeatsThePage(Some("a b"), k - 1);
    }
  }

  lemma CrawlNothing(list: seq<string>, n: Option<nat>, last: Option<string>)
    ensures Crawl(list, n, last, 0) == Crawled([], false)
  {
  }

  lemma PlusSignPage(last: Option<string>)
    requires last == None || last == Some("a b")
    ensures PageOf(["a+b", "c"], Some(1), last) == ["a+b"]
    ensures LinkOf(["a+b", "c"], Some(1), last) == Some(Query(1, "a+b"))
  {
    var list := ["a+b", "c"];
    assert list[1..] == ["c"] && list[1..][1..] == [];
    assert "a b"[1..] == " b" && "a+b"[1..] == "+b";
    assert Less(" b", "+b") && Less("a b", "a+b") && Less("a b", "c");
    hide Query, Less;
    assert After(list, last) == list;
  }

  lemma PlusSignAsked()
    ensures Asked(Query(1, "a+b")) == (Some(1), Some("a b"))
  {
    hide FormPairs, Query, Digits, Value;
    var name, pairs := "a+b", FormPairs(Query(1, "a+b"));
    QueryPairs(1, name);
    LastPair(name);
    PlusSignDecodes();
    hide UrlDecode;
    DigitsRoundTrip(1);
    assert pairs == [("n", Digits(1)), ("last", "a b")];
    assert pairs[1..] == [("last", "a b")];
    TwoPairs("n", Digits(1), "last", "a b");
    assert Digits(1)[0] != '+';
  }

  lemma PlusSignDecodes()
    ensures UrlDecode("a+b") == "a b"
  {
    DecodeStep("a+b", 0);
    DecodeStep("a+b", 1);
    DecodeStep("a+b", 2);
    assert "a+b"[0..] == "a+b";
  }

  lemma TwoPairs(k1: string, v1: string, k2: string, v2: string)
    requires k1 != k2
    ensures ValueOf([(k1, v1), (k2, v2)], k1) == Some(v1) && ValueOf([(k1, v1), (k2, v2)], k2) == Some(v2)
  {
    var pairs := [(k1, v1), (k2, v2)];
    assert pairs[1..] == [(k2, v2)] && pairs[1..][1..] == [];
    assert [(k2, v2)][1..] == [];
    assert ValueOf(pairs[1..], k1) == None && ValueOf(pairs[1..], k2) == Some(v2);
  }

  /** With n = 0 the page is empty and there is no link, whatever the list holds. */
  lemma ZeroShowsNothing(list: seq<string>, last: Option<string>, k: nat)
    requires k >= 1
    ensures Crawl(list, Some(0), last, k) == Crawled([[]], true)
  {
  }
}
