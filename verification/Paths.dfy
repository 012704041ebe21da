/** Paths of the registry API (`dispatch`, `strip_suffix`, `strip_two_suffix`, and the Location headers
    the handlers print): which request path means which endpoint of which repository.

    Endpoints are those of the OCI Distribution Specification v1.1, section "Endpoints". */
module Paths {
  import opened Content
  import Volumes

  datatype Endpoint =
    | Base
    | Catalog
    | TagsList(repo: string)
    | UploadStart(repo: string)
    | UploadSession(repo: string, id: string)
    | Manifest(repo: string, reference: string)
    | Blob(repo: string, digest: string)
    | Referrers(repo: string, digest: string)
    | Unknown

  // ---- Splitting --------------------------------------------------------------------------

  predicate EndsWith(s: string, tail: string) { |tail| <= |s| && s[|s| - |tail|..] == tail }

  function StripSuffix(s: string, suffix: string): Option<string> {
    if EndsWith(s, suffix) && |s| > |suffix| then Some(s[..|s| - |suffix|]) else None
  }

  /** Position of the last occurrence of `m` that begins at or before `i`. */
  function RFind(s: string, m: string, i: nat): (at: Option<nat>)
    requires i <= |s|
    ensures at.Some? ==> at.value <= i && m <= s[at.value..] && forall j :: at.value < j <= i ==> !(m <= s[j..])
    ensures at.None? ==> forall j :: 0 <= j <= i ==> !(m <= s[j..])
  {
    if m <= s[i..] then Some(i) else if i == 0 then None else RFind(s, m, i - 1)
  }

  /** Split at the last occurrence of a marker into a repository and one final segment. */
  function StripTwoSuffix(s: string, marker: string): Option<(string, string)> {
    var at := RFind(s, marker, |s|);
    if at.None? then None else
    var prefix, suffix := s[..at.value], s[at.value + |marker|..];
    if prefix == "" || suffix == "" || '/' in suffix then None else Some((prefix, suffix))
  }

  /** An upload is started with or without a trailing slash. */
  function Chopped(s: string): string { if EndsWith(s, "/") then s[..|s| - 1] else s }

  function DispatchRest(rest: string): Endpoint {
    if rest == "_catalog" then Catalog
    else if StripSuffix(rest, "/tags/list").Some? then TagsList(StripSuffix(rest, "/tags/list").value)
    else
      var start := StripSuffix(Chopped(rest), "/blobs/uploads");
      if start.Some? then UploadStart(start.value)
      else
        var session := StripTwoSuffix(rest, "/blobs/uploads/");
        var manifest := StripTwoSuffix(rest, "/manifests/");
        var blob := StripTwoSuffix(rest, "/blobs/");
        var referrers := StripTwoSuffix(rest, "/referrers/");
        if session.Some? then UploadSession(session.value.0, session.value.1)
        else if manifest.Some? then Endpoint.Manifest(manifest.value.0, manifest.value.1)
        else if blob.Some? then Blob(blob.value.0, blob.value.1)
        else if referrers.Some? then Referrers(referrers.value.0, referrers.value.1)
        else Unknown
  }

  /** The `/v2` part of `dispatch`; every other path is unknown here. */
  function Dispatch(path: string): Endpoint {
    if path == "/v2" || path == "/v2/" then Base
    else if "/v2/" <= path then DispatchRest(path[4..])
    else Unknown
  }

  // ---- The written form -------------------------------------------------------------------

  /** One last path segment. */
  predicate Segment(f: string) { f != "" && '/' !in f }

  /** `s` is a repository, a marker and a last segment. */
  predicate Split(s: string, repo: string, m: string, f: string) {
    s == repo + m + f && repo != "" && Segment(f)
  }

  predicate WrittenRest(s: string, ep: Endpoint) {
    match ep
    case Base => false
    case Unknown => false
    case Catalog => s == "_catalog"
    case TagsList(r) => Split(s, r, "/tags/", "list")
    case UploadStart(r) => Split(Chopped(s), r, "/blobs/", "uploads")
    case UploadSession(r, f) => Split(s, r, "/blobs/uploads/", f)
    case Manifest(r, f) => Split(s, r, "/manifests/", f)
    case Blob(r, f) => Split(s, r, "/blobs/", f) && f != "uploads"
    case Referrers(r, f) => Split(s, r, "/referrers/", f)
  }

  /** The paths that stand for an endpoint. The repository may be any non-empty text, with components
      called `blobs`, `manifests`, `uploads` or whatever; the final segment is any text without a slash. */
  predicate Written(path: string, ep: Endpoint) {
    (ep == Base && (path == "/v2" || path == "/v2/"))
      || ("/v2/" <= path && path != "/v2/" && WrittenRest(path[4..], ep))
  }

  // ---- Uniqueness -------------------------------------------------------------------------

  lemma LastSlash(s: string, a: string, f: string, b: string, g: string)
    requires s == a + f == b + g && a != "" && b != "" && a[|a| - 1] == '/' && b[|b| - 1] == '/' && '/' !in f
             && '/' !in g
    ensures a == b && f == g
  {
    assert forall i :: |a| <= i < |s| ==> s[i] == f[i - |a|];
    assert forall i :: |b| <= i < |s| ==> s[i] == g[i - |b|];
    assert s[|a| - 1] == '/' && s[|b| - 1] == '/';
    assert s[..|a|] == a && s[..|b|] == b && s[|a|..] == f && s[|b|..] == g;
  }

  predicate IsMarker(m: string) {
    m == "/tags/" || m == "/blobs/" || m == "/blobs/uploads/" || m == "/manifests/" || m == "/referrers/"
  }

  /** The markers differ in their third character from the end. */
  lemma OneMarker(r1: string, m1: string, r2: string, m2: string)
    requires IsMarker(m1) && IsMarker(m2) && r1 + m1 == r2 + m2
    ensures m1 == m2 && r1 == r2
  {
    var a := r1 + m1;
    assert a[|a| - 3] == m1[|m1| - 3] && a[|a| - 3] == m2[|m2| - 3];
    assert a[..|r1|] == r1 && a[..|r2|] == r2;
  }

  lemma OneSplit(s: string, r1: string, m1: string, f1: string, r2: string, m2: string, f2: string)
    requires IsMarker(m1) && IsMarker(m2) && Split(s, r1, m1, f1) && Split(s, r2, m2, f2)
    ensures r1 == r2 && m1 == m2 && f1 == f2
  {
    LastSlash(s, r1 + m1, f1, r2 + m2, f2);
    OneMarker(r1, m1, r2, m2);
  }

  /** The parts an endpoint is written from. */
  function Parts(ep: Endpoint): (string, string, string)
    requires !ep.Base? && !ep.Unknown? && !ep.Catalog?
  {
    match ep
    case TagsList(r) => (r, "/tags/", "list")
    case UploadStart(r) => (r, "/blobs/", "uploads")
    case UploadSession(r, f) => (r, "/blobs/uploads/", f)
    case Manifest(r, f) => (r, "/manifests/", f)
    case Blob(r, f) => (r, "/blobs/", f)
    case Referrers(r, f) => (r, "/referrers/", f)
  }

  lemma WrittenSplits(s: string, ep: Endpoint)
    requires WrittenRest(s, ep) && !ep.Catalog?
    ensures var (r, m, f) := Parts(ep); IsMarker(m) && Split(Chopped(s), r, m, f)
    ensures !ep.UploadStart? ==> !EndsWith(s, "/")
  {
    var (r, m, f) := Parts(ep);
    if Split(s, r, m, f) {
      assert s[|s| - 1] == f[|f| - 1];
    }
  }

  /** No path is written for two endpoints. */
  lemma WrittenOnce(s: string, ep1: Endpoint, ep2: Endpoint)
    requires WrittenRest(s, ep1) && WrittenRest(s, ep2)
    ensures ep1 == ep2
  {
    if !ep1.Catalog? && !ep2.Catalog? {
      WrittenSplits(s, ep1);
      WrittenSplits(s, ep2);
      var ((r1, m1, f1), (r2, m2, f2)) := (Parts(ep1), Parts(ep2));
      OneSplit(Chopped(s), r1, m1, f1, r2, m2, f2);
    } else if ep1.Catalog? != ep2.Catalog? {
      CatalogHasNoSlash(s, if ep1.Catalog? then ep2 else ep1);
    }
  }

  lemma CatalogHasNoSlash(s: string, ep: Endpoint)
    requires WrittenRest(s, ep) && !ep.Catalog?
    ensures s != "_catalog"
  {
    WrittenSplits(s, ep);
    var (r, m, f) := Parts(ep);
    assert Chopped(s)[|r|] == '/';
    assert s[|r|] == '/';
  }

  // ---- Dispatch is exact ------------------------------------------------------------------

  lemma SuffixIsSplit(s: string, m: string, f: string, r: string)
    requires Segment(f)
    ensures StripSuffix(s, m + f) == Some(r) <==> Split(s, r, m, f)
  {
    if StripSuffix(s, m + f) == Some(r) { assert s == s[..|s| - |m + f|] + s[|s| - |m + f|..]; }
    if Split(s, r, m, f) { assert s == r + (m + f); }
  }

  lemma TwoSuffixIsSplit(s: string, m: string, r: string, f: string)
    requires m != "" && m[|m| - 1] == '/'
    ensures StripTwoSuffix(s, m) == Some((r, f)) <==> Split(s, r, m, f)
  {
    var at := RFind(s, m, |s|);
    if StripTwoSuffix(s, m) == Some((r, f)) {
      assert s == s[..at.value] + s[at.value..];
      assert s[at.value..] == m + s[at.value..][|m|..];
    }
    if Split(s, r, m, f) {
      LastMarker(s, m, r, f);
      assert s[..|r|] == r && s[|r| + |m|..] == f;
    }
  }

  lemma LastMarker(s: string, m: string, r: string, f: string)
    requires m != "" && m[|m| - 1] == '/' && Split(s, r, m, f)
    ensures RFind(s, m, |s|) == Some(|r|)
  {
    assert s[|r|..] == m + f;
    assert m <= s[|r|..];
    hide RFind;
    var i := RFind(s, m, |s|).value;
    assert forall j :: |r| + |m| <= j < |s| ==> s[j] == f[j - |r| - |m|];
    assert s[i..][|m| - 1] == '/';
  }

  /** Each test of the dispatch, as a split. */
  lemma Strips(s: string, ep: Endpoint)
    ensures match ep
            case TagsList(r) => StripSuffix(s, "/tags/list") == Some(r) <==> WrittenRest(s, ep)
            case UploadStart(r) => StripSuffix(Chopped(s), "/blobs/uploads") == Some(r) <==> WrittenRest(s, ep)
            case UploadSession(r, f) => StripTwoSuffix(s, "/blobs/uploads/") == Some((r, f)) <==> WrittenRest(s, ep)
            case Manifest(r, f) => StripTwoSuffix(s, "/manifests/") == Some((r, f)) <==> WrittenRest(s, ep)
            case Blob(r, f) => StripTwoSuffix(s, "/blobs/") == Some((r, f)) <==> Split(s, r, "/blobs/", f)
            case Referrers(r, f) => StripTwoSuffix(s, "/referrers/") == Some((r, f)) <==> WrittenRest(s, ep)
            case _ => true
  {
    match ep
    case TagsList(r) => assert "/tags/" + "list" == "/tags/list"; SuffixIsSplit(s, "/tags/", "list", r);
    case UploadStart(r) =>
      assert "/blobs/" + "uploads" == "/blobs/uploads";
      SuffixIsSplit(Chopped(s), "/blobs/", "uploads", r);
    case UploadSession(r, f) => TwoSuffixIsSplit(s, "/blobs/uploads/", r, f);
    case Manifest(r, f) => TwoSuffixIsSplit(s, "/manifests/", r, f);
    case Blob(r, f) => TwoSuffixIsSplit(s, "/blobs/", r, f);
    case Referrers(r, f) => TwoSuffixIsSplit(s, "/referrers/", r, f);
    case _ =>
  }

  lemma FoundIsWritten(s: string)
    ensures !DispatchRest(s).Unknown? ==> WrittenRest(s, DispatchRest(s))
    ensures DispatchRest(s) != Base
  {
    hide StripSuffix, StripTwoSuffix, Split, Chopped;
    var ep := DispatchRest(s);
    Strips(s, ep);
    if ep.Blob? && ep.digest == "uploads" { BlobIsNotStart(s, ep.repo); }
  }

  lemma BlobIsNotStart(s: string, r: string)
    requires Split(s, r, "/blobs/", "uploads")
    ensures StripSuffix(Chopped(s), "/blobs/uploads").Some?
  {
    assert s[|s| - 1] == 's';
    Strips(s, UploadStart(r));
  }

  lemma WrittenIsFound(s: string, ep: Endpoint)
    requires WrittenRest(s, ep)
    ensures !DispatchRest(s).Unknown?
  {
    hide StripSuffix, StripTwoSuffix, Split, Chopped;
    Strips(s, ep);
  }

  /** Dispatch is exact: a path reaches an endpoint if and only if it is one of the ways to write it. So
      every path the handlers print comes back to the endpoint, repository and final segment it was
      printed for, and no other path does. */
  lemma DispatchIsExact(path: string, ep: Endpoint)
    requires !ep.Unknown?
    ensures Dispatch(path) == ep <==> Written(path, ep)
  {
    if "/v2/" <= path && path != "/v2/" {
      var s := path[4..];
      FoundIsWritten(s);
      if WrittenRest(s, ep) {
        WrittenIsFound(s, ep);
        WrittenOnce(s, ep, DispatchRest(s));
      }
    }
  }

  // ---- What the handlers print ------------------------------------------------------------

  lemma PrintedSegment(d: Digest)
    requires WellFormed(d)
    ensures Segment(Print(d)) && Print(d) != "uploads"
  {
    var s := Print(d);
    assert s[6] == ':';
    forall i | 0 <= i < |s| ensures s[i] != '/' {
      assert s[i] == if i < 6 then AlgorithmName(d.algorithm)[i] else if i == 6 then ':' else d.hex[i - 7];
      assert i > 6 ==> IsLowerHex(d.hex[i - 7]);
    }
  }

  /** Location headers come back, and the digest in them is read back as the digest printed. */
  lemma LocationsComeBack(repo: string, d: Digest, id: string)
    requires repo != "" && WellFormed(d) && Segment(id)
    ensures Dispatch("/v2/" + repo + "/blobs/" + Print(d)) == Blob(repo, Print(d))
    ensures Dispatch("/v2/" + repo + "/manifests/" + Print(d)) == Endpoint.Manifest(repo, Print(d))
    ensures Dispatch("/v2/" + repo + "/referrers/" + Print(d)) == Referrers(repo, Print(d))
    ensures Dispatch("/v2/" + repo + "/blobs/uploads/" + id) == UploadSession(repo, id)
    ensures Parse(Print(d)) == Parsed(d)
  {
    hide Dispatch, Print, Parse, WellFormed, Segment, WrittenRest;
    PrintedSegment(d);
    DigestRoundTrip(d);
    var f := Print(d);
    ComesBack(repo, "/blobs/", f, Blob(repo, f));
    ComesBack(repo, "/manifests/", f, Endpoint.Manifest(repo, f));
    ComesBack(repo, "/referrers/", f, Referrers(repo, f));
    ComesBack(repo, "/blobs/uploads/", id, UploadSession(repo, id));
  }

  lemma ComesBack(repo: string, m: string, f: string, ep: Endpoint)
    requires repo != "" && Segment(f) && (ep.Blob? ==> f != "uploads")
    requires !ep.Base? && !ep.Unknown? && !ep.Catalog? && Parts(ep) == (repo, m, f)
    ensures Dispatch("/v2/" + repo + m + f) == ep
  {
    hide Dispatch;
    var path, rest := "/v2/" + repo + m + f, repo + m + f;
    Prefixed(repo, m, f);
    assert Split(rest, repo, m, f);
    assert rest[|rest| - 1] == f[|f| - 1];
    assert Chopped(rest) == rest;
    assert WrittenRest(rest, ep);
    hide WrittenRest, Split, Chopped;
    assert Written(path, ep);
    DispatchIsExact(path, ep);
  }

  lemma Prefixed(repo: string, m: string, f: string)
    requires m != ""
    ensures var path := "/v2/" + repo + m + f; "/v2/" <= path && path != "/v2/" && path[4..] == repo + m + f
  {
    var path := "/v2/" + repo + m + f;
    assert path == "/v2/" + (repo + m + f);
  }

  /** The one exception: a blob path whose final segment is `uploads` starts an upload session. */
  lemma SplitOf(repo: string, marker: string, last: string)
    requires repo != "" && '/' !in last && last != ""
    ensures Split(repo + marker + last, repo, marker, last)
  {
  }

  lemma UploadsIsNoBlob(repo: string, end: string)
    requires repo != "" && (end == "" || end == "/")
    ensures Dispatch("/v2/" + repo + "/blobs/uploads" + end) == UploadStart(repo)
  {
    hide Dispatch, DispatchRest, Split, Chopped;
    var path, start := "/v2/" + repo + "/blobs/uploads" + end, repo + "/blobs/" + "uploads";
    Prefixed(repo, "/blobs/uploads", end);
    assert path[4..] == start + end;
    assert start[|start| - 1] == 's';
    ChoppedOnce(start, end);
    assert Split(start, repo, "/blobs/", "uploads") by { SplitOf(repo, "/blobs/", "uploads"); }
    DispatchIsExact(path, UploadStart(repo));
  }

  lemma ChoppedOnce(s: string, end: string)
    requires s != "" && s[|s| - 1] != '/' && (end == "" || end == "/")
    ensures Chopped(s + end) == s
  {
    var t := s + end;
    assert t[|t| - 1..] == [t[|t| - 1]];
    assert end == "" ==> t == s;
    assert end == "/" ==> t[..|t| - 1] == s;
  }

  // ---- References -------------------------------------------------------------------------

  /** `parse_reference`: what parses as a digest is one, anything else is a tag. */
  function ParseReference(s: string): Volumes.Reference {
    var parsed := Parse(s);
    if parsed.Parsed? then Volumes.ByDigest(parsed.digest) else Volumes.Tag(s)
  }

  /** Exactly the printed well-formed digests are taken for digests; every other text is the tag it says. */
  lemma ReferenceIsExact(s: string, d: Digest)
    ensures ParseReference(s) == Volumes.ByDigest(d) <==> WellFormed(d) && s == Print(d)
    ensures ParseReference(s).Tag? ==> ParseReference(s).tag == s
  {
    ParseAcceptsOnlyPrintedForms(s, d);
  }
}
