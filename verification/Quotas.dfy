/** Per-class quotas (`QuotaStorage`): a cache of bytes in use per backend that gates blob writes.

    The clock is a choice: an entry found in the cache is fresh or not (`hit`). Routing is fixed here. */
module Quotas {
  import opened Content
  import opened Volumes
  import opened Backends
  import opened Devices
  import opened Routing
  import opened Merging
  import Glob

  datatype Quota = Quota(pattern: string, maxBytes: nat)

  datatype Setup = Setup(e: Env, rules: seq<Rule>, quotas: seq<Quota>)

  predicate SetupOk(q: Setup) { q.rules != [] && AllValid(q.rules) }

  function BackendFor(q: Setup, repo: string): (b: Backend)
    requires SetupOk(q)
    ensures Valid(b)
  {
    RouteValid(q.rules, repo);
    Route(q.rules, repo)
  }

  // ---- Which quota applies ----------------------------------------------------------------

  /** The scan of `max_by_key` over the first `n` quotas: a later one of the same length replaces an earlier. */
  function Matching(quotas: seq<Quota>, repo: string, n: nat): (best: Option<nat>)
    requires n <= |quotas|
    ensures best.Some? ==> best.value < n
  {
    if n == 0 then None else
    var best := Matching(quotas, repo, n - 1);
    if Glob.Matches(quotas[n - 1].pattern, repo)
       && (best.None? || ByteLen(quotas[n - 1].pattern) >= ByteLen(quotas[best.value].pattern))
    then Some(n - 1) else best
  }

  function Limit(q: Setup, repo: string): Option<nat> {
    var best := Matching(q.quotas, repo, |q.quotas|);
    if best.Some? then Some(q.quotas[best.value].maxBytes) else None
  }

  ghost predicate LastLongest(quotas: seq<Quota>, repo: string, i: nat) {
    && i < |quotas| && Glob.Matches(quotas[i].pattern, repo)
    && forall j :: 0 <= j < |quotas| && Glob.Matches(quotas[j].pattern, repo) ==>
         ByteLen(quotas[j].pattern) <= ByteLen(quotas[i].pattern)
         && (i < j ==> ByteLen(quotas[j].pattern) < ByteLen(quotas[i].pattern))
  }

  lemma {:induction false} MatchingAmongFirst(quotas: seq<Quota>, repo: string, n: nat)
    requires n <= |quotas|
    ensures match Matching(quotas, repo, n)
            case Some(i) => LastLongest(quotas[..n], repo, i)
            case None => forall j :: 0 <= j < n ==> !Glob.Matches(quotas[j].pattern, repo)
  {
    if n > 0 {
      MatchingAmongFirst(quotas, repo, n - 1);
      assert quotas[..n] == quotas[..n - 1] + [quotas[n - 1]];
    }
  }

  /** Longest match wins as in routing, but among equally long ones the last, not the first. */
  lemma MatchingIsLastLongest(quotas: seq<Quota>, repo: string, i: nat)
    ensures LastLongest(quotas, repo, i) <==> Matching(quotas, repo, |quotas|) == Some(i)
    ensures Matching(quotas, repo, |quotas|).None? <==>
            forall j :: 0 <= j < |quotas| ==> !Glob.Matches(quotas[j].pattern, repo)
  {
    MatchingAmongFirst(quotas, repo, |quotas|);
    assert quotas[..|quotas|] == quotas;
    match Matching(quotas, repo, |quotas|)
    case Some(k) => assert Glob.Matches(quotas[k].pattern, repo);
    case None =>
  }

  // ---- What a gated write does ------------------------------------------------------------

  type Usage = map<nat, nat>

  datatype State = State(w: World, usage: Usage)

  /** `saturating_add` stops at the largest 64-bit number. */
  function Saturate(n: nat): nat { if n < U64 then n else U64 - 1 }

  ghost function Refreshed(usage: Usage, b: Backend, w: World, hit: bool): (u: Usage)
    requires Valid(b)
    ensures b.arc in u
  {
    if hit && b.arc in usage then usage else usage[b.arc := Wrap(Used(ReadOrder(b), w))]
  }

  function Bumped(usage: Usage, arc: nat, delta: nat): Usage {
    if arc in usage then usage[arc := Saturate(usage[arc] + delta)] else usage
  }

  /** The bytes a write brings: those of the blob, or those of the session it closes. */
  function Incoming(v: Vol, op: Op): nat {
    match op
    case BlobWrite(_, content) => |content|
    case UploadFinalize(id, _) => if id in v.uploads then |v.uploads[id]| else 0
    case _ => 0
  }

  predicate IsGated(op: Op) { op.BlobWrite? || op.UploadFinalize? }

  /** `blob_write` and `upload_finalize` of a repository, fault-free. */
  ghost predicate Gated(q: Setup, s: State, repo: string, op: Op, hit: bool, s': State, r: Result<()>)
    requires SetupOk(q) && IsGated(op)
  {
    var b := BackendFor(q, repo);
    var t := Target(b);
    var isNew := Read(ReadOrder(b), s.w, Blob(op.digest)).None?;
    var size := Incoming(At(s.w, t), op);
    var limit := Limit(q, repo);
    var usage := if isNew && limit.Some? then Refreshed(s.usage, b, s.w, hit) else s.usage;
    if isNew && limit.Some? && Saturate(usage[b.arc] + size) > limit.value then
      r == QuotaExceeded && s' == State(s.w, usage)
    else
      var done := Apply(q.e, At(s.w, t), op);
      r == done.1 && s' == State(s.w[t := done.0], if isNew && r.Ok? then Bumped(usage, b.arc, size) else usage)
  }

  /** What any gated write keeps to, device faults or not: it is the plain write or no write, a refusal and an
      acceptance of a new blob go by the entry of its own identity, and no other entry changes. Only the value
      measured is left open. */
  ghost predicate Decided(q: Setup, s: State, repo: string, op: Op, s': State, r: Result<()>)
    requires SetupOk(q) && IsGated(op)
  {
    var b := BackendFor(q, repo);
    var done := Apply(q.e, At(s.w, Target(b)), op);
    var isNew := Read(ReadOrder(b), s.w, Blob(op.digest)).None?;
    && (forall arc :: arc != b.arc ==> (arc in s'.usage <==> arc in s.usage))
    && (forall arc :: arc != b.arc && arc in s.usage ==> s'.usage[arc] == s.usage[arc])
    && (if r.Fault? || r.QuotaExceeded? then s'.w == s.w else r == done.1 && s'.w == s.w[Target(b) := done.0])
    && (r.QuotaExceeded? ==>
          && isNew && Limit(q, repo).Some? && b.arc in s'.usage
          && Saturate(s'.usage[b.arc] + Incoming(At(s.w, Target(b)), op)) > Limit(q, repo).value)
    && (r.Ok? && isNew && Limit(q, repo).Some? ==> b.arc in s'.usage && s'.usage[b.arc] <= Limit(q, repo).value)
    && (!isNew && !r.Fault? ==> s'.usage == s.usage)
  }

  /** Everything else that can happen: blobs are deleted, sessions and manifests come and go. */
  ghost predicate NoNewBlobs(w: World, w': World) {
    forall root, d :: d in At(w', root).blobs ==>
      d in At(w, root).blobs && At(w', root).blobs[d] == At(w, root).blobs[d]
  }

  // ---- The decorator ----------------------------------------------------------------------

  class QuotaStorage {
    const q: Setup
    var usage: Usage

    constructor (q: Setup)
      ensures this.q == q && usage == map[]
    {
      this.q := q;
      usage := map[];
    }

    /** Cached usage of a backend, measured again when the entry is missing or no longer fresh. */
    method UsageOf(disks: Disks, b: Backend) returns (r: Result<nat>, ghost hit: bool)
      requires Valid(b)
      modifies this`usage, disks`faults
      ensures r.Ok? || r.Fault?
      ensures disks.faults >= old(disks.faults)
      ensures disks.faults == old(disks.faults) ==>
                usage == Refreshed(old(usage), b, disks.vols, hit) && r == Ok(usage[b.arc])
      ensures r.Ok? ==> b.arc in usage && r.value == usage[b.arc] && usage == old(usage)[b.arc := r.value]
      ensures !r.Ok? ==> usage == old(usage)
    {
      hide Used;
      hit := false;
      if b.arc in usage {
        var notExpired := *;
        if notExpired { return Ok(usage[b.arc]), true; }
      }
      r := disks.UsedBytes(b);
      if !r.Ok? { return Fault, hit; }
      usage := usage[b.arc := r.value];
    }

    method Bump(b: Backend, delta: nat)
      modifies this`usage
      ensures usage == Bumped(old(usage), b.arc, delta)
    {
      if b.arc in usage { usage := usage[b.arc := Saturate(usage[b.arc] + delta)]; }
    }

    method Enforce(disks: Disks, repo: string, incoming: nat) returns (r: Result<()>, ghost hit: bool)
      requires SetupOk(q)
      modifies this`usage, disks`faults
      ensures r.Ok? || r.QuotaExceeded? || r.Fault?
      ensures disks.faults >= old(disks.faults)
      ensures disks.faults == old(disks.faults) ==>
                && usage == (if Limit(q, repo).Some? then Refreshed(old(usage), BackendFor(q, repo), disks.vols, hit)
                             else old(usage))
                && r == if Limit(q, repo).Some?
                && Saturate(usage[BackendFor(q, repo).arc] + incoming) > Limit(q, repo).value
                        then QuotaExceeded else Ok(())
      ensures Limit(q, repo).None? || r.Fault? ==> usage == old(usage) && !r.QuotaExceeded?
      ensures Limit(q, repo).Some? && !r.Fault? ==>
                var arc := BackendFor(q, repo).arc;
                && arc in usage && usage == old(usage)[arc := usage[arc]]
                && (r.QuotaExceeded? <==> Saturate(usage[arc] + incoming) > Limit(q, repo).value)
    {
      hide Refreshed, Route;
      hit := false;
      var limit := Limit(q, repo);
      if limit.None? { return Ok(()), hit; }
      var b := BackendFor(q, repo);
      var used;
      used, hit := UsageOf(disks, b);
      if !used.Ok? { return Fault, hit; }
      r := if Saturate(used.value + incoming) > limit.value then QuotaExceeded else Ok(());
    }

    /** A refused write touches no root; an accepted one did what the plain write does. */
    method BlobWrite(disks: Disks, repo: string, d: Digest, content: Bytes) returns (r: Result<()>, ghost hit: bool)
      requires SetupOk(q) && q.e == disks.env
      modifies this`usage, disks
      ensures disks.faults >= old(disks.faults) && (r.Fault? ==> disks.vols == old(disks.vols))
      ensures disks.faults == old(disks.faults) ==>
                Gated(q, State(old(disks.vols), old(usage)), repo, Op.BlobWrite(d, content), hit,
                      State(disks.vols, usage), r)
      ensures Decided(q, State(old(disks.vols), old(usage)), repo, Op.BlobWrite(d, content), State(disks.vols, usage),
                      r)
    {
      hide Refreshed, Route, Read, Apply, Limit, ReadOrder, Used;
      hit := false;
      var b := BackendFor(q, repo);
      var here := disks.BlobExists(b, d);
      if !here.Ok? { return Fault, hit; }
      if !here.value {
        r, hit := Enforce(disks, repo, |content|);
        if !r.Ok? { return; }
      }
      PlainAnswers(q.e, At(disks.vols, Target(b)), Op.BlobWrite(d, content));
      r := disks.Write(b, Op.BlobWrite(d, content));
      if r.Ok? && !here.value { Bump(b, |content|); }
    }

    method SessionSize(disks: Disks, b: Backend, id: nat) returns (size: nat)
      requires Valid(b)
      modifies disks`faults
      ensures disks.faults >= old(disks.faults)
      ensures forall d :: var incoming := Incoming(At(disks.vols, Target(b)), Op.UploadFinalize(id, d));
              size <= incoming && (disks.faults == old(disks.faults) ==> size == incoming)
    {
      hide ReadOrder;
      var status := disks.UploadStatus(b, id);
      size := if status.Ok? then status.value else 0;
    }

    /** The size of the session is asked for first; a session that cannot be measured counts as empty. */
    method UploadFinalize(disks: Disks, repo: string, id: nat, d: Digest) returns (r: Result<()>, ghost hit: bool)
      requires SetupOk(q) && q.e == disks.env
      modifies this`usage, disks
      ensures disks.faults >= old(disks.faults) && (r.Fault? ==> disks.vols == old(disks.vols))
      ensures disks.faults == old(disks.faults) ==>
                Gated(q, State(old(disks.vols), old(usage)), repo, Op.UploadFinalize(id, d), hit,
                      State(disks.vols, usage), r)
      ensures Decided(q, State(old(disks.vols), old(usage)), repo, Op.UploadFinalize(id, d), State(disks.vols, usage),
                      r)
    {
      hide Refreshed, Route, Read, Apply, Limit, ReadOrder, Used, Incoming;
      hit := false;
      var b := BackendFor(q, repo);
      var here := disks.BlobExists(b, d);
      if !here.Ok? { return Fault, hit; }
      var size := 0;
      if !here.value {
        size := SessionSize(disks, b, id);
        r, hit := Enforce(disks, repo, size);
        if !r.Ok? { return; }
      }
      PlainAnswers(q.e, At(disks.vols, Target(b)), Op.UploadFinalize(id, d));
      r := disks.Write(b, Op.UploadFinalize(id, d));
      if r.Ok? && !here.value { Bump(b, size); }
    }

    /** A delete passes through and leaves the cache as it is, so the cache can only be too high. */
    method BlobDelete(disks: Disks, repo: string, d: Digest) returns (r: Result<()>)
      requires SetupOk(q)
      modifies disks
      ensures NoNewBlobs(old(disks.vols), disks.vols)
      ensures r.NotFound? ==> Read(ReadOrder(BackendFor(q, repo)), disks.vols, Blob(d)).None?
    {
      var b := BackendFor(q, repo);
      ghost var gone, hit;
      r, gone, hit := disks.Delete(b, Blob(d));
      assert NoNewBlobs(old(disks.vols), disks.vols) by { SweepAddsNothing(old(disks.vols), disks.vols, gone, d); }
      ReadFinds(ReadOrder(b), disks.vols, Blob(d));
      assert forall root :: root in ReadOrder(b) ==> root in Roots(b);
    }
  }

  lemma PlainAnswers(e: Env, v: Vol, op: Op)
    ensures !Apply(e, v, op).1.QuotaExceeded? && !Apply(e, v, op).1.Fault?
  {
  }

  lemma SweepAddsNothing(w: World, w': World, roots: set<Root>, d: Digest)
    requires Swept(w, w', roots, Blob(d))
    ensures NoNewBlobs(w, w')
  {
    forall root ensures At(w', root).blobs == (if root in roots then At(w, root).blobs - {d} else At(w, root).blobs) {
      assert At(w', root) == if root in roots then Remove(At(w, root), Blob(d)) else At(w, root);
    }
  }

  // ---- Bytes in use -----------------------------------------------------------------------

  lemma TotalOfFewer(m: map<Digest, Bytes>, m': map<Digest, Bytes>)
    requires forall d :: d in m' ==> d in m && m'[d] == m[d]
    ensures Total(m') <= Total(m)
  {
    hide Total;
    var rest := m - m'.Keys;
    assert m' + rest == m;
    TotalUnion(m', rest);
  }

  lemma LogicalTrue(e: Env, truth: Digest -> Bytes, o: seq<Root>, w: World, d: Digest)
    requires Genuine(e, truth, w)
    ensures d in Logical(o, w).blobs <==> Read(o, w, Blob(d)).Some?
    ensures d in Logical(o, w).blobs ==> Logical(o, w).blobs[d] == truth(d)
  {
    hide Genuine;
    LogicalManifests(o, w, Blob(d));
    GenuineRead(e, truth, o, w, Blob(d));
  }

  /** Deleting never adds bytes. */
  lemma OthersDoNotGrow(e: Env, truth: Digest -> Bytes, o: seq<Root>, w: World, w': World)
    requires Genuine(e, truth, w) && Genuine(e, truth, w') && NoNewBlobs(w, w')
    ensures Used(o, w') <= Used(o, w)
  {
    hide Genuine, Total, Logical, Read;
    forall d | d in Logical(o, w').blobs
      ensures d in Logical(o, w).blobs && Logical(o, w).blobs[d] == Logical(o, w').blobs[d]
    {
      LogicalTrue(e, truth, o, w', d);
      LogicalTrue(e, truth, o, w, d);
      ReadFinds(o, w', Blob(d));
      ReadFinds(o, w, Blob(d));
      var root :| root in o && Lookup(At(w', root), Blob(d)).Some?;
      assert Lookup(At(w, root), Blob(d)).Some?;
    }
    TotalOfFewer(Logical(o, w).blobs, Logical(o, w').blobs);
  }

  /** The root written, after a write that succeeded. */
  ghost predicate GainsBlob(w: World, w': World, t: Root, d: Digest, bytes: Bytes) {
    && (forall root :: root != t ==> At(w', root) == At(w, root))
    && At(w', t).blobs == At(w, t).blobs[d := bytes]
  }

  lemma AppliedGains(e: Env, w: World, t: Root, op: Op)
    requires IsGated(op) && Apply(e, At(w, t), op).1.Ok?
    ensures exists bytes ::
              |bytes| == Incoming(At(w, t), op) && GainsBlob(w, w[t := Apply(e, At(w, t), op).0], t, op.digest, bytes)
  {
    var bytes := if op.BlobWrite? then op.content else At(w, t).uploads[op.id];
    assert GainsBlob(w, w[t := Apply(e, At(w, t), op).0], t, op.digest, bytes);
  }

  lemma AppliedRefused(e: Env, w: World, t: Root, op: Op)
    requires IsGated(op) && !Apply(e, At(w, t), op).1.Ok?
    ensures NoNewBlobs(w, w[t := Apply(e, At(w, t), op).0])
  {
  }

  /** A new blob adds its bytes once; one that was there already, on any partition, adds none. */
  lemma GainCounts(e: Env, truth: Digest -> Bytes, o: seq<Root>, w: World, w': World, t: Root, d: Digest, bytes: Bytes)
    requires Genuine(e, truth, w) && Genuine(e, truth, w') && GainsBlob(w, w', t, d, bytes) && t in o
    ensures Used(o, w') == Used(o, w) + if Read(o, w, Blob(d)).None? then |bytes| else 0
  {
    hide Genuine, Total, Logical, Read;
    var before, after := Logical(o, w).blobs, Logical(o, w').blobs;
    forall x
      ensures x in after <==> x in before || x == d
      ensures x in before ==> x in after && after[x] == before[x]
      ensures d in after && after[d] == bytes
    {
      LogicalTrue(e, truth, o, w', x);
      LogicalTrue(e, truth, o, w, x);
      GainReads(e, truth, o, w, w', t, d, bytes, x);
      LogicalTrue(e, truth, o, w', d);
      ReadAtRoot(e, truth, o, w', t, Blob(d));
      assert bytes == truth(d) by { StoredTrue(e, truth, w', t, d); }
    }
    LogicalTrue(e, truth, o, w, d);
    if d in before { assert after == before; } else { assert after == before[d := bytes]; TotalWith(before, d, bytes); }
  }

  lemma StoredTrue(e: Env, truth: Digest -> Bytes, w: World, root: Root, d: Digest)
    requires Genuine(e, truth, w) && d in At(w, root).blobs
    ensures At(w, root).blobs[d] == truth(d)
  {
  }

  lemma GainReads(e: Env, truth: Digest -> Bytes, o: seq<Root>, w: World, w': World, t: Root, d: Digest, bytes: Bytes,
                  x: Digest)
    requires GainsBlob(w, w', t, d, bytes) && t in o
    ensures Read(o, w', Blob(x)).Some? <==> Read(o, w, Blob(x)).Some? || x == d
  {
    ReadFinds(o, w', Blob(x));
    ReadFinds(o, w, Blob(x));
    assert Lookup(At(w', t), Blob(d)).Some?;
    forall root
      ensures Lookup(At(w', root), Blob(x)).Some? <==> Lookup(At(w, root), Blob(x)).Some? || (x == d && root == t)
    {
    }
  }

  lemma GainElsewhere(o: seq<Root>, w: World, w': World, t: Root, d: Digest, bytes: Bytes)
    requires GainsBlob(w, w', t, d, bytes) && t !in o
    ensures Used(o, w') == Used(o, w)
  {
    hide Total;
    LogicalSame(o, w, w');
  }

  lemma {:induction false} LogicalSame(o: seq<Root>, w: World, w': World)
    requires forall root :: root in o ==> At(w', root) == At(w, root)
    ensures Logical(o, w') == Logical(o, w)
  {
    if o != [] { LogicalSame(o[1..], w, w'); }
  }
}
