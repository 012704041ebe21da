/** What the quota decorator guarantees over whole runs: when a cap holds, exactly, and what holds of a volume
    that several identities share. */
module QuotaTheorems {
  import opened Content
  import opened Volumes
  import opened Backends
  import opened Devices
  import opened Routing
  import opened Quotas

  // ---- Runs -------------------------------------------------------------------------------

  ghost predicate Step(q: Setup, s: State, s': State)
    requires SetupOk(q)
  {
    || (exists repo, op, hit, r :: IsGated(op) && Gated(q, s, repo, op, hit, s', r))
    || (s'.usage == s.usage && NoNewBlobs(s.w, s'.w))
  }

  ghost predicate Runs(q: Setup, truth: Digest -> Bytes, ss: seq<State>)
    requires SetupOk(q)
  {
    && ss != [] && (forall i :: 0 <= i < |ss| ==> Genuine(q.e, truth, ss[i].w))
    && forall i {:trigger ss[i + 1]} :: 0 <= i < |ss| - 1 ==> Step(q, ss[i], ss[i + 1])
  }

  /** A run of a new decorator, over volumes as it finds them. */
  ghost predicate Begun(q: Setup, truth: Digest -> Bytes, ss: seq<State>)
    requires SetupOk(q)
  {
    Runs(q, truth, ss) && ss[0].usage == map[]
  }

  /** The cache never understates a backend, up to what 64 bits can say. */
  ghost predicate NotLow(s: State, b: Backend)
    requires Valid(b)
  {
    b.arc in s.usage ==> s.usage[b.arc] >= Saturate(Used(ReadOrder(b), s.w))
  }

  ghost predicate Capped(q: Setup, b: Backend, m: nat)
    requires SetupOk(q)
  {
    forall repo :: BackendFor(q, repo) == b ==> Limit(q, repo).Some? && Limit(q, repo).value <= m
  }

  /** An identity is one object: what is routed to it is that backend. */
  ghost predicate Identified(q: Setup, b: Backend)
    requires SetupOk(q)
  {
    forall repo :: BackendFor(q, repo).arc == b.arc ==> BackendFor(q, repo) == b
  }

  /** A repository whose writes can grow `b` behind its cache entry: it is routed to another identity, which
      writes to a root of `b`, and it may write there something `b` does not have. */
  ghost predicate GrowsBehind(q: Setup, b: Backend, repo: string)
    requires SetupOk(q) && Valid(b)
  {
    var a := BackendFor(q, repo);
    && a.arc != b.arc && Target(a) in ReadOrder(b)
    && (Limit(q, repo) == Some(0) ==> !(Roots(a) <= Roots(b)))
  }

  ghost predicate Unshared(q: Setup, b: Backend)
    requires SetupOk(q) && Valid(b)
  {
    forall repo :: !GrowsBehind(q, b, repo)
  }

  // ---- One step -----------------------------------------------------------------------------

  /** A gated write changes the cache entry of its own identity only. */
  lemma EntryElsewhere(q: Setup, s: State, repo: string, op: Op, hit: bool, s': State, r: Result<()>, arc: nat)
    requires SetupOk(q) && IsGated(op) && Gated(q, s, repo, op, hit, s', r) && BackendFor(q, repo).arc != arc
    ensures arc in s'.usage <==> arc in s.usage
    ensures arc in s.usage ==> s'.usage[arc] == s.usage[arc]
  {
    hide Used, Route, Limit, Apply, Read, ReadOrder;
  }

  /** A gated write that is not of the growing kind does not concern `b`. */
  lemma GatedElsewhere(q: Setup, truth: Digest -> Bytes, b: Backend, s: State, repo: string, op: Op, hit: bool,
                       s': State, r: Result<()>)
    requires SetupOk(q) && IsGated(op) && Valid(b) && Genuine(q.e, truth, s.w) && Genuine(q.e, truth, s'.w)
    requires Gated(q, s, repo, op, hit, s', r) && BackendFor(q, repo).arc != b.arc && !GrowsBehind(q, b, repo)
    ensures Used(ReadOrder(b), s'.w) <= Used(ReadOrder(b), s.w)
  {
    hide Genuine, Used, Route, Limit, Apply, Read, ReadOrder, Roots;
    var a := BackendFor(q, repo);
    var t := Target(a);
    if s'.w != s.w {
      if Apply(q.e, At(s.w, t), op).1.Ok? {
        AppliedGains(q.e, s.w, t, op);
        var bytes :| |bytes| == Incoming(At(s.w, t), op)
            && GainsBlob(s.w, s.w[t := Apply(q.e, At(s.w, t), op).0], t, op.digest, bytes);
        if t !in ReadOrder(b) {
          GainElsewhere(ReadOrder(b), s.w, s'.w, t, op.digest, bytes);
        } else {
          GainCounts(q.e, truth, ReadOrder(b), s.w, s'.w, t, op.digest, bytes);
          if Read(ReadOrder(a), s.w, Blob(op.digest)).Some? { WiderReads(a, b, s.w, Blob(op.digest)); }
        }
      } else {
        AppliedRefused(q.e, s.w, t, op);
        OthersDoNotGrow(q.e, truth, ReadOrder(b), s.w, s'.w);
      }
    }
  }

  lemma WiderReads(a: Backend, b: Backend, w: World, k: Key)
    requires Valid(a) && Valid(b) && Roots(a) <= Roots(b) && Read(ReadOrder(a), w, k).Some?
    ensures Read(ReadOrder(b), w, k).Some?
  {
    ReadFinds(ReadOrder(a), w, k);
    ReadFinds(ReadOrder(b), w, k);
    var root :| root in ReadOrder(a) && Lookup(At(w, root), k).Some?;
    assert root in Roots(b);
  }

  /** What an accepted or refused write through `b` does to its bytes in use and to its cache entry. */
  lemma GatedHere(q: Setup, truth: Digest -> Bytes, b: Backend, s: State, repo: string, op: Op, hit: bool, s': State,
                  r: Result<()>)
    requires SetupOk(q) && IsGated(op) && Valid(b) && Genuine(q.e, truth, s.w) && Genuine(q.e, truth, s'.w)
    requires Gated(q, s, repo, op, hit, s', r) && BackendFor(q, repo) == b
    ensures var isNew := Read(ReadOrder(b), s.w, Blob(op.digest)).None?;
            var size := Incoming(At(s.w, Target(b)), op);
            && (if r.Ok? && isNew then Used(ReadOrder(b), s'.w) == Used(ReadOrder(b), s.w) + size
                else Used(ReadOrder(b), s'.w) <= Used(ReadOrder(b), s.w))
  {
    hide Genuine, Used, Route, Limit, Apply, Read, Refreshed;
    var t := Target(b);
    if s'.w != s.w || r.Ok? {
      if Apply(q.e, At(s.w, t), op).1.Ok? {
        AppliedGains(q.e, s.w, t, op);
        var bytes :| |bytes| == Incoming(At(s.w, t), op)
            && GainsBlob(s.w, s.w[t := Apply(q.e, At(s.w, t), op).0], t, op.digest, bytes);
        GainCounts(q.e, truth, ReadOrder(b), s.w, s'.w, t, op.digest, bytes);
      } else {
        AppliedRefused(q.e, s.w, t, op);
        OthersDoNotGrow(q.e, truth, ReadOrder(b), s.w, s'.w);
      }
    }
  }

  lemma HereNotLow(q: Setup, truth: Digest -> Bytes, b: Backend, s: State, repo: string, op: Op, hit: bool, s': State,
                   r: Result<()>)
    requires SetupOk(q) && IsGated(op) && Valid(b) && Genuine(q.e, truth, s.w) && Genuine(q.e, truth, s'.w)
    requires Gated(q, s, repo, op, hit, s', r) && BackendFor(q, repo) == b
    requires NotLow(s, b) && Used(ReadOrder(b), s.w) < U64
    ensures NotLow(s', b)
  {
    hide Genuine, Used, Route, Limit, Apply, Read, ReadOrder, Incoming;
    GatedHere(q, truth, b, s, repo, op, hit, s', r);
  }

  lemma StepNotLow(q: Setup, truth: Digest -> Bytes, b: Backend, s: State, s': State)
    requires SetupOk(q) && Valid(b) && Genuine(q.e, truth, s.w) && Genuine(q.e, truth, s'.w)
    requires Identified(q, b) && Unshared(q, b)
    requires Step(q, s, s') && NotLow(s, b) && Used(ReadOrder(b), s.w) < U64
    ensures NotLow(s', b)
  {
    hide Genuine, Used, Route, Limit, Read, ReadOrder, IsGated, NoNewBlobs, Gated, GrowsBehind;
    if repo, op, hit, r :| IsGated(op) && Gated(q, s, repo, op, hit, s', r) {
      if BackendFor(q, repo) == b {
        HereNotLow(q, truth, b, s, repo, op, hit, s', r);
      } else {
        EntryElsewhere(q, s, repo, op, hit, s', r, b.arc);
        GatedElsewhere(q, truth, b, s, repo, op, hit, s', r);
      }
    } else {
      OthersDoNotGrow(q.e, truth, ReadOrder(b), s.w, s'.w);
    }
  }

  /** Over every run of gated writes, deletes, expiries and measurements: the cache never understates a
      backend that stays below 2^64 bytes and that nobody grows behind it. */
  lemma {:induction false} CacheNeverLow(q: Setup, truth: Digest -> Bytes, b: Backend, ss: seq<State>, i: nat)
    requires SetupOk(q) && Valid(b) && Identified(q, b) && Unshared(q, b) && Runs(q, truth, ss) && i < |ss|
    requires NotLow(ss[0], b) && forall j :: 0 <= j < i ==> Used(ReadOrder(b), ss[j].w) < U64
    ensures NotLow(ss[i], b)
  {
    hide NotLow, Step, Identified, Unshared, Genuine, Used;
    if i > 0 {
      CacheNeverLow(q, truth, b, ss, i - 1);
      var k := i - 1;
      assert Step(q, ss[k], ss[k + 1]);
      StepNotLow(q, truth, b, ss[k], ss[i]);
    }
  }

  lemma StepCapped(q: Setup, truth: Digest -> Bytes, b: Backend, m: nat, s: State, s': State)
    requires SetupOk(q) && Valid(b) && Genuine(q.e, truth, s.w) && Genuine(q.e, truth, s'.w)
    requires Identified(q, b) && Unshared(q, b)
    requires Step(q, s, s') && NotLow(s, b) && Capped(q, b, m) && m < U64 - 1 && Used(ReadOrder(b), s.w) <= m
    ensures Used(ReadOrder(b), s'.w) <= m
  {
    hide Genuine, Used, Route, Limit, Read, ReadOrder, IsGated, NoNewBlobs, Gated, GrowsBehind;
    if repo, op, hit, r :| IsGated(op) && Gated(q, s, repo, op, hit, s', r) {
      if BackendFor(q, repo) == b {
        HereCapped(q, truth, b, m, s, repo, op, hit, s', r);
      } else {
        GatedElsewhere(q, truth, b, s, repo, op, hit, s', r);
      }
    } else {
      OthersDoNotGrow(q.e, truth, ReadOrder(b), s.w, s'.w);
    }
  }

  lemma HereCapped(q: Setup, truth: Digest -> Bytes, b: Backend, m: nat, s: State, repo: string, op: Op, hit: bool,
                   s': State, r: Result<()>)
    requires SetupOk(q) && IsGated(op) && Valid(b) && Genuine(q.e, truth, s.w) && Genuine(q.e, truth, s'.w)
    requires Gated(q, s, repo, op, hit, s', r) && BackendFor(q, repo) == b
    requires NotLow(s, b) && Capped(q, b, m) && m < U64 - 1 && Used(ReadOrder(b), s.w) <= m
    ensures Used(ReadOrder(b), s'.w) <= m
  {
    hide Genuine, Used, Route, Limit, Apply, Read, ReadOrder, Incoming;
    GatedHere(q, truth, b, s, repo, op, hit, s', r);
  }

  /** Quotas cap: when every repository on a volume has a quota of at most `m` < 2^64-1 and nobody grows it
      behind its cache entry, no run of writes through the decorator, deletes and expiries takes its bytes in
      use above `m`. */
  lemma {:induction false} QuotaCaps(q: Setup, truth: Digest -> Bytes, b: Backend, m: nat, ss: seq<State>, i: nat)
    requires SetupOk(q) && Valid(b) && Identified(q, b) && Unshared(q, b) && Runs(q, truth, ss) && i < |ss|
    requires NotLow(ss[0], b) && Capped(q, b, m) && m < U64 - 1 && Used(ReadOrder(b), ss[0].w) <= m
    ensures Used(ReadOrder(b), ss[i].w) <= m && NotLow(ss[i], b)
  {
    hide NotLow, Step, Identified, Unshared, Genuine, Used, Capped;
    if i > 0 {
      QuotaCaps(q, truth, b, m, ss, i - 1);
      var k := i - 1;
      assert Step(q, ss[k], ss[k + 1]);
      StepNotLow(q, truth, b, ss[k], ss[i]);
      StepCapped(q, truth, b, m, ss[k], ss[i]);
    }
  }

  /** The bound 2^64-1 is excluded for a reason: saturating addition never exceeds it, so it never refuses. */
  lemma LargestQuotaRefusesNothing(q: Setup, s: State, repo: string, op: Op, hit: bool, s': State, r: Result<()>)
    requires SetupOk(q) && IsGated(op) && Gated(q, s, repo, op, hit, s', r)
    requires Limit(q, repo).Some? && Limit(q, repo).value >= U64 - 1
    ensures r == Apply(q.e, At(s.w, Target(BackendFor(q, repo))), op).1
  {
    hide Used, Route, Limit, Apply, Read, ReadOrder;
  }

  /** Fault-free measurements are needed: an entry measured too low, as when unreadable blobs count as
      empty, lets a new blob in that takes the volume above the limit. */
  lemma LowMeasurementBreaksTheCap(q: Setup, truth: Digest -> Bytes, b: Backend, s: State, repo: string, op: Op,
                                   s': State, r: Result<()>)
    requires SetupOk(q) && IsGated(op) && Valid(b) && Genuine(q.e, truth, s.w) && Genuine(q.e, truth, s'.w)
    requires Gated(q, s, repo, op, true, s', r) && BackendFor(q, repo) == b && Limit(q, repo).Some?
    requires Read(ReadOrder(b), s.w, Blob(op.digest)).None? && Apply(q.e, At(s.w, Target(b)), op).1.Ok?
    requires var size := Incoming(At(s.w, Target(b)), op);
             b.arc in s.usage
               && Saturate(s.usage[b.arc] + size) <= Limit(q, repo).value < Used(ReadOrder(b), s.w) + size
    ensures r.Ok? && Used(ReadOrder(b), s'.w) > Limit(q, repo).value
  {
    hide Genuine, Used, Route, Limit, Apply, Read, ReadOrder, Incoming;
    GatedHere(q, truth, b, s, repo, op, true, s', r);
  }

  /** Such an entry is exactly one that understates the volume, for limits that can refuse at all. */
  lemma OnlyLowEntriesLetTooMuchIn(q: Setup, s: State, b: Backend, limit: nat, size: nat)
    requires Valid(b) && b.arc in s.usage && limit < U64 - 1
    ensures NotLow(s, b) && Saturate(s.usage[b.arc] + size) <= limit ==> Used(ReadOrder(b), s.w) + size <= limit
  {
    hide Used, ReadOrder;
  }

  // ---- Growing a volume behind its cache entry ------------------------------------------------

  /** A write through one identity grows another one that contains the root written, and leaves the other's
      cache entry as it was. */
  lemma SharedRootGrowsUnseen(q: Setup, truth: Digest -> Bytes, c: Backend, s: State, repo: string, op: Op, hit: bool,
                              s': State, r: Result<()>)
    requires SetupOk(q) && IsGated(op) && Valid(c) && Genuine(q.e, truth, s.w) && Genuine(q.e, truth, s'.w)
    requires Gated(q, s, repo, op, hit, s', r) && r.Ok?
    requires BackendFor(q, repo).arc != c.arc && Target(BackendFor(q, repo)) in ReadOrder(c)
    requires Read(ReadOrder(c), s.w, Blob(op.digest)).None?
    ensures Used(ReadOrder(c), s'.w) == Used(ReadOrder(c), s.w) + Incoming(At(s.w, Target(BackendFor(q, repo))), op)
    ensures c.arc in s.usage ==> c.arc in s'.usage && s'.usage[c.arc] == s.usage[c.arc]
  {
    hide Genuine, Used, Route, Limit, Apply, Read, ReadOrder;
    var t := Target(BackendFor(q, repo));
    AppliedGains(q.e, s.w, t, op);
    var bytes :| |bytes| == Incoming(At(s.w, t), op)
        && GainsBlob(s.w, s.w[t := Apply(q.e, At(s.w, t), op).0], t, op.digest, bytes);
    GainCounts(q.e, truth, ReadOrder(c), s.w, s'.w, t, op.digest, bytes);
  }

  function Zeros(n: nat): Bytes { seq(n, _ => 0) }

  /** Two contents under the two algorithms never collide. */
  function TwoContents(x: Bytes, y: Bytes): Digest -> Bytes { (d: Digest) => if d.algorithm == Sha256 then x else y }

  /** A write under a digest the content does not have: measured, then refused for the mismatch. */
  function Mismatched(e: Env): Op { BlobWrite(Digest(Sha256, e.sha(Sha256, []) + "x"), []) }

  ghost predicate NoBlobs(w: World) { forall root :: At(w, root).blobs == map[] }

  lemma NoBlobsUsed(o: seq<Root>, w: World, d: Digest)
    requires forall root :: root in o ==> At(w, root).blobs == map[]
    ensures Used(o, w) == 0 && Read(o, w, Blob(d)).None?
  {
    ReadFinds(o, w, Blob(d));
    NoLogical(o, w);
    TotalEmpty(Logical(o, w).blobs);
  }

  lemma {:induction false} NoLogical(o: seq<Root>, w: World)
    requires forall root :: root in o ==> At(w, root).blobs == map[]
    ensures Logical(o, w).blobs.Keys == {}
  {
    if o != [] { NoLogical(o[1..], w); }
  }

  /** A root that holds blobs only. */
  function Holding(v: Vol, d: Digest, content: Bytes): Vol { v.(blobs := v.blobs[d := content]) }

  /** A mismatched write through `b` caches what the volume holds, here nothing. */
  lemma Measured(q: Setup, w: World, rb: string) returns (s: State)
    requires SetupOk(q) && Limit(q, rb).Some?
    requires forall root :: root in ReadOrder(BackendFor(q, rb)) ==> At(w, root).blobs == map[]
    ensures var b := BackendFor(q, rb);
            && s == State(w[Target(b) := At(w, Target(b))], map[b.arc := 0])
            && Step(q, State(w, map[]), s)
  {
    hide Used, Route, Limit, Read, ReadOrder;
    var b := BackendFor(q, rb);
    var op := Mismatched(q.e);
    NoBlobsUsed(ReadOrder(b), w, op.digest);
    MismatchRefused(q.e, At(w, Target(b)));
    s := State(w[Target(b) := At(w, Target(b))], map[b.arc := 0]);
    assert Refreshed(map[], b, w, false) == map[b.arc := 0];
    assert Gated(q, State(w, map[]), rb, op, false, s, Apply(q.e, At(w, Target(b)), op).1);
  }

  lemma MismatchRefused(e: Env, v: Vol)
    ensures Apply(e, v, Mismatched(e)).0 == v && !Apply(e, v, Mismatched(e)).1.Ok?
  {
    assert |e.sha(Sha256, []) + "x"| == |e.sha(Sha256, [])| + 1;
  }

  /** A fitting write of a new blob, on an entry or on a fresh measurement of nothing. */
  lemma Written(q: Setup, s: State, repo: string, d: Digest, content: Bytes, hit: bool) returns (s': State)
    requires SetupOk(q) && Hash(q.e, d.algorithm, content) == d
    requires Read(ReadOrder(BackendFor(q, repo)), s.w, Blob(d)).None?
    requires Limit(q, repo).Some? ==> |content| <= Limit(q, repo).value && |content| < U64
    requires var a := BackendFor(q, repo); if hit then a.arc in s.usage && s.usage[a.arc] == 0
             else Used(ReadOrder(a), s.w) == 0
    ensures var a := BackendFor(q, repo);
            && s'.w == s.w[Target(a) := Holding(At(s.w, Target(a)), d, content)]
            && (forall arc :: arc != a.arc ==> (arc in s'.usage <==> arc in s.usage))
            && (forall arc :: arc != a.arc && arc in s.usage ==> s'.usage[arc] == s.usage[arc])
            && Step(q, s, s')
  {
    hide Used, Route, Limit, Read, ReadOrder;
    var a, op := BackendFor(q, repo), BlobWrite(d, content);
    var usage := if Limit(q, repo).Some? then Refreshed(s.usage, a, s.w, hit) else s.usage;
    s' := State(s.w[Target(a) := Holding(At(s.w, Target(a)), d, content)], Bumped(usage, a.arc, |content|));
    assert Gated(q, s, repo, op, hit, s', Ok(()));
  }

  lemma HoldingGenuine(e: Env, truth: Digest -> Bytes, w: World, t: Root, d: Digest, content: Bytes)
    requires Genuine(e, truth, w) && Hash(e, d.algorithm, content) == d && truth(d) == content
    ensures Genuine(e, truth, w[t := Holding(At(w, t), d, content)])
    ensures GainsBlob(w, w[t := Holding(At(w, t), d, content)], t, d, content)
  {
    GenuineAt(e, truth, w, t);
    HoldingTrue(e, truth, At(w, t), d, content);
    hide GenuineVol;
  }

  lemma HoldingTrue(e: Env, truth: Digest -> Bytes, v: Vol, d: Digest, content: Bytes)
    requires GenuineVol(e, truth, v) && Hash(e, d.algorithm, content) == d && truth(d) == content
    ensures GenuineVol(e, truth, Holding(v, d, content))
  {
    hide Hash;
  }

  lemma StartGenuine(e: Env, truth: Digest -> Bytes, t: Root)
    ensures Genuine(e, truth, map[]) && Genuine(e, truth, map[t := EMPTY]) && NoBlobs(map[]) && NoBlobs(map[t := EMPTY])
  {
  }

  lemma FourMakeARun(q: Setup, truth: Digest -> Bytes, ss: seq<State>)
    requires SetupOk(q) && |ss| == 4 && ss[0].usage == map[]
    requires Step(q, ss[0], ss[1]) && Step(q, ss[1], ss[2]) && Step(q, ss[2], ss[3])
    requires Genuine(q.e, truth, ss[0].w) && Genuine(q.e, truth, ss[1].w)
             && Genuine(q.e, truth, ss[2].w) && Genuine(q.e, truth, ss[3].w)
    ensures Begun(q, truth, ss)
  {
    hide Step, Genuine;
  }

  /** From nothing, for every hash function: what a first identity writes, `n` bytes, goes unseen by the entry
      of a second one, which then takes any `l` bytes up to its quota. The volume ends at the sum. */
  lemma FilledTwice(q: Setup, ra: string, rb: string, n: nat, l: nat) returns (truth: Digest -> Bytes, ss: seq<State>)
    requires SetupOk(q) && BackendFor(q, ra).arc != BackendFor(q, rb).arc
    requires Target(BackendFor(q, ra)) in ReadOrder(BackendFor(q, rb))
    requires Limit(q, rb).Some? && l <= Limit(q, rb).value && l < U64
    requires n < U64 && (Limit(q, ra).Some? ==> n <= Limit(q, ra).value)
    ensures Begun(q, truth, ss) && |ss| == 4 && ss[0] == State(map[], map[])
    ensures var b := BackendFor(q, rb);
            && Used(ReadOrder(b), ss[0].w) == 0 && Used(ReadOrder(b), ss[1].w) == 0 && Used(ReadOrder(b), ss[2].w) == n
            && Used(ReadOrder(b), ss[3].w) == n + l
            && b.arc in ss[2].usage && ss[2].usage[b.arc] == 0
  {
    hide Used, Route, Limit, Read, ReadOrder, Genuine, Step, Begun, GainsBlob;
    var a, b := BackendFor(q, ra), BackendFor(q, rb);
    var x, y := Zeros(n), Zeros(l);
    var dx, dy := Hash(q.e, Sha256, x), Hash(q.e, Sha512, y);
    truth := TwoContents(x, y);
    var s0 := State(map[], map[]);
    StartGenuine(q.e, truth, Target(b));
    var s1 := Measured(q, s0.w, rb);
    NoBlobsUsed(ReadOrder(b), s0.w, dx);
    NoBlobsUsed(ReadOrder(b), s1.w, dx);
    NoBlobsUsed(ReadOrder(a), s1.w, dx);
    var s2 := Written(q, s1, ra, dx, x, false);
    HoldingGenuine(q.e, truth, s1.w, Target(a), dx, x);
    GainCounts(q.e, truth, ReadOrder(b), s1.w, s2.w, Target(a), dx, x);
    NoBlobsUsed(ReadOrder(b), s1.w, dy);
    GainReads(q.e, truth, ReadOrder(b), s1.w, s2.w, Target(a), dx, x, dy);
    var s3 := Written(q, s2, rb, dy, y, true);
    HoldingGenuine(q.e, truth, s2.w, Target(b), dy, y);
    assert Target(b) in ReadOrder(b);
    GainCounts(q.e, truth, ReadOrder(b), s2.w, s3.w, Target(b), dy, y);
    ss := [s0, s1, s2, s3];
    FourMakeARun(q, truth, ss);
  }

  /** A volume that has the blob somewhere `b` does not look: pushed again, it is not new, so no quota is asked,
      and it lands on a root of `b`. */
  lemma PushedAgain(q: Setup, ra: string, rb: string, n: nat) returns (truth: Digest -> Bytes, ss: seq<State>)
    requires SetupOk(q) && BackendFor(q, ra).arc != BackendFor(q, rb).arc
    requires Target(BackendFor(q, ra)) in ReadOrder(BackendFor(q, rb)) && Limit(q, rb).Some?
    requires !(Roots(BackendFor(q, ra)) <= Roots(BackendFor(q, rb)))
    ensures Begun(q, truth, ss) && |ss| == 3
    ensures var b := BackendFor(q, rb);
            && Used(ReadOrder(b), ss[0].w) == 0 && Used(ReadOrder(b), ss[1].w) == 0 && Used(ReadOrder(b), ss[2].w) == n
            && b.arc in ss[2].usage && ss[2].usage[b.arc] == 0
  {
    hide Used, Route, Limit, Read, ReadOrder, Genuine, Step, GainsBlob, Lookup;
    var a, b := BackendFor(q, ra), BackendFor(q, rb);
    var root := OtherRoot(a, b);
    var x := Zeros(n);
    var d := Hash(q.e, Sha256, x);
    truth := TwoContents(x, x);
    StartGenuine(q.e, truth, root);
    HoldingGenuine(q.e, truth, map[], root, d, x);
    var s0 := State(map[root := Holding(EMPTY, d, x)], map[]);
    assert s0.w == map[][root := Holding(At(map[], root), d, x)];
    NoBlobsUsed(ReadOrder(b), s0.w, d);
    var s1 := Measured(q, s0.w, rb);
    assert forall r :: At(s1.w, r) == At(s0.w, r);
    GenuineSame(q.e, truth, s0.w, s1.w);
    NoBlobsUsed(ReadOrder(b), s1.w, d);
    ReadHeld(ReadOrder(a), s1.w, root, d);
    var s2 := Rewritten(q, s1, ra, d, x);
    HoldingGenuine(q.e, truth, s1.w, Target(a), d, x);
    GainCounts(q.e, truth, ReadOrder(b), s1.w, s2.w, Target(a), d, x);
    ss := [s0, s1, s2];
  }

  lemma ReadHeld(o: seq<Root>, w: World, root: Root, d: Digest)
    requires root in o && d in At(w, root).blobs
    ensures Read(o, w, Blob(d)).Some?
  {
    ReadFinds(o, w, Blob(d));
    assert Lookup(At(w, root), Blob(d)).Some?;
  }

  /** A write of a blob that the identity reads already: no quota is asked and no entry changes. */
  lemma Rewritten(q: Setup, s: State, repo: string, d: Digest, content: Bytes) returns (s': State)
    requires SetupOk(q) && Hash(q.e, d.algorithm, content) == d
    requires Read(ReadOrder(BackendFor(q, repo)), s.w, Blob(d)).Some?
    ensures var a := BackendFor(q, repo);
            s' == State(s.w[Target(a) := Holding(At(s.w, Target(a)), d, content)], s.usage)
    ensures Step(q, s, s')
  {
    hide Used, Route, Limit, Read, ReadOrder;
    var a := BackendFor(q, repo);
    s' := State(s.w[Target(a) := Holding(At(s.w, Target(a)), d, content)], s.usage);
    assert Gated(q, s, repo, BlobWrite(d, content), true, s', Ok(()));
  }

  lemma OtherRoot(a: Backend, b: Backend) returns (root: Root)
    requires Valid(a) && Valid(b) && !(Roots(a) <= Roots(b))
    ensures root in ReadOrder(a) && root !in ReadOrder(b)
  {
    root :| root in Roots(a) && root !in Roots(b);
  }

  lemma GenuineSame(e: Env, truth: Digest -> Bytes, w: World, w': World)
    requires Genuine(e, truth, w) && forall root :: At(w', root) == At(w, root)
    ensures Genuine(e, truth, w')
  {
    hide GenuineVol;
    forall root | root in w' ensures GenuineVol(e, truth, w'[root]) { GenuineAt(e, truth, w, root); }
  }

  // ---- Exactly when ---------------------------------------------------------------------------

  /** In no run of a new decorator does the cache understate `b`. */
  ghost predicate StaysNotLow(q: Setup, b: Backend)
    requires SetupOk(q) && Valid(b)
  {
    forall truth, ss, i :: Begun(q, truth, ss) && 0 <= i < |ss| && SmallUntil(b, ss, i) ==> NotLow(ss[i], b)
  }

  ghost predicate SmallUntil(b: Backend, ss: seq<State>, i: int)
    requires Valid(b) && i <= |ss|
  {
    forall j :: 0 <= j < i ==> Used(ReadOrder(b), ss[j].w) < U64
  }

  /** Some repository makes the decorator measure `b`. */
  ghost predicate IsMeasured(q: Setup, b: Backend)
    requires SetupOk(q)
  {
    exists repo :: BackendFor(q, repo) == b && Limit(q, repo).Some?
  }

  lemma {:induction false} NeverCached(q: Setup, truth: Digest -> Bytes, b: Backend, ss: seq<State>, i: nat)
    requires SetupOk(q) && Valid(b) && Identified(q, b) && !IsMeasured(q, b) && Begun(q, truth, ss) && i < |ss|
    ensures b.arc !in ss[i].usage
  {
    hide Step, Identified, IsMeasured, Genuine;
    if i > 0 {
      NeverCached(q, truth, b, ss, i - 1);
      var k := i - 1;
      assert Step(q, ss[k], ss[k + 1]);
      StepNotCached(q, b, ss[k], ss[i]);
    }
  }

  lemma StepNotCached(q: Setup, b: Backend, s: State, s': State)
    requires SetupOk(q) && Identified(q, b) && !IsMeasured(q, b) && Step(q, s, s') && b.arc !in s.usage
    ensures b.arc !in s'.usage
  {
    hide Used, Route, Limit, Apply, Read, ReadOrder, IsGated, NoNewBlobs, Gated;
    if repo, op, hit, r :| IsGated(op) && Gated(q, s, repo, op, hit, s', r) {
      if BackendFor(q, repo) == b { NoQuotaNoEntry(q, s, repo, op, hit, s', r); }
      else { EntryElsewhere(q, s, repo, op, hit, s', r, b.arc); }
    }
  }

  lemma NoQuotaNoEntry(q: Setup, s: State, repo: string, op: Op, hit: bool, s': State, r: Result<()>)
    requires SetupOk(q) && IsGated(op) && Gated(q, s, repo, op, hit, s', r) && Limit(q, repo).None?
    ensures BackendFor(q, repo).arc !in s.usage ==> BackendFor(q, repo).arc !in s'.usage
  {
    hide Used, Route, Limit, Apply, Read, ReadOrder;
  }

  /** The exact condition for the cache, read off the rules and quotas: it never understates a backend, in any
      run over any volumes, if and only if nobody grows the backend behind its entry, or nothing ever makes
      an entry for it. */
  lemma CacheNeverLowIff(q: Setup, b: Backend)
    requires SetupOk(q) && Valid(b) && Identified(q, b)
    ensures StaysNotLow(q, b) <==> Unshared(q, b) || !IsMeasured(q, b)
  {
    hide Identified, GrowsBehind, Begun, SmallUntil, NotLow, Route, Limit, Used, ReadOrder;
    if Unshared(q, b) || !IsMeasured(q, b) {
      forall truth, ss, i | Begun(q, truth, ss) && 0 <= i < |ss| && SmallUntil(b, ss, i) ensures NotLow(ss[i], b) {
        BegunIsNotLow(q, truth, b, ss, i);
      }
    } else {
      var ra :| GrowsBehind(q, b, ra);
      var rb :| BackendFor(q, rb) == b && Limit(q, rb).Some?;
      var truth, ss := GrownBehind(q, b, ra, rb);
      assert Begun(q, truth, ss) && SmallUntil(b, ss, 2) && !NotLow(ss[2], b);
    }
  }

  lemma BegunIsNotLow(q: Setup, truth: Digest -> Bytes, b: Backend, ss: seq<State>, i: nat)
    requires SetupOk(q) && Valid(b) && Identified(q, b) && (Unshared(q, b) || !IsMeasured(q, b))
    requires Begun(q, truth, ss) && i < |ss| && SmallUntil(b, ss, i)
    ensures NotLow(ss[i], b)
  {
    hide Identified, Unshared, IsMeasured, Runs, Used, ReadOrder;
    if Unshared(q, b) { CacheNeverLow(q, truth, b, ss, i); } else { NeverCached(q, truth, b, ss, i); }
  }

  /** The first two steps of either failing run. */
  lemma GrownBehind(q: Setup, b: Backend, ra: string, rb: string) returns (truth: Digest -> Bytes, ss: seq<State>)
    requires SetupOk(q) && Valid(b) && GrowsBehind(q, b, ra) && BackendFor(q, rb) == b && Limit(q, rb).Some?
    ensures Begun(q, truth, ss) && |ss| > 2 && SmallUntil(b, ss, 2) && !NotLow(ss[2], b)
  {
    hide Route, Limit, Used, ReadOrder, Roots, Begun;
    if Limit(q, ra) == Some(0) {
      truth, ss := PushedAgain(q, ra, rb, 1);
    } else {
      truth, ss := FilledTwice(q, ra, rb, 1, 0);
    }
  }

  /** In no run of a new decorator does `b` grow above `m`. */
  ghost predicate Caps(q: Setup, b: Backend, m: nat)
    requires SetupOk(q) && Valid(b)
  {
    forall truth, ss: seq<State>, i ::
      Begun(q, truth, ss) && 0 <= i < |ss| && Used(ReadOrder(b), ss[0].w) <= m ==> Used(ReadOrder(b), ss[i].w) <= m
  }

  /** The exact condition for the cap: the largest quota `m` < 2^64-1 of a volume caps it in every run if and
      only if nobody grows the volume behind its cache entry. */
  lemma QuotaCapsIff(q: Setup, b: Backend, m: nat, rb: string)
    requires SetupOk(q) && Valid(b) && Identified(q, b) && Capped(q, b, m) && m < U64 - 1
    requires BackendFor(q, rb) == b && Limit(q, rb) == Some(m)
    ensures Caps(q, b, m) <==> Unshared(q, b)
  {
    hide Identified, Capped, GrowsBehind, Begun, Route, Limit, Used, ReadOrder, NotLow;
    if Unshared(q, b) {
      forall truth, ss: seq<State>, i | Begun(q, truth, ss) && 0 <= i < |ss| && Used(ReadOrder(b), ss[0].w) <= m
        ensures Used(ReadOrder(b), ss[i].w) <= m
      {
        BegunIsCapped(q, truth, b, m, ss, i);
      }
    } else {
      var ra :| GrowsBehind(q, b, ra);
      var truth, ss, i := OverTheCap(q, b, m, ra, rb);
      assert Begun(q, truth, ss) && Used(ReadOrder(b), ss[i].w) > m;
    }
  }

  lemma BegunIsCapped(q: Setup, truth: Digest -> Bytes, b: Backend, m: nat, ss: seq<State>, i: nat)
    requires SetupOk(q) && Valid(b) && Identified(q, b) && Capped(q, b, m) && m < U64 - 1 && Unshared(q, b)
    requires Begun(q, truth, ss) && i < |ss| && Used(ReadOrder(b), ss[0].w) <= m
    ensures Used(ReadOrder(b), ss[i].w) <= m
  {
    hide Identified, Capped, Unshared, Runs, Used, ReadOrder;
    QuotaCaps(q, truth, b, m, ss, i);
  }

  lemma OverTheCap(q: Setup, b: Backend, m: nat, ra: string, rb: string)
    returns (truth: Digest -> Bytes, ss: seq<State>, i: nat)
    requires SetupOk(q) && Valid(b) && GrowsBehind(q, b, ra) && m < U64 - 1
    requires BackendFor(q, rb) == b && Limit(q, rb) == Some(m)
    ensures Begun(q, truth, ss) && i < |ss| && Used(ReadOrder(b), ss[0].w) == 0 && Used(ReadOrder(b), ss[i].w) > m
  {
    hide Route, Limit, Used, ReadOrder, Roots, Begun;
    if Limit(q, ra) == Some(0) {
      truth, ss := PushedAgain(q, ra, rb, m + 1);
      i := 2;
    } else {
      truth, ss := FilledTwice(q, ra, rb, 1, m);
      i := 3;
    }
  }

  // ---- Several identities over one volume -----------------------------------------------------

  function SumOf(caps: seq<nat>): nat { if caps == [] then 0 else SumOf(caps[..|caps| - 1]) + caps[|caps| - 1] }

  /** What an entry understates its cap by. */
  function Room(cap: nat, usage: Usage, arc: nat): nat {
    if arc in usage && usage[arc] < cap then cap - usage[arc] else 0
  }

  function Rooms(ids: seq<Backend>, caps: seq<nat>, usage: Usage): nat
    requires |ids| == |caps|
  {
    if ids == [] then 0
    else
      var n := |ids| - 1;
      Rooms(ids[..n], caps[..n], usage) + Room(caps[n], usage, ids[n].arc)
  }

  ghost predicate Distinct(ids: seq<Backend>) { forall i, j :: 0 <= i < j < |ids| ==> ids[i].arc != ids[j].arc }

  lemma {:induction false} RoomsSame(ids: seq<Backend>, caps: seq<nat>, usage: Usage, usage': Usage)
    requires |ids| == |caps| && forall i :: 0 <= i < |ids| ==>
             Room(caps[i], usage', ids[i].arc) == Room(caps[i], usage, ids[i].arc)
    ensures Rooms(ids, caps, usage') == Rooms(ids, caps, usage)
  {
    hide Room;
    if ids != [] { RoomsSame(ids[..|ids| - 1], caps[..|ids| - 1], usage, usage'); }
  }

  /** Only the entry of one identity changed. */
  lemma {:induction false} RoomsAt(ids: seq<Backend>, caps: seq<nat>, usage: Usage, usage': Usage, i: nat)
    requires |ids| == |caps| && i < |ids|
    requires forall j :: 0 <= j < |ids| && j != i ==>
             Room(caps[j], usage', ids[j].arc) == Room(caps[j], usage, ids[j].arc)
    ensures Rooms(ids, caps, usage') + Room(caps[i], usage, ids[i].arc) ==
            Rooms(ids, caps, usage) + Room(caps[i], usage', ids[i].arc)
  {
    hide Room;
    var n := |ids| - 1;
    if i == n {
      RoomsSame(ids[..n], caps[..n], usage, usage');
    } else {
      RoomsAt(ids[..n], caps[..n], usage, usage', i);
    }
  }

  lemma {:induction false} RoomsBound(ids: seq<Backend>, caps: seq<nat>, usage: Usage, i: nat)
    requires |ids| == |caps| && i < |ids|
    ensures Rooms(ids, caps, usage) - Room(caps[i], usage, ids[i].arc) <= SumOf(caps) - caps[i]
    ensures Rooms(ids, caps, usage) <= SumOf(caps) && caps[i] <= SumOf(caps)
  {
    var n := |ids| - 1;
    if n > 0 { RoomsBound(ids[..n], caps[..n], usage, if i < n then i else 0); }
  }

  /** A repository counts against the cap of its identity, or cannot grow the shared roots. */
  ghost predicate Accounted(q: Setup, ids: seq<Backend>, caps: seq<nat>, repo: string)
    requires SetupOk(q) && |ids| == |caps| && ids != [] && Valid(ids[0])
  {
    || (exists i :: 0 <= i < |ids| && CountsAs(q, ids[i], caps[i], repo))
    || ((forall i :: 0 <= i < |ids| ==> ids[i].arc != BackendFor(q, repo).arc) && !GrowsBehind(q, ids[0], repo))
  }

  ghost predicate CountsAs(q: Setup, b: Backend, cap: nat, repo: string)
    requires SetupOk(q)
  {
    BackendFor(q, repo) == b && Limit(q, repo).Some? && Limit(q, repo).value <= cap
  }

  /** `ids` are the identities of one set of roots, and no quota of a repository on the i-th exceeds `caps[i]`. */
  ghost predicate Sharing(q: Setup, ids: seq<Backend>, caps: seq<nat>)
    requires SetupOk(q)
  {
    && ids != [] && |ids| == |caps| && Distinct(ids)
    && Valid(ids[0]) && (forall i :: 0 <= i < |ids| ==> Valid(ids[i]) && Roots(ids[i]) == Roots(ids[0]))
    && forall repo :: Accounted(q, ids, caps, repo)
  }

  /** What is there and what the entries would still let in, together. */
  ghost predicate WithinSum(ids: seq<Backend>, caps: seq<nat>, s: State)
    requires ids != [] && |ids| == |caps| && Valid(ids[0])
  {
    Used(ReadOrder(ids[0]), s.w) + Rooms(ids, caps, s.usage) <= SumOf(caps)
  }

  lemma SameRootsSameUsed(e: Env, truth: Digest -> Bytes, a: Backend, b: Backend, w: World)
    requires Valid(a) && Valid(b) && Roots(a) == Roots(b) && Genuine(e, truth, w)
    ensures Used(ReadOrder(a), w) == Used(ReadOrder(b), w)
    ensures forall d :: Read(ReadOrder(a), w, Blob(d)) == Read(ReadOrder(b), w, Blob(d))
  {
    hide Genuine, Logical, Read, Total;
    var o, o' := ReadOrder(a), ReadOrder(b);
    forall d
      ensures Read(o, w, Blob(d)) == Read(o', w, Blob(d))
      ensures d in Logical(o, w).blobs <==> d in Logical(o', w).blobs
      ensures d in Logical(o, w).blobs ==> Logical(o, w).blobs[d] == Logical(o', w).blobs[d]
    {
      AnyOrderReadsTheSame(e, truth, o, o', w, Blob(d));
      LogicalTrue(e, truth, o, w, d);
      LogicalTrue(e, truth, o', w, d);
    }
    assert Logical(o, w).blobs == Logical(o', w).blobs;
  }

  /** What a write through one identity does to its entry and to the bytes in use, when it is capped. */
  lemma CappedWrite(q: Setup, truth: Digest -> Bytes, b: Backend, cap: nat, s: State, repo: string, op: Op, hit: bool,
                    s': State, r: Result<()>)
    requires SetupOk(q) && IsGated(op) && Valid(b) && Genuine(q.e, truth, s.w) && Genuine(q.e, truth, s'.w)
    requires Gated(q, s, repo, op, hit, s', r) && CountsAs(q, b, cap, repo)
    requires cap < U64 - 1 && Used(ReadOrder(b), s.w) < U64
    ensures var used, used' := Used(ReadOrder(b), s.w), Used(ReadOrder(b), s'.w);
            var room, room' := Room(cap, s.usage, b.arc), Room(cap, s'.usage, b.arc);
            used' + room' <= used + room || used' + room' <= used + Room(cap, map[b.arc := used], b.arc)
  {
    hide Genuine, Used, Route, Limit, Apply, Read, ReadOrder, Incoming;
    GatedHere(q, truth, b, s, repo, op, hit, s', r);
  }

  lemma SharedStep(q: Setup, truth: Digest -> Bytes, ids: seq<Backend>, caps: seq<nat>, s: State, s': State)
    requires SetupOk(q) && Sharing(q, ids, caps) && SumOf(caps) < U64 - 1
    requires Genuine(q.e, truth, s.w) && Genuine(q.e, truth, s'.w) && Step(q, s, s') && WithinSum(ids, caps, s)
    ensures WithinSum(ids, caps, s')
  {
    hide Genuine, Used, Route, Limit, Read, ReadOrder, IsGated, NoNewBlobs, Gated, GrowsBehind, Roots, CountsAs;
    if repo, op, hit, r :| IsGated(op) && Gated(q, s, repo, op, hit, s', r) {
      assert Accounted(q, ids, caps, repo);
      if i :| 0 <= i < |ids| && CountsAs(q, ids[i], caps[i], repo) {
        SharedWrite(q, truth, ids, caps, i, s, repo, op, hit, s', r);
      } else {
        GatedElsewhere(q, truth, ids[0], s, repo, op, hit, s', r);
        forall i | 0 <= i < |ids| ensures Room(caps[i], s'.usage, ids[i].arc) == Room(caps[i], s.usage, ids[i].arc) {
          EntryElsewhere(q, s, repo, op, hit, s', r, ids[i].arc);
        }
        RoomsSame(ids, caps, s.usage, s'.usage);
      }
    } else {
      OthersDoNotGrow(q.e, truth, ReadOrder(ids[0]), s.w, s'.w);
    }
  }

  lemma SharedWrite(q: Setup, truth: Digest -> Bytes, ids: seq<Backend>, caps: seq<nat>, i: nat, s: State, repo: string,
                    op: Op, hit: bool, s': State, r: Result<()>)
    requires SetupOk(q) && Sharing(q, ids, caps) && SumOf(caps) < U64 - 1 && i < |ids| && IsGated(op)
    requires Genuine(q.e, truth, s.w) && Genuine(q.e, truth, s'.w) && WithinSum(ids, caps, s)
    requires Gated(q, s, repo, op, hit, s', r) && CountsAs(q, ids[i], caps[i], repo)
    ensures WithinSum(ids, caps, s')
  {
    hide Genuine, Used, Route, Limit, Read, ReadOrder, IsGated, Gated, GrowsBehind, Roots, Accounted, Rooms, SumOf;
    var b := ids[i];
    SameRootsSameUsed(q.e, truth, ids[0], b, s.w);
    SameRootsSameUsed(q.e, truth, ids[0], b, s'.w);
    RoomsBound(ids, caps, s.usage, i);
    CappedWrite(q, truth, b, caps[i], s, repo, op, hit, s', r);
    assert BackendFor(q, repo) == b;
    forall j | 0 <= j < |ids| && j != i
      ensures Room(caps[j], s'.usage, ids[j].arc) == Room(caps[j], s.usage, ids[j].arc)
    {
      assert ids[j].arc != b.arc by { if j < i { assert ids[j].arc != ids[i].arc; }
                                     else { assert ids[i].arc != ids[j].arc; } }
      EntryElsewhere(q, s, repo, op, hit, s', r, ids[j].arc);
    }
    RoomsAt(ids, caps, s.usage, s'.usage, i);
  }

  /** What does hold of a volume opened under several identities, as two rules naming one path open it: the
      caps of the identities add up, so k of them capped at `m` each never take it above k * m. */
  lemma {:induction false} SharedCapsAddUp(q: Setup, truth: Digest -> Bytes, ids: seq<Backend>, caps: seq<nat>,
                                           ss: seq<State>, i: nat)
    requires SetupOk(q) && Sharing(q, ids, caps) && SumOf(caps) < U64 - 1
    requires Begun(q, truth, ss) && i < |ss| && Used(ReadOrder(ids[0]), ss[0].w) <= SumOf(caps)
    ensures WithinSum(ids, caps, ss[i]) && Used(ReadOrder(ids[0]), ss[i].w) <= SumOf(caps)
    ensures forall m :: (forall j :: 0 <= j < |caps| ==> caps[j] <= m) ==> Used(ReadOrder(ids[0]), ss[i].w) <= |ids| * m
  {
    hide Step, Genuine, Used, SumOf, Sharing;
    SharingIds(q, ids, caps);
    if i == 0 {
      RoomsOfNothing(ids, caps);
    } else {
      SharedCapsAddUp(q, truth, ids, caps, ss, i - 1);
      var k := i - 1;
      assert Step(q, ss[k], ss[k + 1]);
      SharedStep(q, truth, ids, caps, ss[k], ss[i]);
    }
    forall m | forall j :: 0 <= j < |caps| ==> caps[j] <= m ensures SumOf(caps) <= |ids| * m { SumUniform(caps, m); }
  }

  lemma SharingIds(q: Setup, ids: seq<Backend>, caps: seq<nat>)
    requires SetupOk(q) && Sharing(q, ids, caps)
    ensures ids != [] && |ids| == |caps| && Valid(ids[0])
  {
    hide Accounted, Distinct;
  }

  lemma {:induction false} RoomsOfNothing(ids: seq<Backend>, caps: seq<nat>)
    requires |ids| == |caps|
    ensures Rooms(ids, caps, map[]) == 0
  {
    if ids != [] { RoomsOfNothing(ids[..|ids| - 1], caps[..|ids| - 1]); }
  }

  lemma {:induction false} SumUniform(caps: seq<nat>, m: nat)
    requires forall j :: 0 <= j < |caps| ==> caps[j] <= m
    ensures SumOf(caps) <= |caps| * m
  {
    if caps != [] {
      SumUniform(caps[..|caps| - 1], m);
      assert |caps| * m == (|caps| - 1) * m + m;
    }
  }
}
