/** The replication pass (`replicate::run`, `copy_into`): whatever the primary partition reaches from the
    selected tags is copied to every other partition. */
module Replicating {
  import opened Content
  import opened Volumes
  import opened Backends
  import opened Devices
  import opened Walks
  import opened Copying
  import opened Merging
  import opened Migrating
  import opened Backfilling
  import Glob

  // ---- What a pass wants --------------------------------------------------------------------

  datatype Wanted = Wanted(blobs: set<Digest>, manis: set<Pair>, tags: TagMap)

  ghost function WantedOf(e: Env, o: seq<Root>, w: World, repos: set<string>, glob: Option<string>): Wanted {
    Wanted(set repo, d | repo in repos && d in BlobsFor(e, o, w, repo, glob) :: d,
           set repo, d | repo in repos && d in ManisFor(e, o, w, repo, glob) :: (repo, d),
           map p | p in TagNamesOf(o, w, repos, glob) :: TagDigest(e, o, w, p))
  }

  predicate Includes(n: Wanted, k: Key) {
    match k
    case Blob(d) => d in n.blobs
    case Mani(r, d) => (r, d) in n.manis
    case Tagged(r, t) => (r, t) in n.tags
  }

  function TagNamesOf(o: seq<Root>, w: World, repos: set<string>, glob: Option<string>): set<(string, string)> {
    set repo, t | repo in repos && t in TagsFor(o, w, repo, glob) && Read(o, w, Tagged(repo, t)).Some? :: (repo, t)
  }

  function TagDigest(e: Env, o: seq<Root>, w: World, p: (string, string)): Digest {
    var read := Read(o, w, Tagged(p.0, p.1));
    Hash(e, Sha256, if read.Some? then read.value else [])
  }

  function ReposOn(o: seq<Root>, w: World): set<string> { NamesIn(Elements(o), w, Repos) }

  ghost function WantedNow(e: Env, o: seq<Root>, w: World, glob: Option<string>): Wanted {
    WantedOf(e, o, w, ReposOn(o, w), glob)
  }

  lemma WantedSnoc(e: Env, o: seq<Root>, w: World, repos: set<string>, repo: string, glob: Option<string>)
    requires repo !in repos
    ensures var was, now := WantedOf(e, o, w, repos, glob), WantedOf(e, o, w, repos + {repo}, glob);
            && now.blobs == was.blobs + BlobsFor(e, o, w, repo, glob)
            && now.manis == was.manis + (set d | d in ManisFor(e, o, w, repo, glob) :: (repo, d))
            && now.tags == was.tags + TagsAmong(e, o, w, repo, TagsFor(o, w, repo, glob))
  {
    hide BlobsFor, ManisFor, TagsFor, Read, Hash;
    TagsSnoc(e, o, w, repos, repo, glob);
    hide TagsAmong, TagNamesOf;
  }

  lemma TagsSnoc(e: Env, o: seq<Root>, w: World, repos: set<string>, repo: string, glob: Option<string>)
    requires repo !in repos
    ensures WantedOf(e, o, w, repos + {repo}, glob).tags ==
            WantedOf(e, o, w, repos, glob).tags + TagsAmong(e, o, w, repo, TagsFor(o, w, repo, glob))
  {
    hide BlobsFor, ManisFor, TagsFor, Read, Hash;
    assert TagNamesOf(o, w, repos + {repo}, glob) ==
           TagNamesOf(o, w, repos, glob) + TagsAmong(e, o, w, repo, TagsFor(o, w, repo, glob)).Keys;
  }

  lemma WantedNothing(e: Env, o: seq<Root>, w: World, glob: Option<string>)
    ensures WantedOf(e, o, w, {}, glob) == Wanted({}, {}, map[])
  {
    hide BlobsFor, ManisFor, TagsFor, Read, Hash;
    assert TagNamesOf(o, w, {}, glob) == {};
  }

  ghost predicate AnyDangling(o: seq<Root>, w: World, glob: Option<string>) {
    exists repo :: repo in ReposOn(o, w) && DanglingFor(o, w, repo, glob)
  }

  /** The collection phase. */
  method Gather(disks: Disks, primary: Backend, glob: Option<string>, ghost truth: Digest -> Bytes)
    returns (r: Result<()>, blobs: set<Digest>, manis: set<Pair>, tags: TagMap)
    requires Valid(primary) && Genuine(disks.env, truth, disks.vols)
    modifies disks`faults
    ensures r.Ok? || r.NotFound? || r.Fault?
    ensures disks.faults >= old(disks.faults) && (r.Fault? <==> disks.faults > old(disks.faults))
    ensures r.NotFound? ==> AnyDangling(ReadOrder(primary), disks.vols, glob)
    ensures r.Ok? ==> && !AnyDangling(ReadOrder(primary), disks.vols, glob)
                      && Wanted(blobs, manis, tags) == WantedNow(disks.env, ReadOrder(primary), disks.vols, glob)
  {
    hide Genuine, ReadOrder, NamesIn, DanglingFor, BlobsFor, ManisFor, TagsFor, TagsAmong, WantedOf;
    ghost var e, o, w := disks.env, ReadOrder(primary), disks.vols;
    blobs, manis, tags := {}, {}, map[];
    var listed := disks.ListNames(primary, Repos);
    if !listed.Ok? { return Fault, blobs, manis, tags; }
    assert listed.value == ReposOn(o, w);
    var todo := listed.value;
    WantedNothing(e, o, w, glob);
    assert listed.value - todo == {};
    while todo != {}
      invariant todo <= listed.value && disks.faults == old(disks.faults)
      invariant Wanted(blobs, manis, tags) == WantedOf(e, o, w, listed.value - todo, glob)
      invariant forall repo :: repo in listed.value - todo ==> !DanglingFor(o, w, repo, glob)
    {
      var repo :| repo in todo;
      var one, m, b, t := Collect(disks, primary, repo, glob, truth);
      if !one.Ok? { return one, blobs, manis, tags; }
      WantedSnoc(e, o, w, listed.value - todo, repo, glob);
      assert listed.value - (todo - {repo}) == listed.value - todo + {repo};
      blobs, manis, tags := blobs + b, manis + (set d | d in m :: (repo, d)), tags + t;
      todo := todo - {repo};
    }
    assert listed.value - todo == listed.value;
    r := Ok(());
  }

  // ---- What a pass changes ------------------------------------------------------------------

  /** A root gained wanted content and nothing else, and lost nothing but older values of wanted tags. */
  ghost predicate AddsOnly(v: Vol, v': Vol, n: Wanted) {
    && v.blobs.Keys <= v'.blobs.Keys <= v.blobs.Keys + n.blobs
    && v.manifests.Keys <= v'.manifests.Keys
    && (forall p :: p in v'.manifests ==> p in v.manifests || p in n.manis || p in Tagging(n.tags))
    && v.tags.Keys <= v'.tags.Keys
    && (forall p :: p in v'.tags ==>
        (p in v.tags && v'.tags[p] == v.tags[p]) || (p in n.tags && v'.tags[p] == n.tags[p]))
    && v'.dirs <= v.dirs + Firsts(n.manis) + Firsts(Tagging(n.tags)) && v.dirs <= v'.dirs
    && v'.uploads == v.uploads
  }

  lemma AddsTwice(v: Vol, v': Vol, v'': Vol, n: Wanted)
    requires AddsOnly(v, v', n) && AddsOnly(v', v'', n)
    ensures AddsOnly(v, v'', n)
  {
    hide Tagging, Firsts;
  }

  lemma GrownAddsOnly(v: Vol, b: map<Digest, Bytes>, m: map<Pair, Bytes>, g: TagMap, n: Wanted)
    requires b.Keys <= n.blobs && m.Keys <= n.manis + Tagging(n.tags)
    requires forall p :: p in g ==> p in n.tags && g[p] == n.tags[p]
    ensures AddsOnly(v, Grown(v, b, m, g), n)
  {
    forall r | r in ReposOf(m) ensures r in Firsts(n.manis) + Firsts(Tagging(n.tags)) {
      var p :| p in m && p.0 == r;
    }
    hide Tagging, Firsts, ReposOf;
  }

  /** A secondary holds everything wanted that the primary had. */
  ghost predicate Landed(b: Backend, o: seq<Root>, w: World, w': World, n: Wanted)
    requires Valid(b)
  {
    && (forall d :: d in n.blobs && Read(o, w, Blob(d)).Some? ==> Read(ReadOrder(b), w', Blob(d)).Some?)
    && (forall p: Pair :: p in n.manis && Read(o, w, Mani(p.0, p.1)).Some? ==>
        Read(ReadOrder(b), w', Mani(p.0, p.1)).Some?)
    && (forall p :: p in n.tags && Read(o, w, Mani(p.0, n.tags[p])).Some? ==> Points(At(w', Target(b)), p, n.tags[p]))
  }

  ghost predicate Points(v: Vol, p: (string, string), d: Digest) {
    p in v.tags && v.tags[p] == d && (p.0, d) in v.manifests
  }

  /** Blobs that appeared anywhere were readable on the primary. */
  ghost predicate OnlyHad(o: seq<Root>, w: World, w': World) {
    forall root, d :: d in At(w', root).blobs ==> d in At(w, root).blobs || Read(o, w, Blob(d)).Some?
  }

  /** Between two fan-outs: `w` as collected, `w'` now. */
  ghost predicate Spread(e: Env, truth: Digest -> Bytes, o: seq<Root>, w: World, w': World, n: Wanted) {
    && Genuine(e, truth, w') && Grows(w, w')
    && (forall root :: AddsOnly(At(w, root), At(w', root), n)) && OnlyHad(o, w, w')
    && forall k: Key :: !k.Tagged? ==> Read(o, w', k) == Read(o, w, k)
  }

  lemma SpreadStart(e: Env, truth: Digest -> Bytes, o: seq<Root>, w: World, n: Wanted)
    requires Genuine(e, truth, w)
    ensures Spread(e, truth, o, w, w, n)
  {
    hide Read, Lookup;
  }

  lemma GrowsTwice(w: World, w': World, w'': World)
    requires Grows(w, w') && Grows(w', w'')
    ensures Grows(w, w'')
  {
    hide Lookup;
  }

  /** One copy, finished or not, is one more spreading step. */
  lemma SpreadStep(e: Env, truth: Digest -> Bytes, o: seq<Root>, od: seq<Root>, w: World, mid: World, w': World,
                   t: Root, n: Wanted, b: map<Digest, Bytes>, m: map<Pair, Bytes>, g: TagMap)
    requires Spread(e, truth, o, w, mid, n)
    requires PartCopy(e, truth, o, od, mid, w', t, n.blobs, n.manis, n.tags, b, m, g)
    ensures Spread(e, truth, o, w, w', n) && Genuine(e, truth, w')
  {
    PartCopyGrows(e, truth, o, od, mid, w', t, n.blobs, n.manis, n.tags, b, m, g);
    forall root ensures AddsOnly(At(w, root), At(w', root), n) {
      StepAddsOnly(e, truth, o, od, w, mid, w', t, n, b, m, g, root);
    }
    forall k: Key | !k.Tagged? ensures Read(o, w', k) == Read(o, mid, k) {
      SourceGainsNothing(e, truth, o, od, mid, w', t, n.blobs, n.manis, n.tags, b, m, g, k);
    }
    StepOnlyHad(e, truth, o, od, w, mid, w', t, n, b, m, g);
    hide PartCopy, Genuine, AddsOnly, Grows, Read;
    GrowsTwice(w, mid, w');
    assert Genuine(e, truth,
                   w') by { PartHasTrueBlobs(e, truth, o, od, mid, w', t, n.blobs, n.manis, n.tags, b, m, g); }
  }

  lemma StepOnlyHad(e: Env, truth: Digest -> Bytes, o: seq<Root>, od: seq<Root>, w: World, mid: World, w': World,
                    t: Root, n: Wanted, b: map<Digest, Bytes>, m: map<Pair, Bytes>, g: TagMap)
    requires OnlyHad(o, w, mid) && forall k: Key :: !k.Tagged? ==> Read(o, mid, k) == Read(o, w, k)
    requires PartCopy(e, truth, o, od, mid, w', t, n.blobs, n.manis, n.tags, b, m, g)
    ensures OnlyHad(o, w, w')
  {
    hide Genuine, TrueBlobs, TrueManis, Tagging, Read;
    forall root, d | d in At(w', root).blobs ensures d in At(w, root).blobs || Read(o, w, Blob(d)).Some? {
      assert d in At(mid, root).blobs || d in b;
      assert d in b ==> Read(o, mid, Blob(d)).Some?;
    }
  }

  lemma StepAddsOnly(e: Env, truth: Digest -> Bytes, o: seq<Root>, od: seq<Root>, w: World, mid: World, w': World,
                     t: Root, n: Wanted, b: map<Digest, Bytes>, m: map<Pair, Bytes>, g: TagMap, root: Root)
    requires AddsOnly(At(w, root), At(mid, root), n)
    requires PartCopy(e, truth, o, od, mid, w', t, n.blobs, n.manis, n.tags, b, m, g)
    ensures AddsOnly(At(w, root), At(w', root), n)
  {
    hide Grown, AddsOnly, Genuine, TrueBlobs, TrueManis, Tagging, Read;
    if root == t {
      GrownAddsOnly(At(mid, t), b, m, g, n);
      AddsTwice(At(w, t), At(mid, t), At(w', t), n);
    }
  }

  /** A secondary just copied to has landed ... */
  lemma JustLanded(e: Env, truth: Digest -> Bytes, o: seq<Root>, b: Backend, w: World, mid: World, w': World, n: Wanted,
                   bs: map<Digest, Bytes>, m: map<Pair, Bytes>, g: TagMap)
    requires Valid(b) && Spread(e, truth, o, w, mid, n)
    requires PartCopy(e, truth, o, ReadOrder(b), mid, w', Target(b), n.blobs, n.manis, n.tags, bs, m, g)
    requires FullCopy(o, ReadOrder(b), mid, n.blobs, n.manis, n.tags, bs, m, g)
    ensures Landed(b, o, w, w', n)
  {
    hide Genuine, Grows, AddsOnly, PartCopy, FullCopy, Read;
    var od := ReadOrder(b);
    assert Genuine(e, truth, mid);
    forall d | d in n.blobs && Read(o, w, Blob(d)).Some? ensures Read(od, w', Blob(d)).Some? {
      CopyMerges(e, truth, o, od, mid, w', Target(b), n.blobs, n.manis, n.tags, bs, m, g, Blob(d));
    }
    forall p: Pair | p in n.manis && Read(o, w, Mani(p.0, p.1)).Some? ensures Read(od, w', Mani(p.0, p.1)).Some? {
      CopyMerges(e, truth, o, od, mid, w', Target(b), n.blobs, n.manis, n.tags, bs, m, g, Mani(p.0, p.1));
    }
    forall p | p in n.tags && Read(o, w, Mani(p.0, n.tags[p])).Some? ensures Points(At(w', Target(b)), p, n.tags[p]) {
      TagLanded(e, truth, o, b, mid, w', n, bs, m, g, p);
    }
  }

  lemma TagLanded(e: Env, truth: Digest -> Bytes, o: seq<Root>, b: Backend, w: World, w': World, n: Wanted,
                  bs: map<Digest, Bytes>, m: map<Pair, Bytes>, g: TagMap, p: (string, string))
    requires Valid(b) && PartCopy(e, truth, o, ReadOrder(b), w, w', Target(b), n.blobs, n.manis, n.tags, bs, m, g)
    requires FullCopy(o, ReadOrder(b), w, n.blobs, n.manis, n.tags, bs, m, g)
    requires p in n.tags && Read(o, w, Mani(p.0, n.tags[p])).Some?
    ensures Points(At(w', Target(b)), p, n.tags[p])
  {
    hide Genuine, TrueBlobs, TrueManis, Read, ReadOrder;
    assert (p.0, n.tags[p]) in Tagging(n.tags);
    assert p in g && (p.0, n.tags[p]) in m;
  }

  // ... and later copies do not take that away.
  lemma StaysLanded(e: Env, truth: Digest -> Bytes, o: seq<Root>, b: Backend, w: World, mid: World, w': World,
                    n: Wanted)
    requires Valid(b) && Landed(b, o, w, mid, n) && Genuine(e, truth, mid) && Genuine(e, truth, w') && Grows(mid, w')
    requires AddsOnly(At(mid, Target(b)), At(w', Target(b)), n)
    ensures Landed(b, o, w, w', n)
  {
    hide Genuine, Grows, Read, ReadOrder;
    GrowsPreserves(e, truth, ReadOrder(b), mid, w');
  }

  lemma CopyStaysLanded(e: Env, truth: Digest -> Bytes, o: seq<Root>, od: seq<Root>, c: Backend, w: World, mid: World,
                        w': World, t: Root, n: Wanted, b: map<Digest, Bytes>, m: map<Pair, Bytes>, g: TagMap)
    requires Valid(c) && Spread(e, truth, o, w, mid, n) && Landed(c, o, w, mid, n)
    requires PartCopy(e, truth, o, od, mid, w', t, n.blobs, n.manis, n.tags, b, m, g)
    ensures Landed(c, o, w, w', n)
  {
    hide Genuine, Grows, Read, Landed, ReadOrder;
    PartCopyGrows(e, truth, o, od, mid, w', t, n.blobs, n.manis, n.tags, b, m, g);
    SelfAdds(At(mid, Target(c)), n);
    StepAddsOnly(e, truth, o, od, mid, mid, w', t, n, b, m, g, Target(c));
    StaysLanded(e, truth, o, c, w, mid, w', n);
  }

  lemma SelfAdds(v: Vol, n: Wanted)
    ensures AddsOnly(v, v, n)
  {
  }

  // ---- The pass -----------------------------------------------------------------------------

  ghost predicate AllLanded(multi: Backend, count: nat, o: seq<Root>, w: World, w': World, n: Wanted)
    requires Valid(multi) && multi.Multi? && count <= |multi.partitions|
  {
    forall i :: 0 <= i < count && i != multi.primary ==> Landed(multi.partitions[i].storage, o, w, w', n)
  }

  /** Only write targets of secondaries were touched. */
  ghost predicate Touched(multi: Backend, count: nat, w: World, w': World)
    requires Valid(multi) && multi.Multi? && count <= |multi.partitions|
  {
    forall root :: At(w', root) == At(w, root)
                   || exists i :: 0 <= i < count && i != multi.primary && root == Target(multi.partitions[i].storage)
  }

  lemma NothingTouched(multi: Backend, w: World)
    requires Valid(multi) && multi.Multi?
    ensures Touched(multi, 0, w, w)
  {
  }

  lemma TouchedMore(e: Env, truth: Digest -> Bytes, multi: Backend, i: nat, o: seq<Root>, w: World, mid: World,
                    w': World, n: Wanted, b: map<Digest, Bytes>, m: map<Pair, Bytes>, g: TagMap)
    requires Valid(multi) && multi.Multi? && i < |multi.partitions| && i != multi.primary && Touched(multi, i, w, mid)
    requires var dst := multi.partitions[i].storage;
             PartCopy(e, truth, o, ReadOrder(dst), mid, w', Target(dst), n.blobs, n.manis, n.tags, b, m, g)
    ensures Touched(multi, i + 1, w, w')
  {
    hide Genuine, TrueBlobs, TrueManis, Grown, BlobsToCopy, ManisOf, ReadOrder;
  }

  /** A completed pass from `w` to `w'`. */
  ghost predicate Pass(e: Env, truth: Digest -> Bytes, multi: Backend, glob: Option<string>, w: World, w': World)
    requires Valid(multi) && multi.Multi?
  {
    var o := ReadOrder(multi.partitions[multi.primary].storage);
    var n := WantedNow(e, o, w, glob);
    && !AnyDangling(o, w, glob) && Spread(e, truth, o, w, w', n)
    && AllLanded(multi, |multi.partitions|, o, w, w', n) && Touched(multi, |multi.partitions|, w, w')
  }

  /** Nothing to do: every secondary can already read everything wanted that the primary can. */
  ghost predicate Synced(e: Env, multi: Backend, glob: Option<string>, w: World)
    requires Valid(multi) && multi.Multi?
  {
    var o := ReadOrder(multi.partitions[multi.primary].storage);
    var n := WantedNow(e, o, w, glob);
    forall i :: 0 <= i < |multi.partitions| && i != multi.primary ==> Reads(multi.partitions[i].storage, o, w, n)
  }

  ghost predicate Reads(b: Backend, o: seq<Root>, w: World, n: Wanted)
    requires Valid(b)
  {
    && (forall d :: d in n.blobs && Read(o, w, Blob(d)).Some? ==> Read(ReadOrder(b), w, Blob(d)).Some?)
    && (forall p: Pair :: p in n.manis && Read(o, w, Mani(p.0, p.1)).Some? ==>
        Read(ReadOrder(b), w, Mani(p.0, p.1)).Some?)
  }

  datatype ReplicateReport = ReplicateReport(partitionsScanned: nat, blobsCopied: nat, bytesCopied: nat,
                                             manifestsCopied: nat)

  /** What one secondary still lacks, part way through the fan-out. */
  lemma NothingToCopy(e: Env, truth: Digest -> Bytes, o: seq<Root>, b: Backend, w: World, mid: World, n: Wanted)
    requires Valid(b) && Genuine(e, truth, w) && Spread(e, truth, o, w, mid, n) && Reads(b, o, w, n)
    ensures BlobsToCopy(o, ReadOrder(b), mid, n.blobs) == map[] && ManisToCopy(o, ReadOrder(b), mid, n.manis) == map[]
  {
    hide Genuine, Grows, Read, ReadOrder, AddsOnly;
    GrowsPreserves(e, truth, ReadOrder(b), w, mid);
  }

  /** `replicate::run`. A dangling selected tag refuses the pass before anything is written. A fault may
      stop it anywhere, with only wanted content added. When every secondary already reads everything
      wanted, no blob and no manifest is counted as copied. */
  method Run(disks: Disks, multi: Backend, glob: Option<string>, ghost truth: Digest -> Bytes)
    returns (r: Result<ReplicateReport>)
    requires Valid(multi) && multi.Multi? && Genuine(disks.env, truth, disks.vols)
    modifies disks
    ensures r.Ok? || r.NotFound? || r.Fault?
    ensures disks.faults >= old(disks.faults) && (r.Fault? <==> disks.faults > old(disks.faults))
    ensures r.NotFound? ==>
            disks.vols == old(disks.vols)
              && AnyDangling(ReadOrder(multi.partitions[multi.primary].storage), old(disks.vols), glob)
    ensures var o := ReadOrder(multi.partitions[multi.primary].storage);
            Spread(disks.env, truth, o, old(disks.vols), disks.vols, WantedNow(disks.env, o, old(disks.vols), glob))
    ensures r.Ok? ==> Pass(disks.env, truth, multi, glob, old(disks.vols), disks.vols)
    ensures r.Ok? ==> r.value.partitionsScanned == |multi.partitions| - 1
    ensures r.Ok? && Synced(disks.env, multi, glob, old(disks.vols)) ==>
              r.value.blobsCopied == 0 && r.value.bytesCopied == 0 && r.value.manifestsCopied == 0
  {
    hide Genuine, ReadOrder, WantedNow, AnyDangling, Spread, Landed, Touched, Reads, PartCopy, FullCopy, BlobsToCopy,
         ManisToCopy, ManisOf, Tagging, Total;
    var parts, primary := multi.partitions, multi.partitions[multi.primary].storage;
    ghost var e, o, w := disks.env, ReadOrder(primary), disks.vols;
    ghost var n := WantedNow(e, o, w, glob);
    SpreadStart(e, truth, o, w, n);
    NothingTouched(multi, w);
    var done, blobs, manis, tags := Gather(disks, primary, glob, truth);
    if !done.Ok? { return if done.NotFound? then NotFound else Fault; }
    var report := ReplicateReport(0, 0, 0, 0);
    for i := 0 to |parts|
      invariant disks.faults == old(disks.faults) && Genuine(e, truth, disks.vols)
      invariant Spread(e, truth, o, w, disks.vols, n) && AllLanded(multi, i, o, w, disks.vols, n)
      invariant Touched(multi, i, w, disks.vols)
      invariant report.partitionsScanned == if i > multi.primary then i - 1 else i
      invariant Synced(e, multi, glob, w) ==>
                report.blobsCopied == 0 && report.bytesCopied == 0 && report.manifestsCopied == 0
    {
      if i == multi.primary { TouchedSkip(multi, i, w, disks.vols); continue; }
      ghost var mid := disks.vols;
      ghost var b, m, g;
      var copied, blobCount, byteCount, maniCount;
      copied, blobCount, byteCount, maniCount, b, m,
        g := CopyInto(disks, primary, parts[i].storage, blobs, manis, tags, true, truth);
      SpreadStep(e, truth, o, ReadOrder(parts[i].storage), w, mid, disks.vols, Target(parts[i].storage), n, b, m, g);
      if !copied.Ok? { return Fault; }
      LandedMore(e, truth, multi, i, o, w, mid, disks.vols, n, b, m, g);
      TouchedMore(e, truth, multi, i, o, w, mid, disks.vols, n, b, m, g);
      if Synced(e, multi, glob, w) {
        NothingCounted(e, truth, o, parts[i].storage, w, mid, n, b, m, g, blobCount, byteCount, maniCount);
      }
      report := ReplicateReport(report.partitionsScanned + 1, report.blobsCopied + blobCount,
                                report.bytesCopied + byteCount, report.manifestsCopied + maniCount);
    }
    r := Ok(report);
  }

  lemma TouchedSkip(multi: Backend, i: nat, w: World, w': World)
    requires Valid(multi) && multi.Multi? && i < |multi.partitions| && Touched(multi, i, w, w')
    ensures Touched(multi, i + 1, w, w')
  {
    hide ReadOrder;
  }

  lemma NothingCounted(e: Env, truth: Digest -> Bytes, o: seq<Root>, b: Backend, w: World, mid: World, n: Wanted,
                       bs: map<Digest, Bytes>, m: map<Pair, Bytes>, g: TagMap, blobCount: nat, byteCount: nat,
                       maniCount: nat)
    requires Valid(b) && Genuine(e, truth, w) && Spread(e, truth, o, w, mid, n) && Reads(b, o, w, n)
    requires FullCopy(o, ReadOrder(b), mid, n.blobs, n.manis, n.tags, bs, m, g)
    requires blobCount == |bs| && byteCount == Total(bs) && maniCount == |ManisToCopy(o, ReadOrder(b), mid, n.manis)|
    ensures blobCount == 0 && byteCount == 0 && maniCount == 0
  {
    NothingToCopy(e, truth, o, b, w, mid, n);
    hide Genuine, Spread, Reads, BlobsToCopy, ManisToCopy, Total;
    TotalEmpty(bs);
  }

  lemma LandedMore(e: Env, truth: Digest -> Bytes, multi: Backend, i: nat, o: seq<Root>, w: World, mid: World,
                   w': World, n: Wanted, b: map<Digest, Bytes>, m: map<Pair, Bytes>, g: TagMap)
    requires Valid(multi) && multi.Multi? && i < |multi.partitions| && i != multi.primary
    requires Spread(e, truth, o, w, mid, n) && AllLanded(multi, i, o, w, mid, n)
    requires var dst := multi.partitions[i].storage;
             && PartCopy(e, truth, o, ReadOrder(dst), mid, w', Target(dst), n.blobs, n.manis, n.tags, b, m, g)
             && FullCopy(o, ReadOrder(dst), mid, n.blobs, n.manis, n.tags, b, m, g)
    ensures AllLanded(multi, i + 1, o, w, w', n)
  {
    hide Spread, Landed, PartCopy, FullCopy, ReadOrder;
    var dst := multi.partitions[i].storage;
    JustLanded(e, truth, o, dst, w, mid, w', n, b, m, g);
    forall j | 0 <= j < i && j != multi.primary ensures Landed(multi.partitions[j].storage, o, w, w', n) {
      CopyStaysLanded(e, truth, o, ReadOrder(dst), multi.partitions[j].storage, w, mid, w', Target(dst), n, b, m, g);
    }
  }

  // ---- What a pass guarantees ---------------------------------------------------------------

  /** Nothing that any backend could read is lost. */
  lemma ReplicationRemovesNothing(e: Env, truth: Digest -> Bytes, multi: Backend, glob: Option<string>, w: World,
                                  w': World, o: seq<Root>)
    requires Valid(multi) && multi.Multi? && Genuine(e, truth, w) && Pass(e, truth, multi, glob, w, w')
    ensures Preserves(o, w, w')
  {
    hide Genuine, Grows, AnyDangling, WantedNow;
    GrowsPreserves(e, truth, o, w, w');
  }

  /** Convergence: every secondary reads everything wanted exactly as the primary did. */
  lemma ReplicationConverges(e: Env, truth: Digest -> Bytes, multi: Backend, glob: Option<string>, w: World,
                             w': World, i: nat, k: Key)
    requires Valid(multi) && multi.Multi? && Genuine(e, truth, w) && Pass(e, truth, multi, glob, w, w')
    requires i < |multi.partitions| && i != multi.primary
    ensures var o := ReadOrder(multi.partitions[multi.primary].storage);
            var n := WantedNow(e, o, w, glob);
            Read(o, w, k).Some? && Includes(n, k) ==>
              Read(ReadOrder(multi.partitions[i].storage), w', k) == Read(o, w, k)
  {
    hide Genuine, Read, ReadOrder, WantedNow, AnyDangling, Grows, AddsOnly;
    var o, c := ReadOrder(multi.partitions[multi.primary].storage), multi.partitions[i].storage;
    var n := WantedNow(e, o, w, glob);
    assert Landed(c, o, w, w', n);
    if k.Tagged? {
      if (k.repo, k.tag) in n.tags && Read(o, w, k).Some? { TagConverges(e, truth, o, c, w, w', glob, k.repo, k.tag); }
    } else {
      GenuineRead(e, truth, o, w, k);
      GenuineRead(e, truth, ReadOrder(c), w', k);
      if k.Mani? && (k.repo, k.digest) in n.manis && Read(o, w, k).Some? {
        var p: Pair := (k.repo, k.digest);
        assert Read(o, w, Mani(p.0, p.1)).Some?;
      }
    }
  }

  /** Everything of the repositories a backend lists: stored manifests, the blobs they name, listed tags. */
  ghost predicate OfListed(e: Env, o: seq<Root>, w: World, k: Key) {
    match k
    case Blob(d) => exists repo :: repo in ReposOn(o, w) && d in RepoBlobs(e, o, w, repo)
    case Mani(repo, d) => repo in ReposOn(o, w) && d in GraphOf(o, w, repo)
    case Tagged(repo, t) => repo in ReposOn(o, w) && t in ListedTags(o, w, repo)
  }

  /** Without a selector: every manifest and every listed tag of every listed repository, and every blob such a
      manifest names that the primary has, reads on every secondary as on the primary. */
  lemma UnfilteredReplicationConverges(e: Env, truth: Digest -> Bytes, multi: Backend, w: World, w': World, i: nat,
                                       k: Key)
    requires Valid(multi) && multi.Multi? && Genuine(e, truth, w) && Pass(e, truth, multi, None, w, w')
    requires i < |multi.partitions| && i != multi.primary
    requires OfListed(e, ReadOrder(multi.partitions[multi.primary].storage), w, k)
    ensures var o := ReadOrder(multi.partitions[multi.primary].storage);
            && (!k.Blob? ==> Read(o, w, k).Some?)
            && (Read(o, w, k).Some? ==> Read(ReadOrder(multi.partitions[i].storage), w', k) == Read(o, w, k))
  {
    hide Genuine, Read, ReadOrder, WantedNow, Spread, AllLanded, Touched, GraphOf, ListedTags, RepoBlobs, OfListed,
         ReposOn, DanglingFor;
    ReplicationConverges(e, truth, multi, None, w, w', i, k);
    ListedIsWanted(e, truth, ReadOrder(multi.partitions[multi.primary].storage), w, k);
  }

  lemma ListedIsWanted(e: Env, truth: Digest -> Bytes, o: seq<Root>, w: World, k: Key)
    requires Genuine(e, truth, w) && OfListed(e, o, w, k) && !AnyDangling(o, w, None)
    ensures !k.Blob? ==> Read(o, w, k).Some?
    ensures Read(o, w, k).Some? ==> Includes(WantedNow(e, o, w, None), k)
  {
    hide Genuine, Read, GraphOf, ListedTags, RepoBlobs, ReposOn, DanglingFor, ManisFor, BlobsFor, TagsFor, TagDigest;
    match k
    case Blob(d) =>
      var repo :| repo in ReposOn(o, w) && d in RepoBlobs(e, o, w, repo);
      WithoutSelector(e, truth, o, w, repo);
    case Mani(repo, d) =>
      WithoutSelector(e, truth, o, w, repo);
      GraphReads(o, w, repo, d);
    case Tagged(repo, t) =>
      WithoutSelector(e, truth, o, w, repo);
      ListedTagReads(o, w, repo, t);
  }

  lemma ListedTagReads(o: seq<Root>, w: World, repo: string, t: string)
    requires repo in ReposOn(o, w) && t in TagsFor(o, w, repo, None) && !AnyDangling(o, w, None)
    ensures Read(o, w, Tagged(repo, t)).Some? && (repo, t) in TagNamesOf(o, w, ReposOn(o, w), None)
  {
    hide Read, TagsFor, ReposOn;
    assert !DanglingFor(o, w, repo, None);
  }

  lemma WantedTagValue(e: Env, o: seq<Root>, w: World, glob: Option<string>, p: (string, string))
    requires p in WantedNow(e, o, w, glob).tags
    ensures WantedNow(e, o, w, glob).tags[p] == TagDigest(e, o, w, p) && Read(o, w, Tagged(p.0, p.1)).Some?
  {
    hide Read, Hash, TagsFor, BlobsFor, ManisFor, ReposOn;
  }

  lemma TagConverges(e: Env, truth: Digest -> Bytes, o: seq<Root>, c: Backend, w: World, w': World,
                     glob: Option<string>, repo: string, tag: string)
    requires Valid(c) && Genuine(e, truth, w) && Genuine(e, truth, w')
    requires var n := WantedNow(e, o, w, glob); (repo, tag) in n.tags && Landed(c, o, w, w', n)
    ensures Read(ReadOrder(c), w', Tagged(repo, tag)) == Read(o, w, Tagged(repo, tag))
  {
    hide Genuine, WantedNow, ReadOrder, Hash;
    var n, p := WantedNow(e, o, w, glob), (repo, tag);
    WantedTagValue(e, o, w, glob, p);
    GenuineTagRead(e, truth, o, w, repo, tag);
    var v := At(w', Target(c));
    assert Points(v, p, n.tags[p]);
    StoredManifestTrue(e, truth, w', Target(c), repo, n.tags[p]);
    assert Lookup(v, Tagged(repo, tag)) == Some(truth(n.tags[p]));
  }

  lemma StoredManifestTrue(e: Env, truth: Digest -> Bytes, w: World, root: Root, repo: string, d: Digest)
    requires Genuine(e, truth, w) && (repo, d) in At(w, root).manifests
    ensures At(w, root).manifests[(repo, d)] == truth(d)
  {
  }

  /** The primary's own view of what is to be replicated is not disturbed, even when partitions share roots. */
  lemma WantedUndisturbed(e: Env, truth: Digest -> Bytes, multi: Backend, glob: Option<string>, w: World, w': World)
    requires Valid(multi) && multi.Multi? && Genuine(e, truth, w) && Pass(e, truth, multi, glob, w, w')
    ensures var o := ReadOrder(multi.partitions[multi.primary].storage); WantedNow(e, o, w', glob) == WantedNow(e, o,
        w, glob)
  {
    hide Genuine, Grows, AddsOnly, Read, ReadOrder, WantedNow, WantedOf, NamesIn, DanglingFor, GraphOf, TagsFor,
         Landed, Touched;
    var o := ReadOrder(multi.partitions[multi.primary].storage);
    SameRepos(e, truth, o, w, w', glob);
    forall repo | repo in ReposOn(o, w)
      ensures GraphOf(o, w', repo) == GraphOf(o, w, repo) && TagsFor(o, w', repo, glob) == TagsFor(o, w, repo, glob)
    {
      SameGraph(e, truth, o, w, w', WantedNow(e, o, w, glob), repo);
      SameTagsFor(e, truth, o, w, w', glob, repo);
    }
    forall repo, t | repo in ReposOn(o, w) && t in TagsFor(o, w, repo, glob)
      ensures Read(o, w', Tagged(repo, t)) == Read(o, w, Tagged(repo, t))
    {
      SameTagRead(e, truth, multi, w, w', glob, repo, t);
    }
    SameWanted(e, o, w, w', ReposOn(o, w), glob);
    WantedNowIs(e, o, w', glob);
    WantedNowIs(e, o, w, glob);
  }

  lemma WantedNowIs(e: Env, o: seq<Root>, w: World, glob: Option<string>)
    ensures WantedNow(e, o, w, glob) == WantedOf(e, o, w, ReposOn(o, w), glob)
  {
  }

  lemma SameGraph(e: Env, truth: Digest -> Bytes, o: seq<Root>, w: World, w': World, n: Wanted, repo: string)
    requires Spread(e, truth, o, w, w', n)
    ensures GraphOf(o, w', repo) == GraphOf(o, w, repo)
  {
    hide Genuine, Grows, AddsOnly, GraphOf, Read;
    forall d
      ensures d in GraphOf(o, w', repo) <==> d in GraphOf(o, w, repo)
      ensures d in GraphOf(o, w, repo) ==> GraphOf(o, w', repo)[d] == GraphOf(o, w, repo)[d]
    {
      GraphReads(o, w', repo, d);
      GraphReads(o, w, repo, d);
      assert Read(o, w', Mani(repo, d)) == Read(o, w, Mani(repo, d));
    }
  }

  lemma WantedRepo(e: Env, o: seq<Root>, w: World, glob: Option<string>, p: (string, string))
    requires p in WantedNow(e, o, w, glob).tags
    ensures p.0 in ReposOn(o, w) && p.1 in TagsFor(o, w, p.0, glob)
  {
    hide Read, Hash, TagsFor, BlobsFor, ManisFor, ReposOn;
  }

  lemma SameRepos(e: Env, truth: Digest -> Bytes, o: seq<Root>, w: World, w': World, glob: Option<string>)
    requires Spread(e, truth, o, w, w', WantedNow(e, o, w, glob))
    ensures ReposOn(o, w') == ReposOn(o, w)
  {
    hide Genuine, Grows, Read, WantedNow, Listable;
    var n := WantedNow(e, o, w, glob);
    hide AddsOnly;
    forall r ensures r in ReposOn(o, w') <==> r in ReposOn(o, w) {
      if r in ReposOn(o, w') {
        var root :| root in Elements(o) && r in Names(At(w', root), Repos);
        assert AddsOnly(At(w, root), At(w', root), n);
        NoNewRepo(e, o, w, At(w, root), At(w', root), glob, r);
        if r in At(w, root).dirs { assert r in Names(At(w, root), Repos); }
      }
      if r in ReposOn(o, w) {
        var root :| root in Elements(o) && r in Names(At(w, root), Repos);
        assert AddsOnly(At(w, root), At(w', root), n);
        NoNewRepo(e, o, w, At(w, root), At(w', root), glob, r);
        assert r in Names(At(w', root), Repos);
      }
    }
  }

  /** A repository directory that appears on a root is one the primary lists. */
  lemma NoNewRepo(e: Env, o: seq<Root>, w: World, v: Vol, v': Vol, glob: Option<string>, r: string)
    requires AddsOnly(v, v', WantedNow(e, o, w, glob))
    ensures r in v'.dirs ==> r in v.dirs || r in ReposOn(o, w)
    ensures r in v.dirs ==> r in v'.dirs
  {
    hide WantedNow, ReposOn;
    var n := WantedNow(e, o, w, glob);
    if r in v'.dirs && r !in v.dirs {
      if r in Firsts(n.manis) {
        var p :| p in n.manis && p.0 == r;
        WantedManiRepo(e, o, w, glob, p);
      } else {
        var q :| q in Tagging(n.tags) && q.0 == r;
        var p :| p in n.tags && q == (p.0, n.tags[p]);
        WantedRepo(e, o, w, glob, p);
      }
    }
  }

  lemma WantedManiRepo(e: Env, o: seq<Root>, w: World, glob: Option<string>, p: Pair)
    requires p in WantedNow(e, o, w, glob).manis
    ensures p.0 in ReposOn(o, w)
  {
    hide Read, Hash, TagsFor, BlobsFor, ManisFor, ReposOn;
  }

  lemma SameTagsFor(e: Env, truth: Digest -> Bytes, o: seq<Root>, w: World, w': World, glob: Option<string>,
                    repo: string)
    requires Spread(e, truth, o, w, w', WantedNow(e, o, w, glob))
    ensures TagsFor(o, w', repo, glob) == TagsFor(o, w, repo, glob)
  {
    hide Genuine, Grows, Read, WantedNow, Names, Glob.Matches;
    var n := WantedNow(e, o, w, glob);
    forall t ensures t in ListedTags(o, w', repo) <==> t in ListedTags(o, w, repo) {
      if t in ListedTags(o, w', repo) {
        var root :| root in Elements(o) && t in Names(At(w', root), Tags(repo));
        NamesMember(At(w', root), repo, t);
        NamesMember(At(w, root), repo, t);
        assert AddsOnly(At(w, root), At(w', root), n);
        if (repo, t) !in At(w, root).tags { WantedRepo(e, o, w, glob, (repo, t)); }
      }
      if t in ListedTags(o, w, repo) {
        var root :| root in Elements(o) && t in Names(At(w, root), Tags(repo));
        NamesMember(At(w', root), repo, t);
        NamesMember(At(w, root), repo, t);
        assert AddsOnly(At(w, root), At(w', root), n);
        assert t in Names(At(w', root), Tags(repo));
      }
    }
    assert ListedTags(o, w', repo) == ListedTags(o, w, repo);
  }

  /** A selected tag reads the same: any root of the primary that was touched points it to the value it had. */
  lemma SameTagRead(e: Env, truth: Digest -> Bytes, multi: Backend, w: World, w': World, glob: Option<string>,
                    repo: string, tag: string)
    requires Valid(multi) && multi.Multi? && Genuine(e, truth, w) && Pass(e, truth, multi, glob, w, w')
    requires var o := ReadOrder(multi.partitions[multi.primary].storage);
             repo in ReposOn(o, w) && tag in TagsFor(o, w, repo, glob)
    ensures var o := ReadOrder(multi.partitions[multi.primary].storage);
            Read(o, w', Tagged(repo, tag)) == Read(o, w, Tagged(repo, tag))
  {
    hide Genuine, Grows, AddsOnly, Read, ReadOrder, WantedNow, ReposOn, TagsFor, Hash, AnyDangling;
    var o, p := ReadOrder(multi.partitions[multi.primary].storage), (repo, tag);
    var n, k := WantedNow(e, o, w, glob), Tagged(repo, tag);
    NotDangling(o, w, glob, repo, tag);
    TagIsWanted(e, o, w, glob, repo, tag);
    WantedTagValue(e, o, w, glob, p);
    GenuineTagRead(e, truth, o, w, repo, tag);
    forall root ensures At(w', root) == At(w, root) || Points(At(w', root), p, n.tags[p]) {
      if At(w', root) != At(w, root) {
        var i :| 0 <= i < |multi.partitions| && i != multi.primary && root == Target(multi.partitions[i].storage);
        assert Landed(multi.partitions[i].storage, o, w, w', n);
      }
    }
    FirstHitSame(e, truth, o, w, w', n.tags[p], repo, tag);
  }

  lemma NotDangling(o: seq<Root>, w: World, glob: Option<string>, repo: string, tag: string)
    requires !AnyDangling(o, w, glob) && repo in ReposOn(o, w) && tag in TagsFor(o, w, repo, glob)
    ensures Read(o, w, Tagged(repo, tag)).Some?
  {
  }

  lemma TagIsWanted(e: Env, o: seq<Root>, w: World, glob: Option<string>, repo: string, tag: string)
    requires repo in ReposOn(o, w) && tag in TagsFor(o, w, repo, glob) && Read(o, w, Tagged(repo, tag)).Some?
    ensures (repo, tag) in WantedNow(e, o, w, glob).tags
  {
    hide Read, Hash, TagsFor, BlobsFor, ManisFor, ReposOn;
  }

  lemma {:induction false} FirstHitSame(e: Env, truth: Digest -> Bytes, o: seq<Root>, w: World, w': World, d: Digest,
                                        repo: string, tag: string)
    requires Genuine(e, truth, w')
    requires forall root :: At(w', root) == At(w, root) || Points(At(w', root), (repo, tag), d)
    requires Read(o, w, Tagged(repo, tag)) == Some(truth(d))
    ensures Read(o, w', Tagged(repo, tag)) == Some(truth(d))
    decreases |o|
  {
    hide Genuine;
    if At(w', o[0]) != At(w, o[0]) {
      StoredManifestTrue(e, truth, w', o[0], repo, d);
    } else if Lookup(At(w, o[0]), Tagged(repo, tag)).None? {
      FirstHitSame(e, truth, o[1..], w, w', d, repo, tag);
    }
  }

  lemma SameWanted(e: Env, o: seq<Root>, w: World, w': World, repos: set<string>, glob: Option<string>)
    requires forall repo :: repo in repos ==>
             GraphOf(o, w', repo) == GraphOf(o, w, repo) && TagsFor(o, w', repo, glob) == TagsFor(o, w, repo, glob)
    requires forall repo, t :: repo in repos && t in TagsFor(o, w, repo, glob) ==>
             Read(o, w', Tagged(repo, t)) == Read(o, w, Tagged(repo, t))
    ensures WantedOf(e, o, w', repos, glob) == WantedOf(e, o, w, repos, glob)
  {
    hide GraphOf, TagsFor, Read, Hash, Reach, BlobsOf, ManisFor, BlobsFor, TagNamesOf, TagDigest;
    forall repo | repo in repos ensures ManisFor(e, o, w', repo, glob) == ManisFor(e, o, w, repo, glob)
                                ensures BlobsFor(e, o, w', repo, glob) == BlobsFor(e, o, w, repo, glob) {
      SameRepoWanted(e, o, w, w', repo, glob);
    }
    SameTagNames(e, o, w, w', repos, glob);
  }

  lemma SameTagNames(e: Env, o: seq<Root>, w: World, w': World, repos: set<string>, glob: Option<string>)
    requires forall repo :: repo in repos ==> TagsFor(o, w', repo, glob) == TagsFor(o, w, repo, glob)
    requires forall repo, t :: repo in repos && t in TagsFor(o, w, repo, glob) ==>
             Read(o, w', Tagged(repo, t)) == Read(o, w, Tagged(repo, t))
    ensures TagNamesOf(o, w', repos, glob) == TagNamesOf(o, w, repos, glob)
    ensures forall p :: p in TagNamesOf(o, w, repos, glob) ==> TagDigest(e, o, w', p) == TagDigest(e, o, w, p)
  {
    hide TagsFor, Read, Hash;
  }

  lemma SameRepoWanted(e: Env, o: seq<Root>, w: World, w': World, repo: string, glob: Option<string>)
    requires GraphOf(o, w', repo) == GraphOf(o, w, repo) && TagsFor(o, w', repo, glob) == TagsFor(o, w, repo, glob)
    requires forall t :: t in TagsFor(o, w, repo, glob) ==> Read(o, w', Tagged(repo, t)) == Read(o, w, Tagged(repo, t))
    ensures ManisFor(e, o, w', repo, glob) == ManisFor(e, o, w, repo, glob)
    ensures BlobsFor(e, o, w', repo, glob) == BlobsFor(e, o, w, repo, glob)
  {
    hide GraphOf, TagsFor, Read, Hash, Reach, BlobsOf;
    assert TagDigests(e, o, w', repo, TagsFor(o, w, repo, glob)) == TagDigests(e, o, w, repo,
        TagsFor(o, w, repo, glob));
  }

  /** Idempotence: after a completed pass there is nothing left to copy. */
  lemma SecondPassCopiesNothing(e: Env, truth: Digest -> Bytes, multi: Backend, glob: Option<string>, w: World,
                                w': World)
    requires Valid(multi) && multi.Multi? && Genuine(e, truth, w) && Pass(e, truth, multi, glob, w, w')
    ensures Synced(e, multi, glob, w')
  {
    hide Genuine, Read, ReadOrder, WantedNow, AnyDangling, Grows, AddsOnly;
    var o := ReadOrder(multi.partitions[multi.primary].storage);
    WantedUndisturbed(e, truth, multi, glob, w, w');
    var n := WantedNow(e, o, w, glob);
    forall i | 0 <= i < |multi.partitions| && i != multi.primary ensures Reads(multi.partitions[i].storage, o, w', n) {
      assert Landed(multi.partitions[i].storage, o, w, w', n);
    }
  }

  /** With a selector exactly the closure of the selected tags is added: afterwards a secondary, of one root
      or many, reads what it read and what was wanted and readable on the primary, and no more; and it
      lists the tags it listed and the wanted ones. */
  lemma SelectorAddsTheClosure(e: Env, truth: Digest -> Bytes, multi: Backend, glob: Option<string>, w: World,
                               w': World, i: nat, d: Digest, p: Pair, repo: string, tag: string)
    requires Valid(multi) && multi.Multi? && Genuine(e, truth, w) && Pass(e, truth, multi, glob, w, w')
    requires i < |multi.partitions| && i != multi.primary
    ensures var o, od := ReadOrder(multi.partitions[multi.primary].storage), ReadOrder(multi.partitions[i].storage);
            var n := WantedNow(e, o, w, glob);
            && (Read(od, w', Blob(d)).Some? <==>
                Read(od, w, Blob(d)).Some? || (d in n.blobs && Read(o, w, Blob(d)).Some?))
            && (Read(od, w', Mani(p.0, p.1)).Some? <==> Read(od, w, Mani(p.0, p.1)).Some? || p in n.manis)
            && (tag in ListedTags(od, w', repo) <==> tag in ListedTags(od, w, repo) || (repo, tag) in n.tags)
  {
    hide Genuine, WantedNow, AnyDangling, ReadOrder;
    var o, c := ReadOrder(multi.partitions[multi.primary].storage), multi.partitions[i].storage;
    var n, od := WantedNow(e, o, w, glob), ReadOrder(c);
    assert Landed(c, o, w, w', n);
    WantedManisReadable(e, truth, o, w, glob, p);
    AddedRead(o, od, w, w', n, Blob(d));
    AddedRead(o, od, w, w', n, Mani(p.0, p.1));
    if (repo, tag) in n.tags {
      WantedTagPoints(e, truth, o, c, w, w', glob, repo, tag);
    }
    AddedTags(o, od, w, w', n, repo, tag);
  }

  lemma AddedRead(o: seq<Root>, od: seq<Root>, w: World, w': World, n: Wanted, k: Key)
    requires (forall root :: AddsOnly(At(w, root), At(w', root), n)) && OnlyHad(o, w, w') && Grows(w, w') && !k.Tagged?
    ensures Read(od, w, k).Some? ==> Read(od, w', k).Some?
    ensures Read(od, w', k).Some? ==>
              || Read(od, w, k).Some?
              || (k.Blob? && k.digest in n.blobs && Read(o, w, k).Some?)
              || (k.Mani? && ((k.repo, k.digest) in n.manis || (k.repo, k.digest) in Tagging(n.tags)))
  {
    hide Read, Tagging;
    ReadFinds(od, w, k);
    ReadFinds(od, w', k);
    if Read(od, w', k).Some? {
      var root :| root in od && Lookup(At(w', root), k).Some?;
      assert AddsOnly(At(w, root), At(w', root), n);
    }
  }

  lemma AddedTags(o: seq<Root>, od: seq<Root>, w: World, w': World, n: Wanted, repo: string, tag: string)
    requires forall root :: AddsOnly(At(w, root), At(w', root), n)
    ensures tag in ListedTags(od, w, repo) ==> tag in ListedTags(od, w', repo)
    ensures tag in ListedTags(od, w', repo) ==> tag in ListedTags(od, w, repo) || (repo, tag) in n.tags
  {
    hide Names;
    forall root ensures tag in Names(At(w, root), Tags(repo)) ==> tag in Names(At(w', root), Tags(repo))
                ensures tag in Names(At(w', root), Tags(repo)) ==>
                        tag in Names(At(w, root), Tags(repo)) || (repo, tag) in n.tags {
      assert AddsOnly(At(w, root), At(w', root), n);
      NamesMember(At(w, root), repo, tag);
      NamesMember(At(w', root), repo, tag);
    }
  }

  lemma WantedTagPoints(e: Env, truth: Digest -> Bytes, o: seq<Root>, c: Backend, w: World, w': World,
                        glob: Option<string>, repo: string, tag: string)
    requires Valid(c) && Genuine(e, truth, w) && (repo, tag) in WantedNow(e, o, w, glob).tags
    requires Landed(c, o, w, w', WantedNow(e, o, w, glob))
    ensures tag in ListedTags(ReadOrder(c), w', repo)
  {
    hide Genuine, WantedNow, ReadOrder, Names, Glob.Matches;
    var n := WantedNow(e, o, w, glob);
    WantedRepo(e, o, w, glob, (repo, tag));
    WantedTagValue(e, o, w, glob, (repo, tag));
    var q: Pair := (repo, n.tags[(repo, tag)]);
    assert q in Tagging(n.tags);
    WantedManisReadable(e, truth, o, w, glob, q);
    assert Points(At(w', Target(c)), (repo, tag), q.1);
    var root :| root in Elements(o) && tag in Names(At(w, root), Tags(repo));
    NamesMember(At(w, root), repo, tag);
    NamesMember(At(w', Target(c)), repo, tag);
    assert Target(c) in Elements(ReadOrder(c));
  }

  /** Wanted manifests are stored on the primary, and wanted tags name wanted manifests. */
  lemma WantedManisReadable(e: Env, truth: Digest -> Bytes, o: seq<Root>, w: World, glob: Option<string>, p: Pair)
    requires Genuine(e, truth, w)
    ensures p in WantedNow(e, o, w, glob).manis ==> Read(o, w, Mani(p.0, p.1)).Some?
    ensures p in Tagging(WantedNow(e, o, w, glob).tags) ==> p in WantedNow(e, o, w, glob).manis
  {
    hide Genuine, Read, Hash, TagsFor, BlobsFor, ReposOn, GraphOf;
    GraphReads(o, w, p.0, p.1);
    var n := WantedNow(e, o, w, glob);
    if p in Tagging(n.tags) {
      var q :| q in n.tags && p == (q.0, n.tags[q]);
      assert q.0 in ReposOn(o, w) && q.1 in TagsFor(o, w, q.0, glob) && Read(o, w, Tagged(q.0, q.1)).Some?;
      GenuineTagRead(e, truth, o, w, q.0, q.1);
      assert p.1 == Hash(e, Sha256, Read(o, w, Tagged(q.0, q.1)).value);
      StartIsReached(e, o, w, p.0, glob, q.1);
    }
  }

  lemma StartIsReached(e: Env, o: seq<Root>, w: World, repo: string, glob: Option<string>, t: string)
    requires t in TagsFor(o, w, repo, glob) && Read(o, w, Tagged(repo, t)).Some?
    requires Hash(e, Sha256, Read(o, w, Tagged(repo, t)).value) in GraphOf(o, w, repo)
    ensures Hash(e, Sha256, Read(o, w, Tagged(repo, t)).value) in ManisFor(e, o, w, repo, glob)
  {
    hide Read, TagsFor, GraphOf, Closed, Hash;
  }
}
