/** Copying whole repositories and classes (`copy_repo`, the backfill loop of `migrate::run`). */
module Migrating {
  import opened Content
  import opened Volumes
  import opened Backends
  import opened Devices
  import opened Walks
  import opened Copying
  import opened Merging
  import Glob

  datatype Report = Report(reposMigrated: nat, blobsCopied: nat, bytesCopied: nat, manifestsCopied: nat,
                           blobsPurged: nat, bytesPurged: nat, cutover: bool)

  const NO_REPORT := Report(0, 0, 0, 0, 0, 0, false)

  // ---- What one repository amounts to, read through a backend ------------------------------

  function RepoManis(o: seq<Root>, w: World, repo: string): set<Pair> {
    set d | d in GraphOf(o, w, repo).Keys :: (repo, d)
  }

  function RepoBlobs(e: Env, o: seq<Root>, w: World, repo: string): set<Digest> {
    BlobsOf(e, GraphOf(o, w, repo), GraphOf(o, w, repo).Keys)
  }

  function ListedTags(o: seq<Root>, w: World, repo: string): set<string> {
    NamesIn(Elements(o), w, Tags(repo))
  }

  /** Listed tags with the digest of the bytes they read. */
  function RepoTags(e: Env, o: seq<Root>, w: World, repo: string): TagMap {
    TagsAmong(e, o, w, repo, ListedTags(o, w, repo))
  }

  function TagsAmong(e: Env, o: seq<Root>, w: World, repo: string, tags: set<string>): TagMap {
    map t | t in tags && Read(o, w, Tagged(repo, t)).Some? ::
      (repo, t) := Hash(e, Sha256, Read(o, w, Tagged(repo, t)).value)
  }

  ghost predicate Dangling(o: seq<Root>, w: World, repo: string) {
    exists t :: t in ListedTags(o, w, repo) && Read(o, w, Tagged(repo, t)).None?
  }

  /** The listed tags a selector lets through; without a selector, all. */
  function TagsFor(o: seq<Root>, w: World, repo: string, glob: Option<string>): set<string> {
    set t | t in ListedTags(o, w, repo) && (glob.Some? ==> Glob.Matches(glob.value, t))
  }

  /** Where the walks start: at the selected tags, and without a selector at every stored manifest. */
  function StartsFor(e: Env, o: seq<Root>, w: World, repo: string, glob: Option<string>): set<Digest> {
    TagDigests(e, o, w, repo, TagsFor(o, w, repo, glob)) + if glob.None? then GraphOf(o, w, repo).Keys else {}
  }

  function TagDigests(e: Env, o: seq<Root>, w: World, repo: string, tags: set<string>): set<Digest> {
    set t | t in tags && Read(o, w, Tagged(repo, t)).Some? :: Hash(e, Sha256, Read(o, w, Tagged(repo, t)).value)
  }

  ghost function ManisFor(e: Env, o: seq<Root>, w: World, repo: string, glob: Option<string>): set<Digest> {
    Reach(e, GraphOf(o, w, repo), StartsFor(e, o, w, repo, glob))
  }

  ghost function BlobsFor(e: Env, o: seq<Root>, w: World, repo: string, glob: Option<string>): set<Digest> {
    BlobsOf(e, GraphOf(o, w, repo), ManisFor(e, o, w, repo, glob))
  }

  ghost predicate DanglingFor(o: seq<Root>, w: World, repo: string, glob: Option<string>) {
    exists t :: t in TagsFor(o, w, repo, glob) && Read(o, w, Tagged(repo, t)).None?
  }

  lemma WithoutSelector(e: Env, truth: Digest -> Bytes, o: seq<Root>, w: World, repo: string)
    requires Genuine(e, truth, w)
    ensures TagsFor(o, w, repo, None) == ListedTags(o, w, repo)
    ensures ManisFor(e, o, w, repo, None) == GraphOf(o, w, repo).Keys
    ensures BlobsFor(e, o, w, repo, None) == RepoBlobs(e, o, w, repo)
    ensures DanglingFor(o, w, repo, None) <==> Dangling(o, w, repo)
  {
    hide Genuine, GraphOf, ListedTags, Hash;
    forall t | t in ListedTags(o, w, repo) && Read(o, w, Tagged(repo, t)).Some?
      ensures Hash(e, Sha256, Read(o, w, Tagged(repo, t)).value) in GraphOf(o, w, repo)
    {
      GenuineTagRead(e, truth, o, w, repo, t);
      GraphReads(o, w, repo, Hash(e, Sha256, Read(o, w, Tagged(repo, t)).value));
    }
    assert StartsFor(e, o, w, repo, None) == GraphOf(o, w, repo).Keys;
    ReachAll(e, GraphOf(o, w, repo));
  }

  // ---- copy_repo --------------------------------------------------------------------------

  /** The walks. The collection ends with everything reachable from the selected tags and, without a
      selector, every stored manifest of the repository, with all the blobs they name; a selected tag that
      does not resolve aborts it. */
  method Collect(disks: Disks, src: Backend, repo: string, glob: Option<string>, ghost truth: Digest -> Bytes)
    returns (r: Result<()>, manis: set<Digest>, blobs: set<Digest>, tags: TagMap)
    requires Valid(src) && Genuine(disks.env, truth, disks.vols)
    modifies disks`faults
    ensures r.Ok? || r.NotFound? || r.Fault?
    ensures disks.faults >= old(disks.faults) && (r.Fault? <==> disks.faults > old(disks.faults))
    ensures r.NotFound? ==> DanglingFor(ReadOrder(src), disks.vols, repo, glob)
    ensures r.Ok? ==>
              && !DanglingFor(ReadOrder(src), disks.vols, repo, glob)
              && manis == ManisFor(disks.env, ReadOrder(src), disks.vols, repo, glob)
              && blobs == BlobsFor(disks.env, ReadOrder(src), disks.vols, repo, glob)
              && tags == TagsAmong(disks.env, ReadOrder(src), disks.vols, repo,
                                   TagsFor(ReadOrder(src), disks.vols, repo, glob))
  {
    hide Genuine, Read, GraphOf, Walked, NamesIn, DigestsIn, BlobsOf, Hash, Reach, Glob.Matches, TagsAmong, TagDigests;
    ghost var e, os, w := disks.env, ReadOrder(src), disks.vols;
    ghost var g := GraphOf(os, w, repo);
    manis, blobs, tags := {}, {}, map[];
    var listed := disks.ListNames(src, Tags(repo));
    if !listed.Ok? { return Fault, manis, blobs, tags; }
    var todo := listed.value;
    WalkedNothing(e, g, {}, {}, {});
    ghost var starts: set<Digest> := {};
    ghost var done: set<string> := {};
    AmongNone(e, os, w, repo);
    while todo != {}
      invariant todo <= listed.value && disks.faults == old(disks.faults)
      invariant done == TagsFor(os, w, repo, glob) - todo
      invariant tags == TagsAmong(e, os, w, repo, done) && starts == TagDigests(e, os, w, repo, done)
      invariant forall t :: t in done ==> Read(os, w, Tagged(repo, t)).Some?
      invariant Walked(e, g, starts, {}, manis, {}, blobs)
    {
      var t :| t in todo;
      if glob.Some? {
        var selected := Glob.GlobMatch(glob.value, t);
        if !selected { todo := todo - {t}; continue; }
      }
      assert t in TagsFor(os, w, repo, glob);
      var got := disks.Get(src, Tagged(repo, t));
      if got.NotFound? { return NotFound, manis, blobs, tags; }
      if !got.Ok? { return Fault, manis, blobs, tags; }
      var d := Hash(disks.env, Sha256, got.value);
      GenuineTagRead(e, truth, os, w, repo, t);
      GraphReads(os, w, repo, d);
      TagsAmongSnoc(e, os, w, repo, done, t);
      tags := tags[(repo, t) := d];
      ghost var m0, b0 := manis, blobs;
      r, manis, blobs := Walk(disks, src, repo, d, got.value, manis, blobs, g);
      if !r.Ok? { return; }
      WalkedThen(e, g, starts, {d}, {}, m0, manis, {}, b0, blobs);
      starts, done := starts + {d}, done + {t};
      todo := todo - {t};
    }
    assert done == TagsFor(os, w, repo, glob);
    if glob.Some? {
      WalkReaches(e, g, starts, manis, blobs);
      assert starts == StartsFor(e, os, w, repo, glob);
      r := Ok(());
    } else {
      r, manis, blobs := CollectDetached(disks, src, repo, g, starts, manis, blobs);
      WithoutSelector(e, truth, os, w, repo);
    }
  }

  lemma AmongNone(e: Env, o: seq<Root>, w: World, repo: string)
    ensures TagsAmong(e, o, w, repo, {}) == map[] && TagDigests(e, o, w, repo, {}) == {}
  {
  }

  lemma TagsAmongSnoc(e: Env, o: seq<Root>, w: World, repo: string, tags: set<string>, t: string)
    requires Read(o, w, Tagged(repo, t)).Some?
    ensures TagsAmong(e, o, w, repo, tags + {t}) ==
            TagsAmong(e, o, w, repo, tags)[(repo, t) := Hash(e, Sha256, Read(o, w, Tagged(repo, t)).value)]
    ensures TagDigests(e, o, w, repo, tags + {t}) == TagDigests(e, o, w, repo, tags)
            + {Hash(e, Sha256, Read(o, w, Tagged(repo, t)).value)}
  {
    hide Read, Hash;
    var before, after := TagsAmong(e, o, w, repo, tags), TagsAmong(e, o, w, repo, tags + {t});
    assert forall x :: (repo, x) in after <==> (repo, x) in before || x == t;
    assert TagDigests(e, o, w, repo, {t}) == {Hash(e, Sha256, Read(o, w, Tagged(repo, t)).value)};
  }

  /** Second half of the walks: manifests no tag reaches. */
  method CollectDetached(disks: Disks, src: Backend, repo: string, ghost g: Graph, ghost starts: set<Digest>,
                         seen: set<Digest>, named: set<Digest>)
    returns (r: Result<()>, manis: set<Digest>, blobs: set<Digest>)
    requires Valid(src) && g == GraphOf(ReadOrder(src), disks.vols, repo)
    requires Walked(disks.env, g, starts, {}, seen, {}, named)
    modifies disks`faults
    ensures r.Ok? || r.Fault?
    ensures disks.faults >= old(disks.faults) && (r.Ok? <==> disks.faults == old(disks.faults))
    ensures r.Ok? ==> manis == g.Keys && blobs == BlobsOf(disks.env, g, g.Keys)
  {
    hide Read, GraphOf, Walked, NamesIn, DigestsIn, BlobsOf;
    ghost var e, os, w := disks.env, ReadOrder(src), disks.vols;
    manis, blobs := seen, named;
    var listed := disks.ListDigests(src, Manifests(repo));
    if !listed.Ok? { return Fault, manis, blobs; }
    ListedIsStored(os, w, repo);
    assert Roots(src) == Elements(os);
    var todo := listed.value;
    ghost var from := starts;
    WalkIsLeastClosure(e, g, from, manis, blobs);
    while todo != {}
      invariant todo <= listed.value && disks.faults == old(disks.faults)
      invariant listed.value == g.Keys && g.Keys - todo <= manis
      invariant Walked(e, g, from, {}, manis, {}, blobs)
    {
      var d :| d in todo;
      if d !in manis {
        var got := disks.Get(src, Mani(repo, d));
        GraphReads(os, w, repo, d);
        if got.Fault? { return Fault, manis, blobs; }
        if got.Ok? {
          ghost var m0, b0 := manis, blobs;
          r, manis, blobs := Walk(disks, src, repo, d, got.value, manis, blobs, g);
          if !r.Ok? { return; }
          WalkedGrows(e, g, {d}, m0, manis, b0, blobs);
          WalkedThen(e, g, from, {d}, {}, m0, manis, {}, b0, blobs);
          from := from + {d};
        }
      }
      todo := todo - {d};
    }
    WalkIsLeastClosure(e, g, from, manis, blobs);
    assert manis == g.Keys;
    r := Ok(());
  }

  /** The state of one repository's copy, complete when `full`. */
  ghost predicate RepoCopied(e: Env, truth: Digest -> Bytes, os: seq<Root>, od: seq<Root>, w: World, w': World,
                             t: Root, repo: string, b: map<Digest, Bytes>, m: map<Pair, Bytes>, g: TagMap, full: bool)
  {
    var blobs, manis, tags := RepoBlobs(e, os, w, repo), RepoManis(os, w, repo), RepoTags(e, os, w, repo);
    PartCopy(e, truth, os, od, w, w', t, blobs, manis, tags, b, m, g)
      && (full ==> FullCopy(os, od, w, blobs, manis, tags, b, m, g))
  }

  ghost predicate RepoInOrder(e: Env, os: seq<Root>, od: seq<Root>, w: World, repo: string, b: map<Digest, Bytes>,
                              m: map<Pair, Bytes>, g: TagMap)
  {
    InOrder(os, od, w, RepoBlobs(e, os, w, repo), RepoManis(os, w, repo), b, m, g)
  }

  /** `copy_repo`. Whatever happens only the destination root grows, by wanted content; an Ok copy is
      complete; a dangling listed tag refuses the copy before anything is written. */
  method CopyRepo(disks: Disks, src: Backend, dst: Backend, repo: string, report: Report, ghost truth: Digest -> Bytes)
    returns (r: Result<()>, report': Report, ghost b: map<Digest, Bytes>, ghost m: map<Pair, Bytes>, ghost g: TagMap)
    requires Valid(src) && Valid(dst) && Genuine(disks.env, truth, disks.vols)
    modifies disks
    ensures r.Ok? || r.NotFound? || r.Fault?
    ensures disks.faults >= old(disks.faults) && (r.Fault? ==> disks.faults > old(disks.faults))
    ensures RepoCopied(disks.env, truth, ReadOrder(src), ReadOrder(dst), old(disks.vols), disks.vols, Target(dst),
                       repo, b, m, g, r.Ok?)
    ensures RepoInOrder(disks.env, ReadOrder(src), ReadOrder(dst), old(disks.vols), repo, b, m, g)
    ensures r.Ok? ==> !Dangling(ReadOrder(src), old(disks.vols), repo)
    ensures r.NotFound? ==> Dangling(ReadOrder(src), old(disks.vols), repo) && disks.vols == old(disks.vols)
    ensures report'.blobsCopied == report.blobsCopied + |b| && report'.bytesCopied == report.bytesCopied + Total(b)
    ensures disks.faults == old(disks.faults) && r.Ok? ==>
              report'.manifestsCopied == report.manifestsCopied
                + |ManisToCopy(ReadOrder(src), ReadOrder(dst), old(disks.vols),
                               RepoManis(ReadOrder(src), old(disks.vols), repo))|
    ensures report' == report.(blobsCopied := report'.blobsCopied, bytesCopied := report'.bytesCopied,
                               manifestsCopied := report'.manifestsCopied)
  {
    hide Genuine, PartCopy, FullCopy, InOrder, ManisToCopy, Total, RepoBlobs, GraphOf, ReadOrder, Dangling, ManisFor,
         BlobsFor, DanglingFor, TagsFor, TagsAmong;
    report', b, m, g := report, map[], map[], map[];
    TotalEmpty(b);
    NothingCopied(disks.env, truth, ReadOrder(src), ReadOrder(dst), disks.vols, Target(dst), repo);
    var manis, blobs, tags;
    r, manis, blobs, tags := Collect(disks, src, repo, None, truth);
    WithoutSelector(disks.env, truth, ReadOrder(src), disks.vols, repo);
    if !r.Ok? { return; }
    var blobCount, byteCount, maniCount;
    r, blobCount, byteCount, maniCount, b, m, g :=
      CopyInto(disks, src, dst, blobs, set d | d in manis :: (repo, d), tags, false, truth);
    report' := report.(blobsCopied := report.blobsCopied + blobCount, bytesCopied := report.bytesCopied + byteCount,
                       manifestsCopied := report.manifestsCopied + maniCount);
  }

  lemma NothingCopied(e: Env, truth: Digest -> Bytes, os: seq<Root>, od: seq<Root>, w: World, t: Root, repo: string)
    requires Genuine(e, truth, w)
    ensures RepoCopied(e, truth, os, od, w, w, t, repo, map[], map[], map[], false)
    ensures RepoInOrder(e, os, od, w, repo, map[], map[], map[])
  {
    hide Genuine, RepoBlobs, RepoManis, RepoTags, BlobsToCopy, ManisToCopy, ManisOf, Tagging, Grown;
    UnchangedIsGrown(w, t);
  }
}
