/** Stopping and restarting a migration onto one root, any number of times: exactly when every restart ends
    where an uninterrupted run would have. */
module Restarting {
  import opened Content
  import opened Volumes
  import opened Backends
  import opened Walks
  import opened Copying
  import opened Migrating
  import opened Backfilling

  // ---- The destination root after a complete copy -----------------------------------------

  function ReadableBlobs(o: seq<Root>, w: World, s: set<Digest>): set<Digest> {
    set d | d in s && Read(o, w, Blob(d)).Some?
  }

  /** A volume with these keys added; under one truth per digest that determines the volume. */
  ghost predicate HasExactly(v: Vol, v': Vol, blobs: set<Digest>, manis: set<Pair>, tags: TagMap) {
    && v'.blobs.Keys == v.blobs.Keys + blobs
    && v'.manifests.Keys == v.manifests.Keys + manis
    && v'.tags == v.tags + tags
    && v'.dirs == v.dirs + Firsts(manis)
    && v'.uploads == v.uploads
  }

  lemma SameKeysSameVolume(e: Env, truth: Digest -> Bytes, v: Vol, v': Vol)
    requires GenuineVol(e, truth, v) && GenuineVol(e, truth, v')
    requires v.blobs.Keys == v'.blobs.Keys && v.manifests.Keys == v'.manifests.Keys
    requires v.tags == v'.tags && v.dirs == v'.dirs && v.uploads == v'.uploads
    ensures v == v'
  {
    hide ContentAddressed;
    assert v.blobs == v'.blobs;
    assert v.manifests == v'.manifests;
  }

  /** Tags that resolve name stored manifests. */
  lemma ClassTagsAreManis(e: Env, truth: Digest -> Bytes, o: seq<Root>, w: World, repos: set<string>)
    requires Genuine(e, truth, w)
    ensures Tagging(ClassTags(e, o, w, repos)) <= ClassManis(o, w, repos)
  {
    hide Genuine, GraphOf, Hash;
    var tags := ClassTags(e, o, w, repos);
    forall q | q in Tagging(tags) ensures q in ClassManis(o, w, repos) {
      var p :| p in tags && q == (p.0, tags[p]);
      assert p in ClassTagNames(o, w, repos);
      GenuineTagRead(e, truth, o, w, p.0, p.1);
      GraphReads(o, w, p.0, tags[p]);
    }
  }

  lemma ClassManisRead(o: seq<Root>, w: World, repos: set<string>)
    ensures ManisOf(o, w, ClassManis(o, w, repos)).Keys == ClassManis(o, w, repos)
  {
    hide GraphOf;
    forall q | q in ClassManis(o, w, repos) ensures Read(o, w, Mani(q.0, q.1)).Some? { GraphReads(o, w, q.0, q.1); }
  }

  /** A complete class copy onto one root adds exactly the readable named blobs, all stored manifests and
      all listed tags of the class. */
  lemma CompleteCopyIsExact(e: Env, truth: Digest -> Bytes, os: seq<Root>, w: World, w': World, t: Root,
                            repos: set<string>, b: map<Digest, Bytes>, m: map<Pair, Bytes>, g: TagMap)
    requires Genuine(e, truth, w) && ClassCopied(e, truth, os, [t], w, w', t, repos, b, m, g, true)
    ensures HasExactly(At(w, t), At(w', t), ReadableBlobs(os, w, ClassBlobs(e, os, w, repos)),
                       ClassManis(os, w, repos), ClassTags(e, os, w, repos))
    ensures GenuineVol(e, truth, At(w', t)) && forall root :: root != t ==> At(w', root) == At(w, root)
  {
    var s, n, tags := ClassBlobs(e, os, w, repos), ClassManis(os, w, repos), ClassTags(e, os, w, repos);
    ClassTagsAreManis(e, truth, os, w, repos);
    ClassManisRead(os, w, repos);
    hide ClassBlobs, ClassManis, ClassTags, Genuine, Hash, TrueBlobs, TrueManis;
    var v, v' := At(w, t), At(w', t);
    assert v' == Grown(v, b, m, g);
    GenuineAt(e, truth, w, t);
    GenuineAt(e, truth, w', t);
    ExactKeys(os, w, t, s, n, tags, b, m, g);
    ExactDirs(e, truth, v, n, m);
  }

  lemma ExactKeys(os: seq<Root>, w: World, t: Root, s: set<Digest>, n: set<Pair>, tags: TagMap,
                  b: map<Digest, Bytes>, m: map<Pair, Bytes>, g: TagMap)
    requires FullCopy(os, [t], w, s, n, tags, b, m, g) && m.Keys <= ManisOf(os, w, n + Tagging(tags)).Keys
    requires Tagging(tags) <= n && ManisOf(os, w, n).Keys == n
    requires forall p :: p in g ==> p in tags && g[p] == tags[p]
    ensures (At(w, t).blobs + b).Keys == At(w, t).blobs.Keys + ReadableBlobs(os, w, s)
    ensures (At(w, t).manifests + m).Keys == At(w, t).manifests.Keys + n
    ensures m.Keys <= n && n <= At(w, t).manifests.Keys + m.Keys
    ensures g == tags
  {
    hide Read, Tagging, BlobsToCopy, ManisToCopy, ReadableBlobs;
    assert n + Tagging(tags) == n;
    ExactBlobs(os, w, t, s);
    ExactManis(os, w, t, n);
    forall p | p in tags ensures p in g {
      TagIsTagging(tags, p);
      assert (p.0, tags[p]) in ManisOf(os, w, Tagging(tags));
    }
  }

  lemma ExactBlobs(os: seq<Root>, w: World, t: Root, s: set<Digest>)
    ensures (At(w, t).blobs + BlobsToCopy(os, [t], w, s)).Keys == At(w, t).blobs.Keys + ReadableBlobs(os, w, s)
  {
    hide Read;
    forall d ensures Read([t], w, Blob(d)).Some? <==> d in At(w, t).blobs { OneRoot(w, t, Blob(d)); }
  }

  lemma ExactManis(os: seq<Root>, w: World, t: Root, n: set<Pair>)
    requires ManisOf(os, w, n).Keys == n
    ensures At(w, t).manifests.Keys + ManisToCopy(os, [t], w, n).Keys == At(w, t).manifests.Keys + n
  {
    hide Read;
    forall p: Pair ensures Read([t], w, Mani(p.0, p.1)).Some? <==> p in At(w, t).manifests {
      OneRoot(w, t, Mani(p.0, p.1));
    }
  }

  lemma TagIsTagging(tags: TagMap, p: (string, string))
    requires p in tags
    ensures (p.0, tags[p]) in Tagging(tags)
  {
  }

  lemma ExactDirs(e: Env, truth: Digest -> Bytes, v: Vol, n: set<Pair>, m: map<Pair, Bytes>)
    requires GenuineVol(e, truth, v) && m.Keys <= n <= v.manifests.Keys + m.Keys
    ensures v.dirs + ReposOf(m) == v.dirs + Firsts(n)
  {
    forall r | r in Firsts(n) ensures r in v.dirs + ReposOf(m) {
      var p :| p in n && p.0 == r;
      if p !in m { assert p in v.manifests; }
    }
  }

  // ---- The job ----------------------------------------------------------------------------

  /** Repositories `repos` move from the roots `os` to the root `t`, starting in world `w`; `all` are the
      repositories a restart selects. */
  datatype Job = Job(e: Env, truth: Digest -> Bytes, os: seq<Root>, t: Root, w: World, repos: set<string>,
                     all: set<string>)

  /** The old volume does not contain the destination, a restart selects beyond the first run only
      repositories the old volume has nothing of, and the first run meets no dangling tag. */
  ghost predicate JobOk(j: Job) {
    && Genuine(j.e, j.truth, j.w) && j.t !in j.os && j.repos <= j.all
    && (forall r :: r in j.all && r !in j.repos ==> GraphOf(j.os, j.w, r) == map[] && ListedTags(j.os, j.w, r) == {})
    && (forall r :: r in j.repos ==> !Dangling(j.os, j.w, r))
  }

  function Start(j: Job): Vol { At(j.w, j.t) }

  function OldBlobs(j: Job): set<Digest> { ReadableBlobs(j.os, j.w, ClassBlobs(j.e, j.os, j.w, j.repos)) }

  function OldManis(j: Job): set<Pair> { ClassManis(j.os, j.w, j.repos) }

  function OldTags(j: Job): TagMap { ClassTags(j.e, j.os, j.w, j.repos) }

  /** Where one uninterrupted run leaves the destination. */
  ghost predicate Goal(j: Job, v: Vol) { HasExactly(Start(j), v, OldBlobs(j), OldManis(j), OldTags(j)) }

  ghost predicate OthersSame(j: Job, w: World) { forall root :: root != j.t ==> At(w, root) == At(j.w, root) }

  lemma UninterruptedReachesGoal(j: Job, w1: World, b: map<Digest, Bytes>, m: map<Pair, Bytes>, g: TagMap)
    requires JobOk(j) && ClassCopied(j.e, j.truth, j.os, [j.t], j.w, w1, j.t, j.repos, b, m, g, true)
    ensures Goal(j, At(w1, j.t)) && OthersSame(j, w1) && Genuine(j.e, j.truth, w1)
  {
    CompleteCopyIsExact(j.e, j.truth, j.os, j.w, w1, j.t, j.repos, b, m, g);
    hide HasExactly, OldBlobs, OldManis, OldTags;
  }

  /** The goal determines the destination. */
  lemma GoalIsUnique(j: Job, w1: World, w2: World, root: Root)
    requires Genuine(j.e, j.truth, w1) && Genuine(j.e, j.truth, w2) && OthersSame(j, w1) && OthersSame(j, w2)
    requires Goal(j, At(w1, j.t)) && Goal(j, At(w2, j.t))
    ensures At(w2, root) == At(w1, root)
  {
    hide OldBlobs, OldManis, OldTags, Genuine;
    GenuineAt(j.e, j.truth, w1, j.t);
    GenuineAt(j.e, j.truth, w2, j.t);
    if root == j.t { SameKeysSameVolume(j.e, j.truth, At(w1, j.t), At(w2, j.t)); }
  }

  // ---- When a restart is harmless ---------------------------------------------------------

  /** A class tag that the destination holds with another digest points to a manifest neither side stores. */
  ghost predicate NoRivalTags(j: Job) {
    forall p :: p in OldTags(j) && p in Start(j).tags && Start(j).tags[p] != OldTags(j)[p] ==>
      (p.0, Start(j).tags[p]) !in Start(j).manifests && (p.0, Start(j).tags[p]) !in OldManis(j)
  }

  /** What a manifest of the destination names is unreadable on the old volume, or there already, or a blob
      of the class. */
  ghost predicate NoExtraBlobs(j: Job) {
    forall q, d :: q in Start(j).manifests && q.0 in j.all && d in BlobsNamed(j.e, Start(j).manifests[q])
                   && Read(j.os, j.w, Blob(d)).Some? ==>
      d in Start(j).blobs || d in OldBlobs(j)
  }

  /** A listed tag that only the destination has does not dangle there. */
  ghost predicate NoDanglingExtras(j: Job) {
    forall p :: p in Start(j).tags && p.0 in j.all && !TmpName(p.1) && Read(j.os, j.w, Tagged(p.0, p.1)).None? ==>
      (p.0, Start(j).tags[p]) in Start(j).manifests
  }

  /** What a caller can check before a first run. A destination with nothing of the class qualifies. */
  ghost predicate Harmless(j: Job) { NoRivalTags(j) && NoExtraBlobs(j) && NoDanglingExtras(j) }

  lemma FreshDestinationIsHarmless(j: Job)
    requires (forall q :: q in Start(j).manifests ==> q.0 !in j.all)
             && (forall p :: p in Start(j).tags ==> p.0 !in j.all)
    requires JobOk(j)
    ensures Harmless(j)
  {
    hide Read, OldBlobs, BlobsNamed, GraphOf, ListedTags, Genuine, Hash;
    forall p | p in OldTags(j) ensures p.0 in j.all { assert p in ClassTagNames(j.os, j.w, j.repos); }
    hide OldTags;
  }

  // ---- Between start and goal -------------------------------------------------------------

  /** Every tag of a volume under way has its value of the start or of the class. */
  ghost predicate TagsBetween(v: TagMap, v': TagMap, goal: TagMap) {
    && v.Keys <= v'.Keys
    && forall p :: p in v' ==> (p in v && v'[p] == v[p]) || (p in goal && v'[p] == goal[p])
  }

  /** Part of the way from the start to the goal, by any steps. */
  ghost predicate Between(j: Job, w: World) {
    var v, v' := Start(j), At(w, j.t);
    && Genuine(j.e, j.truth, w) && OthersSame(j, w)
    && v.blobs.Keys <= v'.blobs.Keys <= v.blobs.Keys + OldBlobs(j)
    && v.manifests.Keys <= v'.manifests.Keys <= v.manifests.Keys + OldManis(j)
    && TagsBetween(v.tags, v'.tags, OldTags(j))
    && v.dirs <= v'.dirs <= v.dirs + Firsts(OldManis(j)) && v'.uploads == v.uploads
  }

  /** Additions within bounds keep a volume between. */
  lemma GrownBetween(j: Job, w: World, w': World, b: map<Digest, Bytes>, m: map<Pair, Bytes>, g: TagMap)
    requires Between(j, w) && Genuine(j.e, j.truth, w') && Changed(w, w', j.t, Grown(At(w, j.t), b, m, g))
    requires b.Keys <= Start(j).blobs.Keys + OldBlobs(j) && m.Keys <= Start(j).manifests.Keys + OldManis(j)
    requires forall p :: p in g ==>
             (p in Start(j).tags && g[p] == Start(j).tags[p]) || (p in OldTags(j) && g[p] == OldTags(j)[p])
    ensures Between(j, w')
  {
    hide OldBlobs, OldManis, OldTags, Genuine, Firsts, TagsBetween;
    var v := Start(j);
    forall r | r in ReposOf(m) ensures r in v.dirs + Firsts(OldManis(j)) { RepoOfKnown(j, w, m, r); }
    hide ReposOf;
    assert At(w', j.t) == Grown(At(w, j.t), b, m, g);
    TagsStayBetween(v.tags, At(w, j.t).tags, g, OldTags(j));
  }

  lemma TagsStayBetween(start: TagMap, now: TagMap, g: TagMap, goal: TagMap)
    requires TagsBetween(start, now, goal)
    requires forall p :: p in g ==> (p in start && g[p] == start[p]) || (p in goal && g[p] == goal[p])
    ensures TagsBetween(start, now + g, goal)
  {
  }

  lemma RepoOfKnown(j: Job, w: World, m: map<Pair, Bytes>, r: string)
    requires Between(j, w) && m.Keys <= Start(j).manifests.Keys + OldManis(j) && r in ReposOf(m)
    ensures r in At(w, j.t).dirs || r in Firsts(OldManis(j))
    ensures r in Start(j).dirs + Firsts(OldManis(j))
  {
    hide OldBlobs, OldManis, OldTags;
    var p :| p in m && p.0 == r;
    if p in Start(j).manifests { GenuineAt(j.e, j.truth, w, j.t); assert p in At(w, j.t).manifests; }
  }

  lemma OldReads(j: Job, w: World, k: Key)
    requires JobOk(j) && OthersSame(j, w)
    ensures Read(j.os, w, k) == Read(j.os, j.w, k)
  {
    hide Genuine, GraphOf, ListedTags, Dangling;
    ReadDependsOnRoots(j.os, j.w, w, k);
  }

  lemma ReadFirst(o: seq<Root>, w: World, t: Root, k: Key)
    ensures Read([t] + o, w, k) == if Lookup(At(w, t), k).Some? then Lookup(At(w, t), k) else Read(o, w, k)
  {
    ReadConcat([t], o, w, k);
  }

  lemma OldManiIff(j: Job, r: string, d: Digest)
    requires JobOk(j) && r in j.all
    ensures (r, d) in OldManis(j) <==> Read(j.os, j.w, Mani(r, d)).Some?
  {
    hide Genuine, Read, ListedTags, Dangling, GraphOf;
    GraphReads(j.os, j.w, r, d);
  }

  /** Manifests and blobs a restart collects: those of the old volume and those the destination started with. */
  function OverManis(j: Job): set<Pair> { (set p | p in Start(j).manifests && p.0 in j.all) + OldManis(j) }

  function NamedBy(j: Job, manis: set<Pair>): set<Digest> {
    set p, d | p in manis && d in BlobsNamed(j.e, j.truth(p.1)) :: d
  }

  lemma OverGraph(j: Job, w: World, r: string, d: Digest)
    requires JobOk(j) && Between(j, w) && r in j.all
    ensures d in GraphOf([j.t] + j.os, w, r) <==> (r, d) in OverManis(j)
    ensures d in GraphOf([j.t] + j.os, w, r) ==> GraphOf([j.t] + j.os, w, r)[d] == j.truth(d)
  {
    hide JobOk, Genuine, Read, GraphOf, OldBlobs, OldManis, OldTags, TagsBetween;
    var k := Mani(r, d);
    GraphReads([j.t] + j.os, w, r, d);
    ReadFirst(j.os, w, j.t, k);
    OldReads(j, w, k);
    OldManiIff(j, r, d);
    GenuineRead(j.e, j.truth, [j.t] + j.os, w, k);
    assert (r, d).0 == r;
  }

  lemma OverClass(j: Job, w: World)
    requires JobOk(j) && Between(j, w)
    ensures ClassManis([j.t] + j.os, w, j.all) == OverManis(j)
    ensures ClassBlobs(j.e, [j.t] + j.os, w, j.all) == NamedBy(j, OverManis(j))
  {
    hide Between, Genuine, GraphOf, BlobsNamed, Read;
    OverRepos(j);
    hide JobOk, OldManis, OverManis;
    var o := [j.t] + j.os;
    forall r, d | r in j.all
      ensures d in GraphOf(o, w, r) <==> (r, d) in OverManis(j)
      ensures d in GraphOf(o, w, r) ==> GraphOf(o, w, r)[d] == j.truth(d)
    {
      OverGraph(j, w, r, d);
    }
    forall p: Pair ensures p in ClassManis(o, w, j.all) <==> p in OverManis(j) { assert p == (p.0, p.1); }
    forall d ensures d in ClassBlobs(j.e, o, w, j.all) <==> d in NamedBy(j, OverManis(j)) { OverBlob(j, w, d); }
  }

  lemma OverRepos(j: Job)
    requires JobOk(j)
    ensures forall p :: p in OverManis(j) ==> p.0 in j.all
  {
    hide GraphOf, Genuine, ListedTags, Dangling;
  }

  lemma OverBlob(j: Job, w: World, d: Digest)
    requires forall p :: p in OverManis(j) ==> p.0 in j.all
    requires forall r, x :: r in j.all ==> (x in GraphOf([j.t] + j.os, w, r) <==> (r, x) in OverManis(j))
    requires forall r, x :: r in j.all && x in GraphOf([j.t] + j.os, w, r) ==>
             GraphOf([j.t] + j.os, w, r)[x] == j.truth(x)
    ensures d in ClassBlobs(j.e, [j.t] + j.os, w, j.all) <==> d in NamedBy(j, OverManis(j))
  {
    hide GraphOf, BlobsNamed, OverManis;
    var o := [j.t] + j.os;
    if d in ClassBlobs(j.e, o, w, j.all) {
      var r :| r in j.all && d in RepoBlobs(j.e, o, w, r);
      var x :| x in GraphOf(o, w, r) && d in BlobsNamed(j.e, GraphOf(o, w, r)[x]);
      assert (r, x) in OverManis(j) && d in BlobsNamed(j.e, j.truth((r, x).1));
    }
    if d in NamedBy(j, OverManis(j)) {
      var p :| p in OverManis(j) && d in BlobsNamed(j.e, j.truth(p.1));
      assert p == (p.0, p.1) && p.1 in GraphOf(o, w, p.0);
      assert d in RepoBlobs(j.e, o, w, p.0);
    }
  }

  /** The named blobs the old volume can read are blobs of the class or at the destination from the start. */
  lemma NamedIsKnown(j: Job, d: Digest)
    requires JobOk(j) && NoExtraBlobs(j) && d in NamedBy(j, OverManis(j)) && Read(j.os, j.w, Blob(d)).Some?
    ensures d in Start(j).blobs || d in OldBlobs(j)
  {
    hide Read, GraphOf, BlobsNamed, ListedTags, Dangling, OldBlobs, OldManis, NoExtraBlobs;
    var p :| p in OverManis(j) && d in BlobsNamed(j.e, j.truth(p.1));
    if p in Start(j).manifests && p.0 in j.all {
      GenuineAt(j.e, j.truth, j.w, j.t);
      ExtraBlob(j, p, d);
    } else {
      OldNamed(j, p, d);
    }
  }

  lemma ExtraBlob(j: Job, q: Pair, d: Digest)
    requires NoExtraBlobs(j) && q in Start(j).manifests && q.0 in j.all && d in BlobsNamed(j.e, Start(j).manifests[q])
    requires Read(j.os, j.w, Blob(d)).Some?
    ensures d in Start(j).blobs || d in OldBlobs(j)
  {
    hide Read, BlobsNamed, OldBlobs;
  }

  lemma OldNamed(j: Job, p: Pair, d: Digest)
    requires JobOk(j) && p in OldManis(j) && d in BlobsNamed(j.e, j.truth(p.1)) && Read(j.os, j.w, Blob(d)).Some?
    ensures d in OldBlobs(j)
  {
    hide Read, BlobsNamed, Genuine, GraphOf, ListedTags, Dangling;
    var r, x :| r in j.repos && x in GraphOf(j.os, j.w, r).Keys && p == (r, x);
    GraphReads(j.os, j.w, r, x);
    GenuineRead(j.e, j.truth, j.os, j.w, Mani(r, x));
    assert d in RepoBlobs(j.e, j.os, j.w, r);
  }

  // ---- Tags through the overlay -----------------------------------------------------------

  lemma OldTagIff(j: Job, r: string, t: string)
    requires JobOk(j) && r in j.all
    ensures (r, t) in OldTags(j) <==> t in ListedTags(j.os, j.w, r)
    ensures (r, t) in OldTags(j) ==>
              && Read(j.os, j.w, Tagged(r, t)).Some?
              && OldTags(j)[(r, t)] == Hash(j.e, Sha256, Read(j.os, j.w, Tagged(r, t)).value)
    ensures (r, t) !in OldTags(j) && !TmpName(t) ==> Read(j.os, j.w, Tagged(r, t)).None?
  {
    hide Genuine, Hash, GraphOf, Names;
    assert (r, t) in OldTags(j) <==> (r, t) in ClassTagNames(j.os, j.w, j.repos);
    if t in ListedTags(j.os, j.w, r) {
      assert r in j.repos && !Dangling(j.os, j.w, r);
    }
    ReadFinds(j.os, j.w, Tagged(r, t));
    if Read(j.os, j.w, Tagged(r, t)).Some? && !TmpName(t) {
      var root :| root in j.os && Lookup(At(j.w, root), Tagged(r, t)).Some?;
      NamesMember(At(j.w, root), r, t);
      assert root in Elements(j.os);
    }
  }

  /** What the overlay reads for a listed name of the class, wherever the copying stands: the value of the
      class if it has one, the value of the start otherwise. */
  lemma OverTag(j: Job, w: World, r: string, t: string)
    requires JobOk(j) && Harmless(j) && Between(j, w) && r in j.all && !TmpName(t)
    requires (r, t) in OldTags(j) || (r, t) in At(w, j.t).tags
    ensures var read := Read([j.t] + j.os, w, Tagged(r, t));
            read.Some? && Hash(j.e, Sha256, read.value) ==
              if (r, t) in OldTags(j) then OldTags(j)[(r, t)] else At(w, j.t).tags[(r, t)]
  {
    hide JobOk, Genuine, Read, OldTags, OldManis, OldBlobs, NoExtraBlobs, Hash, TmpName, Firsts;
    var p, k := (r, t), Tagged(r, t);
    ReadFirst(j.os, w, j.t, k);
    OldReads(j, w, k);
    OldTagIff(j, r, t);
    if p in At(w, j.t).tags {
      var d := At(w, j.t).tags[p];
      assert p == (p.0, p.1);
      if (r, d) in At(w, j.t).manifests { StoredValue(j, w, r, d); }
      if p in Start(j).tags && d == Start(j).tags[p] {
        assert p !in OldTags(j) ==> (p.0, d) in Start(j).manifests;
        assert p in OldTags(j) && d != OldTags(j)[p] ==> (p.0, d) !in At(w, j.t).manifests;
      }
    }
  }

  lemma StoredValue(j: Job, w: World, r: string, d: Digest)
    requires Genuine(j.e, j.truth, w) && (r, d) in At(w, j.t).manifests
    ensures Hash(j.e, Sha256, At(w, j.t).manifests[(r, d)]) == d
  {
    GenuineAt(j.e, j.truth, w, j.t);
    assert (r, d).1 == d;
  }

  lemma OverListed(j: Job, w: World, r: string, t: string)
    requires JobOk(j) && Between(j, w) && r in j.all
    ensures t in ListedTags([j.t] + j.os, w, r) <==> !TmpName(t) && ((r, t) in OldTags(j) || (r, t) in At(w, j.t).tags)
  {
    hide JobOk, Genuine, OldTags, OldManis, OldBlobs, Names, Firsts, TmpName;
    var o := [j.t] + j.os;
    assert Elements(o) == {j.t} + Elements(j.os);
    NamesMember(At(w, j.t), r, t);
    OldTagIff(j, r, t);
    OldRootsApart(j);
    assert t in ListedTags(j.os, w, r) <==> t in ListedTags(j.os, j.w, r) by {
      forall root | root in Elements(j.os) ensures At(w, root) == At(j.w, root) { assert root in j.os; }
    }
    if t in ListedTags(j.os, w, r) {
      var root :| root in Elements(j.os) && t in Names(At(w, root), Tags(r));
      NamesMember(At(w, root), r, t);
      assert root in Elements(o);
    }
    if t in ListedTags(o, w, r) {
      var root :| root in Elements(o) && t in Names(At(w, root), Tags(r));
      NamesMember(At(w, root), r, t);
      if root != j.t { assert root in Elements(j.os); }
    }
    if t in Names(At(w, j.t), Tags(r)) { assert j.t in Elements(o); }
  }

  lemma OldRootsApart(j: Job)
    requires JobOk(j)
    ensures j.t !in j.os
  {
    hide Genuine, GraphOf, ListedTags, Dangling;
  }

  /** No restart is refused ... */
  lemma NothingDangles(j: Job, w: World, r: string)
    requires JobOk(j) && Harmless(j) && Between(j, w) && r in j.all
    ensures !Dangling([j.t] + j.os, w, r)
  {
    hide JobOk, Harmless, Between, Read, ListedTags, OldTags, Hash, TmpName;
    forall t | t in ListedTags([j.t] + j.os, w, r) ensures Read([j.t] + j.os, w, Tagged(r, t)).Some? {
      OverListed(j, w, r, t);
      OverTag(j, w, r, t);
    }
  }

  /** ... and every tag it copies has its value of the class or of the start. */
  ghost predicate OverTagIs(goal: TagMap, now: TagMap, over: TagMap, p: (string, string)) {
    && (p in over && p in goal ==> over[p] == goal[p])
    && (p in over && p !in goal ==> p in now && over[p] == now[p])
    && (p in goal ==> p in over)
  }

  lemma OverTags(j: Job, w: World, p: (string, string))
    requires JobOk(j) && Harmless(j) && Between(j, w)
    ensures OverTagIs(OldTags(j), At(w, j.t).tags, ClassTags(j.e, [j.t] + j.os, w, j.all), p)
  {
    hide JobOk, Harmless, Between, Read, ListedTags, OldTags, ClassTags, Hash, TmpName;
    var o := [j.t] + j.os;
    assert p == (p.0, p.1);
    ClassTagValue(j.e, o, w, j.all, p.0, p.1);
    if p in OldTags(j) { OldTagRepo(j, p); }
    if p.0 in j.all {
      OverListed(j, w, p.0, p.1);
      if !TmpName(p.1) && (p in OldTags(j) || p in At(w, j.t).tags) { OverTag(j, w, p.0, p.1); }
    }
  }

  lemma ClassTagValue(e: Env, o: seq<Root>, w: World, repos: set<string>, r: string, t: string)
    ensures (r, t) in ClassTags(e, o, w, repos) <==>
            r in repos && t in ListedTags(o, w, r) && Read(o, w, Tagged(r, t)).Some?
    ensures (r, t) in ClassTags(e, o, w, repos) ==>
            ClassTags(e, o, w, repos)[(r, t)] == Hash(e, Sha256, Read(o, w, Tagged(r, t)).value)
  {
    hide Read, ListedTags, Hash;
    assert (r, t) in ClassTags(e, o, w, repos) <==> (r, t) in ClassTagNames(o, w, repos);
  }

  lemma OldTagRepo(j: Job, p: (string, string))
    requires JobOk(j) && p in OldTags(j)
    ensures p.0 in j.all && !TmpName(p.1)
  {
    hide Genuine, GraphOf, Read, Hash, Dangling, TmpName, Names;
    assert p in ClassTagNames(j.os, j.w, j.repos);
    var root :| root in Elements(j.os) && p.1 in Names(At(j.w, root), Tags(p.0));
    NamesMember(At(j.w, root), p.0, p.1);
  }

  /** For a restart the class looks, through the overlay, as the destination and the old volume made it at
      the start, wherever the copying stands; and it is never refused. */
  lemma RestartSeesTheSameClass(j: Job, w: World)
    requires JobOk(j) && Harmless(j) && Between(j, w)
    ensures ClassManis([j.t] + j.os, w, j.all) == OverManis(j)
    ensures ClassBlobs(j.e, [j.t] + j.os, w, j.all) == NamedBy(j, OverManis(j))
    ensures At(w, j.t).tags + ClassTags(j.e, [j.t] + j.os, w, j.all) == Start(j).tags + OldTags(j)
    ensures forall r :: r in j.all ==> !Dangling([j.t] + j.os, w, r)
  {
    hide JobOk, Harmless, OldTags, OldManis, OldBlobs, ClassTags, Genuine, Dangling, Firsts, OverManis, NamedBy,
         ClassManis, ClassBlobs;
    OverClass(j, w);
    forall r | r in j.all ensures !Dangling([j.t] + j.os, w, r) { NothingDangles(j, w, r); }
    var goal, now, over := OldTags(j), At(w, j.t).tags, ClassTags(j.e, [j.t] + j.os, w, j.all);
    forall p ensures OverTagIs(goal, now, over, p) { OverTags(j, w, p); }
    assert TagsBetween(Start(j).tags, now, goal);
    TagsMeet(Start(j).tags, goal, now, over);
  }

  lemma TagsMeet(start: TagMap, goal: TagMap, now: TagMap, over: TagMap)
    requires TagsBetween(start, now, goal) && forall p :: OverTagIs(goal, now, over, p)
    ensures now + over == start + goal
  {
    forall p
      ensures p in now + over <==> p in start + goal
      ensures p in now + over ==> (now + over)[p] == (start + goal)[p]
    {
      assert OverTagIs(goal, now, over, p);
    }
  }

  // ---- One attempt after another ----------------------------------------------------------

  /** The read order of the source after `i` stops: the destination in front once more each time. */
  function Stacked(j: Job, i: nat): seq<Root> { if i == 0 then j.os else [j.t] + Stacked(j, i - 1) }

  function ReposAt(j: Job, i: nat): set<string> { if i == 0 then j.repos else j.all }

  /** An attempt from `w` to `w'` through the source as it is after `i` stops. */
  ghost predicate AttemptEnds(j: Job, i: nat, w: World, w': World, full: bool) {
    exists b, m, g :: AttemptCopied(j, i, w, w', b, m, g, full)
  }

  ghost predicate AttemptCopied(j: Job, i: nat, w: World, w': World, b: map<Digest, Bytes>, m: map<Pair, Bytes>,
                                g: TagMap, full: bool) {
    ClassCopied(j.e, j.truth, Stacked(j, i), [j.t], w, w', j.t, ReposAt(j, i), b, m, g, full)
  }

  lemma {:induction false} StackedReads(j: Job, i: nat, w: World, k: Key)
    requires i >= 1
    ensures Read(Stacked(j, i), w, k) == Read([j.t] + j.os, w, k)
    ensures Elements(Stacked(j, i)) == Elements([j.t] + j.os)
  {
    if i == 1 {
      assert Stacked(j, 0) == j.os;
    } else {
      StackedReads(j, i - 1, w, k);
      ReadFirst(Stacked(j, i - 1), w, j.t, k);
      ReadFirst(j.os, w, j.t, k);
      assert Elements(Stacked(j, i)) == {j.t} + Elements(Stacked(j, i - 1));
    }
  }

  /** However often the destination is stacked in front, the copy is the same. */
  lemma StackedCopies(j: Job, i: nat, w: World, w': World, b: map<Digest, Bytes>, m: map<Pair, Bytes>, g: TagMap,
                      full: bool)
    requires i >= 1
    ensures ClassCopied(j.e, j.truth, Stacked(j, i), [j.t], w, w', j.t, j.all, b, m, g, full) <==>
            ClassCopied(j.e, j.truth, [j.t] + j.os, [j.t], w, w', j.t, j.all, b, m, g, full)
  {
    hide PartCopy, FullCopy, Read, ClassBlobs, ClassManis, ClassTags;
    var o, o' := Stacked(j, i), [j.t] + j.os;
    forall k ensures Read(o, w, k) == Read(o', w, k) { StackedReads(j, i, w, k); }
    StackedReads(j, i, w, Blob(Digest(Sha256, "")));
    SameReadsSameClass(j.e, o, o', w, j.all);
    var blobs, manis, tags := ClassBlobs(j.e, o, w, j.all), ClassManis(o, w, j.all), ClassTags(j.e, o, w, j.all);
    SameReadsSamePart(j.e, j.truth, o, o', [j.t], w, w', j.t, blobs, manis, tags, b, m, g);
  }

  lemma SameReadsSamePart(e: Env, truth: Digest -> Bytes, o: seq<Root>, o': seq<Root>, od: seq<Root>, w: World,
                          w': World, t: Root, blobs: set<Digest>, manis: set<Pair>, tags: TagMap,
                          b: map<Digest, Bytes>, m: map<Pair, Bytes>, g: TagMap)
    requires forall k :: Read(o, w, k) == Read(o', w, k)
    ensures PartCopy(e, truth, o, od, w, w', t, blobs, manis, tags, b, m, g) <==>
            PartCopy(e, truth, o', od, w, w', t, blobs, manis, tags, b, m, g)
    ensures FullCopy(o, od, w, blobs, manis, tags, b, m, g) <==> FullCopy(o', od, w, blobs, manis, tags, b, m, g)
  {
    hide Genuine, Changed, TrueBlobs, TrueManis, BlobsToCopy, ManisToCopy, ManisOf, Tagging, Read;
    SameReadsSameCopies(o, o', od, w, blobs, manis);
    SameReadsSameCopies(o, o', od, w, blobs, Tagging(tags));
    SameReadsSameCopies(o, o', od, w, blobs, manis + Tagging(tags));
  }

  lemma SameReadsSameCopies(o: seq<Root>, o': seq<Root>, od: seq<Root>, w: World, s: set<Digest>, n: set<Pair>)
    requires forall k :: Read(o, w, k) == Read(o', w, k)
    ensures BlobsToCopy(o, od, w, s) == BlobsToCopy(o', od, w, s)
    ensures ManisToCopy(o, od, w, n) == ManisToCopy(o', od, w, n) && ManisOf(o, w, n) == ManisOf(o', w, n)
  {
    hide Read;
  }

  lemma SameReadsSameClass(e: Env, o: seq<Root>, o': seq<Root>, w: World, repos: set<string>)
    requires (forall k :: Read(o, w, k) == Read(o', w, k)) && Elements(o) == Elements(o')
    ensures ClassBlobs(e, o, w, repos) == ClassBlobs(e, o', w, repos)
            && ClassManis(o, w, repos) == ClassManis(o', w, repos)
    ensures ClassTags(e, o, w, repos) == ClassTags(e, o', w, repos)
  {
    hide Read, NamesIn, DigestsIn, BlobsOf, Hash;
    forall repo ensures GraphOf(o, w, repo) == GraphOf(o', w, repo) { }
    assert ClassTagNames(o, w, repos) == ClassTagNames(o', w, repos);
    hide GraphOf;
    forall repo ensures RepoBlobs(e, o, w, repo) == RepoBlobs(e, o', w, repo) { }
  }

  lemma FirstStopIsBetween(j: Job, w': World)
    requires JobOk(j) && AttemptEnds(j, 0, j.w, w', false)
    ensures Between(j, w')
  {
    hide Genuine, Changed, Grown, TrueBlobs, TrueManis, Read, Hash, GraphOf, ListedTags, Dangling, RepoBlobs;
    var b, m, g :| AttemptCopied(j, 0, j.w, w', b, m, g, false);
    ClassTagsAreManis(j.e, j.truth, j.os, j.w, j.repos);
    StartIsBetween(j);
    assert OldManis(j) + Tagging(OldTags(j)) == OldManis(j);
    assert b.Keys <= OldBlobs(j);
    hide OldBlobs, OldManis, OldTags, Between;
    GrownBetween(j, j.w, w', b, m, g);
  }

  lemma StartIsBetween(j: Job)
    requires JobOk(j)
    ensures Between(j, j.w) && j.w == j.w
  {
    hide GraphOf, ListedTags, Dangling, OldBlobs, OldManis, OldTags, Firsts;
  }

  /** A stop of a restart stays between ... */
  lemma LaterStopIsBetween(j: Job, w: World, w': World, b: map<Digest, Bytes>, m: map<Pair, Bytes>, g: TagMap)
    requires JobOk(j) && Harmless(j) && Between(j, w)
    requires ClassCopied(j.e, j.truth, [j.t] + j.os, [j.t], w, w', j.t, j.all, b, m, g, false)
    ensures Between(j, w')
  {
    var o := [j.t] + j.os;
    hide JobOk, Harmless, Genuine, Changed, Grown, TrueBlobs, TrueManis, Read, OldBlobs, OldManis, OldTags, OverManis,
         NamedBy,
         ClassBlobs, ClassManis, ClassTags, Dangling, BlobsToCopy, ManisOf, Firsts;
    RestartSeesTheSameClass(j, w);
    BetweenGenuine(j, w);
    ClassTagsAreManis(j.e, j.truth, o, w, j.all);
    assert ClassManis(o, w, j.all) + Tagging(ClassTags(j.e, o, w, j.all)) == OverManis(j);
    forall d | d in b ensures d in Start(j).blobs || d in OldBlobs(j) { NewBlobIsKnown(j, w, d); }
    forall p | p in m ensures p in Start(j).manifests || p in OldManis(j) { NewManiIsKnown(j, w, p); }
    forall p | p in g
      ensures (p in Start(j).tags && g[p] == Start(j).tags[p]) || (p in OldTags(j) && g[p] == OldTags(j)[p])
    {
      OverTags(j, w, p);
      assert TagsBetween(Start(j).tags, At(w, j.t).tags, OldTags(j));
    }
    hide Between;
    GrownBetween(j, w, w', b, m, g);
  }

  lemma BetweenGenuine(j: Job, w: World)
    requires Between(j, w)
    ensures Genuine(j.e, j.truth, w)
  {
  }

  lemma NewBlobIsKnown(j: Job, w: World, d: Digest)
    requires JobOk(j) && Harmless(j) && Between(j, w)
             && d in BlobsToCopy([j.t] + j.os, [j.t], w, NamedBy(j, OverManis(j)))
    ensures d in Start(j).blobs || d in OldBlobs(j)
  {
    hide JobOk, NoRivalTags, NoDanglingExtras, NoExtraBlobs, Read, NamedBy, OverManis, OldBlobs, Between;
    ReadFirst(j.os, w, j.t, Blob(d));
    OneRoot(w, j.t, Blob(d));
    BetweenSame(j, w);
    OldReads(j, w, Blob(d));
    NamedIsKnown(j, d);
  }

  lemma BetweenSame(j: Job, w: World)
    requires Between(j, w)
    ensures OthersSame(j, w)
  {
  }

  lemma NewManiIsKnown(j: Job, w: World, p: Pair)
    requires p in ManisOf([j.t] + j.os, w, OverManis(j))
    ensures p in Start(j).manifests || p in OldManis(j)
  {
    hide OldManis, Read;
  }

  /** ... and a restart that is not stopped reaches the goal. */
  lemma RestartReachesGoal(j: Job, w: World, w': World, b: map<Digest, Bytes>, m: map<Pair, Bytes>, g: TagMap)
    requires JobOk(j) && Harmless(j) && Between(j, w)
    requires ClassCopied(j.e, j.truth, [j.t] + j.os, [j.t], w, w', j.t, j.all, b, m, g, true)
    ensures Goal(j, At(w', j.t)) && OthersSame(j, w') && Genuine(j.e, j.truth, w')
  {
    var o := [j.t] + j.os;
    BetweenGenuine(j, w);
    CompleteCopyIsExact(j.e, j.truth, o, w, w', j.t, j.all, b, m, g);
    hide ClassCopied, JobOk, Harmless, Genuine, OldBlobs, OldManis, OldTags, OverManis, NamedBy, ClassBlobs,
         ClassManis, ClassTags,
         Dangling, Firsts, ReadableBlobs;
    RestartSeesTheSameClass(j, w);
    OverReadable(j, w);
    OverFirsts(j, w);
  }

  lemma OverReadable(j: Job, w: World)
    requires JobOk(j) && Harmless(j) && Between(j, w)
    ensures At(w, j.t).blobs.Keys + ReadableBlobs([j.t] + j.os, w, NamedBy(j, OverManis(j))) == Start(j).blobs.Keys
            + OldBlobs(j)
    ensures At(w, j.t).manifests.Keys + OverManis(j) == Start(j).manifests.Keys + OldManis(j)
  {
    hide JobOk, NoRivalTags, NoDanglingExtras, NoExtraBlobs, Read, OldBlobs, OldManis, OldTags, Genuine, Firsts,
         NamedBy;
    var o := [j.t] + j.os;
    forall d
      ensures d in At(w, j.t).blobs || d in ReadableBlobs(o, w, NamedBy(j, OverManis(j))) <==>
              d in Start(j).blobs || d in OldBlobs(j)
    {
      ReadFirst(j.os, w, j.t, Blob(d));
      OldReads(j, w, Blob(d));
      if d in NamedBy(j, OverManis(j)) && Read(j.os, j.w, Blob(d)).Some? { NamedIsKnown(j, d); }
      if d in OldBlobs(j) { OldBlobIsNamed(j, d); }
    }
  }

  lemma OldBlobIsNamed(j: Job, d: Digest)
    requires JobOk(j) && d in OldBlobs(j)
    ensures d in NamedBy(j, OverManis(j)) && Read(j.os, j.w, Blob(d)).Some?
  {
    hide Read, BlobsNamed, Genuine, GraphOf, ListedTags, Dangling;
    var r :| r in j.repos && d in RepoBlobs(j.e, j.os, j.w, r);
    var x :| x in GraphOf(j.os, j.w, r) && d in BlobsNamed(j.e, GraphOf(j.os, j.w, r)[x]);
    GraphReads(j.os, j.w, r, x);
    GenuineRead(j.e, j.truth, j.os, j.w, Mani(r, x));
    assert (r, x) in OverManis(j) && (r, x).1 == x;
  }

  lemma OverFirsts(j: Job, w: World)
    requires JobOk(j) && Between(j, w)
    ensures At(w, j.t).dirs + Firsts(OverManis(j)) == Start(j).dirs + Firsts(OldManis(j))
  {
    hide OldManis, OldBlobs, OldTags, GraphOf, ListedTags, Dangling;
    GenuineAt(j.e, j.truth, j.w, j.t);
    forall r | r in Firsts(OverManis(j)) ensures r in Start(j).dirs + Firsts(OldManis(j)) {
      var p :| p in OverManis(j) && p.0 == r;
      assert p in Start(j).manifests ==> p.0 in Start(j).dirs;
    }
    assert Firsts(OldManis(j)) <= Firsts(OverManis(j));
  }

  /** Worlds after the start, after a first stop, after a second, ... */
  ghost predicate Stops(j: Job, ws: seq<World>) {
    && ws != [] && ws[0] == j.w
    && forall i {:trigger ws[i + 1]} :: 0 <= i < |ws| - 1 ==> AttemptEnds(j, i, ws[i], ws[i + 1], false)
  }

  lemma {:induction false} StopsStayBetween(j: Job, ws: seq<World>)
    requires JobOk(j) && Harmless(j) && Stops(j, ws)
    ensures Between(j, ws[|ws| - 1])
    decreases |ws|
  {
    hide JobOk, Harmless, Between, AttemptEnds;
    if |ws| == 1 {
      StartIsBetween(j);
    } else {
      var n := |ws| - 2;
      assert AttemptEnds(j, n, ws[n], ws[n + 1], false);
      if n == 0 {
        FirstStopIsBetween(j, ws[1]);
      } else {
        StopsStayBetween(j, ws[..n + 1]);
        LaterAttempt(j, n, ws[n], ws[n + 1], false);
      }
    }
  }

  lemma LaterAttempt(j: Job, i: nat, w: World, w': World, full: bool)
    requires JobOk(j) && Harmless(j) && Between(j, w) && i >= 1 && AttemptEnds(j, i, w, w', full)
    ensures !full ==> Between(j, w')
    ensures full ==> Goal(j, At(w', j.t)) && OthersSame(j, w') && Genuine(j.e, j.truth, w')
  {
    hide JobOk, Harmless, Between, ClassCopied, Goal, Genuine;
    var b, m, g :| AttemptCopied(j, i, w, w', b, m, g, full);
    StackedCopies(j, i, w, w', b, m, g, full);
    if full { RestartReachesGoal(j, w, w', b, m, g); } else { LaterStopIsBetween(j, w, w', b, m, g); }
  }

  /** Restart: a backfill that was stopped any number of times, each time anywhere, and run again through
      the overlays left behind, ends in the world one uninterrupted run would have reached, root by root. */
  lemma RestartReachesTheSameVolume(j: Job, ws: seq<World>, w2: World, w1: World, root: Root)
    requires JobOk(j) && Harmless(j) && Stops(j, ws) && |ws| > 1
    requires AttemptEnds(j, |ws| - 1, ws[|ws| - 1], w2, true) && AttemptEnds(j, 0, j.w, w1, true)
    ensures At(w2, root) == At(w1, root)
  {
    hide JobOk, Harmless, Between, Goal, Genuine, OthersSame, Stops, ClassCopied;
    StopsStayBetween(j, ws);
    LaterAttempt(j, |ws| - 1, ws[|ws| - 1], w2, true);
    var b, m, g :| AttemptCopied(j, 0, j.w, w1, b, m, g, true);
    UninterruptedReachesGoal(j, w1, b, m, g);
    GoalIsUnique(j, w1, w2, root);
  }
}
