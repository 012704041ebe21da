/** Exactly when a stopped migration can be run again to the end one uninterrupted run would have reached, over
    the stops the loops can really leave. */
module Restartability {
  import opened Content
  import opened Volumes
  import opened Backends
  import opened Walks
  import opened Copying
  import opened Migrating
  import opened Backfilling
  import opened Restarting

  // ---- Stops ------------------------------------------------------------------------------

  /** The repositories in the order the backfill takes them. */
  ghost predicate Ordered(order: seq<string>, repos: set<string>) {
    Elements(order) == repos && forall i, k :: 0 <= i < k < |order| ==> order[i] != order[k]
  }

  /** The first run stops inside the `i`-th repository: those before it are copied, it is copied in part, blobs
      before manifests before tags. */
  ghost predicate StopsInside(j: Job, order: seq<string>, i: nat, w: World) {
    i < |order| && StoppedIn(j.e, j.truth, j.os, [j.t], j.w, w, j.t, Elements(order[..i]), order[i])
  }

  lemma StopInsideIsStop(j: Job, order: seq<string>, i: nat, w: World)
    requires JobOk(j) && Ordered(order, j.repos) && StopsInside(j, order, i, w)
    ensures AttemptEnds(j, 0, j.w, w, false)
  {
    hide JobOk, StoppedIn, ClassCopied, Genuine;
    StartIsBetween(j);
    BetweenGenuine(j, j.w);
    assert order[i] in Elements(order) && Elements(order[..i]) <= Elements(order);
    var b, m, g := StopIsPartial(j.e, j.truth, j.os, [j.t], j.w, w, j.t, Elements(order[..i]), order[i], j.repos);
    assert AttemptCopied(j, 0, j.w, w, b, m, g, false);
  }

  /** However the first run stops, the restart is not refused, and run to its end it reaches the goal. */
  ghost predicate Restartable(j: Job, order: seq<string>) {
    forall i: nat, w :: StopsInside(j, order, i, w) ==> RestartsWell(j, w)
  }

  ghost predicate RestartsWell(j: Job, w: World) {
    && (forall r :: r in j.all ==> !Dangling([j.t] + j.os, w, r))
    && (forall w' :: AttemptEnds(j, 1, w, w', true) ==> Goal(j, At(w', j.t)))
  }

  // ---- Copies exist -----------------------------------------------------------------------

  /** A copy of these blobs, manifests and tags exists, complete or stopped before its tags. */
  lemma CopyOfExists(e: Env, truth: Digest -> Bytes, os: seq<Root>, t: Root, w: World, s: set<Digest>, n: set<Pair>,
                     tags: TagMap, full: bool)
    returns (w': World, b: map<Digest, Bytes>, m: map<Pair, Bytes>, g: TagMap)
    requires Genuine(e, truth, w) && Tagging(tags) <= n && ManisOf(os, w, n).Keys == n
    ensures PartCopy(e, truth, os, [t], w, w', t, s, n, tags, b, m, g)
    ensures full ==> FullCopy(os, [t], w, s, n, tags, b, m, g)
    ensures InOrder(os, [t], w, s, n, b, m, g) && m == ManisOf(os, w, n) && (!full ==> g == map[])
  {
    hide Genuine, BlobsToCopy, ManisToCopy, Read, Hash, TrueBlobs, TrueManis, Grown, GenuineVol;
    b, m, g := BlobsToCopy(os, [t], w, s), ManisOf(os, w, n), if full then tags else map[];
    CopiesAreTrue(e, truth, os, [t], w, s, n);
    TagsInManis(os, w, n, tags);
    assert n + Tagging(tags) == n;
    forall p | p in g ensures (p.0, g[p]) in m { TagIsTagging(tags, p); }
    GenuineAt(e, truth, w, t);
    GrownGenuine(e, truth, At(w, t), b, m, g);
    w' := w[t := Grown(At(w, t), b, m, g)];
    RootIsGenuine(e, truth, w, t, Grown(At(w, t), b, m, g));
    NeededIsAvailable(os, [t], w, n);
  }

  /** The copy of a class exists. */
  lemma CopyExists(e: Env, truth: Digest -> Bytes, os: seq<Root>, t: Root, w: World, repos: set<string>)
    returns (w': World, b: map<Digest, Bytes>, m: map<Pair, Bytes>, g: TagMap)
    requires Genuine(e, truth, w)
    ensures ClassCopied(e, truth, os, [t], w, w', t, repos, b, m, g, true)
  {
    hide Genuine, ClassBlobs, ClassManis, ClassTags, PartCopy, FullCopy, InOrder, Tagging;
    ClassTagsAreManis(e, truth, os, w, repos);
    ClassManisRead(os, w, repos);
    w', b, m, g := CopyOfExists(e, truth, os, t, w, ClassBlobs(e, os, w, repos), ClassManis(os, w, repos),
                                ClassTags(e, os, w, repos), true);
  }

  lemma OneRepoClass(e: Env, os: seq<Root>, w: World, repo: string)
    ensures ClassManis(os, w, {repo}) == RepoManis(os, w, repo)
            && ClassTags(e, os, w, {repo}) == RepoTags(e, os, w, repo)
  {
    hide GraphOf, ListedTags, Read, Hash;
    assert ClassManis(os, w, {}) == {} && ClassTagNames(os, w, {}) == {};
    assert ClassTags(e, os, w, {}) == map[];
    ClassOfOneMore(e, os, w, {}, repo);
    assert {} + {repo} == {repo};
  }

  /** The copy of one repository, stopped after its manifests and before its tags, exists. */
  lemma RepoStopExists(e: Env, truth: Digest -> Bytes, os: seq<Root>, t: Root, w: World, repo: string)
    returns (w': World, b: map<Digest, Bytes>, m: map<Pair, Bytes>)
    requires Genuine(e, truth, w)
    ensures RepoCopied(e, truth, os, [t], w, w', t, repo, b, m, map[], false)
            && RepoInOrder(e, os, [t], w, repo, b, m, map[])
    ensures m.Keys == RepoManis(os, w, repo) && Genuine(e, truth, w') && Changed(w, w', t, Grown(At(w, t), b, m, map[]))
  {
    hide Genuine, RepoBlobs, RepoManis, RepoTags, FullCopy, InOrder, Tagging, ClassManis, ClassTags;
    ClassTagsAreManis(e, truth, os, w, {repo});
    ClassManisRead(os, w, {repo});
    OneRepoClass(e, os, w, repo);
    var g;
    w', b, m, g := CopyOfExists(e, truth, os, t, w, RepoBlobs(e, os, w, repo), RepoManis(os, w, repo),
                                RepoTags(e, os, w, repo), false);
  }

  lemma NeededIsAvailable(os: seq<Root>, od: seq<Root>, w: World, n: set<Pair>)
    ensures ManisToCopy(os, od, w, n).Keys <= ManisOf(os, w, n).Keys
  {
    hide Read;
  }

  lemma TagsInManis(os: seq<Root>, w: World, n: set<Pair>, tags: TagMap)
    requires Tagging(tags) <= n
    ensures ManisOf(os, w, Tagging(tags)).Keys <= ManisOf(os, w, n).Keys
  {
    hide Read;
  }

  lemma RootIsGenuine(e: Env, truth: Digest -> Bytes, w: World, t: Root, v: Vol)
    requires Genuine(e, truth, w) && GenuineVol(e, truth, v)
    ensures Genuine(e, truth, w[t := v]) && Changed(w, w[t := v], t, v)
  {
    hide GenuineVol;
  }

  lemma CopiesAreTrue(e: Env, truth: Digest -> Bytes, os: seq<Root>, od: seq<Root>, w: World, s: set<Digest>,
                      n: set<Pair>)
    requires Genuine(e, truth, w)
    ensures TrueBlobs(e, truth, BlobsToCopy(os, od, w, s)) && TrueManis(e, truth, ManisOf(os, w, n))
  {
    hide Genuine, Read;
    forall d
      ensures Read(os, w, Blob(d)).Some? ==>
              Read(os, w, Blob(d)).value == truth(d) && Hash(e, d.algorithm, truth(d)) == d
    {
      GenuineRead(e, truth, os, w, Blob(d));
    }
    forall p: Pair
      ensures Read(os, w, Mani(p.0, p.1)).Some? ==>
              Read(os, w, Mani(p.0, p.1)).value == truth(p.1) && Hash(e, Sha256, truth(p.1)) == p.1
    {
      GenuineRead(e, truth, os, w, Mani(p.0, p.1));
    }
  }

  lemma GrownTags(e: Env, truth: Digest -> Bytes, v: Vol, m: map<Pair, Bytes>, g: TagMap)
    requires GenuineVol(e, truth, v) && TrueManis(e, truth, m) && forall p :: p in g ==> (p.0, g[p]) in m
    ensures forall p :: p in v.tags + g ==> p.0 in v.dirs + ReposOf(m) && (v.tags + g)[p].algorithm == Sha256
  {
    forall p | p in g ensures p.0 in ReposOf(m) && g[p].algorithm == Sha256 {
      var q: Pair := (p.0, g[p]);
      assert q in m && q.0 in ReposOf(m) && Hash(e, Sha256, truth(q.1)) == q.1;
    }
    hide ReposOf, TrueManis;
  }

  lemma GrownManis(e: Env, truth: Digest -> Bytes, v: Vol, m: map<Pair, Bytes>)
    requires GenuineVol(e, truth, v) && TrueManis(e, truth, m)
    ensures forall p :: p in v.manifests + m ==>
              p.0 in v.dirs + ReposOf(m) && (v.manifests + m)[p] == truth(p.1) && Hash(e, Sha256, truth(p.1)) == p.1
  {
    hide Hash;
    forall p | p in m ensures p.0 in ReposOf(m) { }
    hide ReposOf;
  }

  lemma GrownGenuine(e: Env, truth: Digest -> Bytes, v: Vol, b: map<Digest, Bytes>, m: map<Pair, Bytes>, g: TagMap)
    requires GenuineVol(e, truth, v) && TrueBlobs(e, truth, b) && TrueManis(e, truth, m) && forall p :: p in g ==>
             (p.0, g[p]) in m
    ensures GenuineVol(e, truth, Grown(v, b, m, g))
  {
    GrownTags(e, truth, v, m, g);
    GrownManis(e, truth, v, m);
    hide ReposOf, Hash;
  }

  /** Nothing of the first repository is copied yet. */
  lemma StopAtOnce(j: Job, order: seq<string>)
    requires JobOk(j) && order != []
    ensures StopsInside(j, order, 0, j.w)
  {
    hide ClassCopied, RepoCopied, RepoInOrder, Genuine, GraphOf, ListedTags, Dangling;
    ClassStart(j.e, j.truth, j.os, [j.t], j.w, j.t);
    NothingCopied(j.e, j.truth, j.os, [j.t], j.w, j.t, order[0]);
    assert Elements(order[..0]) == {};
    assert StoppedAt(j.e, j.truth, j.os, [j.t], j.w, j.w, j.w, j.t, {}, order[0], map[], map[], map[], map[], map[],
                     map[]);
  }

  // ---- Necessity --------------------------------------------------------------------------

  /** Stopped before its first write and run again, a migration is refused by a listed tag that dangles on
      the destination alone ... */
  lemma DanglingExtraRefusesRestart(j: Job, p: (string, string))
    requires JobOk(j) && p in Start(j).tags && p.0 in j.all && !TmpName(p.1) && Read(j.os, j.w, Tagged(p.0, p.1)).None?
    requires (p.0, Start(j).tags[p]) !in Start(j).manifests
    ensures Dangling([j.t] + j.os, j.w, p.0)
  {
    hide JobOk, Read, Names, TmpName;
    ReadFirst(j.os, j.w, j.t, Tagged(p.0, p.1));
    NamesMember(Start(j), p.0, p.1);
    assert j.t in Elements([j.t] + j.os);
    assert p.1 in ListedTags([j.t] + j.os, j.w, p.0);
  }

  /** ... copies a blob more than one run when a manifest of the destination names a readable one ... */
  lemma ExtraManifestCopiesMore(j: Job, q: Pair, d: Digest, w2: World, b: map<Digest, Bytes>, m: map<Pair, Bytes>,
                                g: TagMap)
    requires JobOk(j) && q in Start(j).manifests && q.0 in j.all && d in BlobsNamed(j.e, Start(j).manifests[q])
    requires Read(j.os, j.w, Blob(d)).Some? && d !in Start(j).blobs && d !in OldBlobs(j)
    requires ClassCopied(j.e, j.truth, [j.t] + j.os, [j.t], j.w, w2, j.t, j.all, b, m, g, true)
    ensures d in At(w2, j.t).blobs && !Goal(j, At(w2, j.t))
  {
    var o := [j.t] + j.os;
    StartIsBetween(j);
    BetweenGenuine(j, j.w);
    CompleteCopyIsExact(j.e, j.truth, o, j.w, w2, j.t, j.all, b, m, g);
    hide ClassCopied, JobOk, Between, Genuine, OldBlobs, OldManis, OldTags, ClassManis, ClassTags, Firsts, Read,
         BlobsNamed, ClassBlobs;
    OverClass(j, j.w);
    ReadFirst(j.os, j.w, j.t, Blob(d));
    ExtraIsNamed(j, q, d);
    hide OverManis, NamedBy;
  }

  lemma ExtraIsNamed(j: Job, q: Pair, d: Digest)
    requires Genuine(j.e, j.truth, j.w) && q in Start(j).manifests && q.0 in j.all
    requires d in BlobsNamed(j.e, Start(j).manifests[q])
    ensures d in NamedBy(j, OverManis(j))
  {
    hide Genuine, OldManis, BlobsNamed;
    GenuineAt(j.e, j.truth, j.w, j.t);
    GenuineMani(j.e, j.truth, Start(j), q);
    assert q in OverManis(j);
  }

  lemma GenuineMani(e: Env, truth: Digest -> Bytes, v: Vol, q: Pair)
    requires GenuineVol(e, truth, v) && q in v.manifests
    ensures v.manifests[q] == truth(q.1)
  {
  }

  /** ... and, stopped in the repository of a rival tag before that tag, leaves it standing where one run
      overwrites it. */
  lemma ConflictSurvivesRestart(j: Job, w: World, b1: map<Digest, Bytes>, m1: map<Pair, Bytes>, g1: TagMap,
                                p: (string, string), w2: World, b: map<Digest, Bytes>, m: map<Pair, Bytes>, g: TagMap)
    requires JobOk(j) && p in OldTags(j) && p in Start(j).tags && Start(j).tags[p] != OldTags(j)[p]
    requires ClassCopied(j.e, j.truth, j.os, [j.t], j.w, w, j.t, j.repos, b1, m1, g1, false) && p !in g1
    requires (p.0, Start(j).tags[p]) in At(w, j.t).manifests
    requires ClassCopied(j.e, j.truth, [j.t] + j.os, [j.t], w, w2, j.t, j.all, b, m, g, true)
    ensures p in At(w2, j.t).tags && At(w2, j.t).tags[p] == Start(j).tags[p] && !Goal(j, At(w2, j.t))
  {
    CopiedIsGenuine(j.e, j.truth, j.os, [j.t], j.w, w, j.t, j.repos, b1, m1, g1);
    hide ClassCopied, JobOk, Genuine, OldBlobs, OldManis, OldTags, ClassManis, ClassBlobs, ClassTags, ReadableBlobs,
         Firsts;
    assert p in At(w, j.t).tags && At(w, j.t).tags[p] == Start(j).tags[p];
    StandingRival(j, w, p, w2, b, m, g);
  }

  /** A rival tag that stands when the restart begins stands when it ends. */
  lemma StandingRival(j: Job, w: World, p: (string, string), w2: World, b: map<Digest, Bytes>, m: map<Pair, Bytes>,
                      g: TagMap)
    requires Genuine(j.e, j.truth, w) && p in OldTags(j) && p in Start(j).tags && Start(j).tags[p] != OldTags(j)[p]
    requires p in At(w, j.t).tags && At(w, j.t).tags[p] == Start(j).tags[p]
    requires (p.0, Start(j).tags[p]) in At(w, j.t).manifests
    requires ClassCopied(j.e, j.truth, [j.t] + j.os, [j.t], w, w2, j.t, j.all, b, m, g, true)
    ensures p in At(w2, j.t).tags && At(w2, j.t).tags[p] == Start(j).tags[p] && !Goal(j, At(w2, j.t))
  {
    CompleteCopyIsExact(j.e, j.truth, [j.t] + j.os, w, w2, j.t, j.all, b, m, g);
    hide ClassCopied, Genuine, OldBlobs, OldManis, OldTags, ClassManis, ClassBlobs, ClassTags, ReadableBlobs, Firsts;
    RivalIsRead(j, w, p);
  }

  /** A pointer of the destination whose manifest is stored there is what the overlay reads. */
  lemma RivalIsRead(j: Job, w: World, p: (string, string))
    requires Genuine(j.e, j.truth, w) && p in At(w, j.t).tags && (p.0, At(w, j.t).tags[p]) in At(w, j.t).manifests
    ensures var over := ClassTags(j.e, [j.t] + j.os, w, j.all); p in over ==> over[p] == At(w, j.t).tags[p]
  {
    hide Genuine, ClassTags, Read, Hash, ListedTags;
    assert p == (p.0, p.1);
    ReadFirst(j.os, w, j.t, Tagged(p.0, p.1));
    StoredValue(j, w, p.0, At(w, j.t).tags[p]);
    ClassTagValue(j.e, [j.t] + j.os, w, j.all, p.0, p.1);
  }

  lemma CopiedIsGenuine(e: Env, truth: Digest -> Bytes, os: seq<Root>, od: seq<Root>, w: World, w': World, t: Root,
                        repos: set<string>, b: map<Digest, Bytes>, m: map<Pair, Bytes>, g: TagMap)
    requires ClassCopied(e, truth, os, od, w, w', t, repos, b, m, g, false)
    ensures Genuine(e, truth, w') && Changed(w, w', t, Grown(At(w, t), b, m, g))
  {
  }

  /** In the repository of a rival tag the run can stop with all its manifests written and the rival standing. */
  lemma StopAtRival(j: Job, order: seq<string>, p: (string, string)) returns (i: nat, w: World)
    requires JobOk(j) && Ordered(order, j.repos) && p in OldTags(j) && p in Start(j).tags
    requires (p.0, Start(j).tags[p]) in Start(j).manifests || (p.0, Start(j).tags[p]) in OldManis(j)
    ensures StopsInside(j, order, i, w) && Genuine(j.e, j.truth, w)
    ensures p in At(w, j.t).tags && At(w, j.t).tags[p] == Start(j).tags[p]
    ensures (p.0, Start(j).tags[p]) in At(w, j.t).manifests
  {
    hide JobOk, Genuine, OldTags, OldManis, ClassCopied, RepoCopied, RepoInOrder;
    StartIsBetween(j);
    BetweenGenuine(j, j.w);
    i := PlaceOf(j, order, p);
    var done := Elements(order[..i]);
    assert p.0 !in done;
    var mid, b1, m1, g1 := CopyExists(j.e, j.truth, j.os, j.t, j.w, done);
    DoneLeavesOthers(j, mid, done, b1, m1, g1, p);
    var b2, m2;
    w, b2, m2 := RepoStopExists(j.e, j.truth, j.os, j.t, mid, p.0);
    ClassGenuine(j.e, j.truth, j.os, [j.t], j.w, mid, j.t, done, b1, m1, g1);
    NextRepoUnchanged(j.e, j.truth, j.os, [j.t], j.w, mid, j.t, done, b1, m1, g1, p.0);
    assert StoppedAt(j.e, j.truth, j.os, [j.t], j.w, mid, w, j.t, done, p.0, b1, m1, g1, b2, m2, map[]);
    if (p.0, Start(j).tags[p]) in OldManis(j) { OldManiOfRepo(j, p.0, Start(j).tags[p]); }
  }

  lemma PlaceOf(j: Job, order: seq<string>, p: (string, string)) returns (i: nat)
    requires Ordered(order, j.repos) && p in OldTags(j)
    ensures i < |order| && order[i] == p.0
  {
    hide ListedTags, Read, Hash;
    assert p in ClassTagNames(j.os, j.w, j.repos);
    assert p.0 in Elements(order);
    i :| 0 <= i < |order| && order[i] == p.0;
  }

  /** Copying other repositories leaves a tag of this one, and its manifest, on the destination. */
  lemma DoneLeavesOthers(j: Job, mid: World, done: set<string>, b: map<Digest, Bytes>, m: map<Pair, Bytes>, g: TagMap,
                         p: (string, string))
    requires ClassCopied(j.e, j.truth, j.os, [j.t], j.w, mid, j.t, done, b, m, g, true) && p.0 !in done
    requires p in Start(j).tags
    ensures Genuine(j.e, j.truth, mid) && p in At(mid, j.t).tags && At(mid, j.t).tags[p] == Start(j).tags[p]
    ensures forall q :: q in Start(j).manifests ==> q in At(mid, j.t).manifests
  {
    OnlyClassRepos(j.e, j.truth, j.os, [j.t], j.w, mid, j.t, done, b, m, g);
    CopiedIsGenuine(j.e, j.truth, j.os, [j.t], j.w, mid, j.t, done, b, m, g);
    hide ClassCopied, Genuine;
  }

  lemma OldManiOfRepo(j: Job, r: string, d: Digest)
    requires (r, d) in OldManis(j)
    ensures (r, d) in RepoManis(j.os, j.w, r)
  {
    hide GraphOf;
  }

  /** A restart can run to its end. */
  lemma RestartExists(j: Job, w: World)
    returns (w2: World, b: map<Digest, Bytes>, m: map<Pair, Bytes>, g: TagMap)
    requires Genuine(j.e, j.truth, w)
    ensures ClassCopied(j.e, j.truth, [j.t] + j.os, [j.t], w, w2, j.t, j.all, b, m, g, true)
            && AttemptEnds(j, 1, w, w2, true)
  {
    hide Genuine, ClassCopied;
    w2, b, m, g := CopyExists(j.e, j.truth, [j.t] + j.os, j.t, w, j.all);
    StackedCopies(j, 1, w, w2, b, m, g, true);
    assert AttemptCopied(j, 1, w, w2, b, m, g, true);
  }

  lemma RivalIsNotRestartable(j: Job, order: seq<string>, p: (string, string))
    requires JobOk(j) && Ordered(order, j.repos)
    requires p in OldTags(j) && p in Start(j).tags && Start(j).tags[p] != OldTags(j)[p]
    requires (p.0, Start(j).tags[p]) in Start(j).manifests || (p.0, Start(j).tags[p]) in OldManis(j)
    ensures !Restartable(j, order)
  {
    hide JobOk, Genuine, OldTags, OldManis, ClassCopied, Goal, Dangling, AttemptEnds, StopsInside;
    var i, w := StopAtRival(j, order, p);
    var w2, b, m, g := RestartExists(j, w);
    StandingRival(j, w, p, w2, b, m, g);
    assert !RestartsWell(j, w);
  }

  lemma ExtraIsNotRestartable(j: Job, order: seq<string>, q: Pair, d: Digest)
    requires JobOk(j) && order != []
    requires q in Start(j).manifests && q.0 in j.all && d in BlobsNamed(j.e, Start(j).manifests[q])
    requires Read(j.os, j.w, Blob(d)).Some? && d !in Start(j).blobs && d !in OldBlobs(j)
    ensures !Restartable(j, order)
  {
    hide JobOk, Genuine, OldBlobs, ClassCopied, Read, Goal, Dangling, BlobsNamed, AttemptEnds, StopsInside;
    StartIsBetween(j);
    BetweenGenuine(j, j.w);
    StopAtOnce(j, order);
    var w2, b, m, g := RestartExists(j, j.w);
    ExtraManifestCopiesMore(j, q, d, w2, b, m, g);
    assert !RestartsWell(j, j.w);
  }

  /** Exactly when a stopped migration can always be restarted, to the same end as one uninterrupted run: there
      is nothing to copy, so it cannot stop, or what the destination holds is harmless. */
  lemma RestartableIff(j: Job, order: seq<string>)
    requires JobOk(j) && Ordered(order, j.repos)
    ensures Restartable(j, order) <==> order == [] || Harmless(j)
  {
    hide JobOk, Ordered, Restartable, NoRivalTags, NoExtraBlobs, NoDanglingExtras;
    if order == [] {
      NothingStops(j);
    } else if Harmless(j) {
      HarmlessIsRestartable(j, order);
    } else if !NoRivalTags(j) {
      RivalBreaks(j, order);
    } else if !NoExtraBlobs(j) {
      ExtraBreaks(j, order);
    } else {
      DanglingBreaks(j, order);
    }
  }

  lemma NothingStops(j: Job)
    ensures Restartable(j, [])
  {
  }

  lemma HarmlessIsRestartable(j: Job, order: seq<string>)
    requires JobOk(j) && Ordered(order, j.repos) && Harmless(j)
    ensures Restartable(j, order)
  {
    hide JobOk, Ordered, Harmless, AttemptEnds, Goal, Dangling, StopsInside;
    forall i: nat, w | StopsInside(j, order, i, w) ensures RestartsWell(j, w) {
      StopInsideIsStop(j, order, i, w);
      FirstStopIsBetween(j, w);
      forall r | r in j.all ensures !Dangling([j.t] + j.os, w, r) { NothingDangles(j, w, r); }
      forall w' | AttemptEnds(j, 1, w, w', true) ensures Goal(j, At(w', j.t)) { LaterAttempt(j, 1, w, w', true); }
    }
  }

  lemma RivalBreaks(j: Job, order: seq<string>)
    requires JobOk(j) && Ordered(order, j.repos) && !NoRivalTags(j)
    ensures !Restartable(j, order)
  {
    hide JobOk, Ordered, OldTags, OldManis, Restartable;
    var p :| p in OldTags(j) && p in Start(j).tags && Start(j).tags[p] != OldTags(j)[p]
             && ((p.0, Start(j).tags[p]) in Start(j).manifests || (p.0, Start(j).tags[p]) in OldManis(j));
    RivalIsNotRestartable(j, order, p);
  }

  lemma ExtraBreaks(j: Job, order: seq<string>)
    requires JobOk(j) && order != [] && !NoExtraBlobs(j)
    ensures !Restartable(j, order)
  {
    hide JobOk, OldBlobs, Restartable, Read, BlobsNamed;
    var q, d :| q in Start(j).manifests && q.0 in j.all && d in BlobsNamed(j.e, Start(j).manifests[q])
                && Read(j.os, j.w, Blob(d)).Some? && d !in Start(j).blobs && d !in OldBlobs(j);
    ExtraIsNotRestartable(j, order, q, d);
  }

  lemma DanglingBreaks(j: Job, order: seq<string>)
    requires JobOk(j) && order != [] && !NoDanglingExtras(j)
    ensures !Restartable(j, order)
  {
    hide JobOk, AttemptEnds, Read, Dangling, Goal, TmpName, StopsInside;
    var p :| p in Start(j).tags && p.0 in j.all && !TmpName(p.1) && Read(j.os, j.w, Tagged(p.0, p.1)).None?
             && (p.0, Start(j).tags[p]) !in Start(j).manifests;
    StopAtOnce(j, order);
    DanglingExtraRefusesRestart(j, p);
    assert !RestartsWell(j, j.w);
  }
}
