/** The drain of the old volume: purge of the migrated repositories' manifests, then GC. */
module Draining {
  import opened Content
  import opened Volumes
  import opened Backends
  import opened Devices
  import opened Walks
  import opened Migrating
  import opened Collecting
  import opened CollectingTheorems

  /** A volume without the listable names of some repositories. Tags that read as temporary files are
      never listed, so they stay behind. */
  function Purged(v: Vol, repos: set<string>): Vol {
    v.(tags := map p | p in v.tags && (p.0 !in repos || TmpName(p.1)) :: v.tags[p],
       manifests := map p | p in v.manifests && p.0 !in repos :: v.manifests[p])
  }

  ghost predicate PurgedFrom(w: World, w': World, roots: set<Root>, repos: set<string>) {
    forall root :: At(w', root) == if root in roots then Purged(At(w, root), repos) else At(w, root)
  }

  /** Whatever faults occur: on the given roots some names of the repositories went away, nothing else. */
  ghost predicate OnlyNamesLost(w: World, w': World, roots: set<Root>, repos: set<string>) {
    forall root ::
      && At(w', root) == At(w, root).(tags := At(w', root).tags, manifests := At(w', root).manifests)
      && (root !in roots ==> At(w', root) == At(w, root))
      && Fewer(At(w, root).tags, At(w', root).tags, repos)
      && Fewer(At(w, root).manifests, At(w', root).manifests, repos)
  }

  ghost predicate Fewer<N, V>(m: map<(string, N), V>, m': map<(string, N), V>, repos: set<string>) {
    && (forall p :: p in m' ==> p in m && m'[p] == m[p])
    && (forall p :: p in m && p.0 !in repos ==> p in m')
  }

  lemma NothingLost(w: World, roots: set<Root>, repos: set<string>)
    ensures OnlyNamesLost(w, w, roots, repos)
  {
  }

  lemma LoseOne(w: World, mid: World, w': World, roots: set<Root>, repos: set<string>, gone: set<Root>, k: Key)
    requires OnlyNamesLost(w, mid, roots, repos) && Swept(mid, w', gone, k) && gone <= roots
    requires !k.Blob? && k.repo in repos
    ensures OnlyNamesLost(w, w', roots, repos)
  {
    hide Remove, Fewer;
    forall root
      ensures At(w', root) == At(w, root).(tags := At(w', root).tags, manifests := At(w', root).manifests)
      ensures root !in roots ==> At(w', root) == At(w, root)
      ensures Fewer(At(w, root).tags, At(w', root).tags, repos)
              && Fewer(At(w, root).manifests, At(w', root).manifests, repos)
    {
      assert At(w', root) == if root in gone then Remove(At(mid, root), k) else At(mid, root);
      RemoveFewer(At(mid, root), k, repos);
      FewerTwice(At(w, root).tags, At(mid, root).tags, At(w', root).tags, repos);
      FewerTwice(At(w, root).manifests, At(mid, root).manifests, At(w', root).manifests, repos);
    }
  }

  lemma RemoveFewer(v: Vol, k: Key, repos: set<string>)
    requires !k.Blob? && k.repo in repos
    ensures Remove(v, k) == v.(tags := Remove(v, k).tags, manifests := Remove(v, k).manifests)
    ensures Fewer(v.tags, Remove(v, k).tags, repos) && Fewer(v.manifests, Remove(v, k).manifests, repos)
    ensures Fewer(v.tags, v.tags, repos) && Fewer(v.manifests, v.manifests, repos)
  {
  }

  lemma FewerTwice<N, V>(m: map<(string, N), V>, m': map<(string, N), V>, m'': map<(string, N), V>, repos: set<string>)
    requires Fewer(m, m', repos) && Fewer(m', m'', repos)
    ensures Fewer(m, m'', repos)
  {
  }

  /** Part of a purge: tags `ts` and manifests `ds` of one repository are gone. */
  function WithoutNames(v: Vol, repo: string, ts: set<string>, ds: set<Digest>): Vol {
    v.(tags := map p | p in v.tags && !(p.0 == repo && p.1 in ts) :: v.tags[p],
       manifests := map p | p in v.manifests && !(p.0 == repo && p.1 in ds) :: v.manifests[p])
  }

  ghost predicate NamesGone(w: World, w': World, roots: set<Root>, repo: string, ts: set<string>, ds: set<Digest>) {
    forall root :: At(w', root) == if root in roots then WithoutNames(At(w, root), repo, ts, ds) else At(w, root)
  }

  lemma WithoutNothing(w: World, roots: set<Root>, repo: string)
    ensures NamesGone(w, w, roots, repo, {}, {})
  {
    forall root ensures WithoutNames(At(w, root), repo, {}, {}) == At(w, root) {
      assert WithoutNames(At(w, root), repo, {}, {}).tags == At(w, root).tags;
      assert WithoutNames(At(w, root), repo, {}, {}).manifests == At(w, root).manifests;
    }
  }

  lemma WithoutTag(v: Vol, repo: string, ts: set<string>, ds: set<Digest>, t: string)
    ensures Remove(WithoutNames(v, repo, ts, ds), Tagged(repo, t)) == WithoutNames(v, repo, ts + {t}, ds)
  {
    assert Remove(WithoutNames(v, repo, ts, ds), Tagged(repo, t)).tags == WithoutNames(v, repo, ts + {t}, ds).tags;
  }

  lemma WithoutMani(v: Vol, repo: string, ts: set<string>, ds: set<Digest>, d: Digest)
    ensures Remove(WithoutNames(v, repo, ts, ds), Mani(repo, d)) == WithoutNames(v, repo, ts, ds + {d})
  {
    assert Remove(WithoutNames(v, repo, ts, ds), Mani(repo, d)).manifests == WithoutNames(v, repo, ts,
        ds + {d}).manifests;
  }

  lemma TagGone(w: World, mid: World, w': World, roots: set<Root>, repo: string, ts: set<string>, ds: set<Digest>,
                t: string)
    requires NamesGone(w, mid, roots, repo, ts, ds) && Swept(mid, w', roots, Tagged(repo, t))
    ensures NamesGone(w, w', roots, repo, ts + {t}, ds)
  {
    hide WithoutNames, Remove;
    forall root
      ensures Remove(WithoutNames(At(w, root), repo, ts, ds), Tagged(repo, t)) == WithoutNames(At(w, root), repo,
          ts + {t}, ds)
    {
      WithoutTag(At(w, root), repo, ts, ds, t);
    }
  }

  lemma ManiGone(w: World, mid: World, w': World, roots: set<Root>, repo: string, ts: set<string>, ds: set<Digest>,
                 d: Digest)
    requires NamesGone(w, mid, roots, repo, ts, ds) && Swept(mid, w', roots, Mani(repo, d))
    ensures NamesGone(w, w', roots, repo, ts, ds + {d})
  {
    hide WithoutNames, Remove;
    forall root
      ensures Remove(WithoutNames(At(w, root), repo, ts, ds), Mani(repo, d)) == WithoutNames(At(w, root), repo, ts,
          ds + {d})
    {
      WithoutMani(At(w, root), repo, ts, ds, d);
    }
  }

  /** Removing every listed tag and every listed digest of a repository purges it. */
  lemma ManifestIsListed(v: Vol, p: (string, Digest))
    requires p in v.manifests
    ensures p.1 in Digests(v, Manifests(p.0))
  {
  }

  lemma ListedIsAll(v: Vol, repo: string, ts: set<string>, ds: set<Digest>)
    requires forall p :: p in v.tags && p.0 == repo ==> (p.1 in ts <==> !TmpName(p.1))
    requires forall p :: p in v.manifests && p.0 == repo ==> p.1 in ds
    ensures WithoutNames(v, repo, ts, ds) == Purged(v, {repo})
  {
    hide TmpName;
    assert WithoutNames(v, repo, ts, ds).tags == Purged(v, {repo}).tags;
    assert WithoutNames(v, repo, ts, ds).manifests == Purged(v, {repo}).manifests;
  }

  lemma ListedGoneIsPurged(b: Backend, w: World, w': World, repo: string, ts: set<string>, ds: set<Digest>)
    requires Valid(b) && NamesGone(w, w', Roots(b), repo, ts, ds)
    requires ts == NamesIn(Roots(b), w, Tags(repo)) && ds == DigestsIn(Roots(b), w, Manifests(repo))
    ensures PurgedFrom(w, w', Roots(b), {repo})
  {
    hide Roots, Names, Digests, TmpName, WithoutNames, Purged;
    forall root | root in Roots(b) ensures WithoutNames(At(w, root), repo, ts, ds) == Purged(At(w, root), {repo}) {
      var v := At(w, root);
      forall p | p in v.tags && p.0 == repo ensures p.1 in ts <==> !TmpName(p.1) {
        assert p == (p.0, p.1);
        NamesMember(v, repo, p.1);
        if p.1 in ts {
          var other :| other in Roots(b) && p.1 in Names(At(w, other), Tags(repo));
          NamesMember(At(w, other), repo, p.1);
        }
      }
      forall p | p in v.manifests && p.0 == repo ensures p.1 in ds { ManifestIsListed(v, p); }
      ListedIsAll(v, repo, ts, ds);
    }
  }

  /** `purge_repo_manifests`. */
  method PurgeRepo(disks: Disks, b: Backend, repo: string, ghost w: World, ghost repos: set<string>)
    returns (r: Result<()>)
    requires Valid(b) && repo in repos && OnlyNamesLost(w, disks.vols, Roots(b), repos)
    modifies disks
    ensures r.Ok? || r.Fault?
    ensures disks.faults >= old(disks.faults) && (r.Fault? ==> disks.faults > old(disks.faults))
    ensures OnlyNamesLost(w, disks.vols, Roots(b), repos)
    ensures disks.faults == old(disks.faults) ==> PurgedFrom(old(disks.vols), disks.vols, Roots(b), {repo})
  {
    hide OnlyNamesLost, Swept, NamesGone, NamesIn, DigestsIn, Roots, PurgedFrom;
    ghost var start := disks.vols;
    var tags := disks.ListNames(b, Tags(repo));
    if !tags.Ok? { return Fault; }
    WithoutNothing(start, Roots(b), repo);
    var todo := tags.value;
    assert tags.value - todo == {};
    while todo != {}
      invariant todo <= tags.value && disks.faults >= old(disks.faults) && OnlyNamesLost(w, disks.vols, Roots(b), repos)
      invariant disks.faults == old(disks.faults) ==>
                NamesGone(start, disks.vols, Roots(b), repo, tags.value - todo, {})
    {
      var t :| t in todo;
      ghost var mid := disks.vols;
      var one, gone, _ := disks.Delete(b, Tagged(repo, t));
      LoseOne(w, mid, disks.vols, Roots(b), repos, gone, Tagged(repo, t));
      if disks.faults == old(disks.faults) {
        TagGone(start, mid, disks.vols, Roots(b), repo, tags.value - todo, {}, t);
      }
      if one.Fault? { return Fault; }
      assert tags.value - (todo - {t}) == tags.value - todo + {t};
      todo := todo - {t};
    }
    assert tags.value - todo == tags.value;
    ghost var half, sofar := disks.vols, disks.faults;
    var digests := disks.ListDigests(b, Manifests(repo));
    if !digests.Ok? { return Fault; }
    if disks.faults == old(disks.faults) { DigestsStillListed(start, half, Roots(b), repo, tags.value); }
    var left := digests.value;
    assert digests.value - left == {};
    while left != {}
      invariant left <= digests.value && disks.faults >= sofar && OnlyNamesLost(w, disks.vols, Roots(b), repos)
      invariant disks.faults == old(disks.faults) ==>
                NamesGone(start, disks.vols, Roots(b), repo, tags.value, digests.value - left)
    {
      var d :| d in left;
      ghost var mid := disks.vols;
      var one, gone, _ := disks.Delete(b, Mani(repo, d));
      LoseOne(w, mid, disks.vols, Roots(b), repos, gone, Mani(repo, d));
      if disks.faults == old(disks.faults) {
        ManiGone(start, mid, disks.vols, Roots(b), repo, tags.value, digests.value - left, d);
      }
      if one.Fault? { return Fault; }
      assert digests.value - (left - {d}) == digests.value - left + {d};
      left := left - {d};
    }
    assert digests.value - left == digests.value;
    if disks.faults == old(disks.faults) { ListedGoneIsPurged(b, start, disks.vols, repo, tags.value, digests.value); }
    r := Ok(());
  }

  lemma DigestsStillListed(w: World, w': World, roots: set<Root>, repo: string, ts: set<string>)
    requires NamesGone(w, w', roots, repo, ts, {})
    ensures DigestsIn(roots, w', Manifests(repo)) == DigestsIn(roots, w, Manifests(repo))
  {
    forall root | root in roots
      ensures Digests(At(w', root), Manifests(repo)) == Digests(At(w, root), Manifests(repo))
    {
      assert At(w', root).manifests == At(w, root).manifests;
    }
  }

  lemma PurgedNothing(w: World, roots: set<Root>)
    ensures PurgedFrom(w, w, roots, {})
  {
    forall root ensures Purged(At(w, root), {}) == At(w, root) {
      assert Purged(At(w, root), {}).tags == At(w, root).tags
             && Purged(At(w, root), {}).manifests == At(w, root).manifests;
    }
  }

  lemma PurgedBoth(v: Vol, a: set<string>, b: set<string>)
    ensures Purged(Purged(v, a), b) == Purged(v, a + b)
  {
    assert Purged(Purged(v, a), b).tags == Purged(v, a + b).tags
           && Purged(Purged(v, a), b).manifests == Purged(v, a + b).manifests;
  }

  lemma PurgedMore(w: World, mid: World, w': World, roots: set<Root>, a: set<string>, b: set<string>)
    requires PurgedFrom(w, mid, roots, a) && PurgedFrom(mid, w', roots, b)
    ensures PurgedFrom(w, w', roots, a + b)
  {
    hide Purged;
    forall root ensures Purged(Purged(At(w, root), a), b) == Purged(At(w, root), a + b) {
      PurgedBoth(At(w, root), a, b);
    }
  }

  /** The drain of `run`: `mid` is the world between purge and GC. Under any faults only names of the
      given repositories and only blobs unmarked at `mid` are lost, all on the drained volume; fault-free
      the purge is complete and the GC pass exact, and the report counts the bytes freed. */
  method Drain(disks: Disks, b: Backend, repos: set<string>) returns (r: Result<GcReport>, ghost mid: World)
    requires Valid(b)
    modifies disks
    ensures r.Ok? || r.Fault?
    ensures disks.faults >= old(disks.faults) && (r.Fault? ==> disks.faults > old(disks.faults))
    ensures OnlyNamesLost(old(disks.vols), mid, Roots(b), repos)
    ensures OnlyGarbageLost(mid, disks.vols, Marked(disks.env, Plain(b), mid))
    ensures disks.faults == old(disks.faults) ==>
              && PurgedFrom(old(disks.vols), mid, Roots(b), repos) && GcPass(disks.env, Plain(b), mid, disks.vols)
              && Used(ReadOrder(b), mid) == Used(ReadOrder(b), disks.vols) + r.value.deletedBytes
              && r.value.deletedBlobs == |DigestsIn(AllRoots(Plain(b)), mid, AllBlobs) - Marked(disks.env, Plain(b),
                  mid)|
  {
    hide OnlyNamesLost, OnlyGarbageLost, PurgedFrom, GcPass, Marked, Used, Roots;
    ghost var w := disks.vols;
    var todo := repos;
    NothingLost(w, Roots(b), repos);
    PurgedNothing(w, Roots(b));
    assert repos - todo == {};
    while todo != {}
      invariant todo <= repos && disks.faults >= old(disks.faults)
      invariant OnlyNamesLost(w, disks.vols, Roots(b), repos)
      invariant disks.faults == old(disks.faults) ==> PurgedFrom(w, disks.vols, Roots(b), repos - todo)
    {
      var repo :| repo in todo;
      mid := disks.vols;
      var one := PurgeRepo(disks, b, repo, w, repos);
      if !one.Ok? {
        mid := disks.vols;
        SweepStart(Plain(b), {}, mid, Marked(disks.env, Plain(b), mid));
        return Fault, mid;
      }
      if disks.faults == old(disks.faults) { PurgedMore(w, mid, disks.vols, Roots(b), repos - todo, {repo}); }
      assert repos - (todo - {repo}) == repos - todo + {repo};
      todo := todo - {repo};
    }
    assert repos - todo == repos;
    mid := disks.vols;
    r := Collecting.Run(disks, Plain(b));
  }

  // ---- What a drain leaves ----------------------------------------------------------------

  ghost predicate Drained(e: Env, b: Backend, repos: set<string>, w: World, mid: World, w': World)
    requires Valid(b)
  {
    PurgedFrom(w, mid, Roots(b), repos) && GcPass(e, Plain(b), mid, w')
  }

  lemma DrainedRoot(e: Env, b: Backend, repos: set<string>, w: World, mid: World, w': World, root: Root)
    requires Valid(b) && Drained(e, b, repos, w, mid, w')
    ensures At(w', root) ==
            if root in Roots(b) then KeepOnly(Purged(At(w, root), repos), Marked(e, Plain(b), mid)) else At(w, root)
  {
    hide GcPass, Marked, Purged, Roots;
    PlainGcIsExact(e, b, mid, w', root);
  }

  /** Isolation: a repository that was not migrated keeps every name, on every root. */
  lemma OthersKeepTheirNames(e: Env, b: Backend, repos: set<string>, w: World, mid: World, w': World, root: Root,
                             k: Key)
    requires Valid(b) && Drained(e, b, repos, w, mid, w') && !k.Blob? && k.repo !in repos
    ensures Lookup(At(w', root), k) == Lookup(At(w, root), k)
  {
    hide Marked, Drained, Roots;
    DrainedRoot(e, b, repos, w, mid, w', root);
  }

  /** ... and every blob its manifests on the drained volume name. */
  lemma OthersKeepTheirBlobs(e: Env, b: Backend, repos: set<string>, w: World, mid: World, w': World, root: Root,
                             repo: string, d: Digest)
    requires Valid(b) && Drained(e, b, repos, w, mid, w') && repo !in repos
    requires repo in NamesIn(Roots(b), w, Repos) && d in RepoBlobs(e, ReadOrder(b), w, repo)
    ensures d in At(w', root).blobs <==> d in At(w, root).blobs
    ensures d in At(w, root).blobs ==> At(w', root).blobs[d] == At(w, root).blobs[d]
  {
    DrainedRoot(e, b, repos, w, mid, w', root);
    StillMarked(e, b, repos, w, mid, repo, d);
  }

  lemma StillMarked(e: Env, b: Backend, repos: set<string>, w: World, mid: World, repo: string, d: Digest)
    requires Valid(b) && PurgedFrom(w, mid, Roots(b), repos) && repo !in repos
    requires repo in NamesIn(Roots(b), w, Repos) && d in RepoBlobs(e, ReadOrder(b), w, repo)
    ensures d in Marked(e, Plain(b), mid)
  {
    hide Purged, Roots, Refs, BlobsNamed, Marked, GraphOf, RepoMarks;
    PlainRoots(b);
    ReposAfterPurge(Roots(b), w, mid, repos);
    OthersGraphSame(b, repos, w, mid, repo);
    var g := GraphOf(ReadOrder(b), mid, repo);
    var x :| x in g && d in BlobsNamed(e, g[x]);
    NamedIsMarked(e, Plain(b), mid, repo, x, d);
  }

  lemma ReposAfterPurge(roots: set<Root>, w: World, mid: World, repos: set<string>)
    requires PurgedFrom(w, mid, roots, repos)
    ensures NamesIn(roots, mid, Repos) == NamesIn(roots, w, Repos)
  {
    hide Purged;
    forall root ensures Names(At(mid, root), Repos) == Names(At(w, root), Repos) {
      PurgedKeepsDirs(At(w, root), repos);
    }
  }

  lemma NamedIsMarked(e: Env, s: Store, w: World, repo: string, x: Digest, d: Digest)
    requires ValidStore(s) && repo in ReposIn(s, w)
    requires var g := GraphOf(ReadOrder(Pick(s, repo)), w, repo); x in g && d in BlobsNamed(e, g[x])
    ensures d in Marked(e, s, w)
  {
    hide GraphOf;
    var g := GraphOf(ReadOrder(Pick(s, repo)), w, repo);
    assert d in Refs(e, g[x]);
    assert d in RefsOf(e, g, g.Keys);
    assert d in RepoMarks(e, s, w, repo);
  }

  lemma PurgedKeepsDirs(v: Vol, repos: set<string>)
    ensures Purged(v, repos).dirs == v.dirs
  {
  }

  lemma OthersGraphSame(b: Backend, repos: set<string>, w: World, mid: World, repo: string)
    requires Valid(b) && PurgedFrom(w, mid, Roots(b), repos) && repo !in repos
    ensures GraphOf(ReadOrder(b), mid, repo) == GraphOf(ReadOrder(b), w, repo)
  {
    hide GraphOf, Read;
    var o := ReadOrder(b);
    forall d
      ensures d in GraphOf(o, mid, repo) <==> d in GraphOf(o, w, repo)
      ensures d in GraphOf(o, w, repo) ==> GraphOf(o, mid, repo)[d] == GraphOf(o, w, repo)[d]
    {
      forall root ensures Lookup(At(mid, root), Mani(repo, d)) == Lookup(At(w, root), Mani(repo, d)) {
        assert (repo, d) in Purged(At(w, root), repos).manifests <==> (repo, d) in At(w, root).manifests;
      }
      ReadDependsOnRoots(o, w, mid, Mani(repo, d));
      GraphReads(o, mid, repo, d);
      GraphReads(o, w, repo, d);
    }
  }

  /** The drained volume serves no manifest of a migrated repository any more, and holds exactly the blobs
      its remaining manifests mark. */
  lemma MigratedAreGone(e: Env, b: Backend, repos: set<string>, w: World, mid: World, w': World, k: Key)
    requires Valid(b) && Drained(e, b, repos, w, mid, w') && !k.Blob? && k.repo in repos
    ensures Read(ReadOrder(b), w', k).None?
  {
    hide Marked, Drained;
    ReadFinds(ReadOrder(b), w', k);
    forall root | root in ReadOrder(b) ensures Lookup(At(w', root), k).None? {
      DrainedRoot(e, b, repos, w, mid, w', root);
      assert root in Roots(b);
    }
  }

  lemma OnlyMarkedBlobsRemain(e: Env, b: Backend, repos: set<string>, w: World, mid: World, w': World, root: Root,
                              d: Digest)
    requires Valid(b) && Drained(e, b, repos, w, mid, w') && root in Roots(b)
    ensures d in At(w', root).blobs <==> d in At(w, root).blobs && d in Marked(e, Plain(b), w')
  {
    hide Marked, Roots, GcPass;
    DrainedRoot(e, b, repos, w, mid, w', root);
    PassMarksSame(e, Plain(b), mid, w');
  }

  /** What the migration moved survives the drain exactly on roots the drained volume does not include:
      a migrated name still reads through `o` if and only if some root of `o` outside the drained volume has it. */
  lemma MigratedReadsAfterDrain(e: Env, b: Backend, repos: set<string>, w: World, mid: World, w': World, o: seq<Root>,
                                k: Key)
    requires Valid(b) && Drained(e, b, repos, w, mid, w') && !k.Blob? && k.repo in repos
    ensures Read(o, w', k).Some? <==> exists root :: root in o && root !in Roots(b) && Lookup(At(w, root), k).Some?
    ensures Elements(o) !! Roots(b) ==> Read(o, w', k) == Read(o, w, k)
  {
    hide Marked, Drained, Roots;
    ReadFinds(o, w', k);
    forall root ensures Lookup(At(w', root), k) == if root in Roots(b) then None else Lookup(At(w, root), k) {
      DrainedRoot(e, b, repos, w, mid, w', root);
    }
    if Elements(o) !! Roots(b) {
      forall root | root in o ensures root !in Roots(b) { assert root in Elements(o); }
      ReadDependsOnRoots(o, w, w', k);
    }
  }

  // ---- Blobs of everybody else, whatever backend they are read through --------------------

  /** What the drain's own collection marks: the marks of the listed repositories that were not migrated. */
  function MarksLeft(e: Env, b: Backend, repos: set<string>, w: World): set<Digest>
    requires Valid(b)
  {
    MarkedAmong(e, Plain(b), w, ReposIn(Plain(b), w) - repos)
  }

  lemma MarkedAfterPurge(e: Env, b: Backend, repos: set<string>, w: World, mid: World)
    requires Valid(b) && PurgedFrom(w, mid, Roots(b), repos)
    ensures Marked(e, Plain(b), mid) == MarksLeft(e, b, repos, w)
  {
    hide Purged, Roots, RepoMarks, GraphOf;
    PlainRoots(b);
    ReposAfterPurge(Roots(b), w, mid, repos);
    forall repo
      ensures RepoMarks(e, Plain(b), mid, repo) == if repo in repos then {} else RepoMarks(e, Plain(b), w, repo)
    {
      if repo in repos {
        PurgedMarksNothing(e, b, repos, w, mid, repo);
      } else {
        OthersMarkTheSame(e, b, repos, w, mid, repo);
      }
    }
  }

  lemma OthersMarkTheSame(e: Env, b: Backend, repos: set<string>, w: World, mid: World, repo: string)
    requires Valid(b) && PurgedFrom(w, mid, Roots(b), repos) && repo !in repos
    ensures RepoMarks(e, Plain(b), mid, repo) == RepoMarks(e, Plain(b), w, repo)
  {
    hide Purged, Roots, GraphOf;
    OthersGraphSame(b, repos, w, mid, repo);
  }

  lemma PurgedMarksNothing(e: Env, b: Backend, repos: set<string>, w: World, mid: World, repo: string)
    requires Valid(b) && PurgedFrom(w, mid, Roots(b), repos) && repo in repos
    ensures RepoMarks(e, Plain(b), mid, repo) == {}
  {
    hide Roots, GraphOf;
    var o := ReadOrder(b);
    forall d ensures d !in GraphOf(o, mid, repo) {
      GraphReads(o, mid, repo, d);
      ReadFinds(o, mid, Mani(repo, d));
      forall root | root in o ensures Lookup(At(mid, root), Mani(repo, d)).None? {
        assert root in Roots(b) by { OrderIsRoots(b, root); }
        assert (repo, d) !in Purged(At(w, root), repos).manifests;
      }
    }
    assert GraphOf(o, mid, repo) == map[];
  }

  lemma OrderIsRoots(b: Backend, root: Root)
    requires Valid(b)
    ensures root in ReadOrder(b) <==> root in Roots(b)
  {
  }

  /** The copy of a blob on one root survives the drain. */
  predicate BlobSurvives(e: Env, b: Backend, repos: set<string>, w: World, root: Root, d: Digest)
    requires Valid(b)
  {
    d in At(w, root).blobs && (root !in Roots(b) || d in MarksLeft(e, b, repos, w))
  }

  /** Exactly when a blob reads through a backend as before the drain, for every backend and every blob: it
      was not readable, or some copy of it lies off the drained volume or is still marked there. */
  lemma BlobReadsTheSameIff(e: Env, truth: Digest -> Bytes, b: Backend, repos: set<string>, w: World, mid: World,
                            w': World, o: seq<Root>, d: Digest)
    requires Valid(b) && Genuine(e, truth, w) && Drained(e, b, repos, w, mid, w')
    ensures Read(o, w', Blob(d)) == Read(o, w, Blob(d)) <==>
              Read(o, w, Blob(d)).None? || exists root :: root in o && BlobSurvives(e, b, repos, w, root, d)
  {
    hide Genuine, Drained, MarksLeft, Roots, Read;
    forall root
      ensures Lookup(At(w', root), Blob(d)) ==
              if BlobSurvives(e, b, repos, w, root, d) then Lookup(At(w, root), Blob(d)) else None
    {
      BlobFate(e, b, repos, w, mid, w', root, d);
    }
    ReadFinds(o, w, Blob(d));
    ReadFinds(o, w', Blob(d));
    GenuineRead(e, truth, o, w, Blob(d));
    if Read(o, w', Blob(d)).Some? {
      var root :| root in o && Lookup(At(w', root), Blob(d)) == Read(o, w', Blob(d));
      GenuineAt(e, truth, w, root);
      assert At(w, root).blobs[d] == truth(d);
    }
  }

  lemma BlobFate(e: Env, b: Backend, repos: set<string>, w: World, mid: World, w': World, root: Root, d: Digest)
    requires Valid(b) && Drained(e, b, repos, w, mid, w')
    ensures Lookup(At(w', root), Blob(d)) ==
            if BlobSurvives(e, b, repos, w, root, d) then Lookup(At(w, root), Blob(d)) else None
  {
    hide Roots, MarksLeft, Marked, GcPass;
    MarkedAfterPurge(e, b, repos, w, mid);
    DrainedRoot(e, b, repos, w, mid, w', root);
  }

  /** What a listable repository that stays names on the drained volume is marked there, through whatever
      backend the repository itself is read. */
  lemma NamedIsLeftMarked(e: Env, truth: Digest -> Bytes, b: Backend, repos: set<string>, w: World, o: seq<Root>,
                          repo: string, d: Digest)
    requires Valid(b) && Genuine(e, truth, w) && repo !in repos && Listable(repo)
    requires (forall root :: root in o ==> root in Roots(b)) && d in RepoBlobs(e, o, w, repo)
    ensures d in MarksLeft(e, b, repos, w)
  {
    hide Genuine, Roots, GraphOf, BlobsNamed, Read, Refs, Listable;
    var g := GraphOf(o, w, repo);
    var x :| x in g && d in BlobsNamed(e, g[x]);
    var k := Mani(repo, x);
    GraphReads(o, w, repo, x);
    ReadFinds(o, w, k);
    var root :| root in o && Lookup(At(w, root), k).Some?;
    OrderIsRoots(b, root);
    ReadFinds(ReadOrder(b), w, k);
    GraphReads(ReadOrder(b), w, repo, x);
    GenuineRead(e, truth, o, w, k);
    GenuineRead(e, truth, ReadOrder(b), w, k);
    StoredIsListed(e, truth, w, root, repo, x);
    PlainRoots(b);
    assert repo in NamesIn(Roots(b), w, Repos);
    assert d in Refs(e, g[x]) by { NamedIsRef(e, g[x], d); }
    var h := GraphOf(ReadOrder(b), w, repo);
    assert d in RefsOf(e, h, h.Keys);
    assert d in RepoMarks(e, Plain(b), w, repo);
  }

  lemma StoredIsListed(e: Env, truth: Digest -> Bytes, w: World, root: Root, repo: string, x: Digest)
    requires Genuine(e, truth, w) && Listable(repo) && Lookup(At(w, root), Mani(repo, x)).Some?
    ensures repo in Names(At(w, root), Repos)
  {
    hide Listable;
    GenuineAt(e, truth, w, root);
    assert (repo, x).0 in At(w, root).dirs;
  }

  lemma NamedIsRef(e: Env, bytes: Bytes, d: Digest)
    requires d in BlobsNamed(e, bytes)
    ensures d in Refs(e, bytes)
  {
  }

  /** A manifest on this root marks the digest: it is in a listable repository that stays, and is that digest
      or references it. */
  ghost predicate MarkedHere(e: Env, v: Vol, repos: set<string>, d: Digest) {
    exists p :: p in v.manifests && p.0 !in repos && Listable(p.0) && (d == p.1 || d in Refs(e, v.manifests[p]))
  }

  /** What the drain's collection marks, told from what lies on the drained volume before it. */
  lemma LeftMarkedIff(e: Env, truth: Digest -> Bytes, b: Backend, repos: set<string>, w: World, d: Digest)
    requires Valid(b) && Genuine(e, truth, w)
    ensures d in MarksLeft(e, b, repos, w) <==> exists root :: root in Roots(b) && MarkedHere(e, At(w, root), repos, d)
  {
    hide Genuine, Roots, MarksLeft, Refs, Listable;
    if d in MarksLeft(e, b, repos, w) {
      var root := MarkIsStored(e, b, repos, w, d);
    }
    if root :| root in Roots(b) && MarkedHere(e, At(w, root), repos, d) {
      StoredIsMark(e, truth, b, repos, w, root, d);
    }
  }

  lemma MarkIsStored(e: Env, b: Backend, repos: set<string>, w: World, d: Digest) returns (root: Root)
    requires Valid(b) && d in MarksLeft(e, b, repos, w)
    ensures root in Roots(b) && MarkedHere(e, At(w, root), repos, d)
  {
    hide Roots, Refs, Listable, GraphOf, Read;
    PlainRoots(b);
    var repo :| repo in ReposIn(Plain(b), w) - repos && d in RepoMarks(e, Plain(b), w, repo);
    var g := GraphOf(ReadOrder(b), w, repo);
    var x :| x in g && (d == x || d in Refs(e, g[x]));
    var k := Mani(repo, x);
    GraphReads(ReadOrder(b), w, repo, x);
    ReadFinds(ReadOrder(b), w, k);
    root :| root in ReadOrder(b) && Lookup(At(w, root), k) == Read(ReadOrder(b), w, k);
    OrderIsRoots(b, root);
    var other :| other in Roots(b) && repo in Names(At(w, other), Repos);
    assert (repo, x) in At(w, root).manifests && (repo, x).0 == repo && (repo, x).1 == x;
  }

  lemma StoredIsMark(e: Env, truth: Digest -> Bytes, b: Backend, repos: set<string>, w: World, root: Root, d: Digest)
    requires Valid(b) && Genuine(e, truth, w) && root in Roots(b) && MarkedHere(e, At(w, root), repos, d)
    ensures d in MarksLeft(e, b, repos, w)
  {
    hide Genuine, Roots, Refs, Listable, GraphOf, Read, Names;
    var v := At(w, root);
    var p :| p in v.manifests && p.0 !in repos && Listable(p.0) && (d == p.1 || d in Refs(e, v.manifests[p]));
    var k := Mani(p.0, p.1);
    assert p == (p.0, p.1) && Lookup(v, k) == Some(v.manifests[p]);
    OrderIsRoots(b, root);
    GenuineAt(e, truth, w, root);
    ReadFinds(ReadOrder(b), w, k);
    GraphReads(ReadOrder(b), w, p.0, p.1);
    GenuineRead(e, truth, ReadOrder(b), w, k);
    StoredIsListed(e, truth, w, root, p.0, p.1);
    PlainRoots(b);
    assert p.0 in NamesIn(Roots(b), w, Repos);
    var g := GraphOf(ReadOrder(b), w, p.0);
    assert p.1 in g.Keys && g[p.1] == v.manifests[p];
    assert d in RepoMarks(e, Plain(b), w, p.0);
  }

  /** Exactly when a drain takes a blob away from a backend, told from what was stored before it: all its
      copies there lie on the drained volume, and nothing on that volume marks it. This is the fate of a
      blob whose manifests lie off the drained volume, or in repositories no listing shows. */
  lemma BlobIsGoneIff(e: Env, truth: Digest -> Bytes, b: Backend, repos: set<string>, w: World, mid: World, w': World,
                      o: seq<Root>, d: Digest)
    requires Valid(b) && Genuine(e, truth, w) && Drained(e, b, repos, w, mid, w')
    ensures Read(o, w', Blob(d)).None? <==>
              forall root :: root in o && d in At(w, root).blobs ==>
                root in Roots(b) && !exists other :: other in Roots(b) && MarkedHere(e, At(w, other), repos, d)
  {
    hide Genuine, Drained, MarksLeft, Roots, Read, MarkedHere;
    forall root
      ensures Lookup(At(w', root), Blob(d)) ==
              if BlobSurvives(e, b, repos, w, root, d) then Lookup(At(w, root), Blob(d)) else None
    {
      BlobFate(e, b, repos, w, mid, w', root, d);
    }
    LeftMarkedIff(e, truth, b, repos, w, d);
    ReadFinds(o, w', Blob(d));
  }

  /** Then a manifest that stays names a blob that is gone. */
  lemma ManifestOutlivesItsBlob(e: Env, truth: Digest -> Bytes, b: Backend, repos: set<string>, w: World, mid: World,
                                w': World, o: seq<Root>, repo: string, x: Digest, d: Digest)
    requires Valid(b) && Genuine(e, truth, w) && Drained(e, b, repos, w, mid, w') && repo !in repos
    requires forall root :: root in o && d in At(w, root).blobs ==> root in Roots(b)
    requires forall root :: root in Roots(b) ==> !MarkedHere(e, At(w, root), repos, d)
    ensures Read(o, w', Mani(repo, x)) == Read(o, w, Mani(repo, x)) && Read(o, w', Blob(d)).None?
  {
    hide Genuine, Drained, Roots, Read, MarkedHere;
    BlobIsGoneIff(e, truth, b, repos, w, mid, w', o, d);
    forall root ensures Lookup(At(w', root), Mani(repo, x)) == Lookup(At(w, root), Mani(repo, x)) {
      OthersKeepTheirNames(e, b, repos, w, mid, w', root, Mani(repo, x));
    }
    ReadDependsOnRoots(o, w, w', Mani(repo, x));
  }

  /** Every drain can run to its end. */
  lemma DrainExists(e: Env, b: Backend, repos: set<string>, w: World) returns (mid: World, w': World)
    requires Valid(b)
    ensures Drained(e, b, repos, w, mid, w')
  {
    hide Roots, Marked, GcPass, Purged;
    mid := map root | root in w :: if root in Roots(b) then Purged(w[root], repos) else w[root];
    PurgedEmpty(repos);
    w' := PassExists(e, b, mid);
  }

  lemma PurgedEmpty(repos: set<string>)
    ensures Purged(EMPTY, repos) == EMPTY
  {
  }

  lemma PassExists(e: Env, b: Backend, w: World) returns (w': World)
    requires Valid(b)
    ensures GcPass(e, Plain(b), w, w')
  {
    hide Roots, Marked, NamesIn, KeepOnly, OnlyGarbageLost, SweptDigests;
    var marked := Marked(e, Plain(b), w);
    w' := map root | root in w :: if root in Roots(b) then KeepOnly(w[root], marked) else w[root];
    assert KeepOnly(EMPTY, marked) == EMPTY by { KeepNothing(marked); }
    forall root ensures At(w', root) == if root in Roots(b) then KeepOnly(At(w, root), marked) else At(w, root) { }
    KeptIsSwept(b, w, w', marked);
  }

  lemma KeepNothing(marked: set<Digest>)
    ensures KeepOnly(EMPTY, marked) == EMPTY
  {
  }

  lemma KeptIsSwept(b: Backend, w: World, w': World, marked: set<Digest>)
    requires Valid(b)
    requires forall root :: At(w', root) == if root in Roots(b) then KeepOnly(At(w, root), marked) else At(w, root)
    ensures OnlyGarbageLost(w, w', marked)
    ensures SweptDigests(Plain(b), ReposIn(Plain(b), w), marked, w, w', DigestsIn(AllRoots(Plain(b)), w, AllBlobs))
  {
    hide Roots, NamesIn;
    PlainRoots(b);
    forall d, root ensures d in At(w', root).blobs <==> d in At(w, root).blobs && (root in Roots(b) ==> d in marked) { }
    hide KeepOnly;
    forall d ensures d in marked || d !in DigestsIn(Roots(b), w, AllBlobs) ==> Untouched(w, w', d) {
      forall root | root in Roots(b) && d in At(w, root).blobs ensures d in DigestsIn(Roots(b), w, AllBlobs) {
        assert d in Digests(At(w, root), AllBlobs);
      }
    }
    forall d | d !in marked ensures Owner(Plain(b), ReposIn(Plain(b), w), w, d, b) && LostFrom(w, w', d, b) { }
  }
}
