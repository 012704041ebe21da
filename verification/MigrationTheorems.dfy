/** Consequences for readers: what the overlay serves, what a completed migration serves, which blobs
    survive, and what a drain through the overlay does. */
module MigrationTheorems {
  import opened Content
  import opened Volumes
  import opened Backends
  import opened Routing
  import opened Walks
  import opened Copying
  import opened Merging
  import opened Migrating
  import opened Backfilling
  import opened Collecting
  import opened Draining
  import opened Protocol
  import opened ZeroMiss

  /** While the overlay is up, in particular after a failed backfill, class reads are the new-first merge
      of both volumes, whatever has been copied so far. */
  lemma OverlayServesMerge(c: Plan, s: State, repo: string, k: Key)
    requires PlanOk(c) && InClass(c, repo) && (s.phase.Filling? || s.phase.Stopped?)
    ensures Serve(c, s, repo, k) ==
            if Read(NewRoots(c), s.w, k).Some? then Read(NewRoots(c), s.w, k) else Read(OldRoots(c), s.w, k)
  {
    RouteDuring(c, s.phase, repo);
    OverlayOrder(c);
    ReadConcat(NewRoots(c), OldRoots(c), s.w, k);
  }

  /** The sequential backfill does what the machine's collapse waits for: everything wanted that the old
      volume could read, the new volume reads. */
  lemma BackfillMeetsCollapse(c: Plan, repos: set<string>, w: World, w': World,
                              b: map<Digest, Bytes>, m: map<Pair, Bytes>, g: TagMap, k: Key)
    requires PlanOk(c) && Genuine(c.e, c.truth, w)
    requires ClassCopied(c.e, c.truth, OldRoots(c), NewRoots(c), w, w', Target(c.dest), repos, b, m, g, true)
    requires Wanted(c, repos, w, k) && Read(OldRoots(c), w, k).Some?
    ensures Read(NewRoots(c), w', k).Some?
    ensures !k.Tagged? ==>
              Read(NewRoots(c), w', k) ==
                if Read(NewRoots(c), w, k).Some? then Read(NewRoots(c), w, k) else Read(OldRoots(c), w, k)
    ensures k.Tagged? ==> Read(NewRoots(c), w', k) == Read(OldRoots(c), w, k)
  {
    hide Genuine, PartCopy, FullCopy, Read, GraphOf, RepoBlobs, ListedTags, Hash, ReadOrder;
    var os, od := OldRoots(c), NewRoots(c);
    var blobs, manis, tags := ClassBlobs(c.e, os, w, repos), ClassManis(os, w, repos), ClassTags(c.e, os, w, repos);
    if k.Tagged? {
      assert (k.repo, k.tag) in ClassTagNames(os, w, repos);
      GenuineTagRead(c.e, c.truth, os, w, k.repo, k.tag);
    }
    if k.Mani? { assert (k.repo, k.digest) in manis; }
    if k.Blob? { assert k.digest in blobs; }
    CopyMerges(c.e, c.truth, os, od, w, w', Target(c.dest), blobs, manis, tags, b, m, g, k);
  }

  /** End to end: after a completed migration, with or without its drain, everything the old volume could
      read of a migrated repository, blobs its manifests name included, reads through the router as it
      did before, provided the two volumes share no root. */
  lemma MigratedRepositoryReadsTheSame(c: Plan, repos: set<string>, w: World, w1: World, mid: World, w': World,
                                       b: map<Digest, Bytes>, m: map<Pair, Bytes>, g: TagMap, repo: string, k: Key)
    requires PlanOk(c) && Genuine(c.e, c.truth, w) && Roots(Old(c)) !! Roots(c.dest)
    requires ClassCopied(c.e, c.truth, OldRoots(c), NewRoots(c), w, w1, Target(c.dest), repos, b, m, g, true)
    requires w' == w1 || Drained(c.e, Old(c), repos, w1, mid, w')
    requires InClass(c, repo) && Wanted(c, repos, w, k) && Read(OldRoots(c), w, k).Some?
    ensures Serve(c, State(w', Collapsed(repos, w)), repo, k) == Read(OldRoots(c), w, k)
  {
    hide Genuine, ClassCopied, Drained, Wanted, InClass, Read, Roots, ReadOrder;
    RouteDuring(c, Collapsed(repos, w), repo);
    BackfillMeetsCollapse(c, repos, w, w1, b, m, g, k);
    if !k.Tagged? {
      GenuineRead(c.e, c.truth, NewRoots(c), w, k);
      GenuineRead(c.e, c.truth, OldRoots(c), w, k);
    }
    if w' != w1 { DrainMissesOtherVolumes(c, repos, w1, mid, w', k); }
  }

  lemma DrainMissesOtherVolumes(c: Plan, repos: set<string>, w1: World, mid: World, w': World, k: Key)
    requires PlanOk(c) && Roots(Old(c)) !! Roots(c.dest) && Drained(c.e, Old(c), repos, w1, mid, w')
    ensures Read(NewRoots(c), w', k) == Read(NewRoots(c), w1, k)
  {
    hide Drained, Marked;
    forall root | root in NewRoots(c) ensures At(w', root) == At(w1, root) {
      DrainedRoot(c.e, Old(c), repos, w1, mid, w', root);
      assert root in Roots(c.dest);
    }
    ReadDependsOnRoots(NewRoots(c), w1, w', k);
  }

  /** End to end for everybody else: a repository outside the class keeps its route, and every tag and
      manifest of it reads as before the migration, whatever its backend shares with the two volumes. */
  lemma OtherRepositoriesReadTheSame(c: Plan, repos: set<string>, w: World, w1: World, mid: World, w': World,
                                     b: map<Digest, Bytes>, m: map<Pair, Bytes>, g: TagMap, k: Key)
    requires PlanOk(c) && !k.Blob? && k.repo !in repos && !InClass(c, k.repo) && !Stray(c, k.repo)
    requires ClassCopied(c.e, c.truth, OldRoots(c), NewRoots(c), w, w1, Target(c.dest), repos, b, m, g, false)
    requires w' == w1 || Drained(c.e, Old(c), repos, w1, mid, w')
    ensures Route(Upserted(c.rules, c.pattern, c.dest), k.repo) == Route(c.rules, k.repo)
    ensures forall o: seq<Root> :: Read(o, w', k) == Read(o, w, k)
  {
    hide ClassCopied, Drained, InClass, Stray, Read, Genuine, Grown;
    RouteDuring(c, Collapsed(repos, w), k.repo);
    OnlyClassRepos(c.e, c.truth, OldRoots(c), NewRoots(c), w, w1, Target(c.dest), repos, b, m, g);
    forall root ensures Lookup(At(w', root), k) == Lookup(At(w, root), k) {
      GrowthElsewhere(At(w, Target(c.dest)), b, m, g, k);
      if w' != w1 { OthersKeepTheirNames(c.e, Old(c), repos, w1, mid, w', root, k); }
    }
    forall o: seq<Root> ensures Read(o, w', k) == Read(o, w, k) { ReadDependsOnRoots(o, w, w', k); }
  }

  lemma GrowthElsewhere(v: Vol, b: map<Digest, Bytes>, m: map<Pair, Bytes>, g: TagMap, k: Key)
    requires !k.Blob? && (forall p :: p in m ==> p.0 != k.repo) && (forall p :: p in g ==> p.0 != k.repo)
    ensures Lookup(Grown(v, b, m, g), k) == Lookup(v, k)
  {
  }

  /** ... and so does every blob its manifests name: when its backend shares no root with the drained volume,
      and when all its roots are roots of that volume, under whatever identity, and its name is listable. */
  lemma OtherBlobsReadTheSame(c: Plan, repos: set<string>, w1: World, mid: World, w': World, from: Backend,
                              repo: string, d: Digest)
    requires PlanOk(c) && Genuine(c.e, c.truth, w1) && repo !in repos && Drained(c.e, Old(c), repos, w1, mid, w')
    requires Valid(from) && d in RepoBlobs(c.e, ReadOrder(from), w1, repo)
    requires Roots(from) !! Roots(Old(c)) || (Roots(from) <= Roots(Old(c)) && Listable(repo))
    ensures Read(ReadOrder(from), w', Blob(d)) == Read(ReadOrder(from), w1, Blob(d))
  {
    hide Drained, RepoBlobs, Genuine, Roots, MarksLeft, Listable;
    var o := ReadOrder(from);
    BlobReadsTheSameIff(c.e, c.truth, Old(c), repos, w1, mid, w', o, d);
    forall root | root in o ensures root in Roots(from) { OrderIsRoots(from, root); }
    if Roots(from) <= Roots(Old(c)) && Listable(repo) {
      NamedIsLeftMarked(c.e, c.truth, Old(c), repos, w1, o, repo, d);
    }
    ReadFinds(o, w1, Blob(d));
    if Read(o, w1, Blob(d)).Some? {
      var root :| root in o && Lookup(At(w1, root), Blob(d)).Some?;
      assert BlobSurvives(c.e, Old(c), repos, w1, root, d);
    }
  }

  // ---- Drains that erase ------------------------------------------------------------------

  /** A drain through a backend that contains the destination erases what was just moved: this is what
      `drain` does when a stopped migration is run again (its source is then the overlay), and when the
      destination was opened on a root of the old volume. */
  lemma DrainThroughDestinationErases(e: Env, from: Backend, dest: Root, repos: set<string>, w: World, mid: World,
                                      w': World, k: Key)
    requires Valid(from) && Drained(e, from, repos, w, mid, w') && !k.Blob? && k.repo in repos
    ensures dest in Roots(from) ==> Read([dest], w', k).None?
    ensures dest !in Roots(from) ==> Read([dest], w', k) == Read([dest], w, k)
  {
    hide Drained;
    MigratedReadsAfterDrain(e, from, repos, w, mid, w', [dest], k);
  }

  /** The overlay left by a stopped migration contains its destination. */
  lemma OverlayContainsDestination(c: Plan)
    requires PlanOk(c)
    ensures Roots(OverlayOf(c)) == Roots(c.dest) + Roots(Old(c))
  {
    OverlayOrder(c);
  }
}
