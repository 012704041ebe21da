/** What is read after a migration that was stopped and run again, whatever the shape of its destination. */
module ResumedReads {
  import opened Backends
  import opened Backfilling
  import opened Content
  import opened Copying
  import opened Merging
  import opened Migrating
  import opened MigrationTheorems
  import opened Protocol
  import opened Restarting
  import opened Resuming
  import opened Volumes
  import opened Walks
  import opened ZeroMiss
  import Glob

  /** A migration and its restarts, onto a backend of any shape. */
  ghost predicate Sequel(ps: seq<Plan>) {
    && ps != [] && (forall i :: 0 <= i < |ps| ==> PlanOk(ps[i]))
    && forall i {:trigger ps[i + 1]} :: 0 <= i < |ps| - 1 ==> Follows(ps[i], ps[i + 1])
  }

  /** Stopped anywhere, each time but the last. */
  ghost predicate StoppedRuns(ps: seq<Plan>, ws: seq<World>) {
    && Sequel(ps) && |ws| == |ps|
    && forall i {:trigger ws[i + 1]} :: 0 <= i < |ws| - 1 ==> Ran(ps[i], ws[i], ws[i + 1], false)
  }

  /** Every pointer the destination holds for a tag names this manifest. */
  ghost predicate PointsOnly(c: Plan, w: World, k: Key, d: Digest)
    requires PlanOk(c) && k.Tagged?
  {
    forall root :: root in NewRoots(c) && (k.repo, k.tag) in At(w, root).tags ==> At(w, root).tags[(k.repo, k.tag)] == d
  }

  /** The digest a key that reads `v` has. */
  function DigestOf(c: Plan, k: Key, v: Bytes): Digest { if k.Tagged? then Hash(c.e, Sha256, v) else k.digest }

  /** A key of one class repository, old content, in view of the next attempt. */
  ghost predicate InView(c: Plan, w: World, repo: string, k: Key, v: Bytes)
    requires PlanOk(c)
  {
    && Genuine(c.e, c.truth, w) && InClass(c, repo) && Listable(repo)
    && Wanted(c, {repo}, w, k) && Read(OldRoots(c), w, k) == Some(v) && v == c.truth(DigestOf(c, k, v))
    && (k.Tagged? ==> PointsOnly(c, w, k, DigestOf(c, k, v)))
  }

  lemma WantedRepo(c: Plan, w: World, repo: string, k: Key) returns (root: Root)
    requires PlanOk(c) && Genuine(c.e, c.truth, w) && Wanted(c, {repo}, w, k) && Read(OldRoots(c), w, k).Some?
    ensures root in OldRoots(c) && repo in At(w, root).dirs
  {
    hide Genuine, BlobsNamed, GraphOf;
    var m := k;
    if k.Blob? {
      var x :| x in GraphOf(OldRoots(c), w, repo);
      m := Mani(repo, x);
      GraphReads(OldRoots(c), w, repo, x);
    }
    ReadFinds(OldRoots(c), w, m);
    root :| root in OldRoots(c) && Lookup(At(w, root), m).Some?;
    GenuineAt(c.e, c.truth, w, root);
    NameHasDir(c, At(w, root), m);
  }

  lemma NameHasDir(c: Plan, v: Vol, k: Key)
    requires GenuineVol(c.e, c.truth, v) && !k.Blob? && Lookup(v, k).Some?
    ensures k.repo in v.dirs
  {
    if k.Mani? { assert (k.repo, k.digest).0 in v.dirs; } else { assert (k.repo, k.tag).0 in v.dirs; }
  }

  lemma InViewIsSelected(c: Plan, w: World, repo: string, k: Key, v: Bytes)
    requires PlanOk(c) && InView(c, w, repo, k, v)
    ensures repo in ToMigrate(c, w) && Wanted(c, ToMigrate(c, w), w, k)
  {
    hide Genuine, InClass, Listable, Read, GraphOf, RepoBlobs, ListedTags, Glob.Matches;
    var root := WantedRepo(c, w, repo, k);
    RouteDuring(c, Ready, repo);
    assert root in Roots(Old(c)) by { RootOfOrder(Old(c), root); }
    assert repo in Names(At(w, root), Repos);
  }

  lemma RootOfOrder(b: Backend, root: Root)
    requires Valid(b) && root in ReadOrder(b)
    ensures root in Roots(b)
  {
  }

  /** A copy that writes only this value for a tag changes no read of the tag that had it. */
  lemma {:induction false} TagReadStays(e: Env, truth: Digest -> Bytes, o: seq<Root>, w: World, w': World, t: Root,
                                        k: Key, d: Digest)
    requires Genuine(e, truth, w') && k.Tagged? && forall root :: root != t ==> At(w', root) == At(w, root)
    requires Lookup(At(w, t), k).Some? ==> Lookup(At(w', t), k).Some?
    requires (k.repo, k.tag) in At(w', t).tags ==> At(w', t).tags[(k.repo, k.tag)] == d
    requires Read(o, w, k) == Some(truth(d))
    ensures Read(o, w', k) == Some(truth(d))
  {
    hide Genuine;
    if o[0] == t {
      if Lookup(At(w', t), k).Some? {
        PointerReads(e, truth, w', t, k, d);
      } else {
        TagReadStays(e, truth, o[1..], w, w', t, k, d);
      }
    } else if Lookup(At(w, o[0]), k).None? {
      TagReadStays(e, truth, o[1..], w, w', t, k, d);
    }
  }

  lemma PointerReads(e: Env, truth: Digest -> Bytes, w: World, t: Root, k: Key, d: Digest)
    requires Genuine(e, truth, w) && k.Tagged? && Lookup(At(w, t), k).Some?
    requires (k.repo, k.tag) in At(w, t).tags ==> At(w, t).tags[(k.repo, k.tag)] == d
    ensures Lookup(At(w, t), k) == Some(truth(d))
  {
    GenuineAt(e, truth, w, t);
    assert (k.repo, d).1 == d;
  }

  /** Through a stop: the old source still reads the value, and the destination points nowhere else. */
  lemma StopKeepsView(c: Plan, w: World, w': World, repo: string, k: Key, v: Bytes)
    requires PlanOk(c) && InView(c, w, repo, k, v) && Ran(c, w, w', false)
    ensures InView(c, w', repo, k, v)
  {
    hide Genuine, InClass, Listable, Wanted, Read, PartCopy, FullCopy, ToMigrate, PointsOnly;
    var b, m, g :| ClassCopied(c.e, c.truth, OldRoots(c), NewRoots(c), w, w', Target(c.dest), ToMigrate(c, w), b, m,
                               g, false);
    StopGrows(c, w, w', b, m, g);
    GrowsPreserves(c.e, c.truth, OldRoots(c), w, w');
    WantedGrows(c, {repo}, w, w', k);
    if k.Tagged? { StopKeepsTag(c, w, w', repo, k, v, b, m, g); }
  }

  lemma StopGrows(c: Plan, w: World, w': World, b: map<Digest, Bytes>, m: map<Pair, Bytes>, g: TagMap)
    requires PlanOk(c) && Genuine(c.e, c.truth, w)
    requires ClassCopied(c.e, c.truth, OldRoots(c), NewRoots(c), w, w', Target(c.dest), ToMigrate(c, w), b, m, g, false)
    ensures Grows(w, w') && Genuine(c.e, c.truth, w')
  {
    hide PartCopy, FullCopy, ToMigrate, ClassBlobs, ClassManis, ClassTags, Grows;
    var repos := ToMigrate(c, w);
    var s, n, tags := ClassBlobs(c.e, OldRoots(c), w, repos), ClassManis(OldRoots(c), w, repos),
        ClassTags(c.e, OldRoots(c), w, repos);
    PartCopyGrows(c.e, c.truth, OldRoots(c), NewRoots(c), w, w', Target(c.dest), s, n, tags, b, m, g);
    PartHasTrueBlobs(c.e, c.truth, OldRoots(c), NewRoots(c), w, w', Target(c.dest), s, n, tags, b, m, g);
  }

  lemma StopKeepsTag(c: Plan, w: World, w': World, repo: string, k: Key, v: Bytes, b: map<Digest, Bytes>,
                     m: map<Pair, Bytes>, g: TagMap)
    requires PlanOk(c) && InView(c, w, repo, k, v) && k.Tagged? && Genuine(c.e, c.truth, w') && Grows(w, w')
    requires ClassCopied(c.e, c.truth, OldRoots(c), NewRoots(c), w, w', Target(c.dest), ToMigrate(c, w), b, m, g, false)
    ensures PointsOnly(c, w', k, DigestOf(c, k, v)) && Read(OldRoots(c), w', k) == Some(v)
  {
    hide Genuine, InClass, Listable, Read, ToMigrate, Wanted, BlobsToCopy, ManisOf, Tagging, ListedTags;
    var t, d := Target(c.dest), DigestOf(c, k, v);
    ClassTagValue(c.e, OldRoots(c), w, ToMigrate(c, w), k.repo, k.tag);
    assert At(w', t) == Grown(At(w, t), b, m, g) && forall root :: root != t ==> At(w', root) == At(w, root);
    assert (k.repo, k.tag) in g ==> g[(k.repo, k.tag)] == d;
    assert t in NewRoots(c);
    TagReadStays(c.e, c.truth, OldRoots(c), w, w', t, k, d);
  }

  /** For the next attempt the same is in view, now through the overlay. */
  lemma FollowerKeepsView(c: Plan, c': Plan, w: World, repo: string, k: Key, v: Bytes)
    requires PlanOk(c) && PlanOk(c') && Follows(c, c') && InView(c, w, repo, k, v)
    ensures InView(c', w, repo, k, v)
  {
    hide Genuine, InClass, Listable, Wanted, Read;
    FollowerFacts(c, c', repo);
    OverlayOrder(c);
    ReadConcat(NewRoots(c), OldRoots(c), w, k);
    WiderWants(c, c', w, repo, k);
    if k.Tagged? { NewTagRead(c, w, k, DigestOf(c, k, v)); }
    else {
      GenuineRead(c.e, c.truth, NewRoots(c), w, k);
      GenuineRead(c.e, c.truth, OldRoots(c), w, k);
    }
  }

  lemma NewTagRead(c: Plan, w: World, k: Key, d: Digest)
    requires PlanOk(c) && Genuine(c.e, c.truth, w) && k.Tagged? && PointsOnly(c, w, k, d)
    ensures Read(NewRoots(c), w, k).Some? ==> Read(NewRoots(c), w, k) == Some(c.truth(d))
  {
    hide Genuine;
    ReadFinds(NewRoots(c), w, k);
    if Read(NewRoots(c), w, k).Some? {
      var root :| root in NewRoots(c) && Lookup(At(w, root), k) == Read(NewRoots(c), w, k);
      PointerReads(c.e, c.truth, w, root, k, d);
    }
  }

  lemma WiderWants(c: Plan, c': Plan, w: World, repo: string, k: Key)
    requires PlanOk(c) && PlanOk(c') && Follows(c, c') && Genuine(c.e, c.truth, w) && Wanted(c, {repo}, w, k)
    ensures Wanted(c', {repo}, w, k)
  {
    hide Genuine, Read, BlobsNamed, Names, Follows, GraphOf;
    FollowerFacts(c, c', repo);
    FollowedEnv(c, c');
    OverlayOrder(c);
    var o, o' := OldRoots(c), OldRoots(c');
    assert o' == NewRoots(c) + o;
    match k
    case Tagged(r, t) =>
      var root :| root in Elements(o) && t in Names(At(w, root), Tags(r));
      assert root in Elements(o');
    case Mani(r, d) => WiderGraph(c, NewRoots(c), o, w, r, d);
    case Blob(d) =>
      var x :| x in GraphOf(o, w, repo) && d in BlobsNamed(c.e, GraphOf(o, w, repo)[x]);
      WiderGraph(c, NewRoots(c), o, w, repo, x);
      assert d in RepoBlobs(c.e, o', w, repo);
  }

  lemma WiderGraph(c: Plan, front: seq<Root>, o: seq<Root>, w: World, repo: string, d: Digest)
    requires Genuine(c.e, c.truth, w) && d in GraphOf(o, w, repo)
    ensures d in GraphOf(front + o, w, repo) && GraphOf(front + o, w, repo)[d] == GraphOf(o, w, repo)[d]
  {
    hide Genuine, Read, GraphOf;
    var k := Mani(repo, d);
    GraphReads(o, w, repo, d);
    GraphReads(front + o, w, repo, d);
    ReadConcat(front, o, w, k);
    GenuineRead(c.e, c.truth, o, w, k);
    GenuineRead(c.e, c.truth, front + o, w, k);
  }

  lemma {:induction false} ViewAfterStops(ps: seq<Plan>, ws: seq<World>, n: nat, repo: string, k: Key, v: Bytes)
    requires StoppedRuns(ps, ws) && n < |ws| && InView(ps[0], ws[0], repo, k, v)
    ensures InView(ps[n], ws[n], repo, k, v) && NewRoots(ps[n]) == NewRoots(ps[0])
  {
    hide InView, Ran, Follows;
    if n > 0 {
      var m := n - 1;
      ViewAfterStops(ps, ws, m, repo, k, v);
      assert Ran(ps[m], ws[m], ws[m + 1], false) && Follows(ps[m], ps[m + 1]);
      StopKeepsView(ps[m], ws[m], ws[n], repo, k, v);
      FollowerKeepsView(ps[m], ps[n], ws[n], repo, k, v);
      FollowerRoots(ps[m], ps[n]);
    }
  }

  lemma FollowerRoots(c: Plan, c': Plan)
    requires PlanOk(c) && PlanOk(c') && Follows(c, c')
    ensures NewRoots(c') == NewRoots(c)
  {
  }

  /** The last attempt runs to its end: the destination reads what the old volume read at the start. */
  lemma FullRunReads(c: Plan, w: World, w': World, repo: string, k: Key, v: Bytes)
    requires PlanOk(c) && InView(c, w, repo, k, v) && Ran(c, w, w', true)
    ensures Read(NewRoots(c), w', k) == Some(v)
  {
    hide Genuine, InClass, Listable, Wanted, Read, ClassCopied, ToMigrate, PointsOnly;
    InViewIsSelected(c, w, repo, k, v);
    var b, m, g :| ClassCopied(c.e, c.truth, OldRoots(c), NewRoots(c), w, w', Target(c.dest), ToMigrate(c, w), b, m,
                               g, true);
    BackfillMeetsCollapse(c, ToMigrate(c, w), w, w', b, m, g, k);
    if !k.Tagged? {
      GenuineRead(c.e, c.truth, NewRoots(c), w, k);
      GenuineRead(c.e, c.truth, OldRoots(c), w, k);
    }
  }

  /** Reads after a restarted migration, for a destination of any shape and whatever other rules share the old
      backend: stopped any number of times and run again, it ends with every class manifest, every blob one
      names and every listed tag reading on the destination as the old volume read it at the start, hence as
      after one uninterrupted run, provided the destination pointed the tag nowhere else. */
  lemma ResumedMigrationReadsTheSame(ps: seq<Plan>, ws: seq<World>, w2: World, w1: World, repo: string, k: Key)
    requires StoppedRuns(ps, ws) && Ran(ps[|ps| - 1], ws[|ws| - 1], w2, true) && Ran(ps[0], ws[0], w1, true)
    requires Genuine(ps[0].e, ps[0].truth, ws[0]) && InClass(ps[0], repo) && Listable(repo)
    requires Wanted(ps[0], {repo}, ws[0], k) && Read(OldRoots(ps[0]), ws[0], k).Some?
    requires k.Tagged? ==>
               PointsOnly(ps[0], ws[0], k, DigestOf(ps[0], k, Read(OldRoots(ps[0]), ws[0], k).value))
    ensures Read(NewRoots(ps[0]), w2, k) == Read(OldRoots(ps[0]), ws[0], k)
    ensures Read(NewRoots(ps[0]), w2, k) == Read(NewRoots(ps[0]), w1, k)
  {
    hide Genuine, InClass, Listable, Wanted, Read, Ran, PointsOnly, Follows, Hash;
    var c, w := ps[0], ws[0];
    var v := Read(OldRoots(c), w, k).value;
    if k.Tagged? { GenuineTagRead(c.e, c.truth, OldRoots(c), w, k.repo, k.tag); }
    else { GenuineRead(c.e, c.truth, OldRoots(c), w, k); }
    assert InView(c, w, repo, k, v);
    FullRunReads(c, w, w1, repo, k, v);
    ViewAfterStops(ps, ws, |ws| - 1, repo, k, v);
    FullRunReads(ps[|ps| - 1], ws[|ws| - 1], w2, repo, k, v);
  }
}
