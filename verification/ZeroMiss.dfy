/** Reads never miss: safety of the migration machine over every run. */
module ZeroMiss {
  import opened Content
  import opened Volumes
  import opened Backends
  import opened Devices
  import opened Routing
  import opened Walks
  import opened Copying
  import opened Merging
  import opened Migrating
  import opened Protocol
  import Glob

  // ---- Growing one root -------------------------------------------------------------------

  ghost predicate Extends(v: Vol, v': Vol) {
    forall k: Key :: Lookup(v, k).Some? ==> Lookup(v', k).Some?
  }

  /** Every additive step: one root is extended by genuine content. */
  ghost predicate Additive(c: Plan, w: World, w': World, t: Root) {
    && Genuine(c.e, c.truth, w')
    && (forall root :: root != t ==> At(w', root) == At(w, root))
    && Extends(At(w, t), At(w', t))
  }

  lemma AdditiveGrows(c: Plan, w: World, w': World, t: Root)
    requires Additive(c, w, w', t)
    ensures Grows(w, w')
  {
  }

  lemma AdditiveGenuine(c: Plan, w: World, w': World, t: Root)
    requires Additive(c, w, w', t)
    ensures Genuine(c.e, c.truth, w')
  {
  }

  lemma AddRoot(c: Plan, w: World, t: Root, v: Vol)
    requires Genuine(c.e, c.truth, w) && GenuineVol(c.e, c.truth, v) && Extends(At(w, t), v)
    ensures Additive(c, w, w[t := v], t)
  {
  }

  lemma WriteBlobAdds(c: Plan, w: World, t: Root, d: Digest, content: Bytes)
    requires Genuine(c.e, c.truth, w) && (Hash(c.e, d.algorithm, content) == d ==> content == c.truth(d))
    ensures Additive(c, w, w[t := WriteBlob(c.e, At(w, t), d, content).0], t)
  {
    GenuineAt(c.e, c.truth, w, t);
    WrittenTrue(c, At(w, t), d, content);
    hide Genuine, GenuineVol, WriteBlob, Extends;
    AddRoot(c, w, t, WriteBlob(c.e, At(w, t), d, content).0);
  }

  lemma WrittenTrue(c: Plan, v: Vol, d: Digest, content: Bytes)
    requires GenuineVol(c.e, c.truth, v) && (Hash(c.e, d.algorithm, content) == d ==> content == c.truth(d))
    ensures GenuineVol(c.e, c.truth, WriteBlob(c.e, v, d, content).0) && Extends(v, WriteBlob(c.e, v, d, content).0)
  {
    hide Hash;
  }

  lemma PutBytesAdds(c: Plan, w: World, t: Root, repo: string, content: Bytes)
    requires Genuine(c.e, c.truth, w) && content == c.truth(Hash(c.e, Sha256, content))
    ensures Additive(c, w, w[t := PutBytes(c.e, At(w, t), repo, content)], t)
  {
    var p := (repo, Hash(c.e, Sha256, content));
    PutBytesKept(c.e, c.truth, w, w[t := PutBytes(c.e, At(w, t), repo, content)], t, p);
    GenuineAt(c.e, c.truth, w, t);
    BytesExtend(c, At(w, t), repo, content);
    hide Genuine, PutBytes, Extends, Hash;
  }

  lemma BytesExtend(c: Plan, v: Vol, repo: string, content: Bytes)
    requires GenuineVol(c.e, c.truth, v)
    ensures Extends(v, PutBytes(c.e, v, repo, content))
  {
    hide Hash;
  }

  lemma PutExtends(e: Env, v: Vol, repo: string, ref: Reference, content: Bytes)
    ensures Extends(v, Put(e, v, repo, ref, content))
  {
    var v' := Put(e, v, repo, ref, content);
    var d := Hash(e, Sha256, content);
    assert (repo, d) in v'.manifests;
    forall k: Key | Lookup(v, k).Some? ensures Lookup(v', k).Some? {
      if k.Tagged? && ref.Tag? && (k.repo, k.tag) == (repo, ref.tag) {
        assert v'.tags[(k.repo, k.tag)] == d;
      }
    }
  }

  lemma PutGenuine(c: Plan, v: Vol, repo: string, ref: Reference, content: Bytes)
    requires GenuineVol(c.e, c.truth, v) && content == c.truth(Hash(c.e, Sha256, content))
    ensures GenuineVol(c.e, c.truth, Put(c.e, v, repo, ref, content))
  {
    PutKeepsContentAddressed(c.e, v, repo, ref, content);
    hide ContentAddressed;
  }

  lemma PutAdds(c: Plan, w: World, t: Root, repo: string, ref: Reference, content: Bytes)
    requires Genuine(c.e, c.truth, w) && content == c.truth(Hash(c.e, Sha256, content))
    ensures Additive(c, w, w[t := Put(c.e, At(w, t), repo, ref, content)], t)
  {
    hide GenuineVol, Put, Extends;
    GenuineAt(c.e, c.truth, w, t);
    PutGenuine(c, At(w, t), repo, ref, content);
    PutExtends(c.e, At(w, t), repo, ref, content);
    AddRoot(c, w, t, Put(c.e, At(w, t), repo, ref, content));
  }

  /** Putting a manifest of one repository leaves the names of the others alone. */
  lemma PutElsewhere(e: Env, v: Vol, repo: string, ref: Reference, content: Bytes, k: Key)
    requires !k.Blob? && k.repo != repo
    ensures Lookup(Put(e, v, repo, ref, content), k) == Lookup(v, k)
  {
  }

  // ---- Routes -----------------------------------------------------------------------------

  /** Class repositories follow the migrated rule, strays too, everything else never moves. */
  lemma RouteDuring(c: Plan, phase: Phase, repo: string)
    requires PlanOk(c)
    ensures InClass(c, repo) ==> Route(c.rules, repo) == Old(c) && Glob.Matches(c.pattern, repo)
    ensures InClass(c, repo) || Stray(c, repo) ==>
              RouteIn(c, phase, repo) == match phase
                                         case Ready => Old(c)
                                         case Snapped(_) => Old(c)
                                         case Filling(_, _, _) => OverlayOf(c)
                                         case Stopped(_, _) => OverlayOf(c)
                                         case Collapsed(_, _) => c.dest
    ensures !InClass(c, repo) && !Stray(c, repo) ==> RouteIn(c, phase, repo) == Route(c.rules, repo)
  {
    RouteIsFirstLongestMatch(c.rules, repo, Slot(c));
    UpsertExistingFrame(c.rules, c.pattern, OverlayOf(c), repo);
    UpsertExistingFrame(c.rules, c.pattern, c.dest, repo);
  }

  // ---- Kept -------------------------------------------------------------------------------

  lemma KeptByGrowth(c: Plan, s: State, s': State)
    requires PlanOk(c) && Inv(c, s) && Genuine(c.e, c.truth, s'.w) && Grows(s.w, s'.w)
    requires forall repo :: !Stray(c, repo) ==> RouteIn(c, s'.phase, repo) == RouteIn(c, s.phase, repo)
    ensures Kept(c, s, s')
  {
    hide Grows, Genuine, Inv, RouteIn;
    assert Genuine(c.e, c.truth, s.w) by { InvGenuine(c, s); }
    forall k: Key | !k.Blob? && !Stray(c, k.repo) && Serve(c, s, k.repo, k).Some?
      ensures Serve(c, s', k.repo, k).Some? && (k.Mani? ==> Serve(c, s', k.repo, k) == Serve(c, s, k.repo, k))
    {
      GrowsPreserves(c.e, c.truth, ReadOrder(RouteIn(c, s.phase, k.repo)), s.w, s'.w);
    }
  }

  lemma InvGenuine(c: Plan, s: State)
    requires PlanOk(c) && Inv(c, s)
    ensures Genuine(c.e, c.truth, s.w)
  {
  }

  lemma SamePhaseSameRoutes(c: Plan, p: Phase, p': Phase)
    requires PlanOk(c) && RulesIn(c, p) == RulesIn(c, p')
    ensures forall repo :: RouteIn(c, p', repo) == RouteIn(c, p, repo)
  {
  }

  /** Putting the overlay up hides nothing. */
  lemma KeptByOverlay(c: Plan, s: State)
    requires PlanOk(c) && Inv(c, s) && Enabled(c, s, Overlay)
    ensures Kept(c, s, Next(c, s, Overlay))
  {
    var s' := Next(c, s, Overlay);
    OverlayOrder(c);
    forall k: Key | !k.Blob? && !Stray(c, k.repo) && Serve(c, s, k.repo, k).Some?
      ensures Serve(c, s', k.repo, k).Some? && (k.Mani? ==> Serve(c, s', k.repo, k) == Serve(c, s, k.repo, k))
    {
      RouteDuring(c, s.phase, k.repo);
      RouteDuring(c, s'.phase, k.repo);
      if InClass(c, k.repo) {
        ReadConcat(NewRoots(c), OldRoots(c), s.w, k);
        if k.Mani? {
          GenuineRead(c.e, c.truth, NewRoots(c), s.w, k);
          GenuineRead(c.e, c.truth, OldRoots(c), s.w, k);
        }
      }
    }
  }

  /** What only the old volume has of the class was there when the overlay went up, hence was handled. */
  lemma OldOnlyWasWanted(c: Plan, s: State, k: Key)
    requires PlanOk(c) && Inv(c, s) && s.phase.Filling? && !k.Blob? && InClass(c, k.repo)
    requires Read(NewRoots(c), s.w, k).None? && Read(OldRoots(c), s.w, k).Some?
    ensures Read(OldRoots(c), s.phase.base, k).Some? && Wanted(c, s.phase.repos, s.phase.base, k)
  {
    var base := s.phase.base;
    ReadFinds(OldRoots(c), s.w, k);
    ReadFinds(NewRoots(c), s.w, k);
    var root :| root in OldRoots(c) && Lookup(At(s.w, root), k).Some?;
    assert root !in NewRoots(c);
    assert Lookup(At(base, root), k).Some?;
    ReadFinds(OldRoots(c), base, k);
    GenuineAt(c.e, c.truth, base, root);
    match k
    case Mani(r, d) =>
      assert (r, d) in At(base, root).manifests;
      assert (r, d).0 in At(base, root).dirs;
      GraphReads(OldRoots(c), base, r, d);
    case Tagged(r, t) =>
      assert (r, t) in At(base, root).tags;
      assert (r, t).0 in At(base, root).dirs && !TmpName((r, t).1);
      TagListed(OldRoots(c), base, root, r, t);
  }

  lemma TagListed(o: seq<Root>, w: World, root: Root, repo: string, tag: string)
    requires root in o && (repo, tag) in At(w, root).tags && !TmpName(tag)
    ensures tag in ListedTags(o, w, repo)
  {
    assert (repo, tag).1 == tag && (repo, tag).0 == repo;
    assert tag in Names(At(w, root), Tags(repo));
    assert root in Elements(o);
  }

  /** Dropping the old volume loses nothing: everything readable by then reads from the new one. */
  lemma KeptByCollapse(c: Plan, s: State)
    requires PlanOk(c) && Inv(c, s) && Enabled(c, s, Collapse)
    ensures Kept(c, s, Next(c, s, Collapse))
  {
    var s' := Next(c, s, Collapse);
    OverlayOrder(c);
    forall k: Key | !k.Blob? && !Stray(c, k.repo) && Serve(c, s, k.repo, k).Some?
      ensures Serve(c, s', k.repo, k).Some? && (k.Mani? ==> Serve(c, s', k.repo, k) == Serve(c, s, k.repo, k))
    {
      RouteDuring(c, s.phase, k.repo);
      RouteDuring(c, s'.phase, k.repo);
      if InClass(c, k.repo) {
        CollapseReads(c, s, k);
      }
    }
  }

  lemma CollapseReads(c: Plan, s: State, k: Key)
    requires PlanOk(c) && Inv(c, s) && Enabled(c, s, Collapse) && !k.Blob? && InClass(c, k.repo)
    requires Read(NewRoots(c) + OldRoots(c), s.w, k).Some?
    ensures Read(NewRoots(c), s.w, k).Some?
    ensures k.Mani? ==> Read(NewRoots(c), s.w, k) == Read(NewRoots(c) + OldRoots(c), s.w, k)
  {
    ReadConcat(NewRoots(c), OldRoots(c), s.w, k);
    if Read(NewRoots(c), s.w, k).None? {
      OldOnlyWasWanted(c, s, k);
      WantedIsRead(c, s, k);
    }
  }

  /** What was there when the overlay went up is still there to be collected at any later moment of the
      backfill, whatever clients did meanwhile. */
  lemma WantedGrows(c: Plan, repos: set<string>, base: World, w: World, k: Key)
    requires PlanOk(c) && Genuine(c.e, c.truth, base) && Genuine(c.e, c.truth, w) && Grows(base, w)
    requires Wanted(c, repos, base, k) && Read(OldRoots(c), base, k).Some?
    ensures Wanted(c, repos, w, k)
  {
    hide Genuine, Read, BlobsNamed;
    var o := OldRoots(c);
    match k
    case Tagged(r, t) =>
      var named :| named in Elements(o) && t in Names(At(base, named), Tags(r));
      ReadFinds(o, base, k);
      var root :| root in o && Lookup(At(base, root), k).Some?;
      assert Lookup(At(w, root), k).Some?;
      TagListed(o, w, root, r, t);
    case Mani(r, d) => GraphGrows(c, base, w, r, d);
    case Blob(d) =>
      var r :| r in repos && d in RepoBlobs(c.e, o, base, r);
      var x :| x in GraphOf(o, base, r) && d in BlobsNamed(c.e, GraphOf(o, base, r)[x]);
      GraphGrows(c, base, w, r, x);
      assert d in RepoBlobs(c.e, o, w, r);
  }

  lemma GraphGrows(c: Plan, base: World, w: World, repo: string, d: Digest)
    requires PlanOk(c) && Genuine(c.e, c.truth, base) && Genuine(c.e, c.truth, w) && Grows(base, w)
    ensures d in GraphOf(OldRoots(c), base, repo) ==>
              d in GraphOf(OldRoots(c), w, repo)
                && GraphOf(OldRoots(c), w, repo)[d] == GraphOf(OldRoots(c), base, repo)[d]
  {
    hide Genuine, Read, GraphOf, Grows;
    GrowsPreserves(c.e, c.truth, OldRoots(c), base, w);
    GraphReads(OldRoots(c), base, repo, d);
    GraphReads(OldRoots(c), w, repo, d);
  }

  /** When the migration is done by its own books, everything wanted that could be read when the overlay
      went up can be read from the new volume. */
  lemma WantedIsRead(c: Plan, s: State, k: Key)
    requires PlanOk(c) && Inv(c, s) && Enabled(c, s, Collapse)
    requires Wanted(c, s.phase.repos, s.phase.base, k) && Read(OldRoots(c), s.phase.base, k).Some?
    ensures Read(NewRoots(c), s.w, k).Some?
  {
    hide Genuine, Read, BlobsNamed, NamesOk, Grows, Frozen, Snapshotted, ListedTags;
    var base, got := s.phase.base, s.phase.got;
    match k
    case Tagged(r, t) => assert (r, t) in got.tags && Tagged((r, t).0, (r, t).1) in got.handled;
    case Mani(r, d) => assert (r, d) in got.seen && ToCopy(got, Mani(r, d)) by { ManiWasSeen(c, s, r, d); }
    case Blob(d) =>
      var r :| r in s.phase.repos && d in RepoBlobs(c.e, OldRoots(c), base, r);
      BlobWasCollected(c, s, r, d);
      assert ToCopy(got, Blob(d));
  }

  lemma ManiWasSeen(c: Plan, s: State, repo: string, d: Digest)
    requires PlanOk(c) && Inv(c, s) && Enabled(c, s, Collapse)
    requires repo in s.phase.repos && Read(OldRoots(c), s.phase.base, Mani(repo, d)).Some?
    ensures (repo, d) in s.phase.got.seen && (repo, d) in s.phase.got.manis
  {
    hide Genuine, Read, BlobsNamed, NamesOk, Grows, Frozen, Snapshotted, ListedTags, Wanted;
    var p: Pair := (repo, d);
    assert p in s.phase.got.listed;
    assert Read(OldRoots(c), s.phase.base, Mani(p.0, p.1)).Some?;
  }

  lemma BlobWasCollected(c: Plan, s: State, repo: string, d: Digest)
    requires PlanOk(c) && Inv(c, s) && Enabled(c, s, Collapse)
    requires repo in s.phase.repos && d in RepoBlobs(c.e, OldRoots(c), s.phase.base, repo)
    ensures d in s.phase.got.blobs
  {
    hide Genuine, Read, BlobsNamed, NamesOk, Grows, Frozen, Snapshotted, GraphOf;
    var base := s.phase.base;
    var x :| x in GraphOf(OldRoots(c), base, repo) && d in BlobsNamed(c.e, GraphOf(OldRoots(c), base, repo)[x]);
    GraphReads(OldRoots(c), base, repo, x);
    GenuineRead(c.e, c.truth, OldRoots(c), base, Mani(repo, x));
    ManiWasSeen(c, s, repo, x);
    assert (repo, x).1 == x;
  }

  /** Removing names of class repositories from roots the new volume does not use is invisible. */
  lemma KeptByDrain(c: Plan, s: State, a: Action)
    requires PlanOk(c) && Inv(c, s) && Enabled(c, s, a) && Assumed(c, s, a) && (a.Purge? || a.Sweep?)
    ensures Kept(c, s, Next(c, s, a))
  {
    hide Enabled, Assumed, Inv, Read, InClass, Stray;
    var s' := Next(c, s, a);
    assert s'.phase == s.phase;
    forall k: Key | !k.Blob? && !Stray(c, k.repo)
      ensures Serve(c, s', k.repo, k) == Serve(c, s, k.repo, k)
    {
      var o := ReadOrder(RouteIn(c, s.phase, k.repo));
      forall root | root in o ensures Lookup(At(s'.w, root), k) == Lookup(At(s.w, root), k) {
        DrainUnseen(c, s, a, k, root);
      }
      ReadDependsOnRoots(o, s.w, s'.w, k);
    }
  }

  lemma DrainUnseen(c: Plan, s: State, a: Action, k: Key, root: Root)
    requires PlanOk(c) && Enabled(c, s, a) && Assumed(c, s, a) && (a.Purge? || a.Sweep?)
    requires !k.Blob? && !Stray(c, k.repo) && root in ReadOrder(RouteIn(c, s.phase, k.repo))
    ensures Lookup(At(Next(c, s, a).w, root), k) == Lookup(At(s.w, root), k)
  {
    hide Read, InClass, Stray, Lookup, Remove;
    RouteDuring(c, s.phase, k.repo);
    assert InClass(c, k.repo) ==> root in Roots(c.dest);
    assert root == a.root ==> !InClass(c, k.repo);
    if root == a.root { RemoveElsewhere(At(s.w, root), if a.Purge? then a.key else Blob(a.digest), k); }
  }

  lemma RemoveElsewhere(v: Vol, gone: Key, k: Key)
    requires !k.Blob? && (gone.Blob? || gone.repo != k.repo)
    ensures Lookup(Remove(v, gone), k) == Lookup(v, k)
  {
  }

  // ---- Steps keep the invariant -----------------------------------------------------------

  lemma SnapshotComplete(c: Plan, w: World)
    requires PlanOk(c) && NamesOk(c, w)
    ensures Snapshotted(c, w, ToMigrate(c, w))
  {
    forall root, r | root in OldRoots(c) && r in At(w, root).dirs && InClass(c, r) ensures r in ToMigrate(c, w) {
      RouteDuring(c, Ready, r);
      assert NamesOkAt(c, At(w, root));
      assert r in Names(At(w, root), Repos);
      assert root in Roots(Old(c));
    }
  }

  /** An additive step outside the frozen part keeps the invariant of a backfill under way. */
  lemma FillingKept(c: Plan, s: State, w': World, t: Root, got: Progress)
    requires PlanOk(c) && Inv(c, s) && s.phase.Filling? && Additive(c, s.w, w', t) && NamesOk(c, w')
    requires t in NewRoots(c) || forall k: Key :: !k.Blob? && InClass(c, k.repo) ==>
             Lookup(At(w', t), k) == Lookup(At(s.w, t), k)
    requires GotOk(c, s.phase.repos, s.phase.base, w', got)
    ensures Inv(c, State(w', s.phase.(got := got)))
  {
    hide NamesOk, Snapshotted, GenuineVol, GotOk, InClass, Lookup;
    AdditiveGrows(c, s.w, w', t);
    assert Grows(s.phase.base, w');
    assert Frozen(c, s.phase.base, w');
  }

  /** Growth keeps what was handled, read and loaded. */
  lemma ProgressKept(c: Plan, s: State, w': World)
    requires PlanOk(c) && Inv(c, s) && s.phase.Filling? && Grows(s.w, w') && Genuine(c.e, c.truth, w')
    ensures GotOk(c, s.phase.repos, s.phase.base, w', s.phase.got)
  {
    hide ListedOk, VisitedOk, NamesOk, Snapshotted, Frozen, Read;
    GrowsPreserves(c.e, c.truth, NewRoots(c), s.w, w');
    GrowsPreserves(c.e, c.truth, OldRoots(c), s.w, w');
  }

  lemma PushTarget(c: Plan, s: State, repo: string)
    requires PlanOk(c) && s.phase.Filling? && InClass(c, repo)
    ensures Target(RouteIn(c, s.phase, repo)) in NewRoots(c)
  {
    RouteDuring(c, s.phase, repo);
    OverlayOrder(c);
  }

  lemma PushBlobKept(c: Plan, s: State, a: Action)
    requires PlanOk(c) && Inv(c, s) && a.PushBlob? && Assumed(c, s, a)
    ensures Inv(c, Next(c, s, a)) && Grows(s.w, Next(c, s, a).w)
  {
    hide InClass, Stray, Read, Lookup, WriteBlob, GotOk, Frozen, NamesOkAt;
    var t, s' := Target(RouteIn(c, s.phase, a.repo)), Next(c, s, a);
    WriteBlobAdds(c, s.w, t, a.digest, a.content);
    AdditiveGrows(c, s.w, s'.w, t);
    AdditiveGenuine(c, s.w, s'.w, t);
    BlobLeavesNames(c.e, At(s.w, t), a.digest, a.content);
    NamesOkSame(c, At(s.w, t), At(s'.w, t));
    NamesOkAfter(c, s.w, s'.w, t);
    if s.phase.Filling? {
      ProgressKept(c, s, s'.w);
      FillingKept(c, s, s'.w, t, s.phase.got);
    }
  }

  lemma NamesOkSame(c: Plan, v: Vol, v': Vol)
    requires PlanOk(c) && v'.dirs == v.dirs && v'.tags == v.tags
    ensures NamesOkAt(c, v') <==> NamesOkAt(c, v)
  {
    hide InClass;
  }

  lemma NamesOkAfter(c: Plan, w: World, w': World, t: Root)
    requires PlanOk(c) && NamesOk(c, w) && (forall root :: root != t ==> At(w', root) == At(w, root))
    requires (t in OldRoots(c) || t in NewRoots(c)) && NamesOkAt(c, At(w, t)) ==> NamesOkAt(c, At(w', t))
    ensures NamesOk(c, w')
  {
    hide NamesOkAt;
  }

  lemma BlobLeavesNames(e: Env, v: Vol, d: Digest, content: Bytes)
    ensures var v' := WriteBlob(e, v, d, content).0; v'.dirs == v.dirs && v'.tags == v.tags
    ensures forall k: Key :: !k.Blob? ==> Lookup(WriteBlob(e, v, d, content).0, k) == Lookup(v, k)
  {
  }

  lemma NamesAfterPut(c: Plan, v: Vol, repo: string, ref: Reference, content: Bytes)
    requires PlanOk(c) && NamesOkAt(c, v) && (InClass(c, repo) ==> Listable(repo) && (ref.Tag? ==> !TmpName(ref.tag)))
    ensures NamesOkAt(c, Put(c.e, v, repo, ref, content))
  {
    hide InClass, Listable, TmpName;
    var v' := Put(c.e, v, repo, ref, content);
    assert forall p :: p in v'.tags ==> p in v.tags || (ref.Tag? && p == (repo, ref.tag));
  }

  lemma PushKeepsNames(c: Plan, s: State, a: Action)
    requires PlanOk(c) && NamesOk(c, s.w) && a.PushManifest? && Assumed(c, s, a)
    ensures NamesOk(c, Next(c, s, a).w)
  {
    hide InClass, Stray, Put, TmpName, Listable, NamesOkAt, NamesOk;
    var t := Target(RouteIn(c, s.phase, a.repo));
    if NamesOkAt(c, At(s.w, t)) { NamesAfterPut(c, At(s.w, t), a.repo, a.ref, a.content); }
    NamesOkAfter(c, s.w, Next(c, s, a).w, t);
  }

  lemma PushManifestKept(c: Plan, s: State, a: Action)
    requires PlanOk(c) && Inv(c, s) && a.PushManifest? && Assumed(c, s, a)
    ensures Inv(c, Next(c, s, a)) && Grows(s.w, Next(c, s, a).w)
  {
    hide InClass, Stray, Read, Put, TmpName, Listable, GotOk, NamesOkAt;
    var t, s' := Target(RouteIn(c, s.phase, a.repo)), Next(c, s, a);
    PutAdds(c, s.w, t, a.repo, a.ref, a.content);
    AdditiveGrows(c, s.w, s'.w, t);
    AdditiveGenuine(c, s.w, s'.w, t);
    PushKeepsNames(c, s, a);
    match s.phase
    case Ready =>
    case Snapped(repos) =>
      PutDirs(c.e, At(s.w, t), a.repo, a.ref, a.content);
      assert Snapshotted(c, s'.w, repos);
    case Filling(_, _, _) =>
      ProgressKept(c, s, s'.w);
      if InClass(c, a.repo) {
        PushTarget(c, s, a.repo);
      } else {
        forall k: Key | !k.Blob? && InClass(c, k.repo) ensures Lookup(At(s'.w, t), k) == Lookup(At(s.w, t), k) {
          PutElsewhere(c.e, At(s.w, t), a.repo, a.ref, a.content, k);
        }
      }
      FillingKept(c, s, s'.w, t, s.phase.got);
    case Stopped(_, _) =>
    case Collapsed(_, _) =>
  }

  lemma PutDirs(e: Env, v: Vol, repo: string, ref: Reference, content: Bytes)
    ensures Put(e, v, repo, ref, content).dirs == v.dirs + {repo}
  {
  }

  // ---- Collecting -------------------------------------------------------------------------

  lemma CollectKept(c: Plan, s: State, a: Action)
    requires PlanOk(c) && Inv(c, s) && Collects(a) && Enabled(c, s, a)
    ensures Inv(c, Next(c, s, a))
  {
    hide Genuine, NamesOk, Snapshotted, Frozen, Grows, GotOk, Collected, CanAdvance;
    match a
    case ListTags(r) => ListTagsKept(c, s, r);
    case ReadTag(r, t) => ReadTagKept(c, s, r, t);
    case ListManifests(r) => ListManifestsKept(c, s, r);
    case Visit(r, d) => VisitKept(c, s, r, d);
  }

  lemma ListTagsKept(c: Plan, s: State, r: string)
    requires PlanOk(c) && Inv(c, s) && s.phase.Filling?
    ensures GotOk(c, s.phase.repos, s.phase.base, s.w, Collected(c, s.w, s.phase.got, ListTags(r)))
  {
    hide Genuine, NamesOk, Snapshotted, Frozen, Grows, Read, ListedTags, HandledOk, TagsOk, GraphOf, RepoBlobs;
    var base, got := s.phase.base, s.phase.got;
    var got' := Collected(c, s.w, got, ListTags(r));
    forall t | Wanted(c, s.phase.repos, base, Tagged(r, t)) && Read(OldRoots(c), base, Tagged(r, t)).Some?
      ensures (r, t) in got'.names
    {
      WantedGrows(c, s.phase.repos, base, s.w, Tagged(r, t));
    }
    assert ListedOk(c, s.phase.repos, base, got'.tagged, got'.names, got'.detached, got'.listed);
  }

  lemma ReadTagKept(c: Plan, s: State, r: string, t: string)
    requires PlanOk(c) && Inv(c, s) && s.phase.Filling? && CanAdvance(c, s.w, s.phase.repos, s.phase.got, ReadTag(r, t))
    ensures GotOk(c, s.phase.repos, s.phase.base, s.w, Collected(c, s.w, s.phase.got, ReadTag(r, t)))
  {
    hide NamesOk, Snapshotted, Frozen, Grows, ListedOk, VisitedOk, HandledOk, Hash, Read, Genuine;
    GenuineTagRead(c.e, c.truth, OldRoots(c), s.w, r, t);
  }

  lemma ListManifestsKept(c: Plan, s: State, r: string)
    requires PlanOk(c) && Inv(c, s) && s.phase.Filling?
    ensures GotOk(c, s.phase.repos, s.phase.base, s.w, Collected(c, s.w, s.phase.got, ListManifests(r)))
  {
    hide Genuine, NamesOk, Snapshotted, Frozen, Grows, Read, Wanted, VisitedOk, HandledOk, TagsOk, DigestsIn;
    var base, got := s.phase.base, s.phase.got;
    var got' := Collected(c, s.w, got, ListManifests(r));
    forall d | Read(OldRoots(c), base, Mani(r, d)).Some? ensures (r, d) in got'.listed {
      GrowsPreserves(c.e, c.truth, OldRoots(c), base, s.w);
      GraphReads(OldRoots(c), s.w, r, d);
    }
    assert ListedOk(c, s.phase.repos, base, got'.tagged, got'.names, got'.detached, got'.listed);
  }

  lemma VisitKept(c: Plan, s: State, r: string, d: Digest)
    requires PlanOk(c) && Inv(c, s) && s.phase.Filling?
    ensures GotOk(c, s.phase.repos, s.phase.base, s.w, Collected(c, s.w, s.phase.got, Visit(r, d)))
  {
    hide Genuine, NamesOk, Snapshotted, Frozen, Grows, Read, ListedOk, HandledOk, TagsOk, BlobsNamed;
    var base, got, k := s.phase.base, s.phase.got, Mani(r, d);
    GrowsPreserves(c.e, c.truth, OldRoots(c), base, s.w);
    GenuineRead(c.e, c.truth, OldRoots(c), s.w, k);
    var got' := Collected(c, s.w, got, Visit(r, d));
    assert forall p :: p in got'.manis ==> p in got.manis || p == (r, d);
    assert VisitedOk(c, base, got'.seen, got'.manis, got'.blobs);
  }

  // ---- Copying ----------------------------------------------------------------------------

  /** A loaded key that is written reads from the new volume afterwards. */
  lemma StoreAdds(c: Plan, w: World, k: Key, bytes: Bytes)
    requires PlanOk(c) && Genuine(c.e, c.truth, w) && !k.Tagged? && Read(OldRoots(c), w, k) == Some(bytes)
    ensures Additive(c, w, StoreAt(c, w, k, bytes), Target(c.dest))
    ensures Lookup(At(StoreAt(c, w, k, bytes), Target(c.dest)), k).Some?
            && Read(NewRoots(c), StoreAt(c, w, k, bytes), k).Some?
  {
    var t, w' := Target(c.dest), StoreAt(c, w, k, bytes);
    GenuineRead(c.e, c.truth, OldRoots(c), w, k);
    match k {
      case Blob(d) => WriteBlobAdds(c, w, t, d, bytes);
      case Mani(r, d) => PutBytesAdds(c, w, t, r, bytes);
    }
    ReadFinds(NewRoots(c), w', k);
    assert Lookup(At(w', t), k).Some?;
  }

  /** ... under a listable name, because the old volume holds it under that name. */
  lemma StoreKeepsNames(c: Plan, w: World, k: Key, bytes: Bytes)
    requires PlanOk(c) && Genuine(c.e, c.truth, w) && NamesOk(c, w) && !k.Tagged?
             && Read(OldRoots(c), w, k) == Some(bytes)
    ensures NamesOk(c, StoreAt(c, w, k, bytes))
  {
    hide InClass, Read, NamesOk, NamesOkAt, WriteBlob, PutBytes;
    var t, w' := Target(c.dest), StoreAt(c, w, k, bytes);
    var v := At(w, t);
    match k {
      case Blob(d) => BlobLeavesNames(c.e, v, d, bytes); NamesOkSame(c, v, At(w', t));
      case Mani(r, d) =>
        OldDirIsListable(c, w, r, d);
        if NamesOkAt(c, v) { BytesKeepNames(c, v, r, bytes); }
    }
    NamesOkAfter(c, w, w', t);
  }

  lemma OldDirIsListable(c: Plan, w: World, repo: string, d: Digest)
    requires PlanOk(c) && Genuine(c.e, c.truth, w) && NamesOk(c, w) && Read(OldRoots(c), w, Mani(repo, d)).Some?
    ensures InClass(c, repo) ==> Listable(repo)
  {
    hide InClass, Listable, TmpName, Read;
    ReadFinds(OldRoots(c), w, Mani(repo, d));
    var root :| root in OldRoots(c) && Lookup(At(w, root), Mani(repo, d)).Some?;
    GenuineAt(c.e, c.truth, w, root);
    assert (repo, d).0 in At(w, root).dirs && NamesOkAt(c, At(w, root));
  }

  lemma BytesKeepNames(c: Plan, v: Vol, repo: string, bytes: Bytes)
    requires PlanOk(c) && NamesOkAt(c, v) && (InClass(c, repo) ==> Listable(repo))
    ensures NamesOkAt(c, PutBytes(c.e, v, repo, bytes))
  {
    hide InClass, Listable, TmpName;
  }

  lemma PointAdds(c: Plan, w: World, repo: string, tag: string, d: Digest)
    requires PlanOk(c) && Genuine(c.e, c.truth, w) && Lookup(At(w, Target(c.dest)), Mani(repo, d)).Some?
    ensures Additive(c, w, PointAt(c, w, repo, tag, d), Target(c.dest))
    ensures Read(NewRoots(c), PointAt(c, w, repo, tag, d), Tagged(repo, tag)).Some?
  {
    hide Genuine, GenuineVol, Extends;
    var t, w' := Target(c.dest), PointAt(c, w, repo, tag, d);
    GenuineAt(c.e, c.truth, w, t);
    PointedIsGenuine(c, At(w, t), repo, tag, d);
    AddRoot(c, w, t, At(w', t));
    ReadFinds(NewRoots(c), w', Tagged(repo, tag));
  }

  lemma PointedIsGenuine(c: Plan, v: Vol, repo: string, tag: string, d: Digest)
    requires GenuineVol(c.e, c.truth, v) && Lookup(v, Mani(repo, d)).Some?
    ensures var v' := v.(tags := v.tags[(repo, tag) := d]);
            GenuineVol(c.e, c.truth, v') && Extends(v, v') && Lookup(v', Tagged(repo, tag)).Some?
  {
    assert (repo, d).0 in v.dirs;
    assert d.algorithm == Sha256 by { assert Hash(c.e, Sha256, v.manifests[(repo, d)]) == (repo, d).1; }
  }

  lemma PointKeepsNames(c: Plan, w: World, repo: string, tag: string, d: Digest)
    requires PlanOk(c) && NamesOk(c, w) && Read(OldRoots(c), w, Tagged(repo, tag)).Some?
    ensures NamesOk(c, PointAt(c, w, repo, tag, d))
  {
    hide InClass, NamesOkAt, Read;
    var t, w' := Target(c.dest), PointAt(c, w, repo, tag, d);
    ReadFinds(OldRoots(c), w, Tagged(repo, tag));
    var root :| root in OldRoots(c) && Lookup(At(w, root), Tagged(repo, tag)).Some?;
    assert NamesOkAt(c, At(w, root));
    if NamesOkAt(c, At(w, t)) { TagKeepsNames(c, At(w, t), At(w, root), repo, tag, d); }
    hide NamesOk;
    NamesOkAfter(c, w, w', t);
  }

  lemma TagKeepsNames(c: Plan, v: Vol, other: Vol, repo: string, tag: string, d: Digest)
    requires PlanOk(c) && NamesOkAt(c, v) && NamesOkAt(c, other) && (repo, tag) in other.tags
    ensures NamesOkAt(c, v.(tags := v.tags[(repo, tag) := d]))
  {
    hide InClass, Listable, TmpName;
    var p := (repo, tag);
    assert InClass(c, p.0) ==> !TmpName(p.1);
  }

  lemma CopyKept(c: Plan, s: State, a: Action)
    requires PlanOk(c) && Inv(c, s) && Copies(a) && Enabled(c, s, a)
    ensures Inv(c, Next(c, s, a)) && Grows(s.w, Next(c, s, a).w)
  {
    hide Genuine, NamesOk, Snapshotted, Frozen, GotOk, Copied, CanAdvance, Grows;
    match a
    case Look(k, failed) => LookKept(c, s, k, failed); GrowsItself(s.w);
    case Load => LoadKept(c, s); GrowsItself(s.w);
    case Store => StoreKept(c, s);
    case LoadTag(r, t) => LoadTagKept(c, s, r, t); GrowsItself(s.w);
    case StoreTagBytes => StoreTagBytesKept(c, s);
    case StoreTagPointer => StoreTagPointerKept(c, s);
  }

  lemma GrowsItself(w: World)
    ensures Grows(w, w)
  {
  }

  lemma LookKept(c: Plan, s: State, k: Key, failed: bool)
    requires PlanOk(c) && Inv(c, s) && s.phase.Filling?
             && CanAdvance(c, s.w, s.phase.repos, s.phase.got, Look(k, failed))
    ensures var (w', got) := Copied(c, s.w, s.phase.got, Look(k, failed));
            w' == s.w && GotOk(c, s.phase.repos, s.phase.base, s.w, got)
  {
    hide Genuine, NamesOk, Snapshotted, Frozen, Grows, Read, ListedOk, VisitedOk, TagsOk;
  }

  lemma LoadKept(c: Plan, s: State)
    requires PlanOk(c) && Inv(c, s) && s.phase.Filling? && CanAdvance(c, s.w, s.phase.repos, s.phase.got, Load)
    ensures var (w', got) := Copied(c, s.w, s.phase.got, Load);
            w' == s.w && GotOk(c, s.phase.repos, s.phase.base, s.w, got)
  {
    hide Genuine, NamesOk, Snapshotted, Frozen, Grows, Read, ListedOk, VisitedOk, TagsOk;
    GrowsPreserves(c.e, c.truth, OldRoots(c), s.phase.base, s.w);
  }

  lemma StoreKept(c: Plan, s: State)
    requires PlanOk(c) && Inv(c, s) && s.phase.Filling? && CanAdvance(c, s.w, s.phase.repos, s.phase.got, Store)
    ensures Inv(c, Next(c, s, Store)) && Grows(s.w, Next(c, s, Store).w)
  {
    hide Genuine, NamesOk, Snapshotted, Frozen, Read, ListedOk, VisitedOk, TagsOk, StoreAt, Lookup, Additive, Grows;
    var got, t := s.phase.got, Target(c.dest);
    var k, bytes := got.pending.key, got.pending.bytes;
    var w' := StoreAt(c, s.w, k, bytes);
    StoreAdds(c, s.w, k, bytes);
    StoreKeepsNames(c, s.w, k, bytes);
    AdditiveGrows(c, s.w, w', t);
    AdditiveGenuine(c, s.w, w', t);
    ProgressKept(c, s, w');
    var got' := got.(handled := got.handled + {k}, pending := Idle);
    assert GotOk(c, s.phase.repos, s.phase.base, w', got');
    FillingKept(c, s, w', t, got');
  }

  lemma LoadTagKept(c: Plan, s: State, r: string, t: string)
    requires PlanOk(c) && Inv(c, s) && s.phase.Filling? && CanAdvance(c, s.w, s.phase.repos, s.phase.got, LoadTag(r, t))
    ensures var (w', got) := Copied(c, s.w, s.phase.got, LoadTag(r, t));
            w' == s.w && GotOk(c, s.phase.repos, s.phase.base, s.w, got)
  {
    hide Genuine, NamesOk, Snapshotted, Frozen, Grows, Read, ListedOk, VisitedOk, HandledOk;
    assert Read(OldRoots(c), s.w, Mani((r, t).0, s.phase.got.tags[(r, t)])).Some?;
  }

  lemma StoreTagBytesKept(c: Plan, s: State)
    requires PlanOk(c) && Inv(c, s) && s.phase.Filling? && CanAdvance(c, s.w, s.phase.repos, s.phase.got, StoreTagBytes)
    ensures Inv(c, Next(c, s, StoreTagBytes)) && Grows(s.w, Next(c, s, StoreTagBytes).w)
  {
    hide Genuine, NamesOk, Snapshotted, Frozen, Read, ListedOk, VisitedOk, HandledOk, StoreAt, Lookup, Additive,
         Grows, Hash;
    var got, t, p := s.phase.got, Target(c.dest), s.phase.got.pending;
    var d := got.tags[(p.repo, p.tag)];
    GenuineRead(c.e, c.truth, OldRoots(c), s.w, Mani(p.repo, d));
    assert Hash(c.e, Sha256, p.bytes) == d;
    var w' := StoreAt(c, s.w, Mani(p.repo, d), p.bytes);
    StoreAdds(c, s.w, Mani(p.repo, d), p.bytes);
    StoreKeepsNames(c, s.w, Mani(p.repo, d), p.bytes);
    AdditiveGrows(c, s.w, w', t);
    AdditiveGenuine(c, s.w, w', t);
    ProgressKept(c, s, w');
    var got' := got.(pending := TagHalf(p.repo, p.tag, d));
    assert GotOk(c, s.phase.repos, s.phase.base, w', got');
    FillingKept(c, s, w', t, got');
  }

  lemma StoreTagPointerKept(c: Plan, s: State)
    requires PlanOk(c) && Inv(c, s) && s.phase.Filling?
             && CanAdvance(c, s.w, s.phase.repos, s.phase.got, StoreTagPointer)
    ensures Inv(c, Next(c, s, StoreTagPointer)) && Grows(s.w, Next(c, s, StoreTagPointer).w)
  {
    hide Genuine, NamesOk, Snapshotted, Frozen, Read, ListedOk, VisitedOk, PointAt, Lookup, Additive, Grows;
    var got, t, p := s.phase.got, Target(c.dest), s.phase.got.pending;
    assert Read(OldRoots(c), s.w, Tagged((p.repo, p.tag).0, (p.repo, p.tag).1)).Some?;
    var w' := PointAt(c, s.w, p.repo, p.tag, p.digest);
    PointAdds(c, s.w, p.repo, p.tag, p.digest);
    PointKeepsNames(c, s.w, p.repo, p.tag, p.digest);
    AdditiveGrows(c, s.w, w', t);
    AdditiveGenuine(c, s.w, w', t);
    ProgressKept(c, s, w');
    var got' := got.(handled := got.handled + {Tagged(p.repo, p.tag)}, pending := Idle);
    assert GotOk(c, s.phase.repos, s.phase.base, w', got');
    FillingKept(c, s, w', t, got');
  }

  // ---- Draining ---------------------------------------------------------------------------

  lemma DrainKeepsNames(c: Plan, w: World, root: Root, k: Key)
    requires PlanOk(c) && NamesOk(c, w)
    ensures NamesOk(c, w[root := Remove(At(w, root), k)])
  {
    hide InClass, Listable, TmpName;
    NamesOkAfter(c, w, w[root := Remove(At(w, root), k)], root);
  }

  lemma DrainGenuine(c: Plan, w: World, root: Root, k: Key)
    requires Genuine(c.e, c.truth, w)
    ensures Genuine(c.e, c.truth, w[root := Remove(At(w, root), k)])
  {
    GenuineAt(c.e, c.truth, w, root);
    RemoveKeepsContentAddressed(c.e, At(w, root), k);
    assert GenuineVol(c.e, c.truth, Remove(At(w, root), k));
  }

  /** One step, whichever it is, keeps the invariant and misses nothing. */
  lemma StepKept(c: Plan, s: State, a: Action)
    requires PlanOk(c) && Inv(c, s) && Enabled(c, s, a) && Assumed(c, s, a)
    ensures Inv(c, Next(c, s, a)) && Kept(c, s, Next(c, s, a))
  {
    hide InClass, Stray, Lookup, Grows, Kept, GenuineVol, Frozen, GotOk, Snapshotted, NamesOk, Done, CanAdvance,
         Collected, Copied;
    var s' := Next(c, s, a);
    match a
    case PushBlob(_, _, _) => PushBlobKept(c, s, a); Additively(c, s, s');
    case PushManifest(_, _, _) => PushManifestKept(c, s, a); Additively(c, s, s');
    case Snapshot => SnapshotComplete(c, s.w); StayingPut(c, s, s');
    case Overlay => OverlayStarts(c, s); KeptByOverlay(c, s);
    case Collapse => KeptByCollapse(c, s);
    case Stop => StayingPut(c, s, s');
    case Purge(_, _, _) => DrainStepKept(c, s, a);
    case Sweep(_, _) => DrainStepKept(c, s, a);
    case _ => if Collects(a) { CollectStepKept(c, s, a); } else { CopyStepKept(c, s, a); }
  }

  lemma DrainStepKept(c: Plan, s: State, a: Action)
    requires PlanOk(c) && Inv(c, s) && Enabled(c, s, a) && Assumed(c, s, a) && (a.Purge? || a.Sweep?)
    ensures Inv(c, Next(c, s, a)) && Kept(c, s, Next(c, s, a))
  {
    hide InClass, Stray, Lookup, Grows, Kept, Genuine, Frozen, GotOk, Snapshotted, NamesOk;
    KeptByDrain(c, s, a);
    var k := if a.Purge? then a.key else Blob(a.digest);
    DrainGenuine(c, s.w, a.root, k);
    DrainKeepsNames(c, s.w, a.root, k);
  }

  lemma CollectStepKept(c: Plan, s: State, a: Action)
    requires PlanOk(c) && Inv(c, s) && Enabled(c, s, a) && Collects(a)
    ensures Inv(c, Next(c, s, a)) && Kept(c, s, Next(c, s, a))
  {
    hide Inv, Kept, CanAdvance, Collected, Copied;
    CollectKept(c, s, a);
    StayingPut(c, s, Next(c, s, a));
  }

  lemma CopyStepKept(c: Plan, s: State, a: Action)
    requires PlanOk(c) && Inv(c, s) && Enabled(c, s, a) && Copies(a)
    ensures Inv(c, Next(c, s, a)) && Kept(c, s, Next(c, s, a))
  {
    hide Inv, Kept, CanAdvance, Collected, Copied;
    CopyKept(c, s, a);
    Additively(c, s, Next(c, s, a));
  }

  lemma OverlayStarts(c: Plan, s: State)
    requires PlanOk(c) && Inv(c, s) && s.phase.Snapped?
    ensures Inv(c, Next(c, s, Overlay))
  {
  }

  lemma Additively(c: Plan, s: State, s': State)
    requires PlanOk(c) && Inv(c, s) && Inv(c, s') && Grows(s.w, s'.w) && RulesIn(c, s'.phase) == RulesIn(c, s.phase)
    ensures Kept(c, s, s')
  {
    InvGenuine(c, s');
    SamePhaseSameRoutes(c, s.phase, s'.phase);
    KeptByGrowth(c, s, s');
  }

  lemma StayingPut(c: Plan, s: State, s': State)
    requires PlanOk(c) && Inv(c, s) && s'.w == s.w && RulesIn(c, s'.phase) == RulesIn(c, s.phase)
    ensures Kept(c, s, s')
  {
    SamePhaseSameRoutes(c, s.phase, s'.phase);
    InvGenuine(c, s);
    KeptByGrowth(c, s, s');
  }

  // ---- Runs -------------------------------------------------------------------------------

  lemma KeptTwice(c: Plan, s: State, s': State, s'': State)
    requires PlanOk(c) && Kept(c, s, s') && Kept(c, s', s'')
    ensures Kept(c, s, s'')
  {
    hide Serve, Stray;
  }

  lemma {:induction false} RunKept(c: Plan, s: State, run: seq<Action>)
    requires PlanOk(c) && Inv(c, s) && ValidRun(c, s, run)
    ensures Inv(c, Exec(c, s, run)) && Kept(c, s, Exec(c, s, run))
    decreases |run|
  {
    hide Inv, Kept, Enabled, Assumed, Next;
    if run == [] {
      KeptSelf(c, s);
    } else {
      var s' := Next(c, s, run[0]);
      StepKept(c, s, run[0]);
      RunKept(c, s', run[1..]);
      KeptTwice(c, s, s', Exec(c, s', run[1..]));
    }
  }

  lemma KeptSelf(c: Plan, s: State)
    requires PlanOk(c)
    ensures Kept(c, s, s)
  {
  }

  lemma {:induction false} RunSplits(c: Plan, s: State, run: seq<Action>, i: nat)
    requires PlanOk(c) && ValidRun(c, s, run) && i <= |run|
    ensures ValidRun(c, s, run[..i]) && ValidRun(c, Exec(c, s, run[..i]), run[i..])
    ensures Exec(c, s, run) == Exec(c, Exec(c, s, run[..i]), run[i..])
    decreases i
  {
    hide Enabled, Assumed, Next;
    if i > 0 {
      var s' := Next(c, s, run[0]);
      RunSplits(c, s', run[1..], i - 1);
      assert run[..i][1..] == run[1..][..i - 1] && run[i..] == run[1..][i - 1..];
      assert run[..i][0] == run[0];
    } else {
      assert run[..0] == [] && run[0..] == run;
    }
  }

  /** Zero-miss over every run: whatever the interleaving of the migration, its drain and the clients'
      pushes, between any two moments of the run every manifest stays readable with the same bytes and
      every tag stays readable. */
  lemma ReadsNeverMiss(c: Plan, s: State, run: seq<Action>, i: nat, j: nat)
    requires PlanOk(c) && Inv(c, s) && ValidRun(c, s, run) && i <= j <= |run|
    ensures Kept(c, Exec(c, s, run[..i]), Exec(c, s, run[..j]))
  {
    hide Inv, Kept, ValidRun, Exec;
    RunSplits(c, s, run, j);
    assert run[..j][..i] == run[..i];
    RunSplits(c, s, run[..j], i);
    RunKept(c, s, run[..i]);
    RunKept(c, Exec(c, s, run[..i]), run[..j][i..]);
  }

  // ---- Across restarts --------------------------------------------------------------------

  /** A plan that takes up where a stopped one left off: the rules as they stand, the same pattern, and a
      destination on the same roots, opened afresh or not. */
  ghost predicate Follows(c: Plan, c': Plan)
    requires PlanOk(c) && PlanOk(c')
  {
    && c'.e == c.e && c'.truth == c.truth && c'.pattern == c.pattern
    && c'.rules == Upserted(c.rules, c.pattern, OverlayOf(c)) && NewRoots(c') == NewRoots(c)
  }

  lemma FollowerFacts(c: Plan, c': Plan, repo: string)
    requires PlanOk(c) && PlanOk(c') && Follows(c, c')
    ensures Old(c') == OverlayOf(c) && Slot(c') == Slot(c)
    ensures InClass(c', repo) <==> InClass(c, repo)
    ensures Stray(c', repo) <==> Stray(c, repo)
  {
    KeyStays(c.rules, c.pattern, OverlayOf(c));
    UpsertExistingFrame(c.rules, c.pattern, OverlayOf(c), repo);
  }

  lemma FollowedEnv(c: Plan, c': Plan)
    requires PlanOk(c) && PlanOk(c') && Follows(c, c')
    ensures c'.e == c.e && c'.truth == c.truth
  {
  }

  /** A stopped migration is a state a following plan can start from, and it serves the same there. */
  lemma StoppedIsReady(c: Plan, c': Plan, s: State)
    requires PlanOk(c) && PlanOk(c') && Follows(c, c') && Inv(c, s) && s.phase.Stopped?
    ensures Inv(c', State(s.w, Ready))
    ensures forall repo, k :: Serve(c', State(s.w, Ready), repo, k) == Serve(c, s, repo, k)
  {
    hide Genuine, InClass, Stray, Listable, TmpName;
    OverlayOrder(c);
    forall repo ensures InClass(c', repo) <==> InClass(c, repo) { FollowerFacts(c, c', repo); }
    FollowerFacts(c, c', "");
    assert OldRoots(c') == NewRoots(c) + OldRoots(c);
    forall root | root in OldRoots(c') || root in NewRoots(c') ensures NamesOkAt(c', At(s.w, root)) {
      assert NamesOkAt(c, At(s.w, root));
    }
  }

  datatype Attempt = Attempt(plan: Plan, run: seq<Action>)

  /** One migration after another: each but the last is stopped in its backfill and followed by the next. */
  ghost predicate Attempts(tries: seq<Attempt>, w: World)
    decreases |tries|
  {
    tries != [] ==>
      var c, end := tries[0].plan, State(w, Ready);
      && PlanOk(c) && ValidRun(c, end, tries[0].run)
      && (|tries| > 1 ==>
            && PlanOk(tries[1].plan) && Follows(c, tries[1].plan) && Exec(c, end, tries[0].run).phase.Stopped?
            && Attempts(tries[1..], Exec(c, end, tries[0].run).w))
  }

  function Ended(tries: seq<Attempt>, w: World): State
    requires tries != [] && Attempts(tries, w)
    decreases |tries|
  {
    var s := Exec(tries[0].plan, State(w, Ready), tries[0].run);
    if |tries| == 1 then s else Ended(tries[1..], s.w)
  }

  /** Whatever is served of a name when the first attempt starts is served when the last one ends. */
  ghost predicate KeptThroughout(c: Plan, w: World, c': Plan, s': State)
    requires PlanOk(c) && PlanOk(c')
  {
    forall k: Key :: !k.Blob? && !Stray(c, k.repo) && Serve(c, State(w, Ready), k.repo, k).Some? ==>
      Serve(c', s', k.repo, k).Some? && (k.Mani? ==> Serve(c', s', k.repo, k) == Serve(c, State(w, Ready), k.repo, k))
  }

  lemma LastPlanOk(tries: seq<Attempt>, w: World)
    requires tries != [] && Attempts(tries, w)
    ensures PlanOk(tries[0].plan) && PlanOk(tries[|tries| - 1].plan)
    decreases |tries|
  {
    if |tries| > 1 { LastPlanOk(tries[1..], Exec(tries[0].plan, State(w, Ready), tries[0].run).w); }
  }

  /** Zero-miss across restarts: through any number of attempts, each stopped anywhere in its backfill and
      taken up by the next, with clients pushing all the while, no manifest and no tag is missed. */
  lemma {:induction false} ReadsNeverMissAcrossRestarts(tries: seq<Attempt>, w: World)
    requires tries != [] && Attempts(tries, w) && PlanOk(tries[0].plan) && Inv(tries[0].plan, State(w, Ready))
    ensures PlanOk(tries[|tries| - 1].plan)
    ensures KeptThroughout(tries[0].plan, w, tries[|tries| - 1].plan, Ended(tries, w))
    decreases |tries|
  {
    hide Inv, ValidRun, Exec, Serve, Stray, InClass, Follows;
    LastPlanOk(tries, w);
    var c, s0 := tries[0].plan, State(w, Ready);
    var s := Exec(c, s0, tries[0].run);
    RunKept(c, s0, tries[0].run);
    if |tries| > 1 {
      var c', last := tries[1].plan, tries[|tries| - 1].plan;
      StoppedIsReady(c, c', s);
      ReadsNeverMissAcrossRestarts(tries[1..], s.w);
      forall repo ensures Stray(c', repo) <==> Stray(c, repo) { FollowerFacts(c, c', repo); }
      assert tries[1..][|tries| - 2].plan == last;
    }
  }
}
