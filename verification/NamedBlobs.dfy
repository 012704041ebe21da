/** Blobs that class manifests name, over runs of a live migration and across its restarts. */
module NamedBlobs {
  import opened Backends
  import opened Content
  import opened Draining
  import opened Merging
  import opened Migrating
  import opened MigrationTheorems
  import opened Protocol
  import opened Volumes
  import opened Walks
  import opened ZeroMiss

  /** From the moment the overlay is up, every blob that a class manifest on the old volume named and the
      old volume held then is served to the class. */
  ghost predicate NamedBlobsServed(c: Plan, s: State)
    requires PlanOk(c)
  {
    (s.phase.Filling? || s.phase.Stopped? || s.phase.Collapsed?) ==>
      forall r, d :: r in s.phase.repos && InClass(c, r) && d in RepoBlobs(c.e, OldRoots(c), s.phase.base, r)
                     && Read(OldRoots(c), s.phase.base, Blob(d)).Some? ==>
        Serve(c, s, r, Blob(d)) == Some(c.truth(d))
  }

  lemma ServedStaysByGrowth(c: Plan, s: State, s': State)
    requires PlanOk(c) && Inv(c, s) && Inv(c, s') && NamedBlobsServed(c, s) && Grows(s.w, s'.w)
    requires RulesIn(c, s'.phase) == RulesIn(c, s.phase)
    requires s'.phase.Ready? || s'.phase.Snapped?
             || (!s.phase.Ready? && !s.phase.Snapped? && s'.phase.base == s.phase.base
                 && s'.phase.repos == s.phase.repos)
    ensures NamedBlobsServed(c, s')
  {
    hide Inv, Grows, RepoBlobs, InClass, Read, Genuine;
    InvGenuine(c, s);
    InvGenuine(c, s');
    if !s'.phase.Ready? && !s'.phase.Snapped? {
      forall r, d | r in s'.phase.repos && InClass(c, r) && d in RepoBlobs(c.e, OldRoots(c), s'.phase.base, r)
                    && Read(OldRoots(c), s'.phase.base, Blob(d)).Some?
        ensures Serve(c, s', r, Blob(d)) == Some(c.truth(d))
      {
        GrowsPreserves(c.e, c.truth, ReadOrder(RouteIn(c, s.phase, r)), s.w, s'.w);
      }
    }
  }

  lemma ServedAtOverlay(c: Plan, s: State)
    requires PlanOk(c) && Inv(c, s) && s.phase.Snapped?
    ensures NamedBlobsServed(c, Next(c, s, Overlay))
  {
    hide Inv, RepoBlobs, InClass, Genuine;
    InvGenuine(c, s);
    var s' := Next(c, s, Overlay);
    forall r, d | r in s'.phase.repos && InClass(c, r) && Read(OldRoots(c), s.w, Blob(d)).Some?
      ensures Serve(c, s', r, Blob(d)) == Some(c.truth(d))
    {
      OverlayServesMerge(c, s', r, Blob(d));
      GenuineRead(c.e, c.truth, OldRoots(c), s.w, Blob(d));
      GenuineRead(c.e, c.truth, NewRoots(c), s.w, Blob(d));
    }
  }

  lemma ServedAtCollapse(c: Plan, s: State)
    requires PlanOk(c) && Inv(c, s) && Enabled(c, s, Collapse)
    ensures NamedBlobsServed(c, Next(c, s, Collapse))
  {
    hide Inv, Enabled, RepoBlobs, InClass, Genuine;
    InvGenuine(c, s);
    var s' := Next(c, s, Collapse);
    assert s.phase.Filling? by { CollapseFromFilling(c, s); }
    forall r, d | r in s.phase.repos && InClass(c, r) && d in RepoBlobs(c.e, OldRoots(c), s.phase.base, r)
                  && Read(OldRoots(c), s.phase.base, Blob(d)).Some?
      ensures Serve(c, s', r, Blob(d)) == Some(c.truth(d))
    {
      WantedIsRead(c, s, Blob(d));
      RouteDuring(c, s'.phase, r);
      GenuineRead(c.e, c.truth, NewRoots(c), s.w, Blob(d));
    }
  }

  lemma CollapseFromFilling(c: Plan, s: State)
    requires PlanOk(c) && Enabled(c, s, Collapse)
    ensures s.phase.Filling?
  {
  }

  lemma ServedThroughDrain(c: Plan, s: State, a: Action)
    requires PlanOk(c) && NamedBlobsServed(c, s) && Enabled(c, s, a) && Assumed(c, s, a) && (a.Purge? || a.Sweep?)
    ensures NamedBlobsServed(c, Next(c, s, a))
  {
    hide RepoBlobs, InClass, Genuine, Serve, Read;
    var s' := Next(c, s, a);
    assert s'.phase == s.phase && s.phase.Collapsed?;
    forall r, d | InClass(c, r) ensures Serve(c, s', r, Blob(d)) == Serve(c, s, r, Blob(d)) {
      DrainOfOld(c, s, a, r, d);
    }
  }

  lemma DrainOfOld(c: Plan, s: State, a: Action, r: string, d: Digest)
    requires PlanOk(c) && Enabled(c, s, a) && Assumed(c, s, a) && (a.Purge? || a.Sweep?) && InClass(c, r)
    ensures Serve(c, Next(c, s, a), r, Blob(d)) == Serve(c, s, r, Blob(d))
  {
    hide InClass, Read, Stray, Next, Enabled, Assumed;
    DrainAway(c, s, a);
    RouteDuring(c, s.phase, r);
    ReadDependsOnRoots(NewRoots(c), s.w, Next(c, s, a).w, Blob(d));
  }

  lemma DrainAway(c: Plan, s: State, a: Action)
    requires PlanOk(c) && Enabled(c, s, a) && Assumed(c, s, a) && (a.Purge? || a.Sweep?)
    ensures s.phase.Collapsed? && Next(c, s, a).phase == s.phase
    ensures forall root :: root in NewRoots(c) ==> At(Next(c, s, a).w, root) == At(s.w, root)
  {
    hide InClass, ReadOrder, Remove, Done, CanAdvance, Collected, Copied;
    forall root | root in NewRoots(c) ensures root in Roots(c.dest) { OrderIsRoots(c.dest, root); }
  }

  lemma StepServes(c: Plan, s: State, a: Action)
    requires PlanOk(c) && Inv(c, s) && NamedBlobsServed(c, s) && Enabled(c, s, a) && Assumed(c, s, a)
    ensures NamedBlobsServed(c, Next(c, s, a))
  {
    hide Inv, NamedBlobsServed, Grows, InClass, CanAdvance, Collected, Copied, Done;
    StepKept(c, s, a);
    var s' := Next(c, s, a);
    match a
    case PushBlob(_, _, _) => PushBlobKept(c, s, a); ServedStaysByGrowth(c, s, s');
    case PushManifest(_, _, _) => PushManifestKept(c, s, a); ServedStaysByGrowth(c, s, s');
    case Snapshot => SameWorldGrows(s, s'); ServedStaysByGrowth(c, s, s');
    case Overlay => ServedAtOverlay(c, s);
    case Collapse => ServedAtCollapse(c, s);
    case Stop => SameWorldGrows(s, s'); ServedStaysByGrowth(c, s, s');
    case Purge(_, _, _) => ServedThroughDrain(c, s, a);
    case Sweep(_, _) => ServedThroughDrain(c, s, a);
    case _ =>
      if Collects(a) { SameWorldGrows(s, s'); } else { CopyKept(c, s, a); }
      ServedStaysByGrowth(c, s, s');
  }

  lemma SameWorldGrows(s: State, s': State)
    requires s'.w == s.w
    ensures Grows(s.w, s'.w)
  {
  }

  /** Over every run the blobs named when the overlay went up stay readable, through collapse and drain. */
  lemma {:induction false} NamedBlobsNeverMiss(c: Plan, s: State, run: seq<Action>)
    requires PlanOk(c) && Inv(c, s) && NamedBlobsServed(c, s) && ValidRun(c, s, run)
    ensures NamedBlobsServed(c, Exec(c, s, run))
    decreases |run|
  {
    hide Inv, NamedBlobsServed, Enabled, Assumed, Next;
    if run != [] {
      StepServes(c, s, run[0]);
      StepKept(c, s, run[0]);
      NamedBlobsNeverMiss(c, Next(c, s, run[0]), run[1..]);
    }
  }

  // ---- Blobs across restarts ----------------------------------------------------------------

  /** A class manifest and a blob it names are served; once an overlay is up, they are among what the copy
      has to move. */
  ghost predicate Tracked(c: Plan, s: State, repo: string, x: Digest, d: Digest)
    requires PlanOk(c)
  {
    && InClass(c, repo) && d in BlobsNamed(c.e, c.truth(x))
    && Serve(c, s, repo, Mani(repo, x)) == Some(c.truth(x)) && Serve(c, s, repo, Blob(d)) == Some(c.truth(d))
    && (s.phase.Filling? || s.phase.Stopped? || s.phase.Collapsed? ==> ToMove(c, s.phase.repos, s.phase.base, repo, d))
  }

  ghost predicate ToMove(c: Plan, repos: set<string>, base: World, repo: string, d: Digest)
    requires PlanOk(c)
  {
    repo in repos && d in RepoBlobs(c.e, OldRoots(c), base, repo) && Read(OldRoots(c), base, Blob(d)).Some?
  }

  lemma ClassIsNotStray(c: Plan, repo: string)
    requires PlanOk(c)
    ensures InClass(c, repo) ==> !Stray(c, repo)
  {
  }

  /** When the overlay goes up, what is served of the class is what there is to move. */
  lemma ServedIsToMove(c: Plan, s: State, repo: string, x: Digest, d: Digest)
    requires PlanOk(c) && Inv(c, s) && s.phase.Snapped? && Tracked(c, s, repo, x, d)
    ensures ToMove(c, s.phase.repos, s.w, repo, d)
  {
    hide Genuine, NamesOk, InClass, BlobsNamed, GraphOf;
    RouteDuring(c, s.phase, repo);
    ReadFinds(OldRoots(c), s.w, Mani(repo, x));
    var root :| root in OldRoots(c) && Lookup(At(s.w, root), Mani(repo, x)).Some?;
    GenuineAt(c.e, c.truth, s.w, root);
    assert (repo, x).0 in At(s.w, root).dirs;
    GraphReads(OldRoots(c), s.w, repo, x);
  }

  lemma StepTracks(c: Plan, s: State, a: Action, repo: string, x: Digest, d: Digest)
    requires PlanOk(c) && Inv(c, s) && NamedBlobsServed(c, s) && Enabled(c, s, a) && Assumed(c, s, a)
    requires Tracked(c, s, repo, x, d)
    ensures Tracked(c, Next(c, s, a), repo, x, d)
  {
    hide Inv, InClass, Stray, ToMove, Enabled, Assumed, Next, Serve, BlobsNamed, NamedBlobsServed;
    var s' := Next(c, s, a);
    ClassIsNotStray(c, repo);
    StepKept(c, s, a);
    StepServes(c, s, a);
    if s'.phase.Ready? || s'.phase.Snapped? {
      EarlyTracks(c, s, a, repo, x, d);
    } else {
      if s.phase.Ready? || s.phase.Snapped? {
        OnlyOverlayLeaves(c, s, a);
        ServedIsToMove(c, s, repo, x, d);
      } else {
        SameMove(c, s, a);
      }
      MovedIsServed(c, s', repo, d);
    }
  }

  lemma MovedIsServed(c: Plan, s: State, repo: string, d: Digest)
    requires PlanOk(c) && NamedBlobsServed(c, s) && InClass(c, repo) && !s.phase.Ready? && !s.phase.Snapped?
    requires ToMove(c, s.phase.repos, s.phase.base, repo, d)
    ensures Serve(c, s, repo, Blob(d)) == Some(c.truth(d))
  {
    hide InClass, Serve, RepoBlobs, Read;
  }

  /** Before the overlay only pushes and the listing happen. */
  lemma OnlyOverlayLeaves(c: Plan, s: State, a: Action)
    requires PlanOk(c) && Enabled(c, s, a) && (s.phase.Ready? || s.phase.Snapped?)
    requires !Next(c, s, a).phase.Ready? && !Next(c, s, a).phase.Snapped?
    ensures s.phase.Snapped? && Next(c, s, a).phase == Filling(s.phase.repos, s.w, NO_PROGRESS)
  {
    hide Done, CanAdvance, Collected, Copied;
  }

  lemma SameMove(c: Plan, s: State, a: Action)
    requires PlanOk(c) && Enabled(c, s, a) && !s.phase.Ready? && !s.phase.Snapped?
    ensures var s' := Next(c, s, a);
            !s'.phase.Ready? && !s'.phase.Snapped? && s'.phase.repos == s.phase.repos && s'.phase.base == s.phase.base
  {
    hide Done, CanAdvance, Collected, Copied;
  }

  lemma EarlyTracks(c: Plan, s: State, a: Action, repo: string, x: Digest, d: Digest)
    requires PlanOk(c) && Inv(c, s) && Enabled(c, s, a) && Assumed(c, s, a) && Tracked(c, s, repo, x, d)
    requires Next(c, s, a).phase.Ready? || Next(c, s, a).phase.Snapped?
    requires Inv(c, Next(c, s, a))
    ensures Tracked(c, Next(c, s, a), repo, x, d)
  {
    hide Inv, InClass, ToMove, Assumed, BlobsNamed, Genuine, Read, Grows;
    var s' := Next(c, s, a);
    InvGenuine(c, s);
    InvGenuine(c, s');
    EarlyGrows(c, s, a);
    hide Next, Enabled;
    SamePhaseRoute(c, s.phase, s'.phase, repo);
    GrowsPreserves(c.e, c.truth, ReadOrder(RouteIn(c, s.phase, repo)), s.w, s'.w);
  }

  lemma EarlyGrows(c: Plan, s: State, a: Action)
    requires PlanOk(c) && Inv(c, s) && Enabled(c, s, a) && Assumed(c, s, a)
    requires Next(c, s, a).phase.Ready? || Next(c, s, a).phase.Snapped?
    ensures Grows(s.w, Next(c, s, a).w) && (s.phase.Ready? || s.phase.Snapped?)
  {
    hide Inv, Assumed, Grows, Collected, Copied, CanAdvance, Done;
    var s' := Next(c, s, a);
    if a.PushBlob? {
      PushBlobKept(c, s, a);
    } else if a.PushManifest? {
      PushManifestKept(c, s, a);
    } else {
      SameWorldGrows(s, s');
    }
  }

  lemma SamePhaseRoute(c: Plan, p: Phase, p': Phase, repo: string)
    requires PlanOk(c) && (p.Ready? || p.Snapped?) && (p'.Ready? || p'.Snapped?)
    ensures RouteIn(c, p', repo) == RouteIn(c, p, repo)
  {
  }

  lemma {:induction false} RunTracks(c: Plan, s: State, run: seq<Action>, repo: string, x: Digest, d: Digest)
    requires PlanOk(c) && Inv(c, s) && NamedBlobsServed(c, s) && ValidRun(c, s, run) && Tracked(c, s, repo, x, d)
    ensures Tracked(c, Exec(c, s, run), repo, x, d)
    decreases |run|
  {
    hide Inv, NamedBlobsServed, Enabled, Assumed, Next, Tracked;
    if run != [] {
      StepServes(c, s, run[0]);
      StepKept(c, s, run[0]);
      StepTracks(c, s, run[0], repo, x, d);
      RunTracks(c, Next(c, s, run[0]), run[1..], repo, x, d);
    }
  }

  /** A stopped plan's successor starts with the same in view. */
  lemma TrackedByFollower(c: Plan, c': Plan, s: State, repo: string, x: Digest, d: Digest)
    requires PlanOk(c) && PlanOk(c') && Follows(c, c') && Inv(c, s) && s.phase.Stopped? && Tracked(c, s, repo, x, d)
    ensures Inv(c', State(s.w, Ready)) && Tracked(c', State(s.w, Ready), repo, x, d)
  {
    hide Inv, InClass, Stray, Serve, BlobsNamed, ToMove;
    StoppedIsReady(c, c', s);
    FollowerFacts(c, c', repo);
    FollowedEnv(c, c');
  }

  /** Named blobs across restarts: a blob that a class manifest names, both served when the first attempt
      starts, is served with the same bytes when the last one ends, through any number of attempts, each
      stopped anywhere and taken up by the next, collapse and drain of the last included. */
  lemma {:induction false} NamedBlobsNeverMissAcrossRestarts(tries: seq<Attempt>, w: World, repo: string, x: Digest,
                                                             d: Digest)
    requires tries != [] && Attempts(tries, w) && PlanOk(tries[0].plan) && Inv(tries[0].plan, State(w, Ready))
    requires Tracked(tries[0].plan, State(w, Ready), repo, x, d)
    ensures PlanOk(tries[|tries| - 1].plan)
    ensures Serve(tries[|tries| - 1].plan, Ended(tries, w), repo, Blob(d)) == Some(tries[0].plan.truth(d))
    decreases |tries|
  {
    hide Inv, ValidRun, Exec, Serve, Stray, InClass, Follows, ToMove, BlobsNamed;
    LastPlanOk(tries, w);
    var c, s0 := tries[0].plan, State(w, Ready);
    var s := Exec(c, s0, tries[0].run);
    RunKept(c, s0, tries[0].run);
    RunTracks(c, s0, tries[0].run, repo, x, d);
    if |tries| > 1 {
      var c' := tries[1].plan;
      TrackedByFollower(c, c', s, repo, x, d);
      FollowedEnv(c, c');
      NamedBlobsNeverMissAcrossRestarts(tries[1..], s.w, repo, x, d);
      assert tries[1..][|tries| - 2].plan == tries[|tries| - 1].plan;
    }
  }
}
