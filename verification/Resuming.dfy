/** Restarting a stopped migration as the operator does it: the same pattern and destination again, the
    overlay left behind taking the place of the old volume. */
module Resuming {
  import opened Content
  import opened Volumes
  import opened Backends
  import opened Routing
  import opened Walks
  import opened Copying
  import opened Migrating
  import opened Backfilling
  import opened Protocol
  import opened Restartability
  import opened Restarting
  import opened ZeroMiss
  import Glob

  // ---- The plans --------------------------------------------------------------------------

  /** Onto one directory, as every caller of the source opens it, with a newly made overlay. */
  predicate OntoRoot(c: Plan, t: Root)
    requires PlanOk(c)
  {
    c.dest.Fs? && c.dest.root == t && forall i :: 0 <= i < |c.rules| ==> c.rules[i].backend != OverlayOf(c)
  }

  /** A migration and its restarts. */
  ghost predicate Chain(ps: seq<Plan>, t: Root) {
    && ps != [] && (forall i :: 0 <= i < |ps| ==> PlanOk(ps[i]) && OntoRoot(ps[i], t))
    && forall i {:trigger ps[i + 1]} :: 0 <= i < |ps| - 1 ==> Follows(ps[i], ps[i + 1])
  }

  /** The class repositories listed on the old volume or the destination: what a restart selects. */
  ghost function Selected(c: Plan, t: Root, w: World): set<string>
    requires PlanOk(c)
  {
    set r | r in NamesIn({t} + Elements(OldRoots(c)), w, Repos) && InClass(c, r)
  }

  ghost function JobOf(c: Plan, t: Root, w: World): Job
    requires PlanOk(c)
  {
    Job(c.e, c.truth, OldRoots(c), t, w, ToMigrate(c, w), Selected(c, t, w))
  }

  /** The destination is not part of the old volume, every selected repository is won by the migrated rule,
      and the first run is not refused. */
  ghost predicate Startable(c: Plan, t: Root, w: World)
    requires PlanOk(c)
  {
    && Genuine(c.e, c.truth, w) && t !in OldRoots(c) && OntoRoot(c, t)
    && forall r :: r in ToMigrate(c, w) ==> InClass(c, r) && !Dangling(OldRoots(c), w, r)
  }

  /** Some backfill of this plan leads from `w` to `w'`; to its end if `full`. */
  ghost predicate Ran(c: Plan, w: World, w': World, full: bool)
    requires PlanOk(c)
  {
    exists b, m, g ::
      ClassCopied(c.e, c.truth, OldRoots(c), NewRoots(c), w, w', Target(c.dest), ToMigrate(c, w), b, m, g, full)
  }

  lemma RouteIsSomeRule(rules: seq<Rule>, r: string)
    requires rules != []
    ensures exists i :: 0 <= i < |rules| && rules[i].backend == Route(rules, r)
  {
    var best := Best(rules, r, |rules|);
    var i := if best.Some? then best.value else |rules| - 1;
    assert rules[i].backend == Route(rules, r);
  }

  /** Listing anew, a restart selects exactly the repositories the migrated rule wins that are listed on
      either volume. */
  lemma SelectedByRestart(c: Plan, c': Plan, t: Root, w: World, r: string)
    requires PlanOk(c) && PlanOk(c') && OntoRoot(c, t) && Follows(c, c')
    ensures r in ToMigrate(c', w) <==> r in Selected(c, t, w)
  {
    hide Glob.Matches, NamesIn, InClass, Stray;
    FollowerFacts(c, c', r);
    OverlayOrder(c);
    RouteDuring(c, Stopped({}, w), r);
    RouteIsSomeRule(c.rules, r);
    assert Elements(NewRoots(c) + OldRoots(c)) == {t} + Elements(OldRoots(c));
    StrayIsUnmatched(c, r);
  }

  lemma StrayIsUnmatched(c: Plan, r: string)
    requires PlanOk(c)
    ensures Stray(c, r) ==> !Glob.Matches(c.pattern, r)
  {
    assert c.rules[Slot(c)].pattern == c.pattern;
  }

  // ---- The job ----------------------------------------------------------------------------

  lemma {:induction false} ChainFacts(ps: seq<Plan>, t: Root, w: World, i: nat)
    requires Chain(ps, t) && i < |ps|
    ensures OldRoots(ps[i]) == Stacked(JobOf(ps[0], t, w), i) && NewRoots(ps[i]) == [t]
    ensures ps[i].e == ps[0].e && ps[i].truth == ps[0].truth
    ensures forall r :: InClass(ps[i], r) <==> InClass(ps[0], r)
  {
    hide InClass, ToMigrate, Selected;
    SingleRoot(ps[i].dest);
    if i > 0 {
      var n := i - 1;
      var c, c' := ps[n], ps[n + 1];
      ChainFacts(ps, t, w, n);
      assert Follows(c, c');
      OverlayOrder(c);
      forall r ensures InClass(c', r) <==> InClass(c, r) { FollowerFacts(c, c', r); }
      FollowerFacts(c, c', "");
    }
  }

  lemma StartableIsJobOk(c: Plan, t: Root, w: World)
    requires PlanOk(c) && Startable(c, t, w)
    ensures JobOk(JobOf(c, t, w))
  {
    hide Genuine, GraphOf, ListedTags, Dangling, Glob.Matches, InClass, OntoRoot;
    forall r | r in ToMigrate(c, w) ensures r in Selected(c, t, w) {
      var root :| root in Roots(Old(c)) && r in Names(At(w, root), Repos);
      assert root in {t} + Elements(OldRoots(c));
    }
    forall r | r in Selected(c, t, w) && r !in ToMigrate(c, w)
      ensures GraphOf(OldRoots(c), w, r) == map[] && ListedTags(OldRoots(c), w, r) == {}
    {
      LateRepoIsEmpty(c, t, w, r);
    }
  }

  lemma LateRepoIsEmpty(c: Plan, t: Root, w: World, r: string)
    requires PlanOk(c) && Genuine(c.e, c.truth, w) && r in Selected(c, t, w) && r !in ToMigrate(c, w)
    ensures GraphOf(OldRoots(c), w, r) == map[] && ListedTags(OldRoots(c), w, r) == {}
  {
    hide Genuine, GraphOf, ListedTags, Glob.Matches, InClass;
    RouteDuring(c, Ready, r);
    assert Listable(r);
    forall root | root in OldRoots(c) ensures r !in At(w, root).dirs {
      assert root in Roots(Old(c));
      assert r in At(w, root).dirs ==> r in Names(At(w, root), Repos);
    }
    AbsentRepoIsEmpty(c.e, c.truth, OldRoots(c), w, r);
  }

  lemma AbsentRepoIsEmpty(e: Env, truth: Digest -> Bytes, o: seq<Root>, w: World, r: string)
    requires Genuine(e, truth, w) && forall root :: root in o ==> r !in At(w, root).dirs
    ensures GraphOf(o, w, r) == map[] && ListedTags(o, w, r) == {}
  {
    forall root | root in o
      ensures forall d :: Lookup(At(w, root), Mani(r, d)).None?
      ensures Names(At(w, root), Tags(r)) == {}
    {
      GenuineAt(e, truth, w, root);
      assert forall d :: (r, d) in At(w, root).manifests ==> (r, d).0 in At(w, root).dirs;
      assert forall p :: p in At(w, root).tags ==> p.0 in At(w, root).dirs;
    }
    forall d ensures d !in GraphOf(o, w, r) {
      GraphReads(o, w, r, d);
      ReadFinds(o, w, Mani(r, d));
    }
  }

  // ---- Every restart selects the same -------------------------------------------------------

  /** Copying creates no repository that neither volume lists. */
  lemma SelectionStays(c: Plan, t: Root, w: World, w': World)
    requires PlanOk(c) && Startable(c, t, w) && Between(JobOf(c, t, w), w')
    ensures Selected(c, t, w') == Selected(c, t, w)
  {
    hide Startable, Between, InClass, Names;
    var o := {t} + Elements(OldRoots(c));
    forall r ensures r in NamesIn(o, w', Repos) <==> r in NamesIn(o, w, Repos) { ListedStays(c, t, w, w', r); }
  }

  lemma ListedStays(c: Plan, t: Root, w: World, w': World, r: string)
    requires PlanOk(c) && Startable(c, t, w) && Between(JobOf(c, t, w), w')
    ensures var o := {t} + Elements(OldRoots(c)); r in NamesIn(o, w', Repos) <==> r in NamesIn(o, w, Repos)
  {
    hide Genuine, InClass, Dangling, OldBlobs, OldManis, OldTags, TagsBetween, OntoRoot, ToMigrate, Listable;
    var o := {t} + Elements(OldRoots(c));
    assert t in o;
    if r in NamesIn(o, w, Repos) {
      var root :| root in o && r in Names(At(w, root), Repos);
      assert r in Names(At(w', root), Repos);
    }
    if r in NamesIn(o, w', Repos) {
      var root :| root in o && r in Names(At(w', root), Repos);
      if root == t && r !in At(w, t).dirs {
        var source := OldManiRoot(c, t, w, r);
        assert source in o && r in Names(At(w, source), Repos);
      } else {
        assert r in Names(At(w, root), Repos);
      }
    }
  }

  lemma OldManiRoot(c: Plan, t: Root, w: World, r: string) returns (root: Root)
    requires PlanOk(c) && Genuine(c.e, c.truth, w) && r in Firsts(OldManis(JobOf(c, t, w)))
    ensures root in OldRoots(c) && r in At(w, root).dirs
  {
    hide Genuine, ToMigrate, Selected, GraphOf;
    var p :| p in OldManis(JobOf(c, t, w)) && p.0 == r;
    GraphReads(OldRoots(c), w, p.0, p.1);
    ReadFinds(OldRoots(c), w, Mani(p.0, p.1));
    root :| root in OldRoots(c) && Lookup(At(w, root), Mani(p.0, p.1)).Some?;
    GenuineAt(c.e, c.truth, w, root);
    assert (p.0, p.1).0 in At(w, root).dirs;
  }

  /** So an attempt of a plan of the chain is an attempt at the job. */
  lemma RanIsAttempt(ps: seq<Plan>, t: Root, w: World, i: nat, from: World, to: World, full: bool)
    requires Chain(ps, t) && i < |ps| && Startable(ps[0], t, w)
    requires if i == 0 then from == w else Between(JobOf(ps[0], t, w), from)
    ensures Ran(ps[i], from, to, full) <==> AttemptEnds(JobOf(ps[0], t, w), i, from, to, full)
  {
    hide ClassCopied, Startable, Between, ToMigrate, InClass, Follows;
    var j := JobOf(ps[0], t, w);
    ChainFacts(ps, t, w, i);
    assert ToMigrate(ps[i], from) == ReposAt(j, i) by {
      if i > 0 {
        var n := i - 1;
        var c, c' := ps[n], ps[n + 1];
        assert Follows(c, c');
        SelectionStays(ps[0], t, w, from);
        ChainFacts(ps, t, w, n);
        StackedRoots(ps, t, w, n, from);
        forall r ensures r in ToMigrate(c', from) <==> r in Selected(c, t, from) {
          SelectedByRestart(c, c', t, from, r);
        }
      }
    }
    assert Target(ps[i].dest) == t;
    forall b, m, g
      ensures ClassCopied(ps[i].e, ps[i].truth, OldRoots(ps[i]), NewRoots(ps[i]), from, to, Target(ps[i].dest),
                          ToMigrate(ps[i], from), b, m, g, full)
              <==> AttemptCopied(j, i, from, to, b, m, g, full)
    {
    }
  }

  lemma StackedRoots(ps: seq<Plan>, t: Root, w: World, i: nat, from: World)
    requires Chain(ps, t) && i < |ps|
    ensures Selected(ps[i], t, from) == Selected(ps[0], t, from)
  {
    hide InClass, NamesIn;
    var j := JobOf(ps[0], t, w);
    ChainFacts(ps, t, w, i);
    if i > 0 { StackedReads(j, i, from, Blob(Digest(Sha256, ""))); }
    assert {t} + Elements(OldRoots(ps[i])) == {t} + Elements(OldRoots(ps[0]));
  }

  // ---- The theorems -----------------------------------------------------------------------

  /** The worlds after the stops. */
  ghost predicate Stopping(ps: seq<Plan>, ws: seq<World>, t: Root) {
    && Chain(ps, t) && |ws| == |ps|
    && forall i {:trigger ws[i + 1]} :: 0 <= i < |ws| - 1 ==> Ran(ps[i], ws[i], ws[i + 1], false)
  }

  lemma {:induction false} ChainStops(ps: seq<Plan>, ws: seq<World>, t: Root, n: nat)
    requires Stopping(ps, ws, t) && n < |ws| && Startable(ps[0], t, ws[0]) && Harmless(JobOf(ps[0], t, ws[0]))
    ensures Stops(JobOf(ps[0], t, ws[0]), ws[..n + 1]) && Between(JobOf(ps[0], t, ws[0]), ws[n])
  {
    hide OntoRoot, Follows, Startable, Harmless, Between, Ran, AttemptEnds, JobOk, ToMigrate, Selected;
    var j := JobOf(ps[0], t, ws[0]);
    StartableIsJobOk(ps[0], t, ws[0]);
    if n > 0 {
      var m := n - 1;
      ChainStops(ps, ws, t, m);
      assert Ran(ps[m], ws[m], ws[m + 1], false);
      RanIsAttempt(ps, t, ws[0], m, ws[m], ws[n], false);
      assert forall i :: 0 <= i < n ==> ws[..n][i] == ws[i];
    }
    StopsStayBetween(j, ws[..n + 1]);
  }

  /** Failure and restart: a migration that stopped any number of times, each time anywhere in its backfill,
      and is run again without drain on whatever its listing then selects, leaves every root as one
      uninterrupted run would, provided the destination held nothing harmful at the start. */
  lemma ResumedMigrationEndsTheSame(ps: seq<Plan>, ws: seq<World>, t: Root, w2: World, w1: World, root: Root)
    requires Stopping(ps, ws, t) && |ws| > 1 && Startable(ps[0], t, ws[0]) && Harmless(JobOf(ps[0], t, ws[0]))
    requires Ran(ps[|ps| - 1], ws[|ws| - 1], w2, true) && Ran(ps[0], ws[0], w1, true)
    ensures At(w2, root) == At(w1, root)
  {
    hide OntoRoot, Follows, Startable, Harmless, Between, Ran, AttemptEnds, JobOk, ToMigrate, Selected, Stops;
    var n := |ws| - 1;
    StartableIsJobOk(ps[0], t, ws[0]);
    ChainStops(ps, ws, t, n);
    RanIsAttempt(ps, t, ws[0], n, ws[n], w2, true);
    RanIsAttempt(ps, t, ws[0], 0, ws[0], w1, true);
    assert ws[..n + 1] == ws;
    RestartReachesTheSameVolume(JobOf(ps[0], t, ws[0]), ws, w2, w1, root);
  }

  /** The first run, taking its repositories in this order, stops inside the `i`-th. */
  ghost predicate StopsIn(c: Plan, order: seq<string>, i: nat, w: World, wp: World)
    requires PlanOk(c)
  {
    i < |order|
      && StoppedIn(c.e, c.truth, OldRoots(c), NewRoots(c), w, wp, Target(c.dest), Elements(order[..i]), order[i])
  }

  /** However the first run stops, the second is not refused and ends where one run would have. */
  ghost predicate Resumable(c: Plan, c': Plan, w: World, order: seq<string>)
    requires PlanOk(c) && PlanOk(c')
  {
    forall i: nat, wp :: StopsIn(c, order, i, w, wp) ==>
      && (forall r :: r in ToMigrate(c', wp) ==> !Dangling(OldRoots(c'), wp, r))
      && (forall w2, w1, root :: Ran(c', wp, w2, true) && Ran(c, w, w1, true) ==> At(w2, root) == At(w1, root))
  }

  lemma StopsInIsInside(c: Plan, order: seq<string>, t: Root, i: nat, w: World, wp: World)
    requires PlanOk(c) && OntoRoot(c, t)
    ensures StopsIn(c, order, i, w, wp) <==> StopsInside(JobOf(c, t, w), order, i, wp)
  {
    hide StoppedIn;
    SingleRoot(c.dest);
  }

  /** Exactly when that is so. */
  lemma ResumableIff(c: Plan, c': Plan, t: Root, w: World, order: seq<string>)
    requires PlanOk(c) && PlanOk(c') && Startable(c, t, w) && OntoRoot(c', t) && Follows(c, c')
    requires Ordered(order, ToMigrate(c, w))
    ensures Resumable(c, c', w, order) <==> order == [] || Harmless(JobOf(c, t, w))
  {
    hide Startable, Harmless, JobOk, Restartable, Resumable, ToMigrate, Selected, Ordered;
    StartableIsJobOk(c, t, w);
    RestartableIff(JobOf(c, t, w), order);
    if order == [] { NoStopsIn(c, c', w); }
    if Harmless(JobOf(c, t, w)) { HarmlessIsResumable(c, c', t, w, order); }
    if Resumable(c, c', w, order) { ResumableIsRestartable(c, c', t, w, order); }
  }

  lemma NoStopsIn(c: Plan, c': Plan, w: World)
    requires PlanOk(c) && PlanOk(c')
    ensures Resumable(c, c', w, [])
  {
    hide Ran, ToMigrate, Dangling;
  }

  lemma HarmlessIsResumable(c: Plan, c': Plan, t: Root, w: World, order: seq<string>)
    requires PlanOk(c) && PlanOk(c') && Startable(c, t, w) && OntoRoot(c', t) && Follows(c, c')
             && Harmless(JobOf(c, t, w))
    requires Ordered(order, ToMigrate(c, w))
    ensures Resumable(c, c', w, order)
  {
    hide Genuine, Harmless, JobOk, Ran, Dangling, Follows, AttemptEnds, Between, OntoRoot, StopsIn, Ordered;
    var j := JobOf(c, t, w);
    StartableIsJobOk(c, t, w);
    var ps := [c, c'];
    TwoAreChain(c, c', t);
    forall i: nat, wp | StopsIn(c, order, i, w, wp)
      ensures forall r :: r in ToMigrate(c', wp) ==> !Dangling(OldRoots(c'), wp, r)
      ensures forall w2, w1, root :: Ran(c', wp, w2, true) && Ran(c, w, w1, true) ==> At(w2, root) == At(w1, root)
    {
      StopsInIsInside(c, order, t, i, w, wp);
      StopInsideIsStop(j, order, i, wp);
      FirstStopIsBetween(j, wp);
      RanIsAttempt(ps, t, w, 0, w, wp, false);
      SelectedNow(c, c', t, w, wp);
      forall r | r in ToMigrate(c', wp) ensures !Dangling(OldRoots(c'), wp, r) { NothingDangles(j, wp, r); }
      forall w2, w1, root | Ran(c', wp, w2, true) && Ran(c, w, w1, true) ensures At(w2, root) == At(w1, root) {
        assert Stopping(ps, [w, wp], t);
        ResumedMigrationEndsTheSame(ps, [w, wp], t, w2, w1, root);
      }
    }
  }

  lemma TwoAreChain(c: Plan, c': Plan, t: Root)
    requires PlanOk(c) && PlanOk(c') && OntoRoot(c, t) && OntoRoot(c', t) && Follows(c, c')
    ensures Chain([c, c'], t)
  {
    hide OntoRoot, Follows;
  }

  lemma SelectedNow(c: Plan, c': Plan, t: Root, w: World, wp: World)
    requires PlanOk(c) && PlanOk(c') && Startable(c, t, w) && Follows(c, c') && Between(JobOf(c, t, w), wp)
    ensures ToMigrate(c', wp) == JobOf(c, t, w).all && OldRoots(c') == [t] + OldRoots(c)
  {
    hide Between, ToMigrate, Selected, Follows, Genuine, InClass, Dangling;
    SelectionStays(c, t, w, wp);
    forall r ensures r in ToMigrate(c', wp) <==> r in Selected(c, t, wp) { SelectedByRestart(c, c', t, wp, r); }
    FollowerFacts(c, c', "");
    OverlayOrder(c);
    SingleRoot(c.dest);
  }

  lemma ResumableIsRestartable(c: Plan, c': Plan, t: Root, w: World, order: seq<string>)
    requires PlanOk(c) && PlanOk(c') && Startable(c, t, w) && OntoRoot(c', t) && Follows(c, c')
    requires Ordered(order, ToMigrate(c, w)) && Resumable(c, c', w, order)
    ensures Restartable(JobOf(c, t, w), order)
  {
    hide Genuine, JobOk, Ran, Dangling, Follows, AttemptEnds, Between, OntoRoot, Goal, StopsIn, StopsInside, Ordered;
    var j := JobOf(c, t, w);
    StartableIsJobOk(c, t, w);
    TwoAreChain(c, c', t);
    forall i: nat, wp | StopsInside(j, order, i, wp) ensures RestartsWell(j, wp) {
      StopsInIsInside(c, order, t, i, w, wp);
      StopInsideIsStop(j, order, i, wp);
      FirstStopIsBetween(j, wp);
      SelectedNow(c, c', t, w, wp);
      forall w2 | AttemptEnds(j, 1, wp, w2, true) ensures Goal(j, At(w2, j.t)) {
        RanIsAttempt([c, c'], t, w, 1, wp, w2, true);
        var w1 := UninterruptedExists(j);
        RanIsAttempt([c, c'], t, w, 0, w, w1, true);
        assert At(w2, t) == At(w1, t);
      }
    }
  }

  lemma UninterruptedExists(j: Job) returns (w1: World)
    requires JobOk(j)
    ensures AttemptEnds(j, 0, j.w, w1, true) && Goal(j, At(w1, j.t))
  {
    hide JobOk, ClassCopied, Goal;
    StartIsBetween(j);
    BetweenGenuine(j, j.w);
    var b, m, g;
    w1, b, m, g := CopyExists(j.e, j.truth, j.os, j.t, j.w, j.repos);
    assert AttemptCopied(j, 0, j.w, w1, b, m, g, true);
    UninterruptedReachesGoal(j, w1, b, m, g);
  }

  /** The two ends a rival tag can come to: its own value after a stop inside its repository and a restart, the
      value of the old volume after one run. */
  lemma RivalEndsTwoWays(c: Plan, c': Plan, t: Root, w: World, order: seq<string>, p: (string, string))
    returns (i: nat, wp: World, w2: World, w1: World)
    requires PlanOk(c) && PlanOk(c') && Startable(c, t, w) && OntoRoot(c', t) && Follows(c, c')
    requires Ordered(order, ToMigrate(c, w))
    requires var j := JobOf(c, t, w);
             && p in OldTags(j) && p in At(w, t).tags && At(w, t).tags[p] != OldTags(j)[p]
             && ((p.0, At(w, t).tags[p]) in At(w, t).manifests || (p.0, At(w, t).tags[p]) in OldManis(j))
    ensures StopsIn(c, order, i, w, wp) && Ran(c', wp, w2, true) && Ran(c, w, w1, true)
    ensures p in At(w2, t).tags && At(w2, t).tags[p] == At(w, t).tags[p]
    ensures p in At(w1, t).tags && At(w1, t).tags[p] == OldTags(JobOf(c, t, w))[p]
  {
    hide Genuine, JobOk, Ran, Dangling, Follows, AttemptEnds, Between, OntoRoot, ClassCopied, OldTags, OldManis,
         StopsIn,
         StopsInside, Ordered;
    var j := JobOf(c, t, w);
    StartableIsJobOk(c, t, w);
    TwoAreChain(c, c', t);
    i, wp := StopAtRival(j, order, p);
    StopsInIsInside(c, order, t, i, w, wp);
    StopInsideIsStop(j, order, i, wp);
    FirstStopIsBetween(j, wp);
    var b, m, g;
    w2, b, m, g := RestartExists(j, wp);
    StandingRival(j, wp, p, w2, b, m, g);
    w1 := UninterruptedExists(j);
    RanIsAttempt([c, c'], t, w, 1, wp, w2, true);
    RanIsAttempt([c, c'], t, w, 0, w, w1, true);
  }
}
