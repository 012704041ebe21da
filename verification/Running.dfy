/** `migrate::run` end to end, without clients: routing changes, backfill, collapse, drain, and every
    way it can stop early. */
module Running {
  import opened Content
  import opened Volumes
  import opened Backends
  import opened Devices
  import opened Routing
  import opened Walks
  import opened Copying
  import opened Merging
  import opened Migrating
  import opened Backfilling
  import opened Collecting
  import opened Draining
  import opened Protocol
  import Glob

  /** How far a run got. */
  datatype Stage =
    | Untouched                                    // nothing routed, nothing written
    | OnOverlay                                    // backfill stopped: the overlay stays
    | Moved(atCollapse: World, purged: World)      // route collapsed; drained as far as it got

  /** The repositories to move: listed on the old backend, matching, routed to that very backend. */
  method Select(disks: Disks, router: RepoRouter, pattern: string, old_: Backend) returns (r: Result<set<string>>)
    requires router.Ready() && Valid(old_)
    modifies disks`faults
    ensures r.Ok? || r.Fault?
    ensures disks.faults >= old(disks.faults) && (r.Ok? <==> disks.faults == old(disks.faults))
    ensures r.Ok? ==> r.value == set repo | repo in NamesIn(Roots(old_), disks.vols, Repos)
                                     && Glob.Matches(pattern, repo) && Route(router.rules, repo) == old_
  {
    hide NamesIn, Roots, Glob.Matches, Route, AllValid;
    var listed := disks.ListNames(old_, Repos);
    if !listed.Ok? { return Fault; }
    var todo, out := listed.value, {};
    while todo != {}
      invariant todo <= listed.value && disks.faults == old(disks.faults)
      invariant out == set repo | repo in listed.value - todo && Glob.Matches(pattern, repo)
                && Route(router.rules, repo) == old_
    {
      var repo :| repo in todo;
      var matches := Glob.GlobMatch(pattern, repo);
      var here := router.Resolve(repo);
      if matches && here == old_ { out := out + {repo}; }
      todo := todo - {repo};
    }
    assert listed.value - todo == listed.value;
    r := Ok(out);
  }

  /** The composite put in place of the old backend. */
  method MakeOverlay(dest: Backend, from: Backend, arc: nat) returns (b: Backend)
    requires Valid(dest) && Valid(from)
    ensures b == Multi(arc, [Partition("new", dest), Partition("old", from)], 0) && Valid(b)
  {
    var parts := [Partition("new", dest), Partition("old", from)];
    assert parts[0].name[0] != parts[1].name[0];
    var made := NewMulti(arc, parts, "new");
    b := made.value;
  }

  method Run(disks: Disks, router: RepoRouter, pattern: string, dest: Backend, drain: bool, arc: nat,
             ghost truth: Digest -> Bytes)
    returns (r: Result<Report>, ghost c: Plan, ghost stage: Stage, ghost b: map<Digest, Bytes>,
             ghost m: map<Pair, Bytes>, ghost g: TagMap)
    requires router.Ready() && Valid(dest) && Genuine(disks.env, truth, disks.vols)
    modifies disks, router
    ensures router.Ready() && disks.faults >= old(disks.faults)
    ensures c == Plan(disks.env, truth, old(router.rules), pattern, dest, arc)
    // refused, nothing to do, or the listing failed: nothing changed
    ensures !PlanOk(c) ==> r.Invalid? && stage.Untouched?
    ensures PlanOk(c) && Old(c) == dest ==> r == Ok(NO_REPORT) && stage.Untouched?
    ensures PlanOk(c) && Old(c) != dest && stage.Untouched? ==> r.Fault? && disks.faults > old(disks.faults)
    ensures stage.Untouched? ==> router.rules == old(router.rules) && disks.vols == old(disks.vols)
    // otherwise rules and world are those of the stage reached
    ensures !stage.Untouched? ==>
              PlanOk(c)
                && Stands(c, ToMigrate(c, old(disks.vols)), old(disks.vols), disks.vols, router.rules, stage, b, m, g)
    ensures stage.OnOverlay? && !(r.Fault? && disks.faults > old(disks.faults)) ==>
              r.NotFound? && exists repo ::
                repo in ToMigrate(c, old(disks.vols)) && Dangling(OldRoots(c), old(disks.vols), repo)
    ensures stage.Moved? ==> r.Ok? || (drain && r.Fault? && disks.faults > old(disks.faults))
    ensures stage.Moved? && !drain ==> disks.vols == stage.atCollapse
    ensures stage.Moved? && drain && disks.faults == old(disks.faults) ==>
              Drained(c.e, Old(c), ToMigrate(c, old(disks.vols)), stage.atCollapse, stage.purged, disks.vols)
    ensures r.Ok? && stage.Moved? ==>
              && r.value.cutover && r.value.blobsCopied == |b| && r.value.bytesCopied == Total(b)
              && r.value.reposMigrated == |ToMigrate(c, old(disks.vols))|
    ensures r.Ok? && stage.Moved? && disks.faults == old(disks.faults) ==>
              && r.value.manifestsCopied == |ManisToCopy(OldRoots(c), NewRoots(c), old(disks.vols),
                                                          ClassManis(OldRoots(c), old(disks.vols),
                                                              ToMigrate(c, old(disks.vols))))|
              && Used(OldRoots(c), stage.purged) == Used(OldRoots(c), disks.vols) + r.value.bytesPurged
              && r.value.blobsPurged ==
                 if drain then |DigestsIn(AllRoots(Plain(Old(c))), stage.purged, AllBlobs) - Marked(c.e,
                     Plain(Old(c)), stage.purged)| else 0
  {
    hide Genuine, ClassCopied, StoppedWithin, Total, ReadOrder, Dangling, Drained, ToMigrate, OnlyNamesLost, OnlyGarbageLost, Marked,
         Roots, Used,
         PurgedFrom, GcPass, Stands, ManisToCopy, ClassManis;
    c := Plan(disks.env, truth, router.rules, pattern, dest, arc);
    stage, b, m, g := Untouched, map[], map[], map[];
    var from := router.BackendForPattern(pattern);
    if from.None? { return Invalid, c, stage, b, m, g; }
    if from.value == dest { return Ok(NO_REPORT), c, stage, b, m, g; }
    ghost var w := disks.vols;
    var repos := Select(disks, router, pattern, from.value);
    if !repos.Ok? { return Fault, c, stage, b, m, g; }
    SelectedAre(c, w, repos.value);
    var overlay := MakeOverlay(dest, from.value, arc);
    var _ := router.Upsert(pattern, overlay);
    var report := NO_REPORT.(reposMigrated := |repos.value|);
    var done;
    done, report, b, m, g := Backfill(disks, from.value, dest, repos.value, report, truth);
    ghost var w1 := disks.vols;
    if !done.Ok? {
      stage := OnOverlay;
      StandsOnOverlay(c, repos.value, w, w1, b, m, g);
      return if done.NotFound? then NotFound else Fault, c, stage, b, m, g;
    }
    UpsertTwice(c.rules, pattern, overlay, dest);
    var _ := router.Upsert(pattern, dest);
    report := report.(cutover := true);
    if drain {
      var swept;
      ghost var purged;
      swept, purged := Drain(disks, from.value, repos.value);
      stage := Moved(w1, purged);
      StandsMoved(c, repos.value, w, w1, purged, disks.vols, b, m, g);
      if disks.faults == old(disks.faults) { DrainIs(disks.env, from.value, repos.value, w1, purged, disks.vols); }
      if !swept.Ok? { return Fault, c, stage, b, m, g; }
      report := report.(blobsPurged := swept.value.deletedBlobs, bytesPurged := swept.value.deletedBytes);
    } else {
      stage := Moved(w1, w1);
      NothingLost(w1, Roots(from.value), repos.value);
      SweepStart(Plain(from.value), {}, w1, Marked(disks.env, Plain(from.value), w1));
      StandsMoved(c, repos.value, w, w1, w1, w1, b, m, g);
    }
    r := Ok(report);
  }

  lemma StandsOnOverlay(c: Plan, repos: set<string>, w: World, w': World, b: map<Digest, Bytes>, m: map<Pair, Bytes>,
                        g: TagMap)
    requires PlanOk(c)
             && ClassCopied(c.e, c.truth, OldRoots(c), NewRoots(c), w, w', Target(c.dest), repos, b, m, g, false)
    ensures Stands(c, repos, w, w', Upserted(c.rules, c.pattern, OverlayOf(c)), OnOverlay, b, m, g)
  {
  }

  lemma StandsMoved(c: Plan, repos: set<string>, w: World, w1: World, w2: World, w': World, b: map<Digest, Bytes>,
                    m: map<Pair, Bytes>, g: TagMap)
    requires PlanOk(c)
             && ClassCopied(c.e, c.truth, OldRoots(c), NewRoots(c), w, w1, Target(c.dest), repos, b, m, g, true)
    requires forall repo :: repo in repos ==> !Dangling(OldRoots(c), w, repo)
    requires OnlyNamesLost(w1, w2, Roots(Old(c)), repos) && OnlyGarbageLost(w2, w', Marked(c.e, Plain(Old(c)), w2))
    ensures Stands(c, repos, w, w', Upserted(c.rules, c.pattern, c.dest), Moved(w1, w2), b, m, g)
  {
  }

  /** The world and the rules at each stage. On the overlay and after the collapse only the destination
      root grew, by content of the class; after the collapse the class copy is complete; a drain lost
      nothing but names of the migrated repositories and unmarked blobs of the old volume. */
  ghost predicate Stands(c: Plan, repos: set<string>, w: World, w': World, rules: seq<Rule>, stage: Stage,
                         b: map<Digest, Bytes>, m: map<Pair, Bytes>, g: TagMap)
    requires PlanOk(c)
  {
    match stage
    case Untouched => true
    case OnOverlay =>
      && rules == Upserted(c.rules, c.pattern, OverlayOf(c))
      && ClassCopied(c.e, c.truth, OldRoots(c), NewRoots(c), w, w', Target(c.dest), repos, b, m, g, false)
    case Moved(w1, w2) =>
      && rules == Upserted(c.rules, c.pattern, c.dest)
      && ClassCopied(c.e, c.truth, OldRoots(c), NewRoots(c), w, w1, Target(c.dest), repos, b, m, g, true)
      && (forall repo :: repo in repos ==> !Dangling(OldRoots(c), w, repo))
      && OnlyNamesLost(w1, w2, Roots(Old(c)), repos)
      && OnlyGarbageLost(w2, w', Marked(c.e, Plain(Old(c)), w2))
  }

  lemma DrainIs(e: Env, b: Backend, repos: set<string>, w: World, mid: World, w': World)
    requires Valid(b) && PurgedFrom(w, mid, Roots(b), repos) && GcPass(e, Plain(b), mid, w')
    ensures Drained(e, b, repos, w, mid, w')
  {
  }

  lemma SelectedAre(c: Plan, w: World, repos: set<string>)
    requires PlanOk(c)
    requires repos == set repo | repo in NamesIn(Roots(Old(c)), w, Repos) && Glob.Matches(c.pattern, repo)
             && Route(c.rules, repo) == Old(c)
    ensures repos == ToMigrate(c, w)
  {
  }
}
