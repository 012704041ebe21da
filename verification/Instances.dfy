/** Concrete volumes on which the exact conditions of the other modules fail. Digests print the content
    itself, so every content has its own; one manifest names one blob. */
module Instances {
  import opened Content
  import opened Volumes
  import opened Backends
  import opened Devices
  import opened Walks
  import opened Migrating
  import opened Backfilling
  import opened Collecting
  import opened Draining
  import opened Routing
  import opened Protocol
  import opened Restarting
  import opened Resuming
  import opened ZeroMiss
  import opened Limits
  import opened Overlaying
  import Quotas
  import QuotaTheorems
  import Glob

  const BLOB: Bytes := [9]
  const NAMING: Bytes := [1]
  const PLAIN: Bytes := [2]

  function Text(b: Bytes): string { seq(|b|, i requires 0 <= i < |b| => b[i] as int as char) }

  function Bytes8(s: string): Bytes {
    seq(|s|, i requires 0 <= i < |s| => if s[i] as int < 256 then s[i] as int as byte else 0)
  }

  function D(b: Bytes): Digest { Digest(Sha256, Text(b)) }

  const ENV := Env((a, b) => Text(b), b => if b == NAMING then Some(Manifest(None, [D(BLOB)], [], None)) else None)

  const TRUTH: Digest -> Bytes := (d: Digest) => Bytes8(d.hex)

  lemma Faithful(b: Bytes)
    ensures Hash(ENV, Sha256, b) == D(b) && TRUTH(D(b)) == b
  {
    assert Bytes8(Text(b)) == b;
  }

  lemma Sha(b: Bytes)
    ensures D(b).algorithm == Sha256
  {
  }

  /** A tree whose files lie where their content says. */
  ghost predicate Tidy(v: Vol) {
    && (forall d :: d in v.blobs ==> d == D(v.blobs[d]))
    && (forall p :: p in v.manifests ==> p.0 in v.dirs && p.1 == D(v.manifests[p]))
    && (forall p :: p in v.tags ==> p.0 in v.dirs && v.tags[p].algorithm == Sha256)
  }

  lemma TidyIsGenuine(w: World)
    requires forall root :: root in w ==> Tidy(w[root])
    ensures Genuine(ENV, TRUTH, w)
  {
    forall root | root in w ensures GenuineVol(ENV, TRUTH, w[root]) {
      var v := w[root];
      forall d | d in v.blobs ensures Hash(ENV, d.algorithm, v.blobs[d]) == d && v.blobs[d] == TRUTH(d) {
        Faithful(v.blobs[d]);
      }
      forall p | p in v.manifests ensures Hash(ENV, Sha256, v.manifests[p]) == p.1 && v.manifests[p] == TRUTH(p.1) {
        Faithful(v.manifests[p]);
      }
    }
  }

  lemma NamingNames()
    ensures BlobsNamed(ENV, NAMING) == {D(BLOB)} && Refs(ENV, NAMING) == {D(BLOB)} && Refs(ENV, PLAIN) == {}
    ensures D(BLOB) != D(NAMING) && D(BLOB) != D(PLAIN) && D(NAMING) != D(PLAIN)
  {
    Faithful(BLOB);
    Faithful(NAMING);
    Faithful(PLAIN);
    assert Elements([D(BLOB)]) == {D(BLOB)};
  }

  // ---- Drains that take a blob of somebody else ---------------------------------------------

  const OLD: Backend := Fs(0, "/old")

  /** A backend that has only one of its two roots in common with the volume to drain. */
  const SHARING: Backend := Multi(5, [Partition("own", Fs(6, "/own")), Partition("old", Fs(7, "/old"))], 0)

  lemma SharingOrder()
    ensures Valid(SHARING) && ReadOrder(SHARING) == ["/own", "/old"] && ReadOrder(OLD) == ["/old"]
  {
    assert Secondaries(SHARING, 2) == [];
    assert Secondaries(SHARING, 1) == ["/old"];
  }

  lemma NamedBy(o: seq<Root>, w: World, repo: string, x: Digest, d: Digest)
    requires Read(o, w, Mani(repo, x)).Some? && d in BlobsNamed(ENV, Read(o, w, Mani(repo, x)).value)
    ensures d in RepoBlobs(ENV, o, w, repo)
  {
    hide Read, BlobsNamed, GraphOf;
    GraphReads(o, w, repo, x);
  }

  const OVERLAPPING: World :=
    map["/own" := Vol(map[], map[("b", D(NAMING)) := NAMING], map[], {"b"}, map[]),
        "/old" := Vol(map[D(BLOB) := BLOB], map[], map[], {}, map[])]

  lemma OverlappingFacts()
    ensures Genuine(ENV, TRUTH, OVERLAPPING)
    ensures Read(["/own", "/old"], OVERLAPPING, Mani("b", D(NAMING))) == Some(NAMING)
    ensures Read(["/own", "/old"], OVERLAPPING, Blob(D(BLOB))) == Some(BLOB)
    ensures At(OVERLAPPING, "/own").blobs == map[] && At(OVERLAPPING, "/old").manifests == map[]
  {
    hide ENV, TRUTH, D, Genuine;
    TidyIsGenuine(OVERLAPPING);
    var o: seq<Root> := ["/own", "/old"];
    assert o[1..] == ["/old"];
  }

  /** Partial overlap: a manifest on the root of its own, the blob it names on the shared one. The drain of
      another class deletes the blob. */
  lemma PartialOverlapLosesABlob() returns (mid: World, w': World)
    ensures Genuine(ENV, TRUTH, OVERLAPPING) && Drained(ENV, OLD, {"a"}, OVERLAPPING, mid, w') && Valid(SHARING)
    ensures var o := ReadOrder(SHARING);
            && Listable("b") && D(BLOB) in RepoBlobs(ENV, o, OVERLAPPING, "b")
            && Read(o, OVERLAPPING, Blob(D(BLOB))) == Some(BLOB)
            && Read(o, w', Mani("b", D(NAMING))) == Some(NAMING) && Read(o, w', Blob(D(BLOB))).None?
  {
    hide Genuine, Drained, Refs, BlobsNamed, Read, ENV, TRUTH, OVERLAPPING, D;
    NamingNames();
    SharingOrder();
    OverlappingFacts();
    mid, w' := DrainExists(ENV, OLD, {"a"}, OVERLAPPING);
    NamedBy(["/own", "/old"], OVERLAPPING, "b", D(NAMING), D(BLOB));
    hide OLD, SHARING, Contains;
    ManifestOutlivesItsBlob(ENV, TRUTH, OLD, {"a"}, OVERLAPPING, mid, w', ["/own", "/old"], "b", D(NAMING), D(BLOB));
  }

  /** A repository no listing shows, on the drained volume itself. */
  const UNLISTED: World :=
    map["/old" := Vol(map[D(BLOB) := BLOB], map[("a/tags", D(NAMING)) := NAMING], map[], {"a", "a/tags"}, map[])]

  lemma UnlistedFacts()
    ensures Genuine(ENV, TRUTH, UNLISTED)
    ensures Read(["/old"], UNLISTED, Mani("a/tags", D(NAMING))) == Some(NAMING)
    ensures Read(["/old"], UNLISTED, Blob(D(BLOB))) == Some(BLOB)
    ensures At(UNLISTED, "/old").manifests.Keys == {("a/tags", D(NAMING))}
  {
    hide ENV, TRUTH, D, Genuine;
    TidyIsGenuine(UNLISTED);
  }

  lemma TagsIsReserved()
    ensures !Listable("a/tags")
  {
    var path := "/" + "a/tags" + "/";
    assert path[2..] == "/tags/";
  }

  /** Its blob goes with the drain of any class of the volume. */
  lemma UnlistedRepositoryLosesItsBlob() returns (mid: World, w': World)
    ensures Genuine(ENV, TRUTH, UNLISTED) && Drained(ENV, OLD, {"a"}, UNLISTED, mid, w')
    ensures var o := ReadOrder(OLD);
            && D(BLOB) in RepoBlobs(ENV, o, UNLISTED, "a/tags") && Read(o, UNLISTED, Blob(D(BLOB))) == Some(BLOB)
            && Read(o, w', Mani("a/tags", D(NAMING))) == Some(NAMING) && Read(o, w', Blob(D(BLOB))).None?
  {
    hide Genuine, Drained, Refs, BlobsNamed, Read, ENV, TRUTH, UNLISTED, D, Listable;
    NamingNames();
    SharingOrder();
    UnlistedFacts();
    TagsIsReserved();
    mid, w' := DrainExists(ENV, OLD, {"a"}, UNLISTED);
    NamedBy(["/old"], UNLISTED, "a/tags", D(NAMING), D(BLOB));
    ManifestOutlivesItsBlob(ENV, TRUTH, OLD, {"a"}, UNLISTED, mid, w', ["/old"], "a/tags", D(NAMING), D(BLOB));
  }

  // ---- Two values for one tag ---------------------------------------------------------------

  /** The class `a*` moves from one directory to another, and the same again after a stop. */
  const PLAN := Plan(ENV, TRUTH, [Rule("a*", OLD)], "a*", Fs(1, "/new"), 2)

  const AGAIN := Plan(ENV, TRUTH, [Rule("a*", Multi(2, [Partition("new", Fs(1, "/new")), Partition("old", OLD)], 0))],
                      "a*", Fs(1, "/new"), 3)

  lemma PlansFit()
    ensures PlanOk(PLAN) && PlanOk(AGAIN) && OntoRoot(PLAN, "/new") && OntoRoot(AGAIN, "/new") && Follows(PLAN, AGAIN)
    ensures OldRoots(PLAN) == ["/old"] && NewRoots(PLAN) == ["/new"] && Target(PLAN.dest) == "/new"
    ensures InClass(PLAN, "a") && Route(PLAN.rules, "a") == OLD
  {
    hide ENV, TRUTH;
    assert FirstKeyed(PLAN.rules, "a*") == 0 && FirstKeyed(AGAIN.rules, "a*") == 0;
    assert "a" + "*" == "a*";
    Glob.PrefixPattern("a", "a");
    RouteIsFirstLongestMatch(PLAN.rules, "a", 0);
  }

  /** A tag was pushed to the new volume and its manifest deleted by digest, which leaves the pointer. */
  const POINTING := Vol(map[], map[], map[("a", "t") := D(NAMING)], {"a"}, map[])

  lemma PointingArises()
    ensures Volumes.Run(ENV, EMPTY,
                        [ManifestPut("a", Tag("t"), NAMING), ManifestDelete("a", ByDigest(D(NAMING)))]) == POINTING
  {
    var ops := [ManifestPut("a", Tag("t"), NAMING), ManifestDelete("a", ByDigest(D(NAMING)))];
    Faithful(NAMING);
    assert ops[..1][..0] == [] && ops[..1] == [ManifestPut("a", Tag("t"), NAMING)];
    assert Volumes.Run(ENV, EMPTY, ops[..1]) == Put(ENV, EMPTY, "a", Tag("t"), NAMING);
  }

  const POINTED := Vol(map[], map[("a", D(NAMING)) := NAMING, ("a", D(PLAIN)) := PLAIN], map[("a", "t") := D(PLAIN)],
                       {"a"}, map[])

  const DANGLING := Both(POINTING, POINTED)

  function Both(v: Vol, v': Vol): World { map["/new" := v, "/old" := v'] }

  lemma BothGenuine(v: Vol, v': Vol)
    requires Tidy(v) && Tidy(v')
    ensures Genuine(ENV, TRUTH, Both(v, v')) && At(Both(v, v'), "/new") == v && At(Both(v, v'), "/old") == v'
  {
    hide Tidy;
    TidyIsGenuine(Both(v, v'));
  }

  lemma DanglingFacts()
    ensures Genuine(ENV, TRUTH, DANGLING) && Read(["/old"], DANGLING, Mani("a", D(NAMING))) == Some(NAMING)
    ensures Read(["/new"] + ["/old"], DANGLING, Tagged("a", "t")) == Some(PLAIN)
    ensures At(DANGLING, "/new") == POINTING
  {
    NamingNames();
    Sha(NAMING);
    Sha(PLAIN);
    hide ENV, TRUTH, D, Genuine, Both;
    BothGenuine(POINTING, POINTED);
    ReadConcat(["/new"], ["/old"], DANGLING, Tagged("a", "t"));
  }

  /** Copying that manifest, before any tag is rewritten, makes the overlay's tag jump to it. */
  lemma CopyMovesATag()
    ensures PlanOk(PLAN) && Read(OldRoots(PLAN), DANGLING, Mani("a", D(NAMING))) == Some(NAMING)
    ensures var o, w' := NewRoots(PLAN) + OldRoots(PLAN), StoreAt(PLAN, DANGLING, Mani("a", D(NAMING)), NAMING);
            Read(o, DANGLING, Tagged("a", "t")) == Some(PLAIN) && Read(o, w', Tagged("a", "t")) == Some(NAMING)
  {
    hide ENV, TRUTH, D, Genuine, Read, StoreAt, DANGLING;
    PlansFit();
    DanglingFacts();
    StoreThroughOverlay(PLAN, DANGLING, Mani("a", D(NAMING)), Tagged("a", "t"));
  }

  /** The same tag with a stored value on either volume. */
  const RIVAL := Vol(map[], map[("a", D(NAMING)) := NAMING], map[("a", "t") := D(NAMING)], {"a"}, map[])

  const RIVALLED := Vol(map[], map[("a", D(PLAIN)) := PLAIN], map[("a", "t") := D(PLAIN)], {"a"}, map[])

  const RIVALS := Both(RIVAL, RIVALLED)

  lemma RivalFacts()
    ensures Genuine(ENV, TRUTH, RIVALS) && Read(["/old"], RIVALS, Tagged("a", "t")) == Some(PLAIN)
    ensures NamesIn({"/old"}, RIVALS, Repos) == {"a"} && ListedTags(["/old"], RIVALS, "a") == {"t"}
    ensures At(RIVALS, "/new") == RIVAL
  {
    Sha(NAMING);
    Sha(PLAIN);
    hide ENV, TRUTH, D, Genuine, Both, Names, NamesIn;
    BothGenuine(RIVAL, RIVALLED);
    OneTag(RIVALS, "/old");
  }

  lemma OneTag(w: World, root: Root)
    requires At(w, root).dirs == {"a"} && At(w, root).tags.Keys == {("a", "t")}
    ensures NamesIn({root}, w, Repos) == {"a"} && ListedTags([root], w, "a") == {"t"}
  {
    var v := At(w, root);
    assert Names(v, Repos) == {"a"} && Names(v, Tags("a")) == {"t"} by { NamesMember(v, "a", "t"); }
    hide Names;
    assert Elements([root]) == {root};
  }

  lemma RivalJob()
    ensures PlanOk(PLAN) && Startable(PLAN, "/new", RIVALS)
    ensures var j := JobOf(PLAN, "/new", RIVALS); ("a", "t") in OldTags(j) && OldTags(j)[("a", "t")] == D(PLAIN)
  {
    hide ENV, TRUTH, D, Genuine, Read, RIVALS, InClass, OntoRoot, Glob.Matches;
    PlansFit();
    RivalFacts();
    Faithful(PLAIN);
    OnlyA();
    hide ToMigrate;
    ClassTagValue(ENV, ["/old"], RIVALS, {"a"}, "a", "t");
  }

  lemma OnlyA()
    ensures PlanOk(PLAN) && ToMigrate(PLAN, RIVALS) == {"a"}
  {
    hide ENV, TRUTH, D, Genuine, Read, RIVALS, InClass, OntoRoot, Glob.Matches, NamesIn;
    PlansFit();
    RivalFacts();
    RouteDuring(PLAN, Ready, "a");
    assert Roots(Old(PLAN)) == {"/old"};
  }

  /** A restart keeps the value of the new volume, one run puts that of the old volume: stopped and run
      again, this migration does not end where it would have, and the exact condition says so. */
  lemma RivalSurvives() returns (wp: World, w2: World, w1: World)
    ensures PlanOk(PLAN) && PlanOk(AGAIN) && Startable(PLAN, "/new", RIVALS) && Follows(PLAN, AGAIN)
    ensures StopsIn(PLAN, ["a"], 0, RIVALS, wp) && Ran(AGAIN, wp, w2, true) && Ran(PLAN, RIVALS, w1, true)
    ensures ("a", "t") in At(w2, "/new").tags && At(w2, "/new").tags[("a", "t")] == D(NAMING)
    ensures ("a", "t") in At(w1, "/new").tags && At(w1, "/new").tags[("a", "t")] == D(PLAIN)
    ensures !Resumable(PLAN, AGAIN, RIVALS, ["a"]) && !Harmless(JobOf(PLAN, "/new", RIVALS))
  {
    hide ENV, TRUTH, D, Genuine, RIVALS, Startable, Follows, Ran, OldTags, Harmless, ToMigrate, Selected, StoppedIn;
    PlansFit();
    RivalFacts();
    RivalJob();
    OnlyA();
    NamingNames();
    hide PLAN, AGAIN;
    var i;
    i, wp, w2, w1 := RivalEndsTwoWays(PLAN, AGAIN, "/new", RIVALS, ["a"], ("a", "t"));
    assert At(w2, "/new") != At(w1, "/new");
    ResumableIff(PLAN, AGAIN, "/new", RIVALS, ["a"]);
  }

  // ---- Runs that lose something -------------------------------------------------------------

  lemma FirstOf(c: Plan, s: State, a: Action, rest: seq<Action>)
    requires PlanOk(c) && Enabled(c, s, a) && PossibleRun(c, Next(c, s, a), rest)
    ensures PossibleRun(c, s, [a] + rest) && Exec(c, s, [a] + rest) == Exec(c, Next(c, s, a), rest)
  {
    hide Enabled, Next;
    assert ([a] + rest)[0] == a && ([a] + rest)[1..] == rest;
  }

  /** From the listing of a class that has no repository yet, the overlay goes up and comes down again. */
  lemma UpAndDown(w: World)
    ensures PlanOk(PLAN)
    ensures var s := State(w, Snapped({}));
            PossibleRun(PLAN, s, [Overlay, Collapse]) && Exec(PLAN, s, [Overlay, Collapse]).phase.Collapsed?
  {
    hide ENV, TRUTH;
    PlansFit();
    var s := State(w, Snapped({}));
    var s1 := Next(PLAN, s, Overlay);
    var s2 := Next(PLAN, s1, Collapse);
    FirstOf(PLAN, s1, Collapse, []);
    FirstOf(PLAN, s, Overlay, [Collapse]);
    assert [Collapse] + [] == [Collapse] && [Overlay] + [Collapse] == [Overlay, Collapse];
  }

  lemma NothingToMigrate(w: World)
    requires At(w, "/old").dirs == {}
    ensures PlanOk(PLAN) && Next(PLAN, State(w, Ready), Snapshot) == State(w, Snapped({}))
  {
    hide ENV, TRUTH, Glob.Matches, Route;
    PlansFit();
    assert Roots(OLD) == {"/old"};
    assert Names(At(w, "/old"), Repos) == {};
    assert NamesIn({"/old"}, w, Repos) == {};
    assert ToMigrate(PLAN, w) == {};
  }

  const BOTH_STEPS: seq<Action> := [Overlay, Collapse]

  /** A first repository pushed between the listing and the overlay: served then, gone at the end. */
  lemma WindowRun()
    ensures PlanOk(PLAN)
    ensures var run := [Snapshot, PushManifest("a", ByDigest(D(NAMING)), NAMING)] + BOTH_STEPS;
            var s, k := State(map[], Ready), Mani("a", D(NAMING));
            && PossibleRun(PLAN, s, run) && Exec(PLAN, s, run).phase.Collapsed?
            && Serve(PLAN, Exec(PLAN, s, run[..2]), "a", k) == Some(NAMING)
            && Serve(PLAN, Exec(PLAN, s, run), "a", k).None?
  {
    hide ENV, TRUTH, D, InClass, Route, Hash;
    PlansFit();
    Faithful(NAMING);
    NothingToMigrate(map[]);
    var push := PushManifest("a", ByDigest(D(NAMING)), NAMING);
    var run := [Snapshot, push] + BOTH_STEPS;
    var s, s1 := State(map[], Ready), State(map[], Snapped({}));
    var s2 := Next(PLAN, s1, push);
    assert s2 == State(map["/old" := Put(ENV, EMPTY, "a", ByDigest(D(NAMING)), NAMING)], Snapped({})) by {
      RouteDuring(PLAN, s1.phase, "a");
    }
    UpAndDown(s2.w);
    FirstOf(PLAN, s1, push, BOTH_STEPS);
    FirstOf(PLAN, s, Snapshot, [push] + BOTH_STEPS);
    FirstOf(PLAN, s1, push, []);
    FirstOf(PLAN, s, Snapshot, [push]);
    assert run[..2] == [Snapshot] + [push] && [push] + [] == [push] && run == [Snapshot] + ([push] + BOTH_STEPS);
    WindowLosesRepository(PLAN, s2, BOTH_STEPS, "a", D(NAMING));
    assert Lookup(At(s2.w, "/old"), Mani("a", D(NAMING))) == Some(NAMING);
  }

  /** A blob pushed before its manifest, and the migration in between: served then, gone at the end. */
  lemma UnnamedBlobRun()
    ensures PlanOk(PLAN)
    ensures var run := [PushBlob("a", D(BLOB), BLOB), Snapshot] + BOTH_STEPS;
            var s, k := State(map[], Ready), Blob(D(BLOB));
            && PossibleRun(PLAN, s, run) && Exec(PLAN, s, run).phase.Collapsed?
            && Serve(PLAN, Exec(PLAN, s, run[..1]), "a", k) == Some(BLOB)
            && Serve(PLAN, Exec(PLAN, s, run), "a", k).None?
  {
    hide ENV, TRUTH, D, InClass, Route, Hash;
    PlansFit();
    Faithful(BLOB);
    var push := PushBlob("a", D(BLOB), BLOB);
    var run := [push, Snapshot] + BOTH_STEPS;
    var s := State(map[], Ready);
    var s1 := BlobPushed();
    NothingToMigrate(s1.w);
    UpAndDown(s1.w);
    FirstOf(PLAN, s1, Snapshot, BOTH_STEPS);
    FirstOf(PLAN, s, push, [Snapshot] + BOTH_STEPS);
    FirstOf(PLAN, s, push, []);
    assert run[..1] == [push] + [] && run == [push] + ([Snapshot] + BOTH_STEPS);
    UnnamedBlobIsLost(PLAN, s1, [Snapshot] + BOTH_STEPS, "a", D(BLOB));
  }

  lemma BlobPushed() returns (s: State)
    ensures PlanOk(PLAN) && s == Next(PLAN, State(map[], Ready), PushBlob("a", D(BLOB), BLOB)) && s.phase.Ready?
    ensures At(s.w, "/old").dirs == {} && Read(OldRoots(PLAN), s.w, Blob(D(BLOB))) == Some(BLOB)
    ensures Unnamed(PLAN, s, D(BLOB))
  {
    hide ENV, TRUTH, D, InClass, Route, Hash, BlobsNamed;
    PlansFit();
    Faithful(BLOB);
    Sha(BLOB);
    RouteDuring(PLAN, Ready, "a");
    s := Next(PLAN, State(map[], Ready), PushBlob("a", D(BLOB), BLOB));
    assert s == State(map["/old" := EMPTY.(blobs := map[D(BLOB) := BLOB])], Ready);
    OneRoot(s.w, "/new", Blob(D(BLOB)));
    assert Read(NewRoots(PLAN), s.w, Blob(D(BLOB))).None?;
    forall root | root in OldRoots(PLAN) ensures NoneNames(PLAN.e, At(s.w, root), D(BLOB)) { assert root == "/old"; }
  }

  // ---- Two rules naming one path ------------------------------------------------------------

  /** Each rule opens the directory anew; every repository has the same quota. */
  function OnePath(e: Env, m: nat): Quotas.Setup {
    Quotas.Setup(e, [Rule("*", Fs(0, "/v")), Rule("b*", Fs(1, "/v"))], [Quotas.Quota("*", m)])
  }

  lemma OnePathFacts(e: Env, m: nat)
    ensures var q := OnePath(e, m);
            && Quotas.SetupOk(q) && Quotas.BackendFor(q, "a") == Fs(0, "/v") && Quotas.BackendFor(q, "b") == Fs(1, "/v")
            && (forall repo :: Quotas.Limit(q, repo) == Some(m))
            && (forall repo :: Quotas.BackendFor(q, repo) == Fs(0, "/v") || Quotas.BackendFor(q, repo) == Fs(1, "/v"))
  {
    var q := OnePath(e, m);
    forall repo
      ensures Quotas.Limit(q, repo) == Some(m)
      ensures Route(q.rules, repo) == Fs(0, "/v") || Route(q.rules, repo) == Fs(1, "/v")
    {
      Glob.StarMatchesAll(repo);
      OneQuota(q.quotas, repo);
    }
    OnePathRoutes(q.rules);
  }

  lemma OneQuota(quotas: seq<Quotas.Quota>, repo: string)
    requires |quotas| == 1 && Glob.Matches(quotas[0].pattern, repo)
    ensures Quotas.Matching(quotas, repo, 1) == Some(0)
  {
    hide Glob.Matches, ByteLen;
    assert Quotas.Matching(quotas, repo, 0) == None;
  }

  lemma OnePathRoutes(rules: seq<Rule>)
    requires rules == [Rule("*", Fs(0, "/v")), Rule("b*", Fs(1, "/v"))]
    ensures Route(rules, "a") == Fs(0, "/v") && Route(rules, "b") == Fs(1, "/v")
  {
    hide Glob.Matches, ByteLen;
    Glob.StarMatchesAll("a");
    Glob.StarMatchesAll("b");
    assert "b" + "*" == "b*";
    Glob.PrefixPattern("b", "a");
    Glob.PrefixPattern("b", "b");
    ByteLenOfAscii("*");
    ByteLenOfAscii("b*");
    assert "b"[0] != "a"[0];
    assert Wins(rules, "a", 0) && Wins(rules, "b", 1);
    RouteIsFirstLongestMatch(rules, "a", 0);
    RouteIsFirstLongestMatch(rules, "b", 1);
  }

  /** The premise "every repository on the volume has a quota of at most `m`" holds, and three writes from
      nothing take the volume to 2 * m, the bound `SharedCapsAddUp` gives for two identities. */
  lemma OnePathFillsTwice(e: Env, m: nat) returns (truth: Digest -> Bytes, ss: seq<Quotas.State>)
    requires 0 < m < U64 - 1
    ensures var q, b := OnePath(e, m), Fs(1, "/v");
            && Quotas.SetupOk(q) && QuotaTheorems.Capped(q, b, m) && QuotaTheorems.Begun(q, truth, ss) && |ss| == 4
            && ss[0] == Quotas.State(map[], map[]) && Used(["/v"], ss[3].w) == 2 * m && !QuotaTheorems.Caps(q, b, m)
    ensures QuotaTheorems.Sharing(OnePath(e, m), [Fs(0, "/v"), Fs(1, "/v")], [m, m])
  {
    hide Used, OnePath, Quotas.Limit, QuotaTheorems.Begun, QuotaTheorems.Unshared, Route;
    var q := OnePath(e, m);
    OnePathFacts(e, m);
    truth, ss := QuotaTheorems.FilledTwice(q, "a", "b", m, m);
    assert QuotaTheorems.Begun(q, truth, ss) && Used(["/v"], ss[0].w) == 0 && Used(["/v"], ss[3].w) > m;
    forall repo ensures QuotaTheorems.Accounted(q, [Fs(0, "/v"), Fs(1, "/v")], [m, m], repo) {
      if Quotas.BackendFor(q, repo) == Fs(0, "/v") {
        assert QuotaTheorems.CountsAs(q, [Fs(0, "/v"), Fs(1, "/v")][0], [m, m][0], repo);
      } else {
        assert QuotaTheorems.CountsAs(q, [Fs(0, "/v"), Fs(1, "/v")][1], [m, m][1], repo);
      }
    }
  }
}
