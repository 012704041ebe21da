/** Mark-and-sweep garbage collection (`gc::run`, `locate_owner`) over a plain backend or a router. */
module Collecting {
  import opened Content
  import opened Volumes
  import opened Backends
  import opened Devices
  import opened Routing
  import opened Walks

  /** What GC runs over: one backend, or a router with its rules at that time. */
  datatype Store = Plain(backend: Backend) | Routed(rules: seq<Rule>)

  predicate ValidStore(s: Store) {
    match s case Plain(b) => Valid(b) case Routed(rules) => rules != [] && AllValid(rules)
  }

  /** The backend an operation on `repo` reaches; a plain backend ignores the repository. */
  function Pick(s: Store, repo: string): (b: Backend)
    requires ValidStore(s)
    ensures Valid(b)
  {
    match s case Plain(b) => b case Routed(rules) => RouteValid(rules, repo); Route(rules, repo)
  }

  function BackendsOf(s: Store): set<Backend> {
    match s case Plain(b) => {b} case Routed(rules) => set i | 0 <= i < |rules| :: rules[i].backend
  }

  function AllRoots(s: Store): set<Root>
    requires ValidStore(s)
  {
    set b, root | b in BackendsOf(s) && Valid(b) && root in Roots(b) :: root
  }

  lemma PickIsBackend(s: Store, repo: string)
    requires ValidStore(s)
    ensures Pick(s, repo) in BackendsOf(s) && Roots(Pick(s, repo)) <= AllRoots(s)
  {
  }

  // ---- Marking ----------------------------------------------------------------------------

  function Refs(e: Env, bytes: Bytes): set<Digest> {
    var m := e.parse(bytes);
    if m.Some? then AllRefs(m.value) else {}
  }

  /** A manifest marks itself and everything it references. */
  function MarksOf(e: Env, g: Graph, s: set<Digest>): set<Digest> {
    s + RefsOf(e, g, s)
  }

  function RefsOf(e: Env, g: Graph, s: set<Digest>): set<Digest> {
    set x, d | x in s && x in g && d in Refs(e, g[x]) :: d
  }

  function ReposIn(s: Store, w: World): set<string>
    requires ValidStore(s)
  {
    NamesIn(AllRoots(s), w, Repos)
  }

  function RepoMarks(e: Env, s: Store, w: World, repo: string): set<Digest>
    requires ValidStore(s)
  {
    var g := GraphOf(ReadOrder(Pick(s, repo)), w, repo);
    MarksOf(e, g, g.Keys)
  }

  function Marked(e: Env, s: Store, w: World): set<Digest>
    requires ValidStore(s)
  {
    MarkedAmong(e, s, w, ReposIn(s, w))
  }

  function MarkedAmong(e: Env, s: Store, w: World, repos: set<string>): set<Digest>
    requires ValidStore(s)
  {
    set repo, d | repo in repos && d in RepoMarks(e, s, w, repo) :: d
  }

  /** Manifests of some repositories, counted once per repository that stores them. */
  ghost function Scanned(s: Store, w: World, repos: set<string>): nat
    requires ValidStore(s)
  {
    if repos == {} then 0 else
    var repo :| repo in repos;
    |GraphOf(ReadOrder(Pick(s, repo)), w, repo)| + Scanned(s, w, repos - {repo})
  }

  lemma ScannedNothing(s: Store, w: World)
    requires ValidStore(s)
    ensures Scanned(s, w, {}) == 0
  {
  }

  lemma {:induction false} ScannedWithout(s: Store, w: World, repos: set<string>, repo: string)
    requires ValidStore(s) && repo in repos
    ensures Scanned(s, w, repos) == |GraphOf(ReadOrder(Pick(s, repo)), w, repo)| + Scanned(s, w, repos - {repo})
    decreases repos
  {
    hide GraphOf, Pick;
    var x :| x in repos && Scanned(s, w, repos) == |GraphOf(ReadOrder(Pick(s, x)), w, x)| + Scanned(s, w, repos - {x});
    if x != repo {
      ScannedWithout(s, w, repos - {x}, repo);
      ScannedWithout(s, w, repos - {repo}, x);
      assert repos - {x} - {repo} == repos - {repo} - {x};
    }
  }

  lemma ScannedSnoc(s: Store, w: World, repos: set<string>, repo: string)
    requires ValidStore(s) && repo !in repos
    ensures Scanned(s, w, repos + {repo}) == Scanned(s, w, repos) + |GraphOf(ReadOrder(Pick(s, repo)), w, repo)|
  {
    hide GraphOf, Pick, Scanned;
    ScannedWithout(s, w, repos + {repo}, repo);
    assert repos + {repo} - {repo} == repos;
  }

  // ---- Sweeping ---------------------------------------------------------------------------

  ghost predicate Holds(s: Store, w: World, repo: string, d: Digest)
    requires ValidStore(s)
  {
    Read(ReadOrder(Pick(s, repo)), w, Blob(d)).Some?
  }

  /** The backend a blob is deleted from: that of some listed repository whose backend holds it, or the
      one the empty repository name leads to when there is none. */
  ghost predicate Owner(s: Store, repos: set<string>, w: World, d: Digest, b: Backend)
    requires ValidStore(s)
  {
    if exists repo :: repo in repos && Holds(s, w, repo, d)
    then exists repo :: repo in repos && Holds(s, w, repo, d) && b == Pick(s, repo)
    else b == Pick(s, "")
  }

  /** Only blobs went away, and no marked one. */
  ghost predicate OnlyGarbageLost(w: World, w': World, marked: set<Digest>) {
    forall root ::
      && At(w', root) == At(w, root).(blobs := At(w', root).blobs)
      && (forall d :: d in At(w', root).blobs ==>
          d in At(w, root).blobs && At(w', root).blobs[d] == At(w, root).blobs[d])
      && (forall d :: d in At(w, root).blobs && d in marked ==> d in At(w', root).blobs)
  }

  /** `d` lost its copies on the roots of one owner and on no other root. */
  ghost predicate LostFrom(w: World, w': World, d: Digest, b: Backend)
    requires Valid(b)
  {
    forall root :: d in At(w', root).blobs <==> d in At(w, root).blobs && root !in Roots(b)
  }

  ghost predicate Untouched(w: World, w': World, d: Digest) {
    forall root :: d in At(w', root).blobs <==> d in At(w, root).blobs
  }

  /** A fault-free sweep of the digests of `seen`. */
  ghost predicate SweptDigests(s: Store, repos: set<string>, marked: set<Digest>, w: World, w': World,
                               seen: set<Digest>)
    requires ValidStore(s)
  {
    forall d ::
      if d in seen && d !in marked then exists b :: Valid(b) && Owner(s, repos, w, d, b) && LostFrom(w, w', d, b)
      else Untouched(w, w', d)
  }

  // ---- The run ----------------------------------------------------------------------------

  datatype GcReport = GcReport(reposScanned: nat, manifestsScanned: nat, reachableBlobs: nat, deletedBlobs: nat,
                               deletedBytes: nat)

  /** The mark phase for one repository. */
  method MarkRepo(disks: Disks, s: Store, repo: string) returns (r: Result<()>, scanned: nat, marks: set<Digest>)
    requires ValidStore(s)
    modifies disks`faults
    ensures r.Ok? || r.Fault?
    ensures disks.faults >= old(disks.faults) && (r.Ok? <==> disks.faults == old(disks.faults))
    ensures r.Ok? ==> marks == RepoMarks(disks.env, s, disks.vols, repo)
    ensures r.Ok? ==> scanned == |GraphOf(ReadOrder(Pick(s, repo)), disks.vols, repo)|
  {
    hide Read, GraphOf, DigestsIn, Refs, AllRefs, MarksOf;
    var b := Pick(s, repo);
    ghost var e, o, w := disks.env, ReadOrder(b), disks.vols;
    ghost var g := GraphOf(o, w, repo);
    scanned, marks := 0, {};
    var listed := disks.ListDigests(b, Manifests(repo));
    if !listed.Ok? { return Fault, scanned, marks; }
    ListedIsStored(o, w, repo);
    assert Roots(b) == Elements(o);
    var todo := listed.value;
    assert g.Keys - todo == {};
    MarksNothing(e, g);
    while todo != {}
      invariant todo <= listed.value && disks.faults == old(disks.faults)
      invariant scanned == |listed.value| - |todo|
      invariant marks == MarksOf(e, g, g.Keys - todo)
    {
      var d :| d in todo;
      MarkOne(e, g, g.Keys - todo, d);
      assert g.Keys - (todo - {d}) == g.Keys - todo + {d};
      marks, scanned := marks + {d}, scanned + 1;
      var got := disks.Get(b, Mani(repo, d));
      GraphReads(o, w, repo, d);
      if got.Fault? { return Fault, scanned, marks; }
      if got.Ok? {
        var m := disks.env.parse(got.value);
        if m.Some? {
          var refs := ReferencedDigests(m.value);
          marks := marks + Elements(refs);
        }
        assert Refs(e, g[d]) == if m.Some? then AllRefs(m.value) else {} by { RefsAre(e, g[d]); }
      }
      todo := todo - {d};
    }
    assert g.Keys - {} == g.Keys;
    assert |g| == |g.Keys|;
    r := Ok(());
  }

  lemma MarksNothing(e: Env, g: Graph)
    ensures MarksOf(e, g, {}) == {}
  {
  }

  lemma RefsAre(e: Env, bytes: Bytes)
    ensures Refs(e, bytes) == if e.parse(bytes).Some? then AllRefs(e.parse(bytes).value) else {}
  {
  }

  lemma MarkOne(e: Env, g: Graph, s: set<Digest>, d: Digest)
    requires d in g
    ensures MarksOf(e, g, s + {d}) == MarksOf(e, g, s) + {d} + Refs(e, g[d])
  {
    forall y ensures y in RefsOf(e, g, s + {d}) <==> y in RefsOf(e, g, s) + Refs(e, g[d]) {
    }
  }

  // ---- Listings of a store ----------------------------------------------------------------

  function RootsOfFirst(rules: seq<Rule>, n: nat): set<Root>
    requires AllValid(rules) && n <= |rules|
  {
    if n == 0 then {} else RootsOfFirst(rules, n - 1) + Roots(rules[n - 1].backend)
  }

  lemma {:induction false} RootsOfFirstMember(rules: seq<Rule>, n: nat, root: Root)
    requires AllValid(rules) && n <= |rules|
    ensures root in RootsOfFirst(rules, n) <==> exists i :: 0 <= i < n && root in Roots(rules[i].backend)
  {
    if n > 0 { RootsOfFirstMember(rules, n - 1, root); }
  }

  lemma RootsOfRules(rules: seq<Rule>)
    requires rules != [] && AllValid(rules)
    ensures RootsOfFirst(rules, |rules|) == AllRoots(Routed(rules))
  {
    hide Roots;
    var s := Routed(rules);
    forall root ensures root in RootsOfFirst(rules, |rules|) <==> root in AllRoots(s) {
      RootsOfFirstMember(rules, |rules|, root);
      if root in AllRoots(s) {
        var b :| b in BackendsOf(s) && Valid(b) && root in Roots(b);
        var i :| 0 <= i < |rules| && rules[i].backend == b;
      }
      if i :| 0 <= i < |rules| && root in Roots(rules[i].backend) {
        assert rules[i].backend in BackendsOf(s);
      }
    }
  }

  lemma PlainRoots(b: Backend)
    requires Valid(b)
    ensures AllRoots(Plain(b)) == Roots(b)
  {
    assert BackendsOf(Plain(b)) == {b};
  }

  /** `list_repos` of a router unions its backends. */
  method ListStoreRepos(disks: Disks, s: Store) returns (r: Result<set<string>>)
    requires ValidStore(s)
    modifies disks`faults
    ensures r.Ok? || r.Fault?
    ensures disks.faults >= old(disks.faults) && (r.Ok? <==> disks.faults == old(disks.faults))
    ensures r.Ok? ==> r.value == ReposIn(s, disks.vols)
  {
    hide Roots;
    match s
    case Plain(b) =>
      PlainRoots(b);
      r := disks.ListNames(b, Repos);
    case Routed(rules) =>
      var out := {};
      for i := 0 to |rules|
        invariant disks.faults == old(disks.faults)
        invariant out == NamesIn(RootsOfFirst(rules, i), disks.vols, Repos)
      {
        r := disks.ListNames(rules[i].backend, Repos);
        if !r.Ok? { return; }
        out := out + r.value;
      }
      RootsOfRules(rules);
      r := Ok(out);
  }

  method ListStoreBlobs(disks: Disks, s: Store) returns (r: Result<set<Digest>>)
    requires ValidStore(s)
    modifies disks`faults
    ensures r.Ok? || r.Fault?
    ensures disks.faults >= old(disks.faults) && (r.Ok? <==> disks.faults == old(disks.faults))
    ensures r.Ok? ==> r.value == DigestsIn(AllRoots(s), disks.vols, AllBlobs)
  {
    hide Roots;
    match s
    case Plain(b) =>
      PlainRoots(b);
      r := disks.ListDigests(b, AllBlobs);
    case Routed(rules) =>
      var out := {};
      for i := 0 to |rules|
        invariant disks.faults == old(disks.faults)
        invariant out == DigestsIn(RootsOfFirst(rules, i), disks.vols, AllBlobs)
      {
        r := disks.ListDigests(rules[i].backend, AllBlobs);
        if !r.Ok? { return; }
        out := out + r.value;
      }
      RootsOfRules(rules);
      r := Ok(out);
  }

  // ---- Sweep ------------------------------------------------------------------------------

  /** `locate_owner`: unreadable backends count as not holding the blob. */
  method LocateOwner(disks: Disks, s: Store, repos: set<string>, d: Digest) returns (owner: string)
    requires ValidStore(s)
    modifies disks`faults
    ensures disks.faults >= old(disks.faults)
    ensures disks.faults == old(disks.faults) ==> Owner(s, repos, disks.vols, d, Pick(s, owner))
  {
    var todo := repos;
    while todo != {}
      invariant todo <= repos && disks.faults >= old(disks.faults)
      invariant disks.faults == old(disks.faults) ==> forall repo :: repo in repos - todo ==>
                !Holds(s, disks.vols, repo, d)
    {
      var repo :| repo in todo;
      var here := disks.BlobExists(Pick(s, repo), d);
      if here == Ok(true) { return repo; }
      todo := todo - {repo};
    }
    owner := "";
  }

  lemma SweepSafe(w: World, mid: World, w': World, marked: set<Digest>, d: Digest, gone: set<Root>)
    requires OnlyGarbageLost(w, mid, marked) && Swept(mid, w', gone, Blob(d)) && d !in marked
    ensures OnlyGarbageLost(w, w', marked)
  {
    forall root
      ensures At(w', root) == At(w, root).(blobs := At(w', root).blobs)
      ensures forall x :: x in At(w', root).blobs ==>
              x in At(mid, root).blobs && At(w', root).blobs[x] == At(mid, root).blobs[x]
      ensures forall x :: x in At(mid, root).blobs && x != d ==> x in At(w', root).blobs
    {
      assert At(w', root) == if root in gone then Remove(At(mid, root), Blob(d)) else At(mid, root);
    }
  }

  /** What GC sees of a blob it has not touched is what was there at the start. */
  lemma OwnerUnaffected(s: Store, repos: set<string>, w: World, mid: World, marked: set<Digest>, d: Digest, b: Backend)
    requires ValidStore(s) && OnlyGarbageLost(w, mid, marked) && Untouched(w, mid, d)
    ensures Owner(s, repos, mid, d, b) <==> Owner(s, repos, w, d, b)
  {
    forall repo ensures Holds(s, mid, repo, d) <==> Holds(s, w, repo, d) {
      forall root ensures Lookup(At(mid, root), Blob(d)) == Lookup(At(w, root), Blob(d)) {
        assert d in At(mid, root).blobs <==> d in At(w, root).blobs;
      }
      ReadDependsOnRoots(ReadOrder(Pick(s, repo)), w, mid, Blob(d));
    }
  }

  lemma SweepExact(s: Store, repos: set<string>, w: World, mid: World, w': World, marked: set<Digest>,
                   seen: set<Digest>, d: Digest, b: Backend)
    requires ValidStore(s) && Valid(b) && d !in marked && d !in seen
    requires OnlyGarbageLost(w, mid, marked) && SweptDigests(s, repos, marked, w, mid, seen)
    requires Owner(s, repos, mid, d, b) && Swept(mid, w', Roots(b), Blob(d))
    ensures SweptDigests(s, repos, marked, w, w', seen + {d})
  {
    hide Owner, Roots;
    assert Untouched(w, mid, d);
    OwnerUnaffected(s, repos, w, mid, marked, d, b);
    forall x, root ensures x in At(w', root).blobs <==> x in At(mid, root).blobs && !(x == d && root in Roots(b)) {
      assert At(w', root) == if root in Roots(b) then Remove(At(mid, root), Blob(d)) else At(mid, root);
    }
    assert LostFrom(w, w', d, b);
    forall x | x != d
      ensures if x in seen + {d} && x !in marked
              then exists c :: Valid(c) && Owner(s, repos, w, x, c) && LostFrom(w, w', x, c)
              else Untouched(w, w', x)
    {
      if x in seen && x !in marked {
        var c :| Valid(c) && Owner(s, repos, w, x, c) && LostFrom(w, mid, x, c);
        assert LostFrom(w, w', x, c);
      } else {
        assert Untouched(w, mid, x);
      }
    }
  }

  lemma SweepSkip(s: Store, repos: set<string>, w: World, mid: World, marked: set<Digest>, seen: set<Digest>, d: Digest)
    requires ValidStore(s) && d in marked && SweptDigests(s, repos, marked, w, mid, seen)
    ensures SweptDigests(s, repos, marked, w, mid, seen + {d})
  {
  }

  lemma SweepStart(s: Store, repos: set<string>, w: World, marked: set<Digest>)
    requires ValidStore(s)
    ensures SweptDigests(s, repos, marked, w, w, {}) && OnlyGarbageLost(w, w, marked)
  {
  }

  /** On a plain backend deleting one digest takes exactly its bytes out of use. */
  lemma PlainDelete(b: Backend, mid: World, w': World, d: Digest)
    requires Valid(b) && Swept(mid, w', Roots(b), Blob(d))
    ensures Logical(ReadOrder(b), w').blobs == Logical(ReadOrder(b), mid).blobs - {d}
    ensures Read(ReadOrder(b), mid, Blob(d)).Some? ==>
              Used(ReadOrder(b), mid) == Used(ReadOrder(b), w') + |Read(ReadOrder(b), mid, Blob(d)).value|
    ensures Read(ReadOrder(b), mid, Blob(d)).None? ==> Used(ReadOrder(b), mid) == Used(ReadOrder(b), w')
  {
    hide Logical, Total, Read, Swept, ReadOrder;
    var o := ReadOrder(b);
    var before, after := Logical(o, mid).blobs, Logical(o, w').blobs;
    forall x
      ensures x in after <==> x in before && x != d
      ensures x in after ==> after[x] == before[x]
    {
      LogicalManifests(o, mid, Blob(x));
      LogicalManifests(o, w', Blob(x));
      SweptRead(b, mid, w', d, x);
    }
    assert after == before - {d};
    LogicalManifests(o, mid, Blob(d));
    if d in before { TotalWithout(before, d); } else { assert before - {d} == before; }
  }

  lemma SweptRead(b: Backend, w: World, w': World, d: Digest, x: Digest)
    requires Valid(b) && Swept(w, w', Roots(b), Blob(d))
    ensures Read(ReadOrder(b), w', Blob(x)) == if x == d then None else Read(ReadOrder(b), w, Blob(x))
  {
    hide Read, Roots;
    if x == d { DeletedIsUnread(b, w, w', Blob(d)); } else { ReadDependsOnRoots(ReadOrder(b), w, w', Blob(x)); }
  }

  /** One unmarked digest: deleted where it is found, with its size. */
  method SweepOne(disks: Disks, s: Store, repos: set<string>, marked: set<Digest>, d: Digest, ghost w: World,
                  ghost seen: set<Digest>)
    returns (r: Result<()>, freed: nat)
    requires ValidStore(s) && d !in marked && d !in seen && d in DigestsIn(AllRoots(s), w, AllBlobs)
    requires OnlyGarbageLost(w, disks.vols, marked)
    modifies disks
    ensures (r.Ok? || r.NotFound? || r.Fault?) && (!r.Ok? ==> freed == 0)
    ensures disks.faults >= old(disks.faults) && (r.Fault? ==> disks.faults > old(disks.faults))
    ensures OnlyGarbageLost(w, disks.vols, marked)
    ensures disks.faults == old(disks.faults) ==>
              SweptOne(s, repos, marked, w, old(disks.vols), disks.vols, seen, d, r, freed)
  {
    hide SweptDigests, OnlyGarbageLost, Owner, Swept, Used, DigestsIn, Read, ReadOrder, Roots, AllRoots;
    ghost var mid := disks.vols;
    var owner := LocateOwner(disks, s, repos, d);
    var b := Pick(s, owner);
    var size := disks.Get(b, Blob(d));
    ghost var gone, hit;
    r, gone, hit := disks.Delete(b, Blob(d));
    freed := if r.Ok? && size.Ok? then |size.value| else 0;
    SweepSafe(w, mid, disks.vols, marked, d, gone);
    if disks.faults == old(disks.faults) && SweptDigests(s, repos, marked, w, mid, seen) {
      SweepExact(s, repos, w, mid, disks.vols, marked, seen, d, b);
      if s.Plain? {
        PlainDelete(b, mid, disks.vols, d);
        NotFoundUnread(b, disks.vols, d);
        StillThere(b, repos, w, mid, marked, seen, d);
      }
    }
  }

  /** What a fault-free delete of one digest achieves. */
  ghost predicate SweptOne(s: Store, repos: set<string>, marked: set<Digest>, w: World, mid: World, now: World,
                           seen: set<Digest>, d: Digest, r: Result<()>, freed: nat)
    requires ValidStore(s)
  {
    SweptDigests(s, repos, marked, w, mid, seen) ==>
      && SweptDigests(s, repos, marked, w, now, seen + {d})
      && (s.Plain? ==> r.Ok? && Used(ReadOrder(s.backend), mid) == Used(ReadOrder(s.backend), now) + freed)
  }

  /** How far the sweep got: what is gone, and on a plain backend what was counted. */
  ghost predicate SweepProgress(s: Store, repos: set<string>, marked: set<Digest>, w: World, now: World,
                                seen: set<Digest>, deleted: nat, bytes: nat)
    requires ValidStore(s)
  {
    && SweptDigests(s, repos, marked, w, now, seen)
    && (s.Plain? ==> && Used(ReadOrder(s.backend), w) == Used(ReadOrder(s.backend), now) + bytes
                     && deleted == |seen - marked|)
  }

  lemma ProgressStart(s: Store, repos: set<string>, marked: set<Digest>, w: World)
    requires ValidStore(s)
    ensures SweepProgress(s, repos, marked, w, w, {}, 0, 0) && OnlyGarbageLost(w, w, marked)
  {
    hide SweptDigests, OnlyGarbageLost, Used;
    SweepStart(s, repos, w, marked);
    assert {} - marked == {};
  }

  lemma ProgressSkip(s: Store, repos: set<string>, marked: set<Digest>, w: World, now: World, seen: set<Digest>,
                     deleted: nat, bytes: nat, d: Digest)
    requires ValidStore(s) && SweepProgress(s, repos, marked, w, now, seen, deleted, bytes) && d in marked
    ensures SweepProgress(s, repos, marked, w, now, seen + {d}, deleted, bytes)
  {
    hide SweptDigests, Used, ReadOrder;
    SweepSkip(s, repos, w, now, marked, seen, d);
    assert seen + {d} - marked == seen - marked;
  }

  lemma ProgressOne(s: Store, repos: set<string>, marked: set<Digest>, w: World, mid: World, now: World,
                    seen: set<Digest>, deleted: nat, bytes: nat, d: Digest, r: Result<()>, freed: nat)
    requires ValidStore(s) && SweepProgress(s, repos, marked, w, mid, seen, deleted, bytes)
    requires d !in marked && d !in seen && SweptOne(s, repos, marked, w, mid, now, seen, d, r, freed)
    ensures SweepProgress(s, repos, marked, w, now, seen + {d}, if r.Ok? then deleted + 1 else deleted,
                          if r.Ok? then bytes + freed else bytes)
  {
    hide SweptDigests, Used, ReadOrder;
    assert seen + {d} - marked == (seen - marked) + {d};
  }

  lemma ProgressEnd(s: Store, repos: set<string>, marked: set<Digest>, w: World, now: World, seen: set<Digest>,
                    deleted: nat, bytes: nat)
    requires ValidStore(s) && SweepProgress(s, repos, marked, w, now, seen, deleted, bytes)
    ensures SweptDigests(s, repos, marked, w, now, seen)
    ensures s.Plain? ==> && Used(ReadOrder(s.backend), w) == Used(ReadOrder(s.backend), now) + bytes
                         && deleted == |seen - marked|
  {
    hide SweptDigests, Used, ReadOrder;
  }

  method Sweep(disks: Disks, s: Store, repos: set<string>, marked: set<Digest>)
    returns (r: Result<()>, deleted: nat, bytes: nat)
    requires ValidStore(s)
    modifies disks
    ensures r.Ok? || r.Fault?
    ensures disks.faults >= old(disks.faults) && (r.Fault? ==> disks.faults > old(disks.faults))
    ensures OnlyGarbageLost(old(disks.vols), disks.vols, marked)
    ensures disks.faults == old(disks.faults) ==>
              SweptDigests(s, repos, marked, old(disks.vols), disks.vols,
                           DigestsIn(AllRoots(s), old(disks.vols), AllBlobs))
    ensures disks.faults == old(disks.faults) && s.Plain? ==>
              && Used(ReadOrder(s.backend), old(disks.vols)) == Used(ReadOrder(s.backend), disks.vols) + bytes
              && deleted == |DigestsIn(AllRoots(s), old(disks.vols), AllBlobs) - marked|
  {
    hide SweptDigests, OnlyGarbageLost, Used, DigestsIn, ReadOrder, AllRoots, SweepProgress;
    ghost var w := disks.vols;
    deleted, bytes := 0, 0;
    ProgressStart(s, repos, marked, w);
    var listed := ListStoreBlobs(disks, s);
    if !listed.Ok? { return Fault, deleted, bytes; }
    var todo := listed.value;
    assert listed.value - todo == {};
    while todo != {}
      invariant todo <= listed.value && disks.faults >= old(disks.faults)
      invariant OnlyGarbageLost(w, disks.vols, marked)
      invariant disks.faults == old(disks.faults) ==>
                  SweepProgress(s, repos, marked, w, disks.vols, listed.value - todo, deleted, bytes)
    {
      var d :| d in todo;
      ghost var seen, mid := listed.value - todo, disks.vols;
      assert listed.value - (todo - {d}) == seen + {d};
      if d in marked {
        if disks.faults == old(disks.faults) { ProgressSkip(s, repos, marked, w, mid, seen, deleted, bytes, d); }
      } else {
        var one, freed := SweepOne(disks, s, repos, marked, d, w, seen);
        if one.Fault? { return Fault, deleted, bytes; }
        if disks.faults == old(disks.faults) {
          ProgressOne(s, repos, marked, w, mid, disks.vols, seen, deleted, bytes, d, one, freed);
        }
        if one.Ok? { deleted, bytes := deleted + 1, bytes + freed; }
      }
      todo := todo - {d};
    }
    assert listed.value - todo == listed.value;
    if disks.faults == old(disks.faults) { ProgressEnd(s, repos, marked, w, disks.vols, listed.value, deleted, bytes); }
    r := Ok(());
  }

  /** A listed digest not swept yet is still on some root of the backend. */
  lemma StillThere(b: Backend, repos: set<string>, w: World, mid: World, marked: set<Digest>, seen: set<Digest>,
                   d: Digest)
    requires Valid(b) && SweptDigests(Plain(b), repos, marked, w, mid, seen) && d !in seen
    requires d in DigestsIn(AllRoots(Plain(b)), w, AllBlobs)
    ensures !Absent(mid, Roots(b), Blob(d))
  {
    hide Roots;
    PlainRoots(b);
    var root :| root in Roots(b) && d in Digests(At(w, root), AllBlobs);
    assert Untouched(w, mid, d);
    assert Stored(At(mid, root), Blob(d));
  }

  lemma NotFoundUnread(b: Backend, w: World, d: Digest)
    requires Valid(b)
    ensures Absent(w, Roots(b), Blob(d)) ==> Read(ReadOrder(b), w, Blob(d)).None?
  {
    ReadFinds(ReadOrder(b), w, Blob(d));
    assert forall root :: root in ReadOrder(b) ==> root in Roots(b);
  }

  /** `gc::run`. Under any faults only unmarked blobs go away and nothing else changes. Fault-free, each
      unmarked digest listed loses its copies on exactly one owner; on a plain backend the report accounts
      for every byte freed. */
  method Run(disks: Disks, s: Store) returns (r: Result<GcReport>)
    requires ValidStore(s)
    modifies disks
    ensures r.Ok? || r.Fault?
    ensures disks.faults >= old(disks.faults) && (r.Fault? ==> disks.faults > old(disks.faults))
    ensures OnlyGarbageLost(old(disks.vols), disks.vols, Marked(disks.env, s, old(disks.vols)))
    ensures disks.faults == old(disks.faults) ==> GcPass(disks.env, s, old(disks.vols), disks.vols)
    ensures disks.faults == old(disks.faults) && s.Plain? ==>
              && Used(ReadOrder(s.backend), old(disks.vols)) == Used(ReadOrder(s.backend), disks.vols)
                 + r.value.deletedBytes
              && r.value.deletedBlobs == |DigestsIn(AllRoots(s), old(disks.vols), AllBlobs) - Marked(disks.env, s,
                  old(disks.vols))|
    ensures r.Ok? ==> r.value.reposScanned == |ReposIn(s, old(disks.vols))|
                      && r.value.manifestsScanned == Scanned(s, old(disks.vols), ReposIn(s, old(disks.vols)))
                      && r.value.reachableBlobs == |Marked(disks.env, s, old(disks.vols))|
  {
    hide SweptDigests, OnlyGarbageLost, Used, RepoMarks, GraphOf, DigestsIn, ReadOrder, ReposIn, Scanned;
    SweepStart(s, {}, disks.vols, Marked(disks.env, s, disks.vols));
    var listed := ListStoreRepos(disks, s);
    if !listed.Ok? { return Fault; }
    var todo, scanned, reachable := listed.value, 0, {};
    ScannedNothing(s, disks.vols);
    assert listed.value - todo == {};
    while todo != {}
      invariant todo <= listed.value && disks.faults == old(disks.faults) && disks.vols == old(disks.vols)
      invariant scanned == Scanned(s, disks.vols, listed.value - todo)
      invariant reachable == MarkedAmong(disks.env, s, disks.vols, listed.value - todo)
    {
      var repo :| repo in todo;
      var one, n, marks := MarkRepo(disks, s, repo);
      if !one.Ok? { return Fault; }
      assert listed.value - (todo - {repo}) == listed.value - todo + {repo};
      ScannedSnoc(s, disks.vols, listed.value - todo, repo);
      MarkedAmongSnoc(disks.env, s, disks.vols, listed.value - todo, repo);
      reachable, scanned, todo := reachable + marks, scanned + n, todo - {repo};
    }
    assert listed.value - todo == listed.value;
    var done, deleted, bytes := Sweep(disks, s, listed.value, reachable);
    if !done.Ok? { return Fault; }
    r := Ok(GcReport(|listed.value|, scanned, |reachable|, deleted, bytes));
  }

  lemma MarkedAmongSnoc(e: Env, s: Store, w: World, repos: set<string>, repo: string)
    requires ValidStore(s)
    ensures MarkedAmong(e, s, w, repos + {repo}) == MarkedAmong(e, s, w, repos) + RepoMarks(e, s, w, repo)
  {
    hide RepoMarks;
  }

  /** One fault-free GC run, as a relation between worlds. */
  ghost predicate GcPass(e: Env, s: Store, w: World, w': World)
    requires ValidStore(s)
  {
    && OnlyGarbageLost(w, w', Marked(e, s, w))
    && SweptDigests(s, ReposIn(s, w), Marked(e, s, w), w, w', DigestsIn(AllRoots(s), w, AllBlobs))
  }
}
