/** What garbage collection guarantees: exactness on one backend, convergence through a router. */
module CollectingTheorems {
  import opened Content
  import opened Volumes
  import opened Backends
  import opened Devices
  import opened Routing
  import opened Walks
  import opened Collecting

  lemma ManifestStays(w: World, w': World, marked: set<Digest>, root: Root, repo: string, d: Digest)
    requires OnlyGarbageLost(w, w', marked)
    ensures Lookup(At(w', root), Mani(repo, d)) == Lookup(At(w, root), Mani(repo, d))
  {
    assert At(w', root) == At(w, root).(blobs := At(w', root).blobs);
  }

  lemma SameReadsSameGraph(o: seq<Root>, w: World, w': World, repo: string)
    requires forall d :: Read(o, w', Mani(repo, d)) == Read(o, w, Mani(repo, d))
    ensures GraphOf(o, w', repo) == GraphOf(o, w, repo)
  {
    hide Read, DigestsIn;
    forall d ensures d in GraphOf(o, w', repo) <==> d in GraphOf(o, w, repo) {
      GraphReads(o, w', repo, d);
      GraphReads(o, w, repo, d);
    }
  }

  /** A manifest read does not see blobs come and go. */
  lemma GraphStable(w: World, w': World, marked: set<Digest>, o: seq<Root>, repo: string)
    requires OnlyGarbageLost(w, w', marked)
    ensures GraphOf(o, w', repo) == GraphOf(o, w, repo)
  {
    hide OnlyGarbageLost, Read, Lookup;
    forall d ensures Read(o, w', Mani(repo, d)) == Read(o, w, Mani(repo, d)) {
      forall root ensures Lookup(At(w', root), Mani(repo, d)) == Lookup(At(w, root), Mani(repo, d)) {
        ManifestStays(w, w', marked, root, repo, d);
      }
      ReadDependsOnRoots(o, w, w', Mani(repo, d));
    }
    SameReadsSameGraph(o, w, w', repo);
  }

  lemma ReposStable(w: World, w': World, marked: set<Digest>, roots: set<Root>)
    requires OnlyGarbageLost(w, w', marked)
    ensures NamesIn(roots, w', Repos) == NamesIn(roots, w, Repos)
  {
    forall root ensures Names(At(w', root), Repos) == Names(At(w, root), Repos) {
      assert At(w', root) == At(w, root).(blobs := At(w', root).blobs);
    }
  }

  /** Sweeping does not change what is marked. */
  lemma MarkedStable(e: Env, s: Store, w: World, w': World, marked: set<Digest>)
    requires ValidStore(s) && OnlyGarbageLost(w, w', marked)
    ensures ReposIn(s, w') == ReposIn(s, w) && Marked(e, s, w') == Marked(e, s, w)
  {
    ReposStable(w, w', marked, AllRoots(s));
    forall repo ensures RepoMarks(e, s, w', repo) == RepoMarks(e, s, w, repo) {
      GraphStable(w, w', marked, ReadOrder(Pick(s, repo)), repo);
    }
    hide RepoMarks, ReposIn;
    assert MarkedAmong(e, s, w', ReposIn(s, w)) == MarkedAmong(e, s, w, ReposIn(s, w));
  }

  function KeepOnly(v: Vol, marked: set<Digest>): Vol {
    v.(blobs := map d | d in v.blobs && d in marked :: v.blobs[d])
  }

  /** On one backend a fault-free run leaves on each of its roots exactly the marked blobs, and touches
      no other root. */
  lemma PlainGcIsExact(e: Env, b: Backend, w: World, w': World, root: Root)
    requires Valid(b) && GcPass(e, Plain(b), w, w')
    ensures At(w', root) == if root in Roots(b) then KeepOnly(At(w, root), Marked(e, Plain(b), w)) else At(w, root)
  {
    hide Roots, Marked;
    var marked := Marked(e, Plain(b), w);
    forall d ensures d in At(w', root).blobs <==> d in At(w, root).blobs && (d in marked || root !in Roots(b)) {
      PlainFate(e, b, w, w', d);
    }
    assert At(w', root) == At(w, root).(blobs := At(w', root).blobs);
    if root in Roots(b) {
      assert At(w', root).blobs == KeepOnly(At(w, root), marked).blobs;
    } else {
      assert At(w', root).blobs == At(w, root).blobs;
    }
  }

  lemma PlainFate(e: Env, b: Backend, w: World, w': World, d: Digest)
    requires Valid(b) && GcPass(e, Plain(b), w, w')
    ensures if d in Marked(e, Plain(b), w) then Untouched(w, w', d) else LostFrom(w, w', d, b)
  {
    hide Roots, Marked, OnlyGarbageLost;
    var s := Plain(b);
    PlainRoots(b);
    if d in DigestsIn(AllRoots(s), w, AllBlobs) && d !in Marked(e, s, w) {
      var c :| Valid(c) && Owner(s, ReposIn(s, w), w, d, c) && LostFrom(w, w', d, c);
      assert c == b;
    } else {
      assert Untouched(w, w', d);
      forall root | root in Roots(b) && d !in Marked(e, s, w) ensures d !in At(w, root).blobs {
        assert d in Digests(At(w, root), AllBlobs) <==> d in At(w, root).blobs;
      }
    }
  }

  /** A second run finds nothing to delete. */
  lemma PlainGcTwiceDeletesNothing(e: Env, b: Backend, w: World, w': World, w'': World, root: Root)
    requires Valid(b) && GcPass(e, Plain(b), w, w') && GcPass(e, Plain(b), w', w'')
    ensures At(w'', root) == At(w', root)
  {
    hide Marked, GcPass, OnlyGarbageLost, Roots;
    PassMarksSame(e, Plain(b), w, w');
    PlainGcIsExact(e, b, w, w', root);
    PlainGcIsExact(e, b, w', w'', root);
    KeepTwice(At(w, root), Marked(e, Plain(b), w));
  }

  lemma PassMarksSame(e: Env, s: Store, w: World, w': World)
    requires ValidStore(s) && GcPass(e, s, w, w')
    ensures Marked(e, s, w') == Marked(e, s, w)
  {
    MarkedStable(e, s, w, w', Marked(e, s, w));
  }

  lemma KeepTwice(v: Vol, marked: set<Digest>)
    ensures KeepOnly(KeepOnly(v, marked), marked) == KeepOnly(v, marked)
  {
    assert KeepOnly(KeepOnly(v, marked), marked).blobs == KeepOnly(v, marked).blobs;
  }

  // ---- Through a router -------------------------------------------------------------------

  /** The backends of listed repositories that hold a digest. */
  ghost function Holders(s: Store, w: World, d: Digest): set<Backend>
    requires ValidStore(s)
  {
    set repo | repo in ReposIn(s, w) && Read(ReadOrder(Pick(s, repo)), w, Blob(d)).Some? :: Pick(s, repo)
  }

  lemma HoldersAreBackends(s: Store, w: World, d: Digest)
    requires ValidStore(s)
    ensures Holders(s, w, d) <= BackendsOf(s) && |Holders(s, w, d)| <= |BackendsOf(s)|
  {
    forall b | b in Holders(s, w, d) ensures b in BackendsOf(s) {
      var repo :| repo in ReposIn(s, w) && b == Pick(s, repo);
      PickIsBackend(s, repo);
    }
    SubsetSize(Holders(s, w, d), BackendsOf(s));
  }

  lemma {:induction false} SubsetSize<T>(a: set<T>, b: set<T>)
    requires a <= b
    ensures |a| <= |b|
    decreases a
  {
    if a != {} {
      var x :| x in a;
      SubsetSize(a - {x}, b - {x});
    }
  }

  lemma RootsAreElements(b: Backend, root: Root)
    requires Valid(b) && root in ReadOrder(b)
    ensures root in Roots(b)
  {
  }

  lemma BlobListed(v: Vol, d: Digest)
    requires Lookup(v, Blob(d)).Some?
    ensures d in Digests(v, AllBlobs)
  {
  }

  lemma HeldIsListed(s: Store, w: World, d: Digest)
    requires ValidStore(s) && Holders(s, w, d) != {}
    ensures d in DigestsIn(AllRoots(s), w, AllBlobs)
  {
    hide Read, Pick, Lookup, Roots;
    var b :| b in Holders(s, w, d);
    var repo :| repo in ReposIn(s, w) && Read(ReadOrder(Pick(s, repo)), w, Blob(d)).Some?;
    var o := ReadOrder(Pick(s, repo));
    ReadFinds(o, w, Blob(d));
    var root :| root in o && Lookup(At(w, root), Blob(d)).Some?;
    PickIsBackend(s, repo);
    assert root in Roots(Pick(s, repo)) by { RootsAreElements(Pick(s, repo), root); }
    assert d in Digests(At(w, root), AllBlobs) by { BlobListed(At(w, root), d); }
  }

  /** A pass takes an unmarked digest away from exactly one of the backends holding it. */
  lemma PassTakesOneCopy(e: Env, s: Store, w: World, w': World, d: Digest) returns (b: Backend)
    requires ValidStore(s) && GcPass(e, s, w, w') && d !in Marked(e, s, w) && Holders(s, w, d) != {}
    ensures Valid(b) && b in Holders(s, w, d) && LostFrom(w, w', d, b)
    ensures Holders(s, w', d) <= Holders(s, w, d) - {b}
  {
    hide Marked, Holders, OnlyGarbageLost, LostFrom;
    HeldIsListed(s, w, d);
    TakesOne(e, s, w, w', d);
    b :| Valid(b) && b in Holders(s, w, d) && LostFrom(w, w', d, b);
    HoldersShrink(s, w, w', Marked(e, s, w), d, b);
  }

  lemma HoldersShrink(s: Store, w: World, w': World, marked: set<Digest>, d: Digest, b: Backend)
    requires ValidStore(s) && OnlyGarbageLost(w, w', marked) && Valid(b) && LostFrom(w, w', d, b)
    ensures Holders(s, w', d) <= Holders(s, w, d) - {b}
  {
    hide OnlyGarbageLost, LostFrom, ReadOrder;
    ReposStable(w, w', marked, AllRoots(s));
    forall repo | repo in ReposIn(s, w') && Read(ReadOrder(Pick(s, repo)), w', Blob(d)).Some?
      ensures Read(ReadOrder(Pick(s, repo)), w, Blob(d)).Some? && Pick(s, repo) != b
    {
      BlobWasThere(w, w', marked, ReadOrder(Pick(s, repo)), d);
      LostIsUnread(w, w', d, b);
    }
  }

  lemma BlobWasThere(w: World, w': World, marked: set<Digest>, o: seq<Root>, d: Digest)
    requires OnlyGarbageLost(w, w', marked) && Read(o, w', Blob(d)).Some?
    ensures Read(o, w, Blob(d)).Some?
  {
    ReadFinds(o, w', Blob(d));
    ReadFinds(o, w, Blob(d));
    var root :| root in o && Lookup(At(w', root), Blob(d)).Some?;
    assert d in At(w', root).blobs;
    assert Lookup(At(w, root), Blob(d)).Some?;
  }

  lemma LostIsUnread(w: World, w': World, d: Digest, b: Backend)
    requires Valid(b) && LostFrom(w, w', d, b)
    ensures Read(ReadOrder(b), w', Blob(d)).None?
  {
    ReadFinds(ReadOrder(b), w', Blob(d));
    forall root | root in ReadOrder(b) ensures Lookup(At(w', root), Blob(d)).None? { assert root in Roots(b); }
  }

  lemma TakesOne(e: Env, s: Store, w: World, w': World, d: Digest)
    requires ValidStore(s) && GcPass(e, s, w, w') && d !in Marked(e, s, w)
    requires d in DigestsIn(AllRoots(s), w, AllBlobs) && Holders(s, w, d) != {}
    ensures exists b :: Valid(b) && b in Holders(s, w, d) && LostFrom(w, w', d, b)
  {
    hide OnlyGarbageLost, Marked, DigestsIn, ReposIn, ReadOrder, Read;
    var b :| Valid(b) && Owner(s, ReposIn(s, w), w, d, b) && LostFrom(w, w', d, b);
    var c :| c in Holders(s, w, d);
    var repo :| repo in ReposIn(s, w) && Read(ReadOrder(Pick(s, repo)), w, Blob(d)).Some?;
    assert Holds(s, w, repo, d);
    var own :| own in ReposIn(s, w) && Holds(s, w, own, d) && b == Pick(s, own);
    assert b in Holders(s, w, d);
  }

  ghost predicate Passes(e: Env, s: Store, ws: seq<World>)
    requires ValidStore(s)
  {
    ws != [] && forall i {:trigger ws[i + 1]} :: 0 <= i < |ws| - 1 ==> GcPass(e, s, ws[i], ws[i + 1])
  }

  /** Marked digests survive any number of passes everywhere; of an unmarked one each pass removes one
      backend's copy until no listed repository's backend holds it. */
  lemma {:induction false} RepeatedPasses(e: Env, s: Store, ws: seq<World>, d: Digest)
    requires ValidStore(s) && Passes(e, s, ws)
    ensures Marked(e, s, ws[|ws| - 1]) == Marked(e, s, ws[0])
    ensures d in Marked(e, s, ws[0]) ==> forall root :: d in At(ws[0], root).blobs ==> d in At(ws[|ws| - 1], root).blobs
    ensures d !in Marked(e, s, ws[0]) ==>
              Holders(s, ws[|ws| - 1], d) == {} || |Holders(s, ws[|ws| - 1], d)| <= |Holders(s, ws[0], d)| - (|ws| - 1)
    decreases |ws|
  {
    hide Marked, Holders, OnlyGarbageLost, GcPass;
    if |ws| > 1 {
      var init := ws[..|ws| - 1];
      var w, w' := init[|init| - 1], ws[|ws| - 1];
      var k := |ws| - 2;
      assert w == ws[k] && w' == ws[k + 1];
      RepeatedPasses(e, s, init, d);
      PassKeeps(e, s, w, w', d);
    }
  }

  lemma PassKeeps(e: Env, s: Store, w: World, w': World, d: Digest)
    requires ValidStore(s) && GcPass(e, s, w, w')
    ensures Marked(e, s, w') == Marked(e, s, w)
    ensures d in Marked(e, s, w) ==> forall root :: d in At(w, root).blobs ==> d in At(w', root).blobs
    ensures d !in Marked(e, s, w) ==> Holders(s, w', d) == {} || |Holders(s, w', d)| <= |Holders(s, w, d)| - 1
  {
    hide Marked, Holders;
    MarkedStable(e, s, w, w', Marked(e, s, w));
    if d !in Marked(e, s, w) {
      if Holders(s, w, d) == {} {
        NobodyGains(e, s, w, w', d);
      } else {
        var b := PassTakesOneCopy(e, s, w, w', d);
        SubsetSize(Holders(s, w', d), Holders(s, w, d) - {b});
      }
    }
  }

  lemma NobodyGains(e: Env, s: Store, w: World, w': World, d: Digest)
    requires ValidStore(s) && GcPass(e, s, w, w') && Holders(s, w, d) == {}
    ensures Holders(s, w', d) == {}
  {
    hide OnlyGarbageLost, Marked, ReadOrder;
    ReposStable(w, w', Marked(e, s, w), AllRoots(s));
    forall repo | repo in ReposIn(s, w') && Read(ReadOrder(Pick(s, repo)), w', Blob(d)).Some?
      ensures Pick(s, repo) in Holders(s, w, d)
    {
      BlobWasThere(w, w', Marked(e, s, w), ReadOrder(Pick(s, repo)), d);
    }
  }

  /** As many passes as there are distinct backends always suffice. */
  lemma EnoughPassesSweepEverything(e: Env, s: Store, ws: seq<World>, d: Digest)
    requires ValidStore(s) && Passes(e, s, ws) && |ws| - 1 >= |BackendsOf(s)| && d !in Marked(e, s, ws[0])
    ensures Holders(s, ws[|ws| - 1], d) == {}
  {
    RepeatedPasses(e, s, ws, d);
    HoldersAreBackends(s, ws[0], d);
  }
}
