/** What one write of the backfill shows through the overlay: the exact effect on every read, listing and byte
    count. */
module Overlaying {
  import opened Backends
  import opened Content
  import opened Merging
  import opened Protocol
  import opened Volumes
  import opened ZeroMiss

  /** The first root of the destination holds a pointer of a tag to a manifest that is about to arrive there. */
  predicate Undangles(c: Plan, w: World, k: Key, k': Key)
    requires PlanOk(c)
  {
    var v := At(w, Target(c.dest));
    && k.Mani? && k'.Tagged? && k'.repo == k.repo
    && (k.repo, k'.tag) in v.tags && v.tags[(k.repo, k'.tag)] == k.digest && (k.repo, k.digest) !in v.manifests
  }

  /** The exact effect of copying one blob or manifest on every read of the overlay: none, except that a tag
      whose pointer on the new volume dangled at this very manifest now reads it. */
  lemma StoreThroughOverlay(c: Plan, w: World, k: Key, k': Key)
    requires PlanOk(c) && Genuine(c.e, c.truth, w) && !k.Tagged? && Read(OldRoots(c), w, k).Some?
    ensures var o, bytes := NewRoots(c) + OldRoots(c), Read(OldRoots(c), w, k).value;
            Read(o, StoreAt(c, w, k, bytes), k') == if Undangles(c, w, k, k') then Some(bytes) else Read(o, w, k')
  {
    hide Genuine, Additive, Read, StoreAt;
    var o, t := NewRoots(c) + OldRoots(c), Target(c.dest);
    var bytes := Read(OldRoots(c), w, k).value;
    var w' := StoreAt(c, w, k, bytes);
    GenuineRead(c.e, c.truth, OldRoots(c), w, k);
    StoredLookup(c, w, k, bytes, k');
    FirstOfOverlay(c, w', k');
    if k'.Tagged? {
      if !Undangles(c, w, k, k') { ReadDependsOnRoots(o, w, w', k'); }
    } else {
      StoreAdds(c, w, k, bytes);
      AdditiveGrows(c, w, w', t);
      AdditiveGenuine(c, w, w', t);
      GrowsPreserves(c.e, c.truth, o, w, w');
      ReadConcat(NewRoots(c), OldRoots(c), w, k);
      if k' != k { ReadDependsOnRoots(o, w, w', k'); }
    }
  }

  lemma FirstOfOverlay(c: Plan, w: World, k: Key)
    requires PlanOk(c)
    ensures Lookup(At(w, Target(c.dest)), k).Some? ==>
            Read(NewRoots(c) + OldRoots(c), w, k) == Lookup(At(w, Target(c.dest)), k)
  {
    assert (NewRoots(c) + OldRoots(c))[0] == Target(c.dest);
  }

  lemma StoredElsewhere(c: Plan, w: World, k: Key, bytes: Bytes)
    requires PlanOk(c)
    ensures forall root :: root != Target(c.dest) ==> At(StoreAt(c, w, k, bytes), root) == At(w, root)
    ensures At(StoreAt(c, w, k, bytes), Target(c.dest)) == StoredVol(c.e, At(w, Target(c.dest)), k, bytes)
  {
  }

  function StoredVol(e: Env, v: Vol, k: Key, bytes: Bytes): Vol {
    match k
    case Blob(d) => WriteBlob(e, v, d, bytes).0
    case Mani(r, _) => PutBytes(e, v, r, bytes)
    case Tagged(_, _) => v
  }

  /** Root by root. */
  lemma StoredLookup(c: Plan, w: World, k: Key, bytes: Bytes, k': Key)
    requires PlanOk(c) && !k.Tagged? && Genuine(c.e, c.truth, w) && bytes == c.truth(k.digest)
    requires Hash(c.e, if k.Blob? then k.digest.algorithm else Sha256, bytes) == k.digest
    ensures var t, w' := Target(c.dest), StoreAt(c, w, k, bytes);
            && (forall root :: root != t ==> At(w', root) == At(w, root))
            && (k' != k && !Undangles(c, w, k, k') ==> Lookup(At(w', t), k') == Lookup(At(w, t), k'))
            && (Undangles(c, w, k, k') ==> Lookup(At(w', t), k') == Some(bytes))
  {
    hide Hash, StoreAt, StoredVol, Lookup, Genuine, GenuineVol;
    StoredElsewhere(c, w, k, bytes);
    GenuineAt(c.e, c.truth, w, Target(c.dest));
    if k' != k && k.Blob? { StoredBlob(c.e, At(w, Target(c.dest)), k, bytes, k'); }
    if k' != k && k.Mani? { StoredMani(c.e, c.truth, At(w, Target(c.dest)), k, bytes, k'); }
  }

  lemma StoredBlob(e: Env, v: Vol, k: Key, bytes: Bytes, k': Key)
    requires k.Blob? && k' != k
    ensures Lookup(StoredVol(e, v, k, bytes), k') == Lookup(v, k')
  {
    hide Hash;
  }

  lemma StoredMani(e: Env, truth: Digest -> Bytes, v: Vol, k: Key, bytes: Bytes, k': Key)
    requires k.Mani? && k' != k && GenuineVol(e, truth, v) && bytes == truth(k.digest)
             && Hash(e, Sha256, bytes) == k.digest
    ensures if k'.Tagged? && k'.repo == k.repo && (k.repo, k'.tag) in v.tags && v.tags[(k.repo, k'.tag)] == k.digest
                 && (k.repo, k.digest) !in v.manifests
            then Lookup(StoredVol(e, v, k, bytes), k') == Some(bytes)
            else Lookup(StoredVol(e, v, k, bytes), k') == Lookup(v, k')
  {
    hide Hash;
    var p := (k.repo, k.digest);
    assert p in v.manifests ==> v.manifests[p] == truth(p.1);
  }

  /** So a copy is invisible for a key if and only if it does not make a dangling pointer of the new volume
      resolve, or the tag already read those bytes. */
  lemma StoreIsInvisibleIff(c: Plan, w: World, k: Key, k': Key)
    requires PlanOk(c) && Genuine(c.e, c.truth, w) && !k.Tagged? && Read(OldRoots(c), w, k).Some?
    ensures var o, bytes := NewRoots(c) + OldRoots(c), Read(OldRoots(c), w, k).value;
            Read(o, StoreAt(c, w, k, bytes), k') == Read(o, w, k') <==>
              !Undangles(c, w, k, k') || Read(o, w, k') == Some(bytes)
  {
    hide Genuine, Read, StoreAt, Undangles;
    StoreThroughOverlay(c, w, k, k');
  }

  /** Listings through the overlay do not change at all. */
  lemma StoreKeepsListings(c: Plan, w: World, k: Key, names: NameList, digests: DigestList)
    requires PlanOk(c) && Genuine(c.e, c.truth, w) && !k.Tagged? && Read(OldRoots(c), w, k).Some?
    ensures var o, w' := Elements(NewRoots(c) + OldRoots(c)), StoreAt(c, w, k, Read(OldRoots(c), w, k).value);
            NamesIn(o, w', names) == NamesIn(o, w, names) && DigestsIn(o, w', digests) == DigestsIn(o, w, digests)
  {
    hide Genuine, Read, StoreAt, Names, Digests;
    var o, t := NewRoots(c) + OldRoots(c), Target(c.dest);
    var bytes := Read(OldRoots(c), w, k).value;
    var w' := StoreAt(c, w, k, bytes);
    GenuineRead(c.e, c.truth, OldRoots(c), w, k);
    ReadFinds(OldRoots(c), w, k);
    var root :| root in OldRoots(c) && Lookup(At(w, root), k).Some?;
    GenuineAt(c.e, c.truth, w, root);
    StoredNames(c, At(w, t), At(w, root), k, bytes, names, digests);
    StoredElsewhere(c, w, k, bytes);
    assert root in Elements(o) && t in Elements(o) by { assert o[0] == t; }
    forall x ensures x in NamesIn(Elements(o), w', names) <==> x in NamesIn(Elements(o), w, names) {
      NamesInOf(Elements(o), w, w', t, root, names, x);
    }
    forall x ensures x in DigestsIn(Elements(o), w', digests) <==> x in DigestsIn(Elements(o), w, digests) {
      DigestsInOf(Elements(o), w, w', t, root, digests, x);
    }
  }

  /** What one root gains is listed already on a root that has the key. */
  lemma StoredNames(c: Plan, v: Vol, other: Vol, k: Key, bytes: Bytes, names: NameList, digests: DigestList)
    requires GenuineVol(c.e, c.truth, other) && !k.Tagged? && Lookup(other, k).Some?
    requires Hash(c.e, if k.Blob? then k.digest.algorithm else Sha256, bytes) == k.digest
    ensures forall x :: x in Names(v, names) ==> x in Names(StoredVol(c.e, v, k, bytes), names)
    ensures forall x :: x in Names(StoredVol(c.e, v, k, bytes), names) ==>
            x in Names(v, names) || x in Names(other, names)
    ensures forall x :: x in Digests(v, digests) ==> x in Digests(StoredVol(c.e, v, k, bytes), digests)
    ensures forall x :: x in Digests(StoredVol(c.e, v, k, bytes), digests) ==>
            x in Digests(v, digests) || x in Digests(other, digests)
  {
    hide Listable, TmpName, Hash;
    if k.Mani? { assert (k.repo, k.digest).0 in other.dirs; }
  }

  lemma NamesInOf(o: set<Root>, w: World, w': World, t: Root, root: Root, what: NameList, x: string)
    requires t in o && root in o && forall r :: r != t ==> At(w', r) == At(w, r)
    requires x in Names(At(w, t), what) ==> x in Names(At(w', t), what)
    requires x in Names(At(w', t), what) ==> x in Names(At(w, t), what) || x in Names(At(w, root), what)
    ensures x in NamesIn(o, w', what) <==> x in NamesIn(o, w, what)
  {
    hide Names;
    if x in NamesIn(o, w', what) { var r :| r in o && x in Names(At(w', r), what); }
    if x in NamesIn(o, w, what) { var r :| r in o && x in Names(At(w, r), what); assert x in Names(At(w', r), what); }
  }

  lemma DigestsInOf(o: set<Root>, w: World, w': World, t: Root, root: Root, what: DigestList, x: Digest)
    requires t in o && root in o && forall r :: r != t ==> At(w', r) == At(w, r)
    requires x in Digests(At(w, t), what) ==> x in Digests(At(w', t), what)
    requires x in Digests(At(w', t), what) ==> x in Digests(At(w, t), what) || x in Digests(At(w, root), what)
    ensures x in DigestsIn(o, w', what) <==> x in DigestsIn(o, w, what)
  {
    hide Digests;
    if x in DigestsIn(o, w', what) { var r :| r in o && x in Digests(At(w', r), what); }
    if x in DigestsIn(o, w, what) {
      var r :| r in o && x in Digests(At(w, r), what);
      assert x in Digests(At(w', r), what);
    }
  }

  /** Nor do the bytes in use. */
  lemma StoreKeepsBytesInUse(c: Plan, w: World, k: Key)
    requires PlanOk(c) && Genuine(c.e, c.truth, w) && !k.Tagged? && Read(OldRoots(c), w, k).Some?
    ensures var o, w' := NewRoots(c) + OldRoots(c), StoreAt(c, w, k, Read(OldRoots(c), w, k).value);
            Used(o, w') == Used(o, w)
  {
    hide Logical, Read, Genuine, StoreAt, Undangles;
    var o, w' := NewRoots(c) + OldRoots(c), StoreAt(c, w, k, Read(OldRoots(c), w, k).value);
    forall d
      ensures d in Logical(o, w').blobs <==> d in Logical(o, w).blobs
      ensures d in Logical(o, w).blobs ==> Logical(o, w').blobs[d] == Logical(o, w).blobs[d]
    {
      StoreThroughOverlay(c, w, k, Blob(d));
      BlobUndanglesNothing(c, w, k, d);
      LogicalManifests(o, w, Blob(d));
      LogicalManifests(o, w', Blob(d));
    }
    assert Logical(o, w').blobs == Logical(o, w).blobs;
  }

  lemma BlobUndanglesNothing(c: Plan, w: World, k: Key, d: Digest)
    requires PlanOk(c)
    ensures !Undangles(c, w, k, Blob(d))
  {
  }

  /** A tag rewrite, as the tag loop does it: the manifest bytes, then the pointer. */
  function Rewritten(c: Plan, w: World, repo: string, tag: string, bytes: Bytes): World
    requires PlanOk(c)
  {
    var d := Hash(c.e, Sha256, bytes);
    PointAt(c, StoreAt(c, w, Mani(repo, d), bytes), repo, tag, d)
  }

  /** A tag rewrite leaves what the overlay serves for the tag unchanged if and only if the new volume
      does not already hold a different value for it; then it reverts the tag to the old value. */
  lemma TagRewriteInvisibleIff(c: Plan, w: World, repo: string, tag: string)
    requires PlanOk(c) && Genuine(c.e, c.truth, w) && Read(OldRoots(c), w, Tagged(repo, tag)).Some?
    ensures var o, k := NewRoots(c) + OldRoots(c), Tagged(repo, tag);
            var w' := Rewritten(c, w, repo, tag, Read(OldRoots(c), w, k).value);
            && Read(o, w', k) == Read(OldRoots(c), w, k)
            && (Read(o, w', k) == Read(o, w, k) <==>
                  Read(NewRoots(c), w, k).None? || Read(NewRoots(c), w, k) == Read(OldRoots(c), w, k))
  {
    hide Genuine, Hash, Read;
    var k := Tagged(repo, tag);
    var read := Read(OldRoots(c), w, k);
    var w' := Rewritten(c, w, repo, tag, read.value);
    assert Lookup(At(w', Target(c.dest)), k) == Some(read.value);
    FirstOfOverlay(c, w', k);
    ReadConcat(NewRoots(c), OldRoots(c), w, k);
  }

  /** Every other key: as when the manifest alone is copied. */
  lemma TagRewriteElsewhere(c: Plan, w: World, repo: string, tag: string, k: Key)
    requires PlanOk(c) && Genuine(c.e, c.truth, w) && Read(OldRoots(c), w, Tagged(repo, tag)).Some?
             && k != Tagged(repo, tag)
    ensures var o, bytes := NewRoots(c) + OldRoots(c), Read(OldRoots(c), w, Tagged(repo, tag)).value;
            Read(o, Rewritten(c, w, repo, tag, bytes), k) ==
              if Undangles(c, w, Mani(repo, Hash(c.e, Sha256, bytes)), k) then Some(bytes) else Read(o, w, k)
  {
    hide Genuine, Hash, Read, StoreAt, Undangles;
    var o, bytes := NewRoots(c) + OldRoots(c), Read(OldRoots(c), w, Tagged(repo, tag)).value;
    var d := Hash(c.e, Sha256, bytes);
    GenuineTagRead(c.e, c.truth, OldRoots(c), w, repo, tag);
    StoreThroughOverlay(c, w, Mani(repo, d), k);
    var mid := StoreAt(c, w, Mani(repo, d), bytes);
    PointElsewhere(c, mid, repo, tag, d, k);
    ReadDependsOnRoots(o, mid, PointAt(c, mid, repo, tag, d), k);
  }

  lemma PointElsewhere(c: Plan, w: World, repo: string, tag: string, d: Digest, k: Key)
    requires PlanOk(c) && k != Tagged(repo, tag)
    ensures forall root :: Lookup(At(PointAt(c, w, repo, tag, d), root), k) == Lookup(At(w, root), k)
  {
  }
}
