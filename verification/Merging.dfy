/** What a completed copy means for readers of source and destination. */
module Merging {
  import opened Content
  import opened Volumes
  import opened Backends
  import opened Copying
  import opened Devices

  /** Nothing readable is lost: reads by digest keep their bytes, tags keep resolving. */
  ghost predicate Preserves(o: seq<Root>, w: World, w': World) {
    && (forall k: Key :: !k.Tagged? && Read(o, w, k).Some? ==> Read(o, w', k) == Read(o, w, k))
    && (forall k: Key :: Read(o, w, k).Some? ==> Read(o, w', k).Some?)
  }

  /** Root by root: everything resolvable stays resolvable. */
  ghost predicate Grows(w: World, w': World) {
    forall root, k: Key :: Lookup(At(w, root), k).Some? ==> Lookup(At(w', root), k).Some?
  }

  lemma GrowsPreserves(e: Env, truth: Digest -> Bytes, o: seq<Root>, w: World, w': World)
    requires Genuine(e, truth, w) && Genuine(e, truth, w') && Grows(w, w')
    ensures Preserves(o, w, w')
  {
    forall k: Key | Read(o, w, k).Some?
      ensures Read(o, w', k).Some? && (!k.Tagged? ==> Read(o, w', k) == Read(o, w, k))
    {
      ReadFinds(o, w, k);
      ReadFinds(o, w', k);
      var root :| root in o && Lookup(At(w, root), k).Some?;
      assert Lookup(At(w', root), k).Some?;
      if !k.Tagged? {
        GenuineRead(e, truth, o, w, k);
        GenuineRead(e, truth, o, w', k);
      }
    }
  }

  lemma GrownKeeps(v: Vol, b: map<Digest, Bytes>, m: map<Pair, Bytes>, g: TagMap, k: Key)
    requires forall p :: p in g ==> (p.0, g[p]) in m
    requires Lookup(v, k).Some?
    ensures Lookup(Grown(v, b, m, g), k).Some?
  {
    if k.Tagged? && (k.repo, k.tag) in g {
      assert (k.repo, g[(k.repo, k.tag)]) in m;
    }
  }

  lemma PartCopyGrows(e: Env, truth: Digest -> Bytes, os: seq<Root>, od: seq<Root>, w: World, w': World, t: Root,
                      blobs: set<Digest>, manis: set<Pair>, tags: TagMap, b: map<Digest, Bytes>, m: map<Pair, Bytes>,
                      g: TagMap)
    requires PartCopy(e, truth, os, od, w, w', t, blobs, manis, tags, b, m, g)
    ensures Grows(w, w')
  {
    forall root, k: Key | Lookup(At(w, root), k).Some? ensures Lookup(At(w', root), k).Some? {
      assert forall p :: p in g ==> (p.0, g[p]) in m;
      if root == t { GrownKeeps(At(w, t), b, m, g, k); }
    }
  }

  /** A copy, complete or not, loses nothing that any backend could read before. */
  lemma CopyLosesNothing(e: Env, truth: Digest -> Bytes, os: seq<Root>, od: seq<Root>, w: World, w': World, t: Root,
                         blobs: set<Digest>, manis: set<Pair>, tags: TagMap, b: map<Digest, Bytes>,
                         m: map<Pair, Bytes>, g: TagMap, o: seq<Root>)
    requires Genuine(e, truth, w) && PartCopy(e, truth, os, od, w, w', t, blobs, manis, tags, b, m, g)
    ensures Preserves(o, w, w')
  {
    PartCopyGrows(e, truth, os, od, w, w', t, blobs, manis, tags, b, m, g);
    GrowsPreserves(e, truth, o, w, w');
  }

  lemma ReadAtRoot(e: Env, truth: Digest -> Bytes, o: seq<Root>, w: World, root: Root, k: Key)
    requires Genuine(e, truth, w) && root in o && Lookup(At(w, root), k).Some? && !k.Tagged?
    ensures Read(o, w, k) == Some(truth(k.digest))
  {
    ReadFinds(o, w, k);
    GenuineRead(e, truth, o, w, k);
  }

  /** A completed copy makes the destination read, for everything wanted, as a merge of destination and
      source; copied tags read what the source's digest names. */
  lemma CopyMerges(e: Env, truth: Digest -> Bytes, os: seq<Root>, od: seq<Root>, w: World, w': World, t: Root,
                   blobs: set<Digest>, manis: set<Pair>, tags: TagMap, b: map<Digest, Bytes>, m: map<Pair, Bytes>,
                   g: TagMap, k: Key)
    requires Genuine(e, truth, w) && od != [] && t == od[0]
    requires PartCopy(e, truth, os, od, w, w', t, blobs, manis, tags, b, m, g)
             && FullCopy(os, od, w, blobs, manis, tags, b, m, g)
    ensures (k.Blob? && k.digest in blobs) || (k.Mani? && (k.repo, k.digest) in manis) ==>
              Read(od, w', k) == if Read(od, w, k).Some? then Read(od, w, k) else Read(os, w, k)
    ensures k.Tagged? && (k.repo, k.tag) in tags && Read(os, w, Mani(k.repo, tags[(k.repo, k.tag)])).Some? ==>
              Read(od, w', k) == Some(truth(tags[(k.repo, k.tag)]))
  {
    hide Genuine;
    CopyLosesNothing(e, truth, os, od, w, w', t, blobs, manis, tags, b, m, g, od);
    if !k.Tagged? {
      GenuineRead(e, truth, os, w, k);
      if Read(od, w, k).None? && Read(os, w, k).Some?
         && ((k.Blob? && k.digest in blobs) || (k.Mani? && (k.repo, k.digest) in manis)) {
        LookupGrown(At(w, t), b, m, g, k);
        if k.Blob? {
          assert k.digest in BlobsToCopy(os, od, w, blobs);
        } else {
          assert (k.repo, k.digest) in ManisToCopy(os, od, w, manis);
        }
        ReadAtRoot(e, truth, od, w', t, k);
      } else if Read(od, w, k).None? && Read(os, w, k).None? {
        LookupGrown(At(w, t), b, m, g, k);
        NotCopied(e, truth, os, od, w, w', t, blobs, manis, tags, b, m, g, k);
      }
    } else if (k.repo, k.tag) in tags && Read(os, w, Mani(k.repo, tags[(k.repo, k.tag)])).Some? {
      var p := (k.repo, k.tag);
      assert (p.0, tags[p]) in Tagging(tags);
      assert p in g && (p.0, tags[p]) in m;
      assert Lookup(At(w', t), k) == Some(m[(p.0, tags[p])]);
    }
  }

  /** What neither side could read is not made up. */
  lemma NotCopied(e: Env, truth: Digest -> Bytes, os: seq<Root>, od: seq<Root>, w: World, w': World, t: Root,
                  blobs: set<Digest>, manis: set<Pair>, tags: TagMap, b: map<Digest, Bytes>, m: map<Pair, Bytes>,
                  g: TagMap, k: Key)
    requires PartCopy(e, truth, os, od, w, w', t, blobs, manis, tags, b, m, g) && !k.Tagged?
    requires Read(os, w, k).None?
    ensures Read(od, w', k) == Read(od, w, k)
  {
    ReadUndisturbed(od, w, w', t, b, m, g, k);
  }

  /** Copying again finds nothing to copy. */
  lemma CopyTwiceCopiesNothing(e: Env, truth: Digest -> Bytes, os: seq<Root>, od: seq<Root>, w: World, w': World,
                               t: Root, blobs: set<Digest>, manis: set<Pair>, tags: TagMap, b: map<Digest, Bytes>,
                               m: map<Pair, Bytes>, g: TagMap)
    requires Genuine(e, truth, w) && od != [] && t == od[0]
    requires PartCopy(e, truth, os, od, w, w', t, blobs, manis, tags, b, m, g)
             && FullCopy(os, od, w, blobs, manis, tags, b, m, g)
    ensures BlobsToCopy(os, od, w', blobs) == map[] && ManisToCopy(os, od, w', manis) == map[]
  {
    hide PartCopy, FullCopy, Genuine;
    forall d | d in blobs ensures Read(od, w', Blob(d)).Some? || Read(os, w', Blob(d)).None? {
      CopyMerges(e, truth, os, od, w, w', t, blobs, manis, tags, b, m, g, Blob(d));
      SourceGainsNothing(e, truth, os, od, w, w', t, blobs, manis, tags, b, m, g, Blob(d));
    }
    forall p: Pair | p in manis ensures Read(od, w', Mani(p.0, p.1)).Some? || Read(os, w', Mani(p.0, p.1)).None? {
      CopyMerges(e, truth, os, od, w, w', t, blobs, manis, tags, b, m, g, Mani(p.0, p.1));
      SourceGainsNothing(e, truth, os, od, w, w', t, blobs, manis, tags, b, m, g, Mani(p.0, p.1));
    }
  }

  lemma SourceGainsNothing(e: Env, truth: Digest -> Bytes, os: seq<Root>, od: seq<Root>, w: World, w': World, t: Root,
                           blobs: set<Digest>, manis: set<Pair>, tags: TagMap, b: map<Digest, Bytes>,
                           m: map<Pair, Bytes>, g: TagMap, k: Key)
    requires Genuine(e, truth, w) && !k.Tagged?
    requires PartCopy(e, truth, os, od, w, w', t, blobs, manis, tags, b, m, g)
    ensures Read(os, w', k) == Read(os, w, k)
  {
    CopyInvisible(e, truth, os, w, w', t, b, m, g, k);
  }

  // ---- Bytes ------------------------------------------------------------------------------

  lemma DropRight<K, V>(a: map<K, V>, b: map<K, V>, k: K)
    requires k !in a
    ensures (a + b) - {k} == a + (b - {k})
  {
  }

  lemma {:induction false} TotalUnion(a: map<Digest, Bytes>, b: map<Digest, Bytes>)
    requires a.Keys !! b.Keys
    ensures Total(a + b) == Total(a) + Total(b)
    decreases b.Keys
  {
    hide Total;
    if b == map[] {
      TotalEmpty(b);
      assert a + b == a;
    } else {
      var d :| d in b;
      TotalWithout(b, d);
      TotalWithout(a + b, d);
      DropRight(a, b, d);
      TotalUnion(a, b - {d});
    }
  }

  /** The bytes reported as copied are exactly what the destination grew by. */
  lemma BytesCopiedAreGrowth(e: Env, truth: Digest -> Bytes, os: seq<Root>, od: seq<Root>, w: World, w': World,
                             t: Root, blobs: set<Digest>, manis: set<Pair>, tags: TagMap, b: map<Digest, Bytes>,
                             m: map<Pair, Bytes>, g: TagMap)
    requires Genuine(e, truth, w) && od != [] && t == od[0]
    requires PartCopy(e, truth, os, od, w, w', t, blobs, manis, tags, b, m, g)
    ensures Used(od, w') == Used(od, w) + Total(b)
  {
    hide Logical, Total, Genuine, PartCopy;
    var before, after := Logical(od, w).blobs, Logical(od, w').blobs;
    forall d
      ensures d in b ==> d !in before && d in after && after[d] == b[d]
      ensures d !in b ==> (d in after <==> d in before) && (d in before ==> after[d] == before[d])
    {
      BlobAfterCopy(e, truth, os, od, w, w', t, blobs, manis, tags, b, m, g, d);
    }
    assert after == before + b;
    TotalUnion(before, b);
  }

  lemma BlobAfterCopy(e: Env, truth: Digest -> Bytes, os: seq<Root>, od: seq<Root>, w: World, w': World, t: Root,
                      blobs: set<Digest>, manis: set<Pair>, tags: TagMap, b: map<Digest, Bytes>, m: map<Pair, Bytes>,
                      g: TagMap, d: Digest)
    requires Genuine(e, truth, w) && od != [] && t == od[0]
    requires PartCopy(e, truth, os, od, w, w', t, blobs, manis, tags, b, m, g)
    ensures var before, after := Logical(od, w).blobs, Logical(od, w').blobs;
            && (d in b ==> d !in before && d in after && after[d] == b[d])
            && (d !in b ==> (d in after <==> d in before) && (d in before ==> after[d] == before[d]))
  {
    hide Genuine;
    LogicalManifests(od, w, Blob(d));
    LogicalManifests(od, w', Blob(d));
    if d in b {
      assert d in BlobsToCopy(os, od, w, blobs);
      LookupGrown(At(w, t), b, m, g, Blob(d));
      ReadAtRoot(e, truth, od, w', t, Blob(d));
    } else {
      ReadUndisturbed(od, w, w', t, b, m, g, Blob(d));
    }
  }
}
