/** The three copy loops of `migrate::copy_repo` and `replicate::copy_into`: blobs first, then
    manifests by digest, then tag pointers. The source may be a composite that contains the destination. */
module Copying {
  import opened Content
  import opened Volumes
  import opened Backends
  import opened Devices

  type Pair = (string, Digest)
  type TagMap = map<(string, string), Digest>

  // ---- What a copy adds to the destination root -------------------------------------------

  function Grown(v: Vol, blobs: map<Digest, Bytes>, manis: map<Pair, Bytes>, tags: TagMap): Vol {
    v.(blobs := v.blobs + blobs, manifests := v.manifests + manis, tags := v.tags + tags,
       dirs := v.dirs + ReposOf(manis))
  }

  function ReposOf(manis: map<Pair, Bytes>): set<string> { set p | p in manis :: p.0 }

  function Firsts(manis: set<Pair>): set<string> { set p | p in manis :: p.0 }

  /** The world changed at one root only. */
  ghost predicate Changed(w: World, w': World, t: Root, v: Vol) {
    forall root :: At(w', root) == if root == t then v else At(w, root)
  }

  lemma MapAssoc<K, V>(a: map<K, V>, b: map<K, V>, c: map<K, V>)
    ensures a + b + c == a + (b + c)
  {
  }

  lemma MapSnoc<K, V>(a: map<K, V>, b: map<K, V>, k: K, v: V)
    ensures (a + b)[k := v] == a + b[k := v]
  {
  }

  lemma MapNil<K, V>(a: map<K, V>)
    ensures a + map[] == a
  {
  }

  lemma GrownTwice(v: Vol, b1: map<Digest, Bytes>, m1: map<Pair, Bytes>, t1: TagMap,
                   b2: map<Digest, Bytes>, m2: map<Pair, Bytes>, t2: TagMap)
    ensures Grown(Grown(v, b1, m1, t1), b2, m2, t2) == Grown(v, b1 + b2, m1 + m2, t1 + t2)
  {
    MapAssoc(v.blobs, b1, b2);
    MapAssoc(v.manifests, m1, m2);
    MapAssoc(v.tags, t1, t2);
    DirsAssoc(v.dirs, m1, m2);
  }

  lemma DirsAssoc(dirs: set<string>, m1: map<Pair, Bytes>, m2: map<Pair, Bytes>)
    ensures dirs + ReposOf(m1) + ReposOf(m2) == dirs + ReposOf(m1 + m2)
  {
  }

  lemma DirsSnoc(m: map<Pair, Bytes>, p: Pair, content: Bytes)
    ensures ReposOf(m[p := content]) == ReposOf(m) + {p.0}
  {
    assert forall q :: q in m[p := content] <==> q in m || q == p;
  }

  lemma ChangedAgain(w: World, mid: World, w': World, t: Root, v: Vol, v': Vol)
    requires Changed(w, mid, t, v) && Changed(mid, w', t, v')
    ensures Changed(w, w', t, v')
  {
  }

  /** What a read of one root sees after growth. */
  lemma LookupGrown(v: Vol, blobs: map<Digest, Bytes>, manis: map<Pair, Bytes>, tags: TagMap, k: Key)
    requires !k.Tagged?
    ensures Lookup(Grown(v, blobs, manis, tags), k) ==
            match k
            case Blob(d) => if d in blobs then Some(blobs[d]) else Lookup(v, k)
            case Mani(r, d) => if (r, d) in manis then Some(manis[(r, d)]) else Lookup(v, k)
            case Tagged(_, _) => None
  {
  }

  /** What may be added without lying about content. */
  ghost predicate TrueBlobs(e: Env, truth: Digest -> Bytes, blobs: map<Digest, Bytes>) {
    forall d :: d in blobs ==> blobs[d] == truth(d) && Hash(e, d.algorithm, truth(d)) == d
  }

  ghost predicate TrueManis(e: Env, truth: Digest -> Bytes, manis: map<Pair, Bytes>) {
    forall p :: p in manis ==> manis[p] == truth(p.1) && Hash(e, Sha256, truth(p.1)) == p.1
  }

  // ---- What is missing --------------------------------------------------------------------

  function BlobsToCopy(os: seq<Root>, od: seq<Root>, w: World, wanted: set<Digest>): map<Digest, Bytes> {
    map d | d in wanted && Read(od, w, Blob(d)).None? && Read(os, w, Blob(d)).Some? :: Read(os, w, Blob(d)).value
  }

  function ManisToCopy(os: seq<Root>, od: seq<Root>, w: World, wanted: set<Pair>): map<Pair, Bytes> {
    map p | p in wanted && Read(od, w, Mani(p.0, p.1)).None? && Read(os, w, Mani(p.0, p.1)).Some?
      :: Read(os, w, Mani(p.0, p.1)).value
  }

  /** Adding other keys to one root does not disturb a read. */
  lemma ReadUndisturbed(o: seq<Root>, w: World, w': World, t: Root, blobs: map<Digest, Bytes>,
                        manis: map<Pair, Bytes>, tags: TagMap, k: Key)
    requires Changed(w, w', t, Grown(At(w, t), blobs, manis, tags))
    requires k.Blob? ==> k.digest !in blobs
    requires k.Mani? ==> (k.repo, k.digest) !in manis
    requires !k.Tagged?
    ensures Read(o, w', k) == Read(o, w, k)
  {
    LookupGrown(At(w, t), blobs, manis, tags, k);
    ReadDependsOnRoots(o, w, w', k);
  }

  /** Copying what a backend can already read changes none of its reads by digest, whether or not the
      root copied into is one of its own. */
  lemma CopyInvisible(e: Env, truth: Digest -> Bytes, o: seq<Root>, w: World, w': World, t: Root,
                      blobs: map<Digest, Bytes>, manis: map<Pair, Bytes>, tags: TagMap, k: Key)
    requires Genuine(e, truth, w) && Genuine(e, truth, w') && !k.Tagged?
    requires Changed(w, w', t, Grown(At(w, t), blobs, manis, tags))
    requires k.Blob? && k.digest in blobs ==> Read(o, w, k).Some?
    requires k.Mani? && (k.repo, k.digest) in manis ==> Read(o, w, k).Some?
    ensures Read(o, w', k) == Read(o, w, k)
  {
    hide Grown, Genuine, Read;
    LookupGrown(At(w, t), blobs, manis, tags, k);
    ReadFinds(o, w, k);
    ReadFinds(o, w', k);
    GenuineRead(e, truth, o, w, k);
    GenuineRead(e, truth, o, w', k);
    if Read(o, w', k).Some? {
      var root :| root in o && Lookup(At(w', root), k).Some?;
      assert At(w', root) == if root == t then Grown(At(w, t), blobs, manis, tags) else At(w, root);
    }
    if Read(o, w, k).Some? {
      var root :| root in o && Lookup(At(w, root), k).Some?;
      assert At(w', root) == if root == t then Grown(At(w, t), blobs, manis, tags) else At(w, root);
      assert Lookup(At(w', root), k).Some?;
    }
  }

  // ---- The loops --------------------------------------------------------------------------

  /** Part way through the blob loop: `done` of `need` is on root `t`, `todo` is still to be looked at. */
  ghost predicate BlobProgress(e: Env, truth: Digest -> Bytes, w: World, w': World, t: Root,
                               need: map<Digest, Bytes>, done: map<Digest, Bytes>, todo: set<Digest>)
  {
    && Genuine(e, truth, w') && TrueBlobs(e, truth, done)
    && Changed(w, w', t, Grown(At(w, t), done, map[], map[]))
    && done.Keys == need.Keys - todo
  }

  lemma BlobsStart(e: Env, truth: Digest -> Bytes, os: seq<Root>, od: seq<Root>, w: World, t: Root, wanted: set<Digest>)
    requires Genuine(e, truth, w)
    ensures BlobProgress(e, truth, w, w, t, BlobsToCopy(os, od, w, wanted), map[], wanted)
  {
    UnchangedIsGrown(w, t);
    assert BlobsToCopy(os, od, w, wanted).Keys - wanted == {};
  }

  /** What the loop sees of a digest not looked at yet is what was there at the start. */
  lemma BlobSeen(os: seq<Root>, od: seq<Root>, e: Env, truth: Digest -> Bytes, w: World, w': World, t: Root,
                 wanted: set<Digest>, done: map<Digest, Bytes>, todo: set<Digest>, d: Digest)
    requires BlobProgress(e, truth, w, w', t, BlobsToCopy(os, od, w, wanted), done, todo) && d in todo && d in wanted
    ensures d !in done
    ensures d in BlobsToCopy(os, od, w, wanted) <==> Read(od, w', Blob(d)).None? && Read(os, w', Blob(d)).Some?
  {
    ReadUndisturbed(os, w, w', t, done, map[], map[], Blob(d));
    ReadUndisturbed(od, w, w', t, done, map[], map[], Blob(d));
  }

  lemma BlobSkipped(e: Env, truth: Digest -> Bytes, w: World, w': World, t: Root,
                    need: map<Digest, Bytes>, done: map<Digest, Bytes>, todo: set<Digest>, d: Digest)
    requires BlobProgress(e, truth, w, w', t, need, done, todo) && d !in need
    ensures BlobProgress(e, truth, w, w', t, need, done, todo - {d})
  {
  }

  lemma BlobCopied(e: Env, truth: Digest -> Bytes, w: World, mid: World, w': World, t: Root,
                   need: map<Digest, Bytes>, done: map<Digest, Bytes>, todo: set<Digest>, d: Digest)
    requires BlobProgress(e, truth, w, mid, t, need, done, todo) && d in need && d in todo
    requires Hash(e, d.algorithm, truth(d)) == d
    requires w' == mid[t := At(mid, t).(blobs := At(mid, t).blobs[d := truth(d)])]
    ensures BlobProgress(e, truth, w, w', t, need, done[d := truth(d)], todo - {d})
  {
    var v := At(w, t);
    var v1, v2 := Grown(v, done, map[], map[]), Grown(v, done[d := truth(d)], map[], map[]);
    GrownBlob(v, done, map[], map[], d, truth(d));
    hide Grown, Genuine;
    assert At(mid, t) == v1;
    ChangedAgain(w, mid, w', t, v1, v2);
    BlobKept(e, truth, mid, w', t, d, v2);
  }

  lemma GrownBlob(v: Vol, blobs: map<Digest, Bytes>, manis: map<Pair, Bytes>, tags: TagMap, d: Digest, content: Bytes)
    ensures Grown(v, blobs[d := content], manis, tags) ==
            Grown(v, blobs, manis, tags).(blobs := Grown(v, blobs, manis, tags).blobs[d := content])
  {
    MapSnoc(v.blobs, blobs, d, content);
  }

  lemma BlobKept(e: Env, truth: Digest -> Bytes, mid: World, w': World, t: Root, d: Digest, v: Vol)
    requires Genuine(e, truth, mid) && Hash(e, d.algorithm, truth(d)) == d
    requires v == At(mid, t).(blobs := At(mid, t).blobs[d := truth(d)]) && w' == mid[t := v]
    ensures Genuine(e, truth, w')
  {
    GenuineAt(e, truth, mid, t);
    BlobTrue(e, truth, At(mid, t), d);
    hide GenuineVol;
  }

  lemma BlobTrue(e: Env, truth: Digest -> Bytes, v: Vol, d: Digest)
    requires GenuineVol(e, truth, v) && Hash(e, d.algorithm, truth(d)) == d
    ensures GenuineVol(e, truth, v.(blobs := v.blobs[d := truth(d)]))
  {
    hide Hash;
  }

  lemma BlobsEnd(e: Env, truth: Digest -> Bytes, os: seq<Root>, od: seq<Root>, w: World, w': World, t: Root,
                 wanted: set<Digest>, done: map<Digest, Bytes>)
    requires Genuine(e, truth, w) && BlobProgress(e, truth, w, w', t, BlobsToCopy(os, od, w, wanted), done, {})
    ensures done == BlobsToCopy(os, od, w, wanted)
  {
    var need := BlobsToCopy(os, od, w, wanted);
    assert done.Keys == need.Keys;
    forall d | d in done ensures done[d] == need[d] { GenuineRead(e, truth, os, w, Blob(d)); }
  }

  /** One turn of the blob loop. */
  method CopyBlob(disks: Disks, src: Backend, dst: Backend, d: Digest, ghost truth: Digest -> Bytes)
    returns (r: Result<Option<Bytes>>)
    requires Valid(src) && Valid(dst) && Genuine(disks.env, truth, disks.vols)
    modifies disks
    ensures r.Ok? || r.Fault?
    ensures disks.faults >= old(disks.faults) && (r.Ok? <==> disks.faults == old(disks.faults))
    ensures r.Fault? || r == Ok(None) ==> disks.vols == old(disks.vols)
    ensures var os, od := ReadOrder(src), ReadOrder(dst);
            match r
            case Ok(None) => Read(od, old(disks.vols), Blob(d)).Some? || Read(os, old(disks.vols), Blob(d)).None?
            case Ok(Some(bytes)) =>
              && Read(od, old(disks.vols), Blob(d)).None? && Read(os, old(disks.vols), Blob(d)) == Some(bytes)
              && bytes == truth(d) && Hash(disks.env, d.algorithm, bytes) == d
              && var v := At(old(disks.vols), Target(dst));
                 disks.vols == old(disks.vols)[Target(dst) := v.(blobs := v.blobs[d := bytes])]
            case _ => true
  {
    hide Read, ReadOrder, Genuine;
    var here := disks.BlobExists(dst, d);
    if !here.Ok? { return Fault; }
    if here.value { return Ok(None); }
    var got := disks.Get(src, Blob(d));
    if got.NotFound? { return Ok(None); }
    if !got.Ok? { return Fault; }
    GenuineRead(disks.env, truth, ReadOrder(src), disks.vols, Blob(d));
    var put := disks.Write(dst, BlobWrite(d, got.value));
    r := if put.Ok? then Ok(Some(got.value)) else Fault;
  }

  method CopyBlobs(disks: Disks, src: Backend, dst: Backend, wanted: set<Digest>, ghost truth: Digest -> Bytes)
    returns (r: Result<()>, count: nat, bytes: nat, ghost done: map<Digest, Bytes>)
    requires Valid(src) && Valid(dst) && Genuine(disks.env, truth, disks.vols)
    modifies disks
    ensures r.Ok? || r.Fault?
    ensures disks.faults >= old(disks.faults) && (r.Ok? <==> disks.faults == old(disks.faults))
    ensures Genuine(disks.env, truth, disks.vols) && TrueBlobs(disks.env, truth, done)
    ensures Changed(old(disks.vols), disks.vols, Target(dst),
                    Grown(At(old(disks.vols), Target(dst)), done, map[], map[]))
    ensures done.Keys <= BlobsToCopy(ReadOrder(src), ReadOrder(dst), old(disks.vols), wanted).Keys
    ensures r.Ok? ==> done == BlobsToCopy(ReadOrder(src), ReadOrder(dst), old(disks.vols), wanted)
    ensures count == |done| && bytes == Total(done)
  {
    hide BlobProgress, Genuine, Read, ReadOrder, Total, BlobsToCopy, Hash, Changed, Grown, TrueBlobs, At;
    ghost var e, w, t := disks.env, disks.vols, Target(dst);
    ghost var os, od := ReadOrder(src), ReadOrder(dst);
    ghost var need := BlobsToCopy(os, od, w, wanted);
    var todo := wanted;
    count, bytes, done := 0, 0, map[];
    BlobsStart(e, truth, os, od, w, t, wanted);
    TotalEmpty(done);
    while todo != {}
      invariant todo <= wanted && disks.faults == old(disks.faults)
      invariant BlobProgress(e, truth, w, disks.vols, t, need, done, todo)
      invariant count == |done| && bytes == Total(done)
    {
      BlobFacts(e, truth, w, disks.vols, t, need, done, todo);
      var d :| d in todo;
      BlobSeen(os, od, e, truth, w, disks.vols, t, wanted, done, todo, d);
      ghost var mid := disks.vols;
      var one := CopyBlob(disks, src, dst, d, truth);
      if !one.Ok? { return Fault, count, bytes, done; }
      if one.value.None? {
        BlobSkipped(e, truth, w, mid, t, need, done, todo, d);
      } else {
        BlobCopied(e, truth, w, mid, disks.vols, t, need, done, todo, d);
        TotalWith(done, d, one.value.value);
        done := done[d := one.value.value];
        count, bytes := count + 1, bytes + |one.value.value|;
      }
      todo := todo - {d};
    }
    BlobFacts(e, truth, w, disks.vols, t, need, done, todo);
    BlobsEnd(e, truth, os, od, w, disks.vols, t, wanted, done);
    r := Ok(());
  }

  lemma BlobFacts(e: Env, truth: Digest -> Bytes, w: World, w': World, t: Root,
                  need: map<Digest, Bytes>, done: map<Digest, Bytes>, todo: set<Digest>)
    requires BlobProgress(e, truth, w, w', t, need, done, todo)
    ensures Genuine(e, truth, w') && TrueBlobs(e, truth, done) && done.Keys <= need.Keys
    ensures Changed(w, w', t, Grown(At(w, t), done, map[], map[]))
  {
  }

  lemma UnchangedIsGrown(w: World, t: Root)
    ensures Changed(w, w, t, Grown(At(w, t), map[], map[], map[]))
  {
    var v := At(w, t);
    MapNil(v.blobs);
    MapNil(v.manifests);
    MapNil(v.tags);
    assert Grown(v, map[], map[], map[]) == v;
  }

  // ---- Manifests --------------------------------------------------------------------------

  /** The wanted manifests the source can read. */
  function ManisOf(os: seq<Root>, w: World, wanted: set<Pair>): map<Pair, Bytes> {
    map p | p in wanted && Read(os, w, Mani(p.0, p.1)).Some? :: Read(os, w, Mani(p.0, p.1)).value
  }

  ghost predicate ManiProgress(e: Env, truth: Digest -> Bytes, w: World, w': World, t: Root, need: set<Pair>,
                               avail: set<Pair>, done: map<Pair, Bytes>, todo: set<Pair>, clean: bool)
  {
    && Genuine(e, truth, w') && TrueManis(e, truth, done)
    && Changed(w, w', t, Grown(At(w, t), map[], done, map[]))
    && need - todo <= done.Keys <= avail - todo
    && (clean ==> done.Keys == need - todo)
  }

  lemma ManisStart(e: Env, truth: Digest -> Bytes, os: seq<Root>, od: seq<Root>, w: World, t: Root, wanted: set<Pair>)
    requires Genuine(e, truth, w)
    ensures ManiProgress(e, truth, w, w, t, ManisToCopy(os, od, w, wanted).Keys, ManisOf(os, w, wanted).Keys, map[],
                         wanted, true)
  {
    UnchangedIsGrown(w, t);
    assert ManisToCopy(os, od, w, wanted).Keys - wanted == {};
  }

  lemma ManiSeen(os: seq<Root>, od: seq<Root>, e: Env, truth: Digest -> Bytes, w: World, w': World, t: Root,
                 wanted: set<Pair>, done: map<Pair, Bytes>, todo: set<Pair>, clean: bool, p: Pair)
    requires ManiProgress(e, truth, w, w', t, ManisToCopy(os, od, w, wanted).Keys, ManisOf(os, w, wanted).Keys, done,
                          todo, clean)
    requires p in todo && p in wanted
    ensures p in ManisToCopy(os, od, w, wanted) <==>
            Read(od, w', Mani(p.0, p.1)).None? && Read(os, w', Mani(p.0, p.1)).Some?
    ensures p in ManisOf(os, w, wanted) <==> Read(os, w', Mani(p.0, p.1)).Some?
  {
    ReadUndisturbed(os, w, w', t, map[], done, map[], Mani(p.0, p.1));
    ReadUndisturbed(od, w, w', t, map[], done, map[], Mani(p.0, p.1));
  }

  lemma ManiSkipped(e: Env, truth: Digest -> Bytes, w: World, w': World, t: Root, need: set<Pair>, avail: set<Pair>,
                    done: map<Pair, Bytes>, todo: set<Pair>, was: bool, clean: bool, p: Pair)
    requires ManiProgress(e, truth, w, w', t, need, avail, done, todo, was) && (clean ==> was) && p in todo
             && p !in need
    ensures ManiProgress(e, truth, w, w', t, need, avail, done, todo - {p}, clean)
  {
  }

  lemma GrownMani(e: Env, v: Vol, blobs: map<Digest, Bytes>, manis: map<Pair, Bytes>, tags: TagMap, p: Pair,
                  content: Bytes)
    requires Hash(e, Sha256, content) == p.1
    ensures Grown(v, blobs, manis[p := content], tags) == PutBytes(e, Grown(v, blobs, manis, tags), p.0, content)
  {
    MapSnoc(v.manifests, manis, p, content);
    DirsSnoc(manis, p, content);
    hide ReposOf;
    assert v.dirs + ReposOf(manis) + {p.0} == v.dirs + (ReposOf(manis) + {p.0});
    assert p == (p.0, Hash(e, Sha256, content));
  }

  lemma PutBytesKept(e: Env, truth: Digest -> Bytes, mid: World, w': World, t: Root, p: Pair)
    requires Genuine(e, truth, mid) && Hash(e, Sha256, truth(p.1)) == p.1
    requires w' == mid[t := PutBytes(e, At(mid, t), p.0, truth(p.1))]
    ensures Genuine(e, truth, w')
  {
    GenuineAt(e, truth, mid, t);
    PutBytesTrue(e, truth, At(mid, t), p);
    hide GenuineVol;
  }

  lemma PutBytesTrue(e: Env, truth: Digest -> Bytes, v: Vol, p: Pair)
    requires GenuineVol(e, truth, v) && Hash(e, Sha256, truth(p.1)) == p.1
    ensures GenuineVol(e, truth, PutBytes(e, v, p.0, truth(p.1)))
  {
    hide Hash;
    assert p == (p.0, p.1);
  }

  lemma ManiCopied(e: Env, truth: Digest -> Bytes, w: World, mid: World, w': World, t: Root, need: set<Pair>,
                   avail: set<Pair>, done: map<Pair, Bytes>, todo: set<Pair>, was: bool, clean: bool, p: Pair)
    requires ManiProgress(e, truth, w, mid, t, need, avail, done, todo, was) && (clean ==> was && p in need)
    requires p in avail && p in todo && Hash(e, Sha256, truth(p.1)) == p.1
    requires w' == mid[t := PutBytes(e, At(mid, t), p.0, truth(p.1))]
    ensures ManiProgress(e, truth, w, w', t, need, avail, done[p := truth(p.1)], todo - {p}, clean)
  {
    hide Grown, Genuine, PutBytes;
    var v1, v2 := Grown(At(w, t), map[], done, map[]), Grown(At(w, t), map[], done[p := truth(p.1)], map[]);
    GrownMani(e, At(w, t), map[], done, map[], p, truth(p.1));
    assert At(mid, t) == v1;
    assert Changed(mid, w', t, v2);
    ChangedAgain(w, mid, w', t, v1, v2);
    PutBytesKept(e, truth, mid, w', t, p);
    ManiKeys(need, avail, done, todo, was, clean, p, truth(p.1));
    hide Changed;
  }

  lemma ManiKeys(need: set<Pair>, avail: set<Pair>, done: map<Pair, Bytes>, todo: set<Pair>, was: bool, clean: bool,
                 p: Pair, content: Bytes)
    requires need - todo <= done.Keys <= avail - todo && (was ==> done.Keys == need - todo)
    requires p in avail && p in todo && (clean ==> was && p in need)
    ensures need - (todo - {p}) <= done[p := content].Keys <= avail - (todo - {p})
    ensures clean ==> done[p := content].Keys == need - (todo - {p})
  {
  }

  lemma ManiFacts(e: Env, truth: Digest -> Bytes, w: World, w': World, t: Root, need: set<Pair>, avail: set<Pair>,
                  done: map<Pair, Bytes>, todo: set<Pair>, clean: bool)
    requires ManiProgress(e, truth, w, w', t, need, avail, done, todo, clean)
    ensures Genuine(e, truth, w') && TrueManis(e, truth, done) && done.Keys <= avail
    ensures Changed(w, w', t, Grown(At(w, t), map[], done, map[]))
    ensures todo == {} ==> need <= done.Keys && (clean ==> done.Keys == need)
  {
  }

  /** One turn of the manifest loop. With `strict` an unreadable destination stops the copy (as in
      `copy_into`); without, it counts as missing and is written again (as in `copy_repo`). */
  method CopyManifest(disks: Disks, src: Backend, dst: Backend, p: Pair, strict: bool, ghost truth: Digest -> Bytes)
    returns (r: Result<Option<Bytes>>)
    requires Valid(src) && Valid(dst) && Genuine(disks.env, truth, disks.vols)
    modifies disks
    ensures r.Ok? || r.Fault?
    ensures disks.faults >= old(disks.faults) && (r.Fault? ==> disks.faults > old(disks.faults))
    ensures strict && r.Ok? ==> disks.faults == old(disks.faults)
    ensures r.Fault? || r == Ok(None) ==> disks.vols == old(disks.vols)
    ensures var os, od, k := ReadOrder(src), ReadOrder(dst), Mani(p.0, p.1);
            match r
            case Ok(None) => Read(od, old(disks.vols), k).Some? || Read(os, old(disks.vols), k).None?
            case Ok(Some(bytes)) =>
              && Read(os, old(disks.vols), k) == Some(bytes) && bytes == truth(p.1)
              && Hash(disks.env, Sha256, bytes) == p.1
              && (disks.faults == old(disks.faults) ==> Read(od, old(disks.vols), k).None?)
              && disks.vols == old(disks.vols)[Target(dst) := PutBytes(disks.env, At(old(disks.vols), Target(dst)),
                  p.0, bytes)]
            case _ => true
  {
    hide Read, ReadOrder, Genuine;
    var here := disks.Get(dst, Mani(p.0, p.1));
    if here.Ok? { return Ok(None); }
    if here.Fault? && strict { return Fault; }
    var got := disks.Get(src, Mani(p.0, p.1));
    if got.NotFound? { return Ok(None); }
    if !got.Ok? { return Fault; }
    GenuineRead(disks.env, truth, ReadOrder(src), disks.vols, Mani(p.0, p.1));
    var put := disks.ManifestPut(dst, p.0, ByDigest(p.1), got.value);
    r := if put.Ok? then Ok(Some(got.value)) else Fault;
  }

  method CopyManifests(disks: Disks, src: Backend, dst: Backend, wanted: set<Pair>, strict: bool,
                       ghost truth: Digest -> Bytes)
    returns (r: Result<()>, count: nat, ghost done: map<Pair, Bytes>)
    requires Valid(src) && Valid(dst) && Genuine(disks.env, truth, disks.vols)
    modifies disks
    ensures r.Ok? || r.Fault?
    ensures disks.faults >= old(disks.faults) && (r.Fault? ==> disks.faults > old(disks.faults))
    ensures strict && r.Ok? ==> disks.faults == old(disks.faults)
    ensures Genuine(disks.env, truth, disks.vols) && TrueManis(disks.env, truth, done)
    ensures Changed(old(disks.vols), disks.vols, Target(dst),
                    Grown(At(old(disks.vols), Target(dst)), map[], done, map[]))
    ensures done.Keys <= ManisOf(ReadOrder(src), old(disks.vols), wanted).Keys
    ensures r.Ok? ==> ManisToCopy(ReadOrder(src), ReadOrder(dst), old(disks.vols), wanted).Keys <= done.Keys
    ensures disks.faults == old(disks.faults) ==>
            done.Keys == ManisToCopy(ReadOrder(src), ReadOrder(dst), old(disks.vols), wanted).Keys
    ensures count == |done|
  {
    hide ManiProgress, Genuine, Read, ReadOrder, ManisToCopy, ManisOf, Hash, Changed, Grown, TrueManis, At, PutBytes;
    ghost var e, w, t := disks.env, disks.vols, Target(dst);
    ghost var os, od := ReadOrder(src), ReadOrder(dst);
    ghost var need, avail := ManisToCopy(os, od, w, wanted).Keys, ManisOf(os, w, wanted).Keys;
    var todo := wanted;
    count, done := 0, map[];
    ManisStart(e, truth, os, od, w, t, wanted);
    while todo != {}
      invariant todo <= wanted && disks.faults >= old(disks.faults) && (strict ==> disks.faults == old(disks.faults))
      invariant ManiProgress(e, truth, w, disks.vols, t, need, avail, done, todo, disks.faults == old(disks.faults))
      invariant count == |done|
    {
      ghost var mid, was := disks.vols, disks.faults == old(disks.faults);
      ManiFacts(e, truth, w, mid, t, need, avail, done, todo, was);
      var p :| p in todo;
      ManiSeen(os, od, e, truth, w, mid, t, wanted, done, todo, was, p);
      var one := CopyManifest(disks, src, dst, p, strict, truth);
      if !one.Ok? { return Fault, count, done; }
      if one.value.None? {
        ManiSkipped(e, truth, w, mid, t, need, avail, done, todo, was, disks.faults == old(disks.faults), p);
      } else {
        ManiCopied(e, truth, w, mid, disks.vols, t, need, avail, done, todo, was, disks.faults == old(disks.faults), p);
        ManiNew(e, truth, w, mid, t, need, avail, done, todo, was, p);
        done := done[p := one.value.value];
        count := count + 1;
      }
      todo := todo - {p};
    }
    ManiFacts(e, truth, w, disks.vols, t, need, avail, done, todo, disks.faults == old(disks.faults));
    r := Ok(());
  }

  lemma ManiNew(e: Env, truth: Digest -> Bytes, w: World, w': World, t: Root, need: set<Pair>, avail: set<Pair>,
                done: map<Pair, Bytes>, todo: set<Pair>, clean: bool, p: Pair)
    requires ManiProgress(e, truth, w, w', t, need, avail, done, todo, clean) && p in todo
    ensures p !in done
  {
  }

  // ---- Tags -------------------------------------------------------------------------------

  function Tagging(tags: TagMap): set<Pair> { set p | p in tags :: (p.0, tags[p]) }

  /** Part way through the tag loop: `done` pointers written, each after its manifest (all of them in `manis`). */
  ghost predicate TagProgress(e: Env, truth: Digest -> Bytes, os: seq<Root>, w: World, w': World, t: Root, tags: TagMap,
                              manis: map<Pair, Bytes>, done: TagMap, todo: set<(string, string)>)
  {
    && Genuine(e, truth, w') && TrueManis(e, truth, manis)
    && Changed(w, w', t, Grown(At(w, t), map[], manis, done))
    && TagKeys(ManisOf(os, w, Tagging(tags)).Keys, tags, manis.Keys, done, todo)
  }

  ghost predicate TagKeys(avail: set<Pair>, tags: TagMap, manis: set<Pair>, done: TagMap, todo: set<(string, string)>) {
    && manis <= avail
    && (forall p :: p in done ==> p in tags && done[p] == tags[p] && (p.0, tags[p]) in manis)
    && (forall p :: p in tags && p !in todo && (p.0, tags[p]) in avail ==> p in done)
  }

  lemma TagKeysHalf(avail: set<Pair>, tags: TagMap, manis: set<Pair>, done: TagMap, todo: set<(string, string)>,
                    q: Pair)
    requires TagKeys(avail, tags, manis, done, todo) && q in avail
    ensures TagKeys(avail, tags, manis + {q}, done, todo)
  {
  }

  lemma TagKeysPointer(avail: set<Pair>, tags: TagMap, manis: set<Pair>, done: TagMap, todo: set<(string, string)>,
                       p: (string, string))
    requires TagKeys(avail, tags, manis, done, todo) && p in tags && (p.0, tags[p]) in manis
    ensures TagKeys(avail, tags, manis, done[p := tags[p]], todo - {p})
  {
  }

  lemma TagsStart(e: Env, truth: Digest -> Bytes, os: seq<Root>, w: World, t: Root, tags: TagMap)
    requires Genuine(e, truth, w)
    ensures TagProgress(e, truth, os, w, w, t, tags, map[], map[], tags.Keys)
  {
    UnchangedIsGrown(w, t);
  }

  lemma TagSeen(e: Env, truth: Digest -> Bytes, os: seq<Root>, w: World, w': World, t: Root, tags: TagMap,
                manis: map<Pair, Bytes>, done: TagMap, todo: set<(string, string)>, p: (string, string))
    requires Genuine(e, truth, w) && TagProgress(e, truth, os, w, w', t, tags, manis, done, todo) && p in tags
    ensures (p.0, tags[p]) in ManisOf(os, w, Tagging(tags)) <==> Read(os, w', Mani(p.0, tags[p])).Some?
  {
    assert (p.0, tags[p]) in Tagging(tags);
    CopyInvisible(e, truth, os, w, w', t, map[], manis, done, Mani(p.0, tags[p]));
  }

  lemma TagSkipped(e: Env, truth: Digest -> Bytes, os: seq<Root>, w: World, w': World, t: Root, tags: TagMap,
                   manis: map<Pair, Bytes>, done: TagMap, todo: set<(string, string)>, p: (string, string))
    requires TagProgress(e, truth, os, w, w', t, tags, manis, done, todo)
    requires p in tags && (p.0, tags[p]) !in ManisOf(os, w, Tagging(tags))
    ensures TagProgress(e, truth, os, w, w', t, tags, manis, done, todo - {p})
  {
  }

  /** The first half of writing a tag: its manifest. */
  lemma TagHalf(e: Env, truth: Digest -> Bytes, os: seq<Root>, w: World, mid: World, w': World, t: Root, tags: TagMap,
                manis: map<Pair, Bytes>, done: TagMap, todo: set<(string, string)>, q: Pair)
    requires TagProgress(e, truth, os, w, mid, t, tags, manis, done, todo)
    requires q in ManisOf(os, w, Tagging(tags)) && Hash(e, Sha256, truth(q.1)) == q.1
    requires w' == mid[t := PutBytes(e, At(mid, t), q.0, truth(q.1))]
    ensures TagProgress(e, truth, os, w, w', t, tags, manis[q := truth(q.1)], done, todo)
  {
    hide Grown, Genuine, PutBytes, ManisOf, TagKeys, Tagging, Hash;
    var v1, v2 := Grown(At(w, t), map[], manis, done), Grown(At(w, t), map[], manis[q := truth(q.1)], done);
    GrownMani(e, At(w, t), map[], manis, done, q, truth(q.1));
    TagKeysHalf(ManisOf(os, w, Tagging(tags)).Keys, tags, manis.Keys, done, todo, q);
    assert manis[q := truth(q.1)].Keys == manis.Keys + {q};
    assert At(mid, t) == v1;
    RootSet(w, mid, w', t, v1, v2);
    PutBytesKept(e, truth, mid, w', t, q);
  }

  lemma RootSet(w: World, mid: World, w': World, t: Root, v1: Vol, v2: Vol)
    requires Changed(w, mid, t, v1) && w' == mid[t := v2]
    ensures Changed(w, w', t, v2)
  {
  }

  lemma GrownTag(v: Vol, blobs: map<Digest, Bytes>, manis: map<Pair, Bytes>, tags: TagMap, p: (string, string),
                 d: Digest)
    ensures Grown(v, blobs, manis, tags[p := d]) ==
            Grown(v, blobs, manis, tags).(tags := Grown(v, blobs, manis, tags).tags[p := d])
    ensures manis.Keys <= Grown(v, blobs, manis, tags).manifests.Keys
  {
    MapSnoc(v.tags, tags, p, d);
  }

  lemma TagPointer(e: Env, truth: Digest -> Bytes, os: seq<Root>, w: World, mid: World, w': World, t: Root,
                   tags: TagMap, manis: map<Pair, Bytes>, done: TagMap, todo: set<(string, string)>,
                   p: (string, string))
    requires TagProgress(e, truth, os, w, mid, t, tags, manis, done, todo)
    requires p in tags && (p.0, tags[p]) in manis
    requires w' == mid[t := At(mid, t).(tags := At(mid, t).tags[p := tags[p]])]
    ensures TagProgress(e, truth, os, w, w', t, tags, manis, done[p := tags[p]], todo - {p})
  {
    hide Grown, Genuine, ManisOf, TagKeys, Tagging, TrueManis;
    var v1, v2 := Grown(At(w, t), map[], manis, done), Grown(At(w, t), map[], manis, done[p := tags[p]]);
    GrownTag(At(w, t), map[], manis, done, p, tags[p]);
    TagKeysPointer(ManisOf(os, w, Tagging(tags)).Keys, tags, manis.Keys, done, todo, p);
    assert At(mid, t) == v1;
    PointerKept(e, truth, mid, w', t, p, tags[p], v1);
    RootSet(w, mid, w', t, v1, v2);
  }

  lemma PointerKept(e: Env, truth: Digest -> Bytes, mid: World, w': World, t: Root, p: (string, string), d: Digest,
                    v: Vol)
    requires Genuine(e, truth, mid) && At(mid, t) == v && (p.0, d) in v.manifests
    requires w' == mid[t := v.(tags := v.tags[p := d])]
    ensures Genuine(e, truth, w')
  {
    GenuineAt(e, truth, mid, t);
    PointerTrue(e, truth, v, p, d);
    hide GenuineVol;
  }

  lemma PointerTrue(e: Env, truth: Digest -> Bytes, v: Vol, p: (string, string), d: Digest)
    requires GenuineVol(e, truth, v) && (p.0, d) in v.manifests
    ensures GenuineVol(e, truth, v.(tags := v.tags[p := d]))
  {
    assert (p.0, d).1.algorithm == Sha256 && (p.0, d).0 in v.dirs;
    hide Hash;
  }

  /** One turn of the tag loop: read the manifest by digest, write it under the tag. */
  method CopyTag(disks: Disks, src: Backend, dst: Backend, p: (string, string), d: Digest, ghost truth: Digest -> Bytes)
    returns (r: Result<Option<Bytes>>)
    requires Valid(src) && Valid(dst) && Genuine(disks.env, truth, disks.vols)
    modifies disks
    ensures r.Ok? || r.Fault?
    ensures disks.faults >= old(disks.faults) && (r.Ok? <==> disks.faults == old(disks.faults))
    ensures r == Ok(None) ==> disks.vols == old(disks.vols) && Read(ReadOrder(src), old(disks.vols), Mani(p.0, d)).None?
    ensures r.Ok? && r.value.Some? ==>
              && Read(ReadOrder(src), old(disks.vols), Mani(p.0, d)) == r.value
              && r.value.value == truth(d) && Hash(disks.env, Sha256, truth(d)) == d
              && disks.vols == old(disks.vols)[Target(dst) := Put(disks.env, At(old(disks.vols), Target(dst)), p.0,
                  Tag(p.1), truth(d))]
    ensures r.Fault? ==>
              || disks.vols == old(disks.vols)
              || (Read(ReadOrder(src), old(disks.vols), Mani(p.0, d)).Some? && Hash(disks.env, Sha256, truth(d)) == d
                  && disks.vols == old(disks.vols)[Target(dst) := PutBytes(disks.env,
                      At(old(disks.vols), Target(dst)), p.0, truth(d))])
  {
    hide Read, ReadOrder, Genuine;
    var got := disks.Get(src, Mani(p.0, d));
    if got.NotFound? { return Ok(None); }
    if !got.Ok? { return Fault; }
    GenuineRead(disks.env, truth, ReadOrder(src), disks.vols, Mani(p.0, d));
    var put := disks.ManifestPut(dst, p.0, Tag(p.1), got.value);
    r := if put.Ok? then Ok(Some(got.value)) else Fault;
  }

  method CopyTags(disks: Disks, src: Backend, dst: Backend, tags: TagMap, ghost truth: Digest -> Bytes)
    returns (r: Result<()>, ghost manis: map<Pair, Bytes>, ghost done: TagMap)
    requires Valid(src) && Valid(dst) && Genuine(disks.env, truth, disks.vols)
    modifies disks
    ensures r.Ok? || r.Fault?
    ensures disks.faults >= old(disks.faults) && (r.Ok? <==> disks.faults == old(disks.faults))
    ensures exists todo ::
            TagProgress(disks.env, truth, ReadOrder(src), old(disks.vols), disks.vols, Target(dst), tags, manis, done,
                        todo)
    ensures r.Ok? ==> TagProgress(disks.env, truth, ReadOrder(src), old(disks.vols), disks.vols, Target(dst), tags,
                                  manis, done, {})
    ensures r.Ok? ==> manis.Keys == ManisOf(ReadOrder(src), old(disks.vols), Tagging(tags)).Keys
  {
    hide TagProgress, Genuine, Read, ReadOrder, ManisOf, Hash, At, PutBytes, Tagging;
    ghost var e, w, t, os := disks.env, disks.vols, Target(dst), ReadOrder(src);
    var todo := tags.Keys;
    manis, done := map[], map[];
    TagsStart(e, truth, os, w, t, tags);
    while todo != {}
      invariant todo <= tags.Keys && disks.faults == old(disks.faults)
      invariant TagProgress(e, truth, os, w, disks.vols, t, tags, manis, done, todo)
      invariant forall p :: p in tags && p !in todo && (p.0, tags[p]) in ManisOf(os, w, Tagging(tags)) ==>
                (p.0, tags[p]) in manis
    {
      ghost var mid := disks.vols;
      var p :| p in todo;
      TagSeen(e, truth, os, w, mid, t, tags, manis, done, todo, p);
      TagFacts(e, truth, os, w, mid, t, tags, manis, done, todo);
      var one := CopyTag(disks, src, dst, p, tags[p], truth);
      ghost var q := (p.0, tags[p]);
      if one == Ok(None) {
        TagSkipped(e, truth, os, w, mid, t, tags, manis, done, todo, p);
      } else if one.Ok? || disks.vols != mid {
        ghost var half := mid[t := PutBytes(e, At(mid, t), p.0, truth(tags[p]))];
        TagHalf(e, truth, os, w, mid, half, t, tags, manis, done, todo, q);
        manis := manis[q := truth(q.1)];
        if one.Ok? {
          PutInTwoSteps(e, mid, disks.vols, t, p, tags[p], truth(tags[p]));
          TagPointer(e, truth, os, w, half, disks.vols, t, tags, manis, done, todo, p);
          done := done[p := tags[p]];
        }
      }
      if !one.Ok? { return Fault, manis, done; }
      todo := todo - {p};
    }
    TagFacts(e, truth, os, w, disks.vols, t, tags, manis, done, todo);
    TaggingMember(os, w, tags, manis);
    r := Ok(());
  }

  lemma PutInTwoSteps(e: Env, mid: World, w': World, t: Root, p: (string, string), d: Digest, content: Bytes)
    requires Hash(e, Sha256, content) == d && w' == mid[t := Put(e, At(mid, t), p.0, Tag(p.1), content)]
    ensures var half := mid[t := PutBytes(e, At(mid, t), p.0, content)];
            w' == half[t := At(half, t).(tags := At(half, t).tags[p := d])]
  {
    assert (p.0, p.1) == p;
  }

  lemma TagFacts(e: Env, truth: Digest -> Bytes, os: seq<Root>, w: World, w': World, t: Root, tags: TagMap,
                 manis: map<Pair, Bytes>, done: TagMap, todo: set<(string, string)>)
    requires TagProgress(e, truth, os, w, w', t, tags, manis, done, todo)
    ensures Genuine(e, truth, w') && manis.Keys <= ManisOf(os, w, Tagging(tags)).Keys
  {
  }

  lemma TaggingMember(os: seq<Root>, w: World, tags: TagMap, manis: map<Pair, Bytes>)
    requires manis.Keys <= ManisOf(os, w, Tagging(tags)).Keys
    requires forall p :: p in tags && (p.0, tags[p]) in ManisOf(os, w, Tagging(tags)) ==> (p.0, tags[p]) in manis
    ensures manis.Keys == ManisOf(os, w, Tagging(tags)).Keys
  {
    forall q | q in ManisOf(os, w, Tagging(tags)) ensures q in manis {
      assert q in Tagging(tags);
      var p :| p in tags && q == (p.0, tags[p]);
    }
  }

  // ---- All three --------------------------------------------------------------------------

  /** What holds however far the copy got: blobs `b`, manifests `m` and pointers `g` were added to root
      `t` and nothing else changed; all of it was wanted and comes from the source; no pointer was
      written before its manifest. */
  ghost predicate PartCopy(e: Env, truth: Digest -> Bytes, os: seq<Root>, od: seq<Root>, w: World, w': World, t: Root,
                           blobs: set<Digest>, manis: set<Pair>, tags: TagMap,
                           b: map<Digest, Bytes>, m: map<Pair, Bytes>, g: TagMap)
  {
    && Genuine(e, truth, w') && TrueBlobs(e, truth, b) && TrueManis(e, truth, m)
    && Changed(w, w', t, Grown(At(w, t), b, m, g))
    && b.Keys <= BlobsToCopy(os, od, w, blobs).Keys
    && m.Keys <= ManisOf(os, w, manis + Tagging(tags)).Keys
    && forall p :: p in g ==> p in tags && g[p] == tags[p] && (p.0, tags[p]) in m
  }

  /** What holds when it ran to its end. */
  ghost predicate FullCopy(os: seq<Root>, od: seq<Root>, w: World, blobs: set<Digest>, manis: set<Pair>, tags: TagMap,
                           b: map<Digest, Bytes>, m: map<Pair, Bytes>, g: TagMap)
  {
    && b == BlobsToCopy(os, od, w, blobs)
    && ManisToCopy(os, od, w, manis).Keys + ManisOf(os, w, Tagging(tags)).Keys <= m.Keys
    && forall p :: p in tags && (p.0, tags[p]) in ManisOf(os, w, Tagging(tags)) ==> p in g
  }

  /** The order of the loops: no manifest before every blob, no pointer before every manifest. */
  ghost predicate InOrder(os: seq<Root>, od: seq<Root>, w: World, blobs: set<Digest>, manis: set<Pair>,
                          b: map<Digest, Bytes>, m: map<Pair, Bytes>, g: TagMap)
  {
    (m != map[] ==> b == BlobsToCopy(os, od, w, blobs)) && (g != map[] ==> ManisToCopy(os, od, w, manis).Keys <= m.Keys)
  }

  method CopyInto(disks: Disks, src: Backend, dst: Backend, blobs: set<Digest>, manis: set<Pair>, tags: TagMap,
                  strict: bool, ghost truth: Digest -> Bytes)
    returns (r: Result<()>, blobCount: nat, byteCount: nat, maniCount: nat,
             ghost b: map<Digest, Bytes>, ghost m: map<Pair, Bytes>, ghost g: TagMap)
    requires Valid(src) && Valid(dst) && Genuine(disks.env, truth, disks.vols)
    modifies disks
    ensures r.Ok? || r.Fault?
    ensures disks.faults >= old(disks.faults) && (r.Fault? ==> disks.faults > old(disks.faults))
    ensures strict && r.Ok? ==> disks.faults == old(disks.faults)
    ensures PartCopy(disks.env, truth, ReadOrder(src), ReadOrder(dst), old(disks.vols), disks.vols, Target(dst),
                     blobs, manis, tags, b, m, g)
    ensures r.Ok? ==> FullCopy(ReadOrder(src), ReadOrder(dst), old(disks.vols), blobs, manis, tags, b, m, g)
    ensures InOrder(ReadOrder(src), ReadOrder(dst), old(disks.vols), blobs, manis, b, m, g)
    ensures blobCount == |b| && byteCount == Total(b)
    ensures disks.faults == old(disks.faults) ==>
              && m.Keys == ManisToCopy(ReadOrder(src), ReadOrder(dst), old(disks.vols), manis).Keys
                           + ManisOf(ReadOrder(src), old(disks.vols), Tagging(tags)).Keys
              && maniCount == |ManisToCopy(ReadOrder(src), ReadOrder(dst), old(disks.vols), manis)|
  {
    hide Genuine, Read, ReadOrder, ManisToCopy, ManisOf, BlobsToCopy, Tagging, Total, PartCopy, FullCopy, TagProgress,
         Changed, Grown, TrueBlobs, TrueManis;
    ghost var e, os, od, t := disks.env, ReadOrder(src), ReadOrder(dst), Target(dst);
    ghost var w0 := disks.vols;
    maniCount, m, g := 0, map[], map[];
    r, blobCount, byteCount, b := CopyBlobs(disks, src, dst, blobs, truth);
    ghost var w1 := disks.vols;
    AfterBlobs(e, truth, os, od, w0, w1, t, blobs, manis, tags, b);
    if !r.Ok? { return; }
    r, maniCount, m := CopyManifests(disks, src, dst, manis, strict, truth);
    ghost var w2, m1 := disks.vols, m;
    AfterManifests(e, truth, os, od, w0, w1, w2, t, blobs, manis, tags, b, m1);
    if disks.faults == old(disks.faults) { SameSize(m1, ManisToCopy(os, od, w0, manis)); }
    if !r.Ok? { return; }
    ghost var m2;
    r, m2, g := CopyTags(disks, src, dst, tags, truth);
    AfterTags(e, truth, os, od, w0, w1, w2, disks.vols, t, blobs, manis, tags, b, m1, m2, g);
    m := m1 + m2;
    if r.Ok? { AllCopied(e, truth, os, od, w0, w2, disks.vols, t, blobs, manis, tags, b, m1, m2, g); }
  }

  lemma SameSize<K, V>(a: map<K, V>, b: map<K, V>)
    ensures a.Keys == b.Keys ==> |a| == |b|
  {
    assert |a.Keys| == |a| && |b.Keys| == |b|;
  }

  lemma ManisAfterBlobs(e: Env, truth: Digest -> Bytes, os: seq<Root>, od: seq<Root>, w0: World, w1: World, t: Root,
                        manis: set<Pair>, b: map<Digest, Bytes>)
    requires Changed(w0, w1, t, Grown(At(w0, t), b, map[], map[]))
    ensures ManisOf(os, w1, manis) == ManisOf(os, w0, manis)
    ensures ManisToCopy(os, od, w1, manis) == ManisToCopy(os, od, w0, manis)
  {
    forall p: Pair ensures Read(os, w1, Mani(p.0, p.1)) == Read(os, w0, Mani(p.0, p.1))
                     && Read(od, w1, Mani(p.0, p.1)) == Read(od, w0, Mani(p.0, p.1)) {
      ReadUndisturbed(os, w0, w1, t, b, map[], map[], Mani(p.0, p.1));
      ReadUndisturbed(od, w0, w1, t, b, map[], map[], Mani(p.0, p.1));
    }
  }

  lemma ManisAfterManifests(e: Env, truth: Digest -> Bytes, os: seq<Root>, w1: World, w2: World, t: Root,
                            wanted: set<Pair>, m: map<Pair, Bytes>, manis: set<Pair>)
    requires Genuine(e, truth, w1) && Genuine(e, truth, w2)
    requires Changed(w1, w2, t, Grown(At(w1, t), map[], m, map[])) && m.Keys <= ManisOf(os, w1, manis).Keys
    ensures ManisOf(os, w2, wanted) == ManisOf(os, w1, wanted)
  {
    forall p: Pair ensures Read(os, w2, Mani(p.0, p.1)) == Read(os, w1, Mani(p.0, p.1)) {
      CopyInvisible(e, truth, os, w1, w2, t, map[], m, map[], Mani(p.0, p.1));
    }
  }

  lemma ManisOfMono(os: seq<Root>, w: World, a: set<Pair>, b: set<Pair>)
    ensures ManisOf(os, w, a + b).Keys == ManisOf(os, w, a).Keys + ManisOf(os, w, b).Keys
  {
  }

  lemma GrownInSteps(w0: World, w1: World, w2: World, t: Root, b: map<Digest, Bytes>, m1: map<Pair, Bytes>,
                     m2: map<Pair, Bytes>, g: TagMap)
    requires Changed(w0, w1, t, Grown(At(w0, t), b, m1, map[]))
    requires Changed(w1, w2, t, Grown(At(w1, t), map[], m2, g))
    ensures Changed(w0, w2, t, Grown(At(w0, t), b, m1 + m2, g))
  {
    hide Grown;
    var v := Grown(At(w0, t), b, m1, map[]);
    assert At(w1, t) == v;
    GrownTwice(At(w0, t), b, m1, map[], map[], m2, g);
    MapNil(b);
    assert map[] + g == g;
    ChangedAgain(w0, w1, w2, t, v, Grown(v, map[], m2, g));
  }

  lemma TrueTogether(e: Env, truth: Digest -> Bytes, m1: map<Pair, Bytes>, m2: map<Pair, Bytes>)
    requires TrueManis(e, truth, m1) && TrueManis(e, truth, m2)
    ensures TrueManis(e, truth, m1 + m2)
  {
  }

  lemma AfterBlobs(e: Env, truth: Digest -> Bytes, os: seq<Root>, od: seq<Root>, w0: World, w1: World, t: Root,
                   blobs: set<Digest>, manis: set<Pair>, tags: TagMap, b: map<Digest, Bytes>)
    requires Genuine(e, truth, w1) && TrueBlobs(e, truth, b) && Changed(w0, w1, t, Grown(At(w0, t), b, map[], map[]))
    requires b.Keys <= BlobsToCopy(os, od, w0, blobs).Keys
    ensures PartCopy(e, truth, os, od, w0, w1, t, blobs, manis, tags, b, map[], map[])
    ensures ManisOf(os, w1, manis) == ManisOf(os, w0, manis)
    ensures ManisToCopy(os, od, w1, manis) == ManisToCopy(os, od, w0, manis)
  {
    hide Genuine, Changed, Grown;
    ManisAfterBlobs(e, truth, os, od, w0, w1, t, manis, b);
  }

  lemma AfterManifests(e: Env, truth: Digest -> Bytes, os: seq<Root>, od: seq<Root>, w0: World, w1: World, w2: World,
                       t: Root, blobs: set<Digest>, manis: set<Pair>, tags: TagMap, b: map<Digest, Bytes>,
                       m: map<Pair, Bytes>)
    requires PartCopy(e, truth, os, od, w0, w1, t, blobs, manis, tags, b, map[], map[])
    requires Genuine(e, truth, w2) && TrueManis(e, truth, m) && Changed(w1, w2, t, Grown(At(w1, t), map[], m, map[]))
    requires m.Keys <= ManisOf(os, w0, manis).Keys
    ensures PartCopy(e, truth, os, od, w0, w2, t, blobs, manis, tags, b, m, map[])
  {
    hide Genuine, Changed, Grown, BlobsToCopy, ManisOf;
    GrownInSteps(w0, w1, w2, t, b, map[], m, map[]);
    assert map[] + m == m;
    ManisOfMono(os, w0, manis, Tagging(tags));
  }

  lemma TagsAfterAll(e: Env, truth: Digest -> Bytes, os: seq<Root>, w0: World, w1: World, w2: World, t: Root,
                     manis: set<Pair>, tags: TagMap, b: map<Digest, Bytes>, m1: map<Pair, Bytes>)
    requires Genuine(e, truth, w1) && Genuine(e, truth, w2)
    requires Changed(w0, w1, t, Grown(At(w0, t), b, map[], map[]))
             && Changed(w1, w2, t, Grown(At(w1, t), map[], m1, map[]))
    requires m1.Keys <= ManisOf(os, w0, manis).Keys
    ensures ManisOf(os, w2, Tagging(tags)) == ManisOf(os, w0, Tagging(tags))
  {
    hide Genuine, Changed, Grown, ManisOf, Tagging;
    ManisAfterBlobs(e, truth, os, os, w0, w1, t, Tagging(tags), b);
    ManisAfterBlobs(e, truth, os, os, w0, w1, t, manis, b);
    ManisAfterManifests(e, truth, os, w1, w2, t, Tagging(tags), m1, manis);
  }

  lemma AfterTags(e: Env, truth: Digest -> Bytes, os: seq<Root>, od: seq<Root>, w0: World, w1: World, w2: World,
                  w3: World, t: Root, blobs: set<Digest>, manis: set<Pair>, tags: TagMap, b: map<Digest, Bytes>,
                  m1: map<Pair, Bytes>, m2: map<Pair, Bytes>, g: TagMap)
    requires PartCopy(e, truth, os, od, w0, w1, t, blobs, manis, tags, b, map[], map[])
    requires PartCopy(e, truth, os, od, w0, w2, t, blobs, manis, tags, b, m1, map[])
    requires Genuine(e, truth, w2) && Changed(w1, w2, t, Grown(At(w1, t), map[], m1, map[]))
    requires m1.Keys <= ManisOf(os, w0, manis).Keys
    requires exists todo :: TagProgress(e, truth, os, w2, w3, t, tags, m2, g, todo)
    ensures PartCopy(e, truth, os, od, w0, w3, t, blobs, manis, tags, b, m1 + m2, g)
    ensures ManisOf(os, w2, Tagging(tags)) == ManisOf(os, w0, Tagging(tags))
  {
    hide Genuine, Changed, Grown, BlobsToCopy, ManisOf, TrueManis, Tagging;
    var todo :| TagProgress(e, truth, os, w2, w3, t, tags, m2, g, todo);
    TagsAfterAll(e, truth, os, w0, w1, w2, t, manis, tags, b, m1);
    GrownInSteps(w0, w2, w3, t, b, m1, m2, g);
    TrueTogether(e, truth, m1, m2);
    ManisOfMono(os, w0, manis, Tagging(tags));
  }

  lemma AllCopied(e: Env, truth: Digest -> Bytes, os: seq<Root>, od: seq<Root>, w0: World, w2: World, w3: World,
                  t: Root, blobs: set<Digest>, manis: set<Pair>, tags: TagMap, b: map<Digest, Bytes>,
                  m1: map<Pair, Bytes>, m2: map<Pair, Bytes>, g: TagMap)
    requires TagProgress(e, truth, os, w2, w3, t, tags, m2, g, {})
    requires ManisOf(os, w2, Tagging(tags)) == ManisOf(os, w0, Tagging(tags))
             && m2.Keys == ManisOf(os, w2, Tagging(tags)).Keys
    requires b == BlobsToCopy(os, od, w0, blobs) && ManisToCopy(os, od, w0, manis).Keys <= m1.Keys
    ensures FullCopy(os, od, w0, blobs, manis, tags, b, m1 + m2, g)
  {
    hide Genuine, Changed, Grown, BlobsToCopy, ManisOf, ManisToCopy, Tagging, TrueManis;
  }
}
