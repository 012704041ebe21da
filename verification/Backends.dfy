/** Backends over storage roots: a plain root, or a `MultiStore` composing several backends.

    Roots live in one world `map<Root, Vol>`, so two backends opened on the same path really share
    their bytes; `arc` is the identity `Arc::ptr_eq` compares. */
module Backends {
  import opened Content
  import opened Volumes

  type World = map<Root, Vol>

  /** A root that was never written is an empty tree. */
  function At(w: World, root: Root): Vol { if root in w then w[root] else EMPTY }

  datatype Partition = Partition(name: string, storage: Backend)

  datatype Backend =
    | Fs(arc: nat, root: Root)
    | Multi(arc: nat, partitions: seq<Partition>, primary: nat)

  predicate Valid(b: Backend) {
    b.Multi? ==>
      b.primary < |b.partitions| && forall i :: 0 <= i < |b.partitions| ==> Valid(b.partitions[i].storage)
  }

  /** The roots a read tries, in order: primary first, then the other partitions as declared,
      nested stores flattened. */
  function ReadOrder(b: Backend): (o: seq<Root>)
    requires Valid(b)
    ensures |o| > 0
    decreases b, 1
  {
    match b
    case Fs(_, root) => [root]
    case Multi(_, parts, primary) => ReadOrder(parts[primary].storage) + Secondaries(b, 0)
  }

  function Secondaries(b: Backend, i: nat): seq<Root>
    requires Valid(b) && b.Multi? && i <= |b.partitions|
    decreases b, 0, |b.partitions| - i
  {
    if i == |b.partitions| then []
    else (if i == b.primary then [] else ReadOrder(b.partitions[i].storage)) + Secondaries(b, i + 1)
  }

  /** Writes and upload sessions go to the primary of the primary of ... */
  function Target(b: Backend): Root
    requires Valid(b)
  {
    ReadOrder(b)[0]
  }

  function Roots(b: Backend): set<Root>
    requires Valid(b)
  {
    Elements(ReadOrder(b))
  }

  lemma SingleRoot(b: Backend)
    requires b.Fs?
    ensures ReadOrder(b) == [b.root]
  {
  }

  function RootsUpTo(b: Backend, i: nat): set<Root>
    requires Valid(b) && b.Multi? && i <= |b.partitions|
  {
    if i == 0 then {} else RootsUpTo(b, i - 1) + Roots(b.partitions[i - 1].storage)
  }

  lemma {:induction false} SecondaryRoots(b: Backend, i: nat)
    requires Valid(b) && b.Multi? && i <= |b.partitions|
    ensures RootsUpTo(b, |b.partitions|) + Roots(b.partitions[b.primary].storage) ==
            RootsUpTo(b, i) + Elements(Secondaries(b, i)) + Roots(b.partitions[b.primary].storage)
    decreases |b.partitions| - i
  {
    hide ReadOrder;
    if i < |b.partitions| {
      SecondaryRoots(b, i + 1);
      var one := if i == b.primary then [] else ReadOrder(b.partitions[i].storage);
      assert Secondaries(b, i) == one + Secondaries(b, i + 1);
      ElementsConcat(one, Secondaries(b, i + 1));
      assert RootsUpTo(b, i + 1) == RootsUpTo(b, i) + Roots(b.partitions[i].storage);
    }
  }

  lemma ElementsConcat<T>(a: seq<T>, b: seq<T>)
    ensures Elements(a + b) == Elements(a) + Elements(b)
  {
  }

  lemma {:induction false} RootsUpToMono(b: Backend, i: nat, n: nat)
    requires Valid(b) && b.Multi? && i < n <= |b.partitions|
    ensures Roots(b.partitions[i].storage) <= RootsUpTo(b, n)
    decreases n
  {
    if i < n - 1 { RootsUpToMono(b, i, n - 1); }
  }

  /** Flattening loses no root and adds none. */
  lemma RootsOfMulti(b: Backend)
    requires Valid(b) && b.Multi?
    ensures RootsUpTo(b, |b.partitions|) == Roots(b)
  {
    SecondaryRoots(b, 0);
    RootsUpToMono(b, b.primary, |b.partitions|);
    assert Roots(b) == Roots(b.partitions[b.primary].storage) + Elements(Secondaries(b, 0));
  }

  // ---- Reading through a backend ----------------------------------------------------------

  /** First hit along the read order. */
  function Read(o: seq<Root>, w: World, k: Key): Option<Bytes> {
    if o == [] then None
    else if Lookup(At(w, o[0]), k).Some? then Lookup(At(w, o[0]), k)
    else Read(o[1..], w, k)
  }

  lemma OneRoot(w: World, root: Root, k: Key)
    ensures Read([root], w, k) == Lookup(At(w, root), k)
  {
  }

  lemma {:induction false} ReadConcat(a: seq<Root>, b: seq<Root>, w: World, k: Key)
    ensures Read(a + b, w, k) == if Read(a, w, k).Some? then Read(a, w, k) else Read(b, w, k)
  {
    if a == [] {
      assert a + b == b;
    } else {
      assert (a + b)[1..] == a[1..] + b;
      ReadConcat(a[1..], b, w, k);
    }
  }

  lemma {:induction false} ReadFinds(o: seq<Root>, w: World, k: Key)
    ensures Read(o, w, k).Some? <==> exists root :: root in o && Lookup(At(w, root), k).Some?
    ensures Read(o, w, k).Some? ==> exists root :: root in o && Lookup(At(w, root), k) == Read(o, w, k)
  {
    if o != [] {
      ReadFinds(o[1..], w, k);
      assert o == [o[0]] + o[1..];
    }
  }

  lemma {:induction false} ReadDependsOnRoots(o: seq<Root>, w: World, w': World, k: Key)
    requires forall root :: root in o ==> Lookup(At(w', root), k) == Lookup(At(w, root), k)
    ensures Read(o, w', k) == Read(o, w, k)
  {
    if o != [] { ReadDependsOnRoots(o[1..], w, w', k); }
  }

  function AsResult<T>(o: Option<T>): Result<T> { if o.Some? then Ok(o.value) else NotFound }

  function NamesIn(roots: set<Root>, w: World, what: NameList): set<string> {
    set root, x | root in roots && x in Names(At(w, root), what) :: x
  }

  function DigestsIn(roots: set<Root>, w: World, what: DigestList): set<Digest> {
    set root, x | root in roots && x in Digests(At(w, root), what) :: x
  }

  // ---- One truth per digest ---------------------------------------------------------------

  /** Collision freedom, stated only of what is stored: there is one assignment of bytes to digests
      that every root agrees with. (A globally injective hash of bounded length does not exist.) */
  ghost predicate GenuineVol(e: Env, truth: Digest -> Bytes, v: Vol) {
    && ContentAddressed(e, v)
    && (forall d :: d in v.blobs ==> v.blobs[d] == truth(d))
    && (forall p :: p in v.manifests ==> v.manifests[p] == truth(p.1))
  }

  ghost predicate Genuine(e: Env, truth: Digest -> Bytes, w: World) {
    forall root :: root in w ==> GenuineVol(e, truth, w[root])
  }

  lemma GenuineAt(e: Env, truth: Digest -> Bytes, w: World, root: Root)
    requires Genuine(e, truth, w)
    ensures GenuineVol(e, truth, At(w, root))
  {
  }

  ghost predicate StoredUnder(w: World, d: Digest, x: Bytes) {
    exists root :: root in w && HasUnder(w[root], d, x)
  }

  ghost predicate HasUnder(v: Vol, d: Digest, x: Bytes) {
    (d in v.blobs && v.blobs[d] == x) || exists p :: p in v.manifests && p.1 == d && v.manifests[p] == x
  }

  ghost predicate CollisionFree(w: World) { forall d, x, y :: StoredUnder(w, d, x) && StoredUnder(w, d, y) ==> x == y }

  ghost function TruthOf(w: World): Digest -> Bytes {
    d => if exists x :: StoredUnder(w, d, x) then var x :| StoredUnder(w, d, x); x else []
  }

  /** Such an assignment exists exactly when no two different contents are stored under one digest. */
  lemma TruthIsCollisionFreedom(e: Env, truth: Digest -> Bytes, w: World)
    requires forall root :: root in w ==> ContentAddressed(e, w[root])
    ensures Genuine(e, truth, w) ==> CollisionFree(w)
    ensures CollisionFree(w) ==> Genuine(e, TruthOf(w), w)
  {
    if Genuine(e, truth, w) {
      forall d, x | StoredUnder(w, d, x) ensures x == truth(d) {
        var root :| root in w && HasUnder(w[root], d, x);
      }
    }
    if CollisionFree(w) {
      hide TruthOf, CollisionFree;
      forall root | root in w ensures GenuineVol(e, TruthOf(w), w[root]) {
        forall d | d in w[root].blobs ensures w[root].blobs[d] == TruthOf(w)(d) {
          TruthIsStored(w, root, d, w[root].blobs[d]);
        }
        forall p | p in w[root].manifests ensures w[root].manifests[p] == TruthOf(w)(p.1) {
          TruthIsStored(w, root, p.1, w[root].manifests[p]);
        }
      }
    }
  }

  lemma TruthIsStored(w: World, root: Root, d: Digest, x: Bytes)
    requires CollisionFree(w) && root in w && HasUnder(w[root], d, x)
    ensures TruthOf(w)(d) == x
  {
    assert StoredUnder(w, d, x);
    assert StoredUnder(w, d, TruthOf(w)(d));
  }

  lemma GenuineRead(e: Env, truth: Digest -> Bytes, o: seq<Root>, w: World, k: Key)
    requires Genuine(e, truth, w) && !k.Tagged?
    ensures Read(o, w, k).Some? ==> Read(o, w, k).value == truth(k.digest)
    ensures Read(o, w, k).Some? && k.Mani? ==> Hash(e, Sha256, truth(k.digest)) == k.digest
    ensures Read(o, w, k).Some? && k.Blob? ==> Hash(e, k.digest.algorithm, truth(k.digest)) == k.digest
  {
    ReadFinds(o, w, k);
    if Read(o, w, k).Some? {
      var root :| root in o && Lookup(At(w, root), k) == Read(o, w, k);
      GenuineAt(e, truth, w, root);
    }
  }

  lemma GenuineTagRead(e: Env, truth: Digest -> Bytes, o: seq<Root>, w: World, repo: string, tag: string)
    requires Genuine(e, truth, w) && Read(o, w, Tagged(repo, tag)).Some?
    ensures var d := Hash(e, Sha256, Read(o, w, Tagged(repo, tag)).value);
            Read(o, w, Tagged(repo, tag)).value == truth(d) && Read(o, w, Mani(repo, d)) == Some(truth(d))
  {
    var k := Tagged(repo, tag);
    ReadFinds(o, w, k);
    var root :| root in o && Lookup(At(w, root), k) == Read(o, w, k);
    GenuineAt(e, truth, w, root);
    var d := At(w, root).tags[(repo, tag)];
    assert Lookup(At(w, root), Mani(repo, d)).Some?;
    ReadFinds(o, w, Mani(repo, d));
    GenuineRead(e, truth, o, w, Mani(repo, d));
  }

  /** Reads by digest do not depend on the order of the partitions. */
  lemma AnyOrderReadsTheSame(e: Env, truth: Digest -> Bytes, o: seq<Root>, o': seq<Root>, w: World, k: Key)
    requires Genuine(e, truth, w) && Elements(o) == Elements(o') && !k.Tagged?
    ensures Read(o, w, k) == Read(o', w, k)
  {
    ReadFinds(o, w, k);
    ReadFinds(o', w, k);
    assert forall root :: root in o <==> root in Elements(o');
    GenuineRead(e, truth, o, w, k);
    GenuineRead(e, truth, o', w, k);
  }

  // ---- The one logical store a composite refines ------------------------------------------

  /** Tags of a root that resolve there: a dangling tag is passed over by the fall-through read. */
  function LiveTags(v: Vol): map<(string, string), Digest> {
    map p | p in v.tags && (p.0, v.tags[p]) in v.manifests :: v.tags[p]
  }

  /** Merge of the roots in read order, earlier roots winning. */
  function Logical(o: seq<Root>, w: World): Vol {
    if o == [] then EMPTY else
    var v, rest := At(w, o[0]), Logical(o[1..], w);
    Vol(rest.blobs + v.blobs, rest.manifests + v.manifests, rest.tags + LiveTags(v), rest.dirs + v.dirs, v.uploads)
  }

  lemma {:induction false} LogicalManifests(o: seq<Root>, w: World, k: Key)
    requires !k.Tagged?
    ensures Lookup(Logical(o, w), k) == Read(o, w, k)
  {
    if o != [] { LogicalManifests(o[1..], w, k); }
  }

  lemma {:induction false} LogicalTags(o: seq<Root>, w: World, repo: string, tag: string)
    ensures (repo, tag) in Logical(o, w).tags <==> Read(o, w, Tagged(repo, tag)).Some?
    ensures (repo, tag) in Logical(o, w).tags ==>
              exists root :: root in o && (repo, tag) in At(w, root).tags
                             && At(w, root).tags[(repo, tag)] == Logical(o, w).tags[(repo, tag)]
                             && Lookup(At(w, root), Tagged(repo, tag)) == Read(o, w, Tagged(repo, tag))
  {
    if o != [] {
      LogicalTags(o[1..], w, repo, tag);
      LiveTagReads(At(w, o[0]), repo, tag);
      hide LiveTags, Lookup;
      assert o[0] in o && forall root :: root in o[1..] ==> root in o;
    }
  }

  lemma LiveTagReads(v: Vol, repo: string, tag: string)
    ensures (repo, tag) in LiveTags(v) <==> Lookup(v, Tagged(repo, tag)).Some?
    ensures (repo, tag) in LiveTags(v) ==> (repo, tag) in v.tags && LiveTags(v)[(repo, tag)] == v.tags[(repo, tag)]
  {
  }

  /** A composite reads exactly like the single merged volume, for every key. */
  lemma CompositeRefinesLogical(e: Env, truth: Digest -> Bytes, o: seq<Root>, w: World, k: Key)
    requires Genuine(e, truth, w)
    ensures Read(o, w, k) == Lookup(Logical(o, w), k)
  {
    if k.Tagged? {
      LogicalTags(o, w, k.repo, k.tag);
      if Read(o, w, k).Some? {
        var root :| root in o && (k.repo, k.tag) in At(w, root).tags
                    && At(w, root).tags[(k.repo, k.tag)] == Logical(o, w).tags[(k.repo, k.tag)]
                    && Lookup(At(w, root), k) == Read(o, w, k);
        var d := At(w, root).tags[(k.repo, k.tag)];
        LogicalManifests(o, w, Mani(k.repo, d));
        GenuineAt(e, truth, w, root);
        assert Lookup(At(w, root), Mani(k.repo, d)).Some?;
        ReadFinds(o, w, Mani(k.repo, d));
        GenuineRead(e, truth, o, w, Mani(k.repo, d));
      }
    } else {
      LogicalManifests(o, w, k);
    }
  }

  // ---- Bytes in use -----------------------------------------------------------------------

  ghost function Total(m: map<Digest, Bytes>): nat {
    if m == map[] then 0 else var d :| d in m; |m[d]| + Total(m - {d})
  }

  lemma TotalEmpty(m: map<Digest, Bytes>)
    requires m.Keys == {}
    ensures Total(m) == 0
  {
    assert m == map[];
  }

  lemma {:induction false} TotalWithout(m: map<Digest, Bytes>, d: Digest)
    requires d in m
    ensures Total(m) == |m[d]| + Total(m - {d})
    decreases |m|
  {
    var x :| x in m && Total(m) == |m[x]| + Total(m - {x});
    if x != d {
      TotalWithout(m - {x}, d);
      TotalWithout(m - {d}, x);
      assert m - {x} - {d} == m - {d} - {x};
    }
  }

  lemma TotalWith(m: map<Digest, Bytes>, d: Digest, bytes: Bytes)
    requires d !in m
    ensures Total(m[d := bytes]) == Total(m) + |bytes|
  {
    TotalWithout(m[d := bytes], d);
    assert m[d := bytes] - {d} == m;
  }

  /** The blob bytes a backend reports: every digest once, wherever its copies are. */
  ghost function Used(o: seq<Root>, w: World): nat { Total(Logical(o, w).blobs) }
}
