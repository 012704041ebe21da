/** The manifest walk shared by migration and replication (`walk`, `walk_manifest`): a depth-first
    search over the manifests of one repository, following the child manifests an index names. */
module Walks {
  import opened Content
  import opened Volumes
  import opened Backends
  import opened Devices

  /** The manifests of one repository: digest to bytes. Children may be missing and cycles may exist. */
  type Graph = map<Digest, Bytes>

  function Kids(e: Env, bytes: Bytes): seq<Digest> {
    var m := e.parse(bytes);
    if m.Some? then m.value.manifests else []
  }

  function BlobsNamed(e: Env, bytes: Bytes): set<Digest> {
    var m := e.parse(bytes);
    if m.Some? then BlobRefs(m.value) else {}
  }

  /** Every stored child of a member of `s` is in `t`. */
  ghost predicate Covers(e: Env, g: Graph, s: set<Digest>, t: set<Digest>) {
    forall x, c :: x in s && x in g && c in Kids(e, g[x]) && c in g ==> c in t
  }

  ghost predicate Closed(e: Env, g: Graph, s: set<Digest>) { Covers(e, g, s, s) }

  function BlobsOf(e: Env, g: Graph, s: set<Digest>): set<Digest> {
    set x, d | x in s && x in g && d in BlobsNamed(e, g[x]) :: d
  }

  /** What a backend shows of one repository. */
  function GraphOf(o: seq<Root>, w: World, repo: string): Graph {
    map d | d in DigestsIn(Elements(o), w, Manifests(repo)) && Read(o, w, Mani(repo, d)).Some?
      :: Read(o, w, Mani(repo, d)).value
  }

  /** Every listed manifest is readable and every readable one is listed. */
  lemma GraphReads(o: seq<Root>, w: World, repo: string, d: Digest)
    ensures d in GraphOf(o, w, repo) <==> Read(o, w, Mani(repo, d)).Some?
    ensures d in DigestsIn(Elements(o), w, Manifests(repo)) <==> Read(o, w, Mani(repo, d)).Some?
    ensures AsResult(Read(o, w, Mani(repo, d))) ==
            if d in GraphOf(o, w, repo) then Ok(GraphOf(o, w, repo)[d]) else NotFound
  {
    ReadFinds(o, w, Mani(repo, d));
    if Read(o, w, Mani(repo, d)).Some? {
      var root :| root in o && Lookup(At(w, root), Mani(repo, d)) == Read(o, w, Mani(repo, d));
      assert (repo, d) in At(w, root).manifests;
      assert d in Digests(At(w, root), Manifests(repo));
      assert root in Elements(o);
    }
    if d in DigestsIn(Elements(o), w, Manifests(repo)) {
      var root :| root in Elements(o) && d in Digests(At(w, root), Manifests(repo));
      assert Lookup(At(w, root), Mani(repo, d)).Some?;
    }
  }

  lemma ListedIsStored(o: seq<Root>, w: World, repo: string)
    ensures DigestsIn(Elements(o), w, Manifests(repo)) == GraphOf(o, w, repo).Keys
  {
    forall d ensures d in DigestsIn(Elements(o), w, Manifests(repo)) <==> d in GraphOf(o, w, repo) {
      GraphReads(o, w, repo, d);
    }
  }

  /** What walking from `starts` adds to `seen`: the stored children of everything added are present
      afterwards, nothing is added that a closed set around the starts would not contain, and the blobs
      collected are exactly those named by the manifests added. */
  ghost predicate Walked(e: Env, g: Graph, starts: set<Digest>, seen: set<Digest>, seen': set<Digest>,
                         blobs: set<Digest>, blobs': set<Digest>)
  {
    && seen + starts <= seen' <= seen + g.Keys
    && Covers(e, g, seen' - seen, seen')
    && blobs' == blobs + BlobsOf(e, g, seen' - seen)
    && forall c :: Closed(e, g, c) && starts <= c ==> seen' - seen <= c
  }

  lemma WalkedNothing(e: Env, g: Graph, starts: set<Digest>, seen: set<Digest>, blobs: set<Digest>)
    requires starts <= seen
    ensures Walked(e, g, starts, seen, seen, blobs, blobs)
  {
    assert seen - seen == {};
    assert BlobsOf(e, g, {}) == {};
  }

  lemma WalkedThen(e: Env, g: Graph, s1: set<Digest>, s2: set<Digest>, seen: set<Digest>, mid: set<Digest>,
                   end: set<Digest>, b0: set<Digest>, b1: set<Digest>, b2: set<Digest>)
    requires Walked(e, g, s1, seen, mid, b0, b1) && Walked(e, g, s2, mid, end, b1, b2)
    ensures Walked(e, g, s1 + s2, seen, end, b0, b2)
  {
    assert end - seen == (mid - seen) + (end - mid);
    assert BlobsOf(e, g, end - seen) == BlobsOf(e, g, mid - seen) + BlobsOf(e, g, end - mid);
  }

  /** Visiting a node and then walking its stored children is walking from the node. */
  lemma WalkedNode(e: Env, g: Graph, digest: Digest, seen: set<Digest>, end: set<Digest>,
                   b0: set<Digest>, b1: set<Digest>)
    requires digest in g && digest !in seen
    requires Walked(e, g, Elements(Kids(e, g[digest])) * g.Keys, seen + {digest}, end, b0, b1)
    ensures Walked(e, g, {digest}, seen, end, b0, b1 + BlobsNamed(e, g[digest]))
  {
    var rest := end - (seen + {digest});
    assert end - seen == rest + {digest};
    assert BlobsOf(e, g, end - seen) == BlobsOf(e, g, rest) + BlobsNamed(e, g[digest]);
    forall c | Closed(e, g, c) && {digest} <= c ensures end - seen <= c {
      assert digest in c;
      assert Elements(Kids(e, g[digest])) * g.Keys <= c;
    }
    assert Elements(Kids(e, g[digest])) * g.Keys <= end;
  }

  /** It terminates on every graph, cycles included: each call that goes on visits a stored manifest for
      the first time. */
  method Walk(disks: Disks, b: Backend, repo: string, digest: Digest, bytes: Bytes,
              seen: set<Digest>, blobs: set<Digest>, ghost g: Graph)
    returns (r: Result<()>, seen': set<Digest>, blobs': set<Digest>)
    requires Valid(b) && g == GraphOf(ReadOrder(b), disks.vols, repo)
    requires digest in g && g[digest] == bytes
    modifies disks`faults
    ensures r.Ok? || r.Fault?
    ensures disks.faults >= old(disks.faults) && (r.Ok? <==> disks.faults == old(disks.faults))
    ensures r.Ok? ==> Walked(disks.env, g, {digest}, seen, seen', blobs, blobs')
    decreases g.Keys - seen
  {
    hide Walked, Read, GraphOf;
    var e := disks.env;
    seen', blobs' := seen, blobs;
    if digest in seen {
      WalkedNothing(e, g, {digest}, seen, blobs);
      return Ok(()), seen', blobs';
    }
    seen' := seen + {digest};
    WalkedNothing(e, g, {}, seen', blobs);
    var parsed := e.parse(bytes);
    if parsed.None? {
      assert Elements(Kids(e, g[digest])) * g.Keys == {};
      WalkedNode(e, g, digest, seen, seen', blobs, blobs);
      assert blobs + BlobsNamed(e, g[digest]) == blobs;
      return Ok(()), seen', blobs';
    }
    var kids := parsed.value.manifests;
    assert Elements(kids[..0]) * g.Keys == {};
    for i := 0 to |kids|
      invariant disks.faults == old(disks.faults) && seen + {digest} <= seen'
      invariant Walked(e, g, Elements(kids[..i]) * g.Keys, seen + {digest}, seen', blobs, blobs')
    {
      var kid := kids[i];
      assert Elements(kids[..i + 1]) == Elements(kids[..i]) + {kid};
      if kid in seen' {
        WalkedNothing(e, g, {kid} * g.Keys, seen', blobs');
        WalkedThen(e, g, Elements(kids[..i]) * g.Keys, {kid} * g.Keys, seen + {digest}, seen', seen', blobs, blobs',
                   blobs');
        assert Elements(kids[..i + 1]) * g.Keys == Elements(kids[..i]) * g.Keys + {kid} * g.Keys;
        continue;
      }
      var got := disks.Get(b, Mani(repo, kid));
      GraphReads(ReadOrder(b), disks.vols, repo, kid);
      if got.NotFound? {
        assert Elements(kids[..i + 1]) * g.Keys == Elements(kids[..i]) * g.Keys;
        continue;
      }
      if !got.Ok? { return Fault, seen', blobs'; }
      ghost var mid, b1 := seen', blobs';
      var sub;
      sub, seen', blobs' := Walk(disks, b, repo, kid, got.value, seen', blobs', g);
      if !sub.Ok? { return Fault, seen', blobs'; }
      WalkedThen(e, g, Elements(kids[..i]) * g.Keys, {kid}, seen + {digest}, mid, seen', blobs, b1, blobs');
      WalkedGrows(e, g, {kid}, mid, seen', b1, blobs');
      assert Elements(kids[..i + 1]) * g.Keys == Elements(kids[..i]) * g.Keys + {kid};
    }
    assert kids[..|kids|] == kids;
    WalkedNode(e, g, digest, seen, seen', blobs, blobs');
    blobs' := blobs' + BlobRefs(parsed.value);
    r := Ok(());
  }

  lemma WalkedGrows(e: Env, g: Graph, starts: set<Digest>, seen: set<Digest>, seen': set<Digest>, b0: set<Digest>,
                    b1: set<Digest>)
    requires Walked(e, g, starts, seen, seen', b0, b1)
    ensures seen + starts <= seen'
  {
  }

  /** Started from nothing, walks from `starts` end with exactly the least set that contains the starts
      and every stored child of its members, and the blobs its parseable members name. */
  lemma WalkIsLeastClosure(e: Env, g: Graph, starts: set<Digest>, seen: set<Digest>, blobs: set<Digest>)
    requires Walked(e, g, starts, {}, seen, {}, blobs)
    ensures starts <= seen <= g.Keys && Closed(e, g, seen)
    ensures forall c :: starts <= c && Closed(e, g, c) ==> seen <= c
    ensures blobs == BlobsOf(e, g, seen)
  {
    assert seen - {} == seen;
  }

  /** That set as a function: what every closed set around the starts has in common. */
  ghost function Reach(e: Env, g: Graph, starts: set<Digest>): set<Digest> {
    set d | d in g.Keys && forall c: set<Digest> :: starts <= c && Closed(e, g, c) ==> d in c
  }

  lemma WalkReaches(e: Env, g: Graph, starts: set<Digest>, seen: set<Digest>, blobs: set<Digest>)
    requires Walked(e, g, starts, {}, seen, {}, blobs)
    ensures seen == Reach(e, g, starts) && blobs == BlobsOf(e, g, Reach(e, g, starts))
  {
    WalkIsLeastClosure(e, g, starts, seen, blobs);
    hide Walked, Closed;
    forall d | d in seen ensures d in Reach(e, g, starts) { }
  }

  lemma ReachAll(e: Env, g: Graph)
    ensures Reach(e, g, g.Keys) == g.Keys
  {
    hide Closed;
  }
}
