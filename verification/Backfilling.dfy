/** The backfill of a whole class: `copy_repo` over every repository to move amounts to one copy of the
    union of their contents as they stood when the backfill began. */
module Backfilling {
  import opened Content
  import opened Volumes
  import opened Backends
  import opened Devices
  import opened Walks
  import opened Copying
  import opened Merging
  import opened Migrating

  function ClassBlobs(e: Env, o: seq<Root>, w: World, repos: set<string>): set<Digest> {
    set repo, d | repo in repos && d in RepoBlobs(e, o, w, repo) :: d
  }

  function ClassManis(o: seq<Root>, w: World, repos: set<string>): set<Pair> {
    set repo, d | repo in repos && d in GraphOf(o, w, repo).Keys :: (repo, d)
  }

  function ClassTagNames(o: seq<Root>, w: World, repos: set<string>): set<(string, string)> {
    set repo, t | repo in repos && t in ListedTags(o, w, repo) && Read(o, w, Tagged(repo, t)).Some? :: (repo, t)
  }

  function ClassTags(e: Env, o: seq<Root>, w: World, repos: set<string>): TagMap {
    map p | p in ClassTagNames(o, w, repos)
      :: var read := Read(o, w, Tagged(p.0, p.1)); if read.Some? then Hash(e, Sha256, read.value)
        else Hash(e, Sha256, [])
  }

  lemma ClassOfOneMore(e: Env, o: seq<Root>, w: World, repos: set<string>, repo: string)
    requires repo !in repos
    ensures ClassBlobs(e, o, w, repos + {repo}) == ClassBlobs(e, o, w, repos) + RepoBlobs(e, o, w, repo)
    ensures ClassManis(o, w, repos + {repo}) == ClassManis(o, w, repos) + RepoManis(o, w, repo)
    ensures ClassTags(e, o, w, repos + {repo}) == ClassTags(e, o, w, repos) + RepoTags(e, o, w, repo)
    ensures ClassTags(e, o, w, repos).Keys !! RepoTags(e, o, w, repo).Keys
  {
    hide RepoBlobs, GraphOf, ListedTags, Read, Hash;
    assert ClassTagNames(o, w, repos + {repo}) == ClassTagNames(o, w, repos) + RepoTags(e, o, w, repo).Keys;
  }

  /** The state of the class copy. */
  ghost predicate ClassCopied(e: Env, truth: Digest -> Bytes, os: seq<Root>, od: seq<Root>, w: World, w': World,
                              t: Root, repos: set<string>, b: map<Digest, Bytes>, m: map<Pair, Bytes>, g: TagMap,
                              full: bool)
  {
    var blobs, manis, tags := ClassBlobs(e, os, w, repos), ClassManis(os, w, repos), ClassTags(e, os, w, repos);
    PartCopy(e, truth, os, od, w, w', t, blobs, manis, tags, b, m, g)
      && (full ==> FullCopy(os, od, w, blobs, manis, tags, b, m, g))
  }

  // ---- The source looks the same throughout ------------------------------------------------

  lemma GraphSame(e: Env, truth: Digest -> Bytes, os: seq<Root>, od: seq<Root>, w: World, w': World, t: Root,
                  blobs: set<Digest>, manis: set<Pair>, tags: TagMap, b: map<Digest, Bytes>, m: map<Pair, Bytes>,
                  g: TagMap, repo: string)
    requires Genuine(e, truth, w) && PartCopy(e, truth, os, od, w, w', t, blobs, manis, tags, b, m, g)
    ensures GraphOf(os, w', repo) == GraphOf(os, w, repo)
  {
    hide PartCopy, Genuine, GraphOf;
    forall d ensures d in GraphOf(os, w', repo) <==> d in GraphOf(os, w, repo)
             ensures d in GraphOf(os, w, repo) ==> GraphOf(os, w', repo)[d] == GraphOf(os, w, repo)[d] {
      SourceGainsNothing(e, truth, os, od, w, w', t, blobs, manis, tags, b, m, g, Mani(repo, d));
      GraphReads(os, w', repo, d);
      GraphReads(os, w, repo, d);
    }
  }

  /** A second `copy_repo` collects what the first one did and finds no blob and no manifest of it missing. */
  lemma SecondCopyRepoCopiesNothing(e: Env, truth: Digest -> Bytes, os: seq<Root>, od: seq<Root>, w: World, w': World,
                                    t: Root, repo: string, b: map<Digest, Bytes>, m: map<Pair, Bytes>, g: TagMap)
    requires Genuine(e, truth, w) && od != [] && t == od[0]
    requires RepoCopied(e, truth, os, od, w, w', t, repo, b, m, g, true)
    ensures RepoBlobs(e, os, w', repo) == RepoBlobs(e, os, w, repo) && RepoManis(os, w', repo) == RepoManis(os, w, repo)
    ensures BlobsToCopy(os, od, w', RepoBlobs(e, os, w', repo)) == map[]
    ensures ManisToCopy(os, od, w', RepoManis(os, w', repo)) == map[]
  {
    hide Genuine, PartCopy, FullCopy, GraphOf, BlobsOf, RepoTags, BlobsToCopy, ManisToCopy;
    var blobs, manis, tags := RepoBlobs(e, os, w, repo), RepoManis(os, w, repo), RepoTags(e, os, w, repo);
    GraphSame(e, truth, os, od, w, w', t, blobs, manis, tags, b, m, g, repo);
    CopyTwiceCopiesNothing(e, truth, os, od, w, w', t, blobs, manis, tags, b, m, g);
  }

  /** Copying other repositories does not touch this one's tags anywhere. */
  lemma TagsSame(e: Env, os: seq<Root>, w: World, w': World, t: Root, b: map<Digest, Bytes>, m: map<Pair, Bytes>,
                 g: TagMap, repo: string)
    requires Changed(w, w', t, Grown(At(w, t), b, m, g))
    requires (forall p :: p in m ==> p.0 != repo) && (forall p :: p in g ==> p.0 != repo)
    ensures RepoTags(e, os, w', repo) == RepoTags(e, os, w, repo) && ListedTags(os, w', repo) == ListedTags(os, w, repo)
    ensures forall tag :: Read(os, w', Tagged(repo, tag)) == Read(os, w, Tagged(repo, tag))
  {
    hide Read, Names, Grown, TagsAmong, Lookup;
    forall root ensures Names(At(w', root), Tags(repo)) == Names(At(w, root), Tags(repo)) {
      NamesSame(At(w, t), b, m, g, repo);
    }
    forall tag ensures Read(os, w', Tagged(repo, tag)) == Read(os, w, Tagged(repo, tag)) {
      forall root ensures Lookup(At(w', root), Tagged(repo, tag)) == Lookup(At(w, root), Tagged(repo, tag)) {
        TagLookupSame(At(w, t), b, m, g, repo, tag);
      }
      ReadDependsOnRoots(os, w, w', Tagged(repo, tag));
    }
    assert ListedTags(os, w', repo) == ListedTags(os, w, repo);
    hide ListedTags;
    SameReadsSameTags(e, os, w, w', repo);
  }

  lemma SameReadsSameTags(e: Env, os: seq<Root>, w: World, w': World, repo: string)
    requires ListedTags(os, w', repo) == ListedTags(os, w, repo)
    requires forall tag :: Read(os, w', Tagged(repo, tag)) == Read(os, w, Tagged(repo, tag))
    ensures RepoTags(e, os, w', repo) == RepoTags(e, os, w, repo)
  {
    hide Read, ListedTags, Hash;
  }

  lemma NamesSame(v: Vol, b: map<Digest, Bytes>, m: map<Pair, Bytes>, g: TagMap, repo: string)
    requires forall p :: p in g ==> p.0 != repo
    ensures Names(Grown(v, b, m, g), Tags(repo)) == Names(v, Tags(repo))
  {
    forall x ensures x in Names(Grown(v, b, m, g), Tags(repo)) <==> x in Names(v, Tags(repo)) {
      assert (repo, x) in Grown(v, b, m, g).tags <==> (repo, x) in v.tags;
      NamesMember(v, repo, x);
      NamesMember(Grown(v, b, m, g), repo, x);
    }
  }

  lemma TagLookupSame(v: Vol, b: map<Digest, Bytes>, m: map<Pair, Bytes>, g: TagMap, repo: string, tag: string)
    requires (forall p :: p in m ==> p.0 != repo) && (forall p :: p in g ==> p.0 != repo)
    ensures Lookup(Grown(v, b, m, g), Tagged(repo, tag)) == Lookup(v, Tagged(repo, tag))
  {
  }

  // ---- Gluing two copies ------------------------------------------------------------------

  lemma TaggingTogether(t1: TagMap, t2: TagMap)
    requires t1.Keys !! t2.Keys
    ensures Tagging(t1 + t2) == Tagging(t1) + Tagging(t2)
  {
    var both := t1 + t2;
    forall q ensures q in Tagging(both) <==> q in Tagging(t1) + Tagging(t2) {
      if q in Tagging(both) {
        var p :| p in both && q == (p.0, both[p]);
        if p in t2 { assert (p.0, t2[p]) in Tagging(t2); } else { assert (p.0, t1[p]) in Tagging(t1); }
      }
      if q in Tagging(t1) { var p :| p in t1 && q == (p.0, t1[p]); assert both[p] == t1[p]; }
      if q in Tagging(t2) { var p :| p in t2 && q == (p.0, t2[p]); assert both[p] == t2[p]; }
    }
  }

  /** Reading a source at two worlds that show it the same. */
  lemma ManisSame(e: Env, truth: Digest -> Bytes, os: seq<Root>, od: seq<Root>, w: World, w': World, t: Root,
                  blobs: set<Digest>, manis: set<Pair>, tags: TagMap, b: map<Digest, Bytes>, m: map<Pair, Bytes>,
                  g: TagMap, wanted: set<Pair>)
    requires Genuine(e, truth, w) && PartCopy(e, truth, os, od, w, w', t, blobs, manis, tags, b, m, g)
    ensures ManisOf(os, w', wanted) == ManisOf(os, w, wanted)
  {
    hide PartCopy, Genuine;
    forall p: Pair ensures Read(os, w', Mani(p.0, p.1)) == Read(os, w, Mani(p.0, p.1)) {
      SourceGainsNothing(e, truth, os, od, w, w', t, blobs, manis, tags, b, m, g, Mani(p.0, p.1));
    }
  }

  /** What is still missing after a partial copy was missing before it. */
  lemma MissingBefore(e: Env, truth: Digest -> Bytes, os: seq<Root>, od: seq<Root>, w: World, w': World, t: Root,
                      blobs: set<Digest>, manis: set<Pair>, tags: TagMap, b: map<Digest, Bytes>, m: map<Pair, Bytes>,
                      g: TagMap, wanted: set<Digest>)
    requires Genuine(e, truth, w) && PartCopy(e, truth, os, od, w, w', t, blobs, manis, tags, b, m, g)
    requires od != [] && t == od[0]
    ensures BlobsToCopy(os, od, w', wanted).Keys == BlobsToCopy(os, od, w, wanted).Keys - b.Keys
  {
    hide PartCopy, Genuine, Read;
    forall d | d in wanted
      ensures d in BlobsToCopy(os, od, w', wanted) <==> d in BlobsToCopy(os, od, w, wanted) && d !in b
    {
      SourceGainsNothing(e, truth, os, od, w, w', t, blobs, manis, tags, b, m, g, Blob(d));
      DestinationAfter(e, truth, os, od, w, w', t, blobs, manis, tags, b, m, g, Blob(d));
    }
  }

  lemma DestinationAfter(e: Env, truth: Digest -> Bytes, os: seq<Root>, od: seq<Root>, w: World, w': World, t: Root,
                         blobs: set<Digest>, manis: set<Pair>, tags: TagMap, b: map<Digest, Bytes>,
                         m: map<Pair, Bytes>, g: TagMap, k: Key)
    requires Genuine(e, truth, w) && PartCopy(e, truth, os, od, w, w', t, blobs, manis, tags, b, m, g)
    requires od != [] && t == od[0] && !k.Tagged?
    ensures Read(od, w', k).Some? <==>
              Read(od, w, k).Some? || (k.Blob? && k.digest in b) || (k.Mani? && (k.repo, k.digest) in m)
  {
    hide Genuine;
    LookupGrown(At(w, t), b, m, g, k);
    ReadFinds(od, w, k);
    ReadFinds(od, w', k);
    if Read(od, w, k).Some? {
      CopyLosesNothing(e, truth, os, od, w, w', t, blobs, manis, tags, b, m, g, od);
    } else if (k.Blob? && k.digest in b) || (k.Mani? && (k.repo, k.digest) in m) {
      assert Lookup(At(w', t), k).Some?;
    } else {
      ReadUndisturbed(od, w, w', t, b, m, g, k);
    }
  }

  lemma BlobsToCopyUnion(os: seq<Root>, od: seq<Root>, w: World, a: set<Digest>, b: set<Digest>)
    ensures BlobsToCopy(os, od, w, a + b).Keys == BlobsToCopy(os, od, w, a).Keys + BlobsToCopy(os, od, w, b).Keys
  {
    hide Read;
  }

  lemma ManisToCopyUnion(os: seq<Root>, od: seq<Root>, w: World, a: set<Pair>, b: set<Pair>)
    ensures ManisToCopy(os, od, w, a + b).Keys == ManisToCopy(os, od, w, a).Keys + ManisToCopy(os, od, w, b).Keys
  {
    hide Read;
  }

  lemma ManisMissingBefore(e: Env, truth: Digest -> Bytes, os: seq<Root>, od: seq<Root>, w: World, w': World, t: Root,
                           blobs: set<Digest>, manis: set<Pair>, tags: TagMap, b: map<Digest, Bytes>,
                           m: map<Pair, Bytes>, g: TagMap, wanted: set<Pair>)
    requires Genuine(e, truth, w) && PartCopy(e, truth, os, od, w, w', t, blobs, manis, tags, b, m, g)
    requires od != [] && t == od[0]
    ensures ManisToCopy(os, od, w', wanted).Keys == ManisToCopy(os, od, w, wanted).Keys - m.Keys
  {
    hide PartCopy, Genuine, Read;
    forall p | p in wanted
      ensures p in ManisToCopy(os, od, w', wanted) <==> p in ManisToCopy(os, od, w, wanted) && p !in m
    {
      SourceGainsNothing(e, truth, os, od, w, w', t, blobs, manis, tags, b, m, g, Mani(p.0, p.1));
      DestinationAfter(e, truth, os, od, w, w', t, blobs, manis, tags, b, m, g, Mani(p.0, p.1));
    }
  }

  /** The added content of two copies in a row. */
  lemma GlueWorlds(e: Env, truth: Digest -> Bytes, w0: World, w1: World, w2: World, t: Root, b1: map<Digest, Bytes>,
                   m1: map<Pair, Bytes>, g1: TagMap, b2: map<Digest, Bytes>, m2: map<Pair, Bytes>, g2: TagMap)
    requires Changed(w0, w1, t, Grown(At(w0, t), b1, m1, g1)) && Changed(w1, w2, t, Grown(At(w1, t), b2, m2, g2))
    requires TrueBlobs(e, truth, b1) && TrueBlobs(e, truth, b2) && TrueManis(e, truth, m1) && TrueManis(e, truth, m2)
    ensures Changed(w0, w2, t, Grown(At(w0, t), b1 + b2, m1 + m2, g1 + g2))
    ensures TrueBlobs(e, truth, b1 + b2) && TrueManis(e, truth, m1 + m2)
  {
    hide Grown;
    var v := Grown(At(w0, t), b1, m1, g1);
    assert At(w1, t) == v;
    GrownTwice(At(w0, t), b1, m1, g1, b2, m2, g2);
    ChangedAgain(w0, w1, w2, t, v, Grown(v, b2, m2, g2));
  }

  lemma GlueTags(t1: TagMap, t2: TagMap, g1: TagMap, g2: TagMap, m1: set<Pair>, m2: set<Pair>)
    requires t1.Keys !! t2.Keys
    requires forall p :: p in g1 ==> p in t1 && g1[p] == t1[p] && (p.0, t1[p]) in m1
    requires forall p :: p in g2 ==> p in t2 && g2[p] == t2[p] && (p.0, t2[p]) in m2
    ensures forall p :: p in g1 + g2 ==> p in t1 + t2 && (g1 + g2)[p] == (t1 + t2)[p] && (p.0, (t1 + t2)[p]) in m1 + m2
  {
  }

  /** A complete copy followed by another one (complete or not) of different tags is one copy of both. */
  lemma GluePart(e: Env, truth: Digest -> Bytes, os: seq<Root>, od: seq<Root>, w0: World, w1: World, w2: World, t: Root,
                 s1: set<Digest>, n1: set<Pair>, t1: TagMap, b1: map<Digest, Bytes>, m1: map<Pair, Bytes>, g1: TagMap,
                 s2: set<Digest>, n2: set<Pair>, t2: TagMap, b2: map<Digest, Bytes>, m2: map<Pair, Bytes>, g2: TagMap)
    requires Genuine(e, truth, w0) && od != [] && t == od[0] && t1.Keys !! t2.Keys
    requires PartCopy(e, truth, os, od, w0, w1, t, s1, n1, t1, b1, m1, g1)
    requires PartCopy(e, truth, os, od, w1, w2, t, s2, n2, t2, b2, m2, g2)
    ensures PartCopy(e, truth, os, od, w0, w2, t, s1 + s2, n1 + n2, t1 + t2, b1 + b2, m1 + m2, g1 + g2)
  {
    hide Genuine, BlobsToCopy, ManisOf, Changed, TrueBlobs, TrueManis, Grown, Tagging, At;
    MissingBefore(e, truth, os, od, w0, w1, t, s1, n1, t1, b1, m1, g1, s2);
    ManisSame(e, truth, os, od, w0, w1, t, s1, n1, t1, b1, m1, g1, n2 + Tagging(t2));
    BlobsToCopyUnion(os, od, w0, s1, s2);
    TaggingTogether(t1, t2);
    assert (n1 + Tagging(t1)) + (n2 + Tagging(t2)) == n1 + n2 + Tagging(t1 + t2);
    ManisOfMono(os, w0, n1 + Tagging(t1), n2 + Tagging(t2));
    GlueWorlds(e, truth, w0, w1, w2, t, b1, m1, g1, b2, m2, g2);
    GlueTags(t1, t2, g1, g2, m1.Keys, m2.Keys);
  }

  lemma GlueFull(e: Env, truth: Digest -> Bytes, os: seq<Root>, od: seq<Root>, w0: World, w1: World, t: Root,
                 s1: set<Digest>, n1: set<Pair>, t1: TagMap, b1: map<Digest, Bytes>, m1: map<Pair, Bytes>, g1: TagMap,
                 s2: set<Digest>, n2: set<Pair>, t2: TagMap, b2: map<Digest, Bytes>, m2: map<Pair, Bytes>, g2: TagMap)
    requires Genuine(e, truth, w0) && od != [] && t == od[0] && t1.Keys !! t2.Keys
    requires PartCopy(e, truth, os, od, w0, w1, t, s1, n1, t1, b1, m1, g1)
             && FullCopy(os, od, w0, s1, n1, t1, b1, m1, g1)
    requires FullCopy(os, od, w1, s2, n2, t2, b2, m2, g2)
    requires TrueBlobs(e, truth, b1 + b2)
    ensures FullCopy(os, od, w0, s1 + s2, n1 + n2, t1 + t2, b1 + b2, m1 + m2, g1 + g2)
  {
    hide Genuine, PartCopy, BlobsToCopy, ManisOf, ManisToCopy, Tagging, TrueBlobs;
    GlueBlobs(e, truth, os, od, w0, w1, t, s1, n1, t1, b1, m1, g1, s2, b2);
    GlueManis(e, truth, os, od, w0, w1, t, s1, n1, t1, b1, m1, g1, n2, t2, m2);
    ManisSame(e, truth, os, od, w0, w1, t, s1, n1, t1, b1, m1, g1, Tagging(t2));
    GlueAllTags(t1, t2, g1, g2, ManisOf(os, w0, Tagging(t1)).Keys, ManisOf(os, w0, Tagging(t2)).Keys);
    TaggedEither(os, w0, t1, t2);
  }

  lemma GlueBlobs(e: Env, truth: Digest -> Bytes, os: seq<Root>, od: seq<Root>, w0: World, w1: World, t: Root,
                  s1: set<Digest>, n1: set<Pair>, t1: TagMap, b1: map<Digest, Bytes>, m1: map<Pair, Bytes>, g1: TagMap,
                  s2: set<Digest>, b2: map<Digest, Bytes>)
    requires Genuine(e, truth, w0) && od != [] && t == od[0]
    requires PartCopy(e, truth, os, od, w0, w1, t, s1, n1, t1, b1, m1, g1)
    requires b1 == BlobsToCopy(os, od, w0, s1) && b2 == BlobsToCopy(os, od, w1, s2) && TrueBlobs(e, truth, b1 + b2)
    ensures b1 + b2 == BlobsToCopy(os, od, w0, s1 + s2)
  {
    hide Genuine, PartCopy, BlobsToCopy, TrueBlobs;
    MissingBefore(e, truth, os, od, w0, w1, t, s1, n1, t1, b1, m1, g1, s2);
    BlobsToCopyUnion(os, od, w0, s1, s2);
    SameTruth(e, truth, os, od, w0, s1 + s2, b1 + b2);
  }

  lemma GlueManis(e: Env, truth: Digest -> Bytes, os: seq<Root>, od: seq<Root>, w0: World, w1: World, t: Root,
                  s1: set<Digest>, n1: set<Pair>, t1: TagMap, b1: map<Digest, Bytes>, m1: map<Pair, Bytes>, g1: TagMap,
                  n2: set<Pair>, t2: TagMap, m2: map<Pair, Bytes>)
    requires Genuine(e, truth, w0) && od != [] && t == od[0] && t1.Keys !! t2.Keys
    requires PartCopy(e, truth, os, od, w0, w1, t, s1, n1, t1, b1, m1, g1)
    requires ManisToCopy(os, od, w0, n1).Keys + ManisOf(os, w0, Tagging(t1)).Keys <= m1.Keys
    requires ManisToCopy(os, od, w1, n2).Keys + ManisOf(os, w1, Tagging(t2)).Keys <= m2.Keys
    ensures ManisToCopy(os, od, w0, n1 + n2).Keys + ManisOf(os, w0, Tagging(t1 + t2)).Keys <= (m1 + m2).Keys
  {
    hide Genuine, PartCopy, ManisOf, ManisToCopy, Tagging;
    ManisMissingBefore(e, truth, os, od, w0, w1, t, s1, n1, t1, b1, m1, g1, n2);
    ManisSame(e, truth, os, od, w0, w1, t, s1, n1, t1, b1, m1, g1, Tagging(t2));
    ManisToCopyUnion(os, od, w0, n1, n2);
    TaggingTogether(t1, t2);
    ManisOfMono(os, w0, Tagging(t1), Tagging(t2));
  }

  lemma SameTruth(e: Env, truth: Digest -> Bytes, os: seq<Root>, od: seq<Root>, w: World, wanted: set<Digest>,
                  done: map<Digest, Bytes>)
    requires Genuine(e, truth, w) && TrueBlobs(e, truth, done) && done.Keys == BlobsToCopy(os, od, w, wanted).Keys
    ensures done == BlobsToCopy(os, od, w, wanted)
  {
    forall d | d in done ensures done[d] == BlobsToCopy(os, od, w, wanted)[d] { GenuineRead(e, truth, os, w, Blob(d)); }
  }

  lemma GlueAllTags(t1: TagMap, t2: TagMap, g1: TagMap, g2: TagMap, a1: set<Pair>, a2: set<Pair>)
    requires t1.Keys !! t2.Keys
    requires forall p :: p in t1 && (p.0, t1[p]) in a1 ==> p in g1
    requires forall p :: p in t2 && (p.0, t2[p]) in a2 ==> p in g2
    ensures forall p :: p in t1 + t2 && (if p in t2 then (p.0, t2[p]) in a2 else (p.0, t1[p]) in a1) ==> p in g1 + g2
  {
  }

  lemma TaggedEither(os: seq<Root>, w: World, t1: TagMap, t2: TagMap)
    requires t1.Keys !! t2.Keys
    ensures forall p :: p in t1 + t2 && (p.0, (t1 + t2)[p]) in ManisOf(os, w, Tagging(t1 + t2)) ==>
              if p in t2 then (p.0, t2[p]) in ManisOf(os, w, Tagging(t2))
                 else (p.0, t1[p]) in ManisOf(os, w, Tagging(t1))
  {
    forall p | p in t1 + t2 && (p.0, (t1 + t2)[p]) in ManisOf(os, w, Tagging(t1 + t2))
      ensures if p in t2 then (p.0, t2[p]) in ManisOf(os, w, Tagging(t2))
              else (p.0, t1[p]) in ManisOf(os, w, Tagging(t1))
    {
      if p in t2 { assert (p.0, t2[p]) in Tagging(t2); } else { assert (p.0, t1[p]) in Tagging(t1); }
    }
  }

  // ---- The loop ---------------------------------------------------------------------------

  lemma OnlyClassRepos(e: Env, truth: Digest -> Bytes, os: seq<Root>, od: seq<Root>, w: World, w': World, t: Root,
                       repos: set<string>, b: map<Digest, Bytes>, m: map<Pair, Bytes>, g: TagMap)
    requires ClassCopied(e, truth, os, od, w, w', t, repos, b, m, g, false)
    ensures (forall p :: p in m ==> p.0 in repos) && (forall p :: p in g ==> p.0 in repos)
    ensures Changed(w, w', t, Grown(At(w, t), b, m, g)) && Genuine(e, truth, w')
  {
    hide Genuine, Changed, Grown, BlobsToCopy, TrueBlobs, TrueManis, Read, Hash;
    forall p | p in m ensures p.0 in repos {
      assert p in ClassManis(os, w, repos) + Tagging(ClassTags(e, os, w, repos));
      if p in Tagging(ClassTags(e, os, w, repos)) {
        var q :| q in ClassTags(e, os, w, repos) && p == (q.0, ClassTags(e, os, w, repos)[q]);
        assert q in ClassTagNames(os, w, repos);
      }
    }
    forall p | p in g ensures p.0 in repos {
      assert p in ClassTagNames(os, w, repos);
    }
  }

  /** A repository not copied yet looks as it did at the start. */
  lemma NextRepoUnchanged(e: Env, truth: Digest -> Bytes, os: seq<Root>, od: seq<Root>, w: World, w': World, t: Root,
                          done: set<string>, b: map<Digest, Bytes>, m: map<Pair, Bytes>, g: TagMap, repo: string)
    requires Genuine(e, truth, w) && ClassCopied(e, truth, os, od, w, w', t, done, b, m, g, false) && repo !in done
    ensures RepoBlobs(e, os, w', repo) == RepoBlobs(e, os, w, repo) && RepoManis(os, w', repo) == RepoManis(os, w, repo)
    ensures RepoTags(e, os, w', repo) == RepoTags(e, os, w, repo)
    ensures Dangling(os, w', repo) <==> Dangling(os, w, repo)
  {
    hide PartCopy, Genuine, Changed, Grown, GraphOf, ListedTags, Read, BlobsOf;
    OnlyClassRepos(e, truth, os, od, w, w', t, done, b, m, g);
    GraphSame(e, truth, os, od, w, w', t, ClassBlobs(e, os, w, done), ClassManis(os, w, done),
              ClassTags(e, os, w, done), b, m, g, repo);
    TagsSame(e, os, w, w', t, b, m, g, repo);
  }

  lemma ClassStep(e: Env, truth: Digest -> Bytes, os: seq<Root>, od: seq<Root>, w0: World, w1: World, w2: World,
                  t: Root, done: set<string>, b1: map<Digest, Bytes>, m1: map<Pair, Bytes>, g1: TagMap, repo: string,
                  b2: map<Digest, Bytes>, m2: map<Pair, Bytes>, g2: TagMap, full: bool)
    requires Genuine(e, truth, w0) && od != [] && t == od[0] && repo !in done
    requires ClassCopied(e, truth, os, od, w0, w1, t, done, b1, m1, g1, true)
    requires RepoCopied(e, truth, os, od, w1, w2, t, repo, b2, m2, g2, full)
    ensures ClassCopied(e, truth, os, od, w0, w2, t, done + {repo}, b1 + b2, m1 + m2, g1 + g2, full)
    ensures b1.Keys !! b2.Keys
  {
    hide Genuine, RepoBlobs, RepoManis, RepoTags, ClassBlobs, ClassManis, ClassTags, Dangling;
    NextRepoUnchanged(e, truth, os, od, w0, w1, t, done, b1, m1, g1, repo);
    ClassOfOneMore(e, os, w0, done, repo);
    var s1, n1, t1 := ClassBlobs(e, os, w0, done), ClassManis(os, w0, done), ClassTags(e, os, w0, done);
    var s2, n2, t2 := RepoBlobs(e, os, w0, repo), RepoManis(os, w0, repo), RepoTags(e, os, w0, repo);
    PartHasTrueBlobs(e, truth, os, od, w1, w2, t, s2, n2, t2, b2, m2, g2);
    MissingBefore(e, truth, os, od, w0, w1, t, s1, n1, t1, b1, m1, g1, s2);
    hide PartCopy, FullCopy;
    GluePart(e, truth, os, od, w0, w1, w2, t, s1, n1, t1, b1, m1, g1, s2, n2, t2, b2, m2, g2);
    PartHasTrueBlobs(e, truth, os, od, w0, w2, t, s1 + s2, n1 + n2, t1 + t2, b1 + b2, m1 + m2, g1 + g2);
    if full { GlueFull(e, truth, os, od, w0, w1, t, s1, n1, t1, b1, m1, g1, s2, n2, t2, b2, m2, g2); }
  }

  lemma PartHasTrueBlobs(e: Env, truth: Digest -> Bytes, os: seq<Root>, od: seq<Root>, w: World, w': World, t: Root,
                         blobs: set<Digest>, manis: set<Pair>, tags: TagMap, b: map<Digest, Bytes>,
                         m: map<Pair, Bytes>, g: TagMap)
    requires PartCopy(e, truth, os, od, w, w', t, blobs, manis, tags, b, m, g)
    ensures TrueBlobs(e, truth, b) && Genuine(e, truth, w') && b.Keys <= BlobsToCopy(os, od, w, blobs).Keys
  {
  }

  lemma ClassStart(e: Env, truth: Digest -> Bytes, os: seq<Root>, od: seq<Root>, w: World, t: Root)
    requires Genuine(e, truth, w)
    ensures ClassCopied(e, truth, os, od, w, w, t, {}, map[], map[], map[], true)
  {
    hide Read, Genuine, Hash;
    UnchangedIsGrown(w, t);
    assert ClassBlobs(e, os, w, {}) == {} && ClassManis(os, w, {}) == {} && ClassTagNames(os, w, {}) == {};
    assert ClassTags(e, os, w, {}) == map[];
    assert Tagging(map[]) == {};
    assert BlobsToCopy(os, od, w, {}) == map[];
    assert ManisToCopy(os, od, w, {}).Keys == {} && ManisOf(os, w, {}).Keys == {};
  }

  /** A part of the class copied is also part of the bigger class copied. */
  lemma ClassMono(e: Env, truth: Digest -> Bytes, os: seq<Root>, od: seq<Root>, w: World, w': World, t: Root,
                  some: set<string>, all: set<string>, b: map<Digest, Bytes>, m: map<Pair, Bytes>, g: TagMap)
    requires some <= all && ClassCopied(e, truth, os, od, w, w', t, some, b, m, g, false)
    ensures ClassCopied(e, truth, os, od, w, w', t, all, b, m, g, false)
  {
    hide Genuine, Changed, TrueBlobs, TrueManis, ClassBlobs, ClassManis, ClassTags, Tagging, BlobsToCopy, ManisOf;
    var t1, t2 := ClassTags(e, os, w, some), ClassTags(e, os, w, all);
    ClassSetsMono(e, os, w, some, all);
    MoreToCopy(os, od, w, ClassBlobs(e, os, w, some), ClassBlobs(e, os, w, all),
               ClassManis(os, w, some) + Tagging(t1), ClassManis(os, w, all) + Tagging(t2));
  }

  lemma ClassSetsMono(e: Env, os: seq<Root>, w: World, some: set<string>, all: set<string>)
    requires some <= all
    ensures ClassBlobs(e, os, w, some) <= ClassBlobs(e, os, w, all)
    ensures ClassManis(os, w, some) <= ClassManis(os, w, all)
    ensures var t1, t2 := ClassTags(e, os, w, some), ClassTags(e, os, w, all);
            (forall p :: p in t1 ==> p in t2 && t2[p] == t1[p]) && Tagging(t1) <= Tagging(t2)
  {
    hide Read, Hash, RepoBlobs, GraphOf, ListedTags;
    var t1, t2 := ClassTags(e, os, w, some), ClassTags(e, os, w, all);
    forall p | p in t1 ensures p in t2 && t2[p] == t1[p] {
      assert p in ClassTagNames(os, w, some);
      assert p in ClassTagNames(os, w, all);
    }
    hide ClassTags;
    forall q | q in Tagging(t1) ensures q in Tagging(t2) {
      var p :| p in t1 && q == (p.0, t1[p]);
      assert p in t2;
    }
  }

  lemma MoreToCopy(os: seq<Root>, od: seq<Root>, w: World, s: set<Digest>, s': set<Digest>, n: set<Pair>, n': set<Pair>)
    requires s <= s' && n <= n'
    ensures BlobsToCopy(os, od, w, s).Keys <= BlobsToCopy(os, od, w, s').Keys
    ensures ManisOf(os, w, n).Keys <= ManisOf(os, w, n').Keys
  {
    hide Read;
  }

  /** What a repository not copied yet still lacks at the destination is what it lacked at the start ... */
  lemma MissingUnchanged(e: Env, truth: Digest -> Bytes, os: seq<Root>, od: seq<Root>, w: World, w': World, t: Root,
                         done: set<string>, b: map<Digest, Bytes>, m: map<Pair, Bytes>, g: TagMap, repo: string)
    requires ClassCopied(e, truth, os, od, w, w', t, done, b, m, g, false) && repo !in done
    ensures ManisToCopy(os, od, w', RepoManis(os, w, repo)) == ManisToCopy(os, od, w, RepoManis(os, w, repo))
  {
    hide PartCopy, ClassCopied, Genuine, Changed, Grown, GraphOf, Read;
    OnlyClassRepos(e, truth, os, od, w, w', t, done, b, m, g);
    forall p: Pair | p in RepoManis(os, w, repo)
      ensures Read(os, w', Mani(p.0, p.1)) == Read(os, w, Mani(p.0, p.1))
              && Read(od, w', Mani(p.0, p.1)) == Read(od, w, Mani(p.0, p.1))
    {
      ReadUndisturbed(os, w, w', t, b, m, g, Mani(p.0, p.1));
      ReadUndisturbed(od, w, w', t, b, m, g, Mani(p.0, p.1));
    }
  }

  // ... so the counts of the repositories add up to the count of the class.
  lemma MissingAddsUp(e: Env, os: seq<Root>, od: seq<Root>, w: World, done: set<string>, repo: string)
    requires repo !in done
    ensures |ManisToCopy(os, od, w, ClassManis(os, w, done + {repo}))| ==
            |ManisToCopy(os, od, w, ClassManis(os, w, done))| + |ManisToCopy(os, od, w, RepoManis(os, w, repo))|
  {
    ClassOfOneMore(e, os, w, done, repo);
    ManisToCopyUnion(os, od, w, ClassManis(os, w, done), RepoManis(os, w, repo));
    hide Read, GraphOf;
    var all, a, b := ManisToCopy(os, od, w, ClassManis(os, w, done + {repo})),
        ManisToCopy(os, od, w, ClassManis(os, w, done)),
                     ManisToCopy(os, od, w, RepoManis(os, w, repo));
    assert a.Keys !! b.Keys;
    hide ManisToCopy;
    assert all.Keys == a.Keys + b.Keys;
    KeysSize(all);
    KeysSize(a);
    KeysSize(b);
  }

  lemma KeysSize<K, V>(m: map<K, V>)
    ensures |m.Keys| == |m|
  {
  }

  /** Some repositories copied in full, one more in part and in the order of its loops: what a stop leaves. */
  ghost predicate StoppedAt(e: Env, truth: Digest -> Bytes, os: seq<Root>, od: seq<Root>, w: World, mid: World,
                            w': World, t: Root, done: set<string>, repo: string,
                            b1: map<Digest, Bytes>, m1: map<Pair, Bytes>, g1: TagMap,
                            b2: map<Digest, Bytes>, m2: map<Pair, Bytes>, g2: TagMap)
  {
    && repo !in done && ClassCopied(e, truth, os, od, w, mid, t, done, b1, m1, g1, true)
    && RepoCopied(e, truth, os, od, mid, w', t, repo, b2, m2, g2, false)
    && RepoInOrder(e, os, od, mid, repo, b2, m2, g2)
  }

  ghost predicate StoppedIn(e: Env, truth: Digest -> Bytes, os: seq<Root>, od: seq<Root>, w: World, w': World, t: Root,
                            done: set<string>, repo: string)
  {
    exists mid, b1, m1, g1, b2, m2, g2 ::
      StoppedAt(e, truth, os, od, w, mid, w', t, done, repo, b1, m1, g1, b2, m2, g2)
  }

  ghost predicate StoppedWithin(e: Env, truth: Digest -> Bytes, os: seq<Root>, od: seq<Root>, w: World, w': World,
                                t: Root, repos: set<string>)
  {
    exists done, repo :: repo in repos && done <= repos && StoppedIn(e, truth, os, od, w, w', t, done, repo)
  }

  /** A stop is a partial copy of the class. */
  lemma StopIsPartial(e: Env, truth: Digest -> Bytes, os: seq<Root>, od: seq<Root>, w: World, w': World, t: Root,
                      done: set<string>, repo: string, repos: set<string>)
    returns (b: map<Digest, Bytes>, m: map<Pair, Bytes>, g: TagMap)
    requires Genuine(e, truth, w) && od != [] && t == od[0] && repo in repos && done <= repos
    requires StoppedIn(e, truth, os, od, w, w', t, done, repo)
    ensures ClassCopied(e, truth, os, od, w, w', t, repos, b, m, g, false)
  {
    hide Genuine, ClassCopied, RepoCopied, RepoInOrder;
    var mid, b1, m1, g1, b2, m2, g2 :|
      StoppedAt(e, truth, os, od, w, mid, w', t, done, repo, b1, m1, g1, b2, m2, g2);
    ClassStep(e, truth, os, od, w, mid, w', t, done, b1, m1, g1, repo, b2, m2, g2, false);
    b, m, g := b1 + b2, m1 + m2, g1 + g2;
    ClassMono(e, truth, os, od, w, w', t, done + {repo}, repos, b, m, g);
  }

  /** The report counts these blobs on top of those of `start`. */
  ghost predicate Tally(start: Report, report: Report, b: map<Digest, Bytes>) {
    report == start.(blobsCopied := start.blobsCopied + |b|, bytesCopied := start.bytesCopied + Total(b),
                     manifestsCopied := report.manifestsCopied)
  }

  lemma TallyMore(start: Report, report: Report, report': Report, b1: map<Digest, Bytes>, b2: map<Digest, Bytes>)
    requires Tally(start, report, b1) && b1.Keys !! b2.Keys
    requires report'.blobsCopied == report.blobsCopied + |b2| && report'.bytesCopied == report.bytesCopied + Total(b2)
    requires report' == report.(blobsCopied := report'.blobsCopied, bytesCopied := report'.bytesCopied,
                                manifestsCopied := report'.manifestsCopied)
    ensures Tally(start, report', b1 + b2)
  {
    hide Total;
    TotalUnion(b1, b2);
    SizeUnion(b1, b2);
  }

  /** Part way through the loop: the repositories of `done` are copied in full, and counted; the count of
      manifests is the exact one unless a device failed. */
  ghost predicate FilledSoFar(e: Env, truth: Digest -> Bytes, os: seq<Root>, od: seq<Root>, w: World, now: World,
                              t: Root, done: set<string>, start: Report, report: Report,
                              b: map<Digest, Bytes>, m: map<Pair, Bytes>, g: TagMap, exact: bool)
  {
    && ClassCopied(e, truth, os, od, w, now, t, done, b, m, g, true)
    && (forall repo :: repo in done ==> !Dangling(os, w, repo)) && Tally(start, report, b)
    && (exact ==> report.manifestsCopied ==
                    start.manifestsCopied + |ManisToCopy(os, od, w, ClassManis(os, w, done))|)
  }

  /** One more repository. */
  method BackfillOne(disks: Disks, src: Backend, dst: Backend, repo: string, report: Report,
                     ghost truth: Digest -> Bytes, ghost w: World, ghost done: set<string>, ghost start: Report,
                     ghost b1: map<Digest, Bytes>, ghost m1: map<Pair, Bytes>, ghost g1: TagMap, ghost exact: bool)
    returns (r: Result<()>, report': Report, ghost b: map<Digest, Bytes>, ghost m: map<Pair, Bytes>, ghost g: TagMap)
    requires Valid(src) && Valid(dst) && Genuine(disks.env, truth, w) && repo !in done
    requires FilledSoFar(disks.env, truth, ReadOrder(src), ReadOrder(dst), w, disks.vols, Target(dst), done, start,
                         report, b1, m1, g1, exact)
    modifies disks
    ensures r.Ok? || r.NotFound? || r.Fault?
    ensures disks.faults >= old(disks.faults) && (r.Fault? ==> disks.faults > old(disks.faults))
    ensures r.Ok? ==> FilledSoFar(disks.env, truth, ReadOrder(src), ReadOrder(dst), w, disks.vols, Target(dst),
                                  done + {repo}, start, report', b, m, g, exact && disks.faults == old(disks.faults))
    ensures !r.Ok? ==>
              && ClassCopied(disks.env, truth, ReadOrder(src), ReadOrder(dst), w, disks.vols, Target(dst),
                             done + {repo}, b, m, g, false)
              && StoppedIn(disks.env, truth, ReadOrder(src), ReadOrder(dst), w, disks.vols, Target(dst), done, repo)
              && Tally(start, report', b)
    ensures r.NotFound? ==> Dangling(ReadOrder(src), w, repo)
  {
    hide Genuine, ClassCopied, RepoCopied, RepoInOrder, Total, ReadOrder, Dangling, ManisToCopy, ClassManis, RepoManis,
         Tally;
    ghost var e, os, od, mid, t := disks.env, ReadOrder(src), ReadOrder(dst), disks.vols, Target(dst);
    ClassGenuine(e, truth, os, od, w, mid, t, done, b1, m1, g1);
    NextRepoUnchanged(e, truth, os, od, w, mid, t, done, b1, m1, g1, repo);
    MissingUnchanged(e, truth, os, od, w, mid, t, done, b1, m1, g1, repo);
    ghost var b2, m2, g2;
    r, report', b2, m2, g2 := CopyRepo(disks, src, dst, repo, report, truth);
    ClassStep(e, truth, os, od, w, mid, disks.vols, t, done, b1, m1, g1, repo, b2, m2, g2, r.Ok?);
    if !r.Ok? { assert StoppedAt(e, truth, os, od, w, mid, disks.vols, t, done, repo, b1, m1, g1, b2, m2, g2); }
    TallyMore(start, report, report', b1, b2);
    MissingAddsUp(e, os, od, w, done, repo);
    b, m, g := b1 + b2, m1 + m2, g1 + g2;
  }

  lemma FilledNothing(e: Env, truth: Digest -> Bytes, os: seq<Root>, od: seq<Root>, w: World, t: Root, start: Report)
    requires Genuine(e, truth, w)
    ensures FilledSoFar(e, truth, os, od, w, w, t, {}, start, start, map[], map[], map[], true)
  {
    hide Genuine, ClassCopied, Total, ManisToCopy, ClassManis;
    ClassStart(e, truth, os, od, w, t);
    NothingMissing(os, od, w);
    TallyNone(start);
  }

  /** The backfill loop of `run`: one `copy_repo` after another, stopping at the first error. */
  method Backfill(disks: Disks, src: Backend, dst: Backend, repos: set<string>, report: Report,
                  ghost truth: Digest -> Bytes)
    returns (r: Result<()>, report': Report, ghost b: map<Digest, Bytes>, ghost m: map<Pair, Bytes>, ghost g: TagMap)
    requires Valid(src) && Valid(dst) && Genuine(disks.env, truth, disks.vols)
    modifies disks
    ensures r.Ok? || r.NotFound? || r.Fault?
    ensures disks.faults >= old(disks.faults) && (r.Fault? ==> disks.faults > old(disks.faults))
    ensures ClassCopied(disks.env, truth, ReadOrder(src), ReadOrder(dst), old(disks.vols), disks.vols, Target(dst),
                        repos, b, m, g, r.Ok?)
    ensures !r.Ok? ==> StoppedWithin(disks.env, truth, ReadOrder(src), ReadOrder(dst), old(disks.vols), disks.vols,
                                     Target(dst), repos)
    ensures r.Ok? ==> forall repo :: repo in repos ==> !Dangling(ReadOrder(src), old(disks.vols), repo)
    ensures r.NotFound? ==> exists repo :: repo in repos && Dangling(ReadOrder(src), old(disks.vols), repo)
    ensures report' == report.(blobsCopied := report'.blobsCopied, bytesCopied := report'.bytesCopied,
                               manifestsCopied := report'.manifestsCopied)
    ensures report'.blobsCopied == report.blobsCopied + |b| && report'.bytesCopied == report.bytesCopied + Total(b)
    ensures r.Ok? && disks.faults == old(disks.faults) ==>
              report'.manifestsCopied == report.manifestsCopied
                + |ManisToCopy(ReadOrder(src), ReadOrder(dst), old(disks.vols),
                               ClassManis(ReadOrder(src), old(disks.vols), repos))|
  {
    hide Genuine, ClassCopied, StoppedIn, Total, ReadOrder, Dangling, ManisToCopy, ClassManis, Tally, FilledSoFar;
    ghost var e, os, od, w, t := disks.env, ReadOrder(src), ReadOrder(dst), disks.vols, Target(dst);
    var todo := repos;
    r, report', b, m, g := Ok(()), report, map[], map[], map[];
    FilledNothing(e, truth, os, od, w, t, report);
    assert repos - todo == {};
    while todo != {}
      invariant todo <= repos && disks.faults >= old(disks.faults) && r.Ok?
      invariant FilledSoFar(e, truth, os, od, w, disks.vols, t, repos - todo, report, report', b, m, g,
                            disks.faults == old(disks.faults))
    {
      var repo :| repo in todo;
      ghost var done := repos - todo;
      assert repos - (todo - {repo}) == done + {repo};
      r, report', b, m, g := BackfillOne(disks, src, dst, repo, report', truth, w, done, report, b, m, g,
                                         disks.faults == old(disks.faults));
      if !r.Ok? {
        ClassMono(e, truth, os, od, w, disks.vols, t, done + {repo}, repos, b, m, g);
        TallyFigures(report, report', b);
        return;
      }
      todo := todo - {repo};
    }
    assert repos - todo == repos;
    FilledEnd(e, truth, os, od, w, disks.vols, t, repos, report, report', b, m, g, disks.faults == old(disks.faults));
  }

  lemma FilledEnd(e: Env, truth: Digest -> Bytes, os: seq<Root>, od: seq<Root>, w: World, now: World, t: Root,
                  repos: set<string>, start: Report, report: Report, b: map<Digest, Bytes>, m: map<Pair, Bytes>,
                  g: TagMap, exact: bool)
    requires FilledSoFar(e, truth, os, od, w, now, t, repos, start, report, b, m, g, exact)
    ensures ClassCopied(e, truth, os, od, w, now, t, repos, b, m, g, true)
    ensures forall repo :: repo in repos ==> !Dangling(os, w, repo)
    ensures report == start.(blobsCopied := report.blobsCopied, bytesCopied := report.bytesCopied,
                             manifestsCopied := report.manifestsCopied)
    ensures report.blobsCopied == start.blobsCopied + |b| && report.bytesCopied == start.bytesCopied + Total(b)
    ensures exact ==> report.manifestsCopied ==
                        start.manifestsCopied + |ManisToCopy(os, od, w, ClassManis(os, w, repos))|
  {
    hide ClassCopied, Total, ManisToCopy, ClassManis, Dangling;
    TallyFigures(start, report, b);
  }

  lemma TallyNone(start: Report)
    ensures Tally(start, start, map[])
  {
    TotalEmpty(map[]);
  }

  lemma TallyFigures(start: Report, report: Report, b: map<Digest, Bytes>)
    requires Tally(start, report, b)
    ensures report == start.(blobsCopied := report.blobsCopied, bytesCopied := report.bytesCopied,
                             manifestsCopied := report.manifestsCopied)
    ensures report.blobsCopied == start.blobsCopied + |b| && report.bytesCopied == start.bytesCopied + Total(b)
  {
    hide Total;
  }

  lemma NothingMissing(os: seq<Root>, od: seq<Root>, w: World)
    ensures |ManisToCopy(os, od, w, ClassManis(os, w, {}))| == 0
  {
    hide Read, GraphOf;
    assert ClassManis(os, w, {}) == {};
    assert ManisToCopy(os, od, w, {}) == map[];
  }

  lemma SizeUnion<K, V>(a: map<K, V>, b: map<K, V>)
    requires a.Keys !! b.Keys
    ensures |a + b| == |a| + |b|
  {
    assert |(a + b).Keys| == |a + b| && |a.Keys| == |a| && |b.Keys| == |b|;
    assert (a + b).Keys == a.Keys + b.Keys;
  }

  lemma ClassGenuine(e: Env, truth: Digest -> Bytes, os: seq<Root>, od: seq<Root>, w: World, w': World, t: Root,
                     repos: set<string>, b: map<Digest, Bytes>, m: map<Pair, Bytes>, g: TagMap)
    requires ClassCopied(e, truth, os, od, w, w', t, repos, b, m, g, true)
    ensures Genuine(e, truth, w') && ClassCopied(e, truth, os, od, w, w', t, repos, b, m, g, false)
  {
  }
}
