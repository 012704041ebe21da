/** Why the hypotheses of the migration theorems are there: what happens to a repository, a tag or a blob
    that falls outside each of them. */
module Limits {
  import opened Content
  import opened Volumes
  import opened Backends
  import opened Routing
  import opened Walks
  import opened Copying
  import opened Migrating
  import opened Draining
  import opened Protocol
  import opened ZeroMiss
  import opened MigrationTheorems
  import Glob

  /** After the collapse only the new volume serves what the migrated rule leads to. */
  lemma AfterCollapse(c: Plan, s: State, repo: string, k: Key)
    requires PlanOk(c) && s.phase.Filling? && (InClass(c, repo) || Stray(c, repo))
    ensures Serve(c, Next(c, s, Collapse), repo, k) == Read(NewRoots(c), s.w, k)
  {
    hide InClass, Stray;
    RouteDuring(c, Next(c, s, Collapse).phase, repo);
  }

  ghost predicate PossibleRun(c: Plan, s: State, run: seq<Action>)
    requires PlanOk(c)
    decreases |run|
  {
    run != [] ==> Enabled(c, s, run[0]) && PossibleRun(c, Next(c, s, run[0]), run[1..])
  }

  // ---- The snapshot window ----------------------------------------------------------------

  /** Nobody pushes this very manifest again. */
  predicate Avoids(e: Env, a: Action, repo: string, d: Digest) {
    a.PushManifest? ==> !(a.repo == repo && Hash(e, Sha256, a.content) == d)
  }

  predicate OfAnother(pending: Pending, repo: string) {
    match pending
    case Idle => true
    case Absent(k) => !k.Blob? ==> k.repo != repo
    case Loaded(k, _) => !k.Blob? ==> k.repo != repo
    case TagLoaded(r, _, _) => r != repo
    case TagHalf(r, _, _) => r != repo
  }

  /** A repository the listing missed: its manifest is not on the new volume, and nothing the migration has
      in hand is of it. */
  ghost predicate Missed(c: Plan, s: State, repo: string, d: Digest)
    requires PlanOk(c)
  {
    && Read(NewRoots(c), s.w, Mani(repo, d)).None?
    && match s.phase
       case Ready => false
       case Snapped(repos) => repo !in repos
       case Filling(repos, _, got) =>
         && repo !in repos && (forall p :: p in got.manis ==> p.0 != repo)
         && (forall p :: p in got.names ==> p.0 != repo)
         && (forall p :: p in got.tags ==> p.0 != repo) && OfAnother(got.pending, repo)
       case Stopped(_, _) => true
       case Collapsed(_, _) => true
  }

  lemma StillNone(o: seq<Root>, w: World, w': World, k: Key)
    requires Read(o, w, k).None? && forall root :: Lookup(At(w, root), k).None? ==> Lookup(At(w', root), k).None?
    ensures Read(o, w', k).None?
  {
    hide Lookup;
    ReadFinds(o, w, k);
    ReadFinds(o, w', k);
  }

  lemma PushesMiss(c: Plan, s: State, a: Action, repo: string, d: Digest)
    requires PlanOk(c) && (a.PushBlob? || a.PushManifest? || a.Purge? || a.Sweep?) && Avoids(c.e, a, repo, d)
    ensures forall root :: Lookup(At(s.w, root), Mani(repo, d)).None? ==>
            Lookup(At(Next(c, s, a).w, root), Mani(repo, d)).None?
  {
    hide Hash, WriteBlob, Put, Remove, Route, ReadOrder, Lookup;
    forall root | Lookup(At(s.w, root), Mani(repo, d)).None?
      ensures Lookup(At(Next(c, s, a).w, root), Mani(repo, d)).None?
    {
      var v := At(s.w, root);
      match a {
        case PushBlob(_, x, content) => BlobMiss(c.e, v, x, content, repo, d);
        case PushManifest(r, ref, content) => PutMiss(c.e, v, r, ref, content, repo, d);
        case Purge(_, k, _) => RemoveMiss(v, k, repo, d);
        case Sweep(x, _) => RemoveMiss(v, Blob(x), repo, d);
        case _ =>
      }
    }
  }

  lemma BlobMiss(e: Env, v: Vol, x: Digest, content: Bytes, repo: string, d: Digest)
    ensures Lookup(WriteBlob(e, v, x, content).0, Mani(repo, d)) == Lookup(v, Mani(repo, d))
  {
    hide Hash;
  }

  lemma PutMiss(e: Env, v: Vol, r: string, ref: Reference, content: Bytes, repo: string, d: Digest)
    requires !(r == repo && Hash(e, Sha256, content) == d)
    ensures Lookup(Put(e, v, r, ref, content), Mani(repo, d)) == Lookup(v, Mani(repo, d))
    ensures Lookup(PutBytes(e, v, r, content), Mani(repo, d)) == Lookup(v, Mani(repo, d))
  {
    hide Hash;
  }

  lemma RemoveMiss(v: Vol, k: Key, repo: string, d: Digest)
    ensures Lookup(v, Mani(repo, d)).None? ==> Lookup(Remove(v, k), Mani(repo, d)).None?
  {
  }

  lemma StoreMiss(c: Plan, w: World, k: Key, bytes: Bytes, repo: string, d: Digest)
    requires PlanOk(c) && (!k.Blob? ==> k.repo != repo)
    ensures forall root ::
            Lookup(At(StoreAt(c, w, k, bytes), root), Mani(repo, d)) == Lookup(At(w, root), Mani(repo, d))
  {
    hide WriteBlob, PutBytes, Lookup, Hash;
    match k
    case Blob(x) => BlobMiss(c.e, At(w, Target(c.dest)), x, bytes, repo, d);
    case Mani(r, _) => PutMiss(c.e, At(w, Target(c.dest)), r, ByDigest(d), bytes, repo, d);
    case Tagged(_, _) =>
  }

  lemma PointMiss(c: Plan, w: World, r: string, tag: string, x: Digest, repo: string, d: Digest)
    requires PlanOk(c)
    ensures forall root ::
              Lookup(At(PointAt(c, w, r, tag, x), root), Mani(repo, d)) == Lookup(At(w, root), Mani(repo, d))
  {
  }

  lemma CopiesMiss(c: Plan, w: World, got: Progress, a: Action, repo: string, d: Digest)
    requires PlanOk(c) && OfAnother(got.pending, repo)
    requires (forall p :: p in got.manis ==> p.0 != repo) && (forall p :: p in got.tags ==> p.0 != repo)
    requires (a.Look? ==> ToCopy(got, a.key)) && (a.LoadTag? ==> (a.repo, a.tag) in got.tags)
    ensures var (w', got') := Copied(c, w, got, a);
            && (forall root :: Lookup(At(w, root), Mani(repo, d)).None? ==> Lookup(At(w', root), Mani(repo, d)).None?)
            && OfAnother(got'.pending, repo) && got'.manis == got.manis && got'.names == got.names
            && got'.tags == got.tags
  {
    hide OfAnother, ToCopy, Copied, Lookup;
    HandStaysMissing(c, w, got, a, repo);
    WorldStaysMissing(c, w, got, a, repo, d);
  }

  lemma HandStaysMissing(c: Plan, w: World, got: Progress, a: Action, repo: string)
    requires PlanOk(c) && OfAnother(got.pending, repo)
    requires (forall p :: p in got.manis ==> p.0 != repo) && (forall p :: p in got.tags ==> p.0 != repo)
    requires (a.Look? ==> ToCopy(got, a.key)) && (a.LoadTag? ==> (a.repo, a.tag) in got.tags)
    ensures var got' := Copied(c, w, got, a).1;
            && OfAnother(got'.pending, repo) && got'.manis == got.manis && got'.names == got.names
            && got'.tags == got.tags
  {
    hide Hash, Read, StoreAt, PointAt;
    assert a.LoadTag? ==> (a.repo, a.tag).0 != repo;
    if a.Look? && a.key.Mani? { assert (a.key.repo, a.key.digest).0 != repo; }
  }

  lemma WorldStaysMissing(c: Plan, w: World, got: Progress, a: Action, repo: string, d: Digest)
    requires PlanOk(c) && OfAnother(got.pending, repo)
    ensures var w' := Copied(c, w, got, a).0;
            forall root :: Lookup(At(w, root), Mani(repo, d)).None? ==> Lookup(At(w', root), Mani(repo, d)).None?
  {
    hide Hash, Read, StoreAt, PointAt, Lookup;
    if a.Store? && got.pending.Loaded? { StoreMiss(c, w, got.pending.key, got.pending.bytes, repo, d); }
    if a.StoreTagBytes? && got.pending.TagLoaded? {
      StoreMiss(c, w, Mani(got.pending.repo, Hash(c.e, Sha256, got.pending.bytes)), got.pending.bytes, repo, d);
    }
    if a.StoreTagPointer? && got.pending.TagHalf? {
      PointMiss(c, w, got.pending.repo, got.pending.tag, got.pending.digest, repo, d);
    }
  }

  lemma CollectsMiss(c: Plan, w: World, repos: set<string>, got: Progress, a: Action, repo: string)
    requires PlanOk(c) && CanAdvance(c, w, repos, got, a) && Collects(a) && repo !in repos
    requires (forall p :: p in got.manis ==> p.0 != repo) && (forall p :: p in got.names ==> p.0 != repo)
    requires forall p :: p in got.tags ==> p.0 != repo
    ensures var got' := Collected(c, w, got, a);
            && (forall p :: p in got'.manis ==> p.0 != repo) && (forall p :: p in got'.names ==> p.0 != repo)
            && (forall p :: p in got'.tags ==> p.0 != repo) && got'.pending == got.pending
  {
    hide Read, ListedTags, DigestsIn, Hash, BlobsNamed;
  }

  lemma MissedStep(c: Plan, s: State, a: Action, repo: string, d: Digest)
    requires PlanOk(c) && Missed(c, s, repo, d) && Enabled(c, s, a) && Avoids(c.e, a, repo, d)
    ensures Missed(c, Next(c, s, a), repo, d)
  {
    hide Read, Lookup, Collected, Copied, OfAnother, Done, Avoids;
    var s' := Next(c, s, a);
    if a.PushBlob? || a.PushManifest? || a.Purge? || a.Sweep? {
      PushesMiss(c, s, a, repo, d);
      StillNone(NewRoots(c), s.w, s'.w, Mani(repo, d));
    } else if Collects(a) {
      CollectsMiss(c, s.w, s.phase.repos, s.phase.got, a, repo);
    } else if Copies(a) {
      CopiesMiss(c, s.w, s.phase.got, a, repo, d);
      StillNone(NewRoots(c), s.w, s'.w, Mani(repo, d));
    } else {
      assert OfAnother(Idle, repo) by { IdleIsAnother(repo); }
    }
  }

  lemma IdleIsAnother(repo: string)
    ensures OfAnother(Idle, repo)
  {
  }

  lemma {:induction false} MissedRun(c: Plan, s: State, run: seq<Action>, repo: string, d: Digest)
    requires PlanOk(c) && Missed(c, s, repo, d) && PossibleRun(c, s, run)
    requires forall i :: 0 <= i < |run| ==> Avoids(c.e, run[i], repo, d)
    ensures Missed(c, Exec(c, s, run), repo, d)
    decreases |run|
  {
    hide Missed, Enabled, Next, Avoids;
    if run != [] {
      MissedStep(c, s, run[0], repo, d);
      MissedRun(c, Next(c, s, run[0]), run[1..], repo, d);
    }
  }

  /** The snapshot window: a manifest of a class repository that was first created after the listing is
      served as long as the old volume is, and gone after the collapse, in every run in which nobody pushes
      that manifest again, whatever else the listing selected. */
  lemma WindowLosesRepository(c: Plan, s: State, run: seq<Action>, repo: string, d: Digest)
    requires PlanOk(c) && InClass(c, repo) && s.phase.Snapped? && repo !in s.phase.repos
    requires Read(NewRoots(c), s.w, Mani(repo, d)).None? && PossibleRun(c, s, run)
    requires forall i :: 0 <= i < |run| ==> Avoids(c.e, run[i], repo, d)
    ensures Serve(c, s, repo, Mani(repo, d)) == Read(OldRoots(c), s.w, Mani(repo, d))
    ensures Exec(c, s, run).phase.Filling? ==>
              Serve(c, Exec(c, s, run), repo, Mani(repo, d)) == Read(OldRoots(c), Exec(c, s, run).w, Mani(repo, d))
    ensures Exec(c, s, run).phase.Collapsed? ==> Serve(c, Exec(c, s, run), repo, Mani(repo, d)).None?
  {
    hide InClass, Stray, Read, Avoids, PossibleRun, Exec;
    RouteDuring(c, s.phase, repo);
    MissedRun(c, s, run, repo, d);
    var end := Exec(c, s, run);
    RouteDuring(c, end.phase, repo);
    if end.phase.Filling? { OverlayServesMerge(c, end, repo, Mani(repo, d)); }
  }

  // ---- Blobs no manifest names ------------------------------------------------------------

  /** Nobody pushes the blob again or a manifest naming it. */
  predicate Quiet(e: Env, a: Action, d: Digest) {
    (a.PushBlob? ==> a.digest != d) && (a.PushManifest? ==> d !in BlobsNamed(e, a.content))
  }

  predicate HandsOff(e: Env, pending: Pending, d: Digest) {
    match pending
    case Idle => true
    case Absent(k) => k != Blob(d)
    case Loaded(k, bytes) => k != Blob(d) && (k.Mani? ==> d !in BlobsNamed(e, bytes))
    case TagLoaded(_, _, bytes) => d !in BlobsNamed(e, bytes)
    case TagHalf(_, _, _) => true
  }

  ghost predicate NoneNames(e: Env, v: Vol, d: Digest) {
    forall p :: p in v.manifests ==> d !in BlobsNamed(e, v.manifests[p])
  }

  /** A blob that is not on the new volume and that no manifest on the old one names. */
  ghost predicate Unnamed(c: Plan, s: State, d: Digest)
    requires PlanOk(c)
  {
    && Read(NewRoots(c), s.w, Blob(d)).None?
    && (forall root :: root in OldRoots(c) ==> NoneNames(c.e, At(s.w, root), d))
    && (s.phase.Filling? ==> d !in s.phase.got.blobs && HandsOff(c.e, s.phase.got.pending, d))
  }

  /** One root changes to a volume that still has neither the blob nor its name. */
  ghost predicate StaysQuiet(e: Env, v: Vol, v': Vol, d: Digest) {
    (Lookup(v, Blob(d)).None? ==> Lookup(v', Blob(d)).None?) && (NoneNames(e, v, d) ==> NoneNames(e, v', d))
  }

  lemma QuietWorld(c: Plan, s: State, s': State, d: Digest)
    requires PlanOk(c) && Unnamed(c, s, d) && forall root :: StaysQuiet(c.e, At(s.w, root), At(s'.w, root), d)
    requires s'.phase.Filling? ==> d !in s'.phase.got.blobs && HandsOff(c.e, s'.phase.got.pending, d)
    ensures Unnamed(c, s', d)
  {
    hide NoneNames, Lookup, HandsOff;
    StillNone(NewRoots(c), s.w, s'.w, Blob(d));
  }

  lemma PutIsQuiet(e: Env, v: Vol, repo: string, ref: Reference, content: Bytes, d: Digest)
    requires d !in BlobsNamed(e, content)
    ensures StaysQuiet(e, v, Put(e, v, repo, ref, content), d) && StaysQuiet(e, v, PutBytes(e, v, repo, content), d)
  {
    hide BlobsNamed, Hash;
  }

  lemma RemoveIsQuiet(e: Env, v: Vol, k: Key, d: Digest)
    ensures StaysQuiet(e, v, Remove(v, k), d) && StaysQuiet(e, v, v, d)
  {
    hide BlobsNamed;
  }

  lemma BlobIsQuiet(e: Env, v: Vol, x: Digest, content: Bytes, d: Digest)
    requires x != d
    ensures StaysQuiet(e, v, WriteBlob(e, v, x, content).0, d)
  {
    hide BlobsNamed, Hash;
  }

  lemma PointIsQuiet(e: Env, v: Vol, tags: TagMap, d: Digest)
    ensures StaysQuiet(e, v, v.(tags := tags), d)
  {
    hide BlobsNamed;
  }

  /** Manifest bytes read from the old volume do not name it. */
  lemma OldBytesQuiet(c: Plan, s: State, k: Key, d: Digest)
    requires PlanOk(c) && Unnamed(c, s, d) && k.Mani? && Read(OldRoots(c), s.w, k).Some?
    ensures d !in BlobsNamed(c.e, Read(OldRoots(c), s.w, k).value)
  {
    hide BlobsNamed, Read;
    ReadFinds(OldRoots(c), s.w, k);
    var root :| root in OldRoots(c) && Lookup(At(s.w, root), k) == Read(OldRoots(c), s.w, k);
    assert NoneNames(c.e, At(s.w, root), d);
  }

  lemma UnnamedCollect(c: Plan, s: State, a: Action, d: Digest)
    requires PlanOk(c) && Unnamed(c, s, d) && s.phase.Filling? && Collects(a)
    ensures Unnamed(c, Next(c, s, a), d)
  {
    hide Read, NoneNames, HandsOff, BlobsNamed, ListedTags, DigestsIn, Hash;
    if a.Visit? && Read(OldRoots(c), s.w, Mani(a.repo, a.digest)).Some? {
      OldBytesQuiet(c, s, Mani(a.repo, a.digest), d);
    }
  }

  lemma UnnamedCopy(c: Plan, s: State, a: Action, d: Digest)
    requires PlanOk(c) && Unnamed(c, s, d) && s.phase.Filling? && Copies(a)
    requires CanAdvance(c, s.w, s.phase.repos, s.phase.got, a)
    ensures Unnamed(c, Next(c, s, a), d)
  {
    hide Read, NoneNames, BlobsNamed, Hash, StoreAt, PointAt, StaysQuiet;
    var got, s' := s.phase.got, Next(c, s, a);
    forall root ensures StaysQuiet(c.e, At(s.w, root), At(s.w, root), d) {
      RemoveIsQuiet(c.e, At(s.w, root), Blob(d), d);
    }
    match a
    case Look(k, _) => QuietWorld(c, s, s', d);
    case Load =>
      if got.pending.key.Mani? && Read(OldRoots(c), s.w, got.pending.key).Some? {
        OldBytesQuiet(c, s, got.pending.key, d);
      }
      QuietWorld(c, s, s', d);
    case LoadTag(r, t) =>
      var k := Mani(r, got.tags[(r, t)]);
      if Read(OldRoots(c), s.w, k).Some? { OldBytesQuiet(c, s, k, d); }
      QuietWorld(c, s, s', d);
    case Store => StoreIsQuiet(c, s.w, got.pending.key, got.pending.bytes, d); QuietWorld(c, s, s', d);
    case StoreTagBytes =>
      StoreIsQuiet(c, s.w, Mani(got.pending.repo, Hash(c.e, Sha256, got.pending.bytes)), got.pending.bytes, d);
      QuietWorld(c, s, s', d);
    case StoreTagPointer =>
      PointerIsQuiet(c, s.w, got.pending.repo, got.pending.tag, got.pending.digest, d);
      QuietWorld(c, s, s', d);
  }

  lemma StoreIsQuiet(c: Plan, w: World, k: Key, bytes: Bytes, d: Digest)
    requires PlanOk(c) && k != Blob(d) && (k.Mani? ==> d !in BlobsNamed(c.e, bytes))
    ensures forall root :: StaysQuiet(c.e, At(w, root), At(StoreAt(c, w, k, bytes), root), d)
  {
    hide StaysQuiet, WriteBlob, PutBytes, BlobsNamed;
    forall root ensures StaysQuiet(c.e, At(w, root), At(StoreAt(c, w, k, bytes), root), d) {
      RemoveIsQuiet(c.e, At(w, root), Blob(d), d);
      match k {
        case Blob(x) => BlobIsQuiet(c.e, At(w, root), x, bytes, d);
        case Mani(r, _) => PutIsQuiet(c.e, At(w, root), r, ByDigest(d), bytes, d);
        case Tagged(_, _) =>
      }
    }
  }

  lemma PointerIsQuiet(c: Plan, w: World, repo: string, tag: string, x: Digest, d: Digest)
    requires PlanOk(c)
    ensures forall root :: StaysQuiet(c.e, At(w, root), At(PointAt(c, w, repo, tag, x), root), d)
  {
    hide StaysQuiet;
    forall root ensures StaysQuiet(c.e, At(w, root), At(PointAt(c, w, repo, tag, x), root), d) {
      RemoveIsQuiet(c.e, At(w, root), Blob(d), d);
      PointIsQuiet(c.e, At(w, root), At(PointAt(c, w, repo, tag, x), root).tags, d);
    }
  }

  lemma UnnamedStep(c: Plan, s: State, a: Action, d: Digest)
    requires PlanOk(c) && Unnamed(c, s, d) && Enabled(c, s, a) && Quiet(c.e, a, d)
    ensures Unnamed(c, Next(c, s, a), d)
  {
    hide Read, NoneNames, HandsOff, BlobsNamed, Collected, Copied, StaysQuiet, Done, CanAdvance, WriteBlob, Put, Remove;
    var s' := Next(c, s, a);
    if Collects(a) {
      UnnamedCollect(c, s, a, d);
    } else if Copies(a) {
      UnnamedCopy(c, s, a, d);
    } else {
      forall root ensures StaysQuiet(c.e, At(s.w, root), At(s'.w, root), d) {
        var v := At(s.w, root);
        RemoveIsQuiet(c.e, v, Blob(d), d);
        match a {
          case PushBlob(_, x, content) => BlobIsQuiet(c.e, v, x, content, d);
          case PushManifest(r, ref, content) => PutIsQuiet(c.e, v, r, ref, content, d);
          case Purge(_, k, _) => RemoveIsQuiet(c.e, v, k, d);
          case Sweep(x, _) => RemoveIsQuiet(c.e, v, Blob(x), d);
          case _ =>
        }
      }
      assert HandsOff(c.e, Idle, d) by { IdleHandsOff(c.e, d); }
      QuietWorld(c, s, s', d);
    }
  }

  lemma IdleHandsOff(e: Env, d: Digest)
    ensures HandsOff(e, Idle, d)
  {
  }

  lemma {:induction false} UnnamedRun(c: Plan, s: State, run: seq<Action>, d: Digest)
    requires PlanOk(c) && Unnamed(c, s, d) && PossibleRun(c, s, run)
    requires forall i :: 0 <= i < |run| ==> Quiet(c.e, run[i], d)
    ensures Unnamed(c, Exec(c, s, run), d)
    decreases |run|
  {
    hide Unnamed, Enabled, Next, Quiet;
    if run != [] {
      UnnamedStep(c, s, run[0], d);
      UnnamedRun(c, Next(c, s, run[0]), run[1..], d);
    }
  }

  /** A blob no manifest names yet is not copied: in every run in which it is not named or pushed again, it
      is served through the class as long as the old volume is, and gone after the collapse, whatever else
      was migrated. The manifest its client pushes next refers to nothing. */
  lemma UnnamedBlobIsLost(c: Plan, s: State, run: seq<Action>, repo: string, d: Digest)
    requires PlanOk(c) && InClass(c, repo) && (s.phase.Ready? || s.phase.Snapped?) && Unnamed(c, s, d)
    requires PossibleRun(c, s, run) && forall i :: 0 <= i < |run| ==> Quiet(c.e, run[i], d)
    ensures Serve(c, s, repo, Blob(d)) == Read(OldRoots(c), s.w, Blob(d))
    ensures Exec(c, s, run).phase.Filling? ==>
            Serve(c, Exec(c, s, run), repo, Blob(d)) == Read(OldRoots(c), Exec(c, s, run).w, Blob(d))
    ensures Exec(c, s, run).phase.Collapsed? ==> Serve(c, Exec(c, s, run), repo, Blob(d)).None?
  {
    hide InClass, Stray, Read, Quiet, PossibleRun, Exec, NoneNames, HandsOff;
    RouteDuring(c, s.phase, repo);
    UnnamedRun(c, s, run, d);
    var end := Exec(c, s, run);
    RouteDuring(c, end.phase, repo);
    if end.phase.Filling? { OverlayServesMerge(c, end, repo, Blob(d)); }
  }

  // ---- Names outside the listings ---------------------------------------------------------

  /** A tag whose name reads as a temporary file is never on the list of what to copy, so it does not hold
      the collapse up and is gone after it. */
  lemma TmpTagIsLost(c: Plan, s: State, repo: string, tag: string)
    requires PlanOk(c) && s.phase.Filling? && Enabled(c, s, Collapse) && InClass(c, repo) && TmpName(tag)
    requires Read(OldRoots(c), s.w, Tagged(repo, tag)).Some? && Read(NewRoots(c), s.w, Tagged(repo, tag)).None?
    ensures !Wanted(c, s.phase.repos, s.phase.base, Tagged(repo, tag))
    ensures Serve(c, s, repo, Tagged(repo, tag)).Some? && Serve(c, Next(c, s, Collapse), repo, Tagged(repo, tag)).None?
  {
    OverlayServesMerge(c, s, repo, Tagged(repo, tag));
    AfterCollapse(c, s, repo, Tagged(repo, tag));
    if tag in ListedTags(OldRoots(c), s.phase.base, repo) {
      var root :| root in Elements(OldRoots(c)) && tag in Names(At(s.phase.base, root), Tags(repo));
      NamesMember(At(s.phase.base, root), repo, tag);
    }
  }

  /** A repository no rule matches follows the last rule. When that is the migrated one it is rerouted by
      the collapse but never selected, so it keeps only what the new volume happens to hold. */
  lemma StrayIsReroutedNotMoved(c: Plan, s: State, repo: string, k: Key)
    requires PlanOk(c) && s.phase.Filling? && Stray(c, repo)
    ensures repo !in ToMigrate(c, s.w)
    ensures Serve(c, Next(c, s, Collapse), repo, k) == Read(NewRoots(c), s.w, k)
  {
    hide NamesIn;
    AfterCollapse(c, s, repo, k);
  }

  /** The winning rule: a repository won by a longer rule on the same backend is selected like the class,
      is not rerouted, and loses every name to the drain. */
  lemma LongerRuleIsDrained(c: Plan, w: World, w1: World, mid: World, w': World, phase: Phase, repo: string, k: Key)
    requires PlanOk(c) && phase.Collapsed? && !InClass(c, repo) && !Stray(c, repo) && repo in ToMigrate(c, w)
    requires Drained(c.e, Old(c), ToMigrate(c, w), w1, mid, w') && !k.Blob? && k.repo == repo
    ensures RouteIn(c, phase, repo) == Old(c) && Serve(c, State(w', phase), repo, k).None?
  {
    hide Drained, InClass, Stray, NamesIn, Glob.Matches;
    RouteDuring(c, phase, repo);
    assert Route(c.rules, repo) == Old(c);
    MigratedAreGone(c.e, Old(c), ToMigrate(c, w), w1, mid, w', k);
  }

  /** Such a repository exists as soon as two rules share a backend. */
  lemma LongerRuleExample(c: Plan, b: Backend, w: World, root: Root)
    requires Valid(b) && Valid(c.dest) && c.rules == [Rule("a*", b), Rule("ab*", b)] && c.pattern == "a*"
    requires root in Roots(b) && "ab" in Names(At(w, root), Repos)
    ensures PlanOk(c) && "ab" in ToMigrate(c, w) && !InClass(c, "ab") && !Stray(c, "ab")
  {
    hide Glob.Matches, ByteLen, Names, Roots;
    assert "a" + "*" == "a*" && "ab" + "*" == "ab*";
    Glob.PrefixPattern("a", "ab");
    Glob.PrefixPattern("ab", "ab");
    ByteLenOfAscii("a*");
    ByteLenOfAscii("ab*");
    assert FirstKeyed(c.rules, c.pattern) == 0;
    assert Glob.Matches(c.rules[0].pattern, "ab") && Glob.Matches(c.rules[1].pattern, "ab");
    assert !Wins(c.rules, "ab", 0);
    assert Wins(c.rules, "ab", 1);
    RouteIsFirstLongestMatch(c.rules, "ab", 1);
    assert "ab" in NamesIn(Roots(b), w, Repos);
  }

  /** Restart with drain: the backend drained is then the overlay of the stopped run, which contains the
      destination, so whatever the restart moved is erased from both volumes. */
  lemma RestartedDrainErases(c: Plan, c': Plan, repos: set<string>, w: World, mid: World, w': World, k: Key)
    requires PlanOk(c) && PlanOk(c') && Old(c') == OverlayOf(c)
    requires Drained(c'.e, Old(c'), repos, w, mid, w') && !k.Blob? && k.repo in repos
    ensures Read(NewRoots(c), w', k).None? && Read(OldRoots(c), w', k).None?
  {
    hide Drained;
    MigratedAreGone(c'.e, Old(c'), repos, w, mid, w', k);
    OverlayOrder(c);
    ReadConcat(NewRoots(c), OldRoots(c), w', k);
  }
}
