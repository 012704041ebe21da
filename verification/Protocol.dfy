/** Live migration (`migrate::run`) as a step machine interleaved with client pushes.

    A step of the migration is one listing, one read of the old or the new volume, or one write of a blob,
    of manifest bytes or of a tag pointer; a client push is one step too. A run is any interleaving of the
    migration with any number of clients, and of the work on its repositories. A read or a listing of a
    volume of several roots is one step. Deletes by clients and other administrators are not part of it. */
module Protocol {
  import opened Content
  import opened Volumes
  import opened Backends
  import opened Devices
  import opened Routing
  import opened Walks
  import opened Copying
  import opened Merging
  import opened Migrating
  import Glob

  /** One migration: the rule keyed `pattern` of `rules` moves to `dest`. */
  datatype Plan = Plan(e: Env, truth: Digest -> Bytes, rules: seq<Rule>, pattern: string, dest: Backend, arc: nat)

  predicate PlanOk(c: Plan) {
    AllValid(c.rules) && FirstKeyed(c.rules, c.pattern) < |c.rules| && Valid(c.dest)
  }

  function Slot(c: Plan): nat
    requires PlanOk(c)
    ensures Slot(c) < |c.rules|
  {
    FirstKeyed(c.rules, c.pattern)
  }

  function Old(c: Plan): (b: Backend)
    requires PlanOk(c)
    ensures Valid(b)
  {
    c.rules[Slot(c)].backend
  }

  /** New volume first, old one as fall-back. */
  function OverlayOf(c: Plan): (b: Backend)
    requires PlanOk(c)
    ensures Valid(b)
  {
    Multi(c.arc, [Partition("new", c.dest), Partition("old", Old(c))], 0)
  }

  function NewRoots(c: Plan): seq<Root>
    requires PlanOk(c)
  {
    ReadOrder(c.dest)
  }

  function OldRoots(c: Plan): seq<Root>
    requires PlanOk(c)
  {
    ReadOrder(Old(c))
  }

  lemma OverlayOrder(c: Plan)
    requires PlanOk(c)
    ensures ReadOrder(OverlayOf(c)) == NewRoots(c) + OldRoots(c) && Target(OverlayOf(c)) == NewRoots(c)[0]
  {
    var b := OverlayOf(c);
    assert Secondaries(b, 2) == [];
    assert Secondaries(b, 1) == OldRoots(c) + [];
    assert Secondaries(b, 0) == [] + Secondaries(b, 1);
  }

  /** The repositories the migrated rule wins. */
  ghost predicate InClass(c: Plan, repo: string)
    requires PlanOk(c)
  {
    Wins(c.rules, repo, Slot(c))
  }

  /** No rule matches, and the migrated rule is the last: such a repository is rerouted without being migrated. */
  ghost predicate Stray(c: Plan, repo: string)
    requires PlanOk(c)
  {
    Unmatched(c.rules, repo) && Slot(c) == |c.rules| - 1
  }

  // ---- State ------------------------------------------------------------------------------

  /** What the copy loops have in hand between two accesses. */
  datatype Pending =
    | Idle
    | Absent(key: Key)                             // found missing on the new volume
    | Loaded(key: Key, bytes: Bytes)               // read from the old one
    | TagLoaded(repo: string, tag: string, bytes: Bytes)
    | TagHalf(repo: string, tag: string, digest: Digest)  // bytes written, pointer not yet

  /** What the migration has collected and copied so far; all of it is local to the migration. */
  datatype Progress = Progress(
    tagged: set<string>,              // repositories whose tags were listed
    names: set<(string, string)>,     // the tags found
    tags: TagMap,                     // the tags read, with the digest of what they read
    detached: set<string>,            // repositories whose manifests were listed
    listed: set<Pair>,                // the manifests found
    seen: set<Pair>,                  // manifests looked up
    manis: set<Pair>,                 // manifests to copy
    blobs: set<Digest>,               // blobs to copy
    handled: set<Key>,                // keys the copy loops are through with
    pending: Pending)

  const NO_PROGRESS := Progress({}, {}, map[], {}, {}, {}, {}, {}, {}, Idle)

  datatype Phase =
    | Ready
    | Snapped(repos: set<string>)
    | Filling(repos: set<string>, base: World, got: Progress)
    | Stopped(repos: set<string>, base: World)
    | Collapsed(repos: set<string>, base: World)

  datatype State = State(w: World, phase: Phase)

  function RulesIn(c: Plan, phase: Phase): (rules: seq<Rule>)
    requires PlanOk(c)
    ensures rules != [] && AllValid(rules)
  {
    match phase
    case Ready => c.rules
    case Snapped(_) => c.rules
    case Filling(_, _, _) => Upserted(c.rules, c.pattern, OverlayOf(c))
    case Stopped(_, _) => Upserted(c.rules, c.pattern, OverlayOf(c))
    case Collapsed(_, _) => Upserted(c.rules, c.pattern, c.dest)
  }

  function RouteIn(c: Plan, phase: Phase, repo: string): (b: Backend)
    requires PlanOk(c)
    ensures Valid(b)
  {
    RouteValid(RulesIn(c, phase), repo);
    Route(RulesIn(c, phase), repo)
  }

  /** What a client reading `k` of `repo` gets. */
  function Serve(c: Plan, s: State, repo: string, k: Key): Option<Bytes>
    requires PlanOk(c)
  {
    Read(ReadOrder(RouteIn(c, s.phase, repo)), s.w, k)
  }

  // ---- Steps ------------------------------------------------------------------------------

  datatype Action =
    // clients, through the router
    | PushBlob(repo: string, digest: Digest, content: Bytes)
    | PushManifest(repo: string, ref: Reference, content: Bytes)
    // the migration: cutover
    | Snapshot
    | Overlay
    // collection, on the old volume
    | ListTags(repo: string)
    | ReadTag(repo: string, tag: string)
    | ListManifests(repo: string)
    | Visit(repo: string, digest: Digest)
    // one turn of the blob or manifest loop; a failed look at a manifest counts as absent
    | Look(key: Key, failed: bool)
    | Load
    | Store
    // one turn of the tag loop
    | LoadTag(repo: string, tag: string)
    | StoreTagBytes
    | StoreTagPointer
    // the end
    | Collapse
    | Stop
    // its drain
    | Purge(repo: string, key: Key, root: Root)
    | Sweep(digest: Digest, root: Root)

  /** Listed on the old volume, matching the pattern, and routed to that very backend. */
  function ToMigrate(c: Plan, w: World): set<string>
    requires PlanOk(c)
  {
    set r | r in NamesIn(Roots(Old(c)), w, Repos) && Glob.Matches(c.pattern, r) && Route(c.rules, r) == Old(c)
  }

  /** Everything there is to copy for the repositories to migrate, as of some world. */
  ghost predicate Wanted(c: Plan, repos: set<string>, w: World, k: Key)
    requires PlanOk(c)
  {
    match k
    case Mani(r, d) => r in repos && d in GraphOf(OldRoots(c), w, r)
    case Tagged(r, t) => r in repos && t in ListedTags(OldRoots(c), w, r)
    case Blob(d) => exists r :: r in repos && d in RepoBlobs(c.e, OldRoots(c), w, r)
  }

  /** The write that ends a turn of the blob or manifest loop. */
  function StoreAt(c: Plan, w: World, k: Key, bytes: Bytes): World
    requires PlanOk(c)
  {
    var t := Target(c.dest);
    match k
    case Blob(d) => w[t := WriteBlob(c.e, At(w, t), d, bytes).0]
    case Mani(r, _) => w[t := PutBytes(c.e, At(w, t), r, bytes)]
    case Tagged(_, _) => w
  }

  function PointAt(c: Plan, w: World, repo: string, tag: string, d: Digest): World
    requires PlanOk(c)
  {
    var t := Target(c.dest);
    w[t := At(w, t).(tags := At(w, t).tags[(repo, tag) := d])]
  }

  predicate ToCopy(got: Progress, k: Key) {
    match k
    case Blob(d) => d in got.blobs
    case Mani(r, d) => (r, d) in got.manis
    case Tagged(_, _) => false
  }

  /** The migration goes by what it knows itself: every repository was listed, every listed tag was read,
      every listed manifest looked up, and everything collected has been through its loop. */
  ghost predicate Done(repos: set<string>, got: Progress) {
    && got.pending.Idle?
    && (forall r :: r in repos ==> r in got.tagged && r in got.detached)
    && (forall p :: p in got.names ==> p in got.tags)
    && (forall p :: p in got.listed ==> p in got.seen)
    && (forall k :: ToCopy(got, k) ==> k in got.handled)
    && (forall p :: p in got.tags ==> Tagged(p.0, p.1) in got.handled)
  }

  /** The steps of collecting and copying. A listed tag that does not resolve has no `ReadTag`: the source
      gives up there, which is a `Stop`. */
  predicate CanAdvance(c: Plan, w: World, repos: set<string>, got: Progress, a: Action)
    requires PlanOk(c)
  {
    match a
    case ListTags(r) => r in repos
    case ReadTag(r, t) => (r, t) in got.names && (r, t) !in got.tags && Read(OldRoots(c), w, Tagged(r, t)).Some?
    case ListManifests(r) => r in repos
    case Visit(r, _) => r in repos
    case Look(k, failed) => got.pending.Idle? && ToCopy(got, k) && (failed ==> k.Mani?)
    case Load => got.pending.Absent?
    case Store => got.pending.Loaded?
    case LoadTag(r, t) => got.pending.Idle? && (r, t) in got.tags
    case StoreTagBytes => got.pending.TagLoaded?
    case StoreTagPointer => got.pending.TagHalf?
    case _ => false
  }

  /** The collecting steps leave the world alone. */
  function Collected(c: Plan, w: World, got: Progress, a: Action): Progress
    requires PlanOk(c)
  {
    match a
    case ListTags(r) =>
      got.(tagged := got.tagged + {r}, names := got.names + set t | t in ListedTags(OldRoots(c), w, r) :: (r, t))
    case ReadTag(r, t) =>
      var read := Read(OldRoots(c), w, Tagged(r, t));
      if read.None? then got else got.(tags := got.tags[(r, t) := Hash(c.e, Sha256, read.value)])
    case ListManifests(r) =>
      got.(detached := got.detached + {r},
           listed := got.listed + set d | d in DigestsIn(Elements(OldRoots(c)), w, Manifests(r)) :: (r, d))
    case Visit(r, d) =>
      var read := Read(OldRoots(c), w, Mani(r, d));
      if read.None? then got.(seen := got.seen + {(r, d)})
      else got.(seen := got.seen + {(r, d)}, manis := got.manis + {(r, d)},
                blobs := got.blobs + BlobsNamed(c.e, read.value))
    case _ => got
  }

  /** The copying steps, one access each. */
  function Copied(c: Plan, w: World, got: Progress, a: Action): (World, Progress)
    requires PlanOk(c)
  {
    match a
    case Look(k, failed) =>
      if Read(NewRoots(c), w, k).Some? && !failed then (w, got.(handled := got.handled + {k}))
      else (w, got.(pending := Absent(k)))
    case Load =>
      if !got.pending.Absent? then (w, got) else
      var k := got.pending.key;
      var read := Read(OldRoots(c), w, k);
      if read.None? then (w, got.(handled := got.handled + {k}, pending := Idle))
      else (w, got.(pending := Loaded(k, read.value)))
    case Store =>
      if !got.pending.Loaded? then (w, got) else
      var k := got.pending.key;
      (StoreAt(c, w, k, got.pending.bytes), got.(handled := got.handled + {k}, pending := Idle))
    case LoadTag(r, t) =>
      if (r, t) !in got.tags then (w, got) else
      var read := Read(OldRoots(c), w, Mani(r, got.tags[(r, t)]));
      if read.None? then (w, got.(handled := got.handled + {Tagged(r, t)}))
      else (w, got.(pending := TagLoaded(r, t, read.value)))
    case StoreTagBytes =>
      if !got.pending.TagLoaded? then (w, got) else
      var p, d := got.pending, Hash(c.e, Sha256, got.pending.bytes);
      (StoreAt(c, w, Mani(p.repo, d), p.bytes), got.(pending := TagHalf(p.repo, p.tag, d)))
    case StoreTagPointer =>
      if !got.pending.TagHalf? then (w, got) else
      var p := got.pending;
      (PointAt(c, w, p.repo, p.tag, p.digest), got.(handled := got.handled + {Tagged(p.repo, p.tag)}, pending := Idle))
    case _ => (w, got)
  }

  predicate Collects(a: Action) { a.ListTags? || a.ReadTag? || a.ListManifests? || a.Visit? }

  predicate Copies(a: Action) {
    a.Look? || a.Load? || a.Store? || a.LoadTag? || a.StoreTagBytes? || a.StoreTagPointer?
  }

  /** The order in which the source can take its steps. */
  ghost predicate Enabled(c: Plan, s: State, a: Action)
    requires PlanOk(c)
  {
    match a
    case PushBlob(_, _, _) => true
    case PushManifest(_, _, _) => true
    case Snapshot => s.phase.Ready?
    case Overlay => s.phase.Snapped?
    case Collapse => s.phase.Filling? && Done(s.phase.repos, s.phase.got)
    case Stop => s.phase.Filling?
    case Purge(r, k, root) => s.phase.Collapsed? && r in s.phase.repos && !k.Blob? && k.repo == r
         && root in Roots(Old(c))
    case Sweep(_, root) => s.phase.Collapsed? && root in Roots(Old(c))
    case _ => s.phase.Filling? && CanAdvance(c, s.w, s.phase.repos, s.phase.got, a)
  }

  function Next(c: Plan, s: State, a: Action): State
    requires PlanOk(c)
  {
    match a
    case PushBlob(r, d, content) =>
      var t := Target(RouteIn(c, s.phase, r));
      s.(w := s.w[t := WriteBlob(c.e, At(s.w, t), d, content).0])
    case PushManifest(r, ref, content) =>
      var t := Target(RouteIn(c, s.phase, r));
      s.(w := s.w[t := Put(c.e, At(s.w, t), r, ref, content)])
    case Snapshot => s.(phase := Snapped(ToMigrate(c, s.w)))
    case Overlay => if s.phase.Snapped? then s.(phase := Filling(s.phase.repos, s.w, NO_PROGRESS)) else s
    case Collapse => if s.phase.Filling? then s.(phase := Collapsed(s.phase.repos, s.phase.base)) else s
    case Stop => if s.phase.Filling? then s.(phase := Stopped(s.phase.repos, s.phase.base)) else s
    case Purge(_, k, root) => s.(w := s.w[root := Remove(At(s.w, root), k)])
    case Sweep(d, root) => s.(w := s.w[root := Remove(At(s.w, root), Blob(d))])
    case _ =>
      if !s.phase.Filling? then s
      else if Collects(a) then s.(phase := s.phase.(got := Collected(c, s.w, s.phase.got, a)))
      else var (w', got') := Copied(c, s.w, s.phase.got, a); State(w', s.phase.(got := got'))
  }

  /** What the zero-miss claim needs of its surroundings, step by step:
      pushed content does not collide with stored content; class repositories and tags have listable
      names; no class repository is created between the listing and the overlay; a drain runs only when
      old and new volume share no root, and only over repositories the migrated rule wins. */
  ghost predicate Assumed(c: Plan, s: State, a: Action)
    requires PlanOk(c)
  {
    match a
    case PushBlob(_, d, content) => Hash(c.e, d.algorithm, content) == d ==> content == c.truth(d)
    case PushManifest(r, ref, content) =>
      && content == c.truth(Hash(c.e, Sha256, content))
      && (InClass(c, r) ==> Listable(r) && (ref.Tag? ==> !TmpName(ref.tag)))
      && (InClass(c, r) && s.phase.Snapped? ==> r in s.phase.repos)
    case Purge(r, _, _) => InClass(c, r) && Roots(Old(c)) !! Roots(c.dest)
    case Sweep(_, _) => Roots(Old(c)) !! Roots(c.dest)
    case _ => true
  }

  ghost predicate ValidRun(c: Plan, s: State, run: seq<Action>)
    requires PlanOk(c)
    decreases |run|
  {
    run != [] ==> Enabled(c, s, run[0]) && Assumed(c, s, run[0]) && ValidRun(c, Next(c, s, run[0]), run[1..])
  }

  function Exec(c: Plan, s: State, run: seq<Action>): State
    requires PlanOk(c)
    decreases |run|
  {
    if run == [] then s else Exec(c, Next(c, s, run[0]), run[1..])
  }

  // ---- Invariant --------------------------------------------------------------------------

  /** Names of class repositories on either volume are listable. */
  ghost predicate NamesOk(c: Plan, w: World)
    requires PlanOk(c)
  {
    forall root :: root in OldRoots(c) || root in NewRoots(c) ==> NamesOkAt(c, At(w, root))
  }

  ghost predicate NamesOkAt(c: Plan, v: Vol)
    requires PlanOk(c)
  {
    && (forall r :: r in v.dirs && InClass(c, r) ==> Listable(r))
    && (forall p :: p in v.tags && InClass(c, p.0) ==> !TmpName(p.1))
  }

  ghost predicate Snapshotted(c: Plan, w: World, repos: set<string>)
    requires PlanOk(c)
  {
    forall root, r :: root in OldRoots(c) && r in At(w, root).dirs && InClass(c, r) ==> r in repos
  }

  /** On roots that are only in the old volume nothing of the class changes once the overlay is up. */
  ghost predicate Frozen(c: Plan, base: World, w: World)
    requires PlanOk(c)
  {
    forall root, k: Key :: root in OldRoots(c) && root !in NewRoots(c) && !k.Blob? && InClass(c, k.repo) ==>
      Lookup(At(w, root), k) == Lookup(At(base, root), k)
  }

  /** The listings miss nothing that was there when the overlay went up. */
  ghost predicate ListedOk(c: Plan, repos: set<string>, base: World,
                           tagged: set<string>, names: set<(string, string)>, detached: set<string>, listed: set<Pair>)
    requires PlanOk(c)
  {
    && (forall r, t ::
          r in tagged && Wanted(c, repos, base, Tagged(r, t)) && Read(OldRoots(c), base, Tagged(r, t)).Some? ==>
            (r, t) in names)
    && (forall r, d :: r in detached && Read(OldRoots(c), base, Mani(r, d)).Some? ==> (r, d) in listed)
  }

  /** Nor do the visits, and every blob a manifest to copy names is to be copied. */
  ghost predicate VisitedOk(c: Plan, base: World, seen: set<Pair>, manis: set<Pair>, blobs: set<Digest>)
    requires PlanOk(c)
  {
    && (forall p :: p in seen && Read(OldRoots(c), base, Mani(p.0, p.1)).Some? ==> p in manis)
    && (forall p, d :: p in manis && d in BlobsNamed(c.e, c.truth(p.1)) ==> d in blobs)
  }

  ghost predicate HandledOk(c: Plan, base: World, w: World, handled: set<Key>)
    requires PlanOk(c)
  {
    forall k :: k in handled && Read(OldRoots(c), base, k).Some? ==> Read(NewRoots(c), w, k).Some?
  }

  ghost predicate TagsOk(c: Plan, w: World, tags: TagMap)
    requires PlanOk(c)
  {
    forall p :: p in tags ==>
      Read(OldRoots(c), w, Mani(p.0, tags[p])).Some? && Read(OldRoots(c), w, Tagged(p.0, p.1)).Some?
  }

  ghost predicate PendingOk(c: Plan, w: World, tags: TagMap, pending: Pending)
    requires PlanOk(c)
  {
    match pending
    case Idle => true
    case Absent(k) => !k.Tagged?
    case Loaded(k, bytes) => !k.Tagged? && Read(OldRoots(c), w, k) == Some(bytes)
    case TagLoaded(r, t, bytes) => (r, t) in tags && Read(OldRoots(c), w, Mani(r, tags[(r, t)])) == Some(bytes)
    case TagHalf(r, t, d) => (r, t) in tags && tags[(r, t)] == d && Lookup(At(w, Target(c.dest)), Mani(r, d)).Some?
  }

  ghost predicate GotOk(c: Plan, repos: set<string>, base: World, w: World, got: Progress)
    requires PlanOk(c)
  {
    && ListedOk(c, repos, base, got.tagged, got.names, got.detached, got.listed)
    && VisitedOk(c, base, got.seen, got.manis, got.blobs)
    && HandledOk(c, base, w, got.handled) && TagsOk(c, w, got.tags) && PendingOk(c, w, got.tags, got.pending)
  }

  ghost predicate Inv(c: Plan, s: State)
    requires PlanOk(c)
  {
    && Genuine(c.e, c.truth, s.w) && NamesOk(c, s.w)
    && match s.phase
       case Ready => true
       case Snapped(repos) => Snapshotted(c, s.w, repos)
       case Filling(repos, base, got) =>
         && Genuine(c.e, c.truth, base) && NamesOk(c, base) && Snapshotted(c, base, repos)
         && Grows(base, s.w) && Frozen(c, base, s.w) && GotOk(c, repos, base, s.w, got)
       case Stopped(_, _) => true
       case Collapsed(_, _) => true
  }

  /** Zero-miss between two states: manifests keep their bytes, tags keep resolving, for every
      repository that is not stray. */
  ghost predicate Kept(c: Plan, s: State, s': State)
    requires PlanOk(c)
  {
    forall k: Key :: !k.Blob? && !Stray(c, k.repo) && Serve(c, s, k.repo, k).Some? ==>
      Serve(c, s', k.repo, k).Some? && (k.Mani? ==> Serve(c, s', k.repo, k) == Serve(c, s, k.repo, k))
  }
}
