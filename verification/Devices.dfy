/** The storage operations as the source performs them: recursive dispatch through nested
    `MultiStore`s down to the roots, over devices that may fail at any access.

    A failed access is a nondeterministic choice, counted in `faults`: a call during which `faults`
    did not move ran fault-free. */
module Devices {
  import opened Content
  import opened Volumes
  import opened Backends

  class Disks {
    const env: Env
    var vols: World
    var faults: nat

    constructor (env: Env)
      ensures this.env == env && vols == map[] && faults == 0
    {
      this.env := env;
      vols := map[];
      faults := 0;
    }

    /** One access to a device. */
    method Access() returns (failed: bool)
      modifies this`faults
      ensures faults == old(faults) + if failed then 1 else 0
    {
      failed := *;
      if failed { faults := faults + 1; }
    }

    // ---- Reads: `read_fallthrough` --------------------------------------------------------

    /** `blob_read`, `manifest_get`: an answer is the first hit along the read order, a fault ends the search. */
    method Get(b: Backend, k: Key) returns (r: Result<Bytes>)
      requires Valid(b)
      modifies this`faults
      ensures r.Fault? ==> faults > old(faults)
      ensures !r.Fault? ==> faults == old(faults) && r == AsResult(Read(ReadOrder(b), vols, k))
      decreases b
    {
      match b
      case Fs(_, root) =>
        var failed := Access();
        r := if failed then Fault else AsResult(Lookup(At(vols, root), k));
        assert Read([root], vols, k) == Lookup(At(vols, root), k);
      case Multi(_, parts, primary) =>
        r := Get(parts[primary].storage, k);
        ReadConcat(ReadOrder(parts[primary].storage), Secondaries(b, 0), vols, k);
        if !r.NotFound? { return; }
        for i := 0 to |parts|
          invariant faults == old(faults)
          invariant Read(ReadOrder(b), vols, k) == Read(Secondaries(b, i), vols, k)
        {
          if i == primary { assert Secondaries(b, i) == Secondaries(b, i + 1); continue; }
          r := Get(parts[i].storage, k);
          ReadConcat(ReadOrder(parts[i].storage), Secondaries(b, i + 1), vols, k);
          if !r.NotFound? { return; }
        }
        r := NotFound;
    }

    /** `blob_exists` asks the partitions in declared order and stops at the first yes; it agrees with `Get`. */
    method BlobExists(b: Backend, d: Digest) returns (r: Result<bool>)
      requires Valid(b)
      modifies this`faults
      ensures r.Fault? ==> faults > old(faults)
      ensures !r.Fault? ==> faults == old(faults) && r == Ok(Read(ReadOrder(b), vols, Blob(d)).Some?)
      decreases b
    {
      match b
      case Fs(_, root) =>
        var failed := Access();
        r := if failed then Fault else Ok(d in At(vols, root).blobs);
        assert Read([root], vols, Blob(d)) == Lookup(At(vols, root), Blob(d));
      case Multi(_, parts, _) =>
        RootsOfMulti(b);
        ReadFinds(ReadOrder(b), vols, Blob(d));
        for i := 0 to |parts|
          invariant faults == old(faults)
          invariant forall root :: root in RootsUpTo(b, i) ==> d !in At(vols, root).blobs
        {
          r := BlobExists(parts[i].storage, d);
          ReadFinds(ReadOrder(parts[i].storage), vols, Blob(d));
          RootsUpToMono(b, i, |parts|);
          assert forall root :: root in ReadOrder(parts[i].storage) ==> root in Roots(b);
          if r != Ok(false) { return; }
          assert forall root :: root in RootsUpTo(b, i + 1) ==>
              root in RootsUpTo(b, i) || root in ReadOrder(parts[i].storage);
        }
        assert forall root :: root in ReadOrder(b) ==> root in Roots(b);
        r := Ok(false);
    }

    // ---- Listings: union over the partitions ----------------------------------------------

    method ListNames(b: Backend, what: NameList) returns (r: Result<set<string>>)
      requires Valid(b)
      modifies this`faults
      ensures r.Fault? ==> faults > old(faults)
      ensures !r.Fault? ==> faults == old(faults) && r == Ok(NamesIn(Roots(b), vols, what))
      decreases b
    {
      match b
      case Fs(_, root) =>
        var failed := Access();
        r := if failed then Fault else Ok(Names(At(vols, root), what));
        assert NamesIn({root}, vols, what) == Names(At(vols, root), what);
        assert Roots(b) == {root};
      case Multi(_, parts, _) =>
        var out := {};
        for i := 0 to |parts|
          invariant faults == old(faults)
          invariant out == NamesIn(RootsUpTo(b, i), vols, what)
        {
          r := ListNames(parts[i].storage, what);
          if !r.Ok? { return; }
          out := out + r.value;
        }
        RootsOfMulti(b);
        r := Ok(out);
    }

    method ListDigests(b: Backend, what: DigestList) returns (r: Result<set<Digest>>)
      requires Valid(b)
      modifies this`faults
      ensures r.Fault? ==> faults > old(faults)
      ensures !r.Fault? ==> faults == old(faults) && r == Ok(DigestsIn(Roots(b), vols, what))
      decreases b
    {
      match b
      case Fs(_, root) =>
        var failed := Access();
        r := if failed then Fault else Ok(Digests(At(vols, root), what));
        assert DigestsIn({root}, vols, what) == Digests(At(vols, root), what);
        assert Roots(b) == {root};
      case Multi(_, parts, _) =>
        var out := {};
        for i := 0 to |parts|
          invariant faults == old(faults)
          invariant out == DigestsIn(RootsUpTo(b, i), vols, what)
        {
          r := ListDigests(parts[i].storage, what);
          if !r.Ok? { return; }
          out := out + r.value;
        }
        RootsOfMulti(b);
        r := Ok(out);
    }

    // ---- Bytes in use ---------------------------------------------------------------------

    /** `used_bytes`: one `blob_size` per listed digest, unreadable ones counting as zero, summed in 64 bits. */
    method UsedBytes(b: Backend) returns (r: Result<nat>)
      requires Valid(b)
      modifies this`faults
      ensures r.Fault? || (r.Ok? && r.value < U64)
      ensures faults >= old(faults)
      ensures faults == old(faults) ==> r == Ok(Wrap(Used(ReadOrder(b), vols)))
    {
      hide Total, Read, Logical, ReadOrder, Wrap, DigestsIn;
      var listed := ListDigests(b, AllBlobs);
      if !listed.Ok? { return Fault; }
      var todo, total: nat := listed.value, 0;
      ghost var o := ReadOrder(b);
      ghost var left := Logical(o, vols).blobs;
      LogicalBlobs(o, vols);
      while todo != {}
        invariant todo == left.Keys && total < U64 && faults >= old(faults)
        invariant forall d :: d in left ==> Read(o, vols, Blob(d)) == Some(left[d])
        invariant faults == old(faults) ==> Wrap(total + Total(left)) == Wrap(Used(o, vols))
      {
        var d :| d in todo;
        var bytes := Get(b, Blob(d));
        TotalWithout(left, d);
        var size := if bytes.Ok? then |bytes.value| else 0;
        WrapSum(total + size, Total(left - {d}));
        total := Wrap(total + size);
        todo, left := todo - {d}, left - {d};
      }
      TotalEmpty(left);
      WrapSmall(total);
      r := Ok(total);
    }

    // ---- Writes: primary only -------------------------------------------------------------

    /** `blob_write` and the upload session operations. */
    method Write(b: Backend, op: Op) returns (r: Result<()>)
      requires Valid(b) && (op.BlobWrite? || op.UploadCreate? || op.UploadAppend? || op.UploadFinalize?
                            || op.UploadCancel?)
      modifies this
      ensures r.Fault? ==> faults > old(faults) && vols == old(vols)
      ensures !r.Fault? ==> && faults == old(faults)
                            && r == Apply(env, At(old(vols), Target(b)), op).1
                            && vols == old(vols)[Target(b) := Apply(env, At(old(vols), Target(b)), op).0]
      decreases b
    {
      match b
      case Fs(_, root) =>
        var failed := Access();
        if failed { return Fault; }
        var done := Apply(env, At(vols, root), op);
        vols := vols[root := done.0];
        r := done.1;
      case Multi(_, parts, primary) =>
        r := Write(parts[primary].storage, op);
    }

    /** `upload_status`: bytes received so far by a session, which lives on the primary. */
    method UploadStatus(b: Backend, id: nat) returns (r: Result<nat>)
      requires Valid(b)
      modifies this`faults
      ensures r.Fault? ==> faults > old(faults)
      ensures !r.Fault? ==> && faults == old(faults)
                            && var sessions := At(vols, Target(b)).uploads;
                               r == if id in sessions then Ok(|sessions[id]|) else NotFound
      decreases b
    {
      match b
      case Fs(_, root) =>
        var failed := Access();
        var sessions := At(vols, root).uploads;
        r := if failed then Fault else if id in sessions then Ok(|sessions[id]|) else NotFound;
      case Multi(_, parts, primary) =>
        r := UploadStatus(parts[primary].storage, id);
    }

    /** `manifest_put`: bytes first, then the tag pointer; a fault may fall between the two. */
    method ManifestPut(b: Backend, repo: string, ref: Reference, content: Bytes) returns (r: Result<Digest>)
      requires Valid(b)
      modifies this
      ensures r.Fault? || r == Ok(Hash(env, Sha256, content))
      ensures r.Fault? ==> && faults > old(faults)
                           && (vols == old(vols)
                               || (ref.Tag?
                                   && vols == old(vols)[Target(b) := PutBytes(env, At(old(vols), Target(b)), repo,
                                       content)]))
      ensures r.Ok? ==> && faults == old(faults)
                        && vols == old(vols)[Target(b) := Put(env, At(old(vols), Target(b)), repo, ref, content)]
      decreases b
    {
      match b
      case Fs(_, root) =>
        var failed := Access();
        if failed { return Fault; }
        var digest := Hash(env, Sha256, content);
        vols := vols[root := PutBytes(env, At(vols, root), repo, content)];
        if ref.Tag? {
          failed := Access();
          if failed { return Fault; }
          var v := At(vols, root);
          vols := vols[root := v.(tags := v.tags[(repo, ref.tag) := digest])];
        }
        r := Ok(digest);
      case Multi(_, parts, primary) =>
        r := ManifestPut(parts[primary].storage, repo, ref, content);
    }

    // ---- Deletes: every partition ---------------------------------------------------------

    /** Unlink one file. */
    method DeleteFile(root: Root, k: Key) returns (r: Result<()>)
      modifies this
      ensures r.Ok? || ((r.NotFound? || r.Fault?) && vols == old(vols))
      ensures faults == old(faults) + if r.Fault? then 1 else 0
      ensures !r.Fault? ==> Swept(old(vols), vols, {root}, k) && (r.Ok? <==> Stored(At(old(vols), root), k))
      ensures !r.Fault? ==> !Stored(At(vols, root), k)
    {
      var failed := Access();
      if failed { return Fault; }
      RemoveAbsent(At(vols, root), k);
      if !Stored(At(vols, root), k) { return NotFound; }
      vols := vols[root := Remove(At(vols, root), k)];
      r := Ok(());
    }

    /** `blob_delete`, `manifest_delete`: the delete is tried on every partition; one success makes the
        answer Ok even if another partition failed. `gone` are the roots reached, `hit` one that held the
        key. Fault-free, every root is reached and no copy survives. */
    method Delete(b: Backend, k: Key) returns (r: Result<()>, ghost gone: set<Root>, ghost hit: Root)
      requires Valid(b)
      modifies this
      ensures r.Ok? || ((r.NotFound? || r.Fault?) && vols == old(vols))
      ensures faults >= old(faults) && (r.Fault? ==> faults > old(faults)) && (r.NotFound? ==> faults == old(faults))
      ensures gone <= Roots(b) && (faults == old(faults) ==> gone == Roots(b))
      ensures Swept(old(vols), vols, gone, k)
      ensures r.Ok? ==> hit in gone && Stored(At(old(vols), hit), k)
      ensures r.NotFound? ==> Absent(vols, Roots(b), k)
      decreases b, 1
    {
      match b
      case Fs(_, root) =>
        r := DeleteFile(root, k);
        hit, gone := root, if r.Fault? then {} else {root};
        assert Roots(b) == {root};
      case Multi(_, _, _) =>
        r, gone, hit := DeleteEach(b, k);
    }

    method DeleteEach(b: Backend, k: Key) returns (r: Result<()>, ghost gone: set<Root>, ghost hit: Root)
      requires Valid(b) && b.Multi?
      modifies this
      ensures r.Ok? || ((r.NotFound? || r.Fault?) && vols == old(vols))
      ensures faults >= old(faults) && (r.Fault? ==> faults > old(faults)) && (r.NotFound? ==> faults == old(faults))
      ensures gone <= Roots(b) && (faults == old(faults) ==> gone == Roots(b))
      ensures Swept(old(vols), vols, gone, k)
      ensures r.Ok? ==> hit in gone && Stored(At(old(vols), hit), k)
      ensures r.NotFound? ==> Absent(vols, Roots(b), k)
      decreases b, 0
    {
      var deletedAny, lastErr := false, false;
      ghost var start := vols;
      hit, gone := "", {};
      for i := 0 to |b.partitions|
        invariant faults >= old(faults) && (lastErr ==> faults > old(faults))
        invariant gone <= RootsUpTo(b, i) && (faults == old(faults) ==> gone == RootsUpTo(b, i))
        invariant Swept(start, vols, gone, k)
        invariant deletedAny ==> hit in gone && Stored(At(start, hit), k)
        invariant !deletedAny ==> vols == start
        invariant !deletedAny && !lastErr ==> faults == old(faults) && Absent(vols, RootsUpTo(b, i), k)
      {
        ghost var was := vols;
        var one, more, at := Delete(b.partitions[i].storage, k);
        SweepStep(start, was, vols, gone, more, k);
        gone := gone + more;
        if one.Ok? {
          if !deletedAny { hit := at; }
          deletedAny := true;
        } else if one.Fault? {
          lastErr := true;
        }
      }
      RootsOfMulti(b);
      r := if deletedAny then Ok(()) else if lastErr then Fault else NotFound;
    }
  }

  /** The key was removed from the roots of the set (a no-op where it was absent); nothing else changed. */
  ghost predicate Swept(w: World, w': World, roots: set<Root>, k: Key) {
    forall root :: At(w', root) == if root in roots then Remove(At(w, root), k) else At(w, root)
  }

  ghost predicate Absent(w: World, roots: set<Root>, k: Key) {
    forall root :: root in roots ==> !Stored(At(w, root), k)
  }

  /** A delete that reached every root leaves nothing to read. */
  lemma DeletedIsUnread(b: Backend, w: World, w': World, k: Key)
    requires Valid(b) && Swept(w, w', Roots(b), k)
    ensures Read(ReadOrder(b), w', k).None?
  {
    ReadFinds(ReadOrder(b), w', k);
    forall root | root in ReadOrder(b) ensures Lookup(At(w', root), k).None? {
      assert root in Roots(b);
      assert At(w', root) == Remove(At(w, root), k);
    }
  }

  const U64 := 0x1_0000_0000_0000_0000

  /** Unchecked 64-bit addition wraps around. */
  function Wrap(n: nat): (r: nat)
    ensures r < U64
  {
    n % U64
  }

  lemma WrapSum(a: nat, b: nat)
    ensures Wrap(Wrap(a) + b) == Wrap(a + b)
  {
  }

  lemma WrapSmall(n: nat)
    requires n < U64
    ensures Wrap(n) == n
  {
  }

  lemma {:induction false} LogicalBlobs(o: seq<Root>, w: World)
    ensures Logical(o, w).blobs.Keys == DigestsIn(Elements(o), w, AllBlobs)
    ensures forall d :: d in Logical(o, w).blobs ==> Read(o, w, Blob(d)) == Some(Logical(o, w).blobs[d])
  {
    if o != [] {
      LogicalBlobs(o[1..], w);
      var head, rest := Digests(At(w, o[0]), AllBlobs), DigestsIn(Elements(o[1..]), w, AllBlobs);
      assert Elements(o) == {o[0]} + Elements(o[1..]);
      assert DigestsIn(Elements(o), w, AllBlobs) == head + rest;
    }
  }

  /** `MultiStore::new`. */
  method NewMulti(arc: nat, partitions: seq<Partition>, primary: string) returns (r: Result<Backend>)
    requires forall p :: p in partitions ==> Valid(p.storage)
    ensures r.Ok? || r.Invalid?
    ensures r.Ok? <==> && (exists i :: 0 <= i < |partitions| && partitions[i].name == primary)
                       && (forall i, j :: 0 <= i < j < |partitions| ==> partitions[i].name != partitions[j].name)
    ensures r.Ok? ==> && Valid(r.value) && r.value.Multi? && r.value.arc == arc && r.value.partitions == partitions
                      && partitions[r.value.primary].name == primary
  {
    var seen := {};
    for i := 0 to |partitions|
      invariant forall name :: name in seen <==> exists j :: 0 <= j < i && partitions[j].name == name
      invariant forall j, k :: 0 <= j < k < i ==> partitions[j].name != partitions[k].name
    {
      if partitions[i].name in seen { return Invalid; }
      seen := seen + {partitions[i].name};
    }
    for i := 0 to |partitions|
      invariant forall j :: 0 <= j < i ==> partitions[j].name != primary
    {
      if partitions[i].name == primary { return Ok(Multi(arc, partitions, i)); }
    }
    r := Invalid;
  }

  lemma RemoveAbsent(v: Vol, k: Key)
    ensures !Stored(v, k) ==> Remove(v, k) == v
    ensures Remove(Remove(v, k), k) == Remove(v, k) && !Stored(Remove(v, k), k)
  {
    match k
    case Blob(d) => assert v.blobs - {d} - {d} == v.blobs - {d}; assert d !in v.blobs ==> v.blobs - {d} == v.blobs;
    case Mani(r, d) =>
      assert v.manifests - {(r, d)} - {(r, d)} == v.manifests - {(r, d)};
      assert (r, d) !in v.manifests ==> v.manifests - {(r, d)} == v.manifests;
    case Tagged(r, t) =>
      assert v.tags - {(r, t)} - {(r, t)} == v.tags - {(r, t)};
      assert (r, t) !in v.tags ==> v.tags - {(r, t)} == v.tags;
  }

  lemma SweepStep(start: World, was: World, now: World, before: set<Root>, here: set<Root>, k: Key)
    requires Swept(start, was, before, k) && Swept(was, now, here, k)
    ensures Swept(start, now, before + here, k)
  {
    forall root ensures Remove(Remove(At(start, root), k), k) == Remove(At(start, root), k) {
      RemoveAbsent(At(start, root), k);
    }
  }
}
