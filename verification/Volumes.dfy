/** One storage root (`FsStorage`) as a value: the file tree under `<root>/` seen as maps, and every
    operation as a function on it. The `repo` argument of blob and upload operations is ignored by the
    source, so it does not appear here. */
module Volumes {
  import opened Content

  type Root = string

  /** `dirs` are the repository directories under `manifests/`: they are created by the first
      `manifest_put` and are never removed, so a repository stays listed after its last manifest is gone. */
  datatype Vol = Vol(
    blobs: map<Digest, Bytes>,
    manifests: map<(string, Digest), Bytes>,
    tags: map<(string, string), Digest>,
    dirs: set<string>,
    uploads: map<nat, Bytes>)

  const EMPTY := Vol(map[], map[], map[], {}, map[])

  datatype Result<+T> =
    | Ok(value: T)
    | NotFound
    | Mismatch(expected: Digest, got: Digest)
    | Invalid
    | QuotaExceeded
    | Fault

  // ---- Reading ----------------------------------------------------------------------------

  /** What a read asks for: a blob, a manifest by digest, or a manifest by tag. */
  datatype Key = Blob(digest: Digest) | Mani(repo: string, digest: Digest) | Tagged(repo: string, tag: string)

  /** The bytes a key resolves to on one root. A tag whose manifest is gone resolves to nothing. */
  function Lookup(v: Vol, k: Key): Option<Bytes> {
    match k
    case Blob(d) => if d in v.blobs then Some(v.blobs[d]) else None
    case Mani(r, d) => ManifestAt(v, r, d)
    case Tagged(r, t) => if (r, t) in v.tags then ManifestAt(v, r, v.tags[(r, t)]) else None
  }

  function ManifestAt(v: Vol, repo: string, d: Digest): Option<Bytes> {
    if (repo, d) in v.manifests then Some(v.manifests[(repo, d)]) else None
  }

  /** Whether the file behind a key exists (for a tag: the pointer, dangling or not). */
  predicate Stored(v: Vol, k: Key) {
    match k
    case Blob(d) => d in v.blobs
    case Mani(r, d) => (r, d) in v.manifests
    case Tagged(r, t) => (r, t) in v.tags
  }

  function Remove(v: Vol, k: Key): Vol {
    match k
    case Blob(d) => v.(blobs := v.blobs - {d})
    case Mani(r, d) => v.(manifests := v.manifests - {(r, d)})
    case Tagged(r, t) => v.(tags := v.tags - {(r, t)})
  }

  // ---- Writing ----------------------------------------------------------------------------

  datatype Reference = Tag(tag: string) | ByDigest(digest: Digest)

  function KeyOf(repo: string, ref: Reference): Key {
    match ref case Tag(t) => Tagged(repo, t) case ByDigest(d) => Mani(repo, d)
  }

  function WriteBlob(e: Env, v: Vol, d: Digest, content: Bytes): (Vol, Result<()>) {
    var got := Hash(e, d.algorithm, content);
    if got != d then (v, Mismatch(d, got)) else (v.(blobs := v.blobs[d := content]), Ok(()))
  }

  /** First half of `manifest_put`: the bytes go under the digest they hash to, whatever the reference says. */
  function PutBytes(e: Env, v: Vol, repo: string, content: Bytes): Vol {
    v.(manifests := v.manifests[(repo, Hash(e, Sha256, content)) := content], dirs := v.dirs + {repo})
  }

  function Put(e: Env, v: Vol, repo: string, ref: Reference, content: Bytes): Vol {
    var v1 := PutBytes(e, v, repo, content);
    match ref
    case ByDigest(_) => v1
    case Tag(t) => v1.(tags := v1.tags[(repo, t) := Hash(e, Sha256, content)])
  }

  function Finalize(e: Env, v: Vol, id: nat, d: Digest): (Vol, Result<()>) {
    if id !in v.uploads then (v, NotFound) else
    var bytes := v.uploads[id];
    var got := Hash(e, d.algorithm, bytes);
    if got != d then (v, Mismatch(d, got))
    else (v.(blobs := v.blobs[d := bytes], uploads := v.uploads - {id}), Ok(()))
  }

  // ---- Listing ----------------------------------------------------------------------------

  predicate Contains(s: string, part: string) {
    exists i :: 0 <= i <= |s| && part <= s[i..]
  }

  /** `walk_repos` does not descend into directories called `tags` or `digests`. */
  predicate Listable(repo: string) {
    !Contains("/" + repo + "/", "/tags/") && !Contains("/" + repo + "/", "/digests/")
  }

  /** `list_tags` takes names ending in `.tmp` for unfinished writes. */
  predicate TmpName(t: string) { |t| >= 4 && t[|t| - 4..] == ".tmp" }

  datatype NameList = Repos | Tags(repo: string)

  datatype DigestList = Manifests(repo: string) | AllBlobs

  function Names(v: Vol, what: NameList): set<string> {
    match what
    case Repos => set r | r in v.dirs && Listable(r)
    case Tags(repo) => set p | p in v.tags && p.0 == repo && !TmpName(p.1) :: p.1
  }

  function Digests(v: Vol, what: DigestList): set<Digest> {
    match what
    case Manifests(repo) => set p | p in v.manifests && p.0 == repo :: p.1
    case AllBlobs => v.blobs.Keys
  }

  lemma NamesMember(v: Vol, repo: string, x: string)
    ensures x in Names(v, Tags(repo)) <==> (repo, x) in v.tags && !TmpName(x)
  {
    if (repo, x) in v.tags { assert (repo, x).1 == x; }
  }

  // ---- Runs of volume operations ----------------------------------------------------------

  datatype Op =
    | BlobWrite(digest: Digest, content: Bytes)
    | BlobDelete(digest: Digest)
    | UploadCreate(id: nat)
    | UploadAppend(id: nat, chunk: Bytes)
    | UploadFinalize(id: nat, digest: Digest)
    | UploadCancel(id: nat)
    | ManifestPut(repo: string, ref: Reference, content: Bytes)
    | ManifestDelete(repo: string, ref: Reference)

  function Apply(e: Env, v: Vol, op: Op): (Vol, Result<()>) {
    match op
    case BlobWrite(d, c) => WriteBlob(e, v, d, c)
    case BlobDelete(d) => (Remove(v, Blob(d)), if Stored(v, Blob(d)) then Ok(()) else NotFound)
    case UploadCreate(id) => (v.(uploads := v.uploads[id := []]), Ok(()))
    case UploadAppend(id, c) =>
      if id !in v.uploads then (v, NotFound) else (v.(uploads := v.uploads[id := v.uploads[id] + c]), Ok(()))
    case UploadFinalize(id, d) => Finalize(e, v, id, d)
    case UploadCancel(id) => (v.(uploads := v.uploads - {id}), if id in v.uploads then Ok(()) else NotFound)
    case ManifestPut(r, ref, c) => (Put(e, v, r, ref, c), Ok(()))
    case ManifestDelete(r, ref) => (Remove(v, KeyOf(r, ref)), if Stored(v, KeyOf(r, ref)) then Ok(()) else NotFound)
  }

  function Run(e: Env, v: Vol, ops: seq<Op>): Vol
    decreases |ops|
  {
    if ops == [] then v else Apply(e, Run(e, v, ops[..|ops| - 1]), ops[|ops| - 1]).0
  }

  /** Everything stored hashes to its key, manifests and tag pointers are SHA-256, and every stored
      name lies in an existing repository directory. */
  ghost predicate ContentAddressed(e: Env, v: Vol) {
    && (forall d :: d in v.blobs ==> Hash(e, d.algorithm, v.blobs[d]) == d)
    && (forall p :: p in v.manifests ==> p.0 in v.dirs && Hash(e, Sha256, v.manifests[p]) == p.1)
    && (forall p :: p in v.tags ==> p.0 in v.dirs && v.tags[p].algorithm == Sha256)
  }

  lemma PutKeepsContentAddressed(e: Env, v: Vol, repo: string, ref: Reference, content: Bytes)
    requires ContentAddressed(e, v)
    ensures ContentAddressed(e, Put(e, v, repo, ref, content))
  {
  }

  lemma RemoveKeepsContentAddressed(e: Env, v: Vol, k: Key)
    requires ContentAddressed(e, v)
    ensures ContentAddressed(e, Remove(v, k))
  {
  }

  lemma ApplyKeepsContentAddressed(e: Env, v: Vol, op: Op)
    requires ContentAddressed(e, v)
    ensures ContentAddressed(e, Apply(e, v, op).0)
  {
    match op
    case BlobWrite(d, c) =>
    case BlobDelete(d) => RemoveKeepsContentAddressed(e, v, Blob(d));
    case UploadCreate(id) =>
    case UploadAppend(id, c) =>
    case UploadFinalize(id, d) =>
    case UploadCancel(id) =>
    case ManifestPut(r, ref, c) => PutKeepsContentAddressed(e, v, r, ref, c);
    case ManifestDelete(r, ref) => RemoveKeepsContentAddressed(e, v, KeyOf(r, ref));
  }

  /** Content addressing is kept by every operation, successful or not, hence by every run. */
  lemma {:induction false} RunKeepsContentAddressed(e: Env, v: Vol, ops: seq<Op>)
    requires ContentAddressed(e, v)
    ensures ContentAddressed(e, Run(e, v, ops))
    decreases |ops|
  {
    if ops != [] {
      RunKeepsContentAddressed(e, v, ops[..|ops| - 1]);
      ApplyKeepsContentAddressed(e, Run(e, v, ops[..|ops| - 1]), ops[|ops| - 1]);
    }
  }

  /** A refused operation changes nothing: a mismatched finalize keeps both the session and the blobs. */
  lemma RefusedChangesNothing(e: Env, v: Vol, op: Op)
    ensures !Apply(e, v, op).1.Ok? ==> Apply(e, v, op).0 == v
    ensures Apply(e, v, op).1.Mismatch? <==>
              || (op.BlobWrite? && Hash(e, op.digest.algorithm, op.content) != op.digest)
              || (op.UploadFinalize? && op.id in v.uploads
                  && Hash(e, op.digest.algorithm, v.uploads[op.id]) != op.digest)
  {
    match op
    case BlobDelete(d) => assert d !in v.blobs ==> v.blobs - {d} == v.blobs;
    case UploadCancel(id) => assert id !in v.uploads ==> v.uploads - {id} == v.uploads;
    case ManifestDelete(r, ref) =>
      match ref {
        case Tag(t) => assert (r, t) !in v.tags ==> v.tags - {(r, t)} == v.tags;
        case ByDigest(d) => assert (r, d) !in v.manifests ==> v.manifests - {(r, d)} == v.manifests;
      }
    case _ =>
  }

  /** The chunks sent to a session since it was last created, in order. */
  function Sent(ops: seq<Op>, id: nat): Bytes
    decreases |ops|
  {
    if ops == [] then [] else
    var before := Sent(ops[..|ops| - 1], id);
    match ops[|ops| - 1]
    case UploadCreate(i) => if i == id then [] else before
    case UploadAppend(i, c) => if i == id then before + c else before
    case _ => before
  }

  /** What one operation does to the bytes of a session. */
  lemma SessionAfter(e: Env, v: Vol, op: Op, id: nat)
    ensures var v' := Apply(e, v, op).0;
            match op
            case UploadCreate(i) => i == id ==> id in v'.uploads && v'.uploads[id] == []
            case UploadAppend(i, c) => i == id && id in v'.uploads ==>
                 id in v.uploads && v'.uploads[id] == v.uploads[id] + c
            case _ => true
    ensures var v' := Apply(e, v, op).0;
            !((op.UploadCreate? || op.UploadAppend?) && op.id == id) && id in v'.uploads ==>
              id in v.uploads && v'.uploads[id] == v.uploads[id]
  {
  }

  lemma {:induction false} SessionHoldsWhatWasSent(e: Env, v: Vol, ops: seq<Op>, id: nat)
    requires id !in v.uploads
    ensures id in Run(e, v, ops).uploads ==> Run(e, v, ops).uploads[id] == Sent(ops, id)
    decreases |ops|
  {
    hide Apply;
    if ops != [] {
      var before, op := ops[..|ops| - 1], ops[|ops| - 1];
      SessionHoldsWhatWasSent(e, v, before, id);
      SessionAfter(e, Run(e, v, before), op, id);
    }
  }

  /** A finalize that succeeds after any run stores exactly the ordered concatenation of the chunks
      sent to the session, under the digest they hash to, and closes the session. */
  lemma FinalizeStoresWhatWasSent(e: Env, v: Vol, ops: seq<Op>, id: nat, d: Digest)
    requires id !in v.uploads
    ensures var done := Apply(e, Run(e, v, ops), UploadFinalize(id, d));
            done.1.Ok? ==> && Hash(e, d.algorithm, Sent(ops, id)) == d
                           && done.0.blobs == Run(e, v, ops).blobs[d := Sent(ops, id)]
                           && id !in done.0.uploads
  {
    SessionHoldsWhatWasSent(e, v, ops, id);
  }

  /** After any run a tag that resolves yields bytes hashing to the digest its pointer names. */
  lemma TagsResolveToTheirDigest(e: Env, v: Vol, ops: seq<Op>, repo: string, tag: string)
    requires ContentAddressed(e, v)
    ensures var v' := Run(e, v, ops);
            Lookup(v', Tagged(repo, tag)).Some? ==>
              (repo, tag) in v'.tags && Hash(e, Sha256, Lookup(v', Tagged(repo, tag)).value) == v'.tags[(repo, tag)]
  {
    RunKeepsContentAddressed(e, v, ops);
  }

  // ---- What stays listed ------------------------------------------------------------------

  ghost predicate EverPut(ops: seq<Op>, repo: string) {
    exists i :: 0 <= i < |ops| && ops[i].ManifestPut? && ops[i].repo == repo
  }

  /** What one operation does to directories and manifests. */
  lemma NamesAfterOp(e: Env, v: Vol, op: Op, repo: string, d: Digest)
    ensures var v' := Apply(e, v, op).0;
            && (repo in v'.dirs <==> repo in v.dirs || (op.ManifestPut? && op.repo == repo))
            && ((repo, d) in v'.manifests <==>
                ((repo, d) in v.manifests && !Deletes(op, repo, d)) || Puts(e, op, repo, d))
  {
    hide Hash;
  }

  lemma {:induction false} DirsAfterRun(e: Env, v: Vol, ops: seq<Op>, repo: string)
    ensures repo in Run(e, v, ops).dirs <==> repo in v.dirs || EverPut(ops, repo)
    decreases |ops|
  {
    hide Apply;
    if ops != [] {
      var before := ops[..|ops| - 1];
      DirsAfterRun(e, v, before, repo);
      NamesAfterOp(e, Run(e, v, before), ops[|ops| - 1], repo, Digest(Sha256, ""));
      assert forall i :: 0 <= i < |before| ==> ops[i] == before[i];
    }
  }

  /** After any run a repository is listed if and only if its name is listable and it was there at the start
      or some manifest was put to it. Deletes never take it off the list. */
  lemma ListedAfterRunIff(e: Env, v: Vol, ops: seq<Op>, repo: string)
    ensures repo in Names(Run(e, v, ops), Repos) <==> Listable(repo) && (repo in v.dirs || EverPut(ops, repo))
  {
    DirsAfterRun(e, v, ops, repo);
  }

  predicate Puts(e: Env, op: Op, repo: string, d: Digest) {
    op.ManifestPut? && op.repo == repo && Hash(e, Sha256, op.content) == d
  }

  predicate Deletes(op: Op, repo: string, d: Digest) { op == ManifestDelete(repo, ByDigest(d)) }

  ghost predicate NotDeletedFrom(ops: seq<Op>, i: nat, repo: string, d: Digest) {
    forall j :: i <= j < |ops| ==> !Deletes(ops[j], repo, d)
  }

  /** After any run a manifest is stored if and only if it was put, or there at the start, and not deleted since. */
  lemma {:induction false} StoredAfterRunIff(e: Env, v: Vol, ops: seq<Op>, repo: string, d: Digest)
    ensures (repo, d) in Run(e, v, ops).manifests <==>
              || ((repo, d) in v.manifests && NotDeletedFrom(ops, 0, repo, d))
              || exists i :: 0 <= i < |ops| && Puts(e, ops[i], repo, d) && NotDeletedFrom(ops, i, repo, d)
    decreases |ops|
  {
    hide Apply, Hash;
    if ops != [] {
      var n, before, op := |ops| - 1, ops[..|ops| - 1], ops[|ops| - 1];
      StoredAfterRunIff(e, v, before, repo, d);
      assert forall i :: 0 <= i < n ==> ops[i] == before[i];
      forall i: nat | i <= n
        ensures NotDeletedFrom(ops, i, repo, d) <==> NotDeletedFrom(before, i, repo, d) && !Deletes(op, repo, d)
      {
        assert NotDeletedFrom(ops, i, repo, d) ==> !Deletes(ops[n], repo, d);
      }
      NamesAfterOp(e, Run(e, v, before), op, repo, d);
    }
  }

  ghost predicate HasManifest(v: Vol, repo: string) { exists d :: (repo, d) in v.manifests }

  /** What the trait documents of `list_repos`: the repositories with at least one manifest. */
  ghost predicate ListsWhatHasManifests(v: Vol) {
    forall repo :: repo in Names(v, Repos) <==> HasManifest(v, repo)
  }

  /** It holds exactly when every listable repository directory still has a manifest and no manifest sits
      under an unlistable name. */
  lemma ListingPromiseIff(e: Env, v: Vol)
    requires ContentAddressed(e, v)
    ensures ListsWhatHasManifests(v) <==>
              && (forall repo :: repo in v.dirs && Listable(repo) ==> HasManifest(v, repo))
              && (forall p :: p in v.manifests ==> Listable(p.0))
  {
    hide Listable, Hash;
    forall p | p in v.manifests ensures HasManifest(v, p.0) { assert (p.0, p.1) in v.manifests; }
    forall repo | HasManifest(v, repo) ensures exists p :: p in v.manifests && p.0 == repo {
      var d :| (repo, d) in v.manifests;
      assert (repo, d).0 == repo;
    }
    hide HasManifest;
    assert forall repo :: repo in Names(v, Repos) <==> repo in v.dirs && Listable(repo);
  }

  /** It fails after one put and one delete: the repository stays listed without a manifest. */
  lemma PutThenDeleteStaysListed(e: Env, repo: string, content: Bytes)
    requires Listable(repo)
    ensures var d := Hash(e, Sha256, content);
            var v := Run(e, EMPTY, [ManifestPut(repo, ByDigest(d), content), ManifestDelete(repo, ByDigest(d))]);
            repo in Names(v, Repos) && v.manifests == map[] && !ListsWhatHasManifests(v)
  {
    hide Listable, Hash;
    var d := Hash(e, Sha256, content);
    var put, del := ManifestPut(repo, ByDigest(d), content), ManifestDelete(repo, ByDigest(d));
    var ops, v := [put, del], Run(e, EMPTY, [put, del]);
    assert ops[..1] == [put] && [put][..0] == [];
    assert Run(e, EMPTY, []) == EMPTY;
    assert Run(e, EMPTY, [put]) == Put(e, EMPTY, repo, ByDigest(d), content);
    assert v.manifests == map[];
    assert repo in Names(v, Repos) && forall x :: (repo, x) !in v.manifests;
  }
}
