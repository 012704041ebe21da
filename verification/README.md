# rspace-registry: a verified model of its storage protocols

This project models the content-addressed storage stack of rspace-registry, an OCI registry, and proves
what its migration, garbage collection, replication, quota, routing and pagination code promises. To check
it with Dafny 4.11: `dafny verify dfyconfig.toml`.

## What is modelled

The layers, each a module that builds on the ones before it:

- **Content, Volumes, Listing.** Digests and their text, the part of a manifest the registry reads, and one
  storage root (`FsStorage`) as a value: blobs, manifests, tags, repository directories, upload sessions,
  with every operation as a function on it and the directory walk that lists repositories. SHA-256/512 and
  JSON parsing are the two fields of `Env`, and every statement holds for every `Env`.
- **Backends, Devices.** Roots live in one world, so backends opened on the same path share their bytes; a
  backend is a root or a `MultiStore` of backends, nested at will, with an identity standing for
  `Arc::ptr_eq`. `Disks` performs the operations by recursive dispatch over devices that may fail at any
  access. Contracts say what a fault-free call does exactly, and what any call leaves alone.
- **Glob, Routing.** The backtracking matcher and the ordered rule list of `RepoRouter`.
- **Walks, Copying, Merging, Migrating, Backfilling.** The manifest walk, the three copy loops shared by
  migration and replication, what a copy means to readers, and the backfill of a class.
- **Collecting, CollectingTheorems, Draining.** Mark and sweep over one backend or a router, repeated
  passes, and the purge-then-collect drain.
- **Protocol, ZeroMiss, MigrationTheorems.** Live migration as a step machine interleaved with client
  pushes: a step is one listing, one read or one write of the migration, or one push, and safety is over
  every run. A read or a listing of a volume of several roots is one step.
- **Limits, Instances.** For each hypothesis what happens outside it, and concrete volumes on which it does.
- **Overlaying, NamedBlobs.** What one write of the backfill shows through the overlay, and blobs over whole runs.
- **Running, Restarting, Restartability, Resuming, ResumedReads.** `migrate::run` end to end with every early exit,
  and stopping and restarting it any number of times: where that ends, exactly when, and what is read then.
- **Replicating, Quotas, QuotaTheorems.** The replication pass; the usage cache that gates writes, and its runs.
- **Paths, Pages.** The `/v2/` path grammar and `n`/`last` pagination, query decoding included.

## The main results

- *Reads never miss* (`ZeroMiss.ReadsNeverMiss`): along every interleaving of the listings, reads and writes
  of a migration, its collapse and its drain with client pushes, whatever manifest or tag reads at one moment
  reads at every later one, manifests with the same bytes. The collapse waits only for what the migration
  itself has collected; that this is enough is proved (`ZeroMiss.WantedGrows`, `WantedIsRead`). Named blobs
  too, from the overlay on (`NamedBlobs.NamedBlobsNeverMiss`), end to end
  (`MigrationTheorems.MigratedRepositoryReadsTheSame`), and across any number of restarts
  (`ReadsNeverMissAcrossRestarts`, `NamedBlobsNeverMissAcrossRestarts`).
- *Backfill through the overlay*: the exact effect of every copy on every read, listing and byte count of the
  overlay (`Overlaying.StoreThroughOverlay`, `StoreKeepsListings`, `StoreKeepsBytesInUse`,
  `TagRewriteInvisibleIff`, `TagRewriteElsewhere`).
- *Restart*: stopped any number of times anywhere in its backfill and run again, a migration ends root by
  root where one run would have (`Resuming.ResumedMigrationEndsTheSame`), and exactly when, over the stops the
  loops can leave (`Resuming.ResumableIff`). Reads agree for destinations of any shape
  (`ResumedReads.ResumedMigrationReadsTheSame`).
- *Drain isolation*: other repositories keep every name (`OtherRepositoriesReadTheSame`), the drained volume
  keeps exactly the blobs its remaining manifests mark, and a blob reads through any backend as before exactly
  when a copy lies off the drained volume or is marked there (`Draining.BlobReadsTheSameIff`, `LeftMarkedIff`).
  So named blobs are kept for backends disjoint from the drained volume or within its roots
  (`OtherBlobsReadTheSame`), and not for all others.
- *Garbage collection*: exact and idempotent on one backend; through a router one backend's copy per pass,
  all gone after as many passes as backends.
- *Replication* converges, removes nothing, and its second pass copies nothing, whatever roots partitions share.
- *Quotas* cap a volume over whole runs exactly when no other identity grows it behind its cache entry
  (`QuotaTheorems.QuotaCapsIff`). Two rules naming one path are two identities, each with its own entry: capped at m
  each they reach 2 * m (`Instances.OnePathFillsTwice`), and k of them never exceed k * m (`SharedCapsAddUp`).
- *Routing, globs, paths* are exact in both directions, and so is the condition under which following the
  links of a *paginated* list returns everything once (`Pages.CrawlVisitsOnceIff`).

## Hypotheses, and why they are there

- *Collision freedom* is stated only of what is stored: one assignment of bytes to digests that every root
  agrees with (`Backends.TruthIsCollisionFreedom`). No claim is made about all byte strings.
- *Class repositories and tags have listable names*, on either volume: no component `tags` or `digests`, no tag ending in
  `.tmp` (`Limits.TmpTagIsLost`; a repository the listing misses, for its name or any other reason, is lost as in
  `Limits.WindowLosesRepository`).
- *No class repository is first created between the listing and the overlay* (`Limits.WindowLosesRepository`).
- *Some rule matches*: an unmatched repository behind the migrated last rule is rerouted without being moved
  (`Limits.StrayIsReroutedNotMoved`).
- *Drain*: the volumes share no root and only repositories the migrated rule wins are purged
  (`DrainThroughDestinationErases`, `Limits.LongerRuleIsDrained`, `Limits.RestartedDrainErases`). The guard of
  crates/rspace-registry-core/src/migrate.rs:101 compares backend identities, so it does not catch a
  destination opened afresh on a root of the old volume, which crates/rspace-registry/src/handlers.rs:835 does.
- *Blobs* are promised only once a manifest names them (`Limits.UnnamedBlobIsLost`).
- *Blobs of other repositories* survive a drain when their backend shares no root with the drained volume, or
  when all its roots are roots of that volume, in particular when it is opened afresh on the same path as
  crates/rspace-registry/src/main.rs:229 does for every rule, and the repository is listable. Outside of that they
  can go: with a partial overlap of roots (`Instances.PartialOverlapLosesABlob`) and from a repository no listing
  shows, such as `a/tags` (`Instances.UnlistedRepositoryLosesItsBlob`).
- *Tags* are promised to stay readable, not to keep the value pushed during the overlay
  (`Overlaying.TagRewriteInvisibleIff` says exactly when they do), nor to keep their value when the
  new volume holds a dangling pointer for them (`StoreThroughOverlay`; `Instances.CopyMovesATag`).
- *Restart*: what the destination holds before the first run is harmless (`Restarting.Harmless`), which
  `Restartability.RestartableIff` and `ResumableIff` show to be exactly what is needed: a tag of the class it
  holds with another digest points to a manifest neither volume stores; a blob named by a manifest it holds is
  unreadable on the old volume, or already there, or a blob of the class; and no listed tag only it has dangles.
  A destination with nothing of the class qualifies. `Instances.RivalSurvives` is a migration that does not.
- *Quotas*: no repository routed to another identity writes to a root of the backend capped, or only with quota 0
  and with nothing to read beyond those roots (`QuotaTheorems.Unshared`, shown exact by `QuotaCapsIff` and
  `CacheNeverLowIff`); an identity is one object; and measurements are fault-free
  (`QuotaTheorems.LowMeasurementBreaksTheCap`): an unreadable blob is counted as empty by
  crates/rspace-registry-core/src/storage.rs:147. crates/rspace-registry/src/main.rs:229 opens every rule's path anew,
  so rules that name one path do not meet the first of these; for them the caps add up.
- *Replication*: unlisted repositories, such as `a/tags`, and tags ending in `.tmp` are not replicated, since it goes by
  the primary's listings.
- *Pagination*: the names at page ends read literally in a query (`Pages.PlusSignRepeatsThePage`).

Where code and documentation disagree the model follows the code:

- crates/rspace-registry-core/src/storage.rs:125 promises repositories with at least one manifest, but
  directories outlive their manifests, so purged repositories stay listed: `Volumes.ListedAfterRunIff` says what
  is listed after any run, `ListingPromiseIff` when the promise holds, `PutThenDeleteStaysListed` how it fails.
- crates/rspace-registry-core/src/repo_router.rs:158 calls replacing a rule the same as `repoint`; with
  duplicate keys they can differ on unmatched repositories: `Routing.UpsertIsRepointIff` says exactly when.
- crates/rspace-registry-core/src/migrate.rs:83 promises that a failed migration is completed by running it again;
  `Resuming.ResumableIff` says exactly when.
- crates/rspace-registry-core/src/quota.rs:3 promises a cap on what a class consumes on its volume; with one path
  under k rules it is k times the cap (`QuotaTheorems.SharedCapsAddUp`).
- crates/rspace-registry-core/src/migrate.rs:106 promises to leave repositories of more specific rules
  alone; the filter compares backends, not rules.

## Model

| member | source | states |
|---|---|---|
| `Content.ReferencedDigests` | crates/rspace-registry-core/src/manifest.rs:68-84 | the list has exactly the config, layer, child and subject digests, one entry per mention |
| `Content.DigestRoundTrip` | crates/rspace-registry-core/src/digest.rs:46-78 | every well-formed digest survives printing and parsing |
| `Content.ParseAcceptsOnlyPrintedForms` | crates/rspace-registry-core/src/digest.rs:48-68 | a text parses to a digest if and only if it is the printed form of that well-formed digest |
| `Content.TagPointerRoundTrip` | crates/rspace-registry-fs/src/lib.rs:260-266 | the pointer `manifest_put` writes for a tag is read back, after trimming, as the same digest |
| `Volumes.ApplyKeepsContentAddressed` | crates/rspace-registry-fs/src/lib.rs:154-298 | every volume operation, refused or not, leaves each blob and manifest under the digest it hashes to and every tag repository listed |
| `Volumes.RunKeepsContentAddressed` | crates/rspace-registry-fs/src/lib.rs:154-298 | content addressing holds after every sequence of volume operations |
| `Volumes.RefusedChangesNothing` | crates/rspace-registry-fs/src/lib.rs:160-166 | a refused operation changes nothing, and a digest mismatch is reported exactly when the bytes do not hash to the digest asked for |
| `Volumes.FinalizeStoresWhatWasSent` | crates/rspace-registry-fs/src/lib.rs:217-243 | after any run a successful finalize stores the ordered concatenation of the chunks sent since the session began, under its hash, and closes the session |
| `Volumes.TagsResolveToTheirDigest` | crates/rspace-registry-fs/src/lib.rs:253-290 | after any run a tag that resolves gives bytes hashing to the digest its pointer names |
| `Volumes.ListedAfterRunIff` | crates/rspace-registry-fs/src/lib.rs:274-298 | after any run a repository is listed if and only if its name is listable and it was there at the start or some manifest was put to it; deletes take none off the list |
| `Volumes.StoredAfterRunIff` | crates/rspace-registry-fs/src/lib.rs:274-298 | after any run a manifest is stored if and only if it was there or put, and not deleted since |
| `Volumes.ListingPromiseIff` | crates/rspace-registry-core/src/storage.rs:125-127 | listing exactly the repositories with a manifest, as documented, holds if and only if every listable repository directory has one and none is under an unlistable name |
| `Volumes.PutThenDeleteStaysListed` | crates/rspace-registry-core/src/storage.rs:125-127 | one put and one delete leave a listed repository without a manifest |
| `Listing.WalkRepos` | crates/rspace-registry-fs/src/lib.rs:399-437 | the directory walk reports exactly the non-empty paths that hold a `tags` or `digests` directory and can be reached without passing through one |
| `Listing.ListedIffNotReserved` | crates/rspace-registry-fs/src/lib.rs:418-422 | a stored repository is listed if and only if no component of its name is `tags` or `digests` |
| `Listing.ListableIff` | crates/rspace-registry-fs/src/lib.rs:418-422 | that condition as one on the slash-separated name, which is the one the other modules use |
| `Backends.RootsOfMulti` | crates/rspace-registry-core/src/multi.rs:87-94 | flattening a composite into its read order neither loses a root nor adds one |
| `Backends.TruthIsCollisionFreedom` | crates/rspace-registry-fs/src/lib.rs:111-122 | the collision hypothesis used throughout holds of a content-addressed world exactly when no two different contents are stored under one digest |
| `Backends.AnyOrderReadsTheSame` | crates/rspace-registry-core/src/multi.rs:100-122 | reads by digest do not depend on the order of the partitions |
| `Backends.GenuineTagRead` | crates/rspace-registry-core/src/multi.rs:232-245 | what a tag resolves to is also readable by the digest it hashes to |
| `Backends.CompositeRefinesLogical` | crates/rspace-registry-core/src/multi.rs:100-122 | a composite, nested or not, reads every key like the one volume merged from its roots with earlier roots winning |
| `Devices.Disks.Get` | crates/rspace-registry-core/src/multi.rs:100-122 | a fault-free read through nested composites is the first hit along the read order, NotFound when there is none |
| `Devices.Disks.BlobExists` | crates/rspace-registry-core/src/multi.rs:129-136 | existence, asked in declared order, agrees with what a read would find |
| `Devices.Disks.ListNames` | crates/rspace-registry-core/src/multi.rs:280-298 | repository and tag listings are the union over all roots |
| `Devices.Disks.ListDigests` | crates/rspace-registry-core/src/multi.rs:300-318 | manifest and blob listings are the union over all roots |
| `Devices.Disks.UsedBytes` | crates/rspace-registry-core/src/storage.rs:144-150 | fault-free, the sum counts every distinct digest once, modulo 2^64 |
| `Devices.Disks.Write` | crates/rspace-registry-core/src/multi.rs:160-170 | blob and upload operations act on the primary root alone, as the plain volume operation |
| `Devices.Disks.UploadStatus` | crates/rspace-registry-core/src/multi.rs:201-203 | the size of a session is that of the primary root |
| `Devices.Disks.ManifestPut` | crates/rspace-registry-fs/src/lib.rs:274-290 | the bytes go under their hash before the tag pointer is written, and a fault leaves at most the bytes |
| `Devices.Disks.Delete` | crates/rspace-registry-core/src/multi.rs:172-189 | a delete is tried on every partition; it answers Ok only when some partition had the key, NotFound only when none has, and fault-free reaches all roots |
| `Devices.DeletedIsUnread` | crates/rspace-registry-core/src/multi.rs:172-189 | after a delete that reached every root nothing is read for the key |
| `Devices.NewMulti` | crates/rspace-registry-core/src/multi.rs:52-77 | construction succeeds if and only if names are distinct and the primary is one of them |
| `Glob.GlobHelper` | crates/rspace-registry-core/src/replicate.rs:281-297 | the backtracking search terminates and decides the recursive matcher from any pair of positions |
| `Glob.GlobMatch` | crates/rspace-registry-core/src/replicate.rs:275-279 | the entry point decides the matcher on the whole pattern and string |
| `Glob.MatchesIsMeaning` | crates/rspace-registry-core/src/replicate.rs:281-297 | matching is equivalent to cutting the string into one piece per pattern character, each piece fitting its character |
| `Glob.ConcatenationSplits` | crates/rspace-registry-core/src/replicate.rs:281-297 | a concatenated pattern matches exactly the strings that split into two matching parts |
| `Glob.PrefixPattern` | crates/rspace-registry-core/src/replicate.rs:281-297 | a wildcard-free text followed by a star matches exactly the strings it is a prefix of |
| `Glob.ClassPattern` | crates/rspace-registry-core/src/replicate.rs:281-297 | `c/*` with wildcard-free c matches exactly the names beginning with `c/` |
| `Routing.RouteIsFirstLongestMatch` | crates/rspace-registry-core/src/repo_router.rs:94-118 | the route is the backend of the first among the longest matching rules, and of the last rule when nothing matches |
| `Routing.RepoRouter.Resolve` | crates/rspace-registry-core/src/repo_router.rs:94-118 | the scan keeping the best rule so far returns that route |
| `Routing.RepoRouter.BackendForPattern` | crates/rspace-registry-core/src/repo_router.rs:131-137 | the backend of the first rule with exactly this key, or none |
| `Routing.RepoRouter.Repoint` | crates/rspace-registry-core/src/repo_router.rs:146-156 | every rule with the key is swapped in place and the answer counts them |
| `Routing.RepoRouter.Upsert` | crates/rspace-registry-core/src/repo_router.rs:162-172 | the first rule with the key is swapped, or one is appended, and the answer says which |
| `Routing.RepoRouter.DistinctBackends` | crates/rspace-registry-core/src/repo_router.rs:177-187 | each backend in use appears exactly once |
| `Routing.UpsertExistingFrame` | crates/rspace-registry-core/src/repo_router.rs:162-172 | swapping a rule reroutes exactly the repositories that rule's first occurrence wins, and the unmatched ones when it is the last rule |
| `Routing.UpsertAppendFrame` | crates/rspace-registry-core/src/repo_router.rs:162-172 | an appended rule captures exactly what it matches with a strictly longer pattern, and everything unmatched before |
| `Routing.UpsertAgreesWithRepoint` | crates/rspace-registry-core/src/repo_router.rs:146-172 | with duplicate keys both updates route every matched repository the same |
| `Routing.UpsertIsRepointIff` | crates/rspace-registry-core/src/repo_router.rs:146-172 | both updates route a repository the same if and only if some rule matches it, or the last rule is not a later duplicate of the key, or leads to that backend already |
| `Routing.UpsertTwice` | crates/rspace-registry-core/src/migrate.rs:131-140 | the collapse replaces the very rule the overlay was put in |
| `Walks.Walk` | crates/rspace-registry-core/src/migrate.rs:242-284 | the walk terminates on every graph and adds only stored manifests every closed set around the start contains, their stored children present, their blobs collected exactly |
| `Walks.WalkIsLeastClosure` | crates/rspace-registry-core/src/migrate.rs:242-284 | walks from nothing end with the least set that contains the starts and the stored children of its members |
| `Walks.WalkReaches` | crates/rspace-registry-core/src/replicate.rs:133-188 | that set as a function of graph and starts, with blobs exactly the config, layer and subject digests named in it |
| `Copying.CopyInvisible` | crates/rspace-registry-core/src/migrate.rs:191-224 | copying what a backend can read changes none of its reads by digest, even when the destination is one of its own roots |
| `Copying.CopyBlobs` | crates/rspace-registry-core/src/migrate.rs:191-205 | exactly the wanted blobs missing at the destination and present at the source are added, counted and measured |
| `Copying.CopyManifests` | crates/rspace-registry-core/src/migrate.rs:207-224 | the wanted manifests missing at the destination are added; an unreadable destination counts as missing unless strict |
| `Copying.CopyTags` | crates/rspace-registry-core/src/replicate.rs:245-262 | every tag whose manifest the source has is pointed to it, after the manifest itself is written |
| `Copying.CopyInto` | crates/rspace-registry-core/src/replicate.rs:190-263 | the three loops together: only wanted content is added at one root, completely when the answer is Ok, and no manifest before every blob, no tag before every manifest |
| `Merging.CopyLosesNothing` | crates/rspace-registry-core/src/migrate.rs:191-236 | no copy, finished or not, loses anything any backend could read |
| `Merging.CopyMerges` | crates/rspace-registry-core/src/migrate.rs:191-236 | after a finished copy the destination reads everything wanted as the merge of destination and source, and copied tags as the source's digest |
| `Merging.NotCopied` | crates/rspace-registry-core/src/migrate.rs:196-200 | what the source cannot read is not made up |
| `Merging.SourceGainsNothing` | crates/rspace-registry-core/src/migrate.rs:162-237 | the source reads by digest as before the copy |
| `Merging.CopyTwiceCopiesNothing` | crates/rspace-registry-core/src/migrate.rs:191-224 | at the destination of a finished copy no blob and no manifest of the copied sets is missing |
| `Merging.BytesCopiedAreGrowth` | crates/rspace-registry-core/src/migrate.rs:201-204 | the bytes counted are exactly the growth of the destination's bytes in use |
| `Migrating.Collect` | crates/rspace-registry-core/src/migrate.rs:168-189 | the collection is everything reachable from the selected tags, with their blobs, and without a selector every stored manifest; it is refused exactly by a selected tag that does not resolve |
| `Migrating.CollectDetached` | crates/rspace-registry-core/src/migrate.rs:179-189 | with the detached manifests added the collection is every stored manifest of the repository |
| `Migrating.WithoutSelector` | crates/rspace-registry-core/src/replicate.rs:85-112 | without a selector what replication wants of a repository is what a migration copies of it |
| `Migrating.CopyRepo` | crates/rspace-registry-core/src/migrate.rs:162-237 | only the destination root grows, by the repository's content; Ok means completely; a dangling tag refuses the copy before any write; the report counts what was added |
| `Backfilling.NextRepoUnchanged` | crates/rspace-registry-core/src/migrate.rs:135-137 | copying other repositories leaves a repository's manifests, blobs and tags on the source as they were |
| `Backfilling.SecondCopyRepoCopiesNothing` | crates/rspace-registry-core/src/migrate.rs:159-161 | a second `copy_repo` collects what the first did and finds no blob and no manifest of it to copy |
| `Backfilling.Backfill` | crates/rspace-registry-core/src/migrate.rs:133-137 | repository after repository amounts to one copy of the class as it stood at the start, complete when Ok; stopped, some repositories are complete and one is copied in the order of its loops; the counts are those of that copy |
| `ZeroMiss.RouteDuring` | crates/rspace-registry-core/src/migrate.rs:117-141 | class repositories follow the migrated rule through overlay and collapse, and nobody else is rerouted except unmatched ones behind the last rule |
| `ZeroMiss.SnapshotComplete` | crates/rspace-registry-core/src/migrate.rs:106-115 | the listing catches every class repository stored on the old volume |
| `ZeroMiss.KeptByOverlay` | crates/rspace-registry-core/src/migrate.rs:117-131 | putting the overlay up hides nothing |
| `ZeroMiss.WantedGrows` | crates/rspace-registry-core/src/migrate.rs:168-189 | what was readable of the class on the old volume when the overlay went up is collected, however the collection interleaves with clients |
| `ZeroMiss.WantedIsRead` | crates/rspace-registry-core/src/migrate.rs:139-141 | when the migration has been through all it collected, the new volume reads everything that was readable of the class when the overlay went up |
| `ZeroMiss.CollectKept` | crates/rspace-registry-core/src/migrate.rs:168-189 | every single listing, tag read and manifest visit of the collection keeps the invariant |
| `ZeroMiss.CopyKept` | crates/rspace-registry-core/src/migrate.rs:191-236 | so does every single look, read and write of the copy loops, wherever clients push in between |
| `ZeroMiss.KeptByCollapse` | crates/rspace-registry-core/src/migrate.rs:139-141 | dropping the old volume, which happens when the loops are through, hides nothing |
| `ZeroMiss.KeptByDrain` | crates/rspace-registry-core/src/migrate.rs:146-153 | deleting class names and blobs on the old volume is invisible when the volumes share no root |
| `ZeroMiss.StepKept` | crates/rspace-registry-core/src/migrate.rs:87-157 | every step of the migration or of a client keeps the invariant and misses no read |
| `ZeroMiss.ReadsNeverMiss` | crates/rspace-registry-core/src/migrate.rs:62-81 | over every run interleaving the migration and its drain with client pushes, between any two moments every readable manifest stays readable with the same bytes and every readable tag stays readable |
| `ZeroMiss.ReadsNeverMissAcrossRestarts` | crates/rspace-registry-core/src/migrate.rs:83-86 | the same from the start of a first attempt to the end of the last, through any number of attempts, each stopped in its backfill and taken up by the next |
| `MigrationTheorems.OverlayServesMerge` | crates/rspace-registry-core/src/migrate.rs:83-86 | while the overlay is up, also after a failed backfill, class reads are the new-first merge of both volumes |
| `MigrationTheorems.BackfillMeetsCollapse` | crates/rspace-registry-core/src/migrate.rs:133-141 | the sequential backfill makes the new volume read everything the collapse waits for |
| `MigrationTheorems.MigratedRepositoryReadsTheSame` | crates/rspace-registry-core/src/migrate.rs:133-153 | after a completed migration, drained or not, tags, manifests and named blobs of a migrated repository read through the router as before |
| `MigrationTheorems.OtherRepositoriesReadTheSame` | crates/rspace-registry-core/src/migrate.rs:87-157 | a repository outside the class keeps its route, and its tags and manifests read through any backend as before the migration and its drain |
| `MigrationTheorems.OtherBlobsReadTheSame` | crates/rspace-registry-core/src/migrate.rs:286-288 | the blobs named by a repository outside the class read as before the drain, when its backend shares no root with the drained volume, and when all its roots are roots of that volume, under whatever identity, and its name is listable |
| `NamedBlobs.NamedBlobsNeverMiss` | crates/rspace-registry-core/src/migrate.rs:117-153 | over every run the blobs class manifests named when the overlay went up stay readable with the same bytes |
| `NamedBlobs.NamedBlobsNeverMissAcrossRestarts` | crates/rspace-registry-core/src/migrate.rs:83-86 | a blob a class manifest names, both served when a first attempt starts, is served with the same bytes when the last one ends, through any number of attempts stopped and taken up again |
| `Overlaying.StoreThroughOverlay` | crates/rspace-registry-core/src/migrate.rs:191-224 | the exact effect of one blob or manifest copy on every read of the overlay: none, except that a tag whose pointer on the new volume dangled at that manifest now reads it |
| `Overlaying.StoreIsInvisibleIff` | crates/rspace-registry-core/src/migrate.rs:191-224 | so a copy is invisible for a key if and only if it does not make such a pointer resolve, or the tag read those bytes already |
| `Overlaying.StoreKeepsListings` | crates/rspace-registry-core/src/migrate.rs:191-224 | one copy changes no listing of the overlay |
| `Overlaying.StoreKeepsBytesInUse` | crates/rspace-registry-core/src/migrate.rs:191-224 | nor its bytes in use |
| `Overlaying.TagRewriteInvisibleIff` | crates/rspace-registry-core/src/migrate.rs:226-235 | a tag rewrite is invisible through the overlay if and only if the new volume does not hold a different value for the tag; otherwise the tag reverts to the old value |
| `Overlaying.TagRewriteElsewhere` | crates/rspace-registry-core/src/migrate.rs:226-235 | on every other key a tag rewrite has exactly the effect of copying its manifest |
| `MigrationTheorems.DrainThroughDestinationErases` | crates/rspace-registry-core/src/migrate.rs:146-153 | a drain through a backend containing the destination erases what was moved, and any other drain leaves it alone |
| `MigrationTheorems.OverlayContainsDestination` | crates/rspace-registry-core/src/migrate.rs:117-131 | the overlay a stopped migration leaves behind contains the destination |
| `Draining.PurgeRepo` | crates/rspace-registry-core/src/migrate.rs:289-303 | fault-free, all listable tags and all manifests of the repository are gone from the backend; under faults nothing else is lost |
| `Draining.Drain` | crates/rspace-registry-core/src/migrate.rs:143-153 | fault-free the purge is complete, the collection that follows exact and its bytes accounted for; under faults only migrated names and unmarked blobs are lost |
| `Draining.OthersKeepTheirNames` | crates/rspace-registry-core/src/migrate.rs:146-149 | a repository not migrated keeps every tag and manifest on every root |
| `Draining.OthersKeepTheirBlobs` | crates/rspace-registry-core/src/migrate.rs:286-288 | a listed repository not migrated keeps every blob its manifests name on the drained backend |
| `Draining.MarkedAfterPurge` | crates/rspace-registry-core/src/migrate.rs:143-153 | the collection after the purge marks exactly what the listed repositories that were not migrated marked before it |
| `Draining.LeftMarkedIff` | crates/rspace-registry-core/src/migrate.rs:143-153 | a digest is marked if and only if a manifest on the drained volume, of a listable repository that stays, is it or references it |
| `Draining.BlobReadsTheSameIff` | crates/rspace-registry-core/src/migrate.rs:286-288 | for every backend and blob: the blob reads as before the drain if and only if it was not readable, or some copy lies off the drained volume or is marked |
| `Draining.BlobIsGoneIff` | crates/rspace-registry-core/src/migrate.rs:286-288 | and is gone if and only if all its copies there lie on the drained volume and nothing on that volume marks it |
| `Draining.ManifestOutlivesItsBlob` | crates/rspace-registry-core/src/migrate.rs:286-288 | then a manifest that stays names a blob that is gone |
| `Draining.NamedIsLeftMarked` | crates/rspace-registry-core/src/migrate.rs:286-288 | what a listable repository that stays names on the drained volume is marked, through whatever backend it is read |
| `Draining.DrainExists` | crates/rspace-registry-core/src/migrate.rs:143-153 | the outcomes these statements speak of exist for every volume |
| `Draining.MigratedAreGone` | crates/rspace-registry-core/src/migrate.rs:146-149 | the drained volume serves no name of a migrated repository |
| `Draining.OnlyMarkedBlobsRemain` | crates/rspace-registry-core/src/migrate.rs:150-152 | the drained volume holds exactly the blobs it held that its remaining manifests mark |
| `Draining.MigratedReadsAfterDrain` | crates/rspace-registry-core/src/migrate.rs:146-153 | a migrated name still reads through a backend if and only if one of its roots outside the drained volume has it |
| `Running.Select` | crates/rspace-registry-core/src/migrate.rs:106-115 | the repositories listed on the old backend that match and route to that very backend |
| `Running.MakeOverlay` | crates/rspace-registry-core/src/migrate.rs:117-130 | the overlay is the destination first with the old backend as fall-back |
| `Running.Run` | crates/rspace-registry-core/src/migrate.rs:87-157 | each way the migration can end: refused, nothing to do, left on the overlay with a partial copy, collapsed with a complete one, drained; with the rules, the volumes and the report of that end |
| `Restarting.CompleteCopyIsExact` | crates/rspace-registry-core/src/migrate.rs:133-137 | a complete class copy onto one root adds exactly the readable named blobs, all stored manifests and all listed tags of the class |
| `Restarting.RestartSeesTheSameClass` | crates/rspace-registry-core/src/migrate.rs:83-86 | wherever the copying stands, a restart sees through the overlay the manifests, named blobs and tags that the destination and the old volume made up at the start, and is not refused |
| `Restarting.RestartReachesTheSameVolume` | crates/rspace-registry-core/src/migrate.rs:83-86 | stopped any number of times, each time anywhere, and run again through the overlays left behind, the backfill ends in the volumes one uninterrupted run reaches, when the destination held nothing harmful |
| `Restartability.RestartableIff` | crates/rspace-registry-core/src/migrate.rs:83-86 | for every order of the backfill and every stop its loops can leave, inside any repository: the restart is not refused and ends in the uninterrupted volume, if and only if there is nothing to copy, or no rival tag of the destination is stored, no manifest only the destination has names a further readable blob, and no listed tag only the destination has dangles |
| `Restartability.StopInsideIsStop` | crates/rspace-registry-core/src/migrate.rs:135-137 | such a stop, some repositories complete and one copied in the order of its loops, is a partial copy of the class |
| `Restartability.StopAtRival` | crates/rspace-registry-core/src/migrate.rs:207-235 | in the repository of a stored rival tag the run can stop with its manifests written and the rival standing, whatever was copied before |
| `Restartability.ConflictSurvivesRestart` | crates/rspace-registry-core/src/migrate.rs:226-235 | a stored rival tag not yet rewritten, whatever else was, survives the restart and not the uninterrupted run |
| `Restartability.ExtraManifestCopiesMore` | crates/rspace-registry-core/src/migrate.rs:191-205 | a manifest only the destination has makes the restart copy a blob the uninterrupted run does not |
| `Restartability.DanglingExtraRefusesRestart` | crates/rspace-registry-core/src/migrate.rs:174-174 | a listed tag that dangles on the destination alone refuses the restart |
| `Restarting.FreshDestinationIsHarmless` | crates/rspace-registry-core/src/migrate.rs:83-86 | a destination with nothing of the class meets the condition |
| `Resuming.SelectedByRestart` | crates/rspace-registry-core/src/migrate.rs:96-115 | a restart selects exactly the repositories the migrated rule wins that are listed on either volume |
| `Resuming.SelectionStays` | crates/rspace-registry-core/src/migrate.rs:106-115 | and that selection is the same wherever the copying stands |
| `Resuming.ResumedMigrationEndsTheSame` | crates/rspace-registry-core/src/migrate.rs:83-86 | a migration stopped any number of times and run again without drain, on whatever its listing then selects, leaves every root as one uninterrupted run |
| `Resuming.ResumableIff` | crates/rspace-registry-core/src/migrate.rs:83-86 | the same of plans and listings: after every stop the loops can leave the second migration is not refused and leaves every root as one run would, if and only if nothing was selected or the destination is harmless in that sense |
| `Resuming.RivalEndsTwoWays` | crates/rspace-registry-core/src/migrate.rs:226-235 | for a stored rival tag both ends occur: its own value after a stop and a restart, the old volume's value after one run |
| `ResumedReads.ResumedMigrationReadsTheSame` | crates/rspace-registry-core/src/migrate.rs:83-86 | onto a destination of any shape, whatever other rules share the old backend: after any number of stops every class manifest, named blob and listed tag reads on the destination as the old volume read it at the start and as after one run, provided the destination pointed the tag nowhere else |
| `Limits.WindowLosesRepository` | crates/rspace-registry-core/src/migrate.rs:109-131 | a manifest of a class repository the listing missed is gone after the collapse, in every run in which nobody pushes it again, whatever else was selected |
| `Limits.UnnamedBlobIsLost` | crates/rspace-registry-core/src/migrate.rs:274-282 | a blob no manifest names is gone after the collapse, in every run in which it is not named or pushed again, whatever else was migrated |
| `Instances.WindowRun` | crates/rspace-registry-core/src/migrate.rs:109-131 | a run that does so from empty volumes: listing, push, overlay, collapse |
| `Instances.UnnamedBlobRun` | crates/rspace-registry-core/src/migrate.rs:274-282 | and one for the unnamed blob: push, listing, overlay, collapse |
| `Limits.TmpTagIsLost` | crates/rspace-registry-fs/src/lib.rs:326-328 | a tag named like a temporary file is never copied and is gone after the collapse |
| `Limits.StrayIsReroutedNotMoved` | crates/rspace-registry-core/src/repo_router.rs:111-117 | an unmatched repository behind the last rule is rerouted by the collapse but never copied |
| `Limits.LongerRuleIsDrained` | crates/rspace-registry-core/src/migrate.rs:109-114 | a repository won by a longer rule on the same backend is selected, not rerouted, and loses every name to the drain |
| `Limits.LongerRuleExample` | crates/rspace-registry-core/src/migrate.rs:109-114 | two rules sharing a backend suffice for that |
| `Limits.RestartedDrainErases` | crates/rspace-registry-core/src/migrate.rs:146-153 | a drain after a restart erases the migrated names from both volumes |
| `Instances.PartialOverlapLosesABlob` | crates/rspace-registry-core/src/migrate.rs:286-288 | a drain deletes a blob on a shared root whose manifest lies on the other root of its backend |
| `Instances.UnlistedRepositoryLosesItsBlob` | crates/rspace-registry-fs/src/lib.rs:418-422 | a drain deletes the blob a manifest of `a/tags` names |
| `Instances.PointingArises` | crates/rspace-registry-fs/src/lib.rs:274-298 | a tag push and a delete by digest leave a dangling pointer on a volume |
| `Instances.CopyMovesATag` | crates/rspace-registry-core/src/migrate.rs:207-224 | copying the manifest such a pointer names makes the overlay's tag jump from the old volume's value to it |
| `Instances.RivalSurvives` | crates/rspace-registry-core/src/migrate.rs:226-235 | two volumes with two stored values for one tag: one run leaves the old one, a stop and a restart the new one |
| `Instances.OnePathFillsTwice` | crates/rspace-registry/src/main.rs:229-251 | two rules naming one path, every repository with quota m: a run from nothing takes the path to 2 * m, for every 0 < m < 2^64-1 |
| `Collecting.MarkRepo` | crates/rspace-registry-core/src/gc.rs:40-60 | a repository marks its stored manifests and everything they reference |
| `Collecting.ListStoreRepos` | crates/rspace-registry-core/src/repo_router.rs:282-290 | a router lists the union of its backends' repositories |
| `Collecting.ListStoreBlobs` | crates/rspace-registry-core/src/repo_router.rs:300-308 | a router lists the union of its backends' blobs |
| `Collecting.LocateOwner` | crates/rspace-registry-core/src/gc.rs:90-101 | fault-free the owner found is a listed repository whose backend holds the blob, or the empty name when there is none |
| `Collecting.Sweep` | crates/rspace-registry-core/src/gc.rs:63-81 | each unmarked listed digest loses its copies on exactly one owner and on no other root; marked ones lose none; on one backend the blobs and bytes counted are those freed |
| `Collecting.Run` | crates/rspace-registry-core/src/gc.rs:33-84 | under any faults only unmarked blobs go; fault-free the pass is exact and, on one backend, bytes before equal bytes after plus those reported deleted; every figure of the report is given |
| `CollectingTheorems.MarkedStable` | crates/rspace-registry-core/src/gc.rs:40-60 | sweeping does not change what is marked |
| `CollectingTheorems.PlainGcIsExact` | crates/rspace-registry-core/src/gc.rs:33-84 | on one backend every root keeps exactly its marked blobs, and its manifests, tags and uploads |
| `CollectingTheorems.PlainGcTwiceDeletesNothing` | crates/rspace-registry-core/src/gc.rs:33-84 | a second run deletes nothing |
| `CollectingTheorems.PassTakesOneCopy` | crates/rspace-registry-core/src/gc.rs:63-101 | through a router a pass takes an unmarked digest from exactly one of the backends holding it |
| `CollectingTheorems.RepeatedPasses` | crates/rspace-registry-core/src/gc.rs:63-101 | marked digests survive any number of passes, of an unmarked one each pass removes one backend's copy until none is left |
| `CollectingTheorems.EnoughPassesSweepEverything` | crates/rspace-registry-core/src/gc.rs:63-101 | as many passes as there are distinct backends leave no unmarked digest on any listed repository's backend |
| `Replicating.Gather` | crates/rspace-registry-core/src/replicate.rs:46-113 | what is wanted is the closure of the selected tags of every listed repository; a selected dangling tag refuses the pass |
| `Replicating.Run` | crates/rspace-registry-core/src/replicate.rs:39-131 | a pass adds only wanted content, completely when Ok, nothing when refused, and counts no blob and no manifest when every secondary already reads everything wanted |
| `Replicating.ReplicationRemovesNothing` | crates/rspace-registry-core/src/replicate.rs:3-5 | nothing any backend could read is lost |
| `Replicating.ReplicationConverges` | crates/rspace-registry-core/src/replicate.rs:115-131 | afterwards every secondary reads every wanted tag, manifest and blob exactly as the primary did |
| `Replicating.UnfilteredReplicationConverges` | crates/rspace-registry-core/src/replicate.rs:3-5 | without a selector that is every manifest and listed tag of every listed repository and every blob they name that the primary has |
| `Replicating.WantedUndisturbed` | crates/rspace-registry-core/src/replicate.rs:39-131 | a pass does not change what the next one wants, even when partitions share roots |
| `Replicating.SecondPassCopiesNothing` | crates/rspace-registry-core/src/replicate.rs:3-5 | after a completed pass nothing is left to copy |
| `Replicating.SelectorAddsTheClosure` | crates/rspace-registry-core/src/replicate.rs:7-12 | a secondary, of one root or many, reads and lists exactly what it did and the closure of the selected tags: blobs, manifests and tags |
| `Quotas.MatchingIsLastLongest` | crates/rspace-registry-core/src/quota.rs:80-86 | the quota of a repository is the last among the longest that match |
| `Quotas.QuotaStorage.UsageOf` | crates/rspace-registry-core/src/quota.rs:88-107 | the cached value while fresh, else a new measurement which is cached |
| `QuotaTheorems.HereNotLow` | crates/rspace-registry-core/src/quota.rs:113-118 | a gated write keeps the cache entry of its backend at or above the bytes in use |
| `Quotas.QuotaStorage.Enforce` | crates/rspace-registry-core/src/quota.rs:122-135 | a write is refused exactly when usage plus incoming bytes, saturating, exceed the limit |
| `Quotas.QuotaStorage.BlobWrite` | crates/rspace-registry-core/src/quota.rs:163-179 | a gated blob write: checked when new, performed, accounted for; under device faults still the plain write or none, decided by the entry of its own identity, no other entry touched |
| `Quotas.QuotaStorage.UploadFinalize` | crates/rspace-registry-core/src/quota.rs:181-205 | a gated finalize, with the size of the session as incoming bytes, under device faults as for a write |
| `Quotas.QuotaStorage.BlobDelete` | crates/rspace-registry-core/src/quota.rs:218-220 | a delete passes through, adds no blob and leaves the cache alone |
| `Quotas.GainCounts` | crates/rspace-registry-core/src/quota.rs:169-177 | a written blob adds its bytes to the bytes in use exactly when it was not readable before |
| `QuotaTheorems.CacheNeverLow` | crates/rspace-registry-core/src/quota.rs:16-25 | over every run of gated writes, finalizes, deletes, expiries and measurements the cache never understates a backend below 2^64 bytes that nobody grows behind its entry |
| `QuotaTheorems.CacheNeverLowIff` | crates/rspace-registry-core/src/quota.rs:88-118 | over all runs of a new decorator the cache never understates a backend if and only if no repository routed to another identity can write something new to one of its roots, or nothing makes an entry for it |
| `QuotaTheorems.QuotaCaps` | crates/rspace-registry-core/src/quota.rs:1-8 | when every repository on a backend has a quota of at most M < 2^64-1 and nobody grows it behind its entry, no run takes its bytes in use above M |
| `QuotaTheorems.QuotaCapsIff` | crates/rspace-registry-core/src/quota.rs:1-8 | the largest quota of a backend caps it in every run if and only if no repository routed to another identity writes to its roots, unless with quota 0 and nowhere else to read from |
| `QuotaTheorems.FilledTwice` | crates/rspace-registry-core/src/quota.rs:88-118 | for every hash function, from empty volumes: one identity writes n bytes, a second one with the same root then takes any l bytes up to its quota on its stale entry, and the volume ends at n + l |
| `QuotaTheorems.PushedAgain` | crates/rspace-registry-core/src/quota.rs:169-175 | a blob read from another root and pushed again grows a shared root without any quota being asked |
| `QuotaTheorems.SharedCapsAddUp` | crates/rspace-registry-core/src/quota.rs:88-135 | k identities over one set of roots never take it above the sum of their caps, k * m when each is capped at m |
| `QuotaTheorems.LargestQuotaRefusesNothing` | crates/rspace-registry-core/src/quota.rs:128-133 | a limit of 2^64-1 never refuses |
| `QuotaTheorems.SharedRootGrowsUnseen` | crates/rspace-registry-core/src/quota.rs:88-118 | the step behind it: a backend sharing the root written grows while its cache entry stays |
| `QuotaTheorems.LowMeasurementBreaksTheCap` | crates/rspace-registry-core/src/quota.rs:122-135 | an entry below the bytes in use lets a new blob in that takes the volume above its limit |
| `QuotaTheorems.OnlyLowEntriesLetTooMuchIn` | crates/rspace-registry-core/src/quota.rs:122-135 | an entry that does not understate the volume never does |
| `Paths.TwoSuffixIsSplit` | crates/rspace-registry/src/router.rs:426-435 | splitting at the last marker finds exactly the repository and final segment the text is made of |
| `Paths.WrittenOnce` | crates/rspace-registry/src/router.rs:294-391 | no path is a way to write two endpoints |
| `Paths.DispatchIsExact` | crates/rspace-registry/src/router.rs:196-391 | a path reaches an endpoint if and only if it is one of the ways to write it, for every non-empty repository and final segment |
| `Paths.LocationsComeBack` | crates/rspace-registry/src/handlers.rs:409-541 | the Location paths printed for blobs, manifests and upload sessions dispatch back to them and the digest reads back |
| `Paths.UploadsIsNoBlob` | crates/rspace-registry/src/router.rs:319-335 | a blob path with final segment `uploads`, with or without a slash, is an upload start |
| `Paths.ReferenceIsExact` | crates/rspace-registry/src/handlers.rs:60-66 | a reference is taken for a digest exactly when it is the printed form of a well-formed one |
| `Pages.Serve` | crates/rspace-registry/src/handlers.rs:96-121 | filtering and truncating the list gives the entries after `last`, at most n, and a link exactly when a non-empty page was cut short |
| `Pages.TagsList` | crates/rspace-registry/src/handlers.rs:136-176 | not found exactly when there are no tags and the repository is not listed, otherwise the page |
| `Pages.DecodeLoop` | crates/rspace-registry/src/router.rs:461-489 | the scan over the buffer computes the decoding |
| `Pages.PairsLoop` | crates/rspace-registry/src/router.rs:449-459 | the loop over the pieces computes the pairs of a query |
| `Pages.LinkComesBackIff` | crates/rspace-registry/src/handlers.rs:116-120 | a next link asks for the page it was printed for if and only if its last name has no plus sign, ampersand or percent escape |
| `Pages.PageCountIsCeiling` | crates/rspace-registry/src/handlers.rs:105-111 | the number of pages is max(1, ceil(len/n)) |
| `Pages.AfterIsRestIff` | crates/rspace-registry/src/handlers.rs:96-104 | a `last` resumes exactly after an entry if and only if it sorts at or after it and before the next |
| `Pages.CrawlVisitsOnceIff` | crates/rspace-registry/src/handlers.rs:96-133 | following links over an unchanging strictly sorted list returns every entry once, in order, in max(1, ceil(len/n)) pages, all full but the last, if and only if every link printed at a page end asks for the page after it |
| `Pages.CrawlVisitsEverythingOnce` | crates/rspace-registry/src/handlers.rs:96-133 | which is so when the names at page ends have no plus sign, ampersand or percent escape |
| `Pages.PlusSignRepeatsThePage` | crates/rspace-registry/src/handlers.rs:164-175 | a tag `a+b` at the end of a page makes the same page come back for ever |
| `Pages.ZeroShowsNothing` | crates/rspace-registry/src/handlers.rs:105-115 | with n = 0 the page is empty and there is no link |

## Left out

- Client deletes during a migration, and two migrations of one class at once: the zero-miss claim is about pushes.
- Restartability.RestartableIff: the destination is a single root, as crates/rspace-registry/src/handlers.rs:835 and
  crates/rspace-registry/src/main.rs:466 always make it. With several roots even two uninterrupted runs can leave different
  volumes: a failed existence check copies a manifest that another partition has. What is read then is
  `ResumedReads.ResumedMigrationReadsTheSame`.
- Resuming.ResumableIff: the same, and repositories a longer rule wins on the same backend are excluded, since a
  restart no longer selects them (`Limits.LongerRuleIsDrained`).
- Client operations split across a routing change: each client operation is one step. An upload session
  opened before the overlay is left behind on the old volume, as the source documents.
- Filesystem effects: temporary-file names, fsync, rename across devices. A tag file is its digest, justified
  by `Content.TagPointerRoundTrip`; a pointer file damaged by hand is not modelled.
- Repository directories nested inside reserved ones: a repository `a/tags/b` also makes the walk report its
  ancestor `a`. `Listing.WalkRepos` shows it; `Volumes.Names` does not add the ancestor.
- Iteration order: listings are sets and loops pick any element next, which covers the sorted order of the source.
- The two copies of the manifest walk and of the copy loops (migrate.rs and replicate.rs) are one here, with a
  flag for the one difference; replication collects per repository instead of keying its sets by repository.
- 64-bit report counters are unbounded numbers, and durations are dropped; only `used_bytes` and the quota
  cache have their width.
- Tokio loops and intervals, locks, and the clock: expiry of a cache entry is a free choice.
- Concurrent quota checks, which the source documents as approximate, and quotas across a routing change.
- Quotas.QuotaStorage.BlobWrite: under a device fault the value measured is left open, because a failed size query
  counts as zero; what is written and which entry decides is stated all the same.
- Quotas.QuotaStorage.UploadFinalize: the same; a session that cannot be measured counts as empty.
- Pages.LinkComesBackIff: names are visible ASCII; decoding of escapes above 127 and header-value refusal are not modelled.
- Paths.DispatchIsExact: methods, queries and the administrative paths are not modelled, and repository names
  are not validated first, since it holds for every non-empty name.
- Kubernetes and htpasswd authentication, HTTP headers and bodies, job records, command-line handling: no deep property.
