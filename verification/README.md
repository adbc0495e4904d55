# A model of the update platform

This project models the publishing side, the ingestion pipeline and the client of a TUF-based update
platform, and proves what they promise together. `dafny verify dfyconfig.toml` checks all of it.

The argument has four parts.

1. **Publication and the client that reads it.** `Publisher` gives each repository operation as the list
   of states it passes through, one per file written, so a crash can leave the disk of any of them;
   `Repository` is the same code as a class that writes one file at a time, proved to pass through exactly
   those states. `PublisherSafety` and `PublisherRuns` prove what every write of every run keeps,
   crashes, restarts and survived errors included. `Keyrings` separates the keyring (every signing key
   there is) from the store a process opens: the signing worker has the online store alone, a ceremony
   both. `Publication`, `Releases` and `Offers` add what one keyring guarantees on top, whichever stores
   the processes of a run hold: publishing always succeeds again, and a client is offered exactly the
   release its channel points at, for as long as nobody changes that release or channel. `StaleWriters`
   and `TwoWriters` give up the single writer and say exactly when that does harm. `UpdateCheck`
   is the client, whose five fetches may each see a later disk of the run; `SuccessiveChecks` is what two
   checks in a row may say; `Verifier` and `Patterns` are
   the vendored TUF verifier it relies on; `Signer` is the worker that publishes, cut anywhere and rerun.
2. **The A/B installer** (`Installer`), over a filesystem where writing a file and removing a directory
   tree can be interrupted half-way and only renames are atomic.
3. **The pipeline**: `Registry` (every function of the store as one transaction), `Pipeline` (operators,
   any number of workers and the ceremony as interleaved steps, with stale requeues, late finishes and
   crashes), `PipelineSafety`, `Vouching` and `Skips` (what every interleaving keeps), `Workers` (the
   worker loops run without interruption), `Stepwise` (the steps of the one, run back to back, are the
   loops of the other) and `Lifecycle` (one application from registration to its clients).
4. **The checks in between**: `Provenance.dfy` (DSSE encoding, envelope and statement), `Gates` (archives
   and content gates), `Policy` (quarantine and the promotion decision), `Forge` (the download loop and
   version tags), `Rollout`, `Naming`.

## What does not hold as documented

Each of these is a statement proved for all inputs, with the exact condition under which the documented
behaviour does hold.

- **Only the first application ever delegated can be updated.** The vendored crate's delegation walk
  returns at the first delegation that does not cover the path, where section 5.6.7 of the TUF
  specification (1.0.31) moves on to the next. `Verifier.LookupMeetsSpec` gives the condition. For every
  later application `UpdateCheck.run` answers "nothing to offer" (`Offers.OfferLasts` with
  `Offers.AnswerMeetsPromise`, which also cover the two size limits: versions of 64 bytes or more do not
  fit the C ABI's buffer, and a pointer document over 64 KiB is refused). `Offers.SecondAppIsNeverOffered`
  tells the whole story from an empty disk.
- **The verifier takes a lower snapshot version** when a newer timestamp names one
  (`Verifier.SnapshotFallsIff`): it drops the snapshot it holds instead of comparing.
- **Successive checks may fall back**: every check starts again from the shipped root, so an older view is
  taken where a client that kept its trust would refuse it (`UpdateCheck.SecondCheckFallsBackIff`). A mirror
  that lags behind a channel's move is enough (`SuccessiveChecks.LaggingMirrorFallsBack`).
- **`publish` on a repository without targets writes a snapshot that names a file nobody wrote**
  (`PublisherLimits.PublishNeedsTargets`).
- **Serialising writers is not enough.** A process whose scan is out of date is harmless exactly when
  nothing it would have written over the disk it scanned clashes with what has been published since, and
  its timestamp is not behind (`StaleWriters.StaleRunHarmlessIff`, for every operation on an initialised
  repository). Of two processes that scanned the same repository, the second is harmless exactly when it
  lists the very same thing as the first (`TwoWriters.TakingTurnsIff`); a signer that keeps its scan across
  a ceremony takes the new application's delegation out of what clients see
  (`TwoWriters.CeremonyIsUndone`).
- **A publish for an application whose key is offline is refused only after its payload is stored**
  (`Signer.PublishesExactly`): nothing lists it, and a rerun stores the same bytes under the same name.
- **The installer's "any interruption leaves a usable install" needs hypotheses**: a commit must spare
  the slots in use, and an activation must choose a complete slot. Both are exact
  (`Installer.CommitIsSafeIff`, `Installer.ActivateIsSafeIff`), and a cut `prune` leaves directories that
  break the second (`Installer.PruneLeavesHusks`).
- **"Confirmed" does not mean "started once"**: activating the active version again confirms it
  (`Installer.WhoConfirms`), and two updates in a row can fall back to a version that never ran
  (`Installer.UpdatingTwiceFallsBackToUnproven`). The version an activation replaces was confirmed while it
  was active exactly when its recorded health says so at that moment (`Installer.FallbackWasConfirmedIff`).
- **`mark_delegated` refuses a source that never validated, except one**: a GitLab source that an operator
  paused (`RegistrySafety.ActivationSkipsValidation`; `RegistrySafety.DraftCanBePaused` reaches it). And
  `set_status` itself accepts `pending_delegation` for an unvalidated source
  (`RegistrySafety.PendingStaysValidatedIff`); no service asks for that.
- **A forge version with build metadata can never be published** (`Forge.ForgeVersionIsSegment`).
- **As wired, ingestion promotes only when the deployment names all three content gates as skipped**
  (`Gates.WiredGatesNeedEverySkip`): no scanner, publisher check or SBOM is ever supplied. One unknown name
  beside them and it promotes nothing (`PipelineSafety.PromotedMeansCleared`).
- **A failed poll does not end a run of skips**: `last_poll` reads only polls filed as done. The recorded
  count is that of skips since a poll last ran exactly when none failed after a skip it still counts
  (`Skips.CountsSinceRanIff`); `Skips.SkipsAcrossFailure` is an input where they differ.
- **A `*` in a delegation pattern does not match a segment with a `*` of its own**
  (`Patterns.StarInTextIsLiteral`); without one the matching loop is exact (`Patterns.GlobMeans`). A legal
  target path never has one; a pattern of a nested delegation, which is held against the outer patterns in the
  same way (`Patterns.NestedCovers`), may.
- **The vendored `TargetPath` refuses no reserved device name**: the list is in capitals and what is looked
  up is lower-cased (`Patterns.ReservedNamesNeverMatch`).

## Assumptions

- SHA-256 is ideal: a digest determines its preimage. Signatures are an abstract threshold predicate.
  Nothing has expired.
- python-tuf's `do_snapshot` and `do_timestamp` are taken at their contract: a role is rewritten when it is
  absent, not validly signed, or behind; left alone otherwise; a fall in version is refused. Its fresh
  documents name version 1 of what they point at. Its delegations keep insertion order.
- One writer in `PublisherRuns`, `Publication`, `Releases`, `Offers` and `Signer`: at any time one
  repository object writes, and a restart rescans. `StaleWriters`, `TwoWriters`, `Vouching` and the pipeline
  do not assume it. The temporary file of an atomic write is not visible to readers or to the scan.
- A store holds all the keys of a role or none: its entries carry one role each.
- Documents carry no expiry date, which `close` stamps from the clock: "that very document" and "the very
  same thing" in `StaleWriters` and `TwoWriters` mean the same version, signers and body, whatever the date.
  Two files written at different times differ in that field.
- `open` on a version whose file is missing gives a fresh document; the invariant proves that no run gets there.
- Regular expressions anchored with `^` and `$` are read as whole-string matches.
- JSON, base64, PEM loading, archive readers, forge answers, scanner verdicts and Sigstore are parameters;
  theorems hold for every choice of them. JSON that is not text raises an error of another kind than
  malformed JSON, and that error escapes `ingest`. `Provenance.SignatureFixesMessage` and
  `Provenance.SignatureFixesStatement` alone ask something of signatures: under one key, one signature
  verifies one message.
- Byte strings in `Provenance.dfy` and `Policy` are strings of characters below 256; elsewhere a byte
  string is its length, what a JSON parser reads in it as a channel pointer, and an opaque rest. The two
  are joined in `Pipeline` by a parameter.
- Integers are unbounded except the launch counter, which saturates at 2^32 - 1.

## Model

| member | source | states |
|---|---|---|
| Naming.PathsMeet | packages/dist-core/src/dist_core/naming.py:26-56 | two release keys render alike if and only if they differ at most in how `platform-arch` splits |
| Naming.PlatformSplitIsAmbiguous | packages/dist-core/src/dist_core/naming.py:47-56 | two different valid keys that do share a path |
| Naming.PointersMeet | packages/dist-core/src/dist_core/naming.py:109-118 | two channels share a pointer if and only if app, channel and `platform-arch` agree |
| Naming.ReleaseIsNeverPointer | packages/dist-core/src/dist_core/naming.py:26-118 | no release path is a pointer path |
| Naming.CoversOwnReleases | packages/dist-core/src/dist_core/naming.py:120-129 | a channel covers exactly the releases of its own prefix |
| Naming.ParseAccepts | client/dist-core-rs/src/lib.rs:56-70 | `TargetPath::parse` accepts exactly five segments, none empty, `.` or `..`, with no backslash, colon or NUL anywhere, and returns the path unchanged |
| Naming.RenderedPathsParse | client/dist-core-rs/src/lib.rs:56-70 | every rendered release or pointer path passes the client's check |
| Naming.StoredNamesDiffer | bindings/python/src/dist_client/update.py:79-82 | the stored name determines both path and digest |
| Naming.StoredBeside | bindings/python/src/dist_client/update.py:79-82 | the digest goes in front of the file name, in the path's own directory |
| Naming.ScanReadsNames | packages/dist-core/src/dist_core/repository.py:89-97 | scanning reads back the version and role a file name was written with |
| Text.LowerMeans | packages/dist-ingest/src/dist_ingest/provenance.py:284-291 | lower-casing forgets the case of ASCII letters and nothing else |
| Rollout.ImplementationsAgree | client/dist-core-rs/src/rollout.rs:21-42 | Rust and Python select alike on every hash, install, app and percentage |
| Rollout.SelectsByLeadingBytes | packages/dist-core/src/dist_core/naming.py:226-243 | one formula for every percentage, 0 and 100 included: the leading four bytes of the hash of install and app, most significant first, modulo 100, are below it; outside 0 to 100 both refuse |
| Rollout.SelectionIsMonotone | packages/dist-core/src/dist_core/naming.py:226-243 | raising the percentage never drops an install |
| Rollout.OnePrefixEach | packages/dist-core/src/dist_core/naming.py:242-243 | 32-bit numbers and four-byte prefixes correspond one to one |
| Rollout.SliceSize | packages/dist-core/src/dist_core/naming.py:242-243 | how many of the first n prefixes a percentage selects |
| Rollout.ExactSlice | packages/dist-core/src/dist_core/naming.py:226-243 | of the 2^32 prefixes a hash can begin with, the server and the client each select exactly 42949672p + min(p, 96), for every p from 0 to 100: none at 0, all at 100, within 4 of p percent between |
| Patterns.LiteralRun | client/vendor/tuf/src/metadata.rs:115-150 | a pattern without wildcards matches only itself |
| Patterns.GlobMeans | client/vendor/tuf/src/metadata.rs:115-150 | the matching loop, which only ever goes back to the last `*`, accepts exactly what the pattern matches, for every text without a `*` of its own |
| Patterns.StarInTextIsLiteral | client/vendor/tuf/src/metadata.rs:115-150 | with one it need not: `*` does not match `*a` |
| Patterns.Glob | client/vendor/tuf/src/metadata.rs:115-150 | the loop itself, against both |
| Patterns.PatternMeans | client/vendor/tuf/src/metadata.rs:1594-1615 | a pattern covers itself, what is below it if it ends in a slash, and what matches it segment by segment; nothing else |
| Patterns.NestedCovers | client/vendor/tuf/src/metadata.rs:1657-1680 | a delegation inside a delegation covers what its own patterns do, of those the outer one covers |
| Patterns.PatternCovers | packages/dist-core/src/dist_core/naming.py:59-80 | an app's pattern covers exactly the five-segment paths under its id |
| Patterns.PatternsDisjoint | client/vendor/tuf/src/metadata.rs:1594-1615 | patterns of different applications share no legal path |
| Patterns.RenderedPathsCovered | client/vendor/tuf/src/metadata.rs:1594-1615 | rendered paths are legal and matched by their own app's pattern |
| Patterns.ReservedNamesNeverMatch | client/vendor/tuf/src/metadata.rs:176-196 | the reserved-name check refuses no path under any lower-casing, not even the names on the list |
| Verifier.OnlyEndorsedIsTrusted | client/vendor/tuf/src/database.rs:366-817 | an update of any document trusts only what is signed by its role's threshold and at the version named above it; a timestamp, targets or delegated role must also be newer, a snapshot need not be |
| Verifier.SnapshotFallsIff | client/vendor/tuf/src/database.rs:420-440 | the trusted snapshot falls over a refresh exactly when the timestamp names a lower version |
| Verifier.SnapshotRollbackIsAccepted | client/vendor/tuf/src/database.rs:420-440 | and a signed timestamp that does so is accepted |
| Verifier.FoundIsListed | client/vendor/tuf/src/database.rs:888-985 | whatever a lookup finds is listed by a trusted role |
| Verifier.LookupMeans | client/vendor/tuf/src/database.rs:901-965 | the walk finds an app's path exactly when that app is the first delegation, trusted and lists it |
| Verifier.SpecLookupMeans | client/vendor/tuf/src/database.rs:888-985 | the specification's walk finds it whenever the app is delegated at all |
| Verifier.LookupMeetsSpec | client/vendor/tuf/src/database.rs:916-950 | code and specification agree if and only if nothing is listed or the app was delegated first |
| Verifier.OtherRolesDoNotMatter | packages/dist-core/src/dist_core/repository.py:236-271 | replacing any other role arbitrarily never changes what an app's path resolves to |
| Verifier.CustomRoundTrips | client/dist-core-rs/src/verifier.rs:337-371 | the client reads back the release info the server wrote |
| Verifier.CustomReads | client/dist-core-rs/src/verifier.rs:337-371 | release info is read exactly when it has a version and no percentage above 100; without a percentage it is for everybody |
| Verifier.OnlyDescribedBytesVerify | client/dist-core-rs/src/verifier.rs:381-400 | only the described bytes verify; a wrong length is reported first |
| Verifier.TufVerifier.UpdateTimestamp | client/vendor/tuf/src/database.rs:366-457 | the class accepts a timestamp, or keeps its trust, exactly as the function says |
| Verifier.TufVerifier.UpdateSnapshot | client/vendor/tuf/src/database.rs:460-636 | likewise for snapshots, with its purging of targets and delegations |
| Verifier.TufVerifier.UpdateTargets | client/vendor/tuf/src/database.rs:639-666 | likewise for the top-level targets |
| Verifier.TufVerifier.UpdateDelegatedTargets | client/vendor/tuf/src/database.rs:669-817 | likewise for a delegated role |
| UpdateCheck.TrustsExactlyWhatIsSigned | bindings/python/src/dist_client/update.py:142-165 | over any disks at all, a check gets to the channel pointer if and only if the documents served under the names the timestamp leads to are each signed by their role's keys at the version named above, and then trusts exactly those |
| UpdateCheck.EveryOfferIsEndorsed | bindings/python/src/dist_client/update.py:142-196 | over any disks at all, an offer rests on those signed documents: the pointer digest they list fixes path and version, their entry for that path gives length, digest, version and rollout, inside the channel and the slice; and the path is five plain segments |
| UpdateCheck.FollowMeans | bindings/python/src/dist_client/update.py:164-196 | from any trust over any disk, exactly when a channel pointer leads to an offer, and exactly when to nothing |
| UpdateCheck.SilenceMeans | bindings/python/src/dist_client/update.py:142-196 | a check answers "nothing to offer" if and only if the signed snapshot does not name its role, or the signed documents describe no pointer, or the pointed release is one of the channel and the install outside its slice: never because a document is missing, malformed or redirected |
| UpdateCheck.CheckSeesOneState | bindings/python/src/dist_client/update.py:122-211 | a check whose later fetches see later disks answers as on the disk of its first fetch |
| UpdateCheck.CheckIsAtomic | bindings/python/src/dist_client/update.py:122-211 | so a check interleaved with any run of operations, crashes and restarts is atomic at its timestamp fetch |
| UpdateCheck.SecondCheckFallsBackIff | bindings/python/src/dist_client/update.py:122-158 | two checks in a row: the second takes a view a kept trust would refuse if and only if its timestamp is behind, which a disk that only moved on never is |
| UpdateCheck.OlderTimestampIsTaken | bindings/python/src/dist_client/update.py:122-158 | any accepted disk under an older timestamp by the same signers is accepted next, where a kept trust refuses it |
| UpdateCheck.KeptTrustCatchesUp | client/vendor/tuf/src/database.rs:366-817 | a trust kept from earlier, whatever it holds, comes to hold the same documents as a fresh one, if it holds nothing newer under the same snapshot and no other document of the same version |
| SuccessiveChecks.LaggingMirrorFallsBack | bindings/python/src/dist_client/update.py:122-196 | over honest disks: after a channel moved, a client offered the new release is offered the old one again by a view from before the move |
| UpdateCheck.Checker.RefreshFrom | bindings/python/src/dist_client/update.py:142-158 | the metadata half of the imperative check equals its function on the disks its fetches saw |
| UpdateCheck.Checker.Run | bindings/python/src/dist_client/update.py:122-196 | the imperative check equals the function `Check` on the disks its five fetches saw, in order |
| UpdateCheck.Checker.ReadPointer | bindings/python/src/dist_client/update.py:167-211 | fetching and following the channel pointer |
| PublisherSafety.StorePayloadKeeps | packages/dist-core/src/dist_core/repository.py:196-212 | storing a payload keeps the invariants and makes its entry good |
| PublisherSafety.WriteTargetsKeeps | packages/dist-core/src/dist_core/repository.py:125-146 | writing the next version of a targets role keeps them and rewrites nothing |
| PublisherSafety.WriteSnapshotKeeps | packages/dist-core/src/dist_core/repository.py:125-159 | so does a snapshot that names only files on disk and nothing less than before |
| PublisherSafety.WriteTimestampKeeps | packages/dist-core/src/dist_core/repository.py:125-159 | so does a timestamp that names a snapshot on disk |
| PublisherRuns.PublishKeeps | packages/dist-core/src/dist_core/repository.py:356-359 | with targets on disk, every state of a publish keeps them |
| PublisherRuns.PerformKeeps | packages/dist-core/src/dist_core/repository.py:216-359 | so does every state of every operation |
| PublisherRuns.RescanKeeps | packages/dist-core/src/dist_core/repository.py:89-105 | and a restart, which rebuilds memory from the disk alone |
| PublisherRuns.EveryRunIsGood | packages/dist-core/src/dist_core/repository.py:89-359 | after every single write of every run: named metadata and payloads are on disk, no non-root file is rewritten, advertised versions never fall |
| PublisherLimits.PublishNeedsTargets | packages/dist-core/src/dist_core/repository.py:356-359 | a publish keeps everything named on disk if and only if targets exist |
| StaleWriters.WriteHarmlessIff | packages/dist-core/src/dist_core/repository.py:125-146 | one versioned write from any memory harms nothing published if and only if the name is free or holds that very document |
| StaleWriters.StaleRunHarmlessIff | packages/dist-core/src/dist_core/repository.py:89-359 | a whole operation from an outdated scan is harmless after each write if and only if its planned files clash with none published since and its timestamp is not behind |
| StaleWriters.StaleRunEnds | packages/dist-core/src/dist_core/repository.py:89-359 | harmful or not, it leaves every file it planned |
| TwoWriters.TakingTurnsIff | packages/dist-core/src/dist_core/repository.py:236-354 | any two processes from one scan, ceremonies and signers: the second is harmless if and only if it lists the very same thing |
| TwoWriters.CeremonyIsUndone | packages/dist-core/src/dist_core/repository.py:236-354 | a signer with a scan from before `add_app` rewrites the same snapshot version with the old targets, and clients are led to it |
| Repository.FileSystemRepository.constructor | packages/dist-core/src/dist_core/repository.py:73-105 | on any disk whose files are what their names say, a new object knows the newest version of every role and the delegated roles with default policies |
| Repository.FileSystemRepository.ScanVersions | packages/dist-core/src/dist_core/repository.py:89-97 | the scanning loop finds the newest version of every role |
| Repository.FileSystemRepository.LearnRoles | packages/dist-core/src/dist_core/repository.py:99-105 | the delegated names become application roles, with default policies |
| Repository.FileSystemRepository.CloseRole | packages/dist-core/src/dist_core/repository.py:125-146 | one signed write, or a refusal that changes nothing |
| Repository.FileSystemRepository.DoSnapshot | packages/dist-core/src/dist_core/repository.py:356-359 | writes, leaves alone or refuses as its contract says |
| Repository.FileSystemRepository.Publish | packages/dist-core/src/dist_core/repository.py:356-359 | passes through exactly the states of its function |
| Repository.FileSystemRepository.AddRelease | packages/dist-core/src/dist_core/repository.py:273-296 | likewise, with its refusals |
| Repository.FileSystemRepository.SetCurrent | packages/dist-core/src/dist_core/repository.py:298-354 | likewise |
| Repository.FileSystemRepository.AddApp | packages/dist-core/src/dist_core/repository.py:236-271 | likewise |
| Repository.FileSystemRepository.Initialize | packages/dist-core/src/dist_core/repository.py:216-234 | likewise |
| Keyrings.PerformSame | scripts/ceremony.py:188-215 | a process with the keys of the roles it signs for does exactly what one with every key would do |
| Keyrings.PerformCut | packages/dist-core/src/dist_core/repository.py:125-146 | with all or none of each role's keys it does the same up to the first role it cannot sign for, and stops there with an error |
| Publication.PutDelegationShape | packages/dist-core/src/dist_core/repository.py:257-264 | delegating again keeps a role's place; a new one goes last |
| Publication.PutDelegationFinds | packages/dist-core/src/dist_core/repository.py:257-264 | a client finds the new delegation under its role, and every other role's as before |
| Publication.PerformAdds | packages/dist-core/src/dist_core/repository.py:216-359 | the exact footprint of every operation after each write: which roles' files, with which contents |
| Publication.PerformSigned | packages/dist-core/src/dist_core/repository.py:125-146 | with any part of the keyring, everything an operation leaves is signed by the keyring's keys for its role |
| Publication.NeverFalls | packages/dist-core/src/dist_core/repository.py:148-159 | a publish is never refused as a rollback |
| Publication.PublishSettles | packages/dist-core/src/dist_core/repository.py:148-159 | with the online keys publishing succeeds, names the newest of everything, and a second publish writes nothing |
| Releases.InitializeEnds | packages/dist-core/src/dist_core/repository.py:216-234 | with enough keys of every top-level role, initialising succeeds and leaves a repository ready to publish |
| Releases.InitializeNeeds | packages/dist-core/src/dist_core/repository.py:216-234 | initialising succeeds if and only if there are three root keys, two targets keys and one of each online role; the root then served names those, and takes three root keys to sign again |
| Releases.AddAppEnds | packages/dist-core/src/dist_core/repository.py:236-271 | adding an app delegates its role, lets it in, publishes, and keeps what it listed |
| Releases.AddReleaseEnds | packages/dist-core/src/dist_core/repository.py:273-296 | with the application's and the online keys, adding a release succeeds, lists exactly it, stores its payload and touches no other role |
| Releases.SetCurrentEnds | packages/dist-core/src/dist_core/repository.py:298-354 | so does pointing a channel at a published release |
| Releases.CheckServed | bindings/python/src/dist_client/update.py:142-165 | a client of the keyring comes to trust exactly what the disk advertises |
| Releases.FollowServed | bindings/python/src/dist_client/update.py:164-196 | and answers about the pointed release as `Answered` says |
| Offers.EveryRunCanPublish | packages/dist-core/src/dist_core/repository.py:89-159 | from every state of every run of signers, ceremonies and restarts with root and targets, whoever holds the online keys publishes the newest of everything, and then settles |
| Offers.OfferLasts | packages/dist-core/src/dist_core/repository.py:298-354 | after `set_current`, every check during any later run of signers and ceremonies on other releases and channels gives that one answer |
| Offers.AnswerMeetsPromise | bindings/python/src/dist_client/update.py:164-196 | which is the promised offer exactly when the app was delegated first and the version and pointer fit |
| Offers.SetCurrentAnswers | packages/dist-core/src/dist_core/repository.py:298-354 | what a client is told straight after `set_current` |
| Offers.ReleaseReachesClient | packages/dist-core/src/dist_core/repository.py:273-354 | after `add_release` and `set_current` the offer is that payload, by path, version, length and digest |
| Offers.SwitchesBack | packages/dist-core/src/dist_core/repository.py:298-310 | `set_current` with an older key offers the older release as published |
| Offers.SecondAppIsNeverOffered | client/vendor/tuf/src/database.rs:916-935 | from an empty disk: of two delegated applications only the first is ever offered anything |
| Signer.ReleaseEnds | packages/dist-sign/src/dist_sign/worker.py:160-178 | an uncut publish with the application's and the online keys lists the artifact and the pointer, stores both, and touches nothing else |
| Signer.PublishesExactly | packages/dist-sign/src/dist_sign/worker.py:136-170 | with the online store a publish succeeds exactly when the artifact is the approved one, its names are usable and the application's key is online; an unusable job writes nothing, an unkeyed one stores its payload and is refused |
| Signer.UnusableJobs | packages/dist-sign/src/dist_sign/worker.py:136-170 | why an unusable job is refused, in the order of the checks, with nothing written |
| Signer.JobReachesClient | packages/dist-sign/src/dist_sign/worker.py:136-178 | what a job publishes is its own source's: the approved bytes under `app/channel/platform-arch/version/file`, that slot's pointer moved to them, nothing else changed; and every client of the slot is told of them by path, version, length and digest, unless its application was not delegated first or a size limit bites |
| Signer.FailedJobListsNothing | packages/dist-sign/src/dist_sign/worker.py:136-178 | a job that fails has changed no document |
| Signer.ContentsDecide | bindings/python/src/dist_client/update.py:122-196 | what any client is told depends on contents, never on version numbers |
| Signer.CutAndRerunConverges | packages/dist-sign/src/dist_sign/worker.py:123-178 | with the online store, cut anywhere and restarted any number of times, the run that ends has the same verdict, the same contents, and the same answer to every client as one uncut run |
| Signer.SigningWorker.DoPublish | packages/dist-sign/src/dist_sign/worker.py:123-178 | the method passes through exactly the states of `PublishRun`, with its refusals; what that comes to is `Signer.PublishesExactly` and `Signer.JobReachesClient` |
| Vouching.PerformVouched | packages/dist-core/src/dist_core/repository.py:216-359 | after each write of an operation by any process, with any keys and however old its scan: files are what their names say, listed payloads are stored, nothing unapproved is listed |
| Vouching.PublishVouched | packages/dist-sign/src/dist_sign/worker.py:136-178 | likewise for `do_publish`, whatever quarantine holds and however old the worker's scan |
| Installer.EveryCutIsSafe | client/dist-core-rs/src/install.rs:239-444 | one careful operation cut at any filesystem step leaves a readable pointer and complete slots |
| Installer.CommitIsSafeIff | client/dist-core-rs/src/install.rs:273-289 | a commit is safe at every step if and only if it spares the slots in use |
| Installer.ActivateIsSafeIff | client/dist-core-rs/src/install.rs:295-319 | an activation is safe if and only if the slot it chooses is complete |
| Installer.PruneLeavesHusks | client/dist-core-rs/src/install.rs:416-444 | an interrupted prune leaves a directory that activation still accepts |
| Installer.EveryRunIsSafe | client/dist-core-rs/src/install.rs:239-444 | in every orderly run, every state between and inside operations is safe |
| Installer.RetryEnds | client/dist-core-rs/src/install.rs:256-364 | from every safe state an uncut retry ends active, confirmed and safe |
| Installer.EveryCutKeepsPointer | client/dist-core-rs/src/install.rs:295-386 | every operation keeps the pointer invariant at every cut |
| Installer.VersionStaysInside | client/dist-core-rs/src/install.rs:187-199 | a version is accepted if and only if it names one directory directly under the versions directory, with either separator and no drive, and has no NUL |
| Installer.PruneLeaves | client/dist-core-rs/src/install.rs:416-444 | after a prune every old slot is either left or reported, none both; left are exactly the active and the previous version, unchanged; without a readable pointer nothing goes |
| Installer.StagingLeaves | client/dist-core-rs/src/install.rs:256-289 | what staging, unpacking, committing and cleaning leave, and when they refuse; cleaning leaves nothing staged |
| Installer.PointerLeft | client/dist-core-rs/src/install.rs:295-386 | the pointer each operation leaves, field by field, from the pointer it finds: at the third recorded attempt a launch falls back, and attempts stop counting at 2^32 - 1 |
| Installer.NoPointerLeft | client/dist-core-rs/src/install.rs:295-386 | likewise where there is no pointer, or none that can be read |
| Installer.ActivationStartsTrial | client/dist-core-rs/src/install.rs:295-386 | activating another version starts its probation with the old one to fall back to, and a rollback undoes it |
| Installer.EveryRunKeepsPointer | client/dist-core-rs/src/install.rs:295-386 | and so does every run |
| Installer.LaunchIsSound | client/dist-core-rs/src/install.rs:331-386 | a launch always resolves; it changes version exactly when attempts are exhausted; a confirmed version stays |
| Installer.AtMostThreeLaunches | client/dist-core-rs/src/install.rs:331-386 | an unconfirmed version is launched at most three times and then always the previous one |
| Installer.WhoConfirms | client/dist-core-rs/src/install.rs:295-364 | exactly which operations confirm a version on probation |
| Installer.RollbackTargetWasConfirmed | client/dist-core-rs/src/install.rs:295-319 | updating only from confirmed versions, the rollback target was confirmed |
| Installer.HealthIsTenure | client/dist-core-rs/src/install.rs:295-386 | in every cut run the active version was confirmed since it became active if and only if the recorded health says so |
| Installer.FallbackWasConfirmedIff | client/dist-core-rs/src/install.rs:295-319 | an activation makes the replaced version the one to fall back to, confirmed while active if and only if its recorded health says so beforehand |
| Installer.UpdatingTwiceFallsBackToUnproven | client/dist-core-rs/src/install.rs:295-386 | otherwise a version that never confirmed is what launches fall back to |
| Installer.Installation.WritePointer | client/dist-core-rs/src/install.rs:239-250 | a temp file, then one rename |
| Installer.Installation.RemoveSlot | client/dist-core-rs/src/install.rs:282-284 | a tree removed file by file, every state of it allowed |
| Installer.Installation.Stage | client/dist-core-rs/src/install.rs:256-264 | ends at, and passes only through, the filesystems of the relation |
| Installer.Installation.CommitSlot | client/dist-core-rs/src/install.rs:273-289 | likewise |
| Installer.Installation.Activate | client/dist-core-rs/src/install.rs:295-319 | likewise |
| Installer.Installation.BeginLaunch | client/dist-core-rs/src/install.rs:331-346 | likewise |
| Installer.Installation.ConfirmHealthy | client/dist-core-rs/src/install.rs:351-360 | likewise |
| Installer.Installation.Rollback | client/dist-core-rs/src/install.rs:369-386 | likewise |
| Installer.Installation.CleanStaging | client/dist-core-rs/src/install.rs:402-409 | likewise, and nothing is staged afterwards |
| Installer.Installation.Prune | client/dist-core-rs/src/install.rs:416-444 | likewise; a slot is left if and only if it is the active or the previous version, as it was, and exactly the others are returned |
| Dsse.PaeInjective | packages/dist-ingest/src/dist_ingest/provenance.py:172-179 | no two (type, payload) pairs share an encoding |
| Dsse.PaeText | packages/dist-ingest/src/dist_ingest/provenance.py:172-179 | the encoding, character by character |
| Provenance.SignatureFixesMessage | packages/dist-ingest/src/dist_ingest/provenance.py:225-258 | a signature a pinned key accepts is accepted under one payload type and payload only |
| Provenance.SignatureFixesStatement | packages/dist-ingest/src/dist_ingest/provenance.py:225-258 | so two accepted envelopes that share a good signature carry one statement |
| Provenance.DecodeEnvelopeMeans | packages/dist-ingest/src/dist_ingest/provenance.py:195-222 | exactly what an envelope is: at most a mebibyte of JSON of that type with a payload and some signatures |
| Provenance.LookMeans | packages/dist-ingest/src/dist_ingest/provenance.py:225-258 | an entry is accepted exactly when it verifies under the first builder pinned for its key id, and passed over exactly when it is no entry, of no pinned key, not base64 or a signature of something else |
| Provenance.FirstTrustedMeans | packages/dist-ingest/src/dist_ingest/provenance.py:225-258 | a builder is accepted exactly when the first entry not passed over verifies under its pinned key |
| Provenance.FindDependencyMeans | packages/dist-ingest/src/dist_ingest/provenance.py:301-338 | the source is the first dependency whose URI begins with `git+`, the project and `@` |
| Provenance.CheckStatementMeans | packages/dist-ingest/src/dist_ingest/provenance.py:360-392 | a statement passes exactly when it attests these bytes and this builder and the first dependency that begins with `git+`, the project and `@` goes on with the tag prefix; reported are that URI, its ref after the `@`, the builder and the digest |
| Provenance.WrittenStatementPasses | packages/dist-ingest/src/dist_ingest/provenance.py:360-392 | a statement as a forge writes it about a tag build of the project passes, whatever else it resolved, with its ref, name and digest reported |
| Provenance.VerifyProvenanceMeans | packages/dist-ingest/src/dist_ingest/provenance.py:341-357 | provenance passes exactly when both hold, and reports this artifact's digest |
| Provenance.RaisesExactly | packages/dist-ingest/src/dist_ingest/provenance.py:195-258 | it raises something other than its refusal exactly when the envelope is not text, or the signed payload is not, or the first entry not passed over is of a pinned key that does not load |
| Gates.AcceptedNeverLeaves | packages/dist-ingest/src/dist_ingest/gates.py:56-77 | an accepted entry name never leaves the root at any prefix |
| Gates.RefusesSomeSafeNames | packages/dist-ingest/src/dist_ingest/gates.py:56-77 | the check is stricter than confinement |
| Gates.AcceptedNames | packages/dist-ingest/src/dist_ingest/gates.py:56-77 | exactly which names are accepted |
| Gates.OrdinaryNamesPass | packages/dist-ingest/src/dist_ingest/gates.py:56-77 | ordinary segments joined at any depth are accepted, and land where they say |
| Gates.InspectArchive | packages/dist-ingest/src/dist_ingest/gates.py:80-116 | the loop accepts exactly the archives within every limit, and reports the exact total and ratio |
| Gates.InspectedMeans | packages/dist-ingest/src/dist_ingest/gates.py:80-116 | accepted if and only if entries, total and ratio are within the limits, which are themselves allowed, and every name is safe; refused otherwise |
| Gates.AcceptedArchiveIsConfined | packages/dist-ingest/src/dist_ingest/gates.py:80-116 | every entry of an accepted archive is confined, and the report is exact and within limits |
| Gates.ContentCheckedMeans | packages/dist-ingest/src/dist_ingest/gates.py:154-189 | passing means every gate passed or was named as skipped; failing means the first that did neither, with its own refusal or exception |
| Gates.RunContentGates | packages/dist-ingest/src/dist_ingest/gates.py:154-189 | the method ends as that says, and reports exactly the skipped gates |
| Gates.WiredGatesNeedEverySkip | packages/dist-ingest/src/dist_ingest/sources.py:155-178 | as the worker wires them, exactly when all three are named |
| Policy.PromotesExactly | packages/dist-ingest/src/dist_ingest/policy.py:108-175 | on the fixed-key route, promoted exactly when everything clears and the key is online, held exactly when it is offline; and what each outcome records |
| Policy.EscapesExactly | packages/dist-ingest/src/dist_ingest/policy.py:108-175 | and an exception escapes, leaving the artifact undecided, exactly when provenance raises one, or it holds and the archive cannot be read, or both pass and the first gate that is not clear raises one |
| Policy.Quarantine.Admit | packages/dist-ingest/src/dist_ingest/quarantine.py:50-78 | streamed and capped: kept under its own digest, or nothing kept |
| Policy.Quarantine.Promote | packages/dist-ingest/src/dist_ingest/quarantine.py:86-113 | only bytes that still hash to their name leave |
| Policy.Quarantine.Ingest | packages/dist-ingest/src/dist_ingest/policy.py:108-175 | the imperative decision equals the function, over the bytes it stored |
| Policy.Quarantine.Release | packages/dist-ingest/src/dist_ingest/policy.py:178-186 | nothing the policy did not clear leaves |
| Forge.Stream | packages/dist-ingest/src/dist_ingest/forge.py:335-377 | at most six requests, all to allowed https hosts; never more than the cap in the sink; success exactly when at most five redirects over such hosts lead to a whole body under the cap |
| Forge.Read | packages/dist-ingest/src/dist_ingest/forge.py:368-374 | the body loop writes all or stops below the cap |
| Forge.ForgeVersionIsSegment | packages/dist-ingest/src/dist_ingest/forge.py:168-178 | a forge version is a legal path segment if and only if it has no build metadata |
| Forge.BuildMetadataIsUnpublishable | packages/dist-ingest/src/dist_ingest/forge.py:168-178 | such a version exists |
| Forge.TagsAreRead | packages/dist-ingest/src/dist_ingest/forge.py:168-178 | dotted numbers, with or without a suffix, are read as the version, behind the prefix or without it |
| Registry.Store.Add | packages/dist-registry/src/dist_registry/store.py:108-167 | a source lands as a draft without identifiers, or not at all |
| Registry.Store.Move | packages/dist-registry/src/dist_registry/store.py:282-300 | any status but active |
| Registry.Store.Identify | packages/dist-registry/src/dist_registry/store.py:303-325 | writes the identifiers and pends delegation |
| Registry.Store.Update | packages/dist-registry/src/dist_registry/store.py:235-272 | changes handling and slot, never the application, the status or a pin |
| Registry.Store.Delegated | packages/dist-registry/src/dist_registry/store.py:328-354 | activates the waiting source, or changes nothing |
| Registry.Store.Delete | packages/dist-registry/src/dist_registry/store.py:357-360 | removes a source with its jobs |
| Registry.Store.Queue | packages/dist-registry/src/dist_registry/store.py:366-393 | queues exactly when no job is open |
| Registry.Store.Take | packages/dist-registry/src/dist_registry/store.py:396-425 | claims the oldest queued job of the given kinds, or none exists |
| Registry.Store.Finish | packages/dist-registry/src/dist_registry/store.py:428-444 | files a job whatever its state, unless that would open it beside another |
| Registry.Store.Reset | packages/dist-registry/src/dist_registry/store.py:484-501 | requeues exactly the stale running jobs, of any kind |
| RegistrySafety.EveryWriteKeeps | packages/dist-registry/src/dist_registry/store.py:108-501 | every transaction the store accepts keeps one open job per source and every row within the schema, pins on active sources included |
| RegistrySafety.PendingStaysValidatedIff | packages/dist-registry/src/dist_registry/store.py:282-325 | pending sources stay validated if and only if nobody sets that status by hand on one that is not |
| RegistrySafety.OnlyDelegationActivates | packages/dist-registry/src/dist_registry/store.py:328-354 | `mark_delegated` is the only step into active |
| RegistrySafety.OnlyValidationIdentifies | packages/dist-registry/src/dist_registry/store.py:303-325 | only validation writes the forge's identifiers |
| RegistrySafety.ActivationSkipsValidation | packages/dist-registry/src/dist_registry/store.py:328-354 | exactly when an activation skips validation |
| PipelineSafety.EveryStepIsOk | packages/dist-ingest/src/dist_ingest/worker.py:233-366 | every step of every interleaving keeps the whole invariant |
| PipelineSafety.EveryRunKeepsTheQueue | packages/dist-registry/src/dist_registry/store.py:366-444 | in every run from nothing: one open job per source, each kind run by its own team, activation only by the ceremony, pins on active GitHub sources |
| PipelineSafety.EverySignedReleaseWasPromoted | packages/dist-sign/src/dist_sign/worker.py:136-178 | in every run from nothing, processes with outdated scans included: every release entry ever signed has its bytes stored, and they are the bytes of a poll that ended in promotion for that application |
| PipelineSafety.PromotedMeansCleared | packages/dist-ingest/src/dist_ingest/sources.py:96-186 | a poll ends in promotion if and only if the source's own row is not critical, its own pins prove the artifact on its forge's route, the archive fits and the deployment skips the three gates and names no other |
| PipelineSafety.EverySignedReleaseWasCleared | packages/dist-ingest/src/dist_ingest/policy.py:108-175 | so every release ever signed was cleared on those grounds, size cap and confined archive included |
| Skips.AppendSkip | packages/dist-ingest/src/dist_ingest/worker.py:336-360 | a skip record counts one more and carries the tag on |
| Skips.EveryStepCounts | packages/dist-ingest/src/dist_ingest/worker.py:296-366 | with one ingest worker every step keeps every count exact |
| Skips.EveryRunCountsSkips | packages/dist-ingest/src/dist_ingest/worker.py:296-360 | in every run from nothing the latest poll's skip count is exact since the last poll filed as done, at most 24, anchored on that poll's tag, and at 24 a real poll is forced; it is exact since any poll that ran if and only if none failed after a counted skip |
| Skips.CountsSinceRanIff | packages/dist-ingest/src/dist_ingest/worker.py:296-341 | the same condition for any exact history |
| Skips.FailureIsForgotten | packages/dist-registry/src/dist_registry/store.py:460-481 | filing a poll as failed leaves the next skip what it would have been |
| Skips.SkipsAcrossFailure | packages/dist-ingest/src/dist_ingest/worker.py:296-360 | an input: one skip, a failed poll, and the next skip is recorded as the second in a row |
| Workers.IngestWorker.RunJob | packages/dist-ingest/src/dist_ingest/worker.py:233-293 | what running a job does to the tables, row by row as the next row says |
| Workers.IngestedMeans | packages/dist-ingest/src/dist_ingest/worker.py:233-293 | done exactly when the source is there and was validated, or polled while active, failed otherwise; validation leaves the source pending with its identifiers or invalid; a promotion queues the publish of its own artifact if nothing else of the source is open; no other row changes |
| Workers.PromotionIsQueued | packages/dist-ingest/src/dist_ingest/worker.py:205-230 | a promotion leaves exactly one open job, the publish of its artifact |
| Workers.SigningPass.RunJob | packages/dist-sign/src/dist_sign/worker.py:194-222 | what running a publish job does to the tables and the repository, and, from a ready repository with the signer's keys, as the next row says |
| Workers.PublishIsSettled | packages/dist-sign/src/dist_sign/worker.py:194-222 | the job is done if and only if its source is there, its payload publishable and the application's key in the store, failed otherwise; done means listed and pointed at, failed that no document was touched; no other row changes |
| Workers.SigningPass.Tick | packages/dist-sign/src/dist_sign/worker.py:225-233 | requeue, take the oldest publish, run it |
| Stepwise.PublishSteps | packages/dist-sign/src/dist_sign/worker.py:194-222 | the pipeline's own steps of a publish, uninterrupted, are `run_job` two ticks later |
| Stepwise.ValidateSteps | packages/dist-ingest/src/dist_ingest/worker.py:233-261 | so are those of a validation |
| Stepwise.PollSteps | packages/dist-ingest/src/dist_ingest/worker.py:233-275 | and of a poll, with the record and the publish payload it files |
| Stepwise.RaiseSteps | packages/dist-ingest/src/dist_ingest/worker.py:277-293 | and of anything raised |
| Stepwise.GoneSteps | packages/dist-ingest/src/dist_ingest/worker.py:233-237 | and, for either team, of a job whose source is gone: failed, and nothing else changed |
| Lifecycle.FromRegistrationToClient | packages/dist-registry/src/dist_registry/store.py:108-444 | from any registry and any ready repository: a source registered, validated, delegated and polled with a promotion ends active, its publish job done, and every client of its slot told of the promoted bytes |

## Left out

- Sigstore verification: a parameter, given the identity the row pins; of that identity the project name and the runner environment, which only Sigstore reads, are absent.
- `matches_builder`, `is_newer`, `resolve_asset_name`, `asset`, the release feed parser, the broker and the forms: small validators that would add only easy members.
- Cryptography, hashing, KeePass storage, HTTP, SQL, sessions, templates, the C ABI and the ctypes binding: plumbing around what is modelled. Of the ABI only the 64-byte version buffer is kept; a NUL inside a version would truncate it and is not modelled.
- Clocks and expiry: nothing expires, so a freeze is not detected by the model; `finished_at` is an increasing counter.
- Root rotation: the client's root is the one it shipped with, and the repository only ever writes version 1 of it or, after an interrupted start, rewrites it.
- Forged top-level targets with an empty, present delegation list: read as no delegations, which differs from the vendored crate only for a terminating delegation.
- Unpacking a download into staging is the caller's: the installer's `Fill` stands for it, and writes files in any order.
- Filesystem failures that are not crashes: an antivirus lock that makes `prune` skip a slot, a failed rename on Windows, permissions.
- Pipeline: a ceremony there initialises and adds applications; releases are the signer's.
- Installer.Installation.Prune: returns the removed versions as a set; that the code sorts the list is not modelled.
- Registry.Store.Add: of the twenty-odd columns of a source, those that no other modelled code reads are absent.
