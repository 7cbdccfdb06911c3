# Verified model of the chunked upload service

The repository is a chunked upload service: several API nodes share one table of upload sessions and one store of
chunk parts, and a browser client cuts a file into chunks, sends them, and asks for the parts to be merged. This
project models the parts of it whose correctness is hard to see and proves what they are for.

Dafny 4.11; `dafny verify dfyconfig.toml` checks everything.

## What is modelled

**The upload-session protocol** (`Protocol`, `Effects`, `Leases`, `LeaseSteps`, `Runs`, `History`, `Guarantees`,
`Backends`, `CacheAdmission`, `Traces`, `Finals`, `Quota`, `Jobs`, `Failures`, `Reach`, `Deliveries`, `Witnesses`). One state
machine over the session table, the per-node job
queues, merge workers, cleanup loops and session caches, the parts, the final objects and the clock. A step is what one
actor does between two awaits, and any actor may take the next one. Beside its row, each upload carries a ledger that no
actor reads; `History` shows that the ledger counts the steps of the run. The theorems are about every state of every
run of any number of nodes: one lease, one job, one merge, one event; Completed means verified bytes; cleanup; fresh
final names; no duplicates; quotas, counted as sets of sessions; what a cached session can be trusted for; that the two repositories cannot be told apart; and, so
that none of this holds for want of runs, that every file that initiate admits can be uploaded. `Witnesses` has a run for
each proviso.

**The same calls in sequential form** (`Services`, `ServiceRuns`, `Repository`, `SessionCaching`). CompleteAsync,
AbortAsync, ProcessCompleteJobAsync, the background loop and the cleanup cycle as methods with loops and in-place
updates. At each await the rest of the cluster moves arbitrarily within a condition (`Moved`, `LeaseKept`); each method
keeps that condition itself, and `ServiceRuns` proves that runs of the state machine keep it.

**The two merge engines** (`Slots`, `Doubles`, `DoubleRounding`, `Merge`). The ordered single pass and the preallocated parallel merge, the latter
with its parts started, copied and finished in any interleaving; each is proved against a specification of its outcome,
and the specifications are compared. The chunk count they share is computed in doubles, and both of its roundings are
proved to be the nearest ones.

**The client's hashes** (`Words`, `Hex`, `Sha256Spec`, `Sha256`, `Sha256Example`, `Crc32`, `CrcBursts`, `CrcRemainder`). The streaming SHA-256 with its carry buffer and
split bit counter against sections 4 to 6 of FIPS 180-4, with the standard's own example worked out; the table-driven
CRC-32 against a bit-serial register (section 8 of RFC 1952), that register against division of polynomials, its check
value, and what the CRC detects.

**The client's worker pool** (`ClientPool`, `ClientRuns`, `ClientOutcomes`, `ClientWorkers`). Steps between awaits, a conservation
invariant, a bound on the work of a run, termination of every fair run, and which history leads to which end; plus the same callbacks as methods on an
object.

**Smaller algorithms**: the content fingerprint (`Fingerprint`), the received-chunks text (`ReceivedCsv`), the capped
chunk cache (`ChunkCaching`), final names (`FinalNames`), checksum normalization (`Checksums`), and the round trip from a
browser's file to the merged object (`EndToEnd`).

## What the proofs found

- The client's bit counter is exact for pieces below 2^29 bytes, which is all its callers pass. On larger pieces it is
  exact only when a stated condition holds; a first piece of exactly 2^29 bytes is counted twice
  (`Sha256.CounterAdvancesExactlyWhen`, `Sha256.HalfGigabytePieceIsMiscounted`).
- A Failed event may be published for a session that cleanup has expired meanwhile, because the result of the failing
  compare-and-set is not looked at. `Failures.FailedEventExactlyWhen` says when, `Witnesses.FailedEventOnExpired` that it
  happens.
- A malformed checksum given at complete throws outside the try block. `Jobs.JobOutcome` gives the exact condition under
  which an undisturbed job leaves its session Completing, `Witnesses.MalformedChecksumStrands` shows that this happens to
  complete uploads, and `Failures.StrandedForGood` that only cleanup ever ends it.
- A merge that finishes after its session expired puts bytes back that the quota had given away: `Quota.FinishCharges`
  says exactly how many, `Quota.QuotaHolds` and `Quota.QuotaHoldsPerAddress` have the proviso they need, and `Witnesses.LateFinishIsReachable` shows that
  they do need it, for the global limit and for an address's.
- A merge can overwrite a Completed object: `Witnesses.AnIdInANameOverwrites` has the run, and
  `Finals.MergeSparesOthersExactlyWhen` the exact condition, that both names the merge may use are taken. That takes a
  client file name with another upload's id in it.
- From 2^53 bytes on, the chunk count can be one off, since the size itself is rounded, and beyond the largest int it
  saturates (`Doubles.CountIsRightExactlyWhen`, `Doubles.FirstMiscount`, `Doubles.CountBelowTwo53`).
- Single-pass merging checks only the sum of the part lengths (`Merge.OnlyTheSumIsChecked`).
- The two repositories treat null arguments differently; `Repository.BackendsAgreeExactlyWhen` says when that shows, and
  `Backends.BackendsHaveTheSameRuns` that the service never gets there.
- The chunk cache multiplies a lifetime in seconds by twenty and takes the result as minutes, so the default lifetime is
  60 minutes, not the ten that the comment at WebApi/Services/ReceivedChunkCache.cs:22-23 says, and no setting gives ten
  (`ChunkCaching.LifetimeIsNeverTenMinutes`).
- The documentation speaks of 16 MB chunks and two to six workers; the code uses 32 MiB chunks and up to twelve workers,
  and so does the model.

## Model

| member | source | states |
|---|---|---|
| `Sha256Spec.ZeroCountIsLeastSolution` | WebApp/wwwroot/js/upload.js:194-201 | the number of padding zeros is the least solution of the congruence of FIPS 180-4, section 5.1.1 |
| `Sha256Spec.BlocksChain` | WebApp/wwwroot/js/upload.js:158-169 | each block adds its sixty-four rounds, run on the value so far, to that value word by word |
| `Sha256Example.AbcDigest` | WebApp/wwwroot/js/upload.js:147-216 | the digest of "abc" is the published one, character by character |
| `Sha256.ClientWordIsBigEndian` | WebApp/wwwroot/js/upload.js:151 | for all four bytes, the client's shifts and ors give the word whose number is ((b0 * 256 + b1) * 256 + b2) * 256 + b3 |
| `Sha256.ShiftsAreRotations` | WebApp/wwwroot/js/upload.js:147 | the client's shifts and ors are the rotations of the standard, in all four sigma functions |
| `Sha256.CarryIsExact` | WebApp/wwwroot/js/upload.js:175-178 | the carry between the counter halves that an exact 64-bit sum needs |
| `Sha256.CounterAdvancesExactlyWhen` | WebApp/wwwroot/js/upload.js:175-178 | the split counter advances by exactly the piece's bits if and only if a condition on the counter and the length holds |
| `Sha256.HalfGigabytePieceIsMiscounted` | WebApp/wwwroot/js/upload.js:175-178 | a concrete piece of 2^29 bytes that is counted wrongly |
| `Sha256.Hasher.FillSchedule` | WebApp/wwwroot/js/upload.js:150-157 | the 64 words in place, packed by the client's own shifts and ors, are the message schedule of the block |
| `Sha256.Hasher.Compress` | WebApp/wwwroot/js/upload.js:149-170 | one compression is the standard's, on the running hash value |
| `Sha256.Hasher.Fill` | WebApp/wwwroot/js/upload.js:179-185 | one turn of the loop absorbs the copied bytes, compressing a full buffer |
| `Sha256.Hasher.Absorb` | WebApp/wwwroot/js/upload.js:179-185 | the loop absorbs the whole piece |
| `Sha256.Hasher.Update` | WebApp/wwwroot/js/upload.js:172-186 | absorbs exactly the piece's bytes, wherever the carry buffer stood, and keeps the counter exact below 2^29 bytes |
| `Sha256.Hasher.HexDigest` | WebApp/wwwroot/js/upload.js:188-216 | prints the SHA-256 of everything absorbed |
| `Sha256.Hasher.CompressTail` | WebApp/wwwroot/js/upload.js:192-210 | compresses the padded tail, one block or two |
| `Sha256.Hasher.BeginPadding` | WebApp/wwwroot/js/upload.js:191-200 | the first padding block and when it is compressed on its own |
| `Sha256.Hasher.WriteLength` | WebApp/wwwroot/js/upload.js:202-209 | the last eight bytes are the counter's halves |
| `Sha256.LengthBytesAreBigEndian` | WebApp/wwwroot/js/upload.js:202-209 | those bytes are the 64-bit big-endian length |
| `Sha256.PadIsTail` | WebApp/wwwroot/js/upload.js:191-210 | the message padded by the standard is the compressed prefix followed by the tail, for every carry length |
| `Sha256.DigestOfTail` | WebApp/wwwroot/js/upload.js:188-216 | hashing the tail onto the compressed prefix is the digest of the whole message |
| `Sha256.HashPieces` | WebApp/wwwroot/js/upload.js:172-216 | for every message and every cut into pieces below 2^29 bytes the digest is one-shot SHA-256 |
| `Sha256.HashFile` | WebApp/wwwroot/js/upload.js:268-281 | the worker's slicing loop computes the SHA-256 of the file |
| `Crc32.TurnsAreLinear` | WebApp/wwwroot/js/upload.js:235 | bit steps distribute over exclusive or |
| `Crc32.EightTurnsByTable` | WebApp/wwwroot/js/upload.js:235-241 | eight bit steps of a word are its low byte's table entry xored with the word shifted by eight |
| `Crc32.BitsOrByte` | WebApp/wwwroot/js/upload.js:241 | feeding bits one at a time equals adding the byte first and stepping |
| `Crc32.ByteByTable` | WebApp/wwwroot/js/upload.js:241 | one byte fed bit by bit is one table lookup |
| `Crc32.BuildTable` | WebApp/wwwroot/js/upload.js:231-239 | every entry is eight bit steps of its index |
| `Crc32.Crc32Hex` | WebApp/wwwroot/js/upload.js:230-243 | the table-driven loop prints the bit-serial reflected CRC of every byte string |
| `CrcRemainder.CrcIsTheRemainder` | WebApp/wwwroot/js/upload.js:230-243 | for every message the complemented CRC is the remainder, and the only one, of the message times x^32 under 32 leading ones by the generator x^32 + x^26 + x^23 + x^22 + x^16 + x^12 + x^11 + x^10 + x^8 + x^7 + x^5 + x^4 + x^2 + x + 1, coefficients modulo two |
| `CrcRemainder.CheckValue` | WebApp/wwwroot/js/upload.js:230-243 | the CRC of "123456789" prints as "cbf43926" |
| `CrcBursts.RegisterIsInjective` | WebApp/wwwroot/js/upload.js:240-242 | on one message, registers stay equal exactly when they were equal |
| `CrcBursts.BurstIsDetected` | WebApp/wwwroot/js/upload.js:230-243 | two messages whose bits differ only inside some 32 consecutive ones, wherever they start, have equal CRCs exactly when they are equal |
| `Slots.TotalChunksIsTheGeometry` | WebApi/Services/UploadService.cs:138 | the chunk count is the only one for which all chunks but the last are full and the last is not empty |
| `Doubles.ServerCountIs` | WebApi/Services/UploadService.cs:138 | the ceiling of the rounded quotient of the rounded size, in integers, up to 2^31 chunks |
| `Doubles.IntCountIs` | WebApi/Services/UploadService.cs:138 | the stored count, saturated to an int, in integers, for every size and chunk size |
| `Doubles.CountIsRightExactlyWhen` | WebApi/Services/UploadService.cs:138 | for every size and chunk size, the stored count fits the size if and only if the size lies in the last of the chunks that the rounded size leads to |
| `Doubles.CountBelowTwo53` | WebApi/Services/UploadService.cs:138 | below 2^53 bytes the stored count is the exact ceiling, saturated, and fits if and only if the ceiling is an int |
| `Doubles.FirstMiscount` | WebApi/Services/UploadService.cs:138 | a size of 2^53 + 1 bytes in chunks of 2^23 is given one chunk too few |
| `DoubleRounding.CastIsNearest` | WebApi/Services/UploadService.cs:138 | of all doubles none is nearer to the size than the one it is cast to, and of two equally near ones that has the even significand |
| `DoubleRounding.CastIsADouble` | WebApi/Services/UploadService.cs:138 | what the size is cast to is a double |
| `DoubleRounding.QuotientIsNearest` | WebApi/Services/UploadService.cs:138 | of all doubles none is nearer to the quotient than the one taken before the ceiling |
| `Slots.SlotBounds` | WebApi/Storages/FileSystemStorage.cs:297-307 | slots lie inside the file, abut, and end where the browser's slices end |
| `Slots.SlotOfPosition` | WebApi/Storages/FileSystemStorage.cs:297-307 | each file position lies in exactly one slot |
| `Merge.MergeSinglePass` | WebApi/Storages/FileSystemStorage.cs:169-245 | fails with the first missing part or the wrong sum, otherwise returns the join of the parts and its digest |
| `Merge.AppendPart` | WebApi/Storages/FileSystemStorage.cs:205-220 | one part is written behind what is there, and hashed, byte for byte |
| `Merge.MergeSinglePassRacing` | WebApi/Storages/FileSystemStorage.cs:169-245 | while parts are rewritten under the reads, success still means the right number of bytes and the digest of the bytes written |
| `Merge.CopyPiece` | WebApi/Storages/FileSystemStorage.cs:323-335 | one read is written at its place in its slot and disturbs no written position |
| `Merge.MergeParallel` | WebApi/Storages/FileSystemStorage.cs:247-370 | for every interleaving: succeeds exactly when every part fills its slot, with the join of the parts; a failure names a part that does not, or whose slot leaves the file, so a count that does not fit is rejected |
| `Merge.ParallelRefinesSinglePass` | WebApi/Storages/FileSystemStorage.cs:152-370 | whenever the parallel merge succeeds so does the single pass, with the same bytes and digest |
| `Merge.SinglePassRefinesParallelExactlyWhen` | WebApi/Storages/FileSystemStorage.cs:152-370 | the converse holds if and only if every part has its slot length |
| `Merge.OnlyTheSumIsChecked` | WebApi/Storages/FileSystemStorage.cs:224-228 | concrete parts that the single pass accepts and the parallel merge rejects |
| `Merge.JoinAt` | WebApi/Storages/FileSystemStorage.cs:297-335 | a file holding every part in its slot is the join of the parts |
| `Merge.VerifyChunksParallel` | WebApi/Storages/FileSystemStorage.cs:457-486 | in any order, reports each missing index once and the bytes of the others |
| `Merge.BytesOnDiskAreJoined` | WebApi/Storages/FileSystemStorage.cs:457-486 | with nothing missing, the bytes counted are the length of the join |
| `FinalNames.SuffixedContainsId` | WebApi/Storages/FileSystemStorage.cs:372-385 | a suffixed name contains its upload's id |
| `FinalNames.SuffixedMentionsOneId` | WebApi/Storages/FileSystemStorage.cs:372-385 | it contains no other id when the client's name contains none |
| `FinalNames.SuffixGoesBeforeTheExtension` | WebApi/Storages/FileSystemStorage.cs:372-385 | the id goes before the last extension of any name; without a dot it goes to the end, and a dot at the end is dropped |
| `Checksums.NormalizedIsDigest` | WebApi/Services/UploadService.cs:585-599 | what normalization lets through is 64 lower-case hex digits |
| `Checksums.NormalizesExactlyWhen` | WebApi/Services/UploadService.cs:585-599 | normalization gives none exactly for blank text, and a digest exactly for text that spells it between blanks, in any case, with or without "sha256:" |
| `Checksums.DigestNormalizesToItself` | WebApi/Services/UploadService.cs:585-599 | digests, with or without prefix, normalize to themselves |
| `Checksums.DigestsCompareExactly` | WebApi/Services/UploadService.cs:332-334 | on normalized digests the case-insensitive comparison is equality |
| `EndToEnd.TheSlicesAreTheOnlyTiling` | WebApp/wwwroot/js/upload.js:461-468 | parts fill their slots and join to the file if and only if each is the browser's slice |
| `EndToEnd.SendSlices` | WebApp/wwwroot/js/upload.js:461-468 | sending the slices in any order stores them all |
| `EndToEnd.ClientDigestIsNormal` | WebApp/wwwroot/js/upload.js:211-215 | the client's digest text is already in normalized form |
| `EndToEnd.UploadAndMerge` | WebApi/Storages/FileSystemStorage.cs:152-486 | for every non-empty file below 2^53 bytes and every chunk size, with the server's own count: if it fits an int, verification reports nothing missing and all bytes, and either merge returns the file and the checksum that the browser computed; if not, bytes are missing |
| `EndToEnd.TooFewChunksNeverVerify` | WebApi/Storages/FileSystemStorage.cs:457-486 | with fewer chunks than the file needs, the browser's slices never pass verification |
| `Repository.BackendsAgreeExactlyWhen` | WebApi/Repositories/InMemoryUploadRepository.cs:179-223 | the two backends write the same row exactly when a value is given, none is stored, or the guard fails |
| `Repository.InMemoryUploadRepository.TryBeginComplete` | WebApi/Repositories/InMemoryUploadRepository.cs:161-177 | wins exactly on a Pending row; the row it writes, and the whole new table |
| `Repository.InMemoryUploadRepository.TryFinishComplete` | WebApi/Repositories/InMemoryUploadRepository.cs:179-204 | wins exactly on a Completing row; a missing fingerprint keeps the stored one |
| `Repository.InMemoryUploadRepository.TryFailComplete` | WebApi/Repositories/InMemoryUploadRepository.cs:206-223 | wins exactly on a Completing row; a missing checksum keeps the stored one |
| `Repository.InMemoryUploadRepository.TryClaimExpired` | WebApi/Repositories/InMemoryUploadRepository.cs:225-245 | wins exactly on a Pending or Completing row past its expiry; the row it writes |
| `Repository.InMemoryUploadRepository.TryAbort` | WebApi/Repositories/InMemoryUploadRepository.cs:247-263 | wins exactly on a Pending row; the row it writes |
| `Repository.EfUploadRepository.TryBeginComplete` | WebApi/Repositories/EfUploadRepository.cs:156-166 | wins exactly on a Pending row; the row it writes, and the whole new table |
| `Repository.EfUploadRepository.TryFinishComplete` | WebApi/Repositories/EfUploadRepository.cs:168-188 | wins exactly on a Completing row; writes the fingerprint it is given, null or not |
| `Repository.EfUploadRepository.TryFailComplete` | WebApi/Repositories/EfUploadRepository.cs:190-201 | wins exactly on a Completing row; writes the checksum it is given, null or not |
| `Repository.EfUploadRepository.TryClaimExpired` | WebApi/Repositories/EfUploadRepository.cs:203-216 | wins exactly on a Pending or Completing row past its expiry; the row it writes |
| `Repository.EfUploadRepository.TryAbort` | WebApi/Repositories/EfUploadRepository.cs:218-228 | wins exactly on a Pending row; the row it writes |
| `SessionCaching.SessionCache.TryGet` | WebApi/Services/SessionCache.cs:25-39 | serves an entry exactly while it is fresh and removes a stale one |
| `SessionCaching.SessionCache.Set` | WebApi/Services/SessionCache.cs:41-44 | the entry's session and its absolute expiry |
| `Leases.MergeSpecIsWhatTheEnginesDo` | WebApi/Storages/FileSystemStorage.cs:152-167 | the merge step of the protocol is the outcome of the chosen engine |
| `LeaseSteps.MergeOfSize` | WebApi/Storages/FileSystemStorage.cs:152-370 | whatever a merge returns, even when parts change under it, has the right number of bytes and their digest |
| `Leases.ClaimDisturbsNoWorker` | WebApi/Repositories/EfUploadRepository.cs:203-216 | a claim leaves every worker's invariant intact |
| `Runs.StepKeeps` | WebApi/Services/UploadService.cs:51-452 | every step of every actor keeps the invariant and never undoes a terminal row |
| `Runs.RunIsGood` | WebApi/Services/UploadService.cs:51-452 | the invariant holds in every state of every interleaving |
| `History.LedgerIsHistory` | WebApi/Services/UploadService.cs:194-452 | each ledger counter is the number of steps of the run that did the deed |
| `History.OncePerUpload` | WebApi/Services/UploadService.cs:194-452 | no upload sees a second winning begin, finish, fail, claim or abort, nor a second job, merge or lifecycle event |
| `History.VersionCountsWins` | WebApi/Repositories/EfUploadRepository.cs:156-228 | a row's version is the number of compare-and-sets won on it and at most two |
| `Guarantees.CompletedMeansVerifiedBytes` | WebApi/Services/UploadService.cs:243-379 | a Completed session's only merge wrote TotalSize bytes; its checksum is their digest and the one asked for, and is present when always computed |
| `Guarantees.CompletedByItsFinish` | WebApi/Repositories/InMemoryUploadRepository.cs:179-204 | every Completed session was completed by a finishing step of a node, whose clock, object name and fingerprint the row has |
| `Traces.CompletedFingerprint` | WebApi/Services/UploadService.cs:357-372 | a Completed session's fingerprint was computed by the step that checked its merge, or is the client's when that computation failed |
| `Guarantees.FailedMeansNoMergeOrWrongDigest` | WebApi/Services/UploadService.cs:275-350 | a Failed session had no successful merge and keeps initiate's checksum, or stores the digest of its only merge, which is not the expected one |
| `Guarantees.EverySessionIsAsAsked` | WebApi/Services/UploadService.cs:61-147 | in every state, every session is within the size limits, has the computed chunk count and expires the configured time after its creation |
| `Guarantees.EventsTellTheEnd` | WebApi/Services/UploadService.cs:275-452 | at most one event, and which end each kind of event allows |
| `Guarantees.ExpiredHasOneClaimWinner` | WebApi/BackgroundServices/OrphanCleanupService.cs:73-100 | each Expired session had exactly one claim winner across the cluster, other sessions none |
| `Guarantees.CleanupSettlesWhatItListed` | WebApi/BackgroundServices/OrphanCleanupService.cs:54-107 | after a cycle whose claim calls all returned, every listed session is terminal |
| `Guarantees.FoldersGoExactlyWhen` | WebApi/BackgroundServices/OrphanCleanupService.cs:73-100 | a part folder goes exactly at its upload's successful merge, at its won abort's deletion, or at the deletion of the cleanup cycle that claimed it; its session is Completing, Aborted or Expired then |
| `Guarantees.NoFolderGoesWhilePending` | WebApi/BackgroundServices/OrphanCleanupService.cs:86-89 | no step of any run deletes a part folder while its session is Pending |
| `Backends.BackendsStepAlike` | WebApi/Services/UploadService.cs:275-372 | from every reachable state each step gives the same state over either repository |
| `Backends.BackendsHaveTheSameRuns` | WebApi/Services/UploadService.cs:275-372 | a run over one repository is, record for record, a run over the other |
| `CacheAdmission.CachedRowsAreSnapshots` | WebApi/Services/SessionCache.cs:25-46 | a cached session is the row of some earlier state, at most a lifetime old |
| `CacheAdmission.BornStays` | WebApi/Services/UploadService.cs:132-149 | no step changes what initiate recorded |
| `CacheAdmission.AdmittedFromCacheWasPending` | WebApi/Services/UploadService.cs:171-184 | a chunk admitted from the cache belongs to a session that was Pending less than a lifetime ago, and its range and expiry verdicts hold of the row now |
| `CacheAdmission.AdmittedExactlyWhen` | WebApi/Services/UploadService.cs:171-184 | for a Pending session every node, whatever its cache holds, admits exactly the unexpired chunks in range; other sessions are admitted only if they were Pending less than a cache lifetime ago |
| `CacheAdmission.EndingForgets` | WebApi/Services/UploadService.cs:194-452 | a node that begins to complete or abort an upload, deletes its folder, finishes or fails it does not serve it from its cache afterwards |
| `Traces.StoredPartsWereAdmitted` | WebApi/Controllers/UploadController.cs:106-143 | every part in the store is in the range of its session and was admitted by a step of the run before the session expired |
| `Finals.MergeSparesOthersExactlyWhen` | WebApi/Storages/FileSystemStorage.cs:372-385 | in every run, a merge, one that throws half-way included, spares every other object if and only if the client's name or the suffixed name is free; when both are taken, another client's file name contains this upload's id |
| `Finals.HarmlessNamesNeverClash` | WebApi/Storages/FileSystemStorage.cs:372-385 | while no client file name contains an upload id, no merge finds both names taken |
| `Finals.EveryMergeCreatesAFreshFile` | WebApi/Storages/FileSystemStorage.cs:372-385 | under such names every merge, one that throws half-way included, writes a name that was not there and touches no other |
| `Finals.CompletedNamesAreDistinct` | WebApi/Storages/FileSystemStorage.cs:372-385 | as long as no merge found both names taken, Completed sessions share a final name exactly when they are the same |
| `Finals.CompletedBytesNeverChange` | WebApi/Storages/FileSystemStorage.cs:372-404 | as long as no merge found both names taken, a Completed session's row and the bytes under its name stay |
| `Finals.DedupeHitNamesTheRightBytes` | WebApi/Services/UploadService.cs:77-116 | as long as no merge found both names taken, a checksum hit names an existing object of the requested size and digest |
| `Finals.NoDuplicateIsInitiated` | WebApi/Services/UploadService.cs:77-116 | with deduplication on, as long as no merge found both names taken, initiate opens a session only when no Completed session of that size has the requested checksum or fingerprint |
| `Finals.MismatchedObjectGoes` | WebApi/Services/UploadService.cs:332-350 | after the comparison the merged object is gone exactly when its digest is not the expected one and the deletion returned; no other object goes |
| `Quota.QuotaHolds` | WebApi/Services/UploadService.cs:462-491 | in every state of a timely run, the sizes of the Completed and of the unexpired active sessions, as sets of sessions, add up to at most the global limit |
| `Quota.QuotaHoldsPerAddress` | WebApi/Services/UploadService.cs:118-126 | the same for the sessions of one address and its byte limit; and the set of its Pending unexpired sessions has at most as many elements as the pending limit |
| `Quota.InitiateCountsExactly` | WebApi/Repositories/InMemoryUploadRepository.cs:108-159 | initiate raises the counted bytes by exactly the size, and the pending sessions of its address by exactly one, and of no other address |
| `Quota.CountedStaysWithin` | WebApi/Services/UploadService.cs:462-491 | the counts that the quota check computes stay within the limits in every state of a timely run |
| `Quota.FinishCharges` | WebApi/Repositories/InMemoryUploadRepository.cs:119-159 | what a winning finish adds to the counted bytes, exactly |
| `Quota.FinishStaysWithinExactlyWhen` | WebApi/Services/UploadService.cs:371-372 | a winning finish keeps a limit, global or of one address, if and only if it is in time, does not count towards it, or its bytes fit once more |
| `Jobs.JobsEnd` | WebApi/Services/UploadService.cs:243-400 | every step of a worker brings its job nearer its end, whatever fails |
| `Jobs.VerifiedMerge` | WebApi/Storages/FileSystemStorage.cs:152-167 | on verified parts the single pass succeeds, and the parallel merge exactly when every part fills its slot |
| `Jobs.JobOutcome` | WebApi/Services/UploadService.cs:243-400 | an undisturbed job completes, strands or fails its session, each exactly under a condition on the parts, the checksum and the row |
| `Deliveries.EveryFileCanBeUploaded` | WebApi/Services/UploadService.cs:51-400 | from every reachable state, at every idle node, for every file that initiate admits and whose stored count fits its size, whatever chunk size and honest checksums, some continuation completes the session with a merge that wrote exactly the file under its name, and changes no other upload or object |
| `Deliveries.CanBeCompleted` | WebApi/Services/UploadService.cs:171-400 | a waiting upload can be completed with any file of its size, beside whatever other uploads there are |
| `Witnesses.MalformedChecksumStrands` | WebApi/Services/UploadService.cs:304 | for every file and malformed checksum: the taken job, driven to its end, leaves the session Completing with every slice stored, no event and the right to finish it spent |
| `Failures.StrandedForGood` | WebApi/Services/UploadService.cs:243-400 | once the right to finish a Completing session is spent, every later state of every run has it Completing or Expired, without an event |
| `Failures.FailedEventExactlyWhen` | WebApi/Services/UploadService.cs:275-350 | a session with a Failed event had a failing compare-and-set; it is Failed if and only if its row was Completing then, and Expired if and only if it had been claimed before |
| `Failures.FailureDecides` | WebApi/Repositories/EfUploadRepository.cs:190-201 | how the failing compare-and-set of a job leaves its session in every later state |
| `Witnesses.FailedEventOnExpired` | WebApi/Services/UploadService.cs:275-283 | for every admitted request some run ends with an Expired session and a Failed event |
| `Witnesses.AnIdInANameOverwrites` | WebApi/Storages/FileSystemStorage.cs:372-385 | for all names and contents: a client name with another upload's id in it leads to a run in which a Completed object is overwritten and two Completed sessions share a name |
| `Witnesses.LateFinishIsReachable` | WebApi/Services/UploadService.cs:462-491 | for every file that fits a limit once but not twice, the global one or an address's, some run ends over it by a finish after expiry |
| `Services.TransitionsMove` | WebApi/Repositories/EfUploadRepository.cs:156-228 | each transition of a row is a move that others may count on |
| `Services.ChannelCompleteJobQueue.Enqueue` | WebApi/Services/ChannelCompleteJobQueue.cs:15-16 | appends one job and delivers none |
| `Services.ChannelCompleteJobQueue.Read` | WebApi/Services/ChannelCompleteJobQueue.cs:18-19 | delivers jobs in the order written, each once |
| `Services.CompleteUpload` | WebApi/Services/UploadService.cs:194-236 | under interference, enqueues one job exactly when this call won the begin; refused exactly for a session that is absent, ended otherwise or expired; what each reply says about the session |
| `Services.AbortUpload` | WebApi/Services/UploadService.cs:402-452 | publishes exactly when this call won the abort and the folder deletion returned; a deletion that throws leaves the session Aborted without an event; which folder goes; what each reply says about the session |
| `Services.MergeFile` | WebApi/Storages/FileSystemStorage.cs:152-167 | picks the engine and returns the specified outcome |
| `Services.MergeableExactlyWhen` | WebApi/Services/UploadService.cs:304-350 | the merge succeeds with the expected digest if and only if no part is missing, their lengths add up, the parallel engine finds every slot filled, and the join has that digest |
| `Services.FailJob` | WebApi/Services/UploadService.cs:275-298 | publishes Failed whether or not the compare-and-set was won; the session is Failed, with the checksum given, or Expired |
| `Services.FinishJob` | WebApi/Services/UploadService.cs:332-399 | fails exactly on a mismatch, storing the digest; otherwise publishes Completed exactly with a won finish, which stores name, checksum, fingerprint and time |
| `Services.MergeAndFinish` | WebApi/Services/UploadService.cs:304-399 | on the parts the merge saw: Completed with the event, unless a claim came first, if and only if they are mergeable, and otherwise a Failed event |
| `Services.ProcessCompleteJob` | WebApi/Services/UploadService.cs:243-400 | the whole job under interference, exactly: it leaves a session not Completing alone, fails one whose parts do not add up, throws on a malformed checksum, and otherwise ends as the merged parts say |
| `Services.RunJobs` | WebApi/BackgroundServices/CompleteBackgroundService.cs:26-49 | jobs are processed one at a time in the order written, each once, whether or not one throws |
| `Services.ListExpired` | WebApi/Repositories/InMemoryUploadRepository.cs:52-62 | exactly the expired active sessions, each once |
| `Services.CleanOne` | WebApi/BackgroundServices/OrphanCleanupService.cs:77-100 | one candidate: claimed and its folder deleted, skipped because terminal, or thrown; no other folder goes |
| `Services.CleanupOnce` | WebApi/BackgroundServices/OrphanCleanupService.cs:54-107 | under interference, every listed session whose claim returned ends terminal, only claimed folders go, and the counters add up |
| `ServiceRuns.RunsMove` | WebApi/Services/UploadService.cs:194-452 | between any two states of a run the rows change only as the sequential services assume |
| `ServiceRuns.LeaseIsExclusive` | WebApi/Services/UploadService.cs:243-372 | from taking a job to its last compare-and-set, the session's row is as begun, or claimed by cleanup |
| `ServiceRuns.RunsKeepTheLease` | WebApi/Services/UploadService.cs:243-372 | between any two states of a run in which a node holds the job, the session is taken away by nothing but a claim: the condition the sequential services count on |
| `ClientPool.StepKeeps` | WebApp/wwwroot/js/upload.js:442-544 | every callback, poll and click keeps the pool's invariant |
| `ClientPool.StepMeasure` | WebApp/wwwroot/js/upload.js:503-544 | every worker callback uses up remaining attempts; polls and clicks never add any |
| `ClientPool.NeverStuck` | WebApp/wwwroot/js/upload.js:531-544 | until the run has ended a callback is due, or the next poll launches a worker or ends the run |
| `ClientPool.PumpLaunches` | WebApp/wwwroot/js/upload.js:487-501 | pump puts the first chunks of the queue in flight, in order, one per new worker, up to the target, and none while the run is stopping |
| `ClientPool.SuccessTakesNext` | WebApp/wwwroot/js/upload.js:503-515 | after a success the worker goes on with the head of the queue exactly while the run is open, not over its worker count, and has chunks |
| `ClientRuns.StartIsGood` | WebApp/wwwroot/js/upload.js:451-475 | the initial state satisfies the invariant, with the bound on the work |
| `ClientRuns.PoolConservation` | WebApp/wwwroot/js/upload.js:442-551 | at every await each chunk is in exactly one place, counters are exact, at most twelve workers and four attempts per chunk |
| `ClientRuns.CompleteMeansAcknowledged` | WebApp/wwwroot/js/upload.js:531-551 | complete is called only when the server has acknowledged every chunk |
| `ClientRuns.BoundedWork` | WebApp/wwwroot/js/upload.js:503-544 | at most 43 worker callbacks per chunk in any run |
| `ClientRuns.UploadEnds` | WebApp/wwwroot/js/upload.js:485-544 | every fair run ends in complete, pause, cancel or an error and stays ended |
| `ClientOutcomes.OutcomeTells` | WebApp/wwwroot/js/upload.js:531-551 | the poll that ends a run throws exactly when a chunk had failed four times before any cancel, else stops cancelled exactly after a cancel click, else paused exactly after a pause click, else calls complete |
| `ClientOutcomes.FlagsAreHistory` | WebApp/wwwroot/js/upload.js:451-529 | in every state of a run the three stop flags say which clicks and fourth failures occurred |
| `ClientOutcomes.CleanRunCompletes` | WebApp/wwwroot/js/upload.js:485-551 | every fair run without clicks in which no chunk fails four times calls complete |
| `ClientWorkers.Adapted` | WebApp/wwwroot/js/upload.js:442-449 | the worker count moves by at most one and stays within two to twelve |
| `ClientWorkers.WorkersFollowSpeed` | WebApp/wwwroot/js/upload.js:442-449 | unchanged before three windows; up when every recent window is fast, down when every one is slow, unchanged in between |
| `ClientWorkers.WindowIsTheLastSix` | WebApp/wwwroot/js/upload.js:427-440 | the window of speeds holds the last six samples in order, or all while there are fewer |
| `ClientWorkers.UploadRun.constructor` | WebApp/wwwroot/js/upload.js:451-529 | the queue holds the missing chunks in order and the first workers are running; worker count and recent speeds come from earlier runs |
| `ClientWorkers.UploadRun.RunLoopTop` | WebApp/wwwroot/js/upload.js:503-510 | a worker leaves or takes the head of the queue, as the step says |
| `ClientWorkers.UploadRun.RunPump` | WebApp/wwwroot/js/upload.js:487-501 | launches workers until the target, an empty queue or a stop |
| `ClientWorkers.UploadRun.OnSuccess` | WebApp/wwwroot/js/upload.js:428-449 | the pool after an acknowledged chunk, the window of speeds and the adapted worker count |
| `ClientWorkers.UploadRun.OnFailure` | WebApp/wwwroot/js/upload.js:516-525 | the pool after a failed request: requeue, fatal error, or stop |
| `ClientWorkers.UploadRun.OnLeft` | WebApp/wwwroot/js/upload.js:496-499 | the pool after a worker's finally callback |
| `ClientWorkers.UploadRun.OnPoll` | WebApp/wwwroot/js/upload.js:531-544 | one turn of the polling loop, or the end of the run |
| `Fingerprint.LittleEndianIsInjective` | WebApi/Hashing/ContentFingerprint.cs:17-18 | k little-endian bytes tell numbers below 256^k apart |
| `Fingerprint.LittleEndianReadsBack` | WebApi/Hashing/ContentFingerprint.cs:17-18 | the bytes, lowest first, are the digits of the number to base 256 |
| `Fingerprint.SamplesAreRunTogether` | WebApi/Hashing/ContentFingerprint.cs:15-34 | equal inputs mean equal sizes and equal concatenated samples, and nothing more |
| `Fingerprint.EqualInputsExactlyWhen` | WebApi/Hashing/ContentFingerprint.cs:36-67 | two files have equal inputs if and only if sizes agree and the files are identical up to 2N, or agree on the first and last N bytes beyond |
| `Fingerprint.SamplesByPosition` | WebApi/Hashing/ContentFingerprint.cs:51-66 | that agreement, position by position |
| `Fingerprint.ExpectedSizeMattersOnlyBySign` | WebApi/Hashing/ContentFingerprint.cs:46-51 | a wrong positive size is corrected; a non-positive one hides the file |
| `Fingerprint.ComputeFromSamples` | WebApi/Hashing/ContentFingerprint.cs:15-34 | the buffer filled in place is size, head and tail |
| `Fingerprint.ComputeFromFile` | WebApi/Hashing/ContentFingerprint.cs:36-67 | never reads past the end, and hashes the specified input |
| `ReceivedCsv.PrintParse` | WebApi/Domain/UploadSession.cs:47-63 | parsing the printed text of any set of 32-bit indexes gives the set back |
| `ReceivedCsv.MarkAddsTheIndex` | WebApi/Domain/UploadSession.cs:58-63 | marking adds exactly one index to what any readable text says |
| `ReceivedCsv.MarksArePrinted` | WebApi/Domain/UploadSession.cs:47-63 | after any calls from the empty text, the text parses to exactly the marked indexes |
| `ReceivedCsv.TextIsTheAscendingJoin` | WebApi/Domain/UploadSession.cs:62 | the text is the strictly ascending join, whatever the order and repetition of calls |
| `ReceivedCsv.TenAndTwo` | WebApi/Domain/UploadSession.cs:62 | marking 10, 2 and 10 leaves the text "2,10" |
| `ReceivedCsv.ReceivedHint.MarkChunkReceived` | WebApi/Domain/UploadSession.cs:58-63 | the text after one call; unreadable text throws and stays |
| `ChunkCaching.OldestHalfIsOldest` | WebApi/Services/ReceivedChunkCache.cs:79-89 | the dropped half is half the map, none of it touched after anything kept |
| `ChunkCaching.EvictionIsFair` | WebApi/Services/ReceivedChunkCache.cs:66-89 | eviction as a whole never drops an entry touched more recently than one it keeps |
| `ChunkCaching.EvictionMakesRoom` | WebApi/Services/ReceivedChunkCache.cs:66-89 | eviction leaves the map below the cap |
| `ChunkCaching.EvictionIsNeeded` | WebApi/Services/ReceivedChunkCache.cs:66-89 | an entry goes only from a map of 10,000, and a live one only when 10,000 are live |
| `ChunkCaching.CapHolds` | WebApi/Services/ReceivedChunkCache.cs:28-89 | over every run of calls the cache holds at most 10,000 uploads |
| `ChunkCaching.ChunksAreTheMarksSinceCreation` | WebApi/Services/ReceivedChunkCache.cs:28-64 | an entry holds exactly the indexes marked since it was created |
| `ChunkCaching.LifetimeIsNeverTenMinutes` | WebApi/Services/ReceivedChunkCache.cs:21-24 | over all 32-bit settings the lifetime is never ten minutes; until the product wraps it is an hour if and only if the setting is three seconds or more, and where it first wraps it is five minutes |
| `ChunkCaching.ReceivedChunkCache.constructor` | WebApi/Services/ReceivedChunkCache.cs:19-26 | an empty cache with that lifetime |
| `ChunkCaching.ReceivedChunkCache.EvictIfNeeded` | WebApi/Services/ReceivedChunkCache.cs:66-89 | the two removal loops compute the specified eviction |
| `ChunkCaching.ReceivedChunkCache.GetOrCreateEntry` | WebApi/Services/ReceivedChunkCache.cs:28-40 | evicts, then touches or creates the entry |
| `ChunkCaching.ReceivedChunkCache.TryGetChunks` | WebApi/Services/ReceivedChunkCache.cs:42-57 | serves and touches a live entry, removes a stale one |
| `ChunkCaching.ReceivedChunkCache.MarkChunk` | WebApi/Services/ReceivedChunkCache.cs:59-62 | adds the index to the entry |
| `ChunkCaching.ReceivedChunkCache.RemoveEntry` | WebApi/Services/ReceivedChunkCache.cs:64 | drops the entry |

## Left out

- The S3, blob-node and Redis implementations: network clients around libraries; the merge logic they repeat is that of FileSystemStorage.
- Controllers, middleware, pages, event handlers, message brokers, audit, metrics, migrations: plumbing.
- The server's own SHA-256 and CRC: foreign calls. The server digest is a function of the bytes, required only to print 64 lower-case hex digits; `EndToEnd` additionally takes it to be SHA-256. Nothing is said about the byte order of the server's CRC text.
- Crashes of a node other than between two awaits, ambiguous commits, database retries and delayed visibility of files: each compare-and-set is one atomic step. A call or job that dies between awaits is modelled.
- Initiate is one step: dedupe lookup, quota check and insert are not interleaved with other initiates, which is the reading under which the quota can hold. Extension validation, the text form of the content fingerprint and its normalization are not modelled; file names are bare names, as Path.GetFileName leaves them.
- Merges are one step each in `Protocol`: the parts may change under a merge, but its name is resolved and written at one instant, so two merges never race for one name. A failed merge may leave any bytes under its name.
- Final names are compared exactly. On a file system that ignores case, a client name with an upload id in upper case can still lead two merges to one file.
- Case folding of checksums covers the ASCII letters; comparison of client addresses is a parameter.
- In `Services` a session's cache removals and log and metric calls are dropped; the session cache takes part in `Protocol`.
- The background loop is modelled for any finite number of turns; it does not end by itself.
- Client runs that overlap after a cancel or a fatal error share counters in the source; one run is modelled. Progress display and chunk compression are not.
- The chunk cache is modelled for calls that do not overlap, with one clock reading per call.
- Services.ProcessCompleteJob: does not say which bytes lie under the final name, because other nodes may touch the directory in that sequential view; the `Finals` theorems do.
- Quota.QuotaHolds: assumes that no merge finishes after its session's expiry; `Quota.FinishStaysWithinExactlyWhen` says when a late one does no harm.
- Quota.QuotaHoldsPerAddress: assumes the same.
- Merge.MergeParallel: takes a positive chunk size and a positive count, which initiate guarantees, but no other relation between size, chunk size and count.
