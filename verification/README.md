# Consul snapshots: backup and restore

A model of the snapshot tool's two backup/restore pairs, its encrypted container,
its daemon and its health check, with proofs that the restores undo the backups
and that the daemon never acknowledges a backup that is not stored.

`dafny verify dfyconfig.toml` checks everything.

## How it is built

- `World.dfy` is everything the program acts on: a file system (files and
  directories, with tree semantics), an object store, the Consul store. Every call
  consults a failure schedule: it goes through, fails, is torn (fails after a part
  of its effect: the front of a file, some of the directories to make or of the tree
  to remove, a whole upload) or kills the process. A statement without a hypothesis
  about the schedule holds for every such pattern.
  `log.Fatalf` and run-time panics end the process: later calls do nothing.
- What the program does not decide is a parameter (`World.Sys`): the schedule, the
  results of listings, the order directories are walked in, calendar dates, gzip,
  tar, SHA-256, the key derivation and the authenticated cipher. `Lawful` and
  `Sealing` state the few laws used: gzip and tar invert, gzip streams begin with
  their identification bytes (section 2.3.1 of RFC 1952), walks visit every
  location once, decryption inverts encryption (sections 7.1 and 7.2 of NIST SP
  800-38D).
- Each step of the program is a function from worlds to worlds (`...Spec`) and a
  method of the class that has it in the program, proved equal to that function.
  Properties are proved of the functions.
- JSON (RFC 8259), Base64 (RFC 4648, section 4), decimal numbers, UTF-8 and
  float64 rounding (IEEE 754, section 4.3.1) are modelled concretely. Go strings
  and byte slices are Dafny strings whose characters are bytes.
- Files: `Decimal`, `Float64`, `Text`, `Paths`, `Names`, `Utf8`, `Json`, `Base64`,
  `Members`, `Slices`, `Labels`, `Queries`, `Records` and `Metadata` are values and
  their codecs; `Archiver`, `ArchiveFacts`, `Trees` and `Snapshots` are archives and
  the disk; `ConsulClient`, `Crypt` and `Health` are components; `BackupService`,
  `RestoreService` and their `...Facts`, joined in `ServiceTrip`,
  `ServiceAcceptance`, `ServiceFaults` and `ServiceStops`, are the service pair;
  `LegacyBackup`, `LegacyRestore` and their `...Facts`, joined in `LegacyTrip`,
  `LegacyRetry`, `LegacyCrypt`, `LegacyStops`, `LegacyCleanup` and `LegacyRoundTrip`,
  are the legacy pair; `Daemon` is every history of the legacy backup, with a log of
  its runs, and `Watch` is what the health check says about them.

## Conditions the theorems name

- `FaultFree`: no call fails; `Smooth`: none does from now on. `World.Calm(s, cwd)` is another process, in a
  directory of its own, whose calls do not fail: a restore can be calm after a
  backup that was not, and on another machine.
- `Snapshots.Accepts`: what a disk must be for an archive to unpack there: no
  member has a file above it or a directory in its place. An empty directory is so
  (`FreshAccepts`, `FreshBaseAccepts`), and so is whatever an earlier unpacking, whole
  or torn, has left (`ExtractKeepsClear`, `RetryRestores`).
- `BackupFacts.Ready`, `ServiceTrip.Ready`, `LegacyTrip.Ready`,
  `LegacyBackupFacts.Unobstructed`: nothing on disk is in the way of the names a
  run uses, a bucket is configured, and for a restore the object exists and the disk
  accepts its members.
- `ServiceTrip.Follows`, `LegacyRoundTrip.Restoring`: a later world, on any such
  machine and over any store, that still has the object. Buckets belong to a
  provider (`World.Bucket`): an object in a GCS bucket is not in the S3 bucket of the
  same name.
- `Snapshots.Streaming`: a gzipped tar cut short unpacks to members of the whole,
  the last perhaps cut short. Only `LegacyRoundTrip.RetryRestores` and what leads to
  it use it.
- `World.Tree`: what exists on disk has directories above it. Every call keeps this
  (`Trees.dfy`).
- Host names contain no slash.

## What the proofs brought out

- **Archive layout.** The comment at backup/backup.go:393 and adapters/archiver.go:34
  says that files go to the root of the archive. The vendored library puts them
  under the source's base name when the target name is empty
  (vendor/github.com/mholt/archives/archives.go:165-168). The legacy restore relies
  on that; the service restore looks at the root. The layout is a parameter: the
  service pair round-trips for the flat layout and never for the nested one
  (`ServiceNestedStops`), the legacy pair for the nested one.
- **Start times beyond 2^53.** The service reader takes the start time through
  float64. Where that changes it the data files are not found, missing files are
  skipped, and the restore reports success having restored nothing
  (`ServiceRoundTrip` gives the exact condition).
- **Unreadable data files.** The service reader skips a data file it cannot read
  without an error. If only the read of the key file fails, the run restores the
  queries and ACLs, skips every key and reports success (`KeysSilentlyMissing`;
  `CompletedWholeIff` says exactly when success means the whole snapshot).
- **Empty backups.** A daemon that has just started and whose listings fail archives
  nil lists, acknowledges them and is healthy (`EmptyIsHealthy`; `ListedIff` says
  exactly when an archived list is one that Consul returned).
- **Damaged input.** Unreadable is not unparsable: a data file that is read and does
  not parse stops either restore before Consul is touched (`LoadingIff`), metadata
  without a numeric start time makes the service restore nothing and report success
  (`UntimedRestoresNothing`).
- **First-generation backups** cannot be restored: unpacking them ends the process
  before the code that would read them (`FirstGenerationStops`).
- **Failed runs leave files.** Only a run that gets past its upload cleans up; one
  that fails earlier leaves its staged files, keys and ACLs in plain text, on the disk
  (`RunBackupMeaning`, `StagingStaysBehind`, `LegacyBackupFacts.DoWorkMeaning`).
- **Invalid UTF-8** in keys is replaced when writing, so such keys come back
  changed (`KVListExactIff`).
- **".gz" in a path** makes the legacy restore look in the wrong directory
  (`StripExactIff`, `RestorableIff`).
- **Encryption.** The legacy backup encrypts a directory, which fails, and drops
  the error, so uploaded archives are never encrypted (`EncryptionIsInert`).
- **Short files** that begin with the container's prefix make decryption panic
  (`DecryptPanicsIff`).

## Model

| member | source | states |
|---|---|---|
| `ServiceTrip.ServiceRoundTrip` | services/restore_service.go:225-258 | With a flat archive layout: the object of any completed service backup, whatever failed on its way, is restored by a calm process on any machine (its own working directory and settings) over any store. The store becomes the target overlaid with the listed pairs, with the listed queries and ACLs appended in order, if the start time is exactly representable in float64. If not, and with no other snapshot's files about, the run reports success and the store stays as it was. |
| `ServiceTrip.ServiceRestoresExactly` | services/restore_service.go:135-163 | For start times from 0 to 2^53 and text that is valid UTF-8, that restore puts back the very records listed: under each listed key the bytes of its last pair, every field of every query, map and ACL. |
| `ServiceTrip.ServiceCopiesStore` | services/restore_service.go:170-205 | If Consul's listings are complete, the restore makes another store equal to the one that was backed up if and only if that store has no keys, queries or ACLs of its own beforehand (keys that the backup has too may be there). |
| `ServiceTrip.ServiceNestedStops` | services/restore_service.go:107-129 | With archives whose members sit under the source's base name (what the vendored library produces), no completed service backup can be restored: the run stops at the metadata. |
| `ServiceTrip.TakenReads` | services/restore_service.go:107-166 | A reader of the four staged files gets back the three lists, with invalid UTF-8 replaced, and the start time rounded to float64. |
| `ServiceTrip.TakenChecksums` | services/backup_service.go:300-312 | The checksums a reader finds in a service backup's metadata are the hashes of the three files archived beside it. |
| `ServiceTrip.DownloadPath` | services/restore_service.go:77-80 | A restore downloads to exactly the path the backup archived to. |
| `ServiceAcceptance.AcceptanceRoundTrip` | services/restore_service.go:48-58 | The same round trip in acceptance mode: the archive a completed run leaves on the disk restores from there, again exactly when float64 holds the start time, and else in silence nothing. |
| `ServiceFaults.ListsLoaded` | services/restore_service.go:132-167 | Under any schedule, once a flat archive whose start time float64 holds is unpacked and its metadata read, each of the three lists is loaded if and only if the read of its own file goes through; the other two do not matter. |
| `ServiceFaults.CompletedRestores` | services/restore_service.go:141-162 | Under any schedule, a run on such an archive that ends without an error has put over the store exactly the lists whose files were read; nothing else about the run is assumed. |
| `ServiceFaults.CompletedWholeIff` | services/restore_service.go:141-162 | So that means the whole snapshot if and only if the read of every non-empty list went through (or the store already held the pairs). |
| `ServiceFaults.KeysSilentlyMissing` | services/restore_service.go:141-147 | Every restore of such an archive that would succeed with nothing failing reports success with the queries and ACLs restored and every key missing if one call fails: the first after the metadata, which reads the key file. |
| `ServiceFaults.RetryRestores` | services/restore_service.go:225-258 | After a restore under any schedule, failed, torn or killed at any call, a calm one in a new process completes and puts the whole snapshot over what the first has left, whatever that was. |
| `BackupFacts.RunBackupMeaning` | services/backup_service.go:258-292 | Under every failure schedule: a run never writes to Consul; all it can change among the objects is its own, which then is an archive of its own fresh listing with matching checksums, and it is there if the run completes (outside acceptance mode). A completed run whose removals go through leaves the disk it found, plus the temporary directory, minus anything at or below the staging directory, and minus the archive or, in acceptance mode, with it. A run that fails to archive or upload leaves its staged files, and after a failed upload the archive, where they are. |
| `BackupFacts.StagingStaysBehind` | services/backup_service.go:262-275 | One that fails while staging leaves the staging directory. |
| `BackupFacts.ObjectPlace` | services/backup_service.go:208-232 | A completed run changes exactly one object: in the configured provider's bucket, by the S3 name or if that is empty the GCS name, under prefix ("backups" if none is set), year, month, day, and host and start time in the archive's name. |
| `BackupFacts.TargetsAgreeIff` | services/backup_service.go:210-220 | For one date function, the object names of two configurations and runs agree if and only if prefix in use, host and start time do. |
| `BackupFacts.RunBackupCompletes` | services/backup_service.go:258-292 | With nothing failing and nothing in the way of its names, a run completes, in either mode. |
| `BackupFacts.BackupLeavesNoTrace` | services/backup_service.go:241-255 | A run whose temporary names were unused leaves the file system it found if and only if the temporary directory existed before. |
| `BackupFacts.CleanupOrder` | services/backup_service.go:241-255 | The staging directory is removed first: a process killed between the two removals leaves the archive. |
| `BackupFacts.CollectFresh` | services/backup_service.go:75-100 | Collecting gives three fresh listings or an error, succeeds exactly when all three calls do, and never falls back on cached lists. |
| `BackupFacts.StagingEffect` | services/backup_service.go:128-168 | Successful staging adds exactly the four files under their derived names, and the metadata records the checksums of the three data files. |
| `BackupFacts.UploadEffect` | services/backup_service.go:194-238 | An upload that succeeds stores the archive's bytes under one provider's bucket and key and nothing else; one that fails has stored all of that or nothing. |
| `RestoreFacts.RunRestoreMeaning` | services/restore_service.go:225-258 | Under every failure schedule: a run that stops at download, extraction, metadata or parsing leaves Consul alone; any other applies a prefix of each list it holds after loading, all of each exactly if it reports success, and else reports as its number of errors how many lists were not applied in full; objects never change. A data file that could not be read counts as an empty list here: what that costs is stated by ListsLoaded and CompletedWholeIff. |
| `RestoreFacts.LoadBeforeWrite` | services/restore_service.go:225-255 | Consul is unchanged by a run that stops before the replay, and also by one whose process dies while downloading, extracting, inspecting or reading any data file. |
| `RestoreFacts.DeathLeavesConsul` | services/restore_service.go:141-162 | The second half alone: if the process is not alive when loading ends, nothing reaches Consul, although the run is then past every check. |
| `RestoreFacts.RestoreToConsulMeaning` | services/restore_service.go:170-205 | All three families are attempted; each applies exactly the elements before its first failing call; the error count is the number of families cut short. |
| `RestoreFacts.RunRestoreClears` | services/restore_service.go:234-235 | However a run ends after a successful download, if its two removals go through neither the archive nor anything under the extraction directory remains, although that path is set after the cleanup was deferred. |
| `RestoreFacts.CleanupOrder` | services/restore_service.go:208-222 | The archive is removed first: a process killed between the two removals leaves the tree. |
| `ServiceStops.DownloadingIff` | services/restore_service.go:48-86 | A restore gets past the download if and only if there is a storage client, a bucket name (S3's before GCS's), the object in that bucket, both calls go through and the file can be made; in acceptance mode always. |
| `ServiceStops.FetchedIsObject` | services/restore_service.go:60-86 | What is then on the disk is that object, byte for byte. |
| `ServiceStops.ExtractingIff` | services/restore_service.go:89-104 | It gets past the extraction if and only if the directory can be made, the archive is read, is a whole gzip and tar stream, and each of its members is unpacked. |
| `ServiceStops.DamagedStops` | adapters/archiver.go:62-100 | Under every schedule, an object that does not unzip, or whose tar stream is damaged, stops the run at the extraction at the latest, and Consul and the buckets are as they were. |
| `ServiceStops.DamagedAcceptanceStops` | adapters/archiver.go:62-100 | The same of the local archive of acceptance mode. |
| `ServiceStops.InspectingIff` | services/restore_service.go:107-129 | Under every schedule, once the archive is unpacked: the run stops at the metadata if and only if the file at the root of the tree is not read or does not parse; Consul is then as it was. |
| `ServiceStops.LoadingIff` | services/restore_service.go:132-167 | Under every schedule, once metadata with a start time is read: the run stops at loading if and only if one of the three files it names is read and does not parse; Consul is then as it was. A file that is not read is no error. |
| `ServiceStops.UntimedRestoresNothing` | services/restore_service.go:135-137 | With metadata that has no numeric start time the run reports success and has changed nothing. |
| `ServiceStops.ParsesIff` | services/restore_service.go:225-258 | With nothing failing, a flat archive whose metadata points to its three files restores if and only if all three parse; otherwise the run stops at loading and Consul is as it was. |
| `LegacyRoundTrip.LegacyRoundTrip` | backup/backup.go:174-258 | A legacy run that completes under any schedule has put into every bucket configured for it (one of either provider) what a calm legacy restore from that bucket, over any later store, on any machine that accepts the archive's members and has no ".gz" in its path, replays: exactly the keys the client held, queries and ACLs untouched, all counted, no errors; nothing if the recorded version is "0.0.1". |
| `LegacyRoundTrip.LegacyCopiesKeys` | restore/restore.go:361-373 | If the run's listing of the keys went through and is complete, the restore makes the keys of a store equal to those backed up if and only if it has no others. |
| `LegacyRoundTrip.AcknowledgedIsRestorable` | backup/backup.go:486-498 | In every state a daemon can reach from a store without an acknowledgement: from any configured bucket, what its acknowledgement names restores the keys held by a run of that very history that started then, which are the latest that run's process had listed. |
| `LegacyRoundTrip.RetryRestores` | restore/restore.go:63-115 | A legacy restore under any schedule, with failed puts, torn files or a death at any call, leaves a disk on which a calm second one, in a new process, brings back the whole snapshot. |
| `LegacyRetry.ReadyAgain` | restore/restore.go:189-245 | Nothing the first one can leave is in the way: not a shortened archive, not the members a cut stream unpacks to. |
| `LegacyRoundTrip.RestoreSnapshot` | restore/restore.go:63-115 | The same for any object that is an archive of a snapshot: the restore brings back that snapshot's keys. |
| `LegacyRoundTrip.AcceptanceRestoresLatest` | restore/restore.go:313-325 | Acceptance runs share a staging directory nothing clears; yet after a run that completes, over any earlier contents, a restore loads exactly that run's data. |
| `LegacyRoundTrip.SnapshotReads` | restore/restore.go:299-358 | The legacy reader gets back the three lists and the metadata of the four files a run writes. |
| `LegacyRoundTrip.SnapshotChecksums` | backup/backup.go:211-239 | The three recorded checksums are the hashes of the archived files. |
| `LegacyRoundTrip.FetchPath` | restore/restore.go:164-167 | For every run, the local path of its object is a directory, a slash and the name of the run's archive, as unpacking beside it needs. |
| `LegacyTrip.RestorableIff` | restore/restore.go:280-297 | With nothing where a shortened path would look, an archived snapshot can be restored if and only if the path it is unpacked to contains no ".gz". |
| `LegacyTrip.RestoreArchive` | restore/restore.go:63-115 | From bucket to store: fetch, unpack beside the archive, find the metadata by stripping suffixes, load, replay. |
| `LegacyTrip.OpenEncrypted` | restore/restore.go:84-93 | An encrypted container of an archive on disk opens under its passphrase to the same lists as the archive. |
| `LegacyCrypt.RestoreEncrypted` | restore/restore.go:63-115 | A restore from a bucket whose object is such a container ends with the keys of the archive inside over the store. |
| `LegacyCrypt.LockedNeverRestores` | restore/restore.go:63-115 | A restore from a bucket whose object is a container that does not open, or without a passphrase, ends the process and leaves Consul and the buckets as they were, under every schedule, also when it is fetched only in part. |
| `LegacyTrip.InspectOk` | restore/restore.go:283-309 | The metadata is found where it was unpacked when the path has no ".gz" of its own. |
| `LegacyTrip.InspectGz` | restore/restore.go:283-297 | Otherwise the path is cut short inside, and the first-generation fallback ends the process. |
| `LegacyTrip.UnpackOver` | restore/restore.go:209-240 | Unpacking an archive over the very directory it was packed from succeeds and changes nothing on the disk. |
| `LegacyTrip.UnpackBeside` | restore/restore.go:209-240 | Unpacking a nested archive where none of its members meets a file above it or a directory in its place succeeds and puts all four files in place, over an earlier unpacking too. |
| `LegacyTrip.FreshBaseAccepts` | restore/restore.go:209-240 | Where the archive's own directory does not exist yet, that is so. |
| `Daemon.AlwaysFit` | backup/backup.go:161-168 | Invariant of every history of ticks, crashes at any call, restarts and other users' writes: whenever the acknowledgement names a start time, every bucket whose name is longer than one character holds, under the key for it, the archive of a run logged in this history that started then; every logged run archived the latest lists its process had heard; so would the client now; the disk is a tree. |
| `Daemon.DaemonIsSafe` | backup/backup.go:161-168 | Every state reachable from a store without an acknowledgement satisfies it. |
| `Daemon.StartFits` | backup/backup.go:146-150 | A new daemon over a store without an acknowledgement satisfies the invariant. |
| `Daemon.BytesStay` | backup/backup.go:466-484 | Later runs that start at other times never change the bytes stored for a start time. |
| `Daemon.KeysDiffer` | backup/backup.go:469 | Two runs of one daemon share an object key if and only if they start in the same second. |
| `Daemon.WorkWritesLatest` | backup/backup.go:189-201 | A run archives, list by list, the latest listing that succeeded in this process, new or cached; and, if none of a family has, the nil list. |
| `Daemon.ListedIff` | backup/backup.go:189-201 | A list that a process archives is one that Consul returned to it in full if and only if it has heard any listing of that family; otherwise it is nil. |
| `Daemon.RunnerIsHistory` | backup/backup.go:161-168 | The ticker loop, which ends with the process at the first failed run, is one of these histories. |
| `Watch.AnswerMeans` | health/health.go:20-43 | For every state a daemon can reach: "no backup" means that no acknowledgement was ever written; "unreadable" is never said; "stale" and "healthy" are about the start of a run of this history whose archive is in every configured bucket, and a reported age is the time since that start (in 64-bit arithmetic). |
| `Watch.HealthyIsRestorable` | health/health.go:27-40 | If the check says "healthy, this old", then, barring overflow, a restore from any configured bucket brings back the keys that a run started that long ago had listed. |
| `Watch.EmptyIsHealthy` | backup/backup.go:189-201 | What the check cannot see: a new process of which nothing fails but its three listings archives three nil lists, acknowledges them, and is reported healthy; a restore of it restores nothing. |
| `LegacyBackupFacts.DoWorkMeaning` | backup/backup.go:174-258 | Wherever a run stops: objects change only under its own key, in the configured buckets of the provider they are configured for, to an archive of what its client held; the acknowledgement is written only when that archive is in all of them; an acceptance run writes neither but leaves its archive on disk; and a run that fails after an upload leaves its staged files and archive on disk. |
| `LegacyBackupFacts.RefusedFirst` | backup/backup.go:466-484 | S3 comes before GCS: an upload that S3 refuses leaves both stores as they were. |
| `LegacyBackupFacts.KeyIs` | backup/backup.go:466-470 | The object's name, spelled out: prefix, year, month, day, host and start time. |
| `LegacyBackupFacts.KeysAgreeIff` | backup/backup.go:466-470 | The object names of two configurations and runs agree if and only if prefix, host and start time do. |
| `LegacyCleanup.DoWorkCleans` | backup/backup.go:500-512 | After a run that completes and whose two removals go through, over any earlier disk: the disk is the one before, plus the temporary directory, minus the archive and minus everything at or below the staging directory. |
| `LegacyCleanup.DoWorkLeavesNoTrace` | backup/backup.go:500-512 | If both names were unused it is the one before, plus the temporary directory. |
| `LegacyCleanup.PostProcessOrder` | backup/backup.go:488-513 | The acknowledgement is written before anything is removed, and the archive goes before the staging directory. |
| `LegacyCleanup.CalmHistoryLeavesNothing` | backup/backup.go:161-168 | However many ticks a daemon has had of which nothing failed, no staging directory and no archive of any start time remains. |
| `LegacyBackupFacts.DoWorkCompletes` | backup/backup.go:174-258 | With nothing failing from its first call on and nothing in the way, a run completes; an empty directory or an old file in the archive's place is not in the way. |
| `LegacyBackupFacts.UnlistedCompletes` | backup/backup.go:189-201 | It completes as well if only its three listings fail, with whatever the client held before. |
| `LegacyBackupFacts.EncryptionIsInert` | backup/backup.go:242-244 | The encryption step is given a directory and changes nothing but the number of calls made. |
| `LegacyBackupFacts.WriteFamilyEffect` | backup/backup.go:207-237 | The checksum read back from disk is that of the text written. |
| `LegacyBackupFacts.CollectMeaning` | backup/backup.go:189-201 | A run serialises the lists the client holds after three listings whose errors are ignored. |
| `LegacyBackupFacts.CompressArchive` | backup/backup.go:369-409 | Compression leaves, beside the staging directory, an archive that is exactly the packed directory and carries the four files. |
| `LegacyRestoreFacts.DoWorkMeaning` | restore/restore.go:63-115 | Under every failure schedule: nothing is written to Consul unless loading came to its end; then only keys are, and the counts are the list length and the number of failed puts. (A decryption that fails is dropped and does not end loading.) |
| `LegacyRestoreFacts.LoadedIsOnDisk` | restore/restore.go:313-358 | Loading ends with the three lists only if all three files were read and parsed to exactly those lists, or if the version is "0.0.1", for which no file is looked at. |
| `LegacyRestoreFacts.RestoreKVMeaning` | restore/restore.go:361-373 | The store ends overlaid with exactly the pairs whose puts went through (the last of a key wins), and the errors count the others. |
| `LegacyRestoreFacts.RestoreKVLaid` | restore/restore.go:361-373 | Under each key of those pairs the store then has the bytes of the last one, and everything else is as before. |
| `LegacyRestoreFacts.RestoreKVAttempts` | restore/restore.go:364-371 | Every pair is attempted, whatever failed before it, and nothing but Consul is touched. |
| `LegacyRestoreFacts.SecondReplay` | restore/restore.go:361-373 | A second replay without failures changes nothing more. |
| `LegacyRestoreFacts.LockedStaysOut` | restore/restore.go:84-93 | Under a wrong passphrase, and any schedule, the dropped error leaves the container intact, unpacking ends the process, and Consul is unchanged. |
| `LegacyStops.StopsDead` | restore/restore.go:63-115 | Under every schedule, a restore that does not come to its replay ends the process and leaves Consul and the buckets as they were. |
| `LegacyStops.MissingObjectStops` | restore/restore.go:117-161 | Without the object, in the GCS bucket if one is named and else in the S3 bucket, there is no replay. |
| `LegacyStops.FetchingIff` | restore/restore.go:117-186 | A run gets past the fetch if and only if the directory and the empty file can be made, the object is there, and the calls that get it and write it go through. |
| `LegacyStops.FailedFetchLeavesEmpty` | restore/restore.go:164-186 | A fetch that is refused, or of an object that is not there, leaves the empty file behind. |
| `LegacyStops.ShortFetchGoesOn` | restore/restore.go:143-161 | A GCS download that breaks off is not noticed: the file is left short and the run goes on. |
| `LegacyStops.DecryptingIff` | restore/restore.go:78-90 | A run stops at the decryption if and only if the file is not read, is a container without a passphrase set, or is one that is read again and too short to be cut; one that does not open does not stop it. |
| `LegacyStops.DamagedStops` | restore/restore.go:189-245 | Under every schedule, an object that does not unzip, or whose tar stream is damaged, ends the process with Consul unchanged; from GCS, whose read error is dropped, if no read breaks off or no front of the object is a whole archive. |
| `LegacyStops.FirstGenerationStops` | restore/restore.go:251-275 | A first-generation backup in S3, gzipped JSON that is no tar stream, is such an object: the process ends before the fallback for it is reached. |
| `LegacyStops.LoadingIff` | restore/restore.go:299-358 | Under every schedule, once the archive is unpacked and its metadata read: the run comes to its replay if and only if the metadata parses and, unless its version is "0.0.1", each of the three files it points to is read and parses. |
| `LegacyStops.FallbackIff` | restore/restore.go:286-297 | Without metadata: if and only if the archive itself is read and unzips to a list of pairs, and those are the pairs. |
| `Crypt.ContainerRoundTrip` | crypt/crypt.go:36-125 | Encrypting and decrypting a file in place restores the file system for every text, passphrase, salt and nonce, and in between the file is recognised as encrypted. |
| `Crypt.ContainerParts` | crypt/crypt.go:67-73 | A container has the prefix, the 32-byte salt, the nonce and the sealed text where the reader cuts them. |
| `Crypt.DecryptPanicsIff` | crypt/crypt.go:94-114 | Decryption slices out of range if and only if the file is shorter than prefix, salt and nonce together. |
| `Crypt.EncryptIff` | crypt/crypt.go:36-86 | Encryption succeeds if and only if the file is there and can be written, and its four calls go through; the file then is the container. |
| `Crypt.DecryptIff` | crypt/crypt.go:89-125 | Decryption succeeds if and only if the file is read, is long enough, opens with the salt and nonce in it, and is written. |
| `Crypt.WrongPassphraseKeepsFile` | crypt/crypt.go:116-119 | A container that does not open stays as it is. |
| `Crypt.GzipIsNoContainer` | crypt/crypt.go:28-33 | No stream that gunzip accepts is taken for a container. |
| `Crypt.EncryptDirectoryInert` | crypt/crypt.go:36-40 | Given something that is not a file, encryption fails and changes nothing. |
| `Crypt.CheckEncryption` | crypt/crypt.go:23-33 | Says whether the file begins with the prefix, or that it could not be read. |
| `Crypt.EncryptFile` | crypt/crypt.go:36-86 | Assembles the container piece by piece and rewrites the file with it. |
| `Crypt.DecryptFile` | crypt/crypt.go:89-125 | Cuts the file slice by slice, opens it and rewrites it, or reports failure or a panic. |
| `ConsulClient.ReplayKeysPrefix` | consul/consul.go:70-77 | Exactly the pairs before the first failing call are stored, and an error is reported if and only if some were not. |
| `ConsulClient.ReplayKeysLaid` | consul/consul.go:70-77 | Under each key of those pairs the store then has the bytes of the last one, every other key and the queries and ACLs are as before. |
| `ConsulClient.ReplayPQsPrefix` | consul/consul.go:80-87 | The same for prepared queries, appended in order. |
| `ConsulClient.ReplayACLsPrefix` | consul/consul.go:90-97 | The same for ACLs. |
| `ConsulClient.RunIsLongest` | consul/consul.go:71-75 | That prefix is the longest run of calls that all go through. |
| `ConsulClient.OverlayAt` | consul/consul.go:71-75 | An overlay key by key: the last pair given for a key wins, with its very bytes, or none if it has no value; other keys keep theirs. |
| `ConsulClient.OverlayIsLaid` | consul/consul.go:71-75 | The same over all keys at once, without reference to how the overlay is computed. |
| `ConsulClient.OverlayCopiesIff` | consul/consul.go:70-77 | Overlaying a list of exactly a store's pairs gives that store's keys if and only if there were no others. |
| `ConsulClient.OverlayIdempotent` | consul/consul.go:70-77 | Overlaying the same list twice is overlaying it once. |
| `ConsulClient.Consul.RestoreKeys` | consul/consul.go:70-77 | The loop with early exit computes the replay; if it reports no error the store holds, under each key of the list, the bytes of its last pair. |
| `ConsulClient.Consul.RestorePQs` | consul/consul.go:80-87 | The loop with early exit computes the replay. |
| `ConsulClient.Consul.RestoreACLs` | consul/consul.go:90-97 | The loop with early exit computes the replay. |
| `Health.NeverStaleIff` | health/health.go:27-40 | For backups that always succeed within D on interval I, the check never reports a stale backup after the first acknowledgement if and only if max(I, D) + D is at most one hour and one nanosecond. |
| `Health.BoundSuffices` | backup/backup.go:161-168 | The bound suffices for every run of the ticker, whose channel drops missed ticks. |
| `Health.BoundNecessary` | backup/backup.go:161-168 | Beyond the bound some run of the daemon is reported stale. |
| `Health.VerdictExactIff` | health/health.go:27-40 | For every timestamp the daemon can write the verdict is the true one if and only if the 64-bit subtraction does not overflow. |
| `Health.Handler` | health/health.go:20-43 | Says that there is no backup exactly if none is stored, that the value is unreadable exactly if it is no 64-bit number, and for every time the daemon could have written, barring overflow, stale exactly if more than an hour has passed and else the true age. |
| `Health.DecideTells` | health/health.go:27-40 | That last statement about the decision itself, through printing and parsing. |
| `Names.StripExactIff` | restore/restore.go:283-285 | Removing the first ".tar.gz" and then the first ".gz" from P followed by ".tar.gz" yields P if and only if P contains no ".gz". |
| `Names.ObjectKeyInjective` | services/backup_service.go:210-220 | Equal object keys come from equal prefix, host and start time, whatever the date function. |
| `Names.ObjectKeyBase` | services/restore_service.go:77-80 | The base name of an object key is the archive's file name. |
| `Names.DataNamesDistinct` | backup/backup.go:303-305 | Data file names agree exactly for the same family and start time. |
| `Names.StageNameInjective` | services/backup_service.go:129-131 | A staging directory's name tells its host and start time. |
| `Float64.RoundIsNearestEven` | services/restore_service.go:135-137 | The modelled rounding of an integer is representable with a 53-bit significand, no representable value is nearer, and ties go to even. |
| `Float64.RoundExactIff` | services/restore_service.go:135-137 | The reader's start time equals the writer's if and only if it is representable. |
| `Float64.SmallIntegersExact` | services/restore_service.go:135-137 | All integers up to 2^53 in size are; 2^53 + 1 is not. |
| `Paths.ResolveJoin` | services/backup_service.go:149 | A name joined to a directory denotes that name in what the directory denotes. |
| `Paths.ResolveClean` | services/backup_service.go:131 | Cleaning a path does not change what it denotes. |
| `Paths.BaseJoin` | services/restore_service.go:78 | The base name of a joined path is the name joined. |
| `Paths.ResolveDir` | restore/restore.go:190 | The directory part of an archive's path denotes the directory it was put in. |
| `Json.UnmarshalMarshal` | services/backup_service.go:103-125 | Parsing the serialisation of any JSON value gives it back, with invalid UTF-8 in its strings and member names replaced. |
| `Base64.DecodeEncode` | services/backup_service.go:107-111 | Base64 decoding inverts encoding for every byte string and every padding. |
| `Utf8.SanitizeExactIff` | services/backup_service.go:107-111 | A string survives the writer's replacement of invalid UTF-8 if and only if it is valid. |
| `Records.KVListTrip` | services/restore_service.go:140-145 | Parsing a serialised list of pairs, nil, empty or not, gives the list back, its text cleaned. |
| `Records.KVListExactIff` | services/restore_service.go:140-145 | It gives the very list if and only if all its text is valid UTF-8; values are arbitrary bytes. |
| `Slices.ListIff` | services/restore_service.go:140-145 | Text parses as a list if and only if it is null or an array of which every element parses. |
| `Records.PairsOnly` | services/restore_service.go:140-145 | An element parses as a pair only if it is an object whose members, as far as they are there, are null or of the kinds a pair has. |
| `Members.KindsIff` | services/restore_service.go:140-145 | A member that is there is read if and only if it is null or of the right kind, a number in range, Base64 text. |
| `Records.PQListTrip` | services/restore_service.go:149-154 | The same for prepared queries, field by field. |
| `Records.ACLListTrip` | services/restore_service.go:158-163 | The same for ACLs, field by field. |
| `Queries.PreparedQueryTrip` | vendor/github.com/hashicorp/consul/api/prepared_query.go:127-158 | A query written as a JSON object, with its service, failover targets, tags, node and service metadata, DNS and template, decodes to the same struct, its text cleaned. |
| `Labels.LabelsTrip` | vendor/github.com/hashicorp/consul/api/prepared_query.go:90-97 | A map of strings under any names, written in the order of the names, reads back with names and texts cleaned; names that become equal keep the last. |
| `Labels.CleanLabelsExactIff` | vendor/github.com/hashicorp/consul/api/prepared_query.go:90-97 | It reads back unchanged if and only if all names and texts are valid UTF-8. |
| `Records.ACLEntryTrip` | vendor/github.com/hashicorp/consul/api/acl.go:123-130 | An ACL written as a JSON object decodes to the same six fields, its text cleaned. |
| `Records.CleanKVsExactIff` | services/restore_service.go:140-145 | Cleaning leaves a list of pairs unchanged if and only if all its text is valid UTF-8. |
| `Records.CleanPQsExactIff` | services/restore_service.go:149-154 | The same for prepared queries, over all their text. |
| `Records.CleanACLsExactIff` | services/restore_service.go:158-163 | The same for ACLs. |
| `Metadata.LegacyMetaTrip` | restore/restore.go:299-303 | The legacy metadata reads back, its text cleaned. |
| `Metadata.ServiceMetaTrip` | services/restore_service.go:107-129 | The service metadata parses to a map of untyped values. |
| `Metadata.ServiceMapHolds` | services/restore_service.go:135-137 | In that map each member is what was written, and the start time is read as the nearest float64. |
| `Metadata.TimedByNumber` | services/restore_service.go:135 | Nothing but a number is taken for a start time. |
| `Decimal.ParseInt64Format` | health/health.go:27 | Parsing the decimal form of any 64-bit integer gives it back. |
| `Archiver.TarGz` | adapters/archiver.go:22-49 | Creates the file, walks the source and writes the stream, or fails where a call fails. |
| `Archiver.UnTarGz` | adapters/archiver.go:52-101 | Unpacks entry by entry, stopping at the first failure; success means that the file was there and was a whole gzip and tar stream. |
| `Archiver.DamagedRefused` | adapters/archiver.go:62-70 | Nothing else passes for unpacked, under any schedule. |
| `ArchiveFacts.EntriesComplete` | adapters/archiver.go:31-40 | Every file below the source becomes a member with its contents. |
| `ArchiveFacts.DirsComplete` | adapters/archiver.go:31-40 | So does every directory, empty or not, but for an unnamed root. |
| `ArchiveFacts.EntriesSound` | adapters/archiver.go:31-40 | Every member comes from a location below the source, without repetition. |
| `ArchiveFacts.TreeIsCoherent` | adapters/archiver.go:31-40 | Members of a tree never sit below a file member. |
| `ArchiveFacts.ExtractPlaces` | adapters/archiver.go:69-100 | After unpacking, every file member is in its place. |
| `ArchiveFacts.ExtractElsewhere` | adapters/archiver.go:69-100 | Unpacking writes only where a file member belongs. |
| `ArchiveFacts.ExtractOk` | adapters/archiver.go:69-100 | Unpacking a coherent archive succeeds when nothing on disk is in a member's way and nothing fails. |
| `ArchiveFacts.ExtractSame` | restore/restore.go:209-240 | Unpacking what is already there changes nothing. |
| `ArchiveFacts.ExtractKeepsClear` | adapters/archiver.go:69-100 | Unpacking a coherent archive, or any part of it, under any schedule leaves the way clear for every one of its members. |
| `Snapshots.PackCarries` | services/backup_service.go:172-190 | Packing a directory that holds the four files carries them, whatever else is there. |
| `Snapshots.TarGzIff` | adapters/archiver.go:22-49 | Archiving succeeds if and only if the file can be made, the source exists and its three calls go through. |
| `Snapshots.UnpackAt` | services/restore_service.go:89-104 | Unpacking an archive that carries a snapshot puts its four files in place. |
| `Snapshots.FreshAccepts` | adapters/archiver.go:69-100 | A directory that can be made and has nothing in it accepts every archive. |
| `Snapshots.StagedAt` | services/backup_service.go:128-168 | The four derived names differ, so no staged file overwrites another. |
| `Snapshots.AtIs` | backup/backup.go:303-306 | The four files of a snapshot are those with these very names. |
| `LegacyBackup.Runner` | backup/backup.go:161-168 | The loop over ticks; an error ends the process. |
| `LegacyRestore.Restore.RestoreKV` | restore/restore.go:361-373 | The counting loop computes the replay that attempts every pair. |

## Steps

The methods of the program's classes. Each is proved equal to its `...Spec`
function on the whole state it may change; what the steps achieve is stated above.

| method | source | does |
|---|---|---|
| `ConsulClient.Consul.ListKeys` | consul/consul.go:37-45 | Replaces the cached list and its length on success and changes neither on failure. |
| `ConsulClient.Consul.ListPQs` | consul/consul.go:48-56 | The same for prepared queries. |
| `ConsulClient.Consul.ListACLs` | consul/consul.go:59-67 | The same for ACLs. |
| `BackupService.BackupService.CollectData` | services/backup_service.go:75-100 | Lists keys, queries and ACLs through the caching client, stopping at the first error. |
| `BackupService.BackupService.SerializeData` | services/backup_service.go:103-125 | Serialises the three lists; nil lists become null. |
| `BackupService.BackupService.WriteMetadata` | services/backup_service.go:300-317 | Writes the metadata document from the recorded checksums. |
| `BackupService.BackupService.WriteLocalFiles` | services/backup_service.go:128-168 | Makes the staging directory and writes four files, recording a checksum for each data file written. |
| `BackupService.BackupService.CompressBackup` | services/backup_service.go:172-190 | Archives the staging directory beside it. |
| `BackupService.BackupService.UploadBackup` | services/backup_service.go:194-238 | Reads the archive and uploads it to the first configured bucket. |
| `BackupService.BackupService.Cleanup` | services/backup_service.go:241-255 | Removes the staging directory and, outside acceptance mode, the archive. |
| `BackupService.BackupService.RunBackup` | services/backup_service.go:258-292 | Runs the steps in order, stopping at the first error; cleans up only after an upload. |
| `RestoreService.RestoreService.DownloadBackup` | services/restore_service.go:48-86 | Fetches the object to the temporary directory, or names the local archive in acceptance mode. |
| `RestoreService.RestoreService.ExtractBackup` | services/restore_service.go:89-104 | Unpacks beside the archive, setting the extracted path first. |
| `RestoreService.RestoreService.LoadMetadata` | services/restore_service.go:107-129 | Reads the metadata map from the root of the extracted tree. |
| `RestoreService.RestoreService.LoadBackupData` | services/restore_service.go:132-167 | Loads the lists named by the start time; unreadable files are skipped, unparsable ones are errors. |
| `RestoreService.RestoreService.RestoreToConsul` | services/restore_service.go:170-205 | Replays the non-empty lists and counts the families that failed. |
| `RestoreService.RestoreService.Cleanup` | services/restore_service.go:208-222 | Removes the archive and the extracted tree, as far as their paths are set. |
| `RestoreService.RestoreService.RunRestore` | services/restore_service.go:225-258 | Runs the steps in order with a deferred cleanup. |
| `LegacyBackup.Backup.Collect` | backup/backup.go:189-201 | Lists and serialises, ignoring listing errors. |
| `LegacyBackup.Backup.PreProcess` | backup/backup.go:288-308 | Makes the staging directory and derives the file names, or ends the process. |
| `LegacyBackup.Backup.CalcSha256` | backup/backup.go:127-141 | Hashes a file as it is on disk. |
| `LegacyBackup.Backup.WriteFileLocal` | backup/backup.go:349-367 | Writes a file of the staging directory. |
| `LegacyBackup.Backup.WriteKV` | backup/backup.go:206-215 | Writes the keys and takes the checksum from disk. |
| `LegacyBackup.Backup.WritePQ` | backup/backup.go:217-226 | Writes the queries and takes the checksum from disk. |
| `LegacyBackup.Backup.WriteACL` | backup/backup.go:228-237 | Writes the ACLs and takes the checksum from disk. |
| `LegacyBackup.Backup.WriteMetaLocal` | backup/backup.go:312-346 | Writes the metadata struct, or ends the process. |
| `LegacyBackup.Backup.CompressStagedBackup` | backup/backup.go:369-409 | Removes an old archive, ignoring the error, and writes the new one, or ends the process. |
| `LegacyBackup.Backup.WriteBackupRemote` | backup/backup.go:466-484 | Uploads to S3 and then to GCS where the bucket name is longer than one character. |
| `LegacyBackup.Backup.PostProcess` | backup/backup.go:488-513 | Writes the acknowledgement, or ends the process; then removes the archive and the staging directory. |
| `LegacyBackup.DoWork` | backup/backup.go:174-258 | One whole run on the shared client. |
| `LegacyRestore.Restore.GetRemoteBackup` | restore/restore.go:164-186 | Makes the local directory and file and fills it from S3, or from GCS if a GCS bucket is named. |
| `LegacyRestore.Restore.Download` | restore/restore.go:117-161 | Fetches from S3, writing as it goes, or, if a GCS bucket is named, from GCS, whose read error is dropped and leaves a shortened file. |
| `LegacyRestore.Restore.Decrypt` | restore/restore.go:78-90 | Decrypts a container in place, dropping the error; without a passphrase the process ends. |
| `LegacyRestore.Restore.ExtractBackup` | restore/restore.go:189-245 | Unpacks beside the archive, or ends the process. |
| `LegacyRestore.Restore.ParseV1Data` | restore/restore.go:251-275 | The fallback for archives without metadata. |
| `LegacyRestore.Restore.InspectBackup` | restore/restore.go:280-310 | Derives the extracted path and reads the metadata from it. |
| `LegacyRestore.Restore.LoadKVData` | restore/restore.go:313-326 | Loads the pairs the metadata points to, or ends the process. |
| `LegacyRestore.Restore.LoadPQData` | restore/restore.go:329-342 | The same for prepared queries. |
| `LegacyRestore.Restore.LoadACLData` | restore/restore.go:345-358 | The same for ACLs. |
| `LegacyRestore.DoWork` | restore/restore.go:63-115 | One whole restore. |

## Left out

- Consul's, S3's and GCS's clients, endpoints, server-side encryption options and credentials: only the maps they act on and the possibility of failure are kept.
- Command line, user interface, logging and the HTTP listener.
- Reading the configuration from the environment, and `Runner`'s one-shot mode, which is one `DoWork`.
- The insides of AES-GCM, scrypt, SHA-256, gzip and tar; calendar computation.
- JSON: case-insensitive matching of member names, duplicate members other than "the last one wins", line breaks inside Base64 text, byte slices given as arrays of numbers, and start times written with a fraction or an exponent; none of these is written by the two backups. Elements of the lists that are nil pointers, which Consul's client does not return.
- File modes, links and open handles.
- Archiver.TarGz: archives one source, as all its callers do; the source takes a list.
- Archiver.UnTarGz: appends a member's name to the directory component by component, and does not clean ".." or empty components out of it; no archive made by the two backups has any.
- A call to Consul that is reported as failed but took effect. (Uploads, writes, removals and new directories that do are modelled.)
- Objects changed or deleted by others, and other writers of the acknowledgement key.
- Two daemons, or a restore, running at the same time as a backup on one disk.
- ServiceTrip.ServiceRoundTrip: that an unrepresentable start time restores nothing is stated for a staging and an extraction directory that were empty; with files of another snapshot in them the reader may find those.
- LegacyRoundTrip.AcceptanceRestoresLatest: the restore runs in the same directory and on the same disk as the run.
- LegacyTrip.RestorableIff: assumes that a tar stream does not parse as a JSON list, and that nothing is found where the shortened path looks.
- Health.NeverStaleIff: monotonic and wall clock are one clock, with no leap or adjustment, and starting a job takes no time after its tick.
