# Verified models of the alumni site's back-office machinery

This project models the parts of the alumni site where a mistake is expensive and a test run
shows little: the outbox that revokes social logins, the production release with its rollback
and its erasure gates, the one-off migration to canonical identities, the backup rotation, and
three text programs whose two halves must agree with each other (the SQL dump scanners and
their printer, the Markdown list normalizer, the notification templates).

Code that changes things step by step is modelled by classes and methods with loops, in the
source's own branches, and each method is proved against a specification. What the source
promises is then proved of whole runs: every interleaving, every failing command, every
sequence of operations. `dafny verify dfyconfig.toml` checks everything.

| files | what they model |
|---|---|
| `Outbox`, `OutboxLeases`, `OutboxSafety`, `OutboxBudget`, `OutboxCalls`, `OutboxStrays`, `OutboxSiblings`, `OutboxGuards`, `OutboxExact`, `OutboxOrigins`, `OutboxWitnesses`, `OutboxWorker`, `Backoff` | the social revocation outbox: the worker, the statements of its repository, other workers, the operator, crashes |
| `FileTree`, `ReleaseHost`, `ReleaseSnapshot`, `WebOrder`, `WebInstall`, `ReleaseDeploy`, `ReleaseTransaction`, `ReleaseRollout`, `Migrations`, `Bundle`, `ReleasePayload` | the release transaction on the host, rollout gates, migration journal, bundle and archive |
| `IdentityTransform`, `IdentityTables`, `IdentityBackfill`, `IdentityHistory`, `IdentityMeaning` | the canonical identity backfill |
| `SqlDump`, `SqlFields`, `SqlClauses` | the dump scanners, the literal printer, and rows as dumps write them |
| `MarkdownLists`, `MarkdownInk`, `TemplateText`, `TemplateValidation` | text rewriting and validation |
| `BackupRotation`, `BackupHost` | weekly backups and the prune |

## Where the source does less than it promises

Each of these is a lemma with a concrete case, next to the condition under which the promise
does hold.

- A provider is called again for an ACCOUNT_DELETE row that is already revoked when the release
  of a DELIVERED row is lost, or its finalization took effect but was reported as failed
  (`OutboxWitnesses.LostReleaseCallsAgain`): the claim's second statement selects by token alone,
  so the row is handed back with status DELIVERED. A revoked row is called again exactly when it
  was handed back so (`OutboxSafety.RevokedStaysRevoked`).
- The same happens without any lost write when two REVOKED rows of one member and provider are in
  one batch: finalizing the first delivers the second as well, and the worker that holds it is not
  told (`OutboxWitnesses.SiblingCalledAgain`). Suppose every release is written, every finalization
  is reported as it went, and no deletion is queued beside an undelivered one of the same member
  and provider. Then a revoked row can be called again if and only if two undelivered deletions of
  one member and provider are in the table to begin with (`OutboxExact.CalledAgainIff`).
- A revoked DISCONNECT row goes back to PENDING, and its provider is called again, when the
  revocation transaction fails before it has read the row
  (`OutboxWitnesses.FailedTransactionCallsAgain`); for no other reason (`OutboxSafety.TakenBackIff`).
- Finalizing one DISCONNECT row delivers every open row of the member and provider, whoever holds
  its claim (`OutboxWitnesses.SiblingIsDelivered`); apart from claiming, nothing else writes a row
  without its claim (`OutboxLeases.OnlyHolderWrites`).
- The attempt cap does not bound how often a DISCONNECT row is taken up: a row whose link was
  reactivated stays claimed and is picked up on every tick without an attempt being counted
  (`OutboxWitnesses.DroppedForEver`).
- Nor does it bound the calls for a row that is not a DISCONNECT row and is delivered behind its
  worker's back: the failure record passes a DELIVERED row by, so its provider is called on every
  tick and no attempt is counted (`OutboxWitnesses.SiblingCalledForEver`). Suppose one
  worker's bookkeeping writes succeed and no row is queued beside an open one of the same member,
  provider and action. Then the ten calls hold in every run if and only if no other such row is open to begin with, or the row is not an ACCOUNT_DELETE row
  (`OutboxExact.CallsAreBoundedIff`), and likewise the ten turns beside the dropped ones, for
  DISCONNECT rows too (`OutboxExact.TurnsAreBoundedIff`).
- The key of migration 044 is meant to allow one open revocation per member, provider and action.
  It covers PENDING rows only, so it lets a deletion be queued beside a REVOKED one, and then the
  provider of that one can be called any number of times (`OutboxExact.KeyIsNoGuard`).
- `install_web` leaves out every `index.html` below the top directory
  (`WebOrder.NestedPageWitness`, `WebOrder.CompleteIff`).
- `install_web` can end with the new page in place and an asset missing, because an asset may have
  the staging name of another file, for instance index.html.release-new
  (`WebOrder.StagedPageWitness`). The page is safe in every order if and only if there is no such
  asset, or a directory has such a name and no run gets to the page (`WebOrder.PageLastIff`).
- A deploy that fails is rolled back without checking the live gates. A drop-in that turns them on
  and is read after the script's own leaves them on whenever a deployment ends so
  (`ReleaseTransaction.DeployShadowed`), though it keeps a deployment from succeeding; they are off
  if and only if there is none or it turns them off too (`ReleaseTransaction.Deploy`).
- A prune that stops half way can leave a complete backup that no longer matches its checksums,
  and, where names carry no time, make it the newest (`BackupRotation.TornBackupWitness`); new
  backups are otherwise verified (`BackupRotation.NewBackupsAreVerified`), and with times from names
  the newest stays so (`BackupRotation.NewestStaysVerified`).
- A dry run of the backfill, and any run that was rolled back, still uses up identity numbers
  (`IdentityHistory.NumberIsUsedUp`); the reported figures do not depend on them
  (`IdentityHistory.StatsIgnoreNumbers`).

## Assumptions

- Database statements and transactions are atomic steps. One that reports an error outside a
  transaction may have taken effect. The outbox has one clock.
- Claim tokens of different workers differ, so the fixed fallback token of a process without a
  random source is not modelled.
- A claim may pick any set of at most twenty due rows, and its second statement any of the rows
  with the worker's token, which covers every order and every unreadable row.
- A digest is taken to be as good as the contents it digests.
- The release directory is a directory directly below /app/releases, as the release client makes
  it. A directory lists each migration once. There are no symbolic links on the host, and the
  paths of a bundle are made of ordinary entry names. systemd reads the rollout file when the service starts and the drop-in at a
  daemon-reload.
- During a backfill run nothing else writes the canonical tables. Their keys are those of
  migration 041, whose ascii_bin collation ignores trailing blanks.

## Model

The first 54 rows are the main results, the next 12 the concrete cases in which a promise fails;
the rest are the operations and the steps those rest on.

| member | source | states |
|---|---|---|
| `OutboxSafety.RevokedStaysRevoked` | backend/internal/job/social_revocation_worker.go:183-233 | In every run of one worker, restarted after any crash, with failing providers, failing writes and operator retries in between, a row once REVOKED never becomes PENDING or FAILED again, and its provider is called again if and only if the claim handed the row back as DELIVERED. |
| `OutboxSafety.NeverCalledAgain` | backend/internal/job/social_revocation_worker.go:219-252 | In every run of one worker without a lost release or an unacknowledged finalization, no provider is called for a row other than a DISCONNECT row once it was REVOKED, unless the finalization of another row of the same member, provider and action delivered a REVOKED row that the worker holds. |
| `OutboxExact.CalledAgainIff` | backend/internal/repository/account_deletion_request_repo.go:216-224 | From any initial state: a run of one worker without a lost release or unacknowledged finalization, in which no deletion is queued beside an undelivered one of the same member and provider, can call a provider for a revoked row again if and only if two undelivered deletions of one member and provider are in the table. |
| `OutboxSafety.TakenBackIff` | backend/internal/job/social_revocation_worker.go:205-217 | A step takes a revoked DISCONNECT row back if and only if it records, as PENDING, a failure that came before the row was read. |
| `OutboxSafety.DisconnectRunIsSafe` | backend/internal/repository/social_revocation_repo.go:53-101 | Over every interleaving without such a record, revoked DISCONNECT rows stay revoked and are never sent to the provider again. |
| `OutboxOrigins.RevokedWasAnswered` | backend/internal/job/social_revocation_worker.go:189-252 | Over every interleaving of any number of workers, with crashes, lost writes and operator retries, a row that became REVOKED was so at the start or has had its provider called for it, and answering, at an earlier step. |
| `OutboxOrigins.DeliveredWasAnswered` | backend/internal/job/social_revocation_worker.go:219-266 | Over the same runs, whatever became DELIVERED has the same said of it or of a row of the same member, provider and action. |
| `OutboxLeases.OnlyHolderWrites` | backend/internal/repository/social_revocation_repo.go:24-101 | A step of anyone but the holder changes a DISCONNECT row if and only if it claims it when due and free or stale, or finalizes another open row of the same member and provider. |
| `OutboxLeases.LostClaimLeavesRow` | backend/internal/job/social_revocation_worker.go:189-217 | With one open DISCONNECT row per member and provider, a worker that lost a claim leaves the row as it is and does not call its provider. |
| `OutboxLeases.TakeoverAfterSilence` | backend/internal/job/social_revocation_worker.go:30-35 | Over every run, a worker takes a row over from another only if nobody touched the row for the whole stale window before: at every point within it the row was just what it is at the takeover. |
| `OutboxBudget.AtMostTenTurns` | backend/internal/job/social_revocation_worker.go:26-28 | When the bookkeeping writes of a lone worker succeed, a row of any action is taken up at most ten times less its starting attempts, plus the turns dropped as expired, provided that no finalization of another row of the same member, provider and action delivers it while the worker holds it. |
| `OutboxCalls.AtMostTenCalls` | backend/internal/job/social_revocation_worker.go:26-28 | In runs whose bookkeeping writes succeed, the provider of any DISCONNECT row, and of any other row that is not so delivered, is called at most ten times less its starting attempts, dropped turns or not. |
| `OutboxExact.TurnsAreBoundedIff` | backend/migrations/044_enforce_account_lifecycle_invariants.sql:141-148 | From any initial state with the row open: over all runs whose bookkeeping writes succeed and in which no row of its member, provider and action is queued beside an open one, the bound on turns holds if and only if no other such row is open, or the action is one that is never finalized. |
| `OutboxExact.CallsAreBoundedIff` | backend/migrations/044_enforce_account_lifecycle_invariants.sql:141-148 | Over the same runs the bound on calls holds if and only if no other such row is open, or the row is not an ACCOUNT_DELETE row. |
| `OutboxSiblings.OneOpenNeverStrays` | backend/internal/repository/account_deletion_repo.go:23-44 | In every run of one worker, crashes and lost writes included, during which no two rows of its member, provider and action are open together, whatever closed ones are kept, a row is never so delivered. |
| `Backoff.BackoffIsCapped` | backend/internal/job/social_revocation_worker.go:350-359 | With 64-bit wrap-around and either out-of-range conversion, the wait is min(2^n minutes, one hour) for every n >= 0, and one hour for negative n. |
| `ReleaseTransaction.Deploy` | deploy/remote_release.py:320-398 | Deployed whole and paused; or refused, the backend untouched and Apache at most stopped; or rolled back with the rollout file paused even if it was enabled, the live gates then being off if and only if no later drop-in sets them or that one turns them off; or stuck, and then the backend is untouched, down or paused. Refused or rolled back, every path is exactly as before, save the release directory, the two rollout files, the staging names and what lies above a place of installation; in no outcome does anything change elsewhere than at the named places. The migration journal makes one attempt at the payload, and none at all unless schema changes were asked for. |
| `ReleaseSnapshot.RestoreGivesBack` | deploy/remote_release.py:228-241 | Whatever became of the targets meanwhile, restoring gives every recorded path exactly its earlier existence and contents. |
| `ReleaseRollout.GatesAreAsAsked` | deploy/remote_release.py:464-477 | Over every sequence of operations whose cleanup succeeds, the backend was never touched, is down, is paused, or runs exactly what the last operation that returned was asked for, with nothing touching it since. |
| `ReleaseRollout.PauseHolds` | deploy/remote_release.py:404-418 | After a pause that returned, unless another drop-in turns erasure on, no sequence of deploys, pauses, retention changes and failed operations does. |
| `ReleaseRollout.RunAll` | deploy/remote_release.py:463-477 | Any list of operations run by the program: its backends are a run of the gates, and its journal a run of the migrations when all deployments are of one payload, so the results about runs hold of it. |
| `Migrations.RecordedOnce` | deploy/remote_release.py:131-148 | Over any sequence of deployments of one payload, no migration is recorded twice, and what a run records is the payload's file. |
| `Migrations.ExecutionsAccounted` | deploy/remote_release.py:275-281 | Executions of a migration over all runs are one if it got recorded meanwhile plus one for each run that stopped on it. |
| `Migrations.CompleteRunMatchesPayload` | deploy/remote_release.py:275-281 | A run that gets through leaves the history naming exactly the files of the payload. |
| `WebOrder.PageLastIff` | deploy/remote_release.py:292-304 | At every point of every run, into any destination and in any order of the files, the new page is there only if every asset is, if and only if no asset has the staging name of another file to install, or a directory has such a name and no run gets to the page. |
| `WebOrder.CompleteIff` | deploy/remote_release.py:301-304 | A successful run has put every source file in place if and only if no asset was staged over after it and each nested page was there with its new contents already. |
| `Bundle.BundleRoundTrip` | deploy/release.py:88-93 | For every bundle verify accepts, packed in any order, unpack accepts the archive in a fresh directory and yields the same manifest and exactly the same artifact files. |
| `Bundle.UnpackIsSound` | deploy/remote_release.py:91-114 | Whatever archive is accepted, nothing outside the new directory changed and the files in it are those of the manifest. |
| `ReleasePayload.DeployedIsListed` | deploy/remote_release.py:320-384 | After an accepted archive is unpacked and its release deployed, the binaries, both configurations and the pages in place are those the manifest lists, by digest. |
| `IdentityHistory.ZeroConflictsFromEmpty` | backend/cmd/backfill/identity_backfill.go:145-309 | From empty tables, zero conflicts if and only if accounts are distinct, password holders valid, readable and distinct in username and e-mail, and links valid, known and distinct; then tables and counters are the image. |
| `IdentityTables.NoConflictIffClean` | backend/cmd/backfill/identity_backfill.go:168-289 | Over any tables, the three loops report no conflict if and only if the source is clean with respect to them. |
| `IdentityTables.CleanGivesImage` | backend/cmd/backfill/identity_backfill.go:168-289 | A clean source leaves its direct image in the tables, numbered consecutively, beside what was there; the counters are its sizes and so are the numbers used. |
| `IdentityMeaning.RowsMean` | backend/cmd/backfill/identity_transform.go:69-142 | For every source and all consistent tables, by the raw text of the legacy columns: a new account is withdrawn exactly for AAA, active exactly for BAA, BBB, CCC and ZZZ, up to case and blanks, and else suspended; each new identity carries the account, name, e-mail and hash of one member whose status does not say withdrawn, or is that of one link as its texts say. |
| `IdentityMeaning.CleanLeavesNobodyOut` | backend/cmd/backfill/identity_backfill.go:193-289 | Without conflicts everyone whose status does not say withdrawn and whose hash is not blank has such an identity with the credential, and so has every link. |
| `IdentityTables.CountersAddUp` | backend/cmd/backfill/identity_backfill.go:145-309 | For every source and all consistent tables: each scanned row is created or a conflict, one credential goes with each password identity, and the tables grew by just the counted rows. |
| `IdentityBackfill.Apply` | backend/cmd/backfill/identity_backfill.go:99-143 | In every outcome, a commit error with unknown result included, the canonical rows are those of the specification and the three steps journaled if the run says APPLIED, and unchanged otherwise; conflicts are reported and recorded with their number. |
| `IdentityHistory.RowsPresentIffApplied` | backend/cmd/backfill/identity_backfill.go:99-143 | At every moment of any sequence of runs the account states, identities and credentials are those of the start plus the images of the runs that say APPLIED. |
| `IdentityHistory.AppliedOnce` | backend/cmd/backfill/identity_backfill.go:120-129 | After an APPLIED run, any run that shares a member with it conflicts and changes nothing. |
| `IdentityHistory.StatsIgnoreNumbers` | backend/cmd/backfill/identity_backfill.go:69-97 | The figures do not depend on identity numbers used up before, so a dry run and a later apply from the same rows report the same. |
| `SqlDump.TableRoundTrip` | backend/cmd/migrate_to_md/migrate_dump_parser.go:79-183 | Printing any table of byte strings and running both scanners gives exactly the same rows and values. |
| `SqlClauses.ClauseIsRead` | backend/cmd/migrate_to_md/migrate_dump_parser.go:79-183 | Every clause of rows of literals, with every escape, and unquoted values, with blanks around them and anything plain between the rows, is cut into exactly its rows and each row into one value for each field: the literal's text, the value as written, the empty text for NULL. |
| `SqlDump.ScannersAgree` | backend/cmd/migrate_to_md/migrate_dump_parser.go:79-183 | On every input the rows are disjoint, in order and balanced outside quotes, and the value scanner reads each in the same string states, ending outside a string. |
| `MarkdownLists.NormalizeMarkdownLists` | backend/internal/migrator/markdown_normalizer.go:28-75 | The pending-line loop equals the two-step definition: re-indent bullets in numbered sections, then join colon lines to the bullet they follow. |
| `MarkdownLists.Idempotent` | backend/internal/migrator/markdown_normalizer.go:28-75 | Normalizing twice is normalizing once, for every text. |
| `MarkdownInk.KeepsInk` | backend/internal/migrator/markdown_normalizer.go:28-75 | For every text, normalizing changes blanks, line breaks and star bullets only: all other characters are there in the same order. |
| `TemplateText.ContainsIsScanned` | admin/src/lib/notificationTemplateText.ts:39-41 | For every text and brace-free name, the substring test holds if and only if the token is one of those scanned. |
| `TemplateText.ServerRendersLikePreview` | backend/internal/service/notification_template_render.go:41-50 | The server's replacer gives what the token-by-token renderer gives, for every text and all values. |
| `TemplateValidation.EmptyRecordMeansAcceptable` | admin/src/lib/notificationTemplateValidation.ts:44-119 | The record is empty if and only if the draft meets the rules, stated without their order. |
| `TemplateValidation.AcceptedSmsFits` | admin/src/lib/notificationTemplateValidation.ts:89-103 | An accepted SMS draft, as the server renders it, costs no more than the byte limit, one byte for each character and one more for each that is not ASCII, for all values that cost no more than the sample of the last placeholder of their name. |
| `BackupRotation.ABackupAlwaysRemains` | deploy/backup_rotation.py:83-151 | Over every sequence of runs, each failing anywhere, once a complete backup exists one always exists. |
| `BackupRotation.NewBackupsAreVerified` | deploy/backup_rotation.py:83-115 | Over every sequence of runs, finished or not, a complete backup that was not complete at the start is verified, or a prune that stopped half way had begun to remove it as overdue. |
| `BackupRotation.NewestStaysVerified` | deploy/backup_rotation.py:83-151 | Over every sequence of runs, each failing anywhere, once the newest complete backup is verified it stays so, when times come from names and do not tie. |
| `BackupRotation.OverdueOnlyWhenNewest` | deploy/backup_rotation.py:154-158 | After a prune the oldest data is overdue only when it is the newest backup, the only one left. |
| `BackupRotation.YoungSurvives` | deploy/backup_rotation.py:128-135 | Over every sequence of runs, each failing anywhere, a complete backup whose name says a time no more than 28 days before any of the prunes stays, unchanged. |
| `OutboxWitnesses.LostReleaseCallsAgain` | backend/internal/job/social_revocation_worker.go:242-245 | A run of one worker and one row in which a single lost release leads to a second provider call for a revoked row. |
| `OutboxWitnesses.FailedTransactionCallsAgain` | backend/internal/job/social_revocation_worker.go:208-214 | A run in which a transaction failing early takes a revoked DISCONNECT row back and its provider is called again. |
| `OutboxWitnesses.SiblingIsDelivered` | backend/internal/repository/auth_repo.go:413-487 | A run of two workers, with a second disconnect queued after the first was revoked, in which finalizing one row delivers the other while another worker holds it. |
| `OutboxWitnesses.DroppedForEver` | backend/internal/job/social_revocation_worker.go:205-207 | For every n a run in which a DISCONNECT row is taken up n times with no attempt counted. |
| `OutboxWitnesses.SiblingCalledForEver` | backend/internal/repository/social_revocation_repo.go:277-297 | From a REVOKED and a PENDING row of one deletion, for every n a run of one worker without a lost write that calls the provider of the second row n times or more. |
| `OutboxWitnesses.SiblingCalledAgain` | backend/internal/repository/social_revocation_repo.go:137-143 | From two REVOKED rows of one deletion, a run of one worker without a lost release or unacknowledged finalization that calls the provider of a revoked row again. |
| `OutboxExact.KeyIsNoGuard` | backend/migrations/044_enforce_account_lifecycle_invariants.sql:141-148 | From any initial state with a REVOKED deletion and no other open one of its member and provider, for every n a run in which a second one is queued and the provider of the first is called n times or more. |
| `WebOrder.StagedPageWitness` | deploy/remote_release.py:286-289 | A source with index.html and index.html.release-new: the installation succeeds, the page is new and the asset is gone. |
| `WebOrder.NestedPageWitness` | deploy/remote_release.py:302-302 | A source with a page below the top: the installation succeeds and that page is missing. |
| `ReleaseTransaction.DeployShadowed` | deploy/remote_release.py:385-398 | On a host whose later drop-in turns erasure on, no deployment of a backend succeeds, and every one that ends rolled back leaves it running with the gates on and the rollout file saying paused. |
| `IdentityHistory.NumberIsUsedUp` | backend/cmd/backfill/identity_backfill.go:69-97 | Running one link into empty tables uses up a number, which no rollback gives back. |
| `BackupRotation.TornBackupWitness` | deploy/backup_rotation.py:118-135 | A prune that stops half way through a verified backup leaves it complete and unverified, and, where names have no stamp, the newest. |
| `Backoff.BackoffGrows` | backend/internal/job/social_revocation_worker.go:350-359 | The wait is positive, at most an hour and never shrinks with the attempt count. |
| `Backoff.WrappedIsMultiple` | backend/internal/job/social_revocation_worker.go:353-357 | Whatever wraps is still a multiple of 2^(n+11) nanoseconds, which is why the guard catches it. |
| `OutboxLeases.RunIsWellFormed` | backend/internal/job/social_revocation_worker.go:170-252 | In every run of any number of workers, the entries a worker has in hand are distinct, are its own, and agree with their rows; attempt counts agree while the claim lasts. |
| `OutboxLeases.ClaimChanges` | backend/internal/repository/social_revocation_repo.go:119-168 | A claim stays, is given up, or passes to a worker that found the row due and free or stale. |
| `OutboxLeases.LeaseRespected` | backend/internal/job/social_revocation_worker.go:30-35 | From any point of a run, a worker keeps its claim until it gives it up or the stale window since the update seen at that point has passed. |
| `OutboxSafety.LoneRunIsSafe` | backend/internal/job/social_revocation_worker.go:182-276 | Invariants of every run of a lone worker, restarted after any crash, with failing providers, failing writes and operator retries in between. |
| `OutboxBudget.OnlyDisconnectIsDropped` | backend/internal/job/social_revocation_worker.go:205-207 | Only DISCONNECT turns can be dropped without an attempt being counted. |
| `OutboxStrays.StrayedRun` | backend/internal/repository/social_revocation_repo.go:119-168 | Every run of one worker whose bookkeeping writes succeed and whose last step delivers a row that the worker holds can go on, for every n and with nothing queued, to n turns of the row beyond the dropped ones, and to n calls unless it is a DISCONNECT row. |
| `OutboxStrays.StrayedIsCalledAgain` | backend/internal/repository/social_revocation_repo.go:119-168 | Every run of one worker without a lost release or unacknowledged finalization whose last step so delivers a row that was revoked can go on, with nothing queued, to a second call for a revoked row. |
| `OutboxExact.OpenSiblingsUnbounded` | backend/internal/repository/account_deletion_repo.go:23-44 | From any initial state with two open rows of one member, provider and action, for every n a run whose bookkeeping writes succeed, with nothing queued and no turn dropped, that takes one of them up n times, and calls its provider n times unless it is a DISCONNECT row. |
| `OutboxExact.UndeliveredSiblingsCalledAgain` | backend/internal/repository/account_deletion_repo.go:23-44 | From any initial state with two undelivered deletions of one member and provider, a run that loses no release, with nothing queued beside an undelivered deletion, in which a revoked row is called again. |
| `OutboxGuards.GuardedNeverStrays` | backend/internal/repository/account_deletion_repo.go:23-44 | When no two rows of a member, provider and action are open at the start and none is queued beside an open one, no run whose bookkeeping writes succeed delivers one while the worker holds it. |
| `OutboxGuards.GuardedNeverStraysRevoked` | backend/internal/repository/account_deletion_repo.go:23-44 | The same for REVOKED rows in runs with crashes, lost failure records and operator retries, when undelivered deletions are counted. |
| `OutboxSiblings.OneOpenNeverStraysRevoked` | backend/internal/repository/account_deletion_repo.go:23-44 | While no two rows of one deletion are open together, for any member and provider, no REVOKED row is so delivered. |
| `OutboxWorker.Database.ClaimDue` | backend/internal/repository/social_revocation_repo.go:119-168 | Whatever batch is read, it becomes the worker's queue, and the state is still that of a run. |
| `OutboxWorker.Database.RevokeClaimedDisconnect` | backend/internal/repository/social_revocation_repo.go:53-82 | The returned flag and error say exactly where the worker stands: finalizing, dropped, or recording a failure as REVOKED or PENDING. |
| `OutboxWorker.Database.CallProvider` | backend/internal/job/social_revocation_worker.go:219-225 | The checkpoint is reached exactly when the provider was called for the entry and answered; anything else is a failure recorded as PENDING. |
| `OutboxWorker.Database.SkipProvider` | backend/internal/job/social_revocation_worker.go:183-188 | An entry read as REVOKED goes straight to finalization and no provider is called. |
| `OutboxWorker.Database.MarkRevokedRow` | backend/internal/repository/social_revocation_repo.go:186-193 | Only an acknowledged checkpoint leads to finalization; otherwise the failure is recorded as REVOKED. |
| `OutboxWorker.Database.FinalizeRow` | backend/internal/job/social_revocation_worker.go:257-266 | The error tells release, drop and failure apart, for each action. |
| `OutboxWorker.Database.MarkSucceededRow` | backend/internal/repository/social_revocation_repo.go:249-258 | The release ends the turn, written or not. |
| `OutboxWorker.Database.MarkFailedRow` | backend/internal/repository/social_revocation_repo.go:277-297 | The failure record ends the turn, written or not. |
| `OutboxWorker.SocialRevocationWorker.RecordFailure` | backend/internal/job/social_revocation_worker.go:273-280 | Recording a failure ends the turn whether or not the write succeeds. |
| `OutboxWorker.SocialRevocationWorker.ProcessEntry` | backend/internal/job/social_revocation_worker.go:182-252 | Whatever the provider and the database answer, and whatever others do before each statement, every path is a run of the step system and ends with the entry done. |
| `OutboxWorker.SocialRevocationWorker.ProcessDue` | backend/internal/job/social_revocation_worker.go:170-180 | A tick works off its whole batch as a run of the step system, so the invariants of runs hold of it. |
| `ReleaseHost.Host.InstallFile` | deploy/remote_release.py:284-289 | Every state on the way differs from the first at the staging name only, until the rename; on success the place holds the source's contents and no staging file is left. |
| `ReleaseHost.Host.PutFile` | deploy/remote_release.py:287-287 | A copy may stop half way, and then only its own place differs. |
| `ReleaseHost.Host.PutWhole` | deploy/remote_release.py:49-60 | A file is replaced as a whole or not at all. |
| `ReleaseHost.Host.Rename` | deploy/remote_release.py:289-289 | The staged file takes the place in one step, or nothing changes. |
| `ReleaseHost.Host.MkDirs` | deploy/remote_release.py:285-285 | Only missing directories appear, and nothing that was there changes. |
| `ReleaseHost.Host.SetRollout` | deploy/remote_release.py:187-197 | Only the two rollout files change; on success the file says what was asked, the drop-in is in force, and a test user with retention is refused without a change. |
| `ReleaseHost.Host.StartBackend` | deploy/remote_release.py:362-364 | A unit that runs already is left alone; a started one has the gates of a later drop-in, or else of the rollout file if ours is in force. |
| `ReleaseHost.Host.RestartBackend` | deploy/remote_release.py:429-429 | After a restart that failed the backend is down, the old one, or one with the new gates. |
| `ReleaseHost.Host.StopBackend` | deploy/remote_release.py:356-356 | A stop that failed leaves the backend down or as it was. |
| `ReleaseHost.Host.ProcessEnvironment` | deploy/remote_release.py:71-80 | What is read is the environment of the running process, and nothing is read without one. |
| `ReleaseHost.Host.DaemonReload` | deploy/remote_release.py:197-197 | The drop-in is in force after a reload exactly when the file is there. |
| `ReleaseHost.Host.StageFile` | deploy/remote_release.py:285-288 | A complete copy under the staging name, or nothing but directories when there is no source or a directory has that name. |
| `ReleaseSnapshot.Snapshot` | deploy/remote_release.py:213-225 | A recorded path's tree is copied to its own item and nothing else changes. |
| `ReleaseSnapshot.SnapshotAll` | deploy/remote_release.py:343-349 | All targets are saved, each under its own name, and nothing outside the backup directory changes. |
| `ReleaseSnapshot.RestoreLeaves` | deploy/remote_release.py:228-241 | Restoring leaves alone whatever lies apart from the recorded paths. |
| `ReleaseSnapshot.Restore` | deploy/remote_release.py:228-241 | The loop from the last record to the first, stopping at the first failure, does what the specification says and nothing elsewhere. |
| `ReleaseSnapshot.RestorePath` | deploy/remote_release.py:229-241 | One path is cleared and copied back; stopping anywhere changes nothing elsewhere. |
| `ReleaseSnapshot.CopyBack` | deploy/remote_release.py:238-241 | The saved tree is copied to the cleared place, and a copy that stops half way changes nothing elsewhere. |
| `WebOrder.SeqAt` | deploy/remote_release.py:284-304 | After any installations that succeeded, each place of a source file holds nothing if it served for staging since, the new contents if installed, and else what was there. |
| `WebOrder.PlacedIff` | deploy/remote_release.py:284-304 | An installed asset is in place if and only if its place did not serve for staging another file after it. |
| `WebOrder.NestedPagesAreSkipped` | deploy/remote_release.py:301-304 | A nested index.html is never installed: its place holds what it held before. |
| `WebInstall.InstallWeb` | deploy/remote_release.py:292-304 | For every source, at every intermediate point the page is the old one until the installation is finished, and whatever is neither a source file nor a staging name is untouched; on success the assets were installed in some order and then the page. |
| `WebInstall.InstallOne` | deploy/remote_release.py:302-304 | One more file is installed as specified, and every intermediate state keeps the page. |
| `WebInstall.InstallDirs` | deploy/remote_release.py:296-300 | Making the directories changes no file. |
| `WebInstall.InstallAssets` | deploy/remote_release.py:301-303 | In whatever order they come, all assets are installed once while the page stays the old one. |
| `WebInstall.OrderlyIsPageLast` | deploy/remote_release.py:292-304 | For the sources of PageLastIff, every state the method passes through, half-written files included, keeps the page for last. |
| `ReleaseDeploy.DeployBackend` | deploy/remote_release.py:356-369 | Wherever it stops, the backend is as it was, down, or started with all gates off; on success it runs the verified binary with the gates off and all pending migrations are recorded. |
| `ReleaseDeploy.DeployWeb` | deploy/remote_release.py:370-372 | A component is installed from the payload: the page, and exactly the assets not staged over; nothing outside its directory changes. |
| `ReleaseDeploy.Install` | deploy/remote_release.py:360-361 | A target gets the payload file, and the payload and the saved items stay intact. |
| `ReleaseDeploy.DatabaseBackup` | deploy/remote_release.py:244-272 | Recovery data is written beside the saved items and disturbs none of them; on success the dump, the archive and the checksums are there. |
| `ReleaseDeploy.MigrateStopped` | deploy/remote_release.py:356-358 | Migrations run only with the backend down and the recovery data written. |
| `ReleaseDeploy.NoClashWebComplete` | deploy/remote_release.py:370-372 | Without a clash of staging names every asset of a deployed component is in place. |
| `ReleaseTransaction.Prepare` | deploy/remote_release.py:341-350 | Only the backup directory changes, and all targets are saved before anything is stopped. |
| `ReleaseTransaction.DeployFiles` | deploy/remote_release.py:370-374 | Web trees and both configurations come from the payload, and the binaries installed before stay in place. |
| `ReleaseTransaction.Finish` | deploy/remote_release.py:375-383 | Apache is up and everything installed is still in place when the result is written. |
| `ReleaseTransaction.Forward` | deploy/remote_release.py:352-384 | Payload and saved items stay intact however far it gets; on success everything is installed from the payload, Apache is up and the backend paused. |
| `ReleaseTransaction.Rollback` | deploy/remote_release.py:385-398 | If its commands succeed, every target but the rollout files is what it was, the rollout file says paused, and the backend was restarted from the restored binary; its gates are off if and only if no later drop-in sets them or that one turns them off. |
| `ReleaseTransaction.InstalledPlacesArePreserved` | deploy/remote_release.py:344-348 | The two binaries, the two configurations and the two web trees are among the paths a rollback gives back. |
| `ReleaseRollout.VerifyRollout` | deploy/remote_release.py:442-447 | Accepts only when the running gates and test user are exactly those asked for. |
| `ReleaseRollout.Pause` | deploy/remote_release.py:406-418 | Returns only with the backend running paused; a failure with its cleanup done leaves it down. |
| `ReleaseRollout.ChangeRollout` | deploy/remote_release.py:401-439 | Returns only with exactly the asked gates running; refuses without a change; a failure with its cleanup done leaves the backend down. |
| `ReleaseRollout.ChangeRetention` | deploy/remote_release.py:468-473 | A retention change keeps the erasure gates, and the test user while erasure is on. |
| `ReleaseRollout.DeployOp` | deploy/remote_release.py:476-477 | How a deployment can end for the running gates. |
| `ReleaseRollout.RunOp` | deploy/remote_release.py:463-477 | What each operation of the command line can do to the running gates and to the migration journal, for each way it can end. |
| `Migrations.Pending` | deploy/remote_release.py:131-148 | Accepts if and only if names are valid, recorded hashes match, history is part of the payload and web-only releases find their schema; the pending list is the unrecorded files of the sorted directory. |
| `Migrations.Database.ApplyMigrations` | deploy/remote_release.py:275-281 | A prefix is recorded, and at most one more file was executed without being recorded. |
| `Migrations.SortIs` | deploy/remote_release.py:134-134 | Sorting a directory gives the same files in filename order, by code point. |
| `Migrations.PendingInFilenameOrder` | deploy/remote_release.py:134-143 | In whatever order the directory is read, what is pending is exactly the unrecorded files, in filename order. |
| `Bundle.Verify` | deploy/release_bundle.py:28-53 | Accepts if and only if the review is not on hold, the manifest parses, its header and required files are right, and inventory, names and digests match. |
| `Bundle.BuildArchive` | deploy/release.py:88-93 | The archive is the manifest followed by each artifact under its name. |
| `Bundle.Unpack` | deploy/remote_release.py:91-114 | Accepts if and only if the directory is new, every member is expected, safe and new, and inventory and digests match the manifest. |
| `Bundle.PartsOfJoin` | deploy/release_bundle.py:44-51 | A path comes back from its name, alone or below the artifacts directory. |
| `Bundle.ExtractedIsSafe` | deploy/remote_release.py:95-99 | Every member of an extracted archive is a regular file, is the manifest or an artifact, and has a relative name without a part that leads upwards. |
| `ReleasePayload.AssetIsListed` | deploy/remote_release.py:370-372 | Without a clash of staging names, every asset in place after the deployment is the one the manifest lists. |
| `ReleasePayload.MigrationsAreListed` | deploy/remote_release.py:134-136 | Every migration read from an unpacked payload is listed in its manifest with its contents. |
| `IdentityTransform.IsValidIdentityKey` | backend/cmd/backfill/identity_transform.go:144-154 | Not blank, at most 255 bytes, ASCII only. |
| `IdentityTransform.SourceSummary` | backend/cmd/backfill/identity_transform.go:100-108 | The number of members and the largest account number, or zero. |
| `IdentityTransform.EmailIsNormal` | backend/cmd/backfill/identity_transform.go:86-92 | A normalized e-mail is its own normal form and has no blank at either end. |
| `IdentityTables.KnownAccountConflicts` | backend/cmd/backfill/identity_backfill.go:178-186 | A member whose account state exists already makes a run conflict. |
| `IdentityMeaning.WithdrawnStaysOut` | backend/cmd/backfill/identity_backfill.go:203-206 | An account all of whose members say withdrawn is withdrawn and gets no password identity. |
| `IdentityBackfill.Database.MarkFailed` | backend/cmd/backfill/identity_update.go:44-55 | Only a run that is APPLYING can become FAILED. |
| `IdentityBackfill.Database.MarkApplied` | backend/cmd/backfill/identity_update.go:30-42 | Only a run that is APPLYING can become APPLIED. |
| `IdentityBackfill.Database.InsertRun` | backend/cmd/backfill/identity_update.go:20-28 | A run row is new and APPLYING, or nothing changed. |
| `IdentityBackfill.Database.InsertAccountState` | backend/cmd/backfill/identity_update.go:76-89 | Inserts the mapped state of an account not there yet; a duplicate changes nothing. |
| `IdentityBackfill.Database.InsertIdentity` | backend/cmd/backfill/identity_update.go:91-138 | Inserts under a new number when neither unique key is taken; a duplicate uses the number up and changes no row. |
| `IdentityBackfill.Database.InsertCredential` | backend/cmd/backfill/identity_update.go:109-122 | Inserts the hash of an identity that has none. |
| `IdentityBackfill.Database.ApplyStep` | backend/cmd/backfill/identity_update.go:67-74 | Only a step that was started becomes applied. |
| `IdentityBackfill.BackfillAccountStates` | backend/cmd/backfill/identity_backfill.go:168-191 | The loop over members, going on past conflicts and stopping at other errors, does what the specification says. |
| `IdentityBackfill.BackfillPasswordIdentities` | backend/cmd/backfill/identity_backfill.go:193-244 | The same for password identities and their credentials. |
| `IdentityBackfill.BackfillPassword` | backend/cmd/backfill/identity_backfill.go:204-238 | One member: skipped, a conflict, or an identity with its credential, as the specification says. |
| `IdentityBackfill.BackfillSocialIdentities` | backend/cmd/backfill/identity_backfill.go:246-289 | The same for social links of known accounts. |
| `IdentityBackfill.BackfillLink` | backend/cmd/backfill/identity_backfill.go:259-283 | One link: a conflict or an identity, as the specification says. |
| `IdentityBackfill.ExecuteBackfill` | backend/cmd/backfill/identity_backfill.go:145-166 | All three steps and their journal entries, inside the transaction only. |
| `IdentityBackfill.DryRun` | backend/cmd/backfill/identity_backfill.go:69-97 | Changes nothing committed, reports the figures of an apply, and uses up the numbers of one. |
| `IdentityHistory.RunRowsStay` | backend/cmd/backfill/identity_update.go:30-55 | Over any sequence of runs, a run row is never changed by a later run. |
| `SqlDump.SplitRowTuples` | backend/cmd/migrate_to_md/migrate_dump_parser.go:79-116 | The index loop returns the rows of the specification and passes through the specified in-string states. |
| `SqlDump.ParseRowValues` | backend/cmd/migrate_to_md/migrate_dump_parser.go:120-183 | The value loop returns the values of the specification. |
| `SqlDump.EscapeIsDoubling` | backend/cmd/migrate_to_md/migrate_update.go:36-40 | The two ordered replacements are one escape per byte. |
| `SqlDump.RowRoundTrip` | backend/cmd/migrate_to_md/migrate_update.go:36-40 | Printing a row's values as literals and scanning them gives the values back. |
| `SqlFields.FieldsAreRead` | backend/cmd/migrate_to_md/migrate_dump_parser.go:120-183 | The same for the values of one row, whatever unquoted values hold besides quotes, commas and white space. |
| `MarkdownLists.UntouchedWithoutNumberedLine` | backend/internal/migrator/markdown_normalizer.go:20-27 | A text without a numbered line comes back as it is. |
| `TemplateText.ScanCovers` | admin/src/lib/notificationTemplateText.ts:30-32 | The scanned segments, put together, are the text. |
| `TemplateText.PreviewSubstitutes` | admin/src/lib/notificationTemplateText.ts:77-91 | The preview copies plain text, puts in the sample of the last placeholder of a token's name, and leaves other tokens as they are. |
| `TemplateText.EucKrIsGatewayBytes` | admin/src/lib/notificationTemplateText.ts:17-22 | The byte length is the number of characters plus the number of those that are not ASCII. |
| `TemplateValidation.FieldErrors.CheckBraces` | admin/src/lib/notificationTemplateValidation.ts:73-87 | One field's unknown tokens and stray braces, in order, the first reason staying. |
| `TemplateValidation.FieldErrors.AddError` | admin/src/lib/notificationTemplateValidation.ts:49-51 | The first reason for a field stays. |
| `TemplateValidation.FieldErrors.ValidateSmsDraft` | admin/src/lib/notificationTemplateValidation.ts:89-103 | A title, or a body over the byte limit once filled in, is an error. |
| `TemplateValidation.FieldErrors.ValidatePushDraft` | admin/src/lib/notificationTemplateValidation.ts:105-119 | A missing or too long title, or a too long body, is an error. |
| `TemplateValidation.ValidateTemplateDraft` | admin/src/lib/notificationTemplateValidation.ts:44-66 | Each field's entry is the first reason found for it in the order of the checks. |
| `TemplateValidation.AcceptedBodyLeavesNoBrace` | admin/src/lib/notificationTemplateText.ts:59-91 | An accepted body sent with brace-free values has no brace. |
| `TemplateValidation.RequiredValueIsSent` | admin/src/lib/notificationTemplateText.ts:69-91 | The value of a required placeholder is part of what is sent. |
| `BackupHost.CompleteBackups` | deploy/backup_rotation.py:76-80 | The complete backups, each once, in the order of their times. |
| `BackupHost.Host.PruneComplete` | deploy/backup_rotation.py:131-135 | Removes the overdue complete backups but the newest; stopping anywhere changes only those. |
| `BackupHost.Host.PrunePartials` | deploy/backup_rotation.py:136-139 | Removes unfinished backups more than a day old; stopping anywhere changes only those. |
| `BackupHost.Host.RemoveBackup` | deploy/backup_rotation.py:118-125 | Removes one entry; a removal that fails touches that entry only, its files and its time. |
| `BackupHost.PruneFiles` | deploy/backup_rotation.py:142-150 | Removes and lists exactly the expired files of a listing. |
| `BackupHost.Host.PruneBackups` | deploy/backup_rotation.py:131-139 | Both loops together remove what the policy dooms and keep a newest complete backup. |
| `BackupHost.Host.Prune` | deploy/backup_rotation.py:128-151 | A finished prune leaves what the policy says and lists what it removed; a dry run lists the same and changes nothing. |
| `BackupHost.Host.Weekly` | deploy/backup_rotation.py:83-115 | Wherever it fails, no other entry is touched and nothing that looks finished appears; what it publishes is verified. |
| `BackupHost.Host.RunCommand` | deploy/backup_rotation.py:189-200 | A command is the weekly run it names, if any, followed by a prune unless that failed or the prune is a dry one, each a step of the histories above; a complete backup before it is followed by one after it. |
| `BackupHost.Host.RunCommands` | deploy/backup_rotation.py:189-200 | Any list of commands, failing or not, is a history of runs, so the results about histories hold of it. |
| `BackupRotation.NewestIsKept` | deploy/backup_rotation.py:131-135 | A prune, finished or not, keeps a newest complete backup unchanged. |
| `BackupRotation.SecondPruneRemovesNothing` | deploy/backup_rotation.py:128-151 | A second prune at the same time removes nothing. |
| `BackupRotation.OldIsRemoved` | deploy/backup_rotation.py:131-135 | After a finished prune a complete backup whose name says more than 28 days is gone if another one says a later time. |

## Left out

- HTTP handlers, middleware, React pages and API clients: they decode requests and map errors.
- Provider HTTP calls, the credential vault and the provider dispatch of the worker: a call succeeds or fails.
- Subscription billing, donation snapshots, visit aggregation and session cleanup jobs.
- Social signup continuation tokens and the stages of account erasure other than the operator's retry of a social revocation.
- The HTML to Markdown converter, a chain of library regular expressions.
- Log output, conflict reasons in the log, file modes, the disk-space admission and the release lock (one operation runs at a time).
- The text of the rollout file and of its drop-in, which are kept as what they say; JSON parsing, which is a parameter.
- Service restarts that systemd makes on its own.
- `prepare` of the release bundle and the transfer to the host.
- The status file of the backup rotation, and time stamps in names, which a parameter reads; a malformed stamp, on which the source raises, does not occur.
- The deletion of a member's DELIVERED outbox rows when an account deletion is completed (backend/internal/repository/account_deletion_verification.go:136): rows stay.
- A later systemd drop-in sets all gate variables or none of them; one that sets some is not modelled.
- OutboxExact.CalledAgainIff: the key of migration 044 on PENDING rows is modelled where rows are queued, not where the operator's retry or a failure record makes a row PENDING again, so two FAILED deletions of one member and provider count as ones that a retry can reopen together; the results that say what never happens hold all the more with it.
- OutboxWorker.Database.ClaimDue: the order of a batch and the choice of the due rows are left open, so no claim is made about which due rows are served first.
- Migrations.Pending: filenames use ASCII digits and letters; Python's pattern also accepts other Unicode digits.
- MarkdownLists.NormalizeMarkdownLists: digits in a numbered line are the ASCII ones, as in Go's pattern.
- SqlDump.ParseRowValues: blanks around an unquoted value are the ASCII ones; other Unicode blanks are not trimmed.
