# Aurora disaster-recovery restore scripts, modelled in Dafny

The repository has two command-line scripts. Each rebuilds an Aurora database cluster and its one instance from a backup, or tears that pair down again. Each can optionally point a Route 53 CNAME record at the rebuilt cluster's endpoint.

- `scripts/dr_staging_db_restore.py` (module `Staging`):
  - It picks the newest AWS Backup recovery point of the cluster.
  - It first checks that the cluster does not already exist.
  - It restores the cluster into the chosen availability zone, waits, creates the instance and waits again.
  - It reports every failure with exit status 1, except a failure of the post-restore report, which it swallows.
- `scripts/dr_restore.py` (module `TagRestore`):
  - It picks the newest manual cluster snapshot carrying a configured tag.
  - It restores without waiting.
  - It checks the zone choice only after the restore was requested, then pins the instance to that zone.
  - It tolerates missing resources on teardown.
  - Any other error escapes as an exception.

## How the model is built

- **Cloud.** The cloud is a value `World`, made of:
  - whether the cluster exists;
  - whether the instance exists;
  - the log of every remote call issued, with its reply.

  Each remote call is applied by `Cloud.Apply`:
  - When the log position has no injected fault, the fault-free semantics `Cloud.Respond` answers. Describing or deleting a missing resource fails with not-found, and so does creating an instance without its cluster. A conflicting create or delete fails with another error. A waiter fails when its target state does not hold.
  - When the log position has a fault in the environment's `faults` map, the call fails with that error.

  The environment `Env` also fixes what the listing calls return and the cluster endpoint. The parts of the real world that the model does not simulate become these parameters: throttling, access errors, waiter timeouts and the backup contents.
- **Script functions.** Each script function appears twice:
  - a function over `World` that returns the new world and either a value or the end of the run (`Flow`);
  - a method of the same name as the Python function. It issues the same calls one at a time on a `Cloud.CloudState` object and is proved equal to the function.
- **Outcomes.** How a run ends is an `Outcome`:
  - `Completed` when it reaches the end of the script;
  - `Exited(code)` for `sys.exit`;
  - `Raised(cause)` for an exception that escapes.

  `ExitStatus` maps each outcome to the process status.
- **Snapshot selection.** Both scripts select with `sorted(..., reverse=True)[0]`. Module `Latest` models this as follows:
  - `SortDesc` is a stable descending insertion sort.
  - `LatestIndex` is an independent reference: the first position holding a maximal key.
  - `SortDescHead` proves the two agree. So on ties, the element listed first wins, as Python's stable sort gives.
  - For `dr_restore.py`, `LatestOfFilter` carries this over to the tag filter.
- **Zone choice.** Module `Settings` holds the configuration read from the environment. Only the three zone variables and the snapshot tag key and value can be unset (`None`). It also holds the zone mapping that both scripts share.
- **Comparison.** Module `Contrast` puts the two scripts side by side on two behaviours where they differ.

Two behaviours of the staging script that are easy to miss; the model follows the code:
- **Instance zone.** The staging script's instance request has no `AvailabilityZone`. Only the cluster restore is pinned to the zone (`Staging.RestoreRequestArguments`).
- **Extra describe.** The staging script's successful restore ends with the describe call of `print_post_restore_info`, and that call's failure is swallowed. So a successful create with the DNS flag set describes the cluster three times before the record change: the existence check, the post-restore report and the endpoint lookup (`Staging.DnsOnlyAfterRestore`).

## Model

| member | source | states |
|---|---|---|
| Latest.Insert | scripts/dr_staging_db_restore.py:52 | inserting into the sorted list adds exactly one occurrence of the element (multiset of the input plus the element) |
| Latest.SortDesc | scripts/dr_staging_db_restore.py:52 | the sort keeps the length of the listing |
| Latest.SortDescIsSort | scripts/dr_staging_db_restore.py:52 | `sorted(..., reverse=True)` yields a descending permutation of its input |
| Latest.SortDescDescending | scripts/dr_staging_db_restore.py:52 | the sorted listing is descending by key |
| Latest.SortDescPermutes | scripts/dr_staging_db_restore.py:52 | the sorted listing holds every input element exactly as often as the input |
| Latest.LatestIndex | scripts/dr_staging_db_restore.py:52-53 | the reference position holds a maximal key and every earlier position a strictly smaller one |
| Latest.SortDescHead | scripts/dr_staging_db_restore.py:52-53 | the head of the stable descending sort is the element at the earliest maximal position, so ties go to the first-listed element |
| Latest.Filter | scripts/dr_restore.py:33-39 | the comprehension is no longer than its input, holds only elements satisfying the predicate, and is empty iff no input element satisfies it (the `if not filtered` test) |
| Latest.FilterMembers | scripts/dr_restore.py:33-39 | an element is in the result iff it is in the input and satisfies the predicate |
| Latest.FilterConcat | scripts/dr_restore.py:33-39 | filtering a concatenation is filtering each part and concatenating, so the kept elements keep their listing order |
| Latest.FilterSingleton | scripts/dr_restore.py:33-39 | the empty listing filters to empty; one element is kept alone iff it satisfies the predicate |
| Latest.FilterMultiset | scripts/dr_restore.py:33-39 | each kept element occurs in the result as often as in the input, each dropped one not at all |
| Latest.LatestOfFilter | scripts/dr_restore.py:33-45 | filtering and then taking the sorted head picks, in the original listing, the earliest-listed kept element of maximal key among the kept ones |
| Settings.ZoneMap | scripts/dr_staging_db_restore.py:61-65 | the zone map has exactly the keys primary-az, secondary-az and tertiary-az |
| Settings.ResolveZone | scripts/dr_staging_db_restore.py:67-68 | no ensures of its own: `az_map.get(choice)` with the truthiness test; `Settings.ZoneFor` states that an unknown choice, an unset variable and an empty value all give no zone |
| Settings.ZoneFor | scripts/dr_staging_db_restore.py:61-70 | a choice resolves iff its variable is set to a non-empty value, to exactly that value; an unknown choice resolves to nothing (the same mapping as scripts/dr_restore.py lines 20-24 and 64-67) |
| Cloud.ExitStatus | scripts/dr_staging_db_restore.py:226-238 | the process status is 0 iff the run reached the end or called `sys.exit(0)`; it is 1 iff an exception escaped or `sys.exit(1)` was called; `sys.exit(c)` gives c |
| Cloud.Apply | scripts/dr_staging_db_restore.py:25-27 | a remote call is appended to the log with its reply; a failed call leaves both resources unchanged; an injected fault makes the call fail with that error |
| Cloud.RunAll | scripts/dr_staging_db_restore.py:74-113 | no ensures of its own: the call sequence of a `try` block, stopped at the first failure; `Cloud.RunAllTrace` states the prefix issued and the failing call |
| Cloud.RunAllTrace | scripts/dr_staging_db_restore.py:74-113 | a `try` block of remote calls logs a prefix of them in order; the whole list when no error comes back; otherwise its last call failed with that error, and no other one failed |
| Cloud.StoppedCons | scripts/dr_staging_db_restore.py:74-113 | a successful call in front of a stretch that stopped at the first failure of the remaining calls stops at the first failure of the whole list |
| Cloud.UpsertCname | scripts/dr_staging_db_restore.py:154-166 | no ensures of its own: the one-change UPSERT batch of a CNAME with TTL 60 and the endpoint as its one value, the same in `scripts/dr_restore.py:109-121`; `Cloud.UpsertCnamePointsAtEndpoint` states its effect on the zone |
| Cloud.UpsertCnamePointsAtEndpoint | scripts/dr_staging_db_restore.py:152-167 | applying the batch leaves the record name as a CNAME with TTL 60 whose single value is the endpoint, adds no other key and leaves every other record set untouched |
| Cloud.RecordsAfterConcat | scripts/dr_staging_db_restore.py:152-167 | the hosted zone after two stretches of the log is the zone after the first, carried through the second |
| Cloud.RecordsUntouched | scripts/dr_staging_db_restore.py:152-167 | a stretch of the log without any record change leaves the hosted zone as it was |
| Cloud.UpsertLast | scripts/dr_staging_db_restore.py:152-167 | an accepted CNAME upsert after calls that change no record, into a zone with no other record type at that name, leaves the record pointing at the endpoint with TTL 60, adds no other record set, leaves every other one unchanged, and the name still holds only the CNAME |
| Cloud.UpsertEndsRun | scripts/dr_staging_db_restore.py:152-167 | the same for a run whose last logged event is the accepted upsert and whose earlier calls change no record |
| Cloud.CloudState.constructor | scripts/dr_staging_db_restore.py:25-27 | the client starts with the given resources and an empty call log |
| Cloud.CloudState.Issue | scripts/dr_staging_db_restore.py:25-27 | issuing a call updates the presence flags and log as `Apply` says and returns its reply |
| Staging.NewestRecoveryPoint | scripts/dr_staging_db_restore.py:47-53 | no ARN iff there are no recovery points; otherwise the ARN of the earliest-listed point with the latest creation date |
| Staging.NewestRecoveryPointExamples | scripts/dr_staging_db_restore.py:52-53 | from rp-1 and a later rp-2, rp-2 is chosen; of two points with equal dates, the first listed |
| Staging.LocateLatest | scripts/dr_staging_db_restore.py:35-56 | exactly one listing call for the cluster; it continues iff the call succeeds and lists some point, then with the newest point's ARN; otherwise exit 1 |
| Staging.PostRestoreInfo | scripts/dr_staging_db_restore.py:191-208 | exactly one describe call, whose failure changes nothing and is swallowed |
| Staging.RestoreCalls | scripts/dr_staging_db_restore.py:76-105 | no ensures of its own: restore pinned to the zone, cluster wait, instance creation, instance wait; `Staging.RestoreTrace` and `Staging.RestoreRequestArguments` state the order and the arguments |
| Staging.Restore | scripts/dr_staging_db_restore.py:59-113 | an unusable zone choice exits 1 without issuing any call; any other stop is exit 1 |
| Staging.Teardown | scripts/dr_staging_db_restore.py:116-141 | every stop of the teardown is exit 1 |
| Staging.DestroyCalls | scripts/dr_staging_db_restore.py:121-136 | no ensures of its own: delete instance, wait, delete cluster, wait; `Staging.TeardownTrace` states the order and the stops |
| Staging.DnsCutover | scripts/dr_staging_db_restore.py:144-173 | describe, then possibly the CNAME upsert to the described endpoint in the hosted zone; success means both calls succeeded with exactly those replies; any failure is exit 1; a present cluster and no fault means success |
| Staging.ExistsFromReply | scripts/dr_staging_db_restore.py:176-188 | exists iff the describe lists a cluster; absent iff not-found or an empty list; any other error exits 1 |
| Staging.ExistenceCheck | scripts/dr_staging_db_restore.py:176-188 | one describe call; without a fault it reports the cluster's real presence; an injected not-found reads as absent, any other fault exits 1 |
| Staging.RestoreLatest | scripts/dr_staging_db_restore.py:230-233 | the create path after the existence check (locate, restore, optional DNS update) only appends to the log and ends completed or with exit 1 |
| Staging.RestoreThenCutover | scripts/dr_staging_db_restore.py:230-233 | the restore followed by the optional DNS update ends either completed or with exit 1 |
| Staging.Workflow | scripts/dr_staging_db_restore.py:214-238 | a run ends completed, with exit 0 or with exit 1; a create whose existence check meets an existing cluster and no fault issues only the describe and exits 0 |
| Staging.RestoreTrace | scripts/dr_staging_db_restore.py:74-113 | success issues restore, cluster wait, create instance, instance wait and the post-restore describe, in that order, none of the first four failing; a failure exits 1 after a prefix whose last call is the only failed one |
| Staging.RestoreRequestArguments | scripts/dr_staging_db_restore.py:76-101 | the restore names the cluster and the chosen recovery point and is pinned to the chosen zone; the instance names the cluster and is not zone-pinned |
| Staging.ClusterWaitFailureSkipsInstance | scripts/dr_staging_db_restore.py:89-101 | a failing cluster waiter exits 1 after the restore and the wait, before any instance is requested |
| Staging.RestoreOnHealthyCloud | scripts/dr_staging_db_restore.py:59-113 | without faults, with neither the cluster nor the instance present and with a usable zone choice, the restore succeeds and both resources exist afterwards |
| Staging.TeardownTrace | scripts/dr_staging_db_restore.py:116-141 | the teardown issues a prefix of delete instance, wait, delete cluster, wait; it succeeds iff all four ran without failure; otherwise exit 1 at the only failed call |
| Staging.TeardownMissingInstanceExits | scripts/dr_staging_db_restore.py:120-141 | a missing instance exits 1 after the first delete, and the cluster is left as it was |
| Staging.TeardownOnHealthyCloud | scripts/dr_staging_db_restore.py:116-137 | without faults, a teardown of both resources removes both |
| Staging.DestroyNeverTouchesDns | scripts/dr_staging_db_restore.py:235-236 | the destroy run issues only a prefix of the teardown sequence and never a DNS change, whatever the flag; it ends completed or with exit 1 |
| Staging.CutoverOnlyAfterRestore | scripts/dr_staging_db_restore.py:231-233 | a DNS change follows only a fully successful restore with the flag set and a usable zone, and is the CNAME upsert to the endpoint |
| Staging.CutoverAfterRestore | scripts/dr_staging_db_restore.py:144-173 | after a restore whose calls change no record and did not fail, a record change by the DNS update makes the whole trace the restore's calls, the two describes and the upsert, with the restore's calls still unfailed |
| Staging.RestoreIssuesNoDns | scripts/dr_staging_db_restore.py:59-113 | the restore itself never changes a DNS record |
| Staging.DnsOnlyAfterRestore | scripts/dr_staging_db_restore.py:226-233 | a DNS change happens only on create with the flag set, with the complete trace: existence check, listing, restore sequence from the newest point, two describes, upsert |
| Staging.CreateDnsTrace | scripts/dr_staging_db_restore.py:226-233 | on create, a DNS change implies the flag, a usable zone, a newest recovery point and the full trace: check, listing, restore sequence, two describes, upsert, the four restore calls unfailed |
| Staging.LatestDnsTrace | scripts/dr_staging_db_restore.py:230-233 | after the existence check, a DNS change implies the flag and the trace listing, restore sequence from the newest point, two describes, upsert |
| Staging.NoDnsWithoutFlag | scripts/dr_staging_db_restore.py:232-233 | without the DNS flag no run changes a record |
| Staging.CreateOnHealthyCloud | scripts/dr_staging_db_restore.py:226-238 | a create with the flag on a fault-free cloud without the cluster completes with status 0, leaves both resources and ends with the accepted upsert |
| Staging.RecordsUnchangedWithoutCutover | scripts/dr_staging_db_restore.py:232-236 | a destroy, or any run without the flag, leaves every hosted zone as it was |
| Staging.CreatePointsRecordAtEndpoint | scripts/dr_staging_db_restore.py:144-173 | after a create with the flag on a fault-free cloud, starting from a zone with no other record type at the record name, the configured record is a CNAME with TTL 60 to the new endpoint, no other record set of the zone changed, and the name holds only the CNAME |
| Staging.CutoverTraceChangesRecordLast | scripts/dr_staging_db_restore.py:226-233 | in the calls of a create with the DNS update, only the last one changes a record |
| Staging.GetLatestBackupSnapshot | scripts/dr_staging_db_restore.py:35-56 | issuing the calls on the cloud object has exactly the effect and result of `LocateLatest` |
| Staging.PrintPostRestoreInfo | scripts/dr_staging_db_restore.py:191-208 | has exactly the effect of `PostRestoreInfo` |
| Staging.RestoreClusterFromSnapshot | scripts/dr_staging_db_restore.py:59-113 | has exactly the effect and result of `Restore` |
| Staging.DestroyDrCluster | scripts/dr_staging_db_restore.py:116-141 | has exactly the effect and result of `Teardown` |
| Staging.UpdateDnsRecord | scripts/dr_staging_db_restore.py:144-173 | has exactly the effect and result of `DnsCutover` |
| Staging.CheckExistingCluster | scripts/dr_staging_db_restore.py:176-188 | has exactly the effect and result of `ExistenceCheck` |
| Staging.RunWorkflow | scripts/dr_staging_db_restore.py:214-238 | has exactly the effect and outcome of `Workflow` |
| TagRestore.NewestTaggedIsNewest | scripts/dr_restore.py:33-47 | no identifier iff no snapshot carries the configured tag key and value; otherwise the identifier of the earliest-listed tagged snapshot with the latest create time among the tagged ones |
| TagRestore.TagsOf | scripts/dr_restore.py:37 | no ensures of its own: `s.get("TagList", [])`, so a snapshot without a tag list has no tags; `TagRestore.HasMarker` states the consequence |
| TagRestore.HasMarker | scripts/dr_restore.py:35-38 | a snapshot matches only when the tag key and value are both set and it has a non-empty tag list |
| TagRestore.NewestTagged | scripts/dr_restore.py:33-47 | no ensures of its own: the filter, the descending sort and the first identifier; `TagRestore.NewestTaggedIsNewest` states none iff no snapshot is marked, otherwise the earliest-listed newest marked one |
| TagRestore.LocateLatest | scripts/dr_restore.py:29-47 | exactly one manual-snapshot listing; a failed listing raises its error; otherwise it exits 1 without a tagged snapshot and continues with the newest tagged one |
| TagRestore.Provision | scripts/dr_restore.py:49-77 | every stop is exit 1 or an escaping exception |
| TagRestore.RestoreRequestFor | scripts/dr_restore.py:53-61 | no ensures of its own: the restore request with no zone and the `CreatedBy: GitHubActions` tag; `TagRestore.CreateTrace` states that it is the call issued |
| TagRestore.RestoreAndPlace | scripts/dr_restore.py:53-76 | the rest of the create after the listing only appends to the log, and any stop is exit 1 or a raised exception; `TagRestore.RestoreAndPlaceTrace` gives each trace |
| TagRestore.InstanceRequestFor | scripts/dr_restore.py:70-76 | no ensures of its own: the instance request pinned to the chosen zone; `TagRestore.CreateTrace` states that it is the call issued |
| TagRestore.Teardown | scripts/dr_restore.py:82-100 | only the instance delete is issued iff it failed with an error other than not-found; the run continues iff the cluster delete was issued and did not fail that way; the only escaping error is that other error |
| TagRestore.DnsCutover | scripts/dr_restore.py:103-127 | describe, then possibly the CNAME upsert; every failure escapes as an exception; a missing cluster raises not-found; a present cluster and no fault means success |
| TagRestore.Workflow | scripts/dr_restore.py:130-143 | a run ends completed, with exit 1 or with an escaping exception, never with `sys.exit(0)`; a destroy ends completed or with an escaping remote error other than not-found |
| TagRestore.CreateTrace | scripts/dr_restore.py:49-77 | a successful create issues exactly the listing, the restore from the newest tagged snapshot with no zone and a CreatedBy tag, and the instance create pinned to the chosen zone |
| TagRestore.ProvisionTrace | scripts/dr_restore.py:49-77 | every create issues a non-empty prefix of: the manual listing, the restore from the newest tagged snapshot, the instance pinned to the chosen zone |
| TagRestore.ProvisionOutcome | scripts/dr_restore.py:49-77 | only the last call of a create may have failed; a failed last call raises its error; exit 1 iff the run stopped early without a failure (no tagged snapshot, or an unusable zone); success iff all three calls succeeded, leaving both resources |
| TagRestore.RestoreAndPlaceTrace | scripts/dr_restore.py:53-76 | the same for the part after the listing: restore, then the zone-pinned instance |
| TagRestore.RestoreConflictRaises | scripts/dr_restore.py:53-61 | with the cluster already present, the restore is refused and escapes as an exception after the listing and the restore, before any instance request |
| TagRestore.InvalidZoneAfterRestore | scripts/dr_restore.py:53-67 | an unusable zone choice exits 1 only after the restore was issued; the cluster is left behind and no instance is requested |
| TagRestore.MissingInstanceStillDeletesCluster | scripts/dr_restore.py:82-100 | a missing instance does not stop the teardown: the cluster delete is still issued |
| TagRestore.TeardownIdempotent | scripts/dr_restore.py:82-100 | without faults the teardown always succeeds and leaves nothing, and running it again also succeeds |
| TagRestore.DestroyWhenAbsentCompletes | scripts/dr_restore.py:137-143 | a destroy with both resources gone issues both deletes, changes nothing and completes with status 0 |
| TagRestore.DnsOnlyOnCreate | scripts/dr_restore.py:142-143 | a DNS change happens only when the action is create and the flag is set, and only after a successful create, as describe then upsert |
| TagRestore.DnsAfterCreate | scripts/dr_restore.py:142-143 | with the flag set, a create that succeeded goes on to describe the cluster; when neither DNS call fails, the run completes with the describe and the upsert |
| TagRestore.CutoverAfterCreate | scripts/dr_restore.py:103-127 | the DNS update starts with the describe; with the cluster present and no fault it succeeds and ends with the accepted upsert |
| TagRestore.CreateOnHealthyCloud | scripts/dr_restore.py:137-143 | a create with the flag on a fault-free cloud with a tagged snapshot and a usable zone completes with status 0 after five calls, leaving both resources, with the accepted upsert last |
| TagRestore.RestoreAndPlaceOnHealthyCloud | scripts/dr_restore.py:53-76 | on a fault-free cloud holding neither resource, the restore and the instance request both succeed |
| TagRestore.CreateTraceOnHealthyCloud | scripts/dr_restore.py:137-143 | that run issues exactly the listing, the unpinned restore, the zone-pinned instance, the describe and the upsert |
| TagRestore.CreatePointsRecordAtEndpoint | scripts/dr_restore.py:103-127 | after that run, starting from a zone with no other record type at the record name, the configured record is a CNAME with TTL 60 to the endpoint, no other record set of the zone changed, and the name holds only the CNAME |
| TagRestore.RecordsUnchangedWithoutCutover | scripts/dr_restore.py:142-143 | a destroy, or any run without the flag, leaves every hosted zone as it was |
| TagRestore.ProvisionIssuesNoDns | scripts/dr_restore.py:49-77 | the create path itself never changes a DNS record |
| TagRestore.GetLatestSnapshot | scripts/dr_restore.py:29-47 | has exactly the effect and result of `LocateLatest` |
| TagRestore.CreateDrCluster | scripts/dr_restore.py:49-77 | has exactly the effect and result of `Provision` |
| TagRestore.DeleteDrCluster | scripts/dr_restore.py:82-100 | has exactly the effect and result of `Teardown` |
| TagRestore.UpdateDnsRecord | scripts/dr_restore.py:103-127 | has exactly the effect and result of `DnsCutover` |
| TagRestore.RunWorkflow | scripts/dr_restore.py:130-143 | has exactly the effect and outcome of `Workflow` |
| Contrast.ZoneCheckedBeforeVersusAfterRestore | scripts/dr_restore.py:49-67 | with an unusable zone, the staging restore issues nothing and the whole staging create exits 1 after the existence check and the listing, before any restore; the tag-based create exits 1 after the listing and the restore, leaving the cluster behind |
| Contrast.MissingResourcesFatalVersusTolerated | scripts/dr_restore.py:82-100 | with both resources gone, the staging destroy exits 1 after one call, and the tag-based destroy completes with status 0 after two |

## Left out

- **Command line and configuration.** Parsing the command line is outside the model, and so is reading the environment. `Config`, `Action`, the zone-choice string and the DNS flag, as a boolean, are taken as given. argparse rejects invalid choices before any of the modelled functions runs; the model still handles an unknown zone choice as unusable, as `dict.get` would.
- **Unset variables.** Every environment variable other than the three zone variables and the snapshot tag key and value is taken to be set. The model has no case for an unset cluster identifier, engine version, hosted zone and so on. With one unset, the client rejects the `None` parameter before any request is sent: the staging script exits 1 and the tag-based script raises.
- **Region and account.** The region, the STS account lookup and the formatting of the recovery-point resource ARN are not modelled. The listing call carries the cluster identifier, and the environment's `points` are the points of that resource.
- **Output.** Console output is not modelled: every `print`, the emoji messages and the reader-endpoint report.
- **Waiters.** The polling and timeouts of boto3 waiters are not modelled. A waiter is one call that fails when its target state does not hold or when a fault is injected at its position.
- **Deletion timing.** Deletion and creation take effect at once. The asynchronous life cycle of Aurora resources (creating, deleting, available) is collapsed into presence flags.
- **Identifiers.** The cloud does not interpret the identifiers and parameters carried by a call: engine, class, subnet group, security group and tags. They are recorded in the log, and lemmas state them.
- **Pagination.** The listing calls return the environment's listing whole. Neither script follows pagination markers, so only what the first page holds is seen.
- **Timestamps.** Creation dates and snapshot times are integers ordered as timestamps are.
- **Route 53.** `World` holds no record sets. The effect of a run on a hosted zone is computed from its call log by `Cloud.RecordsAfter`, which applies every accepted change to that zone in order. Route 53 change propagation is not modelled, and neither are actions other than UPSERT. The scripts send only UPSERT, and `ApplyChanges` leaves the zone unchanged for any other action.
- **Rejected change batches.** The model accepts every change batch that meets no injected fault, whatever the zone holds. Route 53 rejects a CNAME upsert at a name that already holds a record set of another type, and a CNAME at the zone apex. Such a rejection appears in the model only as a fault injected at the upsert's position; the staging script then exits 1 and the tag-based script raises. The record-state lemmas (`Cloud.UpsertLast`, `Cloud.UpsertEndsRun` and `CreatePointsRecordAtEndpoint` in both scripts) therefore assume a starting zone without another record type at the record name (`Cloud.CnameAllowed`). They do not exclude the apex, which the model does not know.
- **Exceptions.** The model does not name the Python exception class that escapes the tag-based script. It tells apart a remote not-found (`Remote(NotFound)`), any other remote error (`Remote(Other)`) and a key or index error on an empty describe reply (`MissingField`).
- **Concurrency.** Concurrent changes to the cloud by other actors are not modelled.
- **Staging.Teardown:** states only that a stop is exit 1. The full call order is stated by `Staging.TeardownTrace`.
- **TagRestore.Provision:** states only the kinds of stop. The trace of every run, including the ones that raise, is stated by `TagRestore.ProvisionTrace` and `TagRestore.ProvisionOutcome`.
- **TagRestore.NewestTagged:** has no contract of its own. What it selects is stated by `TagRestore.NewestTaggedIsNewest`.
