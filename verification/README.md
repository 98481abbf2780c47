# Incendio: permissions, their upkeep, and Firecloud's stateful parts

A Dafny model of two services of this repository, with proofs of what they are relied on for.

**IncusCloud's permission engine** (`incuscloud/server/src/acl`). Roles are granted to subjects on a tree of paths. Resolution
walks up from a path and stops at the first level with an entry that counts; an instance also hangs below its cluster
groups, and owners may do more. `Resolve` and `Acl` hold that pointwise decision. Around it stand answers
computed another way, and each is proved against the decision: the list filter (`Scope`), the search behind "may see"
(`Sees`), the ordering of subjects (`Outrank`), the list of administrators (`Admins`), the loading of the snapshot all
of them read (`Load`), and what the role tables come to once loaded (`Tenancy`). `SnapshotCache`, `Owners`, `Lifecycle` and `Streams` are the protocols that keep the snapshot's
data fresh and attached to the right objects.

**Firecloud** (`firecloud`). `HostIds` and `LvmConf` keep sanlock ids and `lvm.conf`; `SharedDisks` detects shared LUNs;
`Table` is the terminal selection table; `TrustSession` the session that lets systems join; `Removal` the removal of a
member from all services at once.

Code that changes state is written as classes and methods with loops, proved equal to a function of the old state
(`Contents() == Step(old(Contents()), …)` and the like); the lemmas are about those functions, over every input or every
run. `Text` holds the string operations with their laws.

## What the proofs found

- `instanceScope` (`acl.ts:224-248`) agrees with `decide` on an instance exactly when the instance is one of the singles it
  looks at or its project reads the privilege for itself as for what is below it. A non-propagating entry on a project breaks
  that: the filter then lists instances which `decide` refuses (`Scope.NonPropagatingEntryMisleads`).
- `sees` (`acl.ts:271-287`) misses something below a path exactly when a path it looked at, not a leaf, is shadowed: a
  non-propagating "No access" there, while what is below inherits from further up (`Sees.SeesExactly`,
  `Sees.SeesUnlessShadowed`, `Sees.FenceHidesCluster`).
- A call that waits for a snapshot which has expired meanwhile loads again without asking whether another call already does:
  two such calls load twice (`SnapshotCache.ExpiredIsLoadedTwice`).
- Someone staying an administrator (`admins.ts:20-25`) is not safe from overlapping requests. The guard and the change it
  allows are separate statements with neither a transaction nor a lock around both, so the last two administrators can be
  deleted at the same time: both guards pass and nobody is left (`Admins.OverlapLeavesNobody`). Over every interleaving there
  is an administrator all along exactly when every guarded write finds one it does not drop
  (`Admins.SomeoneThroughoutIff`); with at most one guarded change under way that is always so (`Admins.SomeoneStays`).
- The list of administrators does not look at groups. For a known user it agrees with the decision on `/` exactly when the user
  is disabled, has an entry of its own on `/`, or its groups' entries there do not give `platform.users`
  (`Admins.ListedIffManagesUsers`).
- `EnableLvmlockd` is idempotent on everything it accepts, but `LockdEnabled` then answers true exactly when the first line
  before the written one that reads at all, if there is any, does not read as disabled; `use_lvmlockd=yes` above the section
  does (`LvmConf.WordSettingStaysOff`).
- `sharedDisks` counts listings, not systems. For every device the count answers "does every system see it" exactly when there
  is no surplus listing (no system lists it twice), or some systems miss it and they are not just as many as the surplus
  listings (`SharedDisks.CountAnswersIff`; `SharedDisks.ListedTwiceMisleads` shows one that goes wrong). The second pass after
  removal finds nothing all the same.
- A format of host ids parses back exactly when every name is free of commas, equals signs and leading space and every id is
  in 1..2000 (`HostIds.RoundTripIffClean`). Trailing space in a name survives.
- The table's remove message keeps its invariant exactly when the last row was not selected or is the one removed
  (`Table.RemoveKeepsSoundIff`).
- `Render` reads past the header exactly when a selected row has more columns than headers, or two rows are selected and there
  is no header. Nothing checks the width of inserted rows (`Table.WideRowPanics`).
- `Session.Stop` polls a channel and closes it in two steps, and senders take none of its locks. A stop in a reading transaction
  (`session_stop.go:36`) can close the join intents on a request that sends in between, and a request can send after the close;
  both panic (`TrustSession.JoinRequestIsCutOff`, `TrustSession.LateSendIff`). A stop cuts no request off exactly when none has
  registered without having sent, or the intents are closed already; a stop in a writing transaction always finds it so
  (`TrustSession.StopIsSafeIff`). A stop that meets a request sending or about to can also end with the intents still open
  (`TrustSession.StaysOpenIff`). The exit channel is safe from no stop that finds it open
  (`TrustSession.ExitIsSafeIffClosed`).

Where comments and code differ the model follows the code.

## Model

| member | source | states |
|---|---|---|
| Paths.ParseOfFormat | incuscloud/server/src/acl/paths.ts:15-54 | Parsing the format of a well-formed path gives the path back. |
| Paths.FormatOfParse | incuscloud/server/src/acl/paths.ts:15-54 | Whatever parses is well formed and formats to the very string it came from. |
| Paths.RoundTripIffWellFormed | incuscloud/server/src/acl/paths.ts:12-54 | The round trip holds exactly for paths whose names are names. |
| Paths.NamesAreSpelled | incuscloud/server/src/acl/paths.ts:12-13 | A name is what the pattern spells, letter by letter of the alphabets. |
| Paths.FormatInjective | incuscloud/server/src/acl/paths.ts:35-54 | Two paths without slashes in their names never share a string. |
| Paths.ChainShape | incuscloud/server/src/acl/paths.ts:61-81 | Every chain starts at its own path, ends at `/`, and repeats nothing, whatever the names. |
| Paths.ChainParses | incuscloud/server/src/acl/paths.ts:61-81 | All paths of a chain parse exactly when the tenant slug on it makes a path: a name, or one that spells out a Kubernetes cluster. |
| Paths.ChainClosed | incuscloud/server/src/acl/paths.ts:61-81 | A chain holds the chain of each of its paths, the tenant's included. |
| Paths.AboveIsOnChain | incuscloud/server/src/acl/paths.ts:61-81 | Those are the paths on a chain but for the path itself, `/` and a project's tenant. |
| Paths.ChainSuffix | incuscloud/server/src/acl/paths.ts:61-81 | The chain of the cluster, project or tenant above a path is a suffix of that path's chain. |
| Paths.BelowIsStrict | incuscloud/server/src/acl/acl.ts:275 | The string test for "below" holds exactly for the paths structurally below. |
| Catalog.EveryRoleButNoAccessGives | incuscloud/server/src/acl/catalog.ts:41-61 | Each role but No access gives something, so "something decided" and "some privilege" differ only by No access. |
| Catalog.OnlyAdministratorsManageUsers | incuscloud/server/src/acl/catalog.ts:41-61 | `platform.users` is given by Administrator alone, and by no role through ownership. |
| Catalog.IsPrivilegeIffListed | incuscloud/server/src/acl/catalog.ts:6-25 | The privileges by object are exactly those of the list. |
| Catalog.RolesCompared | incuscloud/server/src/acl/catalog.ts:41-45 | The administrator holds every privilege, the operator all but three, a cluster owner all that is not the tenants' or the platform's, and a group owner all of that but three. |
| Catalog.TenantRolesCompared | incuscloud/server/src/acl/catalog.ts:46-53 | A tenant's administrator holds everything but nodes, platform, storage pools and cluster configuration; a member that without permissions and without running the tenant. |
| Catalog.UserCompared | incuscloud/server/src/acl/catalog.ts:48-52 | A user never holds what a member lacks; ownership adds all of instances, backups and Kubernetes, two of which it holds anyway; no other role gains by ownership. |
| Catalog.AuditorOnlyReads | incuscloud/server/src/acl/catalog.ts:54-55 | An auditor holds every view and the audit log, and nothing that changes anything; No access holds nothing. |
| Resolve.Resolve | incuscloud/server/src/acl/resolve.ts:22-40 | The loop over the chain computes the level-by-level resolution. |
| Resolve.DecidedAtFirstLevel | incuscloud/server/src/acl/resolve.ts:14-40 | The first level with counting entries decides, alone; without one nothing is given. |
| Resolve.CombinedGivesUnlessFenced | incuscloud/server/src/acl/resolve.ts:27-37 | A deciding level gives something exactly when it holds no No access among the entries that count. |
| Resolve.GivesWhetherOwnedOrNot | incuscloud/server/src/acl/resolve.ts:32-37 | Ownership never turns nothing into something or back; it only adds. |
| Acl.Decide | incuscloud/server/src/acl/acl.ts:170-191 | The method with its sides, sets and appended lists computes the decision function the lemmas are about. |
| Acl.DecidedUnfenced | incuscloud/server/src/acl/acl.ts:170-191 | Without No access among what decides, a subject holds exactly what each deciding entry gives, groups' sides included. |
| Acl.UsersHoldWhatTheyOwn | incuscloud/server/src/acl/acl.ts:170-175 | Decided by User entries, every instance, backup and Kubernetes privilege is held where the passed owner, or else the recorded one, is the subject; otherwise of these only `instance.create` and `k8s.provision`. |
| Acl.OwnersHoldMore | incuscloud/server/src/acl/acl.ts:170-191 | Under the same entries the owner holds all that anyone else would, and the same where no User entry decides. |
| Acl.TwoParents | incuscloud/server/src/acl/acl.ts:176-190 | An instance with own entries gets what they alone give; otherwise exactly its project side plus what each of its groups' own entries give. |
| Acl.MovingChangesOnlyTheGroupPart | incuscloud/server/src/acl/acl.ts:176-190 | Two snapshots that differ in where an instance runs give the same project part; only the group part may differ. |
| Acl.OnlyChainAndGroupsCount | incuscloud/server/src/acl/acl.ts:170-191 | Entries that agree on the chain and the instance's groups give the same decision. |
| Acl.IrrelevantEntry | incuscloud/server/src/acl/acl.ts:170-191 | Adding an entry off the chain and off those groups, or for another subject, changes nothing. |
| Load.LoadSnapshot | incuscloud/server/src/acl/acl.ts:95-167 | The snapshot is coherent and is what the rows say: entries, disabled subjects, groups, known projects and tenant owners exactly; every project's tenant that of its last placement; every tenant's projects exactly those placed for it; tenant slugs by id; owners and locations as listed. |
| Load.IndexPlaces | incuscloud/server/src/acl/acl.ts:131-136 | For every cluster and project the tenant is the slug of the last placement, or none without placement or slug; a tenant lists a path exactly when it is a project placed for it. |
| Load.LastPlacedIsLast | incuscloud/server/src/acl/acl.ts:131-136 | The last placement is the one no later placement of the same project follows. |
| Load.IndexSlugs | incuscloud/server/src/acl/acl.ts:138 | The ids are exactly those of the rows, each with a slug its rows give. |
| Load.SlugsAreRows | incuscloud/server/src/acl/acl.ts:138 | With one row per id, the map holds exactly the rows. |
| Load.GroupsOfMember | incuscloud/server/src/acl/acl.ts:155-156 | A member has the groups of its last row, the default group where that names none, none without a row. |
| Load.IndexLocations | incuscloud/server/src/acl/acl.ts:156-165 | Instances' groups are those of the member they run on, and the two maps are inverse. |
| Tenancy.ReachesUsers | incuscloud/server/src/acl/acl.ts:150-302 | An explicit entry counts for a user exactly when its row names the user, a group the user has a row in, or a tenant it has a membership of. |
| Tenancy.ReachesAccounts | incuscloud/server/src/acl/acl.ts:150-302 | And for a service account likewise. |
| Tenancy.OwnerRowCounts | incuscloud/server/src/acl/acl.ts:144-147 | An instance with one owner row is owned by the user it names, or else by the service account. |
| Tenancy.MemberHolds | incuscloud/server/src/acl/acl.ts:11-119 | On every path of its tenant a user whose one row is a membership holds exactly the views and the audit log as `viewer`, the workload as `member`, that with the tenant and its permissions as `owner` or `admin`, and nothing as anything else. |
| Tenancy.MemberHoldsNothingElsewhere | incuscloud/server/src/acl/acl.ts:118-119 | And nothing on any other path. |
| Tenancy.StaffHolds | incuscloud/server/src/acl/acl.ts:10-117 | A user whose one row is a platform role holds on every path everything, all but three, or the views and the audit log. |
| Tenancy.TenantAccountHolds | incuscloud/server/src/acl/acl.ts:120-121 | A tenant's service account holds the workload on the tenant's paths, whatever platform role it names. |
| Tenancy.PlatformAccountHolds | incuscloud/server/src/acl/acl.ts:120-123 | One without a tenant holds what its platform role comes to on every path, one with neither nothing. |
| Scope.BuildScope | incuscloud/server/src/acl/acl.ts:224-248 | The loops build the filter: held projects, and the singles that are exceptions to them, by key. |
| Scope.KeyIsInjective | incuscloud/server/src/acl/acl.ts:227 | The slice-and-replace key tells instances and projects apart, and its part before the last slash is the project's key, even for a project called `instances`. |
| Scope.ScopeAgreesWithDecide | incuscloud/server/src/acl/acl.ts:224-248 | For every instance of a known project, filter and decision agree if and only if the instance is a single or its project reads the privilege for itself as for what is below. |
| Scope.PropagatingProjectsReadSame | incuscloud/server/src/acl/acl.ts:224-248 | That condition holds whenever the project has no non-propagating entry of the subject's keys. |
| Scope.NonPropagatingEntryMisleads | incuscloud/server/src/acl/acl.ts:229-247 | One non-propagating entry on a project makes the filter show instances the decision refuses. |
| Sees.SeesPath | incuscloud/server/src/acl/acl.ts:271-287 | The candidate search answers whether the path or some candidate below it gets something. |
| Sees.SeenIsThere | incuscloud/server/src/acl/acl.ts:271-287 | Whatever is seen is there: some path at or below gets something. |
| Sees.SeesExactly | incuscloud/server/src/acl/acl.ts:265-287 | Something at or below gets something if and only if the search sees it or a path it looked at is shadowed with something bare below. |
| Sees.SeesUnlessShadowed | incuscloud/server/src/acl/acl.ts:265-287 | While some name is unused by the entries, something at or below gets something if and only if the search sees it or one of the paths it decides, not a leaf, is shadowed. |
| Sees.BareChild | incuscloud/server/src/acl/acl.ts:265-287 | Then every root, cluster, project and tenant has a child on which nothing of its own decides. |
| Sees.NothingShadowed | incuscloud/server/src/acl/acl.ts:265-287 | A path is not shadowed unless it carries a non-propagating No access of the subject's keys. |
| Sees.SeesAllWithoutFences | incuscloud/server/src/acl/acl.ts:265-287 | Without such entries the finite search equals the search over all paths below. |
| Sees.SeesUpwards | incuscloud/server/src/acl/acl.ts:265-287 | And seeing a path means seeing every path above it. |
| Sees.FenceHidesCluster | incuscloud/server/src/acl/acl.ts:271-287 | In a snapshot loading can produce, a cluster with a non-propagating No access is not seen though its groups are decided by a role on `/`. |
| Outrank.Reach | incuscloud/server/src/acl/acl.ts:251-258 | The union over the chain of what is decided on each path. |
| Outrank.NeedOutrank | incuscloud/server/src/acl/outrank.ts:13-28 | The guard passes exactly when the caller outranks every subject on the path and the tenant-owner clause holds. |
| Outrank.OwnersAreForOwners | incuscloud/server/src/acl/outrank.ts:20-27 | On a tenant's path and below, over the rows: besides outranking, a change that touches another subject with an owner row of the tenant passes only for callers with one or with `platform.users` on `/`. |
| Outrank.NoOwnersElsewhere | incuscloud/server/src/acl/outrank.ts:20-24 | On any other path the privilege clause alone decides. |
| Outrank.OutranksIff | incuscloud/server/src/acl/outrank.ts:15-19 | Outranking somebody else takes at the path all it holds on each path of the chain; oneself, nothing. |
| Outrank.ReachGrowsDown | incuscloud/server/src/acl/acl.ts:250-258 | What a subject reaches at a path of the chain it reaches at the path: reach only grows on the way down. |
| Outrank.OutrankingHoldsAbove | incuscloud/server/src/acl/outrank.ts:5-19 | Whoever outranks a subject on a path holds there all the subject reaches on any path above. |
| Outrank.OutranksTransitive | incuscloud/server/src/acl/outrank.ts:13-19 | The privilege clause is transitive. |
| Outrank.MutualOutranksAreEqual | incuscloud/server/src/acl/outrank.ts:13-19 | Two subjects who outrank each other hold equal privileges there, and nothing more above. |
| Outrank.OutrankingNeedsWhatRootGives | incuscloud/server/src/acl/outrank.ts:5-19 | Passing means holding at the path all the target holds on `/`. |
| Admins.ListedIffManagesUsers | incuscloud/server/src/acl/admins.ts:9-18 | For every known user, being listed agrees with the decision on `/` giving `platform.users`, over the snapshot loaded from the same tables, if and only if the user is disabled, has an own entry on `/`, or its groups' entries there do not give it. |
| Admins.ListedWithoutGroups | incuscloud/server/src/acl/admins.ts:9-18 | So a user whose groups have no entry on `/` is listed exactly when the decision gives it. |
| Admins.DeletedLeavesNothing | incuscloud/server/src/api/users.ts:143-145 | Deleting a user takes its role and its entries along and nobody else's. |
| Admins.UpdateGivesOneRole | incuscloud/server/src/api/users.ts:114-116 | An update leaves the user the one role it was given, or none, and everyone else theirs. |
| Admins.ChangeLeavesIff | incuscloud/server/src/api/users.ts:102-121 | Whatever a guard saw earlier, a change leaves an administrator if and only if the tables it meets hold one that it does not drop. |
| Admins.GuardIsExact | incuscloud/server/src/acl/admins.ts:20-25 | On the tables it reads, with the role loaded from them, the guard lets a change through if and only if an administrator remains after it. |
| Admins.SomeoneThroughoutIff | incuscloud/server/src/acl/admins.ts:9-25 | Over every interleaving of the guard's queries, the guarded writes of any number of requests and other routes' writes, someone is an administrator all along if and only if every guarded write finds an administrator it does not drop. |
| Admins.OverlappingBothPass | incuscloud/server/src/api/users.ts:101-121 | Any two changes that pass the guard on the same tables can both be made, one after the other. |
| Admins.OverlapLeavesNobody | incuscloud/server/src/api/users.ts:141-147 | The run exists in which the last two administrators are deleted at once, both guards pass and nobody is left. |
| Admins.SomeoneStays | incuscloud/server/src/acl/admins.ts:20-25 | Over any run with at most one guarded change under way at a time, whatever other routes add, someone stays an administrator. |
| SnapshotCache.StepSound | incuscloud/server/src/acl/acl.ts:79-93 | Every step of calls, loads, failures, writes and invalidations keeps the cache invariant. |
| SnapshotCache.CallsSeeInvalidatedChanges | incuscloud/server/src/acl/acl.ts:79-93 | In every run a call's answer comes from a load begun after the last invalidation before the call, at a table version no older. |
| SnapshotCache.CallAfterInvalidate | incuscloud/server/src/acl/acl.ts:79-93 | A call that begins any time after an invalidation is bound by the loads and the version of that moment. |
| SnapshotCache.AnswersAreFresh | incuscloud/server/src/acl/acl.ts:83-92 | A reused snapshot was loaded and younger than the TTL at its check; any other was begun within the call. |
| SnapshotCache.FailuresAreNotKept | incuscloud/server/src/acl/acl.ts:84-91 | In every run the cached load is never a failed one whose failure has been seen, whatever other loads have done. |
| SnapshotCache.CallsShareOneLoad | incuscloud/server/src/acl/acl.ts:83-88 | Two calls that come while nothing is cached wait for one load. |
| SnapshotCache.SettlingDecides | incuscloud/server/src/acl/acl.ts:85-92 | A call that waits for a load reuses it when it works and loads again when it fails. |
| SnapshotCache.FailureIsForgotten | incuscloud/server/src/acl/acl.ts:89-91 | A failure once seen drops its load from the cache, and no other. |
| SnapshotCache.WritesAreSeen | incuscloud/server/src/acl/acl.ts:79-93 | A write before an invalidation is seen by every call after it. |
| SnapshotCache.SnapshotExpires | incuscloud/server/src/acl/acl.ts:86-88 | Once the TTL has passed the next call loads again. |
| SnapshotCache.YoungIsReused | incuscloud/server/src/acl/acl.ts:83-86 | A call that meets a loaded snapshot younger than the TTL is answered by it and loads nothing. |
| SnapshotCache.ExpiredIsLoadedTwice | incuscloud/server/src/acl/acl.ts:83-92 | Two calls that wait for an expired snapshot each load again. |
| SnapshotCache.SettledStaysSettled | incuscloud/server/src/acl/acl.ts:83-92 | A finished load's outcome is final. |
| SnapshotCache.Cache.ResumeCall | incuscloud/server/src/acl/acl.ts:85-92 | The code after the await refines the step: reuse while young, else load and cache. |
| SnapshotCache.Cache.Invalidate | incuscloud/server/src/acl/acl.ts:79-81 | Drops the cached load and nothing else. |
| Owners.SubjectRoundTrip | incuscloud/server/src/acl/owners.ts:15-18 | Writing and reading a subject gives it back exactly when it is `user:<id>` or `service:<id>` with a plain id. |
| Owners.RowIsTheWinners | incuscloud/server/src/acl/owners.ts:10-35 | After any claims the row is that of the one winner: the last of the highest rank, or the first if all were backfill. |
| Owners.LastClaim | incuscloud/server/src/acl/owners.ts:10-35 | A claim of IncusCloud always takes the row; an event takes it unless IncusCloud ever claimed it; a backfill never does. |
| Owners.RankNeverFalls | incuscloud/server/src/acl/owners.ts:10-35 | No further claim lowers the stored rank. |
| Owners.CarryMovesOwner | incuscloud/server/src/acl/owners.ts:87-96 | The target gets the source's owner at the best rank, moving forgets the source, other rows stay. |
| Lifecycle.Db.OnLifecycle | incuscloud/server/src/acl/lifecycle.ts:39-69 | The handler's statements, in order, give the tables and the answer the specification gives. |
| Lifecycle.Db.RenameOwned | incuscloud/server/src/acl/owners.ts:37-39 | Re-keys the row, or fails on a taken name and changes nothing. |
| Lifecycle.AnswersWhatItDid | incuscloud/server/src/acl/lifecycle.ts:33-69 | False means nothing changed, exactly for events without what they need; no answer comes exactly when an owned instance is renamed onto another owned one. |
| Lifecycle.EntriesUnderContinue | incuscloud/server/src/acl/entries.ts:5-6 | Under a path is the path itself and what continues it after a slash. |
| Lifecycle.InstancePathCoversItself | incuscloud/server/src/acl/entries.ts:5-6 | An instance's path covers entries on that instance and on no other. |
| Lifecycle.ActRefines | incuscloud/server/src/acl/lifecycle.ts:39-69 | One create, rename, delete, claim or grant keeps the name-keyed tables equal to tables keyed by the instance's identity, and no statement fails. |
| Lifecycle.RunRefines | incuscloud/server/src/acl/lifecycle.ts:33-69 | So does every loss-free run: rename chains and reused names never give an instance another's owner or entries. |
| Lifecycle.NewInstanceStartsClean | incuscloud/server/src/acl/lifecycle.ts:58-65 | After any such run an instance created under a free name has no owner but its requestor and no entries. |
| Streams.StepSound | incuscloud/server/src/acl/lifecycle.ts:90-172 | Every callback keeps the stream manager's invariant. |
| Streams.OneSocketPerCluster | incuscloud/server/src/acl/lifecycle.ts:134-164 | In every run a cluster has at most one open websocket. |
| Streams.TimersAndBackoff | incuscloud/server/src/acl/lifecycle.ts:143-171 | A pending timer is a current stream's with nothing open, and every backoff stays between its limits. |
| Streams.NothingAfterStop | incuscloud/server/src/acl/lifecycle.ts:111-119 | After a stop no stream, timer or open websocket is left, whatever is still under way. |
| Streams.NoStreamIsStuck | incuscloud/server/src/acl/lifecycle.ts:134-171 | A kept stream is connecting, open, waiting to retry, or about to hear that it closed. |
| Streams.StartFollows | incuscloud/server/src/acl/lifecycle.ts:103-132 | A manager that starts follows the clusters it reads at once; starting twice reads them once. |
| Streams.IntervalFollows | incuscloud/server/src/acl/lifecycle.ts:103-132 | So it does whenever the interval fires; a failed refresh changes nothing. |
| Streams.IntervalWhileRunning | incuscloud/server/src/acl/lifecycle.ts:103-119 | In every run the interval is there exactly while the manager runs. |
| Streams.LateConnectionIsClosed | incuscloud/server/src/acl/lifecycle.ts:145-152 | A connection that comes too late is closed at once, heard of no more, and disturbs no other. |
| Streams.RefreshFollows | incuscloud/server/src/acl/lifecycle.ts:122-132 | After a refresh a running manager has streams for exactly the enabled clusters, the old one where there was one, else a new one at the shortest wait. |
| Streams.BackoffDoubles | incuscloud/server/src/acl/lifecycle.ts:166-171 | After k failures in a row the wait is the shortest doubled k times, or the longest there is. |
| Streams.SuccessStartsAgain | incuscloud/server/src/acl/lifecycle.ts:140-171 | A connection that worked and closed begins again at the shortest wait. |
| Streams.Manager.Refresh | incuscloud/server/src/acl/lifecycle.ts:122-132 | The two loops drop exactly the streams of gone clusters and open exactly the missing ones. |
| Streams.Manager.End | incuscloud/server/src/acl/lifecycle.ts:111-119 | The loop of stop reaches the stopped state of the step machine. |
| Streams.Manager.OnConnect | incuscloud/server/src/acl/lifecycle.ts:140-157 | A late connection is terminated; a current one is kept with the backoff reset. |
| Streams.Manager.OnTimer | incuscloud/server/src/acl/lifecycle.ts:168-170 | A firing timer opens a new stream at twice the backoff, capped, unless its stream was replaced. |
| HostIds.AtoiOfFormat | firecloud/integration/lvm.go:44-66 | Reading a written integer gives it back. |
| HostIds.ParseHostIds | firecloud/integration/lvm.go:31-53 | The loop over entries computes the parse of the split value, error cases included. |
| HostIds.AtoiReads | firecloud/integration/lvm.go:44-46 | Signs and leading zeros are read, and nothing but digits otherwise. |
| HostIds.ParseFailsIff | firecloud/integration/lvm.go:31-53 | Parsing fails exactly when some nonblank part has no equals sign or no id in 1..2000 after the first one. |
| HostIds.ParsedHolds | firecloud/integration/lvm.go:31-53 | Otherwise every name has the id of its last entry, and no other name has any. |
| HostIds.FormatHostIds | firecloud/integration/lvm.go:56-70 | The result lists every entry once, by ascending id. |
| HostIds.ParsedIsClean | firecloud/integration/lvm.go:31-53 | Whatever parses holds only storable names and ids in 1..2000. |
| HostIds.RoundTripIffClean | firecloud/integration/lvm.go:31-70 | Parsing any format of a map gives the map back exactly when its names are storable and its ids in range. |
| HostIds.AssignHostIds | firecloud/integration/lvm.go:74-99 | The loops hand out ids upwards from the highest, in name order, stopping past 2000. |
| HostIds.AssignFailsWhenIdsRunOut | firecloud/integration/lvm.go:84-96 | It fails exactly when there are new names and the highest id plus their number exceeds 2000. |
| HostIds.AssignKeepsIds | firecloud/integration/lvm.go:72-99 | It keeps every entry, adds exactly the new names, and keeps ids distinct. |
| HostIds.IdsAreForever | firecloud/integration/lvm.go:22-99 | Over every run of parse, assign and format on the stored string, a name keeps its id for good and no id goes to a second name. |
| LvmConf.SettingIsSpelled | firecloud/integration/lvm.go:101 | The lines taken for a setting are exactly those the pattern spells: blanks, the key with or without a mark, an equals sign and a number. |
| LvmConf.SectionIsSpelled | firecloud/integration/lvm.go:102 | So are the section lines. |
| LvmConf.RefusedIff | firecloud/integration/lvm.go:107-123 | A content is refused exactly when it has neither a setting nor a section and is not all space. |
| LvmConf.WrittenLines | firecloud/integration/lvm.go:107-123 | The offset cutting replaces the first setting line, else adds a line under the first global section, else makes a file; every other line stays. |
| LvmConf.LockdEnabled | firecloud/integration/lvm.go:126-135 | The loop answers by the first line that sets the key. |
| LvmConf.EnabledIffNothingBefore | firecloud/integration/lvm.go:107-135 | After enabling, lvmlockd reads as enabled exactly when the first line before the written one that reads at all, if there is any, does not read as disabled. |
| LvmConf.PlainSettingsEnable | firecloud/integration/lvm.go:101-135 | With plain numeric settings it always does, in all three cases. |
| LvmConf.EnableIsIdempotent | firecloud/integration/lvm.go:107-123 | Enabling twice changes nothing more, for every accepted content. |
| LvmConf.WordSettingStaysOff | firecloud/integration/lvm.go:101-135 | A setting with a word for its value is not replaced and keeps lvmlockd off. |
| SharedDisks.DiskPaths | firecloud/service/system_information.go:444-455 | A disk's path goes by its id, else by where it is plugged in, else by its name; partitions, loop devices and disks without an id are not looked at. |
| SharedDisks.SharedDisks | firecloud/cmd/firecloud/ask_shared.go:267-292 | One offered disk for each path listed as often as there are systems, by ascending path, in whatever order the maps are walked. |
| SharedDisks.ReportedIffEverySystemSees | firecloud/cmd/firecloud/ask_shared.go:265-292 | If no system lists a device twice, it is reported exactly when every system sees it as a whole disk. |
| SharedDisks.SharedDisksAreThoseAllSee | firecloud/cmd/firecloud/ask_shared.go:265-292 | The same of the returned disks. |
| SharedDisks.SeenByAllReportedIffOnce | firecloud/cmd/firecloud/ask_shared.go:265-292 | A device every system sees is reported if and only if no system lists it twice. |
| SharedDisks.CountAnswersIff | firecloud/cmd/firecloud/ask_shared.go:265-292 | For every device, being reported and being seen by every system agree if and only if it has no surplus listing, or some systems miss it and their number differs from that of the surplus listings; there is no surplus exactly when no system lists it twice. |
| SharedDisks.ListedTwiceMisleads | firecloud/cmd/firecloud/ask_shared.go:268-286 | A device one system lists twice is reported though the other does not see it. |
| SharedDisks.InitConfig.KeepSharedDisks | firecloud/cmd/firecloud/ask.go:299-315 | With several systems the loops delete from each exactly the disks under a shared path; with one nothing changes. |
| SharedDisks.NoneLeft | firecloud/cmd/firecloud/ask.go:299-315 | Afterwards a disk is still offered exactly when its path was not shared. |
| SharedDisks.SecondPassFindsNone | firecloud/cmd/firecloud/ask.go:299-315 | A second pass finds no shared disk, even with devices listed twice. |
| Table.ShownEnumerates | firecloud/cmd/tui/selectable_table.go:310-341 | The shown rows are the strictly ascending enumeration of exactly the raw rows that match. |
| Table.SelectableTable.Init | firecloud/cmd/tui/selectable_table.go:217-241 | The table starts with all rows shown and nothing selected. |
| Table.SelectableTable.FilterRows | firecloud/cmd/tui/selectable_table.go:310-341 | The loop rebuilds both maps as that enumeration and touches only the cursor. |
| Table.SelectableTable.HandleKey | firecloud/cmd/tui/selectable_table.go:410-488 | Every key takes the table to the state the step function gives and keeps it valid. |
| Table.SelectableTable.HandleInsert | firecloud/cmd/tui/selectable_table.go:379-387 | Appends the row and keeps cursor, viewport and selection. |
| Table.SelectableTable.HandleDisable | firecloud/cmd/tui/selectable_table.go:389-398 | Disables an index and takes it out of the selection. |
| Table.SelectableTable.Result | firecloud/cmd/tui/selectable_table.go:145-173 | The error if there is one; else a read past the header exactly when `Renders` fails; else every selected row once, as maps by header, ascending by the first column. |
| Table.MatchesSomewhere | firecloud/cmd/tui/selectable_table.go:319-327 | A row matches when the filter occurs at some place in any of its columns. |
| Table.CursorCounts | firecloud/cmd/tui/selectable_table.go:310-341 | The cursor is on the matching row with as many matching rows above it as the cursor's line says. |
| Table.SpaceFlips | firecloud/cmd/tui/selectable_table.go:449-456 | Space changes the row under the cursor, unless disabled, and no other; pressed twice it gives the table back. |
| Table.DownToNext | firecloud/cmd/tui/selectable_table.go:432-439 | Down moves the cursor to the next matching row, or nothing; the viewport no further than it must. |
| Table.UpToPrevious | firecloud/cmd/tui/selectable_table.go:424-431 | Up moves it to the previous matching row, or nothing. |
| Table.KeysThatEnd | firecloud/cmd/tui/selectable_table.go:414-488 | Enter ends with the selection kept; Escape, Ctrl-C and unknown keys end without one; Left empties it; no key touches rows or disabled rows. |
| Table.FilterKeysEdit | firecloud/cmd/tui/selectable_table.go:458-476 | Backspace takes back the last character, Delete the first; each filter key puts the cursor at the top and changes nothing else. |
| Table.DisableThenEnable | firecloud/cmd/tui/selectable_table.go:389-408 | Enabling undoes disabling, but for the selection. |
| Table.DisabledStaysUnselected | firecloud/cmd/tui/selectable_table.go:389-488 | Over every run a disabled row stays unselected until it is enabled. |
| Table.StepSound | firecloud/cmd/tui/selectable_table.go:379-488 | Every message keeps the cursor on a shown row inside the viewport, and the selection within the rows and apart from the disabled ones. |
| Table.RunFromInit | firecloud/cmd/tui/selectable_table.go:194-241 | So does every run of messages from Init. |
| Table.RunFitsIff | firecloud/cmd/tui/selectable_table.go:379-387 | Over every run all rows fit the header if and only if those at the start and every inserted one do. |
| Table.FittingRunRenders | firecloud/cmd/tui/selectable_table.go:154-173 | Then, with a header, no run makes Render read past it. |
| Table.WideRowPanics | firecloud/cmd/tui/selectable_table.go:154-167 | A row inserted with more columns than headers, once selected, does. |
| Table.InsertKeepsPlace | firecloud/cmd/tui/selectable_table.go:379-387 | A row arriving under a filter leaves the cursor on its row and the selected indices on theirs. |
| Table.FilterKeysNarrowAndWiden | firecloud/cmd/tui/selectable_table.go:458-476 | Typing only narrows what is shown, taking a character off either end only widens it, and neither touches the selection. |
| Table.RightSelectsShown | firecloud/cmd/tui/selectable_table.go:442-447 | Select-all adds exactly the matching rows that are not disabled. |
| Table.FailureStays | firecloud/cmd/tui/selectable_table.go:194-216 | Over every run an error stays an error; only another one or cancelling replaces it. |
| Table.ResultReads | firecloud/cmd/tui/selectable_table.go:154-167 | Every selected row is in the result with each column under its header. |
| Table.ExactRowsRender | firecloud/cmd/tui/selectable_table.go:154-167 | Rows with one column for each header never make Render read past it, in any run. |
| Table.RemovedIsGone | firecloud/cmd/tui/selectable_table.go:355-377 | The removed row and its index are gone, the later rows move up, and the other indices stay. |
| Table.RemoveKeepsSoundIff | firecloud/cmd/tui/selectable_table.go:355-377 | Removing a row keeps the invariant if and only if the last row was not selected or is the one removed. |
| TrustSession.LimitsHold | firecloud/service/session.go:107-206 | Over every interleaving from the start attempts stay within 50, no fingerprint is held twice and no channel is closed twice. |
| TrustSession.FailuresAreCounted | firecloud/api/services_auth.go:52-91 | While a session lives its counter is the number of failed attempts that reached it, capped at 50. |
| TrustSession.OneTooMany | firecloud/api/services_auth.go:60-78 | The attempt after the last allowed one ends the session exactly when stopping it works; otherwise nothing changes. |
| TrustSession.FailuresBeyondMetFailingStops | firecloud/api/services_auth.go:60-78 | Over every run, a session still active has met exactly one failing stop for each failure beyond the fiftieth. |
| TrustSession.OutlivesFailuresIff | firecloud/api/services_auth.go:52-91 | A session that only failures can stop outlives a run if and only if every failure beyond the fiftieth met a stop that did not work. |
| TrustSession.StoppedStaysStopped | firecloud/service/service_handler.go:188-213 | Once stopped, no transaction opens and the trust store reads empty, even after a late certificate, until a new session starts. |
| TrustSession.AllowTakesEffect | firecloud/service/session.go:107-114 | In an active session allowing a certificate adds it to what is read, under that name alone. |
| TrustSession.AllowedIsRead | firecloud/service/service_handler.go:201-213 | Over every run it is read back while the session lives, until the name is allowed another. |
| TrustSession.AcceptedOnce | firecloud/service/session.go:128-142 | Within one active session each fingerprint is accepted at most once, however requests interleave. |
| TrustSession.StartIsFresh | firecloud/service/session.go:53-72 | A new session is active, trusts nobody and has counted nothing; discovery can fail its stop only once it runs. |
| TrustSession.StopClears | firecloud/service/session.go:182-189 | A stop that begins leaves nothing to read or to count. |
| TrustSession.RequestsAreConserved | firecloud/api/session_join.go:60-84 | Over every run each join request that registered is on its way, done, cut off or too late, and only one of these. |
| TrustSession.TransactionsConserved | firecloud/service/session.go:191-203 | Every step changes the open transactions and the senders at the exit by exactly those it names; the stop's poll takes one sender. |
| TrustSession.StopIsSafeIff | firecloud/service/session.go:191-197 | No schedule of the stop closes the intents on a waiting join request if and only if none has registered without having sent, or they are closed already; a stop in a writing transaction is always safe. |
| TrustSession.JoinRequestIsCutOff | firecloud/api/session_stop.go:36-43 | The schedule poll, send, close happens: a stop in a reading transaction makes a join request panic. |
| TrustSession.LateSendIff | firecloud/api/session_join.go:60-84 | After the close a join request can still send on the closed channel if and only if a reading transaction is open that has not sent. |
| TrustSession.WritingStopsHurtNobody | firecloud/service/service_handler.go:155-199 | In runs where sessions stop only in writing transactions no join request is cut off or late. |
| TrustSession.ExitIsSafeIffClosed | firecloud/cmd/firecloudd/main.go:178-186 | The hook after a join, which holds no lock, can be cut off by every stop that finds the exit channel open. |
| TrustSession.QuietStopCloses | firecloud/service/session.go:167-206 | A stop that begins with no join intent under way leaves the intents closed and has cut off nobody, whatever comes between its steps. |
| TrustSession.StaysOpenIff | firecloud/service/session.go:191-197 | A stop about to poll can end with the intents still open if and only if it finds them open and a join request is sending or about to. |
| TrustSession.TrustSession.StartStop | firecloud/service/session.go:167-189 | Clears everything and goes on to the channels, or on an outside failure changes nothing. |
| TrustSession.TrustSession.ContinueStop | firecloud/service/session.go:191-203 | Each poll and each close is a step of its own; a close only meets an open channel. |
| TrustSession.TrustSession.RegisterFailedAttempt | firecloud/service/session.go:144-155 | Counts up to the limit and refuses there. |
| TrustSession.Handler.AuthenticateWrongly | firecloud/api/services_auth.go:52-91 | The wrong-HMAC transaction refines the machine's step. |
| TrustSession.Handler.StopReading | firecloud/api/session_stop.go:36-43 | A stop inside a reading transaction begins as the machine's step says; others go on reading and sending. |
| TrustSession.Handler.SendIntent | firecloud/api/session_join.go:78-84 | Sending waits on an open channel and panics on a closed one. |
| Removal.OrderKept | firecloud/api/services_cluster.go:87-153 | Over every interleaving and failure Ceph and OVN start only once Incus does not have the member, Firecloud only once no other service does, and success means it is in none. |
| Removal.ForgetsLast | firecloud/api/services_cluster.go:87-153 | A step that makes Firecloud forget the member finds it in no other service. |
| Removal.FoundUnlessVanished | firecloud/api/services_cluster.go:91-160 | A request that ends well found the member only if some service had it, and says "not found" only if every service that had it lost it by other means first. |
| Removal.NotFoundIffNowhere | firecloud/api/services_cluster.go:91-160 | Left alone, it says "not found" exactly when no service had the member. |
| Removal.VanishedIsNotFound | firecloud/api/services_cluster.go:91-160 | A run exists that says "not found" of a member some service had, which vanished in time. |
| Removal.RetryCompletes | firecloud/api/services_cluster.go:87-153 | From whatever earlier attempts left, an attempt without failures ends with the member in no service. |
| Removal.StepsRunOut | firecloud/service/service_handler.go:91-139 | Each step brings the request nearer its end. |
| Removal.NeverStuck | firecloud/service/service_handler.go:91-139 | Until it returns some step is possible: the wait for the concurrent hooks always ends. |
| Removal.RefusedIff | firecloud/api/services_cluster.go:61-85 | A request is refused up front exactly when Ceph cannot be asked or consists of the member, with a monitor, and one other. |
| Removal.RefusedRemovesNothing | firecloud/api/services_cluster.go:61-85 | A run that meets a monitor in a Ceph cluster of two removes the member from no service at any step and ends in an error. |
| Removal.CephKeepsItsCopies | firecloud/api/services_cluster.go:114-153 | Over every run the step that removes the member from Ceph finds no pool that wants more copies than there are disks on other members, exactly the too large ones trimmed to that number; no other hook touches a pool. |
| Removal.PlanReplication | firecloud/api/services_cluster.go:114-144 | The loops count the disks that stay and collect the pools too large for them, or name the default. |
| Removal.ReplicationFits | firecloud/api/services_cluster.go:114-150 | Carried out, no pool wants more copies than there are disks on other members, and no disk or pool is gone. |
| Removal.Request.Prepare | firecloud/api/services_cluster.go:114-150 | The plan and the request to Ceph refine the machine's step. |
| Removal.Request.RunHook | firecloud/api/services_cluster.go:92-153 | A hook's next call refines the machine's step and keeps the order. |
| Removal.Request.Continue | firecloud/service/service_handler.go:91-139 | What RunConcurrent does between hooks: go on, wait, or return the first failure. |

## Left out

- The database: tables are sequences, sets or maps of rows and each statement is one atomic step; the unique index over an entry's path, subject and role, which could refuse a move of entries, is not modelled.
- Admins.SomeoneThroughoutIff: the transaction of a guarded change is one step, and other routes' writes only add users, roles and entries on `/` and put no "No access" there, as no other route takes these away.
- HTTP, websockets, TLS, HMAC, certificates, multicast, `exec` and files: each is a step that works or fails.
- `subjectOf` of lifecycle events (`lifecycle.ts:25-31`): events carry the resolved subject. Leases are not modelled.
- Lifecycle events of one cluster are applied one at a time and none is lost; `backfillOwners` and `sweepInstanceEntries`, which repair losses, are not modelled.
- `explain`, `instancePath` and `canOnInstance` of `Acl`: thin callers of the decision.
- Outrank.OwnersAreForOwners: ids of tenants are taken as the database makes them, not empty and without a colon, one tenant for each id and slug.
- Tenancy.MemberHolds: of users and accounts with several rows, or explicit entries beside them, only the decision itself speaks (`Resolve.DecidedAtFirstLevel`).
- Outrank.OutranksTransitive: the tenant-owner clause, which asks for `platform.users` on `/`, is a separate guard in `Outrank.NeedOutrank` and not part of the order.
- Load.LoadSnapshot: requires names without slashes in the rows that become paths, which the routes that write them check.
- Timestamps of owner rows, and which of two equal-ranked rows was written when.
- The table's rendering (`View`, `rowStyle`), window size, and its lock; messages are handled one at a time.
- Table.RemoveKeepsSoundIff: stated of the step function; no caller of the remove message exists in the source.
- The hook after a join when no session was ever started, which would dereference a missing session.
- TrustSession.LimitsHold: roles, service and version checks of join intents, and the time-outs of senders and readers appear only as steps that may happen at any time.
- TrustSession.LateSendIff: reading transactions that have just begun are not told apart; any may turn out to be a join request.
- Removal.CephKeepsItsCopies: Ceph's disks and pools are changed by the request alone; its reads and the request to resize are one step, and the default size for later pools is not modelled.
- Removal.OrderKept: members may vanish by other means while a request runs; none is added.
- `LocalConf`, config files, wizard questions, the rest of `ask_shared.go`, and the services' own APIs.
- Semver, CIDR and disk filter expressions, the gateway, federation, balancing, backups, mobility, quotas and Kubernetes jobs.
