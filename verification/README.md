# Reconcile protocol of the Che operator, modelled and proved

The operator keeps a Che installation in step with a `CheCluster` custom resource: it reads the cluster,
compares, writes one thing, and is called again. This project models the parts where that is hard — many
writers, an API server with optimistic concurrency, a read cache that lags, writes whose replies get lost — and
proves what holds over every run.

| file | what it models |
|---|---|
| `Cluster.dfy` | the API server (versions, finalizers, deletion), the lagging cache, other writers as a script of steps, and the calls of this process between them |
| `Sync.dfy` | the generic reconcile step for one object: create, compare, replace, delete |
| `Finalizers.dfy` | the retry loops that put a finalizer on the custom resource or take it off, and objects guarded by one |
| `Permissions.dfy` | the three guarded pairs of cluster role and binding, and whole reconciles around them: safety |
| `PermissionProgress.dfy` | what granting and removing them achieves, and where the safety ends |
| `Deploy.dfy` | the deploy context as a class whose methods perform all of the above step by step |
| `Conversion.dfy` | the two conversions between the versions of the custom resource |
| `CaCerts.dfy`, `Strings.dfy` | the merged map of CA certificates and its printed revisions |
| `DevWorkspace.dfy` | several operators sharing the objects of the dev workspace operator |
| `TlsSecrets.dfy` | the TLS secrets and the job that makes them |
| `ImagePuller.dfy` | installing and removing the image puller beside its own operator |
| `Exposure.dfy` | switching a component between gateway and ingress or route |
| `Defaulting.dfy` | filling the empty fields of the custom resource, with failing writes |
| `MountSecrets.dfy` | mounting secrets into a deployment |
| `NoProxy.dfy` | lists of hosts that bypass the proxy |

Code that changes objects step by step is a class or a method with loops, proved equal to a function of the old
state; what the operator promises is then proved about that function. `World` in `Cluster.dfy` holds one run:
the server, the cache, the steps other writers are still going to take, every state the server has been in, and
every write of this process that took effect. Every API call first lets a burst of those steps happen. A run is
quantified over all scripts, so a statement about a `World` holds for every interleaving.

## What the safety of the permission finalizers assumes

`Permissions.PermissionFinalizersAreSafe` allows conflicts, lost replies, stale and failing reads, other people's
edits, deletion by the user at any time, and whatever else the reconcile does to the custom resource. It assumes that
nobody else touches the roles, the bindings and the three finalizers, and that nobody creates the custom resource
anew under the same name once it is gone. It says, object by object, that a role that is there in a state without its
finalizer can only come from a misread of that very role: the read before deleting it had failed, and the failure was
taken for absence; and the same for a binding. `PermissionProgress.LeftIfMisread` is the other direction: a removal
that reports success leaves the role exactly if that read failed, and the same for the binding.

## Where the code does less than one would hope

The code is kept as it is, and the condition under which it does what is expected is proved.

- A deletion reports success if the read before it fails (`pkg/deploy/sync.go:292-297`). `Sync.DeletionLeaves` says
  exactly when the object is left: if that read fails or, through the cache, misses it, or if the deletion is not
  carried out. `PermissionProgress.LeftIfMisread` lifts this to a group of permissions
  (`PermissionProgress.FailedReadsLeakPermissions` is an instance in which the resource goes too), and
  `Finalizers.UnguardedIfDeletionFails` to an object whose finalizer is taken off even if its deletion failed
  (`pkg/deploy/finalizer.go:68-76`; an instance is `Finalizers.FailedDeletionUnguards`).
- An in-place replacement keeps labels and annotations of others, but a finalizer of others exactly if the blueprint
  carries it, and the owner exactly if it is the one the blueprint is given: `Sync.KeptIfCarried`.
- A blueprint that belongs to something else than the custom resource is never written, but an object that has to be
  created anew may be deleted before that is noticed (`pkg/deploy/sync.go:243-254`): `Sync.ForeignIsRefused`.
- A sync comes to rest exactly if the stored labels and digest are ones its comparison can settle on, and never
  without comparison options: `Sync.SyncConverges`.
- Converting v2 to v1 loses a disabled gateway in exactly one case, so that it does not return either:
  `Conversion.V1SaysTheSame`, `Conversion.RoundTripV2`. A v1 resource that goes back to nginx keeps the ingress
  class that is stored for v2: `Conversion.V2SaysTheSame`.
- The printed revisions of the merged CA map parse back exactly if no source name contains `-` or `.`
  (`CaCerts.PrintParse`); a comment in the source speaks of `=` and `,`, the code uses `-` and `.`. The default
  source `ca-certs` has such a name. While it is listed the merge is never skipped, and success leaves the merge of
  the sources just read (`CaCerts.UnplainSyncAgrees`, `CaCerts.DefaultIsNeverSkipped`). What any list reads back as is
  `CaCerts.ReadBack`; when the merge is skipped is `CaCerts.SkipsIfLegible`. For names without dots, a skipped merge is right exactly if every key listed in the list
  behind the merged map is one its source has at its current revision, with the value listed last
  (`CaCerts.SkipIsRight`). If each name was read at one revision, this is to say that every source no longer listed
  is empty; an instance is `CaCerts.DashedNameGoesStale`.
- A config map that carries the label and is also named in the custom resource is read twice in one call
  (`pkg/deploy/tls.go:507-519`); a change in between makes the merge keep keys of the older revision. If no
  name has a separator, the next merge is skipped all the same, which is right exactly if no key of an older revision
  has gone since (`CaCerts.TornReadGoesStale`). Right is the merge of every source at the last revision it is listed with.
- A lagging cache also lets a merge be skipped, until it catches up (`CaCerts.StaleCachePasses`). It is harmless
  exactly if the list behind the map that is stored fits the current revisions and covers them
  (`CaCerts.StoredIsRight`).
- An object of the dev workspace operator that a process has written and someone then deletes is never brought back
  by that process, because its cached template keeps the resourceVersion: `DevWorkspace.WrittenThenDeletedStaysAway`.
  A service, which is deleted and created anew, is deleted for the same reason without being created again, exactly
  if the template was used before: `DevWorkspace.WritesIfEntitled`.
- Two exits of the TLS handler ask for no requeue, so the installation goes on without good secrets, except exactly
  if removing a failed job, as the second exit does, is all that was needed (`TlsSecrets.GoesOnMeansGood`). A wanted
  job that has failed for good is waited for, and never replaced by the handler itself
  (`TlsSecrets.ConvergesUnlessStuck`); its expiry, thirty seconds after it has finished
  (`pkg/deploy/job.go:72`), ends that (`TlsSecrets.ExpiryUnsticks`).
- The image puller and its own operator come to rest exactly if the custom resource gives the names that operator
  fills in, or leaves the whole spec empty while there is no puller yet, and a differing subscription can be updated
  (its update carries no resourceVersion): `ImagePuller.ComesToRest`. Otherwise, if the subscription is not the
  obstacle, the two write without end (`ImagePuller.WritesWithoutEnd`), also for an empty spec beside an existing
  puller; a subscription that cannot be updated makes every call an error that writes nothing
  (`ImagePuller.UncorrectableIsError`).
- A switch is done even if removing the other way of exposure fails, which then stays: `Exposure.LeftIfRemovalFails`.
- Switching a component leaves a moment without either way of exposure exactly if a route or ingress is replaced
  while there is no gateway configuration (`Exposure.ExactlyOneWay`). With a lagging cache a switch to the gateway
  leaves it unexposed exactly if the cache still shows a configuration that is gone
  (`Exposure.StaleCacheUnexposes`).
- Filling in fields from a lagging copy of the custom resource never changes the resource, but it rewrites the
  secret of a field that already names one, exactly if the first field due in that copy is about this secret; and it
  loses the secret exactly if the creation after the deletion is not carried out (`Defaulting.StaleRewrites`).
- While the custom resource is being deleted, syncing a secret does nothing and passes for a success
  (`pkg/deploy/sync.go:34-36`), and the name of the secret is stored all the same (`pkg/controller/che/create.go:37-44`).
  So a field that is filled from the current version names an existing secret exactly if the resource is not being
  deleted or the secret was there before (`Defaulting.FilledIsBacked`, with the instance
  `Defaulting.DeletingFillsUnbacked`).

## Model

| member | source | states |
|---|---|---|
| Cluster.UpdateHitsBase | pkg/deploy/sync.go:266-268 | an update made from a version that was read takes effect, if at all, on exactly that version, whatever others wrote before it, and its outcome is fixed; if it is refused nothing is written |
| Cluster.SettleStep | pkg/deploy/sync.go:318-327 | any burst of other writers leaves versions unique and only moves the server forward, so what was read stays what it was |
| Cluster.ReadStep | pkg/deploy/sync.go:318-327 | a read, cached or not, returns an object that is current or once was |
| Cluster.SettleKeepsOwned | pkg/deploy/sync.go:346-352 | an object others leave alone stays as it is through any burst, and its cached copy is one of its own states |
| Sync.NoLostUpdate | pkg/deploy/sync.go:31-62 | however stale the read and whoever writes in between, a sync of an in-place kind has at most one effect: a creation from the blueprint, or a replacement of exactly the version that was compared, with labels and annotations equal to the old ones overlaid by the blueprint's, and spec, finalizers and owner those of the blueprint |
| Sync.KeptIfCarried | pkg/deploy/sync.go:222-268 | what a replacement loses, exactly: labels and annotations never, a finalizer if and only if the blueprint does not carry it, the owner if and only if the blueprint is given another; nothing of others if and only if the compared version has nothing the blueprint does not carry |
| Sync.NeverReplaces | pkg/deploy/sync.go:123-153 | creating what does not exist has at most one effect, at a free key, whoever interferes |
| Sync.DeletionLeaves | pkg/deploy/sync.go:285-311 | for every script of other writers, an unheld object that nobody else touches is left behind if and only if the read fails or misses it or the deletion is not carried out, and exactly what the caller is told |
| Sync.Round | pkg/deploy/sync.go:201-272 | one undisturbed sync leaves an object with the spec of the blueprint; it writes nothing, and reports done, exactly if the stored object has the spec and, as far as the comparison looks, the labels and the digest of the blueprint; otherwise the blueprint is left, merged over the stored object, and another call is asked for exactly after a replacement in place, that is for every kind but services, ingresses, routes, jobs and secrets |
| Sync.DoneIsAsAsked | pkg/deploy/sync.go:31-62 | for every script, a sync that reports done has found an object that looks like the blueprint, in the cache or, for cluster-wide objects, on the server, or has just stored one with its spec, labels and annotations |
| Sync.CreatesIfMissing | pkg/deploy/sync.go:123-153 | undisturbed, creating what does not exist creates it and leaves alone what does |
| Sync.ForeignIsRefused | pkg/deploy/sync.go:333-344 | for every script, a blueprint of the own namespace that belongs to something else is never written, and all a sync may do is delete an object that has to be created anew |
| Sync.MergeSettles | pkg/deploy/sync.go:222-240 | the merged object still differs from the blueprint exactly if the stored labels or digest are out of the comparison's reach |
| Sync.SyncConverges | pkg/deploy/sync.go:31-62 | undisturbed syncs come to rest if and only if the comparison can settle on what is stored, and then after one round; for all four comparisons |
| Finalizers.WithoutCounts | pkg/util/util.go:59-67 | removing a string removes every copy of it and keeps the number of every other |
| Finalizers.WithoutConcat | pkg/util/util.go:59-67 | and the others stay in order |
| Finalizers.AttemptEffect | pkg/deploy/finalizer.go:27-34 | one attempt of the loop stores the edit of the version it started from, or nothing |
| Finalizers.RetryingStoresOneEdit | pkg/deploy/finalizer.go:24-66 | the loop ends under any finite interference and has at most one effect: the resource stored right before it, with the finalizer put at the end of its list or every copy of it taken off, and nothing else changed; success means it has had it, a definite error that it has not |
| Finalizers.EditsIfNeeded | pkg/deploy/finalizer.go:24-66 | adding a finalizer that is there and taking off one that is not do nothing at all |
| Finalizers.DoneMeansGuarded | pkg/deploy/sync.go:64-81 | an undisturbed sync with finalizer that reports done leaves both the object, as its blueprint has it, and its finalizer stored |
| Finalizers.UnguardedIfDeletionFails | pkg/deploy/finalizer.go:68-76 | for every script, success means that the finalizer was taken off the resource stored right before, and the object is left, now unguarded, if and only if its deletion failed |
| Finalizers.FailedDeletionUnguards | pkg/deploy/finalizer.go:68-76 | an instance: the deletion is not carried out, and the finalizer goes all the same |
| Permissions.SettleKeeps | pkg/controller/che/workspace_namespace_permission.go:77-202 | the invariant behind finalizer safety survives any burst of other writers, with or without a fault after it |
| Permissions.StoreKeeps | pkg/deploy/finalizer.go:49-53 | storing an in-memory resource keeps the invariant, even where it takes a permission finalizer off |
| Permissions.StoringStatusKeeps | pkg/deploy/checluster.go:49-57 | so does an update of the status, which stores nothing of what is in memory |
| Permissions.RetryingKeeps | pkg/deploy/finalizer.go:24-66 | so does the retry loop, with reloads that may be stale or fail, as long as a dropped finalizer is dropped after its role and binding are gone or were misread |
| Permissions.DelegatingKeeps | pkg/controller/che/workspace_namespace_permission.go:77-94 | granting a group keeps the invariant at whichever call it stops, failing reads included |
| Permissions.RemovingKeeps | pkg/controller/che/workspace_namespace_permission.go:96-112 | removing a group keeps the invariant at whichever call it stops; a misread is charged to the one object that was misread |
| Permissions.RunKeeps | pkg/controller/che/che_controller.go:314-350 | the invariant holds after any number of reconciles that store specs and the status, edit other finalizers in a loop or in one attempt, and reload the resource, in any order before and between the permission steps |
| Permissions.PermissionFinalizersAreSafe | pkg/controller/che/workspace_namespace_permission.go:49-202 | over every run and for each group: if a state that once had its finalizer is later without it, or without the resource, then a role that is still there is one whose own read before its deletion had failed, and the same for a binding |
| PermissionProgress.RemovingCompletes | pkg/controller/che/workspace_namespace_permission.go:133-148 | one undisturbed removal takes away role, binding and every copy of the finalizer, the resource too if nothing else holds it, and nothing else |
| PermissionProgress.AllGroupsRemoved | pkg/controller/che/workspace_namespace_permission.go:186-202 | one undisturbed pass removes all three groups and exactly their finalizers, and with them the resource if and only if nothing else holds it |
| PermissionProgress.DelegatingCompletes | pkg/controller/che/workspace_namespace_permission.go:77-94 | an undisturbed call is done exactly if neither role nor binding had to be replaced, and then both are as the policies say and the finalizer is stored |
| PermissionProgress.GrantedAfterThree | pkg/controller/che/workspace_namespace_permission.go:49-66 | whatever role and binding were there, three undisturbed calls grant and guard a group |
| PermissionProgress.AllGroupsGranted | pkg/controller/che/workspace_namespace_permission.go:49-66 | one undisturbed pass over all groups is done if and only if each of the six objects was missing or right, and then every group has its own rules, a binding to its own role and its finalizer stored |
| PermissionProgress.AllGrantedAfterSeven | pkg/controller/che/workspace_namespace_permission.go:49-66 | whatever roles and bindings were there, from the seventh undisturbed pass on that is so |
| PermissionProgress.LeftIfMisread | pkg/controller/che/workspace_namespace_permission.go:96-112 | for every script, a removal that reports success leaves the role if and only if the read before its deletion failed, and the same for the binding |
| PermissionProgress.FailedReadsLeakPermissions | pkg/deploy/sync.go:285-302 | an instance: two failed reads make the removal report success while role and binding stay and the resource goes |
| Deploy.ContainsString | pkg/util/util.go:50-57 | finds a string exactly if it is in the list |
| Deploy.DoRemoveString | pkg/util/util.go:59-67 | the list without any copy of the string, the rest in order |
| Deploy.MergeMaps | pkg/util/util.go:184-195 | the first map overlaid by the second, in whatever order keys are visited |
| Deploy.DeployContext.SetOwnerReferenceIfNeeded | pkg/deploy/sync.go:333-344 | an object in the custom resource's namespace gets it as owner, one owned by something else is refused unchanged, and objects elsewhere are left alone |
| Deploy.DeployContext.DoCreate | pkg/deploy/sync.go:274-283 | what is reported for created, already there and failed, and what is left in the blueprint |
| Deploy.DeployContext.Create | pkg/deploy/sync.go:157-178 | performs exactly the creation about which the effects are proved |
| Deploy.DeployContext.CreateIfNotExists | pkg/deploy/sync.go:123-153 | as Create, but an object that is there, before or meanwhile, is success |
| Deploy.DeployContext.Update | pkg/deploy/sync.go:201-272 | edits the blueprint in place and replaces the object, step by step as the specification of a sync has it |
| Deploy.DeployContext.Sync | pkg/deploy/sync.go:31-62 | performs the sync about which lost updates and convergence are proved, for every behaviour of the other writers |
| Deploy.DeployContext.Delete | pkg/deploy/sync.go:182-197 | performs the deletion about which safety and its limit are proved, recording a read that failed |
| Deploy.DeployContext.AppendFinalizer | pkg/deploy/finalizer.go:24-44 | the unbounded loop ends and does what the retry specification says |
| Deploy.DeployContext.DeleteFinalizer | pkg/deploy/finalizer.go:46-66 | the unbounded loop ends and does what the retry specification says |
| Deploy.DeployContext.SyncAndAddFinalizer | pkg/deploy/sync.go:64-81 | the sync, then the finalizer, and neither while the resource is being deleted |
| Deploy.DeployContext.DeleteObjectWithFinalizer | pkg/deploy/finalizer.go:68-76 | the deletion, whose failure is ignored, then the finalizer |
| Deploy.DeployContext.DelegatePermissions | pkg/controller/che/workspace_namespace_permission.go:77-94 | performs the granting of a group about which safety is proved, errors included |
| Deploy.DeployContext.RemovePermissions | pkg/controller/che/workspace_namespace_permission.go:96-112 | performs the removal of a group about which safety is proved, errors included |
| Deploy.DeployContext.ReconcileWorkspacePermissions | pkg/controller/che/workspace_namespace_permission.go:49-66 | grants the three groups in order, stopping at the first that is not done, with its error |
| Deploy.DeployContext.ReconcileWorkspacePermissionsFinalizers | pkg/controller/che/workspace_namespace_permission.go:186-202 | removes the three groups in order, only while the resource is being deleted, stopping with the error of the first that is not done |
| Conversion.RoundTripV2 | pkg/apis/org/conversion.go:66-101 | v2 to v1 to v2, whatever v1 spec is stored: both succeed and every field returns (unset flags as explicit true) if and only if it is not the one case of a gateway that cannot be switched off; all other fields return even then |
| Conversion.RoundTripV1 | pkg/apis/org/conversion.go:30-64 | v1 to v2 to v1, whatever v2 spec is stored: both succeed and the whole v1 spec returns (on OpenShift with the route suffix present) if and only if strategy and ingress class are expressible |
| Conversion.V2SaysTheSame | pkg/apis/org/conversion.go:103-173 | converted to v2 a resource asks for the same, in terms of neither version, if and only if it has not gone back from an ingress class that is still stored |
| Conversion.V1SaysTheSame | pkg/apis/org/conversion.go:175-290 | converted to v1 a resource asks for the same if and only if it is not the case of a gateway that cannot be switched off |
| Conversion.FlagsAre | pkg/apis/org/conversion.go:103-139 | which gateway flag a v1 spec becomes on each platform: that of its server exposure strategy; else on with dev workspaces; else, on Kubernetes only, that of its ingress strategy |
| Conversion.StrategiesAfter | pkg/apis/org/conversion.go:201-263 | which of the two strategy fields the gateway flag goes back to, and what it becomes |
| Conversion.FailsIfUnreadable | pkg/apis/org/conversion.go:30-101 | a conversion fails exactly if what the other version has stored is some other text than its spec |
| Conversion.StartsEmpty | pkg/apis/org/conversion.go:30-101 | with nothing stored by the other version, all it does not share is empty |
| Conversion.OverlayGatewayReturns | pkg/apis/org/conversion.go:201-263 | the strategy put into v1 stands for the gateway flag exactly outside that one case |
| Conversion.StepKeepsComplements | pkg/apis/org/conversion.go:40-87 | no conversion or edit can make a stored spec unreadable; what only one version knows changes only by edits of that version |
| Conversion.StepKeepsAnnotations | pkg/apis/org/conversion.go:46-87 | a conversion leaves every annotation of the user alone |
| Conversion.ComplementsSurvive | pkg/apis/org/conversion.go:30-101 | over any chain of conversions and edits: v1-only fields survive every edit of the v2 side and the reverse, and the annotations are the user's plus at most the two storage keys |
| Conversion.V1ToV2alpha1 | pkg/apis/org/conversion.go:30-64 | field by field on objects that share their annotation map, the conversion about which the laws are proved; on an unreadable stored spec nothing is changed |
| Conversion.V2alpha1ToV1GatewayEnabled | pkg/apis/org/conversion.go:201-263 | the case split over platform, strategies and flag is the gateway overlay of the laws |
| Conversion.V2alpha1ToV1K8sIngressAnnotations | pkg/apis/org/conversion.go:282-290 | the ingress class of v2, nginx standing for none, unless v1 had none either |
| Conversion.V2alpha1ToV1 | pkg/apis/org/conversion.go:66-101 | field by field on objects that share their annotation map, the conversion about which the laws are proved, with the status reset; on an unreadable stored spec nothing is changed |
| Strings.SplitJoin | pkg/deploy/tls.go:533 | splitting undoes joining if no piece contains the separator |
| Strings.JoinSplit | pkg/deploy/tls.go:533 | joining undoes splitting, for every string |
| Strings.SplitConcat | pkg/deploy/tls.go:533 | splitting at one separator splits both sides |
| CaCerts.PrintParse | pkg/deploy/tls.go:530-570 | parsing the printed revisions gives back the revision of every source if and only if no source name contains a separator; with no source and with a repeated one too |
| CaCerts.ReadBack | pkg/deploy/tls.go:530-570 | what the printed revisions of any list parse back to: the pieces between dots that have exactly two parts, up to the first other one |
| CaCerts.LegibleIsPrefix | pkg/deploy/tls.go:533-540 | these are the sources before the first one with a separator in its name, if reading stops there |
| CaCerts.DottedNameReadsAsTwo | pkg/deploy/tls.go:533-540 | reading does not always stop there: a name of the form x-y.z reads back as two other sources |
| CaCerts.PrefixesDisjoint | pkg/deploy/tls.go:561-563 | data keys of different sources never collide |
| CaCerts.RevisionsDetermineMerge | pkg/deploy/tls.go:555-570 | equal revisions mean equal merges, however the sources are ordered or repeated, for names without dots |
| CaCerts.LastValueIsMerged | pkg/deploy/tls.go:555-563 | for names without dots, the last listed source of a name that has a key decides what the merge says under it |
| CaCerts.MergeIsRight | pkg/deploy/tls.go:555-563 | the merge of one list is that of other sources, each at the last revision it is listed with, if and only if the list fits their revisions and covers them; torn reads included |
| CaCerts.LatestOfOne | pkg/deploy/tls.go:525-528 | without torn reads these are just the sources |
| CaCerts.SkipsIfLegible | pkg/deploy/tls.go:525-547 | the merge is skipped if and only if the list behind the merged map reads back as the current sources |
| CaCerts.SkipsOnlyIfPlain | pkg/deploy/tls.go:525-547 | whatever the merged map is, the merge is never skipped while a current source has a separator in its name |
| CaCerts.ShortcutIsSound | pkg/deploy/tls.go:544-547 | if no source behind the merged map has a separator in its name, a skipped merge is right |
| CaCerts.SkipIsRight | pkg/deploy/tls.go:544-547 | for names without dots, with dashes in them and with sources read at two revisions: a skipped merge is right if and only if every key in the list behind the merged map is one its source has at its current revision, with the value listed last; without dashes, or with one revision for each name, it is enough that the keys are there, and in the latter case that every source no longer listed is empty |
| CaCerts.MergingAgrees | pkg/deploy/tls.go:505-576 | for sources of any names, under stale and torn reads and any interference, a sync keeps every copy of the merged map a true merge, and success means the map holds, on the server or as the cache shows it, the merge of the sources just read or of a list for which they pass in the cached copy |
| CaCerts.UnplainSyncAgrees | pkg/deploy/tls.go:505-576 | if a current source has a separator in its name, as the default one has, success means the merge of the sources just read, whatever was merged before |
| CaCerts.EverySyncAgrees | pkg/deploy/tls.go:505-576 | the same over every run of source changes, torn reads and syncs, on the server whenever the cache shows what is stored or cannot lag; for names without dots that merge is right if and only if its list fits the current revisions; without torn reads in the last call it is right unless the cached copy comes from a list with a separator in a name or with torn reads |
| CaCerts.CertsAreMerged | pkg/deploy/tls.go:505-576 | success means that every certificate that is listed or named is in the merged map under the name of its source, and nothing else is, on the server or as the cache shows it, unless the cached copy misleads; for names without dots, each read at one revision |
| CaCerts.LabelsArrive | pkg/deploy/tls.go:572-575 | unless the merge is skipped, success also means that the labels are those given |
| CaCerts.DefaultIsNeverSkipped | pkg/deploy/tls.go:530-570 | while the default source is listed, success means the merge of the sources just read |
| CaCerts.MergingSettles | pkg/deploy/tls.go:505-576 | undisturbed, the second sync of the same sources reports success at the latest |
| CaCerts.ParseStops | pkg/deploy/tls.go:533-540 | with a name at which reading stops, parsing yields just the sources listed before it |
| CaCerts.DashedNameGoesStale | pkg/deploy/tls.go:533-547 | once a source with a dash or a dot at which reading stops, and all after it, are removed, the merge is skipped and its certificates stay |
| CaCerts.TornReadGoesStale | pkg/deploy/tls.go:507-547 | after a merge of plain names, some read at two revisions, the next merge is skipped, and that is right if and only if no key of an older revision has gone since |
| CaCerts.TornKeyStays | pkg/deploy/tls.go:507-547 | otherwise such a key stays in the merged map although its source does not have it any more |
| CaCerts.StaleCachePasses | pkg/deploy/tls.go:522-547 | a cached copy of an earlier merge of the same sources makes the sync succeed without a write, whatever is stored |
| CaCerts.StoredIsRight | pkg/deploy/tls.go:521-575 | for every script, what is stored after a sync is right if and only if there is a merged map and the list behind it, whatever the cache shows, fits and covers the current revisions; a skipped merge writes nothing |
| CaCerts.ParseRevisions | pkg/deploy/tls.go:533-540 | the parsing loop, stopping at the first malformed entry |
| CaCerts.CollectRevisions | pkg/deploy/tls.go:525-528 | the current revision of every name, the last listed winning |
| CaCerts.CopyData | pkg/deploy/tls.go:560-563 | the data of one source under prefixed keys over what is there, in whatever order keys are visited |
| CaCerts.MergeSources | pkg/deploy/tls.go:557-570 | the merge and the printed revisions of all sources |
| CaCerts.SyncMergedConfigMap | pkg/deploy/tls.go:521-575 | performs the sync about which agreement is proved |
| CaCerts.SyncAdditionalCACertsConfigMapToCluster | pkg/deploy/tls.go:505-576 | syncs the merge of the listed sources, followed by the one the resource names, if it names one; if either cannot be read it reports an error and changes nothing |
| DevWorkspace.IsOnlyOneOperatorManagesDWResources | pkg/deploy/dev-workspace/dev_workspace.go:459-474 | tells whether exactly one cluster enables dev workspaces, or reports that they cannot be listed |
| DevWorkspace.SyncObject | pkg/deploy/dev-workspace/dev_workspace.go:417-457 | performs the sync about which ownership is proved, editing the kept template in place |
| DevWorkspace.UnknownIsError | pkg/deploy/dev-workspace/dev_workspace.go:425-433 | if the object cannot be read or the clusters not listed, that is an error and nothing is written |
| DevWorkspace.OthersAreDone | pkg/deploy/dev-workspace/dev_workspace.go:435-446 | an object made from this template, or belonging to another of several operators, is left alone and reported as done |
| DevWorkspace.SyncedEffect | pkg/deploy/dev-workspace/dev_workspace.go:417-446 | one call does nothing, or leaves the object marked with the caller's namespace and hash, or removes an object of a kind that is created anew, and only if the caller was entitled |
| DevWorkspace.WritesIfEntitled | pkg/deploy/dev-workspace/dev_workspace.go:437-443 | an enabled operator writes an object exactly if it is missing (and the template can be created from), or made from another template and either marked as its own or with no other operator enabled; what it writes is its template, and the object disappears exactly if its kind is deleted and created anew and the template was used before |
| DevWorkspace.WriteSettles | pkg/deploy/dev-workspace/dev_workspace.go:435-443 | after a write that leaves the object no operator is entitled to another |
| DevWorkspace.SyncPaysDebt | pkg/deploy/dev-workspace/dev_workspace.go:417-446 | every sync that writes brings the object closer to being settled, and no sync takes it further away |
| DevWorkspace.WritesAreBounded | pkg/deploy/dev-workspace/dev_workspace.go:133-136 | over every run of any number of operators an object of any kind is written at most once for each disturbance from outside, twice if its kind is deleted and created anew, and as often at the start: no ping-pong |
| DevWorkspace.OwnershipNeverMoves | pkg/deploy/dev-workspace/dev_workspace.go:417-446 | while two or more operators are enabled and nobody deletes it, by hand or by replacing it from a used template, an existing object of any kind never changes hands |
| DevWorkspace.WrittenThenDeletedStaysAway | pkg/deploy/dev-workspace/dev_workspace.go:476-496 | what a process wrote and someone deleted stays away for any number of its syncs |
| TlsSecrets.TlsHandler.K8sHandleCheTLSSecrets | pkg/deploy/tls.go:292-467 | the handler step by step makes exactly the transition about which the rest is proved |
| TlsSecrets.GoesOnMeansGood | pkg/deploy/tls.go:465-466 | the installation goes on without good secrets if and only if an early exit was taken and removing the job would not have made them good; good secrets are left alone |
| TlsSecrets.GoesOnExactly | pkg/deploy/tls.go:292-467 | a call goes on exactly by an early exit, or if it found no job and leaves good secrets |
| TlsSecrets.SecretsAfter | pkg/deploy/tls.go:292-467 | which secrets a call removes, exactly, and that it makes none: a certificate never stays when the CA it came with goes |
| TlsSecrets.JobAfter | pkg/deploy/tls.go:361-393 | which job a call leaves, exactly: the wanted one where there is no certificate, and no finished one beside a certificate |
| TlsSecrets.SafeOverEveryRun | pkg/deploy/tls.go:292-467 | over every run in which jobs succeed, fail and expire and secrets are deleted or blanked, two secrets present come from the same job, and going on without an early exit leaves a good pair |
| TlsSecrets.ConvergesUnlessStuck | pkg/deploy/tls.go:361-378 | left in peace, and before anything expires, the handler reaches good secrets within five rounds from every state but, exactly, one where a job that failed for good is waited for |
| TlsSecrets.ExpiryUnsticks | pkg/deploy/job.go:72 | once a finished job has expired, the handler reaches good secrets within five rounds from every state |
| ImagePuller.ImagePuller.CreateOperatorGroupIfNotFound | pkg/deploy/kubernetes_image_puller.go:286-315 | creates the group only if there is none of any name |
| ImagePuller.ImagePuller.CreateImagePullerSubscription | pkg/deploy/kubernetes_image_puller.go:317-335 | creates the expected subscription only if there is none |
| ImagePuller.ImagePuller.UpdateImagePullerSpecIfEmpty | pkg/deploy/kubernetes_image_puller.go:368-380 | fills exactly the names that are empty |
| ImagePuller.ImagePuller.UninstallImagePullerOperator | pkg/deploy/kubernetes_image_puller.go:411-491 | removes everything the available APIs reach and empties the spec, reporting whether that was a change |
| ImagePuller.ImagePuller.ReconcileImagePuller | pkg/deploy/kubernetes_image_puller.go:36-182 | the reconcile step by step makes exactly the transition about which convergence is proved |
| ImagePuller.AnswerMeans | pkg/deploy/kubernetes_image_puller.go:44-157 | a call is finished only once everything is in place and the puller is as the resource says, an error exactly where a subscription cannot be corrected, and otherwise asks to be called again |
| ImagePuller.RemovalAnswerMeans | pkg/deploy/kubernetes_image_puller.go:159-182 | disabled, it is finished exactly once the resource keeps neither names nor finalizer, and then nothing is left |
| ImagePuller.NamesStay | pkg/deploy/kubernetes_image_puller.go:117-128 | over every run the names in the resource stay as given, and if none is given become the two defaults or stay so |
| ImagePuller.StepIsProgress | pkg/deploy/kubernetes_image_puller.go:51-157 | every write lowers the number of writes still due by one, and nothing the other operator does raises it |
| ImagePuller.InstallWritesAreBounded | pkg/deploy/kubernetes_image_puller.go:51-157 | over every run of the two operators the number of writes is bounded by what is due at the start |
| ImagePuller.InstallCompletes | pkg/deploy/kubernetes_image_puller.go:51-157 | once the puller API is known, that many calls finish the installation |
| ImagePuller.ComesToRest | pkg/deploy/kubernetes_image_puller.go:117-128 | some run ends with both operators at rest if and only if the names are given, or all left open before a puller exists, and a differing subscription can be corrected |
| ImagePuller.WritesWithoutEnd | pkg/deploy/kubernetes_image_puller.go:117-153 | if the names are not all given and the subscription is no obstacle, some run makes the reconcile write as often as one likes |
| ImagePuller.UncorrectableIsError | pkg/deploy/kubernetes_image_puller.go:84-94 | over every run, a subscription that cannot be updated makes every call an error that writes nothing |
| ImagePuller.RemovalCompletes | pkg/deploy/kubernetes_image_puller.go:159-180 | disabled, two calls remove everything whatever the other operator does, later calls write nothing, and other finalizers and groups stay |
| Exposure.ExposeWithHostPath | pkg/deploy/expose/expose.go:40-148 | performs the switch about which the rest is proved, on both platforms, to the gateway exactly for a single host on OpenShift or with the gateway exposure type |
| Exposure.GatewaySwitch | pkg/deploy/expose/expose.go:120-148 | the configuration is there before the route or ingress goes, and a call that is done leaves only the configuration |
| Exposure.RoutingSwitch | pkg/deploy/expose/expose.go:64-116 | a call that is done leaves only the route or ingress, and every state on the way has one of the two if and only if the call is not the named gap |
| Exposure.GapIsReal | pkg/deploy/sync.go:243-254 | in the gap, a replacement while there is no configuration, the next state has neither |
| Exposure.ExactlyOneWay | pkg/deploy/expose/expose.go:40-118 | after any sequence of strategy changes, each with its own blueprints, a call that is done leaves exactly the way it was asked for, as its blueprint has it, and a state on the way has neither if and only if a route or ingress that differs from its blueprint is replaced while it is the only one |
| Exposure.SwitchCompletes | pkg/deploy/expose/expose.go:40-148 | a switch whose sync can settle is done at the second call at the latest, leaving only the new way |
| Exposure.LeftIfRemovalFails | pkg/deploy/expose/expose.go:64-116 | for every script, a call that is done leaves the other way behind if and only if its removal fails |
| Exposure.UnreadRouteKeepsConfig | pkg/deploy/expose/expose.go:94-101 | on OpenShift a route that is not synced or cannot be read back keeps the gateway configuration, and the call is not done |
| Exposure.StaleCacheUnexposes | pkg/deploy/expose/expose.go:120-148 | with a lagging cache, a switch to the gateway leaves an exposed component unexposed if and only if the cache shows an up-to-date configuration that is gone, and the route or ingress |
| Defaulting.CustomResource.GenerateAndSaveFields | pkg/controller/che/create.go:22-251 | the long sequence of conditional assignments and stored updates, with its early returns, makes exactly the transition about which the rest is proved, for a resource that is being deleted too |
| Defaulting.CustomResource.UpdateCheCRSpec | pkg/deploy/checluster.go:24-31 | a write conflicts unless the copy is current, and otherwise succeeds, or fails with or without having been carried out |
| Defaulting.CustomResource.SyncSecretToCluster | pkg/deploy/secret.go:35-43 | a missing secret is created, one with other data is deleted and created anew, and each of the two writes may fail; while the custom resource is being deleted nothing is done, which passes for a success |
| Defaulting.WriteKeepsTargets | pkg/controller/che/create.go:22-251 | writing one field changes no field's final value and makes no other field due |
| Defaulting.CrashTolerant | pkg/controller/che/create.go:22-251 | after any attempts that failed anywhere and read any version a cache may show, the first that succeeds leaves what one undisturbed attempt would have; all together write at most once for each field due at the start |
| Defaulting.SuccessCompletes | pkg/controller/che/create.go:22-251 | then every required field and credential is filled, and every value the user gave is still there, but for the six fields that may be cleared |
| Defaulting.SuccessMeans | pkg/controller/che/create.go:22-251 | and the value of every field can be told from what the user gave: which of the six fields are cleared, and when; which defaults, realm, client and exposure strategy are set; and that a secret is named exactly if the user named one or did not give all the values it stands for |
| Defaulting.EveryCrashIsRecoverable | pkg/controller/che/create.go:22-251 | whatever failed attempts have left, an attempt whose writes go through succeeds and completes the resource, being deleted or not |
| Defaulting.SecondRunIsSilent | pkg/controller/che/create.go:22-251 | a further run that sees the result writes nothing, no secret either |
| Defaulting.StaleAttempt | pkg/controller/che/che_controller.go:562-565 | an attempt from an earlier version never changes the resource, fails if and only if something was due there, and syncs at most one secret, that of the first due field |
| Defaulting.SecretIsFirst | pkg/controller/che/create.go:25-119 | when that field is one that names a secret: the flavor is given and no credential before it is due |
| Defaulting.StaleRewrites | pkg/controller/che/create.go:34-119 | it rewrites a secret if and only if it does not see the resource as being deleted, the first field due there is about this secret, other data were generated and the deletion is carried out, and loses it if and only if the creation after that is not |
| Defaulting.SparedExactly | pkg/controller/che/create.go:34-119 | an attempt from any version leaves the secret of a field that already names one alone if and only if it is not such an attempt |
| Defaulting.NamedSecretsStay | pkg/controller/che/create.go:34-119 | so over every run of attempts that spare it, such a secret is never rewritten |
| Defaulting.FilledIsBacked | pkg/controller/che/create.go:34-119 | a field that an attempt from the current version fills names a secret that is there if and only if the resource is not being deleted or the secret was there before |
| Defaulting.FilledSecretHolds | pkg/controller/che/create.go:34-119 | and if it is not being deleted, the secret holds what the attempt has generated, whatever it held before |
| Defaulting.DeletingFillsUnbacked | pkg/controller/che/create.go:37-44 | an instance: while the resource is being deleted, an attempt whose writes go through stores the name of a secret that does not exist |
| Defaulting.FilledFieldsAreBacked | pkg/controller/che/create.go:34-119 | over every run in which no attempt loses a named secret, or sees the resource as being deleted while the secret of a due field is missing, a field that an attempt has filled names a secret that is there in every later state |
| MountSecrets.Sorts | pkg/deploy/deployment.go:99-102 | the sorted list is ascending by name and a permutation of the given one |
| MountSecrets.LessMeans | pkg/deploy/deployment.go:100-102 | names are compared as text: at the first difference, the one that is over or has the smaller character comes first |
| MountSecrets.SortForgetsOrder | pkg/deploy/deployment.go:99-102 | sorting distinctly named items gives the same for every order they come in |
| MountSecrets.MountingForgetsOrder | pkg/deploy/deployment.go:86-178 | the deployment and the outcome are the same for every order in which the secrets are listed |
| MountSecrets.MountingMeaning | pkg/deploy/deployment.go:104-175 | mounting succeeds if and only if every secret for variables is there and each of its keys has a name of its own, or the only key that of the secret; and then appends exactly the volumes, mounts and variables of the secrets in order |
| MountSecrets.StopsAtFirst | pkg/deploy/deployment.go:126-165 | at the first secret that cannot be mounted mounting stops, and what was added before it stays |
| MountSecrets.OneVolumePerFile | pkg/deploy/deployment.go:107-125 | one volume and one mount for each file secret |
| MountSecrets.KeysAreListed | pkg/deploy/deployment.go:136-143 | the keys of an env secret, each once and ascending, whatever order the map yields them in |
| MountSecrets.Sort | pkg/deploy/deployment.go:99-102 | an in-order copy by name |
| MountSecrets.SpecDeployment.MountSecrets | pkg/deploy/deployment.go:86-178 | the nested loops append what the specification says, stopping at the first error |
| NoProxy.JavaNoProxyMeaning | pkg/deploy/proxy.go:133-141 | for every string the four rewrites amount to: split at commas and bars, drop spaces, star every host that starts with a dot, join with bars |
| NoProxy.HostsIgnoreSpaces | pkg/deploy/proxy.go:133 | spaces mean nothing, wherever they are |
| NoProxy.JavaNoProxyIdempotent | pkg/deploy/proxy.go:133-141 | rewriting twice is rewriting once |
| NoProxy.MergeKeepsHosts | pkg/deploy/proxy.go:118-126 | the hosts of the merged list are those of the first followed by those of the second |
| NoProxy.BarsToCommasKeepHosts | pkg/deploy/proxy.go:114 | turning bars into commas keeps every host |
| NoProxy.GetProxyConfiguration | pkg/controller/che/proxy.go:20-68 | which configuration is in force on each platform, and that its list has the preferred hosts followed by the other ones or the service domain, none lost |
| NoProxy.NonProxyHostsForJava | pkg/deploy/proxy.go:129-141 | the list handed to Java is the starred hosts of the given list, or of the configuration's |

## Left out

- Lost updates for services, ingresses, routes, jobs and secrets: they are deleted and created anew, and the deletion carries no version, so nothing can be claimed.
- Cluster.UpdateHitsBase: in the model an update that changes nothing still takes a new version.
- Permissions.PermissionFinalizersAreSafe: the reconcile's own other edits of the resource are arbitrary except that they do not take the three permission finalizers off, as in the source.
- Permissions.RunKeeps: of a reconcile only what it does to the custom resource and the permission steps are modelled; writes to other objects are among those of other writers.
- CaCerts.EverySyncAgrees: assumes that name and revision determine the content, and that only this function writes the merged map (two namespaces could each list a config map of the same name; an operator that watches one namespace sees no such pair).
- CaCerts.CertsAreMerged: for names without dots, each read at one revision; what a torn read leaves is part of CaCerts.EverySyncAgrees.
- CaCerts.SkipIsRight: exact for names without dots; with dots the data keys of two sources can be equal, so that a stale key can have the right value by chance. The same holds for the conditions in CaCerts.EverySyncAgrees and CaCerts.StoredIsRight.
- MountSecrets.MountingForgetsOrder: for secrets of different names; secrets are listed without a namespace (`pkg/deploy/deployment.go:90-97`), so a client that watches several namespaces may list equal names, which the sort leaves in no particular order.
- DevWorkspace.WritesAreBounded: each call is one step, and the object is in a namespace without a custom resource.
- TlsSecrets.SafeOverEveryRun: each call of the handler is one step, and the two secrets a job writes appear together.
- TlsSecrets.TlsHandler.K8sHandleCheTLSSecrets: API errors, which end a call early and ask for another, are not modelled.
- ImagePuller.InstallCompletes: each call is one step and the puller's own operator acts between calls.
- ImagePuller.ImagePuller.ReconcileImagePuller: API errors, which end a call early, are not modelled, and the custom resource is not being deleted.
- ImagePuller.ImagePuller.CreateOperatorGroupIfNotFound: API errors are not modelled.
- ImagePuller.ImagePuller.CreateImagePullerSubscription: API errors are not modelled.
- ImagePuller.ImagePuller.UpdateImagePullerSpecIfEmpty: the failure of the update is not modelled.
- ImagePuller.ImagePuller.UninstallImagePullerOperator: API errors are not modelled.
- Exposure.ExposeWithHostPath: the returned URL and error, and the paths, are not modelled; hosts, paths and the text of the configuration are part of the blueprints.
- Exposure.ExactlyOneWay: no one interferes and calls succeed; removals that fail are the subject of Exposure.LeftIfRemovalFails.
- Defaulting.CrashTolerant: a version from before an edit of the user, in which nothing was due, lets an attempt succeed without doing anything; the deployment that old passwords are read from is part of the generated data; the two branches for a single missing user or password are omitted because their guards never hold.
- Defaulting.StaleRewrites: secrets are read as they are, and nobody else writes them; only the copy of the custom resource lags.
- Conversion.ComplementsSurvive: the difference between a nil and an empty map, and the flag and the map of gateway config labels that the two specs share by reference, are not modelled; YAML text is a value that parses back to what was printed.
- NoProxy.GetProxyConfiguration: hosts, ports, users and errors are not modelled, nor is the parsing of proxy URLs.
- NoProxy.NonProxyHostsForJava: user, password, host and port options around the list are not modelled.
- DeepCopy, schemes and typed clients; a difference is a predicate on spec, labels, annotations and, without options, everything.
- Truncation of long finalizer names, the OAuth, console link and user finalizers.
- Policy tables, deployments, services and other constant construction; default image names.
- Removing all gateway objects, status contents and the loops around them, the web terminal check, reading YAML templates.
- Real clients, discovery, HTTP and certificate fetching, shell commands in pods, logging.
