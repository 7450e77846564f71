# Verification model of the Fabric-X operator

A Dafny model of the reconcilers of a Kubernetes operator, with proofs about what
they keep, over whole runs, when API calls fail, reads are outdated and users act
in between.  `dafny verify dfyconfig.toml` checks everything.

## The system modelled

**The API server** (`Store.dfy`) is a map from (kind, namespace, name) to objects with
specification, status, labels, data, finalizers, deletion mark, owner and version.
Writes on another version than the stored one are rejected, deleting an object with
finalizers only marks it, and a marked object goes with its last finalizer.  A call
may be refused, take effect without an answer, or (reads) be answered from an
earlier state.  The class `Server` records every call of the reconciler and of the
others; between two calls the others may do anything a rely condition allows.

**Reconcilers.**  Each controller appears twice: as a class whose methods are the
source's statements over the server (`Committer.dfy`, `OrdererGroup.dfy`,
`ChainNamespace.dfy`, `CAEnrollment.dfy`, `Identity.dfy`, `Genesis.dfy`), and as the
step machine it amounts to, suspended at every API call (`...Program.dfy`).  The
methods are proved to make exactly the calls of the machine, so a theorem about all
histories of the machine holds of every run of the methods.  A fetch may arrive in
any state, which covers operator restarts.  `...Safety.dfy` holds the theorems over
histories, `...Passes.dfy` those about undisturbed reconciles.

- *Committer and its five children*: no orphans in any reachable state, finalizer
  last, convergence, two-level teardown under every fair schedule.  What each field
  of the Committer does to each child is fixed by the laws of `CommitterSpecLaws.dfy`.
- *OrdererGroup*: override merging, batcher naming and the batcher index set over
  runs, every child made of its own entry, quiescence, and exactly what a deletion
  leaves behind.
- *ChainNamespace*: a deployed namespace stays deployed whatever reads a reconcile
  starts from, duplicates are bounded, the envelope is sound.
- *CAEnrollment*: certificate continuity, the exact renewal rate, the enrolment
  counter against a clock in seconds, and no secret that outlives its enrolment.
- *Identity*: once-only enrolment and the exact condition for repeated enrolment.
- *Rollout hashes*: exactly when the sidecar's and the endorser's pre-images tell
  data apart, and what the pod annotations notice.
- *Endorser*: core.yaml round trip and layout, and its agreement with the
  Deployment's mounts.
- *Genesis hand-off and gated deploys* of sidecar and assembler, and exactly when
  RUNNING can be relied on.

## Assumptions

- The children of a Committer are created by its controller only, and nobody else
  takes its finalizer off.  A fetch gives an unmarked copy with the finalizer only
  of a Committer that carries it, and a read of the cleanup fails only for a child
  that is gone or marked; `DeletionPassOrphansIff` and `BuildingOrphansIff` show what
  happens otherwise.  Reads of the children that are built may be outdated.
- In the runs of CAEnrollment, Identity and Genesis reads are current, nobody else
  writes the output secret (Identity: others may create it), deletes it or the
  resource, or edits the resource's specification; a Genesis run may start right
  after such an edit, with a reconcile on an older copy under way.
  `OutputsNeverRecorded`, ChainNamespace and the batcher theorem allow outdated
  reads, and the first also edits and deletions.
- `SecretNeverOutlives` lets others edit and delete the secret and delete the
  enrolment, but not create either, edit the enrolment's specification or take its
  finalizer off; its reads are current.
- The children of an OrdererGroup are found made of their own entries
  (`ReconcileChildCRDs`) if nobody else touches them during the reconcile and none is
  being deleted; without that the calls made are the same.
- The statuses of ChainNamespace, CAEnrollment, Identity and Genesis objects are
  written by their controllers alone.
- SHA-256 is a function parameter; where injectivity is needed it is a hypothesis.
  Signing, encodings, PEM and X.509 parsing are parameters with their laws.
- The reads an enrolment makes of the CA resource and its secrets are part of the
  event that decides whether the CA issued.
- Error texts in status messages are constants, one per place where they arise.

## What the code does that its comments do not say

- The Committer's cleanup takes any read error for absence, so a failed read during
  deletion orphans the child (`DeletionPassOrphansIff`).
- The OrdererGroup's cleanup errors are only logged, and a shortened batcher list
  removes nothing (`DeletionLeaves`, `DeletionLeaksIff`).
- Identity enrols by the presence of the idemix section but checks by its flag, and
  then enrols at every reconcile (`IssuedOverPasses`, `InconsistentIff`).
- The output secret names of an Identity are set on a copy but never persisted
  (`OutputsNeverRecorded`).
- Renewals are certain to be more than the certificate lifetime less 30 days apart
  only if secrets are written the instant their certificates are signed
  (`GapHoldsIff`).
- An empty bootstrap mode is documented as "configure", but the sidecar and the
  assembler reject it (`ChildModes`).
- The common part of a Committer component's own configuration is not used
  (`ComponentCommonIgnored`).
- Neither the `k=v|k=v` pre-image nor the endorser's concatenation tells all data
  over the same two keys apart (`InjectiveOverIff`, `ConcatInjectiveOverIff`).  The
  sidecar's combined hash cannot see two secrets trade places
  (`SwapDoesNotRollOut`) and misses edits of the genesis secret its pod mounts
  (`SecretSeenIff`, `GenesisEditUnseen`); the endorser's annotations miss edits of
  resolver secrets (`EditSeenIff`).
- The endorser checks resolver secrets, and the gates check the genesis secret, in
  the referenced namespace, while a pod can only mount from its own
  (`CheckSufficesIff`, `GateVouchesIff`).
- With an empty genesis secret name both gates open, yet the pods mount a secret of
  that name all the same (`GateVouchesIff`).
- A genesis block key that is a reserved entry name loses the block
  (`BlockStoredIff`).  An edited Genesis goes on saying RUNNING before it has stored
  anything for the new specification (`EditGateIff`), and a reconcile left over from
  the old one may even remove an entry that was there (`PromiseIff`,
  `OutdatedWriteOverwrites`).

## Model

| member | source | states |
|---|---|---|
| Prelude.RemoveString | internal/controller/utils/helpers.go:31-40 | the result has no occurrence of the string and every other element still |
| Prelude.RemoveOnly | internal/controller/utils/helpers.go:31-40 | a finalizer list holding one finalizer only is emptied by removing it |
| CommitterProgram.ChildKeyInjective | internal/controller/committer_controller.go:181-190 | distinct Committers never share a child, and one Committer uses no name twice |
| CommitterSpecs.BuildCoordinatorSpec | internal/controller/committer_controller.go:218-273 | the specification is the common target of the five builders for the coordinator role |
| CommitterSpecs.BuildSidecarSpec | internal/controller/committer_controller.go:313-381 | the same for the sidecar, with genesis, orderer endpoints and committer address |
| CommitterSpecs.BuildValidatorSpec | internal/controller/committer_controller.go:421-474 | the same for the validator, with its database |
| CommitterSpecs.BuildVerifierSpec | internal/controller/committer_controller.go:514-566 | the same for the verifier |
| CommitterSpecs.BuildQueryServiceSpec | internal/controller/committer_controller.go:606-659 | the same for the query service, with its database |
| CommitterSpecs.ChildrenAgree | internal/controller/committer_controller.go:218-659 | all five children get the same mode, MSP, party, image, tag and common part; without own configuration they get the Committer's enrollment |
| CommitterSpecs.ComponentCommonIgnored | internal/controller/committer_controller.go:218-659 | for each of the five components: the common part of its own configuration reaches no child |
| CommitterSpecLaws.FromNothing | internal/controller/committer_controller.go:218-659 | the children of an empty Committer, value by value |
| CommitterSpecLaws.SharedLaws | internal/controller/committer_controller.go:218-659 | mode, MSP, image, tag and common part of the Committer each move that one field of every child, with the default for an empty image or tag or an absent common part |
| CommitterSpecLaws.EnrollmentLaws | internal/controller/committer_controller.go:233-650 | the Committer's enrollment reaches exactly the children whose component has none of its own |
| CommitterSpecLaws.SidecarLaws | internal/controller/committer_controller.go:313-381 | genesis, orderer endpoints, host and port move one field of the sidecar each and no other child; the component's own endpoints win over the orderer endpoints |
| CommitterSpecLaws.CoordinatorLaws | internal/controller/committer_controller.go:258-266 | the verifier endpoints move only the coordinator's verifier endpoints, the validator-committer endpoints only its validator-committer endpoints, and only if a coordinator is configured |
| CommitterSpecLaws.ConfigurationLaws | internal/controller/committer_controller.go:218-659 | what configuring a component changes in its child: its own part, its enrollment, and database or endpoints for the roles that have them |
| CommitterSpecLaws.ForeignConfiguration | internal/controller/committer_controller.go:218-659 | configuring a component changes no other child |
| CommitterSafety.NeverOrphans | internal/controller/committer_controller.go:55-110 | over every history whose reads are dependable (a fetch gives an unmarked copy with the finalizer only of a guarded Committer, a cleanup read fails only for a child that is not live): a child not being deleted has a Committer that still carries the finalizer, at every instant |
| CommitterSafety.CurrentIsDependable | internal/controller/committer_controller.go:726-737 | fetches that are not outdated and cleanup reads answered from the current state are dependable; reads of children that are built may be outdated |
| CommitterSafety.FinalizerGoesLast | internal/controller/committer_controller.go:662-691 | a call that takes the finalizer off leaves all five children gone or marked |
| CommitterSafety.DeletionNeverBuilds | internal/controller/committer_controller.go:662-691 | a reconcile that found its Committer marked makes no create and no update of a child until the next fetch |
| CommitterSafety.HarmlessKeepsNoOrphans | internal/controller/committer_controller.go:147-178 | creating only under a guarded Committer and unguarding only after the cleanup keeps the no-orphans invariant |
| CommitterSafety.ProgramIsHarmless | internal/controller/committer_controller.go:181-215 | every call the program makes is of that kind where it is made |
| CommitterSafety.ProgramKeepsKnowledge | internal/controller/committer_controller.go:55-110 | one call under any fault keeps the invariant and what the reconciler knows at its next suspension point |
| CommitterSafety.OthersKeepKnowledge | internal/controller/committer_controller.go:55-110 | users' edits and deletions between any two calls keep both as well |
| CommitterPasses.CleanupExact | internal/controller/committer_controller.go:693-793 | after the cleanup loop a child is live exactly if it was and precedes the loop or could not be read; the finalizer is gone |
| CommitterPasses.DeletionPassOrphansIff | internal/controller/committer_controller.go:662-793 | a deletion pass orphans a live child if and only if some live child could not be read: any error counts as absent |
| CommitterPasses.BuildingPassExact | internal/controller/committer_controller.go:147-215 | such a pass makes exactly the absent children live, guards the Committer exactly if it was, and changes nothing outside the family |
| CommitterPasses.BuildingOrphansIff | internal/controller/committer_controller.go:55-215 | a building pass from a copy that was current once, unmarked and with the finalizer, ends with an orphan if and only if the Committer is no longer guarded and some child is absent |
| CommitterTeardown.ChildPassExact | internal/controller/committersidecar_controller.go:1012-1053 | a marked child without foreign finalizers is gone after its reconcile, a live one stays live and carries the child finalizer |
| CommitterTeardown.ParentPassExact | internal/controller/committer_controller.go:662-808 | the deleted Committer's reconcile removes it, marks every live child and adds none |
| CommitterTeardown.ActProgresses | internal/controller/committer_controller.go:662-793 | what any of the six controllers' reconciles may do during a teardown, child by child |
| CommitterTeardown.TeardownProgress | internal/controller/committer_controller.go:662-793 | every reconcile with something to do strictly lowers the measure (live children twice, marked once, parent once); no reconcile raises it |
| CommitterTeardown.TeardownCompletes | internal/controller/committer_controller.go:662-793 | under every schedule that runs the parent once and each child once after it, all six objects are gone |
| SidecarController.SidecarReconciler.Reconcile | internal/controller/committersidecar_controller.go:68-123 | the sidecar's statements have the effect the teardown assumes of a child; a live sidecar ends with its finalizer, its status and its old specification, a deleted one without the finalizer |
| SidecarController.SidecarReconciler.HandleDeletion | internal/controller/committersidecar_controller.go:1012-1053 | the deletion branch reports and drops the finalizer, nothing else |
| SidecarController.SidecarIsChild | internal/controller/committersidecar_controller.go:1012-1053 | that effect is the child's step of the teardown schedule |
| CommitterConvergence.DriftNeverRises | internal/controller/committer_controller.go:147-273 | from any point on course, with current fetches of the Committer and whatever calls fail, a child that has its wanted specification keeps it, and those before the current one have it |
| CommitterConvergence.ConvergedStays | internal/controller/committer_controller.go:147-273 | at the success report no child is off target, and none ever is afterwards while the specification is left alone |
| CommitterConvergence.PassConverges | internal/controller/committer_controller.go:55-178 | one undisturbed reconcile of a Committer that is not being deleted leaves no child off target, whatever was there before, and reports success |
| CommitterConvergence.BuildingConverges | internal/controller/committer_controller.go:147-178 | from any child on, the loop puts the remaining children on target and keeps the earlier ones there |
| CommitterConvergence.StepOnCourse | internal/controller/committer_controller.go:181-215 | one call of the program adds no drift, whichever Committer it is about |
| CommitterConvergence.PassBuilds | internal/controller/committer_controller.go:55-215 | one undisturbed reconcile leaves the Committer in phase Running and under its finalizer, with the five children under their names, kinds and specifications |
| CommitterConvergence.ReportPhases | internal/controller/committer_controller.go:55-178 | under any answer: the next report says Running exactly when the last child was written, and Failed exactly after a failed call |
| CommitterController.CommitterReconciler.Reconcile | internal/controller/committer_controller.go:55-110 | the statements make exactly the program's calls, with one fetch of the given Committer, and keep no-orphans under dependable reads |
| CommitterController.CommitterReconciler.ReconcileCommitter | internal/controller/committer_controller.go:113-178 | all five children in order, stopping at the first failure; success is reported |
| CommitterController.CommitterReconciler.CreateOrUpdate | internal/controller/committer_controller.go:181-215 | create on NotFound, overwrite if present, fail on any other read error |
| CommitterController.CommitterReconciler.HandleDeletion | internal/controller/committer_controller.go:662-691 | cleanup of all five, then the finalizer; each failure is reported and ends the reconcile |
| CommitterController.CommitterReconciler.CleanupChild | internal/controller/committer_controller.go:726-737 | delete if the read succeeds; any read error passes for absence |
| CommitterController.CommitterReconciler.EnsureFinalizerOn | internal/controller/committer_controller.go:796-802 | afterwards the copy carries the finalizer, or the failure is reported |
| CommitterController.CommitterReconciler.UpdateStatus | internal/controller/committer_controller.go:811-846 | the copy takes the status even if the server rejects the write |
| BootstrapModes.ChildModes | internal/controller/committersidecar_controller.go:140-160 | children of a Committer reject every mode not spelled out, those of an OrdererGroup accept an omitted one |
| OrdererSpecs.MergeMonoid | internal/controller/orderergroup_controller.go:379-469 | overriding one configuration layer by another is associative and idempotent, with the empty layer as unit |
| OrdererSpecs.MergeAllSplits | internal/controller/orderergroup_controller.go:379-469 | a stack of layers may be merged in any grouping; repeating the top layer changes nothing |
| OrdererSpecs.BuildersAgree | internal/controller/orderergroup_controller.go:379-749 | run on any group and configuration, the four builders give results equal in every shared field, and that is the merge of component over Common over zero, enrollment over group enrollment |
| OrdererSpecs.BuildConsenterSpecFromInstance | internal/controller/orderergroup_controller.go:379-469 | its own chain of assignments refines the merge; the consenter number is the configuration's, the storage class fields stay unset |
| OrdererSpecs.BuildAssemblerSpec | internal/controller/orderergroup_controller.go:472-561 | its own chain, with enrollment set between command and arguments, refines the same merge |
| OrdererSpecs.BuildRouterSpec | internal/controller/orderergroup_controller.go:564-653 | its own chain refines the same merge |
| OrdererSpecs.BuildBatcherSpec | internal/controller/orderergroup_controller.go:656-749 | its own chain refines the same merge; the shard number is the configuration's, the party the group's |
| OrdererChildren.MergeFieldwise | internal/controller/orderergroup_controller.go:379-469 | each shared field of a merge comes from the upper layer if that sets it, and otherwise from the lower one, field by field |
| OrdererChildren.TargetMadeOf | internal/controller/orderergroup_controller.go:379-749 | the shared part of a child: mode, MSP, party and genesis of the group, image and tag with their defaults, the configuration's own part, and its common part and enrollment over the group's |
| OrdererChildren.WantedAssembled | internal/controller/orderergroup_controller.go:218-749 | a child on target lies under its literal name and is made of its own entry of the group, with that entry's shard or consenter number |
| OrdererChildren.OnlyConfigured | internal/controller/orderergroup_controller.go:170-215 | no call about a child is made for a group that does not manage its children or does not configure that child; a created child is owned by the group |
| OrdererChildren.ReportPhases | internal/controller/orderergroup_controller.go:90-163 | the next report says Running exactly after a success (or after the first status, however answered, where there are no children), and Failed exactly after any other failed call |
| OrdererChildren.AlwaysGuarded | internal/controller/orderergroup_controller.go:90-116 | in every run, whatever fails and however outdated the reads: children are read and written only for a copy that carries the finalizer |
| OrdererNames.DecimalReadsBack | internal/controller/orderergroup_controller.go:290-290 | reading the printed index gives the index |
| OrdererNames.BatcherNameInjective | internal/controller/orderergroup_controller.go:290-290 | group and index can be read off a batcher's name, for all names and indices |
| OrdererNames.SlotKeyInjective | internal/controller/orderergroup_controller.go:218-340 | no two children of any groups share kind, namespace and name |
| OrdererGroupProgram.SlotsExact | internal/controller/orderergroup_controller.go:178-215 | every slot handled is configured, and the batchers come after all others, by index |
| OrdererGroupProgram.SlotsInOrder | internal/controller/orderergroup_controller.go:178-215 | children are handled consenter, assembler, router, then batchers by index, none twice |
| OrdererGroupProgram.SlotsComplete | internal/controller/orderergroup_controller.go:178-215 | every configured child is among them |
| OrdererGroupSafety.BatcherInvariant | internal/controller/orderergroup_controller.go:288-329 | over all histories without deletes, stale reads and failing calls included: batchers are downward closed and within the longest list ever specified |
| OrdererGroupSafety.BatchersFormPrefix | internal/controller/orderergroup_controller.go:288-329 | the existing batchers of a group are exactly 0..m-1, m never falls and never exceeds the longest list ever specified |
| OrdererGroupSafety.SuccessCovers | internal/controller/orderergroup_controller.go:288-329 | after the write that completes a reconcile every index of its list exists, in every run without deletes |
| OrdererGroupSafety.WriteCovers | internal/controller/orderergroup_controller.go:288-329 | the same of one state: if the reconciler knows what it has built, the answered last write leaves every listed index in place |
| OrdererGroupSafety.BatchersStay | internal/controller/orderergroup_controller.go:288-329 | a batcher that exists keeps existing |
| OrdererGroupPasses.Quiesces | internal/controller/orderergroup_controller.go:90-163 | one undisturbed pass makes exactly the outstanding writes to the group, at most two statuses and one finalizer, and leaves it Running and under its finalizer; the next pass makes none |
| OrdererGroupPasses.ChildrenSettle | internal/controller/orderergroup_controller.go:178-215 | the children loop never writes the group; the status is written only if it differs |
| OrdererGroupPasses.DeletionLeaves | internal/controller/orderergroup_controller.go:752-885 | exactly which live children survive a deletion pass with refused deletes, though the finalizer goes in any case |
| OrdererGroupPasses.DeletionLeaksIff | internal/controller/orderergroup_controller.go:844-885 | even without failures the live children left behind are exactly those the specification no longer lists and the listed batchers behind a missing one; there are none of the latter where batchers form a prefix |
| OrdererGroupController.OrdererGroupReconciler.Reconcile | internal/controller/orderergroup_controller.go:62-116 | the statements follow the program, with one fetch of the given group; without deletes batchers stay a prefix |
| OrdererGroupController.OrdererGroupReconciler.ReconcileBatcherCRDs | internal/controller/orderergroup_controller.go:288-329 | only this group's batchers are touched; batcher i is made of entry i of the list, with its shard number, own part and layers, for every i before the first failure, which stops the loop; later and foreign batchers stay as they were |
| OrdererGroupController.OrdererGroupReconciler.ReconcileInitialized | internal/controller/orderergroup_controller.go:95-163 | finalizer, children and report, each failure reported and final |
| OrdererGroupController.OrdererGroupReconciler.WriteChild | internal/controller/orderergroup_controller.go:224-250 | an update of the copy that was read or a create; at most this child changes, and a success puts it on target |
| OrdererGroupController.OrdererGroupReconciler.CreateOrUpdate | internal/controller/orderergroup_controller.go:218-250 | any read error counts as absence; a success puts the child on target and no other batcher changes |
| OrdererGroupController.OrdererGroupReconciler.ReconcileChildCRDs | internal/controller/orderergroup_controller.go:178-215 | all configured children in order, stopping at the first failure; after a success every configured consenter, assembler, router and batcher is made of its own entry, other groups' children stay as they were, and an unmanaged group makes no call |
| OrdererGroupController.OrdererGroupReconciler.ReconcileSingles | internal/controller/orderergroup_controller.go:178-340 | consenter, assembler and router in this order up to the first failure; a success leaves each configured one on target |
| OrdererGroupController.OrdererGroupReconciler.UpdateStatus | internal/controller/orderergroup_controller.go:902-969 | nothing is written if status and message are unchanged |
| OrdererGroupController.OrdererGroupReconciler.CleanupChildCRDs | internal/controller/orderergroup_controller.go:819-853 | the finalizer step is reached whatever the deletions answer |
| OrdererGroupController.OrdererGroupReconciler.CleanupBatcherCRDs | internal/controller/orderergroup_controller.go:876-885 | the batcher cleanup ends at the first error |
| ChainNamespaceSafety.AlwaysKnows | internal/controller/chainnamespace_controller.go:74-129 | in every run a reconcile past the skip test holds a faithful copy of an undeployed namespace |
| ChainNamespaceSafety.DeployedIsAbsorbing | internal/controller/chainnamespace_controller.go:74-129 | a status Deployed with a TxID never changes while the object exists, however outdated the reads reconciles start from |
| ChainNamespaceSafety.AcceptancesAccounted | internal/controller/chainnamespace_controller.go:74-129 | every envelope the orderer accepted is recorded, lost, or about to be written |
| ChainNamespaceSafety.RecordedOnce | internal/controller/chainnamespace_controller.go:492-546 | at most one acceptance is recorded for each incarnation of a namespace |
| ChainNamespaceSafety.DuplicatesBounded | internal/controller/chainnamespace_controller.go:74-129 | accepted envelopes are at most one for each incarnation, plus acceptances that were lost, plus the one in hand; a namespace nobody deletes has one incarnation |
| ChainNamespaceSafety.RecordedTxIDWasAccepted | internal/controller/chainnamespace_controller.go:492-546 | a persisted TxID is one the orderer accepted |
| ChainNamespaceSafety.RecordNeedsUndeployed | internal/controller/chainnamespace_controller.go:492-546 | a status write built on an undeployed copy has no effect on a deployed namespace |
| ChainNamespaceController.UpsertCondition | internal/controller/chainnamespace_controller.go:497-540 | the loop puts the condition in place of the first of its kind or at the end |
| ChainNamespaceController.UpsertExact | internal/controller/chainnamespace_controller.go:497-540 | an upsert adds no second condition of a kind and leaves those of other kinds alone |
| ChainNamespaceController.ChainNamespaceReconciler.Reconcile | internal/controller/chainnamespace_controller.go:74-129 | the statements follow the program, with one fetch of the given namespace, so the bound on duplicates holds of every run of them |
| ChainNamespaceController.ChainNamespaceReconciler.DeployNamespace | internal/controller/chainnamespace_controller.go:132-203 | an envelope that may have reached the orderer holds exactly one namespace, the meta namespace at version 0, with one write: key the namespace's name, value the ECDSA policy of the first usable key, version the given one exactly if it is not negative; it was broadcast, and accepted only if the answer was heard; a rejection has one of the listed causes |
| ChainNamespaceController.ChainNamespaceReconciler.SignAndSend | internal/controller/chainnamespace_controller.go:132-203 | the same of the part from the validation to the broadcast, with a TxID that is not empty |
| ChainNamespaceController.ValidateNamespace | internal/controller/chainnamespace_controller.go:206-229 | exactly the specifications without name, orderer, MSP or identity reference, or with TLS switched on without a CA reference, are refused |
| ChainNamespacePasses.PassExact | internal/controller/chainnamespace_controller.go:74-129 | one undisturbed reconcile leaves the finalizer on and records an acceptance as Deployed with its TxID and a Ready condition that holds, a rejection as Failed with the error and one that does not; a deployed namespace keeps its status |
| ChainNamespacePasses.DeletionPass | internal/controller/chainnamespace_controller.go:471-489 | one undisturbed reconcile of a deleted namespace takes the finalizer off, keeps the status, and removes it if nobody else holds it |
| ChainNamespacePasses.AlwaysGuarded | internal/controller/chainnamespace_controller.go:74-129 | in every run the orderer is asked, and a verdict recorded, only for an unmarked copy that carries the finalizer |
| Envelope.CreateSignedEnvelope | internal/controller/chainnamespace_controller.go:330-409 | endorsement i verifies over namespace i and the TxID, the TxID is that of the enclosed nonce and creator, the signature covers the payload; it fails exactly when a signing request or encoding does |
| Envelope.GetPubKeyFromPemData | internal/controller/chainnamespace_controller.go:247-287 | the first usable PEM block decides, and there is no key exactly when no block is usable |
| Envelope.ExtractionIsFixpoint | internal/controller/chainnamespace_controller.go:247-287 | extraction applied to its own output gives the output |
| Envelope.KeyOfKinds | internal/controller/chainnamespace_controller.go:255-280 | a certificate block contributes its key, a public key block itself if it parses, any other block nothing |
| CAEnrollmentSafety.Continuity | internal/controller/caenrollment_controller.go:96-130 | while successful reconciles are at most d apart the stored certificate is readable and valid for 30 days (or the CA's lifetime if shorter) less d, failures in between notwithstanding |
| CAEnrollmentSafety.DailyRequeueSlack | internal/controller/caenrollment_controller.go:108-130 | with the 24-hour requeue that is 29 days |
| CAEnrollmentSafety.RateBound | internal/controller/caenrollment_controller.go:248-317 | n secret writes within a window satisfy n <= 1 + (window + delay) / (lifetime - 30 days), where delay is how long the first of them took from signing to storing |
| CAEnrollmentSafety.ConsecutiveWrites | internal/controller/caenrollment_controller.go:189-269 | consecutive writes are more than lifetime less 30 days less the earlier one's delay apart, and signed and stored in order |
| CAEnrollmentSafety.GapHoldsIff | internal/controller/caenrollment_controller.go:303-317 | exactly the gaps up to lifetime - 30 days + 1 second - delay are guaranteed in every run, none beyond that delay |
| CAEnrollmentSafety.EarlyRenewal | internal/controller/caenrollment_controller.go:189-317 | a run that attains the bound for every lifetime and delay; with the largest delay two writes come at one instant |
| CAEnrollmentSafety.CountExact | internal/controller/caenrollment_controller.go:272-276 | the persisted count never exceeds the secret writes, and equals them exactly when none was lost or is pending |
| CAEnrollmentSafety.AlwaysInv | internal/controller/caenrollment_controller.go:60-130 | the invariant behind the three, over every run with current reads and no outside writer |
| CAEnrollmentSafety.CheckDecides | internal/controller/caenrollment_controller.go:96-115 | no renewal means 30 days left; a renewal means the previous write is more than lifetime less 30 days back |
| CAEnrollmentSafety.SecretChange | internal/controller/caenrollment_controller.go:189-269 | a call changes the secret exactly when it is the secret write of an enrolment |
| CAEnrollmentTeardown.FinalizerGoesLast | internal/controller/caenrollment_controller.go:320-345 | in every run in which nobody else creates secrets, a call that takes the finalizer off finds the output secret the enrolment names gone or marked and leaves it so |
| CAEnrollmentTeardown.AlwaysKnows | internal/controller/caenrollment_controller.go:320-345 | before the finalizer is removed the secret is gone or marked, whatever others edit or delete |
| CAEnrollmentTeardown.SecretNeverOutlives | internal/controller/caenrollment_controller.go:60-130 | in every run with current reads in which nobody else creates the secret or takes the finalizer off: an output secret that is not being deleted has its enrolment, which carries the finalizer, and the secret is written only where that is so; deletions and failing calls may come anywhere |
| CAEnrollmentTeardown.AlwaysGuarded | internal/controller/caenrollment_controller.go:60-130 | the invariant behind it, with what the reconcile knows at each point |
| CAEnrollmentPasses.PassExact | internal/controller/caenrollment_controller.go:60-130 | one undisturbed reconcile leaves the finalizer on; the CA's certificate is in the named secret, the counter one up, the expiry set and the status Ready exactly if one was due and granted; else the secret stays and the status is Ready or Failed |
| CAEnrollmentPasses.DeletionPass | internal/controller/caenrollment_controller.go:320-345 | one undisturbed reconcile of a deleted enrolment marks or removes its secret and takes the finalizer off |
| CAEnrollmentController.CAEnrollmentReconciler.RenewalDue | internal/controller/caenrollment_controller.go:303-317 | renewal is due unless a readable certificate is valid for at least 30 days |
| CAEnrollmentController.CAEnrollmentReconciler.Reconcile | internal/controller/caenrollment_controller.go:60-130 | the statements follow the program, with one fetch of the enrolment, so continuity and the count hold of every run of them |
| CAEnrollmentController.CAEnrollmentReconciler.EnrollIdentity | internal/controller/caenrollment_controller.go:133-285 | on success counter and expiry are advanced on the copy only; a failure leaves the copy as it was |
| CAEnrollmentController.CAEnrollmentReconciler.StoreSecret | internal/controller/caenrollment_controller.go:189-269 | create the secret if the read finds none, overwrite its certificate if there is one, fail on any other error |
| IdentitySafety.EnrolmentsBounded | internal/controller/identity_controller.go:61-110 | for a consistent identity the CA issues at most one certificate more than failed checks of an existing secret and certificates that never reached it |
| IdentitySafety.OutputsNeverRecorded | internal/controller/identity_controller.go:287-470 | however outdated the reads, whatever others edit or delete and whether or not the idemix section is consistent, the persisted status keeps the output secret names it started with while the identity exists, and the copy an enrolment reports on carries the new ones |
| IdentityPasses.IssuedOverPasses | internal/controller/identity_controller.go:123-133 | n undisturbed passes issue no certificate if the checked secret exists, one if check and enrolment agree on idemix, n if they do not |
| IdentityPasses.InconsistentIff | internal/controller/identity_controller.go:327-335 | they disagree exactly for an idemix section that is not switched on |
| IdentityPasses.InvalidSecretStays | internal/controller/identity_controller.go:347-401 | an existing secret that does not validate is reported as failed and never replaced |
| IdentityPasses.PassExact | internal/controller/identity_controller.go:61-110 | one pass enrols exactly if the checked secret is missing, and afterwards finds it exactly if check and enrolment agree |
| IdentityPasses.ExistingPass | internal/controller/identity_controller.go:347-401 | a pass that finds the secret says READY exactly if the entries are all there (Cred and Sk under idemix; otherwise three non-empty ones and a certificate that parses), else FAILED; it touches no secret and leaves the finalizer on |
| IdentityPasses.EnrolPass | internal/controller/identity_controller.go:123-304 | a pass that does not find it is issued one certificate and stores it, owned and labelled, under the output name, with -idemix if there is an idemix section; READY and the finalizer on |
| IdentityPasses.DeletionPass | internal/controller/identity_controller.go:474-488 | a pass over a deleted identity takes the finalizer off and touches nothing else |
| IdentityPasses.AlwaysGuarded | internal/controller/identity_controller.go:61-110 | in every run with current reads the CA is asked, and the secret written, only for a copy that carries the finalizer |
| IdentityController.IdentityReconciler.Reconcile | internal/controller/identity_controller.go:61-110 | the statements follow the program, with one fetch that starts it, so the bound holds of every run of them |
| IdentityController.IdentityReconciler.ValidateExistingSecrets | internal/controller/identity_controller.go:347-401 | the verdict is Ready exactly for data with all entries present (and a certificate that parses) |
| IdentityController.IdentityReconciler.OutputSecretsExist | internal/controller/identity_controller.go:322-344 | any read error means the secret does not exist |
| IdentityController.IdentityReconciler.CreateOutputSecrets | internal/controller/identity_controller.go:235-304 | create, or overwrite what exists; a success, and only that, sets the names of the secrets on the copy |
| IdentityController.IdentityReconciler.UpdateStatus | internal/controller/identity_controller.go:404-423 | only status and message change, on a copy fetched again |
| Sorting.SortCanonical | internal/controller/committersidecar_controller.go:943-944 | sorting gives the same list exactly for lists with the same elements |
| Sorting.SplitJoin | internal/controller/committersidecar_controller.go:944-944 | joining non-empty parts free of the separator can be undone |
| Sorting.LeqMeans | internal/controller/committersidecar_controller.go:943-943 | the order sorted by: a prefix comes first, and otherwise the first different character decides |
| SecretHash.IterationOrderIrrelevant | internal/controller/committersidecar_controller.go:938-944 | the pre-image is the same for every order of map iteration |
| SecretHash.PreimageSpelledOut | internal/controller/committersidecar_controller.go:938-944 | the pre-image is the sorted, bar-joined list of key=value texts, one for each entry, visited in any order |
| SecretHash.ReadsBackIff | internal/controller/committersidecar_controller.go:938-944 | a parser recovers the map from its pre-image exactly when keys and values are free of the separators |
| SecretHash.PreimageInjective | internal/controller/committersidecar_controller.go:938-944 | between such maps equal pre-images mean equal data |
| SecretHash.SeparatorsCollide | internal/controller/committersidecar_controller.go:938-944 | a value that goes on with the text of a later entry hashes like the two entries |
| SecretHashExact.InjectiveOverIff | internal/controller/committersidecar_controller.go:938-944 | over a fixed set of keys the pre-image tells all data apart if and only if there is at most one key |
| SecretHashExact.SingleKeySeparates | internal/controller/committersidecar_controller.go:938-944 | with one key every two values are told apart, separators or not |
| SecretHashExact.IdentifiedIff | internal/controller/committersidecar_controller.go:938-944 | exactly the empty secret and a single entry without an equals sign have a pre-image no other data has |
| SecretHashExact.IdentifiedAmongCleanIff | internal/controller/committersidecar_controller.go:938-944 | among keys free of separators (with the empty key or without it), exactly the empty secret and a single entry whose value does not read as a further, later entry |
| SecretHash.ComputeSecretHash | internal/controller/committersidecar_controller.go:933-945 | whatever order the map is visited in, the result is the hash of the canonical pre-image; an unreadable secret gives none |
| Rollout.CombinedHash | internal/controller/committersidecar_controller.go:645-684 | the annotation is the hash of the sorted digests of the readable inputs |
| Rollout.AnnotationExact | internal/controller/committersidecar_controller.go:641-684 | with an injective hash two states give the same annotation exactly when the multisets of their digests agree |
| Rollout.OneDigestRollsOut | internal/controller/committersidecar_controller.go:641-684 | changing exactly one input's digest always changes the annotation |
| Rollout.SecretEditRollsOut | internal/controller/committersidecar_controller.go:641-684 | editing, creating or deleting one hashed secret changes the annotation if and only if it changes the data, for data free of separators and for one entry under an unchanged key |
| Rollout.EditRollsOutIff | internal/controller/committersidecar_controller.go:641-684 | an edit of one input, of any data, changes the annotation exactly if it changes that input's pre-image |
| Rollout.ConfigEditRollsOut | internal/controller/committersidecar_controller.go:641-684 | every change of the rendered configuration text rolls the pods |
| Rollout.EnvEditRollsOut | internal/controller/committersidecar_controller.go:672-680 | every edit of an environment free of separators, also of its order, changes the annotation |
| Rollout.EnvTextInjective | internal/controller/committersidecar_controller.go:673-676 | such environments have different texts |
| Rollout.EnvCollides | internal/controller/committersidecar_controller.go:673-676 | a value that goes on with another variable's text hides that the variable is missing |
| Rollout.SwapDoesNotRollOut | internal/controller/committersidecar_controller.go:641-684 | two secrets that trade their data leave the annotation unchanged |
| Rollout.SecretSeenIff | internal/controller/committersidecar_controller.go:641-684 | an edit of one secret of the cluster changes the annotation exactly if it is one of the three hashed ones of the sidecar's namespace and its pre-image changes |
| Rollout.GenesisEditUnseen | internal/controller/committersidecar_controller.go:867-884 | so an edit of the genesis secret the pod mounts goes unnoticed, unless it has one of those three names |
| EndorserRollout.HashSecretData | internal/controller/endorser_controller.go:833-851 | the endorser's hash covers sorted keys each followed by its value, in whatever order the map is visited |
| EndorserRollout.ConcatSeparates | internal/controller/endorser_controller.go:833-851 | a sufficient condition on the data: with keys and value lengths unchanged the endorser's pre-image tells data apart |
| EndorserRollout.ConcatCollides | internal/controller/endorser_controller.go:833-851 | a family of collisions between different keys: text moved from a value to its key goes unnoticed |
| EndorserRollout.ConcatInjectiveOverIff | internal/controller/endorser_controller.go:833-851 | over a fixed set of keys the endorser's pre-image tells all data apart if and only if there is at most one key |
| EndorserRollout.ConcatNeverIdentifies | internal/controller/endorser_controller.go:833-851 | every secret shares its pre-image with some other one |
| EndorserRollout.AddConfigHashAnnotations | internal/controller/endorser_controller.go:786-830 | one annotation for each recorded secret that can be read, and no other |
| EndorserRollout.PodAnnotations | internal/controller/endorser_controller.go:732-747 | the custom annotations are put over those, in whatever order the map is visited |
| EndorserRollout.AnnotationsSpelledOut | internal/controller/endorser_controller.go:732-830 | which annotation tells of which secret: core-config-hash of the generated configuration, sign-cert-hash and tls-cert-hash of the secrets recorded as sign and tls, each absent if the secret cannot be read |
| EndorserRollout.AnnotationsExact | internal/controller/endorser_controller.go:732-830 | the annotations change exactly with the digest of some recorded secret whose key is not overridden, so a swap is noticed |
| EndorserRollout.EditSeenIff | internal/controller/endorser_controller.go:732-830 | an edit of one secret is noticed exactly if it is recorded under a key that is not overridden and its digest changes; an edit of a secret that is only mounted never is |
| CoreYaml.GenerateCoreTree | api/v1alpha1/endorser_helpers.go:26-291 | the nested map built step by step is the tree of the configuration |
| CoreYaml.BuildFsc | api/v1alpha1/endorser_helpers.go:43-131 | the same for the fsc section |
| CoreYaml.BuildPersistences | api/v1alpha1/endorser_helpers.go:83-95 | the same for persistences, in whatever order the map is visited |
| CoreYaml.BuildPersistence | api/v1alpha1/endorser_helpers.go:84-92 | the same for one persistence |
| CoreYaml.BuildResolvers | api/v1alpha1/endorser_helpers.go:98-129 | the same for the resolver list |
| CoreYaml.BuildDefault | api/v1alpha1/endorser_helpers.go:138-216 | the same for the default Fabric network with its four lists |
| CoreYaml.AddLists | api/v1alpha1/endorser_helpers.go:174-210 | its peers, query services and channels are added to what is there |
| CoreYaml.BuildFabric | api/v1alpha1/endorser_helpers.go:133-220 | the same for the fabric section |
| CoreYaml.BuildTms | api/v1alpha1/endorser_helpers.go:231-282 | the same for one token management service |
| CoreYaml.BuildAllTms | api/v1alpha1/endorser_helpers.go:229-284 | the same for all of them, in whatever order the map is visited |
| CoreYaml.BuildToken | api/v1alpha1/endorser_helpers.go:222-288 | the same for the token section |
| CoreYaml.BuildEndorsement | api/v1alpha1/endorser_helpers.go:253-274 | the same for the endorsement service |
| CoreYamlLayout.CoreLayout | api/v1alpha1/endorser_helpers.go:26-291 | which sections the file has, and logging key by key |
| CoreYamlLayout.FscLayout | api/v1alpha1/endorser_helpers.go:41-131 | the fsc section key by key, with the mounted identity files |
| CoreYamlLayout.P2PLayout | api/v1alpha1/endorser_helpers.go:51-78 | listen address and, if given, type; no options without routing |
| CoreYamlLayout.RoutingLayout | api/v1alpha1/endorser_helpers.go:61-78 | which of inline document and path wins: a non-empty document, even one that cannot be read and leaves the table empty; else the path, if any |
| CoreYamlLayout.PersistenceLayout | api/v1alpha1/endorser_helpers.go:84-92 | a persistence has its type and, if there are any, its options |
| CoreYamlLayout.ResolverLayout | api/v1alpha1/endorser_helpers.go:98-124 | a resolver has its name and, if there are any, its addresses |
| CoreYamlLayout.IdentityLayout | api/v1alpha1/endorser_helpers.go:103-118 | a resolver's identity has its id, and as path the mount of its secret if it refers to one, else its own path |
| CoreYamlLayout.DefaultLayout | api/v1alpha1/endorser_helpers.go:139-213 | the default network key by key; empty lists and fields are left out |
| CoreYamlLayout.MspLayout | api/v1alpha1/endorser_helpers.go:150-165 | an MSP key by key |
| CoreYamlLayout.PeersLayout | api/v1alpha1/endorser_helpers.go:174-186 | entry i of the peers is peer i: address and, if given, usage |
| CoreYamlLayout.ChannelsLayout | api/v1alpha1/endorser_helpers.go:198-210 | entry i of the channels is channel i: name and, if set, the default flag |
| CoreYamlLayout.TokenLayout | api/v1alpha1/endorser_helpers.go:219-291 | the token section holds one table entry for each service, under its name |
| CoreYamlLayout.TmsLayout | api/v1alpha1/endorser_helpers.go:226-285 | a token management service key by key |
| CoreYamlLayout.ServicesLayout | api/v1alpha1/endorser_helpers.go:242-276 | its endorsement service is three levels down, and there exactly if all levels are configured |
| CoreYamlLayout.EndorsementLayout | api/v1alpha1/endorser_helpers.go:249-272 | the endorsement service key by key, its threshold only if positive |
| CoreConfigRoundTrip.CoreRoundTrip | api/v1alpha1/endorser_helpers.go:26-291 | decoding the tree gives the typed configuration with exactly the unemitted fields erased |
| CoreConfigRoundTrip.ErasureUnseen | api/v1alpha1/endorser_helpers.go:26-291 | what is erased leaves no trace in the tree |
| CoreConfigRoundTrip.SameTreeIff | api/v1alpha1/endorser_helpers.go:26-291 | two configurations give the same tree if and only if their erasures agree |
| CoreConfigRoundTrip.ResolverRoundTrip | api/v1alpha1/endorser_helpers.go:101-126 | a resolver comes back, with the standard mount path for a secret reference |
| CoreConfigRoundTrip.TmsRoundTrip | api/v1alpha1/endorser_helpers.go:231-282 | a token management service comes back without wallets and incomplete services |
| CoreConfigRoundTrip.P2PRoundTrip | api/v1alpha1/endorser_helpers.go:56-81 | routing comes back in the form it contributes to the tree |
| EndorserPod.AssemblePod | internal/controller/endorser_controller.go:442-674 | the appended volumes and mounts, or a failure exactly when some resolver's secret is missing from the namespace its reference names (the endorser's own if it names none) |
| EndorserPod.AssembleResolvers | internal/controller/endorser_controller.go:610-658 | the resolver loop stops at the first missing secret |
| EndorserPod.VolumeNamesDistinctIff | internal/controller/endorser_controller.go:492-664 | all volume names are distinct exactly when the referring resolvers' names are and the custom volumes keep clear |
| EndorserPod.MountsDeclaredIff | internal/controller/endorser_controller.go:492-674 | every generated mount names a declared volume; the pod is well formed exactly when the custom mounts are |
| EndorserPod.ResolverFileAgrees | internal/controller/endorser_controller.go:610-658 | a referring resolver's path in core.yaml is a file of the container, it is that resolver's key of that resolver's secret, and nothing else is mounted there |
| EndorserPod.IdentityFilesIff | internal/controller/endorser_controller.go:492-596 | the identity files core.yaml names exist in the container exactly when a sign certificate secret is recorded |
| EndorserPod.FilesShown | internal/controller/endorser_controller.go:442-608 | the container sees every entry of the core configuration secret and of a recorded TLS secret at its path |
| EndorserPod.KeysHandedOver | internal/controller/endorser_controller.go:492-560 | with a sign certificate the init container reads its secret and writes the shared volume the container reads; without one it mounts nothing |
| EndorserPod.CheckSufficesIff | internal/controller/endorser_controller.go:613-631 | exactly when the existence check guarantees the mounts: it must look at every mounted secret in the endorser's own namespace |
| EndorserPod.PathInCoreYaml | api/v1alpha1/endorser_helpers.go:115-118 | core.yaml gives a referring resolver the standard path of its name |
| GenesisProgram.BlockStoredIff | internal/controller/genesis_controller.go:291-307 | the block key maps to the block exactly when no reserved entry was written over it |
| GenesisPasses.SecretSpelledOut | internal/controller/genesis_controller.go:291-307 | the entries of the secret one by one: block, decoded block or an empty object, shared configuration, and no others |
| GenesisPasses.PassExact | internal/controller/genesis_controller.go:64-218 | one undisturbed reconcile leaves the finalizer on; it writes the named secret, owned, and says RUNNING exactly if the specification is valid, the service gives a block and the secret is not somebody else's; otherwise it says FAILED and leaves the secret alone |
| GenesisPasses.DeletionPass | internal/controller/genesis_controller.go:384-445 | one undisturbed reconcile of a deleted Genesis takes the finalizer off and touches nothing else |
| GenesisPasses.AlwaysGuarded | internal/controller/genesis_controller.go:64-134 | in every run with current reads the service is asked, and the secret written, only for a copy that carries the finalizer |
| GenesisController.ValidateGenesisSpec | internal/controller/genesis_controller.go:221-276 | the loops accept exactly the specifications with a channel, a secret name, a block key, some organisation, and complete organisations and consenters |
| GenesisController.BuildSecretData | internal/controller/genesis_controller.go:291-307 | the map filled entry by entry is the one the hand-off speaks of |
| GenesisController.GenesisReconciler.StoreGenesisBlock | internal/controller/genesis_controller.go:279-352 | create or overwrite the secret; a secret controlled by another owner is a failure |
| GenesisController.GenesisReconciler.Reconcile | internal/controller/genesis_controller.go:64-218 | the statements follow the program, with one fetch that starts it, so a Genesis they report RUNNING has handed its block over |
| GenesisSafety.AlwaysHandedOver | internal/controller/genesis_controller.go:136-218 | over every run with current reads, no outside writer of secret or status and the specification left alone since its start, RUNNING reported in the run implies a generated result is in the secret; the start may be any edit, with a reconcile on the old copy under way |
| GenesisSafety.HandOff | internal/controller/genesis_controller.go:136-218 | in such a run, when the Genesis is RUNNING and has said so since the last edit, every consumer naming its secret, namespace and key finds its gate open, and unless the key is reserved the entry is a generated block |
| GenesisSafety.EditStarts | internal/controller/genesis_controller.go:64-110 | every edit of the specification is the start of such a run: it outdates the copy of the reconcile under way |
| GenesisSafety.OutdatedOwnStep | internal/controller/genesis_controller.go:64-134 | a reconcile on an outdated copy can neither report nor get hold of the current version |
| GenesisSafety.EditGateIff | internal/controller/genesis_controller.go:64-110 | right after an edit of a RUNNING Genesis a consumer of the new secret and key finds its gate open exactly if that entry happens to be there or no secret is named |
| GenesisPromise.PromiseIff | internal/controller/genesis_controller.go:64-218 | in every run from a start RUNNING implies the entry, if and only if RUNNING is not yet said, or the entry is there and no reconcile on an older copy is about to replace the data of the same secret without it |
| GenesisPromise.AlwaysSafe | internal/controller/genesis_controller.go:136-352 | otherwise the entry, once there, stays in every run |
| GenesisPromise.CarriedOut | internal/controller/genesis_controller.go:136-352 | a reconcile that threatens the entry can be brought to remove it while the status goes on saying RUNNING |
| GenesisPromise.OutdatedWriteOverwrites | internal/controller/genesis_controller.go:279-352 | one outdated write of the same secret under another key closes the gate of a RUNNING Genesis |
| GenesisPromise.OutdatedFetchThreatens | internal/controller/genesis_controller.go:84-110 | a fetch answered from before the edit starts such a reconcile, exactly if its block key is another and the new one is not the name of the decoded block's entry |
| Gate.GateVouchesIff | internal/controller/committersidecar_controller.go:955-1009 | the gate vouches for the entry the pod mounts exactly when a secret is named and the gate looks into the pod's own namespace; without a name it opens all the same |
| GatedDeploy.Deployer.ReconcileGenesisBlock | internal/controller/ordererassembler_controller.go:205-259 | it succeeds exactly when nothing was asked for or the entry was read from the named secret; a failure means a read of that secret did not show the entry |
| GatedDeploy.GateSpelledOut | internal/controller/ordererassembler_controller.go:205-259 | the gate looks into the named namespace, or the component's own, for the named entry, or genesis.block |
| GatedDeploy.Deployer.CreateCertificateSecrets | internal/controller/committersidecar_controller.go:326-420 | success means every certificate of the list was confirmed in its secret, with its labels |
| GatedDeploy.Deployer.ReconcileCertificates | internal/controller/committersidecar_controller.go:189-258 | nothing to do without an enrolment; otherwise success means the CA issued and every certificate of its list is stored, and a failure that it did not, or that a call failed |
| GatedDeploy.Deployer.CreateCertificateSecret | internal/controller/ordererassembler_controller.go:399-493 | success means an answer about the certificate's secret showed the certificate under cert.pem, the key under key.pem, the CA's certificate under ca.pem, and exactly the four labels; a failure means a call failed or a foreign owner |
| GatedDeploy.Deployer.CreateOrUpdate | internal/controller/committersidecar_controller.go:536-565 | success confirms the wanted data; an update changes something, is of a copy read before it that nobody else controls, and carries its version; a failure means a call failed or a foreign owner |
| GatedDeploy.Deployer.CreateElseUpdate | internal/controller/ordererassembler_controller.go:952-971 | success confirms the wanted data; a failure means a call failed |
| GatedDeploy.Deployer.DeploySidecar | internal/controller/committersidecar_controller.go:423-472 | every Deployment write comes after certificates, genesis gate and configuration have succeeded in the same reconcile, and success means the Deployment was confirmed after them with the annotation of what was read; another mode makes no call; a failure has one of the listed causes |
| GatedDeploy.Deployer.DeployAssembler | internal/controller/ordererassembler_controller.go:496-538 | the same for the assembler, with its pod template |
| GatedDeploy.Deployer.PrepareSidecar | internal/controller/committersidecar_controller.go:439-456 | success means certificates, genesis entry, configuration and Service were confirmed, without a Deployment write |
| GatedDeploy.Deployer.PrepareAssembler | internal/controller/ordererassembler_controller.go:503-525 | the same for the assembler |
| GatedDeploy.Deployer.WriteDeployment | internal/controller/committersidecar_controller.go:902-930 | success confirms the annotated Deployment; an update is of a copy read before it that nobody else controls; a failure means a call failed or a foreign owner |
| GatedDeploy.Deployer.WriteAssemblerDeployment | internal/controller/ordererassembler_controller.go:1272-1290 | success confirms the Deployment with its template; a failure means a call failed |
| GatedDeploy.PreparedThenDeployed | internal/controller/ordererassembler_controller.go:496-538 | a preparing stretch without Deployment writes, followed by a stretch that confirms the Deployment, is a gated deploy |
| GatedDeploy.Deployer.ReconcileSidecarDeployment | internal/controller/committersidecar_controller.go:641-684 | the Deployment carries the annotation of the three secrets as they were read |

## Left out

- The coordinator, validator, verifier and query-service controllers: near copies of the sidecar's, which stands for all five kinds in the teardown.
- The CA, gateway and Istio controllers and helpers, the orderer component controllers other than the assembler's deploy mode, provider factory, certificate conversion: field copying or single branches.
- Pod templates beyond volumes, mounts and the hash annotation: images, scripts, ports, resources, labels, affinity; conversion of custom volumes.
- Status conditions and timestamps except ChainNamespace's condition list; most controllers set the Ready condition to true even when they report a failure.
- The status and finalizer preamble of the assembler and of the endorser: the same statements as the sidecar's.
- MSP set-up on disk, gRPC, yaml.Marshal, text templates, the genesis service and idemix: events or parameters with an arbitrary outcome.
- Panic recovery, logging and requeue timing; a schedule or an integer clock takes their place.
- Kubernetes garbage collection by owner reference: it may appear among the others' calls but no theorem relies on it.
- core.yaml keys are constructors rather than text, and tables with user-chosen keys are a node kind of their own; the routing table of an inline document is what a parser parameter returns.
- GatedDeploy.Deployer.DeployAssembler: the Gateway resources written after the Deployment are not modelled, because no step depends on them.
- GatedDeploy.Deployer.DeploySidecar: the Ingress written after the Deployment is not modelled, for the same reason.
- EndorserRollout.HashSecretData: cutting the hash to sixteen characters makes collisions of the result itself possible; the statements are about the pre-image.
- CommitterSafety.NeverOrphans: garbage collection and foreign finalizers on children are covered only as far as the others' allowed calls go.
- CAEnrollmentSafety.Continuity: the deletion branch is in the program, but the runs of this theorem do not delete the enrolment.
- GenesisSafety.HandOff: reads answered from an earlier state are not events of these runs; what such a fetch does is OutdatedFetchThreatens.
