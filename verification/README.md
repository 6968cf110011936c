# k8s-job-wrapper: a Dafny model of its two reconcilers

k8s-job-wrapper has two custom resources. A wrapper `Job` takes a pod template from a `PodProfile`, patches it, and keeps the newest of its batch Jobs in line with the result; it prunes the history of batch Jobs and implements a TTL of its own. A wrapper `CronJob` does the same for one batch CronJob. This project models the two controllers, the construction of the manifests and the events that drive them, and proves what holds in every run.

## How the model is laid out

- `Prelude`, `Decimal`, `Json`: lists, decimal int32 printing and parsing, JSON documents and JSON pointers (sections 3 and 4 of RFC 6901).
- `Objects`, `Construct`, `Patch`, `Moves`: batch Jobs and when they count as finished; the construction of manifests; patches (section 4 of RFC 6902) and the rewriting of their paths.
- `Pointers`, `Edits`, `Documented`, `Manifests`, `Effects`: what the functions of these modules and of `Passes` and `Cluster` mean, value by value and key by key, stated without them: pointers, single patch operations, the fields of a manifest, the calls to the API server.
- `Passes`, `PassFacts`: the TTL pass, the prune and the create decision as functions of a list of batch Jobs.
- `Cluster`: one wrapper, its batch Jobs, its queue entry, requeue timer, clock and controller as a labelled transition system. A controller step ends with at most one API call, every call may fail, and the environment acts between any two steps: it edits wrappers and profiles, reports conditions, deletes batch Jobs, lets time pass; the controller may crash. `Run` executes a list of actions, and `Along` states a condition on every step of a run.
- `Steps`, `Safety`, `Provenance`, `Settled`, `TtlRuns`, `Requeues`, `History`, `Window`, `AtMostOnce`, `Alternation`, `Convergence`, `Rounds`, `Quiet`, `Collision`, `Listing`: theorems about all runs.
- `Overshoot`, `Stranding`, `LateWakeUp`, `LostEvents`, `TwoReads`, `Crash`: runs from the initial state, with the real construction and any hash functions that tell the specs in question apart, on which a property that one might expect fails. `Scenarios` has what they share.
- `Namespaces`: any number of wrappers that share one store. Every interleaving projects, for each wrapper, onto a run of `Cluster`.
- `Controller`: the reconciler as imperative code (loops with counters over reversed lists, conditions updated in place, early returns). The environment may act before every API call. Each method is proved to take steps of `Cluster`, so every theorem about runs is one about this code; `Serve` spells that out.
- `CronJobs`, `CronController`: the same for the CronJob reconciler and its PodProfile handler.
- `Status`: the Available and Degraded conditions.

In the model lists are in creation order; the code's order, newest first, is their reverse (`Listing` shows that the sort leaves no other choice).

## Assumptions

- Creation times of different batch Jobs differ, in the order of creation. `Listing.TiesAreAmbiguous` shows what happens otherwise. The sort of internal/controller/job_controller.go:480 is not stable, and the repository's tests sleep to avoid ties.
- A condition that a batch Job has reported stays, and carries the time at which it was reported, or none.
- Reads are consistent with the store, and a wrapper is reconciled by one worker at a time. Updates carry the resource version, so an update of an object that has changed fails.
- Background deletion removes a batch Job at once unless somebody else's deletion is already pending.
- The history limit is set (the CRD's default sees to that).
- The two hashes are arbitrary functions. Of the theorems about all runs only the bound on name collisions assumes something of the template hash: with m names taken it tells the first m + 1 counts apart, for this template.
- Where a theorem needs more, its guard says so: `BuildsUnmarked` (users do not set the `jobs.pixiv.net/ttl-expired` annotation; `Construct.BornMarkedIff` is exact about it), `MarkingWorks`, `CullingWorks`, `PruneWorks`, `Orderly`, `EverythingIsSeen` and `NothingLost` (no event is lost), `ListsInTime`, `OnlyTimePasses`, `Undisturbed`, `Working`, `Retrying`.

## What turned out differently from what one would expect

- The number of live batch Jobs is bounded by the history limit plus two, not plus one: a batch Job that finishes between the prune's list and the final list counts only at the next prune. A reconcile can end like that exactly when the prune's list has as many finished batch Jobs as the limit, or more, and its newest live one is still running and outdated (`Window.OvershootsIff`). `Overshoot.LimitPlusTwoIsReached` gives the run for every limit.
- A requeue delay counts from the end of the reconcile, so a wake-up can be later than expiry plus three seconds, by any amount (`LateWakeUp.RequeueComesLate`). `Requeues.AwaitedWithinGraceIff` says exactly when it is not.
- The deletion of a batch Job that carries the expiry mark is hidden from the queue whoever deletes it. If a user deletes a marked batch Job that was the newest, it may be that nothing re-creates it (`Stranding.UnseenRemovalStrandsTheWrapper`; `RemovalStrandsTheWrapperIff` is exact).
- When the list of a PodProfile handler fails, in either controller, the event is dropped (internal/controller/job_controller.go:574-584, internal/controller/cronjob_controller.go:235-260). `LostEvents` has a run for each in which a wrapper then rests without being what its profile says; the two lemmas `LostProfileEventIsHarmlessIff` say exactly which wrappers stay as they should.
- The TTL pass spares some batch Job, but not always the newest (`NewestDoomedIff`). That the newest survives is a property of runs (`MarksAreAgeClosed`).
- A patch path without its leading slash is an error on the template, but once rewritten it names a sibling of the template (`UnrootedEscapes`). The removal of the root is an error on the template, but once rewritten it deletes the template (`RemoveRootDeletesTheTemplate`). For all other paths add, remove, replace and test keep their meaning (`RewritingPreservesMeaningIff`).
- `from` is not rewritten. So `copy` reads the whole document (`CopyKeepsMeaningIff`), and a `move` keeps its meaning only where its source finds in the document what it finds in the template, or where both are errors (`MoveKeepsMeaningIff`). Both work if `from`, unlike `path`, is written from the root of the document (`PatchLocalisation`).
- Wrapper and profile are read one after the other, so a manifest can be built from a wrapper and a profile that never were current together. `AtMostOncePerSpec` therefore speaks of the manifests that are built, and `AtMostOnceWhileDesired` excludes an edit between the two reads. Without that, two batch Jobs with the hash that is desired throughout can be created (`TwoReads.DesiredTwiceCreated`). `CreatesAfterReadIff` says exactly when a reconcile can go on to create one after it has read the profile, and `CreationsAlternate` that whatever is desired, two creations with the same hash are never in a row.
- The controller's own marks, deletions and creations queue the wrapper again. That comes to an end after three reconciles (`AtMostThreeReconciles`), and exactly if a manifest can be built at all (`LeavesTheQueueIff`).
- The collision count is an int32 that wraps around (`StoredCountStep` says exactly when it goes down).
- In `applyBatchCronJob` the "not changed" comparison is between values of two different types and never holds; the model always applies.

## Model

| member | source | states |
|---|---|---|
| `Objects.FinishedIffTerminalCondition` | internal/util/job.go:32-67 | a batch Job counts as finished exactly when some condition of type Complete or Failed has the status True |
| `Objects.FinishTimeIsOfTheFirst` | internal/util/job.go:32-63 | the finish time is that of the first such condition |
| `Objects.LaterConditionsDoNotMatter` | internal/util/job.go:52-63 | the first terminal condition decides whether and when a Job has finished; later ones change nothing |
| `Decimal.PrintParse` | internal/construct/job.go:103 | every int32, printed in decimal, is parsed back to itself |
| `Decimal.ParsesIff` | internal/construct/job.go:52-62 | exactly the strings of decimal digits, with one sign or none, whose value fits 32 bits are read, as that value: a digit counts ten times what it counts one place to its right |
| `Decimal.PrintDenotes` | internal/construct/job.go:103 | what is printed denotes the number in decimal, without leading zeros or a plus sign |
| `Construct.BuildBatchJobSpec` | internal/construct/job.go:117-202 | the construction with its loop over a copied patch list computes the rewritten patches' effect and leaves the wrapper's own patches as they are |
| `Construct.SpecIsParametersAndPatchedTemplate` | internal/construct/job.go:117-202 | for lists of the operations that `PatchLocalisation` is about: the spec is the parameters with the template that the user's own patches make of the profile's template, and it fails exactly when they do |
| `Construct.BuildBatchJob` | internal/construct/job.go:74-114 | the field-by-field construction computes the specified manifest: user metadata first, essential metadata over it |
| `Manifests.NamedAfterItsTemplate` | internal/construct/job.go:106-109 | name and pod-template-hash label carry the hash of the manifest's own template under the wrapper's collision count |
| `Manifests.DifferentTemplatesDifferentNames` | internal/construct/job.go:106-109 | with equal counts two manifests of a wrapper have different names exactly when the hashes of their templates differ |
| `Manifests.LabelsAre` | internal/construct/job.go:41-49 | the four labels of the controller, spelled out, with their values; every other label is the user's |
| `Manifests.AnnotationsAre` | internal/construct/job.go:95-104 | the TTL annotation, in decimal, if the wrapper has a TTL; every other annotation is the user's |
| `Manifests.OwnedByItsWrapper` | internal/construct/job.go:91-94 | one owner reference: the wrapper, of kind Job in pixiv.net/v1, as controller |
| `Manifests.SpecIsBuilt` | internal/construct/job.go:74-82 | a manifest is built exactly when its spec is, and holds it |
| `Manifests.SelectedIff` | internal/construct/job.go:65-70 | the list call selects exactly by the two labels created-by and name |
| `Manifests.MarkIs` | internal/controller/job_controller.go:330-335 | the expiry mark is the annotation jobs.pixiv.net/ttl-expired with the value true |
| `Manifests.TtlIs` | internal/construct/job.go:52-62 | a TTL is read exactly from an annotation that denotes it in decimal |
| `Construct.BuiltJobBelongsToItsWrapper` | internal/construct/job.go:65-70 | whatever labels the user supplies, a built batch Job is selected by its own wrapper and no other, and its events go to that wrapper |
| `Construct.TtlRoundTrip` | internal/construct/job.go:52-62 | the TTL parsed from a built batch Job is the TTL that was set, for every int32 and all user annotations |
| `Construct.BornMarkedIff` | internal/construct/job.go:95-104 | a batch Job is created with the expiry mark exactly when the user's annotations set it |
| `Construct.SpecHashIsTheHashOfTheSpec` | internal/construct/job.go:106-111 | the hash that decides about re-creation depends on the spec alone, not on collision count, names or metadata |
| `Construct.UserLabelsSurvive` | internal/construct/job.go:97-111 | a user label survives, unchanged, wherever the controller does not need the key |
| `Construct.FindOwnerName` | internal/controller/job_controller.go:528-538 | the loop returns the name of the first owner reference that is a controller, of kind Job and of pixiv.net/v1, and fails exactly when there is none |
| `Patch.RewritePaths` | internal/construct/job.go:170-176 | the loop prefixes every path of a fresh copy; the original list keeps its contents |
| `Patch.PrefixedTokens` | internal/construct/job.go:175 | the tokens of the rewritten pointer are spec, template and the tokens of the original one, and it is malformed exactly when that is |
| `Pointers.PointsTo` | api/v1/job_types.go:275-278 | a path is a pointer to given reference tokens exactly when it is these, escaped, each behind a slash |
| `Pointers.Escapes` | api/v1/job_types.go:275-278 | ~1 is a slash and ~0 a tilde, in this order, and nothing else may follow a tilde |
| `Pointers.ElementsAreNamedByIndex` | api/v1/job_types.go:275-278 | a token names an array element exactly when it is the element's index in decimal, from zero and without leading zeros |
| `Pointers.MembersAreNamedByKey` | api/v1/job_types.go:275-278 | a token names a member by its key; scalars have neither members nor elements |
| `Edits.AddAppends` | internal/construct/job.go:159-201 | an add at - appends to the array, and changes nothing else in the document |
| `Edits.AddInserts` | internal/construct/job.go:159-201 | an add at an index inserts there, the elements from there on move up by one; behind the end it is an error |
| `Edits.AddNeedsAPlace` | internal/construct/job.go:159-201 | with any other token an add to an array is an error |
| `Edits.AddSets` | internal/construct/job.go:159-201 | an add to an object sets the member, new or not, and every other one stays |
| `Edits.AddNeedsAContainer` | internal/construct/job.go:159-201 | an add to nothing, or to a scalar, is an error |
| `Edits.ElementsChange` | internal/construct/job.go:159-201 | remove takes the element out of an array and the rest moves down; replace changes that element; all others stay in order |
| `Edits.MembersChange` | internal/construct/job.go:159-201 | remove takes the member out of an object, replace changes it, and every other one stays |
| `Edits.OnlyWhatIsThere` | internal/construct/job.go:159-201 | what is not there can be neither removed nor replaced |
| `Edits.WholeDocument` | internal/construct/job.go:159-201 | the root can be added and replaced, but not removed |
| `Edits.TestIff` | internal/construct/job.go:159-201 | a test succeeds exactly when the value is there, and changes nothing |
| `Edits.CopyAddsWhatIsThere` | internal/construct/job.go:159-201 | a copy is an add of what its source finds, and an error when it finds nothing |
| `Edits.MoveRemovesAndAdds` | internal/construct/job.go:159-201 | a move is a remove and then an add, and an error when it would go into itself |
| `Edits.MalformedIsAnError` | internal/construct/job.go:159-201 | what is no pointer or no operation is an error |
| `Edits.InOrder` | internal/construct/job.go:170-176 | of two lists the second one finds what the first has made, and an error ends both |
| `Documented.Appends` | internal/construct/job.go:159-201 | an add at the end of any list in the template makes the value the last one of that list in the spec, and changes nothing else in the spec |
| `Documented.AddsAContainer` | test/manifests/complex/v1_job.yaml:11-17 | the patch of this manifest adds its container behind those of the profile |
| `Documented.ReplacesInTheFirst` | api/v1/job_types.go:254-268 | the documented patches change the named member of the first container and nothing else in the spec |
| `Documented.AroundTheTemplate` | internal/construct/job.go:117-129 | what copies and tests outside the template find: the type, and the placeholder name next-job |
| `Patch.ApplyRewritten` | internal/construct/job.go:171-176 | one rewritten operation at a rooted path, other than the removal of the root, does on the whole document what it means on the template, and touches nothing else; the source of a copy or a move is one in the template, written from the root of the document |
| `Patch.PatchLocalisation` | internal/construct/job.go:159-201 | for lists of such operations, all six kinds: success on the document if and only if on the template, and the same result in place |
| `Patch.RewritingPreservesMeaningIff` | api/v1/job_types.go:272-274 | add, remove, replace and test, each by itself: an operation keeps its meaning exactly when its path is empty or starts with a slash and it does not remove the root, or when its path has malformed escapes |
| `Patch.UnrootedEscapes` | internal/construct/job.go:175 | every unrooted path without malformed escapes fails on a template and succeeds, rewritten, on a document that has a sibling of the template |
| `Patch.RemoveRootDeletesTheTemplate` | internal/construct/job.go:175 | the removal of the root fails on the template and, rewritten, removes the template from the document and nothing else |
| `Patch.CopyKeepsMeaningIff` | internal/construct/job.go:170-176 | a copy keeps its meaning exactly when its unrewritten source finds the same value in both documents, or the target does not exist |
| `Moves.MoveKeepsMeaningIff` | internal/construct/job.go:170-176 | every move at a rooted path: with a source in the template it keeps its meaning exactly when that source, with and without the prefix, moves to the same result in the template; else exactly when the move is an error in the template, for want of a source or a target, and in the document, for want of them or because the source holds the target |
| `Passes.NeedsMarkIff` | internal/controller/job_controller.go:353-407 | saturating durations do not change who is marked: finished at a known time, not in deletion, unmarked, with finish time plus TTL in seconds not after the clock |
| `Passes.TtlFits` | internal/controller/job_controller.go:405 | a TTL in seconds never overflows as nanoseconds |
| `Passes.DelayIsExact` | internal/controller/job_controller.go:371-378 | unless the finish time is ages in the future the delay is the remaining time plus three seconds, without overflow |
| `Passes.DelayWrapsIff` | internal/controller/job_controller.go:371-378 | in general the delay comes out negative exactly when the expiry is further away than the largest duration less three seconds |
| `Passes.MarkChangesOnlyTheMark` | internal/controller/job_controller.go:337-342 | the annotation update leaves TTL, expiry and everything else but the mark alone |
| `Passes.MarkSetsOneAnnotation` | internal/controller/job_controller.go:337-342 | key by key: the update sets jobs.pixiv.net/ttl-expired to true; every other annotation, and name, labels, owners, spec, conditions and UID stay |
| `Passes.LatestLiveIsNewest` | internal/controller/job_controller.go:153-158 | the batch Job that the create decision looks at is the newest live one |
| `PassFacts.TtlDoomsAllMarkedOrSparesNewest` | internal/controller/job_controller.go:273-300 | a TTL pass deletes all the listed batch Jobs that carry the mark, or, if all do, all but the newest |
| `PassFacts.NewestDoomedIff` | internal/controller/job_controller.go:278-300 | the newest is deleted exactly when it is marked and some other one is not |
| `PassFacts.RequeueIsInTime` | internal/controller/job_controller.go:302-321 | the requeue comes no later than three seconds after any expiry still to come |
| `PassFacts.WakeUpFindsAnExpiredJob` | internal/controller/job_controller.go:302-321 | for one list: when its requeue comes due, a batch Job that asked for it and did not need the mark then needs it now, and the marking branch sets it |
| `PassFacts.PruneIsExact` | internal/controller/job_controller.go:224-260 | one prune leaves exactly the newest finished batch Jobs up to the limit, and every unfinished one |
| `Effects.PrunedIff` | internal/controller/job_controller.go:232-260 | the prune deletes a batch Job exactly when it has finished, is not in deletion, and as many newer ones as the limit have finished, too |
| `Effects.CulledIff` | internal/controller/job_controller.go:273-300 | the TTL pass deletes a batch Job exactly when it was listed with the mark, and is not the newest or some other one is without it |
| `Effects.MarksWhatHadExpired` | internal/controller/job_controller.go:353-392 | the marking loop updates exactly those listed without the mark whose TTL had run out by the clock reading at its start |
| `Effects.PassBegins` | internal/controller/job_controller.go:144-145 | the pass works on a clock reading and a later list of all batch Jobs |
| `Effects.UpdateMarksOne` | internal/controller/job_controller.go:337-342 | an update marks the batch Job that was listed, if it is still as it was, and no other |
| `Effects.DeleteTakesOne` | internal/controller/job_controller.go:287-299 | a delete call takes away the batch Job with the UID and no other, and is seen unless that one carries the mark |
| `Effects.DeleteOfNothing` | internal/controller/job_controller.go:287-299 | where nothing has the UID, or its deletion is pending, a delete call changes nothing |
| `Effects.CreateAddsOne` | internal/controller/job_controller.go:193-202 | a create call adds one batch Job with the manifest sent, behind all others |
| `Effects.BumpAddsOne` | internal/controller/job_controller.go:203-208 | the count goes up by one, from zero if absent, and wraps around at the largest int32 |
| `Effects.CountIsStored` | internal/controller/job_controller.go:209-214 | the count is stored in the wrapper as it was read, or not at all |
| `Effects.TheEarlierIsKept` | internal/controller/job_controller.go:314-319 | of a pending requeue and a requested one the earlier is kept |
| `Effects.FailsIff` | internal/controller/job_controller.go:128-184 | a reconcile comes to an error exactly through the profile, the construction, the final list or the create call; failures of the two passes are dropped |
| `Effects.FailedCallsChangeNothing` | internal/controller/job_controller.go:128-184 | a call that fails leaves batch Jobs, wrapper, queue and requeue as they are |
| `Effects.ErrorsOfPassesAreDropped` | internal/controller/job_controller.go:144-151 | after a failed list of one pass the next pass is made, or the final list |
| `Effects.HowItEnds` | internal/controller/job_controller.go:171-184 | an error, or a failed status write, queues the wrapper and drops the delay; else the requeue is armed |
| `Effects.RemovalIsSeenUnlessMarked` | internal/controller/job_controller.go:541-557 | somebody else's deletion queues the wrapper unless the batch Job carries the mark |
| `Effects.ProfileEventsAreForTheirWrappers` | internal/controller/job_controller.go:559-592 | the event of a profile queues exactly the wrapper that refers to it, if the handler can list |
| `PassFacts.NewestSurvivesPrune` | internal/controller/job_controller.go:236-258 | with a limit of at least one the newest batch Job is never pruned |
| `Listing.SortsAgree` | internal/controller/job_controller.go:478-489 | with different creation times all correct sorts of a list agree |
| `Listing.TiesAreAmbiguous` | internal/controller/job_controller.go:478-489 | neighbours with equal creation times may come either way round |
| `Listing.ListIsReverseOfCreation` | internal/controller/job_controller.go:469-490 | in every reachable state every list is the reverse of the creation order, whatever order the API server used |
| `Steps.StepAges` | internal/controller/job_controller.go:72-407 | every step that creates nothing only ages batch Jobs: none appears; UID, name, labels, owners, spec, TTL and every annotation but the mark stay; marks, deletions and finishes are never undone |
| `Provenance.NothingIsDoneForIt` | internal/controller/job_controller.go:83-87 | for a wrapper that is gone or being deleted a reconcile changes nothing but the queue |
| `Provenance.LeftAlone` | internal/controller/job_controller.go:83-87 | in every run from such a state on, until the wrapper comes back, the controller creates nothing and deletes nothing |
| `Provenance.NoReconcileOfADeletedWrapper` | internal/controller/job_controller.go:75-142 | in every run the wrapper that a reconcile works with was not being deleted when it was read, and its manifest was built from it |
| `Provenance.EveryBatchJobWasBuilt` | internal/controller/job_controller.go:128-202 | in every reachable state every batch Job was created by the controller and is, but for the expiry mark, what the construction made of a wrapper that was not being deleted |
| `Safety.AtMostOneUnfinished` | internal/controller/job_controller.go:153-181 | in every reachable state at most one batch Job is live and unfinished, and it is the newest live one, whatever fails and whatever happens between the final list and the create call |
| `Safety.DeletionsAreJustified` | internal/controller/job_controller.go:236-258 | in every run each deleted batch Job had finished, each one deleted for its TTL was past finish time plus TTL, and every mark is true |
| `SettledOrQueued.QueuedOrInFlightOrSettled` | internal/controller/job_controller.go:511-592 | in every run in which no event is lost, whatever calls fail: a wrapper is queued, in flight, or its newest live batch Job is unfinished or has the desired hash |
| `SettledOrQueued.RemovalStrandsTheWrapperIff` | internal/controller/job_controller.go:541-557 | an external deletion strands a wrapper at rest exactly when it takes the newest live batch Job, that one carries the mark, and the next older live one is missing or has finished with another hash than the desired one |
| `SettledOrQueued.LostProfileEventIsHarmlessIff` | internal/controller/job_controller.go:574-584 | a lost profile event leaves a wrapper at rest settled exactly when it refers to another profile, or the new one can be built from and the newest live batch Job is unfinished or has its hash |
| `Stranding.UnseenRemovalStrandsTheWrapper` | internal/controller/job_controller.go:549-552 | a run from the start, in which everything is seen, leads to a wrapper at rest with one batch Job, which is marked; its deletion leaves nothing, unqueued and not settled |
| `LostEvents.LostEventUnsettles` | internal/controller/job_controller.go:574-584 | a run from the start, in which everything is seen, to a wrapper at rest; after one lost event of its profile it is unqueued and not settled |
| `TtlRuns.NoTtlIsForgotten` | internal/controller/job_controller.go:302-321 | whenever a wrapper is at rest each batch Job that waits for its TTL has a pending requeue, at most three seconds and the duration of the last reconcile after its expiry |
| `Requeues.RequeueIsExact` | internal/controller/job_controller.go:302-321 | a successful reconcile leaves the timer at the least expiry to come on its list, plus three seconds, plus the time it ran on after reading the clock, or at an earlier one that is pending |
| `Requeues.AwaitedWithinGraceIff` | internal/controller/job_controller.go:302-321 | afterwards a waiting batch Job is awaited within three seconds of its expiry exactly when an earlier requeue sees to it or the reconcile ran on no longer than that expiry lies after the least one |
| `LateWakeUp.RequeueComesLate` | internal/controller/job_controller.go:371-378 | for any amount of time, a run from the start whose wake-up comes that much later than three seconds after the expiry |
| `Requeues.WakeUpIsNotInVain` | internal/controller/job_controller.go:302-321 | in every run, whenever the requeue comes due, the batch Job on whose account it was asked for is gone, in deletion, marked, or expired, so that the next pass marks it |
| `Requeues.WakeUpsAreBounded` | internal/controller/job_controller.go:302-321 | from any reachable state on, while only time passes and calls succeed, there are at most two wake-ups for every batch Job that waits for its TTL, and two more |
| `Requeues.WakeUpsAtRestAreBounded` | internal/controller/job_controller.go:302-321 | one for each and one more, if none comes while a reconcile is under way |
| `TtlRuns.MarkedMeansSole` | api/v1/job_types.go:179-180 | whenever a wrapper is at rest and unqueued, a marked batch Job is its only one |
| `AtMostOnce.MarksAreAgeClosed` | internal/controller/job_controller.go:273-300 | across any sequence of passes the marks are closed towards older batch Jobs, and the newest is safe from the TTL pass |
| `AtMostOnce.AtMostOncePerSpec` | internal/controller/job_controller.go:144-172 | from any point on, while the manifests that are built carry the hash h, at most one batch Job with the hash h is created |
| `AtMostOnce.AtMostOnceWhileDesired` | internal/controller/job_controller.go:414-441 | the same while the desired spec has the hash h and no edit falls between the two reads |
| `Alternation.CreationsAlternate` | internal/controller/job_controller.go:144-172 | in every orderly run, whatever is built or desired, between two creations with the same hash there is one with another hash |
| `Alternation.CreatesAfterReadIff` | internal/controller/job_controller.go:128-172 | in every orderly run, with the newest batch Job's hash h: after the profile has been read and the manifest m, not born marked, built, this reconcile can go on, orderly, to a create call exactly when the hash of m is not h |
| `Crash.CreatedAgainAfterACrash` | internal/controller/job_controller.go:273-300 | for all hash functions that tell two specs apart, a run with a crash inside the marking loop, and otherwise orderly, in which two batch Jobs are created while every manifest that is built has the same hash |
| `TwoReads.DesiredTwiceCreated` | internal/controller/job_controller.go:75-142 | for all hash functions that tell two specs apart, a run in which the same hash is desired throughout and two batch Jobs with it are created |
| `History.AtMostLimitPlusTwo` | internal/controller/job_controller.go:224-260 | with a fixed limit L and a prune that works, never more than L + 2 live batch Jobs |
| `History.AtMostLimitPlusOne` | api/v1/job_types.go:35-40 | never more than L + 1 if none finishes between the prune's list and the final list |
| `Window.OvershootsIff` | internal/controller/job_controller.go:144-181 | in any run with the limit L, at the prune's list: the reconcile can go on to leave L + 2 live batch Jobs exactly when the list has L finished ones or more and its newest live one is unfinished with another hash than the manifest's |
| `Overshoot.LimitPlusTwoIsReached` | internal/controller/job_controller.go:144-181 | for every L, with the real construction: a run from the start that ends with L + 2 live batch Jobs, for any hash that tells each of its specs from the next |
| `Rounds.EveryRunComputesItsRounds` | internal/controller/job_controller.go:72-185 | every undisturbed run, the wrapper being queued at any moment, that has taken it from the queue k times and ends at rest has computed one function of the batch Jobs k times |
| `Convergence.TwoReconcilesSuffice` | internal/controller/job_controller.go:144-184 | from any store state, for every limit and every mix of marked, expired, differently hashed batch Jobs and ones in deletion, two of them reach a fixpoint |
| `Rounds.ThirdReconcileChangesNothing` | internal/controller/job_controller.go:144-184 | with a manifest that is not born marked, after every undisturbed run that has reconciled the wrapper twice or more and ends at rest: every run of the controller from the next queueing on that ends at rest has changed nothing but the requeue |
| `Rounds.EveryRestingRunChangesNothing` | internal/controller/job_controller.go:144-184 | from a state with nothing to do every run of the controller that ends at rest changes nothing but the requeue, and leaves the wrapper out of the queue |
| `Quiet.AtMostThreeReconciles` | internal/controller/job_controller.go:72-185 | from every reachable state on, in the middle of a reconcile or not, as long as only the controller works, and builds a manifest that is not born marked whenever it starts, the wrapper is taken from the queue three times at most |
| `Quiet.LeavesTheQueueIff` | internal/controller/job_controller.go:72-185 | from every reachable state at rest the wrapper leaves the queue for good, if only the controller works, exactly when it is not queued, gone or being deleted, or a manifest can be built for it (one that is not born marked) |
| `Collision.CountsDiffer` | internal/controller/job_controller.go:203-208 | no collision count comes back before all int32 values have been used, absent to 1 being the first bump |
| `Collision.BuiltNamesDiffer` | internal/construct/job.go:106-109 | the first n + 1 names of a wrapper differ when the template hash tells its template's first n + 1 counts apart |
| `Collision.InjectiveHashesDiffer` | internal/controller/job_controller.go:203-208 | a hash that is injective in the count does so for every n below 2^32, wrap-around included |
| `Collision.CollisionsAreBounded` | internal/controller/job_controller.go:193-221 | over whole runs, if the first m + 1 names differ and m names are taken, there are at most m collisions |
| `Collision.CreatedWithinOneMoreThanTaken` | internal/controller/job_controller.go:193-221 | then m + 1 answered create calls include a successful one |
| `Collision.CollisionsAreCounted` | internal/controller/job_controller.go:203-215 | the stored count goes up by one for each collision |
| `Collision.CountNeverDecreases` | internal/controller/job_controller.go:203-215 | it never goes down between two points of a run, short of the largest int32 |
| `Collision.StoredCountStep` | internal/controller/job_controller.go:207-208 | a step lowers it exactly when it bumps the largest int32 |
| `Namespaces.BuiltManifestsBelong` | internal/construct/job.go:91-111 | the real construction labels and owns batch Jobs as the theorems about namespaces require |
| `Namespaces.MoveSeen` | internal/controller/job_controller.go:469-557 | to every wrapper each move of the namespace is a step of its own single-wrapper system |
| `Namespaces.EachWrapperSeesARunOfItsOwn` | internal/controller/job_controller.go:72-185 | any interleaving of reconciles of any number of wrappers projects to a single-wrapper run for each |
| `Namespaces.NoInterference` | internal/controller/job_controller.go:469-476 | no step for one wrapper touches the batch Jobs of another |
| `Namespaces.AtMostOneUnfinishedEach` | internal/controller/job_controller.go:153-181 | in every state of a namespace that started empty no wrapper has two live unfinished batch Jobs |
| `Status.SetConditionSets` | internal/controller/job_controller.go:100-102 | setting a condition replaces the one of its type or appends it, keeps types unique and leaves the others alone |
| `Status.SetOkSays` | internal/controller/job_controller.go:117-126 | afterwards there is exactly one Available, True, and one Degraded, False, both with the reason OK |
| `Status.SetFailedSays` | internal/controller/job_controller.go:103-115 | afterwards there is exactly one Available, False, with the message, and one Degraded, True, both with the reason Reconciling |
| `Status.SetOkIsIdempotent` | internal/controller/job_controller.go:117-126 | a second success changes no condition |
| `Controller.Reconciler.AddTtlExpiredAnnotation` | internal/controller/job_controller.go:337-342 | returns an error and leaves the store as the call met it, or the batch Job was there as listed and is the one that gets the mark |
| `Controller.Reconciler.DeleteBatchJob` | internal/controller/job_controller.go:243-256 | returns an error and leaves the store as the call met it, or deletes the batch Job with the listed UID |
| `Controller.Reconciler.ProcessBatchJobTtl` | internal/controller/job_controller.go:353-392 | per batch Job: deletion flag if marked before, delay if still running, else a mark call |
| `Controller.Reconciler.ProcessEach` | internal/controller/job_controller.go:273-284 | the first loop and the reversal give each listed batch Job its result, oldest first |
| `Controller.Reconciler.CullMarked` | internal/controller/job_controller.go:285-309 | the second loop with its counter makes a delete call for exactly the oldest min(k, n-1) marked batch Jobs, whether or not the calls fail, and collects the delays |
| `Controller.Reconciler.ProcessBatchJobsTtl` | internal/controller/job_controller.go:264-322 | the whole pass follows the specified steps and returns the shortest positive delay |
| `Controller.Reconciler.PruneHistory` | internal/controller/job_controller.go:232-260 | the loop with its counter makes a delete call for exactly the finished live batch Jobs beyond the limit |
| `Controller.Reconciler.DeleteOldBatchJobs` | internal/controller/job_controller.go:224-261 | the whole prune follows the specified steps |
| `Controller.Reconciler.RecordCollision` | internal/controller/job_controller.go:203-215 | the status write of a collision stores the bumped count, or leaves it to the write of the failure conditions |
| `Controller.Reconciler.CreateBatchJob` | internal/controller/job_controller.go:193-221 | creates, records a collision, or fails, and says so; it also says whether a bumped count is not stored yet |
| `Controller.Reconciler.ReportCreateFailure` | internal/controller/job_controller.go:176-181 | the write of the failure conditions stores a bumped count that was left over, and the reconcile has failed either way |
| `Controller.Reconciler.ListAndDecide` | internal/controller/job_controller.go:153-172 | decides on a fresh list whether to create |
| `Controller.Reconciler.GetJob` | internal/controller/job_controller.go:75-87 | returns the stored wrapper exactly when it is there and not being deleted |
| `Controller.Reconciler.Reconcile` | internal/controller/job_controller.go:72-185 | a run of the system; a wrapper that is gone or being deleted gets no call, no status write and no requeue, any other one a reconcile; every status write is coherent, the last one says whether it failed, a failure is an error, and without an error the stored conditions say Available |
| `Controller.Reconciler.ProcessNextWorkItem` | internal/controller/job_controller.go:72-185 | with the runtime's requeueing around it: after an error the wrapper is queued, and otherwise a requested delay is pending or beaten by an earlier one |
| `Controller.Reconciler.HandleResult` | internal/controller/job_controller.go:184 | an error queues the wrapper again and changes nothing else, a delay arms the requeue and changes nothing else |
| `Controller.Serve` | internal/controller/job_controller.go:595-616 | from the start of the controller on, for any number of queue items, the real state is one of a run, with one unfinished batch Job at most and coherent status writes; while users do not set the mark, each deleted batch Job had finished, and was past finish time plus TTL if it was deleted for its TTL |
| `Controller.CodeIsSafe` | internal/controller/job_controller.go:72-185 | the same at every point that the code can be at |
| `CronJobs.BatchNamesDiffer` | internal/construct/cronjob.go:51-53 | the batch CronJob is called after its wrapper, with -pxvcjob behind; wrappers have the same name for it exactly when they are the same |
| `CronJobs.ApplyIsIdempotent` | internal/controller/cronjob_controller.go:150-199 | an apply makes the object agree with the manifest; it changes nothing exactly when it agreed already |
| `CronJobs.ApplyIsExactIff` | internal/controller/cronjob_controller.go:171-199 | the result is the manifest itself exactly when the object has no other fields; those stay |
| `CronJobs.ApplySetsFields` | internal/controller/cronjob_controller.go:150-199 | field by field: the owner and the manifest's fields are set, all others stay as they are |
| `CronJobs.ReindexKeeps` | internal/controller/cronjob_controller.go:226-231 | an index updated wrapper by wrapper with the repository's key function equals a scan of the namespace |
| `CronJobs.HandlerFindsWhatAFullScanFinds` | internal/controller/cronjob_controller.go:235-260 | in every reachable state the handler's list of a PodProfile event consists of exactly the wrappers that refer to it; a list that fails enqueues nobody |
| `CronJobs.LostProfileEventIsHarmlessIff` | internal/controller/cronjob_controller.go:235-260 | a lost profile event leaves a wrapper in sync exactly when it refers to another profile, or the new one can be built from and the batch CronJob agrees with it already |
| `LostEvents.LostEventBreaksSync` | internal/controller/cronjob_controller.go:235-260 | for every construction that makes something else, or nothing, of a new profile: a run from the start to a wrapper at rest and in sync; after one lost event it is unqueued and not in sync |
| `CronJobs.QueuedOrInFlightOrInSync` | internal/controller/cronjob_controller.go:63-144 | in every run in which no profile event is lost a CronJob wrapper is queued, in flight, or its batch CronJob agrees with every field of the manifest built from the current wrapper and profile |
| `CronJobs.NothingIsDoneForIt` | internal/controller/cronjob_controller.go:74-78 | for a wrapper that is gone or being deleted a reconcile changes nothing but the queue |
| `CronJobs.NoReconcileOfADeletedWrapper` | internal/controller/cronjob_controller.go:66-135 | in every run a reconcile works with a wrapper that was not being deleted when it was read, and writes only what was built from such a wrapper |
| `CronJobs.OneReconcileSyncs` | internal/controller/cronjob_controller.go:63-199 | one undisturbed reconcile brings any batch CronJob into sync and touches no other |
| `CronJobs.InSyncIsAFixpoint` | internal/controller/cronjob_controller.go:63-199 | a reconcile of one in sync changes nothing and does not queue it again, and its status write changes no condition after a success |
| `CronController.PodProfileRequests` | internal/controller/cronjob_controller.go:235-260 | the loop that fills the request slice produces exactly the wrappers of a full scan, and none when the list fails |
| `CronController.Reconciler.ApplyBatchCronJob` | internal/controller/cronjob_controller.go:150-199 | get, then create or apply; without an error the object agrees with the manifest |
| `CronController.Reconciler.GetCronJob` | internal/controller/cronjob_controller.go:66-78 | returns the stored wrapper exactly when it is there and not being deleted |
| `CronController.Reconciler.Reconcile` | internal/controller/cronjob_controller.go:63-144 | a run of the system whose last status write says whether it failed; a wrapper that is gone or being deleted gets no call and no status write; without an error the stored conditions say Available |
| `CronController.Serve` | internal/controller/cronjob_controller.go:263-281 | whenever the controller comes to rest, and no profile event was lost, every wrapper is queued or in sync |

## Left out

- `Patch.ApplyRewritten`: unrooted paths, the removal of the root, and copy and move with other sources; `UnrootedEscapes`, `RemoveRootDeletesTheTemplate`, `CopyKeepsMeaningIff` and `MoveKeepsMeaningIff` say what becomes of them.
- `Patch.PatchLocalisation`: the equality of numbers in `test` is that of integers, and YAML marshalling is the identity.
- `Construct.SpecIsParametersAndPatchedTemplate`: the operations that `Patch.ApplyRewritten` leaves out.
- `AtMostOnce.AtMostOncePerSpec`: does not cover runs in which annotation updates fail, the controller crashes inside the marking loop, or users delete batch Jobs; `Crash.CreatedAgainAfterACrash` shows what a crash can do; the other two have no example.
- `TtlRuns.NoTtlIsForgotten`: needs the TTL pass to list and its updates not to be refused, because the reconcile drops the errors of the pass.
- `Requeues.WakeUpIsNotInVain`: needs the list of the TTL pass to come within two centuries of the clock reading, because delays wrap around.
- `CronJobs.InSyncIsAFixpoint`: the transition system has no event for a status write of the wrapper itself; the lemma says when there is none.
- `CronJobs.ReindexKeeps`: the incremental index is the cache library's; the repository supplies its key.
- `CronController.Reconciler.Reconcile`: one worker; the transition system itself allows one for every wrapper.
- `Controller.Reconciler.Reconcile`: a crash in the middle of the code is a step of the transition system, not of this class; the contents of the wrapper's status other than conditions and collision count are not modelled.
- The process that runs kustomize, temporary files, YAML, FNV hashing and SafeEncode.
- The construction of batch CronJobs, which copies fields; it is an arbitrary function here.
- Server-side-apply field ownership: dropped fields are not removed in the model.
- Stale informer caches, finalizers on batch Jobs, and rate limits of the queue.
