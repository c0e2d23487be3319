# Pulse CRM: a verified model

A Dafny model of the parts of Pulse CRM that hold algorithms or step protocols.
Tables are maps or sequences with their unique keys; a row-locked transaction is
one atomic step; a raised error leaves the tables as they were. Where the
program changes rows or objects step by step the model does so too: classes hold
the rows, their methods are proved against specification functions, and the
theorems are about those functions. `dafny verify dfyconfig.toml` checks all of it.

| files | what they model |
|---|---|
| `Licenses`, `Clusters`, `ContactClusterObjects`, `RenewalGroups` | rows of a subscription import, their contact clusters (on values and as objects merged in place) and renewal groups |
| `RenewalImport`, `RenewalPlan`, `RenewalEffects`, `RenewalPhase1`, `RenewalPhase2`, `RenewalPreview`, `RenewalReimport`, `RenewalRun` | the two-phase import: specification, what a dry run observes, what a real run changes, the theorems, and the import as statements |
| `RenewalAssign`, `RenewalInns`, `RenewalWritten`, `RenewalResult`, `RenewalReports` | what an import writes and reports, field by field: the contact of every licence, the company of every INN, deal, links, mappings and call of every group, errors, lines and counters |
| `ContactPoints`, `ContactRows`, `DealLinks`, `Phones` | the index of emails and phones, the links between deals and contacts, phone numbers |
| `AmoPages`, `AmoEntities`, `AmoImport`, `AmoProtocol`, `AmoTheorems`, `AmoLiveness` | the amoCRM import: cursors over the remote account and what they read, applying one page, workers, runner and administrators as a transition system, what holds over every run, and what can still happen from a state |
| `Stages`, `Purchases`, `PurchaseEffects`, `Inbound`, `InboundEffects`, `Keyset`, `CursorToken` | stage positions, next-purchase schedules, channel routing (each with what a request writes), pagination and its token |
| `Utf8`, `JsonStrings`, `WebPushPayload`, `PushDevices` | payloads and devices of browser notifications |
| `EventVisibility` | batched authorization of realtime events |
| `Prelude`, `Ranking` | shared vocabulary, sorted query results |

## What turned out not to hold

Each of these is stated with its exact condition or a concrete run.

- A dry run is not always a faithful preview. The real run raises exactly when a row it
  would write cannot be stored: a contact that a cluster is merged into holds a value
  that does not normalize (the amoCRM import keeps such values), or a company, a
  contact, an index row or an external id is too long for its column. All of it can be
  told from the rows and the database before the call:
  `RenewalPreview.PreviewIsFaithful`, `RenewalEffects.MergeNormalizesIff`,
  `RenewalReimport.PreviewCanMislead`, `RenewalReimport.LongNameMisleads`.
- A wake-up can be lost: a job may stay "running" for ever. Without an administrator
  the job never changes again exactly when no entry has an attempt left, queued or
  leased, and no live worker is about (a worker that will yet commit a page or record
  a failure; neither its lease nor its version matters, because the transaction that
  records a failure compares neither). This is neither implied by the present entry
  being given up nor does it imply that: `AmoLiveness.WakeUpLostIff`,
  `AmoLiveness.NoLostWakeUp`, `AmoLiveness.CrashesStrandAnImport`,
  `AmoLiveness.LateWorkerMoves`. The same question has an exact answer for another page
  being applied and for the import being finished: `AmoLiveness.StallsIff`,
  `AmoLiveness.FinishesIff`.
- "Succeeded" is not absorbing in general: a job leaves it exactly when a request that
  names the job's own version goes through. That never happens when clients send
  versions they have read: `AmoTheorems.LeavesSucceededIff`,
  `AmoTheorems.SucceededIsAbsorbing`, `AmoTheorems.ForeseenVersionBreaksAbsorption`.
- "Exactly one active schedule" fails for a date that comes back:
  `Purchases.UpdateSchedulesUnlessSpent`, `Purchases.DateThatComesBack`.
- Deleting a deal does not settle every pending due-soon event of the deal, only those of
  schedules that are active then: an event whose schedule was cancelled before, because
  the date moved or was removed, stays pending. What remains pending is told exactly, and no such event
  is ever expanded into a reminder, because a reminder needs an active schedule:
  `PurchaseEffects.DeletionLeavesPendingIff`, `PurchaseEffects.PendingOnlyOfReplaced`,
  `PurchaseEffects.PendingAfterDeletion`, `PurchaseEffects.NoReminderForDeleted`.
- A conversation may be left on a deal that is not open, and a first message may
  open two deals, when a connection's default stage is not open:
  `Inbound.NewMessageDeal`, `Inbound.ClosedDefaultStage`.
- Phone normalization is not idempotent for numbers written with two international
  prefixes: `Phones.IdempotentUnlessDoublePrefix`, `Phones.NotIdempotent`.
- Replacing the contacts of a deal can be refused by the unique key. The contacts are
  checked first and the links deleted later, and the contacts are not locked in
  between: the key refuses exactly when a requested contact passes the check, is
  linked, and is hidden from the delete, so only when it is reassigned or deleted
  between the two. With one snapshot it cannot happen: `DealLinks.UpdateRefusedIff`,
  `DealLinks.OneSnapshotNeverClashes`, `DealLinks.ReassignedMeanwhile`.
- The two phases of adding a stage are not free of clashes for every set of positions:
  the first is exactly if no two positions are one offset apart, the second exactly if
  the first left no row in the range of the final positions other than at its own:
  `Stages.ShiftSafeIff`, `Stages.RenumberSafeIff`, `Stages.NegativePositionsClash`.
  Both hold for non-negative positions (`Stages.NoClashInShift`,
  `Stages.NoClashInRenumber`), which the routes demand and preserve. A negative one
  can only come from the `sort` field of an amoCRM status
  (backend/app/integrations/amocrm_live.py:694-701).

## Model

| member | source | states |
|---|---|---|
| Clusters.ClustersAreComponents | backend/app/integrations/subscription_import.py:272-286 | two licences end up in one cluster if and only if a chain of licences, each sharing a phone or an email with the next, joins them |
| Clusters.ClusterInvariant | backend/app/integrations/subscription_import.py:272-286 | the clusters hold exactly the input rows, no two clusters share a phone or email, everybody in a cluster is joined by chains, and a row with neither phone nor email is alone |
| Clusters.ClusterCounts | backend/app/integrations/subscription_import.py:272-286 | a licence with a phone or email is in exactly one cluster, as often as it occurs in the input |
| Clusters.ClustersOrderIndependent | backend/app/integrations/subscription_import.py:272-286 | reordering the rows yields clusters with the same contents |
| Clusters.AbsorbSeparated | backend/app/integrations/subscription_import.py:275-285 | one round of the loop keeps clusters free of shared phones and emails |
| Clusters.AbsorbConserves | backend/app/integrations/subscription_import.py:275-285 | one round neither loses nor duplicates a licence |
| Clusters.AbsorbCohesive | backend/app/integrations/subscription_import.py:275-285 | merging on a new licence joins only licences that a chain through it joins |
| ContactClusterObjects.ContactCluster.Overlaps | backend/app/integrations/subscription_import.py:103-107 | the cached phone and email sets answer exactly whether some member shares a phone or email |
| ContactClusterObjects.ContactCluster.Add | backend/app/integrations/subscription_import.py:109-114 | the licence is appended and the cached sets stay those of the members |
| ContactClusterObjects.ContactCluster.Merge | backend/app/integrations/subscription_import.py:116-118 | the other cluster's licences are appended, the other is left alone |
| ContactClusterObjects.RemoveEqual | backend/app/integrations/subscription_import.py:285 | list.remove drops the first element that equals by fields, wherever it is |
| ContactClusterObjects.OnlyDuplicate | backend/app/integrations/subscription_import.py:285 | although list.remove compares fields, the element it drops is the very cluster that was merged |
| ContactClusterObjects.AbsorbLicense | backend/app/integrations/subscription_import.py:274-285 | merging objects in place refines the round on values |
| ContactClusterObjects.BuildContactClusters | backend/app/integrations/subscription_import.py:272-286 | the heap algorithm returns clusters whose licences are those of the value-level algorithm, in its order |
| Licenses.ExternalIdInjective | backend/app/integrations/subscription_import.py:141-143 | external ids never collide, whatever characters the prefix holds |
| Licenses.ExternalIdExample | backend/app/integrations/subscription_import.py:141-143 | the INN, a colon and the ISO date |
| RenewalGroups.BuildRenewalGroups | backend/app/integrations/subscription_import.py:253-269 | the dictionary loop and the sorts lose and repeat no row, put together exactly the rows of one INN and expiry, order groups by strictly increasing key and each group by LID |
| RenewalGroups.RenewalGroupsFacts | backend/app/integrations/subscription_import.py:253-269 | the groups partition the rows by (INN, expiry), are in strictly increasing key order, and each is ordered by LID |
| RenewalGroups.GroupKeysDiffer | backend/app/integrations/subscription_import.py:141-143 | two groups of one import never share an external id |
| RenewalPlan.DryRunIsPlan | backend/app/integrations/subscription_import.py:305-656 | a dry run never raises, writes nothing, and its outcome is a function of what can be observed in the initial database |
| RenewalPlan.ClusterStepSeen | backend/app/integrations/subscription_import.py:397-444 | a cluster step that goes through reports the same in both modes |
| RenewalEffects.ClusterStepEffect | backend/app/integrations/subscription_import.py:397-444 | a real cluster step raises exactly when the contact it would merge into, or create, cannot be stored; otherwise only that contact changes, by the cluster's values, and matches of disjoint clusters stay |
| RenewalEffects.MergeNormalizesIff | backend/app/integrations/identity.py:68-119 | a merge normalizes if and only if every value the contact already stores does; a new contact's values always do |
| RenewalEffects.MergeAbsorbs | backend/app/integrations/subscription_import.py:819-833 | a merge takes in the values of the cluster and keeps what was taken in before |
| RenewalEffects.MergedAgain | backend/app/integrations/subscription_import.py:819-833 | merging a cluster that was taken in changes no value |
| RenewalPhase1.RealClusters | backend/app/integrations/subscription_import.py:397-444 | all clusters of one INN: which one raises is told beforehand from what each contact gathers from the clusters that match it alone; otherwise each ends with the predicted number of matching contacts |
| RenewalPhase1.NotBlockedAgain | backend/app/integrations/subscription_import.py:397-444 | an INN that was processed is never blocked when the import comes back to it |
| RenewalPhase1.RealInn | backend/app/integrations/subscription_import.py:344-444 | one INN of a real run: raises exactly when its new company does not fit or a cluster is blocked; otherwise observed and reported as planned, other INNs untouched |
| RenewalPhase1.RealInns | backend/app/integrations/subscription_import.py:344-444 | framing between INNs: the observations made before phase 1 are still right when their INN is processed |
| RenewalAssign.ClusterAssigns | backend/app/integrations/subscription_import.py:397-444 | a cluster that matches at most one contact ends with one contact, the only one of the company with a phone or email of the cluster, which is remembered for its licences, has an assignee and a newer version than before |
| RenewalAssign.ClustersAssign | backend/app/integrations/subscription_import.py:397-444 | after all clusters of an INN, none of which matched several contacts, every row is remembered with the only live contact of the company that has its phone or email |
| RenewalInns.NewCompanyMade | backend/app/integrations/subscription_import.py:370-385 | a new company has the INN, the first of the longest customer names or a name made from the INN, and the first phone and first email there are |
| RenewalInns.InnsAssign | backend/app/integrations/subscription_import.py:344-444 | after phase 1 every INN without an error has exactly one live company, found or made from its rows, and a contact for every row; existing companies are untouched; existing contacts keep company, deletion mark and assignee (an empty one is filled), new ones have the assignee of the request |
| RenewalPhase2.WriteGroupEffect | backend/app/integrations/subscription_import.py:478-639 | one group of a real run is found again under its own external id, as updated or finalized, changes the lookup of no other group, and adds the rows it counts |
| RenewalWritten.WriteGroupWrites | backend/app/integrations/subscription_import.py:529-647 | one group, field by field: company, assignee, source, date and licences of its deal, target pipeline and stage and version 1 when new, pipeline and stage kept and version raised by one when known; links only appended; the group and every licence mapped to the deal; a new call with due time, assignee, deal, company and first contact, a known one left alone; and nothing else in deals, links, tasks and mappings changes |
| RenewalWritten.GroupsWrite | backend/app/integrations/subscription_import.py:465-650 | the same for all groups of phase 2, told from the tables phase 2 starts with: no group disturbs what another has written, and a live deal belongs to at most one group |
| RenewalPhase2.RealGroups | backend/app/integrations/subscription_import.py:478-639 | after phase 1, phase 2 raises exactly when a group that would be written has an external id too long for its column; otherwise each group is reported as observed at the start |
| RenewalPreview.PreviewIsFaithful | backend/app/integrations/subscription_import.py:305-656 | from the same database, dry run and real run give the same counts and group results if and only if no row is blocked, by a stored value that does not normalize or by the width of a column; the real run raises if and only if one is |
| RenewalPreview.CountsAreRows | backend/app/integrations/subscription_import.py:305-656 | a real run adds exactly as many companies, contacts, deals and tasks as it reports created, and keeps index and mappings well formed |
| RenewalResult.RunWrites | backend/app/integrations/subscription_import.py:305-656 | a whole real run, told from rows and initial tables: for every group not failed or finalized, the deal found under its external id has the live company of the INN, the assignee of the request, the source, the date and the licences, target pipeline and stage if new and its own otherwise; its links are the earlier ones and then the contacts of its licences, each once and in their order; every licence is mapped to it; its call is new with due time, assignee, deal, company and first contact, or is left alone; companies and contacts as told for phase 1; everything that belongs to no such group is as it was |
| RenewalReports.ReportsAre | backend/app/integrations/subscription_import.py:322-344 | dry or real: an INN fails exactly if it has several companies, or one company and a cluster that matches several of its contacts; the line of every group has its own group, the INN's number of clusters, and create, update, skip or the error as the initial tables tell; every counter is the number of INNs, clusters, groups or calls of its kind |
| RenewalReports.WidthsAre | backend/app/models.py:186-232 | the widths a company, a contact with its index rows and the external ids must keep to |
| RenewalReimport.ReimportReports | backend/app/integrations/subscription_import.py:344-514 | a second import of the same rows goes through and reports the first outcome with everything created turned into found; no cluster becomes ambiguous |
| RenewalReimport.ReimportCreatesNothing | backend/app/integrations/subscription_import.py:344-514 | with an open target stage the second run adds no row, "create" becomes "update", "skip" and errors stay |
| RenewalReimport.NotBlockedAgain | backend/app/integrations/subscription_import.py:344-639 | what a run went through with, a second run of the same rows is not refused |
| RenewalReimport.PreviewCanMislead | backend/app/integrations/subscription_import.py:305-656 | a concrete database, with a stored value that does not normalize, whose dry run succeeds and whose real run raises |
| RenewalReimport.LongNameMisleads | backend/app/integrations/subscription_import.py:370-385 | a row with a customer name of 241 characters and a new INN: the dry run announces a company that the real run cannot insert (String(240), backend/app/models.py:186) |
| RenewalRun.GroupByInn | backend/app/integrations/subscription_import.py:317-320 | the dictionary of rows by INN holds each INN's rows in order |
| RenewalRun.ImportRun.ProcessCluster | backend/app/integrations/subscription_import.py:397-444 | the statements for one cluster compute the specified step on the running counts, lookups and tables |
| RenewalRun.ImportRun.ProcessGroup | backend/app/integrations/subscription_import.py:465-650 | the statements for one group - refusals, lookups, counters, contacts, writes, result row - compute the specified step and raise exactly when it does; what the step writes is told by RenewalWritten.WriteGroupWrites |
| RenewalRun.ImportRun.UniqueContacts | backend/app/integrations/subscription_import.py:935-942 | the loop collects the contacts of a group's licences, each once and in order |
| RenewalRun.ImportRun.WriteRows | backend/app/integrations/subscription_import.py:529-647 | deal, links, mappings and task are written one after the other as RenewalWritten.WriteGroupWrites tells; the lookup of the task made before the writes is still right when the task is made, and the writes fail exactly for an external id that is too long |
| RenewalRun.ImportRun.AddDealContacts | backend/app/integrations/subscription_import.py:895-932 | the loop appends links for contacts that are not linked yet, primary only while there is none |
| RenewalRun.ImportRun.MapRows | backend/app/integrations/subscription_import.py:605-615 | the loop maps every licence of the group to the deal |
| RenewalRun.ImportRun.Run | backend/app/integrations/subscription_import.py:305-656 | the whole import as statements computes the specified outcome and tables, which RenewalResult.RunWrites and RenewalReports.ReportsAre tell, or raises and leaves the database as it was |
| ContactPoints.SyncedAgrees | backend/app/integrations/identity.py:68-119 | sync_contact_points fails exactly when a stored non-blank value does not normalize; otherwise the rows are the normalizations of the contact's values, without repeats, one primary per kind |
| ContactPoints.PointsOfFacts | backend/app/integrations/identity.py:80-110 | the rows of one kind carry exactly the normalized values, once each, and only the first is primary |
| ContactPoints.ImportedAgrees | backend/app/integrations/amocrm_live.py:1628-1667 | the importer's variant, which skips values that do not normalize, also leaves rows that agree with the contact |
| ContactPoints.InboundAgrees | backend/app/integrations/inbound.py:926-956 | a contact opened by inbound routing has rows that agree with it |
| ContactRows.SyncedRows | backend/app/integrations/identity.py:68-119 | each row stands for the first of the values - primary, then listed - that normalizes to its identity, stripped; it is primary if and only if only blank values come before it |
| ContactRows.ImportedRows | backend/app/integrations/amocrm_live.py:1628-1667 | each row of the importer stands for the first listed value that normalizes to its identity, as listed; primary if and only if no value before it normalizes |
| ContactRows.IndexableIs | backend/app/integrations/identity.py:68-119 | a contact can be indexed exactly if every value that is not blank normalizes and no row has a value or normalized value of more than 512 characters |
| ContactRows.InboundIs | backend/app/integrations/inbound.py:926-956 | the fields of a contact that routing opens, when its values are refused, and its rows |
| ContactPoints.ContactBook.Create | backend/app/api/crm.py:692-731 | creating a contact stores it with the specified rows and keeps the index in agreement; it fails exactly for a value that does not normalize or whose index row is too long for its columns |
| ContactPoints.ContactBook.Update | backend/app/api/crm.py:734-819 | so does updating one; a failure changes nothing |
| ContactPoints.ContactBook.Delete | backend/app/api/crm.py:843-862 | deleting a contact leaves it without rows |
| ContactPoints.ContactBook.Import | backend/app/integrations/amocrm_live.py:836-897 | the amoCRM writer overwrites the mapped contact or adds one, with the first listed value as primary, and keeps the agreement; a mapped contact that is marked deleted stays so and has no rows |
| ContactPoints.ContactBook.SyncImported | backend/app/integrations/amocrm_live.py:1628-1667 | the loop over listed values skips what does not normalize or repeats, and writes nothing for a deleted contact |
| ContactPoints.ContactBook.Inbound | backend/app/integrations/inbound.py:926-956 | inbound routing keeps the agreement |
| ContactPoints.ContactBook.MatchContactPoint | backend/app/integrations/identity.py:122-151 | the indexed lookup returns the same contacts as a scan of all live contacts and their values |
| DealLinks.CreatedConsistent | backend/app/api/crm.py:2110-2120 | a new deal links each given contact once and has one primary link if any |
| DealLinks.ReplacedConsistent | backend/app/api/crm.py:2248-2291 | a replacement that goes through links exactly the new and the hidden contacts, once each, with at most one primary link, and with one whenever a contact is named |
| DealLinks.UpdateRefusedIff | backend/app/api/crm.py:2181-2291 | an update is answered "not found" exactly when a requested contact fails the check, and refused by the unique key exactly when all pass it and one is linked and hidden from the delete |
| DealLinks.OneSnapshotNeverClashes | backend/app/api/crm.py:2181-2291 | when check and delete see the same contacts, and always for an administrator, the key never refuses |
| DealLinks.ReassignedMeanwhile | backend/app/api/crm.py:2181-2291 | a contact reassigned between check and delete makes the key refuse |
| DealLinks.AddedConsistent | backend/app/integrations/subscription_import.py:895-932 | the subscription import only appends missing contacts, the first of them as primary if there was no primary link, and keeps the links consistent |
| DealLinks.SyncedConsistent | backend/app/integrations/amocrm_live.py:1012-1084 | the amoCRM sync leaves consistent links; with mapped contacts a link is primary if and only if it is to the contact of the first main entry, or of the first entry when none is main |
| DealLinks.Deal.Create | backend/app/api/crm.py:2110-2120 | the loop links exactly the given contacts, once each, the first as primary |
| DealLinks.Deal.Replace | backend/app/api/crm.py:2181-2291 | check, delete and insert: which refusal happens when, that a refusal leaves the links, and that otherwise exactly the named and the hidden contacts are linked, hidden links unchanged, with a primary one if a contact is named |
| DealLinks.Deal.AddImported | backend/app/integrations/subscription_import.py:895-932 | the loop of the subscription import computes the specified links |
| DealLinks.Deal.SyncImported | backend/app/integrations/amocrm_live.py:1012-1084 | the loops of the amoCRM sync compute the specified links, of which exactly that one is primary |
| DealLinks.Deal.FromInbound | backend/app/integrations/inbound.py:1011-1019 | a deal opened by inbound routing has one link, to its contact and primary, or none if the contact is unknown |
| AmoPages.StepDecreases | backend/app/integrations/amocrm_live.py:408-478 | every step of the cursor makes (entity types left, partitions left, pages left, offset left) lexicographically smaller |
| AmoPages.FollowEntity | backend/app/integrations/amocrm_live.py:408-478 | however many rows its pages hold, following one entity type from its start yields exactly its kept rows, each once and in order |
| AmoPages.FollowStages | backend/app/integrations/amocrm_live.py:408-436 | from any cursor, stages flattened across pipeline pages by offset yield the rest of the page and all later pages, nothing lost or repeated |
| AmoPages.FollowPartitions | backend/app/integrations/amocrm_live.py:438-478 | partitions are read one after the other, page by page, completely |
| AmoPages.FollowIsEverything | backend/app/integrations/amocrm_live.py:1693-1729 | an "all" import visits the entity types in their fixed sequence and its pages are exactly all kept rows |
| AmoEntities.WhatIsRead | backend/app/integrations/amocrm_live.py:352-592 | of each entity type exactly the rows that count: stages of all pipelines under pipeline and stage id, custom fields and ordinary notes of the three kinds of parents under the name of the parent and their id, tasks that are not completed, and all rows of the other lists |
| AmoImport.CountsEveryEntity | backend/app/integrations/amo.py:181-231 | the five counters grow by exactly the number of entities |
| AmoImport.MapsEveryEntity | backend/app/integrations/amo.py:188-224 | after a real application every entity is mapped with its current fingerprint and every other mapping is as before |
| AmoImport.MapsToWrittenRow | backend/app/integrations/amo.py:188-224 | after a real application an entity whose fingerprint was current keeps its mapping; every other one is mapped to the id the writer returns for it and for the internal id mapped before the page, or none |
| AmoImport.FingerprintIsData | backend/app/integrations/amo.py:50-62 | for entities of one key fingerprints are equal if and only if the data are; companies, deals and notes are fingerprinted with their schema version |
| AmoImport.CountsByData | backend/app/integrations/amo.py:181-231 | told by the data that were applied last under each key: an entity without a mapping is counted created, one with the same data unchanged, one with other data updated; a dry run announces the same |
| AmoImport.RemembersData | backend/app/integrations/amo.py:188-224 | the mapping remembers the data applied last, so this is so for every later page |
| AmoImport.RowsStay | backend/app/integrations/amo.py:188-224 | with a writer that updates in place, a mapped key keeps its internal row through a page |
| AmoImport.ReapplyingIsIdempotent | backend/app/integrations/amo.py:188-224 | applying the page again only counts "unchanged" |
| AmoImport.DryAnnouncesReal | backend/app/integrations/amo.py:188-196 | a dry application leaves the map alone and announces the created/updated split of the real one |
| AmoImport.LookupsStayValid | backend/app/integrations/amo.py:163-179 | the mappings looked up before the loop are still right inside it |
| AmoImport.ImportJob.ApplyEntities | backend/app/integrations/amo.py:188-224 | the loop over a page computes the specified map and counters; an update is written to the row that was mapped |
| AmoImport.ImportJob.ApplyPage | backend/app/integrations/amo.py:148-237 | which error a page is refused with, and that an error changes nothing; otherwise map, counts, status, cursor and version are exactly the specified ones |
| AmoImport.ImportJob.Pause | backend/app/integrations/amo.py:240-243 | only a pending or running job is paused, with a new version |
| AmoImport.ImportJob.Resume | backend/app/integrations/amo.py:246-251 | only a paused or failed job is resumed, with a new version and no error |
| AmoImport.ImportJob.Fail | backend/app/integrations/amo.py:254-257 | the job fails with the error cut to 4000 characters |
| AmoProtocol.InvRun | backend/app/integrations/amocrm_live.py:1785-1898 | the invariant - order of pages, snapshots right at the current version, requests checked against the current status, fresh keys, one entry for the present version that is not acknowledged while the job runs - holds in every reachable state |
| AmoProtocol.OrderStep | backend/app/integrations/amocrm_live.py:1844-1898 | every action keeps what was applied an initial part of the sequential pass |
| AmoProtocol.AwakeStep | backend/app/integrations/amocrm_live.py:1844-1898 | after every action a running import has an entry queued for its present version that was not acknowledged: it waits, is leased to a worker that is gone or not through with that version, or was given up |
| AmoProtocol.OneCurrentStep | backend/app/integrations/amocrm_live.py:1844-1898 | and never two |
| AmoProtocol.RequestsStep | backend/app/integrations/admin_api.py:1568-1655 | a pause or resume whose expected version is still current was checked against the current status |
| AmoProtocol.KeysStep | backend/app/services/jobs.py:146-208 | versions in dedupe keys have been reached, leases belong to their workers, the report is asked for once |
| AmoTheorems.PagesInOrderOnce | backend/app/integrations/amocrm_live.py:1785-1898 | over every interleaving the applied pages are an initial part of the sequential pass, without repetition, and map and counts are those of that part |
| AmoTheorems.AppliesPageAtCursor | backend/app/integrations/amocrm_live.py:1844-1898 | only a commit at the current version changes map, counts or cursor, and it applies the page that a fetch at the job's own cursor returns |
| AmoTheorems.SucceededIsSequentialPass | backend/app/integrations/amocrm_live.py:1785-1898 | a succeeded import leaves the map and counts of applying all kept rows once, in order, to the map it started with |
| AmoTheorems.MappedRowsStay | backend/app/integrations/amo.py:188-224 | over every run, with a writer that updates in place, a key that was mapped at the start still has its internal row |
| AmoTheorems.NewKeysAreFresh | backend/app/integrations/amocrm_live.py:1880-1898 | every page, resume and report key that is queued was never used before |
| AmoTheorems.LeavesSucceededIff | backend/app/integrations/admin_api.py:1568-1655 | in any state a succeeded job changes its status if and only if a pending request that names its present version is carried out |
| AmoTheorems.SucceededIsAbsorbing | backend/app/integrations/admin_api.py:1568-1655 | with versions that clients have read, a succeeded job never changes again apart from its report |
| AmoTheorems.ForeseenVersionBreaksAbsorption | backend/app/integrations/admin_api.py:1568-1655 | a client that names the next version can pause an import that has succeeded |
| AmoTheorems.AskQueues | backend/app/integrations/admin_api.py:1568-1655 | a resume is taken for a paused or failed job only, a pause for a pending or running one only, each with the version that was read |
| AmoTheorems.OversizedPageFails | backend/app/integrations/amocrm_live.py:1785-1898 | a page of more than 250 entities fails a running import at once, without a retry; a smaller one is taken on |
| AmoLiveness.WakeUpLostIff | backend/app/services/jobs.py:346-399 | in any state of a pending or running import: no continuation without an administrator changes the job if and only if no entry has an attempt left and no live worker is about |
| AmoLiveness.NoLostWakeUp | backend/app/integrations/amocrm_live.py:1844-1898 | over every run: exactly one entry was queued for the present version, nothing is lost while it has attempts left, and when no other entry or live worker is left the wake-up is lost if and only if its attempts are used up |
| AmoLiveness.StallsIff | backend/app/integrations/amocrm_live.py:1785-1898 | over every run: no continuation without an administrator applies another page if and only if the next page cannot be applied, or no entry has an attempt left and no worker has seen the present version or has still to look |
| AmoLiveness.FinishesIff | backend/app/integrations/amocrm_live.py:1785-1898 | over every run: some continuation without an administrator finishes the import if and only if every page ahead can be applied and such an entry or worker is left |
| AmoLiveness.Completes | backend/app/integrations/amocrm_live.py:1785-1898 | the finishing continuation, page by page |
| AmoLiveness.RunOn | backend/app/integrations/amocrm_live.py:1785-1898 | a continuation from a reached state is a longer run |
| AmoLiveness.CrashesStrandAnImport | backend/app/services/jobs.py:346-399 | runs whose attempts all end with a lost lease leave a running import lost: with the last worker already, while its lease still stands, and after the entry is given up |
| AmoLiveness.LateWorkerMoves | backend/app/services/jobs.py:346-399 | a run whose entry is given up although nothing is lost: the last worker is only late |
| Utf8.DecodeEncode | backend/app/integrations/web_push.py:436-440 | decoding undoes UTF-8 encoding for every text |
| Utf8.TruncateIsLongestPrefix | backend/app/integrations/web_push.py:436-440 | the truncation is the longest whole-character prefix that fits the bytes |
| JsonStrings.EscapeSize | backend/app/integrations/web_push.py:463-473 | escaping makes a text at most six times as large and never smaller |
| JsonStrings.ReadQuoted | backend/app/integrations/web_push.py:463-473 | a reader of JSON strings gets back every escaped text |
| WebPushPayload.BuildPayload | backend/app/integrations/web_push.py:459-477 | the loop terminates with at most 3000 bytes, the body being the truncated one or that shortened once |
| WebPushPayload.ShorteningFits | backend/app/integrations/web_push.py:474-477 | one shortening is always enough |
| WebPushPayload.EmptyBodyFits | backend/app/integrations/web_push.py:459-477 | what surrounds the body leaves room even with every character of the title escaped to six |
| WebPushPayload.PrefixShrinks | backend/app/integrations/web_push.py:477 | every raw byte taken from the body takes at least one byte from the payload |
| WebPushPayload.ShownIsPrefix | backend/app/integrations/web_push.py:459-477 | title and body shown are whole-character prefixes of the originals within their limits, and a payload that fits is not shortened |
| WebPushPayload.PayloadReadsBack | backend/app/integrations/web_push.py:463-473 | whatever the texts contain, the payload reads back as exactly the title, body, url and tag |
| WebPushPayload.PayloadTells | backend/app/integrations/web_push.py:443-477 | what the browser reads: the longest prefix of the subject, or of the name of the application, within 240 bytes; the longest prefix of the body within 2600 bytes, and within what the first attempt left minus eight bytes when that was too long; a link to the deal or task that a readable id names, or to the start page; the tag with the id; and the exact text of the object |
| PushDevices.Subscriptions.Register | backend/app/integrations/web_push.py:139-260 | the upsert, the removal of useless rows and the cut at ten compute the specified table; an error changes nothing |
| PushDevices.Subscriptions.Delete | backend/app/integrations/web_push.py:263-277 | exactly the employee's row of the endpoint goes, and the answer says whether there was one |
| PushDevices.Subscriptions.Record | backend/app/integrations/web_push.py:646-672 | the loop over outcomes updates exactly the rows that still belong to their employee |
| PushDevices.RegisterKeepsNewest | backend/app/integrations/web_push.py:139-260 | a registration stores its row with all its fields, changes no other row it keeps, touches no other owner's rows save the one taken over, keeps no other own row that is inactive or expired, and drops an own row only if it is inactive, expired, or ten others are kept that were updated later or at the same time with a larger id |
| PushDevices.RecordedByLastOutcome | backend/app/integrations/web_push.py:646-672 | after recording, a row is as the last outcome that concerns it says: active if delivered or retryable, otherwise disabled now; other rows are as before |
| PushDevices.RecordedSuccess | backend/app/integrations/web_push.py:646-672 | the last success of a row is now if any outcome that concerns it succeeded, otherwise as it was |
| PushDevices.StepKeepsValid | backend/app/integrations/web_push.py:139-277 | each operation keeps endpoints unique and everybody at ten rows or fewer |
| PushDevices.DeviceCap | backend/app/integrations/web_push.py:139-277 | so over every run of registrations, removals and results nobody has more than ten devices |
| Ranking.RankedSorts | backend/app/integrations/web_push.py:235-251 | an ORDER BY list has exactly the rows, each once, best first |
| Ranking.DropAfter | backend/app/integrations/web_push.py:252-256 | cutting it after n rows keeps the n best |
| Stages.Pipeline.CreateStage | backend/app/api/crm.py:1049-1098 | the two phases on the row objects produce exactly the renumbered rows; at the limit nothing changes |
| Stages.Pipeline.DeleteStage | backend/app/api/crm.py:1169-1245 | the checks in order, and the removal of exactly that row |
| Stages.DeletionIs | backend/app/api/crm.py:1169-1245 | each refusal exactly when it applies, in order: unknown, stale version, not open, in use, no other open stage; a refusal changes nothing, otherwise exactly the row goes |
| Stages.RenumberedFacts | backend/app/api/crm.py:1074-1098 | positions are 0..n, old rows keep their order and fields, and a version grows if and only if its row moved |
| Stages.InsertedBeforeClosed | backend/app/api/crm.py:1074-1081 | the new stage sits just before the first stage that is not open |
| Stages.ShiftSafeIff | backend/app/api/crm.py:1068-1072 | the first phase can write its rows in any order without two rows sharing a position if and only if no two positions are one offset apart |
| Stages.RenumberSafeIff | backend/app/api/crm.py:1090-1098 | so can the second, with or without the new row, if and only if no shifted row stands in the range of the final positions other than at its own |
| Stages.NoClashInShift | backend/app/api/crm.py:1068-1072 | so with non-negative positions in the first phase no two rows share a position whatever rows are already written |
| Stages.NoClashInRenumber | backend/app/api/crm.py:1090-1098 | nor in the second phase, with or without the new row |
| Stages.PhasesMeet | backend/app/api/crm.py:1068-1098 | all rows written, the phases lead from the old positions to the final ones |
| Stages.NegativePositionsClash | backend/app/api/crm.py:1068-1072 | with negative positions an intermediate write can clash |
| Stages.StagesStayValid | backend/app/api/crm.py:1049-1245 | over every run of additions and deletions positions stay unique and non-negative, open stages come first, and one open stage remains |
| Purchases.Tables.CreateSchedule | backend/app/integrations/purchases.py:35-89 | insert-if-absent: a row is added exactly when the occurrence does not exist |
| Purchases.Tables.Sync | backend/app/api/crm.py:1575-1676 | the loops over the active rows compute the specified result; a refused request is undone |
| Purchases.Tables.EnsureTask | backend/app/integrations/purchases.py:92-159 | an active schedule gets its follow-up work item once, together with its event; later calls return it |
| Purchases.Tables.DeleteDeal | backend/app/api/crm.py:2365-2402 | deleting a deal cancels its active schedules; exactly their open tasks are dropped with a new version, exactly their unprocessed events are marked processed now, and every other task and event is as it was |
| Purchases.DeletionWrites | backend/app/api/crm.py:2365-2402 | the same of the specified tables, by quantifiers over tasks, schedules and events |
| Purchases.Tables.DeleteTask | backend/app/api/crm.py:2817-2870 | the statements of deleting a task compute the specified tables |
| Purchases.TaskDeletionWrites | backend/app/api/crm.py:2817-2870 | deleting a task removes it, cancels exactly the schedules it belongs to, which forget it, and marks exactly their unprocessed events processed now |
| PurchaseEffects.SyncWrites | backend/app/api/crm.py:1575-1676 | everything a sync writes: an active schedule for the deal's date follows contact and assignee, active ones for other dates are cancelled, a missing occurrence is added with its reminder a week before, and exactly the open task of the schedule for the date follows the assignee |
| PurchaseEffects.UpdateFollows | backend/app/api/crm.py:2173-2303 | an update that sets date, assignee or contacts is followed by the schedule, or refused, and then changes nothing, exactly for an employee and an open task of somebody else; any other update changes nothing but the deal; a stale version changes nothing |
| PurchaseEffects.DealsWritten | backend/app/api/crm.py:2098-2402 | what each request makes of the deals, field by field |
| PurchaseEffects.TaskWritten | backend/app/integrations/purchases.py:92-159 | the follow-up task has deal, contact and assignee of its schedule and is due at the purchase; the schedule remembers it; its event becomes available at the reminder; nothing else changes |
| PurchaseEffects.TaskRefused | backend/app/integrations/purchases.py:92-159 | when no task is made, and which error says so |
| PurchaseEffects.NoReminderForDeleted | backend/app/integrations/runtime.py:852-868 | in every reachable state an event that would be expanded into reminders belongs to a live deal |
| PurchaseEffects.DeletionLeavesPendingIff | backend/app/api/crm.py:2365-2402 | after a deletion an event of the deal is pending if and only if it was and its schedule had already been cancelled |
| PurchaseEffects.PendingOnlyOfReplaced | backend/app/api/crm.py:2098-2402 | in every reachable state a pending event of a deleted deal is of a schedule that is cancelled but was never completed, as a change of date leaves it and a deletion does not |
| PurchaseEffects.PendingAfterDeletion | backend/app/api/crm.py:2098-2402 | a run that leaves such an event: the date moves, then the deal is deleted |
| Purchases.SyncAligns | backend/app/api/crm.py:1575-1676 | the sync restores the alignment of schedule and date, and ends with an active schedule if and only if the occurrence is not spent |
| Purchases.StepKept | backend/app/api/crm.py:2098-2402 | every request keeps the invariant and no cancelled schedule comes back |
| Purchases.DeleteTaskKept | backend/app/api/crm.py:2817-2862 | deleting a follow-up work item cancels its schedule and keeps the invariant |
| Purchases.AtMostOneAndAligned | backend/app/api/crm.py:1575-1676 | in every reachable state a deal has at most one active schedule, for its own date and only while it lives |
| Purchases.ActiveUnlessSpent | backend/app/api/crm.py:1575-1676 | a live deal with a date has an active schedule if and only if that occurrence was not cancelled |
| Purchases.UpdateSchedulesUnlessSpent | backend/app/api/crm.py:2292-2303 | told beforehand: an update of a dated deal is refused and changes nothing if an active schedule for that date has an open task of somebody else than the employee; otherwise it leaves an active schedule if and only if that occurrence does not exist in a cancelled state |
| Purchases.SyncRefusedIff | backend/app/api/crm.py:1617-1638 | the sync is refused exactly for such a task |
| Purchases.CancelledForGood | backend/app/api/crm.py:1596-1625 | a schedule that stopped being active never becomes active again |
| Purchases.OneTaskOneEvent | backend/app/integrations/purchases.py:92-159 | over a whole run a schedule gets at most one task and one due-soon event |
| Purchases.RemindersRun | backend/app/integrations/purchases.py:45-159 | over every run reminders are a week ahead of the purchase and every due-soon event becomes available exactly then |
| Purchases.DateThatComesBack | backend/app/integrations/purchases.py:65-72 | a run with dates A, B, A that leaves a live, dated deal without an active schedule |
| Keyset.PageFacts | backend/app/api/crm.py:136-150 | a page shows the newest rows made before the cursor, by time and then id, newest first, and ends the list exactly if there are no more |
| Keyset.TraversalIsComplete | backend/app/api/crm.py:136-150 | with any inserts and deletes between pages: strictly descending, nothing twice, nothing that was not there, everything that was there throughout |
| Keyset.TraversalEnds | backend/app/api/crm.py:136-150 | while rows are only deleted the list ends after at most as many requests as there were rows, and one |
| CursorToken.TokenRoundTrip | backend/app/pagination.py:18-35 | for every list of bytes the padding stripped is the padding put back, and decoding undoes encoding |
| CursorToken.CursorRoundTrip | backend/app/pagination.py:18-35 | a token decodes to the cursor it was made from |
| EventVisibility.VisibleEventIds | backend/app/api/events.py:125-208 | the batched authorization returns an event if and only if it would be allowed alone |
| EventVisibility.GroupedQuery | backend/app/api/events.py:76-122 | the query for a type returns exactly the given ids that the user may see one by one: rows of the workspace that are not deleted, and for an employee only their own, companies through a deal or contact of theirs, messages through the deal of the conversation |
| EventVisibility.AllowedIs | backend/app/api/events.py:132-206 | who gets an event: a change of access and a notification only the user they name, the notification only if it was sent to that user in the workspace about a deal or task the user may see; any other event whoever may see its entity |
| EventVisibility.Collect | backend/app/api/events.py:132-158 | the first loop sorts events by entity type and delivery without losing or mixing any |
| EventVisibility.AuthorizeEntities | backend/app/api/events.py:160-169 | one query per type decides every entity event |
| EventVisibility.AuthorizeDeliveries | backend/app/api/events.py:171-206 | deliveries and their targets, queried in groups, decide every notification event |
| Inbound.Tables.Deliver | backend/app/integrations/inbound.py:198-372 | the routing statements compute the specified result; an error undoes the transaction |
| Inbound.Tables.ResolveSender | backend/app/integrations/inbound.py:230-277 | identity, address fallback or a new contact, with its identity and address |
| Inbound.Tables.OpenConversationDeal | backend/app/integrations/inbound.py:375-407 | the conversation keeps an open live deal or gets a new one |
| InboundEffects.RouteIs | backend/app/integrations/inbound.py:410-436 | each refusal of a connection exactly when it applies, in order; otherwise the default pipeline with a default stage of that pipeline and an active assignee |
| InboundEffects.RefusedIff | backend/app/integrations/inbound.py:198-372 | in every state with unique keys a message is refused exactly for its route, or because an unknown e-mail sender whose address does not normalize starts a thread |
| InboundEffects.FoundIsFreshest | backend/app/integrations/inbound.py:959-984 | a found deal is open, live, in the pipeline and linked to the contact, and no other such deal was active later, or at the same time but created later; none is found exactly if there is none |
| InboundEffects.SenderResolved | backend/app/integrations/inbound.py:230-277 | a remembered sender is the contact remembered; otherwise the one contact with the address, who is remembered; several make it ambiguous and nothing is written; none makes a new contact with identity and address |
| InboundEffects.FirstMessageWrites | backend/app/integrations/inbound.py:278-372 | after the first message of a thread its conversation has the resolved contact, is for review if and only if the sender was ambiguous, and has the freshest deal the contact can join, or a new one in the default stage linked to the contact; message, activity and versions; every other row as it was |
| InboundEffects.KnownThreadWrites | backend/app/integrations/inbound.py:214-407 | a new message in a known thread looks nobody up, reopens a closed conversation (for review without a contact), keeps its deal if that is open and live and opens one in the default stage otherwise, stores the message with a reply only to a message of the thread; every other row as it was |
| InboundEffects.DeletionWrites | backend/app/api/crm.py:843-862 | deleting a contact marks it and removes exactly its addresses and identities |
| Inbound.SenderRemembered | backend/app/integrations/inbound.py:230-277 | a sender that was resolved once is resolved to the same contact again, without any write |
| Inbound.NoMatchNoIdentity | backend/app/integrations/identity.py:154-191 | an identity that is not matched does not exist, so inserting it cannot break the unique key, and a match is never ambiguous |
| Inbound.DeleteContactKept | backend/app/api/crm.py:843-862 | deleting a contact leaves no identity behind |
| Inbound.RoutedKept | backend/app/integrations/inbound.py:198-372 | a delivery never trips over the identity key, keeps all unique keys, takes nothing back, and its message is there afterwards |
| Inbound.InvRun | backend/app/integrations/inbound.py:198-372 | in every reachable state one conversation per thread, one message per provider id, identities unique and of live contacts |
| Inbound.ReplaySafe | backend/app/integrations/inbound.py:214-222 | a delivery that went through can be repeated at any later time without changing anything |
| Inbound.NewMessageDeal | backend/app/integrations/inbound.py:278-407 | after a new message the conversation's deal is open and live if and only if such a deal was found or the default stage is open; and how many deals were made |
| Inbound.ClosedDefaultStage | backend/app/integrations/inbound.py:278-407 | a first message that makes two deals because the default stage is not open |
| Phones.IdempotentUnlessDoublePrefix | backend/app/integrations/identity.py:48-61 | a normalized number normalizes to itself if and only if the written one did not start with two international prefixes (twelve digits excepted) |
| Phones.NotIdempotent | backend/app/integrations/identity.py:48-61 | "0000123456789" is stored as "+00123456789", which normalizes to "+123456789" |
| Phones.NationalForms | backend/app/integrations/identity.py:55-58 | the ways to write one national number normalize to the same |
| Phones.OtherNumbers | backend/app/integrations/identity.py:48-61 | any other number is kept as it is, with or without the prefix 00, exactly if it has 8 to 15 digits |

## Left out

- HTTP, request validation, OAuth, S3, pywebpush, spreadsheet parsing: parsed rows, remote pages and request fields are inputs.
- Texts: stripping, email and phone normalization, lower-casing and the search for a phone extension are parameters with the laws that are used; the rules on phone digits are modelled.
- Digests and ciphers: SHA-256 fingerprints and endpoint hashes are taken as injective, encrypted subscriptions as opaque text.
- Ids: new ids come from a counter instead of random UUIDs, so freshness is part of the model; a device row's id is an input, and an id already in use is refused by the primary key.
- Clock: times are integers that the caller passes in; time zones are not modelled.
- Names, titles, tags, custom fields, notes, domain events, audit events and stage history: written beside the modelled rows, never read by them.
- RenewalPreview.PreviewIsFaithful: of what the database may refuse, the widths of the columns written are modelled; other refusals (a NUL character, a constraint broken by a concurrent request, a lost connection) are not.
- ContactPoints.ContactBook.Inbound: the widths of the columns are not modelled for contacts that routing opens; the amoCRM writer cuts its values to fit, and the request schemas bound the primary ones.
- RenewalResult.RunWrites: takes from the parser that rows with one LID and expiry are one row (its dictionary, subscription_import.py:230-240), and from the tables that a live deal is mapped by at most one group, which it proves every run to keep.
- RenewalReimport.ReimportReports: speaks of the same parsed rows; that parsing a file twice gives the same rows is not modelled.
- ContactPoints.ContactBook.Import: a mapped contact whose row is gone altogether is not modelled; contacts are only ever marked deleted.
- DealLinks.Deal.Replace: its two reads of the contacts are inputs; how another request changes contacts in between is not modelled.
- DealLinks.Deal.SyncImported: takes the contact ids after the lookup in the external-id map and after the removal of repeats.
- AmoPages: rows without identifiers, for which the program raises, are the failing fetch of the protocol.
- AmoImport: what the writer does to CRM rows is not modelled, only the id it returns, as a function of the entity and the mapped id; that it returns the mapped id is a condition of the two statements that need it (RowsStay, MappedRowsStay).
- AmoProtocol: the job runner is modelled from backend/app/services/jobs.py (claim, lease, acknowledge, retry, recovery; five attempts), delays and priorities are not; a fetch failure is one action whatever its cause; one import at a time.
- AmoProtocol.TimeOutStep: a handler may be cancelled at any point, also when its last transaction is through; this allows at least the runs of the program, whose cancellation can arrive only until the handler has returned.
- AmoProtocol.Owns: a lease belongs to one claim, where the program's lease names the worker process; that a stalled handler acknowledges an entry which its own process has claimed again is not modelled.
- AmoLiveness.FinishesIff: shows that a finishing run exists; fairness of the runner is not modelled.
- Ranking.RankedSorts: rows that compare equal in a query are put in an order by the id, where the database leaves the order open.
- PushDevices.Subscriptions.Register: registrations of different employees are atomic steps; the row lock that serializes those of one employee is not modelled further.
- Stages.StagesStayValid: pipelines start valid; the amoCRM import, which writes positions of its own, is not one of the operations.
- Stages.Pipeline.DeleteStage: whether the stage is referenced elsewhere is an input.
- Purchases.StepKept: the subscription and amoCRM imports write dates without the sync and are not among the requests; the first contact of the deal is an input; notification deliveries are not modelled, only which events are expanded into them.
- CursorToken.CursorRoundTrip: times and ids are taken as their texts; the leniency of Python's base64 decoder towards characters outside the alphabet is not modelled, those are an error here; characters beyond ASCII, which neither times nor ids contain, would be escaped differently.
- Keyset.TraversalIsComplete: search filters are part of what a table snapshot contains.
- Inbound.Tables.Deliver: channel messages only; structured leads from forms and webhooks, attachments, outbound messages and the creation of sources are not modelled. A connection's assignee check is an input.
- EventVisibility.VisibleEventIds: event ids are distinct, as the primary key of the table ensures.
- Concurrency of the CRM requests: each is one step, but for the two reads of DealLinks.Deal.Replace; only the amoCRM import is modelled with interleavings inside a request.
