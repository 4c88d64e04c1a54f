# Verified model of the AITeamOS governance core

A Dafny model of the parts of AITeamOS that carry state across calls, and proofs about them. `dafny verify dfyconfig.toml`
checks the whole project. Each source file is modelled in its own form: services that load a list, edit it and save it are
classes whose fields are those lists; loops are loops; expression code is functions.

## What is modelled

**The Asset registry** (`RegistryModel`, `RegistryInvariants`, `AssetRegistry`). The candidate list, the approved
AssetRecords, the review log, the Graphiti ingestion audit and the Tickets' reports. `RegistryModel` says what each
operation computes from the stores it loads; the class `AssetRegistry` holds the stores as fields and runs the operations
on them, each proved to reach exactly that result and to keep `Valid()`. `RegistryInvariants` proves over every sequence of
operations, mixed with what other services do to the same files, that the lists behave as maps, that links between the
stores stay valid and that review ids never repeat. `ReviewOutcomes`, `SyncOutcomes`, `ProjectionOutcomes` and
`CloseoutOutcomes` tell what each operation leaves behind, field by field and without the code that does it, and `Targets`
which records a settlement takes. `BatchReview`, `Projection` and `Settlement` hold further results about single
operations, `Coverage`, `Convergence` and `Repetition` those about repeating a settlement, and
`Eviction` a settlement whose repetition does not converge.

**Retrieval evaluation and ranking** (`Retrieval`, `Ranking`). Which expected ids the retrieved items account for, and the
order in which Assets are listed.

**AI Engine settings** (`EngineSettings`, `EngineRoundTrip`, `EngineLayers`, `EngineUpdate`). Loading through layered
fallbacks, the filtered save, and editing one engine.

**The hash router** (`Router`). Percent-encoding over all of Unicode (section 2.1 of RFC 3986, with UTF-8), and the two
functions of the dashboard that write and read the address.

**The Agent Workbench graph** (`Workbench`). The graph builder, and every run the graph and its two routers allow.

**Streaming** (`ReplyChunks`, `ChatExecution`, `AguiStream`). Cutting a reply into chunks, one streamed chat turn, and the
AG-UI event stream made from it, with an exception possible at every call.

**Recall, redaction, evidence, runner** (`RecallMerge`, `Redaction`, `Evidence`, `EvidenceTexts`,
`CiRunner`). The in-place merge of recalled
memories, the redaction of the environment report, the retained verification evidence with its gaps, and the command
runner with its manifest.

`Text`, `Json`, `Numbers`, `StableSort`, `Keyed` and `Runs` are the shared vocabulary: string trimming and counters, JSON
values, clamping, stable sorting, lists with ids, and runs of a state machine.

## Where the code does not do what is promised

Each of these is proved: the exact condition under which the promise holds, or an example that breaks it.

- **Ingestion at most once.** A projection consults the audit, but the audit holds only the last 100 attempts, failed ones
  included (`memory_service.py:1717`), and approving a memory candidate rewrites the file without it
  (`memory_service.py:1642-1648`, `:1661-1667`). `Projection.IngestedAgainExactly` says exactly when an Asset is ingested
  again, `Projection.ReingestedAfterReset` is an example, and `Projection.AtMostOncePerWindow` is what holds over every run
  without such a rewrite.
- **Settlement converges** in its reviews and records always; in its ingestion attempts exactly when every target the first
  response names is quiet in the audit the first call leaves: known to it with its eligible relationships, or nothing to
  send (`Convergence.SettlementConverges` for any number of repetitions, `Convergence.RepeatedOnce` for one). That can fail
  although every projection of the first call succeeded: a record with 100 links pushes its own entry out of the audit
  (`Eviction.SettlementNeverConverges` gives the input). With room in the audit it cannot
  (`Repetition.ProjectedSettlementConverges`).
- **A review's `asset_id`** names its record exactly when the candidate's asset id, before the review, has no blank around
  it (`RegistryInvariants.ReviewNamesRecord`): the record id is stripped, the logged id is not.
- **A rejection does not withdraw** an earlier approval: a candidate may be reviewed again, and its record stays approved
  (`ReviewOutcomes.ApprovalNotWithdrawn`); after every run every record is approved
  (`RegistryInvariants.RecordsStayApproved`).
- **Retrieval precision** can exceed 1 (`Retrieval.PrecisionAboveOne`), though only when some item accounts for two
  expected ids, or for one without having an id (`Retrieval.PrecisionExceeds`). Where every item accounts for an expected
  id and no two for the same, that is exactly when it does, unless no item has an id (`Retrieval.PrecisionExceedsExactly`).
- **Unknown AI Engines** are never rejected: every name resolves, and an unknown one edits DeepSeek
  (`EngineRoundTrip.EveryNameResolves`); the two rejections of `require_ai_engine` cannot be reached.
- **The router** does not decode the page, and a detail without an id is read back as the id
  (`Router.RouterRoundTrip` is an equivalence).
- **AG-UI text end.** An exception after the text is complete ends the message twice (`AguiStream.EndedTwice`).
- **Recalled references.** A memory that Graphiti brings for the first time is appended without the `graphiti_recalled`
  mark; only a second sighting sets it (`RecallMerge.FollowedFacts`).
- **Retained evidence.** `README.md:235` of the repository promises the latest complete Agent Server matrix; the code keeps
  the latest matrix with any evidence. The two are the same exactly when that latest matrix is complete or there is none
  (`Evidence.RetainsLatestComplete`); an interrupted run after a complete one is an example where they are not
  (`Evidence.PartialHidesComplete`).
- **The runner's manifest** reads "passed" while post commands are still to come. It does so and reads "failed" at the end
  exactly when every main command passed and a post command did not (`CiRunner.Run`); it never reads "passed" with a failure
  in it.

## Model

| member | source | states |
|---|---|---|
| Keyed.UpsertIsMapUpdate | services/api/aiteamos_api/read/asset_candidate_service.py:307-316 | saving a record changes what its own id leads to and no other id, and leaves the list sorted by creation time without repeated ids |
| Keyed.UpsertInPlace | services/api/aiteamos_api/read/asset_candidate_service.py:495-504 | replacing a record by one with the same id and creation time leaves every record at its place |
| AssetRegistryStore.UpsertRecord | services/api/aiteamos_api/read/asset_candidate_service.py:307-316 | the search-replace-or-append loop computes the map update |
| AssetRegistryStore.DistinctIds | services/api/aiteamos_api/read/asset_candidate_service.py:1393-1402 | the loop over the requested ids keeps the trimmed non-blank ids at their first occurrence |
| AssetRegistryStore.FindIngestion | services/api/aiteamos_api/read/asset_candidate_service.py:1267-1281 | the reversed search of the audit finds the latest successful attempt for the id |
| AssetRegistryStore.FindReport | services/api/aiteamos_api/read/asset_candidate_service.py:1817-1825 | the reversed search of the reports finds the latest one of the type whose evidence covers the references |
| AssetRegistryStore.CollectAssetIds | services/api/aiteamos_api/read/asset_candidate_service.py:1762-1786 | the nested loops collect, of each settled candidate, the first record that has its Asset id, was made from it, or shares a source it has; each once |
| AssetRegistryStore.AssetRegistry.constructor | services/api/aiteamos_api/read/asset_candidate_service.py:1209-1243 | missing files are empty stores, which satisfy the invariant |
| AssetRegistryStore.AssetRegistry.SaveCandidate | services/api/aiteamos_api/read/asset_candidate_service.py:307-316 | the new stores are the upsert, and stay valid |
| AssetRegistryStore.AssetRegistry.LinkReviewed | services/api/aiteamos_api/read/asset_candidate_service.py:1723-1749 | a merge or link review edits exactly the target record, or the first record when there is no target but there are links |
| AssetRegistryStore.AssetRegistry.Review | services/api/aiteamos_api/read/asset_candidate_service.py:319-383 | one review: unknown id, bad status, or candidate, log and record updated together with who reviewed and why; the stores stay valid |
| AssetRegistryStore.AssetRegistry.ReviewBatch | services/api/aiteamos_api/read/asset_candidate_service.py:386-449 | the batch loop is the fold of single reviews over the de-duplicated ids, with its counts and status word |
| AssetRegistryStore.AssetRegistry.IngestAsset | services/api/aiteamos_api/read/memory_service.py:1702-1732 | every attempt is audited and only the last 100 entries are kept |
| AssetRegistryStore.AssetRegistry.Project | services/api/aiteamos_api/read/asset_candidate_service.py:590-652 | unknown, unapproved, skipped, ingested or refused, with the record marked when it is in Graphiti |
| AssetRegistryStore.AssetRegistry.ProjectRelations | services/api/aiteamos_api/read/asset_candidate_service.py:655-722 | the relationship loop stops at the first refusal, and marks the record with what was confirmed |
| AssetRegistryStore.AssetRegistry.Relate | services/api/aiteamos_api/read/asset_candidate_service.py:1535-1594 | one relationship is unsupported, skipped, ingested or refused |
| AssetRegistryStore.AssetRegistry.Report | services/api/aiteamos_api/read/asset_candidate_service.py:2111-2119 | a report is added only when none of its type covers the evidence |
| AssetRegistryStore.AssetRegistry.ProposeCloseout | services/api/aiteamos_api/read/asset_candidate_service.py:778-835 | the proposal loop keeps reviewed candidates, refreshes the others and reports once |
| AssetRegistryStore.AssetRegistry.SettleCloseout | services/api/aiteamos_api/read/asset_candidate_service.py:838-964 | propose, approve what waits, project, report: the new stores and the response, including every early exit |
| AssetRegistryStore.AssetRegistry.ProjectSettledAsset | services/api/aiteamos_api/read/asset_candidate_service.py:1789-1814 | a refused record is blocked, refused relationships are a partial block |
| AssetRegistryStore.AssetRegistry.ProposeRetrospective | services/api/aiteamos_api/read/asset_candidate_service.py:967-1031 | the retrospective candidate is upserted whatever its review state |
| AssetRegistryStore.AssetRegistry.Import | services/api/aiteamos_api/read/asset_candidate_service.py:731-775 | the candidate made from a memory replaces the one with its id |
| AssetRegistryStore.AssetRegistry.Sync | services/api/aiteamos_api/read/asset_candidate_service.py:507-587 | matching candidates and records take the usage over, a missing candidate is imported |
| RegistryInvariants.StepKeeps | services/api/aiteamos_api/read/asset_candidate_service.py:307-1031 | every operation keeps the invariant, and deletes no review, record, candidate or attempt |
| RegistryInvariants.RunKeeps | services/api/aiteamos_api/read/asset_candidate_service.py:307-1031 | so does every sequence of operations, with clock and Graphiti free at every step |
| RegistryInvariants.StoresAreKeyedMaps | services/api/aiteamos_api/read/asset_candidate_service.py:1284-1295 | after every run from empty stores both lists are sorted and are maps keyed by id |
| RegistryInvariants.ReferentialIntegrity | services/api/aiteamos_api/read/asset_candidate_service.py:337-373 | an approval logged at any step has its record after every later step; every record's review id names an approved review of the candidate it came from |
| RegistryInvariants.RecordsStayApproved | services/api/aiteamos_api/read/asset_candidate_service.py:1440-1476 | after every run from empty stores each record is approved, in status and review state, by a review the log still holds |
| RegistryInvariants.SettleReviewKeeps | services/api/aiteamos_api/read/asset_candidate_service.py:1440-1476 | settling a logged review restores the link the log entry had left open |
| RegistryInvariants.RelationshipReviewKeeps | services/api/aiteamos_api/read/asset_candidate_service.py:1723-1749 | linking changes no record's identity, whichever record it hits |
| RegistryInvariants.NextReviewIdIsNew | services/api/aiteamos_api/read/asset_candidate_service.py:357-358 | the next review id is new whatever the candidate id, because its last part is the log length plus one |
| RegistryInvariants.ReviewIdsDistinct | services/api/aiteamos_api/read/asset_candidate_service.py:1312-1315 | no two log entries of any run share an id |
| RegistryInvariants.ReviewNamesRecord | services/api/aiteamos_api/read/asset_candidate_service.py:338-360 | an approval always logs a review and makes a record; the logged asset id is the record's id if and only if the candidate's asset id before the call was trimmed, "" included |
| Text.SafeRefFacts | services/api/aiteamos_api/read/asset_candidate_service.py:2122-2124 | a sanitised reference is never empty and has only allowed characters |
| Text.CollapseRun | services/api/aiteamos_api/read/asset_candidate_service.py:2122-2124 | a run of characters outside the allowed ones becomes one dash, and what stands before it is kept |
| Text.SafeRefExactly | services/api/aiteamos_api/read/asset_candidate_service.py:2122-2124 | the reference is the collapsed text without dashes at its ends, or "ticket" when nothing is left |
| Text.StripAround | services/api/aiteamos_api/read/asset_candidate_service.py:1398-1400 | stripping takes the blanks around a trimmed text away and nothing else |
| Text.CounterReadable | services/api/aiteamos_api/read/asset_candidate_service.py:358 | the counter after the last dash of an id can be read back, whatever precedes it |
| BatchReviews.UniqueIdsFacts | services/api/aiteamos_api/read/asset_candidate_service.py:1393-1402 | the worked ids are distinct, trimmed, not blank, and are exactly the stripped non-blank requested ones |
| BatchReviews.UniqueIdsOrdered | services/api/aiteamos_api/read/asset_candidate_service.py:1393-1402 | they keep the order of first occurrence |
| BatchReviews.NormalizeReviewStatusTwice | services/api/aiteamos_api/read/asset_candidate_service.py:1384-1390 | a normalised status is accepted again, so no item fails for its status |
| BatchReviews.ReviewEffect | services/api/aiteamos_api/read/asset_candidate_service.py:319-356 | one review changes one candidate and no other |
| BatchReviews.BatchFoldEffect | services/api/aiteamos_api/read/asset_candidate_service.py:398-434 | exactly the known candidates are reviewed, each once and from its state before the batch; the others are untouched |
| BatchReviews.BatchReviewSound | services/api/aiteamos_api/read/asset_candidate_service.py:386-449 | counts add up, the log grows by the number reviewed, the status word says all, some or none; refused batches change nothing |
| BatchReviews.SummaryWords | services/api/aiteamos_api/read/asset_candidate_service.py:436-442 | "completed" means all items reviewed, "failed" none, "partial_failed" is the only other word |
| ReviewOutcomes.ReviewOutcome | services/api/aiteamos_api/read/asset_candidate_service.py:319-383 | exactly when a review fails, and then nothing changed; otherwise candidate, log entry and record field by field in terms of the request: status, reviewer or Clara, reason, merge target, links, times, ids; and that nothing else changed |
| ReviewOutcomes.StatusWords | services/api/aiteamos_api/read/asset_candidate_service.py:1384-1390 | the eight words that name the four statuses; every other word is refused |
| ReviewOutcomes.BatchAnswers | services/api/aiteamos_api/read/asset_candidate_service.py:398-434 | each item of a batch answers as the single review of the candidate as it was before, with the batch's reviewer and reason or the default one; its review is logged and its candidate is the registry's |
| ReviewOutcomes.ApprovedRecord | services/api/aiteamos_api/read/asset_candidate_service.py:1440-1476 | an approval's record says what the candidate says, where it is from, which review, by whom and why; the rest of its provenance is the candidate's, and no other record changed |
| ReviewOutcomes.LinkedRecord | services/api/aiteamos_api/read/asset_candidate_service.py:1723-1749 | a merge or link review adds the links and one reference to its target and changes no other record |
| ReviewOutcomes.ApprovalNotWithdrawn | services/api/aiteamos_api/read/asset_candidate_service.py:319-373 | rejecting an approved candidate leaves its record approved |
| SyncOutcomes.SyncOutcome | services/api/aiteamos_api/read/asset_candidate_service.py:507-587 | a memory without an id is refused and one without usage changes nothing; otherwise exactly which candidates and records it names, that they take its usage over field by field at their places or the memory is imported, and which ids are answered |
| SyncOutcomes.ImportOutcome | services/api/aiteamos_api/read/asset_candidate_service.py:731-775 | an imported memory is saved as the candidate of its derived id, field by field |
| Projection.ProjectionGuard | services/api/aiteamos_api/read/asset_candidate_service.py:607-634 | Graphiti is asked exactly when no attempt the audit still holds succeeded for the id, and then once |
| Projection.AuditIsRecentEnd | services/api/aiteamos_api/read/asset_candidate_service.py:1267-1281 | the audit knows an id if and only if one of the attempts it covers succeeded for it |
| Projection.IngestedAgainExactly | services/api/aiteamos_api/read/asset_candidate_service.py:590-646 | when a projection ingests an Asset again: an equivalence |
| Projection.AtMostOncePerWindow | services/api/aiteamos_api/read/memory_service.py:1703-1717 | over every run that does not rewrite the audit, two successes for one id are more than 100 attempts apart |
| Projection.ReingestedAfterReset | services/api/aiteamos_api/read/memory_service.py:1661-1667 | after a memory approval the same record is ingested a second time |
| Projection.MarkingNeverDuplicates | services/api/aiteamos_api/read/asset_candidate_service.py:1642-1670 | marking keeps the provider refs and adds at most one copy; a second mark of the episode adds nothing |
| ProjectionOutcomes.AuditSays | services/api/aiteamos_api/read/asset_candidate_service.py:1267-1281 | the answer found for an id is that of its latest success in the audit |
| ProjectionOutcomes.ProjectionOutcome | services/api/aiteamos_api/read/asset_candidate_service.py:590-652 | unknown, not approved, skipped with the latest answer, too empty, sent and taken, or sent and refused: the response, the marks field by field, the attempt and the audit of the last 100, in each case |
| ProjectionOutcomes.RelationWords | services/api/aiteamos_api/read/asset_candidate_service.py:1616-1627 | the words that stand for the relationship types |
| ProjectionOutcomes.RelationTarget | services/api/aiteamos_api/read/asset_candidate_service.py:1634-1641 | the Asset a relationship leads to: named outright, or its target when that is said to be an Asset |
| ProjectionOutcomes.RelationsOutcome | services/api/aiteamos_api/read/asset_candidate_service.py:655-722 | every eligible relationship is confirmed in order, sent or already there; the first refusal ends it; the status word and the marks follow |
| ProjectionOutcomes.SkippedWereAudited | services/api/aiteamos_api/read/memory_service.py:1812-1834 | a relationship is skipped only with the episode of an attempt that succeeded for it |
| ProjectionOutcomes.MarkKeyExactly | services/api/aiteamos_api/read/asset_candidate_service.py:1682 | a mark goes under its relationship's id, or else under its Asset id |
| ProjectionOutcomes.MarkOfLast | services/api/aiteamos_api/read/asset_candidate_service.py:1673-1710 | the mark under a relationship's id is that of its last confirmation, field by field |
| ProjectionOutcomes.MarkStays | services/api/aiteamos_api/read/asset_candidate_service.py:1673-1710 | marks of other relationships stay |
| ProjectionOutcomes.SentMarkedFirst | services/api/aiteamos_api/read/asset_candidate_service.py:699-704 | relationships sent now are marked before those that were there |
| Projection.ProjectAssetEffect | services/api/aiteamos_api/read/asset_candidate_service.py:590-646 | a projection changes marks, audit and attempts and nothing else; an audited id is skipped without an attempt |
| Projection.ProjectRelationshipsEffect | services/api/aiteamos_api/read/asset_candidate_service.py:655-722 | so does projecting relationships; when all are audited Graphiti is not asked |
| Settlement.ProposeFoldEffect | services/api/aiteamos_api/read/asset_candidate_service.py:794-802 | the proposal changes only the drafts' ids, and keeps every reviewed candidate as it is |
| Settlement.ReportOnceEffect | services/api/aiteamos_api/read/asset_candidate_service.py:1817-1825 | afterwards a covering report exists, and at most one report was added |
| Settlement.SettlementAfterMarks | services/api/aiteamos_api/read/asset_candidate_service.py:1762-1786 | which records a settlement projects does not depend on the marks of earlier projections |
| Targets.SettledTargets | services/api/aiteamos_api/read/asset_candidate_service.py:889-904 | the candidates answered are those of the requested types; the records taken are exactly, for each settled one, the oldest record that has its Asset id, was made from it, or shares a source it has |
| Targets.EachHasItsRecord | services/api/aiteamos_api/read/asset_candidate_service.py:1762-1786 | after any run: the record made from an approved candidate is taken when no other record names the candidate, and every record taken names one of the candidates |
| Targets.ApprovedAreTaken | services/api/aiteamos_api/read/asset_candidate_service.py:857-904 | every candidate the call approved is answered, was approved in the name of reviewer, actor or Clara, and a record that names it is taken |
| CloseoutOutcomes.ReadyExactly | services/api/aiteamos_api/read/asset_candidate_service.py:2038-2046 | a Ticket may be closed out exactly when its status or one of its reports says it is validated |
| CloseoutOutcomes.ProposesExactly | services/api/aiteamos_api/read/asset_candidate_service.py:1881-1994 | a closeout candidate always, a solution and a validation result exactly when a report brings one, each field by field |
| CloseoutOutcomes.ProposeOutcome | services/api/aiteamos_api/read/asset_candidate_service.py:778-835 | a proposal fails for an unknown or unready Ticket and changes nothing then; otherwise which candidates are saved or kept, what is reported once, and the status word |
| CloseoutOutcomes.ReportIsOnce | services/api/aiteamos_api/read/asset_candidate_service.py:1817-1825 | a report that covers the evidence is reused, otherwise one with that evidence is added; its id is found again unless blanks around the evidence were lost |
| CloseoutOutcomes.OneSettled | services/api/aiteamos_api/read/asset_candidate_service.py:1789-1814 | blocked, partly blocked or what the projection says, with the error flag exactly then |
| CloseoutOutcomes.SettleOutcome | services/api/aiteamos_api/read/asset_candidate_service.py:838-964 | a settlement fails exactly when its proposal does; otherwise whom it asks to review, one projection for each record in order, the report with candidates, records and new episodes as evidence, and the word that sums it up |
| CloseoutOutcomes.RetrospectiveOutcome | services/api/aiteamos_api/read/asset_candidate_service.py:967-1031 | a retrospective needs a Ticket and enough failures; its candidate is saved and reported once |
| Convergence.DraftsDistinct | services/api/aiteamos_api/read/asset_candidate_service.py:1881-1994 | the closeout candidates of a Ticket never share an id |
| Convergence.ApprovalEffect | services/api/aiteamos_api/read/asset_candidate_service.py:857-887 | the review step cannot fail, approves exactly the waiting candidates and no other |
| Convergence.FirstSettlement | services/api/aiteamos_api/read/asset_candidate_service.py:838-964 | a closeout-ready Ticket is always settled, whatever Graphiti answers, and the stores it leaves have nothing more to review or report |
| Convergence.SettleAgain | services/api/aiteamos_api/read/asset_candidate_service.py:838-964 | settling settled stores adds no review and no record and leaves them settled with the same targets; it leaves Graphiti, audit and reports alone if and only if every target is quiet |
| Convergence.SettlementConverges | services/api/aiteamos_api/read/asset_candidate_service.py:838-964 | any number of repeated settlements adds no review and no record, whatever Graphiti answers; they make no attempt if and only if every target the first response names is quiet in the audit the first call left, and then audit and Tickets are as it left them |
| Convergence.RepeatedOnce | services/api/aiteamos_api/read/asset_candidate_service.py:838-964 | one repetition: it succeeds with the same targets, adds no review and no record, and asks Graphiti if and only if some target is not quiet in the audit and records the first call left |
| Repetition.CoveredAfterSettlement | services/api/aiteamos_api/read/asset_candidate_service.py:894-904 | when every projection ended ingested or skipped and the attempts fit the audit, the settlement is covered, so it converges |
| Repetition.ProjectedSettlementConverges | services/api/aiteamos_api/read/asset_candidate_service.py:838-964 | if every projection of the first call ended ingested or skipped and the audit had room, repeating the call adds no review, record, attempt or report |
| Repetition.SettlementAsksExactly | services/api/aiteamos_api/read/asset_candidate_service.py:838-964 | a settlement leaves Graphiti alone if and only if each target is quiet in the audit before the call: nothing to project, or known to the audit with its eligible relationships, or too empty to be sent; the same request without projecting names the targets |
| Eviction.CrowdedNeverConverges | services/api/aiteamos_api/read/asset_candidate_service.py:838-964 | when the only target of a settlement has 100 links to new relationships, the first call reports success and its repetitions ask Graphiti again |
| Eviction.SettlementNeverConverges | services/api/aiteamos_api/read/asset_candidate_service.py:838-964 | a concrete closed Ticket that is settled with success and whose repeated settlement asks Graphiti again |
| Coverage.ProjectSettledQuiet | services/api/aiteamos_api/read/asset_candidate_service.py:1789-1814 | one target is projected without an attempt if and only if it is quiet |
| Coverage.ProjectFoldQuiet | services/api/aiteamos_api/read/asset_candidate_service.py:894-904 | so are all targets of a settlement, if and only if all are quiet before the first is projected |
| Coverage.RelateFoldAsks | services/api/aiteamos_api/read/asset_candidate_service.py:677-703 | an eligible relationship the audit does not know is sent to Graphiti |
| Retrieval.MatchedAndMissingPartition | services/api/aiteamos_api/read/asset_candidate_service.py:458-468 | matched and missing ids split the distinct expected ids, each part in request order; recall is within [0, 1], and 1 exactly when nothing is missing |
| Retrieval.MatchesExactly | services/api/aiteamos_api/read/asset_candidate_service.py:1405-1431 | an item accounts for an expected id exactly when one of its seven names, or what follows the first colon of one, is that id, blanks and case aside |
| Retrieval.EvaluationCounts | services/api/aiteamos_api/read/asset_candidate_service.py:458-468 | the first items up to the limit are evaluated; the retrieved ids are theirs that are not blank; precision and recall are the matches over those and over the expected ids |
| Retrieval.MatchedAtMostRetrieved | services/api/aiteamos_api/read/asset_candidate_service.py:1405-1431 | at most as many matches as retrieved ids, when each item accounts for at most one expected id and has an id |
| Retrieval.PrecisionBounded | services/api/aiteamos_api/read/asset_candidate_service.py:467 | precision is then within [0, 1] |
| Retrieval.CreditsAreMatches | services/api/aiteamos_api/read/asset_candidate_service.py:461-465 | every matched id is credited to exactly one item, the first that accounts for it |
| Retrieval.PrecisionExceeds | services/api/aiteamos_api/read/asset_candidate_service.py:467 | precision above 1 means that some item accounts for two expected ids, or for one without having an id |
| Retrieval.PrecisionExceedsExactly | services/api/aiteamos_api/read/asset_candidate_service.py:467 | where no expected id is accounted for by two items and every item accounts for one, precision exceeds 1 if and only if some item has an id, and some item has none or accounts for two expected ids |
| Retrieval.PrecisionAboveOne | services/api/aiteamos_api/read/asset_candidate_service.py:1412-1427 | an item asked for by two of its names has precision 2 |
| Ranking.CombinedItems | services/api/aiteamos_api/read/asset_routes.py:216-224 | extended and sorted twice, the list holds exactly the items of all sources, by penalty, then newest first; items equal in both keep their order |
| Ranking.RankedSound | services/api/aiteamos_api/read/asset_routes.py:216-224 | a permutation, ordered by penalty, then newest first, then original position |
| Ranking.RankedUnique | services/api/aiteamos_api/read/asset_routes.py:216-224 | the only list that is so ordered |
| Ranking.MarkedItemsSink | services/api/aiteamos_api/read/asset_routes.py:285-307 | an item marked harmful or irrelevant and never promoted follows every unmarked item, however often either was used |
| Ranking.MarksWeigh | services/api/aiteamos_api/read/asset_routes.py:285-295 | one more harmful mark weighs 10, an irrelevant one 4, a promotion minus 2, each of the first three uses minus 1, nothing else anything |
| Ranking.CountsRead | services/api/aiteamos_api/read/asset_routes.py:298-307 | which values count how much |
| Ranking.TextNotCounted | services/api/aiteamos_api/read/asset_routes.py:298-307 | a text with anything but digits counts nothing |
| Ranking.SummaryStandsIn | services/api/aiteamos_api/read/asset_routes.py:286-289 | the usage summary counts only without usefulness statistics |
| Ranking.NewerFirst | services/api/aiteamos_api/read/asset_routes.py:223 | among equal penalties the later update comes first, the creation standing in for a missing update |
| EngineSettings.PersistedKeys | services/api/aiteamos_api/read/ai_engine_config_store.py:236-268 | the inner save loop keeps exactly the persisted keys that have a value |
| EngineSettings.FilePayload | services/api/aiteamos_api/read/ai_engine_config_store.py:236-268 | the nested save loops write one dictionary per supported engine with something to save |
| EngineSettings.ThinkingTwice | services/api/aiteamos_api/read/ai_engine_config_store.py:27-29 | a normalised thinking mode normalises to itself |
| EngineSettings.EffortTwice | services/api/aiteamos_api/read/ai_engine_config_store.py:32-51 | so does a reasoning effort |
| EngineSettings.SpeedTwice | services/api/aiteamos_api/read/ai_engine_config_store.py:54-68 | so does a speed |
| EngineRoundTrip.LoadedBounds | services/api/aiteamos_api/read/ai_engine_config_store.py:85-178 | loaded limits are in range, and output fits the context window, whatever file and environment say |
| EngineRoundTrip.FlatKeyAbsent | services/api/aiteamos_api/read/ai_engine_config_store.py:236-268 | a saved file has no legacy flat key |
| EngineLayers.LoadedText | services/api/aiteamos_api/read/ai_engine_config_store.py:99-147 | a text setting is the first one given of the engine's own entry, the legacy flat key, the environment variable of that name and the catalog default |
| EngineLayers.LoadedLimits | services/api/aiteamos_api/read/ai_engine_config_store.py:148-178 | so is each limit, `_MAX_OUTPUT_TOKENS` before `_MAX_TOKENS`, read as a number and moved into its range, the output limit never above the window |
| EngineLayers.OwnEntryExactly | services/api/aiteamos_api/read/ai_engine_config_store.py:93-96 | an engine's own entry is a member of a member of the file, both objects |
| EngineLayers.LoadedActive | services/api/aiteamos_api/read/ai_engine_config_store.py:187-193 | the active engine is the one the file or else the environment names; without a name, OpenAI exactly when it alone is enabled or alone has its key |
| EngineLayers.LoadedFallback | services/api/aiteamos_api/read/ai_engine_config_store.py:196-202 | the fallback flag is the file's, or else the environment's, on by default |
| EngineLayers.FreshInstall | services/api/aiteamos_api/read/ai_engine_config_store.py:181-205 | what a workspace without settings starts with |
| EngineLayers.SavedExactly | services/api/aiteamos_api/read/ai_engine_config_store.py:236-268 | a saved file names active engine, flag and time, and of each supported engine exactly the eleven keys that hold something |
| EngineLayers.WordsOfEngine | services/api/aiteamos_api/read/ai_engine_selection.py:30-34 | which names stand for which engine |
| EngineLayers.WordsOfThinking | services/api/aiteamos_api/read/ai_engine_config_store.py:27-29 | which words turn thinking on |
| EngineLayers.WordsOfEffort | services/api/aiteamos_api/read/ai_engine_config_store.py:32-51 | which words stand for which reasoning effort |
| EngineLayers.WordsOfSpeed | services/api/aiteamos_api/read/ai_engine_config_store.py:54-68 | which words stand for which speed |
| EngineLayers.WordsOfFlag | services/api/aiteamos_api/read/ai_engine_config_store.py:71-82 | which values turn a flag on |
| EngineRoundTrip.LoadedCanonical | services/api/aiteamos_api/read/ai_engine_config_store.py:99-178 | what is loaded is a fixed point of normalisation and clamping; which layer it comes from is told by `LoadedText` and `LoadedLimits` |
| EngineRoundTrip.EngineReload | services/api/aiteamos_api/read/ai_engine_config_store.py:99-178 | a saved canonical engine is read back, "" giving way to what stands behind it |
| EngineRoundTrip.SettingsRoundTrip | services/api/aiteamos_api/read/ai_engine_config_store.py:181-268 | load, save, load: same active engine, flag, top-level fields and supported engines, for every file; saving again writes the same file |
| EngineRoundTrip.EveryNameResolves | services/api/aiteamos_api/read/ai_engine_selection.py:30-34 | every name resolves to a supported catalog engine, so no engine edit is rejected; an unknown one is DeepSeek |
| EngineUpdate.SettingsService.UpdateEngine | services/api/aiteamos_api/read/chat_ai_engine_service.py:175-249 | the field-by-field edit of the copied dictionaries and the write give the edited, saved settings |
| EngineUpdate.AskTokens | services/api/aiteamos_api/read/chat_ai_engine_service.py:196-214 | no other key changes, an engine without a token catalog is left alone, and limits in range stay in range: what was asked for is clamped, output to the context window |
| EngineUpdate.EditedCanonical | services/api/aiteamos_api/read/chat_ai_engine_service.py:175-240 | the edit keeps an engine canonical |
| EngineUpdate.EditedReload | services/api/aiteamos_api/read/chat_ai_engine_service.py:175-249 | after a reload each field is as asked or as before, and 64 <= max_tokens <= context_window, 1024 <= context_window <= the catalog maximum |
| EngineUpdate.UpdateTakesEffect | services/api/aiteamos_api/read/chat_ai_engine_service.py:175-249 | after a reload no other supported engine changed, the flag stayed, the active engine changed only on request |
| Router.DecodeEncode | apps/dashboard/src/components/shared.tsx:163-181 | percent-decoding undoes percent-encoding for every Unicode text |
| Router.EncodeSegment | apps/dashboard/src/components/shared.tsx:174-181 | an encoded segment has no slash, and is the text itself exactly when that is unreserved |
| Router.EscapeDigits | apps/dashboard/src/components/shared.tsx:179 | an octet is escaped with two capital hexadecimal digits |
| Router.OctetExactly | apps/dashboard/src/components/shared.tsx:170-171 | an octet is read where there are a percent sign and two hexadecimal digits of either case, and only there |
| Router.ReadStrict | apps/dashboard/src/components/shared.tsx:170-171 | an escaped character is read from exactly its UTF-8 octets, never from a longer form |
| Router.ParseSegments | apps/dashboard/src/components/shared.tsx:163-173 | any hash is cut at its slashes, blank segments not counting; the page is taken as it stands, the next two are decoded |
| Router.NavigateRead | apps/dashboard/src/components/shared.tsx:163-181 | what is read back for every page, id and detail |
| Router.RouterRoundTrip | apps/dashboard/src/components/shared.tsx:163-181 | the three values are read back if and only if the page is a non-empty unreserved word and a detail comes with an id |
| Workbench.GraphBuilder.BuildGraph | services/api/aiteamos_api/agents/aiteamos_workbench_graph.py:53-102 | the edges the builder assembles are the successor relation of the runs |
| Workbench.RunCounts | services/api/aiteamos_api/agents/aiteamos_workbench_graph.py:73-102 | the length of every run, finished or not, is fixed by its last node, its interrupts and its dispatches |
| Workbench.CompletedRunLength | services/api/aiteamos_api/agents/aiteamos_workbench_graph.py:73-102 | a completed run makes exactly 8 + 2k + 6D visits with 1 <= D <= k + 1 |
| Workbench.EveryCountOccurs | services/api/aiteamos_api/agents/aiteamos_workbench_graph.py:73-102 | and every such pair of counts is that of some completed run |
| Workbench.DispatchGovernedAndIngested | services/api/aiteamos_api/agents/aiteamos_workbench_graph.py:80-101 | a dispatch follows the gate directly and is ingested before the next dispatch or the final response |
| Workbench.InterruptsBounded | services/api/aiteamos_api/agents/workbench/nodes/approval.py:24-38 | a run is interrupted once more than it was resumed without a reference, at most |
| Workbench.ApprovedRunsAreShort | services/api/aiteamos_api/agents/workbench/nodes/approval.py:24-98 | when every resume brings a reference, a completed run has 14, 16 or 22 visits |
| ReplyChunks.SplitReply | services/api/aiteamos_api/read/chat_streaming_utils.py:14-27 | the merge loop over the blank and non-blank runs computes the chunks |
| ReplyChunks.ChunksFacts | services/api/aiteamos_api/read/chat_streaming_utils.py:14-27 | joined, the chunks are the reply; none cuts a word, and each ends at the first break where it is long enough or holds a line end |
| ReplyChunks.ChunksUnique | services/api/aiteamos_api/read/chat_streaming_utils.py:14-27 | there is only one way to cut a reply like that |
| ChatExecution.ChatExecutionRuntime.StreamTurn | services/api/aiteamos_api/read/chat_execution_service.py:61-112 | the events yielded, the result ingested, the session saved and the keys of the context, wherever an exception falls, before the start event included |
| ChatExecution.ChatExecutionRuntime.ResponseFromResult | services/api/aiteamos_api/read/chat_execution_service.py:118-146 | trace events, Ticket key, session, stored response, in this order, each kept when a later one raises |
| ChatExecution.TurnProtocol | services/api/aiteamos_api/read/chat_execution_service.py:61-112 | no event exactly when preparing raises; else one start, first; one final, last, exactly when nothing failed; one result ingested, exactly when the stream was read to its end; one session in a turn that succeeds |
| ChatExecution.TurnFails | services/api/aiteamos_api/read/chat_execution_service.py:61-146 | exactly when a turn fails: preparing, dispatching, an invalid event, ingesting, trace events, session or response; executor error events are not among the reasons |
| ChatExecution.TurnLeaves | services/api/aiteamos_api/read/chat_execution_service.py:118-146 | a turn that does not fail leaves the report of the result as ingested, its Ticket among the keys, and one session under that Ticket or the first key |
| ChatExecution.LastResultIngested | services/api/aiteamos_api/read/chat_execution_service.py:79-105 | the last completed result is ingested, or, when there is none, a failed one field by field for the request |
| ChatExecution.TurnKeepsText | services/api/aiteamos_api/read/chat_execution_service.py:80-85 | the text passed on is the executor's text |
| ChatExecution.TurnKeepsKeys | services/api/aiteamos_api/read/chat_execution_service.py:126-132 | keys are only added to, by at most one, never twice; the session's Ticket is one of them |
| AguiStream.ConsumeTurn | services/api/aiteamos_api/read/chat_agui_service.py:134-144 | the loop over the turn's events stops at the first exception with the text so far |
| AguiStream.SendReply | services/api/aiteamos_api/read/chat_agui_service.py:146-150 | the loop over the chunks of a reply that was not streamed |
| AguiStream.SendText | services/api/aiteamos_api/read/chat_agui_service.py:119-154 | the text events up to the first exception, with the text sent |
| AguiStream.Close | services/api/aiteamos_api/read/chat_agui_service.py:152-174 | what follows the text: snapshot and end, or the error |
| AguiStream.StreamEvents | services/api/aiteamos_api/read/chat_agui_service.py:110-174 | the whole event list, for every turn and every failing call |
| AguiStream.StreamProtocol | services/api/aiteamos_api/read/chat_agui_service.py:110-174 | starts first, content directly after and only there, then the end; exactly one terminal event, last, wherever the run fails |
| AguiStream.StreamConserves | services/api/aiteamos_api/read/chat_agui_service.py:119-168 | a run finishes if and only if no call fails; its pieces joined are then the content in its snapshot, which is the streamed text or the reply |
| AguiStream.EndedTwice | services/api/aiteamos_api/read/chat_agui_service.py:152-174 | the message is ended once or twice, twice exactly when something fails after the text |
| AguiStream.TextErrorReported | services/api/aiteamos_api/read/chat_agui_service.py:169-174 | the error a run ends with is that of the first call that raises while the text is sent |
| AguiStream.LateErrorReported | services/api/aiteamos_api/read/chat_agui_service.py:153-174 | or, after the text, of the state, the checkpoint or the messages, in this order |
| AguiStream.ShownInOrder | services/api/aiteamos_api/read/chat_agui_service.py:163-165 | the messages shown are those with a role and a content, in order |
| AguiStream.TurnReachesClient | services/api/aiteamos_api/read/chat_agui_service.py:110-174 | from executor to client: the assistant message is the executor's text or the report of the ingested result |
| AguiStream.OnlyExceptionsFail | services/api/aiteamos_api/read/chat_agui_service.py:134-144 | with nothing failing in the adapter, a run ends in an error exactly when its turn fails |
| RecallMerge.ChatContext.Merge | services/api/aiteamos_api/read/chat_context_enrichment_service.py:116-140 | one result fills or is appended; the check for the whole record never turns one away |
| RecallMerge.ChatContext.Enrich | services/api/aiteamos_api/read/chat_context_enrichment_service.py:70-113 | all Graphiti results are merged in order, the list grows by exactly the number added, the counts follow |
| RecallMerge.ChatContext.UpdateCounts | services/api/aiteamos_api/read/chat_context_enrichment_service.py:143-151 | the first loaded event gets the new counts and references, the others are left alone |
| RecallMerge.MergeAppends | services/api/aiteamos_api/read/chat_context_enrichment_service.py:116-140 | references keep place and id; one is appended for each id that was not there |
| RecallMerge.MergeTouchesItsMemory | services/api/aiteamos_api/read/chat_context_enrichment_service.py:13-16 | a result stands for the memory its provenance names, or else for itself; merging it touches that memory's reference only, filling it in place or appending it field by field |
| RecallMerge.NewIdsFacts | services/api/aiteamos_api/read/chat_context_enrichment_service.py:116-140 | the appended ids are exactly the mentioned ones that were missing, each once |
| RecallMerge.IdsStayUnique | services/api/aiteamos_api/read/chat_context_enrichment_service.py:118-139 | distinct memory ids stay distinct |
| RecallMerge.MergeFills | services/api/aiteamos_api/read/chat_context_enrichment_service.py:121-127 | an episode id or provenance that was set is never overwritten |
| RecallMerge.MergeIsMapUpdate | services/api/aiteamos_api/read/chat_context_enrichment_service.py:82-140 | what an id leads to depends on that id's results only |
| RecallMerge.FollowedFacts | services/api/aiteamos_api/read/chat_context_enrichment_service.py:121-127 | the first episode wins; the recalled mark needs a second sighting |
| RecallMerge.FollowedRest | services/api/aiteamos_api/read/chat_context_enrichment_service.py:121-127 | the first provenance wins; the recorded result id is that of the last repeated sighting |
| RecallMerge.MergeAgainAddsNothing | services/api/aiteamos_api/read/chat_context_enrichment_service.py:116-140 | recalling the same results again adds no reference |
| RecallMerge.SnippetsKept | services/api/aiteamos_api/read/chat_context_enrichment_service.py:136-138 | snippets stay, none twice, at most one for each new reference, all counted as memories |
| Redaction.RedactValue | scripts/environment_smoke.py:73-86 | filling fresh dictionaries and lists computes the redaction |
| Redaction.ContainsExactly | scripts/environment_smoke.py:96 | a word is in a key if and only if the key is some text, the word, and some text |
| Redaction.SecretExactly | scripts/environment_smoke.py:89-96 | a key is secret if and only if one of the five words occurs anywhere in it, it is none of the keys that may hold anything, and its value is not a boolean |
| Redaction.RedactTwice | scripts/environment_smoke.py:73-96 | redacting again changes nothing, on every JSON tree |
| Redaction.RedactKeepsClear | scripts/environment_smoke.py:73-86 | off the secret keys every path leads to the same leaf, or to nothing as before |
| Redaction.RedactHidesSecret | scripts/environment_smoke.py:78-81 | through a secret key every path leads to the mark or to nothing |
| Redaction.SecretKeysHoldNoSecret | scripts/environment_smoke.py:89-96 | wherever a key has one of the five words in it, in any case, and is not exempt, it holds a boolean or "[redacted]" |
| Redaction.RedactTellsNothingElse | scripts/environment_smoke.py:73-96 | two values give the same report if and only if they agree outside their secret keys |
| Evidence.QueueGapsNone | scripts/plan_v7_artifact_summary.py:285-352 | no queue worker gap exactly when the smoke's numbers meet every soak condition |
| Evidence.DogfoodGapsNone | scripts/plan_v7_artifact_summary.py:1087-1110 | no dogfood gap exactly when it is fresh, a LangGraph core loop, completed, with its handoff |
| Evidence.MatrixGapsNone | scripts/plan_v7_artifact_summary.py:660-734 | no matrix gap exactly when all eight cases pass and all ten kinds of coverage are met |
| EvidenceTexts.MatrixMeans | scripts/plan_v7_artifact_summary.py:660-734 | what each of the eight cases, the ten kinds of coverage and the provider must show, field by field |
| EvidenceTexts.QueueGapWords | scripts/plan_v7_artifact_summary.py:285-352 | the queue worker's gap words, each with its condition on the smoke's numbers |
| EvidenceTexts.DogfoodGapWords | scripts/plan_v7_artifact_summary.py:1087-1110 | the dogfood's gap words, each with its condition, and why a run is not fresh |
| EvidenceTexts.MatrixGapWords | scripts/plan_v7_artifact_summary.py:720-724 | the gaps in order: a line for every case missing, for every case that did not pass, and for every coverage not shown, each with its condition |
| EvidenceTexts.MatrixEvidenceSays | scripts/plan_v7_artifact_summary.py:660-734 | when there is evidence at all, how many cases it counts, and its status word |
| Evidence.RetainEvidence | scripts/plan_v7_artifact_summary.py:1141-1171 | the loop with its early break keeps, of each kind, the first evidence in run order, with the run it is from |
| Evidence.OlderRunsOnlyFill | scripts/plan_v7_artifact_summary.py:1141-1171 | older runs only fill what newer ones lack |
| Evidence.RetainedIsLatest | scripts/plan_v7_artifact_summary.py:74-87 | with the manifests sorted and cut at any limit, no run with such evidence, inspected or not, is later than the one retained |
| Evidence.RetainedEvidenceGaps | scripts/plan_v7_artifact_summary.py:1174-1191 | the gap list grown step by step is that of the three kinds |
| Evidence.NoGapsExactly | scripts/plan_v7_artifact_summary.py:1174-1201 | no gap is reported if and only if the latest evidence of each kind meets every condition, in terms of the files read |
| Evidence.CompleteExactly | scripts/plan_v7_artifact_summary.py:660-734 | a matrix is complete if and only if all cases passed and all coverage is met |
| Evidence.MatrixNamesItsRun | scripts/plan_v7_artifact_summary.py:1141-1171 | the matrix retained is that of the first run whose files hold any, under that run's id and manifest |
| Evidence.RetainsLatestComplete | scripts/plan_v7_artifact_summary.py:1145-1151 | the retained matrix is the latest complete one if and only if the latest run with a matrix has a complete one, or no run has a matrix |
| Evidence.PartialHidesComplete | scripts/plan_v7_artifact_summary.py:1145-1151 | with an interrupted run after a whole one, the partial matrix is retained although the latest complete one is the earlier, whatever else was run before |
| Evidence.StrictGatePasses | scripts/plan_v7_artifact_summary.py:186-199 | the strict exit code is 0 if and only if the retained evidence is healthy and the other flags are met |
| EvidenceTexts.ExitCodes | scripts/plan_v7_artifact_summary.py:186-199 | which cause gives which exit code, the first one asked about deciding |
| CiRunner.RunCommand | scripts/plan_v7_ci_artifacts.py:998-1024 | a command passes exactly when it exits with 0; a timeout is failure 124 |
| CiRunner.RunMain | scripts/plan_v7_ci_artifacts.py:118-127 | the main loop records a prefix of its commands' results, up to the first failure when failing fast |
| CiRunner.Run | scripts/plan_v7_ci_artifacts.py:113-144 | exactly which results are recorded; "failed" and exit code 2 exactly when one of them failed; every manifest on the way is honest, and one reads "passed" before a failed end exactly when the main commands passed and a post command did not |
| CiRunner.RunCountFacts | scripts/plan_v7_ci_artifacts.py:118-142 | post commands only after passed main commands; when failing fast only the last record can be a failure |
| CiRunner.ArtifactsDistinct | scripts/plan_v7_ci_artifacts.py:991-995 | no artifact name is shared between positions or kinds or with the manifest, whatever the commands are called |
| CiRunner.SlugExactly | scripts/plan_v7_ci_artifacts.py:1062-1063 | the slug is the name in small letters with dashes for everything else but none at its ends, or "command" |
| CiRunner.ArtifactNames | scripts/plan_v7_ci_artifacts.py:991-995 | the three file names of a command |

## Left out

Simplified inside the model:

- PrecisionBounded: one-way; its premise is sufficient, and `CreditsAreMatches` counts what precision divides in every case.
- PrecisionExceedsExactly: the equivalence supposes that the items divide the expected ids between them; without that, `PrecisionExceeds` is one-way.
- SettlementConverges: the Ticket is closeout-ready and its report ids are not blank, as every added report's is; a Ticket that is not ready is refused with nothing changed.
- AtMostOncePerWindow: supposes that other services that ingest also consult the audit and that no memory approval rewrites it; `ReingestedAfterReset` shows why.
- MarkKeyExactly: an id that is not a text counts as none; the code would key such a mark by its printed form.
- IntStat: `str.isdigit` is modelled for ASCII digits only, and counts are never NaN or infinite.
- MatchedAndMissingPartition: precision and recall are exact ratios; rounding to four digits is not modelled.
- SettleCloseout: each operation reads the clock once, so records of one operation share a timestamp.
- ArtifactsDistinct: names only; whether the file system treats two names as one is not modelled.
- RedactTwice: keys are strings and lower-casing is ASCII, as everywhere in the project.
- RouterRoundTrip: the browser is taken to leave percent-encoded text in the fragment unchanged; texts are well-formed Unicode, without lone surrogates.
- StreamEvents: a client that disconnects stops the generator with an exception the adapter does not catch; that is not modelled, and neither is a failure before the adapter's first event.

Not modelled:

- JSON file reading and writing, locking, and the concurrent interleavings of the asynchronous projections, which copy a record across an await.
- Ticket, memory and Graphiti services beyond what the registry needs: a Ticket report is appended with its type and trimmed evidence; an ingestion is one audited answer.
- The wording, content and provenance of generated candidates, and the digest and 180-character cut in relationship ids, which are parameters of each step.
- Direct writes to AssetRecords by other services, such as employee improvement.
- The type and target that a skipped relationship loses when it is marked again: the model keeps that behaviour and states nothing about it.
- Storing retrieval evaluations, searching and filtering the lists, and the graph view of an Asset.
- The legacy settings update, engine secrets, engine records for the interface, and settings of planned engines, which saving drops.
- How Python prints floats and parses integers from text: parameters of the settings model.
- The content of the Workbench nodes; the graph's runs are those its edges and its two routers allow.
- Choosing and running an executor, the non-streaming turn, transcripts, traces and the storing of checkpoints.
- The evidence kinds of a single run besides the three that are retained across runs; they follow the same pattern.
- The lists of commands the runner starts, their output files' contents, and timing.
- Intent classification, prompt text, thread index, React components, HTTP routes and authentication.
