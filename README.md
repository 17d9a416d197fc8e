# Legality-AI contract-risk analyser, modelled in Dafny

Legality-AI reads a contract and reports its risky clauses. A PDF is cut into
semantic chunks; each chunk is matched against category prototypes in a vector
store; chunks in the "courtroom" zone go through a three-agent debate
(pessimist, optimist, arbiter) that scores them; the clauses that score at
least 50 are kept with a suggested fix; combinations of risky clauses are
reported as compound risks; and an overall level is given. Around this sit a
job table and a polling browser hook that follow one analysis, a feedback
store with public feedback endpoints, a learning loop that reads the feedback,
admin endpoints and an admin feedback table, and an offline pipeline that
builds the "golden rule" data set from CUAD.

This project models the deterministic logic of those parts, one Dafny module
per source file:

- job lifecycle: `AnalysisRoutes` (the server's in-memory job table, a
  class) and `UseAnalysis` (the browser's poller, a class driven by tick and
  reply steps);
- feedback and admin: `FeedbackManager` (the feedback store, a class),
  `FeedbackRoutes`, `LearningLoop`, `AdminRoutes`, `AdminApi` and
  `FeedbackTable` (the admin table, a class);
- risk scoring: `CategoryDetector`, `AdversarialAnalyzer`,
  `CompoundDetector`, `ContractAnalyzer`, `Colors`;
- text processing: `TextUtils`, `SemanticChunker`, `DefinitionExtractor`,
  `MetadataExtractor`, `ParameterExtractor`, `LlmClient`;
- the offline pipeline: `CuadExtract` and `PipelineRun`;
- the record types of `Models`, and the helper modules `Wrappers`
  (Option, Result), `Strings` (Python's `strip`, `split`, `in` on strings, and
  `lower` on ASCII letters) and `Seqs` (filter, map, first-occurrence de-duplication, tallies,
  sums).

Every call into a language model, the vector store, a regular-expression
engine or the network is an input: a value or a function parameter standing
for what that call returned. Loops of the source are methods with loop
invariants, each proved equal to a specification function; the properties the
source promises are proved about those functions as lemmas.

## Model

| member | source | states |
|---|---|---|
| AdminApi.GetAdminHeaders | frontend/src/services/api.ts:12-14 | the admin request headers carry the stored admin key, or the built-in default key when none is stored, under `x-api-key` |
| AdminApi.Build | frontend/src/services/api.ts:59-89 | each of the five admin calls is sent to its own path and method with the admin headers; only the sync calls have a body |
| AdminApi.EveryAdminCallPresentsAKey | frontend/src/services/api.ts:12-89 | every admin call presents exactly one key: the stored one if there is one, otherwise the default |
| AdminRoutes.EffectiveAdminKey | backend/src/api/routes/admin.py:11-20 | whatever the environment holds, the key in force is the literal assigned last |
| AdminRoutes.VerifyAdmin | backend/src/api/routes/admin.py:22-26 | a request passes exactly when its header is present and equal to the admin key; otherwise a 403 with the source's message |
| AdminRoutes.BrowserDefaultKeyRefused | backend/src/api/routes/admin.py:20-26 | the key a browser admin call presents passes `verify_admin` exactly when the admin key is stored; the frontend default, used when nothing is stored, never does |
| AdminRoutes.GetPendingFeedback | backend/src/api/routes/admin.py:48-80 | refused without the key; a read failure is a 500; an empty collection lists nothing with total 0 and no `showing`; otherwise the first `limit` entries (Python slice, negative limits included) in order, with the collection's size as total |
| Seqs.PyPrefix | backend/src/api/routes/admin.py:63 | a Python slice `[:k]` is a prefix, of length `k` capped at the size for `k` not negative, and the size less `-k` (at least 0) for a negative `k` |
| AdminRoutes.ApproveFeedback | backend/src/api/routes/admin.py:82-111 | refused without the key; a failed lookup is a 500 with its message; otherwise 404 exactly when no entry has the id, and success with that id; the store is not changed |
| AdminRoutes.RejectFeedback | backend/src/api/routes/admin.py:113-134 | refused without the key, and a failed deletion is a 500 with its message, both changing nothing; otherwise success with the id, the collection becoming the old one without the entries of that id |
| AdminRoutes.Without | backend/src/api/routes/admin.py:123 | after the deletion no entry has the id, and the collection never grows |
| AdminRoutes.RejectRemovesExactlyThatId | backend/src/api/routes/admin.py:123 | after a rejection no entry has the id, every other entry remains, and the order is kept |
| AdminRoutes.ClearAllFeedback | backend/src/api/routes/admin.py:221-248 | refused without the key; without `confirm` a 400; a failed drop a 500 with its message; all three delete nothing; otherwise success and the collection is empty |
| AdminRoutes.HealthScore | backend/src/api/routes/admin.py:197-207 | the score lies in [30, 100], is 100 exactly when both rates are at most 30 and the database is up, and the status is "healthy" exactly when at most one rate is too high with the database up, or neither with it down |
| AdminRoutes.GetLearningStatus | backend/src/api/routes/admin.py:28-46 | refused without the key; a failure while assembling the answer is a 500 with its message; otherwise the patterns are those of the statistics, the suggestions are exactly the ones those patterns call for, the retrain flag is the learning loop's, and the recommendation agrees with it |
| AnalysisRoutes.JobTable.constructor | backend/src/api/routes/analysis.py:14 | the job table starts empty |
| AnalysisRoutes.JobTable.Upload | backend/src/api/routes/analysis.py:16-54 | a name not ending in `.pdf` is a 400 and a failed write a 500, both leaving the table as it was; otherwise one new `processing` job at progress 0 is stored under the new id, nothing else changes, and the response names the job and the file |
| AnalysisRoutes.JobTable.GetStatus | backend/src/api/routes/analysis.py:56-68 | 404 exactly for an unknown id; otherwise the job's own status, file name and progress |
| AnalysisRoutes.JobTable.GetResults | backend/src/api/routes/analysis.py:70-83 | 404 for an unknown id, 202 while processing, 500 with the stored error (or "Analysis failed") after a failure; data is returned exactly for a completed job, and it is the stored data |
| AnalysisRoutes.JobTable.BeginAnalysis | backend/src/api/routes/analysis.py:90 | only the job's progress changes, to 10 |
| AnalysisRoutes.JobTable.EndAnalysis | backend/src/api/routes/analysis.py:92-107 | success stores the data with status `completed` and progress 100; an exception stores its text with status `failed`; no other entry changes |
| AnalysisRoutes.JobTable.RunAnalysis | backend/src/api/routes/analysis.py:85-107 | the background run changes only its own job, which leaves `processing` for `completed` (progress 100) exactly when the analysis succeeds and for `failed` (progress 10) otherwise; the table stays valid |
| AnalysisRoutes.StatusAndResultsAgree | backend/src/api/routes/analysis.py:56-83 | for every valid job the reported progress lies in [0, 100], and results are available exactly when the status says `completed` |
| FeedbackRoutes.FalseNegativeScore | backend/src/api/routes/feedback.py:41 | a false negative is recorded with the user's score when one other than 0 is given, and with 70 otherwise |
| FeedbackRoutes.ApproveFixMessage | backend/src/api/routes/feedback.py:68 | the answer says "Fix approved!" exactly when the request approves the fix, and "Thanks for feedback!" otherwise |
| FeedbackRoutes.IntOr | backend/src/api/routes/feedback.py:41 | an absent or zero score falls back to the default; any other score is kept |
| FeedbackRoutes.FlagOrFalse | backend/src/api/routes/feedback.py:63 | an optional flag counts as true exactly when it is present and true |
| FeedbackRoutes.ReportFalsePositive | backend/src/api/routes/feedback.py:13-32 | exactly one false-positive entry is appended, with an absent comment stored as empty text, and its `fp_` id is returned with status "recorded" |
| FeedbackRoutes.ReportFalseNegative | backend/src/api/routes/feedback.py:34-53 | exactly one false-negative entry is appended with the defaulted score, and its `fn_` id is returned with status "recorded" |
| FeedbackRoutes.ApproveFix | backend/src/api/routes/feedback.py:55-77 | an approved fix appends one entry holding the fix (empty text when absent); an unapproved or unflagged one stores nothing; the `fix_` id is returned either way |
| FeedbackManager.FeedbackId | backend/src/services/feedback_manager/feedback_manager.py:77-177 | an id starts with its kind's prefix, then the chunk id and an underscore, so the chunk id can be read back from it |
| FeedbackManager.RiskLevelFor | backend/src/services/feedback_manager/feedback_manager.py:179-184 | a user score sets "risky" exactly from 70 up, "safe" exactly up to 40, and "moderate" exactly in between |
| FeedbackManager.RecordedMetadata | backend/src/services/feedback_manager/feedback_manager.py:80-200 | false positives are stored as safe, false negatives as risky with the user's score, approved fixes as safe with at most the first 200 characters of the clause, score adjustments with the level of the user's score and the difference of the scores; a missing or empty user becomes "anonymous" |
| FeedbackManager.FeedbackStore.constructor | backend/src/services/feedback_manager/feedback_manager.py:39-65 | a new store holds no entries |
| FeedbackManager.FeedbackStore.AddFalsePositive | backend/src/services/feedback_manager/feedback_manager.py:67-97 | exactly one entry is appended, holding the clause with false-positive metadata, under the returned `fp_` id |
| FeedbackManager.FeedbackStore.AddFalseNegative | backend/src/services/feedback_manager/feedback_manager.py:99-129 | exactly one entry is appended, holding the clause with false-negative metadata, under the returned `fn_` id |
| FeedbackManager.FeedbackStore.AddFixApproval | backend/src/services/feedback_manager/feedback_manager.py:131-164 | an approved fix appends one entry whose document is the fix; a rejected one leaves the collection unchanged; the `fix_` id is returned either way |
| FeedbackManager.FeedbackStore.AddScoreAdjustment | backend/src/services/feedback_manager/feedback_manager.py:166-205 | exactly one entry is appended with the score-adjustment metadata, under the returned `score_` id |
| FeedbackManager.FeedbackStore.GetFeedbackStats | backend/src/services/feedback_manager/feedback_manager.py:238-267 | a read failure gives the error text; otherwise the statistics of the stored entries |
| FeedbackManager.StatsFacts | backend/src/services/feedback_manager/feedback_manager.py:243-263 | an empty collection has total 0 and no counts; otherwise the total is the number of entries, every type and category counts exactly the entries carrying it (a missing key counts as "unknown"), keys are listed once, and each family of counts adds up to the total |
| FeedbackManager.AddingCountsOnce | backend/src/services/feedback_manager/feedback_manager.py:238-263 | storing one more entry raises the count of its type by one and the total by one |
| Seqs.TallyBump | backend/src/services/feedback_manager/feedback_manager.py:254-257 | counting a key keeps the dictionary's size when the key is known and adds one entry when it is new |
| LearningLoop.Flagged | backend/src/services/feedback_manager/learning_loop.py:40-43 | a category is flagged exactly when its count is at least 5 |
| LearningLoop.AnalyzeFeedbackPatterns | backend/src/services/feedback_manager/learning_loop.py:12-45 | with no feedback (or a failed read) both rates are 0 and nothing is flagged; otherwise each rate is its type's share of the total in percent and the flagged categories are those with at least 5 entries, in counting order |
| LearningLoop.RateBounds | backend/src/services/feedback_manager/learning_loop.py:36-37 | a count between 0 and a positive total gives a rate in [0, 100] |
| LearningLoop.PatternRatesAreBounded | backend/src/services/feedback_manager/learning_loop.py:31-37 | on statistics read from any non-empty collection both rates lie in [0, 100] |
| LearningLoop.GetImprovementSuggestions | backend/src/services/feedback_manager/learning_loop.py:47-73 | the suggestions are the false-positive one exactly when that rate exceeds 20, the false-negative one exactly when that rate exceeds 20, the category one (carrying the flagged categories) exactly when some category is flagged, nothing else, in that order |
| LearningLoop.SuggestionsDetermined | backend/src/services/feedback_manager/learning_loop.py:47-73 | those conditions leave a single possible list for any patterns: two lists meeting them are equal |
| LearningLoop.OnlySuggestionList | backend/src/services/feedback_manager/learning_loop.py:47-73 | a list meeting those conditions is the false-positive, false-negative and category suggestions that apply, concatenated in that order |
| LearningLoop.ErrorStatsAreQuiet | backend/src/services/feedback_manager/learning_loop.py:82-88 | a failed statistics read counts as no feedback and never asks for a retraining |
| LearningLoop.ShouldRetrain | backend/src/services/feedback_manager/learning_loop.py:75-88 | a failed statistics read never asks for a retraining, 50 or more entries always do, and below 50 entries only 20 or more approved fixes can |
| LearningLoop.RetrainOnApprovedFixes | backend/src/services/feedback_manager/learning_loop.py:75-88 | on a readable collection a retraining is due exactly when it holds at least 50 entries or at least 20 approved fixes |
| FeedbackTable.PendingReview | frontend/src/components/admin/FeedbackTable.tsx:47-49 | the pending bucket holds exactly the pending or status-less false positives, in their original order |
| FeedbackTable.FixReviews | frontend/src/components/admin/FeedbackTable.tsx:54-61 | the fix-review bucket holds exactly the pending or status-less approve-fix records strictly younger than 30 days (an unparsable time never qualifies), in their original order |
| FeedbackTable.ApprovedSuggestions | frontend/src/components/admin/FeedbackTable.tsx:63-65 | the approved bucket holds exactly the approved records of any type, in their original order |
| FeedbackTable.BucketsAreDisjoint | frontend/src/components/admin/FeedbackTable.tsx:47-65 | no record is in two buckets: approved records are in neither pending bucket, and the pending buckets differ by type |
| FeedbackTable.ReplaceStatus | frontend/src/components/admin/FeedbackTable.tsx:27 | a status update keeps length and order, leaves every record with another id unchanged, and in the matching records changes only the status |
| FeedbackTable.ReplaceStatusIdempotent | frontend/src/components/admin/FeedbackTable.tsx:27 | setting the same status twice is the same as setting it once |
| FeedbackTable.AcknowledgeThenReset | frontend/src/components/admin/FeedbackTable.tsx:47-119 | acknowledging a pending false positive moves it to the approved bucket, and resetting it brings it back to the pending bucket with every other field intact |
| FeedbackTable.CardActions | frontend/src/components/admin/FeedbackTable.tsx:99-124 | Acknowledge and Ignore are offered exactly on cards that are neither approve-fix records nor in the approved bucket, and Reset exactly on approved-bucket cards |
| FeedbackTable.OfferedUpdates | frontend/src/components/admin/FeedbackTable.tsx:99-124 | a pending false positive can be acknowledged or ignored, a fix-review card offers nothing (so approve-fix records are never updated from this page), and an approved record can only be reset |
| FeedbackTable.Table.constructor | frontend/src/components/admin/FeedbackTable.tsx:5-6 | the table mounts with no records and loading on |
| FeedbackTable.Table.LoadData | frontend/src/components/admin/FeedbackTable.tsx:13-22 | asks for up to 100 records with the admin headers; success replaces the records, failure keeps them; loading always ends |
| FeedbackTable.Table.HandleUpdateStatus | frontend/src/components/admin/FeedbackTable.tsx:24-32 | the records change, by the id-wise status replacement, only after the server accepted the update; a failure keeps them and raises the fixed alert |
| FeedbackTable.Table.HandleBatchSync | frontend/src/components/admin/FeedbackTable.tsx:34-45 | a cancelled or empty key sends nothing and changes nothing; otherwise the key goes to the batch-sync call; success reports the count and reloads exactly once; failure shows the server's detail or "Invalid Key" and reloads nothing |
| FeedbackTable.BatchSyncVisible | frontend/src/components/admin/FeedbackTable.tsx:226-233 | the batch-sync button is shown exactly when some record is approved |
| UseAnalysis.Poller.Mount | frontend/src/hooks/useAnalysis.ts:5-33 | mounting starts the first run with no status, results or error, sends that run's first poll at once and schedules its interval |
| UseAnalysis.Poller.Tick | frontend/src/hooks/useAnalysis.ts:33 | each tick of the current run's interval sends exactly one more poll of that run and changes nothing else |
| UseAnalysis.Poller.OnStatusReply | frontend/src/hooks/useAnalysis.ts:13-30 | a good reply is stored first; `completed` sends that run's results request; `failed` records "Analysis failed" and clears the interval of the run that sent the poll; another status changes nothing more; a thrown error records the server's detail or "Failed to fetch status" and clears that run's interval; the current run's interval stops only when the reply is its own |
| UseAnalysis.Poller.OnResultsReply | frontend/src/hooks/useAnalysis.ts:19-29 | the results reply stores the results, or records the error, and clears the interval of the run that asked, so the current run stops only on its own reply |
| UseAnalysis.Poller.ClearInterval | frontend/src/hooks/useAnalysis.ts:22-35 | clearing a run's interval stops polling exactly when that run is the current one, and changes nothing else |
| UseAnalysis.Poller.Teardown | frontend/src/hooks/useAnalysis.ts:35 | teardown clears the interval and changes nothing else |
| UseAnalysis.Poller.ChangeId | frontend/src/hooks/useAnalysis.ts:10-36 | a new job id clears the old run's interval and starts a new run that polls at once and schedules its own interval, keeping the previous state until replies overwrite it |
| UseAnalysis.SinglePoll | frontend/src/hooks/useAnalysis.ts:13-33 | after one poll the reply decides the end state: `completed` shows the results and stops polling, `failed` shows the error without results and stops, any other status keeps polling |
| UseAnalysis.StaleReplyKeepsPolling | frontend/src/hooks/useAnalysis.ts:10-36 | after a switch to a second job, a reply to the first job's poll is shown, whether a status, a failure or an error, but the second job's polling goes on |
| Strings.OrDefault | frontend/src/hooks/useAnalysis.ts:27 | the server's detail is shown when present and non-empty, and the fixed message otherwise |
| Colors.GetRiskColor | frontend/src/utils/colors.ts:1-14 | each of the four level names, in any letter case, gets its own background with white text; any other name gets the gray one |
| Colors.GetRiskBorderColor | frontend/src/utils/colors.ts:16-29 | each of the four level names, in any letter case, gets its own border class; any other name the gray one |
| Colors.GetRiskTextColor | frontend/src/utils/colors.ts:31-44 | each of the four level names, in any letter case, gets its own text class; any other name the gray one |
| Colors.CaseInsensitive | frontend/src/utils/colors.ts:1-44 | two names that differ only in letter case get the same classes from all three helpers |
| Colors.LowerCasedNameSameColors | frontend/src/utils/colors.ts:1-44 | lower-casing a name before the call changes none of the three answers |
| Colors.WhiteTextLast | frontend/src/utils/colors.ts:4-12 | each class list `getRiskColor` can return ends with white text |
| Colors.RiskColorHasWhiteText | frontend/src/utils/colors.ts:1-14 | whatever the name, the background class comes with white text |
| Colors.SameKeys | frontend/src/utils/colors.ts:1-44 | the three helpers fall back to gray on exactly the same names: those that are none of the four levels once lower-cased |
| Colors.DistinctClasses | frontend/src/utils/colors.ts:3-10 | the four levels get four different background classes |
| CompoundDetector.ScoreToSeverity | backend/src/services/compound_detector/compound_detector.py:213-223 | the severity is Critical exactly from 85, High exactly in [70, 85), Medium exactly in [50, 70) and Low exactly below 50 |
| CompoundDetector.SeverityMonotone | backend/src/services/compound_detector/compound_detector.py:213-223 | a higher score never gets a lower severity |
| CompoundDetector.MeanBounds | backend/src/services/compound_detector/compound_detector.py:89-122 | the truncated mean of scores that all lie in [lo, hi] (lo not negative) lies in [lo, hi] |
| Seqs.TruncDiv | backend/src/services/compound_detector/compound_detector.py:89 | `int()` of a quotient truncates toward zero: for a non-negative numerator it is the floor quotient |
| CompoundDetector.DetectPatternRisks | backend/src/services/compound_detector/compound_detector.py:68-105 | the pattern step yields the pattern risks of the dangerous-pattern table, in table order |
| CompoundDetector.PatternInvolvesSome | backend/src/services/compound_detector/compound_detector.py:74-88 | a firing pattern always has at least one affected clause and one involved score |
| CompoundDetector.PatternRisk | backend/src/services/compound_detector/compound_detector.py:74-100 | a pattern risk has the pattern's type, a score of at most 100 and the severity of that score |
| CompoundDetector.PatternRiskFacts | backend/src/services/compound_detector/compound_detector.py:79-100 | a firing pattern's risk lists the chunk ids of the relevant analyses in its categories, in input order, never empty (so the fallback 50 is never used); its score is the truncated mean of the involved scores plus 15, capped at 100, with the matching severity |
| CompoundDetector.PatternRiskBounded | backend/src/services/compound_detector/compound_detector.py:85-91 | on analyses scored in [0, 100] a pattern risk scores in [15, 100] |
| CompoundDetector.PatternRisksExact | backend/src/services/compound_detector/compound_detector.py:76-105 | at most one risk per pattern; a risk is produced exactly when some pattern's categories are all present among the relevant analyses, and it is that pattern's risk |
| CompoundDetector.AddToGroupOf | backend/src/services/compound_detector/compound_detector.py:116-118 | adding an analysis appends it to its category's list and leaves every other category's list alone |
| CompoundDetector.AddToGroupKeys | backend/src/services/compound_detector/compound_detector.py:116-118 | a new category is appended to the dictionary's keys; a known one leaves them as they were |
| CompoundDetector.AddToGroup | backend/src/services/compound_detector/compound_detector.py:116-118 | adding an analysis adds a dictionary entry exactly when its category is new |
| CompoundDetector.GroupOfIsHighIn | backend/src/services/compound_detector/compound_detector.py:113-118 | each category's list holds exactly its relevant analyses scoring 70 or more, in input order |
| CompoundDetector.GroupKeysAreCategories | backend/src/services/compound_detector/compound_detector.py:113-118 | the dictionary has each category once, and exactly the categories that have such an analysis |
| CompoundDetector.DetectSeverityEscalation | backend/src/services/compound_detector/compound_detector.py:107-136 | the escalation step yields one risk per grouped category with at least two analyses, in order of first appearance |
| CompoundDetector.GroupHighRisk | backend/src/services/compound_detector/compound_detector.py:113-118 | the grouping loop builds the insertion-ordered dictionary of high-risk analyses by category |
| CompoundDetector.EscalationRisk | backend/src/services/compound_detector/compound_detector.py:120-131 | a category's escalation is named after the category, lists the chunk ids of its analyses one for one and in order, scores at most 100 and has the severity of its score |
| CompoundDetector.EscalateGroups | backend/src/services/compound_detector/compound_detector.py:120-134 | the loop over the dictionary yields one escalation per entry of at least two, in dictionary order |
| CompoundDetector.EscalationsFromGroups | backend/src/services/compound_detector/compound_detector.py:120-131 | every escalation risk comes from a dictionary entry of at least two analyses, and is that entry's risk |
| CompoundDetector.EscalationsScoreHigh | backend/src/services/compound_detector/compound_detector.py:115-130 | when every grouped score lies in [70, 100], each escalation scores in [80, 100] and is High or Critical |
| CompoundDetector.DeduplicateRisks | backend/src/services/compound_detector/compound_detector.py:198-211 | the de-duplication keeps the first risk of every (type, affected ids regardless of order) key, in input order |
| CompoundDetector.DeduplicatedAreDistinct | backend/src/services/compound_detector/compound_detector.py:198-211 | no two kept risks share a type and the same affected ids, each kept risk was an input, and de-duplicating again changes nothing |
| CompoundDetector.LlmRisks | backend/src/services/compound_detector/compound_detector.py:138-196 | with fewer than two relevant clauses scoring 50 or more the model is not asked and nothing is added; an answer that raised or fails validation adds nothing; a valid answer is taken as it is |
| CompoundDetector.DetectCompoundRisks | backend/src/services/compound_detector/compound_detector.py:36-66 | fewer than two analyses give nothing and ask no model; otherwise the pattern, escalation and model risks, in that order, are de-duplicated, and the model is asked exactly when two clauses qualify |
| CompoundDetector.PatternRisksAreValid | backend/src/services/compound_detector/compound_detector.py:85-100 | on analyses scored in [0, 100] every pattern risk has a score the schema accepts |
| CompoundDetector.EscalationRisksAreValid | backend/src/services/compound_detector/compound_detector.py:113-131 | on analyses scored in [0, 100] every escalation risk has a score the schema accepts |
| CompoundDetector.AllRisksAreValid | backend/src/services/compound_detector/compound_detector.py:48-61 | on analyses scored in [0, 100] every collected risk has a score in [0, 100] |
| CompoundDetector.DetectedRisksAreValid | backend/src/services/compound_detector/compound_detector.py:36-66 | on analyses scored in [0, 100] every reported compound risk has a score in [0, 100] |
| AdversarialAnalyzer.ScoreToLevel | backend/src/services/risk_analyzer/adversarial_analyzer.py:238-246 | the level is Critical exactly from 76, High exactly in [51, 76), Medium exactly in [26, 51) and Low exactly below 26 |
| AdversarialAnalyzer.LevelMonotone | backend/src/services/risk_analyzer/adversarial_analyzer.py:238-246 | a higher score never gets a lower level |
| AdversarialAnalyzer.LineTextTag | backend/src/services/risk_analyzer/adversarial_analyzer.py:220-233 | every summary line has a third character that tells its kind apart |
| AdversarialAnalyzer.FormatParameters | backend/src/services/risk_analyzer/adversarial_analyzer.py:218-235 | the summary is the parameter lines, in the order notice, amounts, mutuality, written notice, cause, cap, joined by newlines |
| AdversarialAnalyzer.ParameterLinesShape | backend/src/services/risk_analyzer/adversarial_analyzer.py:218-233 | the summary starts with the notice, amounts and mutuality lines and continues with at most three flag lines |
| AdversarialAnalyzer.ParameterLinesCount | backend/src/services/risk_analyzer/adversarial_analyzer.py:218-233 | the summary has between one and six lines |
| AdversarialAnalyzer.MutualityLineFacts | backend/src/services/risk_analyzer/adversarial_analyzer.py:224-227 | exactly one line, right after the notice and amounts lines, says whether the clause is mutual, and it agrees with the flag |
| AdversarialAnalyzer.NoticeLineFacts | backend/src/services/risk_analyzer/adversarial_analyzer.py:220-221 | a notice line appears exactly when a non-zero number of days was found |
| AdversarialAnalyzer.AmountsLineFacts | backend/src/services/risk_analyzer/adversarial_analyzer.py:222-223 | an amounts line appears exactly when amounts were found, and it carries exactly those amounts |
| AdversarialAnalyzer.FallbackUnreachable | backend/src/services/risk_analyzer/adversarial_analyzer.py:235 | the "No specific parameters extracted" fallback is never produced, since the mutuality line is always there |
| AdversarialAnalyzer.LineTextInjective | backend/src/services/risk_analyzer/adversarial_analyzer.py:220-233 | two lines with the same text are of the same kind, and equal unless they are notice or amounts lines |
| AdversarialAnalyzer.ArbiterFallbackConsistent | backend/src/services/risk_analyzer/adversarial_analyzer.py:211-246 | the arbiter's fallback level "Medium" is the level its score of 50 would get |
| AdversarialAnalyzer.ArbiterOutcome | backend/src/services/risk_analyzer/adversarial_analyzer.py:169-216 | the verdict always has a score in [0, 100] and the level of that score: a valid reply with its level recomputed, otherwise the fallback |
| AdversarialAnalyzer.AnalyzeRisk | backend/src/services/risk_analyzer/adversarial_analyzer.py:27-89 | with `params` the result of ParameterExtractor.Extract on the chunk's text, the analysis is always for the given chunk and category, valid, and its level is the level of its score; a clause the pessimist finds not relevant gets the default (score 0, Low) after the pessimist alone; otherwise the three agents run in order, the final score is the arbiter's and the first three precedents of each kind are kept |
| ContractAnalyzer.OverallRisk | backend/src/services/analyzer.py:85 | the overall level is Critical exactly from an average of 75, High exactly in [60, 75), Medium exactly in [40, 60) and Low below 40 |
| ContractAnalyzer.AnalyzeContract | backend/src/services/analyzer.py:23-104 | the report counts all chunks; its risky clauses are the entries of exactly the kept chunks in document order; the compound risks are those the detector gives on the kept analyses; the average is the mean kept score (0 for none), the overall level is the level of that average, and the flagged categories are those of the kept clauses |
| ContractAnalyzer.KeptChunksExact | backend/src/services/analyzer.py:33-44 | a chunk is reported exactly when the classifier sends it to review and the debate finds it relevant with a score of 50 or more; reported chunks keep document order |
| ContractAnalyzer.KeptStep | backend/src/services/analyzer.py:33-64 | one pass of the chunk loop adds exactly one report entry and one analysis for a kept chunk, and nothing for any other |
| ContractAnalyzer.ClausesAligned | backend/src/services/analyzer.py:44-64 | report entry k and analysis k come from the same chunk, with the same category, score and level, and every kept score is at least 50 |
| ContractAnalyzer.NoClausesIsLow | backend/src/services/analyzer.py:84-85 | a contract with no risky clause has average 0 and is overall Low |
| ContractAnalyzer.AverageAtLeast50 | backend/src/services/analyzer.py:84 | the average of scores that are all at least 50 is at least 50 |
| ContractAnalyzer.AnyClauseIsNotLow | backend/src/services/analyzer.py:41-85 | a report with at least one risky clause is never overall Low |
| CategoryDetector.ApplyZoneLogic | backend/src/rag/category_detector.py:59-99 | below 0.44 the chunk is noise without review; from 0.85 it is safe without review exactly when the best safe standard is more than 0.90 similar, and courtroom with review otherwise; in between it is courtroom with review; review is needed exactly in the courtroom |
| CategoryDetector.ZonesAreOrdered | backend/src/rag/category_detector.py:66-99 | a higher similarity never moves a chunk from the courtroom or safe zone back to noise |
| CategoryDetector.DetectCategory | backend/src/rag/category_detector.py:18-57 | no prototype gives the fixed "Unknown" noise answer; otherwise the detection fails exactly when the similarity is outside [0, 1] (the confidence constraint), and a successful one carries the top category, the similarity, the zone decision, and retrieved examples only when review is needed |
| CategoryDetector.DetectionConsistent | backend/src/rag/category_detector.py:18-57 | every successful detection needs review exactly in the courtroom, carries examples only when it needs review, and has a confidence in [0, 1] |
| CategoryDetector.DistantPrototypeFails | backend/src/rag/category_detector.py:35-51 | a prototype at distance 1.2 (similarity -0.2) makes detection fail instead of giving noise |
| CategoryDetector.Clamp | backend/src/rag/category_detector.py:50 | the clamped confidence lies in [0, 1] and equals the similarity whenever that already does |
| CategoryDetector.DetectCategoryClamped | backend/src/rag/category_detector.py:18-57 | with the confidence clamped, detection always answers, a distant prototype gives noise without review or examples, and it agrees with the detection as written whenever that succeeds |
| LlmClient.Plan | backend/src/core/llm_client.py:70-97 | the models are tried primary first, in their configured order, then the fallback models in order, and the fallback models only when a fallback client exists |
| LlmClient.Tagged | backend/src/core/llm_client.py:74-77 | one provider's loop calls each model of its list, in order, on that provider |
| LlmClient.TryAllFirstAnswer | backend/src/core/llm_client.py:74-116 | the first call that answers with non-empty content decides the answer, and exactly the responses up to and including it are counted |
| LlmClient.TryAllNoAnswer | backend/src/core/llm_client.py:74-116 | when no call answers, the last call's error is reported (none when there was no call) and every response is counted |
| LlmClient.TryAllCountFree | backend/src/core/llm_client.py:50-113 | the answer of the model sequence does not depend on the counter's starting value, and the counter grows by the same amount |
| LlmClient.Client.constructor | backend/src/core/llm_client.py:22-52 | a new client has counted no call |
| LlmClient.Client.GetCompletion | backend/src/core/llm_client.py:55-101 | a request whose estimated prompt tokens plus `max_tokens` exceed 10000 is refused before any call and counts nothing; otherwise the answer is the first non-empty one along the plan, or the all-models-failed error with the last error, and the counter grows by exactly the responses received along the plan |
| LlmClient.TryAllAppend | backend/src/core/llm_client.py:70-97 | trying the primary models and then the fallback models is trying their concatenation: the fallback models run only when no primary model answered, starting from its counter and last error |
| LlmClient.Client.TryModels | backend/src/core/llm_client.py:74-97 | one provider's model loop returns the first answer among its models, or the last error, and counts the responses exactly as the specification of the plan does |
| LlmClient.Client.ExecuteCall | backend/src/core/llm_client.py:103-116 | every response is counted, a raised call is not; a call succeeds exactly when its content is present and non-empty, and then returns that content; otherwise it fails with the exception or "Empty response from LLM" |
| LlmClient.StripFences | backend/src/core/llm_client.py:164-171 | the cleaned answer never has whitespace at either end |
| LlmClient.StripJsonFence | backend/src/core/llm_client.py:164-171 | an answer fenced as JSON gives back exactly its body |
| LlmClient.StripBareFence | backend/src/core/llm_client.py:164-171 | an answer fenced with a bare fence gives back exactly its body, unless the body begins with "json" |
| LlmClient.UnfenceBare | backend/src/core/llm_client.py:164-170 | removing the fences of a bare-fenced answer gives back its body, unless the body begins with "json" or a backtick |
| LlmClient.StripNoFence | backend/src/core/llm_client.py:164-171 | an unfenced answer with no outer whitespace and no backtick at either end is left as it is |
| LlmClient.AttachSchema | backend/src/core/llm_client.py:148-152 | the schema instructions are appended, after a blank line, to a leading system message, or put in a new system message in front; no other message changes |
| LlmClient.AttemptOutcome | backend/src/core/llm_client.py:155-190 | one attempt never yields the fall-through error: it is the completion's failure, the decoded value, or the decoder's failure |
| LlmClient.RetriesFacts | backend/src/core/llm_client.py:155-192 | the retry loop makes between one and `max_retries` attempts, every attempt before the last failed, it reports the last attempt's outcome, and it fails only after using up every attempt |
| LlmClient.Client.Attempt | backend/src/core/llm_client.py:156-190 | one pass of the retry loop asks for a completion of at most 800 tokens, strips the fences and decodes; an unparsable answer is reported with its first 200 characters; the counter grows by the responses that completion received |
| LlmClient.Client.GetStructuredCompletion | backend/src/core/llm_client.py:119-192 | with no attempt allowed the fall-through error is raised; otherwise the outcome and number of attempts are those of the retry loop over the attempts with the schema attached, and the counter grows by the responses of all attempts made |
| LlmClient.AttemptsCallsStep | backend/src/core/llm_client.py:155-163 | the responses counted over one more attempt are those counted before plus that attempt's |
| TextUtils.TruncateForContext | backend/src/utils/text_utils.py:36-48 | a text within `max_tokens * 4` characters is returned as it is; a longer one becomes a prefix of itself followed by "...", at most `max_tokens * 4 + 3` characters long |
| TextUtils.TruncateCut | backend/src/utils/text_utils.py:42-48 | a long text is cut just after its last period within the budget exactly when that period lies beyond four fifths of the budget (no period follows it within the budget); otherwise the whole budget is kept |
| Strings.RFindChar | backend/src/utils/text_utils.py:43 | `rfind` gives the last index of the character, and -1 when it does not occur |
| Strings.Split | backend/src/utils/text_utils.py:15 | splitting on a character gives at least one piece, none holding the separator, and joining them back gives the text |
| TextUtils.RemoveChar | backend/src/utils/text_utils.py:5-7 | the removed character no longer occurs, and nothing new is introduced |
| TextUtils.Squeeze | backend/src/utils/text_utils.py:9-12 | squeezing never lengthens the text and introduces no new character |
| TextUtils.SqueezeRuns | backend/src/utils/text_utils.py:9-12 | after squeezing no run of the character is longer than the limit (1 for spaces, 2 for newlines) |
| TextUtils.SqueezeKeepsOthers | backend/src/utils/text_utils.py:9-12 | squeezing only drops copies of the squeezed character: every other character stays, in order |
| TextUtils.SqueezeShort | backend/src/utils/text_utils.py:9-12 | a text whose runs are already within the limit is left as it is |
| TextUtils.RemoveAbsent | backend/src/utils/text_utils.py:5-7 | removing a character the text does not hold changes nothing |
| TextUtils.CleanJoin | backend/src/utils/text_utils.py:15-17 | a newline-joined text is free of NULs, zero-width spaces and double spaces exactly when each line is |
| TextUtils.BlankLines | backend/src/utils/text_utils.py:16 | blanking keeps the number of lines |
| TextUtils.BlankLinesFacts | backend/src/utils/text_utils.py:16 | after blanking every line is empty or holds a non-whitespace character |
| TextUtils.SqueezedIsClean | backend/src/utils/text_utils.py:5-12 | after the removals and the two squeezes the text has no NUL, no zero-width space and no two adjacent spaces |
| TextUtils.CleanText | backend/src/utils/text_utils.py:3-19 | the cleaned text has no NUL, no zero-width space, no two adjacent spaces, and no whitespace at either end |
| TextUtils.CleanTextLeavesNewlineRuns | backend/src/utils/text_utils.py:12-17 | as written, "a\n \n \nb" cleans to "a\n\n\nb": three newlines in a row survive |
| TextUtils.CleanTextFixed | backend/src/utils/text_utils.py:3-19 | with the newline squeeze done last, the cleaned text keeps every property above and also never has more than two newlines in a row |
| TextUtils.SqueezeNoDouble | backend/src/utils/text_utils.py:9-12 | squeezing newlines after spaces does not bring two spaces together |
| TextUtils.BlankedIsClean | backend/src/utils/text_utils.py:5-17 | blanking the whitespace-only lines of a cleaned text keeps it free of NULs, zero-width spaces and double spaces |
| TextUtils.StripClean | backend/src/utils/text_utils.py:19 | stripping keeps a clean text clean |
| SemanticChunker.StripAll | backend/src/services/document_processor/semantic_chunker.py:54 | one stripped piece per raw piece, in order |
| SemanticChunker.Sentences | backend/src/services/document_processor/semantic_chunker.py:45-56 | every kept sentence is longer than 20 characters, non-empty and has no whitespace at either end |
| SemanticChunker.SentenceNotBlank | backend/src/services/document_processor/semantic_chunker.py:54 | a kept sentence is never blank |
| SemanticChunker.Slice | backend/src/services/document_processor/semantic_chunker.py:101 | a sentence slice within bounds is exactly that sub-sequence, and never longer than the sentence list |
| SemanticChunker.TextSlice | backend/src/services/document_processor/semantic_chunker.py:115-116 | a clamped text slice is never longer than the text, nor than the window it asks for |
| SemanticChunker.Drops | backend/src/services/document_processor/semantic_chunker.py:79-81 | every drop position lies between 1 and the number of similarities |
| SemanticChunker.DropsFacts | backend/src/services/document_processor/semantic_chunker.py:79-81 | the drops increase strictly, and position j is a drop exactly when similarity j - 1 is under the threshold |
| SemanticChunker.Breakpoints | backend/src/services/document_processor/semantic_chunker.py:73-86 | there are breakpoints exactly when there are similarities, and then they start at 0 and end at the sentence count |
| SemanticChunker.BreakpointsFacts | backend/src/services/document_processor/semantic_chunker.py:73-86 | the breakpoints start at 0, increase strictly, end at the sentence count, and an inner position is a breakpoint exactly when the similarity before it is under the threshold |
| SemanticChunker.FindBreakpoints | backend/src/services/document_processor/semantic_chunker.py:58-86 | returns the breakpoint list of the specification function: none without similarities, else 0, the drops and the sentence count |
| SemanticChunker.MarkDrops | backend/src/services/document_processor/semantic_chunker.py:77-80 | the loop collects 0 and then, in order, every position whose preceding similarity is under the threshold |
| SemanticChunker.Sims | backend/src/services/document_processor/semantic_chunker.py:64-71 | one similarity per pair of neighbouring sentences, the i-th being that of sentences i and i + 1 |
| SemanticChunker.Similarities | backend/src/services/document_processor/semantic_chunker.py:64-71 | the loop collects exactly those similarities |
| SemanticChunker.ChunkBody | backend/src/services/document_processor/semantic_chunker.py:101-108 | a pair's text is dropped exactly when the joined sentences are under 100 characters; a kept text is 100 to 800 characters |
| SemanticChunker.Context | backend/src/services/document_processor/semantic_chunker.py:115-125 | a context window is absent exactly when its slice is blank, and otherwise is a non-blank text no longer than the slice |
| SemanticChunker.StripNotBlank | backend/src/services/document_processor/semantic_chunker.py:120 | a text whose strip is non-empty strips to a non-blank text |
| SemanticChunker.JoinedFacts | backend/src/services/document_processor/semantic_chunker.py:102 | a non-empty joined text comes from at least one sentence and starts with the first |
| SemanticChunker.MakeChunk | backend/src/services/document_processor/semantic_chunker.py:110-126 | a chunk is numbered for its pair, starts at a non-negative offset and spans the length of its text, stores that text stripped, has no words exactly when the text is blank, and has context windows of at most 50 characters |
| SemanticChunker.StartOf | backend/src/services/document_processor/semantic_chunker.py:110-112 | a chunk starts at the first occurrence of its first sentence in the full text, or at 0 when there is none |
| Strings.Find | backend/src/services/document_processor/semantic_chunker.py:110 | `find` gives the first index where the text matches, and -1 exactly when it never does |
| Strings.ZeroPad3 | backend/src/services/document_processor/semantic_chunker.py:119 | a chunk number is written with at least three digits |
| Strings.WordCount | backend/src/services/document_processor/semantic_chunker.py:123 | the word count is at most the length, and 0 exactly for a blank text |
| SemanticChunker.ChunkAtFacts | backend/src/services/document_processor/semantic_chunker.py:97-128 | a kept chunk has id chunk_NNN for its pair, spans 100 to 800 characters, starts where its first sentence is found (or at 0), has stored text that is non-empty and stripped, and context windows of at most 50 characters |
| SemanticChunker.KeptIndices | backend/src/services/document_processor/semantic_chunker.py:97-128 | the kept chunks come one for one from the increasing pair indices whose chunk is long enough, and from no others |
| SemanticChunker.ChunkOfPair | backend/src/services/document_processor/semantic_chunker.py:98-128 | one loop pass yields the chunk of its pair, or none |
| SemanticChunker.CreateChunks | backend/src/services/document_processor/semantic_chunker.py:88-130 | the loop returns the kept chunks of all pairs of consecutive breakpoints, in order |
| SemanticChunker.ChunkText | backend/src/services/document_processor/semantic_chunker.py:18-43 | a text with fewer than two sentences is its own single chunk; otherwise the chunks come from the breakpoints of the neighbouring similarities under the percentile threshold |
| SemanticChunker.ShortTextChunk | backend/src/services/document_processor/semantic_chunker.py:132-145 | the single chunk of a short text is refused by the chunk validator exactly when the text is blank; otherwise it is chunk_001 covering the whole text, stripped |
| DefinitionExtractor.Context | backend/src/services/document_processor/definition_extractor.py:26 | the context is at most 100 characters and is the text just before the match |
| DefinitionExtractor.Extract | backend/src/services/document_processor/definition_extractor.py:12-57 | the result is the candidates (pattern 1 then pattern 2) de-duplicated on the lower-cased term |
| DefinitionExtractor.CollectCandidates | backend/src/services/document_processor/definition_extractor.py:22-47 | the two loops yield one stripped definition per match, pattern-1 matches first |
| DefinitionExtractor.DeduplicateTerms | backend/src/services/document_processor/definition_extractor.py:49-54 | the loop keeps the first definition of each lower-cased term, in order |
| DefinitionExtractor.ExtractedTermsDistinct | backend/src/services/document_processor/definition_extractor.py:49-54 | no two extracted definitions share a term, ignoring case |
| DefinitionExtractor.ExtractedAreCandidates | backend/src/services/document_processor/definition_extractor.py:49-54 | the extracted definitions are a subsequence of the candidates and every candidate's term is represented |
| DefinitionExtractor.ExtractedAreFirst | backend/src/services/document_processor/definition_extractor.py:52-54 | each extracted definition is the first candidate with its term |
| DefinitionExtractor.ExtractedSections | backend/src/services/document_processor/definition_extractor.py:26-47 | a kept pattern-1 definition carries the section found before its match; a kept pattern-2 definition has none |
| DefinitionExtractor.DefinitionDict | backend/src/services/document_processor/definition_extractor.py:59-62 | the dictionary's keys are exactly the lower-cased terms |
| DefinitionExtractor.DefinitionDictLastWins | backend/src/services/document_processor/definition_extractor.py:62 | a key maps to the definition of the last entry with that lower-cased term |
| DefinitionExtractor.ExtractedDictionary | backend/src/services/document_processor/definition_extractor.py:59-62 | the dictionary of the extracted definitions maps each extracted term, lower-cased, to its own definition |
| MetadataExtractor.PatternParties | backend/src/services/document_processor/metadata_extractor.py:50-55 | the names one pattern yields are all plausible (4 to 99 characters), and none come from no matches |
| MetadataExtractor.PatternAttempt | backend/src/services/document_processor/metadata_extractor.py:49-57 | a pattern contributes exactly when it yields at least two plausible names, and then contributes the first two |
| MetadataExtractor.PartiesFoundFirst | backend/src/services/document_processor/metadata_extractor.py:47-57 | the parties found are the contribution of the first pattern that contributes, all earlier ones contributing nothing |
| MetadataExtractor.PartiesFoundNone | backend/src/services/document_processor/metadata_extractor.py:47-59 | no parties are found exactly when none of the three patterns contributes |
| MetadataExtractor.PartiesFoundPlausible | backend/src/services/document_processor/metadata_extractor.py:55-57 | the parties found are two plausible names |
| MetadataExtractor.ExtractParties | backend/src/services/document_processor/metadata_extractor.py:37-59 | the pattern loop with its early return finds the parties of the first 2000 characters as the specification function does |
| MetadataExtractor.CleanDate | backend/src/services/document_processor/metadata_extractor.py:74-75 | a cleaned date holds only word characters, whitespace and commas |
| MetadataExtractor.DateAttempt | backend/src/services/document_processor/metadata_extractor.py:73-77 | a pattern gives a date exactly when it matched and its cleaned capture has 4 to 49 characters; that cleaned capture is the date |
| MetadataExtractor.EffectiveDateFoundFirst | backend/src/services/document_processor/metadata_extractor.py:71-77 | the date found is that of the first pattern whose cleaned capture is plausible, all earlier ones giving nothing |
| MetadataExtractor.EffectiveDateFoundNone | backend/src/services/document_processor/metadata_extractor.py:71-79 | no date is found exactly when no pattern gives one |
| MetadataExtractor.EffectiveDateFoundPlausible | backend/src/services/document_processor/metadata_extractor.py:74-77 | a date found has 4 to 49 characters, all word characters, whitespace or commas |
| MetadataExtractor.ExtractEffectiveDate | backend/src/services/document_processor/metadata_extractor.py:61-79 | the pattern loop with its early return finds the date of the first 2000 characters as the specification function does |
| MetadataExtractor.ExtractAmounts | backend/src/services/document_processor/metadata_extractor.py:81-87 | the amounts have no repeats and are exactly the matched amounts |
| MetadataExtractor.ClassifyContractType | backend/src/services/document_processor/metadata_extractor.py:89-105 | the type is that of the first group, in the fixed priority, one of whose terms occurs in the lower-cased first 3000 characters, and "General Contract" exactly when none does |
| Strings.ContainsAny | backend/src/services/document_processor/metadata_extractor.py:94 | some term of the list occurs in the text exactly when the scan says so |
| Strings.ToLower | backend/src/services/document_processor/metadata_extractor.py:92 | lower-casing keeps the length and maps each ASCII capital to its small letter, leaving other characters alone |
| MetadataExtractor.NdaInsideAnyWord | backend/src/services/document_processor/metadata_extractor.py:92-95 | "nda" anywhere in the first 3000 characters, even inside a longer word, makes the contract an NDA |
| MetadataExtractor.Extract | backend/src/services/document_processor/metadata_extractor.py:11-35 | parties, date and the first five amounts overwrite the metadata only when found; the type is set only when unset or empty; file name, size and page count are unchanged |
| MetadataExtractor.ExtractedFieldsBounded | backend/src/services/document_processor/metadata_extractor.py:28-86 | stored parties are two plausible names; stored amounts are at most five and distinct |
| ParameterExtractor.RawTextMarkers | backend/src/services/risk_analyzer/parameter_extractor.py:56-62 | the five markers, in their fixed order, each true exactly when its phrase (or one of its two phrases) occurs in the lower-cased clause |
| ParameterExtractor.Extract | backend/src/services/risk_analyzer/parameter_extractor.py:11-64 | the numbers, amounts and regex flags are what the patterns found (absent numbers stay unset); the cap and cure flags hold exactly when one of their phrases occurs in the lower-cased clause; the markers are those of the lower-cased clause |
| ParameterExtractor.CapPhraseSetsFlag | backend/src/services/risk_analyzer/parameter_extractor.py:50-51 | a cap phrase anywhere in a clause, at any position and inside any word, sets the cap flag |
| Strings.Contains | backend/src/services/risk_analyzer/parameter_extractor.py:57-61 | the left-to-right scan finds a phrase exactly when it occurs somewhere in the text |
| Models.DocumentMetadata.constructor | backend/src/core/models.py:6-15 | a new metadata record holds the file name, size and page count, with type, parties, date and amounts all unset |
| Models.MakeVerdict | backend/src/core/models.py:225-229 | a verdict is built exactly when its score lies in [0, 100], and then holds the given fields |
| Models.MakeCompoundRisk | backend/src/core/models.py:270-276 | a compound risk is built exactly when its combined score lies in [0, 100], and then holds the given fields |
| Models.MakeCategoryDetection | backend/src/core/models.py:201-211 | a detection is built exactly when its confidence lies in [0.0, 1.0], and then holds the given fields |
| Models.DefaultRiskAnalysis | backend/src/core/models.py:245-261 | an analysis built from id, category and relevance has no agent outputs, no parameters, no precedents, score 0 and level Low |
| Models.ValidateChunkText | backend/src/core/models.py:56-61 | chunk text is refused exactly when blank, and otherwise stored stripped: non-empty with no whitespace at either end |
| Models.ValidateChunkTextIdempotent | backend/src/core/models.py:56-61 | validating an already validated text accepts it unchanged |
| Models.MakeSemanticChunk | backend/src/core/models.py:43-61 | a chunk is refused exactly when its text is blank; otherwise it holds the given fields with the text stripped |
| CuadExtract.MapCategoryName | backend/build_pipeline/cuad_extract.py:23-30 | the first of the three CUAD labels that occurs in the question decides the category, and "Unknown" exactly when none occurs |
| CuadExtract.KeywordLabelIsCategorised | backend/build_pipeline/cuad_extract.py:116-121 | a question that passes the keyword filter is filed under one of the three categories, never "Unknown" |
| CuadExtract.QaCandidates | backend/build_pipeline/cuad_extract.py:114-124 | a question yields at most one candidate; it yields one exactly when it names a target keyword and its first answer has 61 to 999 characters, and that candidate is the first answer filed under the mapped category |
| CuadExtract.AllCandidatesGood | backend/build_pipeline/cuad_extract.py:111-125 | every candidate of the dataset has an answer of 61 to 999 characters and one of the three categories |
| CuadExtract.ExtractCandidates | backend/build_pipeline/cuad_extract.py:105-125 | a missing file gives no candidates; otherwise every question of every paragraph of every document is examined in file order |
| CuadExtract.CheckQuality | backend/build_pipeline/cuad_extract.py:32-103 | without a key every clause is accepted as it is; a raised request, a status other than 200 or an undecodable reply rejects it with its text unchanged; a changed text only comes from a reply that accepts the clause |
| CuadExtract.TallyExact | backend/build_pipeline/cuad_extract.py:134-146 | tallying from zero counts keeps the three keys and counts exactly the kept clauses of each category |
| CuadExtract.LoadCuad | backend/build_pipeline/cuad_extract.py:127-152 | the kept clauses are the accepted candidates in order, each with its cleaned text, and the counts tally them |
| CuadExtract.ReviewedPrefixFacts | backend/build_pipeline/cuad_extract.py:137-146 | after any number of candidates the loop's kept list is their review and its counts tally that list |
| CuadExtract.ReviewAndCount | backend/build_pipeline/cuad_extract.py:137-146 | the review loop returns the review of all candidates and its tally |
| CuadExtract.ReviewedIsSelection | backend/build_pipeline/cuad_extract.py:142-144 | review never adds a clause: each kept clause is an accepted candidate with only its text replaced by the cleaned text |
| CuadExtract.NoKeyKeepsAll | backend/build_pipeline/cuad_extract.py:33-34 | without an API key every candidate is kept unchanged |
| CuadExtract.CountsAddUp | backend/build_pipeline/cuad_extract.py:134-146 | when every clause has a known category, the three counts add up to the number kept |
| CuadExtract.ScanParagraph | backend/build_pipeline/cuad_extract.py:114-124 | the question loop of one paragraph yields the candidates of its questions, in order |
| CuadExtract.ScanDocument | backend/build_pipeline/cuad_extract.py:113-124 | the paragraph loop of one document yields the candidates of its paragraphs, in order |
| PipelineRun.Text | backend/build_pipeline/run.py:43-84 | the feedback sent is the empty text exactly for the initial no-feedback value; the retry feedback set after an all-invalid batch is a fixed, non-empty text |
| PipelineRun.BatchRules | backend/build_pipeline/run.py:58-71 | an attempt saves at most one record per draft |
| PipelineRun.BatchRulesSound | backend/build_pipeline/run.py:60-70 | each saved record comes from a valid draft and carries its text, its position as the style and the attempt number counted from one |
| PipelineRun.BatchRulesComplete | backend/build_pipeline/run.py:60-70 | every valid draft of the attempt is saved |
| PipelineRun.BatchRulesEmpty | backend/build_pipeline/run.py:60-73 | an attempt saves nothing exactly when none of its drafts is valid |
| PipelineRun.RunCases | backend/build_pipeline/run.py:46-84 | one turn of the retry loop: a batch with a valid draft ends the loop with its records; an empty or all-invalid batch hands over to the next attempt |
| PipelineRun.RunAttemptCount | backend/build_pipeline/run.py:41-46 | the loop makes at least one and at most three attempts, and saves nothing without one |
| PipelineRun.RunDrafts | backend/build_pipeline/run.py:48 | each attempt's drafts are the generator's answer for that attempt and its feedback |
| PipelineRun.RunExhausts | backend/build_pipeline/run.py:46-87 | a sample for which nothing is saved used all three attempts |
| PipelineRun.RunEarlierAttemptsFailed | backend/build_pipeline/run.py:50-84 | every attempt before the last had no valid draft |
| PipelineRun.RunSavesLastBatch | backend/build_pipeline/run.py:60-76 | the saved records are exactly the valid drafts of the last attempt |
| PipelineRun.RunFeedback | backend/build_pipeline/run.py:43-83 | an attempt asks with feedback exactly when an earlier attempt got a non-empty batch: an empty batch keeps the feedback as it was |
| PipelineRun.ProcessSample | backend/build_pipeline/run.py:41-87 | the retry loop saves what the specification function saves, after one to three attempts, every record stating the number of attempts made |
| PipelineRun.ValidateBatch | backend/build_pipeline/run.py:58-71 | the validation loop saves a record for each valid draft, in draft order |
| PipelineRun.BuildGoldenRules | backend/build_pipeline/run.py:33-87 | the records of every sample, in sample order, each needing one to three attempts |

## Left out

- Language-model, vector-store and HTTP calls are not modelled: their answers are parameters. The prompt texts, the model configuration that chooses the model lists, Langfuse tracing and `time.sleep` between retries are left out with them.
- Regular-expression searches are inputs: sentence splitting, the definition, party, date, amount and parameter patterns, and `sanitize_for_llm` (backend/src/utils/text_utils.py:21-34), which is entirely regex substitutions. Character classes such as `\w` are read as ASCII.
- File system, PDF extraction, unique-id generation, clocks and `extraction_date` are inputs or left out; timestamps are integer milliseconds.
- Logging, progress bars and printed summaries are left out. The pipeline's counts are returned rather than printed, and saving `verified_golden_rules.json` is left out.
- PipelineRun.BuildGoldenRules: takes the samples as an input; whether they come from the cached JSON file or from `load_cuad` (backend/build_pipeline/run.py:21-26) is not modelled.
- Floating point is modelled as exact rationals (`real`) or integers. Float rounding does not appear.
- ContractAnalyzer.AnalyzeContract: the stored average risk is the exact mean; `round(avg, 1)` is not applied.
- LearningLoop.GetImprovementSuggestions: the one-decimal formatting of the rates inside the suggestion texts is not modelled; which suggestions appear, and in what order, is.
- MetadataExtractor.ExtractAmounts: `list(set(matches))` has no defined order in Python; the model keeps first-occurrence order and proves only the membership and distinctness that hold for any order.
- LlmClient.AttachSchema: `messages.copy()` is shallow, so appending the schema to the first system message also changes the caller's message object; the model works on values and does not capture that aliasing.
- CuadExtract.CheckQuality: a reply whose `is_risk` is not a boolean, or whose JSON lacks `choices`, counts as raising; the category-specific prompt rules are not modelled.
- FeedbackRoutes.ReportFalsePositive, FeedbackRoutes.ReportFalseNegative, FeedbackRoutes.ApproveFix: a failure inside the store (the 500 answers) is not modelled.
- `query_user_feedback` and `export_feedback_for_review` (backend/src/services/feedback_manager/feedback_manager.py:207-236, 269-291) are left out: a vector search and a file dump.
- The admin `export-feedback` and `rebuild-db` endpoints (backend/src/api/routes/admin.py:136-177) are left out: they only call the export and the database build scripts.
- AdminRoutes.HealthScore: the metrics dictionary of `get_system_health` around the score is not modelled; the score and the status are.
- DefinitionExtractor.Extract: lower-casing covers ASCII letters only; the case mappings Python's `lower` applies to other letters (for example U+212A KELVIN SIGN to `k`) are not modelled, so two terms that differ only in such letters are kept apart.
- DefinitionExtractor.DeduplicateTerms: lower-casing covers ASCII letters only, as for DefinitionExtractor.Extract.
- DefinitionExtractor.DefinitionDict: lower-casing covers ASCII letters only, as for DefinitionExtractor.Extract.
- MetadataExtractor.ClassifyContractType: lower-casing covers ASCII letters only; a type term written with non-ASCII letters whose lower case is ASCII is not recognised.
- AdminRoutes.GetLearningStatus: the three learning-loop calls of the endpoint each read the statistics again; the model gives them one reading, so a collection that changes between the reads is not modelled.
- AdminRoutes.ClearAllFeedback: the collection is dropped and then created again; a failure of the re-creation after a successful drop (a 500 with the collection already gone) is not modelled.
- Routing is not modelled. The five admin calls of the frontend (`/admin/feedback`, `/admin/feedback/{id}/status`, `/admin/feedback/{id}/sync`, `/admin/feedback/sync-batch`, `/admin/export/csv`, frontend/src/services/api.ts:61-86) match none of the routes of backend/src/api/routes/admin.py:28-221, and backend/src/api/main.py:36-38 does not mount the admin router; AdminRoutes.BrowserDefaultKeyRefused is about the presented key only, not about whether a call reaches an endpoint.
- UseAnalysis.Poller: timers are discrete tick steps; real time and the order in which overlapping replies arrive are not modelled.

## Findings

| source | as written | input that shows it | evidently intended | confidence | as-written member | corrected member |
|---|---|---|---|---|---|---|
| backend/src/utils/text_utils.py:12-19 | runs of three or more newlines are squeezed before whitespace-only lines are emptied, so emptying a line can create a new run of three newlines | "a\n \n \nb" cleans to "a\n\n\nb" | the cleaned text never has more than two newlines in a row | not executed | TextUtils.CleanTextLeavesNewlineRuns | TextUtils.CleanTextFixed |
| backend/src/rag/category_detector.py:35-51 | the confidence is set to `1 - distance`, but the vector store's default distance can exceed 1 (backend/src/rag/vector_store.py:88), and the confidence must lie in [0, 1] (backend/src/core/models.py:201-203) | a nearest prototype at distance 1.2 gives similarity -0.2 and detection raises instead of answering noise | a chunk far from every prototype is noise | not executed | CategoryDetector.DistantPrototypeFails | CategoryDetector.DetectCategoryClamped |
