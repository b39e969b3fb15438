# Verification of the learning platform's core logic

A Dafny 4.11 model of the algorithms and small protocols of the platform's services, with proofs. The whole project is checked by

    dafny verify --resource-limit 2000000 --verification-time-limit 0 dfyconfig.toml

## What is modelled

**Statistic service.** An append-only log of attempts, a knowledge profile per user, a calibration per course, and a cache in front of both.
`StatService` is the service as a class over its log and its cache, one complete operation at a time; `CacheRaces` splits reads into lookup, listing and store, splits the creation of an attempt into append and invalidation, lets any number of them interleave and every step fail, and proves the protocol for any values computed from the log before it instantiates it with profiles and calibrations.
`ProfileFold` is the entry-by-entry fold over a user's attempts, `ProfileGrowth` says what each attempt adds to it, `TagOrder` when it depends on their order, `CourseRates` the second computation of the same numbers over a course's mixed attempts, `Calibration` the calibration itself, `CalibrationLaws` and `CalibrationFigures` its laws and the meaning of its figures. Loops over Go maps pick their keys arbitrarily, so a method that meets a functional specification does so for every iteration order.

**Content service.** `AnswerChecking` is the verdict on an answer (tokenise, parse, sort, compare, or compare as words), `AnswerMatching` the theorem about sorted comparison, `AnswerMeaning` what single answers are worth. `ScopeTags` and `TaskCreation` are the pipeline that dedupes and merges tags, asks an evaluator for missing weights, and rescales weights in place; `CreatedTasks` says what a created task is made of and when creating it succeeds.

**Recommendation service.** `Weakness` collects the weak tags, `Cosine` and `Ranking` score tasks (`RankingFigures` says what a score is made of), `TaskSelection` and `TheorySelection` are the two greedy choices, `Workbook` interleaves theory and tasks and lays out the numbered LaTeX sections, `Recommendation` runs the whole way from a request to the sections. `LatexEscape` compares the Python and the Go escaping.

**Two protocols.** `AttemptConsumer` is the Kafka fetch/handle/commit loop that feeds the attempt log, over any number of sessions. `Migrations` is the migration runner under repeated, interrupted runs.

The remaining modules are shared: `Orders` (sorting), `Permutations` (pigeonhole, reorderings), `Positions`, `MapLoops`, `Sums`, `Reals`, `Rounding`, `PythonRounding`, `Text`, `StatDomain`, `CacheModel`, `Sequences`, `Outcomes`.

## Main results

- *Answers.* Sorting both lists and comparing position by position within 1e-6 accepts exactly when the values can be paired off one to one, each pair within 1e-6. The verdict is symmetric, accepts an answer against itself exactly when it is not blank, and ignores order and separators of numeric answers. A fraction is worth its quotient, and a decimal accepts every fraction of its value.
- *Cache.* A new attempt that tells its user's profile something - it names a topic, or a tag whose weights in it do not cancel - deletes exactly the keys whose values it changes. In a run of complete operations the cache is current at every moment if each creation deletes its keys or finds none of them cached, and only if, when the attempts tell something. Under interleaving every value cached, held or answered is the value of one state of the log that really occurred. An invalidation is made once: values are out of date only while one for their key is still to be made, if no last invalidation for a key overtakes a reader holding an outdated value or fails over an outdated entry - and, for attempts that leave a mark, only then.
- *Two aggregations.* Topic ratings of a course and of the profile always agree; tag masteries agree exactly when the profile's mastery is not out of date. Topic statistics never depend on the order of the attempts; a tag's mastery does not exactly when its weights add up to more than zero or no right answer can be credited to a positive total.
- *Calibration.* Whatever the map iteration order: attempts are conserved, weights are sorted distinct shares that add up to 1 within n/20000, suggested difficulties stay in [1, 10], and exactly when they differ from the base is known. A success rate is the share of right answers, counted on the attempts.
- *Weights of a task.* Positive weights add up to exactly 1; all weights do if and only if there is a tag and the weights were not of both signs.
- *Recommendation.* Cauchy-Schwarz over sparse maps; scores in [0, 1]; exactly min(max_tasks, candidates) distinct tasks; every task or block left out has a reason that can be pointed to; the workbook lists each selected item exactly once, in the right group, and the LaTeX numbers the tasks 1 to k. `Recommendation.WorkbookDelivers` carries all of it from the request to the response.
- *Protocols.* Every offset below the committed one was handled; the log is exactly the successful events, in order; only recorded messages move the committed offset; a restart redelivers nothing exactly when everything delivered lies below the committed offsets. Applied migrations are always a prefix of the sorted files, each once; how far a run gets and exactly when it succeeds is known.

## Where the code and its description part

- The root `README.md:641-643` defines mastery as `weighted_correct / weighted_attempts`. The repository's profile recomputes it only while the weighted attempts are positive, so with negative tag weights the stored mastery can be an old ratio, differ from the masteries of the calibration, and depend on the order of the attempts. Exactly when it is the ratio, and when it agrees with the calibration, `ProfileFold.MasteryIsBatchRatio` and `CourseRates.MasteriesAgreeWithProfile` say; that is a matter of one order. Exactly when it does not depend on the order is another condition: `TagOrder.MasteryForgetsOrder`, with two attempt logs that differ only in order in `TagOrder.NegativeWeightsRememberOrder`.
- The root `README.md:654` lets the suggested difficulty of a task grow whenever it is solved less often than the average. The code caps it at 10 and rounds it to four decimals: it really grows exactly when the base is below 10 and the base times the difference is at least 1/20000 (`CalibrationLaws.SuggestedDifficultyGrows`). A base above 10 is lowered instead (`CalibrationLaws.CapLowersHardTasks`), and a small difference is lost (`CalibrationLaws.RoundingLosesGrowth`).
- Invalidation does not keep the cache current under concurrency, nor when a delete fails, since the code ignores the error and does not repeat it (statistic-service/internal/application/service.go:369). `CacheRaces.TheRace` gives a run of each kind that ends with a stale profile and nothing left to invalidate it; `CacheRaces.ServiceStaysFresh` says which runs do not come to that, exactly for attempts that leave a mark. `StatService.LostDeleteGoesStale` and `StatService.RunCurrentIff` do the same for complete operations.
- `CreateTasksInScope` is not atomic: tasks made before the first failure stay stored. A failed call leaves nothing behind exactly when there was no item or the first one failed (`TaskCreation.FailureLeavesNothing`); `TaskCreation.SecondItemFails` is a call that leaves one.
- A message whose handling failed is passed over for good by a later commit of its partition (`AttemptConsumer.PassedOverForGood`), and a lost commit records a message twice (`AttemptConsumer.LostCommitRecordsTwice`). `AttemptConsumer.RestartInAnyRun` says exactly when a restart redelivers nothing.
- Two pieces of code never act: trimming and dropping fields after splitting (`AnswerChecking.SplitAnswerTokens`), and the repair of non-positive scores (`CalibrationLaws.BucketScoresAboveFloor`). The clamp of the cosine never acts either on the vectors the service builds (`Recommendation.SimilaritiesArePlain`).
- The score shown with a selected block is rounded to four decimals, so it can be 0 although the block was selected for a positive score: it is positive exactly when the score is above 1/20000 (`TheorySelection.ShownScore`), and `TheorySelection.TinyScoreShowsNothing` is a block selected for 0.00001. `Recommendation.WorkbookDelivers` states positivity of the score before rounding.

## Model

| member | source | states |
|---|---|---|
| `AnswerMatching.EqualNumericAnswers` | content-service/internal/application/service.go:467-478 | accepts exactly when the lists have one length and agree position by position within 1e-6 |
| `AnswerMatching.NotTooFarBelow` | content-service/internal/application/service.go:424-477 | if any pairing exists, no actual value lies more than 1e-6 above the expected value at its sorted position (pigeonhole) |
| `AnswerMatching.NotTooFarAbove` | content-service/internal/application/service.go:424-477 | the other direction of the same argument |
| `AnswerMatching.SortedComparisonMeansPairing` | content-service/internal/application/service.go:410-478 | comparing the sorted lists position by position accepts if and only if some one-to-one pairing puts every pair within the tolerance |
| `AnswerMatching.PairingIsSymmetric` | content-service/internal/application/service.go:467-478 | whether answers can be paired does not depend on which one is the expected one |
| `AnswerChecking.SplitAnswerTokens` | content-service/internal/application/service.go:428-444 | the tokens are exactly the maximal separator-free runs; the trimming and dropping change nothing |
| `AnswerChecking.ParseNumericAnswer` | content-service/internal/application/service.go:410-426 | succeeds if and only if there is a token and every token parses; the values come out sorted and are a rearrangement of the parsed ones |
| `AnswerChecking.IsCorrectAnswer` | content-service/internal/application/service.go:394-408 | right if and only if neither side is blank and the numbers can be paired, or, when one side is not all numbers, the words agree up to case |
| `AnswerChecking.NormalFormIsWords` | content-service/internal/application/service.go:480-484 | equal normal forms mean equal lists of words: joining with single spaces loses nothing |
| `AnswerChecking.VerdictIsSymmetric` | content-service/internal/application/service.go:394-408 | exchanging expected and given answer does not change the verdict |
| `AnswerChecking.VerdictAcceptsItself` | content-service/internal/application/service.go:394-408 | an answer is right against itself exactly when it is not blank |
| `AnswerChecking.VerdictIgnoresOrderAndSeparators` | content-service/internal/application/service.go:394-465 | two spellings of the same numbers, in any order and with any separators, get the same verdict |
| `AnswerMeaning.FractionValue` | content-service/internal/application/service.go:446-459 | a fraction has a value exactly when both texts parse and the lower is not 0; times the lower it is the upper |
| `AnswerMeaning.PlainValue` | content-service/internal/application/service.go:446-465 | a token without slash is worth what its trimmed text parses to, a blank one nothing |
| `AnswerMeaning.SingleNumbers` | content-service/internal/application/service.go:394-478 | of two single numbers one is right against the other if and only if they differ by at most 0.000001 |
| `AnswerMeaning.FractionAccepted` | content-service/internal/application/service.go:394-478 | a decimal as expected answer accepts every fraction of its value |
| `AnswerMeaning.ThreeNumbers` | content-service/internal/application/service.go:429-435 | "1;2, 3" is split at semicolon, comma and space into three numbers |
| `AnswerMeaning.WordsVerdict` | content-service/internal/application/service.go:407-484 | texts that are not both numbers agree if and only if they have the same words up to case, whatever their spaces |
| `Text.SplitUndoesJoin` | content-service/internal/application/service.go:429-435 | separator-free tokens joined by any non-empty runs of separators split back to the same tokens |
| `Text.JoinUndoesSplit` | content-service/internal/application/service.go:429-435 | every text is such a join of its own fields |
| `Text.TrimmingKeepsFields` | content-service/internal/application/service.go:395-396 | trimming before splitting does not change the tokens |
| `Text.SpacesAre` | content-service/internal/application/service.go:434 | white space is the listed code points of Unicode |
| `ScopeTags.UniqueStrings` | content-service/internal/application/service.go:507-521 | the loop with its seen set computes `Unique` |
| `ScopeTags.UniqueKeepsFirstOccurrences` | content-service/internal/application/service.go:507-521 | the result holds exactly the non-empty values, none twice, in order of first occurrence |
| `ScopeTags.MergeScopeTags` | content-service/internal/application/service.go:523-555 | the ids are those of the three sources in order of first mention, each with its merged tag |
| `ScopeTags.MergeIsUnique` | content-service/internal/application/service.go:523-555 | the merged list is determined by the three sources |
| `ScopeTags.MergeIsUnion` | content-service/internal/application/service.go:523-555 | the merged ids are distinct, non-empty and exactly the union of the three sources |
| `ScopeTags.LastPositiveWins` | content-service/internal/application/service.go:541-546 | the last positive explicit weight of an id is the merged weight |
| `ScopeTags.NoPositiveWeight` | content-service/internal/application/service.go:523-555 | without a positive explicit weight no weight becomes positive, and a listed id stays a bare tag |
| `TaskCreation.ContentService.CreateTask` | content-service/internal/application/service.go:70-145 | the answer with its error text, the stored task, and what the caller's tags hold afterwards on every path |
| `TaskCreation.ContentService.CreateTasksInScope` | content-service/internal/application/service.go:147-170 | stores exactly the tasks of the items before the first that fails, and answers all of them or that item's error |
| `TaskCreation.FailureLeavesNothing` | content-service/internal/application/service.go:147-170 | after an error nothing was stored if and only if there was no item or the first one's creation failed |
| `TaskCreation.SecondItemFails` | content-service/internal/application/service.go:152-168 | a call with two items that fails and leaves the first task stored |
| `TaskCreation.ContentService.CreateScoped` | content-service/internal/application/service.go:152-165 | one item becomes a stored task from the merged tags and the deduplicated topics, or its creation's error |
| `TaskCreation.FillWeights` | content-service/internal/application/service.go:107-113 | in place: only missing weights are taken from the evaluator, and only positive ones |
| `TaskCreation.Rescale` | content-service/internal/application/service.go:119-137 | in place: the tags become `Rescaled` of what they were |
| `TaskCreation.RescaledKeepsRatios` | content-service/internal/application/service.go:125-137 | every new weight times the one positive total is the old weight, or all weights are equal shares |
| `TaskCreation.RescaledWeights` | content-service/internal/application/service.go:119-137 | positive weights add up to exactly 1; all weights do if and only if there is a tag and the weights were not of both signs |
| `TaskCreation.CreatedTask` | content-service/internal/application/service.go:70-145 | a created task keeps the tag ids, has difficulty at least 1 (its own if that was positive), and weights whose positive part is 1 |
| `CreatedTasks.CreationSucceedsIff` | content-service/internal/application/service.go:70-145 | creating a task succeeds if and only if title and body are not blank, all tags are named and known, and topics, a needed evaluation and the store do not fail |
| `CreatedTasks.UnknownTagFails` | content-service/internal/application/service.go:77-86 | the first unnamed or unknown tag decides the error |
| `CreatedTasks.LaterErrors` | content-service/internal/application/service.go:99-144 | with known tags the first of topics, evaluation and store that fails decides the error |
| `CreatedTasks.CreatedDraft` | content-service/internal/application/service.go:107-144 | content is kept, a missing difficulty is the evaluator's if positive, else 1, a blank status becomes published |
| `CreatedTasks.CreatedTag` | content-service/internal/application/service.go:87-137 | each tag carries the labels of the tag table; its weight times the sum of the positive given weights is its own given weight, the evaluator's where it had none |
| `TaskCreation.ScopedTaskTags` | content-service/internal/application/service.go:110-170 | a scoped task carries each non-empty tag id of the three sources exactly once, with weights adding up to 1 when none was negative |
| `CreatedTasks.ScopedTaskFields` | content-service/internal/application/service.go:152-165 | a scoped task has the item's content, the scope's status and trimmed author, and the deduplicated topics of both |
| `ProfileFold.AddTopic` | statistic-service/internal/infrastructure/postgres/repository.go:75-92 | updating one topic entry turns the statistics of the mentions so far into those of one more mention |
| `ProfileFold.AddTag` | statistic-service/internal/infrastructure/postgres/repository.go:93-108 | the same for one tag entry |
| `ProfileFold.Profile` | statistic-service/internal/infrastructure/postgres/repository.go:62-111 | the nested loops compute the batch sums, ratios and last labels of `ProfileOf` |
| `ProfileGrowth.MentionsGrow` | statistic-service/internal/infrastructure/postgres/repository.go:70-99 | each attempt mentions its topics with its difficulty, or 1 if that is not positive, and its tags as weighed |
| `ProfileGrowth.TopicMentioned` | statistic-service/internal/infrastructure/postgres/repository.go:75-92 | one mention of a topic adds 1 and its weight, to the right ones only if right, and leaves all other entries alone |
| `ProfileGrowth.TagMentioned` | statistic-service/internal/infrastructure/postgres/repository.go:93-108 | one mention of a tag adds its weight, sets its labels, and makes the mastery the new ratio if the total is positive |
| `ProfileGrowth.TopicGrows` | statistic-service/internal/infrastructure/postgres/repository.go:70-92 | one attempt adds to each topic its difficulty as often as it names it: weighted attempts are difficulties added up |
| `ProfileGrowth.AccuracyIsShare` | statistic-service/internal/infrastructure/postgres/repository.go:85 | accuracy is the share of right attempts |
| `ProfileGrowth.ProfileHas` | statistic-service/internal/infrastructure/postgres/repository.go:67-110 | a profile is of its user and moment, with an entry for exactly the topics and tags named |
| `ProfileFold.TopicStatBounds` | statistic-service/internal/infrastructure/postgres/repository.go:81-89 | accuracy is in [0, 1], rating in [0, 10], and rating times weighted attempts is ten times weighted correct |
| `ProfileFold.MasteryBounds` | statistic-service/internal/infrastructure/postgres/repository.go:100-106 | for weights that are not negative mastery is in [0, 1] |
| `ProfileFold.MasteryIsBatchRatio` | statistic-service/internal/infrastructure/postgres/repository.go:100-106 | mastery is the batch ratio if and only if the weighted attempts end positive or nothing was credited when they last were |
| `ProfileFold.NonNegativeMasteryIsBatchRatio` | statistic-service/internal/infrastructure/postgres/repository.go:100-106 | so it always is for weights that are not negative |
| `ProfileFold.TopicStatsForgetOrder` | statistic-service/internal/infrastructure/postgres/repository.go:70-92 | topic statistics do not change when the attempts are reordered |
| `TagOrder.TagStatsForgetOrder` | statistic-service/internal/infrastructure/postgres/repository.go:93-108 | reordering the attempts changes at most labels and masteries of tag statistics, and of a steady tag the labels alone |
| `TagOrder.MasteryForgetsOrder` | statistic-service/internal/infrastructure/postgres/repository.go:93-108 | a tag's mastery in the profile is the same for every order of the attempts if its weights add up to more than zero or no right answer can be credited to a positive total; for attempts that name a tag once, only if |
| `TagOrder.MentionMasteryForgetsOrder` | statistic-service/internal/infrastructure/postgres/repository.go:100-106 | the same condition is exact for all lists of single mentions |
| `TagOrder.UnsteadyRemembersOrder` | statistic-service/internal/infrastructure/postgres/repository.go:93-108 | otherwise two orders of the same attempts are given whose masteries differ, one of them 0 |
| `TagOrder.NonNegativeIsSteady` | statistic-service/internal/infrastructure/postgres/repository.go:93-108 | weights that are not negative meet the condition |
| `TagOrder.NegativeWeightsRememberOrder` | statistic-service/internal/infrastructure/postgres/repository.go:62-111 | the counterexample: two attempts of weights 1 and -1 give profiles of mastery 1 in one order, 0 in the other |
| `CourseRates.UserTopicRatings` | statistic-service/internal/application/service.go:242-274 | for each user the scaled ratios of the user's own mentions, whatever the map iteration order |
| `CourseRates.UserTagMasteries` | statistic-service/internal/application/service.go:276-304 | the same for tags |
| `CourseRates.RatingsAgreeWithProfile` | statistic-service/internal/application/service.go:242-274 | for any mixed attempts each user's rating is that of the profile of the user's own attempts |
| `CourseRates.MasteriesAgreeWithProfile` | statistic-service/internal/application/service.go:276-304 | each user's mastery agrees with the profile's if and only if the profile's is not out of date |
| `CourseRates.NonNegativeMasteriesAgree` | statistic-service/internal/application/service.go:276-304 | so they always agree for weights that are not negative |
| `Calibration.GroupByTask` | statistic-service/internal/application/service.go:107-114 | every task's bucket holds its attempts in order; attempts without a task are dropped |
| `Calibration.SuccessRates` | statistic-service/internal/application/service.go:120-132 | the rates and their mean, whatever the map iteration order |
| `Calibration.SplitConserves` | statistic-service/internal/application/service.go:163-181 | strong and weak totals add up to the attempts, strong and weak solved to the right answers |
| `CalibrationFigures.SplitCounts` | statistic-service/internal/application/service.go:163-179 | strong are the attempts of users rated at the threshold or above, weak the others, solved the right ones on each side, counted directly |
| `Calibration.CountSplit` | statistic-service/internal/application/service.go:163-179 | the counting loop computes the split of the bucket at the threshold |
| `Calibration.ScoreFloor` | statistic-service/internal/application/service.go:217-233 | a score is never below 0.05, whatever the counts and the weight |
| `Calibration.ScoreFavoursStrongSolvers` | statistic-service/internal/application/service.go:217-233 | more right answers of strong students, or fewer of weak ones, never lower the score |
| `CalibrationFigures.ScoreIsMixed` | statistic-service/internal/application/service.go:217-233 | 0.05 plus what is observed from six attempts on; before, the observed and the prior weight in proportion |
| `CalibrationFigures.TopicScoreIs` | statistic-service/internal/application/service.go:162-180 | topics are scored by the users rated 7 or above with prior 1 |
| `CalibrationFigures.TagScoreIs` | statistic-service/internal/application/service.go:190-212 | tags are scored by the users with mastery 0.65 or above; the prior is the weight listed last for the tag |
| `Calibration.NormalizeScores` | statistic-service/internal/application/service.go:306-323 | whatever the map iteration order the result is the rounded shares by ascending id |
| `Calibration.CalibrationTopicWeights` | statistic-service/internal/application/service.go:157-183 | the weights of the first attempt's topics from the split at rating 7 |
| `Calibration.CalibrationTagWeights` | statistic-service/internal/application/service.go:185-215 | the weights of the first attempt's tags from the split at mastery 0.65 |
| `Calibration.Calibrate` | statistic-service/internal/application/service.go:105-153 | whatever the map iteration order the calibration is the one function of the attempts |
| `CalibrationLaws.BucketHoldsExactly` | statistic-service/internal/application/service.go:107-114 | a bucket holds exactly the attempts at its task, each as often as it was made |
| `CalibrationLaws.CountsAddUp` | statistic-service/internal/application/service.go:107-143 | the tasks' attempt counts add up to the number of attempts that name a task |
| `CalibrationLaws.BucketScoresAboveFloor` | statistic-service/internal/application/service.go:306-313 | the repair of non-positive scores is never made |
| `CalibrationLaws.WeightBounds` | statistic-service/internal/application/service.go:306-323 | weights lie in [0, 1] and larger scores never get smaller weights |
| `CalibrationLaws.WeightsListIDs` | statistic-service/internal/application/service.go:317-321 | the weights list the scored ids, each once, ascending |
| `CalibrationLaws.SharesAddUp` | statistic-service/internal/application/service.go:306-321 | before rounding the shares add up to exactly 1 |
| `CalibrationLaws.WeightsAddUp` | statistic-service/internal/application/service.go:306-338 | n rounded weights add up to 1 within n/20000 |
| `CalibrationFigures.WeightIsShare` | statistic-service/internal/application/service.go:306-338 | a weight is the share of its score in the sum of all scores, rounded |
| `CalibrationLaws.RaisedScoreRaisesShare` | statistic-service/internal/application/service.go:306-323 | raising one score never lowers its weight |
| `CalibrationLaws.DeviationsCancel` | statistic-service/internal/application/service.go:120-132 | the deviations of the success rates from their mean add up to zero |
| `CalibrationLaws.AverageInUnit` | statistic-service/internal/application/service.go:120-132 | the mean of the success rates lies in [0, 1] |
| `CalibrationLaws.SuggestedDifficultyMoves` | statistic-service/internal/application/service.go:138-147 | in [1, 10]; at least the base (up to 10) when solved at most as often as the mean, at most the base when solved at least as often |
| `CalibrationLaws.SuggestedDifficultyGrows` | statistic-service/internal/application/service.go:138-147 | for a task solved less often than the mean it exceeds the base if and only if the base is below 10 and base times difference is at least 1/20000 |
| `CalibrationLaws.SuggestedDifficultyFalls` | statistic-service/internal/application/service.go:138-147 | for a task solved more often it lies below the base if and only if the base is above 10, or above 1 with base times difference more than 1/20000 |
| `CalibrationLaws.CapLowersHardTasks` | statistic-service/internal/application/service.go:138-147 | a base above 10 is lowered to 10 although the task is solved less often |
| `CalibrationLaws.RoundingLosesGrowth` | statistic-service/internal/application/service.go:138-147 | an input at which rounding leaves the base although the task is solved less often |
| `CalibrationLaws.EntryGrows` | statistic-service/internal/application/service.go:136-147 | the exact condition for growth, at every entry of every calibration |
| `CalibrationLaws.SuggestedDifficultyAntitone` | statistic-service/internal/application/service.go:138-147 | for equal bases the task solved more often is not suggested harder |
| `CalibrationLaws.EntryLaws` | statistic-service/internal/application/service.go:136-151 | the bounds and the direction of the difficulty, at every entry of every calibration |
| `CalibrationLaws.EntryWeights` | statistic-service/internal/application/service.go:148-149 | every entry's weights are sorted distinct shares of the first attempt's topics and tags |
| `CalibrationFigures.RateIsShare` | statistic-service/internal/application/service.go:121-128 | a rate times the number of answers is the number of right ones |
| `CalibrationFigures.EntryRate` | statistic-service/internal/application/service.go:119-143 | at every entry: the number of attempts at the task, and the share of right ones among them rounded, 1 when all are right, 0 when none is |
| `CalibrationFigures.EntryAverage` | statistic-service/internal/application/service.go:132-144 | at every entry: the mean of the rates of all tasks, rounded |
| `CalibrationFigures.EntryDifficultyIs` | statistic-service/internal/application/service.go:138-145 | at every entry: the base difficulty is that of the first attempt at the task, or 1 |
| `CalibrationFigures.CalibrationHas` | statistic-service/internal/application/service.go:104-153 | a calibration is of its course and moment, with an entry for exactly the tasks attempted |
| `Rounding.Round4Close` | statistic-service/internal/application/service.go:335-338 | rounding moves a value by at most 1/20000 |
| `Rounding.Round4Monotone` | statistic-service/internal/application/service.go:335-338 | rounding keeps order |
| `Rounding.Round4IsNearest` | statistic-service/internal/application/service.go:335-338 | a value rounds to n/10000 if and only if it lies within half a step of it, the lower half step included |
| `Orders.StringLeIsLexicographic` | statistic-service/internal/application/service.go:317 | texts are ordered as prefix or by the first differing character |
| `CacheModel.KeysAreDistinct` | statistic-service/internal/application/service.go:73-93 | two queries share a cache key only if they are the same query |
| `CacheModel.UntouchedByAppend` | statistic-service/internal/application/service.go:358-370 | a new attempt changes no value outside the keys it deletes |
| `CacheModel.ChangedByAppend` | statistic-service/internal/application/service.go:358-370 | it changes the calibration of its course, and its user's profile if it names a topic or a tag whose weights in it do not cancel, whatever the times of computation |
| `CacheModel.KeysAreExact` | statistic-service/internal/application/service.go:358-370 | so for such attempts the deleted keys are exactly those whose values change |
| `CacheModel.ChangedSince` | statistic-service/internal/application/service.go:70-155 | a value of an earlier state of the log is out of date for good once an attempt was logged that counts for its query, or weighs a tag that is never weighed below zero |
| `CacheRaces.UnchangedSince` | statistic-service/internal/application/service.go:70-155 | a value listed earlier is still current if no attempt with its key was logged since |
| `StatService.StatisticService.CreateAttempt` | statistic-service/internal/application/service.go:38-64 | the answer and the new log and cache, on every path |
| `StatService.StatisticService.InvalidateCaches` | statistic-service/internal/application/service.go:358-370 | deletes exactly the keys of the user and the course, or nothing when the delete fails |
| `StatService.StatisticService.Profile` | statistic-service/internal/application/service.go:70-87 | cached value if there is one, else the fold of the user's attempts, which is then stored |
| `StatService.StatisticService.CourseCalibration` | statistic-service/internal/application/service.go:89-155 | the same for the calibration of the course's attempts |
| `StatService.RunKeepsCurrent` | statistic-service/internal/application/service.go:38-155 | in every run of complete operations without a lost delete every cached value is the one recomputed from the current log |
| `StatService.CreateKeepsCurrent` | statistic-service/internal/application/service.go:38-64 | a creation keeps a current cache current if its delete works or finds nothing, and only if, when the attempt names a topic or a tag whose weights do not cancel |
| `StatService.RunCurrentIff` | statistic-service/internal/application/service.go:38-155 | a run keeps the cache current at every moment if this holds at each of its creations, and only if, when all of them name such topics or tags |
| `StatService.RunAnswersCurrent` | statistic-service/internal/application/service.go:70-155 | so every successful read of such a run answers what recomputing would |
| `StatService.LogGrows` | statistic-service/internal/application/service.go:38-64 | the log only grows, by created attempts with a difficulty of at least 1 |
| `StatService.LoggedIff` | statistic-service/internal/application/service.go:38-64 | an attempt is logged if and only if it names a user and a task and neither metadata nor log fail; otherwise nothing changes |
| `StatService.LoggedAttempt` | statistic-service/internal/application/service.go:38-64 | what is logged: topics, tags and difficulty of the metadata if there are any, difficulty at least 1, a missing source is practice |
| `StatService.OthersStayCached` | statistic-service/internal/application/service.go:358-370 | other users' profiles and other courses' calibrations stay cached |
| `StatService.ReadIsCached` | statistic-service/internal/application/service.go:70-155 | a successful read that can store is answered again from the cache, even when the log cannot be read |
| `StatService.ReadFailsIff` | statistic-service/internal/application/service.go:70-103 | a read fails if and only if the id is empty, or nothing is cached and the log cannot be read |
| `StatService.LostDeleteGoesStale` | statistic-service/internal/application/service.go:358-370 | with one failed delete the cache goes stale |
| `CacheRaces.RunsOnlyHoldSnapshots` | statistic-service/internal/application/service.go:59-155 | whatever interleaves and fails, every cached, held or answered value is that of one log state that occurred, for a miss during the call |
| `CacheRaces.ReadCompletes` | statistic-service/internal/application/service.go:70-155 | a read that misses and is left alone answers the value of the log as it is, and stores it if that works |
| `CacheRaces.HitAnswers` | statistic-service/internal/application/service.go:74-103 | a read that hits answers what is cached and changes nothing |
| `CacheRaces.UndisturbedRunsStayFresh` | statistic-service/internal/application/service.go:59-155 | if no last invalidation pending for a key overtakes a reader holding an outdated value or fails over an outdated entry, values are out of date only while an invalidation of their key is still to be made |
| `CacheRaces.FreshMeansUndisturbed` | statistic-service/internal/application/service.go:59-155 | when every attempt outdates the values of its keys, that holds at every moment of the run if and only if there is no such step |
| `CacheRaces.ServiceStaysFresh` | statistic-service/internal/application/service.go:38-155 | both for profiles and calibrations; the second for attempts that name a task and a topic, or a tag of positive weight that is never weighed below zero |
| `CacheRaces.MarkedIsChanged` | statistic-service/internal/application/service.go:38-155 | after such an attempt no later state of the log has the value of an earlier one |
| `CacheRaces.TheRace` | statistic-service/internal/application/service.go:59-86 | two runs, one with an overtaken reader and one with a failed delete, that end with a stale profile and no invalidation to come |
| `Cosine.CauchySchwarz` | recommendation-service/internal/application/service.py:600-608 | the dot product squared is at most the product of the squared norms, for any two sparse maps |
| `Cosine.CosineQuotientBounds` | recommendation-service/internal/application/service.py:600-608 | the quotient lies in [-1, 1] for all weights |
| `Cosine.ClampIsIdle` | recommendation-service/internal/application/service.py:600-608 | for weights that are not negative the clamp changes nothing |
| `Cosine.SelfSimilarity` | recommendation-service/internal/application/service.py:600-608 | a vector that is not zero has similarity exactly 1 to itself |
| `Cosine.CosineSimilarity` | recommendation-service/internal/application/service.py:600-608 | the sums over the maps give the clamped cosine, in any iteration order |
| `Ranking.NormalizePositiveWeights` | recommendation-service/internal/application/service.py:586-591 | the rounded shares of the positive weights, or nothing |
| `Ranking.TagWeightsNotNegative` | recommendation-service/internal/application/service.py:549-568 | a task's tag weights are never negative, whatever weights it was given |
| `Ranking.SimilarityIsUnclamped` | recommendation-service/internal/application/service.py:337 | for a weakness vector without negative entries every similarity is the plain cosine |
| `Weakness.BuildVector` | recommendation-service/internal/application/service.py:206-251 | the loop over the profile's tags, the sort and the cut give the vector of the tags with a positive score, higher scores first, ties by id |
| `Weakness.VectorIsUnique` | recommendation-service/internal/application/service.py:206-251 | the vector does not depend on the order in which the tags are visited |
| `Weakness.VectorKeepsBest` | recommendation-service/internal/application/service.py:250-251 | a tag with a positive score is left out only behind all tags that are kept, and only when the vector is full |
| `Weakness.VectorSize` | recommendation-service/internal/application/service.py:251 | a vector holds as many tags as asked for or all there are; a negative limit leaves that many out |
| `Weakness.WeaknessIsPositive` | recommendation-service/internal/application/service.py:93 | the map used for ranking holds the tags' own scores, all of them positive |
| `Recommendation.SimilaritiesArePlain` | recommendation-service/internal/application/service.py:93-96 | so in a built workbook no similarity is changed by the clamp |
| `Ranking.RankedScoresInUnit` | recommendation-service/internal/application/service.py:319-365 | all ranked tasks have an id and a score in [0, 1] |
| `Ranking.ScoreInUnit` | recommendation-service/internal/application/service.py:337-341 | every rank score lies in [0, 1] |
| `Ranking.ScoreTask` | recommendation-service/internal/application/service.py:332-363 | one turn of the loop gives the scored task with its rounded tags, difficulty and breakdown; a difficulty of 0 counts as 1 |
| `Ranking.RankTasks` | recommendation-service/internal/application/service.py:319-365 | the ranking is a rearrangement of all tasks with an id, each scored: of two, the earlier has the higher score, or the same and the smaller id |
| `RankingFigures.ScoreIsMix` | recommendation-service/internal/application/service.py:341 | a score is 0.65 similarity, 0.25 alignment and 0.10 closeness, rounded to four decimals |
| `RankingFigures.TargetIs` | recommendation-service/internal/application/service.py:326-327 | the target is 3 plus three times the mean weakness, 0.45 without one, kept between 2 and 8 |
| `RankingFigures.ClosenessIs` | recommendation-service/internal/application/service.py:339-340 | closeness falls by a ninth per step from the target to the suggested difficulty, else the task's own, 1 if that is 0 |
| `RankingFigures.OverlapIs` | recommendation-service/internal/application/service.py:594-597 | alignment is the dot product cut to the unit interval, 0 for an empty map |
| `RankingFigures.PositiveShares` | recommendation-service/internal/application/service.py:586-591 | exactly the positive weights stay, each its rounded share in their sum |
| `RankingFigures.TagWeightsAre` | recommendation-service/internal/application/service.py:549-568 | the calibration's weights come first, then the task's positive ones, else all tags weigh the same |
| `RankingFigures.TopicWeightsAre` | recommendation-service/internal/application/service.py:570-583 | the calibration's weights come first, else all topics weigh the same |
| `RankingFigures.RankedGrow` | recommendation-service/internal/application/service.py:329-363 | tasks without an id are dropped; the others carry content, named topics, rounded tags, score and parts |
| `PythonRounding.PyRound4Close` | recommendation-service/internal/application/service.py:341 | `round(x, 4)` moves a value by at most 1/20000 |
| `PythonRounding.PyRound4Monotone` | recommendation-service/internal/application/service.py:341 | `round(x, 4)` keeps order |
| `PythonRounding.PyRound4IsNearest` | recommendation-service/internal/application/service.py:341 | `round(x, 4)` gives the nearest multiple of 1/10000, halfway the even one |
| `PythonRounding.PyRound2IsNearest` | recommendation-service/internal/application/service.py:355 | `round(x, 2)` gives the nearest multiple of 1/100, halfway the even one |
| `TaskSelection.PickByTopic` | recommendation-service/internal/application/service.py:368-378 | the first pass with its topic counters chooses what `FirstPass` says |
| `TaskSelection.FillUp` | recommendation-service/internal/application/service.py:379-386 | the second pass appends what `SecondPass` says |
| `TaskSelection.SelectTasks` | recommendation-service/internal/application/service.py:367-387 | the selected tasks stand at the chosen positions of the ranking |
| `TaskSelection.ChoiceSize` | recommendation-service/internal/application/service.py:367-387 | with distinct ids exactly min(max_tasks, ranked) tasks, none twice |
| `TaskSelection.LeftOutForTopic` | recommendation-service/internal/application/service.py:370-386 | a task left out while a lower-ranked one is chosen has two better-ranked chosen tasks of its primary topic |
| `TaskSelection.TwoPerTopic` | recommendation-service/internal/application/service.py:370-378 | the first pass gives a topic at most two places, not counting the last place there is |
| `TaskSelection.FirstPassTakes` | recommendation-service/internal/application/service.py:370-378 | while there is room the next task is taken if and only if it has no primary topic, fewer than two with it were taken, or one place is left |
| `TaskSelection.SecondPassTakes` | recommendation-service/internal/application/service.py:380-386 | while there is room the next task is taken if and only if none with its id was taken in the first pass |
| `TaskSelection.SecondPassAppends` | recommendation-service/internal/application/service.py:379-386 | the second pass keeps the first choice and appends in ranking order |
| `TheorySelection.ScoreTopics` | recommendation-service/internal/application/service.py:394-400 | the topic scores, in any iteration order of the weights |
| `TheorySelection.RankTheory` | recommendation-service/internal/application/service.py:401-408 | a rearrangement of the blocks with a positive score: the earlier has the higher score, or the same and the smaller id |
| `TheorySelection.SelectTheory` | recommendation-service/internal/application/service.py:389-428 | nothing for limit 0 or no tasks, else the greedy choice from the ranking, shown with rounded scores |
| `TheorySelection.RelevantIsPositive` | recommendation-service/internal/application/service.py:404-406 | every ranked block has a positive score, the sum of its topics' scores |
| `TheorySelection.ShownScore` | recommendation-service/internal/application/service.py:416-423 | the rounded score of a block selected for a positive score is positive if and only if the score is above 1/20000 |
| `TheorySelection.TinyScoreShowsNothing` | recommendation-service/internal/application/service.py:401-423 | a block selected for the score 0.00001 shows the score 0 |
| `TheorySelection.ChosenAreDisjoint` | recommendation-service/internal/application/service.py:409-428 | the chosen blocks' topic sets are pairwise disjoint |
| `TheorySelection.LeftOutForOverlap` | recommendation-service/internal/application/service.py:409-428 | a positive block left out overlaps a better-ranked chosen one or came when the limit was reached |
| `TheorySelection.GreedyTakes` | recommendation-service/internal/application/service.py:410-428 | while there is room the next block is taken if and only if it shares no topic with one taken before |
| `TheorySelection.RelevantGrows` | recommendation-service/internal/application/service.py:402-407 | a block is ranked if and only if its topics' scores add up to more than 0 |
| `TheorySelection.TopicScoresGrow` | recommendation-service/internal/application/service.py:395-400 | each selected task adds its score, at least 0.1, times its weight to each topic it weighs |
| `Workbook.BuildItems` | recommendation-service/internal/application/service.py:438-477 | the items show the slots in order, numbered from 1 |
| `Workbook.WorkbookIsComplete` | recommendation-service/internal/application/service.py:441-477 | with distinct ids every selected block and task has a slot and nothing else does, each task in the group of the first block it shares a topic with, the others last |
| `Workbook.SharesIff` | recommendation-service/internal/application/service.py:453 | a task fits a block if and only if some topic is listed by both |
| `Workbook.InOrderIsDistinct` | recommendation-service/internal/application/service.py:441-477 | no slot occurs twice |
| `Workbook.BuildSections` | recommendation-service/internal/application/service.py:517-547 | the sections follow the items sorted by order; items with an unknown id are skipped |
| `Workbook.SectionsFollowSlots` | recommendation-service/internal/application/service.py:529-545 | one section per slot, in order, with escaped title and the running task number |
| `Workbook.AllTasksNumbered` | recommendation-service/internal/application/service.py:528-545 | there are as many task slots as selected tasks |
| `Workbook.LatexFollowsWorkbook` | recommendation-service/internal/application/service.py:438-545 | the sections are the workbook's slots in order and the tasks are numbered 1 to their number |
| `Recommendation.BuildWorkbook` | recommendation-service/internal/application/service.py:50-126 | rejects exactly the malformed requests; otherwise every part is built from the part before it |
| `Recommendation.ChosenTasksDistinct` | recommendation-service/internal/application/service.py:96-97 | candidates with distinct ids give distinct selected tasks, all of them candidates, as many as asked for |
| `Recommendation.LeftOutTask` | recommendation-service/internal/application/service.py:367-387 | a candidate left out for a lower-ranked one has two selected tasks of its primary topic ranked before it |
| `Recommendation.ChosenTheoryDistinct` | recommendation-service/internal/application/service.py:389-428 | distinct blocks of pairwise disjoint topics, at most as many as asked for, all of them ranked blocks |
| `Recommendation.TheoryIsWellCovered` | recommendation-service/internal/application/service.py:389-428 | the chosen blocks have positive scores, and each positive block left out overlaps a better chosen one or came too late |
| `Recommendation.LeftOutBlock` | recommendation-service/internal/application/service.py:409-428 | a block left out shares a topic with a chosen block ranked before it, or all places went to blocks ranked before it |
| `Recommendation.ItemsAreGrouped` | recommendation-service/internal/application/service.py:441-477 | every task stands behind exactly the blocks up to the first it shares a topic with |
| `Recommendation.WorkbookDelivers` | recommendation-service/internal/application/service.py:50-126 | the whole way: number, scores and left-out reasons of the tasks; number, disjointness, positive scores and left-out reasons of the blocks; each listed once, in its group, orders 1 to n, sections numbered through |
| `LatexEscape.ChainedIsSinglePass` | recommendation-service/internal/application/service.py:631-640 | the seven chained replacements compute the same text as one pass, on every input |
| `LatexEscape.SpecialsAreEscaped` | content-service/internal/application/service.go:591-594 | every special character of the result follows a backslash |
| `LatexEscape.EscapeCharacter` | content-service/internal/application/service.go:591-594 | exactly & % $ # _ { } get a backslash, every other character stays |
| `LatexEscape.EscapeJoined` | content-service/internal/application/service.go:591-594 | texts are escaped character by character |
| `LatexEscape.UnescapeUndoesEscape` | content-service/internal/application/service.go:591-594 | the original can be read back |
| `LatexEscape.EscapeIsInjective` | content-service/internal/application/service.go:591-594 | different texts are escaped differently |
| `AttemptConsumer.Consumer.Handle` | statistic-service/internal/infrastructure/kafka/attempt_consumer.go:25-41 | a message records the attempt it describes or fails, with the effect of `CreateAttempt` |
| `AttemptConsumer.Consumer.Consume` | pkg/kafka/kafka.go:56-69 | a session moves position, commits, deliveries and log as `Session` says, for every script of broker answers |
| `AttemptConsumer.Consumer.Run` | pkg/kafka/kafka.go:46-69 | one process after the other, each resuming at the committed offsets, is `Sessions` |
| `AttemptConsumer.SessionsAreSound` | pkg/kafka/kafka.go:56-69 | over any sessions, failures and restarts: everything below the position was delivered, the log is the recordings in order, recordings say what their messages say |
| `AttemptConsumer.CommittedWasHandled` | pkg/kafka/kafka.go:56-69 | every offset below the committed one was handed to the handler at least once, and was recorded faithfully or failed |
| `AttemptConsumer.RecordedIff` | statistic-service/internal/infrastructure/kafka/attempt_consumer.go:25-41 | a message is recorded if and only if it decodes, names a user and a task, and metadata and log do not fail |
| `AttemptConsumer.OnlyRecordedCommit` | pkg/kafka/kafka.go:62-67 | over any sessions the message just below a committed offset was recorded: failures commit nothing |
| `AttemptConsumer.FailuresCommitNothing` | pkg/kafka/kafka.go:62-64 | a session in which all messages of a partition failed leaves its committed offset unchanged |
| `AttemptConsumer.AcknowledgedCommit` | pkg/kafka/kafka.go:65-67 | a recorded message with an acknowledged commit moves the committed offset just behind it |
| `AttemptConsumer.SessionGoesOn` | pkg/kafka/kafka.go:56-69 | as long as messages come and commits work all of them are delivered, whatever the handler does |
| `AttemptConsumer.ErrorsEndTheSession` | pkg/kafka/kafka.go:58-67 | a failed fetch and a commit that reports an error end the session |
| `AttemptConsumer.FirstSession` | pkg/kafka/kafka.go:56-69 | without a restart each partition's messages are delivered once each, in order, and the log is the successes in order |
| `AttemptConsumer.PassedOverForGood` | pkg/kafka/kafka.go:62-67 | an offset below a committed one is never delivered again |
| `AttemptConsumer.LostCommitRecordsTwice` | pkg/kafka/kafka.go:62-67 | a lost commit and a restart record one message twice |
| `AttemptConsumer.RestartRedelivers` | pkg/kafka/kafka.go:56-69 | a restart redelivers nothing, whatever happens then, if and only if everything delivered lies below the committed offsets |
| `AttemptConsumer.RestartInAnyRun` | pkg/kafka/kafka.go:56-69 | the same after any sessions, failures and restarts |
| `Migrations.Database.Migrate` | pkg/postgres/postgres.go:57-80 | one name: skipped, applied with its row, or the run ends and nothing of it stays |
| `Migrations.Database.RunMigrations` | pkg/postgres/postgres.go:30-82 | one run is the loop over the sorted `.sql` names up to the first failure |
| `Migrations.SortedNamesAre` | pkg/postgres/postgres.go:45-55 | the names are the directory's `.sql` files, each once, ascending |
| `Migrations.RunKeeps` | pkg/postgres/postgres.go:57-82 | a run cut short anywhere leaves a prefix applied, no shorter than before; success leaves all; a complete database is not changed |
| `Migrations.SucceedsIff` | pkg/postgres/postgres.go:57-82 | a run succeeds if and only if each name has a row and its query works, or has none and nothing goes wrong with it |
| `Migrations.RunReaches` | pkg/postgres/postgres.go:57-82 | from k files applied a run gets exactly up to the first obstacle, and past it if its commit took effect after all |
| `Migrations.FaultlessRunCompletes` | pkg/postgres/postgres.go:30-82 | after any runs, one without faults succeeds and leaves every file of the directory applied |
| `Migrations.MigrationIsSql` | pkg/postgres/postgres.go:50-54 | a migration is a plain file whose name ends in `.sql` |
| `Migrations.RunSparesOthers` | pkg/postgres/postgres.go:57-82 | a run of one service leaves the rows and bodies of the others alone |
| `Migrations.LaunchesKeep` | pkg/postgres/postgres.go:30-82 | after any number of runs the bodies applied are a prefix of the sorted files, each once, and exactly they have rows |
| `Migrations.SuccessIsFinal` | pkg/postgres/postgres.go:30-82 | a run that succeeds has applied all, and a further run applies none |
| `Migrations.DirectoryRunsKeep` | pkg/postgres/postgres.go:30-82 | the prefix law for the sorted `.sql` files of the services' directories |
| `Migrations.DirectorySuccessIsFinal` | pkg/postgres/postgres.go:30-82 | the law of success for the sorted `.sql` files of the services' directories |

## Left out

- Floating point: all numbers are exact reals, so rounding errors, overflow, NaN and infinities are not modelled; parsed answers are finite numbers by assumption (`strconv.ParseFloat` also accepts NaN and infinities).
- `strconv.ParseFloat` and the lower-casing of a character are parameters about which nothing is assumed; `math.sqrt` is any function that gives non-negative roots.
- Library sorts are replaced by a stable sort; where the order is total and antisymmetric this is the only possible result (`Orders.SortedRearrangementIsUnique`).
- Text is a sequence of code points; bytes that are not valid UTF-8 are not modelled.
- ScopeTags.MergeScopeTags: works on values; that Go's `append` of the scope's and the item's ids may write into the scope slice's spare capacity is not modelled.
- Storage: SQL, JSON and Mongo store and return records faithfully; an attempt whose insert reports an error is not stored; the log is in the order of `created_at` in which it is read back.
- StatService.StatisticService.Profile: cached bytes always decode, since only the service writes under its keys; a service without a cache is one whose gets, sets and deletes never work.
- StatService.RunCurrentIff: the second direction leaves out attempts without topics whose weights of each tag cancel (above all those without tags); they may leave their user's profile as it was, and then a lost delete does no harm.
- CacheRaces.ServiceStaysFresh: the second direction is for attempts that leave a mark; without topics, and with a tag that is also weighed below zero, a later attempt can give a profile its earlier value back, and then overtaking does no harm in the end. The first direction is for all attempts. A process that dies between logging and invalidating is an invalidation that fails.
- TagOrder.MasteryForgetsOrder: the second direction is for attempts that name a tag at most once, as scoped creation makes them; the order of several mentions inside one attempt is fixed, so reordering attempts cannot bring about every order of the mentions.
- Ranking.RankTasks: ids and texts are taken as they are after Python's `strip`, dictionaries as typed records.
- Recommendation.BuildWorkbook: the scores of the weak tags and topics are inputs (their formulas depend on the clock and on recent attempts); the subject profile, the second vector that is only stored, and title and rationale of the workbook are not modelled.
- Workbook.BuildSections: sections are records; preamble, spacing and the final string are not modelled, nor the compilation to PDF and the meaning of LaTeX.
- AttemptConsumer.Consumer.Consume: the endless loop is any finite script of broker answers; offset-commit semantics of the broker are assumed: commits advance the group's offset, a restart resumes there, and each partition delivers in order.
- Migrations.Database.RunMigrations: transactions are atomic, runs do not overlap, and the file set of a service does not change between runs.
- The evaluator's heuristics and its remote model, CheckWork and work templates, courses, documents, users, HTTP and gRPC handlers, authentication, service registration and the Kafka publisher: plumbing, access control or remote calls that would only add easy members.
