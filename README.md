# coaching_engine core, modelled in Dafny

The coaching engine builds daily health recommendations and caretaker alerts
for young users. This project models the logic at its core:

- the behavioural red-flag rule engine and the alert decision that follows the language model's reply (`BehavioralAnalysis`);
- the Thompson-sampling send-time policy (`Timing`);
- the registry that hands out the shared timing policy (`TimingFactory`);
- the content-safety gate (`ContentDetection`);
- the risk predictor's argument checks, feature encoding and demo scores (`Risk`);
- the orchestrator that chains them into the daily flow (`Orchestration`).

`Dto` holds the records the services exchange. `Text` holds the few string
operations they need. `Wrappers` holds `Option` and `Result`.

The language model, the moderation classifier, the assistant, regular-expression
search, model loading and prediction are all uninterpreted function parameters.
Beta draws, fresh ids and clock readings are also plain inputs.

What is proved, in outline:

- **Rule engine.** `CheckRedFlagRules` computes as the source does: real-valued means, a division for the calorie drop, and pandas' rolling sums where a short window is NaN. It is proved equal to `RedFlagRules`, which states each rule as integer sums and plain predicates. The rule ids come in a fixed order, each at most once. When dates identify rows, the result does not depend on input order.
- **Alert decision.** The reply yields no alert iff it contains "no action needed" in any letter case. Otherwise the alert carries exactly the engine's rule ids and the profile's user and caretaker ids.
- **Timing policy.** `Update` changes only the updated hour. `alpha + beta` is always 2 plus the number of updates to that hour. With rewards in {0, 1} both counters stay at least 1. `SelectHour` returns the first hour whose sample is maximal, and that hour is unique. It fails when there are no hours, and when a listed hour has a counter not above 0, where the Beta draw raises. That second failure needs a reward outside {0, 1}.
- **Registry.** Either spelling of "thompson_sampling" returns the same shared object, whatever the user id. An update made through one lookup is seen by the next.
- **Content gate.** Empty text is never flagged, and nothing is called for it. The keyword prefilter returns exactly the categories with a matching pattern. The external classifier is consulted only after a prefilter miss.
- **Orchestration.** The call order is moderation, then risk, then assistant, then hour. Flagged text stops the flow after moderation, with exactly the flagged categories. Otherwise the flow fails only where the hour choice fails.

## Model

| member | source | states |
|---|---|---|
| `BehavioralAnalysis.SortByDateDesc` | service/behavioral_analysis_service.py:167-168 | the frame is a permutation of the metrics, sorted by date, newest first |
| `BehavioralAnalysis.SortedPermutationsAgree` | service/behavioral_analysis_service.py:168 | when no two different rows share a date, there is only one date-descending order of a set of rows |
| `BehavioralAnalysis.RedFlagRulesIgnoreInputOrder` | service/behavioral_analysis_service.py:164-202 | two inputs holding the same rows, with dates identifying rows, give the same sorted frame and the same rule ids |
| `BehavioralAnalysis.ReportedRules` | service/behavioral_analysis_service.py:164-202 | appending the fired rules to an empty list in check order gives each fired id exactly once, no other id, ranked `CAL_DROP_ACTIVITY_RISE` < `LOW_CAL_PERSIST` < `SLEEP_DEBT` |
| `BehavioralAnalysis.RedFlagRules` | service/behavioral_analysis_service.py:164-202 | only the three rule ids appear, each at most once, in the order `CAL_DROP_ACTIVITY_RISE`, `LOW_CAL_PERSIST`, `SLEEP_DEBT`; each appears iff its condition holds; the first needs more than 7 rows |
| `BehavioralAnalysis.DivergenceInSums` | service/behavioral_analysis_service.py:171-187 | over two 7-row windows, the mean test (trailing calories > 0, drop > 0.25, recent steps > trailing steps + 1500) is equivalent to `T > 0`, `4(T - R) > T` and `Rsteps > Tsteps + 10500` on integer sums |
| `BehavioralAnalysis.LowCalRollingWindows` | service/behavioral_analysis_service.py:189-194 | "some rolling 3-row sum of low-calorie flags over the five newest rows is non-zero" holds iff there are at least 3 rows and one of those five days is below 1200 |
| `BehavioralAnalysis.LowWindowHasLowDay` | service/behavioral_analysis_service.py:189-194 | a non-zero rolling 3-row sum over the five newest rows means there are at least 3 rows and one of those five days is below 1200 |
| `BehavioralAnalysis.LowDayHasLowWindow` | service/behavioral_analysis_service.py:189-194 | with at least 3 rows, a day below 1200 among the five newest makes some rolling 3-row sum non-zero |
| `BehavioralAnalysis.CheckRedFlagRules` | service/behavioral_analysis_service.py:158-202 | the step-by-step computation, with real means, the division and NaN windows, returns exactly `RedFlagRules` of the date-sorted frame |
| `BehavioralAnalysis.NoActionPhraseInAnyCase` | service/behavioral_analysis_service.py:102 | the phrase "no action needed", written anywhere in the reply in any mix of letter cases, means no alert |
| `BehavioralAnalysis.DecideBehavioralRecommendation` | service/behavioral_analysis_service.py:101-125 | no alert iff the reply signals no action; otherwise a missing function call and unparsable arguments are the two errors, each iff its case holds; an alert results iff the payload has all three fields and the profile a caretaker, and it carries the rule ids, the user id, the caretaker id and the three payload fields unchanged; a missing field or caretaker is a validation error |
| `BehavioralAnalysis.AnalyzeAggregateUserMetrics` | service/behavioral_analysis_service.py:58-125 | the reply is requested for the engine's rule ids and decided with those same ids |
| `Text.SplitJoinLines` | service/orchestration_service.py:56 | splitting the newline-joined text of single-line parts at newlines gives the parts back |
| `Timing.SuccessesPlusFailures` | model/timing_policy.py:79-80 | whatever the rewards, an hour's successes plus its failures equal the number of updates to it |
| `Timing.BinaryRewardsBounds` | model/timing_policy.py:79-80 | with rewards in {0, 1}, successes and failures each lie between 0 and the number of updates |
| `Timing.Drawn` | model/timing_policy.py:64-67 | the sample dictionary has exactly the candidate hours as keys |
| `Timing.LastSampleWins` | model/timing_policy.py:64-67 | an hour listed twice keeps the sample of its last position |
| `Timing.FirstMaximalIsUnique` | model/timing_policy.py:69 | at most one hour is maximal with every earlier hour strictly below it, so the choice is determined by the samples |
| `Timing.SelectionOnDistinctHours` | model/timing_policy.py:64-69 | with distinct hours, position k is chosen iff its sample is the maximum and strictly above every earlier sample |
| `Timing.ThompsonSamplerTimingPolicy.constructor` | model/timing_policy.py:46-55 | the hours default to (7, 9, 11, 13, 15, 17, 19, 21); every hour, listed or not, reads alpha = beta = 1 |
| `Timing.ThompsonSamplerTimingPolicy.Update` | model/timing_policy.py:71-80 | alpha of the hour rises by the reward, beta by one minus it; every other hour is unchanged; the counters still count the feedback log |
| `Timing.ThompsonSamplerTimingPolicy.CountersTrackUpdates` | model/timing_policy.py:79-80 | alpha + beta of any hour is 2 plus the number of updates to it |
| `Timing.ThompsonSamplerTimingPolicy.CountersStayPositive` | model/timing_policy.py:53-80 | with rewards in {0, 1}, alpha and beta of every hour stay at least 1, so every hour can be drawn |
| `Timing.ThompsonSamplerTimingPolicy.DrawSamples` | model/timing_policy.py:64-67 | the draws succeed iff every listed hour has both counters above 0, and then hold the sample of each hour's last position; otherwise it stops at the first listed hour whose counters are not both positive |
| `Timing.FirstMaximalKey` | model/timing_policy.py:69 | scanning the drawn keys in insertion order, keeping a key only when it is strictly larger, gives the first maximal hour |
| `Timing.ThompsonSamplerTimingPolicy.SelectHour` | model/timing_policy.py:57-69 | fails with no hours iff there are none; succeeds iff there are hours and all have both counters above 0; otherwise names the first listed hour whose counters are not both positive; on success the hour's sample is maximal, the earliest listed among ties; no counter is modified |
| `TimingFactory.ParsePolicyType` | model/timing_policy_factory.py:31-32 | a string converts iff it is a member's value, and then to that member; any other string is a `ValueError` |
| `TimingFactory.ParsePolicyTypeValue` | model/timing_policy_factory.py:31-32 | converting a member's value gives the member back |
| `TimingFactory.CreateTimingPolicy` | model/timing_policy_factory.py:16-39 | succeeds iff the argument names a registered kind, as member or as value, and returns that kind's entry; an unknown string and an unregistered kind are the two errors |
| `TimingFactory.PolicyTypeToPolicy` | model/timing_policy_factory.py:12-14 | every kind maps to the one shared policy |
| `TimingFactory.RegistryReturnsSingleton` | model/timing_policy_factory.py:12-39 | enum and string "thompson_sampling" both return the shared policy |
| `TimingFactory.UserIdIgnored` | model/timing_policy_factory.py:17-39 | the user id never changes the outcome |
| `TimingFactory.RegistryFailsOnlyOnUnknownName` | model/timing_policy_factory.py:31-37 | with the declared registry, a lookup fails iff it is given a string other than "thompson_sampling" |
| `TimingFactory.UpdateVisibleThroughNextLookup` | model/timing_policy_factory.py:12-39 | two lookups return the same object, so the second sees the counters the first one updated |
| `ContentDetection.TaxonomyDistinct` | service/content_detection_service.py:15-63 | thirteen categories, none twice, each with at least one pattern |
| `ContentDetection.MatchedUpTo` | service/content_detection_service.py:123-127 | a category is collected iff one of its patterns matches |
| `ContentDetection.KeywordMatches` | service/content_detection_service.py:121-129 | keyword detection reports only taxonomy categories |
| `ContentDetection.KeywordMatchesAreMatchingCategories` | service/content_detection_service.py:121-129 | a category is detected iff some pattern of that category matches the text |
| `ContentDetection.DetectByKeywords` | service/content_detection_service.py:111-129 | the nested loop that stops at each category's first hit returns exactly the matching categories |
| `ContentDetection.BuildModerationResponse` | service/content_detection_service.py:83-92 | flagged iff something was detected; every taxonomy category present; detected ones true, scored 1.0 and applied to text; the rest false, 0.0 and no input types |
| `ContentDetection.FlaggedAmong` | service/orchestration_service.py:67-70 | the listed categories are exactly those marked true, in key order |
| `ContentDetection.BuiltResponseFlagsDetected` | service/content_detection_service.py:84-92 | a built response lists exactly the detected categories as flagged, and is flagged iff it lists any |
| `ContentDetection.Detection` | service/content_detection_service.py:94-109 | empty text gives an unflagged response with every category false; a keyword hit gives a flagged response listing exactly the hit categories |
| `ContentDetection.DetectContent` | service/content_detection_service.py:70-109 | empty text: the built all-clear response and no calls; a keyword hit: the built response, no external call; otherwise the classifier's result unchanged, after the prefilter; the classifier is called for a text iff it is that non-empty text and no pattern matched it |
| `Risk.NewRiskPredictor` | model/risk_predictor.py:19-38 | neither a path nor a model is an error; a given model is used whatever the path; otherwise a path without ".joblib" is rejected and a good path is loaded |
| `Risk.WrongSuffixNeverLoaded` | model/risk_predictor.py:33-38 | a non-empty path without the ".joblib" suffix is rejected with the same outcome whatever the loader would do |
| `Risk.NewDemoRiskPredictor` | model/risk_predictor.py:68-69 | the demo predictor is always built, around the model it passes |
| `Risk.FixedModelFileOnlyFailsOnLoad` | model/risk_predictor.py:83-97 | the two XGBoost file names pass the suffix check, so only their load can fail |
| `Risk.FemaleInAnyCase` | model/risk_predictor.py:52-57 | the sex code is 1.0 exactly for the six-letter strings that spell "female" up to letter case |
| `Risk.ConvertUserProfileToData` | model/risk_predictor.py:45-59 | four features: age, height, weight with missing as the sentinel, and a sex code missing iff no sex is given, otherwise 0.0 or 1.0 |
| `Risk.EncodingDeterminesFields` | model/risk_predictor.py:48-59 | equal feature vectors mean equal age, height, weight and sex code |
| `Risk.DemoScore` | model/risk_predictor.py:71-80 | 1.0, 0.5 and 0.0 for the high, medium and low reserved ids; the base score of the encoded profile for any other id |
| `Risk.BaseScoreSeesOnlyFeatures` | model/risk_predictor.py:40-43 | `RiskPredictor.score` reads the profile only through its encoded features: profiles with the same encoding score the same |
| `Risk.Score` | model/risk_predictor.py:40-80 | a demo predictor scores by the reserved-id checks; a standard predictor, and a demo one for an id in no reserved set, gives the model's probability for the encoded profile |
| `Risk.KindsAgreeOffReservedIds` | model/risk_predictor.py:71-80 | off the reserved ids, the demo predictor scores as the standard one on the same model |
| `Risk.ReservedIdsIgnoreProfile` | model/risk_predictor.py:64-78 | a reserved id fixes the score in [0, 1], whatever the model and the other fields |
| `Risk.ReservedSetsDisjoint` | model/risk_predictor.py:64-66 | no id is in two reserved sets |
| `Orchestration.NoGoalsGiveEmptyText` | service/orchestration_service.py:56 | an empty goal list is moderated as "" |
| `Orchestration.GoalTextKeepsDescriptions` | service/orchestration_service.py:56 | the moderated text is the goal descriptions joined by newlines, in list order |
| `Orchestration.OrchestrationService.constructor` | service/orchestration_service.py:16-34 | the collaborators are stored as given |
| `Orchestration.OrchestrationService.Default` | service/__init__.py:7-12 | the default orchestrator gets a demo predictor and a newly built timing policy, not the registry's shared one |
| `Orchestration.OrchestrationService.CreateDailyRecommendation` | service/orchestration_service.py:36-98 | moderation comes first; flagged text stops the flow with the text and exactly the flagged categories; otherwise risk, assistant with that risk, then one hour choice; past moderation it succeeds iff there are hours and every one has both counters above 0, and a failure is the hour choice's error; with a valid policy fed only rewards in {0, 1} and at least one hour, it succeeds iff the text is not flagged; the result carries the message, a first-maximal hour and no badge |
| `Orchestration.OrchestrationService.CheckForConcerningBehaviors` | service/orchestration_service.py:100-125 | exactly the behavioural analysis's result, the no-alert outcome included |

## Left out

- Floating point: sleep hours, means, samples and scores are mathematical reals. Float64 rounding, NaN behaviour beyond the missing-feature sentinel, and the `float()` casts are not modelled.
- Dates are integer timestamps. They are only compared, as the sort does.
- `Text.Lower` lower-cases ASCII only. That is exact for the two uses, "female" and "no action needed": no non-ASCII character lower-cases to one of their letters.
- The chat completion, the moderation classifier and the assistant are opaque function parameters, and so are the OpenAI client and `json.loads`. The request fields they send, such as the model name, temperature and `user`, are not represented.
- `_build_context` and the assistant's prompt building are string formatting over float means with rounding. The opaque chat function receives the profile, the metrics and the rule ids instead.
- `numpy.random.beta` and `DemoModel`'s seeded generator. The Beta draws and the model's probability are inputs. The one way the draw can raise, a parameter not above 0, is modelled.
- `joblib.load` is an opaque loader. A load that raises is the `LoadFailed` error.
- uuid generation and `datetime.now`/`utcnow` are inputs (`freshId`, `now`, `generatedAt`).
- Logging, the HTTP routers and the FastAPI exception handlers. The routers' guards appear only as preconditions: at least seven metrics, and matching user ids.
- The timing router passes `request.policy_name`, an attribute that `TimingPolicyUpdate` does not have. Router code is not part of this model, so that call is not modelled.
- The abstract `TimingPolicy` base class: Thompson sampling is its only implementation.
- The module-level singletons are not module constants here, because Dafny cannot allocate an object at module level. They appear as arguments to `PolicyTypeToPolicy` and to the default constructors.
- `CoachProfile` is not part of this model, and neither is the profile's `coach_profile` field. Nothing in the core reads it.
- The risk is not shown to lie in [0, 1] for non-reserved ids, since `predict_proba` is opaque.
- `BehavioralAnalysis.SortByDateDesc`: rows with equal dates keep their input order. pandas sorts with an unstable quicksort, whose order among ties is not modelled. Order independence is therefore proved only when no two different rows share a date.
- `ContentDetection.FlaggedAmong`: the flagged categories are listed by their taxonomy keys (such as "self-harm/intent") in taxonomy order. The library instead lists its attribute names in its own field order.
- `ContentDetection.DetectContent`: the classifier's `results[0]` is modelled as the single result of an opaque function.
- The defaultdict side effect is not modelled: in the source, reading a missing hour stores the default, in memory only. It changes no value read.
- `Recommendation` has no user-id field, so pydantic drops the `user_id` the orchestrator passes. The model's record has no such field either.

## The three rules as the code computes them

- `CAL_DROP_ACTIVITY_RISE` ("check if theres a big 7 day drop in calories and a big increase in activity"): the recent window is `head(7)` and the trailing window is `head(14).tail(7)` of the newest-first frame. With 8 to 13 rows the two windows overlap.
- `LOW_CAL_PERSIST` ("persistent low-calorie days over any 3 day period"): `rolling(3).sum().any()` over the low-calorie flags of `head(5)`. A window counts once it is complete and its count is non-zero, so one day below 1200 among the five newest is enough, given at least three rows.
- `SLEEP_DEBT` ("check if user is getting persistently poor sleep"): the short nights are counted in `tail(7)` of the newest-first frame, that is, among the seven oldest rows.
