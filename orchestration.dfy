/**
 * service/orchestration_service.py: the daily recommendation flow and the
 * behavioural check, over abstract collaborators.
 *
 * The daily flow moderates the joined goal descriptions, stops with an error
 * when they are flagged, and otherwise scores the risk, asks the assistant
 * for a message given that risk, picks the send hour and assembles the
 * recommendation.  A ghost trace records the collaborator calls in order.
 */
module Orchestration {
  import opened Wrappers
  import opened Text
  import opened Dto
  import opened BehavioralAnalysis
  import opened ContentDetection
  import opened Risk
  import opened Timing

  /** `assistant_service.create_recommendation`, opaque: profile, metric, goals and risk in, a message out. */
  type Assistant = (UserProfile, DailyMetric, seq<Goal>, real) -> string

  /** The collaborator calls of `create_daily_recommendation`. */
  datatype Call =
    | Moderate(text: string)
    | ScoreRisk(profile: UserProfile)
    | Generate(profile: UserProfile, metric: DailyMetric, goals: seq<Goal>, risk: real)
    | ChooseHour

  /** Why the daily flow produced no recommendation. */
  datatype DailyError =
    | ContentFlagged(content: string, flaggedCategories: seq<string>) // `ContentDetectionFlaggedError`
    | SendHourFailed(cause: SelectError)                               // `select_hour` raised

  function Descriptions(goals: seq<Goal>): (r: seq<string>)
    ensures |r| == |goals| && forall i :: 0 <= i < |goals| ==> r[i] == goals[i].description
  {
    seq(|goals|, i requires 0 <= i < |goals| => goals[i].description)
  }

  /** The moderated text: the goal descriptions, one per line, in list order. */
  function GoalText(goals: seq<Goal>): string
  {
    JoinLines(Descriptions(goals))
  }

  /** No goals moderate the empty text. */
  lemma NoGoalsGiveEmptyText()
    ensures GoalText([]) == ""
  {
  }

  /** Single-line descriptions can be read back from the moderated text, in order. */
  lemma GoalTextKeepsDescriptions(goals: seq<Goal>)
    requires |goals| >= 1
    requires forall i :: 0 <= i < |goals| ==> '\n' !in goals[i].description
    ensures SplitLines(GoalText(goals)) == Descriptions(goals)
  {
    SplitJoinLines(Descriptions(goals));
  }

  class OrchestrationService {
    const assistant: Assistant
    const riskPredictor: RiskPredictor
    const timingPolicy: ThompsonSamplerTimingPolicy
    const behaviorChat: BehaviorChat
    /** Always the module's default detection service. */
    const contentDetection: ContentDetectionService

    constructor (
      assistant: Assistant, riskPredictor: RiskPredictor, timingPolicy: ThompsonSamplerTimingPolicy,
      behaviorChat: BehaviorChat, contentDetection: ContentDetectionService)
      ensures this.assistant == assistant && this.riskPredictor == riskPredictor
      ensures this.timingPolicy == timingPolicy && this.behaviorChat == behaviorChat
      ensures this.contentDetection == contentDetection
    {
      this.assistant := assistant;
      this.riskPredictor := riskPredictor;
      this.timingPolicy := timingPolicy;
      this.behaviorChat := behaviorChat;
      this.contentDetection := contentDetection;
    }

    /**
     * `default_orchestrator`: a demo risk predictor and a timing policy of its
     * own, built here, so it is not the policy the timing registry hands out.
     */
    constructor Default(
      assistant: Assistant, demoModel: ProbaModel, behaviorChat: BehaviorChat, contentDetection: ContentDetectionService)
      ensures this.assistant == assistant && this.behaviorChat == behaviorChat
      ensures this.riskPredictor == RiskPredictor(Demo, demoModel)
      ensures this.contentDetection == contentDetection
      ensures fresh(timingPolicy)
      ensures timingPolicy.hours == DefaultSendTimeWindows && timingPolicy.log == [] && timingPolicy.Valid()
    {
      this.assistant := assistant;
      this.riskPredictor := RiskPredictor(Demo, demoModel);
      this.behaviorChat := behaviorChat;
      this.contentDetection := contentDetection;
      this.timingPolicy := new ThompsonSamplerTimingPolicy();
    }

    /**
     * `create_daily_recommendation`.  `samples` are the timing policy's Beta
     * draws, `freshId` and `now` the new uuid and the clock.  The profile and
     * the metric belong to the same user, as the recommendation router checks
     * before calling.
     */
    method CreateDailyRecommendation(
      profile: UserProfile, metric: DailyMetric, goals: seq<Goal>,
      samples: seq<real>, freshId: string, now: Timestamp
    ) returns (r: Result<Recommendation, DailyError>, ghost trace: seq<Call>)
      requires profile.userId == metric.userId
      requires |samples| == |timingPolicy.hours|
      ensures |trace| >= 1 && trace[0] == Moderate(GoalText(goals))
      ensures Detection(contentDetection, GoalText(goals)).flagged ==>
        && r == Failure(ContentFlagged(GoalText(goals), FlaggedCategories(Detection(contentDetection, GoalText(goals)))))
        && trace == [Moderate(GoalText(goals))]
      ensures !Detection(contentDetection, GoalText(goals)).flagged ==>
        trace == [Moderate(GoalText(goals)), ScoreRisk(profile),
                  Generate(profile, metric, goals, Score(riskPredictor, profile)), ChooseHour]
      ensures !Detection(contentDetection, GoalText(goals)).flagged ==>
        (r.Success? <==> timingPolicy.hours != [] && forall k :: 0 <= k < |timingPolicy.hours| ==> timingPolicy.Drawable(timingPolicy.hours[k]))
      ensures r.Failure? && !Detection(contentDetection, GoalText(goals)).flagged ==> r.error.SendHourFailed?
      ensures !Detection(contentDetection, GoalText(goals)).flagged ==>
        (r == Failure(SendHourFailed(NoHours)) <==> timingPolicy.hours == [])
      ensures r.Failure? && r.error.SendHourFailed? && r.error.cause.InvalidBetaParameters? ==>
        r.error.cause.hour in timingPolicy.hours && !timingPolicy.Drawable(r.error.cause.hour)
      ensures timingPolicy.Valid() && BinaryRewards(timingPolicy.log) && timingPolicy.hours != [] ==>
        (r.Success? <==> !Detection(contentDetection, GoalText(goals)).flagged)
      ensures r.Success? ==>
        && r.value.id == freshId
        && r.value.message == assistant(profile, metric, goals, Score(riskPredictor, profile))
        && IsFirstMaximal(timingPolicy.hours, samples, r.value.sendTime)
        && r.value.badge.None?
        && r.value.createdAt == now
    {
      var goalText := GoalText(goals);
      var moderation, _ := DetectContent(contentDetection, goalText);
      trace := [Moderate(goalText)];
      if moderation.flagged {
        return Failure(ContentFlagged(goalText, FlaggedCategories(moderation))), trace;
      }
      var risk := Score(riskPredictor, profile);
      trace := trace + [ScoreRisk(profile)];
      var message := assistant(profile, metric, goals, risk);
      trace := trace + [Generate(profile, metric, goals, risk)];
      var sendTime := timingPolicy.SelectHour(samples);
      trace := trace + [ChooseHour];
      if timingPolicy.Valid() && BinaryRewards(timingPolicy.log) {
        forall k | 0 <= k < |timingPolicy.hours| ensures timingPolicy.Drawable(timingPolicy.hours[k]) {
          timingPolicy.CountersStayPositive(timingPolicy.hours[k]);
        }
      }
      if sendTime.Failure? {
        return Failure(SendHourFailed(sendTime.error)), trace;
      }
      r := Success(Recommendation(
        id := freshId,
        message := message,
        sendTime := sendTime.value,
        badge := None,
        createdAt := now));
    }

    /**
     * `check_for_concerning_behaviors`: exactly what the behavioural analysis
     * returns, the no-alert outcome included.  The behaviour router only calls it
     * with at least seven days of metrics.
     */
    method CheckForConcerningBehaviors(
      profile: UserProfile, metrics: seq<DailyMetric>, freshId: string, now: Timestamp
    ) returns (r: Result<Option<BehavioralRecommendation>, AnalysisError>)
      requires |metrics| >= 7
      ensures var rules := RedFlagRules(SortByDateDesc(metrics));
              r == DecideBehavioralRecommendation(profile, rules, behaviorChat(profile, metrics, rules), freshId, now)
    {
      r := AnalyzeAggregateUserMetrics(profile, metrics, behaviorChat, freshId, now);
    }
  }
}
