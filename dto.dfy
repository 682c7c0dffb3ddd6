/**
 * The pydantic records the core reads and builds (the dto package), as plain
 * immutable values.  Dates and timestamps are abstract instants ordered as
 * integers; optional fields are `Option`.
 */
module Dto {
  import opened Wrappers

  /** A `datetime`, abstracted to a point on a totally ordered time line. */
  type Timestamp = int

  /** dto/metrics.py: one calendar day of one user's observations. */
  datatype DailyMetric = DailyMetric(
    userId: string,
    date: Timestamp,
    steps: int,
    activeMinutes: int,
    caloriesIn: int,
    sleepHours: real,
    weightKg: Option<real>,
    emotion: Option<string>)

  /** dto/user.py: the child's profile; `caretakerId` defaults to "UNKNOWN" upstream but may be null. */
  datatype UserProfile = UserProfile(
    userId: string,
    firstName: string,
    age: int,
    sex: Option<string>,
    heightCm: Option<real>,
    weightKg: Option<real>,
    preferences: seq<string>,
    healthConditions: seq<string>,
    caretakerId: Option<string>)

  datatype GoalType = ActiveMinutes | HealthyMeals | Nutrition | Steps | Sleep | Mood | Other

  datatype GoalPeriod = Daily | Weekly | Monthly | Yearly | Lifetime

  /** The `status` field only admits "active", "met" or "expired". */
  datatype GoalStatus = Active | Met | Expired

  /** dto/goal.py: only `description` reaches the content-safety gate. */
  datatype Goal = Goal(
    id: string,
    userId: string,
    description: string,
    targetValue: string,
    targetUnit: string,
    metric: string,
    status: GoalStatus,
    startDate: Timestamp,
    goalType: Option<GoalType>,
    period: GoalPeriod)

  /** dto/recommendation.py: the daily recommendation; it has no user id field. */
  datatype Recommendation = Recommendation(
    id: string,
    message: string,
    sendTime: int,
    badge: Option<string>,
    createdAt: Timestamp)

  /** dto/recommendation.py: a caretaker alert; every text field is required. */
  datatype BehavioralRecommendation = BehavioralRecommendation(
    id: string,
    userId: string,
    caretakerId: string,
    alertTitle: string,
    summary: string,
    suggestedStep: string,
    triggeredRules: seq<string>,
    generatedAt: Timestamp)

  /** dto/timing.py: the closed set of timing-policy kinds. */
  datatype TimingPolicyType = ThompsonSampling
}
