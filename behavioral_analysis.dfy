/**
 * service/behavioral_analysis_service.py: the red-flag rule engine over a
 * window of daily metrics, and the decision that turns the language model's
 * reply into an optional caretaker alert.
 *
 * The engine sorts the metrics by date, newest first, and then reads three
 * windows of that frame.  `CheckRedFlagRules` computes with the source's
 * real-valued means and its rolling-window arithmetic; `RedFlagRules` states
 * the same rules in integer sums and plain membership, and the lemmas below
 * show the two agree.
 */
module BehavioralAnalysis {
  import opened Wrappers
  import opened Text
  import opened Dto

  const NoActionResponse: string := "no action needed"

  const IncreasedActivityStepThreshold: int := 1500
  const DecreasedCalorieThreshold: real := 0.25
  const ThreeDayLowCalorieThreshold: int := 1200
  const LowSleepThresholdHours: real := 6.0
  const SleepDebtDays: int := 4

  const CalDropActivityRiseRule: string := "CAL_DROP_ACTIVITY_RISE"
  const LowCalPersistRule: string := "LOW_CAL_PERSIST"
  const SleepDebtRule: string := "SLEEP_DEBT"

  // ---------------------------------------------------------------------
  // The frame, sorted by date descending

  predicate SortedByDateDesc(s: seq<DailyMetric>)
  {
    forall i, j :: 0 <= i < j < |s| ==> s[i].date >= s[j].date
  }

  /** Putting a row in front of a sorted frame keeps it sorted when the row is at least as recent. */
  lemma ConsSorted(x: DailyMetric, t: seq<DailyMetric>)
    requires SortedByDateDesc(t)
    requires forall k :: 0 <= k < |t| ==> x.date >= t[k].date
    ensures SortedByDateDesc([x] + t)
  {
    var r := [x] + t;
    forall i, j | 0 <= i < j < |r| ensures r[i].date >= r[j].date {
      if i > 0 {
        assert r[i] == t[i - 1] && r[j] == t[j - 1];
      } else {
        assert r[j] == t[j - 1];
      }
    }
  }

  function InsertByDateDesc(m: DailyMetric, s: seq<DailyMetric>): (r: seq<DailyMetric>)
    requires SortedByDateDesc(s)
    ensures SortedByDateDesc(r)
    ensures multiset(r) == multiset(s) + multiset{m}
  {
    if s == [] || m.date >= s[0].date then
      ConsSorted(m, s);
      [m] + s
    else
      var rest := InsertByDateDesc(m, s[1..]);
      assert s == [s[0]] + s[1..];
      assert forall k :: 0 <= k < |rest| ==> s[0].date >= rest[k].date by {
        forall k | 0 <= k < |rest| ensures s[0].date >= rest[k].date {
          assert rest[k] in multiset(s[1..]) + multiset{m};
          if rest[k] != m {
            assert rest[k] in s[1..];
          }
        }
      }
      ConsSorted(s[0], rest);
      [s[0]] + rest
  }

  /** `df.sort_values(by="date", ascending=False)`: a date-descending permutation of the rows. */
  function SortByDateDesc(s: seq<DailyMetric>): (r: seq<DailyMetric>)
    ensures SortedByDateDesc(r)
    ensures multiset(r) == multiset(s)
    ensures |r| == |s|
  {
    if s == [] then []
    else
      assert s == [s[0]] + s[1..];
      var r := InsertByDateDesc(s[0], SortByDateDesc(s[1..]));
      assert |r| == |multiset(r)| == |multiset(s)| == |s|;
      r
  }

  /** No two different rows share a date (rows equal in every field may repeat). */
  ghost predicate DatesIdentifyRows(s: seq<DailyMetric>)
  {
    forall x, y :: x in s && y in s && x.date == y.date ==> x == y
  }

  lemma SortedHeadIsLatest(a: seq<DailyMetric>, u: DailyMetric)
    requires SortedByDateDesc(a) && u in a
    ensures a[0].date >= u.date
  {
    var l :| 0 <= l < |a| && a[l] == u;
    assert l == 0 || a[0].date >= a[l].date;
  }

  lemma SortedRest(a: seq<DailyMetric>)
    requires SortedByDateDesc(a) && |a| > 0
    ensures SortedByDateDesc(a[1..])
    ensures multiset(a[1..]) == multiset(a) - multiset{a[0]}
  {
    assert a == [a[0]] + a[1..];
  }

  lemma DatesIdentifyRest(a: seq<DailyMetric>)
    requires DatesIdentifyRows(a) && |a| > 0
    ensures DatesIdentifyRows(a[1..])
  {
    forall u, v | u in a[1..] && v in a[1..] && u.date == v.date ensures u == v {
      assert u in a && v in a;
    }
  }

  /** Both orders start with the same row: the one with the latest date. */
  lemma SortedHeadsAgree(a: seq<DailyMetric>, b: seq<DailyMetric>)
    requires SortedByDateDesc(a) && SortedByDateDesc(b)
    requires multiset(a) == multiset(b)
    requires DatesIdentifyRows(a)
    requires |a| > 0
    ensures |b| == |a| && a[0] == b[0]
  {
    assert |multiset(a)| == |a| && |multiset(b)| == |b|;
    assert a[0] in multiset(b) && b[0] in multiset(a);
    SortedHeadIsLatest(a, b[0]);
    SortedHeadIsLatest(b, a[0]);
  }

  lemma SameHeadSameTail(a: seq<DailyMetric>, b: seq<DailyMetric>)
    requires |a| == |b| > 0 && a[0] == b[0] && a[1..] == b[1..]
    ensures a == b
  {
    assert a == [a[0]] + a[1..] && b == [b[0]] + b[1..];
  }

  /** Two date-descending orders of the same rows coincide when dates identify rows. */
  lemma {:induction false} SortedPermutationsAgree(a: seq<DailyMetric>, b: seq<DailyMetric>)
    requires SortedByDateDesc(a) && SortedByDateDesc(b)
    requires multiset(a) == multiset(b)
    requires DatesIdentifyRows(a)
    ensures a == b
    decreases |a|
  {
    if |a| == 0 {
      assert |multiset(b)| == |b|;
    } else {
      SortedHeadsAgree(a, b);
      SortedRest(a);
      SortedRest(b);
      DatesIdentifyRest(a);
      SortedPermutationsAgree(a[1..], b[1..]);
      SameHeadSameTail(a, b);
    }
  }

  /** `df.head(n)` */
  function Head(s: seq<DailyMetric>, n: nat): (r: seq<DailyMetric>)
    ensures |r| == if |s| < n then |s| else n
    ensures forall i :: 0 <= i < |r| ==> r[i] == s[i]
  {
    if |s| <= n then s else s[..n]
  }

  /** `df.tail(n)` */
  function Tail(s: seq<DailyMetric>, n: nat): (r: seq<DailyMetric>)
    ensures |r| == if |s| < n then |s| else n
    ensures forall i :: 0 <= i < |r| ==> r[i] == s[|s| - |r| + i]
  {
    if |s| <= n then s else s[|s| - n..]
  }

  function SumSteps(rows: seq<DailyMetric>): int
  {
    if rows == [] then 0 else rows[0].steps + SumSteps(rows[1..])
  }

  function SumCalories(rows: seq<DailyMetric>): int
  {
    if rows == [] then 0 else rows[0].caloriesIn + SumCalories(rows[1..])
  }

  /** `rows["steps"].mean()`, in exact arithmetic. */
  function MeanSteps(rows: seq<DailyMetric>): real
    requires |rows| > 0
  {
    SumSteps(rows) as real / |rows| as real
  }

  /** `rows["calories_in"].mean()`, in exact arithmetic. */
  function MeanCalories(rows: seq<DailyMetric>): real
    requires |rows| > 0
  {
    SumCalories(rows) as real / |rows| as real
  }

  /** Number of rows with `sleep_hours < 6`. */
  function CountPoorSleep(rows: seq<DailyMetric>): nat
  {
    if rows == [] then 0
    else (if rows[0].sleepHours < LowSleepThresholdHours then 1 else 0) + CountPoorSleep(rows[1..])
  }

  /** `df.head(5)["calories_in"] < 1200`, as 0/1 flags. */
  function LowCalFlags(rows: seq<DailyMetric>): seq<int>
  {
    seq(|rows|, i requires 0 <= i < |rows| => if rows[i].caloriesIn < ThreeDayLowCalorieThreshold then 1 else 0)
  }

  /** `flags.rolling(3).sum()`: no value (NaN) until three rows are in the window. */
  function RollingSum3(xs: seq<int>): seq<Option<int>>
  {
    seq(|xs|, j requires 0 <= j < |xs| => if j < 2 then None else Some(xs[j - 2] + xs[j - 1] + xs[j]))
  }

  /** `series.any()`, which skips NaN and treats every non-zero value as true. */
  predicate AnySkipNa(xs: seq<Option<int>>)
  {
    exists j | 0 <= j < |xs| :: xs[j].Some? && xs[j].value != 0
  }

  // ---------------------------------------------------------------------
  // The rules, stated over the date-descending frame

  /** `df.head(7)`: the seven newest rows. */
  function RecentWeek(df: seq<DailyMetric>): seq<DailyMetric>
  {
    Head(df, 7)
  }

  /** `df.head(14).tail(7)`: with 8 to 13 rows it overlaps the recent week. */
  function TrailingWeek(df: seq<DailyMetric>): seq<DailyMetric>
  {
    Tail(Head(df, 14), 7)
  }

  /**
   * CAL_DROP_ACTIVITY_RISE in integer sums over the two seven-row windows:
   * trailing intake positive, intake down by more than a quarter, and steps
   * up by more than 1500 a day on average.
   */
  predicate CalDropActivityRise(df: seq<DailyMetric>)
  {
    |df| > 7 &&
    var recentCalories := SumCalories(RecentWeek(df));
    var trailingCalories := SumCalories(TrailingWeek(df));
    && trailingCalories > 0
    && 4 * (trailingCalories - recentCalories) > trailingCalories
    && SumSteps(RecentWeek(df)) > SumSteps(TrailingWeek(df)) + 7 * IncreasedActivityStepThreshold
  }

  /** LOW_CAL_PERSIST: with at least three rows, one of the five newest days is under 1200 kcal. */
  predicate LowCalPersist(df: seq<DailyMetric>)
  {
    |df| >= 3 && exists i | 0 <= i < |df| && i < 5 :: df[i].caloriesIn < ThreeDayLowCalorieThreshold
  }

  /** SLEEP_DEBT: at least four short nights among `df.tail(7)`, the seven OLDEST rows. */
  predicate SleepDebt(df: seq<DailyMetric>)
  {
    CountPoorSleep(Tail(df, 7)) >= SleepDebtDays
  }

  /** Position of a rule id in the fixed reporting order; 3 for anything else. */
  function RuleRank(rule: string): nat
  {
    if rule == CalDropActivityRiseRule then 0
    else if rule == LowCalPersistRule then 1
    else if rule == SleepDebtRule then 2
    else 3
  }

  /** The ids of the rules that fired, appended in the engine's fixed order. */
  function ReportedRules(calDrop: bool, lowCal: bool, sleepDebt: bool): (r: seq<string>)
    ensures forall i :: 0 <= i < |r| ==> RuleRank(r[i]) < 3
    ensures forall i, j :: 0 <= i < j < |r| ==> RuleRank(r[i]) < RuleRank(r[j])
    ensures CalDropActivityRiseRule in r <==> calDrop
    ensures LowCalPersistRule in r <==> lowCal
    ensures SleepDebtRule in r <==> sleepDebt
  {
    (if calDrop then [CalDropActivityRiseRule] else [])
    + (if lowCal then [LowCalPersistRule] else [])
    + (if sleepDebt then [SleepDebtRule] else [])
  }

  /** The rule ids the engine reports for a date-descending frame. */
  function RedFlagRules(df: seq<DailyMetric>): (r: seq<string>)
    ensures forall i :: 0 <= i < |r| ==> RuleRank(r[i]) < 3
    ensures forall i, j :: 0 <= i < j < |r| ==> RuleRank(r[i]) < RuleRank(r[j])
    ensures CalDropActivityRiseRule in r <==> CalDropActivityRise(df)
    ensures LowCalPersistRule in r <==> LowCalPersist(df)
    ensures SleepDebtRule in r <==> SleepDebt(df)
    ensures CalDropActivityRiseRule in r ==> |df| > 7
  {
    ReportedRules(CalDropActivityRise(df), LowCalPersist(df), SleepDebt(df))
  }

  /** The source's mean-based divergence test is the integer test on the window sums. */
  lemma DivergenceInSums(recentSteps: int, recentCalories: int, trailingSteps: int, trailingCalories: int)
    ensures
      var rs := recentSteps as real / 7.0;
      var rc := recentCalories as real / 7.0;
      var ts := trailingSteps as real / 7.0;
      var tc := trailingCalories as real / 7.0;
      (tc > 0.0 && (tc - rc) / tc > DecreasedCalorieThreshold && rs > ts + IncreasedActivityStepThreshold as real)
      <==>
      (trailingCalories > 0 && 4 * (trailingCalories - recentCalories) > trailingCalories
       && recentSteps > trailingSteps + 7 * IncreasedActivityStepThreshold)
  {
    var rs := recentSteps as real / 7.0;
    var rc := recentCalories as real / 7.0;
    var ts := trailingSteps as real / 7.0;
    var tc := trailingCalories as real / 7.0;
    assert tc > 0.0 <==> trailingCalories > 0;
    assert rs > ts + 1500.0 <==> recentSteps > trailingSteps + 10500;
    if tc > 0.0 {
      var d := (tc - rc) / tc;
      assert d * tc == tc - rc;
      assert d > 0.25 <==> d * tc > 0.25 * tc;
      assert tc - rc > 0.25 * tc <==> 4 * (trailingCalories - recentCalories) > trailingCalories;
    }
  }

  /** A non-zero window sum among the five newest rows points at a low day. */
  lemma LowWindowHasLowDay(df: seq<DailyMetric>)
    requires AnySkipNa(RollingSum3(LowCalFlags(Head(df, 5))))
    ensures LowCalPersist(df)
  {
    var rows := Head(df, 5);
    var flags := LowCalFlags(rows);
    var sums := RollingSum3(flags);
    var j :| 0 <= j < |sums| && sums[j].Some? && sums[j].value != 0;
    assert sums[j].value == flags[j - 2] + flags[j - 1] + flags[j];
    var i := if flags[j - 2] != 0 then j - 2 else if flags[j - 1] != 0 then j - 1 else j;
    assert flags[i] != 0;
    assert rows[i] == df[i];
  }

  /** A low day among the five newest rows makes a window sum non-zero once three rows exist. */
  lemma LowDayHasLowWindow(df: seq<DailyMetric>)
    requires LowCalPersist(df)
    ensures AnySkipNa(RollingSum3(LowCalFlags(Head(df, 5))))
  {
    var rows := Head(df, 5);
    var flags := LowCalFlags(rows);
    var sums := RollingSum3(flags);
    var i :| 0 <= i < |df| && i < 5 && df[i].caloriesIn < ThreeDayLowCalorieThreshold;
    var j := if i < 2 then 2 else i;
    assert rows[i] == df[i];
    assert flags[i] == 1;
    assert 0 <= flags[j - 2] && 0 <= flags[j - 1] && 0 <= flags[j];
    assert sums[j].Some? && sums[j].value != 0;
  }

  /** The rolling-window test on the five newest rows is "one of them is low". */
  lemma LowCalRollingWindows(df: seq<DailyMetric>)
    ensures AnySkipNa(RollingSum3(LowCalFlags(Head(df, 5)))) <==> LowCalPersist(df)
  {
    if AnySkipNa(RollingSum3(LowCalFlags(Head(df, 5)))) {
      LowWindowHasLowDay(df);
    }
    if LowCalPersist(df) {
      LowDayHasLowWindow(df);
    }
  }

  /** For distinct dates (more generally: dates that identify rows) input order does not matter. */
  lemma RedFlagRulesIgnoreInputOrder(xs: seq<DailyMetric>, ys: seq<DailyMetric>)
    requires multiset(xs) == multiset(ys)
    requires DatesIdentifyRows(xs)
    ensures SortByDateDesc(xs) == SortByDateDesc(ys)
    ensures RedFlagRules(SortByDateDesc(xs)) == RedFlagRules(SortByDateDesc(ys))
  {
    var a, b := SortByDateDesc(xs), SortByDateDesc(ys);
    forall x | x in a ensures x in xs {
      assert x in multiset(a);
    }
    SortedPermutationsAgree(a, b);
  }

  /**
   * `_check_red_flag_rules`: sort, then append the violated rule ids one
   * check at a time.  An empty list has no "date" column, so the source's
   * sort raises there; callers always pass at least seven rows.
   */
  method CheckRedFlagRules(metrics: seq<DailyMetric>) returns (violations: seq<string>)
    requires |metrics| > 0
    ensures violations == RedFlagRules(SortByDateDesc(metrics))
  {
    violations := [];
    var df := SortByDateDesc(metrics);

    if |df| > 7 {
      var mostRecentWeek := Head(df, 7);
      var mostRecentWeekMeanSteps := MeanSteps(mostRecentWeek);
      var mostRecentWeekMeanCalories := MeanCalories(mostRecentWeek);

      var trailingWeek := Tail(Head(df, 14), 7);
      var trailingWeekMeanSteps := MeanSteps(trailingWeek);
      var trailingWeekMeanCalories := MeanCalories(trailingWeek);

      DivergenceInSums(SumSteps(mostRecentWeek), SumCalories(mostRecentWeek),
                       SumSteps(trailingWeek), SumCalories(trailingWeek));
      assert |mostRecentWeek| == 7 && |trailingWeek| == 7;
      if trailingWeekMeanCalories > 0.0 {
        var drop := (trailingWeekMeanCalories - mostRecentWeekMeanCalories) / trailingWeekMeanCalories;
        if drop > DecreasedCalorieThreshold
           && mostRecentWeekMeanSteps > trailingWeekMeanSteps + IncreasedActivityStepThreshold as real
        {
          violations := violations + [CalDropActivityRiseRule];
        }
      }
    }
    assert violations == if CalDropActivityRise(df) then [CalDropActivityRiseRule] else [];
    ghost var afterDivergence := violations;

    var lowCalFlags := LowCalFlags(Head(df, 5));
    var hasLowCalPeriod := AnySkipNa(RollingSum3(lowCalFlags));
    LowCalRollingWindows(df);
    if hasLowCalPeriod {
      violations := violations + [LowCalPersistRule];
    }
    assert violations == afterDivergence + if LowCalPersist(df) then [LowCalPersistRule] else [];

    var numDaysPoorSleep := CountPoorSleep(Tail(df, 7));
    if numDaysPoorSleep >= SleepDebtDays {
      violations := violations + [SleepDebtRule];
    }
    assert violations == ReportedRules(CalDropActivityRise(df), LowCalPersist(df), SleepDebt(df));
  }

  // ---------------------------------------------------------------------
  // The reply of the language model and the alert it leads to

  /** The `issue_alert` arguments; a missing or non-string field is `None`. */
  datatype AlertPayload = AlertPayload(alertTitle: Option<string>, summary: Option<string>, suggestedStep: Option<string>)

  /** A function call; `arguments` is `None` when they do not parse to a JSON object. */
  datatype FunctionCall = FunctionCall(arguments: Option<AlertPayload>)

  /** The first choice's message: optional free text and an optional function call. */
  datatype ChatReply = ChatReply(content: Option<string>, functionCall: Option<FunctionCall>)

  /** Why no record could be built from a reply that does not say "no action needed". */
  datatype AnalysisError =
    | NoFunctionCall        // `msg.function_call` is None
    | ArgumentsNotAnObject  // `json.loads` fails or yields no object
    | InvalidRecord         // a required alert field or the caretaker id is missing

  /** The chat-completion call, opaque: metrics and rule ids in, a reply out. */
  type BehaviorChat = (UserProfile, seq<DailyMetric>, seq<string>) -> ChatReply

  /** `msg.content and NO_ACTION_RESPONSE in msg.content.lower()` */
  predicate SignalsNoAction(content: Option<string>)
  {
    content.Some? && content.value != "" && Contains(Lower(content.value), NoActionResponse)
  }

  /** The phrase written in any mix of letter cases anywhere in the text means "no action". */
  lemma NoActionPhraseInAnyCase(content: string, i: nat)
    requires i + |NoActionResponse| <= |content|
    requires Lower(content[i..i + |NoActionResponse|]) == NoActionResponse
    ensures SignalsNoAction(Some(content))
  {
    LowerSlice(content, i, i + |NoActionResponse|);
    assert OccursAt(Lower(content), NoActionResponse, i);
  }

  /**
   * The post-reply branch of `analyze_aggregate_user_metrics`: no alert when
   * the reply says so, otherwise a record built from the function-call
   * arguments, carrying exactly the rule engine's ids.
   */
  function DecideBehavioralRecommendation(
    profile: UserProfile, rules: seq<string>, reply: ChatReply, id: string, generatedAt: Timestamp
  ): (r: Result<Option<BehavioralRecommendation>, AnalysisError>)
    ensures r == Success(None) <==> SignalsNoAction(reply.content)
    ensures r == Failure(NoFunctionCall) <==> !SignalsNoAction(reply.content) && reply.functionCall.None?
    ensures r == Failure(ArgumentsNotAnObject) <==>
              !SignalsNoAction(reply.content) && reply.functionCall.Some? && reply.functionCall.value.arguments.None?
    ensures (r.Success? && r.value.Some?) <==>
              && !SignalsNoAction(reply.content)
              && reply.functionCall.Some? && reply.functionCall.value.arguments.Some?
              && var p := reply.functionCall.value.arguments.value;
                 p.alertTitle.Some? && p.summary.Some? && p.suggestedStep.Some? && profile.caretakerId.Some?
    ensures r.Success? && r.value.Some? ==>
              var rec := r.value.value;
              && rec.triggeredRules == rules
              && rec.userId == profile.userId
              && profile.caretakerId == Some(rec.caretakerId)
              && rec.id == id && rec.generatedAt == generatedAt
              && reply.functionCall.Some?
              && reply.functionCall.value.arguments
                 == Some(AlertPayload(Some(rec.alertTitle), Some(rec.summary), Some(rec.suggestedStep)))
    ensures r == Failure(InvalidRecord) <==>
              && !SignalsNoAction(reply.content)
              && reply.functionCall.Some? && reply.functionCall.value.arguments.Some?
              && var p := reply.functionCall.value.arguments.value;
                 p.alertTitle.None? || p.summary.None? || p.suggestedStep.None? || profile.caretakerId.None?
  {
    if SignalsNoAction(reply.content) then Success(None)
    else if reply.functionCall.None? then Failure(NoFunctionCall)
    else match reply.functionCall.value.arguments
      case None => Failure(ArgumentsNotAnObject)
      case Some(payload) =>
        if payload.alertTitle.None? || payload.summary.None? || payload.suggestedStep.None?
           || profile.caretakerId.None?
        then Failure(InvalidRecord)
        else Success(Some(BehavioralRecommendation(
          id := id,
          userId := profile.userId,
          caretakerId := profile.caretakerId.value,
          alertTitle := payload.alertTitle.value,
          summary := payload.summary.value,
          suggestedStep := payload.suggestedStep.value,
          triggeredRules := rules,
          generatedAt := generatedAt)))
  }

  /**
   * `analyze_aggregate_user_metrics`: run the rules, ask the model (given
   * the rule ids), and decide.  `id` and `generatedAt` stand for the fresh
   * uuid and the construction time.
   */
  method AnalyzeAggregateUserMetrics(
    profile: UserProfile, metrics: seq<DailyMetric>, chat: BehaviorChat, id: string, generatedAt: Timestamp
  ) returns (r: Result<Option<BehavioralRecommendation>, AnalysisError>)
    requires |metrics| > 0
    ensures var rules := RedFlagRules(SortByDateDesc(metrics));
            r == DecideBehavioralRecommendation(profile, rules, chat(profile, metrics, rules), id, generatedAt)
  {
    var ruleViolations := CheckRedFlagRules(metrics);
    var reply := chat(profile, metrics, ruleViolations);
    r := DecideBehavioralRecommendation(profile, ruleViolations, reply, id, generatedAt);
  }
}
