/**
 * model/timing_policy.py: the Thompson-sampling policy that picks the hour at
 * which a recommendation is sent.
 *
 * The policy keeps two counter maps, `alpha` and `beta`, whose missing keys
 * read as 1.  `Update` adds the reward to `alpha` and its complement to `beta`.
 * `SelectHour` is given one Beta sample per entry of `hours` (the random draws
 * are an input here) and returns the hour with the largest sample, the first
 * such hour when several tie.  It fails when there is no hour, and when a
 * listed hour's counters are not both positive, for which the Beta draw
 * raises.  A ghost log of the feedback received ties the
 * counters to success and failure counts.
 */
module Timing {
  import opened Wrappers

  /** The hours at which the two-hour send windows begin. */
  const DefaultSendTimeWindows: seq<int> := [7, 9, 11, 13, 15, 17, 19, 21]

  /** Why `select_hour` raises: `max` of an empty dictionary, or a Beta draw with a parameter not above 0. */
  datatype SelectError = NoHours | InvalidBetaParameters(hour: int)

  /** One call of `update(hour, reward)`. */
  datatype Feedback = Feedback(hour: int, reward: int)

  // ---------------------------------------------------------------------
  // Counts over the feedback log

  /** The sum of the rewards received for `h`. */
  function Successes(log: seq<Feedback>, h: int): int
  {
    if log == [] then 0
    else Successes(log[..|log| - 1], h) + (if log[|log| - 1].hour == h then log[|log| - 1].reward else 0)
  }

  /** The sum of `1 - reward` over the feedback received for `h`. */
  function Failures(log: seq<Feedback>, h: int): int
  {
    if log == [] then 0
    else Failures(log[..|log| - 1], h) + (if log[|log| - 1].hour == h then 1 - log[|log| - 1].reward else 0)
  }

  /** The number of updates made to `h`. */
  function UpdatesTo(log: seq<Feedback>, h: int): nat
  {
    if log == [] then 0
    else UpdatesTo(log[..|log| - 1], h) + (if log[|log| - 1].hour == h then 1 else 0)
  }

  /** Whatever the rewards, successes and failures of an hour add up to its updates. */
  lemma {:induction false} SuccessesPlusFailures(log: seq<Feedback>, h: int)
    ensures Successes(log, h) + Failures(log, h) == UpdatesTo(log, h)
    decreases |log|
  {
    if log != [] {
      SuccessesPlusFailures(log[..|log| - 1], h);
    }
  }

  predicate BinaryRewards(log: seq<Feedback>)
  {
    forall i :: 0 <= i < |log| ==> 0 <= log[i].reward <= 1
  }

  /** With rewards in {0, 1}, neither count can go below zero, and neither exceeds the updates. */
  lemma {:induction false} BinaryRewardsBounds(log: seq<Feedback>, h: int)
    requires BinaryRewards(log)
    ensures 0 <= Successes(log, h) <= UpdatesTo(log, h)
    ensures 0 <= Failures(log, h) <= UpdatesTo(log, h)
    decreases |log|
  {
    if log != [] {
      var init := log[..|log| - 1];
      assert BinaryRewards(init) by {
        forall i | 0 <= i < |init| ensures 0 <= init[i].reward <= 1 {
          assert init[i] == log[i];
        }
      }
      assert 0 <= log[|log| - 1].reward <= 1;
      BinaryRewardsBounds(init, h);
    }
  }

  // ---------------------------------------------------------------------
  // What `select_hour` chooses

  /** The position of the first occurrence of `h`: the dictionary's key order. */
  function FirstIndex(hours: seq<int>, h: int): (k: nat)
    requires h in hours
    ensures k < |hours| && hours[k] == h
    ensures forall j :: 0 <= j < k ==> hours[j] != h
  {
    if hours[0] == h then 0 else 1 + FirstIndex(hours[1..], h)
  }

  /** The position of the last occurrence of `h` before `n`. */
  function LastIndexBefore(hours: seq<int>, h: int, n: nat): (k: nat)
    requires n <= |hours| && h in hours[..n]
    ensures k < n && hours[k] == h
    ensures forall j :: k < j < n ==> hours[j] != h
  {
    if hours[n - 1] == h then n - 1
    else
      assert h in hours[..n - 1] by {
        var j :| 0 <= j < n && hours[..n][j] == h;
        assert j != n - 1;
        assert hours[..n - 1][j] == h;
      }
      LastIndexBefore(hours, h, n - 1)
  }

  /** `{h: samples[i] for the first n entries h of hours}`, one insertion at a time. */
  function Drawn(hours: seq<int>, samples: seq<real>, n: nat): (d: map<int, real>)
    requires |samples| == |hours| && n <= |hours|
    ensures d.Keys == set j | 0 <= j < n :: hours[j]
  {
    if n == 0 then map[]
    else
      var d := Drawn(hours, samples, n - 1)[hours[n - 1] := samples[n - 1]];
      assert d.Keys == (set j | 0 <= j < n - 1 :: hours[j]) + {hours[n - 1]};
      d
  }

  /** When an hour is listed twice, the later sample overwrites the earlier one. */
  lemma {:induction false} LastSampleWins(hours: seq<int>, samples: seq<real>, n: nat, h: int)
    requires |samples| == |hours| && n <= |hours| && h in hours[..n]
    ensures h in Drawn(hours, samples, n)
    ensures Drawn(hours, samples, n)[h] == samples[LastIndexBefore(hours, h, n)]
    decreases n
  {
    var k := LastIndexBefore(hours, h, n);
    assert h == hours[k];
    if k < n - 1 {
      assert hours[..n - 1][k] == h;
      LastSampleWins(hours, samples, n - 1, h);
    }
  }

  /** The sample the dictionary holds for the candidate hour `h`. */
  function SampleFor(hours: seq<int>, samples: seq<real>, h: int): real
    requires |samples| == |hours| && h in hours
  {
    var k := FirstIndex(hours, h);
    assert h == hours[k];
    Drawn(hours, samples, |hours|)[h]
  }

  /**
   * `max(samples, key=samples.get)`: `h` is a candidate hour whose sample is
   * at least every other hour's, and strictly above that of every hour listed
   * before it (`max` keeps the first maximal key).
   */
  predicate IsFirstMaximal(hours: seq<int>, samples: seq<real>, h: int)
    requires |samples| == |hours|
  {
    && h in hours
    && (forall k :: 0 <= k < |hours| ==> SampleFor(hours, samples, hours[k]) <= SampleFor(hours, samples, h))
    && (forall k :: 0 <= k < FirstIndex(hours, h) ==> SampleFor(hours, samples, hours[k]) < SampleFor(hours, samples, h))
  }

  /** The tie-break makes the choice a function of the samples. */
  lemma FirstMaximalIsUnique(hours: seq<int>, samples: seq<real>, h1: int, h2: int)
    requires |samples| == |hours|
    requires IsFirstMaximal(hours, samples, h1) && IsFirstMaximal(hours, samples, h2)
    ensures h1 == h2
  {
  }

  predicate NoDuplicates(hours: seq<int>)
  {
    forall i, j :: 0 <= i < j < |hours| ==> hours[i] != hours[j]
  }

  lemma DistinctHourSample(hours: seq<int>, samples: seq<real>, j: nat)
    requires |samples| == |hours| && NoDuplicates(hours) && j < |hours|
    ensures FirstIndex(hours, hours[j]) == j
    ensures SampleFor(hours, samples, hours[j]) == samples[j]
  {
    assert forall i :: 0 <= i < |hours| && i != j ==> hours[i] != hours[j];
    assert hours[..|hours|] == hours;
    LastSampleWins(hours, samples, |hours|, hours[j]);
  }

  /**
   * With distinct candidate hours the choice is the textbook argmax: position
   * `k` is chosen iff its sample is maximal and strictly above every earlier one.
   */
  lemma SelectionOnDistinctHours(hours: seq<int>, samples: seq<real>, k: nat)
    requires |samples| == |hours| && NoDuplicates(hours) && k < |hours|
    ensures IsFirstMaximal(hours, samples, hours[k]) <==>
      ((forall j :: 0 <= j < |hours| ==> samples[j] <= samples[k])
       && (forall j :: 0 <= j < k ==> samples[j] < samples[k]))
  {
    forall j | 0 <= j < |hours|
      ensures FirstIndex(hours, hours[j]) == j && SampleFor(hours, samples, hours[j]) == samples[j]
    {
      DistinctHourSample(hours, samples, j);
    }
  }

  /** What the scan of the drawn dictionary establishes is the first-maximal choice. */
  lemma ScanFindsFirstMaximal(hours: seq<int>, samples: seq<real>, b: nat)
    requires |samples| == |hours| && b < |hours|
    requires forall k :: 0 <= k < |hours| ==> hours[k] in Drawn(hours, samples, |hours|)
    requires forall k :: 0 <= k < |hours| ==>
      Drawn(hours, samples, |hours|)[hours[k]] <= Drawn(hours, samples, |hours|)[hours[b]]
    requires forall k :: 0 <= k < b ==>
      Drawn(hours, samples, |hours|)[hours[k]] < Drawn(hours, samples, |hours|)[hours[b]]
    ensures IsFirstMaximal(hours, samples, hours[b])
  {
    assert FirstIndex(hours, hours[b]) == b;
  }

  /**
   * `max(samples, key=samples.get)` over the drawn dictionary: the keys are
   * visited in insertion order and the first maximal key is kept.
   */
  method FirstMaximalKey(hours: seq<int>, samples: seq<real>, drawn: map<int, real>) returns (best: int)
    requires |samples| == |hours| && hours != []
    requires drawn == Drawn(hours, samples, |hours|)
    ensures IsFirstMaximal(hours, samples, best)
  {
    assert forall k :: 0 <= k < |hours| ==> hours[k] in drawn;
    var b := 0;
    var i := 1;
    while i < |hours|
      invariant 1 <= i <= |hours| && 0 <= b < i
      invariant forall k :: 0 <= k < i ==> drawn[hours[k]] <= drawn[hours[b]]
      invariant forall k :: 0 <= k < b ==> drawn[hours[k]] < drawn[hours[b]]
    {
      if hours[i] !in hours[..i] && drawn[hours[i]] > drawn[hours[b]] {
        b := i;
      }
      i := i + 1;
    }
    best := hours[b];
    ScanFindsFirstMaximal(hours, samples, b);
  }

  // ---------------------------------------------------------------------
  // The policy object

  class ThompsonSamplerTimingPolicy {
    /** The candidate hours, in the order the dictionary comprehension visits them. */
    const hours: seq<int>
    var alpha: map<int, int>
    var beta: map<int, int>
    /** The `update` calls received so far, oldest first. */
    ghost var log: seq<Feedback>

    /** `self.alpha[h]`, where a missing key reads as 1. */
    function Alpha(h: int): int
      reads this
    {
      if h in alpha then alpha[h] else 1
    }

    /** `self.beta[h]`, where a missing key reads as 1. */
    function Beta(h: int): int
      reads this
    {
      if h in beta then beta[h] else 1
    }

    /** `np.random.beta(alpha[h], beta[h])` accepts only positive parameters. */
    predicate Drawable(h: int)
      reads this
    {
      Alpha(h) > 0 && Beta(h) > 0
    }

    /** Both counters start at 1 and count the log's successes and failures. */
    ghost predicate Valid()
      reads this
    {
      forall h :: Alpha(h) == 1 + Successes(log, h) && Beta(h) == 1 + Failures(log, h)
    }

    /** A fresh policy: every hour, listed or not, reads 1 in both counters. */
    constructor (hours: seq<int> := DefaultSendTimeWindows)
      ensures this.hours == hours
      ensures forall h :: Alpha(h) == 1 && Beta(h) == 1
      ensures log == []
      ensures Valid()
    {
      this.hours := hours;
      alpha := map[];
      beta := map[];
      log := [];
    }

    /** `alpha[hour] += reward; beta[hour] += 1 - reward`; no other hour changes. */
    method Update(hour: int, reward: int)
      requires Valid()
      modifies this
      ensures Alpha(hour) == old(Alpha(hour)) + reward
      ensures Beta(hour) == old(Beta(hour)) + 1 - reward
      ensures forall h :: h != hour ==> Alpha(h) == old(Alpha(h)) && Beta(h) == old(Beta(h))
      ensures log == old(log) + [Feedback(hour, reward)]
      ensures Valid()
    {
      alpha := alpha[hour := Alpha(hour) + reward];
      beta := beta[hour := Beta(hour) + 1 - reward];
      log := log + [Feedback(hour, reward)];
      assert forall h :: Successes(log, h) == Successes(old(log), h) + (if h == hour then reward else 0)
        by { assert log[..|log| - 1] == old(log); }
      assert forall h :: Failures(log, h) == Failures(old(log), h) + (if h == hour then 1 - reward else 0)
        by { assert log[..|log| - 1] == old(log); }
    }

    /** Every update adds exactly 1 to `alpha[h] + beta[h]`. */
    lemma CountersTrackUpdates(h: int)
      requires Valid()
      ensures Alpha(h) + Beta(h) == 2 + UpdatesTo(log, h)
    {
      SuccessesPlusFailures(log, h);
    }

    /** With rewards in {0, 1} both counters stay at least 1. */
    lemma CountersStayPositive(h: int)
      requires Valid() && BinaryRewards(log)
      ensures Alpha(h) >= 1 && Beta(h) >= 1
      ensures Drawable(h)
    {
      BinaryRewardsBounds(log, h);
    }

    /**
     * The dictionary comprehension of `select_hour`: one draw per listed hour,
     * in list order, the last sample of a repeated hour winning.  The first
     * hour whose counters are not both positive stops it.
     */
    method DrawSamples(samples: seq<real>) returns (r: Result<map<int, real>, SelectError>)
      requires |samples| == |hours|
      ensures r.Success? <==> forall k :: 0 <= k < |hours| ==> Drawable(hours[k])
      ensures r.Success? ==> r.value == Drawn(hours, samples, |hours|)
      ensures r.Failure? ==> r.error.InvalidBetaParameters?
      ensures r.Failure? ==>
        exists k | 0 <= k < |hours| :: hours[k] == r.error.hour && !Drawable(hours[k])
          && forall j :: 0 <= j < k ==> Drawable(hours[j])
    {
      var drawn: map<int, real> := map[];
      var i := 0;
      while i < |hours|
        invariant 0 <= i <= |hours|
        invariant drawn == Drawn(hours, samples, i)
        invariant forall k :: 0 <= k < i ==> Drawable(hours[k])
      {
        if !Drawable(hours[i]) {
          return Failure(InvalidBetaParameters(hours[i]));
        }
        drawn := drawn[hours[i] := samples[i]];
        i := i + 1;
      }
      return Success(drawn);
    }

    /**
     * `select_hour`, given `samples[i]` as the Beta draw for `hours[i]`.
     * The draws run before `max`, so a listed hour with a counter not above 0
     * raises even where `max` would have had a choice; with no hours it is
     * `max` of an empty dictionary that raises.  It modifies nothing, so no
     * counter changes.
     */
    method SelectHour(samples: seq<real>) returns (r: Result<int, SelectError>)
      requires |samples| == |hours|
      ensures r == Failure(NoHours) <==> hours == []
      ensures r.Success? <==> hours != [] && forall k :: 0 <= k < |hours| ==> Drawable(hours[k])
      ensures r.Failure? && r.error.InvalidBetaParameters? ==>
        exists k | 0 <= k < |hours| :: hours[k] == r.error.hour && !Drawable(hours[k])
          && forall j :: 0 <= j < k ==> Drawable(hours[j])
      ensures r.Success? ==> IsFirstMaximal(hours, samples, r.value)
    {
      var drawn := DrawSamples(samples);
      if drawn.Failure? {
        return Failure(drawn.error);
      }
      if hours == [] {
        return Failure(NoHours);
      }
      var best := FirstMaximalKey(hours, samples, drawn.value);
      return Success(best);
    }
  }
}
