/**
 * The static popularity score of a feature: the total length of its run
 * network, mapped onto a saturating logarithmic scale in [0, 5].
 *
 * `Math.log10` is not modelled; every operation that needs it takes it as
 * the parameter `log10`, about which nothing is assumed unless a lemma
 * says so.
 */
module RankCalculator {
  import opened Wrappers
  import opened Features

  // ---------------------------------------------------------------------
  // Specification of the total run length
  // ---------------------------------------------------------------------

  /** `difficulty.lengthInKm || 0`: a bucket without a length adds nothing. */
  function BucketLength(bucket: RunStatistics): real
  {
    match bucket.lengthInKm
    case Some(km) => km
    case None => 0.0
  }

  /** Sum over a `byDifficulty` object, accumulated in iteration order. */
  function BucketsLength(buckets: seq<(string, RunStatistics)>): real
  {
    if buckets == [] then 0.0
    else BucketsLength(buckets[..|buckets| - 1]) + BucketLength(buckets[|buckets| - 1].1)
  }

  /** What one activity adds: nothing when it has no `byDifficulty`. */
  function ActivityLength(activity: ActivityStatistics): real
  {
    match activity.byDifficulty
    case None => 0.0
    case Some(buckets) => BucketsLength(buckets)
  }

  /** Sum over a `byActivity` object, accumulated in iteration order. */
  function ActivitiesLength(activities: seq<(string, ActivityStatistics)>): real
  {
    if activities == [] then 0.0
    else ActivitiesLength(activities[..|activities| - 1]) + ActivityLength(activities[|activities| - 1].1)
  }

  /** `feature.properties?.statistics?.runs?.byActivity`: None when any level is absent. */
  function ByActivity(feature: Feature): Option<seq<(string, ActivityStatistics)>>
  {
    match feature.properties.statistics
    case None => None
    case Some(statistics) =>
      match statistics.runs
      case None => None
      case Some(runs) => runs.byActivity
  }

  /** The total run length of a feature, 0 when its statistics are absent. */
  function TotalRunLength(feature: Feature): real
  {
    match ByActivity(feature)
    case None => 0.0
    case Some(activities) => ActivitiesLength(activities)
  }

  // ---------------------------------------------------------------------
  // An independent reference: the sum over the flattened list of buckets
  // ---------------------------------------------------------------------

  /** The statistics of every difficulty bucket, in order. */
  function Values(buckets: seq<(string, RunStatistics)>): (values: seq<RunStatistics>)
    ensures |values| == |buckets|
    ensures forall i :: 0 <= i < |buckets| ==> values[i] == buckets[i].1
  {
    if buckets == [] then [] else [buckets[0].1] + Values(buckets[1..])
  }

  /** Every difficulty bucket of every activity, activity by activity. */
  function AllBuckets(activities: seq<(string, ActivityStatistics)>): seq<RunStatistics>
  {
    if activities == [] then []
    else
      var own := match activities[0].1.byDifficulty
                 case None => []
                 case Some(buckets) => Values(buckets);
      own + AllBuckets(activities[1..])
  }

  /** Sum of the bucket lengths of a list, from the front. */
  function SumOfLengths(buckets: seq<RunStatistics>): real
  {
    if buckets == [] then 0.0 else BucketLength(buckets[0]) + SumOfLengths(buckets[1..])
  }

  // ---------------------------------------------------------------------
  // Lemmas
  // ---------------------------------------------------------------------

  /** The bucket sum distributes over concatenation. */
  lemma {:induction false} BucketsLengthAppend(a: seq<(string, RunStatistics)>, b: seq<(string, RunStatistics)>)
    ensures BucketsLength(a + b) == BucketsLength(a) + BucketsLength(b)
  {
    if b == [] {
      assert a + b == a;
    } else {
      var ab := a + b;
      assert ab[..|ab| - 1] == a + b[..|b| - 1];
      assert ab[|ab| - 1] == b[|b| - 1];
      BucketsLengthAppend(a, b[..|b| - 1]);
    }
  }

  /** The activity sum distributes over concatenation. */
  lemma {:induction false} ActivitiesLengthAppend(a: seq<(string, ActivityStatistics)>, b: seq<(string, ActivityStatistics)>)
    ensures ActivitiesLength(a + b) == ActivitiesLength(a) + ActivitiesLength(b)
  {
    if b == [] {
      assert a + b == a;
    } else {
      var ab := a + b;
      assert ab[..|ab| - 1] == a + b[..|b| - 1];
      assert ab[|ab| - 1] == b[|b| - 1];
      ActivitiesLengthAppend(a, b[..|b| - 1]);
    }
  }

  /** A difficulty bucket without `lengthInKm`, wherever it sits, adds 0. */
  lemma MissingLengthAddsNothing(before: seq<(string, RunStatistics)>, difficulty: string,
                                 bucket: RunStatistics, after: seq<(string, RunStatistics)>)
    requires bucket.lengthInKm.None?
    ensures BucketsLength(before + [(difficulty, bucket)] + after) == BucketsLength(before + after)
  {
    BucketsLengthAppend(before + [(difficulty, bucket)], after);
    BucketsLengthAppend(before, [(difficulty, bucket)]);
    BucketsLengthAppend(before, after);
    assert [(difficulty, bucket)][..0] == [];
  }

  /**
   * An activity without `byDifficulty`, wherever it sits, adds 0 and the
   * activities after it are still summed.
   */
  lemma MissingByDifficultyAddsNothing(before: seq<(string, ActivityStatistics)>, name: string,
                                       activity: ActivityStatistics, after: seq<(string, ActivityStatistics)>)
    requires activity.byDifficulty.None?
    ensures ActivitiesLength(before + [(name, activity)] + after) == ActivitiesLength(before + after)
  {
    ActivitiesLengthAppend(before + [(name, activity)], after);
    ActivitiesLengthAppend(before, [(name, activity)]);
    ActivitiesLengthAppend(before, after);
    assert [(name, activity)][..0] == [];
  }

  /** The reference sum distributes over concatenation. */
  lemma {:induction false} SumOfLengthsAppend(a: seq<RunStatistics>, b: seq<RunStatistics>)
    ensures SumOfLengths(a + b) == SumOfLengths(a) + SumOfLengths(b)
  {
    if a != [] {
      assert (a + b)[1..] == a[1..] + b;
      SumOfLengthsAppend(a[1..], b);
    } else {
      assert a + b == b;
    }
  }

  /** Summing a `byDifficulty` object in order is summing its values. */
  lemma {:induction false} BucketsLengthIsSumOfValues(buckets: seq<(string, RunStatistics)>)
    ensures BucketsLength(buckets) == SumOfLengths(Values(buckets))
  {
    if buckets != [] {
      var n := |buckets|;
      BucketsLengthIsSumOfValues(buckets[..n - 1]);
      assert Values(buckets) == Values(buckets[..n - 1]) + [buckets[n - 1].1];
      SumOfLengthsAppend(Values(buckets[..n - 1]), [buckets[n - 1].1]);
    }
  }

  /**
   * The total over `byActivity` is the sum of `lengthInKm` over every
   * bucket of every activity.
   */
  lemma {:induction false} ActivitiesLengthIsSumOverAllBuckets(activities: seq<(string, ActivityStatistics)>)
    ensures ActivitiesLength(activities) == SumOfLengths(AllBuckets(activities))
  {
    if activities != [] {
      ActivitiesLengthIsSumOverAllBuckets(activities[1..]);
      ActivitiesLengthAppend([activities[0]], activities[1..]);
      assert [activities[0]] + activities[1..] == activities;
      assert [activities[0]][..0] == [];
      var own := match activities[0].1.byDifficulty
                 case None => []
                 case Some(buckets) => Values(buckets);
      SumOfLengthsAppend(own, AllBuckets(activities[1..]));
      match activities[0].1.byDifficulty {
        case None =>
        case Some(buckets) => BucketsLengthIsSumOfValues(buckets);
      }
    }
  }

  /** With no negative `lengthInKm` anywhere the reference sum is not negative. */
  lemma {:induction false} SumOfLengthsNonNegative(buckets: seq<RunStatistics>)
    requires forall i :: 0 <= i < |buckets| ==> BucketLength(buckets[i]) >= 0.0
    ensures SumOfLengths(buckets) >= 0.0
  {
    if buckets != [] {
      SumOfLengthsNonNegative(buckets[1..]);
    }
  }

  /** With no negative `lengthInKm` anywhere the total is not negative. */
  lemma TotalRunLengthNonNegative(feature: Feature)
    requires ByActivity(feature).Some? ==>
      var all := AllBuckets(ByActivity(feature).value);
      forall i :: 0 <= i < |all| ==> BucketLength(all[i]) >= 0.0
    ensures TotalRunLength(feature) >= 0.0
  {
    if ByActivity(feature).Some? {
      ActivitiesLengthIsSumOverAllBuckets(ByActivity(feature).value);
      SumOfLengthsNonNegative(AllBuckets(ByActivity(feature).value));
    }
  }

  /** Absent `statistics`, `runs` or `byActivity` gives a total of 0. */
  lemma AbsentStatisticsMeanZero(feature: Feature)
    requires || feature.properties.statistics.None?
             || feature.properties.statistics.value.runs.None?
             || feature.properties.statistics.value.runs.value.byActivity.None?
    ensures TotalRunLength(feature) == 0.0
  {
  }

  // ---------------------------------------------------------------------
  // Operations
  // ---------------------------------------------------------------------

  /**
   * Walks `byActivity.*.byDifficulty.*` and accumulates `lengthInKm`,
   * skipping activities without `byDifficulty`.
   */
  method CalculateTotalRunLength(feature: Feature) returns (total: real)
    ensures total == TotalRunLength(feature)
    ensures ByActivity(feature).Some? ==> total == SumOfLengths(AllBuckets(ByActivity(feature).value))
  {
    var byActivity := ByActivity(feature);
    if byActivity.None? {
      return 0.0;
    }
    var activities := byActivity.value;
    total := 0.0;
    for i := 0 to |activities|
      invariant total == ActivitiesLength(activities[..i])
    {
      assert activities[..i + 1][..i] == activities[..i];
      var activity := activities[i].1;
      if activity.byDifficulty.None? {
        continue;
      }
      var buckets := activity.byDifficulty.value;
      for j := 0 to |buckets|
        invariant total == ActivitiesLength(activities[..i]) + BucketsLength(buckets[..j])
      {
        assert buckets[..j + 1][..j] == buckets[..j];
        total := total + BucketLength(buckets[j].1);
      }
      assert buckets[..|buckets|] == buckets;
    }
    assert activities[..|activities|] == activities;
    ActivitiesLengthIsSumOverAllBuckets(activities);
  }

  /**
   * 0 for a non-positive length, otherwise `log10(lengthInKm + 1) * 2.5`
   * clamped to [0, 5].
   */
  function NormalizeToRank(log10: real -> real, lengthInKm: real): (rank: real)
    ensures 0.0 <= rank <= 5.0
    ensures lengthInKm <= 0.0 ==> rank == 0.0
    ensures lengthInKm > 0.0 && log10(lengthInKm + 1.0) * 2.5 >= 5.0 ==> rank == 5.0
    ensures lengthInKm > 0.0 && 0.0 <= log10(lengthInKm + 1.0) * 2.5 <= 5.0 ==>
              rank == log10(lengthInKm + 1.0) * 2.5
    ensures lengthInKm > 0.0 && log10(lengthInKm + 1.0) * 2.5 <= 0.0 ==> rank == 0.0
  {
    if lengthInKm <= 0.0 then 0.0
    else
      var score := log10(lengthInKm + 1.0) * 2.5;
      var atLeastZero := if 0.0 >= score then 0.0 else score;
      if 5.0 <= atLeastZero then 5.0 else atLeastZero
  }

  /** Distance between two reals. */
  function Distance(x: real, y: real): real
  {
    if x <= y then y - x else x - y
  }

  /**
   * For a positive length the rank is the point of [0, 5] nearest to the
   * logarithmic score: no other value in range is closer.
   */
  lemma RankIsNearestInRange(log10: real -> real, lengthInKm: real, other: real)
    requires lengthInKm > 0.0
    requires 0.0 <= other <= 5.0
    ensures Distance(NormalizeToRank(log10, lengthInKm), log10(lengthInKm + 1.0) * 2.5)
            <= Distance(other, log10(lengthInKm + 1.0) * 2.5)
  {
  }

  /** When `log10` is monotonic, a longer run network never ranks lower. */
  lemma NormalizeToRankMonotonic(log10: real -> real, shorter: real, longer: real)
    requires forall x, y :: x <= y ==> log10(x) <= log10(y)
    requires shorter <= longer
    ensures NormalizeToRank(log10, shorter) <= NormalizeToRank(log10, longer)
  {
    if shorter > 0.0 {
      assert log10(shorter + 1.0) <= log10(longer + 1.0);
    }
  }

  /** Composes the two: the rank is the normalised total run length. */
  method CalculateRank(log10: real -> real, feature: Feature) returns (rank: real)
    ensures rank == NormalizeToRank(log10, TotalRunLength(feature))
    ensures 0.0 <= rank <= 5.0
    ensures feature.properties.statistics.None? ==> rank == 0.0
  {
    var totalLength := CalculateTotalRunLength(feature);
    rank := NormalizeToRank(log10, totalLength);
  }

  // ---------------------------------------------------------------------
  // Worked cases
  // ---------------------------------------------------------------------

  /** A bucket that only has a length. */
  function Bucket(km: real): RunStatistics
  {
    RunStatistics(Some(km), None, None, None, None)
  }

  /** A ski area whose statistics are the given `byActivity` object. */
  function WithActivities(activities: seq<(string, ActivityStatistics)>): Feature
  {
    Feature(Properties("a", SkiArea, None, None, Some(Statistics(Some(RunsStatistics(Some(activities)))))),
            Geometry("Point", [0.0, 0.0]))
  }

  /** Two activities of one bucket each: 10.5 km and 5.0 km give 15.5 km. */
  lemma TwoActivitiesAddUp()
    ensures TotalRunLength(WithActivities([
              ("downhill", ActivityStatistics(Some([("easy", Bucket(10.5))]))),
              ("nordic", ActivityStatistics(Some([("easy", Bucket(5.0))])))])) == 15.5
  {
    var downhill := ("downhill", ActivityStatistics(Some([("easy", Bucket(10.5))])));
    var nordic := ("nordic", ActivityStatistics(Some([("easy", Bucket(5.0))])));
    assert [("easy", Bucket(10.5))][..0] == [];
    assert [("easy", Bucket(5.0))][..0] == [];
    assert ActivityLength(downhill.1) == 10.5;
    assert ActivityLength(nordic.1) == 5.0;
    ActivitiesLengthAppend([downhill], [nordic]);
    assert [downhill][..0] == [];
    assert [nordic][..0] == [];
    assert [downhill] + [nordic] == [downhill, nordic];
  }

  /** A bucket that only has a `count` adds nothing to its neighbour's 10 km. */
  lemma MissingLengthInKmIsSkipped()
    ensures TotalRunLength(WithActivities([
              ("downhill", ActivityStatistics(Some([
                 ("easy", RunStatistics(None, Some(5), None, None, None)),
                 ("intermediate", Bucket(10.0))])))])) == 10.0
  {
    var easy := ("easy", RunStatistics(None, Some(5), None, None, None));
    var intermediate := ("intermediate", Bucket(10.0));
    MissingLengthAddsNothing([], easy.0, easy.1, [intermediate]);
    assert [] + [easy] + [intermediate] == [easy, intermediate];
    assert [intermediate][..0] == [];
    var downhill := ("downhill", ActivityStatistics(Some([easy, intermediate])));
    assert [downhill][..0] == [];
  }

  /** Any `log10` with log10(1001) >= 2 caps 1000 km at exactly 5. */
  lemma ThousandKilometresCapped(log10: real -> real)
    requires log10(1001.0) >= 2.0
    ensures NormalizeToRank(log10, 1000.0) == 5.0
  {
  }
}
