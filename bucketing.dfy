/** Time bucketing (`BucketingCalculator`): the dates the netting walks
    through. */
module Bucketing {
  import opened Dates
  import opened Demands
  import opened Supplies

  datatype BucketingStrategy = Daily | Weekly | Monthly

  /** Days between consecutive buckets; a month is taken as 30 days. */
  function StepDays(strategy: BucketingStrategy): (n: nat)
    ensures n > 0
  {
    match strategy
    case Daily => 1
    case Weekly => 7
    case Monthly => 30
  }

  /** The required dates of the demands, in order. */
  function RequiredDates(demands: seq<Demand>): (r: seq<Date>)
    ensures |r| == |demands| && forall i :: 0 <= i < |r| ==> r[i] == demands[i].requiredDate
  {
    seq(|demands|, i requires 0 <= i < |demands| => demands[i].requiredDate)
  }

  /** The available dates of the supplies, in order. */
  function AvailableDates(supplies: seq<Supply>): (r: seq<Date>)
    ensures |r| == |supplies| && forall i :: 0 <= i < |r| ==> r[i] == supplies[i].availableDate
  {
    seq(|supplies|, i requires 0 <= i < |supplies| => supplies[i].availableDate)
  }

  /** `merge_buckets`: sorts and removes repeated dates; the result holds
      the same dates, each once, in ascending order. */
  function MergeBuckets(buckets: seq<Date>): (merged: seq<Date>)
    ensures StrictlyAscending(merged)
    ensures forall x :: x in merged <==> x in buckets
  {
    Normalize(buckets)
  }

  /** Merging already merged buckets changes nothing. */
  lemma MergeBucketsIdempotent(buckets: seq<Date>)
    ensures MergeBuckets(MergeBuckets(buckets)) == MergeBuckets(buckets)
  {
    AscendingUnique(MergeBuckets(MergeBuckets(buckets)), MergeBuckets(buckets));
  }

  /** `create_time_buckets`: every date some demand is required or some
      supply is available, each once, ascending; the planning horizon is
      not used. */
  method CreateTimeBuckets(demands: seq<Demand>, supplies: seq<Supply>, planningHorizonDays: nat) returns (dates: seq<Date>)
    ensures StrictlyAscending(dates)
    ensures forall x :: x in dates <==> x in RequiredDates(demands) || x in AvailableDates(supplies)
    ensures dates == MergeBuckets(RequiredDates(demands) + AvailableDates(supplies))
  {
    var collected: seq<Date> := [];
    for i := 0 to |demands|
      invariant forall x :: x in collected <==> x in RequiredDates(demands)[..i]
    {
      if demands[i].requiredDate !in collected {
        collected := collected + [demands[i].requiredDate];
      }
    }
    assert RequiredDates(demands)[..|demands|] == RequiredDates(demands);
    for j := 0 to |supplies|
      invariant forall x :: x in collected <==> x in RequiredDates(demands) || x in AvailableDates(supplies)[..j]
    {
      if supplies[j].availableDate !in collected {
        collected := collected + [supplies[j].availableDate];
      }
    }
    assert AvailableDates(supplies)[..|supplies|] == AvailableDates(supplies);
    dates := Normalize(collected);
    AscendingUnique(dates, MergeBuckets(RequiredDates(demands) + AvailableDates(supplies)));
  }

  /** `create_buckets_by_strategy`: `start`, then every step after it up
      to and including `end`; empty when `start` is after `end`. */
  method CreateBucketsByStrategy(start: Date, end: Date, strategy: BucketingStrategy) returns (buckets: seq<Date>)
    ensures buckets == [] <==> start > end
    ensures forall i :: 0 <= i < |buckets| ==> buckets[i] == start + i * StepDays(strategy) && buckets[i] <= end
    ensures buckets != [] ==> buckets[|buckets| - 1] + StepDays(strategy) > end
  {
    buckets := [];
    var current := start;
    while current <= end
      invariant current == start + |buckets| * StepDays(strategy)
      invariant forall i :: 0 <= i < |buckets| ==> buckets[i] == start + i * StepDays(strategy) && buckets[i] <= end
      invariant buckets != [] ==> buckets[|buckets| - 1] + StepDays(strategy) == current
      decreases end - current
    {
      buckets := buckets + [current];
      current := current + StepDays(strategy);
    }
  }

  /** Daily buckets from 2025-10-01 to 2025-10-05 (days 0 to 4 here): five
      buckets, the first the start and the last the end. */
  lemma DailyExample(buckets: seq<Date>)
    requires buckets == [] <==> 0 > 4
    requires forall i :: 0 <= i < |buckets| ==> buckets[i] == 0 + i * StepDays(Daily) && buckets[i] <= 4
    requires buckets != [] ==> buckets[|buckets| - 1] + StepDays(Daily) > 4
    ensures |buckets| == 5 && buckets[0] == 0 && buckets[4] == 4
  {
    assert buckets[|buckets| - 1] == |buckets| - 1;
  }

  /** 10/1, 10/3, 10/1, 10/2 (days 0, 2, 0, 1) merge to 10/1, 10/2, 10/3. */
  lemma MergeExample(merged: seq<Date>)
    requires StrictlyAscending(merged)
    requires forall x :: x in merged <==> x in [0, 2, 0, 1]
    ensures merged == [0, 1, 2]
  {
    assert forall x :: x in [0, 2, 0, 1] <==> x in [0, 1, 2];
    AscendingUnique(merged, [0, 1, 2]);
  }
}
