/** Latency percentiles, error counts and the comparison of the candidate with the baseline. */
module PerformanceMetrics {
  import opened Wrappers
  import opened PerformancePlan
  import opened PerformanceSamples

  // ---------- order statistics ----------

  function Insert(x: int, sorted: seq<int>): seq<int> {
    if sorted == [] || x <= sorted[0] then [x] + sorted else [sorted[0]] + Insert(x, sorted[1..])
  }

  function Sort(values: seq<int>): seq<int> {
    if values == [] then [] else Insert(values[0], Sort(values[1..]))
  }

  /** How many of the values are at most `x`. */
  function CountLe(values: seq<int>, x: int): nat {
    if values == [] then 0 else (if values[0] <= x then 1 else 0) + CountLe(values[1..], x)
  }

  predicate IsSorted(values: seq<int>) {
    forall i, j :: 0 <= i < j < |values| ==> values[i] <= values[j]
  }

  /** The nearest rank, counted from one. */
  function Rank(n: nat, percent: nat): int {
    (percent * n + 99) / 100
  }

  lemma RankIsInRange(n: nat, percent: nat)
    requires n > 0 && 1 <= percent <= 100
    ensures 1 <= Rank(n, percent) <= n
  {
    assert n <= percent * n <= 100 * n;
  }

  lemma {:induction false} InsertKeepsElements(x: int, sorted: seq<int>)
    ensures multiset(Insert(x, sorted)) == multiset(sorted) + multiset{x}
    ensures |Insert(x, sorted)| == |sorted| + 1
    decreases |sorted|
  {
    if sorted != [] && x > sorted[0] {
      InsertKeepsElements(x, sorted[1..]);
      assert sorted == [sorted[0]] + sorted[1..];
    }
  }

  lemma {:induction false} InsertCounts(x: int, sorted: seq<int>, y: int)
    ensures CountLe(Insert(x, sorted), y) == CountLe(sorted, y) + (if x <= y then 1 else 0)
    decreases |sorted|
  {
    if sorted == [] || x <= sorted[0] {
      assert ([x] + sorted)[1..] == sorted;
    } else {
      InsertCounts(x, sorted[1..], y);
      assert ([sorted[0]] + Insert(x, sorted[1..]))[1..] == Insert(x, sorted[1..]);
    }
  }

  lemma {:induction false} InsertKeepsOrder(x: int, sorted: seq<int>)
    requires IsSorted(sorted)
    ensures IsSorted(Insert(x, sorted))
    decreases |sorted|
  {
    if sorted != [] && x > sorted[0] {
      var rest := Insert(x, sorted[1..]);
      InsertKeepsOrder(x, sorted[1..]);
      InsertKeepsElements(x, sorted[1..]);
      forall i | 0 <= i < |rest| ensures sorted[0] <= rest[i] {
        assert rest[i] in multiset(rest);
        assert rest[i] == x || rest[i] in sorted[1..];
      }
    }
  }

  lemma {:induction false} SortIsOrderedPermutation(values: seq<int>)
    ensures IsSorted(Sort(values)) && multiset(Sort(values)) == multiset(values) && |Sort(values)| == |values|
    decreases |values|
  {
    if values != [] {
      SortIsOrderedPermutation(values[1..]);
      InsertKeepsOrder(values[0], Sort(values[1..]));
      InsertKeepsElements(values[0], Sort(values[1..]));
      assert values == [values[0]] + values[1..];
    }
  }

  lemma {:induction false} SortKeepsCounts(values: seq<int>, y: int)
    ensures CountLe(Sort(values), y) == CountLe(values, y)
    decreases |values|
  {
    if values != [] {
      SortKeepsCounts(values[1..], y);
      InsertCounts(values[0], Sort(values[1..]), y);
    }
  }

  lemma {:induction false} RankCountsSmaller(sorted: seq<int>, k: nat, x: int)
    requires IsSorted(sorted) && 1 <= k <= |sorted|
    ensures sorted[k - 1] <= x <==> CountLe(sorted, x) >= k
    decreases |sorted|
  {
    var rest := sorted[1..];
    if sorted[0] > x {
      NoneSmaller(rest, x);
    } else if k > 1 {
      RankCountsSmaller(rest, k - 1, x);
    }
  }

  lemma {:induction false} NoneSmaller(values: seq<int>, x: int)
    requires forall i :: 0 <= i < |values| ==> values[i] > x
    ensures CountLe(values, x) == 0
    decreases |values|
  {
    if values != [] {
      NoneSmaller(values[1..], x);
    }
  }

  /** Nearest-rank percentile; an empty sample has none. */
  function Percentile(values: seq<int>, percent: nat): Option<int>
    requires 1 <= percent <= 100
  {
    if values == [] then None
    else
      SortIsOrderedPermutation(values);
      RankIsInRange(|values|, percent);
      Some(Sort(values)[Rank(|values|, percent) - 1])
  }

  /** At least `percent` percent of the values are at most `x`. */
  predicate Reaches(values: seq<int>, percent: nat, x: int) {
    100 * CountLe(values, x) >= percent * |values|
  }

  /** The percentile is at most `x` exactly when `x` reaches the percentage. */
  lemma PercentileIsThreshold(values: seq<int>, percent: nat, x: int)
    requires values != [] && 1 <= percent <= 100
    ensures Percentile(values, percent).value <= x <==> Reaches(values, percent, x)
  {
    SortIsOrderedPermutation(values);
    RankIsInRange(|values|, percent);
    SortKeepsCounts(values, x);
    RankCountsSmaller(Sort(values), Rank(|values|, percent), x);
  }

  /** The percentile is the least sample value that at least `percent` percent of the samples do not exceed. */
  lemma PercentileIsLeastSample(values: seq<int>, percent: nat)
    requires values != [] && 1 <= percent <= 100
    ensures var v := Percentile(values, percent).value;
            && v in values && Reaches(values, percent, v)
            && forall w :: w in values && Reaches(values, percent, w) ==> v <= w
  {
    var v := Percentile(values, percent).value;
    SortIsOrderedPermutation(values);
    RankIsInRange(|values|, percent);
    assert v in multiset(Sort(values));
    PercentileIsThreshold(values, percent, v);
    forall w | w in values && Reaches(values, percent, w) ensures v <= w {
      PercentileIsThreshold(values, percent, w);
    }
  }

  ghost predicate Pointwise(a: seq<int>, b: seq<int>) {
    |a| == |b| && forall i :: 0 <= i < |a| ==> a[i] <= b[i]
  }

  lemma {:induction false} LargerValuesCountLess(a: seq<int>, b: seq<int>, x: int)
    requires Pointwise(a, b)
    ensures CountLe(b, x) <= CountLe(a, x)
    decreases |a|
  {
    if a != [] {
      LargerValuesCountLess(a[1..], b[1..], x);
    }
  }

  /** Raising samples never lowers the percentile. */
  lemma PercentileIsMonotone(a: seq<int>, b: seq<int>, percent: nat)
    requires a != [] && Pointwise(a, b) && 1 <= percent <= 100
    ensures Percentile(a, percent).value <= Percentile(b, percent).value
  {
    var v := Percentile(b, percent).value;
    PercentileIsThreshold(b, percent, v);
    LargerValuesCountLess(a, b, v);
    PercentileIsThreshold(a, percent, v);
  }

  // ---------- metrics ----------

  datatype Group = Flow(flowId: string) | Aggregate

  datatype Metric = Metric(samples: nat, p50Ns: int, p95Ns: int, errors: nat)

  datatype Failure =
    | AbsoluteError(runtime: Runtime, group: Group)
    | P50Threshold(group: Group)
    | P95Threshold(group: Group)
    | ErrorThreshold(group: Group)
    | LoginSuccessThreshold

  function Groups(p: Profile): seq<Group> {
    seq(|p.flowIds|, i requires 0 <= i < |p.flowIds| => Flow(p.flowIds[i])) + [Aggregate]
  }

  predicate InGroup(s: Sample, group: Group) {
    group.Aggregate? || s.identity.flowId == group.flowId
  }

  /** The rows of one group and runtime, in sample order. */
  function Selected(samples: seq<Sample>, group: Group, runtime: Runtime): seq<Sample> {
    if samples == [] then []
    else
      (if InGroup(samples[0], group) && samples[0].identity.runtime == runtime then [samples[0]] else [])
      + Selected(samples[1..], group, runtime)
  }

  function Latencies(rows: seq<Sample>): seq<int> {
    seq(|rows|, i requires 0 <= i < |rows| => LatencyOf(rows[i]))
  }

  /** The outcome the contract prescribes for a row. */
  function ContractOutcome(s: Sample, p: Profile): Outcome
    requires s.identity.flowId in p.outcomeContract
  {
    var contract := p.outcomeContract[s.identity.flowId];
    if s.identity.kind == Success then contract.success else contract.expectedFailure
  }

  predicate AreCovered(samples: seq<Sample>, p: Profile) {
    forall i :: 0 <= i < |samples| ==> samples[i].identity.flowId in p.outcomeContract
  }

  function Errors(rows: seq<Sample>, p: Profile): nat
    requires AreCovered(rows, p)
  {
    if rows == [] then 0
    else (if rows[0].outcome != ContractOutcome(rows[0], p) then 1 else 0) + Errors(rows[1..], p)
  }

  lemma {:induction false} SelectedAreCovered(samples: seq<Sample>, group: Group, runtime: Runtime, p: Profile)
    requires AreCovered(samples, p)
    ensures AreCovered(Selected(samples, group, runtime), p)
    decreases |samples|
  {
    if samples != [] {
      SelectedAreCovered(samples[1..], group, runtime, p);
    }
  }

  function MetricOf(samples: seq<Sample>, p: Profile, group: Group, runtime: Runtime): Option<Metric>
    requires AreCovered(samples, p)
  {
    var rows := Selected(samples, group, runtime);
    SelectedAreCovered(samples, group, runtime, p);
    if rows == [] then None
    else
      var latencies := Latencies(rows);
      Some(Metric(|rows|, Percentile(latencies, 50).value, Percentile(latencies, 95).value, Errors(rows, p)))
  }

  /** The candidate exceeds the allowed percentage of the baseline. */
  predicate Exceeds(candidate: int, baseline: int, maxPercent: nat) {
    candidate * 100 > baseline * maxPercent
  }

  /** The candidate's error rate exceeds the baseline's by more than the allowed share per thousand. */
  predicate ErrorRateRises(b: Metric, c: Metric, per1000: nat) {
    (c.errors * b.samples - b.errors * c.samples) * 1000 > per1000 * c.samples * b.samples
  }

  function When(condition: bool, failure: Failure): seq<Failure> {
    if condition then [failure] else []
  }

  function GroupFailures(b: Metric, c: Metric, p: Profile, group: Group): seq<Failure> {
    When(b.errors > p.policy.unexpectedOutcomeCountMax, AbsoluteError(Express, group))
    + When(c.errors > p.policy.unexpectedOutcomeCountMax, AbsoluteError(Fastapi, group))
    + When(p.schemaVersion == 2 && Exceeds(c.p50Ns, b.p50Ns, p.policy.candidateP50MaxPercent), P50Threshold(group))
    + When(Exceeds(c.p95Ns, b.p95Ns, p.policy.candidateP95MaxPercent), P95Threshold(group))
    + When(ErrorRateRises(b, c, p.policy.candidateErrorIncreasePer1000), ErrorThreshold(group))
  }

  /** The reasons of all listed groups in order, or none at all when some group has no rows. */
  function FailuresFrom(samples: seq<Sample>, p: Profile, groups: seq<Group>): Option<seq<Failure>>
    requires AreCovered(samples, p)
  {
    if groups == [] then Some([])
    else
      var first, rest := ReasonsOf(samples, p, groups[0]), FailuresFrom(samples, p, groups[1..]);
      if first.None? then None else Before(first.value, rest)
  }

  function LoginRows(samples: seq<Sample>, p: Profile, runtime: Runtime): seq<Sample> {
    if samples == [] then []
    else
      (if samples[0].identity.flowId in p.loginFlowIds && samples[0].identity.kind == Success
          && samples[0].identity.runtime == runtime then [samples[0]] else [])
      + LoginRows(samples[1..], p, runtime)
  }

  function Successes(rows: seq<Sample>): nat {
    if rows == [] then 0 else (if rows[0].outcome == Succeeded then 1 else 0) + Successes(rows[1..])
  }

  predicate LoginSuccessFalls(samples: seq<Sample>, p: Profile) {
    var b, c := LoginRows(samples, p, Express), LoginRows(samples, p, Fastapi);
    (Successes(b) * |c| - Successes(c) * |b|) * 1000 > p.policy.candidateLoginSuccessDecreasePer1000 * |b| * |c|
  }

  /** All reasons for failure, in order; None when some group of some runtime has no samples. */
  function Failures(samples: seq<Sample>, p: Profile): Option<seq<Failure>>
    requires AreCovered(samples, p)
  {
    var ofGroups := FailuresFrom(samples, p, Groups(p));
    if ofGroups.None? then None
    else Some(ofGroups.value + When(LoginSuccessFalls(samples, p), LoginSuccessThreshold))
  }

  /** The latency comparisons of one group. */
  predicate RatiosHold(b: Metric, c: Metric, p: Profile) {
    && (p.schemaVersion == 2 ==> !Exceeds(c.p50Ns, b.p50Ns, p.policy.candidateP50MaxPercent))
    && !Exceeds(c.p95Ns, b.p95Ns, p.policy.candidateP95MaxPercent)
  }

  /** The error counts and the rise of the error rate of one group. */
  predicate ErrorsAreAllowed(b: Metric, c: Metric, p: Profile) {
    && b.errors <= p.policy.unexpectedOutcomeCountMax && c.errors <= p.policy.unexpectedOutcomeCountMax
    && !ErrorRateRises(b, c, p.policy.candidateErrorIncreasePer1000)
  }

  /** The candidate's latency exceeds the baseline's by more than the allowed ratio; any latency exceeds none. */
  ghost predicate RatioExceeds(candidate: int, baseline: nat, maxPercent: nat) {
    if baseline == 0 then candidate > 0 else candidate as real / baseline as real > maxPercent as real / 100.0
  }

  lemma GroupPassesExactly(b: Metric, c: Metric, p: Profile, group: Group)
    ensures GroupFailures(b, c, p, group) == [] <==> ErrorsAreAllowed(b, c, p) && RatiosHold(b, c, p)
  {
  }

  lemma RatioIsCrossMultiplied(candidate: int, baseline: nat, maxPercent: nat)
    ensures Exceeds(candidate, baseline, maxPercent) <==> RatioExceeds(candidate, baseline, maxPercent)
  {
    if baseline > 0 {
      var base, percent := baseline as real, maxPercent as real;
      var ratio := candidate as real / base;
      var difference := ratio - percent / 100.0;
      assert ratio * base == candidate as real;
      assert difference * base * 100.0 == candidate as real * 100.0 - percent * base;
      assert (candidate * 100 - baseline * maxPercent) as real == difference * base * 100.0;
    }
  }

  /** A group's list holds exactly the reasons whose bounds are exceeded, stated as ratios and rates. */
  lemma GroupReasonsAreExceededBounds(b: Metric, c: Metric, p: Profile, group: Group)
    requires b.samples > 0 && c.samples > 0 && b.p50Ns >= 0 && b.p95Ns >= 0
    ensures forall reason :: reason in GroupFailures(b, c, p, group) <==> match reason
              case AbsoluteError(runtime, g) =>
                g == group && (if runtime == Express then b.errors else c.errors) > p.policy.unexpectedOutcomeCountMax
              case P50Threshold(g) =>
                g == group && p.schemaVersion == 2 && RatioExceeds(c.p50Ns, b.p50Ns, p.policy.candidateP50MaxPercent)
              case P95Threshold(g) => g == group && RatioExceeds(c.p95Ns, b.p95Ns, p.policy.candidateP95MaxPercent)
              case ErrorThreshold(g) =>
                && g == group
                && c.errors as real / c.samples as real - b.errors as real / b.samples as real
                   > p.policy.candidateErrorIncreasePer1000 as real / 1000.0
              case LoginSuccessThreshold => false
  {
    RatioIsCrossMultiplied(c.p50Ns, b.p50Ns, p.policy.candidateP50MaxPercent);
    RatioIsCrossMultiplied(c.p95Ns, b.p95Ns, p.policy.candidateP95MaxPercent);
    ErrorThresholdIsRateDifference(b, c, p.policy.candidateErrorIncreasePer1000);
  }

  method AppendIf(reasons: seq<Failure>, condition: bool, failure: Failure) returns (longer: seq<Failure>)
    ensures longer == reasons + When(condition, failure)
  {
    longer := reasons;
    if condition {
      longer := longer + [failure];
    }
  }

  method GroupReasons(b: Metric, c: Metric, p: Profile, group: Group) returns (reasons: seq<Failure>)
    ensures reasons == GroupFailures(b, c, p, group)
    ensures reasons == [] <==> ErrorsAreAllowed(b, c, p) && RatiosHold(b, c, p)
  {
    GroupPassesExactly(b, c, p, group);
    reasons := AppendIf([], b.errors > p.policy.unexpectedOutcomeCountMax, AbsoluteError(Express, group));
    assert reasons == When(b.errors > p.policy.unexpectedOutcomeCountMax, AbsoluteError(Express, group));
    reasons := AppendIf(reasons, c.errors > p.policy.unexpectedOutcomeCountMax, AbsoluteError(Fastapi, group));
    reasons := AppendIf(reasons, p.schemaVersion == 2 && Exceeds(c.p50Ns, b.p50Ns, p.policy.candidateP50MaxPercent),
                        P50Threshold(group));
    reasons := AppendIf(reasons, Exceeds(c.p95Ns, b.p95Ns, p.policy.candidateP95MaxPercent), P95Threshold(group));
    reasons := AppendIf(reasons, ErrorRateRises(b, c, p.policy.candidateErrorIncreasePer1000), ErrorThreshold(group));
  }

  /** The reasons of one group; None when a runtime has no rows in it. */
  function ReasonsOf(samples: seq<Sample>, p: Profile, group: Group): Option<seq<Failure>>
    requires AreCovered(samples, p)
  {
    var b, c := MetricOf(samples, p, group, Express), MetricOf(samples, p, group, Fastapi);
    if b.None? || c.None? then None else Some(GroupFailures(b.value, c.value, p, group))
  }

  method ComputeGroup(samples: seq<Sample>, p: Profile, group: Group) returns (reasons: Option<seq<Failure>>)
    requires AreCovered(samples, p)
    ensures reasons == ReasonsOf(samples, p, group)
  {
    var b := MetricOf(samples, p, group, Express);
    var c := MetricOf(samples, p, group, Fastapi);
    if b.None? || c.None? {
      return None;
    }
    var found := GroupReasons(b.value, c.value, p, group);
    return Some(found);
  }

  lemma FailuresFromHead(samples: seq<Sample>, p: Profile, groups: seq<Group>, g: nat)
    requires AreCovered(samples, p) && g < |groups|
    ensures FailuresFrom(samples, p, groups[g..])
            == var first := ReasonsOf(samples, p, groups[g]);
               if first.None? then None else Before(first.value, FailuresFrom(samples, p, groups[g + 1..]))
  {
    assert groups[g..][1..] == groups[g + 1..];
  }

  method ComputeGroupReasons(samples: seq<Sample>, p: Profile, groups: seq<Group>)
    returns (reasons: Option<seq<Failure>>)
    requires AreCovered(samples, p)
    ensures reasons == FailuresFrom(samples, p, groups)
  {
    var found: seq<Failure> := [];
    ghost var all := FailuresFrom(samples, p, groups);
    assert groups[0..] == groups;
    BeforeNothing(all);
    for g := 0 to |groups|
      invariant all == Before(found, FailuresFrom(samples, p, groups[g..]))
    {
      FailuresFromHead(samples, p, groups, g);
      var more := ComputeGroup(samples, p, groups[g]);
      if more.None? {
        return None;
      }
      BeforeTwice(found, more.value, FailuresFrom(samples, p, groups[g + 1..]));
      found := found + more.value;
    }
    NothingFollows(samples, p, groups, found);
    return Some(found);
  }

  method ComputeReasons(samples: seq<Sample>, p: Profile) returns (reasons: Option<seq<Failure>>)
    requires AreCovered(samples, p)
    ensures reasons == Failures(samples, p)
  {
    reasons := ComputeGroupReasons(samples, p, Groups(p));
    if reasons.Some? {
      var all := AppendIf(reasons.value, LoginSuccessFalls(samples, p), LoginSuccessThreshold);
      reasons := Some(all);
    }
  }

  function Before(first: seq<Failure>, rest: Option<seq<Failure>>): Option<seq<Failure>> {
    if rest.None? then None else Some(first + rest.value)
  }

  lemma BeforeNothing(rest: Option<seq<Failure>>)
    ensures Before([], rest) == rest
  {
    if rest.Some? {
      assert [] + rest.value == rest.value;
    }
  }

  lemma NothingFollows(samples: seq<Sample>, p: Profile, groups: seq<Group>, found: seq<Failure>)
    requires AreCovered(samples, p)
    ensures Before(found, FailuresFrom(samples, p, groups[|groups|..])) == Some(found)
  {
    assert found + [] == found;
  }

  lemma BeforeTwice(a: seq<Failure>, b: seq<Failure>, rest: Option<seq<Failure>>)
    ensures Before(a + b, rest) == Before(a, Before(b, rest))
  {
    if rest.Some? {
      assert (a + b) + rest.value == a + (b + rest.value);
    }
  }

  // ---------- a slower candidate ----------

  /** The same rows with the same outcomes; only candidate requests may have taken longer. */
  ghost predicate IsSlower(a: seq<Sample>, b: seq<Sample>) {
    |a| == |b| && forall i :: 0 <= i < |a| ==> RowIsSlower(a[i], b[i])
  }

  predicate RowIsSlower(a: Sample, b: Sample) {
    && a.identity == b.identity && a.outcome == b.outcome
    && LatencyOf(a) <= LatencyOf(b)
    && (a.identity.runtime == Express ==> LatencyOf(a) == LatencyOf(b))
  }

  lemma {:induction false} SelectedRowsAreSlower(a: seq<Sample>, b: seq<Sample>, group: Group, runtime: Runtime)
    requires IsSlower(a, b)
    ensures IsSlower(Selected(a, group, runtime), Selected(b, group, runtime))
    ensures forall i :: 0 <= i < |Selected(a, group, runtime)| ==>
              Selected(a, group, runtime)[i].identity.runtime == runtime
    decreases |a|
  {
    if a != [] {
      SelectedRowsAreSlower(a[1..], b[1..], group, runtime);
      assert RowIsSlower(a[0], b[0]);
    }
  }

  lemma {:induction false} SlowerRowsHaveSameErrors(a: seq<Sample>, b: seq<Sample>, p: Profile)
    requires IsSlower(a, b) && AreCovered(a, p) && AreCovered(b, p)
    ensures Errors(a, p) == Errors(b, p)
    decreases |a|
  {
    if a != [] {
      assert RowIsSlower(a[0], b[0]);
      SlowerRowsHaveSameErrors(a[1..], b[1..], p);
    }
  }

  lemma {:induction false} SlowerRowsHaveSameSuccesses(a: seq<Sample>, b: seq<Sample>)
    requires IsSlower(a, b)
    ensures Successes(a) == Successes(b)
    decreases |a|
  {
    if a != [] {
      assert RowIsSlower(a[0], b[0]);
      SlowerRowsHaveSameSuccesses(a[1..], b[1..]);
    }
  }

  lemma {:induction false} LoginRowsAreSlower(a: seq<Sample>, b: seq<Sample>, p: Profile, runtime: Runtime)
    requires IsSlower(a, b)
    ensures IsSlower(LoginRows(a, p, runtime), LoginRows(b, p, runtime))
    decreases |a|
  {
    if a != [] {
      LoginRowsAreSlower(a[1..], b[1..], p, runtime);
      assert RowIsSlower(a[0], b[0]);
    }
  }

  lemma SlowerRowsHaveSameLogins(a: seq<Sample>, b: seq<Sample>, p: Profile, runtime: Runtime)
    requires IsSlower(a, b)
    ensures |LoginRows(a, p, runtime)| == |LoginRows(b, p, runtime)|
    ensures Successes(LoginRows(a, p, runtime)) == Successes(LoginRows(b, p, runtime))
  {
    LoginRowsAreSlower(a, b, p, runtime);
    SlowerRowsHaveSameSuccesses(LoginRows(a, p, runtime), LoginRows(b, p, runtime));
  }

  lemma SlowerMetric(a: seq<Sample>, b: seq<Sample>, p: Profile, group: Group, runtime: Runtime)
    requires IsSlower(a, b) && AreCovered(a, p) && AreCovered(b, p)
    ensures var m, n := MetricOf(a, p, group, runtime), MetricOf(b, p, group, runtime);
            && (m.Some? <==> n.Some?)
            && (m.Some? ==>
                  && m.value.samples == n.value.samples && m.value.errors == n.value.errors
                  && m.value.p50Ns <= n.value.p50Ns && m.value.p95Ns <= n.value.p95Ns
                  && (runtime == Express ==> m == n))
  {
    var x, y := Selected(a, group, runtime), Selected(b, group, runtime);
    SelectedRowsAreSlower(a, b, group, runtime);
    SelectedAreCovered(a, group, runtime, p);
    SelectedAreCovered(b, group, runtime, p);
    SlowerRowsHaveSameErrors(x, y, p);
    if x != [] {
      assert forall i :: 0 <= i < |x| ==> RowIsSlower(x[i], y[i]);
      PercentileIsMonotone(Latencies(x), Latencies(y), 50);
      PercentileIsMonotone(Latencies(x), Latencies(y), 95);
      if runtime == Express {
        assert Latencies(x) == Latencies(y);
      }
    }
  }

  lemma SlowerGroupKeepsFailures(b: Metric, c: Metric, c': Metric, p: Profile, group: Group, reason: Failure)
    requires c.samples == c'.samples && c.errors == c'.errors && c.p50Ns <= c'.p50Ns && c.p95Ns <= c'.p95Ns
    requires reason in GroupFailures(b, c, p, group)
    ensures reason in GroupFailures(b, c', p, group)
  {
  }

  lemma {:induction false} SlowerGroupsKeepFailures(a: seq<Sample>, b: seq<Sample>, p: Profile, groups: seq<Group>)
    requires IsSlower(a, b) && AreCovered(a, p) && AreCovered(b, p)
    ensures FailuresFrom(a, p, groups).Some? <==> FailuresFrom(b, p, groups).Some?
    ensures FailuresFrom(a, p, groups).Some? ==>
              forall reason :: reason in FailuresFrom(a, p, groups).value ==> reason in FailuresFrom(b, p, groups).value
    decreases |groups|
  {
    if groups != [] {
      SlowerGroupsKeepFailures(a, b, p, groups[1..]);
      SlowerMetric(a, b, p, groups[0], Express);
      SlowerMetric(a, b, p, groups[0], Fastapi);
      if FailuresFrom(a, p, groups).Some? {
        var baseline := MetricOf(a, p, groups[0], Express).value;
        var fast, slow := MetricOf(a, p, groups[0], Fastapi).value, MetricOf(b, p, groups[0], Fastapi).value;
        forall reason | reason in GroupFailures(baseline, fast, p, groups[0])
          ensures reason in GroupFailures(baseline, slow, p, groups[0])
        {
          SlowerGroupKeepsFailures(baseline, fast, slow, p, groups[0], reason);
        }
      }
    }
  }

  /** Slowing candidate requests, with outcomes unchanged, never removes a reason for failure. */
  lemma SlowingNeverRemovesFailures(a: seq<Sample>, b: seq<Sample>, p: Profile)
    requires IsSlower(a, b) && AreCovered(a, p) && AreCovered(b, p) && Failures(a, p).Some?
    ensures Failures(b, p).Some?
    ensures forall reason :: reason in Failures(a, p).value ==> reason in Failures(b, p).value
  {
    SlowerGroupsKeepFailures(a, b, p, Groups(p));
    SlowerRowsHaveSameLogins(a, b, p, Express);
    SlowerRowsHaveSameLogins(a, b, p, Fastapi);
  }

  // ---------- when the run passes ----------

  predicate MeetsContract(samples: seq<Sample>, p: Profile)
    requires AreCovered(samples, p)
  {
    forall i :: 0 <= i < |samples| ==> samples[i].outcome == ContractOutcome(samples[i], p)
  }

  ghost predicate AllRatiosHold(samples: seq<Sample>, p: Profile, groups: seq<Group>)
    requires AreCovered(samples, p)
  {
    forall g :: 0 <= g < |groups| ==>
      var b, c := MetricOf(samples, p, groups[g], Express), MetricOf(samples, p, groups[g], Fastapi);
      b.Some? && c.Some? && RatiosHold(b.value, c.value, p)
  }

  lemma {:induction false} NoErrorsMeansContract(rows: seq<Sample>, p: Profile)
    requires AreCovered(rows, p)
    ensures Errors(rows, p) == 0 <==> MeetsContract(rows, p)
    decreases |rows|
  {
    if rows != [] {
      NoErrorsMeansContract(rows[1..], p);
      assert forall i :: 0 <= i < |rows| - 1 ==> rows[1..][i] == rows[i + 1];
      if MeetsContract(rows[1..], p) && rows[0].outcome == ContractOutcome(rows[0], p) {
        forall i | 0 <= i < |rows| ensures rows[i].outcome == ContractOutcome(rows[i], p) {
          assert i > 0 ==> rows[i] == rows[1..][i - 1];
        }
      }
    }
  }

  lemma {:induction false} SelectionMeetsContract(samples: seq<Sample>, p: Profile, group: Group, runtime: Runtime)
    requires AreCovered(samples, p) && MeetsContract(samples, p)
    ensures AreCovered(Selected(samples, group, runtime), p) && MeetsContract(Selected(samples, group, runtime), p)
    decreases |samples|
  {
    if samples != [] {
      SelectionMeetsContract(samples[1..], p, group, runtime);
    }
  }

  /** Whatever the aggregate of its runtime selects contains a row. */
  lemma {:induction false} AggregateSelectsEverything(samples: seq<Sample>, i: nat)
    requires i < |samples|
    ensures samples[i] in Selected(samples, Aggregate, samples[i].identity.runtime)
    decreases |samples|
  {
    if i > 0 {
      AggregateSelectsEverything(samples[1..], i - 1);
    }
  }

  lemma {:induction false} NoFailuresMeansNoneAnywhere(samples: seq<Sample>, p: Profile, groups: seq<Group>)
    requires AreCovered(samples, p)
    ensures FailuresFrom(samples, p, groups) == Some([]) <==>
            forall g :: 0 <= g < |groups| ==> HasNoFailure(samples, p, groups[g])
    decreases |groups|
  {
    if groups != [] {
      NoFailuresMeansNoneAnywhere(samples, p, groups[1..]);
      if forall g :: 0 <= g < |groups| ==> HasNoFailure(samples, p, groups[g]) {
        forall g | 0 <= g < |groups| - 1 ensures HasNoFailure(samples, p, groups[1..][g]) {
          assert HasNoFailure(samples, p, groups[g + 1]);
        }
      }
      if FailuresFrom(samples, p, groups) == Some([]) {
        forall g | 0 <= g < |groups| ensures HasNoFailure(samples, p, groups[g]) {
          assert g > 0 ==> groups[g] == groups[1..][g - 1];
        }
      }
    }
  }

  predicate HasNoFailure(samples: seq<Sample>, p: Profile, group: Group)
    requires AreCovered(samples, p)
  {
    var b, c := MetricOf(samples, p, group, Express), MetricOf(samples, p, group, Fastapi);
    b.Some? && c.Some? && GroupFailures(b.value, c.value, p, group) == []
  }

  /** Without errors on either side the relative error threshold cannot be crossed. */
  lemma CleanGroupFailsOnlyByRatio(b: Metric, c: Metric, p: Profile, group: Group)
    requires p.policy.unexpectedOutcomeCountMax == 0
    ensures GroupFailures(b, c, p, group) == [] <==> b.errors == 0 && c.errors == 0 && RatiosHold(b, c, p)
  {
    if b.errors == 0 && c.errors == 0 {
      assert 0 <= p.policy.candidateErrorIncreasePer1000 * c.samples * b.samples;
      assert c.errors * b.samples - b.errors * c.samples == 0;
    }
  }

  predicate IsCleanGroup(samples: seq<Sample>, p: Profile, group: Group)
    requires AreCovered(samples, p)
  {
    var b, c := MetricOf(samples, p, group, Express), MetricOf(samples, p, group, Fastapi);
    b.Some? && c.Some? && b.value.errors == 0 && c.value.errors == 0 && RatiosHold(b.value, c.value, p)
  }

  lemma NoFailureMeansClean(samples: seq<Sample>, p: Profile, group: Group)
    requires AreCovered(samples, p) && p.policy.unexpectedOutcomeCountMax == 0
    ensures HasNoFailure(samples, p, group) <==> IsCleanGroup(samples, p, group)
  {
    var b, c := MetricOf(samples, p, group, Express), MetricOf(samples, p, group, Fastapi);
    if b.Some? && c.Some? {
      CleanGroupFailsOnlyByRatio(b.value, c.value, p, group);
    }
  }

  /** The outcome contract wants every login flow's success requests to succeed. */
  predicate LoginsShouldSucceed(p: Profile) {
    forall f :: f in p.loginFlowIds && f in p.outcomeContract ==> p.outcomeContract[f].success == Succeeded
  }

  lemma {:induction false} ContractLoginsSucceed(samples: seq<Sample>, p: Profile, runtime: Runtime)
    requires AreCovered(samples, p) && MeetsContract(samples, p)
    requires LoginsShouldSucceed(p)
    ensures Successes(LoginRows(samples, p, runtime)) == |LoginRows(samples, p, runtime)|
    decreases |samples|
  {
    if samples != [] {
      ContractLoginsSucceed(samples[1..], p, runtime);
      var rest := LoginRows(samples[1..], p, runtime);
      if LoginRows(samples, p, runtime) == [samples[0]] + rest {
        assert samples[0].outcome == ContractOutcome(samples[0], p);
        assert ([samples[0]] + rest)[1..] == rest;
      } else {
        assert LoginRows(samples, p, runtime) == [] + rest == rest;
      }
    }
  }

  lemma AllLoginsSucceedingIsNoFall(samples: seq<Sample>, p: Profile)
    requires forall r :: Successes(LoginRows(samples, p, r)) == |LoginRows(samples, p, r)|
    ensures !LoginSuccessFalls(samples, p)
  {
    var b, c := |LoginRows(samples, p, Express)|, |LoginRows(samples, p, Fastapi)|;
    assert b * c - c * b == 0;
    assert 0 <= p.policy.candidateLoginSuccessDecreasePer1000 * b * c;
  }

  lemma ContractGroupsHaveNoErrors(samples: seq<Sample>, p: Profile, group: Group, runtime: Runtime)
    requires AreCovered(samples, p) && MeetsContract(samples, p)
    requires MetricOf(samples, p, group, runtime).Some?
    ensures MetricOf(samples, p, group, runtime).value.errors == 0
  {
    SelectionMeetsContract(samples, p, group, runtime);
    NoErrorsMeansContract(Selected(samples, group, runtime), p);
  }

  lemma CleanAggregateMeansContract(samples: seq<Sample>, p: Profile)
    requires AreCovered(samples, p)
    requires IsCleanGroup(samples, p, Aggregate)
    ensures MeetsContract(samples, p)
  {
    forall i | 0 <= i < |samples| ensures samples[i].outcome == ContractOutcome(samples[i], p) {
      var runtime := samples[i].identity.runtime;
      assert runtime == Express || runtime == Fastapi;
      var rows := Selected(samples, Aggregate, runtime);
      SelectedAreCovered(samples, Aggregate, runtime, p);
      NoErrorsMeansContract(rows, p);
      AggregateSelectsEverything(samples, i);
      var k :| 0 <= k < |rows| && rows[k] == samples[i];
    }
  }

  lemma CleanGroupsGiveRatios(samples: seq<Sample>, p: Profile, groups: seq<Group>)
    requires AreCovered(samples, p)
    requires forall g :: 0 <= g < |groups| ==> IsCleanGroup(samples, p, groups[g])
    ensures AllRatiosHold(samples, p, groups)
  {
  }

  lemma PassGivesContractAndRatios(samples: seq<Sample>, p: Profile)
    requires AreCovered(samples, p) && p.policy.unexpectedOutcomeCountMax == 0
    requires Failures(samples, p) == Some([])
    ensures MeetsContract(samples, p) && AllRatiosHold(samples, p, Groups(p))
  {
    var groups := Groups(p);
    NoFailuresMeansNoneAnywhere(samples, p, groups);
    forall g | 0 <= g < |groups| ensures IsCleanGroup(samples, p, groups[g]) {
      assert HasNoFailure(samples, p, groups[g]);
      NoFailureMeansClean(samples, p, groups[g]);
    }
    CleanGroupsGiveRatios(samples, p, groups);
    assert groups[|groups| - 1] == Aggregate;
    CleanAggregateMeansContract(samples, p);
  }

  lemma ContractAndRatiosGivePass(samples: seq<Sample>, p: Profile)
    requires AreCovered(samples, p) && p.policy.unexpectedOutcomeCountMax == 0
    requires LoginsShouldSucceed(p)
    requires MeetsContract(samples, p) && AllRatiosHold(samples, p, Groups(p))
    ensures Failures(samples, p) == Some([])
  {
    var groups := Groups(p);
    forall g | 0 <= g < |groups| ensures HasNoFailure(samples, p, groups[g]) {
      ContractGroupsHaveNoErrors(samples, p, groups[g], Express);
      ContractGroupsHaveNoErrors(samples, p, groups[g], Fastapi);
      NoFailureMeansClean(samples, p, groups[g]);
    }
    NoFailuresMeansNoneAnywhere(samples, p, groups);
    forall r ensures Successes(LoginRows(samples, p, r)) == |LoginRows(samples, p, r)| {
      ContractLoginsSucceed(samples, p, r);
    }
    AllLoginsSucceedingIsNoFall(samples, p);
  }

  /** With no unexpected outcome allowed, a run passes exactly when every row has its contract outcome and
      every group's latency comparisons hold; the relative error and login thresholds add nothing. */
  lemma PassMeansContractAndRatios(samples: seq<Sample>, p: Profile)
    requires AreCovered(samples, p) && p.policy.unexpectedOutcomeCountMax == 0
    requires LoginsShouldSucceed(p)
    ensures Failures(samples, p) == Some([]) <==> MeetsContract(samples, p) && AllRatiosHold(samples, p, Groups(p))
  {
    if Failures(samples, p) == Some([]) {
      PassGivesContractAndRatios(samples, p);
    } else if MeetsContract(samples, p) && AllRatiosHold(samples, p, Groups(p)) {
      ContractAndRatiosGivePass(samples, p);
    }
  }

  // ---------- the thresholds as rates ----------

  /** The integer comparison of error counts is the comparison of error rates. */
  lemma ErrorThresholdIsRateDifference(b: Metric, c: Metric, per1000: nat)
    requires b.samples > 0 && c.samples > 0
    ensures ErrorRateRises(b, c, per1000) <==>
            c.errors as real / c.samples as real - b.errors as real / b.samples as real > per1000 as real / 1000.0
  {
    CrossMultiplied(c.errors, c.samples, b.errors, b.samples, per1000);
  }

  /** The integer comparison of login successes is the comparison of success rates. */
  lemma LoginThresholdIsRateDifference(samples: seq<Sample>, p: Profile)
    requires LoginRows(samples, p, Express) != [] && LoginRows(samples, p, Fastapi) != []
    ensures var b, c := LoginRows(samples, p, Express), LoginRows(samples, p, Fastapi);
            LoginSuccessFalls(samples, p) <==>
            Successes(b) as real / |b| as real - Successes(c) as real / |c| as real
              > p.policy.candidateLoginSuccessDecreasePer1000 as real / 1000.0
  {
    var b, c := LoginRows(samples, p, Express), LoginRows(samples, p, Fastapi);
    CrossMultiplied(Successes(b), |b|, Successes(c), |c|, p.policy.candidateLoginSuccessDecreasePer1000);
  }

  lemma CrossMultiplied(x: nat, m: nat, y: nat, n: nat, k: nat)
    requires m > 0 && n > 0
    ensures (x * n - y * m) * 1000 > k * m * n <==>
            x as real / m as real - y as real / n as real > k as real / 1000.0
  {
    var p, q := x as real / m as real, y as real / n as real;
    var w := m as real * n as real;
    assert w > 0.0;
    assert p * w == x as real * n as real;
    assert q * w == y as real * m as real;
    var difference := p - q - k as real / 1000.0;
    assert difference * w * 1000.0 == (x as real * n as real - y as real * m as real) * 1000.0 - k as real * w;
    assert ((x * n - y * m) * 1000 - k * m * n) as real == difference * w * 1000.0;
  }
}
