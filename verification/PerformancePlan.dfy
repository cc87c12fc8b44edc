/** The plan of a performance run: which request identities are measured, in which order. */
module PerformancePlan {

  datatype Runtime = Express | Fastapi

  datatype Kind = Success | ExpectedFailure

  datatype Identity = Identity(epoch: int, runtime: Runtime, flowId: string, trial: int, kind: Kind)

  datatype Contract = Contract(success: Outcome, expectedFailure: Outcome)

  datatype Outcome = Succeeded | FailedAsExpected | UnexpectedOutcome | UnexpectedError | TimedOut

  datatype Policy = Policy(
    unexpectedOutcomeCountMax: nat,
    candidateP50MaxPercent: nat,       // used by schema version 2 only
    candidateP95MaxPercent: nat,
    candidateErrorIncreasePer1000: nat,
    candidateLoginSuccessDecreasePer1000: nat)

  /** The parts of the profile the evaluator reads; the fixed sizes of the source are fields here. */
  datatype Profile = Profile(
    schemaVersion: nat,
    flowIds: seq<string>,
    loginFlowIds: seq<string>,
    expectedFailureFlowIds: seq<string>,
    outcomeContract: map<string, Contract>,
    epochRuntimeOrder: seq<seq<Runtime>>,
    warmupTrials: int,
    trials: nat,
    successTrials: nat,
    spacingNs: nat,
    timeoutNs: nat,
    maxInFlight: nat,
    policy: Policy)

  datatype Block = Block(epoch: int, runtime: Runtime)

  predicate Distinct<T(==)>(xs: seq<T>) {
    forall i, j :: 0 <= i < j < |xs| ==> xs[i] != xs[j]
  }

  /** What loading the frozen profile guarantees and the evaluator relies on. */
  predicate IsFrozen(p: Profile) {
    && p.trials >= 1 && p.flowIds != [] && Distinct(p.flowIds)
    && forall e :: 0 <= e < |p.epochRuntimeOrder| ==> Distinct(p.epochRuntimeOrder[e])
  }

  function KindOf(p: Profile, flowId: string, trial: int): Kind {
    if flowId in p.expectedFailureFlowIds && trial > p.successTrials then ExpectedFailure else Success
  }

  // ---------- the plan, by prefixes of its four loops ----------

  function TrialsOf(p: Profile, epoch: int, runtime: Runtime, flowId: string, n: nat): seq<Identity> {
    if n == 0 then []
    else TrialsOf(p, epoch, runtime, flowId, n - 1) + [Identity(epoch, runtime, flowId, n, KindOf(p, flowId, n))]
  }

  function FlowsOf(p: Profile, epoch: int, runtime: Runtime, n: nat): seq<Identity>
    requires n <= |p.flowIds|
  {
    if n == 0 then []
    else FlowsOf(p, epoch, runtime, n - 1) + TrialsOf(p, epoch, runtime, p.flowIds[n - 1], p.trials)
  }

  function RuntimesOf(p: Profile, epoch: int, order: seq<Runtime>, n: nat): seq<Identity>
    requires n <= |order|
  {
    if n == 0 then []
    else RuntimesOf(p, epoch, order, n - 1) + FlowsOf(p, epoch, order[n - 1], |p.flowIds|)
  }

  function EpochsOf(p: Profile, n: nat): seq<Identity>
    requires n <= |p.epochRuntimeOrder|
  {
    if n == 0 then []
    else EpochsOf(p, n - 1) + RuntimesOf(p, n, p.epochRuntimeOrder[n - 1], |p.epochRuntimeOrder[n - 1]|)
  }

  function Plan(p: Profile): seq<Identity> {
    EpochsOf(p, |p.epochRuntimeOrder|)
  }

  /** The blocks of the first `n` epochs, in order. */
  function BlocksOf(p: Profile, n: nat): seq<Block>
    requires n <= |p.epochRuntimeOrder|
  {
    if n == 0 then []
    else
      var order := p.epochRuntimeOrder[n - 1];
      BlocksOf(p, n - 1) + seq(|order|, i requires 0 <= i < |order| => Block(n, order[i]))
  }

  function BlockOrder(p: Profile): seq<Block> {
    BlocksOf(p, |p.epochRuntimeOrder|)
  }

  method GeneratePlan(p: Profile) returns (samples: seq<Identity>)
    ensures samples == Plan(p)
  {
    samples := [];
    for epoch := 0 to |p.epochRuntimeOrder|
      invariant samples == EpochsOf(p, epoch)
    {
      var order := p.epochRuntimeOrder[epoch];
      for r := 0 to |order|
        invariant samples == EpochsOf(p, epoch) + RuntimesOf(p, epoch + 1, order, r)
      {
        for f := 0 to |p.flowIds|
          invariant samples == EpochsOf(p, epoch) + RuntimesOf(p, epoch + 1, order, r)
                               + FlowsOf(p, epoch + 1, order[r], f)
        {
          ghost var before := samples;
          for trial := 0 to p.trials
            invariant samples == before + TrialsOf(p, epoch + 1, order[r], p.flowIds[f], trial)
          {
            var number := trial + 1;
            var kind := if p.flowIds[f] in p.expectedFailureFlowIds && number > p.successTrials
                        then ExpectedFailure else Success;
            samples := samples + [Identity(epoch + 1, order[r], p.flowIds[f], number, kind)];
          }
        }
      }
    }
  }

  // ---------- how many requests are planned ----------

  lemma {:induction false} TrialCount(p: Profile, epoch: int, runtime: Runtime, flowId: string, n: nat)
    ensures |TrialsOf(p, epoch, runtime, flowId, n)| == n
    decreases n
  {
    if n > 0 {
      TrialCount(p, epoch, runtime, flowId, n - 1);
    }
  }

  lemma {:induction false} FlowCount(p: Profile, epoch: int, runtime: Runtime, n: nat)
    requires n <= |p.flowIds|
    ensures |FlowsOf(p, epoch, runtime, n)| == n * p.trials
    decreases n
  {
    if n > 0 {
      FlowCount(p, epoch, runtime, n - 1);
      TrialCount(p, epoch, runtime, p.flowIds[n - 1], p.trials);
      OneMore(n - 1, p.trials);
    }
  }

  lemma {:induction false} RuntimeCount(p: Profile, epoch: int, order: seq<Runtime>, n: nat)
    requires n <= |order|
    ensures |RuntimesOf(p, epoch, order, n)| == n * (|p.flowIds| * p.trials)
    decreases n
  {
    if n > 0 {
      RuntimeCount(p, epoch, order, n - 1);
      FlowCount(p, epoch, order[n - 1], |p.flowIds|);
      OneMore(n - 1, |p.flowIds| * p.trials);
    }
  }

  lemma {:induction false} EpochCount(p: Profile, runtimes: nat, n: nat)
    requires n <= |p.epochRuntimeOrder|
    requires forall e :: 0 <= e < |p.epochRuntimeOrder| ==> |p.epochRuntimeOrder[e]| == runtimes
    ensures |EpochsOf(p, n)| == n * (runtimes * (|p.flowIds| * p.trials))
    decreases n
  {
    if n > 0 {
      EpochCount(p, runtimes, n - 1);
      RuntimeCount(p, n, p.epochRuntimeOrder[n - 1], runtimes);
      OneMore(n - 1, runtimes * (|p.flowIds| * p.trials));
    }
  }

  lemma OneMore(n: int, each: int)
    ensures n * each + each == (n + 1) * each
  {
  }

  /** The plan has one request for each epoch, runtime, flow and trial: 10 epochs of 2 runtimes, 10 flows
      and 100 trials make the 20000 samples that are asked for. */
  lemma PlanSize(p: Profile, runtimes: nat)
    requires forall e :: 0 <= e < |p.epochRuntimeOrder| ==> |p.epochRuntimeOrder[e]| == runtimes
    ensures |Plan(p)| == |p.epochRuntimeOrder| * (runtimes * (|p.flowIds| * p.trials))
    ensures |p.epochRuntimeOrder| == 10 && runtimes == 2 && |p.flowIds| == 10 && p.trials == 100 ==>
              |Plan(p)| == 20_000
  {
    EpochCount(p, runtimes, |p.epochRuntimeOrder|);
  }

  // ---------- every identity is planned once ----------

  lemma DistinctConcat<T>(a: seq<T>, b: seq<T>)
    requires Distinct(a) && Distinct(b) && forall i, j :: 0 <= i < |a| && 0 <= j < |b| ==> a[i] != b[j]
    ensures Distinct(a + b)
  {
  }

  lemma {:induction false} TrialsAreDistinct(p: Profile, epoch: int, runtime: Runtime, flowId: string, n: nat)
    ensures Distinct(TrialsOf(p, epoch, runtime, flowId, n))
    ensures forall x :: x in TrialsOf(p, epoch, runtime, flowId, n) ==>
              x.epoch == epoch && x.runtime == runtime && x.flowId == flowId && 1 <= x.trial <= n
    decreases n
  {
    if n > 0 {
      TrialsAreDistinct(p, epoch, runtime, flowId, n - 1);
    }
  }

  lemma {:induction false} FlowsAreDistinct(p: Profile, epoch: int, runtime: Runtime, n: nat)
    requires n <= |p.flowIds| && Distinct(p.flowIds)
    ensures Distinct(FlowsOf(p, epoch, runtime, n))
    ensures forall x :: x in FlowsOf(p, epoch, runtime, n) ==>
              x.epoch == epoch && x.runtime == runtime && x.flowId in p.flowIds[..n] && 1 <= x.trial <= p.trials
    decreases n
  {
    if n > 0 {
      FlowsAreDistinct(p, epoch, runtime, n - 1);
      TrialsAreDistinct(p, epoch, runtime, p.flowIds[n - 1], p.trials);
      var a, b := FlowsOf(p, epoch, runtime, n - 1), TrialsOf(p, epoch, runtime, p.flowIds[n - 1], p.trials);
      forall i, j | 0 <= i < |a| && 0 <= j < |b| ensures a[i] != b[j] {
        assert a[i] in a && b[j] in b;
      }
      DistinctConcat(a, b);
    }
  }

  lemma {:induction false} RuntimesAreDistinct(p: Profile, epoch: int, order: seq<Runtime>, n: nat)
    requires n <= |order| && Distinct(order) && Distinct(p.flowIds)
    ensures Distinct(RuntimesOf(p, epoch, order, n))
    ensures forall x :: x in RuntimesOf(p, epoch, order, n) ==> x.epoch == epoch && x.runtime in order[..n]
    decreases n
  {
    if n > 0 {
      RuntimesAreDistinct(p, epoch, order, n - 1);
      FlowsAreDistinct(p, epoch, order[n - 1], |p.flowIds|);
      var a, b := RuntimesOf(p, epoch, order, n - 1), FlowsOf(p, epoch, order[n - 1], |p.flowIds|);
      forall i, j | 0 <= i < |a| && 0 <= j < |b| ensures a[i] != b[j] {
        assert a[i] in a && b[j] in b;
      }
      DistinctConcat(a, b);
    }
  }

  lemma {:induction false} EpochsAreDistinct(p: Profile, n: nat)
    requires n <= |p.epochRuntimeOrder| && IsFrozen(p)
    ensures Distinct(EpochsOf(p, n))
    ensures forall x :: x in EpochsOf(p, n) ==> 1 <= x.epoch <= n
    decreases n
  {
    if n > 0 {
      var order := p.epochRuntimeOrder[n - 1];
      EpochsAreDistinct(p, n - 1);
      RuntimesAreDistinct(p, n, order, |order|);
      var a, b := EpochsOf(p, n - 1), RuntimesOf(p, n, order, |order|);
      forall i, j | 0 <= i < |a| && 0 <= j < |b| ensures a[i] != b[j] {
        assert a[i] in a && b[j] in b;
      }
      DistinctConcat(a, b);
    }
  }

  /** The plan holds each identity once, so a sample list that equals it has no duplicates. */
  lemma PlanHasNoDuplicates(p: Profile)
    requires IsFrozen(p)
    ensures Distinct(Plan(p))
  {
    EpochsAreDistinct(p, |p.epochRuntimeOrder|);
  }

  // ---------- every block is planned ----------

  predicate InBlock(x: Identity, block: Block) {
    Block(x.epoch, x.runtime) == block
  }

  ghost predicate Plans(xs: seq<Identity>, block: Block) {
    exists i :: 0 <= i < |xs| && InBlock(xs[i], block)
  }

  lemma PlansConcat(a: seq<Identity>, b: seq<Identity>, block: Block)
    ensures Plans(a, block) || Plans(b, block) ==> Plans(a + b, block)
  {
    if Plans(a, block) {
      var i :| 0 <= i < |a| && InBlock(a[i], block);
      assert (a + b)[i] == a[i];
    } else if Plans(b, block) {
      var i :| 0 <= i < |b| && InBlock(b[i], block);
      assert (a + b)[|a| + i] == b[i];
    }
  }

  lemma FlowsPlanTheirBlock(p: Profile, epoch: int, runtime: Runtime)
    requires p.trials >= 1 && p.flowIds != []
    ensures Plans(FlowsOf(p, epoch, runtime, |p.flowIds|), Block(epoch, runtime))
  {
    var n := |p.flowIds|;
    var trials := TrialsOf(p, epoch, runtime, p.flowIds[n - 1], p.trials);
    assert InBlock(trials[|trials| - 1], Block(epoch, runtime));
    PlansConcat(FlowsOf(p, epoch, runtime, n - 1), trials, Block(epoch, runtime));
  }

  lemma {:induction false} RuntimesPlanTheirBlocks(p: Profile, epoch: int, order: seq<Runtime>, n: nat, k: nat)
    requires p.trials >= 1 && p.flowIds != [] && k < n <= |order|
    ensures Plans(RuntimesOf(p, epoch, order, n), Block(epoch, order[k]))
    decreases n
  {
    FlowsPlanTheirBlock(p, epoch, order[n - 1]);
    if k < n - 1 {
      RuntimesPlanTheirBlocks(p, epoch, order, n - 1, k);
    }
    PlansConcat(RuntimesOf(p, epoch, order, n - 1), FlowsOf(p, epoch, order[n - 1], |p.flowIds|),
                Block(epoch, order[k]));
  }

  /** Each block of the block order has at least one planned request. */
  lemma {:induction false} EpochsPlanTheirBlocks(p: Profile, n: nat, b: nat)
    requires IsFrozen(p) && n <= |p.epochRuntimeOrder| && b < |BlocksOf(p, n)|
    ensures Plans(EpochsOf(p, n), BlocksOf(p, n)[b])
    decreases n
  {
    var order := p.epochRuntimeOrder[n - 1];
    var earlier := BlocksOf(p, n - 1);
    if b < |earlier| {
      EpochsPlanTheirBlocks(p, n - 1, b);
    } else {
      RuntimesPlanTheirBlocks(p, n, order, |order|, b - |earlier|);
    }
    PlansConcat(EpochsOf(p, n - 1), RuntimesOf(p, n, order, |order|), BlocksOf(p, n)[b]);
  }
}
