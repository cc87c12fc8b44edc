/** Validation of the measured samples: identities, timing, block structure and the in-flight limit. */
module PerformanceSamples {
  import opened Wrappers
  import opened PerformancePlan
  import opened PerformanceSweep

  datatype Sample = Sample(
    identity: Identity, scheduledNs: int, completedNs: int, outcome: Outcome,
    attempt: int, retryCount: int, outlierRemoved: bool, resetId: string)

  datatype Reset = Reset(resetId: string, boundaryNs: int)

  datatype ResetRecord = ResetRecord(
    runtime: Runtime, resetId: string, stateSha256: string, boundaryNs: int, passed: bool)

  datatype EpochRecord = EpochRecord(
    epoch: int, runtimeOrder: seq<Runtime>, warmupCompleted: int, warmupIncluded: bool, resets: seq<ResetRecord>)

  datatype Reason =
    | InvalidEpochCount | EpochOrderOrWarmupMismatch | InvalidResetCount | ResetOrderMismatch
    | ResetNotProven | UnsafeResetId | InvalidResetStateHash | InvalidResetBoundary | DuplicateResetId
    | InvalidSampleCount | UnknownFlow | SampleIndexOutOfRange | SampleTimeOutOfRange | RetryPresent
    | OutlierRemovalPresent | SampleResetMismatch | NegativeLatency | EarlyTimeout | TimeoutNotRecorded
    | IdentityOrderOrCountMismatch | DuplicateSample
    | OpenLoopRateMismatch | ResetBoundaryMismatch | GlobalBlockOverlap | MaxInFlightExceeded

  type Resets = map<Block, Reset>

  // ---------- epochs ----------

  /** No other block has the identifier of block `a`. */
  ghost predicate HasOwnId(resets: Resets, a: Block)
    requires a in resets
  {
    forall b :: b in resets && resets[b].resetId == resets[a].resetId ==> b == a
  }

  /** The resets recorded so far, keyed by block; identifiers are never shared between blocks. */
  ghost predicate AreProven(resets: Resets, blocks: set<Block>) {
    && resets.Keys == blocks
    && forall b {:trigger HasOwnId(resets, b)} :: b in resets ==>
         resets[b].boundaryNs >= 0 && IsSafeId(resets[b].resetId) && HasOwnId(resets, b)
  }

  predicate IsLowerAlphanumeric(c: char) {
    'a' <= c <= 'z' || '0' <= c <= '9'
  }

  /** One to 128 lower-case letters, digits, dots, underscores and hyphens, the first a letter or digit. */
  predicate IsSafeId(s: string) {
    && 1 <= |s| <= 128 && IsLowerAlphanumeric(s[0])
    && forall k :: 0 <= k < |s| ==> IsLowerAlphanumeric(s[k]) || s[k] in "._-"
  }

  predicate IsHex64(s: string) {
    |s| == 64 && forall k :: 0 <= k < |s| ==> 'a' <= s[k] <= 'f' || '0' <= s[k] <= '9'
  }

  function EnterReset(resets: Resets, epoch: int, reset: ResetRecord): Result<Resets, Reason> {
    if !reset.passed then Err(ResetNotProven)
    else if !IsSafeId(reset.resetId) then Err(UnsafeResetId)
    else if !IsHex64(reset.stateSha256) then Err(InvalidResetStateHash)
    else if reset.boundaryNs < 0 then Err(InvalidResetBoundary)
    else if exists b :: b in resets && resets[b].resetId == reset.resetId then Err(DuplicateResetId)
    else Ok(resets[Block(epoch, reset.runtime) := Reset(reset.resetId, reset.boundaryNs)])
  }

  function EnterResets(resets: Resets, epoch: int, records: seq<ResetRecord>): Result<Resets, Reason>
    decreases |records|
  {
    if records == [] then Ok(resets)
    else
      var entered := EnterReset(resets, epoch, records[0]);
      if entered.Err? then entered else EnterResets(entered.value, epoch, records[1..])
  }

  predicate RuntimesMatch(resets: seq<ResetRecord>, order: seq<Runtime>)
    requires |resets| == |order|
  {
    forall k :: 0 <= k < |order| ==> resets[k].runtime == order[k]
  }

  /** The checks on one epoch record that precede the look at its resets. */
  function EpochError(record: EpochRecord, number: int, order: seq<Runtime>, p: Profile): Option<Reason> {
    if record.epoch != number || record.runtimeOrder != order || record.warmupCompleted != p.warmupTrials
       || record.warmupIncluded
    then Some(EpochOrderOrWarmupMismatch)
    else if |record.resets| != |order| then Some(InvalidResetCount)
    else if !RuntimesMatch(record.resets, order) then Some(ResetOrderMismatch)
    else None
  }

  /** The resets after the epochs from number `n` on, or the first check that fails. */
  function EpochsFrom(resets: Resets, n: nat, epochs: seq<EpochRecord>, p: Profile): Result<Resets, Reason>
    requires n <= |epochs| == |p.epochRuntimeOrder|
    decreases |epochs| - n
  {
    if n == |epochs| then Ok(resets)
    else
      var error := EpochError(epochs[n], n + 1, p.epochRuntimeOrder[n], p);
      if error.Some? then Err(error.value)
      else
        var entered := EnterResets(resets, n + 1, epochs[n].resets);
        if entered.Err? then entered else EpochsFrom(entered.value, n + 1, epochs, p)
  }

  method EnterEpochResets(earlier: Resets, epoch: int, records: seq<ResetRecord>) returns (r: Result<Resets, Reason>)
    ensures r == EnterResets(earlier, epoch, records)
  {
    var resets := earlier;
    for k := 0 to |records|
      invariant EnterResets(earlier, epoch, records) == EnterResets(resets, epoch, records[k..])
    {
      assert records[k..][1..] == records[k + 1..];
      var reset := records[k];
      if !reset.passed {
        return Err(ResetNotProven);
      }
      if !IsSafeId(reset.resetId) {
        return Err(UnsafeResetId);
      }
      if !IsHex64(reset.stateSha256) {
        return Err(InvalidResetStateHash);
      }
      if reset.boundaryNs < 0 {
        return Err(InvalidResetBoundary);
      }
      if exists b :: b in resets && resets[b].resetId == reset.resetId {
        return Err(DuplicateResetId);
      }
      resets := resets[Block(epoch, reset.runtime) := Reset(reset.resetId, reset.boundaryNs)];
    }
    return Ok(resets);
  }

  method ValidateEpochs(epochs: seq<EpochRecord>, p: Profile) returns (r: Result<Resets, Reason>)
    ensures r == if |epochs| != |p.epochRuntimeOrder| then Err(InvalidEpochCount) else EpochsFrom(map[], 0, epochs, p)
  {
    if |epochs| != |p.epochRuntimeOrder| {
      return Err(InvalidEpochCount);
    }
    var resets: Resets := map[];
    for n := 0 to |epochs|
      invariant EpochsFrom(map[], 0, epochs, p) == EpochsFrom(resets, n, epochs, p)
    {
      var record, order := epochs[n], p.epochRuntimeOrder[n];
      if record.epoch != n + 1 || record.runtimeOrder != order || record.warmupCompleted != p.warmupTrials
         || record.warmupIncluded
      {
        return Err(EpochOrderOrWarmupMismatch);
      }
      if |record.resets| != |order| {
        return Err(InvalidResetCount);
      }
      if exists k :: 0 <= k < |order| && record.resets[k].runtime != order[k] {
        return Err(ResetOrderMismatch);
      }
      var entered := EnterEpochResets(resets, n + 1, record.resets);
      if entered.Err? {
        return entered;
      }
      resets := entered.value;
    }
    return Ok(resets);
  }

  function BlockSet(p: Profile, n: nat): set<Block>
    requires n <= |p.epochRuntimeOrder|
  {
    set b | b in BlocksOf(p, n)
  }

  function RecordBlocks(epoch: int, records: seq<ResetRecord>): set<Block> {
    set reset | reset in records :: Block(epoch, reset.runtime)
  }

  predicate RuntimesDiffer(records: seq<ResetRecord>) {
    forall i, j :: 0 <= i < j < |records| ==> records[i].runtime != records[j].runtime
  }

  lemma ProvenWithOneMore(resets: Resets, blocks: set<Block>, block: Block, reset: Reset)
    requires AreProven(resets, blocks) && block !in blocks && reset.boundaryNs >= 0
    requires IsSafeId(reset.resetId)
    requires forall b :: b in resets ==> resets[b].resetId != reset.resetId
    ensures AreProven(resets[block := reset], blocks + {block})
  {
    var more := resets[block := reset];
    forall b | b in more ensures more[b].boundaryNs >= 0 && IsSafeId(more[b].resetId) && HasOwnId(more, b) {
      assert b != block ==> HasOwnId(resets, b) && more[b] == resets[b];
    }
  }

  lemma {:induction false} EnteredResetsAreProven(resets: Resets, epoch: int, records: seq<ResetRecord>,
                                                  blocks: set<Block>)
    requires AreProven(resets, blocks) && EnterResets(resets, epoch, records).Ok?
    requires blocks !! RecordBlocks(epoch, records) && RuntimesDiffer(records)
    ensures AreProven(EnterResets(resets, epoch, records).value, blocks + RecordBlocks(epoch, records))
    decreases |records|
  {
    if records == [] {
      assert blocks + RecordBlocks(epoch, records) == blocks;
    } else {
      var first, rest := records[0], records[1..];
      var block := Block(epoch, first.runtime);
      assert records == [first] + rest;
      assert RecordBlocks(epoch, records) == {block} + RecordBlocks(epoch, rest);
      ProvenWithOneMore(resets, blocks, block, Reset(first.resetId, first.boundaryNs));
      EnteredResetsAreProven(EnterReset(resets, epoch, first).value, epoch, rest, blocks + {block});
      assert blocks + {block} + RecordBlocks(epoch, rest) == blocks + RecordBlocks(epoch, records);
    }
  }

  lemma RecordBlocksArePlanned(p: Profile, n: nat, record: EpochRecord)
    requires n < |p.epochRuntimeOrder| && EpochError(record, n + 1, p.epochRuntimeOrder[n], p).None?
    ensures BlockSet(p, n) !! RecordBlocks(n + 1, record.resets)
    ensures BlockSet(p, n + 1) == BlockSet(p, n) + RecordBlocks(n + 1, record.resets)
  {
    var order := p.epochRuntimeOrder[n];
    var added := seq(|order|, i requires 0 <= i < |order| => Block(n + 1, order[i]));
    BlocksStayEarlier(p, n);
    assert BlocksOf(p, n + 1) == BlocksOf(p, n) + added;
    forall b ensures b in added <==> b in RecordBlocks(n + 1, record.resets) {
      if b in RecordBlocks(n + 1, record.resets) {
        var reset :| reset in record.resets && b == Block(n + 1, reset.runtime);
        var i :| 0 <= i < |order| && record.resets[i] == reset;
        assert added[i] == b;
      }
      if b in added {
        var i :| 0 <= i < |added| && added[i] == b;
        assert record.resets[i] in record.resets;
      }
    }
  }

  lemma EpochKeepsProven(resets: Resets, n: nat, record: EpochRecord, p: Profile)
    requires IsFrozen(p) && n < |p.epochRuntimeOrder| && AreProven(resets, BlockSet(p, n))
    requires EpochError(record, n + 1, p.epochRuntimeOrder[n], p).None?
    requires EnterResets(resets, n + 1, record.resets).Ok?
    ensures AreProven(EnterResets(resets, n + 1, record.resets).value, BlockSet(p, n + 1))
  {
    RecordBlocksArePlanned(p, n, record);
    EnteredResetsAreProven(resets, n + 1, record.resets, BlockSet(p, n));
  }

  lemma AcceptedEpochIsFaultless(resets: Resets, n: nat, epochs: seq<EpochRecord>, p: Profile)
    requires n < |epochs| == |p.epochRuntimeOrder| && EpochsFrom(resets, n, epochs, p).Ok?
    ensures EpochError(epochs[n], n + 1, p.epochRuntimeOrder[n], p).None?
    ensures EnterResets(resets, n + 1, epochs[n].resets).Ok?
    ensures EpochsFrom(resets, n, epochs, p)
         == EpochsFrom(EnterResets(resets, n + 1, epochs[n].resets).value, n + 1, epochs, p)
  {
  }

  /** Accepted epochs yield a proven reset for every planned block and for no other. */
  lemma {:induction false} AcceptedEpochsProveEveryBlock(resets: Resets, n: nat, epochs: seq<EpochRecord>, p: Profile)
    requires IsFrozen(p) && n <= |epochs| == |p.epochRuntimeOrder|
    requires AreProven(resets, BlockSet(p, n)) && EpochsFrom(resets, n, epochs, p).Ok?
    ensures AreProven(EpochsFrom(resets, n, epochs, p).value, BlockSet(p, |epochs|))
    decreases |epochs| - n
  {
    if n < |epochs| {
      AcceptedEpochIsFaultless(resets, n, epochs, p);
      EpochKeepsProven(resets, n, epochs[n], p);
      AcceptedEpochsProveEveryBlock(EnterResets(resets, n + 1, epochs[n].resets).value, n + 1, epochs, p);
    }
  }

  lemma {:induction false} BlocksStayEarlier(p: Profile, n: nat)
    requires n <= |p.epochRuntimeOrder|
    ensures forall b :: b in BlocksOf(p, n) ==> 1 <= b.epoch <= n
    decreases n
  {
    if n > 0 {
      BlocksStayEarlier(p, n - 1);
    }
  }

  // ---------- one sample ----------

  function LatencyOf(s: Sample): int {
    s.completedNs - s.scheduledNs
  }

  /** The first check a sample fails. */
  function SampleError(s: Sample, p: Profile, resets: Resets): Option<Reason> {
    var block := Block(s.identity.epoch, s.identity.runtime);
    if s.identity.flowId !in p.flowIds then Some(UnknownFlow)
    else if !(1 <= s.identity.epoch <= |p.epochRuntimeOrder|) || !(1 <= s.identity.trial <= p.trials)
    then Some(SampleIndexOutOfRange)
    else if s.scheduledNs < 0 || s.completedNs < 0 then Some(SampleTimeOutOfRange)
    else if s.attempt != 1 || s.retryCount != 0 then Some(RetryPresent)
    else if s.outlierRemoved then Some(OutlierRemovalPresent)
    else if block !in resets || s.resetId != resets[block].resetId then Some(SampleResetMismatch)
    else if s.completedNs < s.scheduledNs then Some(NegativeLatency)
    else if s.outcome == TimedOut && LatencyOf(s) < p.timeoutNs then Some(EarlyTimeout)
    else if s.outcome != TimedOut && LatencyOf(s) > p.timeoutNs then Some(TimeoutNotRecorded)
    else None
  }

  function FirstSampleError(samples: seq<Sample>, p: Profile, resets: Resets): (r: Option<Reason>)
    ensures r != Some(DuplicateSample)
  {
    if samples == [] then None
    else if SampleError(samples[0], p, resets).Some? then SampleError(samples[0], p, resets)
    else FirstSampleError(samples[1..], p, resets)
  }

  function Identities(samples: seq<Sample>): seq<Identity> {
    seq(|samples|, i requires 0 <= i < |samples| => samples[i].identity)
  }

  /** The measured intervals of one block, in sample order. */
  function IntervalsOf(samples: seq<Sample>, block: Block): seq<Interval>
    decreases |samples|
  {
    if samples == [] then []
    else
      var last := samples[|samples| - 1];
      IntervalsOf(samples[..|samples| - 1], block)
      + (if InBlock(last.identity, block) then [Interval(last.scheduledNs, last.completedNs)] else [])
  }

  function BlockIntervals(samples: seq<Sample>, p: Profile): seq<seq<Interval>> {
    var order := BlockOrder(p);
    seq(|order|, b requires 0 <= b < |order| => IntervalsOf(samples, order[b]))
  }

  // ---------- blocks ----------

  predicate IsSpaced(xs: seq<Interval>, spacing: int) {
    forall k :: 0 <= k < |xs| - 1 ==> xs[k + 1].scheduled - xs[k].scheduled == spacing
  }

  function MaxCompleted(xs: seq<Interval>): (m: int)
    requires xs != []
    ensures forall k :: 0 <= k < |xs| ==> xs[k].completed <= m
    decreases |xs|
  {
    if |xs| == 1 then xs[0].completed
    else
      var m := MaxCompleted(xs[..|xs| - 1]);
      if m < xs[|xs| - 1].completed then xs[|xs| - 1].completed else m
  }

  lemma {:induction false} MaxCompletedIsReached(xs: seq<Interval>) returns (k: nat)
    requires xs != []
    ensures k < |xs| && xs[k].completed == MaxCompleted(xs)
    decreases |xs|
  {
    k := |xs| - 1;
    if |xs| > 1 && MaxCompleted(xs[..|xs| - 1]) >= xs[|xs| - 1].completed {
      k := MaxCompletedIsReached(xs[..|xs| - 1]);
    }
  }

  function Max(a: int, b: int): int {
    if a < b then b else a
  }

  /** A block lasts until its last nominal slot and until its last completion. */
  function BlockEnd(xs: seq<Interval>, spacing: nat): int
    requires xs != []
  {
    Max(xs[0].scheduled + |xs| * spacing, MaxCompleted(xs))
  }

  /** Nothing of the block lies after `t`: neither its slots nor a request. */
  ghost predicate IsOverBy(xs: seq<Interval>, start: int, spacing: nat, t: int) {
    start + |xs| * spacing <= t && forall k :: 0 <= k < |xs| ==> xs[k].completed <= t
  }

  lemma BlockEndIsLatest(xs: seq<Interval>, spacing: nat, t: int)
    requires xs != []
    ensures BlockEnd(xs, spacing) <= t <==> IsOverBy(xs, xs[0].scheduled, spacing, t)
  {
    var k := MaxCompletedIsReached(xs);
    assert xs[k].completed == MaxCompleted(xs);
  }

  function BlockError(xs: seq<Interval>, boundary: int, spacing: nat, previousEnd: Option<int>): Option<Reason>
    requires xs != []
  {
    if !IsSpaced(xs, spacing) then Some(OpenLoopRateMismatch)
    else if boundary != xs[0].scheduled then Some(ResetBoundaryMismatch)
    else if previousEnd.Some? && xs[0].scheduled < previousEnd.value then Some(GlobalBlockOverlap)
    else None
  }

  predicate AllNonempty(blocks: seq<seq<Interval>>) {
    forall b :: 0 <= b < |blocks| ==> blocks[b] != []
  }

  /** The first check a block fails, in block order. */
  function FirstBlockError(
    blocks: seq<seq<Interval>>, boundaries: seq<int>, spacing: nat, previousEnd: Option<int>): (r: Option<Reason>)
    requires |blocks| == |boundaries| && AllNonempty(blocks)
    ensures r != Some(DuplicateSample)
  {
    if blocks == [] then None
    else
      var error := BlockError(blocks[0], boundaries[0], spacing, previousEnd);
      if error.Some? then error
      else FirstBlockError(blocks[1..], boundaries[1..], spacing, Some(BlockEnd(blocks[0], spacing)))
  }

  function Boundaries(p: Profile, resets: Resets): seq<int>
    requires forall b :: b in BlockOrder(p) ==> b in resets
  {
    var order := BlockOrder(p);
    seq(|order|, b requires 0 <= b < |order| => resets[order[b]].boundaryNs)
  }

  // ---------- the whole validation ----------

  /** Every block of the plan has samples and a reset, once identities and samples have been checked. */
  ghost predicate BlocksArePresent(samples: seq<Sample>, p: Profile, resets: Resets) {
    && (forall b :: b in BlockOrder(p) ==> b in resets)
    && AllNonempty(BlockIntervals(samples, p))
  }

  lemma {:induction false} NoSampleErrors(samples: seq<Sample>, p: Profile, resets: Resets)
    requires FirstSampleError(samples, p, resets).None?
    ensures forall i :: 0 <= i < |samples| ==> SampleError(samples[i], p, resets).None?
    decreases |samples|
  {
    if samples != [] {
      NoSampleErrors(samples[1..], p, resets);
      forall i | 0 <= i < |samples| ensures SampleError(samples[i], p, resets).None? {
        assert i > 0 ==> samples[i] == samples[1..][i - 1];
      }
    }
  }

  lemma {:induction false} SampleGivesInterval(samples: seq<Sample>, i: nat, block: Block)
    requires i < |samples| && InBlock(samples[i].identity, block)
    ensures IntervalsOf(samples, block) != []
    decreases |samples|
  {
    if i < |samples| - 1 {
      SampleGivesInterval(samples[..|samples| - 1], i, block);
    }
  }

  lemma CheckedSamplesFillBlocks(samples: seq<Sample>, p: Profile, resets: Resets)
    requires IsFrozen(p) && FirstSampleError(samples, p, resets).None? && Identities(samples) == Plan(p)
    ensures BlocksArePresent(samples, p, resets)
  {
    NoSampleErrors(samples, p, resets);
    var order := BlockOrder(p);
    forall b | 0 <= b < |order| ensures order[b] in resets && IntervalsOf(samples, order[b]) != [] {
      EpochsPlanTheirBlocks(p, |p.epochRuntimeOrder|, b);
      var i :| 0 <= i < |Plan(p)| && InBlock(Plan(p)[i], order[b]);
      assert samples[i].identity == Identities(samples)[i];
      SampleGivesInterval(samples, i, order[b]);
    }
  }

  /** The first reason for which the sample list is refused, in the order of the checks. */
  ghost function ValidationError(samples: seq<Sample>, p: Profile, resets: Resets): Option<Reason>
    requires IsFrozen(p)
  {
    if |samples| != |Plan(p)| then Some(InvalidSampleCount)
    else if FirstSampleError(samples, p, resets).Some? then FirstSampleError(samples, p, resets)
    else if Identities(samples) != Plan(p) then Some(IdentityOrderOrCountMismatch)
    else
      CheckedSamplesFillBlocks(samples, p, resets);
      var blocks := BlockIntervals(samples, p);
      var error := FirstBlockError(blocks, Boundaries(p, resets), p.spacingNs, None);
      if error.Some? then error
      else if !WithinLimit(Concat(blocks), p.maxInFlight) then Some(MaxInFlightExceeded)
      else None
  }

  /** `grouped` holds the intervals of every block that has some. */
  ghost predicate IsGrouping(grouped: map<Block, seq<Interval>>, samples: seq<Sample>) {
    forall b :: (if b in grouped then grouped[b] else []) == IntervalsOf(samples, b)
  }

  lemma FirstSampleErrorSplits(samples: seq<Sample>, n: nat, p: Profile, resets: Resets)
    requires n < |samples|
    ensures FirstSampleError(samples[n..], p, resets)
         == if SampleError(samples[n], p, resets).Some? then SampleError(samples[n], p, resets)
            else FirstSampleError(samples[n + 1..], p, resets)
  {
    assert samples[n..][1..] == samples[n + 1..];
  }

  function Grown(grouped: map<Block, seq<Interval>>, last: Sample): map<Block, seq<Interval>> {
    var block := Block(last.identity.epoch, last.identity.runtime);
    var earlier := if block in grouped then grouped[block] else [];
    grouped[block := earlier + [Interval(last.scheduledNs, last.completedNs)]]
  }

  lemma GroupingGrows(grouped: map<Block, seq<Interval>>, samples: seq<Sample>, n: nat)
    requires n < |samples| && IsGrouping(grouped, samples[..n])
    ensures IsGrouping(Grown(grouped, samples[n]), samples[..n + 1])
  {
    assert samples[..n + 1][..n] == samples[..n];
  }

  lemma IdentitiesGrow(samples: seq<Sample>, n: nat)
    requires n < |samples|
    ensures Identities(samples[..n + 1]) == Identities(samples[..n]) + [samples[n].identity]
  {
  }

  method CheckAndGroup(samples: seq<Sample>, p: Profile, resets: Resets)
    returns (error: Option<Reason>, identities: seq<Identity>, grouped: map<Block, seq<Interval>>)
    ensures error == FirstSampleError(samples, p, resets)
    ensures error.None? ==> identities == Identities(samples) && IsGrouping(grouped, samples)
  {
    identities, grouped := [], map[];
    assert samples[0..] == samples;
    for n := 0 to |samples|
      invariant FirstSampleError(samples, p, resets) == FirstSampleError(samples[n..], p, resets)
      invariant identities == Identities(samples[..n])
      invariant IsGrouping(grouped, samples[..n])
    {
      var sample := samples[n];
      FirstSampleErrorSplits(samples, n, p, resets);
      error := SampleError(sample, p, resets);
      if error.Some? {
        return;
      }
      GroupingGrows(grouped, samples, n);
      IdentitiesGrow(samples, n);
      identities := identities + [sample.identity];
      var block := Block(sample.identity.epoch, sample.identity.runtime);
      var earlier := if block in grouped then grouped[block] else [];
      grouped := grouped[block := earlier + [Interval(sample.scheduledNs, sample.completedNs)]];
    }
    assert samples[..|samples|] == samples;
    error := None;
  }

  method ChainBlocks(blocks: seq<seq<Interval>>, boundaries: seq<int>, spacing: nat)
    returns (error: Option<Reason>, all: seq<Interval>)
    requires |blocks| == |boundaries| && AllNonempty(blocks)
    ensures error == FirstBlockError(blocks, boundaries, spacing, None)
    ensures error.None? ==> all == Concat(blocks)
  {
    var previousEnd: Option<int> := None;
    all := [];
    for n := 0 to |blocks|
      invariant FirstBlockError(blocks, boundaries, spacing, None)
             == FirstBlockError(blocks[n..], boundaries[n..], spacing, previousEnd)
      invariant all == Concat(blocks[..n])
    {
      var xs := blocks[n];
      assert blocks[n..][1..] == blocks[n + 1..] && boundaries[n..][1..] == boundaries[n + 1..];
      if exists k :: 0 <= k < |xs| - 1 && xs[k + 1].scheduled - xs[k].scheduled != spacing {
        return Some(OpenLoopRateMismatch), all;
      }
      var windowStart := xs[0].scheduled;
      if boundaries[n] != windowStart {
        return Some(ResetBoundaryMismatch), all;
      }
      if previousEnd.Some? && windowStart < previousEnd.value {
        return Some(GlobalBlockOverlap), all;
      }
      previousEnd := Some(Max(windowStart + |xs| * spacing, MaxCompleted(xs)));
      assert blocks[..n + 1][..n] == blocks[..n];
      all := all + xs;
    }
    assert blocks[..|blocks|] == blocks;
    error := None;
  }

  method HasDuplicate(identities: seq<Identity>) returns (found: bool)
    ensures found <==> !Distinct(identities)
  {
    found := exists i, j :: 0 <= i < j < |identities| && identities[i] == identities[j];
  }

  method ValidateSamples(samples: seq<Sample>, p: Profile, resets: Resets) returns (error: Option<Reason>)
    requires IsFrozen(p)
    ensures error == ValidationError(samples, p, resets)
    ensures error != Some(DuplicateSample)
  {
    var plan := GeneratePlan(p);
    if |samples| != |plan| {
      return Some(InvalidSampleCount);
    }
    var sampleError, identities, grouped := CheckAndGroup(samples, p, resets);
    if sampleError.Some? {
      return sampleError;
    }
    if identities != plan {
      return Some(IdentityOrderOrCountMismatch);
    }
    var duplicate := HasDuplicate(identities);
    if duplicate {
      // Cannot happen: the identities are those of the plan.
      PlanHasNoDuplicates(p);
      assert false;
      return Some(DuplicateSample);
    }
    CheckedSamplesFillBlocks(samples, p, resets);
    var order := BlockOrder(p);
    var blocks := seq(|order|, b requires 0 <= b < |order| => if order[b] in grouped then grouped[order[b]] else []);
    assert blocks == BlockIntervals(samples, p);
    var blockError, all := ChainBlocks(blocks, Boundaries(p, resets), p.spacingNs);
    if blockError.Some? {
      return blockError;
    }
    AcceptedIntervalsAreOrdered(samples, p, resets);
    var within := Sweep(all, p.maxInFlight);
    return if within then None else Some(MaxInFlightExceeded);
  }

  // ---------- what acceptance means ----------

  /** The requests of a block start at its boundary and then one every `spacing`. */
  ghost predicate IsProgression(xs: seq<Interval>, start: int, spacing: nat) {
    forall k :: 0 <= k < |xs| ==> xs[k].scheduled == start + k * spacing
  }

  lemma {:induction false} SpacedIsProgression(xs: seq<Interval>, spacing: nat, k: nat)
    requires IsSpaced(xs, spacing) && k < |xs|
    ensures xs[k].scheduled == xs[0].scheduled + k * spacing
    decreases k
  {
    if k > 0 {
      SpacedIsProgression(xs, spacing, k - 1);
      assert k * spacing == (k - 1) * spacing + spacing;
    }
  }

  lemma ProgressionStartsFirst(xs: seq<Interval>, start: int, spacing: nat, k: nat)
    requires IsProgression(xs, start, spacing) && k < |xs|
    ensures start <= xs[k].scheduled
  {
  }

  lemma FirstBlockIsProgression(first: seq<Interval>, boundary: int, spacing: nat)
    requires first != [] && IsSpaced(first, spacing) && first[0].scheduled == boundary
    ensures IsProgression(first, boundary, spacing) && boundary <= BlockEnd(first, spacing)
  {
    forall k | 0 <= k < |first| ensures first[k].scheduled == boundary + k * spacing {
      SpacedIsProgression(first, spacing, k);
    }
    assert 0 <= |first| * spacing;
  }

  lemma EndedBlockPrecedes(first: seq<Interval>, later: seq<Interval>, boundary: int, spacing: nat)
    requires first != [] && BlockEnd(first, spacing) <= boundary && IsProgression(later, boundary, spacing)
    ensures Precedes(first, later)
  {
    forall k, l | 0 <= k < |first| && 0 <= l < |later| ensures first[k].completed <= later[l].scheduled {
      ProgressionStartsFirst(later, boundary, spacing, l);
    }
  }

  ghost predicate AreProgressions(blocks: seq<seq<Interval>>, boundaries: seq<int>, spacing: nat)
    requires |blocks| == |boundaries|
  {
    forall b :: 0 <= b < |blocks| ==> IsProgression(blocks[b], boundaries[b], spacing)
  }

  /** Every slot and every request of a block is over by the boundary of each later one. */
  ghost predicate AreSeparated(blocks: seq<seq<Interval>>, boundaries: seq<int>, spacing: nat)
    requires |blocks| == |boundaries|
  {
    forall b, c :: 0 <= b < c < |blocks| ==> IsOverBy(blocks[b], boundaries[b], spacing, boundaries[c])
  }

  /** Every block is a progression from its boundary and starts no earlier than the end before, and the blocks are
      separated and chained. */
  lemma {:induction false} AcceptedBlocksAreChained(
    blocks: seq<seq<Interval>>, boundaries: seq<int>, spacing: nat, previousEnd: Option<int>)
    requires |blocks| == |boundaries| && AllNonempty(blocks)
    requires FirstBlockError(blocks, boundaries, spacing, previousEnd).None?
    ensures AreProgressions(blocks, boundaries, spacing)
    ensures forall b :: 0 <= b < |blocks| && previousEnd.Some? ==> previousEnd.value <= boundaries[b]
    ensures AreSeparated(blocks, boundaries, spacing)
    ensures Chained(blocks)
    decreases |blocks|
  {
    if blocks != [] {
      var rest, first := blocks[1..], blocks[0];
      var end := BlockEnd(first, spacing);
      AcceptedBlocksAreChained(rest, boundaries[1..], spacing, Some(end));
      FirstBlockIsProgression(first, boundaries[0], spacing);
      forall b | 0 <= b < |blocks|
        ensures IsProgression(blocks[b], boundaries[b], spacing)
        ensures b > 0 ==> end <= boundaries[b]
      {
        if b > 0 {
          assert blocks[b] == rest[b - 1] && boundaries[b] == boundaries[1..][b - 1];
        }
      }
      forall i, j | 0 <= i < j < |blocks|
        ensures IsOverBy(blocks[i], boundaries[i], spacing, boundaries[j]) && Precedes(blocks[i], blocks[j])
      {
        if i > 0 {
          assert Precedes(rest[i - 1], rest[j - 1]);
          assert IsOverBy(rest[i - 1], boundaries[1..][i - 1], spacing, boundaries[1..][j - 1]);
        } else {
          EndedBlockPrecedes(first, blocks[j], boundaries[j], spacing);
          BlockEndIsLatest(first, spacing, boundaries[j]);
        }
      }
    }
  }

  lemma {:induction false} ChainedConcatIsOrdered(blocks: seq<seq<Interval>>)
    requires Chained(blocks)
    requires forall b :: 0 <= b < |blocks| ==> InScheduleOrder(blocks[b])
    requires forall b, k :: 0 <= b < |blocks| && 0 <= k < |blocks[b]| ==>
               blocks[b][k].scheduled <= blocks[b][k].completed
    ensures InScheduleOrder(Concat(blocks))
    ensures forall k :: 0 <= k < |Concat(blocks)| ==> Concat(blocks)[k].scheduled <= Concat(blocks)[k].completed
    decreases |blocks|
  {
    if blocks != [] {
      var prefix, last := blocks[..|blocks| - 1], blocks[|blocks| - 1];
      ChainedConcatIsOrdered(prefix);
      ConcatPrecedes(prefix, last);
    }
  }

  lemma {:induction false} IntervalsTakeTime(samples: seq<Sample>, block: Block)
    requires forall i :: 0 <= i < |samples| ==> samples[i].scheduledNs <= samples[i].completedNs
    ensures forall k :: 0 <= k < |IntervalsOf(samples, block)| ==>
              IntervalsOf(samples, block)[k].scheduled <= IntervalsOf(samples, block)[k].completed
    decreases |samples|
  {
    if samples != [] {
      IntervalsTakeTime(samples[..|samples| - 1], block);
    }
  }

  lemma ProgressionIsOrdered(xs: seq<Interval>, start: int, spacing: nat)
    requires IsProgression(xs, start, spacing)
    ensures InScheduleOrder(xs)
  {
    forall i, j | 0 <= i < j < |xs| ensures xs[i].scheduled <= xs[j].scheduled {
      assert i * spacing <= j * spacing;
    }
  }

  /** Up to the block checks: the intervals of all blocks together are in schedule order. */
  lemma AcceptedIntervalsAreOrdered(samples: seq<Sample>, p: Profile, resets: Resets)
    requires FirstSampleError(samples, p, resets).None? && BlocksArePresent(samples, p, resets)
    requires FirstBlockError(BlockIntervals(samples, p), Boundaries(p, resets), p.spacingNs, None).None?
    ensures InScheduleOrder(Concat(BlockIntervals(samples, p)))
  {
    var blocks, boundaries := BlockIntervals(samples, p), Boundaries(p, resets);
    NoSampleErrors(samples, p, resets);
    AcceptedBlocksAreChained(blocks, boundaries, p.spacingNs, None);
    forall b | 0 <= b < |blocks|
      ensures InScheduleOrder(blocks[b])
      ensures forall k :: 0 <= k < |blocks[b]| ==> blocks[b][k].scheduled <= blocks[b][k].completed
    {
      ProgressionIsOrdered(blocks[b], boundaries[b], p.spacingNs);
      IntervalsTakeTime(samples, BlockOrder(p)[b]);
    }
    ChainedConcatIsOrdered(blocks);
  }

  /** In an accepted list each block is an arithmetic progression from its reset boundary, every request
      of an earlier block is over when any request of a later block starts, every identity occurs once,
      and the sweep over all blocks says the same as a sweep over each block alone. */
  lemma AcceptedSamplesAreWellPaced(samples: seq<Sample>, p: Profile, resets: Resets)
    requires IsFrozen(p) && ValidationError(samples, p, resets).None?
    ensures Distinct(Identities(samples))
    ensures BlocksArePresent(samples, p, resets)
    ensures var blocks := BlockIntervals(samples, p);
            && Chained(blocks)
            && forall b :: 0 <= b < |blocks| ==>
                 && IsProgression(blocks[b], Boundaries(p, resets)[b], p.spacingNs)
                 && WithinLimit(blocks[b], p.maxInFlight)
  {
    CheckedSamplesFillBlocks(samples, p, resets);
    PlanHasNoDuplicates(p);
    var blocks := BlockIntervals(samples, p);
    AcceptedBlocksAreChained(blocks, Boundaries(p, resets), p.spacingNs, None);
    BlocksSweepAlone(blocks, p.maxInFlight);
  }

  lemma {:induction false} WellPacedBlocksAreAccepted(
    blocks: seq<seq<Interval>>, boundaries: seq<int>, spacing: nat, previousEnd: Option<int>)
    requires |blocks| == |boundaries| && AllNonempty(blocks)
    requires AreProgressions(blocks, boundaries, spacing) && AreSeparated(blocks, boundaries, spacing)
    requires previousEnd.Some? && |blocks| > 0 ==> previousEnd.value <= boundaries[0]
    ensures FirstBlockError(blocks, boundaries, spacing, previousEnd).None?
    decreases |blocks|
  {
    if blocks != [] {
      var first := blocks[0];
      forall k | 0 <= k < |first| - 1 ensures first[k + 1].scheduled - first[k].scheduled == spacing {
        assert (k + 1) * spacing == k * spacing + spacing;
      }
      assert first[0].scheduled == boundaries[0] + 0 * spacing;
      if |blocks| > 1 {
        BlockEndIsLatest(first, spacing, boundaries[1]);
      }
      assert AreSeparated(blocks[1..], boundaries[1..], spacing) by {
        forall b, c | 0 <= b < c < |blocks| - 1
          ensures IsOverBy(blocks[1..][b], boundaries[1..][b], spacing, boundaries[1..][c])
        {
          assert IsOverBy(blocks[b + 1], boundaries[b + 1], spacing, boundaries[c + 1]);
        }
      }
      WellPacedBlocksAreAccepted(blocks[1..], boundaries[1..], spacing, Some(BlockEnd(first, spacing)));
    }
  }

  /** The block checks pass exactly when every block is a progression from its reset boundary, whose slots and requests
      are all over by the boundary of each later block. */
  lemma BlockChecksAreExact(blocks: seq<seq<Interval>>, boundaries: seq<int>, spacing: nat)
    requires |blocks| == |boundaries| && AllNonempty(blocks)
    ensures FirstBlockError(blocks, boundaries, spacing, None).None?
            <==> AreProgressions(blocks, boundaries, spacing) && AreSeparated(blocks, boundaries, spacing)
  {
    if FirstBlockError(blocks, boundaries, spacing, None).None? {
      AcceptedBlocksAreChained(blocks, boundaries, spacing, None);
    }
    if AreProgressions(blocks, boundaries, spacing) && AreSeparated(blocks, boundaries, spacing) {
      WellPacedBlocksAreAccepted(blocks, boundaries, spacing, None);
    }
  }
}
