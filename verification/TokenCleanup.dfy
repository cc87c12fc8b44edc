/** Deleting old refresh tokens does not change what any later request decides. */
module TokenCleanup {
  import opened Wrappers
  import opened RefreshLedger
  import opened LedgerTransactions
  import opened LedgerRuns

  predicate IsCleanup(event: Event) {
    event.op.Cleanup? && event.outcome.Completed?
  }

  /** The history without its cleanups. */
  function WithoutCleanups(events: seq<Event>): seq<Event>
    decreases |events|
  {
    if events == [] then []
    else
      var last := events[|events| - 1];
      WithoutCleanups(events[..|events| - 1]) + (if last.op.Cleanup? then [] else [last])
  }

  /** The latest cutoff used so far. */
  function Floor(events: seq<Event>): Option<Time>
    decreases |events|
  {
    if events == [] then None
    else
      var before, last := Floor(events[..|events| - 1]), events[|events| - 1];
      if IsCleanup(last) && (before.None? || before.value < last.op.cutoff) then Some(last.op.cutoff) else before
  }

  predicate IsBehind(floor: Option<Time>, op: Op) {
    op.Rotate? && floor.Some? ==> floor.value <= op.now
  }

  /** Every rotation reads a clock at or after each cutoff used before it. */
  ghost predicate ClocksFollow(events: seq<Event>) {
    forall i, j :: 0 <= i < j < |events| && IsCleanup(events[i]) && events[j].op.Rotate? ==>
      events[i].op.cutoff <= events[j].op.now
  }

  /** The same decision, apart from how many rows a revocation found and whose token a logout found. */
  predicate SameDecision(a: Answer, b: Answer) {
    match (a, b)
    case (StatusSet(c, _), StatusSet(d, _)) => c == d
    case (RoleRemoval(k, r, _), RoleRemoval(l, s, _)) => k == l && r == s
    case (SessionsRevoked(_), SessionsRevoked(_)) => true
    case (LoggedOut(_), LoggedOut(_)) => true
    case _ => a == b
  }

  /** The simulation relation: `kept` is `full` without some tokens that can never be spent again. */
  ghost predicate Trimmed(full: Rows, kept: Rows, floor: Option<Time>) {
    && SameBesidesTokens(full, kept)
    && forall h {:trigger IsTrimmedAt(full, kept, floor, h)} :: IsTrimmedAt(full, kept, floor, h)
  }

  predicate SameBesidesTokens(full: Rows, kept: Rows) {
    && kept.users == full.users && kept.roles == full.roles && kept.userRoles == full.userRoles
    && kept.resets == full.resets && kept.credentials == full.credentials
  }

  /** The token is the same in both, or can never be spent again and is known to have been deleted. */
  predicate IsTrimmedAt(full: Rows, kept: Rows, floor: Option<Time>, h: Hash) {
    && (h in kept.tokens ==> h in full.tokens && kept.tokens[h] == full.tokens[h])
    && (h in full.tokens && h !in kept.tokens ==>
          && h in kept.purged
          && (full.tokens[h].revokedAt.Some? || (floor.Some? && full.tokens[h].expiresAt < floor.value)))
    && (h in full.purged ==> h in kept.purged)
  }

  // ---------- one request keeps the simulation ----------

  lemma RevocationsKeepTrimmed(full: Rows, kept: Rows, floor: Option<Time>, inFull: set<Hash>, inKept: set<Hash>,
                               at: Time)
    requires Trimmed(full, kept, floor)
    requires forall h :: h in kept.tokens ==> (h in inFull <==> h in inKept)
    ensures Trimmed(RevokeTokens(full, inFull, at), RevokeTokens(kept, inKept, at), floor)
  {
    forall h ensures IsTrimmedAt(RevokeTokens(full, inFull, at), RevokeTokens(kept, inKept, at), floor, h) {
      assert IsTrimmedAt(full, kept, floor, h);
    }
  }

  lemma SweepsAgree(full: Rows, kept: Rows, floor: Option<Time>, user: UserId, at: Time)
    requires Trimmed(full, kept, floor)
    ensures Trimmed(RevokeTokens(full, LiveTokensOf(full, user), at),
                    RevokeTokens(kept, LiveTokensOf(kept, user), at), floor)
    ensures Trimmed(RevokeTokens(full, {}, at), RevokeTokens(kept, {}, at), floor)
  {
    forall h | h in kept.tokens ensures h in LiveTokensOf(full, user) <==> h in LiveTokensOf(kept, user) {
      assert IsTrimmedAt(full, kept, floor, h);
    }
    RevocationsKeepTrimmed(full, kept, floor, LiveTokensOf(full, user), LiveTokensOf(kept, user), at);
    RevocationsKeepTrimmed(full, kept, floor, {}, {}, at);
  }

  /** `op` decides the same on both ledgers and leaves them related. */
  ghost predicate Agree(full: Rows, kept: Rows, floor: Option<Time>, op: Op) {
    && Trimmed(Apply(op, full).rows, Apply(op, kept).rows, floor)
    && SameDecision(Apply(op, kept).answer, Apply(op, full).answer)
  }

  lemma IssueAgrees(full: Rows, kept: Rows, floor: Option<Time>, op: Op)
    requires Trimmed(full, kept, floor) && Fresh(op, kept) && op.Issue?
    ensures Agree(full, kept, floor, op)
  {
    MintKeepsTrimmed(full, kept, floor, op.minted, Token(op.user, op.audience, op.expiresAt, None));
  }

  lemma RotationDecidesAlike(full: Rows, kept: Rows, floor: Option<Time>, op: Op)
    requires Trimmed(full, kept, floor) && op.Rotate? && IsBehind(floor, op)
    ensures Apply(op, kept).answer == Apply(op, full).answer
    ensures Apply(op, full).answer.Rotated? ==> op.hash in kept.tokens && kept.tokens[op.hash] == full.tokens[op.hash]
  {
    assert IsTrimmedAt(full, kept, floor, op.hash);
  }

  lemma MintKeepsTrimmed(full: Rows, kept: Rows, floor: Option<Time>, minted: Hash, token: Token)
    requires Trimmed(full, kept, floor) && minted !in kept.tokens && minted !in kept.purged
    ensures Trimmed(full.(tokens := full.tokens[minted := token]), kept.(tokens := kept.tokens[minted := token]), floor)
  {
    var full', kept' := full.(tokens := full.tokens[minted := token]), kept.(tokens := kept.tokens[minted := token]);
    forall h ensures IsTrimmedAt(full', kept', floor, h) {
      assert IsTrimmedAt(full, kept, floor, h);
    }
  }

  lemma SpendingKeepsTrimmed(full: Rows, kept: Rows, floor: Option<Time>, h: Hash, at: Time)
    requires Trimmed(full, kept, floor) && h in kept.tokens && h in full.tokens
    ensures Trimmed(full.(tokens := full.tokens[h := Revoke(full.tokens[h], at)]),
                    kept.(tokens := kept.tokens[h := Revoke(kept.tokens[h], at)]), floor)
  {
    var full' := full.(tokens := full.tokens[h := Revoke(full.tokens[h], at)]);
    var kept' := kept.(tokens := kept.tokens[h := Revoke(kept.tokens[h], at)]);
    forall k ensures IsTrimmedAt(full', kept', floor, k) {
      assert IsTrimmedAt(full, kept, floor, k);
    }
  }

  lemma RotationAgrees(full: Rows, kept: Rows, floor: Option<Time>, op: Op)
    requires Trimmed(full, kept, floor) && Fresh(op, kept) && op.Rotate? && IsBehind(floor, op)
    ensures Agree(full, kept, floor, op)
  {
    RotationDecidesAlike(full, kept, floor, op);
    if Apply(op, full).answer.Rotated? {
      SpendingKeepsTrimmed(full, kept, floor, op.hash, op.now);
      MintKeepsTrimmed(full.(tokens := full.tokens[op.hash := Revoke(full.tokens[op.hash], op.now)]),
                       kept.(tokens := kept.tokens[op.hash := Revoke(kept.tokens[op.hash], op.now)]),
                       floor, op.minted, Token(full.tokens[op.hash].userId, op.audience, op.expiresAt, None));
    }
  }

  lemma LogoutAgrees(full: Rows, kept: Rows, floor: Option<Time>, op: Op)
    requires Trimmed(full, kept, floor) && op.Logout?
    ensures Agree(full, kept, floor, op)
  {
    var inFull, inKept := RevokedBy(op, full), RevokedBy(op, kept);
    assert IsTrimmedAt(full, kept, floor, op.hash);
    RevocationsKeepTrimmed(full, kept, floor, inFull, inKept, op.at);
    RevocationsRevoke(op, full);
    RevocationsRevoke(op, kept);
    TrimmedIsAboutTokens(Apply(op, full).rows, Apply(op, kept).rows, floor,
                         RevokeTokens(full, inFull, op.at), RevokeTokens(kept, inKept, op.at));
  }

  lemma StatusAgrees(full: Rows, kept: Rows, floor: Option<Time>, op: Op)
    requires Trimmed(full, kept, floor) && op.SetStatus?
    ensures Agree(full, kept, floor, op)
  {
    SweepsAgree(full, kept, floor, op.user, op.at);
    if op.user in full.users {
      TrimmedIsAboutTokens(Apply(op, full).rows, Apply(op, kept).rows, floor,
                           RevokeTokens(full, RevokedBy(op, full), op.at),
                           RevokeTokens(kept, RevokedBy(op, kept), op.at));
    }
  }

  lemma TrimmedIsAboutTokens(full: Rows, kept: Rows, floor: Option<Time>, full': Rows, kept': Rows)
    requires Trimmed(full', kept', floor) && SameBesidesTokens(full, kept)
    requires full.tokens == full'.tokens && full.purged == full'.purged
    requires kept.tokens == kept'.tokens && kept.purged == kept'.purged
    ensures Trimmed(full, kept, floor)
  {
    forall h ensures IsTrimmedAt(full, kept, floor, h) {
      assert IsTrimmedAt(full', kept', floor, h);
    }
  }

  lemma SessionRevocationAgrees(full: Rows, kept: Rows, floor: Option<Time>, op: Op)
    requires Trimmed(full, kept, floor) && op.RevokeSessions?
    ensures Agree(full, kept, floor, op)
  {
    SweepsAgree(full, kept, floor, op.user, op.at);
  }

  lemma RoleRemovalAgrees(full: Rows, kept: Rows, floor: Option<Time>, op: Op)
    requires Trimmed(full, kept, floor) && op.RemoveRole?
    ensures Agree(full, kept, floor, op)
  {
    if op.role in full.roles && (op.user, op.role) in full.userRoles {
      SweepsAgree(full, kept, floor, op.user, op.at);
      TrimmedIsAboutTokens(Apply(op, full).rows, Apply(op, kept).rows, floor,
                           RevokeTokens(full, RevokedBy(op, full), op.at),
                           RevokeTokens(kept, RevokedBy(op, kept), op.at));
    }
  }

  lemma ResetAgrees(full: Rows, kept: Rows, floor: Option<Time>, op: Op)
    requires Trimmed(full, kept, floor) && op.ResetPassword?
    ensures Agree(full, kept, floor, op)
  {
    if Apply(op, full).answer.PasswordReset? {
      SuccessfulResetAgrees(full, kept, floor, op);
    } else {
      FailedResetAgrees(full, kept, floor, op);
    }
  }

  lemma ResetDecidesAlike(full: Rows, kept: Rows, op: Op)
    requires SameBesidesTokens(full, kept) && op.ResetPassword?
    ensures Apply(op, kept).answer == Apply(op, full).answer
    ensures SameBesidesTokens(Apply(op, full).rows, Apply(op, kept).rows)
  {
  }

  lemma FailedResetKeepsTokens(rows: Rows, op: Op)
    requires op.ResetPassword? && !Apply(op, rows).answer.PasswordReset?
    ensures Apply(op, rows).rows.tokens == rows.tokens && Apply(op, rows).rows.purged == rows.purged
  {
  }

  lemma FailedResetAgrees(full: Rows, kept: Rows, floor: Option<Time>, op: Op)
    requires Trimmed(full, kept, floor) && op.ResetPassword? && !Apply(op, full).answer.PasswordReset?
    ensures Agree(full, kept, floor, op)
  {
    ResetDecidesAlike(full, kept, op);
    FailedResetKeepsTokens(full, op);
    FailedResetKeepsTokens(kept, op);
    TrimmedIsAboutTokens(Apply(op, full).rows, Apply(op, kept).rows, floor, full, kept);
  }

  lemma SuccessfulResetAgrees(full: Rows, kept: Rows, floor: Option<Time>, op: Op)
    requires Trimmed(full, kept, floor) && op.ResetPassword? && Apply(op, full).answer.PasswordReset?
    ensures Agree(full, kept, floor, op)
  {
    SweepsAgree(full, kept, floor, full.resets[op.reset].userId, op.now);
    RevocationsRevoke(op, full);
    RevocationsRevoke(op, kept);
    TrimmedIsAboutTokens(Apply(op, full).rows, Apply(op, kept).rows, floor,
                         RevokeTokens(full, RevokedBy(op, full), op.now),
                         RevokeTokens(kept, RevokedBy(op, kept), op.now));
  }

  lemma RequestsAgree(full: Rows, kept: Rows, floor: Option<Time>, op: Op)
    requires Trimmed(full, kept, floor) && Fresh(op, kept) && !op.Cleanup? && IsBehind(floor, op)
    ensures Agree(full, kept, floor, op)
  {
    match op
    case Issue(_, _, _, _) => IssueAgrees(full, kept, floor, op);
    case Rotate(_, _, _, _, _) => RotationAgrees(full, kept, floor, op);
    case SetStatus(_, _, _) => StatusAgrees(full, kept, floor, op);
    case AssignRole(_, _) => TrimmedIsAboutTokens(Apply(op, full).rows, Apply(op, kept).rows, floor, full, kept);
    case RemoveRole(_, _, _) => RoleRemovalAgrees(full, kept, floor, op);
    case RevokeSessions(_, _) => SessionRevocationAgrees(full, kept, floor, op);
    case ResetPassword(_, _, _) => ResetAgrees(full, kept, floor, op);
    case Logout(_, _) => LogoutAgrees(full, kept, floor, op);
  }

  lemma CleanupTrims(full: Rows, kept: Rows, floor: Option<Time>, op: Op)
    requires Trimmed(full, kept, floor) && op.Cleanup?
    ensures Trimmed(full, Apply(op, kept).rows,
                    if floor.None? || floor.value < op.cutoff then Some(op.cutoff) else floor)
  {
    var floor' := if floor.None? || floor.value < op.cutoff then Some(op.cutoff) else floor;
    forall h ensures IsTrimmedAt(full, Apply(op, kept).rows, floor', h) {
      assert IsTrimmedAt(full, kept, floor, h);
    }
  }

  // ---------- whole histories ----------

  lemma {:induction false} FloorIsUsed(events: seq<Event>) returns (i: nat)
    requires Floor(events).Some?
    ensures i < |events| && IsCleanup(events[i]) && events[i].op.cutoff == Floor(events).value
    decreases |events|
  {
    var prefix := events[..|events| - 1];
    i := |events| - 1;
    if Floor(events) == Floor(prefix) {
      i := FloorIsUsed(prefix);
    }
  }

  /** A request decided as it would have decided at its place in the history without cleanups. */
  ghost predicate DecidesAlike(rows: Rows, before: seq<Event>, event: Event)
    requires event.outcome.Completed?
  {
    SameDecision(event.outcome.answer, Apply(event.op, Serial(rows, WithoutCleanups(before))).answer)
  }

  /** Without its cleanups the history up to `n` leaves rows of which those it did leave are a trimmed copy. */
  ghost predicate IsTrimmedUpTo(rows: Rows, events: seq<Event>, n: nat)
    requires n <= |events|
  {
    Trimmed(Serial(rows, WithoutCleanups(events[..n])), Serial(rows, events[..n]), Floor(events[..n]))
  }

  lemma CleanupKeepsTrimmed(rows: Rows, events: seq<Event>, i: nat)
    requires AnswersSerially(rows, events) && i < |events| && events[i].op.Cleanup?
    requires IsTrimmedUpTo(rows, events, i)
    ensures IsTrimmedUpTo(rows, events, i + 1)
  {
    assert events[..i + 1][..i] == events[..i];
    assert WithoutCleanups(events[..i + 1]) == WithoutCleanups(events[..i]);
    SerialOfLast(rows, events[..i + 1]);
    if events[i].outcome.Completed? {
      CleanupTrims(Serial(rows, WithoutCleanups(events[..i])), Serial(rows, events[..i]), Floor(events[..i]),
                   events[i].op);
    }
  }

  lemma EventIsBehind(events: seq<Event>, i: nat)
    requires ClocksFollow(events) && i < |events|
    ensures IsBehind(Floor(events[..i]), events[i].op)
  {
    if Floor(events[..i]).Some? {
      var k := FloorIsUsed(events[..i]);
      assert events[..i][k] == events[k];
    }
  }

  lemma RequestKeepsTrimmed(rows: Rows, events: seq<Event>, i: nat)
    requires AnswersSerially(rows, events) && ClocksFollow(events)
    requires i < |events| && !events[i].op.Cleanup? && IsTrimmedUpTo(rows, events, i)
    ensures IsTrimmedUpTo(rows, events, i + 1)
  {
    assert events[..i + 1][..i] == events[..i];
    SerialOfLast(rows, events[..i + 1]);
    SerialWithout(rows, events[..i + 1]);
    if events[i].outcome.Completed? {
      assert AnswersAt(Serial(rows, events[..i]), events[i]);
      EventIsBehind(events, i);
      RequestsAgree(Serial(rows, WithoutCleanups(events[..i])), Serial(rows, events[..i]), Floor(events[..i]),
                  events[i].op);
    }
  }

  lemma SerialWithout(rows: Rows, events: seq<Event>)
    requires events != [] && !events[|events| - 1].op.Cleanup?
    ensures var last := events[|events| - 1];
            var before := Serial(rows, WithoutCleanups(events[..|events| - 1]));
            Serial(rows, WithoutCleanups(events))
            == if last.outcome.RolledBack? then before else Apply(last.op, before).rows
  {
    var prefix, last := events[..|events| - 1], events[|events| - 1];
    assert WithoutCleanups(events)[..|WithoutCleanups(prefix)|] == WithoutCleanups(prefix);
    SerialOfLast(rows, WithoutCleanups(events));
  }

  lemma {:induction false} HistoryIsTrimmed(rows: Rows, events: seq<Event>, n: nat)
    requires AnswersSerially(rows, events) && ClocksFollow(events) && n <= |events|
    ensures IsTrimmedUpTo(rows, events, n)
    decreases n
  {
    if n > 0 {
      HistoryIsTrimmed(rows, events, n - 1);
      if events[n - 1].op.Cleanup? {
        CleanupKeepsTrimmed(rows, events, n - 1);
      } else {
        RequestKeepsTrimmed(rows, events, n - 1);
      }
    }
  }

  /** Cleanups anywhere in a history change no decision of any other request, as long as each rotation
      reads a clock at or after the cutoffs used before it. */
  lemma CleanupIsInvisible(rows: Rows, events: seq<Event>, i: nat)
    requires AnswersSerially(rows, events) && ClocksFollow(events)
    requires i < |events| && events[i].outcome.Completed? && !events[i].op.Cleanup?
    ensures DecidesAlike(rows, events[..i], events[i])
  {
    HistoryIsTrimmed(rows, events, i);
    assert AnswersAt(Serial(rows, events[..i]), events[i]);
    EventIsBehind(events, i);
    RequestsAgree(Serial(rows, WithoutCleanups(events[..i])), Serial(rows, events[..i]), Floor(events[..i]),
                  events[i].op);
  }

  /** The same for every interleaving of requests and cleanups, also when a cleanup deletes a token between
      a request's read of it and the request's update. */
  lemma CleanupsNeverChangeRefresh(rows: Rows, acts: seq<Action>)
    requires Play(Quiet(rows), acts).Stepped? && ClocksFollow(Play(Quiet(rows), acts).events)
    ensures var events := Play(Quiet(rows), acts).events;
            && Trimmed(Serial(rows, WithoutCleanups(events)), Play(Quiet(rows), acts).state.rows, Floor(events))
            && forall i :: 0 <= i < |events| && events[i].outcome.Completed? && !events[i].op.Cleanup? ==>
                 DecidesAlike(rows, events[..i], events[i])
  {
    InterleavingsAreSerial(Quiet(rows), acts);
    var events := Play(Quiet(rows), acts).events;
    HistoryIsTrimmed(rows, events, |events|);
    assert events[..|events|] == events;
    forall i | 0 <= i < |events| && events[i].outcome.Completed? && !events[i].op.Cleanup?
      ensures DecidesAlike(rows, events[..i], events[i])
    {
      CleanupIsInvisible(rows, events, i);
    }
  }

  /** The clock condition is exact: a cleanup changes a rotation that follows it precisely when the
      rotation would succeed with a token that it deleted because the cutoff, running ahead of the
      rotation's clock, calls it expired. */
  lemma CleanupChangesRotationExactly(rows: Rows, cutoff: Time, candidates: set<Hash>, op: Op)
    requires op.Rotate? && Fresh(op, rows)
    ensures Apply(op, Apply(Cleanup(cutoff, candidates), rows).rows).answer != Apply(op, rows).answer
       <==> && Apply(op, rows).answer.Rotated? && op.hash in candidates
            && op.now < rows.tokens[op.hash].expiresAt < cutoff
  {
  }
}
