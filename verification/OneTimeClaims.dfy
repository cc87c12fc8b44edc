/** A reset token is redeemed once, and every removal of a role undoes an assignment of its own, whatever races
    for them. */
module OneTimeClaims {
  import opened Wrappers
  import opened RefreshLedger
  import opened LedgerTransactions
  import opened LedgerRuns

  // ---------- reset tokens ----------

  /** Used reset tokens stay used. */
  ghost predicate ClaimsStay(before: Rows, after: Rows) {
    forall r :: r in before.resets && before.resets[r].usedAt.Some? ==>
      r in after.resets && after.resets[r].usedAt == before.resets[r].usedAt
  }

  lemma ApplyKeepsClaims(op: Op, rows: Rows)
    ensures ClaimsStay(rows, Apply(op, rows).rows)
  {
  }

  lemma {:induction false} HistoryKeepsClaims(rows: Rows, events: seq<Event>, i: nat, j: nat)
    requires i <= j <= |events|
    ensures ClaimsStay(Serial(rows, events[..i]), Serial(rows, events[..j]))
    decreases j
  {
    if i < j {
      HistoryKeepsClaims(rows, events, i, j - 1);
      assert events[..j][..j - 1] == events[..j - 1];
      SerialOfLast(rows, events[..j]);
      ApplyKeepsClaims(events[j - 1].op, Serial(rows, events[..j - 1]));
    }
  }

  /** A password reset that succeeded with the reset token. */
  ghost predicate Redeems(event: Event, reset: Hash) {
    && event.op.ResetPassword? && event.op.reset == reset
    && event.outcome.Completed? && event.outcome.answer.PasswordReset?
  }

  predicate IsUsed(rows: Rows, reset: Hash) {
    reset in rows.resets && rows.resets[reset].usedAt.Some?
  }

  lemma RedemptionUses(rows: Rows, op: Op)
    requires op.ResetPassword? && Apply(op, rows).answer.PasswordReset?
    ensures !IsUsed(rows, op.reset) && IsUsed(Apply(op, rows).rows, op.reset)
  {
  }

  lemma EventUses(rows: Rows, events: seq<Event>, i: nat, reset: Hash)
    requires AnswersSerially(rows, events) && i < |events| && Redeems(events[i], reset)
    ensures !IsUsed(Serial(rows, events[..i]), reset) && IsUsed(Serial(rows, events[..i + 1]), reset)
  {
    assert events[..i + 1][..i] == events[..i];
    SerialOfLast(rows, events[..i + 1]);
    assert AnswersAt(Serial(rows, events[..i]), events[i]);
    RedemptionUses(Serial(rows, events[..i]), events[i].op);
  }

  lemma RedeemedOnce(rows: Rows, events: seq<Event>, i: nat, j: nat, reset: Hash)
    requires AnswersSerially(rows, events) && i < j < |events| && Redeems(events[i], reset)
    ensures !Redeems(events[j], reset)
  {
    EventUses(rows, events, i, reset);
    HistoryKeepsClaims(rows, events, i + 1, j);
    if Redeems(events[j], reset) {
      EventUses(rows, events, j, reset);
    }
  }

  /** In every interleaving at most one password reset succeeds with a reset token. */
  lemma ResetTokensAreRedeemedOnce(rows: Rows, acts: seq<Action>, i: nat, j: nat, reset: Hash)
    requires Play(Quiet(rows), acts).Stepped?
    requires var events := Play(Quiet(rows), acts).events;
             i < |events| && j < |events| && Redeems(events[i], reset) && Redeems(events[j], reset)
    ensures i == j
  {
    InterleavingsAreSerial(Quiet(rows), acts);
    var events := Play(Quiet(rows), acts).events;
    if i < j {
      RedeemedOnce(rows, events, i, j, reset);
    } else if j < i {
      RedeemedOnce(rows, events, j, i, reset);
    }
  }

  // ---------- role assignments ----------

  /** The request reports that it assigned the role to a user who did not have it. */
  predicate Assigns(event: Event, user: UserId, role: RoleKey) {
    && event.op == AssignRole(user, role)
    && event.outcome == Completed(RoleAssigned(true))
  }

  /** The request reports that it took the role away. */
  predicate Removes(event: Event, user: UserId, role: RoleKey) {
    && event.op.RemoveRole? && event.op.user == user && event.op.role == role
    && event.outcome.Completed? && event.outcome.answer.RoleRemoval? && event.outcome.answer.removed
  }

  function Assignments(events: seq<Event>, user: UserId, role: RoleKey): nat
    decreases |events|
  {
    if events == [] then 0
    else
      Assignments(events[..|events| - 1], user, role)
      + (if Assigns(events[|events| - 1], user, role) then 1 else 0)
  }

  function Removals(events: seq<Event>, user: UserId, role: RoleKey): nat
    decreases |events|
  {
    if events == [] then 0
    else Removals(events[..|events| - 1], user, role) + (if Removes(events[|events| - 1], user, role) then 1 else 0)
  }

  function Having(rows: Rows, user: UserId, role: RoleKey): nat {
    if (user, role) in rows.userRoles then 1 else 0
  }

  /** What an event does to one assignment is what it reports. */
  lemma EventKeepsBooks(rows: Rows, event: Event, user: UserId, role: RoleKey)
    requires event.outcome.Completed? && AnswersAt(rows, event)
    ensures Assigns(event, user, role) ==>
              Having(rows, user, role) == 0 && Having(Apply(event.op, rows).rows, user, role) == 1
    ensures Removes(event, user, role) ==>
              Having(rows, user, role) == 1 && Having(Apply(event.op, rows).rows, user, role) == 0
    ensures !Assigns(event, user, role) && !Removes(event, user, role) ==>
              Having(Apply(event.op, rows).rows, user, role) == Having(rows, user, role)
  {
  }

  lemma NextKeepsBooks(rows: Rows, events: seq<Event>, i: nat, user: UserId, role: RoleKey)
    requires AnswersSerially(rows, events) && i < |events|
    ensures var here, next := Serial(rows, events[..i]), Serial(rows, events[..i + 1]);
            && (Assigns(events[i], user, role) ==> Having(here, user, role) == 0 && Having(next, user, role) == 1)
            && (Removes(events[i], user, role) ==> Having(here, user, role) == 1 && Having(next, user, role) == 0)
            && (!Assigns(events[i], user, role) && !Removes(events[i], user, role) ==>
                  Having(next, user, role) == Having(here, user, role))
  {
    assert events[..i + 1][..i] == events[..i];
    SerialOfLast(rows, events[..i + 1]);
    if events[i].outcome.Completed? {
      assert AnswersAt(Serial(rows, events[..i]), events[i]);
      EventKeepsBooks(Serial(rows, events[..i]), events[i], user, role);
    }
  }

  lemma {:induction false} HistoryKeepsBooks(rows: Rows, events: seq<Event>, n: nat, user: UserId, role: RoleKey)
    requires AnswersSerially(rows, events) && n <= |events|
    ensures Having(rows, user, role) + Assignments(events[..n], user, role)
         == Removals(events[..n], user, role) + Having(Serial(rows, events[..n]), user, role)
    decreases n
  {
    if n > 0 {
      HistoryKeepsBooks(rows, events, n - 1, user, role);
      assert events[..n][..n - 1] == events[..n - 1];
      NextKeepsBooks(rows, events, n - 1, user, role);
    }
  }

  /** In every interleaving the reports balance: the assignments made, and the one there may have been at the start,
      are those removed and the one there may be at the end. */
  lemma RoleBooksBalance(rows: Rows, acts: seq<Action>, user: UserId, role: RoleKey)
    requires Play(Quiet(rows), acts).Stepped?
    ensures var end := Play(Quiet(rows), acts);
            Having(rows, user, role) + Assignments(end.events, user, role)
            == Removals(end.events, user, role) + Having(end.state.rows, user, role)
  {
    InterleavingsAreSerial(Quiet(rows), acts);
    var events := Play(Quiet(rows), acts).events;
    HistoryKeepsBooks(rows, events, |events|, user, role);
    assert events[..|events|] == events;
  }

  /** The latest assignment of the role to the user. */
  function LastAssignment(events: seq<Event>, user: UserId, role: RoleKey): (k: Option<nat>)
    ensures k.Some? ==> k.value < |events| && Assigns(events[k.value], user, role)
    decreases |events|
  {
    if events == [] then None
    else if Assigns(events[|events| - 1], user, role) then Some(|events| - 1)
    else LastAssignment(events[..|events| - 1], user, role)
  }

  lemma LastAssignmentGrows(events: seq<Event>, i: nat, user: UserId, role: RoleKey)
    requires i < |events|
    ensures LastAssignment(events[..i + 1], user, role)
         == if Assigns(events[i], user, role) then Some(i) else LastAssignment(events[..i], user, role)
  {
    assert events[..i + 1][..i] == events[..i];
  }

  /** How often the role is held after each number of events. */
  ghost function Held(rows: Rows, events: seq<Event>, user: UserId, role: RoleKey): seq<nat> {
    seq(|events| + 1, n requires 0 <= n <= |events| => Having(Serial(rows, events[..n]), user, role))
  }

  lemma {:induction false} RisesByAssignment(events: seq<Event>, held: seq<nat>, from: nat, n: nat, user: UserId,
                                             role: RoleKey)
    requires |held| == |events| + 1 && from <= n <= |events| && held[from] < held[n]
    requires forall k :: 0 <= k < |events| && !Assigns(events[k], user, role) ==> held[k + 1] <= held[k]
    ensures LastAssignment(events[..n], user, role).Some? && from <= LastAssignment(events[..n], user, role).value
    decreases n
  {
    LastAssignmentGrows(events, n - 1, user, role);
    if !Assigns(events[n - 1], user, role) {
      RisesByAssignment(events, held, from, n - 1, user, role);
    }
  }

  /** Where the role is held at `n` but was not at `from`, it was last assigned in between. */
  lemma HeldWasAssignedSince(rows: Rows, events: seq<Event>, from: nat, n: nat, user: UserId, role: RoleKey)
    requires AnswersSerially(rows, events) && from <= n <= |events|
    requires Having(Serial(rows, events[..from]), user, role) < Having(Serial(rows, events[..n]), user, role)
    ensures LastAssignment(events[..n], user, role).Some? && from <= LastAssignment(events[..n], user, role).value
  {
    var held := Held(rows, events, user, role);
    forall k | 0 <= k < |events| && !Assigns(events[k], user, role) ensures held[k + 1] <= held[k] {
      NextKeepsBooks(rows, events, k, user, role);
    }
    RisesByAssignment(events, held, from, n, user, role);
  }

  /** The assignment that a removal undoes. */
  function Undone(events: seq<Event>, i: nat, user: UserId, role: RoleKey): Option<nat>
    requires i <= |events|
  {
    LastAssignment(events[..i], user, role)
  }

  /** In every interleaving each removal undoes an assignment of its own that ended before it: the latest one, which no
      other removal comes between. Only the first removal may undo an assignment there was at the start. */
  lemma EveryRemovalHasItsOwnAssignment(rows: Rows, acts: seq<Action>, i: nat, user: UserId, role: RoleKey)
    requires Play(Quiet(rows), acts).Stepped?
    requires var events := Play(Quiet(rows), acts).events; i < |events| && Removes(events[i], user, role)
    ensures var events := Play(Quiet(rows), acts).events;
            && (Undone(events, i, user, role).None? ==>
                  (user, role) in rows.userRoles && Removals(events[..i], user, role) == 0)
            && forall j :: 0 <= j < i && Removes(events[j], user, role) ==>
                 && Undone(events, i, user, role).Some? && j < Undone(events, i, user, role).value
                 && Undone(events, i, user, role) != Undone(events, j, user, role)
  {
    InterleavingsAreSerial(Quiet(rows), acts);
    var events := Play(Quiet(rows), acts).events;
    NextKeepsBooks(rows, events, i, user, role);
    forall j | 0 <= j < i && Removes(events[j], user, role)
      ensures Undone(events, i, user, role).Some? && j < Undone(events, i, user, role).value
    {
      NextKeepsBooks(rows, events, j, user, role);
      HeldWasAssignedSince(rows, events, j + 1, i, user, role);
    }
    if Undone(events, i, user, role).None? {
      assert events[..0] == [];
      if (user, role) !in rows.userRoles {
        HeldWasAssignedSince(rows, events, 0, i, user, role);
      }
      NoRemovals(events, i, user, role);
    }
  }

  lemma {:induction false} NoRemovals(events: seq<Event>, n: nat, user: UserId, role: RoleKey)
    requires n <= |events| && forall j :: 0 <= j < n ==> !Removes(events[j], user, role)
    ensures Removals(events[..n], user, role) == 0
    decreases n
  {
    if n > 0 {
      assert events[..n][..n - 1] == events[..n - 1];
      NoRemovals(events, n - 1, user, role);
    }
  }
}
