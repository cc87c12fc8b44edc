/** What holds over whole concurrent runs of the ledger: the order in which any row's lock is granted is
    the serial order of its holders, barred users never hold a live token, a revoke-all separates the
    sessions before it from those after it, and when a logout's answer can be believed. */
module LedgerRuns {
  import opened Wrappers
  import opened RefreshLedger
  import opened LedgerTransactions

  /** No transaction is in flight. */
  function Quiet(rows: Rows): State {
    State(rows, map[], map[])
  }

  // ---------- lock order ----------

  function Holder(s: State, row: Row): Option<TxId> {
    if row in s.locks then Some(s.locks[row]) else None
  }

  /** The operation that holds `row`, as a sequence of length at most one. */
  function HoldingOp(s: State, row: Row): seq<Op> {
    if row in s.locks && s.locks[row] in s.txs then [s.txs[s.locks[row]].op] else []
  }

  predicate LocksAreHeld(s: State) {
    forall r :: r in s.locks ==> s.locks[r] in s.txs
  }

  /** What a step adds to the lock grants of `row`. */
  function Taken(s: State, act: Action, row: Row): seq<Op>
    requires Next(s, act).Stepped?
  {
    Granted(s, Next(s, act).state, row)
  }

  function Granted(s: State, after: State, row: Row): seq<Op> {
    if Holder(after, row) != Holder(s, row) then HoldingOp(after, row) else []
  }

  /** The operation that ends in a step while it holds `row`. */
  function Dropped(s: State, act: Action, row: Row): seq<Op>
    requires Next(s, act).Stepped?
  {
    Released(s, act.t, Next(s, act).events, row)
  }

  function Released(s: State, t: TxId, events: seq<Event>, row: Row): seq<Op> {
    if events != [] && Holder(s, row) == Some(t) then [events[0].op] else []
  }

  /** The operations that were granted `row`, in the order of the grants. */
  function TakeOrder(s: State, acts: seq<Action>, row: Row): seq<Op>
    requires Play(s, acts).Stepped?
    decreases |acts|
  {
    if acts == [] then []
    else
      var prefix := acts[..|acts| - 1];
      TakeOrder(s, prefix, row) + Taken(Play(s, prefix).state, acts[|acts| - 1], row)
  }

  /** The ended operations that held `row` when they ended, in the order of the history. */
  function EndOrder(s: State, acts: seq<Action>, row: Row): seq<Op>
    requires Play(s, acts).Stepped?
    decreases |acts|
  {
    if acts == [] then []
    else
      var prefix := acts[..|acts| - 1];
      EndOrder(s, prefix, row) + Dropped(Play(s, prefix).state, acts[|acts| - 1], row)
  }

  /** A step hands the row over: whoever held it or takes it either ends or holds it afterwards. */
  ghost predicate PassesLock(s: State, t: TxId, next: State, events: seq<Event>, row: Row) {
    HoldingOp(s, row) + Granted(s, next, row) == Released(s, t, events, row) + HoldingOp(next, row)
  }

  lemma StepPassesLock(s: State, act: Action, row: Row)
    requires LocksAreHeld(s) && Next(s, act).Stepped?
    ensures PassesLock(s, act.t, Next(s, act).state, Next(s, act).events, row)
  {
    match act
    case Begin(_, _) =>
    case Abort(t) => AfterPassesLock(s, t, Finish(Issued), row);
    case Advance(t) => AdvancePassesLock(s, t, row);
    case Sweep(t, h) => VisitPassesLock(s, t, h, Next(s, act).state, row);
    case Purge(t, h) => VisitPassesLock(s, t, h, Next(s, act).state, row);
  }

  /** A row visit ends nothing and takes at most the lock of the visited token. */
  lemma VisitPassesLock(s: State, t: TxId, h: Hash, next: State, row: Row)
    requires LocksAreHeld(s) && t in s.txs && next.txs.Keys == s.txs.Keys
    requires forall u :: u in s.txs ==> next.txs[u].op == s.txs[u].op
    requires next.locks == s.locks || (Free(s.locks, t, TokenRow(h)) && next.locks == s.locks[TokenRow(h) := t])
    ensures PassesLock(s, t, next, [], row)
  {
  }

  lemma AdvancePassesLock(s: State, t: TxId, row: Row)
    requires LocksAreHeld(s) && Next(s, Advance(t)).Stepped?
    ensures PassesLock(s, t, Next(s, Advance(t)).state, Next(s, Advance(t)).events, row)
  {
    var move := Statement(s.rows, s.locks, t, s.txs[t]);
    if move.Continue? {
      StatementIsOfSameOp(s.rows, s.locks, t, s.txs[t]);
    }
    AfterPassesLock(s, t, move, row);
  }

  lemma AfterPassesLock(s: State, t: TxId, move: Move, row: Row)
    requires LocksAreHeld(s) && t in s.txs && After(s, t, move).Stepped?
    requires move.Continue? ==> move.tx.op == s.txs[t].op && (move.row.Some? ==> Free(s.locks, t, move.row.value))
    ensures PassesLock(s, t, After(s, t, move).state, After(s, t, move).events, row)
  {
  }

  lemma OrdersGrow(s: State, acts: seq<Action>, row: Row)
    requires acts != [] && Inv(s) && Play(s, acts).Stepped?
    ensures var prefix := acts[..|acts| - 1];
            var act := acts[|acts| - 1];
            && Play(s, prefix).Stepped? && Inv(Play(s, prefix).state) && Inv(Play(s, acts).state)
            && var before := Play(s, prefix).state;
               var next := Next(before, act);
               && next.Stepped? && next.state == Play(s, acts).state
               && TakeOrder(s, acts, row) == TakeOrder(s, prefix, row) + Taken(before, act, row)
               && EndOrder(s, acts, row) == EndOrder(s, prefix, row) + Dropped(before, act, row)
  {
    InterleavingsAreSerial(s, acts[..|acts| - 1]);
    InterleavingsAreSerial(s, acts);
  }

  lemma Regroup<T>(ended: seq<T>, held: seq<T>, taken: seq<T>, dropped: seq<T>, holding: seq<T>)
    requires held + taken == dropped + holding
    ensures (ended + held) + taken == (ended + dropped) + holding
  {
    assert (ended + held) + taken == ended + (held + taken);
  }

  /** For every row, be it of a user, a token, a reset token or a role assignment: the operations that
      were granted its lock end, and so stand in the serial order, in the order of the grants. */
  lemma {:induction false} LockOrderIsSerialOrder(s: State, acts: seq<Action>, row: Row)
    requires Inv(s) && Play(s, acts).Stepped? && row !in s.locks
    ensures Inv(Play(s, acts).state)
    ensures TakeOrder(s, acts, row) == EndOrder(s, acts, row) + HoldingOp(Play(s, acts).state, row)
    decreases |acts|
  {
    if acts != [] {
      OrdersGrow(s, acts, row);
      var prefix := acts[..|acts| - 1];
      var before := Play(s, prefix).state;
      LockOrderIsSerialOrder(s, prefix, row);
      StepPassesLock(before, acts[|acts| - 1], row);
      Regroup(EndOrder(s, prefix, row), HoldingOp(before, row), Taken(before, acts[|acts| - 1], row),
              Dropped(before, acts[|acts| - 1], row), HoldingOp(Play(s, acts).state, row));
    }
  }

  // ---------- safety of the committed rows ----------

  lemma EventKeepsBarredUsersEmpty(here: Rows, event: Event)
    requires event.outcome.Completed? && AnswersAt(here, event) && BarredUsersHoldNothing(here)
    ensures BarredUsersHoldNothing(Apply(event.op, here).rows)
  {
    ApplyKeepsBarredUsersEmpty(event.op, here);
  }

  lemma SerialOfLast(rows: Rows, events: seq<Event>)
    requires events != []
    ensures var before, last := Serial(rows, events[..|events| - 1]), events[|events| - 1];
            Serial(rows, events) == if last.outcome.RolledBack? then before else Apply(last.op, before).rows
  {
  }

  lemma EventIsSafe(rows: Rows, events: seq<Event>, i: nat)
    requires AnswersSerially(rows, events) && i < |events|
    requires BarredUsersHoldNothing(Serial(rows, events[..i]))
    ensures BarredUsersHoldNothing(Serial(rows, events[..i + 1]))
  {
    assert events[..i + 1][..i] == events[..i];
    SerialOfLast(rows, events[..i + 1]);
    if events[i].outcome.Completed? {
      EventKeepsBarredUsersEmpty(Serial(rows, events[..i]), events[i]);
    }
  }

  lemma {:induction false} SerialRunsAreSafe(rows: Rows, events: seq<Event>, n: nat)
    requires AnswersSerially(rows, events) && BarredUsersHoldNothing(rows) && n <= |events|
    ensures BarredUsersHoldNothing(Serial(rows, events[..n]))
    decreases n
  {
    if n > 0 {
      SerialRunsAreSafe(rows, events, n - 1);
      EventIsSafe(rows, events, n - 1);
    }
  }

  /** In every reachable committed state a suspended or deleted user has no unrevoked token. */
  lemma ReachableStatesAreSafe(rows: Rows, acts: seq<Action>)
    requires BarredUsersHoldNothing(rows) && Play(Quiet(rows), acts).Stepped?
    ensures BarredUsersHoldNothing(Play(Quiet(rows), acts).state.rows)
  {
    InterleavingsAreSerial(Quiet(rows), acts);
    var events := Play(Quiet(rows), acts).events;
    SerialRunsAreSafe(rows, events, |events|);
    assert events[..|events|] == events;
  }

  // ---------- revoke-all ----------

  ghost predicate MintedByOneOf(h: Hash, ops: seq<Op>) {
    exists i :: 0 <= i < |ops| && Mints(ops[i]) == Some(h)
  }

  lemma OnlyCommitsWrite(s: State, act: Action)
    requires Next(s, act).Stepped?
    ensures Next(s, act).state.rows == s.rows
            || (act.t in s.txs && s.txs[act.t].pc.Ready?
                && Next(s, act).state.rows == Merge(s.rows, s.txs[act.t].writes))
  {
    if act.Advance? {
      OnlyReadyCommits(s.rows, s.locks, act.t, s.txs[act.t]);
    }
  }

  lemma CommittedTokenIsOfHolder(s: State, t: TxId, user: UserId, h: Hash)
    requires Inv(s) && t in s.txs && s.txs[t].pc.Ready?
    requires h in LiveTokensOf(Merge(s.rows, s.txs[t].writes), user)
    ensures h in LiveTokensOf(s.rows, user) || (Holder(s, UserRow(user)) == Some(t) && Mints(s.txs[t].op) == Some(h))
  {
    CommitChangesOnlyLocked(s.rows, s.locks, t, s.txs[t]);
    ChangedTokenIsOfHolder(s.rows, Merge(s.rows, s.txs[t].writes), s.locks, t, s.txs[t].op, user, h);
  }

  lemma ChangedTokenIsOfHolder(
    rows: Rows, after: Rows, locks: map<Row, TxId>, t: TxId, op: Op, user: UserId, h: Hash)
    requires ChangesOnlyLocked(rows, after, locks, t, op) && h in LiveTokensOf(after, user)
    ensures h in LiveTokensOf(rows, user) || (Holds(locks, t, UserRow(user)) && Mints(op) == Some(h))
  {
  }

  lemma NewLiveTokenIsOfHolder(s: State, act: Action, user: UserId, h: Hash)
    requires Inv(s) && Next(s, act).Stepped?
    requires h in LiveTokensOf(Next(s, act).state.rows, user)
    ensures h in LiveTokensOf(s.rows, user)
            || (Holder(s, UserRow(user)) == Some(act.t) && act.t in s.txs && Mints(s.txs[act.t].op) == Some(h))
  {
    OnlyCommitsWrite(s, act);
    if Next(s, act).state.rows != s.rows {
      CommittedTokenIsOfHolder(s, act.t, user, h);
    }
  }

  lemma MintedByEarlier(h: Hash, ops: seq<Op>, more: seq<Op>)
    requires MintedByOneOf(h, ops)
    ensures MintedByOneOf(h, ops + more)
  {
    var i :| 0 <= i < |ops| && Mints(ops[i]) == Some(h);
    assert (ops + more)[i] == ops[i];
  }

  /** Once a user has no live token and an unlocked row, each later live token of that user was minted
      by an operation that was granted the row since. */
  lemma {:induction false} LiveTokensWereMintedUnderLaterLock(s: State, acts: seq<Action>, user: UserId)
    requires Inv(s) && Play(s, acts).Stepped?
    requires UserRow(user) !in s.locks && LiveTokensOf(s.rows, user) == {}
    ensures forall h :: h in LiveTokensOf(Play(s, acts).state.rows, user) ==>
              MintedByOneOf(h, TakeOrder(s, acts, UserRow(user)))
    decreases |acts|
  {
    if acts != [] {
      var prefix := acts[..|acts| - 1];
      var last := acts[|acts| - 1];
      LiveTokensWereMintedUnderLaterLock(s, prefix, user);
      OrdersGrow(s, acts, UserRow(user));
      LockOrderIsSerialOrder(s, prefix, UserRow(user));
      var before := Play(s, prefix).state;
      var taken := TakeOrder(s, prefix, UserRow(user));
      forall h | h in LiveTokensOf(Play(s, acts).state.rows, user)
        ensures MintedByOneOf(h, TakeOrder(s, acts, UserRow(user)))
      {
        NewLiveTokenIsOfHolder(before, last, user, h);
        if h !in LiveTokensOf(before.rows, user) {
          assert taken[|taken| - 1] == before.txs[last.t].op;
        }
        MintedByEarlier(h, taken, Taken(before, last, UserRow(user)));
      }
    }
  }

  /** After any revoke-all commits (suspension, deletion, role removal, session revocation, password
      reset), every live token of that user comes from an operation granted the user's row afterwards. */
  lemma RevokeAllSeparatesSessions(s: State, t: TxId, acts: seq<Action>, user: UserId)
    requires Inv(s) && t in s.txs && s.txs[t].pc.Ready? && SweptUser(s.txs[t].op, s.rows) == Some(user)
    requires Play(Next(s, Advance(t)).state, acts).Stepped?
    ensures var after := Next(s, Advance(t)).state;
            && LiveTokensOf(after.rows, user) == {}
            && Inv(after)
            && forall h :: h in LiveTokensOf(Play(after, acts).state.rows, user) ==>
                 MintedByOneOf(h, TakeOrder(after, acts, UserRow(user)))
  {
    CommitOfSweepEmptiesUser(s, t, user);
    LiveTokensWereMintedUnderLaterLock(Next(s, Advance(t)).state, acts, user);
  }

  lemma CommitOfSweepEmptiesUser(s: State, t: TxId, user: UserId)
    requires Inv(s) && t in s.txs && s.txs[t].pc.Ready? && SweptUser(s.txs[t].op, s.rows) == Some(user)
    ensures var next := Next(s, Advance(t));
            && next.Stepped? && Inv(next.state)
            && LiveTokensOf(next.state.rows, user) == {} && UserRow(user) !in next.state.locks
  {
    var tx := s.txs[t];
    ReadyCommits(s, t);
    StepKeepsInv(s, Advance(t));
    CommitIsAtomic(s.rows, s.locks, t, tx);
    SweepEmptiesUser(tx.op, s.rows);
    SweepHoldsUser(s.rows, s.locks, t, tx, user);
  }

  lemma ReadyCommits(s: State, t: TxId)
    requires t in s.txs && s.txs[t].pc.Ready?
    ensures Next(s, Advance(t))
            == Stepped(Ended(s, t, Merge(s.rows, s.txs[t].writes)), [Event(s.txs[t].op, Completed(s.txs[t].pc.answer))])
  {
  }

  lemma SweepHoldsUser(rows: Rows, locks: map<Row, TxId>, t: TxId, tx: Tx, user: UserId)
    requires TxOk(rows, locks, t, tx) && tx.pc.Ready? && SweptUser(tx.op, rows) == Some(user)
    ensures Holds(locks, t, UserRow(user))
  {
  }

  // ---------- logout ----------

  lemma PlayOneMore(s: State, acts: seq<Action>, act: Action)
    requires Play(s, acts).Stepped? && Next(Play(s, acts).state, act).Stepped?
    ensures var last := Next(Play(s, acts).state, act);
            Play(s, acts + [act]) == Stepped(last.state, Play(s, acts).events + last.events)
  {
    assert (acts + [act])[..|acts|] == acts;
  }

  lemma LogoutBegins(s: State, t: TxId, h: Hash, at: Time)
    requires t !in s.txs
    ensures Next(s, Begin(t, Logout(h, at))) == Stepped(s.(txs := s.txs[t := Tx(Logout(h, at), Begun, NO_WRITES)]), [])
  {
  }

  lemma LogoutReads(s: State, t: TxId, h: Hash, at: Time)
    requires t in s.txs && s.txs[t] == Tx(Logout(h, at), Begun, NO_WRITES) && Unrevoked(s.rows, h)
    ensures Next(s, Advance(t))
         == Stepped(s.(txs := s.txs[t := Tx(Logout(h, at), Seen(Some(s.rows.tokens[h].userId)), NO_WRITES)]), [])
  {
  }

  /** Two logouts have both read the token before either has updated it. */
  lemma LogoutsReadTogether(rows: Rows, h: Hash, at: Time, later: Time) returns (acts: seq<Action>)
    requires Unrevoked(rows, h)
    ensures var pc := Seen(Some(rows.tokens[h].userId));
            var txs := map[0 := Tx(Logout(h, at), pc, NO_WRITES), 1 := Tx(Logout(h, later), pc, NO_WRITES)];
            Play(Quiet(rows), acts) == Stepped(State(rows, txs, map[]), [])
  {
    var s := Quiet(rows);
    var first, second := Logout(h, at), Logout(h, later);
    var pc := Seen(Some(rows.tokens[h].userId));
    LogoutBegins(s, 0, h, at);
    PlayOneMore(s, [], Begin(0, first));
    acts := [] + [Begin(0, first)];
    var s1 := State(rows, map[0 := Tx(first, Begun, NO_WRITES)], map[]);
    LogoutBegins(s1, 1, h, later);
    PlayOneMore(s, acts, Begin(1, second));
    acts := acts + [Begin(1, second)];
    var s2 := s1.(txs := s1.txs[1 := Tx(second, Begun, NO_WRITES)]);
    LogoutReads(s2, 0, h, at);
    PlayOneMore(s, acts, Advance(0));
    acts := acts + [Advance(0)];
    var s3 := s2.(txs := s2.txs[0 := Tx(first, pc, NO_WRITES)]);
    LogoutReads(s3, 1, h, later);
    PlayOneMore(s, acts, Advance(1));
    acts := acts + [Advance(1)];
    assert s3.txs[1 := Tx(second, pc, NO_WRITES)]
        == map[0 := Tx(first, pc, NO_WRITES), 1 := Tx(second, pc, NO_WRITES)];
  }

  /** A logout that finds the token unrevoked again ends with its next two steps. */
  lemma LogoutEnds(s: State, t: TxId, h: Hash, at: Time)
    requires t in s.txs && s.txs[t].op == Logout(h, at) && s.txs[t].pc.Seen? && s.txs[t].writes == NO_WRITES
    requires Unrevoked(s.rows, h) && TokenRow(h) !in s.locks
    ensures var one := Next(s, Advance(t));
            && one.Stepped? && one.events == []
            && var two := Next(one.state, Advance(t));
            && two.Stepped? && two.events == [Event(Logout(h, at), Completed(LoggedOut(s.txs[t].pc.user)))]
            && two.state.txs == s.txs - {t} && !Unrevoked(two.state.rows, h)
  {
    LogoutUpdates(s, t, h, at);
    var updated := Next(s, Advance(t)).state;
    ReadyCommits(updated, t);
    assert updated.txs - {t} == s.txs - {t};
  }

  /** Two overlapping logouts of one token both report its user, although only one of them revoked it. */
  lemma LogoutUserIdIsNoEvidence(rows: Rows, h: Hash, at: Time, later: Time)
    requires Unrevoked(rows, h)
    ensures var answer := Completed(LoggedOut(Some(rows.tokens[h].userId)));
            exists acts :: Play(Quiet(rows), acts).Stepped?
              && Play(Quiet(rows), acts).events == [Event(Logout(h, at), answer), Event(Logout(h, later), answer)]
  {
    var s := Quiet(rows);
    var acts := LogoutsReadTogether(rows, h, at, later);
    var ready := Play(s, acts).state;
    LogoutEnds(ready, 0, h, at);
    PlayOneMore(s, acts, Advance(0));
    var updated := Next(ready, Advance(0)).state;
    PlayOneMore(s, acts + [Advance(0)], Advance(0));
    LateLogoutFinishes(Next(updated, Advance(0)).state, 1, h, later);
    PlayOneMore(s, acts + [Advance(0)] + [Advance(0)], Advance(1));
  }

  /** The update of a logout locks the token it is about to revoke. */
  lemma LogoutUpdates(s: State, t: TxId, h: Hash, at: Time)
    requires t in s.txs && s.txs[t].op == Logout(h, at) && s.txs[t].pc.Seen? && s.txs[t].writes == NO_WRITES
    requires Unrevoked(s.rows, h) && TokenRow(h) !in s.locks
    ensures var writes := NO_WRITES.(tokens := map[h := Revoke(s.rows.tokens[h], at)]);
            Next(s, Advance(t)) == Stepped(
              State(s.rows, s.txs[t := Tx(Logout(h, at), Ready(LoggedOut(s.txs[t].pc.user)), writes)],
                    s.locks[TokenRow(h) := t]), [])
  {
  }

  /** A logout that finds the token revoked still answers with the user it read. */
  lemma LateLogoutFinishes(s: State, t: TxId, h: Hash, at: Time)
    requires t in s.txs && s.txs[t].op == Logout(h, at) && s.txs[t].pc.Seen? && !Unrevoked(s.rows, h)
    ensures Next(s, Advance(t))
            == Stepped(Ended(s, t, s.rows), [Event(Logout(h, at), Completed(LoggedOut(s.txs[t].pc.user)))])
  {
  }
}
