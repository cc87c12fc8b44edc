/** Row locks are taken in one order: a role or reset row first, then the user row, then token rows. Requests
    therefore never wait for each other in a circle; only cleanups, which lock token rows in any order, can. */
module LedgerProgress {
  import opened Wrappers
  import opened RefreshLedger
  import opened LedgerTransactions
  import opened LedgerRuns

  // ---------- which locks a transaction can have ----------

  predicate IsPastUserLock(pc: Pc) {
    pc.Locked? || pc.Spent? || pc.Sweeping? || pc.Ready?
  }

  /** A transaction at this point may hold the lock of `row`. */
  predicate LockFits(tx: Tx, row: Row) {
    match row
    case RoleRow(_) => tx.op.AssignRole? && (tx.pc.Named? || tx.pc.Ready?)
    case UserRoleRow(_, _) =>
      || (tx.op.RemoveRole? && (tx.pc.Claimed? || IsPastUserLock(tx.pc)))
      || (tx.op.AssignRole? && tx.pc.Ready?)
    case ResetRow(_) => tx.op.ResetPassword? && (tx.pc.Claimed? || IsPastUserLock(tx.pc))
    case UserRow(_) => IsPastUserLock(tx.pc)
    case TokenRow(h) =>
      tx.pc.Spent? || tx.pc.Ready? || tx.pc.Purging? || (tx.pc.Sweeping? && h in tx.writes.tokens)
  }

  ghost predicate LocksFit(s: State) {
    forall r :: r in s.locks && s.locks[r] in s.txs ==> LockFits(s.txs[s.locks[r]], r)
  }

  /** Whatever lock `t` may hold before the move it may hold afterwards, and the new one as well. */
  ghost predicate MoveFits(rows: Rows, locks: map<Row, TxId>, t: TxId, tx: Tx) {
    var move := Statement(rows, locks, t, tx);
    move.Continue? ==>
      && (forall r :: LockFits(tx, r) ==> LockFits(move.tx, r))
      && (move.row.Some? ==> LockFits(move.tx, move.row.value))
  }

  lemma EarlyMoveFits(rows: Rows, locks: map<Row, TxId>, t: TxId, tx: Tx)
    requires TxOk(rows, locks, t, tx) && (tx.pc.Begun? || tx.pc.Found? || tx.pc.Seen? || tx.pc.Named?)
    ensures MoveFits(rows, locks, t, tx)
  {
  }

  lemma LateMoveFits(rows: Rows, locks: map<Row, TxId>, t: TxId, tx: Tx)
    requires TxOk(rows, locks, t, tx) && !(tx.pc.Begun? || tx.pc.Found? || tx.pc.Seen? || tx.pc.Named?)
    ensures MoveFits(rows, locks, t, tx)
  {
  }

  lemma AdvanceKeepsFit(s: State, t: TxId)
    requires Inv(s) && LocksFit(s) && Next(s, Advance(t)).Stepped?
    ensures LocksFit(Next(s, Advance(t)).state)
  {
    var tx := s.txs[t];
    if tx.pc.Begun? || tx.pc.Found? || tx.pc.Seen? || tx.pc.Named? {
      EarlyMoveFits(s.rows, s.locks, t, tx);
    } else {
      LateMoveFits(s.rows, s.locks, t, tx);
    }
    AfterKeepsFit(s, t, Statement(s.rows, s.locks, t, tx));
  }

  lemma AfterKeepsFit(s: State, t: TxId, move: Move)
    requires LocksFit(s) && t in s.txs && After(s, t, move).Stepped?
    requires move.Continue? ==>
               && (forall r :: LockFits(s.txs[t], r) ==> LockFits(move.tx, r))
               && (move.row.Some? ==> LockFits(move.tx, move.row.value))
    ensures LocksFit(After(s, t, move).state)
  {
  }

  lemma StepKeepsFit(s: State, act: Action)
    requires Inv(s) && LocksFit(s) && Next(s, act).Stepped?
    ensures LocksFit(Next(s, act).state)
  {
    match act
    case Begin(_, _) =>
    case Abort(t) => AfterKeepsFit(s, t, Finish(Issued));
    case Advance(t) => AdvanceKeepsFit(s, t);
    case Sweep(t, h) => SweepKeepsFit(s, t, h);
    case Purge(t, h) => PurgeKeepsFit(s, t, h);
  }

  lemma SweepKeepsFit(s: State, t: TxId, h: Hash)
    requires LocksFit(s) && Next(s, Sweep(t, h)).Stepped?
    ensures LocksFit(Next(s, Sweep(t, h)).state)
  {
    VisitKeepsFit(s, t, h, Next(s, Sweep(t, h)).state);
  }

  lemma PurgeKeepsFit(s: State, t: TxId, h: Hash)
    requires LocksFit(s) && Next(s, Purge(t, h)).Stepped?
    ensures LocksFit(Next(s, Purge(t, h)).state)
  {
    VisitKeepsFit(s, t, h, Next(s, Purge(t, h)).state);
  }

  lemma VisitKeepsFit(s: State, t: TxId, h: Hash, next: State)
    requires LocksFit(s) && t in s.txs && t in next.txs && next.txs == s.txs[t := next.txs[t]]
    requires next.locks == s.locks || (next.locks == s.locks[TokenRow(h) := t] && LockFits(next.txs[t], TokenRow(h)))
    requires next.txs[t].op == s.txs[t].op && s.txs[t].writes.tokens.Keys <= next.txs[t].writes.tokens.Keys
    requires s.txs[t].pc.Sweeping? == next.txs[t].pc.Sweeping? && s.txs[t].pc.Purging? == next.txs[t].pc.Purging?
    requires s.txs[t].pc.Sweeping? || s.txs[t].pc.Purging?
    ensures LocksFit(next)
  {
  }

  // ---------- nobody is stuck ----------

  /** No cleanup is in flight. */
  ghost predicate OnlyRequests(s: State) {
    forall t :: t in s.txs ==> !s.txs[t].op.Cleanup?
  }

  predicate CanStep(s: State, act: Action) {
    (act.Advance? || act.Sweep?) && Next(s, act).Stepped?
  }

  /** How close a transaction is to its end. */
  function Rank(pc: Pc): nat {
    match pc
    case Begun => 6
    case Found(_) => 5
    case Seen(_) => 5
    case Named => 5
    case Claimed(_) => 4
    case Locked(_) => 3
    case Sweeping(_, _) => 2
    case Purging(_) => 2
    case Spent(_) => 1
    case Ready(_) => 0
  }

  /** No transaction is closer to its end than `t`. */
  ghost predicate IsForemost(s: State, t: TxId) {
    t in s.txs && forall u :: u in s.txs ==> Rank(s.txs[t].pc) <= Rank(s.txs[u].pc)
  }

  lemma {:induction false} SomeoneIsForemost(s: State, among: set<TxId>) returns (t: TxId)
    requires among != {} && among <= s.txs.Keys
    ensures t in among && forall u :: u in among ==> Rank(s.txs[t].pc) <= Rank(s.txs[u].pc)
    decreases |among|
  {
    t :| t in among;
    if among != {t} {
      var u := SomeoneIsForemost(s, among - {t});
      if Rank(s.txs[u].pc) < Rank(s.txs[t].pc) {
        t := u;
      }
    }
  }

  /** A sweep of another transaction has locked the tokens of its own user only. */
  lemma SweepersHoldOwnTokens(s: State, u: TxId, h: Hash)
    requires Inv(s) && LocksFit(s) && u in s.txs && s.txs[u].pc.Sweeping? && Holds(s.locks, u, TokenRow(h))
    ensures h in s.rows.tokens && Holds(s.locks, u, UserRow(s.rows.tokens[h].userId))
  {
    assert LockFits(s.txs[u], TokenRow(h));
    assert TxOk(s.rows, s.locks, u, s.txs[u]);
  }

  /** Nobody can have locked a token row that the foremost transaction wants, because its holder, a sweep at the same
      point, would have locked the same user. */
  lemma TokenRowIsFree(s: State, t: TxId, h: Hash)
    requires Inv(s) && LocksFit(s) && OnlyRequests(s) && IsForemost(s, t) && h in s.rows.tokens
    requires !s.txs[t].pc.Ready? && !s.txs[t].pc.Spent?
    requires s.txs[t].pc.Sweeping? || s.txs[t].pc.Locked? ==> Holds(s.locks, t, UserRow(s.rows.tokens[h].userId))
    ensures Free(s.locks, t, TokenRow(h))
  {
    if !Free(s.locks, t, TokenRow(h)) {
      var u := s.locks[TokenRow(h)];
      assert LockFits(s.txs[u], TokenRow(h));
      assert TxOk(s.rows, s.locks, u, s.txs[u]);
      assert Rank(s.txs[t].pc) <= Rank(s.txs[u].pc);
      if s.txs[u].pc.Sweeping? {
        SweepersHoldOwnTokens(s, u, h);
      }
    }
  }

  /** The latest point at which a transaction takes the lock of a row of this kind, as a rank. */
  function TakenBy(row: Row): nat {
    match row
    case RoleRow(_) => 5
    case UserRoleRow(_, _) => 4
    case ResetRow(_) => 4
    case UserRow(_) => 3
    case TokenRow(_) => 2
  }

  lemma HolderRanks(s: State, row: Row)
    requires Inv(s) && LocksFit(s) && row in s.locks
    ensures s.locks[row] in s.txs && Rank(s.txs[s.locks[row]].pc) <= TakenBy(row)
  {
    assert LockFits(s.txs[s.locks[row]], row);
  }

  lemma OtherRowIsFree(s: State, t: TxId, row: Row)
    requires Inv(s) && LocksFit(s) && IsForemost(s, t) && Rank(s.txs[t].pc) > TakenBy(row)
    ensures Free(s.locks, t, row)
  {
    if row in s.locks {
      HolderRanks(s, row);
    }
  }

  lemma VisitCanStep(s: State, t: TxId, h: Hash)
    requires Inv(s) && LocksFit(s) && OnlyRequests(s) && IsForemost(s, t)
    requires s.txs[t].pc.Sweeping? && h in s.txs[t].pc.remaining
    ensures CanStep(s, Sweep(t, h))
  {
    if Unrevoked(s.rows, h) {
      SweepVisitsOwnTokens(s.rows, s.locks, t, s.txs[t], h);
      TokenRowIsFree(s, t, h);
    }
  }

  lemma SweepVisitsOwnTokens(rows: Rows, locks: map<Row, TxId>, t: TxId, tx: Tx, h: Hash)
    requires TxOk(rows, locks, t, tx) && tx.pc.Sweeping? && h in tx.pc.remaining && h in rows.tokens
    ensures Holds(locks, t, UserRow(rows.tokens[h].userId))
  {
  }

  lemma SweeperCanStep(s: State, t: TxId) returns (act: Action)
    requires Inv(s) && LocksFit(s) && OnlyRequests(s) && IsForemost(s, t) && s.txs[t].pc.Sweeping?
    ensures act.t == t && CanStep(s, act)
  {
    if s.txs[t].pc.remaining == {} {
      act := Advance(t);
    } else {
      var h :| h in s.txs[t].pc.remaining;
      act := Sweep(t, h);
      VisitCanStep(s, t, h);
    }
  }

  lemma LockedCanStep(s: State, t: TxId)
    requires Inv(s) && LocksFit(s) && OnlyRequests(s) && IsForemost(s, t) && s.txs[t].pc.Locked?
    ensures CanStep(s, Advance(t))
  {
    var tx := s.txs[t];
    assert TxOk(s.rows, s.locks, t, tx);
    if tx.op.Rotate? && tx.op.hash in s.rows.tokens {
      TokenRowIsFree(s, t, tx.op.hash);
    }
  }

  lemma ClaimedCanStep(s: State, t: TxId)
    requires Inv(s) && LocksFit(s) && IsForemost(s, t) && s.txs[t].pc.Claimed?
    ensures CanStep(s, Advance(t))
  {
    OtherRowIsFree(s, t, UserRow(s.txs[t].pc.owner));
  }

  lemma ReaderCanStep(s: State, t: TxId)
    requires Inv(s) && LocksFit(s) && OnlyRequests(s) && IsForemost(s, t)
    requires s.txs[t].pc.Found? || s.txs[t].pc.Seen? || s.txs[t].pc.Named?
    ensures CanStep(s, Advance(t))
  {
    var tx := s.txs[t];
    assert TxOk(s.rows, s.locks, t, tx);
    match tx.pc
    case Found(owner) =>
      OtherRowIsFree(s, t, if tx.op.Rotate? then UserRow(owner) else ResetRow(tx.op.reset));
    case Seen(_) =>
      if tx.op.hash in s.rows.tokens {
        TokenRowIsFree(s, t, tx.op.hash);
      }
    case Named =>
      OtherRowIsFree(s, t, UserRoleRow(tx.op.user, tx.op.role));
    case _ =>
  }

  lemma BeginnerCanStep(s: State, t: TxId)
    requires Inv(s) && LocksFit(s) && OnlyRequests(s) && IsForemost(s, t) && s.txs[t].pc.Begun?
    ensures CanStep(s, Advance(t))
  {
    match s.txs[t].op
    case Issue(user, _, _, _) => OtherRowIsFree(s, t, UserRow(user));
    case SetStatus(user, _, _) => OtherRowIsFree(s, t, UserRow(user));
    case RevokeSessions(user, _) => OtherRowIsFree(s, t, UserRow(user));
    case AssignRole(_, role) => OtherRowIsFree(s, t, RoleRow(role));
    case RemoveRole(user, role, _) => OtherRowIsFree(s, t, UserRoleRow(user, role));
    case _ =>
  }

  lemma EndingCanStep(s: State, t: TxId)
    requires Inv(s) && t in s.txs && (s.txs[t].pc.Spent? || s.txs[t].pc.Ready?)
    ensures CanStep(s, Advance(t))
  {
    assert TxOk(s.rows, s.locks, t, s.txs[t]);
  }

  /** The next statement or row visit of the foremost request is not blocked. */
  lemma ForemostCanStep(s: State, t: TxId) returns (act: Action)
    requires Inv(s) && LocksFit(s) && OnlyRequests(s) && IsForemost(s, t)
    ensures act.t == t && CanStep(s, act)
  {
    act := Advance(t);
    match s.txs[t].pc
    case Begun => BeginnerCanStep(s, t);
    case Claimed(_) => ClaimedCanStep(s, t);
    case Locked(_) => LockedCanStep(s, t);
    case Sweeping(_, _) => act := SweeperCanStep(s, t);
    case Purging(_) => assert TxOk(s.rows, s.locks, t, s.txs[t]);
    case Spent(_) => EndingCanStep(s, t);
    case Ready(_) => EndingCanStep(s, t);
    case _ => ReaderCanStep(s, t);
  }

  lemma {:induction false} ReachableLocksFit(rows: Rows, acts: seq<Action>)
    requires Play(Quiet(rows), acts).Stepped?
    ensures var s := Play(Quiet(rows), acts).state; Inv(s) && LocksFit(s)
    decreases |acts|
  {
    InterleavingsAreSerial(Quiet(rows), acts);
    if acts != [] {
      var prefix := acts[..|acts| - 1];
      ReachableLocksFit(rows, prefix);
      StepKeepsFit(Play(Quiet(rows), prefix).state, acts[|acts| - 1]);
    }
  }

  /** In every state the system can reach, requests that are in flight without a cleanup are not deadlocked: one of
      them has a next statement or row visit that is not blocked. */
  lemma RequestsNeverDeadlock(rows: Rows, acts: seq<Action>) returns (act: Action)
    requires Play(Quiet(rows), acts).Stepped?
    requires var s := Play(Quiet(rows), acts).state; OnlyRequests(s) && s.txs != map[]
    ensures var s := Play(Quiet(rows), acts).state; act.t in s.txs && CanStep(s, act)
  {
    ReachableLocksFit(rows, acts);
    var s := Play(Quiet(rows), acts).state;
    assert s.txs.Keys != {};
    var t := SomeoneIsForemost(s, s.txs.Keys);
    act := ForemostCanStep(s, t);
  }

  // ---------- everybody can finish ----------

  /** Statements and row visits only: nobody new, and nobody gives up. */
  predicate IsProgress(acts: seq<Action>) {
    forall i :: 0 <= i < |acts| ==> acts[i].Advance? || acts[i].Sweep?
  }

  lemma {:induction false} PlayBoth(s: State, first: seq<Action>, second: seq<Action>)
    requires Play(s, first).Stepped? && Play(Play(s, first).state, second).Stepped?
    ensures Play(s, first + second).Stepped?
    ensures Play(s, first + second).state == Play(Play(s, first).state, second).state
    decreases |second|
  {
    if second == [] {
      assert first + second == first;
    } else {
      var prefix := second[..|second| - 1];
      PlayBoth(s, first, prefix);
      assert (first + second)[..|first + second| - 1] == first + prefix;
    }
  }

  lemma PlayOne(s: State, act: Action)
    requires Next(s, act).Stepped?
    ensures Play(s, [act]) == Stepped(Next(s, act).state, Next(s, act).events)
  {
    assert [act][..0] == [];
    assert [] + Next(s, act).events == Next(s, act).events;
  }

  lemma PlayThen(s: State, act: Action, rest: seq<Action>)
    requires Next(s, act).Stepped? && Play(Next(s, act).state, rest).Stepped?
    ensures Play(s, [act] + rest).Stepped?
    ensures Play(s, [act] + rest).state == Play(Next(s, act).state, rest).state
  {
    PlayOne(s, act);
    PlayBoth(s, [act], rest);
  }

  function Remaining(pc: Pc): set<Hash> {
    if pc.Sweeping? then pc.remaining else {}
  }

  /** The step ends `t` or brings it closer to its end, and leaves all others where they are. */
  ghost predicate MovesOn(s: State, t: TxId, next: State)
    requires t in s.txs
  {
    || next.txs == s.txs - {t}
    || (&& t in next.txs && next.txs == s.txs[t := next.txs[t]] && next.txs[t].op == s.txs[t].op
        && (|| Rank(next.txs[t].pc) < Rank(s.txs[t].pc)
            || (Rank(next.txs[t].pc) == Rank(s.txs[t].pc)
                && Remaining(next.txs[t].pc) < Remaining(s.txs[t].pc))))
  }

  lemma StatementMovesOn(rows: Rows, locks: map<Row, TxId>, t: TxId, tx: Tx)
    requires Statement(rows, locks, t, tx).Continue?
    ensures Rank(Statement(rows, locks, t, tx).tx.pc) < Rank(tx.pc)
  {
  }

  lemma StepMovesOn(s: State, act: Action)
    requires CanStep(s, act)
    ensures act.t in s.txs && MovesOn(s, act.t, Next(s, act).state)
  {
    if act.Advance? {
      var move := Statement(s.rows, s.locks, act.t, s.txs[act.t]);
      if move.Continue? {
        StatementMovesOn(s.rows, s.locks, act.t, s.txs[act.t]);
        StatementIsOfSameOp(s.rows, s.locks, act.t, s.txs[act.t]);
      }
    }
  }

  /** The foremost request takes a step and stays foremost until it has ended. */
  lemma ForemostMovesOn(s: State, t: TxId) returns (act: Action)
    requires Inv(s) && LocksFit(s) && OnlyRequests(s) && IsForemost(s, t)
    ensures CanStep(s, act) && MovesOn(s, t, Next(s, act).state)
    ensures var next := Next(s, act).state;
            Inv(next) && LocksFit(next) && OnlyRequests(next) && (t in next.txs ==> IsForemost(next, t))
  {
    act := ForemostCanStep(s, t);
    StepMovesOn(s, act);
    StepKeepsInv(s, act);
    StepKeepsFit(s, act);
  }

  /** The foremost request can run to its end while all others wait. */
  lemma {:induction false} ForemostCanFinish(s: State, t: TxId) returns (acts: seq<Action>)
    requires Inv(s) && LocksFit(s) && OnlyRequests(s) && IsForemost(s, t)
    ensures IsProgress(acts) && Play(s, acts).Stepped?
    ensures var end := Play(s, acts).state; Inv(end) && LocksFit(end) && end.txs == s.txs - {t}
    decreases Rank(s.txs[t].pc), Remaining(s.txs[t].pc)
  {
    var act := ForemostMovesOn(s, t);
    var next := Next(s, act).state;
    var rest := [];
    if t in next.txs {
      rest := ForemostCanFinish(next, t);
      assert next.txs - {t} == s.txs - {t};
    }
    PlayThen(s, act, rest);
    acts := [act] + rest;
  }

  lemma {:induction false} AllCanFinish(s: State) returns (acts: seq<Action>)
    requires Inv(s) && LocksFit(s) && OnlyRequests(s)
    ensures IsProgress(acts) && Play(s, acts).Stepped? && Play(s, acts).state == Quiet(Play(s, acts).state.rows)
    decreases |s.txs|
  {
    if s.txs == map[] {
      assert s.locks == map[];
      acts := [];
    } else {
      assert s.txs.Keys != {};
      var t := SomeoneIsForemost(s, s.txs.Keys);
      var first := ForemostCanFinish(s, t);
      var next := Play(s, first).state;
      FewerAreLeft(s.txs, t);
      var rest := AllCanFinish(next);
      PlayBoth(s, first, rest);
      acts := first + rest;
    }
  }

  lemma FewerAreLeft(txs: map<TxId, Tx>, t: TxId)
    requires t in txs
    ensures |txs - {t}| < |txs|
  {
    assert (txs - {t}).Keys == txs.Keys - {t};
    assert |txs.Keys - {t}| == |txs.Keys| - 1;
  }

  /** From every reachable state without a cleanup in flight the requests in flight can all end, without an abort and
      without anyone new. */
  lemma RequestsCanFinish(rows: Rows, acts: seq<Action>) returns (more: seq<Action>)
    requires Play(Quiet(rows), acts).Stepped? && OnlyRequests(Play(Quiet(rows), acts).state)
    ensures IsProgress(more) && Play(Quiet(rows), acts + more).Stepped?
    ensures var end := Play(Quiet(rows), acts + more).state; end == Quiet(end.rows)
  {
    ReachableLocksFit(rows, acts);
    more := AllCanFinish(Play(Quiet(rows), acts).state);
    PlayBoth(Quiet(rows), acts, more);
  }

  // ---------- cleanups are the exception ----------

  /** Two cleanups at the same time, each of which has locked one of the two rows and wants the other. */
  function Crossed(rows: Rows, cutoff: Time, a: Hash, b: Hash): State {
    var op := Cleanup(cutoff, {a, b});
    State(rows, map[0 := Tx(op, Purging({b}), NO_WRITES.(deletedTokens := {a})),
                    1 := Tx(op, Purging({a}), NO_WRITES.(deletedTokens := {b}))],
          map[TokenRow(a) := 0, TokenRow(b) := 1])
  }

  lemma CleanupBegins(s: State, t: TxId, op: Op)
    requires t !in s.txs && op.Cleanup? && op.candidates == EligibleTokens(s.rows, op.cutoff)
    ensures var begun := s.(txs := s.txs[t := Tx(op, Begun, NO_WRITES)]);
            && Next(s, Begin(t, op)) == Stepped(begun, [])
            && Next(begun, Advance(t))
               == Stepped(s.(txs := s.txs[t := Tx(op, Purging(op.candidates), NO_WRITES)]), [])
  {
    var begun := s.(txs := s.txs[t := Tx(op, Begun, NO_WRITES)]);
    assert begun.txs[t := Tx(op, Purging(op.candidates), NO_WRITES)]
           == s.txs[t := Tx(op, Purging(op.candidates), NO_WRITES)];
  }

  /** Both cleanups have found the two rows and locked none yet. */
  function BothFound(rows: Rows, cutoff: Time, a: Hash, b: Hash): State {
    var tx := Tx(Cleanup(cutoff, {a, b}), Purging({a, b}), NO_WRITES);
    State(rows, map[0 := tx, 1 := tx], map[])
  }

  lemma CleanupsStartTogether(rows: Rows, cutoff: Time, a: Hash, b: Hash) returns (acts: seq<Action>)
    requires EligibleTokens(rows, cutoff) == {a, b}
    ensures Play(Quiet(rows), acts).Stepped? && Play(Quiet(rows), acts).state == BothFound(rows, cutoff, a, b)
  {
    var op, s0 := Cleanup(cutoff, {a, b}), Quiet(rows);
    CleanupBegins(s0, 0, op);
    PlayTwo(s0, Begin(0, op), Advance(0));
    var s1 := Play(s0, [Begin(0, op), Advance(0)]).state;
    CleanupBegins(s1, 1, op);
    PlayTwo(s1, Begin(1, op), Advance(1));
    PlayBoth(s0, [Begin(0, op), Advance(0)], [Begin(1, op), Advance(1)]);
    acts := [Begin(0, op), Advance(0)] + [Begin(1, op), Advance(1)];
    assert Play(s1, [Begin(1, op), Advance(1)]).state.txs == BothFound(rows, cutoff, a, b).txs;
  }

  /** Two cleanups that both find the same two rows can deadlock: the code deletes in no particular order. */
  lemma CleanupsCanDeadlock(rows: Rows, cutoff: Time, a: Hash, b: Hash) returns (acts: seq<Action>)
    requires a != b && EligibleTokens(rows, cutoff) == {a, b}
    ensures Play(Quiet(rows), acts).Stepped?
    ensures var s := Play(Quiet(rows), acts).state;
            && s == Crossed(rows, cutoff, a, b)
            && forall act: Action :: act.Advance? || act.Sweep? || act.Purge? ==> Next(s, act).Stuck?
  {
    var begun := CleanupsStartTogether(rows, cutoff, a, b);
    assert a in EligibleTokens(rows, cutoff) && b in EligibleTokens(rows, cutoff);
    VisitsCross(rows, cutoff, a, b);
    PlayTwo(BothFound(rows, cutoff, a, b), Purge(0, a), Purge(1, b));
    PlayBoth(Quiet(rows), begun, [Purge(0, a), Purge(1, b)]);
    acts := begun + [Purge(0, a), Purge(1, b)];
    CrossedIsStuck(rows, cutoff, a, b);
  }

  lemma CrossedIsStuck(rows: Rows, cutoff: Time, a: Hash, b: Hash)
    requires a != b && a in rows.tokens && b in rows.tokens
    ensures forall act: Action :: act.Advance? || act.Sweep? || act.Purge? ==>
              Next(Crossed(rows, cutoff, a, b), act).Stuck?
  {
  }

  lemma PlayTwo(s: State, first: Action, second: Action)
    requires Next(s, first).Stepped? && Next(Next(s, first).state, second).Stepped?
    ensures Play(s, [first, second]).Stepped?
    ensures Play(s, [first, second]).state == Next(Next(s, first).state, second).state
  {
    PlayOne(s, first);
    PlayOne(Next(s, first).state, second);
    PlayBoth(s, [first], [second]);
    assert [first] + [second] == [first, second];
  }

  lemma VisitsCross(rows: Rows, cutoff: Time, a: Hash, b: Hash)
    requires a != b && a in rows.tokens && b in rows.tokens
    ensures var one := Next(BothFound(rows, cutoff, a, b), Purge(0, a));
            && one.Stepped? && Next(one.state, Purge(1, b)).Stepped?
            && Next(one.state, Purge(1, b)).state == Crossed(rows, cutoff, a, b)
  {
    assert {a, b} - {a} == {b} && {a, b} - {b} == {a};
    assert {} + {a} == {a} && {} + {b} == {b};
    var crossed := Next(Next(BothFound(rows, cutoff, a, b), Purge(0, a)).state, Purge(1, b)).state;
    assert crossed.txs == Crossed(rows, cutoff, a, b).txs;
    assert crossed.locks == Crossed(rows, cutoff, a, b).locks;
  }
}
