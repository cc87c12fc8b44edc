/** A logout reads the token's user in one statement and revokes the token in the next. Its answer is the
    atomic one exactly when the token was as revoked at the end as it was at the read. */
module LogoutAnswers {
  import opened Wrappers
  import opened RefreshLedger
  import opened LedgerTransactions
  import opened LedgerRuns
  import opened TokenChains

  /** What the first statement of a logout finds. */
  function SeenUser(rows: Rows, h: Hash): Option<UserId> {
    if Unrevoked(rows, h) then Some(rows.tokens[h].userId) else None
  }

  /** `t` is a logout that has read the token in this state and done nothing since. */
  predicate HasJustRead(s: State, t: TxId) {
    && t in s.txs && s.txs[t].op.Logout?
    && s.txs[t] == Tx(s.txs[t].op, Seen(SeenUser(s.rows, s.txs[t].op.hash)), NO_WRITES)
  }

  /** `t` has not ended at any point of the run. */
  ghost predicate StaysInFlight(s: State, acts: seq<Action>, t: TxId)
    requires Play(s, acts).Stepped?
    decreases |acts|
  {
    t in Play(s, acts).state.txs && (acts != [] ==> StaysInFlight(s, acts[..|acts| - 1], t))
  }

  /** A logout that still is where its read left it, or has only its COMMIT left. */
  predicate WillReport(s: State, t: TxId, op: Op, user: Option<UserId>) {
    && t in s.txs && s.txs[t].op == op && op.Logout?
    && (s.txs[t].pc == Seen(user) || s.txs[t].pc == Ready(LoggedOut(user)))
  }

  lemma StepKeepsReport(s: State, act: Action, t: TxId, op: Op, user: Option<UserId>)
    requires WillReport(s, t, op, user) && Next(s, act).Stepped? && t in Next(s, act).state.txs
    ensures WillReport(Next(s, act).state, t, op, user)
  {
  }

  lemma {:induction false} RunKeepsReport(s: State, acts: seq<Action>, t: TxId, op: Op, user: Option<UserId>)
    requires WillReport(s, t, op, user) && Play(s, acts).Stepped? && StaysInFlight(s, acts, t)
    ensures WillReport(Play(s, acts).state, t, op, user)
    decreases |acts|
  {
    if acts != [] {
      var prefix := acts[..|acts| - 1];
      RunKeepsReport(s, prefix, t, op, user);
      StepKeepsReport(Play(s, prefix).state, acts[|acts| - 1], t, op, user);
    }
  }

  /** Rows only move forward along any run. */
  lemma RunsAdvance(s: State, acts: seq<Action>)
    requires Inv(s) && Play(s, acts).Stepped?
    ensures Inv(Play(s, acts).state) && Advances(s.rows, Play(s, acts).state.rows)
  {
    InterleavingsAreSerial(s, acts);
    var events := Play(s, acts).events;
    RevocationsAreFinal(s.rows, events, 0, |events|);
    assert events[..0] == [] && events[..|events|] == events;
  }

  lemma SeenUserIsExact(before: Rows, after: Rows, h: Hash, at: Time)
    requires Advances(before, after)
    ensures LoggedOut(SeenUser(before, h)) == Apply(Logout(h, at), after).answer
            <==> (Unrevoked(before, h) <==> Unrevoked(after, h))
  {
    if Unrevoked(before, h) {
      assert h in Ever(before);
    }
  }

  lemma ReportIsGiven(s: State, t: TxId, op: Op, user: Option<UserId>)
    requires WillReport(s, t, op, user) && Next(s, Advance(t)).Stepped? && Next(s, Advance(t)).events != []
    ensures Next(s, Advance(t)).events == [Event(op, Completed(LoggedOut(user)))]
  {
  }

  /** Whatever happens between its read and its end, a logout gives the answer it would give alone at its
      place in the serial order exactly when the token is unrevoked at both moments or at neither. */
  lemma LogoutAnswersExactly(read: State, acts: seq<Action>, t: TxId)
    requires Inv(read) && HasJustRead(read, t)
    requires Play(read, acts).Stepped? && StaysInFlight(read, acts, t)
    requires var last := Next(Play(read, acts).state, Advance(t)); last.Stepped? && last.events != []
    ensures var op, s := read.txs[t].op, Play(read, acts).state;
            var user := SeenUser(read.rows, op.hash);
            && Next(s, Advance(t)).events == [Event(op, Completed(LoggedOut(user)))]
            && (LoggedOut(user) == Apply(op, s.rows).answer
                <==> (Unrevoked(read.rows, op.hash) <==> Unrevoked(s.rows, op.hash)))
  {
    var op, s := read.txs[t].op, Play(read, acts).state;
    RunKeepsReport(read, acts, t, op, SeenUser(read.rows, op.hash));
    RunsAdvance(read, acts);
    SeenUserIsExact(read.rows, s.rows, op.hash, op.at);
    ReportIsGiven(s, t, op, SeenUser(read.rows, op.hash));
  }

  /** A logout that finds the token unrevoked at its read, and no one else revokes or deletes it before the
      logout ends, reports the user whose token it revoked itself. */
  lemma UndisputedLogoutReportsItsRevocation(read: State, acts: seq<Action>, t: TxId)
    requires Inv(read) && HasJustRead(read, t)
    requires Play(read, acts).Stepped? && StaysInFlight(read, acts, t)
    requires var last := Next(Play(read, acts).state, Advance(t)); last.Stepped? && last.events != []
    requires Unrevoked(read.rows, read.txs[t].op.hash)
    requires Unrevoked(Play(read, acts).state.rows, read.txs[t].op.hash)
    ensures var op, last := read.txs[t].op, Next(Play(read, acts).state, Advance(t));
            && op.hash in last.state.rows.tokens
            && last.state.rows.tokens[op.hash].revokedAt == Some(op.at)
            && last.events == [Event(op, Completed(LoggedOut(Some(last.state.rows.tokens[op.hash].userId))))]
  {
    var op, s := read.txs[t].op, Play(read, acts).state;
    var user := SeenUser(read.rows, op.hash);
    RunKeepsReport(read, acts, t, op, user);
    ReportIsGiven(s, t, op, user);
    RunsAdvance(read, acts);
    SeenUserIsExact(read.rows, s.rows, op.hash, op.at);
    CommitRevokes(s, t, op, user);
  }

  lemma CommitRevokes(s: State, t: TxId, op: Op, user: Option<UserId>)
    requires Inv(s) && WillReport(s, t, op, user) && Unrevoked(s.rows, op.hash)
    requires Next(s, Advance(t)).Stepped? && Next(s, Advance(t)).events != []
    ensures var after := Next(s, Advance(t)).state.rows;
            op.hash in after.tokens && after.tokens[op.hash] == Revoke(s.rows.tokens[op.hash], op.at)
  {
    UnrevokedIsNotFinished(s, t, op, user);
    ReadyCommits(s, t);
    assert TxOk(s.rows, s.locks, t, s.txs[t]);
  }

  /** While the token is unrevoked the update of a logout does not end it. */
  lemma UnrevokedIsNotFinished(s: State, t: TxId, op: Op, user: Option<UserId>)
    requires WillReport(s, t, op, user) && Unrevoked(s.rows, op.hash)
    requires Next(s, Advance(t)).Stepped? && Next(s, Advance(t)).events != []
    ensures s.txs[t].pc == Ready(LoggedOut(user))
  {
  }
}
