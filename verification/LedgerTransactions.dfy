/** The same operations as PostgreSQL runs them: statements of many transactions interleave, each
    transaction keeps its writes to itself until it commits, and row locks are held until then.
    Every run is shown to be a one-at-a-time run of the atomic ledger. */
module LedgerTransactions {
  import opened Wrappers
  import opened RefreshLedger

  datatype Row =
    | UserRow(user: UserId)
    | TokenRow(hash: Hash)
    | ResetRow(reset: Hash)
    | RoleRow(name: RoleKey)
    | UserRoleRow(holder: UserId, role: RoleKey)

  /** The row versions a transaction has written and nobody else can see yet. */
  datatype Writes = Writes(
    users: map<UserId, Status>,
    tokens: map<Hash, Token>,
    deletedTokens: set<Hash>,
    roles: set<RoleKey>,
    userRoles: set<(UserId, RoleKey)>,
    deletedUserRoles: set<(UserId, RoleKey)>,
    resets: map<Hash, ResetToken>,
    credentials: map<UserId, Credential>)

  const NO_WRITES := Writes(map[], map[], {}, {}, {}, {}, map[], map[])

  function Merge(rows: Rows, w: Writes): Rows {
    rows.(users := rows.users + w.users,
          tokens := rows.tokens + w.tokens - w.deletedTokens,
          purged := rows.purged + Purged(rows.tokens, w.deletedTokens),
          roles := rows.roles + w.roles,
          userRoles := rows.userRoles + w.userRoles - w.deletedUserRoles,
          resets := rows.resets + w.resets,
          credentials := rows.credentials + w.credentials)
  }

  /** The statement a transaction will execute next. */
  datatype Pc =
    | Begun
    | Found(owner: UserId)                          // a plain read found the row; no lock yet
    | Seen(user: Option<UserId>)                    // logout has read the token
    | Named                                         // role assignment has found or inserted the role
    | Claimed(owner: UserId)                        // a role row or reset row is written; user not locked
    | Locked(owner: UserId)                         // the user row is locked
    | Spent(owner: UserId)                          // rotation has revoked the presented token
    | Sweeping(owner: UserId, remaining: set<Hash>) // revoke-all still has these candidate rows to visit
    | Purging(remaining: set<Hash>)                 // a cleanup still has these candidate rows to visit
    | Ready(answer: Answer)                         // only COMMIT is left

  datatype Tx = Tx(op: Op, pc: Pc, writes: Writes)

  type TxId = nat

  datatype State = State(rows: Rows, txs: map<TxId, Tx>, locks: map<Row, TxId>)

  /** `Advance` runs the next statement, or COMMIT; `Sweep` is one row visit of a revoke-all update and
      `Purge` one of a cleanup; `Abort` is a deadlock victim or a lost connection. */
  datatype Action =
    | Begin(t: TxId, op: Op)
    | Advance(t: TxId)
    | Sweep(t: TxId, hash: Hash)
    | Purge(t: TxId, hash: Hash)
    | Abort(t: TxId)

  datatype Outcome = Completed(answer: Answer) | RolledBack

  datatype Event = Event(op: Op, outcome: Outcome)

  /** What one statement does. A blocked statement does nothing until the lock it needs is free, and
      is then evaluated again on the committed rows. */
  datatype Move =
    | Blocked
    | Continue(tx: Tx, row: Option<Row>)  // go on, holding `row` as well
    | Finish(answer: Answer)              // end without any write
    | Commit(answer: Answer)

  predicate Free(locks: map<Row, TxId>, t: TxId, row: Row) {
    row in locks ==> locks[row] == t
  }

  predicate Holds(locks: map<Row, TxId>, t: TxId, row: Row) {
    row in locks && locks[row] == t
  }

  function Locking(locks: map<Row, TxId>, t: TxId, row: Row, tx: Tx): Move {
    if Free(locks, t, row) then Continue(tx, Some(row)) else Blocked
  }

  function Statement(rows: Rows, locks: map<Row, TxId>, t: TxId, tx: Tx): Move {
    var Tx(op, pc, w) := tx;
    match pc
    case Begun => FirstStatement(rows, locks, t, tx)
    case Found(owner) =>
      if op.Rotate? then
        if !IsActive(rows, owner) then Finish(RotateDenied)
        else Locking(locks, t, UserRow(owner), tx.(pc := Locked(owner)))
      else if op.ResetPassword? then
        if !Redeemable(rows, op.reset, op.now) then Finish(ResetRefused)
        else
          Locking(locks, t, ResetRow(op.reset),
                  tx.(pc := Claimed(owner),
                      writes := w.(resets := map[op.reset := rows.resets[op.reset].(usedAt := Some(op.now))])))
      else Blocked
    case Seen(user) =>
      if !op.Logout? then Blocked
      else if !Unrevoked(rows, op.hash) then Finish(LoggedOut(user))
      else
        Locking(locks, t, TokenRow(op.hash),
                tx.(pc := Ready(LoggedOut(user)),
                    writes := w.(tokens := map[op.hash := Revoke(rows.tokens[op.hash], op.at)])))
    case Named => if op.AssignRole? then Assignment(rows, locks, t, tx, op.user, op.role) else Blocked
    case Claimed(owner) =>
      if owner !in rows.users then
        Continue(tx.(pc := Ready(if op.RemoveRole? then RoleRemoval(true, true, 0) else ResetRefused)), None)
      else Locking(locks, t, UserRow(owner), tx.(pc := Locked(owner)))
    case Locked(owner) => StatementUnderUserLock(rows, locks, t, tx, owner)
    case Spent(owner) =>
      if !op.Rotate? then Blocked
      else
        Continue(tx.(pc := Ready(Rotated(owner)),
                     writes := w.(tokens := w.tokens[op.minted := Token(owner, op.audience, op.expiresAt, None)])),
                 None)
    case Sweeping(owner, remaining) =>
      if remaining != {} then Blocked
      else Continue(tx.(pc := Ready(SweepAnswer(op, owner, |w.tokens.Keys|))), None)
    case Purging(remaining) =>
      if remaining != {} then Blocked else Continue(tx.(pc := Ready(CleanedUp(|w.deletedTokens|))), None)
    case Ready(answer) => Commit(answer)
  }

  function FirstStatement(rows: Rows, locks: map<Row, TxId>, t: TxId, tx: Tx): Move {
    match tx.op
    case Issue(user, _, _, _) =>
      if !IsActive(rows, user) then Finish(IssueDenied)
      else Locking(locks, t, UserRow(user), tx.(pc := Locked(user)))
    case Rotate(hash, audience, _, _, _) =>
      if hash !in rows.tokens || rows.tokens[hash].audience != audience then Finish(RotateDenied)
      else Continue(tx.(pc := Found(rows.tokens[hash].userId)), None)
    case SetStatus(user, status, _) =>
      if user !in rows.users then Finish(StatusSet(false, 0))
      else
        Locking(locks, t, UserRow(user),
                tx.(pc := if ShouldRevoke(status) then Locked(user) else Ready(StatusSet(true, 0)),
                    writes := NO_WRITES.(users := map[user := status])))
    case AssignRole(_, role) =>
      if role in rows.roles then Continue(tx.(pc := Named), None)
      else Locking(locks, t, RoleRow(role), tx.(pc := Named, writes := NO_WRITES.(roles := {role})))
    case RemoveRole(user, role, _) =>
      if role !in rows.roles then Finish(RoleRemoval(false, false, 0))
      else if (user, role) !in rows.userRoles then Finish(RoleRemoval(true, false, 0))
      else
        Locking(locks, t, UserRoleRow(user, role),
                tx.(pc := Claimed(user), writes := NO_WRITES.(deletedUserRoles := {(user, role)})))
    case RevokeSessions(user, _) =>
      if user !in rows.users then Finish(SessionsRevoked(0))
      else Locking(locks, t, UserRow(user), tx.(pc := Locked(user)))
    case ResetPassword(reset, _, now) =>
      if !Redeemable(rows, reset, now) then Finish(ResetRefused)
      else Continue(tx.(pc := Found(rows.resets[reset].userId)), None)
    case Logout(hash, _) =>
      Continue(tx.(pc := Seen(if Unrevoked(rows, hash) then Some(rows.tokens[hash].userId) else None)), None)
    case Cleanup(cutoff, candidates) =>
      if candidates != EligibleTokens(rows, cutoff) then Blocked else Continue(tx.(pc := Purging(candidates)), None)
  }

  /** Inserts the assignment unless it is there. With nothing written the transaction is over when it finds one. */
  function Assignment(rows: Rows, locks: map<Row, TxId>, t: TxId, tx: Tx, user: UserId, role: RoleKey): Move {
    var pair := (user, role);
    if user !in rows.users then Finish(AssignmentFailed)
    else if pair in rows.userRoles && tx.writes.roles == {} then Finish(RoleAssigned(false))
    else
      Locking(locks, t, UserRoleRow(user, role),
              tx.(pc := Ready(RoleAssigned(pair !in rows.userRoles)), writes := tx.writes.(userRoles := {pair})))
  }

  /** The statements that follow the user lock. Token issue reads the status once more. */
  function StatementUnderUserLock(rows: Rows, locks: map<Row, TxId>, t: TxId, tx: Tx, owner: UserId): Move {
    var w := tx.writes;
    match tx.op
    case Issue(_, audience, minted, expiresAt) =>
      if !IsActive(rows, owner) then Finish(IssueDenied)
      else
        Continue(tx.(pc := Ready(Issued),
                     writes := w.(tokens := map[minted := Token(owner, audience, expiresAt, None)])), None)
    case Rotate(hash, _, now, _, _) =>
      if !IsActive(rows, owner) || !Spendable(rows, hash, now) then Finish(RotateDenied)
      else
        Locking(locks, t, TokenRow(hash),
                tx.(pc := Spent(owner), writes := w.(tokens := map[hash := Revoke(rows.tokens[hash], now)])))
    case ResetPassword(_, passwordHash, now) =>
      if owner !in rows.credentials then Finish(ResetFailed)
      else
        Continue(tx.(pc := Sweeping(owner, LiveTokensOf(rows, owner)),
                     writes := w.(credentials := map[owner := Credential(passwordHash, 0, None, now)])), None)
    case Logout(_, _) => Blocked
    case AssignRole(_, _) => Blocked
    case Cleanup(_, _) => Blocked
    case _ => Continue(tx.(pc := Sweeping(owner, LiveTokensOf(rows, owner))), None)
  }

  function SweepAnswer(op: Op, owner: UserId, count: nat): Answer {
    match op
    case SetStatus(_, _, _) => StatusSet(true, count)
    case RemoveRole(_, _, _) => RoleRemoval(true, true, count)
    case ResetPassword(_, _, _) => PasswordReset(owner)
    case _ => SessionsRevoked(count)
  }

  // ---------- steps ----------

  function Release(locks: map<Row, TxId>, t: TxId): map<Row, TxId> {
    map r | r in locks && locks[r] != t :: locks[r]
  }

  function Without(txs: map<TxId, Tx>, t: TxId): map<TxId, Tx> {
    txs - {t}
  }

  function Ended(s: State, t: TxId, rows: Rows): State {
    State(rows, Without(s.txs, t), Release(s.locks, t))
  }

  /** A digest minted now differs from every stored one and from those of the requests in flight. */
  predicate MintsSomethingNew(op: Op, s: State) {
    Fresh(op, s.rows)
    && forall t :: t in s.txs ==> Mints(op).None? || Mints(s.txs[t].op) != Mints(op)
  }

  datatype Step = Stuck | Stepped(state: State, events: seq<Event>)

  function After(s: State, t: TxId, move: Move): Step
    requires t in s.txs
  {
    var tx := s.txs[t];
    match move
    case Blocked => Stuck
    case Continue(tx', row) =>
      Stepped(State(s.rows, s.txs[t := tx'], if row.Some? then s.locks[row.value := t] else s.locks), [])
    case Finish(answer) => Stepped(Ended(s, t, s.rows), [Event(tx.op, Completed(answer))])
    case Commit(answer) => Stepped(Ended(s, t, Merge(s.rows, tx.writes)), [Event(tx.op, Completed(answer))])
  }

  function Next(s: State, act: Action): Step {
    match act
    case Begin(t, op) =>
      if t in s.txs || !MintsSomethingNew(op, s) then Stuck
      else Stepped(s.(txs := s.txs[t := Tx(op, Begun, NO_WRITES)]), [])
    case Abort(t) =>
      if t !in s.txs then Stuck
      else Stepped(Ended(s, t, s.rows), [Event(s.txs[t].op, RolledBack)])
    case Advance(t) =>
      if t !in s.txs then Stuck else After(s, t, Statement(s.rows, s.locks, t, s.txs[t]))
    case Sweep(t, h) =>
      if t !in s.txs || !s.txs[t].pc.Sweeping? || h !in s.txs[t].pc.remaining then Stuck
      else
        var tx := s.txs[t];
        var onward := tx.(pc := Sweeping(tx.pc.owner, tx.pc.remaining - {h}));
        // A row revoked while the update waited for it no longer matches.
        if !Unrevoked(s.rows, h) then Stepped(s.(txs := s.txs[t := onward]), [])
        else if !Free(s.locks, t, TokenRow(h)) then Stuck
        else
          var revoked := tx.writes.tokens[h := Revoke(s.rows.tokens[h], RevocationTime(tx.op))];
          Stepped(State(s.rows, s.txs[t := onward.(writes := tx.writes.(tokens := revoked))],
                        s.locks[TokenRow(h) := t]), [])
    case Purge(t, h) =>
      if t !in s.txs || !s.txs[t].pc.Purging? || h !in s.txs[t].pc.remaining then Stuck
      else
        var tx := s.txs[t];
        var onward := tx.(pc := Purging(tx.pc.remaining - {h}));
        // A row that another cleanup deleted while this one waited for it is gone.
        if h !in s.rows.tokens then Stepped(s.(txs := s.txs[t := onward]), [])
        else if !Free(s.locks, t, TokenRow(h)) then Stuck
        else
          var deleted := tx.writes.deletedTokens + {h};
          Stepped(State(s.rows, s.txs[t := onward.(writes := tx.writes.(deletedTokens := deleted))],
                        s.locks[TokenRow(h) := t]), [])
  }

  /** The state and the ended operations, in order, after a run of acts. */
  function Play(s: State, acts: seq<Action>): Step
    decreases |acts|
  {
    if acts == [] then Stepped(s, [])
    else
      var before := Play(s, acts[..|acts| - 1]);
      if before.Stuck? then Stuck
      else
        var last := Next(before.state, acts[|acts| - 1]);
        if last.Stuck? then Stuck else Stepped(last.state, before.events + last.events)
  }

  // ---------- what every in-flight transaction keeps true ----------

  /** A cleanup has deleted the token, for good. */
  predicate IsGone(rows: Rows, h: Hash) {
    h !in rows.tokens && h in rows.purged
  }

  /** The presented token still is the one the rotation read, unless it was deleted since. */
  ghost predicate RotationFacts(rows: Rows, op: Op, owner: UserId)
    requires op.Rotate?
  {
    || IsGone(rows, op.hash)
    || (op.hash in rows.tokens && rows.tokens[op.hash].userId == owner
        && rows.tokens[op.hash].audience == op.audience)
  }

  ghost predicate ClaimFacts(rows: Rows, locks: map<Row, TxId>, t: TxId, op: Op, owner: UserId) {
    match op
    case RemoveRole(user, role, _) =>
      && owner == user && role in rows.roles && (user, role) in rows.userRoles
      && Holds(locks, t, UserRoleRow(user, role))
    case ResetPassword(reset, _, now) =>
      && Redeemable(rows, reset, now) && rows.resets[reset].userId == owner
      && Holds(locks, t, ResetRow(reset))
    case _ => false
  }

  function ClaimWrites(rows: Rows, op: Op): Writes {
    match op
    case RemoveRole(user, role, _) => NO_WRITES.(deletedUserRoles := {(user, role)})
    case ResetPassword(reset, _, now) =>
      if reset in rows.resets
      then NO_WRITES.(resets := map[reset := rows.resets[reset].(usedAt := Some(now))])
      else NO_WRITES
    case _ => NO_WRITES
  }

  /** Everything a revoke-all operation has written besides the token rows. */
  function SweepWrites(rows: Rows, op: Op, owner: UserId): Writes {
    match op
    case SetStatus(user, status, _) => NO_WRITES.(users := map[user := status])
    case ResetPassword(_, passwordHash, now) =>
      ClaimWrites(rows, op).(credentials := map[owner := Credential(passwordHash, 0, None, now)])
    case _ => ClaimWrites(rows, op)
  }

  ghost predicate SweepFacts(rows: Rows, locks: map<Row, TxId>, t: TxId, op: Op, owner: UserId) {
    && owner in rows.users && Holds(locks, t, UserRow(owner))
    && match op
       case SetStatus(user, status, _) => owner == user && ShouldRevoke(status)
       case RevokeSessions(user, _) => owner == user
       case RemoveRole(_, _, _) => ClaimFacts(rows, locks, t, op, owner)
       case ResetPassword(_, _, _) => ClaimFacts(rows, locks, t, op, owner) && owner in rows.credentials
       case _ => false
  }

  /** `tokens` holds the revoked versions of live tokens of `owner`, every one locked. */
  ghost predicate SweptSoFar(rows: Rows, locks: map<Row, TxId>, t: TxId, op: Op, owner: UserId,
                             tokens: map<Hash, Token>) {
    forall h :: h in tokens ==>
      && h in LiveTokensOf(rows, owner)
      && Holds(locks, t, TokenRow(h))
      && tokens[h] == Revoke(rows.tokens[h], RevocationTime(op))
  }

  ghost predicate TxOk(rows: Rows, locks: map<Row, TxId>, t: TxId, tx: Tx) {
    var Tx(op, pc, w) := tx;
    match pc
    case Begun => w == NO_WRITES
    case Found(owner) =>
      && w == NO_WRITES
      && (op.Rotate? || op.ResetPassword?)
      && (op.Rotate? ==> RotationFacts(rows, op, owner))
      && (op.ResetPassword? ==> op.reset in rows.resets && rows.resets[op.reset].userId == owner)
    case Seen(_) => op.Logout? && w == NO_WRITES
    case Named => op.AssignRole? && NameOk(rows, locks, t, op.role, w)
    case Claimed(owner) => ClaimFacts(rows, locks, t, op, owner) && w == ClaimWrites(rows, op)
    case Locked(owner) =>
      && owner in rows.users && Holds(locks, t, UserRow(owner))
      && (match op
          case Issue(user, _, _, _) => user == owner && IsActive(rows, user) && w == NO_WRITES
          case Rotate(_, _, _, _, _) => RotationFacts(rows, op, owner) && IsActive(rows, owner) && w == NO_WRITES
          case SetStatus(user, status, _) => owner == user && ShouldRevoke(status) && w == SweepWrites(rows, op, owner)
          case RevokeSessions(user, _) => owner == user && w == NO_WRITES
          case _ => ClaimFacts(rows, locks, t, op, owner) && w == ClaimWrites(rows, op))
    case Spent(owner) => op.Rotate? && SpentOk(rows, locks, t, op, owner)
                         && w == NO_WRITES.(tokens := map[op.hash := Revoke(rows.tokens[op.hash], op.now)])
    case Sweeping(owner, remaining) =>
      && SweepFacts(rows, locks, t, op, owner)
      && w == SweepWrites(rows, op, owner).(tokens := w.tokens)
      && SweptSoFar(rows, locks, t, op, owner, w.tokens)
      && LiveTokensOf(rows, owner) <= w.tokens.Keys + remaining
      && (forall h :: h in remaining ==> IsGone(rows, h) || (h in rows.tokens && rows.tokens[h].userId == owner))
    case Purging(remaining) => op.Cleanup? && PurgeOk(rows, locks, t, op, w, remaining)
    case Ready(answer) => ReadyOk(rows, locks, t, op, w, answer)
  }

  /** The role is there, or is about to be. */
  ghost predicate NameOk(rows: Rows, locks: map<Row, TxId>, t: TxId, role: RoleKey, w: Writes) {
    || (w == NO_WRITES && role in rows.roles)
    || (w == NO_WRITES.(roles := {role}) && Holds(locks, t, RoleRow(role)))
  }

  ghost predicate AssignedOk(rows: Rows, locks: map<Row, TxId>, t: TxId, op: Op, w: Writes, answer: Answer)
    requires op.AssignRole?
  {
    var pair := (op.user, op.role);
    && op.user in rows.users && Holds(locks, t, UserRoleRow(op.user, op.role))
    && w.userRoles == {pair} && NameOk(rows, locks, t, op.role, w.(userRoles := {}))
    && answer == RoleAssigned(pair !in rows.userRoles)
  }

  /** The candidates stay eligible until they are gone; those visited are gone or locked. */
  ghost predicate PurgeOk(rows: Rows, locks: map<Row, TxId>, t: TxId, op: Op, w: Writes, remaining: set<Hash>)
    requires op.Cleanup?
  {
    && w == NO_WRITES.(deletedTokens := w.deletedTokens)
    && w.deletedTokens + remaining <= op.candidates
    && (forall h :: h in w.deletedTokens ==> h in rows.tokens && Holds(locks, t, TokenRow(h)))
    && (forall h :: h in op.candidates ==>
          && (IsGone(rows, h) || (h in rows.tokens && Eligible(rows.tokens[h], op.cutoff)))
          && (h in remaining || h in w.deletedTokens || IsGone(rows, h)))
  }

  ghost predicate SpentOk(rows: Rows, locks: map<Row, TxId>, t: TxId, op: Op, owner: UserId)
    requires op.Rotate?
  {
    && RotationFacts(rows, op, owner) && IsActive(rows, owner) && Spendable(rows, op.hash, op.now)
    && Holds(locks, t, UserRow(owner)) && Holds(locks, t, TokenRow(op.hash))
  }

  ghost predicate ReadyOk(rows: Rows, locks: map<Row, TxId>, t: TxId, op: Op, w: Writes, answer: Answer) {
    match op
    case Issue(user, audience, minted, expiresAt) =>
      && answer == Issued
      && IsActive(rows, user) && Holds(locks, t, UserRow(user))
      && w == NO_WRITES.(tokens := map[minted := Token(user, audience, expiresAt, None)])
    case Rotate(hash, audience, now, minted, expiresAt) =>
      && answer.Rotated? && SpentOk(rows, locks, t, op, answer.owner)
      && w == NO_WRITES.(tokens := map[hash := Revoke(rows.tokens[hash], now)]
                                     [minted := Token(answer.owner, audience, expiresAt, None)])
    case Logout(hash, at) =>
      && answer.LoggedOut? && Unrevoked(rows, hash) && Holds(locks, t, TokenRow(hash))
      && w == NO_WRITES.(tokens := map[hash := Revoke(rows.tokens[hash], at)])
    case SetStatus(user, status, at) =>
      if ShouldRevoke(status) then SweptOk(rows, locks, t, op, user, w, answer)
      else answer == StatusSet(true, 0) && user in rows.users && Holds(locks, t, UserRow(user))
           && w == NO_WRITES.(users := map[user := status])
    case RevokeSessions(user, _) => SweptOk(rows, locks, t, op, user, w, answer)
    case AssignRole(_, _) => AssignedOk(rows, locks, t, op, w, answer)
    case RemoveRole(user, _, _) =>
      if user in rows.users then SweptOk(rows, locks, t, op, user, w, answer)
      else answer == RoleRemoval(true, true, 0) && ClaimFacts(rows, locks, t, op, user)
           && w == ClaimWrites(rows, op)
    case ResetPassword(reset, _, _) =>
      && reset in rows.resets
      && var owner := rows.resets[reset].userId;
         if owner in rows.users then SweptOk(rows, locks, t, op, owner, w, answer)
         else answer == ResetRefused && ClaimFacts(rows, locks, t, op, owner) && w == ClaimWrites(rows, op)
    case Cleanup(_, _) => PurgeOk(rows, locks, t, op, w, {}) && answer == CleanedUp(|w.deletedTokens|)
  }

  ghost predicate SweptOk(rows: Rows, locks: map<Row, TxId>, t: TxId, op: Op, owner: UserId, w: Writes,
                          answer: Answer) {
    && SweepFacts(rows, locks, t, op, owner)
    && w == SweepWrites(rows, op, owner).(tokens := w.tokens)
    && SweptSoFar(rows, locks, t, op, owner, w.tokens)
    && w.tokens.Keys == LiveTokensOf(rows, owner)
    && answer == SweepAnswer(op, owner, |w.tokens.Keys|)
  }

  ghost predicate Inv(s: State) {
    && (forall r :: r in s.locks ==> s.locks[r] in s.txs)
    && (forall t :: t in s.txs ==> Fresh(s.txs[t].op, s.rows))
    && (forall t, u :: t in s.txs && u in s.txs && t != u && Mints(s.txs[t].op).Some?
                       ==> Mints(s.txs[t].op) != Mints(s.txs[u].op))
    && (forall t :: t in s.txs ==> TxOk(s.rows, s.locks, t, s.txs[t]))
  }

  // ---------- a commit is the atomic operation ----------

  /** Logout reports a user id read before its update; no claim is made about that one field. */
  predicate SameAnswer(a: Answer, b: Answer) {
    a == b || (a.LoggedOut? && b.LoggedOut?)
  }

  lemma MergedSweep(rows: Rows, op: Op, owner: UserId, tokens: map<Hash, Token>)
    requires tokens.Keys == LiveTokensOf(rows, owner)
    requires forall h :: h in tokens ==> tokens[h] == Revoke(rows.tokens[h], RevocationTime(op))
    ensures rows.tokens + tokens == RevokeTokens(rows, LiveTokensOf(rows, owner), RevocationTime(op)).tokens
  {
  }

  /** Merging writes that delete no token and insert no role, field by field. */
  lemma MergeIs(rows: Rows, w: Writes, after: Rows)
    requires w.deletedTokens == {} && w.roles == {} && w.userRoles == {}
    requires after.users == rows.users + w.users
    requires after.tokens == rows.tokens + w.tokens && after.purged == rows.purged
    requires after.roles == rows.roles && after.userRoles == rows.userRoles - w.deletedUserRoles
    requires after.resets == rows.resets + w.resets && after.credentials == rows.credentials + w.credentials
    ensures Merge(rows, w) == after
  {
    MinusNothing(rows.tokens + w.tokens);
    assert Purged(rows.tokens, {}) == map[];
    PlusNothing(rows.purged);
    assert rows.roles + {} == rows.roles;
    assert rows.userRoles + {} == rows.userRoles;
  }

  lemma PlusNothing<K, V>(m: map<K, V>)
    ensures m + map[] == m
  {
  }

  lemma MinusNothing<K, V>(m: map<K, V>)
    ensures m - {} == m
  {
  }

  lemma NothingSwept(rows: Rows, at: Time)
    ensures RevokeTokens(rows, {}, at) == rows
  {
    assert RevokeTokens(rows, {}, at).tokens == rows.tokens;
  }

  /** The tables a request leaves alone merge to themselves. */
  lemma UntouchedTables(rows: Rows)
    ensures rows.users + map[] == rows.users
    ensures rows.tokens + map[] == rows.tokens
    ensures rows.userRoles - {} == rows.userRoles
    ensures rows.resets + map[] == rows.resets
    ensures rows.credentials + map[] == rows.credentials
  {
    PlusNothing(rows.users);
    PlusNothing(rows.tokens);
    PlusNothing(rows.resets);
    PlusNothing(rows.credentials);
  }

  /** `w` is all that a revoke-all writes, and its tokens are those of `owner`, revoked. */
  ghost predicate IsWholeSweep(rows: Rows, op: Op, owner: UserId, w: Writes) {
    && w == SweepWrites(rows, op, owner).(tokens := w.tokens)
    && rows.tokens + w.tokens == RevokeTokens(rows, LiveTokensOf(rows, owner), RevocationTime(op)).tokens
  }

  lemma StatusSweepIsAtomic(rows: Rows, op: Op, w: Writes)
    requires op.SetStatus? && op.user in rows.users && ShouldRevoke(op.status)
    requires IsWholeSweep(rows, op, op.user, w)
    ensures Merge(rows, w) == Apply(op, rows).rows
  {
    UntouchedTables(rows);
    assert rows.users + w.users == rows.users[op.user := op.status];
    MergeIs(rows, w, Apply(op, rows).rows);
  }

  lemma RoleSweepIsAtomic(rows: Rows, op: Op, w: Writes)
    requires op.RemoveRole? && op.user in rows.users
    requires op.role in rows.roles && (op.user, op.role) in rows.userRoles
    requires IsWholeSweep(rows, op, op.user, w)
    ensures Merge(rows, w) == Apply(op, rows).rows
  {
    UntouchedTables(rows);
    MergeIs(rows, w, Apply(op, rows).rows);
  }

  lemma SessionSweepIsAtomic(rows: Rows, op: Op, w: Writes)
    requires op.RevokeSessions? && op.user in rows.users
    requires IsWholeSweep(rows, op, op.user, w)
    ensures Merge(rows, w) == Apply(op, rows).rows
  {
    UntouchedTables(rows);
    MergeIs(rows, w, Apply(op, rows).rows);
  }

  lemma ResetSweepIsAtomic(rows: Rows, op: Op, owner: UserId, w: Writes)
    requires op.ResetPassword? && Redeemable(rows, op.reset, op.now) && rows.resets[op.reset].userId == owner
    requires owner in rows.users && owner in rows.credentials
    requires IsWholeSweep(rows, op, owner, w)
    ensures Merge(rows, w) == Apply(op, rows).rows
  {
    UntouchedTables(rows);
    assert rows.resets + w.resets == rows.resets[op.reset := rows.resets[op.reset].(usedAt := Some(op.now))];
    assert rows.credentials + w.credentials == rows.credentials[owner := Credential(op.passwordHash, 0, None, op.now)];
    MergeIs(rows, w, Apply(op, rows).rows);
  }

  lemma SweepAnswersAlike(rows: Rows, locks: map<Row, TxId>, t: TxId, op: Op, owner: UserId)
    requires SweepFacts(rows, locks, t, op, owner)
    ensures Apply(op, rows).answer == SweepAnswer(op, owner, |LiveTokensOf(rows, owner)|)
  {
  }

  lemma CommitOfSweepIsAtomic(rows: Rows, locks: map<Row, TxId>, t: TxId, op: Op, owner: UserId, w: Writes,
                              answer: Answer)
    requires SweptOk(rows, locks, t, op, owner, w, answer)
    ensures Applied(Merge(rows, w), answer) == Apply(op, rows)
  {
    MergedSweep(rows, op, owner, w.tokens);
    SweepAnswersAlike(rows, locks, t, op, owner);
    match op
    case SetStatus(_, _, _) => StatusSweepIsAtomic(rows, op, w);
    case RemoveRole(_, _, _) => RoleSweepIsAtomic(rows, op, w);
    case RevokeSessions(_, _) => SessionSweepIsAtomic(rows, op, w);
    case ResetPassword(_, _, _) => ResetSweepIsAtomic(rows, op, owner, w);
    case _ =>
  }

  lemma CommitOfMintIsAtomic(rows: Rows, locks: map<Row, TxId>, t: TxId, tx: Tx)
    requires TxOk(rows, locks, t, tx) && tx.pc.Ready? && Fresh(tx.op, rows)
    requires tx.op.Issue? || tx.op.Rotate?
    ensures Applied(Merge(rows, tx.writes), tx.pc.answer) == Apply(tx.op, rows)
  {
    UntouchedTables(rows);
    assert rows.tokens + tx.writes.tokens == Apply(tx.op, rows).rows.tokens;
    MergeIs(rows, tx.writes, Apply(tx.op, rows).rows);
  }

  lemma CommitOfLogoutIsAtomic(rows: Rows, locks: map<Row, TxId>, t: TxId, op: Op, w: Writes, answer: Answer)
    requires op.Logout? && ReadyOk(rows, locks, t, op, w, answer)
    ensures Merge(rows, w) == Apply(op, rows).rows && Apply(op, rows).answer.LoggedOut?
  {
    UntouchedTables(rows);
    assert rows.tokens + w.tokens == RevokeTokens(rows, {op.hash}, op.at).tokens;
    MergeIs(rows, w, Apply(op, rows).rows);
  }

  lemma CommitOfAssignmentIsAtomic(rows: Rows, locks: map<Row, TxId>, t: TxId, op: Op, w: Writes, answer: Answer)
    requires op.AssignRole? && ReadyOk(rows, locks, t, op, w, answer)
    ensures Applied(Merge(rows, w), answer) == Apply(op, rows)
  {
    UntouchedTables(rows);
    MinusNothing(rows.tokens + w.tokens);
    assert Purged(rows.tokens, {}) == map[];
    PlusNothing(rows.purged);
    var after := Apply(op, rows).rows;
    assert rows.roles + w.roles == after.roles;
    assert rows.userRoles + w.userRoles - {} == after.userRoles;
  }

  lemma CommitOfCleanupIsAtomic(rows: Rows, locks: map<Row, TxId>, t: TxId, op: Op, w: Writes, answer: Answer)
    requires op.Cleanup? && ReadyOk(rows, locks, t, op, w, answer)
    ensures Applied(Merge(rows, w), answer) == Apply(op, rows)
  {
    UntouchedTables(rows);
    assert rows.roles + {} == rows.roles;
    assert rows.userRoles + {} - {} == rows.userRoles;
    assert w.deletedTokens == op.candidates * EligibleTokens(rows, op.cutoff);
  }

  /** The requests that revoke all tokens of a user, in the cases in which they do. */
  predicate MaySweep(op: Op) {
    op.SetStatus? || op.RemoveRole? || op.RevokeSessions? || op.ResetPassword?
  }

  /** The owner of the tokens that `op` revokes when it revokes all of one user's. */
  function SweepOwner(op: Op, rows: Rows): UserId
    requires MaySweep(op)
    requires op.ResetPassword? ==> op.reset in rows.resets
  {
    if op.ResetPassword? then rows.resets[op.reset].userId else op.user
  }

  lemma CommitOfMildStatusIsAtomic(rows: Rows, locks: map<Row, TxId>, t: TxId, op: Op, w: Writes, answer: Answer)
    requires op.SetStatus? && !ShouldRevoke(op.status) && ReadyOk(rows, locks, t, op, w, answer)
    ensures Applied(Merge(rows, w), answer) == Apply(op, rows)
  {
    UntouchedTables(rows);
    NothingSwept(rows, op.at);
    assert rows.users + w.users == rows.users[op.user := op.status];
    MergeIs(rows, w, Apply(op, rows).rows);
  }

  lemma CommitOfOrphanedRoleIsAtomic(rows: Rows, locks: map<Row, TxId>, t: TxId, op: Op, w: Writes, answer: Answer)
    requires op.RemoveRole? && op.user !in rows.users && ReadyOk(rows, locks, t, op, w, answer)
    ensures Applied(Merge(rows, w), answer) == Apply(op, rows)
  {
    UntouchedTables(rows);
    NothingSwept(rows, op.at);
    MergeIs(rows, w, Apply(op, rows).rows);
  }

  lemma CommitOfOrphanedResetIsAtomic(rows: Rows, locks: map<Row, TxId>, t: TxId, op: Op, w: Writes, answer: Answer)
    requires op.ResetPassword? && ReadyOk(rows, locks, t, op, w, answer)
    requires rows.resets[op.reset].userId !in rows.users
    ensures Applied(Merge(rows, w), answer) == Apply(op, rows)
  {
    UntouchedTables(rows);
    assert rows.resets + w.resets == Apply(op, rows).rows.resets;
    MergeIs(rows, w, Apply(op, rows).rows);
  }

  lemma CommitWithoutSweepIsAtomic(rows: Rows, locks: map<Row, TxId>, t: TxId, op: Op, w: Writes, answer: Answer)
    requires MaySweep(op)
    requires ReadyOk(rows, locks, t, op, w, answer)
    requires !SweptOk(rows, locks, t, op, SweepOwner(op, rows), w, answer)
    ensures Applied(Merge(rows, w), answer) == Apply(op, rows)
  {
    if op.SetStatus? {
      CommitOfMildStatusIsAtomic(rows, locks, t, op, w, answer);
    } else if op.RemoveRole? {
      CommitOfOrphanedRoleIsAtomic(rows, locks, t, op, w, answer);
    } else if op.ResetPassword? {
      CommitOfOrphanedResetIsAtomic(rows, locks, t, op, w, answer);
    }
  }

  lemma CommitIsAtomic(rows: Rows, locks: map<Row, TxId>, t: TxId, tx: Tx)
    requires TxOk(rows, locks, t, tx) && tx.pc.Ready? && Fresh(tx.op, rows)
    ensures Merge(rows, tx.writes) == Apply(tx.op, rows).rows
    ensures SameAnswer(tx.pc.answer, Apply(tx.op, rows).answer)
  {
    var Tx(op, pc, w) := tx;
    assert ReadyOk(rows, locks, t, op, w, pc.answer);
    if op.Issue? || op.Rotate? {
      CommitOfMintIsAtomic(rows, locks, t, tx);
    } else if op.Logout? {
      CommitOfLogoutIsAtomic(rows, locks, t, op, w, pc.answer);
    } else if op.AssignRole? {
      CommitOfAssignmentIsAtomic(rows, locks, t, op, w, pc.answer);
    } else if op.Cleanup? {
      CommitOfCleanupIsAtomic(rows, locks, t, op, w, pc.answer);
    } else {
      var owner := SweepOwner(op, rows);
      if SweptOk(rows, locks, t, op, owner, w, pc.answer) {
        CommitOfSweepIsAtomic(rows, locks, t, op, owner, w, pc.answer);
      } else {
        CommitWithoutSweepIsAtomic(rows, locks, t, op, w, pc.answer);
      }
    }
  }

  // ---------- every step keeps the invariant ----------

  ghost predicate KeepsLocks(locks: map<Row, TxId>, locks': map<Row, TxId>, t: TxId) {
    forall r :: Holds(locks, t, r) ==> Holds(locks', t, r)
  }

  lemma TxOkWithMoreLocks(rows: Rows, locks: map<Row, TxId>, locks': map<Row, TxId>, t: TxId, tx: Tx)
    requires TxOk(rows, locks, t, tx) && KeepsLocks(locks, locks', t)
    ensures TxOk(rows, locks', t, tx)
  {
    match tx.pc
    case Ready(answer) => ReadyWithMoreLocks(rows, locks, locks', t, tx.op, tx.writes, answer);
    case Sweeping(owner, _) => SweepWithMoreLocks(rows, locks, locks', t, tx.op, owner, tx.writes.tokens);
    case Purging(remaining) => PurgeWithMoreLocks(rows, locks, locks', t, tx.op, tx.writes, remaining);
    case Claimed(owner) => ClaimWithMoreLocks(rows, locks, locks', t, tx.op, owner);
    case Locked(owner) => LockedWithMoreLocks(rows, locks, locks', t, tx);
    case _ => EarlyWithMoreLocks(rows, locks, locks', t, tx);
  }

  lemma ClaimWithMoreLocks(rows: Rows, locks: map<Row, TxId>, locks': map<Row, TxId>, t: TxId, op: Op, owner: UserId)
    requires ClaimFacts(rows, locks, t, op, owner) && KeepsLocks(locks, locks', t)
    ensures ClaimFacts(rows, locks', t, op, owner)
  {
  }

  lemma SweepWithMoreLocks(rows: Rows, locks: map<Row, TxId>, locks': map<Row, TxId>, t: TxId, op: Op, owner: UserId,
                           tokens: map<Hash, Token>)
    requires SweepFacts(rows, locks, t, op, owner) && SweptSoFar(rows, locks, t, op, owner, tokens)
    requires KeepsLocks(locks, locks', t)
    ensures SweepFacts(rows, locks', t, op, owner) && SweptSoFar(rows, locks', t, op, owner, tokens)
  {
  }

  lemma PurgeWithMoreLocks(rows: Rows, locks: map<Row, TxId>, locks': map<Row, TxId>, t: TxId, op: Op, w: Writes,
                           remaining: set<Hash>)
    requires op.Cleanup? && PurgeOk(rows, locks, t, op, w, remaining) && KeepsLocks(locks, locks', t)
    ensures PurgeOk(rows, locks', t, op, w, remaining)
  {
  }

  lemma LockedWithMoreLocks(rows: Rows, locks: map<Row, TxId>, locks': map<Row, TxId>, t: TxId, tx: Tx)
    requires TxOk(rows, locks, t, tx) && tx.pc.Locked? && KeepsLocks(locks, locks', t)
    ensures TxOk(rows, locks', t, tx)
  {
  }

  lemma EarlyWithMoreLocks(rows: Rows, locks: map<Row, TxId>, locks': map<Row, TxId>, t: TxId, tx: Tx)
    requires TxOk(rows, locks, t, tx) && KeepsLocks(locks, locks', t)
    requires tx.pc.Begun? || tx.pc.Found? || tx.pc.Seen? || tx.pc.Named? || tx.pc.Spent?
    ensures TxOk(rows, locks', t, tx)
  {
  }

  lemma ReadyWithMoreLocks(rows: Rows, locks: map<Row, TxId>, locks': map<Row, TxId>, t: TxId, op: Op, w: Writes,
                           answer: Answer)
    requires ReadyOk(rows, locks, t, op, w, answer) && KeepsLocks(locks, locks', t)
    ensures ReadyOk(rows, locks', t, op, w, answer)
  {
    if MaySweep(op) && SweptOk(rows, locks, t, op, SweepOwner(op, rows), w, answer) {
      SweepWithMoreLocks(rows, locks, locks', t, op, SweepOwner(op, rows), w.tokens);
    } else if op.Cleanup? {
      PurgeWithMoreLocks(rows, locks, locks', t, op, w, {});
    }
  }

  /** `move` leaves `t` with its invariant, on the lock table that the move produces. */
  ghost predicate MoveOk(rows: Rows, locks: map<Row, TxId>, t: TxId, move: Move)
    requires move.Continue?
  {
    var locks' := if move.row.Some? then locks[move.row.value := t] else locks;
    KeepsLocks(locks, locks', t) && TxOk(rows, locks', t, move.tx)
  }

  lemma FirstStatementKeepsOwn(rows: Rows, locks: map<Row, TxId>, t: TxId, tx: Tx)
    requires TxOk(rows, locks, t, tx) && tx.pc.Begun? && Statement(rows, locks, t, tx).Continue?
    ensures MoveOk(rows, locks, t, Statement(rows, locks, t, tx))
  {
  }

  lemma ReadStatementKeepsOwn(rows: Rows, locks: map<Row, TxId>, t: TxId, tx: Tx)
    requires TxOk(rows, locks, t, tx) && (tx.pc.Found? || tx.pc.Seen?) && Statement(rows, locks, t, tx).Continue?
    ensures MoveOk(rows, locks, t, Statement(rows, locks, t, tx))
  {
  }

  lemma AssignmentKeepsOwn(rows: Rows, locks: map<Row, TxId>, t: TxId, tx: Tx)
    requires TxOk(rows, locks, t, tx) && tx.pc.Named? && Statement(rows, locks, t, tx).Continue?
    ensures MoveOk(rows, locks, t, Statement(rows, locks, t, tx))
  {
  }

  lemma ClaimStatementKeepsOwn(rows: Rows, locks: map<Row, TxId>, t: TxId, tx: Tx)
    requires TxOk(rows, locks, t, tx) && tx.pc.Claimed? && Statement(rows, locks, t, tx).Continue?
    ensures MoveOk(rows, locks, t, Statement(rows, locks, t, tx))
  {
  }

  lemma LockedStatementKeepsOwn(rows: Rows, locks: map<Row, TxId>, t: TxId, tx: Tx)
    requires TxOk(rows, locks, t, tx) && tx.pc.Locked? && Statement(rows, locks, t, tx).Continue?
    ensures MoveOk(rows, locks, t, Statement(rows, locks, t, tx))
  {
  }

  lemma SpentStatementKeepsOwn(rows: Rows, locks: map<Row, TxId>, t: TxId, tx: Tx)
    requires TxOk(rows, locks, t, tx) && tx.pc.Spent? && Statement(rows, locks, t, tx).Continue?
    ensures MoveOk(rows, locks, t, Statement(rows, locks, t, tx))
  {
  }

  lemma SweptStatementKeepsOwn(rows: Rows, locks: map<Row, TxId>, t: TxId, tx: Tx)
    requires TxOk(rows, locks, t, tx) && tx.pc.Sweeping? && Statement(rows, locks, t, tx).Continue?
    ensures MoveOk(rows, locks, t, Statement(rows, locks, t, tx))
  {
    assert SweptOk(rows, locks, t, tx.op, tx.pc.owner, tx.writes, Statement(rows, locks, t, tx).tx.pc.answer) by {
      assert tx.writes.tokens.Keys == LiveTokensOf(rows, tx.pc.owner);
    }
  }

  lemma PurgedStatementKeepsOwn(rows: Rows, locks: map<Row, TxId>, t: TxId, tx: Tx)
    requires TxOk(rows, locks, t, tx) && tx.pc.Purging? && Statement(rows, locks, t, tx).Continue?
    ensures MoveOk(rows, locks, t, Statement(rows, locks, t, tx))
  {
  }

  lemma StatementKeepsOwn(rows: Rows, locks: map<Row, TxId>, t: TxId, tx: Tx)
    requires TxOk(rows, locks, t, tx) && Statement(rows, locks, t, tx).Continue?
    ensures MoveOk(rows, locks, t, Statement(rows, locks, t, tx))
  {
    match tx.pc
    case Begun => FirstStatementKeepsOwn(rows, locks, t, tx);
    case Found(_) => ReadStatementKeepsOwn(rows, locks, t, tx);
    case Seen(_) => ReadStatementKeepsOwn(rows, locks, t, tx);
    case Named => AssignmentKeepsOwn(rows, locks, t, tx);
    case Claimed(_) => ClaimStatementKeepsOwn(rows, locks, t, tx);
    case Locked(_) => LockedStatementKeepsOwn(rows, locks, t, tx);
    case Spent(_) => SpentStatementKeepsOwn(rows, locks, t, tx);
    case Sweeping(_, _) => SweptStatementKeepsOwn(rows, locks, t, tx);
    case Purging(_) => PurgedStatementKeepsOwn(rows, locks, t, tx);
  }

  /** The token is untouched, or `t` has locked it and revokes or deletes it, or `t` mints it. */
  ghost predicate TokenChangesOnlyLocked(rows: Rows, after: Rows, locks: map<Row, TxId>, t: TxId, op: Op, h: Hash) {
    && (h in rows.tokens && !Holds(locks, t, TokenRow(h)) ==> h in after.tokens && after.tokens[h] == rows.tokens[h])
    && (h in after.tokens && h !in rows.tokens ==>
          Mints(op) == Some(h) && h !in rows.purged && Holds(locks, t, UserRow(after.tokens[h].userId)))
    && (h in rows.tokens ==> IsGone(after, h) || (h in after.tokens && Keeps(rows.tokens[h], after.tokens[h])))
    && (h in rows.purged ==> h in after.purged)
    && (h in after.purged ==> h in rows.purged || h in rows.tokens)
  }

  ghost predicate TokensChangeOnlyLocked(rows: Rows, after: Rows, locks: map<Row, TxId>, t: TxId, op: Op) {
    forall h {:trigger TokenChangesOnlyLocked(rows, after, locks, t, op, h)}
             {:trigger h in rows.tokens} {:trigger h in after.tokens} {:trigger h in rows.purged}
             {:trigger h in after.purged} ::
      TokenChangesOnlyLocked(rows, after, locks, t, op, h)
  }

  /** What a commit of `t` may change: only rows it holds the lock of, and the token it mints. */
  ghost predicate ChangesOnlyLocked(rows: Rows, after: Rows, locks: map<Row, TxId>, t: TxId, op: Op) {
    && Advances(rows, after)
    && rows.roles <= after.roles
    && (forall u :: u in rows.users && !Holds(locks, t, UserRow(u)) ==> after.users[u] == rows.users[u])
    && (forall p: (UserId, RoleKey) ::
          !Holds(locks, t, UserRoleRow(p.0, p.1)) ==> (p in after.userRoles <==> p in rows.userRoles))
    && TokensChangeOnlyLocked(rows, after, locks, t, op)
    && (forall r :: r in rows.resets ==>
          && r in after.resets
          && after.resets[r].userId == rows.resets[r].userId
          && after.resets[r].expiresAt == rows.resets[r].expiresAt
          && (!Holds(locks, t, ResetRow(r)) ==> after.resets[r] == rows.resets[r]))
    && rows.credentials.Keys <= after.credentials.Keys
  }

  /** Every row version in `w` replaces a row that `t` has locked, except for a minted token. */
  ghost predicate WritesAreLocked(rows: Rows, locks: map<Row, TxId>, t: TxId, op: Op, w: Writes) {
    && (forall u :: u in w.users ==> u in rows.users && Holds(locks, t, UserRow(u)))
    && (forall h :: h in w.tokens && h in rows.tokens ==>
          && Holds(locks, t, TokenRow(h)) && Unrevoked(rows, h)
          && w.tokens[h] == Revoke(rows.tokens[h], RevocationTime(op)))
    && (forall h :: h in w.tokens && h !in rows.tokens ==>
          Mints(op) == Some(h) && h !in rows.purged && Holds(locks, t, UserRow(w.tokens[h].userId)))
    && (forall h :: h in w.deletedTokens ==> h in rows.tokens && h !in w.tokens && Holds(locks, t, TokenRow(h)))
    && (forall p :: p in w.userRoles + w.deletedUserRoles ==> Holds(locks, t, UserRoleRow(p.0, p.1)))
    && (forall r :: r in w.resets ==>
          && r in rows.resets && Holds(locks, t, ResetRow(r))
          && w.resets[r].userId == rows.resets[r].userId && w.resets[r].expiresAt == rows.resets[r].expiresAt)
  }

  lemma LockedWritesChangeOnlyLocked(rows: Rows, locks: map<Row, TxId>, t: TxId, op: Op, w: Writes)
    requires WritesAreLocked(rows, locks, t, op, w)
    ensures ChangesOnlyLocked(rows, Merge(rows, w), locks, t, op)
  {
    LockedWritesAdvance(rows, locks, t, op, w);
    LockedWritesChangeOnlyLockedTokens(rows, locks, t, op, w);
  }

  lemma LockedWritesChangeOnlyLockedTokens(rows: Rows, locks: map<Row, TxId>, t: TxId, op: Op, w: Writes)
    requires WritesAreLocked(rows, locks, t, op, w)
    ensures TokensChangeOnlyLocked(rows, Merge(rows, w), locks, t, op)
  {
    forall h ensures TokenChangesOnlyLocked(rows, Merge(rows, w), locks, t, op, h) {
      LockedWriteChangesOnlyLockedToken(rows, locks, t, op, w, h);
    }
  }

  lemma LockedWriteChangesOnlyLockedToken(rows: Rows, locks: map<Row, TxId>, t: TxId, op: Op, w: Writes, h: Hash)
    requires WritesAreLocked(rows, locks, t, op, w)
    ensures TokenChangesOnlyLocked(rows, Merge(rows, w), locks, t, op, h)
  {
  }

  lemma LockedWritesAdvance(rows: Rows, locks: map<Row, TxId>, t: TxId, op: Op, w: Writes)
    requires WritesAreLocked(rows, locks, t, op, w)
    ensures Advances(rows, Merge(rows, w))
  {
    var after := Merge(rows, w);
    assert (rows.users + w.users).Keys == rows.users.Keys;
    forall h | h in Ever(rows)
      ensures h in Ever(after) && Keeps(Ever(rows)[h], Ever(after)[h])
      ensures h in after.tokens ==> h in rows.tokens
    {
      LockedWriteKeepsToken(rows, locks, t, op, w, h);
    }
  }

  lemma LockedWriteKeepsToken(rows: Rows, locks: map<Row, TxId>, t: TxId, op: Op, w: Writes, h: Hash)
    requires WritesAreLocked(rows, locks, t, op, w) && h in Ever(rows)
    ensures var after := Merge(rows, w);
            && h in Ever(after) && Keeps(Ever(rows)[h], Ever(after)[h])
            && (h in after.tokens ==> h in rows.tokens)
  {
  }

  lemma SweepWritesAreLocked(rows: Rows, locks: map<Row, TxId>, t: TxId, op: Op, owner: UserId, w: Writes,
                             answer: Answer)
    requires SweptOk(rows, locks, t, op, owner, w, answer)
    ensures WritesAreLocked(rows, locks, t, op, w)
  {
  }

  lemma ClaimWritesAreLocked(rows: Rows, locks: map<Row, TxId>, t: TxId, op: Op, w: Writes, answer: Answer)
    requires MaySweep(op) && ReadyOk(rows, locks, t, op, w, answer)
    requires !SweptOk(rows, locks, t, op, SweepOwner(op, rows), w, answer)
    ensures WritesAreLocked(rows, locks, t, op, w)
  {
  }

  lemma OtherWritesAreLocked(rows: Rows, locks: map<Row, TxId>, t: TxId, op: Op, w: Writes, answer: Answer)
    requires !MaySweep(op) && Fresh(op, rows) && ReadyOk(rows, locks, t, op, w, answer)
    ensures WritesAreLocked(rows, locks, t, op, w)
  {
  }

  lemma CommitChangesOnlyLocked(rows: Rows, locks: map<Row, TxId>, t: TxId, tx: Tx)
    requires TxOk(rows, locks, t, tx) && tx.pc.Ready? && Fresh(tx.op, rows)
    ensures ChangesOnlyLocked(rows, Merge(rows, tx.writes), locks, t, tx.op)
  {
    var Tx(op, pc, w) := tx;
    if MaySweep(op) {
      if SweptOk(rows, locks, t, op, SweepOwner(op, rows), w, pc.answer) {
        SweepWritesAreLocked(rows, locks, t, op, SweepOwner(op, rows), w, pc.answer);
      } else {
        ClaimWritesAreLocked(rows, locks, t, op, w, pc.answer);
      }
    } else {
      OtherWritesAreLocked(rows, locks, t, op, w, pc.answer);
    }
    LockedWritesChangeOnlyLocked(rows, locks, t, op, w);
  }

  lemma LiveTokensAfterOthersCommit(
    rows: Rows, after: Rows, locks: map<Row, TxId>, t: TxId, op: Op, u: TxId, owner: UserId)
    requires t != u && ChangesOnlyLocked(rows, after, locks, t, op) && Holds(locks, u, UserRow(owner))
    ensures LiveTokensOf(after, owner) <= LiveTokensOf(rows, owner)
    ensures forall h :: h in LiveTokensOf(rows, owner) && Holds(locks, u, TokenRow(h)) ==>
              h in LiveTokensOf(after, owner) && after.tokens[h] == rows.tokens[h]
  {
  }

  lemma ClaimAfterOthersCommit(
    rows: Rows, after: Rows, locks: map<Row, TxId>, t: TxId, op: Op, u: TxId, other: Op, owner: UserId)
    requires t != u && ChangesOnlyLocked(rows, after, locks, t, op) && ClaimFacts(rows, locks, u, other, owner)
    ensures ClaimFacts(after, locks, u, other, owner) && ClaimWrites(after, other) == ClaimWrites(rows, other)
  {
  }

  lemma SweepAfterOthersCommit(
    rows: Rows, after: Rows, locks: map<Row, TxId>, t: TxId, op: Op, u: TxId, other: Op, owner: UserId,
    tokens: map<Hash, Token>)
    requires t != u && ChangesOnlyLocked(rows, after, locks, t, op)
    requires SweepFacts(rows, locks, u, other, owner) && SweptSoFar(rows, locks, u, other, owner, tokens)
    ensures SweepFacts(after, locks, u, other, owner) && SweptSoFar(after, locks, u, other, owner, tokens)
    ensures SweepWrites(after, other, owner) == SweepWrites(rows, other, owner)
    ensures LiveTokensOf(after, owner) <= LiveTokensOf(rows, owner)
    ensures tokens.Keys <= LiveTokensOf(after, owner)
  {
    LiveTokensAfterOthersCommit(rows, after, locks, t, op, u, owner);
    if ClaimFacts(rows, locks, u, other, owner) {
      ClaimAfterOthersCommit(rows, after, locks, t, op, u, other, owner);
    }
  }

  lemma SweptAfterOthersCommit(
    rows: Rows, after: Rows, locks: map<Row, TxId>, t: TxId, op: Op, u: TxId, other: Op, owner: UserId, w: Writes,
    answer: Answer)
    requires t != u && ChangesOnlyLocked(rows, after, locks, t, op)
    requires SweptOk(rows, locks, u, other, owner, w, answer)
    ensures SweptOk(after, locks, u, other, owner, w, answer)
  {
    SweepAfterOthersCommit(rows, after, locks, t, op, u, other, owner, w.tokens);
  }

  lemma ReadySweepAfterOthersCommit(
    rows: Rows, after: Rows, locks: map<Row, TxId>, t: TxId, op: Op, u: TxId, other: Op, w: Writes, answer: Answer)
    requires t != u && ChangesOnlyLocked(rows, after, locks, t, op)
    requires MaySweep(other) && ReadyOk(rows, locks, u, other, w, answer)
    ensures ReadyOk(after, locks, u, other, w, answer)
  {
    var owner := SweepOwner(other, rows);
    if SweptOk(rows, locks, u, other, owner, w, answer) {
      SweptAfterOthersCommit(rows, after, locks, t, op, u, other, owner, w, answer);
    } else if other.RemoveRole? || other.ResetPassword? {
      ClaimAfterOthersCommit(rows, after, locks, t, op, u, other, owner);
    }
  }

  lemma ReadyAfterOthersCommit(
    rows: Rows, after: Rows, locks: map<Row, TxId>, t: TxId, op: Op, u: TxId, other: Op, w: Writes, answer: Answer)
    requires t != u && ChangesOnlyLocked(rows, after, locks, t, op) && ReadyOk(rows, locks, u, other, w, answer)
    ensures ReadyOk(after, locks, u, other, w, answer)
  {
    if MaySweep(other) {
      ReadySweepAfterOthersCommit(rows, after, locks, t, op, u, other, w, answer);
    } else if other.Cleanup? {
      PurgeAfterOthersCommit(rows, after, locks, t, op, u, other, w, {});
    }
  }

  lemma PurgeAfterOthersCommit(
    rows: Rows, after: Rows, locks: map<Row, TxId>, t: TxId, op: Op, u: TxId, other: Op, w: Writes,
    remaining: set<Hash>)
    requires t != u && ChangesOnlyLocked(rows, after, locks, t, op)
    requires other.Cleanup? && PurgeOk(rows, locks, u, other, w, remaining)
    ensures PurgeOk(after, locks, u, other, w, remaining)
  {
    forall h | h in other.candidates
      ensures IsGone(after, h) || (h in after.tokens && Eligible(after.tokens[h], other.cutoff))
      ensures h in remaining || h in w.deletedTokens || IsGone(after, h)
    {
      assert TokenChangesOnlyLocked(rows, after, locks, t, op, h);
    }
  }

  lemma SweepingAfterOthersCommit(rows: Rows, after: Rows, locks: map<Row, TxId>, t: TxId, op: Op, u: TxId, tx: Tx)
    requires t != u && ChangesOnlyLocked(rows, after, locks, t, op) && TxOk(rows, locks, u, tx) && tx.pc.Sweeping?
    ensures TxOk(after, locks, u, tx)
  {
    SweepAfterOthersCommit(rows, after, locks, t, op, u, tx.op, tx.pc.owner, tx.writes.tokens);
  }

  lemma LockedAfterOthersCommit(rows: Rows, after: Rows, locks: map<Row, TxId>, t: TxId, op: Op, u: TxId, tx: Tx)
    requires t != u && ChangesOnlyLocked(rows, after, locks, t, op) && TxOk(rows, locks, u, tx) && tx.pc.Locked?
    ensures TxOk(after, locks, u, tx)
  {
    if ClaimFacts(rows, locks, u, tx.op, tx.pc.owner) {
      ClaimAfterOthersCommit(rows, after, locks, t, op, u, tx.op, tx.pc.owner);
    }
  }

  lemma ClaimedAfterOthersCommit(rows: Rows, after: Rows, locks: map<Row, TxId>, t: TxId, op: Op, u: TxId, tx: Tx)
    requires t != u && ChangesOnlyLocked(rows, after, locks, t, op) && TxOk(rows, locks, u, tx) && tx.pc.Claimed?
    ensures TxOk(after, locks, u, tx)
  {
    ClaimAfterOthersCommit(rows, after, locks, t, op, u, tx.op, tx.pc.owner);
  }

  lemma SpentAfterOthersCommit(rows: Rows, after: Rows, locks: map<Row, TxId>, t: TxId, op: Op, u: TxId, tx: Tx)
    requires t != u && ChangesOnlyLocked(rows, after, locks, t, op) && TxOk(rows, locks, u, tx) && tx.pc.Spent?
    ensures TxOk(after, locks, u, tx)
  {
  }

  lemma UnlockedAfterOthersCommit(rows: Rows, after: Rows, locks: map<Row, TxId>, t: TxId, op: Op, u: TxId, tx: Tx)
    requires t != u && ChangesOnlyLocked(rows, after, locks, t, op) && TxOk(rows, locks, u, tx)
    requires tx.pc.Begun? || tx.pc.Found? || tx.pc.Seen? || tx.pc.Named?
    ensures TxOk(after, locks, u, tx)
  {
  }

  lemma LateAfterOthersCommit(rows: Rows, after: Rows, locks: map<Row, TxId>, t: TxId, op: Op, u: TxId, tx: Tx)
    requires t != u && ChangesOnlyLocked(rows, after, locks, t, op) && TxOk(rows, locks, u, tx)
    requires tx.pc.Ready? || tx.pc.Purging? || tx.pc.Sweeping?
    ensures TxOk(after, locks, u, tx)
  {
    match tx.pc
    case Sweeping(_, _) => SweepingAfterOthersCommit(rows, after, locks, t, op, u, tx);
    case Ready(answer) => ReadyAfterOthersCommit(rows, after, locks, t, op, u, tx.op, tx.writes, answer);
    case Purging(remaining) => PurgeAfterOthersCommit(rows, after, locks, t, op, u, tx.op, tx.writes, remaining);
  }

  lemma HoldingAfterOthersCommit(rows: Rows, after: Rows, locks: map<Row, TxId>, t: TxId, op: Op, u: TxId, tx: Tx)
    requires t != u && ChangesOnlyLocked(rows, after, locks, t, op) && TxOk(rows, locks, u, tx)
    requires tx.pc.Claimed? || tx.pc.Locked? || tx.pc.Spent?
    ensures TxOk(after, locks, u, tx)
  {
    match tx.pc
    case Claimed(_) => ClaimedAfterOthersCommit(rows, after, locks, t, op, u, tx);
    case Spent(_) => SpentAfterOthersCommit(rows, after, locks, t, op, u, tx);
    case Locked(_) => LockedAfterOthersCommit(rows, after, locks, t, op, u, tx);
  }

  lemma TxOkAfterOthersCommit(rows: Rows, after: Rows, locks: map<Row, TxId>, t: TxId, op: Op, u: TxId, tx: Tx)
    requires t != u && ChangesOnlyLocked(rows, after, locks, t, op) && TxOk(rows, locks, u, tx)
    ensures TxOk(after, locks, u, tx)
  {
    if tx.pc.Ready? || tx.pc.Purging? || tx.pc.Sweeping? {
      LateAfterOthersCommit(rows, after, locks, t, op, u, tx);
    } else if tx.pc.Claimed? || tx.pc.Locked? || tx.pc.Spent? {
      HoldingAfterOthersCommit(rows, after, locks, t, op, u, tx);
    } else {
      UnlockedAfterOthersCommit(rows, after, locks, t, op, u, tx);
    }
  }

  /** A transaction that ends without having written anything did nothing and answers as the operation would. */
  ghost predicate FinishesAlike(rows: Rows, locks: map<Row, TxId>, t: TxId, tx: Tx) {
    var move := Statement(rows, locks, t, tx);
    move.Finish? ==> Apply(tx.op, rows).rows == rows && SameAnswer(move.answer, Apply(tx.op, rows).answer)
  }

  lemma FirstFinishIsAtomic(rows: Rows, locks: map<Row, TxId>, t: TxId, tx: Tx)
    requires TxOk(rows, locks, t, tx) && tx.pc.Begun?
    ensures FinishesAlike(rows, locks, t, tx)
  {
    NothingSwept(rows, RevocationTime(tx.op));
  }

  lemma ReadFinishIsAtomic(rows: Rows, locks: map<Row, TxId>, t: TxId, tx: Tx)
    requires TxOk(rows, locks, t, tx) && (tx.pc.Found? || tx.pc.Seen?)
    ensures FinishesAlike(rows, locks, t, tx)
  {
  }

  lemma AssignmentFinishIsAtomic(rows: Rows, locks: map<Row, TxId>, t: TxId, tx: Tx)
    requires TxOk(rows, locks, t, tx) && tx.pc.Named?
    ensures FinishesAlike(rows, locks, t, tx)
  {
    if Statement(rows, locks, t, tx) == Finish(RoleAssigned(false)) {
      assert rows.roles + {tx.op.role} == rows.roles;
      assert rows.userRoles + {(tx.op.user, tx.op.role)} == rows.userRoles;
    }
  }

  lemma LockedFinishIsAtomic(rows: Rows, locks: map<Row, TxId>, t: TxId, tx: Tx)
    requires TxOk(rows, locks, t, tx) && tx.pc.Locked?
    ensures FinishesAlike(rows, locks, t, tx)
  {
  }

  lemma FinishIsAtomic(rows: Rows, locks: map<Row, TxId>, t: TxId, tx: Tx)
    requires TxOk(rows, locks, t, tx) && Statement(rows, locks, t, tx).Finish?
    ensures Apply(tx.op, rows).rows == rows
    ensures SameAnswer(Statement(rows, locks, t, tx).answer, Apply(tx.op, rows).answer)
  {
    match tx.pc
    case Begun => FirstFinishIsAtomic(rows, locks, t, tx);
    case Named => AssignmentFinishIsAtomic(rows, locks, t, tx);
    case Locked(_) => LockedFinishIsAtomic(rows, locks, t, tx);
    case _ => ReadFinishIsAtomic(rows, locks, t, tx);
  }

  lemma OthersSurviveCommit(s: State, t: TxId, u: TxId)
    requires Inv(s) && t in s.txs && u in s.txs && t != u && s.txs[t].pc.Ready?
    ensures TxOk(Merge(s.rows, s.txs[t].writes), s.locks, u, s.txs[u])
  {
    var tx := s.txs[t];
    CommitChangesOnlyLocked(s.rows, s.locks, t, tx);
    TxOkAfterOthersCommit(s.rows, Merge(s.rows, tx.writes), s.locks, t, tx.op, u, s.txs[u]);
  }

  lemma OthersStayFresh(s: State, t: TxId)
    requires Inv(s) && t in s.txs && s.txs[t].pc.Ready?
    ensures forall u :: u in s.txs && u != t ==> Fresh(s.txs[u].op, Merge(s.rows, s.txs[t].writes))
  {
    CommitChangesOnlyLocked(s.rows, s.locks, t, s.txs[t]);
  }

  lemma OtherSurvivesEnd(s: State, t: TxId, after: Rows, u: TxId)
    requires Inv(s) && t in s.txs && u in s.txs && u != t
    requires after == s.rows || (s.txs[t].pc.Ready? && after == Merge(s.rows, s.txs[t].writes))
    ensures TxOk(after, Release(s.locks, t), u, s.txs[u])
  {
    if after != s.rows {
      OthersSurviveCommit(s, t, u);
    }
    assert KeepsLocks(s.locks, Release(s.locks, t), u);
    TxOkWithMoreLocks(after, s.locks, Release(s.locks, t), u, s.txs[u]);
  }

  lemma EndKeepsInv(s: State, t: TxId, after: Rows)
    requires Inv(s) && t in s.txs
    requires after == s.rows || (s.txs[t].pc.Ready? && after == Merge(s.rows, s.txs[t].writes))
    ensures Inv(Ended(s, t, after))
  {
    var next := Ended(s, t, after);
    if after != s.rows {
      OthersStayFresh(s, t);
    }
    forall u | u in next.txs ensures TxOk(after, next.locks, u, s.txs[u]) {
      OtherSurvivesEnd(s, t, after, u);
    }
  }

  /** A step that writes no row: one transaction moves on, perhaps with one more lock. */
  lemma MoveKeepsInv(s: State, t: TxId, tx': Tx, locks': map<Row, TxId>)
    requires Inv(s) && t in s.txs && tx'.op == s.txs[t].op && TxOk(s.rows, locks', t, tx')
    requires forall r :: r in locks' ==> (r in s.locks && locks'[r] == s.locks[r]) || locks'[r] == t
    requires forall u :: u in s.txs ==> KeepsLocks(s.locks, locks', u)
    ensures Inv(State(s.rows, s.txs[t := tx'], locks'))
  {
    forall u | u in s.txs && u != t ensures TxOk(s.rows, locks', u, s.txs[u]) {
      TxOkWithMoreLocks(s.rows, s.locks, locks', u, s.txs[u]);
    }
  }

  lemma SweepKeepsOwn(rows: Rows, locks: map<Row, TxId>, t: TxId, tx: Tx, h: Hash)
    requires TxOk(rows, locks, t, tx) && tx.pc.Sweeping? && h in tx.pc.remaining
    requires Unrevoked(rows, h) && Free(locks, t, TokenRow(h))
    ensures var tokens := tx.writes.tokens[h := Revoke(rows.tokens[h], RevocationTime(tx.op))];
            TxOk(rows, locks[TokenRow(h) := t], t,
                 tx.(pc := Sweeping(tx.pc.owner, tx.pc.remaining - {h}), writes := tx.writes.(tokens := tokens)))
  {
    TxOkWithMoreLocks(rows, locks, locks[TokenRow(h) := t], t, tx);
  }

  lemma SkipKeepsOwn(rows: Rows, locks: map<Row, TxId>, t: TxId, tx: Tx, h: Hash)
    requires TxOk(rows, locks, t, tx) && tx.pc.Sweeping? && !Unrevoked(rows, h)
    ensures TxOk(rows, locks, t, tx.(pc := Sweeping(tx.pc.owner, tx.pc.remaining - {h})))
  {
  }

  lemma SweepKeepsInv(s: State, t: TxId, h: Hash)
    requires Inv(s) && Next(s, Sweep(t, h)).Stepped?
    ensures Inv(Next(s, Sweep(t, h)).state)
  {
    var next := Next(s, Sweep(t, h)).state;
    if Unrevoked(s.rows, h) {
      SweepKeepsOwn(s.rows, s.locks, t, s.txs[t], h);
    } else {
      SkipKeepsOwn(s.rows, s.locks, t, s.txs[t], h);
    }
    MoveKeepsInv(s, t, next.txs[t], next.locks);
  }

  lemma DeletionKeepsOwn(rows: Rows, locks: map<Row, TxId>, t: TxId, tx: Tx, h: Hash)
    requires TxOk(rows, locks, t, tx) && tx.pc.Purging? && h in tx.pc.remaining
    requires h in rows.tokens && Free(locks, t, TokenRow(h))
    ensures TxOk(rows, locks[TokenRow(h) := t], t,
                 tx.(pc := Purging(tx.pc.remaining - {h}),
                     writes := tx.writes.(deletedTokens := tx.writes.deletedTokens + {h})))
  {
    TxOkWithMoreLocks(rows, locks, locks[TokenRow(h) := t], t, tx);
  }

  lemma PassOverKeepsOwn(rows: Rows, locks: map<Row, TxId>, t: TxId, tx: Tx, h: Hash)
    requires TxOk(rows, locks, t, tx) && tx.pc.Purging? && h in tx.pc.remaining && h !in rows.tokens
    ensures TxOk(rows, locks, t, tx.(pc := Purging(tx.pc.remaining - {h})))
  {
  }

  lemma PurgeKeepsInv(s: State, t: TxId, h: Hash)
    requires Inv(s) && Next(s, Purge(t, h)).Stepped?
    ensures Inv(Next(s, Purge(t, h)).state)
  {
    var next := Next(s, Purge(t, h)).state;
    if h in s.rows.tokens {
      DeletionKeepsOwn(s.rows, s.locks, t, s.txs[t], h);
    } else {
      PassOverKeepsOwn(s.rows, s.locks, t, s.txs[t], h);
    }
    MoveKeepsInv(s, t, next.txs[t], next.locks);
  }

  lemma StatementIsOfSameOp(rows: Rows, locks: map<Row, TxId>, t: TxId, tx: Tx)
    requires Statement(rows, locks, t, tx).Continue?
    ensures var move := Statement(rows, locks, t, tx);
            move.tx.op == tx.op && (move.row.Some? ==> Free(locks, t, move.row.value))
  {
  }

  lemma BeginKeepsInv(s: State, t: TxId, op: Op)
    requires Inv(s) && t !in s.txs && MintsSomethingNew(op, s)
    ensures Inv(s.(txs := s.txs[t := Tx(op, Begun, NO_WRITES)]))
  {
    forall u | u in s.txs ensures TxOk(s.rows, s.locks, u, s.txs[u]) {}
  }

  lemma OnlyReadyCommits(rows: Rows, locks: map<Row, TxId>, t: TxId, tx: Tx)
    ensures Statement(rows, locks, t, tx).Commit? ==> tx.pc.Ready?
  {
  }

  lemma AfterKeepsInv(s: State, t: TxId, move: Move)
    requires Inv(s) && t in s.txs && After(s, t, move).Stepped?
    requires move.Commit? ==> s.txs[t].pc.Ready?
    requires move.Continue? ==> MoveOk(s.rows, s.locks, t, move) && move.tx.op == s.txs[t].op
    requires move.Continue? && move.row.Some? ==> Free(s.locks, t, move.row.value)
    ensures Inv(After(s, t, move).state)
  {
    match move
    case Finish(_) => EndKeepsInv(s, t, s.rows);
    case Commit(_) => EndKeepsInv(s, t, Merge(s.rows, s.txs[t].writes));
    case Continue(tx', row) => MoveKeepsInv(s, t, tx', After(s, t, move).state.locks);
  }

  lemma AdvanceKeepsInv(s: State, t: TxId)
    requires Inv(s) && Next(s, Advance(t)).Stepped?
    ensures Inv(Next(s, Advance(t)).state)
  {
    var move := Statement(s.rows, s.locks, t, s.txs[t]);
    if move.Continue? {
      StatementKeepsOwn(s.rows, s.locks, t, s.txs[t]);
      StatementIsOfSameOp(s.rows, s.locks, t, s.txs[t]);
    }
    OnlyReadyCommits(s.rows, s.locks, t, s.txs[t]);
    AfterKeepsInv(s, t, move);
  }

  lemma StepKeepsInv(s: State, act: Action)
    requires Inv(s) && Next(s, act).Stepped?
    ensures Inv(Next(s, act).state)
  {
    match act
    case Begin(t, op) => BeginKeepsInv(s, t, op);
    case Abort(t) => EndKeepsInv(s, t, s.rows);
    case Purge(t, h) => PurgeKeepsInv(s, t, h);
    case Sweep(t, h) => SweepKeepsInv(s, t, h);
    case Advance(t) => AdvanceKeepsInv(s, t);
  }

  // ---------- the refinement ----------

  /** The rows after the ended operations ran alone, one after another, in this order. */
  function Serial(rows: Rows, events: seq<Event>): Rows
    decreases |events|
  {
    if events == [] then rows
    else
      var before := Serial(rows, events[..|events| - 1]);
      var last := events[|events| - 1];
      if last.outcome.RolledBack? then before else Apply(last.op, before).rows
  }

  /** Each completed operation answered what it would have answered alone at its place in the order. */
  ghost predicate AnswersSerially(rows: Rows, events: seq<Event>) {
    forall i :: 0 <= i < |events| && events[i].outcome.Completed? ==>
      AnswersAt(Serial(rows, events[..i]), events[i])
  }

  ghost predicate AnswersAt(rows: Rows, event: Event)
    requires event.outcome.Completed?
  {
    Fresh(event.op, rows) && SameAnswer(event.outcome.answer, Apply(event.op, rows).answer)
  }

  /** What a step does to the committed rows, and answers, is what the operation that ends in it would do alone. */
  ghost predicate IsAtomic(s: State, next: Step)
    requires next.Stepped?
  {
    && |next.events| <= 1
    && (next.events == [] || next.events[0].outcome.RolledBack? ==> next.state.rows == s.rows)
    && (next.events != [] && next.events[0].outcome.Completed? ==>
          && next.state.rows == Apply(next.events[0].op, s.rows).rows
          && AnswersAt(s.rows, next.events[0]))
  }

  lemma AfterIsAtomic(s: State, t: TxId, move: Move)
    requires t in s.txs && Fresh(s.txs[t].op, s.rows) && After(s, t, move).Stepped?
    requires var op, tx := s.txs[t].op, s.txs[t];
             match move
             case Finish(answer) => Apply(op, s.rows).rows == s.rows && SameAnswer(answer, Apply(op, s.rows).answer)
             case Commit(answer) =>
               Apply(op, s.rows).rows == Merge(s.rows, tx.writes) && SameAnswer(answer, Apply(op, s.rows).answer)
             case _ => true
    ensures IsAtomic(s, After(s, t, move))
  {
  }

  lemma CommitAnswersReady(rows: Rows, locks: map<Row, TxId>, t: TxId, tx: Tx)
    requires Statement(rows, locks, t, tx).Commit?
    ensures tx.pc == Ready(Statement(rows, locks, t, tx).answer)
  {
  }

  lemma AdvanceIsAtomic(s: State, t: TxId)
    requires Inv(s) && Next(s, Advance(t)).Stepped?
    ensures IsAtomic(s, Next(s, Advance(t)))
  {
    var tx := s.txs[t];
    var move := Statement(s.rows, s.locks, t, tx);
    if move.Finish? {
      FinishIsAtomic(s.rows, s.locks, t, tx);
    } else if move.Commit? {
      CommitAnswersReady(s.rows, s.locks, t, tx);
      CommitIsAtomic(s.rows, s.locks, t, tx);
    }
    AfterIsAtomic(s, t, move);
  }

  lemma StepIsAtomic(s: State, act: Action)
    requires Inv(s) && Next(s, act).Stepped?
    ensures IsAtomic(s, Next(s, act))
  {
    if act.Advance? {
      AdvanceIsAtomic(s, act.t);
    }
  }

  lemma HistoryGrows(rows: Rows, events: seq<Event>, event: Event)
    requires AnswersSerially(rows, events)
    requires event.outcome.Completed? ==> AnswersAt(Serial(rows, events), event)
    ensures AnswersSerially(rows, events + [event])
    ensures Serial(rows, events + [event])
            == if event.outcome.RolledBack? then Serial(rows, events) else Apply(event.op, Serial(rows, events)).rows
  {
    var all := events + [event];
    assert all[..|events|] == events;
    forall i | 0 <= i < |all| && all[i].outcome.Completed? ensures AnswersAt(Serial(rows, all[..i]), all[i]) {
      if i < |events| {
        assert all[..i] == events[..i];
      }
    }
  }

  /** Every interleaving has the effect, and gives the answers, of the operations run one at a time
      in the order in which they ended. */
  lemma {:induction false} InterleavingsAreSerial(s: State, acts: seq<Action>)
    requires Inv(s) && Play(s, acts).Stepped?
    ensures Inv(Play(s, acts).state)
    ensures Play(s, acts).state.rows == Serial(s.rows, Play(s, acts).events)
    ensures AnswersSerially(s.rows, Play(s, acts).events)
    decreases |acts|
  {
    if acts != [] {
      var prefix, act := acts[..|acts| - 1], acts[|acts| - 1];
      InterleavingsAreSerial(s, prefix);
      var before := Play(s, prefix);
      StepKeepsInv(before.state, act);
      StepIsAtomic(before.state, act);
      StepGrowsHistory(s.rows, before.events, before.state, Next(before.state, act));
    }
  }

  lemma StepGrowsHistory(rows: Rows, events: seq<Event>, s: State, next: Step)
    requires s.rows == Serial(rows, events) && AnswersSerially(rows, events)
    requires next.Stepped? && IsAtomic(s, next)
    ensures next.state.rows == Serial(rows, events + next.events)
    ensures AnswersSerially(rows, events + next.events)
  {
    if next.events == [] {
      assert events + next.events == events;
    } else {
      assert next.events == [next.events[0]];
      HistoryGrows(rows, events, next.events[0]);
    }
  }
}
