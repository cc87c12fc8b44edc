/** The rows that token issue, rotation, revocation, password reset and retention share, and each
    operation as one atomic step on the committed rows. */
module RefreshLedger {
  import opened Wrappers

  type UserId = string
  type RoleKey = string
  type Time = int    // milliseconds since the epoch

  /** SHA-256 digest of a refresh token or of a reset token. Minted digests are taken to be fresh. */
  type Hash = string

  datatype Status = PendingEmailVerification | Active | Suspended | Deleted

  datatype Token = Token(userId: UserId, audience: string, expiresAt: Time, revokedAt: Option<Time>)

  datatype ResetToken = ResetToken(userId: UserId, expiresAt: Time, usedAt: Option<Time>)

  datatype Credential = Credential(
    passwordHash: string, failedLoginCount: nat, lockedUntil: Option<Time>, passwordUpdatedAt: Time)

  /** `purged` is the history of deleted tokens, each as it last was; no statement reads it. */
  datatype Rows = Rows(
    users: map<UserId, Status>,
    tokens: map<Hash, Token>,
    roles: set<RoleKey>,
    userRoles: set<(UserId, RoleKey)>,
    resets: map<Hash, ResetToken>,
    credentials: map<UserId, Credential>,
    purged: map<Hash, Token>)

  /** One request, together with the clock reads and the random digest it will use. The candidates of
      a cleanup are the rows its DELETE selects when it starts. */
  datatype Op =
    | Issue(user: UserId, audience: string, minted: Hash, expiresAt: Time)
    | Rotate(hash: Hash, audience: string, now: Time, minted: Hash, expiresAt: Time)
    | SetStatus(user: UserId, status: Status, at: Time)
    | AssignRole(user: UserId, role: RoleKey)
    | RemoveRole(user: UserId, role: RoleKey, at: Time)
    | RevokeSessions(user: UserId, at: Time)
    | ResetPassword(reset: Hash, passwordHash: string, now: Time)
    | Logout(hash: Hash, at: Time)
    | Cleanup(cutoff: Time, candidates: set<Hash>)

  datatype Answer =
    | Issued
    | IssueDenied
    | Rotated(owner: UserId)
    | RotateDenied
    | StatusSet(changed: bool, revoked: nat)
    | RoleAssigned(added: bool)
    | AssignmentFailed
    | RoleRemoval(known: bool, removed: bool, revoked: nat)
    | SessionsRevoked(revoked: nat)
    | PasswordReset(owner: UserId)
    | ResetRefused
    | ResetFailed
    | LoggedOut(seen: Option<UserId>)
    | CleanedUp(deleted: nat)

  datatype Applied = Applied(rows: Rows, answer: Answer)

  // ---------- building blocks: one per SQL predicate of the source ----------

  predicate IsActive(rows: Rows, user: UserId) {
    user in rows.users && rows.users[user] == Active
  }

  /** The condition of the rotation's conditional update. */
  predicate Spendable(rows: Rows, hash: Hash, now: Time) {
    hash in rows.tokens && rows.tokens[hash].revokedAt.None? && rows.tokens[hash].expiresAt > now
  }

  predicate Unrevoked(rows: Rows, hash: Hash) {
    hash in rows.tokens && rows.tokens[hash].revokedAt.None?
  }

  predicate Redeemable(rows: Rows, reset: Hash, now: Time) {
    reset in rows.resets && rows.resets[reset].usedAt.None? && rows.resets[reset].expiresAt > now
  }

  function LiveTokensOf(rows: Rows, user: UserId): set<Hash> {
    set h | h in rows.tokens && rows.tokens[h].userId == user && rows.tokens[h].revokedAt.None?
  }

  function Revoke(token: Token, at: Time): Token {
    token.(revokedAt := Some(at))
  }

  function RevokeTokens(rows: Rows, hashes: set<Hash>, at: Time): Rows {
    rows.(tokens := map h | h in rows.tokens ::
                      if h in hashes then Revoke(rows.tokens[h], at) else rows.tokens[h])
  }

  const MILLISECONDS_PER_DAY: int := 24 * 60 * 60 * 1000

  function CutoffForRetention(now: Time, retentionDays: int): Time {
    now - retentionDays * MILLISECONDS_PER_DAY
  }

  predicate Eligible(token: Token, cutoff: Time) {
    token.expiresAt < cutoff || (token.revokedAt.Some? && token.revokedAt.value < cutoff)
  }

  function EligibleTokens(rows: Rows, cutoff: Time): set<Hash> {
    set h | h in rows.tokens && Eligible(rows.tokens[h], cutoff)
  }

  /** The rows whose deletion a history remembers. */
  function Purged(tokens: map<Hash, Token>, hashes: set<Hash>): map<Hash, Token> {
    map h | h in tokens && h in hashes :: tokens[h]
  }

  function DeleteTokens(rows: Rows, hashes: set<Hash>): Rows {
    rows.(tokens := rows.tokens - hashes, purged := rows.purged + Purged(rows.tokens, hashes))
  }

  /** Every token ever stored, as it is or last was. */
  function Ever(rows: Rows): map<Hash, Token> {
    rows.purged + rows.tokens
  }

  /** Nothing is revoked when the user row cannot be locked because it does not exist. */
  function Sweepable(rows: Rows, user: UserId): set<Hash> {
    if user in rows.users then LiveTokensOf(rows, user) else {}
  }

  predicate ShouldRevoke(status: Status) {
    status == Suspended || status == Deleted
  }

  function Mints(op: Op): Option<Hash> {
    match op
    case Issue(_, _, minted, _) => Some(minted)
    case Rotate(_, _, _, minted, _) => Some(minted)
    case _ => None
  }

  predicate Fresh(op: Op, rows: Rows) {
    Mints(op).Some? ==> Mints(op).value !in rows.tokens && Mints(op).value !in rows.purged
  }

  /** The instant an operation writes into `revokedAt`. */
  function RevocationTime(op: Op): Time {
    match op
    case Rotate(_, _, now, _, _) => now
    case SetStatus(_, _, at) => at
    case RemoveRole(_, _, at) => at
    case RevokeSessions(_, at) => at
    case ResetPassword(_, _, now) => now
    case Logout(_, at) => at
    case _ => 0
  }

  // ---------- the atomic ledger ----------

  function Apply(op: Op, rows: Rows): Applied {
    match op
    case Issue(user, audience, minted, expiresAt) =>
      if IsActive(rows, user)
      then Applied(rows.(tokens := rows.tokens[minted := Token(user, audience, expiresAt, None)]), Issued)
      else Applied(rows, IssueDenied)
    case Rotate(hash, audience, now, minted, expiresAt) =>
      if hash in rows.tokens && rows.tokens[hash].audience == audience
         && IsActive(rows, rows.tokens[hash].userId) && Spendable(rows, hash, now)
      then
        var owner := rows.tokens[hash].userId;
        var spent := rows.tokens[hash := Revoke(rows.tokens[hash], now)];
        Applied(rows.(tokens := spent[minted := Token(owner, audience, expiresAt, None)]), Rotated(owner))
      else Applied(rows, RotateDenied)
    case SetStatus(user, status, at) =>
      if user !in rows.users then Applied(rows, StatusSet(false, 0))
      else
        var swept := if ShouldRevoke(status) then LiveTokensOf(rows, user) else {};
        Applied(RevokeTokens(rows, swept, at).(users := rows.users[user := status]), StatusSet(true, |swept|))
    case AssignRole(user, role) =>
      // An assignment to a missing user breaks a foreign key, which rolls the new role back as well.
      if user !in rows.users then Applied(rows, AssignmentFailed)
      else
        Applied(rows.(roles := rows.roles + {role}, userRoles := rows.userRoles + {(user, role)}),
                RoleAssigned((user, role) !in rows.userRoles))
    case RemoveRole(user, role, at) =>
      if role !in rows.roles then Applied(rows, RoleRemoval(false, false, 0))
      else if (user, role) !in rows.userRoles then Applied(rows, RoleRemoval(true, false, 0))
      else
        var swept := Sweepable(rows, user);
        Applied(RevokeTokens(rows, swept, at).(userRoles := rows.userRoles - {(user, role)}),
                RoleRemoval(true, true, |swept|))
    case RevokeSessions(user, at) =>
      var swept := Sweepable(rows, user);
      Applied(RevokeTokens(rows, swept, at), SessionsRevoked(|swept|))
    case ResetPassword(reset, passwordHash, now) =>
      if !Redeemable(rows, reset, now) then Applied(rows, ResetRefused)
      else
        var owner := rows.resets[reset].userId;
        var used := rows.resets[reset := rows.resets[reset].(usedAt := Some(now))];
        // A refusal after the reset token was claimed returns null, which commits the claim.
        if owner !in rows.users then Applied(rows.(resets := used), ResetRefused)
        // A missing credential row makes the update throw, which rolls everything back.
        else if owner !in rows.credentials then Applied(rows, ResetFailed)
        else
          Applied(RevokeTokens(rows, LiveTokensOf(rows, owner), now).(
                    resets := used,
                    credentials := rows.credentials[owner := Credential(passwordHash, 0, None, now)]),
                  PasswordReset(owner))
    case Logout(hash, at) =>
      if Unrevoked(rows, hash)
      then Applied(RevokeTokens(rows, {hash}, at), LoggedOut(Some(rows.tokens[hash].userId)))
      else Applied(rows, LoggedOut(None))
    case Cleanup(cutoff, candidates) =>
      var deleted := candidates * EligibleTokens(rows, cutoff);
      Applied(DeleteTokens(rows, deleted), CleanedUp(|deleted|))
  }

  // ---------- what one operation can do to the rows ----------

  /** A token keeps its identity, and keeps the date of its revocation. */
  predicate Keeps(before: Token, after: Token) {
    && after.userId == before.userId && after.audience == before.audience && after.expiresAt == before.expiresAt
    && (before.revokedAt.Some? ==> after.revokedAt == before.revokedAt)
  }

  /** Rows only move forward: no user disappears, every token ever stored keeps what it must keep, and
      a deleted token does not come back. */
  ghost predicate Advances(before: Rows, after: Rows) {
    && before.users.Keys == after.users.Keys
    && (forall h :: h in Ever(before) ==> h in Ever(after) && Keeps(Ever(before)[h], Ever(after)[h]))
    && (forall h :: h in Ever(before) && h in after.tokens ==> h in before.tokens)
  }

  predicate IsBarred(rows: Rows, user: UserId) {
    user in rows.users && ShouldRevoke(rows.users[user])
  }

  /** A suspended or deleted user has no unrevoked refresh token. */
  ghost predicate BarredUsersHoldNothing(rows: Rows) {
    forall h :: h in rows.tokens && IsBarred(rows, rows.tokens[h].userId) ==> rows.tokens[h].revokedAt.Some?
  }

  lemma ApplyAdvances(op: Op, rows: Rows)
    requires Fresh(op, rows)
    ensures Advances(rows, Apply(op, rows).rows)
  {
    match op
    case Issue(user, audience, minted, expiresAt) =>
      MintAdvances(rows, minted, Token(user, audience, expiresAt, None));
    case Rotate(hash, audience, now, minted, expiresAt) =>
      if Apply(op, rows).answer.Rotated? {
        RotationAdvances(rows, hash, now, minted, Token(rows.tokens[hash].userId, audience, expiresAt, None));
      }
    case Cleanup(cutoff, candidates) =>
      DeletionAdvances(rows, candidates * EligibleTokens(rows, cutoff));
    case _ =>
      RevocationAdvances(rows, RevokedBy(op, rows), RevocationTime(op));
      RevocationsRevoke(op, rows);
  }

  /** An operation that neither mints nor deletes revokes what `RevokedBy` says. */
  lemma RevocationsRevoke(op: Op, rows: Rows)
    requires Mints(op).None? && !op.Cleanup?
    ensures var after := Apply(op, rows).rows;
            && after.tokens == RevokeTokens(rows, RevokedBy(op, rows), RevocationTime(op)).tokens
            && after.purged == rows.purged && after.users.Keys == rows.users.Keys
  {
    assert RevokeTokens(rows, {}, RevocationTime(op)).tokens == rows.tokens;
  }

  /** The digest that an operation adds to those ever stored. */
  function MintedBy(op: Op, rows: Rows): set<Hash> {
    var answer := Apply(op, rows).answer;
    if Mints(op).Some? && (answer.Issued? || answer.Rotated?) then {Mints(op).value} else {}
  }

  lemma OnlyMintingAddsTokens(op: Op, rows: Rows)
    ensures Ever(Apply(op, rows).rows).Keys == Ever(rows).Keys + MintedBy(op, rows)
  {
    match op
    case Issue(_, _, _, _) => IssueGrowsEver(op, rows);
    case Rotate(_, _, _, _, _) => RotationGrowsEver(op, rows);
    case Cleanup(cutoff, candidates) => DeletionKeepsEver(rows, candidates * EligibleTokens(rows, cutoff));
    case _ => RevocationKeepsEver(op, rows);
  }

  lemma IssueGrowsEver(op: Op, rows: Rows)
    requires op.Issue?
    ensures Ever(Apply(op, rows).rows).Keys == Ever(rows).Keys + MintedBy(op, rows)
  {
  }

  lemma RotationGrowsEver(op: Op, rows: Rows)
    requires op.Rotate?
    ensures Ever(Apply(op, rows).rows).Keys == Ever(rows).Keys + MintedBy(op, rows)
  {
  }

  lemma RevocationKeepsEver(op: Op, rows: Rows)
    requires Mints(op).None? && !op.Cleanup?
    ensures Ever(Apply(op, rows).rows).Keys == Ever(rows).Keys
  {
    RevocationsRevoke(op, rows);
  }

  lemma DeletionKeepsEver(rows: Rows, hashes: set<Hash>)
    ensures Ever(DeleteTokens(rows, hashes)).Keys == Ever(rows).Keys
  {
  }

  lemma MintAdvances(rows: Rows, minted: Hash, token: Token)
    requires minted !in Ever(rows)
    ensures Advances(rows, rows.(tokens := rows.tokens[minted := token]))
  {
  }

  lemma RotationAdvances(rows: Rows, hash: Hash, at: Time, minted: Hash, token: Token)
    requires minted !in Ever(rows) && Unrevoked(rows, hash)
    ensures Advances(rows, rows.(tokens := rows.tokens[hash := Revoke(rows.tokens[hash], at)][minted := token]))
  {
  }

  lemma RevocationAdvances(rows: Rows, hashes: set<Hash>, at: Time)
    requires forall h :: h in hashes ==> Unrevoked(rows, h)
    ensures Advances(rows, RevokeTokens(rows, hashes, at))
  {
  }

  lemma DeletionAdvances(rows: Rows, hashes: set<Hash>)
    ensures Advances(rows, DeleteTokens(rows, hashes))
  {
  }

  /** The tokens an operation revokes without minting another. */
  function RevokedBy(op: Op, rows: Rows): set<Hash> {
    match op
    case Logout(hash, _) => if Unrevoked(rows, hash) then {hash} else {}
    case _ => if SweptUser(op, rows).Some? then LiveTokensOf(rows, SweptUser(op, rows).value) else {}
  }

  lemma ApplyKeepsBarredUsersEmpty(op: Op, rows: Rows)
    requires Fresh(op, rows) && BarredUsersHoldNothing(rows)
    ensures BarredUsersHoldNothing(Apply(op, rows).rows)
  {
    var after := Apply(op, rows).rows;
    forall h | h in after.tokens && IsBarred(after, after.tokens[h].userId)
      ensures after.tokens[h].revokedAt.Some?
    {
      if op.SetStatus? && h in rows.tokens && op.user == rows.tokens[h].userId {
        assert h in LiveTokensOf(rows, op.user) || rows.tokens[h].revokedAt.Some?;
      }
    }
  }

  /** The users all of whose refresh tokens an operation revokes when it answers as it does on `rows`. */
  function SweptUser(op: Op, rows: Rows): Option<UserId> {
    match op
    case SetStatus(user, status, _) => if user in rows.users && ShouldRevoke(status) then Some(user) else None
    case RemoveRole(user, role, _) =>
      if role in rows.roles && (user, role) in rows.userRoles && user in rows.users then Some(user) else None
    case RevokeSessions(user, _) => if user in rows.users then Some(user) else None
    case ResetPassword(reset, _, _) =>
      if Apply(op, rows).answer.PasswordReset? then Some(Apply(op, rows).answer.owner) else None
    case _ => None
  }

  lemma SweepEmptiesUser(op: Op, rows: Rows)
    requires SweptUser(op, rows).Some?
    ensures LiveTokensOf(Apply(op, rows).rows, SweptUser(op, rows).value) == {}
  {
    var user := SweptUser(op, rows).value;
    var after := Apply(op, rows).rows;
    forall h | h in after.tokens && after.tokens[h].userId == user ensures after.tokens[h].revokedAt.Some? {
      assert h in LiveTokensOf(rows, user) || rows.tokens[h].revokedAt.Some?;
    }
  }

  /** The tokens that an operation ends: the one it rotates, those it revokes, those it deletes. */
  function EndedBy(op: Op, rows: Rows): set<Hash> {
    match op
    case Rotate(hash, _, _, _, _) => if Apply(op, rows).answer.Rotated? then {hash} else {}
    case Cleanup(cutoff, candidates) => candidates * EligibleTokens(rows, cutoff)
    case _ => RevokedBy(op, rows)
  }

  /** Whom a minted token is for. */
  function MintedFor(op: Op, rows: Rows): Option<UserId> {
    match op
    case Issue(user, _, _, _) => Some(user)
    case Rotate(hash, _, _, _, _) => if hash in rows.tokens then Some(rows.tokens[hash].userId) else None
    case _ => None
  }

  function MintedForUser(op: Op, rows: Rows, user: UserId): set<Hash> {
    if MintedFor(op, rows) == Some(user) then MintedBy(op, rows) else {}
  }

  lemma IssueIsAccountedFor(op: Op, rows: Rows, user: UserId)
    requires Fresh(op, rows) && op.Issue?
    ensures Balances(op, rows, user)
  {
  }

  lemma RotationIsAccountedFor(op: Op, rows: Rows, user: UserId)
    requires Fresh(op, rows) && op.Rotate?
    ensures Balances(op, rows, user)
  {
  }

  lemma DeletionIsAccountedFor(op: Op, rows: Rows, user: UserId)
    requires op.Cleanup?
    ensures Balances(op, rows, user)
  {
  }

  lemma RevocationIsAccountedFor(op: Op, rows: Rows, user: UserId)
    requires Mints(op).None? && !op.Cleanup?
    ensures Balances(op, rows, user)
  {
    RevocationsRevoke(op, rows);
    RevokedAreGone(rows, RevokedBy(op, rows), RevocationTime(op), Apply(op, rows).rows, user);
  }

  lemma RevokedAreGone(rows: Rows, hashes: set<Hash>, at: Time, after: Rows, user: UserId)
    requires after.tokens == RevokeTokens(rows, hashes, at).tokens
    ensures LiveTokensOf(after, user) == LiveTokensOf(rows, user) - hashes
  {
  }

  ghost predicate Balances(op: Op, rows: Rows, user: UserId) {
    LiveTokensOf(Apply(op, rows).rows, user)
    == LiveTokensOf(rows, user) - EndedBy(op, rows) + MintedForUser(op, rows, user)
  }

  /** The books balance: each user's live tokens after an operation are those before it, less those it
      ended, and with the one it minted for that user. */
  lemma LiveTokensAreAccountedFor(op: Op, rows: Rows, user: UserId)
    requires Fresh(op, rows)
    ensures LiveTokensOf(Apply(op, rows).rows, user)
         == LiveTokensOf(rows, user) - EndedBy(op, rows) + MintedForUser(op, rows, user)
  {
    match op
    case Issue(_, _, _, _) => IssueIsAccountedFor(op, rows, user);
    case Rotate(_, _, _, _, _) => RotationIsAccountedFor(op, rows, user);
    case Cleanup(_, _) => DeletionIsAccountedFor(op, rows, user);
    case _ => RevocationIsAccountedFor(op, rows, user);
  }

  /** What a status did to a user's sessions shows when the user is active again: a token rotates then
      exactly when it could before and the status was not suspension or deletion. */
  lemma ReactivationRestoresSessions(rows: Rows, user: UserId, status: Status, at: Time, later: Time, op: Op)
    requires user in rows.users && op.Rotate? && Fresh(op, rows)
    requires op.hash in rows.tokens && rows.tokens[op.hash].userId == user
    ensures var during := Apply(SetStatus(user, status, at), rows).rows;
            var after := Apply(SetStatus(user, Active, later), during).rows;
            var spendable := Spendable(rows, op.hash, op.now) && rows.tokens[op.hash].audience == op.audience;
            && (Apply(op, during).answer.Rotated? <==> spendable && status == Active)
            && (Apply(op, after).answer.Rotated? <==> spendable && !ShouldRevoke(status))
  {
  }
}
