/** The tables and the service code that updates them, statement by statement, when nothing else runs.
    Each request is proved to be one atomic step of the ledger. */
module AuthDatabase {
  import opened Wrappers
  import opened RefreshLedger

  datatype CleanupReport = CleanupReport(cutoff: Time, deletedCount: nat)

  class Database {
    var users: map<UserId, Status>
    var tokens: map<Hash, Token>
    var roles: set<RoleKey>
    var userRoles: set<(UserId, RoleKey)>
    var resets: map<Hash, ResetToken>
    var credentials: map<UserId, Credential>
    ghost var purged: map<Hash, Token>

    ghost function Contents(): Rows
      reads this
    {
      Rows(users, tokens, roles, userRoles, resets, credentials, purged)
    }

    constructor (rows: Rows)
      ensures Contents() == rows
    {
      users, tokens, roles := rows.users, rows.tokens, rows.roles;
      userRoles, resets, credentials := rows.userRoles, rows.resets, rows.credentials;
      purged := rows.purged;
    }

    // ---------- token service ----------

    /** Selects the active user's row for update, then reads the status again. */
    method LockActiveUserForTokenIssue(userId: UserId) returns (locked: bool)
      ensures locked == IsActive(Contents(), userId)
    {
      if userId !in users || users[userId] != Active {
        return false;
      }
      locked := users[userId] == Active;
    }

    method PersistRefreshTokenForUser(userId: UserId, audience: string, minted: Hash, expiresAt: Time)
      modifies this`tokens
      ensures tokens == old(tokens)[minted := Token(userId, audience, expiresAt, None)]
      ensures minted !in Ever(old(Contents())) ==>
                && Advances(old(Contents()), Contents())
                && LiveTokensOf(Contents(), userId) == LiveTokensOf(old(Contents()), userId) + {minted}
                && forall u :: u != userId ==> LiveTokensOf(Contents(), u) == LiveTokensOf(old(Contents()), u)
    {
      tokens := tokens[minted := Token(userId, audience, expiresAt, None)];
      if minted !in Ever(old(Contents())) {
        MintAdvances(old(Contents()), minted, tokens[minted]);
      }
    }

    method IssueTokenPair(userId: UserId, audience: string, minted: Hash, expiresAt: Time) returns (answer: Answer)
      modifies this`tokens
      ensures Applied(Contents(), answer) == Apply(Issue(userId, audience, minted, expiresAt), old(Contents()))
    {
      var locked := LockActiveUserForTokenIssue(userId);
      if !locked {
        return IssueDenied;
      }
      PersistRefreshTokenForUser(userId, audience, minted, expiresAt);
      return Issued;
    }

    method RotateRefreshToken(hash: Hash, payloadAudience: string, now: Time, minted: Hash, expiresAt: Time)
      returns (answer: Answer)
      modifies this`tokens
      ensures Applied(Contents(), answer)
           == Apply(Rotate(hash, payloadAudience, now, minted, expiresAt), old(Contents()))
    {
      if hash !in tokens || tokens[hash].audience != payloadAudience {
        return RotateDenied;
      }
      var storedToken := tokens[hash];
      var locked := LockActiveUserForTokenIssue(storedToken.userId);
      if !locked {
        return RotateDenied;
      }
      var revoked := RevokeWhereSpendable(hash, now);
      if revoked != 1 {
        return RotateDenied;
      }
      PersistRefreshTokenForUser(storedToken.userId, storedToken.audience, minted, expiresAt);
      return Rotated(storedToken.userId);
    }

    /** UPDATE ... WHERE tokenHash, revokedAt IS NULL and expiresAt > now. */
    method RevokeWhereSpendable(hash: Hash, now: Time) returns (count: nat)
      modifies this`tokens
      ensures count == if Spendable(old(Contents()), hash, now) then 1 else 0
      ensures tokens == if count == 1 then old(tokens)[hash := Revoke(old(tokens)[hash], now)] else old(tokens)
    {
      if hash in tokens && tokens[hash].revokedAt.None? && tokens[hash].expiresAt > now {
        tokens := tokens[hash := tokens[hash].(revokedAt := Some(now))];
        return 1;
      }
      return 0;
    }

    method RevokeRefreshToken(hash: Hash, at: Time) returns (userId: Option<UserId>)
      modifies this`tokens
      ensures Applied(Contents(), LoggedOut(userId)) == Apply(Logout(hash, at), old(Contents()))
    {
      userId := if hash in tokens && tokens[hash].revokedAt.None? then Some(tokens[hash].userId) else None;
      if hash in tokens && tokens[hash].revokedAt.None? {
        tokens := tokens[hash := tokens[hash].(revokedAt := Some(at))];
      }
      assert userId.Some? ==> tokens == RevokeTokens(old(Contents()), {hash}, at).tokens;
    }

    // ---------- administration ----------

    method UpdateUserStatus(userId: UserId, status: Status) returns (changed: bool)
      modifies this`users
      ensures changed == (userId in old(users))
      ensures users == if changed then old(users)[userId := status] else old(users)
    {
      changed := userId in users;
      if changed {
        users := users[userId := status];
      }
    }

    /** Locks the user row, then revokes every unrevoked token of the user. */
    method RevokeAllRefreshTokensForUser(userId: UserId, revokedAt: Time) returns (count: nat)
      modifies this`tokens
      ensures Contents() == RevokeTokens(old(Contents()), Sweepable(old(Contents()), userId), revokedAt)
      ensures count == |Sweepable(old(Contents()), userId)|
    {
      if userId !in users {
        assert tokens == RevokeTokens(Contents(), {}, revokedAt).tokens;
        return 0;
      }
      count := |set h | h in tokens && tokens[h].userId == userId && tokens[h].revokedAt.None?|;
      tokens := map h | h in tokens ::
          if tokens[h].userId == userId && tokens[h].revokedAt.None?
          then tokens[h].(revokedAt := Some(revokedAt)) else tokens[h];
    }

    method SetUserStatus(userId: UserId, status: Status, changedAt: Time) returns (answer: Answer)
      modifies this`users, this`tokens
      ensures Applied(Contents(), answer) == Apply(SetStatus(userId, status, changedAt), old(Contents()))
    {
      assert RevokeTokens(Contents(), {}, changedAt).tokens == tokens;
      var changed := UpdateUserStatus(userId, status);
      var revoked := 0;
      if ShouldRevoke(status) {
        assert changed ==> LiveTokensOf(Contents(), userId) == LiveTokensOf(old(Contents()), userId);
        revoked := RevokeAllRefreshTokensForUser(userId, changedAt);
      }
      return StatusSet(changed, revoked);
    }

    method UpsertRole(role: RoleKey)
      modifies this`roles
      ensures roles == old(roles) + {role}
    {
      roles := roles + {role};
    }

    /** None stands for the error that a missing user causes. */
    method AssignRoleToUser(userId: UserId, role: RoleKey) returns (added: Option<bool>)
      modifies this`userRoles
      ensures added == if userId in users then Some((userId, role) !in old(userRoles)) else None
      ensures userRoles == if added.Some? then old(userRoles) + {(userId, role)} else old(userRoles)
    {
      if userId !in users {
        return None;
      }
      added := Some((userId, role) !in userRoles);
      userRoles := userRoles + {(userId, role)};
    }

    method AssignRole(userId: UserId, role: RoleKey) returns (answer: Answer)
      modifies this`roles, this`userRoles
      ensures Applied(Contents(), answer) == Apply(RefreshLedger.AssignRole(userId, role), old(Contents()))
    {
      var before := roles;
      UpsertRole(role);
      var added := AssignRoleToUser(userId, role);
      if added.None? {
        roles := before;
        return AssignmentFailed;
      }
      return RoleAssigned(added.value);
    }

    method RemoveRoleFromUser(userId: UserId, role: RoleKey) returns (removed: bool)
      modifies this`userRoles
      ensures removed == ((userId, role) in old(userRoles)) && userRoles == old(userRoles) - {(userId, role)}
    {
      removed := (userId, role) in userRoles;
      userRoles := userRoles - {(userId, role)};
    }

    method RemoveRole(userId: UserId, role: RoleKey, revokedAt: Time) returns (answer: Answer)
      modifies this`userRoles, this`tokens
      ensures Applied(Contents(), answer)
           == Apply(RefreshLedger.RemoveRole(userId, role, revokedAt), old(Contents()))
    {
      if role !in roles {
        return RoleRemoval(false, false, 0);
      }
      var removed := RemoveRoleFromUser(userId, role);
      var revoked := 0;
      if removed {
        assert Sweepable(Contents(), userId) == Sweepable(old(Contents()), userId);
        revoked := RevokeAllRefreshTokensForUser(userId, revokedAt);
      }
      return RoleRemoval(true, removed, revoked);
    }

    method RevokeSessions(userId: UserId, revokedAt: Time) returns (answer: Answer)
      modifies this`tokens
      ensures Applied(Contents(), answer)
           == Apply(RefreshLedger.RevokeSessions(userId, revokedAt), old(Contents()))
    {
      var revoked := RevokeAllRefreshTokensForUser(userId, revokedAt);
      return SessionsRevoked(revoked);
    }

    // ---------- password reset ----------

    /** A null result commits what was written so far; only a thrown error rolls it back. */
    method ResetPasswordWithToken(tokenHash: Hash, passwordHash: string, now: Time) returns (answer: Answer)
      modifies this`resets, this`credentials, this`tokens
      ensures Applied(Contents(), answer) == Apply(ResetPassword(tokenHash, passwordHash, now), old(Contents()))
    {
      if !(tokenHash in resets && resets[tokenHash].usedAt.None? && resets[tokenHash].expiresAt > now) {
        return ResetRefused;
      }
      var before := resets;
      var resetToken := resets[tokenHash];
      resets := resets[tokenHash := resetToken.(usedAt := Some(now))];
      if resetToken.userId !in users {
        return ResetRefused;
      }
      if resetToken.userId !in credentials {
        resets := before;
        return ResetFailed;
      }
      credentials := credentials[resetToken.userId := Credential(passwordHash, 0, None, now)];
      assert Sweepable(Contents(), resetToken.userId) == LiveTokensOf(old(Contents()), resetToken.userId);
      var revoked := RevokeAllRefreshTokensForUser(resetToken.userId, now);
      return PasswordReset(resetToken.userId);
    }

    // ---------- retention ----------

    method CleanupRefreshTokens(dryRun: bool, now: Time, retentionDays: int)
      returns (r: Result<CleanupReport, string>)
      modifies this`tokens, this`purged
      ensures r.Err? <==> retentionDays < 1
      ensures r.Ok? ==> && r.value.cutoff == CutoffForRetention(now, retentionDays) < now
                        && r.value.deletedCount == |EligibleTokens(old(Contents()), r.value.cutoff)|
      ensures r.Err? || dryRun ==> Contents() == old(Contents())
      ensures r.Ok? && !dryRun ==>
                var eligible := EligibleTokens(old(Contents()), r.value.cutoff);
                Applied(Contents(), CleanedUp(r.value.deletedCount))
                == Apply(Cleanup(r.value.cutoff, eligible), old(Contents()))
    {
      if retentionDays < 1 {
        return Err("retentionDays must be a positive integer");
      }
      var cutoff := now - retentionDays * (24 * 60 * 60 * 1000);
      var eligible := set h | h in tokens
                              && (tokens[h].expiresAt < cutoff
                                  || (tokens[h].revokedAt.Some? && tokens[h].revokedAt.value < cutoff));
      assert eligible == EligibleTokens(Contents(), cutoff);
      assert eligible * eligible == eligible;
      if !dryRun {
        purged := purged + Purged(tokens, eligible);
        tokens := tokens - eligible;
      }
      return Ok(CleanupReport(cutoff, |eligible|));
    }
  }
}
