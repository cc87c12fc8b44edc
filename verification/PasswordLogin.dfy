/** Password login with the failure counter and the temporary lock: a read, a password check, and a
    later update that counts the failure. */
module PasswordLogin {
  import opened Wrappers
  import opened RefreshLedger

  const LOCK_MS: int := 15 * 60 * 1000
  const LOCK_THRESHOLD: nat := 5

  datatype Account = Account(userId: UserId, status: Status, failedLoginCount: nat, lockedUntil: Option<Time>)

  datatype Refusal = AccountLocked | EmailVerificationRequired | InvalidCredentials | UserInactive

  datatype Verdict = Granted | Refused(reason: Refusal)

  predicate IsLocked(account: Account, clock: Time) {
    account.lockedUntil.Some? && account.lockedUntil.value > clock
  }

  /** An attempt that reaches the failure counter. */
  predicate CountsAsFailure(account: Account, verified: bool, clock: Time) {
    account.status == Active && !IsLocked(account, clock) && !verified
  }

  function Decide(account: Option<Account>, verified: bool, clock: Time): Verdict {
    if account.None? then Refused(UserInactive)
    else
      var Account(_, status, _, _) := account.value;
      var locked := IsLocked(account.value, clock);
      if status == PendingEmailVerification && verified && !locked then Refused(EmailVerificationRequired)
      else if status == Active && !locked && verified then Granted
      else Refused(if locked then AccountLocked else if status == Active then InvalidCredentials else UserInactive)
  }

  /** Both updates of the failure transaction. The counter survives the expiry of a lock. */
  function AfterFailure(account: Account, clock: Time): Account {
    var count := account.failedLoginCount + 1;
    account.(failedLoginCount := count,
             lockedUntil := if count >= LOCK_THRESHOLD then Some(clock + LOCK_MS) else account.lockedUntil)
  }

  function AfterSuccess(account: Account): Account {
    account.(failedLoginCount := 0, lockedUntil := None)
  }

  /** The credential rows by normalised email. */
  class CredentialStore {
    var accounts: map<string, Account>

    constructor (accounts: map<string, Account>)
      ensures this.accounts == accounts
    {
      this.accounts := accounts;
    }

    method MarkLoginFailure(email: string, clock: Time)
      modifies this
      ensures accounts == if email in old(accounts)
                          then old(accounts)[email := AfterFailure(old(accounts)[email], clock)] else old(accounts)
    {
      var lockedUntil := clock + 15 * 60 * 1000;
      if email !in accounts {
        return;
      }
      accounts := accounts[email := accounts[email].(failedLoginCount := accounts[email].failedLoginCount + 1)];
      if accounts[email].failedLoginCount >= 5 {
        accounts := accounts[email := accounts[email].(lockedUntil := Some(lockedUntil))];
      }
    }

    method MarkLoginSuccess(email: string)
      requires email in accounts
      modifies this
      ensures accounts == old(accounts)[email := AfterSuccess(old(accounts)[email])]
    {
      accounts := accounts[email := accounts[email].(failedLoginCount := 0, lockedUntil := None)];
    }

    /** One login with no other request in between; `verified` is the outcome of the password hash check. */
    method LoginWithPassword(email: string, verified: bool, clock: Time, failureClock: Time) returns (verdict: Verdict)
      modifies this
      ensures var account := if email in old(accounts) then Some(old(accounts)[email]) else None;
              && verdict == Decide(account, verified, clock)
              && accounts ==
                 if verdict.Granted? then old(accounts)[email := AfterSuccess(old(accounts)[email])]
                 else if account.Some? && CountsAsFailure(account.value, verified, clock)
                 then old(accounts)[email := AfterFailure(old(accounts)[email], failureClock)]
                 else old(accounts)
    {
      var credential := if email in accounts then Some(accounts[email]) else None;
      var credentialLocked := credential.Some? && IsLocked(credential.value, clock);
      if credential.Some? && credential.value.status == PendingEmailVerification && verified && !credentialLocked {
        return Refused(EmailVerificationRequired);
      }
      var canLogin := credential.Some? && credential.value.status == Active && !credentialLocked && verified;
      if !canLogin {
        var active := credential.Some? && credential.value.status == Active;
        if active && !credentialLocked {
          MarkLoginFailure(email, failureClock);
        }
        return Refused(if credentialLocked then AccountLocked else if active then InvalidCredentials else UserInactive);
      }
      MarkLoginSuccess(email);
      return Granted;
    }
  }

  // ---------- racing wrong passwords ----------

  /** Attempts by what they have done: nothing yet, read the row and found it unlocked, recorded their
      failure, or been refused because of the lock they read. */
  datatype Race = Race(
    account: Account, waiting: set<nat>, unlocked: set<nat>, recorded: set<nat>, refused: set<nat>)

  datatype Action = Read(attempt: nat, clock: Time) | Record(attempt: nat, clock: Time)

  predicate Enabled(r: Race, act: Action) {
    match act
    case Read(i, _) => i in r.waiting
    case Record(i, _) => i in r.unlocked
  }

  function Next(r: Race, act: Action): Race
    requires Enabled(r, act)
  {
    match act
    case Read(i, clock) =>
      if IsLocked(r.account, clock) then r.(waiting := r.waiting - {i}, refused := r.refused + {i})
      else r.(waiting := r.waiting - {i}, unlocked := r.unlocked + {i})
    case Record(i, clock) =>
      r.(account := AfterFailure(r.account, clock), unlocked := r.unlocked - {i}, recorded := r.recorded + {i})
  }

  /** The run from `r` to `end`, with every clock read before a lock set since `start` can expire. */
  ghost predicate Races(r: Race, acts: seq<Action>, end: Race, start: Time)
    decreases |acts|
  {
    if acts == [] then end == r
    else
      && Enabled(r, acts[0]) && start <= acts[0].clock < start + LOCK_MS
      && Races(Next(r, acts[0]), acts[1..], end, start)
  }

  ghost predicate RaceInv(r: Race, all: set<nat>, start: Time) {
    && r.waiting <= all && r.unlocked <= all && r.recorded <= all
    && |r.waiting| + |r.unlocked| + |r.recorded| + |r.refused| == |all|
    && r.account.failedLoginCount == |r.recorded|
    && (r.account.lockedUntil.Some? <==> |r.recorded| >= LOCK_THRESHOLD)
    && (r.account.lockedUntil.Some? ==> r.account.lockedUntil.value >= start + LOCK_MS)
    && (r.refused != {} ==> |r.recorded| >= LOCK_THRESHOLD)
    && r.waiting !! r.unlocked && r.waiting !! r.refused && r.unlocked !! r.recorded
    && r.waiting !! r.recorded
  }

  lemma Moved(from: set<nat>, to: set<nat>, i: nat)
    requires i in from && i !in to
    ensures |from - {i}| == |from| - 1 && |to + {i}| == |to| + 1
  {
  }

  lemma RaceStep(r: Race, act: Action, all: set<nat>, start: Time)
    requires RaceInv(r, all, start) && Enabled(r, act) && start <= act.clock < start + LOCK_MS
    ensures RaceInv(Next(r, act), all, start)
  {
    match act
    case Read(i, clock) =>
      Moved(r.waiting, if IsLocked(r.account, clock) then r.refused else r.unlocked, i);
    case Record(i, _) =>
      Moved(r.unlocked, r.recorded, i);
  }

  lemma {:induction false} RaceKeepsInv(r: Race, acts: seq<Action>, end: Race, all: set<nat>, start: Time)
    requires RaceInv(r, all, start) && Races(r, acts, end, start)
    ensures RaceInv(end, all, start)
    decreases |acts|
  {
    if acts != [] {
      RaceStep(r, acts[0], all, start);
      RaceKeepsInv(Next(r, acts[0]), acts[1..], end, all, start);
    }
  }

  /** Any number of wrong passwords race on an unlocked account with no failures. When all have ended the
      count is the number of attempts that read the account as unlocked. Five or more attempts leave the
      account locked with a count from five to their number; fewer leave it unlocked and all counted. */
  lemma RacingFailuresAreCounted(account: Account, all: set<nat>, acts: seq<Action>, end: Race, start: Time)
    requires account.failedLoginCount == 0 && account.lockedUntil.None?
    requires Races(Race(account, all, {}, {}, {}), acts, end, start)
    requires end.waiting == {} && end.unlocked == {}
    ensures end.account.failedLoginCount == |end.recorded| && end.recorded <= all
    ensures if |all| >= 5 then 5 <= end.account.failedLoginCount <= |all| && end.account.lockedUntil.Some?
            else end.account.failedLoginCount == |all| && end.account.lockedUntil.None?
  {
    RaceKeepsInv(Race(account, all, {}, {}, {}), acts, end, all, start);
  }

  // ---------- one wrong password after another ----------

  /** One attempt: the clock of the lock check, then the clock of the failure update. */
  datatype Attempt = Attempt(clock: Time, failureClock: Time)

  /** No attempt starts before the previous one has recorded its failure. */
  predicate OneAfterAnother(attempts: seq<Attempt>) {
    && (forall i :: 0 <= i < |attempts| ==> attempts[i].clock <= attempts[i].failureClock)
    && (forall i, j :: 0 <= i < j < |attempts| ==> attempts[i].failureClock <= attempts[j].clock)
  }

  /** How many of the attempts are checked against the password hash with the account unlocked. */
  function Evaluated(account: Account, attempts: seq<Attempt>): nat
    decreases |attempts|
  {
    if attempts == [] then 0
    else if IsLocked(account, attempts[0].clock) then Evaluated(account, attempts[1..])
    else 1 + Evaluated(AfterFailure(account, attempts[0].failureClock), attempts[1..])
  }

  function LastClock(attempts: seq<Attempt>): Time
    requires attempts != []
  {
    attempts[|attempts| - 1].clock
  }

  /** Once the count is at the threshold each evaluated attempt locks the account for another period. */
  lemma {:induction false} LockedAttemptsAreSpaced(account: Account, attempts: seq<Attempt>)
    requires attempts != [] && OneAfterAnother(attempts)
    requires account.failedLoginCount >= LOCK_THRESHOLD - 1 && account.lockedUntil.Some?
    ensures Evaluated(account, attempts) > 0 ==>
              (Evaluated(account, attempts) - 1) * LOCK_MS <= LastClock(attempts) - account.lockedUntil.value
    ensures (Evaluated(account, attempts) - 1) * LOCK_MS <= LastClock(attempts) - attempts[0].clock
    decreases |attempts|
  {
    var rest := attempts[1..];
    if rest != [] {
      if IsLocked(account, attempts[0].clock) {
        LockedAttemptsAreSpaced(account, rest);
      } else {
        LockedAttemptsAreSpaced(AfterFailure(account, attempts[0].failureClock), rest);
      }
    }
  }

  lemma {:induction false} GuessesAreSpaced(account: Account, attempts: seq<Attempt>)
    requires attempts != [] && OneAfterAnother(attempts)
    requires account.failedLoginCount < LOCK_THRESHOLD
    ensures (Evaluated(account, attempts) - (LOCK_THRESHOLD - account.failedLoginCount)) * LOCK_MS
         <= LastClock(attempts) - attempts[0].clock
    decreases |attempts|
  {
    var rest := attempts[1..];
    if rest != [] {
      if IsLocked(account, attempts[0].clock) {
        GuessesAreSpaced(account, rest);
      } else {
        var next := AfterFailure(account, attempts[0].failureClock);
        if next.failedLoginCount < LOCK_THRESHOLD {
          GuessesAreSpaced(next, rest);
        } else {
          LockedAttemptsAreSpaced(next, rest);
        }
      }
    }
  }

  lemma SpacingBounds(n: int, free: int, span: int)
    requires (n - free) * LOCK_MS <= span
    ensures n <= free + span / LOCK_MS
  {
  }

  /** With the count at the threshold and a lock set, at most 1 + T / 15 minutes are evaluated. */
  lemma LockedBound(account: Account, attempts: seq<Attempt>)
    requires attempts != [] && OneAfterAnother(attempts)
    requires account.failedLoginCount >= LOCK_THRESHOLD - 1 && account.lockedUntil.Some?
    ensures Evaluated(account, attempts) <= 1 + (LastClock(attempts) - attempts[0].clock) / LOCK_MS
  {
    LockedAttemptsAreSpaced(account, attempts);
    SpacingBounds(Evaluated(account, attempts), 1, LastClock(attempts) - attempts[0].clock);
  }

  /** In a sequence of wrong passwords over a span T at most 5 + T / 15 minutes are evaluated, because the
      count survives the lock and every later failure locks again. */
  lemma GuessesAreBounded(account: Account, attempts: seq<Attempt>)
    requires attempts != [] && OneAfterAnother(attempts)
    requires account.failedLoginCount < LOCK_THRESHOLD
    ensures Evaluated(account, attempts)
         <= LOCK_THRESHOLD - account.failedLoginCount + (LastClock(attempts) - attempts[0].clock) / LOCK_MS
  {
    GuessesAreSpaced(account, attempts);
    SpacingBounds(Evaluated(account, attempts), LOCK_THRESHOLD - account.failedLoginCount,
                  LastClock(attempts) - attempts[0].clock);
  }

  /** `n` attempts, one whenever the lock of the one before runs out. */
  function Patient(from: Time, n: nat): seq<Attempt>
    decreases n
  {
    if n == 0 then [] else [Attempt(from, from)] + Patient(from + LOCK_MS, n - 1)
  }

  lemma {:induction false} PatientAttemptsAreEvaluated(account: Account, from: Time, n: nat)
    requires account.failedLoginCount >= LOCK_THRESHOLD - 1 && !IsLocked(account, from)
    ensures Evaluated(account, Patient(from, n)) == n
    decreases n
  {
    if n > 0 {
      PatientAttemptsAreEvaluated(AfterFailure(account, from), from + LOCK_MS, n - 1);
      assert Patient(from, n)[1..] == Patient(from + LOCK_MS, n - 1);
    }
  }

  /** One attempt after another, from `from` on and over `n - 1` periods. */
  lemma {:induction false} PatientAttemptsFollow(from: Time, n: nat)
    requires n > 0
    ensures var attempts := Patient(from, n);
            && attempts != [] && OneAfterAnother(attempts) && attempts[0].clock == from
            && LastClock(attempts) == from + (n - 1) * LOCK_MS
    decreases n
  {
    if n > 1 {
      PatientAttemptsFollow(from + LOCK_MS, n - 1);
      OneBefore(Attempt(from, from), Patient(from + LOCK_MS, n - 1));
    }
  }

  lemma OneBefore(first: Attempt, later: seq<Attempt>)
    requires first.clock <= first.failureClock && OneAfterAnother(later)
    requires later != [] && first.failureClock <= later[0].clock
    ensures OneAfterAnother([first] + later)
  {
    var attempts := [first] + later;
    forall i, j | 0 <= i < j < |attempts| ensures attempts[i].failureClock <= attempts[j].clock {
      assert later[0].clock <= later[0].failureClock;
      assert j > 1 ==> later[0].failureClock <= later[j - 1].clock;
    }
  }

  /** `k` attempts at once, then the rest. */
  function Burst(from: Time, k: nat, rest: seq<Attempt>): seq<Attempt> {
    if k == 0 then rest else [Attempt(from, from)] + Burst(from, k - 1, rest)
  }

  lemma {:induction false} BurstIsEvaluated(account: Account, from: Time, k: nat, rest: seq<Attempt>)
    requires !IsLocked(account, from) && account.failedLoginCount + k < LOCK_THRESHOLD
    ensures Evaluated(account, Burst(from, k, rest))
         == k + Evaluated(account.(failedLoginCount := account.failedLoginCount + k), rest)
    decreases k
  {
    if k > 0 {
      BurstIsEvaluated(AfterFailure(account, from), from, k - 1, rest);
      assert Burst(from, k, rest)[1..] == Burst(from, k - 1, rest);
    }
  }

  lemma {:induction false} BurstComesFirst(from: Time, k: nat, rest: seq<Attempt>)
    requires OneAfterAnother(rest) && rest != [] && rest[0].clock == from
    ensures var attempts := Burst(from, k, rest);
            && attempts != [] && OneAfterAnother(attempts)
            && attempts[0].clock == from && LastClock(attempts) == LastClock(rest)
    decreases k
  {
    if k > 0 {
      BurstComesFirst(from, k - 1, rest);
      OneBefore(Attempt(from, from), Burst(from, k - 1, rest));
    }
  }

  /** The bound is reached from every count below the threshold and over any number of periods: what is
      left of the count at once, then one attempt at the end of every lock. */
  lemma GuessBoundIsReached(account: Account, from: Time, n: nat) returns (attempts: seq<Attempt>)
    requires account.failedLoginCount < LOCK_THRESHOLD && !IsLocked(account, from)
    ensures attempts != [] && OneAfterAnother(attempts)
    ensures attempts[0].clock == from && LastClock(attempts) == from + n * LOCK_MS
    ensures Evaluated(account, attempts)
         == LOCK_THRESHOLD - account.failedLoginCount + (LastClock(attempts) - attempts[0].clock) / LOCK_MS
  {
    var k := LOCK_THRESHOLD - 1 - account.failedLoginCount;
    var patient := Patient(from, n + 1);
    attempts := Burst(from, k, patient);
    PatientAttemptsAreEvaluated(account.(failedLoginCount := LOCK_THRESHOLD - 1), from, n + 1);
    PatientAttemptsFollow(from, n + 1);
    BurstIsEvaluated(account, from, k, patient);
    BurstComesFirst(from, k, patient);
    BoundOfWholePeriods(Evaluated(account, attempts), LOCK_THRESHOLD - account.failedLoginCount, n,
                        LastClock(attempts) - attempts[0].clock);
  }

  lemma BoundOfWholePeriods(evaluated: int, free: int, periods: nat, span: int)
    requires evaluated == free + periods && span == periods * LOCK_MS
    ensures evaluated == free + span / LOCK_MS
  {
  }

  // ---------- after a success ----------

  /** Wrong passwords recorded one after another, at these clocks. */
  function AfterFailures(account: Account, clocks: seq<Time>): Account
    decreases |clocks|
  {
    if clocks == [] then account
    else AfterFailure(AfterFailures(account, clocks[..|clocks| - 1]), clocks[|clocks| - 1])
  }

  /** A success forgets every earlier failure: the account is unlocked, and locks again with the fifth
      failure from then on, for a full period after the latest one. */
  lemma {:induction false} SuccessForgetsFailures(account: Account, clocks: seq<Time>)
    ensures var end := AfterFailures(AfterSuccess(account), clocks);
            && end.failedLoginCount == |clocks|
            && end.lockedUntil == if |clocks| < 5 then None else Some(clocks[|clocks| - 1] + LOCK_MS)
    decreases |clocks|
  {
    if clocks != [] {
      SuccessForgetsFailures(account, clocks[..|clocks| - 1]);
    }
  }
}
