/** One-time handoff codes: creation, exchange, and any interleaving of exchanges over one store. */
module AuthHandoff {
  import opened Wrappers
  import opened RedisStore

  const HANDOFF_TTL_SECONDS: nat := 120
  const MAX_GENERATION_ATTEMPTS: nat := 3

  /** A text compared with an S256 transform. SHA-256 is taken to be injective, so the digest of a
      verifier is written as the verifier under a constructor (section 4.2 of RFC 7636). */
  datatype Challenge = S256(verifier: string) | NoDigest(text: string)

  datatype Provider = Google | Naver | Kakao

  datatype LoginMethod = OAuth | Password

  datatype Metadata = Metadata(
    clientId: string, audience: string, redirectUri: string, userId: string, provider: Option<Provider>,
    loginMethod: LoginMethod, codeChallenge: Challenge, state: Option<string>, expiresAt: Time)

  datatype NewHandoff = NewHandoff(
    clientId: string, audience: string, redirectUri: string, userId: string, provider: Option<Provider>,
    loginMethod: LoginMethod, codeChallenge: Challenge, state: Option<string>)

  /** The record expires with the code, by the clock of the server that made it. */
  function Stamped(input: NewHandoff, clock: Time): Metadata {
    Metadata(input.clientId, input.audience, input.redirectUri, input.userId, input.provider, input.loginMethod,
             input.codeChallenge, input.state, clock + HANDOFF_TTL_SECONDS * 1000)
  }

  /** A stored string: the JSON text of a valid record, or anything else. */
  datatype Stored = Record(metadata: Metadata) | Unparsable(text: string)

  datatype Exchange = Exchange(clientId: string, redirectUri: string, code: string, codeVerifier: string)

  /** The check of section 4.6 of RFC 7636, with the client and redirect URI the code was issued for. */
  predicate MatchesExchangeBinding(metadata: Metadata, input: Exchange) {
    && metadata.clientId == input.clientId
    && metadata.redirectUri == input.redirectUri
    && metadata.codeChallenge == S256(input.codeVerifier)
  }

  /** An empty text counts as no value at all. */
  predicate IsBlank(stored: Stored) {
    stored == Unparsable("")
  }

  predicate Expired(stored: Stored, clock: Time) {
    stored.Unparsable? || stored.metadata.expiresAt <= clock
  }

  // ---------- the store, used by one caller at a time ----------

  /** The first of the generated codes that is not in use. */
  function FirstUnused<V>(entries: map<string, Entry<V>>, now: Time, codes: seq<string>): Option<string> {
    if codes == [] then None
    else if !IsLive(entries, now, codes[0]) then Some(codes[0])
    else FirstUnused(entries, now, codes[1..])
  }

  /** What one exchange may do to the store and what it may be granted. */
  ghost predicate Consumes(before: map<string, Entry<Stored>>, now: Time, input: Exchange, clock: Time,
                           r: Option<Metadata>, after: map<string, Entry<Stored>>) {
    var stored := Lookup(before, now, input.code);
    && (r.Some? <==> && stored.Some? && !Expired(stored.value, clock)
                     && MatchesExchangeBinding(stored.value.metadata, input))
    && (r.Some? ==> stored == Some(Record(r.value)))
    && after == if r.Some? || (stored.Some? && !IsBlank(stored.value) && Expired(stored.value, clock))
                then before - {input.code} else before
  }

  /** Keys are the digests of codes; with an injective digest the code itself serves as the key. */
  class AuthHandoffStore {
    const redis: Redis<Stored>

    constructor (redis: Redis<Stored>)
      ensures this.redis == redis
    {
      this.redis := redis;
    }

    /** `codes` are the random codes the loop would draw. */
    method Create(input: NewHandoff, clock: Time, codes: seq<string>) returns (code: Option<string>)
      requires |codes| == MAX_GENERATION_ATTEMPTS
      modifies redis`entries
      ensures code == FirstUnused(old(redis.entries), redis.now, codes)
      ensures redis.entries
           == if code.None? then old(redis.entries)
              else old(redis.entries)[
                code.value := Expiring(Record(Stamped(input, clock)), redis.now, HANDOFF_TTL_SECONDS)]
    {
      var metadata := Metadata(input.clientId, input.audience, input.redirectUri, input.userId, input.provider,
                               input.loginMethod, input.codeChallenge, input.state, clock + HANDOFF_TTL_SECONDS * 1000);
      var attempt := 0;
      while attempt < MAX_GENERATION_ATTEMPTS
        invariant 0 <= attempt <= MAX_GENERATION_ATTEMPTS
        invariant redis.entries == old(redis.entries)
        invariant FirstUnused(old(redis.entries), redis.now, codes)
               == FirstUnused(old(redis.entries), redis.now, codes[attempt..])
      {
        var stored := redis.SetIfAbsent(codes[attempt], Record(metadata), HANDOFF_TTL_SECONDS);
        if stored {
          return Some(codes[attempt]);
        }
        attempt := attempt + 1;
      }
      return None;
    }

    /** Grants at most the stored metadata, removes a code that was granted or can never be, and leaves
        the code in place when the binding does not match. */
    method Consume(input: Exchange, clock: Time) returns (r: Option<Metadata>)
      modifies redis`entries
      ensures Consumes(old(redis.entries), redis.now, input, clock, r, redis.entries)
    {
      var serialized := redis.Get(input.code);
      if serialized.None? || IsBlank(serialized.value) {
        return None;
      }
      if serialized.value.Unparsable? || serialized.value.metadata.expiresAt <= clock {
        var _ := redis.ConsumeIfValue(input.code, serialized.value);
        return None;
      }
      var metadata := serialized.value.metadata;
      if !MatchesExchangeBinding(metadata, input) {
        return None;
      }
      var consumed := redis.ConsumeIfValue(input.code, serialized.value);
      return if consumed.Some? then Some(metadata) else None;
    }
  }

  // ---------- many callers ----------

  /** A code in the store, with the number of the create that put it there. */
  datatype Slot = Slot(value: Stored, deadline: Time, create: nat)

  /** An exchange in progress: before its GET, or holding the value its GET returned. */
  datatype Client = Reading(input: Exchange) | Holding(input: Exchange, value: Stored)

  datatype Grant = Grant(metadata: Metadata, create: nat)

  /** An exchange that has ended, with what it was granted. */
  datatype Attempt = Attempt(input: Exchange, grant: Option<Grant>)

  datatype Created = Created(code: string, metadata: Metadata)

  datatype State = State(
    now: Time,
    slots: map<string, Slot>,
    clients: map<nat, Client>,
    creates: seq<Created>,    // successful creates so far
    attempts: seq<Attempt>)   // ended exchanges so far

  datatype Action =
    | Tick(later: Time)
    | Create(code: string, metadata: Metadata)
    | Start(client: nat, input: Exchange)
    | Read(client: nat)
    | Finish(client: nat, clock: Time)   // validation against a clock read, then compare-and-delete

  predicate Present(s: State, code: string) {
    code in s.slots && s.now < s.slots[code].deadline
  }

  predicate Enabled(s: State, act: Action) {
    match act
    case Tick(later) => s.now <= later
    case Create(code, _) => !Present(s, code)   // a collision stores nothing
    case Start(client, _) => client !in s.clients
    case Read(client) => client in s.clients && s.clients[client].Reading?
    case Finish(client, _) => client in s.clients && s.clients[client].Holding?
  }

  function End(s: State, client: nat, grant: Option<Grant>): State
    requires client in s.clients
  {
    s.(clients := s.clients - {client}, attempts := s.attempts + [Attempt(s.clients[client].input, grant)])
  }

  /** GET and DEL in one step, if the value is still the expected one. */
  predicate Removes(s: State, code: string, expected: Stored) {
    Present(s, code) && s.slots[code].value == expected
  }

  function Next(s: State, act: Action): State
    requires Enabled(s, act)
  {
    match act
    case Tick(later) => s.(now := later)
    case Create(code, metadata) =>
      var slot := Slot(Record(metadata), s.now + HANDOFF_TTL_SECONDS * 1000, |s.creates|);
      s.(slots := s.slots[code := slot], creates := s.creates + [Created(code, metadata)])
    case Start(client, input) => s.(clients := s.clients[client := Reading(input)])
    case Read(client) =>
      var input := s.clients[client].input;
      if Present(s, input.code) && !IsBlank(s.slots[input.code].value)
      then s.(clients := s.clients[client := Holding(input, s.slots[input.code].value)])
      else End(s, client, None)
    case Finish(client, clock) =>
      var Holding(input, value) := s.clients[client];
      if !Expired(value, clock) && !MatchesExchangeBinding(value.metadata, input) then End(s, client, None)
      else if !Removes(s, input.code, value) then End(s, client, None)
      else
        var removed := s.(slots := s.slots - {input.code});
        if Expired(value, clock) then End(removed, client, None)
        else End(removed, client, Some(Grant(value.metadata, s.slots[input.code].create)))
  }

  predicate IsRun(s: State, acts: seq<Action>)
    decreases |acts|
  {
    acts == [] || (Enabled(s, acts[0]) && IsRun(Next(s, acts[0]), acts[1..]))
  }

  function Run(s: State, acts: seq<Action>): State
    requires IsRun(s, acts)
    decreases |acts|
  {
    if acts == [] then s else Run(Next(s, acts[0]), acts[1..])
  }

  const EMPTY_STORE: State := State(0, map[], map[], [], [])

  function EntriesOf(s: State): map<string, Entry<Stored>> {
    map code | code in s.slots :: Entry(s.slots[code].value, Some(s.slots[code].deadline))
  }

  /** An exchange that no one disturbs does what the store's own method does. */
  lemma UndisturbedExchangeConsumes(s: State, client: nat, input: Exchange, clock: Time)
    requires client in s.clients && s.clients[client] == Reading(input)
    ensures var read := Next(s, Read(client));
            var end := if client in read.clients then Next(read, Finish(client, clock)) else read;
            && client !in end.clients && |end.attempts| == |s.attempts| + 1
            && var Attempt(i, grant) := end.attempts[|s.attempts|];
            && i == input
            && Consumes(EntriesOf(s), s.now, input, clock, if grant.Some? then Some(grant.value.metadata) else None,
                        EntriesOf(end))
  {
    var stored := Lookup(EntriesOf(s), s.now, input.code);
    assert stored.Some? <==> Present(s, input.code);
    assert EntriesOf(s.(slots := s.slots - {input.code})) == EntriesOf(s) - {input.code};
  }

  // ---------- each exchange is charged to its own create ----------

  ghost predicate IsChargedTo(s: State, code: string, create: nat, metadata: Metadata) {
    create < |s.creates| && s.creates[create] == Created(code, metadata)
  }

  /** Stored codes come from distinct creates that no exchange has been charged to. */
  ghost predicate SlotsAreUnspent(s: State) {
    && (forall code :: code in s.slots ==>
          s.slots[code].value.Record? && IsChargedTo(s, code, s.slots[code].create, s.slots[code].value.metadata))
    && (forall i, code :: 0 <= i < |s.attempts| && s.attempts[i].grant.Some? && code in s.slots ==>
          s.attempts[i].grant.value.create != s.slots[code].create)
  }

  /** Every exchange returned exactly the metadata of a create of its own code, presented the binding
      of that metadata, and shares that create with no other exchange. */
  ghost predicate ExchangesAreCharged(s: State) {
    && (forall i :: 0 <= i < |s.attempts| && s.attempts[i].grant.Some? ==>
          && IsChargedTo(s, s.attempts[i].input.code, s.attempts[i].grant.value.create,
                         s.attempts[i].grant.value.metadata)
          && MatchesExchangeBinding(s.attempts[i].grant.value.metadata, s.attempts[i].input))
    && (forall i, j :: 0 <= i < j < |s.attempts| && s.attempts[i].grant.Some? && s.attempts[j].grant.Some? ==>
          s.attempts[i].grant.value.create != s.attempts[j].grant.value.create)
  }

  lemma CreateKeepsCharges(s: State, code: string, metadata: Metadata)
    requires SlotsAreUnspent(s) && ExchangesAreCharged(s) && Enabled(s, Create(code, metadata))
    ensures var next := Next(s, Create(code, metadata));
            SlotsAreUnspent(next) && ExchangesAreCharged(next)
  {
    var next := Next(s, Create(code, metadata));
    assert forall c, n, m :: IsChargedTo(s, c, n, m) ==> IsChargedTo(next, c, n, m);
  }

  lemma EmptyEndKeepsCharges(s: State, client: nat)
    requires SlotsAreUnspent(s) && ExchangesAreCharged(s) && client in s.clients
    ensures SlotsAreUnspent(End(s, client, None)) && ExchangesAreCharged(End(s, client, None))
  {
  }

  lemma RemovalKeepsCharges(s: State, code: string)
    requires SlotsAreUnspent(s) && ExchangesAreCharged(s)
    ensures var removed := s.(slots := s.slots - {code});
            SlotsAreUnspent(removed) && ExchangesAreCharged(removed)
  {
  }

  /** An exchange is charged for a code that is in the store no longer. */
  lemma GrantKeepsCharges(s: State, client: nat, grant: Grant)
    requires SlotsAreUnspent(s) && ExchangesAreCharged(s) && client in s.clients
    requires IsChargedTo(s, s.clients[client].input.code, grant.create, grant.metadata)
    requires MatchesExchangeBinding(grant.metadata, s.clients[client].input)
    requires forall code :: code in s.slots ==> s.slots[code].create != grant.create
    requires forall i :: 0 <= i < |s.attempts| && s.attempts[i].grant.Some? ==>
               s.attempts[i].grant.value.create != grant.create
    ensures SlotsAreUnspent(End(s, client, Some(grant))) && ExchangesAreCharged(End(s, client, Some(grant)))
  {
  }

  lemma FinishKeepsCharges(s: State, client: nat, clock: Time)
    requires SlotsAreUnspent(s) && ExchangesAreCharged(s) && Enabled(s, Finish(client, clock))
    ensures var next := Next(s, Finish(client, clock));
            SlotsAreUnspent(next) && ExchangesAreCharged(next)
  {
    var Holding(input, value) := s.clients[client];
    EmptyEndKeepsCharges(s, client);
    if Removes(s, input.code, value) {
      var removed := s.(slots := s.slots - {input.code});
      RemovalKeepsCharges(s, input.code);
      EmptyEndKeepsCharges(removed, client);
      if !Expired(value, clock) && MatchesExchangeBinding(value.metadata, input) {
        GrantKeepsCharges(removed, client, Grant(value.metadata, s.slots[input.code].create));
      }
    }
  }

  lemma StepKeepsCharges(s: State, act: Action)
    requires SlotsAreUnspent(s) && ExchangesAreCharged(s) && Enabled(s, act)
    ensures SlotsAreUnspent(Next(s, act)) && ExchangesAreCharged(Next(s, act))
  {
    match act
    case Create(code, metadata) => CreateKeepsCharges(s, code, metadata);
    case Read(client) =>
      EmptyEndKeepsCharges(s, client);
    case Finish(client, clock) => FinishKeepsCharges(s, client, clock);
    case _ =>
  }

  /** Over any interleaving, also when a code is consumed and created again between a caller's GET and
      its compare-and-delete, each exchange is charged to a distinct create of that code. */
  lemma {:induction false} EveryExchangeHasItsOwnCreate(s: State, acts: seq<Action>)
    requires SlotsAreUnspent(s) && ExchangesAreCharged(s) && IsRun(s, acts)
    ensures SlotsAreUnspent(Run(s, acts)) && ExchangesAreCharged(Run(s, acts))
    decreases |acts|
  {
    if acts != [] {
      StepKeepsCharges(s, acts[0]);
      EveryExchangeHasItsOwnCreate(Next(s, acts[0]), acts[1..]);
    }
  }

  // ---------- racing exchanges of one code ----------

  function Grants(attempts: seq<Attempt>, code: string): nat
    decreases |attempts|
  {
    if attempts == [] then 0
    else
      var last := attempts[|attempts| - 1];
      Grants(attempts[..|attempts| - 1], code) + (if last.input.code == code && last.grant.Some? then 1 else 0)
  }

  /** The exchanges that ended after the first `n`. */
  function Since(attempts: seq<Attempt>, n: nat): seq<Attempt> {
    if n <= |attempts| then attempts[n..] else []
  }

  /** `attempt` presented the code with the right client, redirect URI and verifier. */
  predicate PresentsRightly(attempt: Attempt, code: string, metadata: Metadata) {
    attempt.input.code == code && MatchesExchangeBinding(metadata, attempt.input)
  }

  ghost predicate SomeRightAttempt(attempts: seq<Attempt>, code: string, metadata: Metadata) {
    exists i :: 0 <= i < |attempts| && PresentsRightly(attempts[i], code, metadata)
  }

  /** Neither the stored code nor its metadata expires, and the code is not drawn again. */
  predicate StaysAlive(act: Action, code: string, slot: Slot)
    requires slot.value.Record?
  {
    match act
    case Tick(later) => later < slot.deadline
    case Create(c, _) => c != code
    case Finish(_, clock) => clock < slot.value.metadata.expiresAt
    case _ => true
  }

  /** `since` is how many exchanges had ended when the race began. */
  ghost predicate RaceIsFair(s: State, code: string, slot: Slot, since: nat)
    requires slot.value.Record?
  {
    && since <= |s.attempts|
    && s.now < slot.deadline
    && (forall c :: c in s.clients && s.clients[c].input.code == code && s.clients[c].Holding? ==>
          s.clients[c].value == slot.value)
    && var ended := Since(s.attempts, since);
       if SomeRightAttempt(ended, code, slot.value.metadata)
       then code !in s.slots && Grants(ended, code) == 1
       else code in s.slots && s.slots[code] == slot && Grants(ended, code) == 0
  }

  lemma OneMoreAttempt(attempts: seq<Attempt>, last: Attempt, since: nat, code: string, metadata: Metadata)
    requires since <= |attempts|
    ensures var before, after := Since(attempts, since), Since(attempts + [last], since);
            && Grants(after, code)
               == Grants(before, code) + (if last.input.code == code && last.grant.Some? then 1 else 0)
            && (SomeRightAttempt(after, code, metadata)
                <==> SomeRightAttempt(before, code, metadata) || PresentsRightly(last, code, metadata))
  {
    var before, after := Since(attempts, since), Since(attempts + [last], since);
    assert after == before + [last];
    assert after[..|after| - 1] == before;
    assert forall i :: 0 <= i < |before| ==> after[i] == before[i];
  }

  lemma RaceStep(s: State, act: Action, code: string, slot: Slot, since: nat)
    requires slot.value.Record? && RaceIsFair(s, code, slot, since)
    requires Enabled(s, act) && StaysAlive(act, code, slot)
    ensures RaceIsFair(Next(s, act), code, slot, since)
  {
    match act
    case Read(client) => RaceReadStep(s, client, code, slot, since);
    case Finish(client, clock) => RaceFinishStep(s, client, clock, code, slot, since);
    case _ =>
  }

  lemma RaceReadStep(s: State, client: nat, code: string, slot: Slot, since: nat)
    requires slot.value.Record? && RaceIsFair(s, code, slot, since) && Enabled(s, Read(client))
    ensures RaceIsFair(Next(s, Read(client)), code, slot, since)
  {
    var input := s.clients[client].input;
    if client !in Next(s, Read(client)).clients {
      OneMoreAttempt(s.attempts, Attempt(input, None), since, code, slot.value.metadata);
    }
  }

  lemma RaceFinishStep(s: State, client: nat, clock: Time, code: string, slot: Slot, since: nat)
    requires slot.value.Record? && RaceIsFair(s, code, slot, since)
    requires Enabled(s, Finish(client, clock)) && clock < slot.value.metadata.expiresAt
    ensures RaceIsFair(Next(s, Finish(client, clock)), code, slot, since)
  {
    var next := Next(s, Finish(client, clock));
    var last := next.attempts[|s.attempts|];
    assert next.attempts == s.attempts + [last];
    OneMoreAttempt(s.attempts, last, since, code, slot.value.metadata);
  }

  /** Any number of exchanges race for a live code. Once an exchange with the right binding has ended,
      exactly one has been granted; until then the code is still there, whatever wrong bindings were
      presented. */
  lemma {:induction false} RacingExchangesHaveOneWinner(s: State, acts: seq<Action>, code: string, slot: Slot,
                                                        since: nat)
    requires slot.value.Record? && RaceIsFair(s, code, slot, since)
    requires IsRun(s, acts) && forall i :: 0 <= i < |acts| ==> StaysAlive(acts[i], code, slot)
    ensures RaceIsFair(Run(s, acts), code, slot, since)
    decreases |acts|
  {
    if acts != [] {
      RaceStep(s, acts[0], code, slot, since);
      RacingExchangesHaveOneWinner(Next(s, acts[0]), acts[1..], code, slot, since);
    }
  }

  lemma {:induction false} AttemptsOnlyGrow(s: State, acts: seq<Action>)
    requires IsRun(s, acts)
    ensures s.attempts <= Run(s, acts).attempts
    decreases |acts|
  {
    if acts != [] {
      AttemptsOnlyGrow(Next(s, acts[0]), acts[1..]);
    }
  }

  /** An exchange that is no longer in progress has left an attempt behind. */
  lemma {:induction false} ClientStaysOrEnds(s: State, acts: seq<Action>, client: nat)
    requires IsRun(s, acts) && client in s.clients
    ensures var end := Run(s, acts);
            || client in end.clients
            || exists i :: |s.attempts| <= i < |end.attempts| && end.attempts[i].input == s.clients[client].input
    decreases |acts|
  {
    if acts != [] {
      var next := Next(s, acts[0]);
      AttemptsOnlyGrow(next, acts[1..]);
      var end := Run(next, acts[1..]);
      if client in next.clients {
        ClientStaysOrEnds(next, acts[1..], client);
      } else {
        assert end.attempts[|s.attempts|] == next.attempts[|s.attempts|];
      }
    }
  }

  /** n >= 1 exchanges present a live code rightly, any number wrongly, in any interleaving: when a right
      one has ended, exactly one exchange of the code was granted. */
  lemma ExactlyOneExchangeWins(s: State, acts: seq<Action>, code: string, client: nat)
    requires Present(s, code) && s.slots[code].value.Record?
    requires forall c :: c in s.clients && s.clients[c].input.code == code ==> s.clients[c].Reading?
    requires IsRun(s, acts) && forall i :: 0 <= i < |acts| ==> StaysAlive(acts[i], code, s.slots[code])
    requires client in s.clients && s.clients[client].input.code == code
    requires MatchesExchangeBinding(s.slots[code].value.metadata, s.clients[client].input)
    requires client !in Run(s, acts).clients
    ensures Grants(Since(Run(s, acts).attempts, |s.attempts|), code) == 1
  {
    RacingExchangesHaveOneWinner(s, acts, code, s.slots[code], |s.attempts|);
    ClientStaysOrEnds(s, acts, client);
    var end := Run(s, acts);
    var i :| |s.attempts| <= i < |end.attempts| && end.attempts[i].input == s.clients[client].input;
    assert Since(end.attempts, |s.attempts|)[i - |s.attempts|] == end.attempts[i];
  }

  /** While only wrong bindings have been presented, nothing is granted and the code is still stored. */
  lemma WrongBindingsNeverRemoveTheCode(s: State, acts: seq<Action>, code: string)
    requires Present(s, code) && s.slots[code].value.Record?
    requires forall c :: c in s.clients && s.clients[c].input.code == code ==> s.clients[c].Reading?
    requires IsRun(s, acts) && forall i :: 0 <= i < |acts| ==> StaysAlive(acts[i], code, s.slots[code])
    requires !SomeRightAttempt(Since(Run(s, acts).attempts, |s.attempts|), code, s.slots[code].value.metadata)
    ensures Present(Run(s, acts), code) && Run(s, acts).slots[code] == s.slots[code]
    ensures Grants(Since(Run(s, acts).attempts, |s.attempts|), code) == 0
  {
    RacingExchangesHaveOneWinner(s, acts, code, s.slots[code], |s.attempts|);
  }
}
