/** Provider logins from start to token pair: the OAuth state, the callback, the handoff code and the
    exchange, over shared stores and with any number of callers. */
module OAuthFlow {
  import opened Wrappers
  import opened RedisStore
  import H = AuthHandoff

  const STATE_TTL_SECONDS: nat := 600
  const MAX_STATE_ATTEMPTS: nat := 3
  const DEFAULT_CLIENT_ID: string := "temis"

  datatype ClientPolicy = ClientPolicy(audience: string, allowedRedirectUris: seq<string>)

  type Policies = map<string, ClientPolicy>

  /** The query of a login start after parsing; the method can only be absent or S256. */
  datatype StartQuery = StartQuery(
    clientId: Option<string>, redirectUri: Option<string>, state: Option<string>,
    codeChallenge: Option<H.Challenge>, methodGiven: bool)

  datatype StartInput = StartInput(
    clientId: string, redirectUri: Option<string>, callerState: Option<string>,
    codeChallenge: Option<H.Challenge>, s256: bool)

  datatype StateMetadata = StateMetadata(
    clientId: string, redirectUri: string, callerState: Option<string>,
    codeChallenge: Option<H.Challenge>, s256: bool)

  datatype StateRecord = StateRecord(provider: H.Provider, metadata: StateMetadata) | UnparsableState(text: string)

  datatype StartError = ChallengeRequired | InvalidClient | ClientMisconfigured | InvalidRedirectUri

  /** A start without a challenge is refused; a challenge without a method counts as S256. */
  function StartInputFromQuery(query: StartQuery): Result<StartInput, StartError> {
    if query.codeChallenge.None? then Err(ChallengeRequired)
    else
      Ok(StartInput(if query.clientId.Some? then query.clientId.value else DEFAULT_CLIENT_ID,
                    query.redirectUri, query.state, query.codeChallenge, true))
  }

  function ResolveStateMetadata(policies: Policies, input: StartInput): (r: Result<StateMetadata, StartError>)
    ensures r.Ok? <==> && input.clientId in policies
                       && policies[input.clientId].allowedRedirectUris != []
                       && (input.redirectUri.Some? ==>
                             input.redirectUri.value in policies[input.clientId].allowedRedirectUris)
    ensures r.Ok? ==>
              var allowed := policies[input.clientId].allowedRedirectUris;
              && r.value.redirectUri in allowed
              && r.value.redirectUri == (if input.redirectUri.Some? then input.redirectUri.value else allowed[0])
              && r.value.clientId == input.clientId && r.value.callerState == input.callerState
              && r.value.codeChallenge == input.codeChallenge && r.value.s256 == input.s256
  {
    if input.clientId !in policies then Err(InvalidClient)
    else if policies[input.clientId].allowedRedirectUris == [] then Err(ClientMisconfigured)
    else
      var allowed := policies[input.clientId].allowedRedirectUris;
      var redirectUri := if input.redirectUri.Some? then input.redirectUri.value else allowed[0];
      if redirectUri !in allowed then Err(InvalidRedirectUri)
      else Ok(StateMetadata(input.clientId, redirectUri, input.callerState, input.codeChallenge, input.s256))
  }

  // ---------- the state store, used by one caller at a time ----------

  class OAuthStateStore {
    const redis: Redis<StateRecord>

    constructor (redis: Redis<StateRecord>)
      ensures this.redis == redis
    {
      this.redis := redis;
    }

    method Create(provider: H.Provider, metadata: StateMetadata, drawn: seq<string>) returns (state: Option<string>)
      requires |drawn| == MAX_STATE_ATTEMPTS
      modifies redis`entries
      ensures state == H.FirstUnused(old(redis.entries), redis.now, drawn)
      ensures redis.entries
           == if state.None? then old(redis.entries)
              else old(redis.entries)[
                state.value := Expiring(StateRecord(provider, metadata), redis.now, STATE_TTL_SECONDS)]
    {
      var attempt := 0;
      while attempt < MAX_STATE_ATTEMPTS
        invariant 0 <= attempt <= MAX_STATE_ATTEMPTS
        invariant redis.entries == old(redis.entries)
        invariant H.FirstUnused(old(redis.entries), redis.now, drawn)
               == H.FirstUnused(old(redis.entries), redis.now, drawn[attempt..])
      {
        var stored := redis.SetIfAbsent(drawn[attempt], StateRecord(provider, metadata), STATE_TTL_SECONDS);
        if stored {
          return Some(drawn[attempt]);
        }
        attempt := attempt + 1;
      }
      return None;
    }

    /** The record is gone afterwards even when it belongs to another provider. */
    method Consume(provider: H.Provider, state: string) returns (r: Option<StateMetadata>)
      modifies redis`entries
      ensures var stored := Lookup(old(redis.entries), redis.now, state);
              && r == ConsumedMetadata(stored, provider)
              && redis.entries == if stored.Some? then old(redis.entries) - {state} else old(redis.entries)
    {
      var stored := redis.Consume(state);
      if stored.None? || stored.value.UnparsableState? || stored.value.provider != provider {
        return None;
      }
      return Some(stored.value.metadata);
    }
  }

  function ConsumedMetadata(stored: Option<StateRecord>, provider: H.Provider): Option<StateMetadata> {
    if stored.Some? && stored.value.StateRecord? && stored.value.provider == provider
    then Some(stored.value.metadata) else None
  }

  // ---------- the whole flow ----------

  /** A successful login start. */
  datatype Start = Start(provider: H.Provider, input: StartInput, metadata: StateMetadata)

  /** Where the right to finish a started login currently is. */
  datatype Custody = AtState(state: string) | AtCallback(id: nat) | AtHandoff(create: nat)

  datatype StateSlot = StateSlot(record: StateRecord, deadline: Time, start: nat)

  /** A callback whose state was consumed and accepted; the user is known once the provider answered. */
  datatype Callback = Callback(
    provider: H.Provider, metadata: StateMetadata, challenge: H.Challenge, audience: string, start: nat,
    user: Option<string>)

  datatype Flow = Flow(
    states: map<string, StateSlot>,
    callbacks: map<nat, Callback>,
    handoffs: H.State,            // also holds the Redis clock
    starts: seq<Start>,           // successful starts so far
    custody: seq<Custody>,        // one entry per start
    origins: map<nat, nat>,       // the start behind each create of a provider login
    issued: set<nat>)             // the granted exchanges for which a token pair was issued

  datatype Action =
    | StartLogin(provider: H.Provider, query: StartQuery, state: string)
    | ConsumeState(id: nat, provider: H.Provider, state: string)
    | IdentifyUser(id: nat, user: string, active: bool)
    | CreateHandoff(id: nat, code: string, clock: Time)
    | Handoff(act: H.Action)
    | IssuePair(attempt: nat)

  datatype Config = Config(policies: Policies, enabled: set<H.Provider>)

  predicate StateIsLive(f: Flow, state: string) {
    state in f.states && f.handoffs.now < f.states[state].deadline
  }

  function Resolved(cfg: Config, query: StartQuery): Result<StateMetadata, StartError> {
    var input := StartInputFromQuery(query);
    if input.Err? then Err(input.error) else ResolveStateMetadata(cfg.policies, input.value)
  }

  function HandoffMetadata(callback: Callback, user: string, clock: Time): H.Metadata {
    H.Stamped(
      H.NewHandoff(callback.metadata.clientId, callback.audience, callback.metadata.redirectUri, user,
                   Some(callback.provider), H.OAuth, callback.challenge, callback.metadata.callerState),
      clock)
  }

  /** Requests that are refused without touching a store, and collisions, are not steps. Password
      logins and email verification create handoffs of their own, never with the provider method. */
  predicate Enabled(cfg: Config, f: Flow, act: Action) {
    match act
    case StartLogin(provider, query, state) =>
      provider in cfg.enabled && Resolved(cfg, query).Ok? && !StateIsLive(f, state)
    case ConsumeState(id, provider, state) =>
      provider in cfg.enabled && id !in f.callbacks && StateIsLive(f, state)
    case IdentifyUser(id, _, _) => id in f.callbacks && f.callbacks[id].user.None?
    case CreateHandoff(id, code, clock) =>
      id in f.callbacks && f.callbacks[id].user.Some? && !H.Present(f.handoffs, code)
    case Handoff(inner) => H.Enabled(f.handoffs, inner) && (inner.Create? ==> inner.metadata.loginMethod == H.Password)
    case IssuePair(attempt) =>
      attempt < |f.handoffs.attempts| && f.handoffs.attempts[attempt].grant.Some? && attempt !in f.issued
  }

  /** The checks that follow the consumption of a state: provider, challenge, method, known client. */
  function AcceptedCallback(cfg: Config, slot: StateSlot, provider: H.Provider): Option<Callback> {
    var metadata := ConsumedMetadata(Some(slot.record), provider);
    if metadata.None? || metadata.value.codeChallenge.None? || !metadata.value.s256 then None
    else if metadata.value.clientId !in cfg.policies then None
    else
      Some(Callback(provider, metadata.value, metadata.value.codeChallenge.value,
                    cfg.policies[metadata.value.clientId].audience, slot.start, None))
  }

  ghost predicate CustodyIsKnown(f: Flow) {
    && |f.custody| == |f.starts|
    && (forall s :: s in f.states ==> f.states[s].start < |f.starts|)
    && (forall c :: c in f.callbacks ==> f.callbacks[c].start < |f.starts|)
  }

  function Next(cfg: Config, f: Flow, act: Action): Flow
    requires Enabled(cfg, f, act)
    requires CustodyIsKnown(f)
  {
    match act
    case StartLogin(provider, query, state) =>
      var metadata := Resolved(cfg, query).value;
      var slot := StateSlot(StateRecord(provider, metadata), f.handoffs.now + STATE_TTL_SECONDS * 1000, |f.starts|);
      f.(states := f.states[state := slot],
         starts := f.starts + [Start(provider, StartInputFromQuery(query).value, metadata)],
         custody := f.custody + [AtState(state)])
    case ConsumeState(id, provider, state) =>
      var slot := f.states[state];
      var callback := AcceptedCallback(cfg, slot, provider);
      if callback.None? then f.(states := f.states - {state})
      else
        f.(states := f.states - {state},
           callbacks := f.callbacks[id := callback.value],
           custody := f.custody[slot.start := AtCallback(id)])
    case IdentifyUser(id, user, active) =>
      if !active then f.(callbacks := f.callbacks - {id})
      else f.(callbacks := f.callbacks[id := f.callbacks[id].(user := Some(user))])
    case CreateHandoff(id, code, clock) =>
      var callback := f.callbacks[id];
      var create := |f.handoffs.creates|;
      f.(callbacks := f.callbacks - {id},
         handoffs := H.Next(f.handoffs, H.Create(code, HandoffMetadata(callback, callback.user.value, clock))),
         origins := f.origins[create := callback.start],
         custody := f.custody[callback.start := AtHandoff(create)])
    case Handoff(inner) => f.(handoffs := H.Next(f.handoffs, inner))
    case IssuePair(attempt) => f.(issued := f.issued + {attempt})
  }

  // ---------- invariant ----------

  /** A start fixed by policy: its client is registered and its redirect URI allowed for that client. */
  ghost predicate StartIsResolved(cfg: Config, start: Start) {
    ResolveStateMetadata(cfg.policies, start.input) == Ok(start.metadata)
  }

  /** A handoff record says what the start said, with the audience of the client's policy. */
  ghost predicate Continues(cfg: Config, start: Start, metadata: H.Metadata) {
    && metadata.provider == Some(start.provider)
    && metadata.clientId == start.metadata.clientId && metadata.clientId in cfg.policies
    && metadata.redirectUri == start.metadata.redirectUri
    && metadata.audience == cfg.policies[metadata.clientId].audience
    && start.metadata.codeChallenge == Some(metadata.codeChallenge)
    && metadata.state == start.metadata.callerState
  }

  ghost predicate SlotOk(f: Flow, state: string)
    requires state in f.states
  {
    var slot := f.states[state];
    && slot.start < |f.starts| == |f.custody|
    && slot.record == StateRecord(f.starts[slot.start].provider, f.starts[slot.start].metadata)
    && f.custody[slot.start] == AtState(state)
  }

  ghost predicate CallbackOk(cfg: Config, f: Flow, id: nat)
    requires id in f.callbacks
  {
    var callback := f.callbacks[id];
    && callback.start < |f.starts| == |f.custody|
    && f.custody[callback.start] == AtCallback(id)
    && callback.provider == f.starts[callback.start].provider
    && callback.metadata == f.starts[callback.start].metadata
    && callback.metadata.codeChallenge == Some(callback.challenge)
    && callback.metadata.clientId in cfg.policies
    && callback.audience == cfg.policies[callback.metadata.clientId].audience
  }

  ghost predicate OriginOk(cfg: Config, f: Flow, create: nat)
    requires create in f.origins
  {
    && create < |f.handoffs.creates|
    && f.origins[create] < |f.starts| == |f.custody|
    && f.custody[f.origins[create]] == AtHandoff(create)
    && Continues(cfg, f.starts[f.origins[create]], f.handoffs.creates[create].metadata)
  }

  ghost predicate Inv(cfg: Config, f: Flow) {
    && H.SlotsAreUnspent(f.handoffs) && H.ExchangesAreCharged(f.handoffs)
    && CustodyIsKnown(f)
    && (forall k :: 0 <= k < |f.starts| ==> StartIsResolved(cfg, f.starts[k]))
    && (forall s {:trigger SlotOk(f, s)} :: s in f.states ==> SlotOk(f, s))
    && (forall id {:trigger CallbackOk(cfg, f, id)} :: id in f.callbacks ==> CallbackOk(cfg, f, id))
    && (forall c {:trigger OriginOk(cfg, f, c)} :: c in f.origins ==> OriginOk(cfg, f, c))
    && (forall c :: 0 <= c < |f.handoffs.creates| && f.handoffs.creates[c].metadata.loginMethod.OAuth? ==>
          c in f.origins)
    && (forall a :: a in f.issued ==> a < |f.handoffs.attempts| && f.handoffs.attempts[a].grant.Some?)
  }

  const NO_LOGINS: Flow := Flow(map[], map[], H.EMPTY_STORE, [], [], map[], {})

  lemma NoLoginsIsOk(cfg: Config)
    ensures Inv(cfg, NO_LOGINS)
  {
  }

  lemma HandoffStep(s: H.State, act: H.Action)
    requires H.Enabled(s, act)
    ensures s.attempts <= H.Next(s, act).attempts
    ensures H.Next(s, act).creates == s.creates + if act.Create? then [H.Created(act.code, act.metadata)] else []
  {
  }

  lemma StartKeepsInv(cfg: Config, f: Flow, act: Action)
    requires Inv(cfg, f) && Enabled(cfg, f, act) && act.StartLogin?
    ensures Inv(cfg, Next(cfg, f, act))
  {
    var next := Next(cfg, f, act);
    forall s | s in next.states ensures SlotOk(next, s) {
      assert s != act.state ==> SlotOk(f, s);
    }
    forall id | id in next.callbacks ensures CallbackOk(cfg, next, id) {
      assert CallbackOk(cfg, f, id);
    }
    forall c | c in next.origins ensures OriginOk(cfg, next, c) {
      assert OriginOk(cfg, f, c);
    }
  }

  lemma ConsumeStateKeepsSlots(cfg: Config, f: Flow, act: Action)
    requires Inv(cfg, f) && Enabled(cfg, f, act) && act.ConsumeState?
    ensures forall s :: s in Next(cfg, f, act).states ==> SlotOk(Next(cfg, f, act), s)
  {
    assert SlotOk(f, act.state);
    forall s | s in Next(cfg, f, act).states ensures SlotOk(Next(cfg, f, act), s) {
      assert SlotOk(f, s);
    }
  }

  lemma ConsumeStateKeepsCallbacks(cfg: Config, f: Flow, act: Action)
    requires Inv(cfg, f) && Enabled(cfg, f, act) && act.ConsumeState?
    ensures forall id :: id in Next(cfg, f, act).callbacks ==> CallbackOk(cfg, Next(cfg, f, act), id)
  {
    assert SlotOk(f, act.state);
    forall id | id in Next(cfg, f, act).callbacks ensures CallbackOk(cfg, Next(cfg, f, act), id) {
      assert id in f.callbacks ==> CallbackOk(cfg, f, id);
    }
  }

  lemma ConsumeStateKeepsOrigins(cfg: Config, f: Flow, act: Action)
    requires Inv(cfg, f) && Enabled(cfg, f, act) && act.ConsumeState?
    ensures forall c :: c in Next(cfg, f, act).origins ==> OriginOk(cfg, Next(cfg, f, act), c)
  {
    assert SlotOk(f, act.state);
    forall c | c in Next(cfg, f, act).origins ensures OriginOk(cfg, Next(cfg, f, act), c) {
      assert OriginOk(cfg, f, c);
    }
  }

  /** Handing a start over from a state to a callback leaves everyone else's custody in place. */
  lemma ConsumeStateKeepsInv(cfg: Config, f: Flow, act: Action)
    requires Inv(cfg, f) && Enabled(cfg, f, act) && act.ConsumeState?
    ensures Inv(cfg, Next(cfg, f, act))
  {
    ConsumeStateKeepsSlots(cfg, f, act);
    ConsumeStateKeepsCallbacks(cfg, f, act);
    ConsumeStateKeepsOrigins(cfg, f, act);
    assert SlotOk(f, act.state);
  }

  lemma IdentifyUserKeepsInv(cfg: Config, f: Flow, act: Action)
    requires Inv(cfg, f) && Enabled(cfg, f, act) && act.IdentifyUser?
    ensures Inv(cfg, Next(cfg, f, act))
  {
    var next := Next(cfg, f, act);
    forall s | s in next.states ensures SlotOk(next, s) {
      assert SlotOk(f, s);
    }
    forall id | id in next.callbacks ensures CallbackOk(cfg, next, id) {
      assert CallbackOk(cfg, f, id);
    }
    forall c | c in next.origins ensures OriginOk(cfg, next, c) {
      assert OriginOk(cfg, f, c);
    }
  }

  lemma IssuePairKeepsInv(cfg: Config, f: Flow, act: Action)
    requires Inv(cfg, f) && Enabled(cfg, f, act) && act.IssuePair?
    ensures Inv(cfg, Next(cfg, f, act))
  {
    var next := Next(cfg, f, act);
    forall s | s in next.states ensures SlotOk(next, s) {
      assert SlotOk(f, s);
    }
    forall id | id in next.callbacks ensures CallbackOk(cfg, next, id) {
      assert CallbackOk(cfg, f, id);
    }
    forall c | c in next.origins ensures OriginOk(cfg, next, c) {
      assert OriginOk(cfg, f, c);
    }
  }

  lemma CreateHandoffKeepsSlots(cfg: Config, f: Flow, act: Action)
    requires Inv(cfg, f) && Enabled(cfg, f, act) && act.CreateHandoff?
    ensures forall s :: s in Next(cfg, f, act).states ==> SlotOk(Next(cfg, f, act), s)
  {
    assert CallbackOk(cfg, f, act.id);
    forall s | s in Next(cfg, f, act).states ensures SlotOk(Next(cfg, f, act), s) {
      assert SlotOk(f, s);
    }
  }

  lemma CreateHandoffKeepsCallbacks(cfg: Config, f: Flow, act: Action)
    requires Inv(cfg, f) && Enabled(cfg, f, act) && act.CreateHandoff?
    ensures forall id :: id in Next(cfg, f, act).callbacks ==> CallbackOk(cfg, Next(cfg, f, act), id)
  {
    assert CallbackOk(cfg, f, act.id);
    forall id | id in Next(cfg, f, act).callbacks ensures CallbackOk(cfg, Next(cfg, f, act), id) {
      assert CallbackOk(cfg, f, id);
    }
  }

  lemma CreateHandoffKeepsOrigins(cfg: Config, f: Flow, act: Action)
    requires Inv(cfg, f) && Enabled(cfg, f, act) && act.CreateHandoff?
    ensures forall c :: c in Next(cfg, f, act).origins ==> OriginOk(cfg, Next(cfg, f, act), c)
  {
    assert CallbackOk(cfg, f, act.id);
    forall c | c in Next(cfg, f, act).origins ensures OriginOk(cfg, Next(cfg, f, act), c) {
      assert c in f.origins ==> OriginOk(cfg, f, c);
    }
  }

  lemma CreateHandoffKeepsInv(cfg: Config, f: Flow, act: Action)
    requires Inv(cfg, f) && Enabled(cfg, f, act) && act.CreateHandoff?
    ensures Inv(cfg, Next(cfg, f, act))
  {
    var callback := f.callbacks[act.id];
    assert CallbackOk(cfg, f, act.id);
    H.StepKeepsCharges(f.handoffs, H.Create(act.code, HandoffMetadata(callback, callback.user.value, act.clock)));
    CreateHandoffKeepsSlots(cfg, f, act);
    CreateHandoffKeepsCallbacks(cfg, f, act);
    CreateHandoffKeepsOrigins(cfg, f, act);
  }

  lemma HandoffStepKeepsInv(cfg: Config, f: Flow, act: Action)
    requires Inv(cfg, f) && Enabled(cfg, f, act) && act.Handoff?
    ensures Inv(cfg, Next(cfg, f, act))
  {
    var next := Next(cfg, f, act);
    HandoffStep(f.handoffs, act.act);
    H.StepKeepsCharges(f.handoffs, act.act);
    forall s | s in next.states ensures SlotOk(next, s) {
      assert SlotOk(f, s);
    }
    forall id | id in next.callbacks ensures CallbackOk(cfg, next, id) {
      assert CallbackOk(cfg, f, id);
    }
    forall c | c in next.origins ensures OriginOk(cfg, next, c) {
      assert OriginOk(cfg, f, c);
    }
  }

  lemma StepKeepsInv(cfg: Config, f: Flow, act: Action)
    requires Inv(cfg, f) && Enabled(cfg, f, act)
    ensures Inv(cfg, Next(cfg, f, act))
  {
    match act
    case StartLogin(_, _, _) => StartKeepsInv(cfg, f, act);
    case ConsumeState(_, _, _) => ConsumeStateKeepsInv(cfg, f, act);
    case IdentifyUser(_, _, _) => IdentifyUserKeepsInv(cfg, f, act);
    case CreateHandoff(_, _, _) => CreateHandoffKeepsInv(cfg, f, act);
    case Handoff(_) => HandoffStepKeepsInv(cfg, f, act);
    case IssuePair(_) => IssuePairKeepsInv(cfg, f, act);
  }

  /** The states along a run; a run stops at the first action that is not enabled. */
  ghost predicate Reaches(cfg: Config, f: Flow, acts: seq<Action>, end: Flow)
    requires Inv(cfg, f)
    decreases |acts|
  {
    if acts == [] then end == f
    else
      && Enabled(cfg, f, acts[0])
      && (StepKeepsInv(cfg, f, acts[0]);
          Reaches(cfg, Next(cfg, f, acts[0]), acts[1..], end))
  }

  lemma {:induction false} RunKeepsInv(cfg: Config, f: Flow, acts: seq<Action>, end: Flow)
    requires Inv(cfg, f) && Reaches(cfg, f, acts, end)
    ensures Inv(cfg, end)
    decreases |acts|
  {
    if acts != [] {
      StepKeepsInv(cfg, f, acts[0]);
      RunKeepsInv(cfg, Next(cfg, f, acts[0]), acts[1..], end);
    }
  }

  // ---------- the trace of a token pair ----------

  /** The exchange behind an issued pair was of a provider-login handoff. */
  predicate IsProviderPair(f: Flow, pair: nat) {
    && pair in f.issued && pair < |f.handoffs.attempts| && f.handoffs.attempts[pair].grant.Some?
    && f.handoffs.attempts[pair].grant.value.metadata.loginMethod.OAuth?
  }

  /** The login start behind an issued pair, if there is one. */
  function StartOf(f: Flow, pair: nat): Option<nat>
    requires IsProviderPair(f, pair)
  {
    var create := f.handoffs.attempts[pair].grant.value.create;
    if create in f.origins then Some(f.origins[create]) else None
  }

  /** The pair was obtained by the client that started the login, at the redirect URI of the start, for
      the audience of that client's policy, with a verifier whose S256 transform is the start's challenge. */
  ghost predicate TracesTo(cfg: Config, f: Flow, pair: nat, k: nat)
    requires IsProviderPair(f, pair) && k < |f.starts|
  {
    var attempt := f.handoffs.attempts[pair];
    var start := f.starts[k];
    var granted := attempt.grant.value.metadata;
    && StartIsResolved(cfg, start)
    && attempt.input.clientId == start.metadata.clientId
    && attempt.input.redirectUri == start.metadata.redirectUri
    && start.metadata.codeChallenge == Some(H.S256(attempt.input.codeVerifier))
    && granted.provider == Some(start.provider)
    && start.metadata.clientId in cfg.policies
    && granted.audience == cfg.policies[start.metadata.clientId].audience
  }

  /** In every reachable state each token pair from a provider login traces back to a login start, and
      no two pairs trace back to the same one. */
  lemma IssuedPairsTraceToDistinctStarts(cfg: Config, acts: seq<Action>, f: Flow)
    requires (NoLoginsIsOk(cfg); Reaches(cfg, NO_LOGINS, acts, f))
    ensures forall pair: nat :: IsProviderPair(f, pair) ==>
              && StartOf(f, pair).Some? && StartOf(f, pair).value < |f.starts|
              && TracesTo(cfg, f, pair, StartOf(f, pair).value)
    ensures forall p: nat, q: nat ::
              IsProviderPair(f, p) && IsProviderPair(f, q) && p != q ==> StartOf(f, p) != StartOf(f, q)
  {
    NoLoginsIsOk(cfg);
    RunKeepsInv(cfg, NO_LOGINS, acts, f);
    forall pair: nat | IsProviderPair(f, pair)
      ensures StartOf(f, pair).Some? && StartOf(f, pair).value < |f.starts|
      ensures TracesTo(cfg, f, pair, StartOf(f, pair).value)
    {
      var grant := f.handoffs.attempts[pair].grant.value;
      assert H.IsChargedTo(f.handoffs, f.handoffs.attempts[pair].input.code, grant.create, grant.metadata);
      assert OriginOk(cfg, f, grant.create);
    }
    forall p: nat, q: nat | IsProviderPair(f, p) && IsProviderPair(f, q) && p != q
      ensures StartOf(f, p) != StartOf(f, q)
    {
      var c, d := f.handoffs.attempts[p].grant.value.create, f.handoffs.attempts[q].grant.value.create;
      assert c != d;
      assert OriginOk(cfg, f, c) && OriginOk(cfg, f, d);
    }
  }
}
