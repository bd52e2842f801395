/** The Keycloak singleton (apps/sim/lib/auth/keycloak/service.ts): lazy construction
    from configuration, single-flight `initialize`, `reset`, and the `initKeycloak`
    wrapper. The static fields of the source become the fields of one
    `KeycloakService` object; the keycloak-js client becomes the `Keycloak` class,
    whose handshake is an outcome given as a parameter. */
module Service {
  import opened Js

  /** NEXT_PUBLIC_KEYCLOAK_URL, NEXT_PUBLIC_KEYCLOAK_REALM, NEXT_PUBLIC_KEYCLOAK_CLIENT_ID. */
  datatype KeycloakEnv = KeycloakEnv(url: Option<string>, realm: Option<string>, clientId: Option<string>)

  /** All three values are present and non-empty. */
  predicate Configured(env: KeycloakEnv) {
    Truthy(env.url) && Truthy(env.realm) && Truthy(env.clientId)
  }

  /** How the keycloak-js `init` promise settles: resolved with the authenticated flag
      (keycloak-js also records that flag on the client, and the token when
      authenticated), or rejected. */
  datatype InitOutcome = InitResolved(authenticated: bool, token: string) | InitRejected

  /** How keycloak-js `updateToken` settles: resolved with "was refreshed", the client
      then holding `token` if it was refreshed and its old token if it was still valid;
      or rejected, where `cleared` says whether keycloak-js cleared
      the client's tokens first (it does so when the server refuses the refresh, and
      leaves them when the request itself fails). */
  datatype UpdateOutcome = UpdateResolved(refreshed: bool, token: string) | UpdateRejected(cleared: bool)

  /** What a caller of `initialize` gets. */
  datatype InitReply =
    | Settled(outcome: InitOutcome)  // the stored `initPromise`: resolves or rejects as it settled
    | WaitsForFlag                   // the polling branch: pending until `isInitializing` is false
    | ConfigurationMissing           // `getInstance` threw

  /** A client's observable state; the absent token (`undefined`) is written "". */
  datatype ClientState = ClientState(url: string, realm: string, clientId: string,
                                     authenticated: bool, token: string)

  /** The singleton's state. `handshakes` counts the calls of keycloak-js `init`
      since construction or the last `reset`; it exists only for the proofs. */
  datatype ServiceState = ServiceState(instance: Option<ClientState>, isInitializing: bool,
                                       initPromise: Option<InitOutcome>, handshakes: nat)

  const Initial := ServiceState(None, false, None, 0)

  /** The client `new Keycloak({url, realm, clientId})` builds. */
  function NewClient(env: KeycloakEnv): (c: ClientState)
    requires Configured(env)
    ensures c.url == env.url.value && c.realm == env.realm.value && c.clientId == env.clientId.value
    ensures !c.authenticated && c.token == ""
  {
    ClientState(env.url.value, env.realm.value, env.clientId.value, false, "")
  }

  /** What keycloak-js records on the client when `init` settles. */
  function AfterInit(c: ClientState, outcome: InitOutcome): (c': ClientState)
    ensures c'.url == c.url && c'.realm == c.realm && c'.clientId == c.clientId
    ensures outcome.InitResolved? ==> c'.authenticated == outcome.authenticated
    ensures outcome.InitResolved? && outcome.authenticated ==> c'.token == outcome.token
    ensures outcome.InitResolved? && !outcome.authenticated ==> c'.token == ""
    ensures outcome.InitRejected? ==> c' == c
  {
    match outcome
    case InitResolved(auth, token) => c.(authenticated := auth, token := if auth then token else "")
    case InitRejected => c
  }

  /** What keycloak-js leaves on the client when `updateToken` settles with `update`. */
  function AfterUpdate(c: ClientState, update: UpdateOutcome): (c': ClientState)
    ensures c'.url == c.url && c'.realm == c.realm && c'.clientId == c.clientId
    ensures update.UpdateResolved? ==> c'.authenticated == c.authenticated
    ensures update.UpdateResolved? && update.refreshed ==> c'.token == update.token
    ensures update.UpdateResolved? && !update.refreshed ==> c'.token == c.token
    ensures update.UpdateRejected? && update.cleared ==> !c'.authenticated && c'.token == ""
    ensures update.UpdateRejected? && !update.cleared ==> c' == c
  {
    match update
    case UpdateResolved(refreshed, token) => if refreshed then c.(token := token) else c
    case UpdateRejected(cleared) => if cleared then c.(authenticated := false, token := "") else c
  }

  /** `getInstance`: the existing instance, else a new one from a complete configuration,
      else a throw (the client is `None`). */
  function GetInstanceStep(s: ServiceState, env: KeycloakEnv): (r: (ServiceState, Option<ClientState>))
    ensures s.instance.Some? ==> r == (s, s.instance)
    ensures s.instance.None? && !Configured(env) ==> r == (s, None)
    ensures s.instance.None? && Configured(env) ==>
              r.1 == Some(NewClient(env)) && r.0 == s.(instance := r.1)
    ensures r.1 == r.0.instance || r.1.None?
  {
    if s.instance.Some? then (s, s.instance)
    else if !Configured(env) then (s, None)
    else (s.(instance := Some(NewClient(env))), Some(NewClient(env)))
  }

  /** `initialize`, with the handshake's outcome given: the stored promise if there is
      one; the polling branch while the flag is set; otherwise set the flag, get the
      instance (a throw here leaves the flag set, since the `try` begins later), store
      and await `init`, and clear the flag. */
  function InitializeStep(s: ServiceState, env: KeycloakEnv, outcome: InitOutcome): (r: (ServiceState, InitReply))
    ensures s.initPromise.Some? ==> r == (s, Settled(s.initPromise.value))
    ensures r.0.handshakes != s.handshakes ==>
              s.initPromise.None? && !s.isInitializing && r.0.handshakes == s.handshakes + 1 &&
              r.0.initPromise == Some(outcome) && !r.0.isInitializing && r.1 == Settled(outcome)
    ensures r.1.ConfigurationMissing? ==> r.0.isInitializing && r.0.initPromise.None? && r.0.instance.None?
    ensures r.1.ConfigurationMissing? <==> s.initPromise.None? && !s.isInitializing && s.instance.None? && !Configured(env)
    ensures s.initPromise.None? && !s.isInitializing && (s.instance.Some? || Configured(env)) ==>
              r.1 == Settled(outcome) && r.0.initPromise == Some(outcome) && !r.0.isInitializing &&
              r.0.handshakes == s.handshakes + 1
    ensures s.initPromise.None? && !s.isInitializing && (s.instance.Some? || Configured(env)) ==>
              r.0.instance == Some(AfterInit(if s.instance.Some? then s.instance.value else NewClient(env), outcome))
    ensures s.initPromise.None? && s.isInitializing ==> r == (s, WaitsForFlag)
  {
    if s.initPromise.Some? then (s, Settled(s.initPromise.value))
    else if s.isInitializing then (s, WaitsForFlag)
    else
      var (s1, client) := GetInstanceStep(s.(isInitializing := true), env);
      if client.None? then (s1, ConfigurationMissing)
      else
        (s1.(instance := Some(AfterInit(client.value, outcome)), initPromise := Some(outcome),
             isInitializing := false, handshakes := s1.handshakes + 1),
         Settled(outcome))
  }

  /** `reset`: back to the state before the first use. */
  function ResetStep(s: ServiceState): (r: ServiceState)
    ensures r.instance.None? && !r.isInitializing && r.initPromise.None?
  {
    Initial
  }

  /** What `initKeycloak` resolves with: the handshake's flag, `false` for any failure,
      `None` while it is still waiting on the flag. */
  function InitKeycloakAnswer(reply: InitReply): (r: Option<bool>)
    ensures r.None? <==> reply.WaitsForFlag?
    ensures r == Some(true) <==> reply.Settled? && reply.outcome.InitResolved? && reply.outcome.authenticated
    ensures reply.ConfigurationMissing? || reply == Settled(InitRejected) ==> r == Some(false)
  {
    match reply
    case Settled(InitResolved(auth, _)) => Some(auth)
    case Settled(InitRejected) => Some(false)
    case WaitsForFlag => None
    case ConfigurationMissing => Some(false)
  }

  // ---------------------------------------------------------------------------
  // The singleton as objects, proved against the functions above.

  /** The keycloak-js client. */
  class Keycloak {
    const url: string
    const realm: string
    const clientId: string
    var authenticated: bool
    var token: string

    function State(): ClientState
      reads this
    {
      ClientState(url, realm, clientId, authenticated, token)
    }

    constructor (url: string, realm: string, clientId: string)
      ensures State() == ClientState(url, realm, clientId, false, "")
    {
      this.url, this.realm, this.clientId := url, realm, clientId;
      authenticated, token := false, "";
    }

    /** `init` settling with `outcome`. */
    method Init(outcome: InitOutcome)
      modifies this
      ensures State() == AfterInit(old(State()), outcome)
    {
      if outcome.InitResolved? {
        authenticated := outcome.authenticated;
        token := if outcome.authenticated then outcome.token else "";
      }
    }

    /** `updateToken` settling with `outcome`: `Some(refreshed)`, or `None` when it rejects. */
    method UpdateToken(outcome: UpdateOutcome) returns (r: Option<bool>)
      modifies this
      ensures r.Some? <==> outcome.UpdateResolved?
      ensures r.Some? ==> r.value == outcome.refreshed
      ensures State() == AfterUpdate(old(State()), outcome)
    {
      match outcome
      case UpdateResolved(refreshed, newToken) =>
        if refreshed {
          token := newToken;
        }
        r := Some(refreshed);
      case UpdateRejected(cleared) =>
        if cleared {
          // clearToken(): the tokens go and the client is no longer authenticated
          authenticated, token := false, "";
        }
        r := None;
    }
  }

  class KeycloakService {
    var instance: Keycloak?
    var isInitializing: bool
    var initPromise: Option<InitOutcome>
    ghost var handshakes: nat

    ghost function View(): ServiceState
      reads this, instance
    {
      ServiceState(if instance == null then None else Some(instance.State()),
                   isInitializing, initPromise, handshakes)
    }

    constructor ()
      ensures View() == Initial
    {
      instance, isInitializing, initPromise := null, false, None;
      handshakes := 0;
    }

    /** `getInstance`: `None` stands for the configuration error it throws. */
    method GetInstance(env: KeycloakEnv) returns (r: Option<Keycloak>)
      modifies this
      ensures old(instance) != null ==> r == Some(old(instance)) && instance == old(instance)
      ensures old(instance) == null && r.Some? ==> fresh(r.value)
      ensures r.Some? ==> r.value == instance
      ensures r.None? ==> instance == null
      ensures (View(), if r.Some? then Some(r.value.State()) else None) == GetInstanceStep(old(View()), env)
    {
      if instance == null {
        if !Configured(env) {
          return None;
        }
        instance := new Keycloak(env.url.value, env.realm.value, env.clientId.value);
      }
      r := Some(instance);
    }

    /** `initialize(options)` whose `init` call, if made, settles with `outcome`. */
    method Initialize(env: KeycloakEnv, outcome: InitOutcome) returns (reply: InitReply)
      modifies this, instance
      ensures old(instance) != null ==> instance == old(instance)
      ensures (View(), reply) == InitializeStep(old(View()), env, outcome)
    {
      if initPromise.Some? {
        return Settled(initPromise.value);
      }
      if isInitializing {
        return WaitsForFlag;
      }
      isInitializing := true;
      var keycloak := GetInstance(env);
      if keycloak.None? {
        // the throw escapes before the try/finally: the flag stays set
        return ConfigurationMissing;
      }
      keycloak.value.Init(outcome);
      initPromise := Some(outcome);
      handshakes := handshakes + 1;
      // finally
      isInitializing := false;
      reply := Settled(outcome);
    }

    /** `reset`. */
    method Reset()
      modifies this
      ensures View() == ResetStep(old(View()))
    {
      instance := null;
      isInitializing := false;
      initPromise := None;
      handshakes := 0;
    }
  }

  /** `initKeycloak(options)`: `initialize`, with any rejection turned into `false`. */
  method InitKeycloak(service: KeycloakService, env: KeycloakEnv, outcome: InitOutcome) returns (r: Option<bool>)
    modifies service, service.instance
    ensures var (s, reply) := InitializeStep(old(service.View()), env, outcome);
            service.View() == s && r == InitKeycloakAnswer(reply)
  {
    var reply := service.Initialize(env, outcome);
    r := InitKeycloakAnswer(reply);
  }

  // ---------------------------------------------------------------------------
  // Sequences of calls on the singleton.

  datatype Op = GetInstanceOp | InitializeOp(outcome: InitOutcome) | ResetOp

  /** The state after `ops`, and the replies of their `initialize` calls in order. */
  function Run(s: ServiceState, env: KeycloakEnv, ops: seq<Op>): (ServiceState, seq<InitReply>)
    decreases |ops|
  {
    if ops == [] then (s, [])
    else
      match ops[0]
      case GetInstanceOp => Run(GetInstanceStep(s, env).0, env, ops[1..])
      case ResetOp => Run(ResetStep(s), env, ops[1..])
      case InitializeOp(outcome) =>
        var (s1, reply) := InitializeStep(s, env, outcome);
        var (s2, replies) := Run(s1, env, ops[1..]);
        (s2, [reply] + replies)
  }

  predicate NoReset(ops: seq<Op>) {
    forall i :: 0 <= i < |ops| ==> !ops[i].ResetOp?
  }

  /** The handshake has run exactly when a promise is stored, and at most once. */
  predicate HandshakeInvariant(s: ServiceState) {
    s.handshakes == if s.initPromise.Some? then 1 else 0
  }

  /** Every call keeps the invariant, so between two resets `init` runs at most once. */
  lemma {:induction false} HandshakeAtMostOnce(s: ServiceState, env: KeycloakEnv, ops: seq<Op>)
    requires HandshakeInvariant(s)
    ensures HandshakeInvariant(Run(s, env, ops).0)
    ensures Run(s, env, ops).0.handshakes <= 1
    decreases |ops|
  {
    if ops != [] {
      match ops[0]
      case GetInstanceOp => HandshakeAtMostOnce(GetInstanceStep(s, env).0, env, ops[1..]);
      case ResetOp => HandshakeAtMostOnce(ResetStep(s), env, ops[1..]);
      case InitializeOp(outcome) => HandshakeAtMostOnce(InitializeStep(s, env, outcome).0, env, ops[1..]);
    }
  }

  /** Single flight: once a promise is stored, every later `initialize` before a reset
      gets that same promise and no new handshake starts. */
  lemma {:induction false} SameReplyUntilReset(s: ServiceState, env: KeycloakEnv, ops: seq<Op>)
    requires s.initPromise.Some?
    requires NoReset(ops)
    ensures var (s', replies) := Run(s, env, ops);
            s'.initPromise == s.initPromise && s'.handshakes == s.handshakes &&
            forall i :: 0 <= i < |replies| ==> replies[i] == Settled(s.initPromise.value)
    decreases |ops|
  {
    if ops != [] {
      assert NoReset(ops[1..]) by {
        forall i | 0 <= i < |ops[1..]| ensures !ops[1..][i].ResetOp? { assert ops[1..][i] == ops[i + 1]; }
      }
      assert !ops[0].ResetOp?;
      match ops[0]
      case GetInstanceOp => SameReplyUntilReset(GetInstanceStep(s, env).0, env, ops[1..]);
      case InitializeOp(outcome) => SameReplyUntilReset(InitializeStep(s, env, outcome).0, env, ops[1..]);
    }
  }

  /** From an idle singleton (no promise, no flag) that has an instance or a complete
      configuration, as a fresh one or the one the provider primes with `getInstance`,
      one `initialize` runs the handshake, and its outcome answers that caller and every
      later one until a reset, with no further handshake. */
  lemma InitializeOnceThenShared(s: ServiceState, env: KeycloakEnv, outcome: InitOutcome, ops: seq<Op>)
    requires s.initPromise.None? && !s.isInitializing
    requires s.instance.Some? || Configured(env)
    requires NoReset(ops)
    ensures var (s1, reply) := InitializeStep(s, env, outcome);
            reply == Settled(outcome) && s1.handshakes == s.handshakes + 1 &&
            var (s2, replies) := Run(s1, env, ops);
            s2.handshakes == s1.handshakes && forall i :: 0 <= i < |replies| ==> replies[i] == Settled(outcome)
  {
    SameReplyUntilReset(InitializeStep(s, env, outcome).0, env, ops);
  }

  /** While the flag is set and no promise is stored, every `initialize` before a reset
      falls into the polling branch: the flag stays set, no promise is stored and no
      handshake runs, whatever the instance. When, in addition, there is no instance and
      the configuration is incomplete, nothing changes at all. */
  lemma {:induction false} StuckFlagPolls(s: ServiceState, env: KeycloakEnv, ops: seq<Op>)
    requires s.isInitializing && s.initPromise.None?
    requires NoReset(ops)
    ensures var (s', replies) := Run(s, env, ops);
            s'.isInitializing && s'.initPromise.None? && s'.handshakes == s.handshakes &&
            forall i :: 0 <= i < |replies| ==> replies[i] == WaitsForFlag
    ensures s.instance.None? && !Configured(env) ==> Run(s, env, ops).0 == s
    decreases |ops|
  {
    if ops != [] {
      assert NoReset(ops[1..]) by {
        forall i | 0 <= i < |ops[1..]| ensures !ops[1..][i].ResetOp? { assert ops[1..][i] == ops[i + 1]; }
      }
      assert !ops[0].ResetOp?;
      match ops[0]
      case GetInstanceOp => StuckFlagPolls(GetInstanceStep(s, env).0, env, ops[1..]);
      case InitializeOp(outcome) => StuckFlagPolls(s, env, ops[1..]);
    }
  }

  /** A configuration failure inside `initialize` leaves `isInitializing` set and no
      promise stored, so every later `initialize` waits on a flag that nothing but
      `reset` will clear. */
  lemma ConfigFailureLeavesFlagSet(env: KeycloakEnv, outcome: InitOutcome, ops: seq<Op>)
    requires !Configured(env)
    requires NoReset(ops)
    ensures var (s1, reply) := InitializeStep(Initial, env, outcome);
            reply == ConfigurationMissing && s1.isInitializing && s1.initPromise.None? &&
            var (s2, replies) := Run(s1, env, ops);
            s2 == s1 && forall i :: 0 <= i < |replies| ==> replies[i] == WaitsForFlag
  {
    StuckFlagPolls(InitializeStep(Initial, env, outcome).0, env, ops);
  }

  /** `reset` returns to the initial state from any state, so a second `reset` changes nothing,
      and the next `getInstance` builds a client equal to a first-ever construction. */
  lemma ResetRoundTrip(s: ServiceState, env: KeycloakEnv)
    ensures ResetStep(s) == Initial
    ensures ResetStep(ResetStep(s)) == ResetStep(s)
    ensures GetInstanceStep(ResetStep(s), env) == GetInstanceStep(Initial, env)
  {
  }
}
