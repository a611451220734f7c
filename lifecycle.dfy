/** The connection-lifecycle controller as step functions: each public or
    private operation of `Web3ConnectCore` maps the configuration and the
    current machine (fields plus the trace of everything observable so far)
    to the next machine. */
module Lifecycle {
  import opened Wrappers
  import opened Patches
  import opened EventManager

  /** A connector's option bag, forwarded as it is. */
  type OptionBag = map<string, string>

  const FortmaticKey: string := "fortmatic"
  const PortisKey: string := "portis"
  const WalletConnectKey: string := "walletconnect"
  const BridgeKey: string := "bridge"

  /** The construction options; both members may be omitted. */
  datatype CoreOptions = CoreOptions(modal: Option<bool>, providerOptions: Option<map<string, OptionBag>>)

  /** What is fixed at construction. */
  datatype Config = Config(modal: bool, injectedProvider: Option<string>, providerOptions: map<string, OptionBag>)

  /** The constructor's defaults: the modal is on unless `modal` is exactly
      `false`, and absent provider options are an empty bag. */
  function MakeConfig(opts: CoreOptions, injected: Option<string>): (c: Config)
    ensures !c.modal <==> opts.modal == Some(false)
    ensures c.injectedProvider == injected
    ensures c.providerOptions == opts.providerOptions.GetOr(map[])
  {
    Config(opts.modal.None? || opts.modal.value != false, injected,
           if opts.providerOptions.Some? then opts.providerOptions.value else map[])
  }

  /** The connector a `connectTo*` method invoked, with what it passed. */
  datatype Call =
    | InjectedCall
    | PortisCall(options: Option<OptionBag>)
    | WalletConnectCall(bridge: Option<string>, qrcode: bool)

  /** How the awaited connector promise settled. */
  datatype Outcome = Resolved(provider: Provider) | Rejected(error: Failure)

  /** One observable step: a patch forwarded to the update hook, an event
      triggered, or a connector invoked. */
  datatype Effect = Updated(patch: Patch) | Emitted(event: Event) | Invoked(call: Call)

  datatype Machine = Machine(fields: Fields, trace: seq<Effect>)

  /** The state right after construction. */
  const Initial: Machine := Machine(Fields("", false), [])

  // ---------------------------------------------------------------------
  // Projections of the trace

  function Events(t: seq<Effect>): seq<Event> {
    if t == [] then [] else (if t[0].Emitted? then [t[0].event] else []) + Events(t[1..])
  }

  function Calls(t: seq<Effect>): seq<Call> {
    if t == [] then [] else (if t[0].Invoked? then [t[0].call] else []) + Calls(t[1..])
  }

  lemma {:induction false} EventsAppend(a: seq<Effect>, b: seq<Effect>)
    ensures Events(a + b) == Events(a) + Events(b)
  {
    if a == [] {
      assert [] + b == b;
    } else {
      var ab := a + b;
      assert ab[0] == a[0] && ab[1..] == a[1..] + b;
      EventsAppend(a[1..], b);
    }
  }

  lemma {:induction false} CallsAppend(a: seq<Effect>, b: seq<Effect>)
    ensures Calls(a + b) == Calls(a) + Calls(b)
  {
    if a == [] {
      assert [] + b == b;
    } else {
      var ab := a + b;
      assert ab[0] == a[0] && ab[1..] == a[1..] + b;
      CallsAppend(a[1..], b);
    }
  }

  /** Both projections distribute over concatenation. */
  lemma ProjectionsAppend(a: seq<Effect>, b: seq<Effect>)
    ensures Events(a + b) == Events(a) + Events(b)
    ensures Calls(a + b) == Calls(a) + Calls(b)
  {
    EventsAppend(a, b);
    CallsAppend(a, b);
  }

  /** A trace of patches only holds no event and no connector call. */
  lemma {:induction false} OnlyUpdates(t: seq<Effect>)
    requires forall i :: 0 <= i < |t| ==> t[i].Updated?
    ensures Events(t) == [] && Calls(t) == []
  {
    if t != [] {
      OnlyUpdates(t[1..]);
    }
  }

  // ---------------------------------------------------------------------
  // The single mutation path and the event manager

  /** `setState(p)`: copy the keys, then forward `p` to the update hook. */
  function SetState(m: Machine, p: Patch): Machine {
    Machine(Merge(m.fields, p), m.trace + [Updated(p)])
  }

  /** `eventManager.trigger(e.name, e.payload)`. */
  function Emit(m: Machine, e: Event): Machine {
    m.(trace := m.trace + [Emitted(e)])
  }

  function Invoke(m: Machine, c: Call): Machine {
    m.(trace := m.trace + [Invoked(c)])
  }

  /** `show` after a toggle. */
  function Flipped(cfg: Config, show: bool): bool {
    if cfg.modal then !show else show
  }

  /** What a toggle forwards to the update hook. */
  function ToggleEffects(cfg: Config, f: Fields): seq<Effect> {
    if cfg.modal then [Updated([ShowEntry(!f.show)])] else []
  }

  // ---------------------------------------------------------------------
  // Modal state

  /** `toggleModal()`: nothing at all without a modal; otherwise `show` is
      negated, `uri` kept, and exactly the patch `{show: !show}` forwarded. */
  function ToggleModal(cfg: Config, m: Machine): (r: Machine)
    ensures !cfg.modal ==> r == m
    ensures cfg.modal ==> r.fields == Fields(m.fields.uri, !m.fields.show)
    ensures cfg.modal ==> r.trace == m.trace + [Updated([ShowEntry(!m.fields.show)])]
  {
    if !cfg.modal then m
    else
      MergeOne(m.fields, ShowEntry(!m.fields.show));
      SetState(m, [ShowEntry(!m.fields.show)])
  }

  /** `resetState()`: whatever came before, the modal is hidden and the URI
      cleared, through one patch and without an event. */
  function ResetState(m: Machine): (r: Machine)
    ensures r.fields == Fields("", false)
    ensures r.trace == m.trace + [Updated([ShowEntry(false), UriEntry("")])]
    ensures Events(r.trace) == Events(m.trace) && Calls(r.trace) == Calls(m.trace)
  {
    var p := [ShowEntry(false), UriEntry("")];
    MergeExact(m.fields, p);
    assert LastFor(p, ShowKey, 0) && LastFor(p, UriKey, 1);
    ProjectionsAppend(m.trace, [Updated(p)]);
    OnlyUpdates([Updated(p)]);
    SetState(m, p)
  }

  // ---------------------------------------------------------------------
  // Outcome transitions: toggle first, then one event

  /** The event an outcome transition reports for a settled connector. */
  function OutcomeEvent(o: Outcome): Event {
    match o
    case Resolved(p) => Event(ConnectName, Some(ProviderPayload(p)))
    case Rejected(e) => Event(ErrorName, Some(ErrorPayload(e)))
  }

  /** The toggle, then the event `e`. */
  function Settle(cfg: Config, m: Machine, e: Event): (r: Machine)
    ensures r.fields == Fields(m.fields.uri, Flipped(cfg, m.fields.show))
    ensures r.trace == m.trace + ToggleEffects(cfg, m.fields) + [Emitted(e)]
    ensures Events(r.trace) == Events(m.trace) + [e]
    ensures Calls(r.trace) == Calls(m.trace)
  {
    var r := Emit(ToggleModal(cfg, m), e);
    assert r.trace == m.trace + (ToggleEffects(cfg, m.fields) + [Emitted(e)]);
    ProjectionsAppend(m.trace, ToggleEffects(cfg, m.fields) + [Emitted(e)]);
    ProjectionsAppend(ToggleEffects(cfg, m.fields), [Emitted(e)]);
    OnlyUpdates(ToggleEffects(cfg, m.fields));
    r
  }

  /** `onConnect(provider)`. */
  function OnConnect(cfg: Config, m: Machine, provider: Provider): (r: Machine)
    ensures r.fields == Fields(m.fields.uri, Flipped(cfg, m.fields.show))
    ensures r.trace == m.trace + ToggleEffects(cfg, m.fields)
                     + [Emitted(Event(ConnectName, Some(ProviderPayload(provider))))]
    ensures Events(r.trace) == Events(m.trace) + [Event(ConnectName, Some(ProviderPayload(provider)))]
  {
    Settle(cfg, m, Event(ConnectName, Some(ProviderPayload(provider))))
  }

  /** `onError(error)`. */
  function OnError(cfg: Config, m: Machine, error: Failure): (r: Machine)
    ensures r.fields == Fields(m.fields.uri, Flipped(cfg, m.fields.show))
    ensures r.trace == m.trace + ToggleEffects(cfg, m.fields)
                     + [Emitted(Event(ErrorName, Some(ErrorPayload(error))))]
    ensures Events(r.trace) == Events(m.trace) + [Event(ErrorName, Some(ErrorPayload(error)))]
  {
    Settle(cfg, m, Event(ErrorName, Some(ErrorPayload(error))))
  }

  /** `onClose()`: the user dismissed the modal. */
  function OnClose(cfg: Config, m: Machine): (r: Machine)
    ensures r.fields == Fields(m.fields.uri, Flipped(cfg, m.fields.show))
    ensures r.trace == m.trace + ToggleEffects(cfg, m.fields) + [Emitted(Event(CloseName, None))]
    ensures Events(r.trace) == Events(m.trace) + [Event(CloseName, None)]
  {
    Settle(cfg, m, Event(CloseName, None))
  }

  // ---------------------------------------------------------------------
  // Connection attempts

  /** `this.providerOptions[name]`, `undefined` when absent. */
  function OptionsFor(cfg: Config, name: string): Option<OptionBag> {
    if name in cfg.providerOptions then Some(cfg.providerOptions[name]) else None
  }

  /** `options.bridge`, `undefined` when absent. */
  function BridgeOf(options: OptionBag): Option<string> {
    if BridgeKey in options then Some(options[BridgeKey]) else None
  }

  /** The try/await/catch template: invoke the connector, then the success
      or the failure transition. Exactly one outcome event is emitted. */
  function Attempt(cfg: Config, m: Machine, call: Call, outcome: Outcome): (r: Machine)
    ensures r.fields == Fields(m.fields.uri, Flipped(cfg, m.fields.show))
    ensures r.trace == m.trace + [Invoked(call)] + ToggleEffects(cfg, m.fields) + [Emitted(OutcomeEvent(outcome))]
    ensures Events(r.trace) == Events(m.trace) + [OutcomeEvent(outcome)]
    ensures Calls(r.trace) == Calls(m.trace) + [call]
  {
    var invoked := Invoke(m, call);
    ProjectionsAppend(m.trace, [Invoked(call)]);
    match outcome
    case Resolved(p) => OnConnect(cfg, invoked, p)
    case Rejected(e) => OnError(cfg, invoked, e)
  }

  /** `connectToInjected()`. */
  function ConnectToInjected(cfg: Config, m: Machine, outcome: Outcome): (r: Machine)
    ensures Calls(r.trace) == Calls(m.trace) + [InjectedCall]
    ensures Events(r.trace) == Events(m.trace) + [OutcomeEvent(outcome)]
  {
    Attempt(cfg, m, InjectedCall, outcome)
  }

  /** `connectToFortmatic()`: as written, it invokes the Portis connector,
      handing it the fortmatic options. */
  function ConnectToFortmatic(cfg: Config, m: Machine, outcome: Outcome): (r: Machine)
    ensures Calls(r.trace) == Calls(m.trace) + [PortisCall(OptionsFor(cfg, FortmaticKey))]
    ensures Events(r.trace) == Events(m.trace) + [OutcomeEvent(outcome)]
  {
    Attempt(cfg, m, PortisCall(OptionsFor(cfg, FortmaticKey)), outcome)
  }

  /** `connectToPortis()`. */
  function ConnectToPortis(cfg: Config, m: Machine, outcome: Outcome): (r: Machine)
    ensures Calls(r.trace) == Calls(m.trace) + [PortisCall(OptionsFor(cfg, PortisKey))]
    ensures Events(r.trace) == Events(m.trace) + [OutcomeEvent(outcome)]
  {
    Attempt(cfg, m, PortisCall(OptionsFor(cfg, PortisKey)), outcome)
  }

  /** The `onUri` callback handed to the WalletConnect connector. */
  function OnUri(cfg: Config, m: Machine, u: string): Machine {
    if cfg.modal then SetState(m, [UriEntry(u)]) else m
  }

  /** One patch `{uri}` per delivered URI, in delivery order. */
  function UriUpdates(uris: seq<string>): seq<Effect> {
    seq(|uris|, i requires 0 <= i < |uris| => Updated([UriEntry(uris[i])]))
  }

  /** The last element of `s`, or `d` for an empty `s`. */
  function LastOr(s: seq<string>, d: string): string {
    if s == [] then d else s[|s| - 1]
  }

  /** The connector calls `onUri` once per element of `uris`: with a modal
      each URI is stored and forwarded, without one nothing happens. */
  function DeliverUris(cfg: Config, m: Machine, uris: seq<string>): (r: Machine)
    decreases |uris|
    ensures !cfg.modal ==> r == m
    ensures cfg.modal ==> r.fields == Fields(LastOr(uris, m.fields.uri), m.fields.show)
    ensures cfg.modal ==> r.trace == m.trace + UriUpdates(uris)
  {
    if uris == [] then m
    else
      var n := |uris| - 1;
      var before := DeliverUris(cfg, m, uris[..n]);
      assert UriUpdates(uris) == UriUpdates(uris[..n]) + [Updated([UriEntry(uris[n])])];
      MergeOne(before.fields, UriEntry(uris[n]));
      OnUri(cfg, before, uris[n])
  }

  /** `connectToWalletConnect()`. */
  function ConnectToWalletConnect(cfg: Config, m: Machine, uris: seq<string>, outcome: Outcome): Machine {
    if m.fields.uri != "" then
      if cfg.modal then SetState(m, [UriEntry("")]) else m
    else if WalletConnectKey !in cfg.providerOptions then
      OnError(cfg, m, MissingWalletConnectOptions)
    else
      var call := WalletConnectCall(BridgeOf(cfg.providerOptions[WalletConnectKey]), cfg.modal);
      var awaiting := DeliverUris(cfg, Invoke(m, call), uris);
      match outcome
      case Resolved(p) => OnConnect(cfg, if cfg.modal then SetState(awaiting, [UriEntry("")]) else awaiting, p)
      case Rejected(e) => OnError(cfg, awaiting, e)
  }
}

/** What the controller promises across its operations. */
module LifecycleProperties {
  import opened Wrappers
  import opened Patches
  import opened EventManager
  import opened Lifecycle

  /** Two toggles in a row give back the fields they started from. */
  lemma ToggleTwiceRestores(cfg: Config, m: Machine)
    ensures ToggleModal(cfg, ToggleModal(cfg, m)).fields == m.fields
    ensures ToggleModal(cfg, ToggleModal(cfg, m)).trace
         == m.trace + ToggleEffects(cfg, m.fields) + ToggleEffects(cfg, ToggleModal(cfg, m).fields)
  {
  }

  /** A second reset changes no field. */
  lemma ResetStateIdempotent(m: Machine)
    ensures ResetState(ResetState(m)).fields == ResetState(m).fields
    ensures Events(ResetState(ResetState(m)).trace) == Events(m.trace)
  {
  }

  /** A settled connector yields `connect` exactly when it resolved and
      `error` exactly when it rejected, so an attempt never reports both. */
  lemma OutcomeEventExclusive(o: Outcome)
    ensures OutcomeEvent(o).name == ConnectName <==> o.Resolved?
    ensures OutcomeEvent(o).name == ErrorName <==> o.Rejected?
    ensures o.Resolved? ==> OutcomeEvent(o).payload == Some(ProviderPayload(o.provider))
    ensures o.Rejected? ==> OutcomeEvent(o).payload == Some(ErrorPayload(o.error))
  {
  }

  /** The connector call `connectToWalletConnect` makes. */
  function WalletConnectCallFor(cfg: Config): Call
    requires WalletConnectKey in cfg.providerOptions
  {
    WalletConnectCall(BridgeOf(cfg.providerOptions[WalletConnectKey]), cfg.modal)
  }

  /** The patches the `onUri` callback forwards. */
  function Delivered(cfg: Config, uris: seq<string>): seq<Effect> {
    if cfg.modal then UriUpdates(uris) else []
  }

  /** A URI already pending: the connector is not invoked and no event is
      emitted; only the modal's URI is cleared, and `show` is kept. */
  lemma WalletConnectReentry(cfg: Config, m: Machine, uris: seq<string>, outcome: Outcome)
    requires m.fields.uri != ""
    ensures var r := ConnectToWalletConnect(cfg, m, uris, outcome);
      && r.fields == Fields(if cfg.modal then "" else m.fields.uri, m.fields.show)
      && r.trace == m.trace + (if cfg.modal then [Updated([UriEntry("")])] else [])
      && Events(r.trace) == Events(m.trace)
      && Calls(r.trace) == Calls(m.trace)
  {
    var r := ConnectToWalletConnect(cfg, m, uris, outcome);
    if cfg.modal {
      MergeOne(m.fields, UriEntry(""));
      ProjectionsAppend(m.trace, [Updated([UriEntry("")])]);
      OnlyUpdates([Updated([UriEntry("")])]);
    }
  }

  /** No WalletConnect options: reading `bridge` throws inside the `try`, so
      the connector is not invoked and the failure transition runs. */
  lemma WalletConnectMissingOptions(cfg: Config, m: Machine, uris: seq<string>, outcome: Outcome)
    requires m.fields.uri == "" && WalletConnectKey !in cfg.providerOptions
    ensures var r := ConnectToWalletConnect(cfg, m, uris, outcome);
      && r.fields == Fields("", Flipped(cfg, m.fields.show))
      && Calls(r.trace) == Calls(m.trace)
      && Events(r.trace) == Events(m.trace) + [Event(ErrorName, Some(ErrorPayload(MissingWalletConnectOptions)))]
  {
  }

  /** An attempt's trace: the connector call, patches only, then the one
      outcome event. Its projections add that call and that event. */
  lemma AttemptProjections(t: seq<Effect>, call: Call, quiet: seq<Effect>, e: Event)
    requires forall i :: 0 <= i < |quiet| ==> quiet[i].Updated?
    ensures Events(t + [Invoked(call)] + quiet + [Emitted(e)]) == Events(t) + [e]
    ensures Calls(t + [Invoked(call)] + quiet + [Emitted(e)]) == Calls(t) + [call]
  {
    OnlyUpdates(quiet);
    assert t + [Invoked(call)] + quiet + [Emitted(e)] == t + ([Invoked(call)] + quiet + [Emitted(e)]);
    ProjectionsAppend(t, [Invoked(call)] + quiet + [Emitted(e)]);
    ProjectionsAppend([Invoked(call)] + quiet, [Emitted(e)]);
    ProjectionsAppend([Invoked(call)], quiet);
  }

  /** A successful attempt: the URIs are forwarded as they arrive (with a
      modal), then `{uri: ""}`, then the toggle, then the `connect` event. */
  lemma WalletConnectSuccess(cfg: Config, m: Machine, uris: seq<string>, p: Provider)
    requires m.fields.uri == "" && WalletConnectKey in cfg.providerOptions
    ensures ConnectToWalletConnect(cfg, m, uris, Resolved(p)).fields == Fields("", Flipped(cfg, m.fields.show))
    ensures ConnectToWalletConnect(cfg, m, uris, Resolved(p)).trace
         == m.trace + [Invoked(WalletConnectCallFor(cfg))]
            + (Delivered(cfg, uris) + (if cfg.modal then [Updated([UriEntry("")])] else []) + ToggleEffects(cfg, m.fields))
            + [Emitted(Event(ConnectName, Some(ProviderPayload(p))))]
    ensures Calls(ConnectToWalletConnect(cfg, m, uris, Resolved(p)).trace) == Calls(m.trace) + [WalletConnectCallFor(cfg)]
    ensures Events(ConnectToWalletConnect(cfg, m, uris, Resolved(p)).trace)
         == Events(m.trace) + [Event(ConnectName, Some(ProviderPayload(p)))]
  {
    var call := WalletConnectCallFor(cfg);
    var e := Event(ConnectName, Some(ProviderPayload(p)));
    var clear: seq<Effect> := if cfg.modal then [Updated([UriEntry("")])] else [];
    var awaiting := DeliverUris(cfg, Invoke(m, call), uris);
    assert awaiting.trace == m.trace + [Invoked(call)] + Delivered(cfg, uris);
    assert awaiting.fields.show == m.fields.show;
    var cleared := if cfg.modal then SetState(awaiting, [UriEntry("")]) else awaiting;
    if cfg.modal {
      MergeOne(awaiting.fields, UriEntry(""));
    }
    assert cleared.fields == Fields("", m.fields.show);
    assert cleared.trace == awaiting.trace + clear;
    var r := OnConnect(cfg, cleared, p);
    assert r == ConnectToWalletConnect(cfg, m, uris, Resolved(p));
    var quiet := Delivered(cfg, uris) + clear + ToggleEffects(cfg, m.fields);
    assert r.trace == m.trace + [Invoked(call)] + quiet + [Emitted(e)];
    AttemptProjections(m.trace, call, quiet, e);
  }

  /** A failed attempt: the last delivered URI stays pending (with a
      modal), the toggle runs and one `error` event reports the failure. */
  lemma WalletConnectFailure(cfg: Config, m: Machine, uris: seq<string>, error: Failure)
    requires m.fields.uri == "" && WalletConnectKey in cfg.providerOptions
    ensures ConnectToWalletConnect(cfg, m, uris, Rejected(error)).fields
         == Fields(if cfg.modal then LastOr(uris, "") else "", Flipped(cfg, m.fields.show))
    ensures ConnectToWalletConnect(cfg, m, uris, Rejected(error)).trace
         == m.trace + [Invoked(WalletConnectCallFor(cfg))] + (Delivered(cfg, uris) + ToggleEffects(cfg, m.fields))
            + [Emitted(Event(ErrorName, Some(ErrorPayload(error))))]
    ensures Calls(ConnectToWalletConnect(cfg, m, uris, Rejected(error)).trace) == Calls(m.trace) + [WalletConnectCallFor(cfg)]
    ensures Events(ConnectToWalletConnect(cfg, m, uris, Rejected(error)).trace)
         == Events(m.trace) + [Event(ErrorName, Some(ErrorPayload(error)))]
  {
    var call := WalletConnectCallFor(cfg);
    var e := Event(ErrorName, Some(ErrorPayload(error)));
    var awaiting := DeliverUris(cfg, Invoke(m, call), uris);
    assert awaiting.trace == m.trace + [Invoked(call)] + Delivered(cfg, uris);
    assert awaiting.fields.show == m.fields.show;
    var r := OnError(cfg, awaiting, error);
    assert r == ConnectToWalletConnect(cfg, m, uris, Rejected(error));
    var quiet := Delivered(cfg, uris) + ToggleEffects(cfg, m.fields);
    assert r.trace == m.trace + [Invoked(call)] + quiet + [Emitted(e)];
    AttemptProjections(m.trace, call, quiet, e);
  }

  /** Without a modal nothing ever stores a URI or shows the modal. */
  ghost predicate Inv(cfg: Config, m: Machine) {
    !cfg.modal ==> m.fields == Fields("", false)
  }

  /** Every operation keeps the invariant. */
  lemma InvPreserved(cfg: Config, m: Machine, o: Outcome, uris: seq<string>, p: Provider, e: Failure)
    requires Inv(cfg, m)
    ensures Inv(cfg, ToggleModal(cfg, m))
    ensures Inv(cfg, ResetState(m))
    ensures Inv(cfg, OnConnect(cfg, m, p)) && Inv(cfg, OnError(cfg, m, e)) && Inv(cfg, OnClose(cfg, m))
    ensures Inv(cfg, ConnectToInjected(cfg, m, o))
    ensures Inv(cfg, ConnectToFortmatic(cfg, m, o))
    ensures Inv(cfg, ConnectToPortis(cfg, m, o))
    ensures Inv(cfg, ConnectToWalletConnect(cfg, m, uris, o))
  {
  }
}
