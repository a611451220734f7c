/** The controller object itself: two mutable fields, the configuration
    fixed at construction, the subscriptions of the event manager and the
    trace of everything observable. Each method is proved to take the
    object exactly where the matching step function of `Lifecycle` says. */
module Core {
  import opened Wrappers
  import opened Patches
  import opened EventManager
  import opened Lifecycle
  import opened LifecycleProperties

  class Web3ConnectCore {
    const modal: bool
    const injectedProvider: Option<string>
    const providerOptions: map<string, OptionBag>

    var uri: string
    var show: bool

    /** The event manager's registry. */
    var subscriptions: seq<Subscription>

    /** Update-hook patches, triggered events and connector calls, in order. */
    var trace: seq<Effect>

    function Configuration(): Config {
      Config(modal, injectedProvider, providerOptions)
    }

    function Current(): Machine
      reads this
    {
      Machine(Fields(uri, show), trace)
    }

    ghost predicate Valid()
      reads this
    {
      Inv(Configuration(), Current())
    }

    /** `getInjectProvider()`'s answer is the parameter `injected`; the
        modal is not rendered here. */
    constructor (opts: CoreOptions, injected: Option<string>)
      ensures Configuration() == MakeConfig(opts, injected)
      ensures Current() == Initial && subscriptions == []
      ensures Valid()
    {
      var c := MakeConfig(opts, injected);
      modal := c.modal;
      injectedProvider := c.injectedProvider;
      providerOptions := c.providerOptions;
      uri := "";
      show := false;
      subscriptions := [];
      trace := [];
    }

    /** `on(event, callback)`. */
    method On(event: string, callback: CallbackId)
      requires Valid()
      modifies this
      ensures Valid()
      ensures subscriptions == old(subscriptions) + [Subscription(event, callback)]
      ensures Current() == old(Current())
      ensures forall name ::
                Listeners(subscriptions, name)
                == Listeners(old(subscriptions), name) + (if event == name then [callback] else [])
    {
      forall name {
        ListenersAppend(subscriptions, Subscription(event, callback), name);
      }
      subscriptions := subscriptions + [Subscription(event, callback)];
    }

    /** `setState(patch)`: copy each key into the object, then forward the
        patch to the update hook. */
    method SetState(patch: Patch)
      modifies this
      ensures Current() == Lifecycle.SetState(old(Current()), patch)
      ensures subscriptions == old(subscriptions)
    {
      for i := 0 to |patch|
        invariant Fields(uri, show) == Merge(old(Fields(uri, show)), patch[..i])
        invariant trace == old(trace) && subscriptions == old(subscriptions)
      {
        assert patch[..i + 1][..i] == patch[..i];
        match patch[i]
        case UriEntry(u) => uri := u;
        case ShowEntry(b) => show := b;
      }
      assert patch[..|patch|] == patch;
      trace := trace + [Updated(patch)];
    }

    /** `eventManager.trigger(e.name, e.payload)`. */
    method Trigger(e: Event)
      modifies this
      ensures Current() == Emit(old(Current()), e)
      ensures subscriptions == old(subscriptions)
    {
      trace := trace + [Emitted(e)];
    }

    /** The awaited connector call, as the trace records it. */
    method Invoke(call: Call)
      modifies this
      ensures Current() == Lifecycle.Invoke(old(Current()), call)
      ensures subscriptions == old(subscriptions)
    {
      trace := trace + [Invoked(call)];
    }

    /** `toggleModal()`, without the page-scroll lock. */
    method ToggleModal()
      requires Valid()
      modifies this
      ensures Valid()
      ensures Current() == Lifecycle.ToggleModal(Configuration(), old(Current()))
      ensures subscriptions == old(subscriptions)
    {
      InvPreserved(Configuration(), Current(), Resolved(Provider(0)), [], Provider(0), Rejection(0));
      if !modal {
        return;
      }
      SetState([ShowEntry(!show)]);
    }

    method ResetState()
      requires Valid()
      modifies this
      ensures Valid()
      ensures Current() == Lifecycle.ResetState(old(Current()))
      ensures subscriptions == old(subscriptions)
    {
      InvPreserved(Configuration(), Current(), Resolved(Provider(0)), [], Provider(0), Rejection(0));
      SetState([ShowEntry(false), UriEntry("")]);
    }

    method OnError(error: Failure)
      requires Valid()
      modifies this
      ensures Valid()
      ensures Current() == Lifecycle.OnError(Configuration(), old(Current()), error)
      ensures subscriptions == old(subscriptions)
    {
      InvPreserved(Configuration(), Current(), Rejected(error), [], Provider(0), error);
      ToggleModal();
      Trigger(Event(ErrorName, Some(ErrorPayload(error))));
    }

    method OnConnect(provider: Provider)
      requires Valid()
      modifies this
      ensures Valid()
      ensures Current() == Lifecycle.OnConnect(Configuration(), old(Current()), provider)
      ensures subscriptions == old(subscriptions)
    {
      InvPreserved(Configuration(), Current(), Resolved(provider), [], provider, Rejection(0));
      ToggleModal();
      Trigger(Event(ConnectName, Some(ProviderPayload(provider))));
    }

    method OnClose()
      requires Valid()
      modifies this
      ensures Valid()
      ensures Current() == Lifecycle.OnClose(Configuration(), old(Current()))
      ensures subscriptions == old(subscriptions)
    {
      InvPreserved(Configuration(), Current(), Resolved(Provider(0)), [], Provider(0), Rejection(0));
      ToggleModal();
      Trigger(Event(CloseName, None));
    }

    /** The `try { await connector; onConnect } catch { onError }` shape. */
    method Conclude(outcome: Outcome)
      requires Valid()
      modifies this
      ensures Valid()
      ensures outcome.Resolved? ==> Current() == Lifecycle.OnConnect(Configuration(), old(Current()), outcome.provider)
      ensures outcome.Rejected? ==> Current() == Lifecycle.OnError(Configuration(), old(Current()), outcome.error)
      ensures subscriptions == old(subscriptions)
    {
      match outcome
      case Resolved(p) => OnConnect(p);
      case Rejected(e) => OnError(e);
    }

    /** `connectToInjected()`; `outcome` is how the injected connector settles. */
    method ConnectToInjected(outcome: Outcome)
      requires Valid()
      modifies this
      ensures Valid()
      ensures Current() == Lifecycle.ConnectToInjected(Configuration(), old(Current()), outcome)
      ensures subscriptions == old(subscriptions)
    {
      InvPreserved(Configuration(), Current(), outcome, [], Provider(0), Rejection(0));
      Invoke(InjectedCall);
      Conclude(outcome);
    }

    /** `connectToFortmatic()`: the Portis connector with the fortmatic options. */
    method ConnectToFortmatic(outcome: Outcome)
      requires Valid()
      modifies this
      ensures Valid()
      ensures Current() == Lifecycle.ConnectToFortmatic(Configuration(), old(Current()), outcome)
      ensures subscriptions == old(subscriptions)
    {
      InvPreserved(Configuration(), Current(), outcome, [], Provider(0), Rejection(0));
      Invoke(PortisCall(OptionsFor(Configuration(), FortmaticKey)));
      Conclude(outcome);
    }

    method ConnectToPortis(outcome: Outcome)
      requires Valid()
      modifies this
      ensures Valid()
      ensures Current() == Lifecycle.ConnectToPortis(Configuration(), old(Current()), outcome)
      ensures subscriptions == old(subscriptions)
    {
      InvPreserved(Configuration(), Current(), outcome, [], Provider(0), Rejection(0));
      Invoke(PortisCall(OptionsFor(Configuration(), PortisKey)));
      Conclude(outcome);
    }

    /** The `onUri` callback. */
    method OnUri(u: string)
      modifies this
      ensures Current() == Lifecycle.OnUri(Configuration(), old(Current()), u)
      ensures subscriptions == old(subscriptions)
    {
      if modal {
        SetState([UriEntry(u)]);
      }
    }

    /** `connectToWalletConnect()`; the connector calls `onUri` once per
        element of `uris` and then settles with `outcome`. */
    method ConnectToWalletConnect(uris: seq<string>, outcome: Outcome)
      requires Valid()
      modifies this
      ensures Valid()
      ensures Current() == Lifecycle.ConnectToWalletConnect(Configuration(), old(Current()), uris, outcome)
      ensures subscriptions == old(subscriptions)
    {
      InvPreserved(Configuration(), Current(), outcome, uris, Provider(0), Rejection(0));
      if uri != "" {
        if modal {
          SetState([UriEntry("")]);
        }
        return;
      }
      if WalletConnectKey !in providerOptions {
        OnError(MissingWalletConnectOptions);
        return;
      }
      Invoke(WalletConnectCall(BridgeOf(providerOptions[WalletConnectKey]), modal));
      ghost var invoked := Current();
      for i := 0 to |uris|
        invariant Current() == Lifecycle.DeliverUris(Configuration(), invoked, uris[..i])
        invariant subscriptions == old(subscriptions)
      {
        assert uris[..i + 1][..i] == uris[..i];
        OnUri(uris[i]);
      }
      assert uris[..|uris|] == uris;
      match outcome
      case Resolved(p) =>
        if modal {
          SetState([UriEntry("")]);
        }
        OnConnect(p);
      case Rejected(e) =>
        OnError(e);
    }
  }
}
