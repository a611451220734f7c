/** The values the controller reports to host code, and the subscriptions
    host code registers with `on`. */
module EventManager {
  import opened Wrappers

  /** An opaque provider handle that a connector resolved with. */
  datatype Provider = Provider(id: nat)

  /** What a connection attempt fails with: an opaque rejection from a
      connector, or the `TypeError` of reading `bridge` from absent
      WalletConnect options. */
  datatype Failure = Rejection(id: nat) | MissingWalletConnectOptions

  datatype Payload = ProviderPayload(provider: Provider) | ErrorPayload(error: Failure)

  /** `eventManager.trigger(name, payload)`; `close` carries no payload. */
  datatype Event = Event(name: string, payload: Option<Payload>)

  const ConnectName: string := "connect"
  const ErrorName: string := "error"
  const CloseName: string := "close"

  /** An opaque reference to a host callback. */
  type CallbackId = nat

  datatype Subscription = Subscription(event: string, callback: CallbackId)

  /** The callbacks registered under `name`, in registration order. */
  function Listeners(subs: seq<Subscription>, name: string): (r: seq<CallbackId>)
    ensures |r| <= |subs|
    ensures forall c :: c in r <==> Subscription(name, c) in subs
  {
    if subs == [] then []
    else (if subs[0].event == name then [subs[0].callback] else []) + Listeners(subs[1..], name)
  }

  /** Registering a callback puts it after every earlier callback of the same
      event name and leaves the other names' listeners as they were. */
  lemma {:induction false} ListenersAppend(subs: seq<Subscription>, s: Subscription, name: string)
    ensures Listeners(subs + [s], name)
         == Listeners(subs, name) + (if s.event == name then [s.callback] else [])
  {
    if subs == [] {
      assert [] + [s] == [s];
      assert ([s])[1..] == [];
    } else {
      assert (subs + [s])[1..] == subs[1..] + [s];
      ListenersAppend(subs[1..], s, name);
    }
  }
}
