/** The content script of src/content.ts: its `message` listener state and
    the arguments it passes to `setupTwitterObserver`. */
module Content {
  import opened Wrappers
  import opened Messages
  import opened Adapters
  import opened Observer
  import PageRelay
  import LegacyRelay

  /** The listener's module-level state. */
  datatype ContentState = ContentState(pageScriptLoaded: bool, connectedAddress: Option<string>)

  const Initial := ContentState(false, None)

  /** The listener: `PAGE_SCRIPT_LOADED` sets the readiness flag, the
      unsuffixed `WALLET_CONNECTED` stores the carried account, and every other
      tag, `ETHEREUM_READY` and `WALLET_CONNECTION_ERROR` included, only logs. */
  function Listen(s: ContentState, m: Message): (r: ContentState)
    ensures r.pageScriptLoaded == (s.pageScriptLoaded || m.tag == PageScriptLoaded)
    ensures m.tag == "WALLET_CONNECTED" ==> r.connectedAddress == m.account
    ensures m.tag != "WALLET_CONNECTED" ==> r.connectedAddress == s.connectedAddress
  {
    if m.tag == PageScriptLoaded then s.(pageScriptLoaded := true)
    else if m.tag == EthereumReady then s
    else if m.tag == "WALLET_CONNECTED" then s.(connectedAddress := m.account)
    else if m.tag == "WALLET_CONNECTION_ERROR" then s
    else s
  }

  /** The state after the listener has seen a sequence of messages. */
  function Replay(s: ContentState, ms: seq<Message>): ContentState
    decreases |ms|
  {
    if ms == [] then s else Replay(Listen(s, ms[0]), ms[1..])
  }

  /** Receiving the same message twice is the same as receiving it once. */
  lemma ListenIsIdempotent(s: ContentState, m: Message)
    ensures Listen(Listen(s, m), m) == Listen(s, m)
  {
  }

  /** Nothing resets the readiness flag. */
  lemma {:induction false} ReadinessIsPermanent(s: ContentState, ms: seq<Message>)
    requires s.pageScriptLoaded
    ensures Replay(s, ms).pageScriptLoaded
    decreases |ms|
  {
    if ms != [] {
      ReadinessIsPermanent(Listen(s, ms[0]), ms[1..]);
    }
  }

  /** A page script's startup broadcasts make the content script ready and
      change nothing else, from any state; in particular from the initial one. */
  lemma StartupMakesReady(s: ContentState)
    ensures Replay(s, StartupBroadcasts()) == s.(pageScriptLoaded := true)
    ensures Replay(Initial, StartupBroadcasts()) == ContentState(true, None)
  {
    var ms := StartupBroadcasts();
    assert ms[1..][1..] == [];
  }

  /** A tag either page script broadcasts. */
  predicate RelayTag(tag: string)
  {
    tag in PageRelay.ReplyTags || tag in LegacyRelay.ReplyTags || tag == PageScriptLoaded || tag == EthereumReady
  }

  predicate AllRelayTags(ms: seq<Message>)
    decreases |ms|
  {
    ms == [] || (RelayTag(ms[0].tag) && AllRelayTags(ms[1..]))
  }

  /** Neither page script ever broadcasts the unsuffixed `WALLET_CONNECTED`,
      so the listener's `connectedAddress` keeps its initial `null` forever. */
  lemma {:induction false} RelayTrafficNeverSetsAddress(s: ContentState, ms: seq<Message>)
    requires AllRelayTags(ms)
    ensures Replay(s, ms).connectedAddress == s.connectedAddress
    decreases |ms|
  {
    if ms != [] {
      assert ms[0].tag != "WALLET_CONNECTED";
      RelayTrafficNeverSetsAddress(Listen(s, ms[0]), ms[1..]);
    }
  }

  // ----- the call to setupTwitterObserver -----

  /** A value passed positionally to `setupTwitterObserver`. */
  datatype Argument = Undefined | AdapterArg(adapter: Adapter) | EmptyObject | OptionsArg(options: ObserverOptions)

  /** The four declared parameters once the arguments are bound. */
  datatype SetupParams = SetupParams(
    solanaActionConfig: Argument,
    starknetActionConfig: Argument,
    callbacks: Argument,
    options: Argument)

  function ArgumentAt(args: seq<Argument>, i: nat): Argument
  {
    if i < |args| then args[i] else Undefined
  }

  /** JavaScript positional binding: parameter i takes argument i, an undefined
      `callbacks` / `options` takes its default (`{}` / the default options),
      and arguments beyond the fourth are not bound to any parameter. */
  function BindSetupArguments(args: seq<Argument>): (p: SetupParams)
    ensures |args| >= 2 ==> p.solanaActionConfig == args[0] && p.starknetActionConfig == args[1]
    ensures ArgumentAt(args, 2) != Undefined ==> p.callbacks == args[2]
    ensures ArgumentAt(args, 2) == Undefined ==> p.callbacks == EmptyObject
    ensures ArgumentAt(args, 3) != Undefined ==> p.options == args[3]
    ensures ArgumentAt(args, 3) == Undefined ==> p.options == OptionsArg(DefaultOptions)
    ensures p.callbacks != Undefined && p.options != Undefined
  {
    var cb := ArgumentAt(args, 2);
    var opts := ArgumentAt(args, 3);
    SetupParams(
      ArgumentAt(args, 0),
      ArgumentAt(args, 1),
      if cb == Undefined then EmptyObject else cb,
      if opts == Undefined then OptionsArg(DefaultOptions) else opts)
  }

  /** An argument past the fourth is never bound. */
  lemma ExtraArgumentIgnored(args: seq<Argument>, extra: Argument)
    requires |args| >= 4
    ensures BindSetupArguments(args + [extra]) == BindSetupArguments(args)
  {
    assert forall i :: 0 <= i < 4 ==> (args + [extra])[i] == args[i];
  }

  /** The options object the observer reads from a bound argument; an object
      without `securityLevel` (`{}` or an adapter) has it absent. */
  function OptionsOf(a: Argument): ObserverOptions
  {
    match a
    case OptionsArg(o) => o
    case Undefined => DefaultOptions
    case _ => ObserverOptions(Absent)
  }

  /** `OPTIONS` in content.ts. */
  const ContentOptions := ObserverOptions(Uniform(All))

  /** The five arguments `initializeExtension` passes. */
  const InitializeArguments: seq<Argument> := [
    AdapterArg(EthereumAdapter(None)), AdapterArg(SolanaActionAdapter), AdapterArg(StarknetActionAdapter),
    EmptyObject, OptionsArg(ContentOptions)]

  /** As written, the arguments bind one position off: the Ethereum adapter
      becomes the Solana configuration, the Solana adapter the Starknet one,
      the Starknet adapter the callbacks, `{}` the options, and `OPTIONS` is
      dropped. The dropped options happen to normalise to the same levels. */
  lemma ArgumentsBindShifted()
    ensures BindSetupArguments(InitializeArguments) == SetupParams(
      AdapterArg(EthereumAdapter(None)), AdapterArg(SolanaActionAdapter), AdapterArg(StarknetActionAdapter), EmptyObject)
    ensures NormalizeOptions(OptionsOf(BindSetupArguments(InitializeArguments).options)) == NormalizeOptions(ContentOptions)
  {
  }

  /** The adapter an action is bound to under a given binding. */
  function RoutedAdapter(p: SetupParams, d: ActionDescriptor): Option<Adapter>
  {
    if p.solanaActionConfig.AdapterArg? && p.starknetActionConfig.AdapterArg? then
      Some(SelectAdapter(d, p.solanaActionConfig.adapter, p.starknetActionConfig.adapter))
    else None
  }

  /** Consequence of the shifted binding: a Solana action is bound to an
      Ethereum adapter with no chain, and a Starknet action to the Solana
      adapter, so their wallet requests go to the wrong chain. */
  lemma ShiftedBindingMisroutes(d: ActionDescriptor)
    ensures var a := RoutedAdapter(BindSetupArguments(InitializeArguments), d);
      && (!d.isEthereum && !d.isStarknet ==> a == Some(EthereumAdapter(None)))
      && (!d.isEthereum && d.isStarknet ==> a == Some(SolanaActionAdapter))
      && (d.isEthereum ==> a == Some(EthereumAdapter(d.chain)))
  {
    ArgumentsBindShifted();
  }

  /** A concrete witness: the plainest Solana action connects over Ethereum. */
  lemma SolanaActionConnectsOverEthereum()
    ensures var d := ActionDescriptor(false, false, None);
      var a := RoutedAdapter(BindSetupArguments(InitializeArguments), d);
      a.Some? && DescriptorChain(d) == Solana
      && ConnectProtocol(a.value).request.tag == "CONNECT_WALLET_ETHEREUM"
  {
    ArgumentsBindShifted();
  }

  /** The evidently intended call, without the leading Ethereum adapter (the
      observer builds Ethereum adapters itself). */
  const IntendedArguments: seq<Argument> := [
    AdapterArg(SolanaActionAdapter), AdapterArg(StarknetActionAdapter), EmptyObject, OptionsArg(ContentOptions)]

  /** Under the intended binding every action is bound to an adapter of the
      chain its descriptor asks for, and `OPTIONS` reaches the observer. */
  lemma IntendedBindingRoutesByChain(d: ActionDescriptor)
    ensures var p := BindSetupArguments(IntendedArguments);
      var a := RoutedAdapter(p, d);
      a.Some? && ChainOf(a.value) == DescriptorChain(d) && OptionsOf(p.options) == ContentOptions
  {
    var p := BindSetupArguments(IntendedArguments);
    assert p.solanaActionConfig == AdapterArg(SolanaActionAdapter);
    assert p.starknetActionConfig == AdapterArg(StarknetActionAdapter);
    SelectionFollowsDescriptor(d, SolanaActionAdapter, StarknetActionAdapter);
  }
}
