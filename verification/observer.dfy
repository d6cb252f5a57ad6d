/** The pure decisions of src/twitterObserver.tsx: option normalisation, the
    adapter an action is bound to, the style preset, and which added nodes of
    a mutation batch reach the node handler. */
module Observer {
  import opened Wrappers
  import opened Messages
  import opened Adapters

  datatype SecurityLevel = OnlyTrusted | NonMalicious | All

  /** A security level per kind of link. */
  datatype Levels = Levels(websites: SecurityLevel, interstitials: SecurityLevel, actions: SecurityLevel)

  /** `options.securityLevel`: absent, one level for everything, or a record. */
  datatype LevelSetting = Absent | Uniform(level: SecurityLevel) | PerKind(levels: Levels)

  datatype ObserverOptions = ObserverOptions(securityLevel: LevelSetting)

  const DefaultOptions := ObserverOptions(Uniform(All))

  /** `normalizeOptions`: a record of per-kind levels passes through; a
      single level, or none, gives every kind the same level, which is the
      given one or, when absent, the default options' level. */
  function NormalizeOptions(o: ObserverOptions): (r: Levels)
    ensures o.securityLevel.PerKind? ==> r == o.securityLevel.levels
    ensures !o.securityLevel.PerKind? ==> r.websites == r.actions && r.interstitials == r.actions
    ensures o.securityLevel.Uniform? ==> r.actions == o.securityLevel.level
    ensures o.securityLevel.Absent? ==> r.actions == DefaultOptions.securityLevel.level
  {
    match o.securityLevel
    case Absent => Levels(All, All, All)
    case Uniform(l) => Levels(l, l, l)
    case PerKind(levels) => levels
  }

  /** Normalising is idempotent, and absent options behave as the defaults. */
  lemma NormalizeOptionsStable(o: ObserverOptions)
    ensures NormalizeOptions(ObserverOptions(PerKind(NormalizeOptions(o)))) == NormalizeOptions(o)
    ensures NormalizeOptions(ObserverOptions(Absent)) == NormalizeOptions(DefaultOptions)
  {
  }

  /** A single level means the same as a record that repeats it for every
      kind, and a record normalises like a single level exactly when its three
      levels agree. */
  lemma UniformMeansEveryKind(l: SecurityLevel, levels: Levels)
    ensures NormalizeOptions(ObserverOptions(Uniform(l))) == NormalizeOptions(ObserverOptions(PerKind(Levels(l, l, l))))
    ensures NormalizeOptions(ObserverOptions(PerKind(levels))) == NormalizeOptions(ObserverOptions(Uniform(l)))
      <==> levels == Levels(l, l, l)
  {
  }

  /** The fields of a fetched action descriptor the observer reads. */
  datatype ActionDescriptor = ActionDescriptor(isEthereum: bool, isStarknet: bool, chain: Option<string>)

  /** The chain a descriptor asks for: Ethereum first, then Starknet, else Solana. */
  function DescriptorChain(d: ActionDescriptor): Chain
  {
    if d.isEthereum then Ethereum else if d.isStarknet then Starknet else Solana
  }

  /** The adapter `handleNewNode` gives an action: a fresh Ethereum adapter for
      the descriptor's chain when `isEthereum` is truthy (whatever `isStarknet`
      says), else the Starknet configuration for `isStarknet`, else the Solana one. */
  function SelectAdapter(d: ActionDescriptor, solanaConfig: Adapter, starknetConfig: Adapter): (a: Adapter)
    ensures DescriptorChain(d) == Ethereum ==> a == EthereumAdapter(d.chain)
    ensures DescriptorChain(d) == Starknet ==> a == starknetConfig
    ensures DescriptorChain(d) == Solana ==> a == solanaConfig
    ensures ChainOf(solanaConfig) == Solana && ChainOf(starknetConfig) == Starknet ==> ChainOf(a) == DescriptorChain(d)
  {
    if d.isEthereum then EthereumAdapter(d.chain)
    else if d.isStarknet then starknetConfig
    else solanaConfig
  }

  /** With configurations of the right chains, the chosen adapter talks to the
      chain the descriptor asks for. */
  lemma SelectionFollowsDescriptor(d: ActionDescriptor, solanaConfig: Adapter, starknetConfig: Adapter)
    requires ChainOf(solanaConfig) == Solana && ChainOf(starknetConfig) == Starknet
    ensures ChainOf(SelectAdapter(d, solanaConfig, starknetConfig)) == DescriptorChain(d)
  {
  }

  /** What becomes of a link preview: left alone, or replaced by the action at
      `apiUrl` bound to `adapter`. */
  datatype Placement = Untouched | Replaced(apiUrl: string, adapter: Adapter)

  /** The tail of `handleNewNode`: a falsy action URL, a failed descriptor fetch
      (the rejection is swallowed by the caller) or a failed `Action.fetch`
      leaves the preview alone; otherwise the action replaces it. */
  function PlaceAction(
    apiUrl: Option<string>,
    descriptor: Outcome<ActionDescriptor>,
    fetched: Outcome<()>,
    solanaConfig: Adapter,
    starknetConfig: Adapter): (r: Placement)
    ensures r.Replaced? <==> Truthy(apiUrl) && descriptor.Ok? && fetched.Ok?
    ensures r.Replaced? ==> r.apiUrl == apiUrl.value && r.adapter == SelectAdapter(descriptor.value, solanaConfig, starknetConfig)
  {
    if !Truthy(apiUrl) then Untouched
    else
      match descriptor
      case Err(_) => Untouched
      case Ok(d) =>
        var adapter := SelectAdapter(d, solanaConfig, starknetConfig);
        match fetched
        case Err(_) => Untouched
        case Ok(_) => Replaced(apiUrl.value, adapter)
  }

  datatype StylePreset = XDark | XLight

  /** `resolveXStylePreset`: a non-empty page colour scheme decides ("dark" is
      dark, anything else light); otherwise the media query does. */
  function ResolveXStylePreset(colorScheme: Option<string>, prefersDark: bool): (r: StylePreset)
    ensures r == XDark <==> colorScheme == Some("dark") || (!Truthy(colorScheme) && prefersDark)
  {
    if Truthy(colorScheme) then (if colorScheme.value == "dark" then XDark else XLight)
    else if prefersDark then XDark else XLight
  }

  /** `Node.ELEMENT_NODE`. */
  const ElementNode: nat := 1

  /** An added DOM node, reduced to what the observer looks at. */
  datatype Node = Node(nodeType: nat)

  predicate IsElement(n: Node)
  {
    n.nodeType == ElementNode
  }

  /** The added nodes of a batch of mutations, in order. */
  function Flatten(mutations: seq<seq<Node>>): seq<Node>
    decreases |mutations|
  {
    if mutations == [] then [] else mutations[0] + Flatten(mutations[1..])
  }

  lemma {:induction false} FlattenAppend(a: seq<seq<Node>>, b: seq<seq<Node>>)
    ensures Flatten(a + b) == Flatten(a) + Flatten(b)
    decreases |a|
  {
    if a == [] {
      assert a + b == b;
    } else {
      assert (a + b)[1..] == a[1..] + b;
      FlattenAppend(a[1..], b);
    }
  }

  /** The longest prefix of `ns` made of elements only. */
  function TakeElements(ns: seq<Node>): (r: seq<Node>)
    ensures r <= ns
    ensures forall i :: 0 <= i < |r| ==> IsElement(r[i])
    ensures |r| < |ns| ==> !IsElement(ns[|r|])
    decreases |ns|
  {
    if ns == [] || !IsElement(ns[0]) then [] else [ns[0]] + TakeElements(ns[1..])
  }

  lemma {:induction false} TakeElementsAppend(p: seq<Node>, rest: seq<Node>)
    requires forall i :: 0 <= i < |p| ==> IsElement(p[i])
    ensures TakeElements(p + rest) == p + TakeElements(rest)
    decreases |p|
  {
    if p != [] {
      assert (p + rest)[1..] == p[1..] + rest;
      TakeElementsAppend(p[1..], rest);
    } else {
      assert p + rest == rest;
    }
  }

  /** The mutation callback: hands every added node to the node handler in
      order, and returns from the whole callback at the first added node that
      is not an element, so nothing after it in the batch is handled. */
  method ProcessBatch(mutations: seq<seq<Node>>) returns (handled: seq<Node>)
    ensures handled == TakeElements(Flatten(mutations))
  {
    handled := [];
    var i := 0;
    while i < |mutations|
      invariant 0 <= i <= |mutations|
      invariant handled == Flatten(mutations[..i])
      invariant forall k :: 0 <= k < |handled| ==> IsElement(handled[k])
    {
      var added := mutations[i];
      var j := 0;
      while j < |added|
        invariant 0 <= j <= |added|
        invariant handled == Flatten(mutations[..i]) + added[..j]
        invariant forall k :: 0 <= k < |handled| ==> IsElement(handled[k])
      {
        var node := added[j];
        if node.nodeType != ElementNode {
          BatchStopsAt(mutations, i, j);
          return;
        }
        handled := handled + [node];
        assert added[..j + 1] == added[..j] + [node];
        j := j + 1;
      }
      assert added[..j] == added;
      assert mutations[..i + 1] == mutations[..i] + [added];
      FlattenAppend(mutations[..i], [added]);
      assert Flatten([added]) == added + Flatten([]);
      i := i + 1;
    }
    assert mutations[..i] == mutations;
    assert Flatten(mutations) == handled + [];
    TakeElementsAppend(handled, []);
  }

  /** The batch splits at the node the callback stops on. */
  lemma BatchStopsAt(mutations: seq<seq<Node>>, i: nat, j: nat)
    requires i < |mutations| && j < |mutations[i]| && !IsElement(mutations[i][j])
    requires forall k :: 0 <= k < |Flatten(mutations[..i]) + mutations[i][..j]| ==>
      IsElement((Flatten(mutations[..i]) + mutations[i][..j])[k])
    ensures TakeElements(Flatten(mutations)) == Flatten(mutations[..i]) + mutations[i][..j]
  {
    var before := Flatten(mutations[..i]) + mutations[i][..j];
    assert mutations == mutations[..i] + [mutations[i]] + mutations[i + 1..];
    FlattenAppend(mutations[..i] + [mutations[i]], mutations[i + 1..]);
    FlattenAppend(mutations[..i], [mutations[i]]);
    assert Flatten([mutations[i]]) == mutations[i] + Flatten([]);
    assert mutations[i] == mutations[i][..j] + mutations[i][j..];
    var rest := mutations[i][j..] + Flatten(mutations[i + 1..]);
    assert Flatten(mutations) == before + rest;
    TakeElementsAppend(before, rest);
    assert rest[0] == mutations[i][j];
  }
}
