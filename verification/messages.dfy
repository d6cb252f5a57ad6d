/** The broadcast-message vocabulary shared by the page script and the content script. */
module Messages {
  import opened Wrappers

  /** A `postMessage` payload: its `type` tag and every field some party reads.
      A field that is absent, `undefined` or `null` is `None`. */
  datatype Message = Message(
    tag: string,
    account: Option<string>,
    txHash: Option<string>,
    signature: Option<string>,
    error: Option<string>,
    transaction: Option<string>,
    chain: Option<string>)

  function Bare(tag: string): Message
  {
    Message(tag, None, None, None, None, None, None)
  }

  function WithAccount(tag: string, account: Option<string>): Message
  {
    Bare(tag).(account := account)
  }

  function WithTxHash(tag: string, txHash: string): Message
  {
    Bare(tag).(txHash := Some(txHash))
  }

  function WithSignature(tag: string, signature: string): Message
  {
    Bare(tag).(signature := Some(signature))
  }

  function WithError(tag: string, error: Option<string>): Message
  {
    Bare(tag).(error := error)
  }

  /** JavaScript truthiness of a string-valued slot: present and non-empty. */
  predicate Truthy(s: Option<string>)
  {
    s.Some? && s.value != ""
  }

  const PageScriptLoaded := "PAGE_SCRIPT_LOADED"
  const EthereumReady := "ETHEREUM_READY"

  /** The three wallet ecosystems. */
  datatype Chain = Ethereum | Solana | Starknet

  datatype Kind = Connect | Sign

  /** A wallet request the content side can send to the page side. */
  datatype Request = Request(kind: Kind, chain: Chain)

  /** The `type` tag of a request broadcast. */
  function RequestTag(r: Request): string
  {
    match r
    case Request(Connect, Ethereum) => "CONNECT_WALLET_ETHEREUM"
    case Request(Connect, Solana) => "CONNECT_WALLET_SOLANA"
    case Request(Connect, Starknet) => "CONNECT_WALLET_STARKNET"
    case Request(Sign, Ethereum) => "SIGN_TRANSACTION_ETHEREUM"
    case Request(Sign, Solana) => "SIGN_TRANSACTION_SOLANA"
    case Request(Sign, Starknet) => "SIGN_TRANSACTION_STARKNET"
  }

  /** Recognises a request tag; every other tag is `None`. */
  function ParseRequest(tag: string): (r: Option<Request>)
    ensures r.Some? ==> RequestTag(r.value) == tag
  {
    if tag == "CONNECT_WALLET_ETHEREUM" then Some(Request(Connect, Ethereum))
    else if tag == "CONNECT_WALLET_SOLANA" then Some(Request(Connect, Solana))
    else if tag == "CONNECT_WALLET_STARKNET" then Some(Request(Connect, Starknet))
    else if tag == "SIGN_TRANSACTION_ETHEREUM" then Some(Request(Sign, Ethereum))
    else if tag == "SIGN_TRANSACTION_SOLANA" then Some(Request(Sign, Solana))
    else if tag == "SIGN_TRANSACTION_STARKNET" then Some(Request(Sign, Starknet))
    else None
  }

  /** Recognising a tag and printing a request are inverse: a tag is
      recognised as `r` exactly when it is `r`'s tag. */
  lemma RequestTagRoundTrip(r: Request, tag: string)
    ensures ParseRequest(tag) == Some(r) <==> RequestTag(r) == tag
  {
  }

  /** The chain suffix every adapter tag ends with. */
  function ChainName(c: Chain): string
  {
    match c
    case Ethereum => "ETHEREUM"
    case Solana => "SOLANA"
    case Starknet => "STARKNET"
  }

  /** The naming rule of the tags an adapter's listener accepts on success:
      `WALLET_CONNECTED_<CHAIN>` for connect, `TRANSACTION_SIGNED_<CHAIN>` for
      sign (src/adapters/Ethereum.ts:18,53, src/adapters/Solana.ts:12,33). */
  function SuccessTag(r: Request): string
  {
    (if r.kind == Connect then "WALLET_CONNECTED_" else "TRANSACTION_SIGNED_") + ChainName(r.chain)
  }

  /** The naming rule of the Ethereum and Solana adapters' error tags:
      `WALLET_CONNECTION_ERROR_<CHAIN>` for connect, `TRANSACTION_SIGN_ERROR_<CHAIN>`
      for sign (src/adapters/Ethereum.ts:22,57, src/adapters/Solana.ts:16,37). */
  function ChainErrorTag(r: Request): string
  {
    (if r.kind == Connect then "WALLET_CONNECTION_ERROR_" else "TRANSACTION_SIGN_ERROR_") + ChainName(r.chain)
  }

  /** How many messages of a sequence carry `tag`. */
  function Occurrences(ms: seq<Message>, tag: string): nat
  {
    if ms == [] then 0
    else (if ms[0].tag == tag then 1 else 0) + Occurrences(ms[1..], tag)
  }

  /** The broadcasts either page script makes once, when it is loaded: the
      readiness announcement first, then the provider announcement. */
  function StartupBroadcasts(): (ms: seq<Message>)
    ensures Occurrences(ms, PageScriptLoaded) == 1 && Occurrences(ms, EthereumReady) == 1
    ensures |ms| == 2 && ms[0].tag == PageScriptLoaded
  {
    var ms := [Bare(PageScriptLoaded), Bare(EthereumReady)];
    assert ms[1..] == [Bare(EthereumReady)] && ms[1..][1..] == [];
    assert |PageScriptLoaded| != |EthereumReady|;
    assert Occurrences(ms[1..], PageScriptLoaded) == 0 && Occurrences(ms[1..], EthereumReady) == 1;
    ms
  }
}
