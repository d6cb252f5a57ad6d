/** The content-side adapters of src/adapters/: each `connect` and
    `signTransaction` posts one request and starts a pending call, and
    `confirmTransaction` resolves at once. */
module Adapters {
  import opened Wrappers
  import opened Messages
  import opened PendingCall

  /** The three adapter classes; `chain` is the Ethereum adapter's constructor
      argument (absent when constructed without one). */
  datatype Adapter = EthereumAdapter(chain: Option<string>) | SolanaActionAdapter | StarknetActionAdapter

  function ChainOf(a: Adapter): Chain
  {
    match a
    case EthereumAdapter(_) => Ethereum
    case SolanaActionAdapter => Solana
    case StarknetActionAdapter => Starknet
  }

  const ConnectTimeoutText := "Wallet connection timed out"
  const SignTimeoutText := "Transaction signing timed out"

  /** `connect()`: posts the chain's connect request (the Ethereum one with the
      constructor's chain) and resolves with the reply's `account`. */
  function ConnectProtocol(a: Adapter): (p: Protocol)
    ensures p.request.tag == RequestTag(Request(Connect, ChainOf(a)))
    ensures p.request.chain == (if a.EthereumAdapter? then a.chain else None) && p.request.transaction.None?
    ensures p.successTag == SuccessTag(Request(Connect, ChainOf(a)))
    ensures p.resultField == AccountField && p.timeoutText == ConnectTimeoutText
    ensures p.deadlineMs == (if a.SolanaActionAdapter? then 30000 else 60000)
  {
    match a
    case EthereumAdapter(chain) =>
      Protocol(Bare("CONNECT_WALLET_ETHEREUM").(chain := chain),
        "WALLET_CONNECTED_ETHEREUM", "WALLET_CONNECTION_ERROR_ETHEREUM", AccountField, 60000, ConnectTimeoutText)
    case SolanaActionAdapter =>
      Protocol(Bare("CONNECT_WALLET_SOLANA"),
        "WALLET_CONNECTED_SOLANA", "WALLET_CONNECTION_ERROR_SOLANA", AccountField, 30000, ConnectTimeoutText)
    case StarknetActionAdapter =>
      Protocol(Bare("CONNECT_WALLET_STARKNET"),
        "WALLET_CONNECTED_STARKNET", "WALLET_CONNECTED_STARKNET_ERROR", AccountField, 60000, ConnectTimeoutText)
  }

  /** `signTransaction(tx)`: posts the chain's sign request carrying `tx` (and,
      for Ethereum only, the constructor's chain) and resolves `{signature}`
      from the reply's `txHash` (Ethereum, Starknet) or `signature` (Solana). */
  function SignProtocol(a: Adapter, tx: string): (p: Protocol)
    ensures p.request.tag == RequestTag(Request(Sign, ChainOf(a)))
    ensures p.request.transaction == Some(tx)
    ensures p.request.chain == (if a.EthereumAdapter? then a.chain else None)
    ensures p.successTag == SuccessTag(Request(Sign, ChainOf(a)))
    ensures p.resultField == (if a.SolanaActionAdapter? then SignatureField else TxHashField)
    ensures p.deadlineMs == 60000 && p.timeoutText == SignTimeoutText
  {
    match a
    case EthereumAdapter(chain) =>
      Protocol(Bare("SIGN_TRANSACTION_ETHEREUM").(transaction := Some(tx), chain := chain),
        "TRANSACTION_SIGNED_ETHEREUM", "TRANSACTION_SIGN_ERROR_ETHEREUM", TxHashField, 60000, SignTimeoutText)
    case SolanaActionAdapter =>
      Protocol(Bare("SIGN_TRANSACTION_SOLANA").(transaction := Some(tx)),
        "TRANSACTION_SIGNED_SOLANA", "TRANSACTION_SIGN_ERROR_SOLANA", SignatureField, 60000, SignTimeoutText)
    case StarknetActionAdapter =>
      Protocol(Bare("SIGN_TRANSACTION_STARKNET").(transaction := Some(tx)),
        "TRANSACTION_SIGNED_STARKNET", "SIGN_TRANSACTION_STARKNET_ERROR", TxHashField, 60000, SignTimeoutText)
  }

  /** The protocol of one operation kind. */
  function OperationProtocol(a: Adapter, k: Kind, tx: string): Protocol
  {
    if k == Connect then ConnectProtocol(a) else SignProtocol(a, tx)
  }

  /** `confirmTransaction(signature)`: already resolved, with nothing to tear down. */
  function ConfirmTransaction(a: Adapter, signature: string): (c: Call)
    ensures c.status.Resolved? && !c.listenerAttached && !c.timerArmed
  {
    Call(Resolved(Nothing), false, false)
  }

  /** `confirmTransaction` registers no listener and arms no timer, so no
      later message or timer event applies to it, whichever tags it is read
      against: it stays resolved, for every adapter and every signature, the
      empty one included. */
  lemma ConfirmTransactionIsInert(a: Adapter, signature: string, p: Protocol, events: seq<Event>)
    ensures Run(p, ConfirmTransaction(a, signature), events) == ConfirmTransaction(a, signature)
  {
    InertCallUnchanged(p, ConfirmTransaction(a, signature), events);
  }

  /** The error tags follow the `ChainErrorTag` naming rule for Ethereum and
      Solana; the Starknet adapter waits for `WALLET_CONNECTED_STARKNET_ERROR` and
      `SIGN_TRANSACTION_STARKNET_ERROR` instead. */
  lemma ErrorTagVocabulary(a: Adapter, tx: string)
    ensures ConnectProtocol(a).errorTag == ChainErrorTag(Request(Connect, ChainOf(a))) <==> !a.StarknetActionAdapter?
    ensures SignProtocol(a, tx).errorTag == ChainErrorTag(Request(Sign, ChainOf(a))) <==> !a.StarknetActionAdapter?
    ensures a.StarknetActionAdapter? ==>
      ConnectProtocol(a).errorTag == "WALLET_CONNECTED_STARKNET_ERROR"
      && SignProtocol(a, tx).errorTag == "SIGN_TRANSACTION_STARKNET_ERROR"
  {
    if a.StarknetActionAdapter? {
      assert ChainErrorTag(Request(Sign, Starknet))[0] != SignProtocol(a, tx).errorTag[0];
    }
  }

  /** A call ignores its own request, which the shared channel also delivers to it. */
  lemma OwnRequestIgnored(a: Adapter, k: Kind, tx: string)
    ensures var p := OperationProtocol(a, k, tx);
      Step(p, Started, Deliver(p.request)) == Started
  {
  }
}
