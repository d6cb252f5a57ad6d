/** The legacy page-context relay of src/pageScript.js: an if/else chain over
    four request tags, one address slot shared by both chains, connect helpers
    that swallow provider failures, and fixed reply tags. */
module LegacyRelay {
  import opened Wrappers
  import opened Messages
  import opened Drivers

  /** The single `connectedAddress` slot; `None` is the `null` a swallowed
      connect failure leaves behind. */
  datatype LegacyState = LegacyState(connectedAddress: Option<string>)

  const Initial := LegacyState(Some(""))

  /** How an async helper settles: a value, a rejection with an Error object
      (which has a `message`), or a rejection with a bare string (which has none). */
  datatype Settled<T> = Fulfilled(value: T) | ThrewError(message: string) | RejectedText(text: string)

  /** `error.message` as the listener's catch blocks read it from a rejection. */
  function CaughtMessage<T>(r: Settled<T>): Option<string>
  {
    match r
    case Fulfilled(_) => None
    case ThrewError(msg) => Some(msg)
    case RejectedText(_) => None
  }

  datatype Run<T> = Run(state: LegacyState, result: Settled<T>, calls: seq<ProviderCall>)

  /** `connectWalletEthereum`: rejects with a bare string when there is no
      provider; otherwise stores and returns the first account, or returns
      `null` when the provider call fails. */
  function ConnectEthereum(s: LegacyState, env: Env): (r: Run<Option<string>>)
    ensures r.result.Fulfilled? && r.result.value.Some? ==> r.state == LegacyState(r.result.value)
    ensures !(r.result.Fulfilled? && r.result.value.Some?) ==> r.state == s
  {
    if !env.ethereumPresent then Run(s, RejectedText("No Ethereum provider found"), [])
    else
      match env.requestAccounts
      case Ok(a) => Run(LegacyState(Some(a)), Fulfilled(Some(a)), [EthRequestAccounts])
      case Err(_) => Run(s, Fulfilled(None), [EthRequestAccounts])
  }

  /** `connectWalletSolana`, the same shape over the Solana provider. */
  function ConnectSolana(s: LegacyState, env: Env): (r: Run<Option<string>>)
    ensures r.result.Fulfilled? && r.result.value.Some? ==> r.state == LegacyState(r.result.value)
    ensures !(r.result.Fulfilled? && r.result.value.Some?) ==> r.state == s
  {
    if !env.solanaPresent then Run(s, RejectedText("No Solana provider found"), [])
    else
      match env.solanaConnect
      case Ok(a) => Run(LegacyState(Some(a)), Fulfilled(Some(a)), [SolConnect])
      case Err(_) => Run(s, Fulfilled(None), [SolConnect])
  }

  /** Ensures the slot is truthy by connecting when it is not; the helper's
      return value, `null` included, is stored in the slot. */
  function EnsureConnected(s: LegacyState, env: Env, c: Chain): (r: Run<()>)
    requires c != Starknet
  {
    if Truthy(s.connectedAddress) then Run(s, Fulfilled(()), [])
    else
      var conn := if c == Ethereum then ConnectEthereum(s, env) else ConnectSolana(s, env);
      match conn.result
      case Fulfilled(v) => Run(LegacyState(v), Fulfilled(()), conn.calls)
      case ThrewError(e) => Run(conn.state, ThrewError(e), conn.calls)
      case RejectedText(t) => Run(conn.state, RejectedText(t), conn.calls)
  }

  /** The Ethereum sign branch: decodes the transaction and sends only its
      `to` and `value`, from the shared slot. */
  function SignEthereum(s: LegacyState, env: Env): (r: Run<string>)
  {
    var e := EnsureConnected(s, env, Ethereum);
    match e.result
    case ThrewError(msg) => Run(e.state, ThrewError(msg), e.calls)
    case RejectedText(t) => Run(e.state, RejectedText(t), e.calls)
    case Fulfilled(_) =>
      match env.parseEthTx
      case Err(msg) => Run(e.state, ThrewError(msg), e.calls)
      case Ok(tx) =>
        if !env.ethereumPresent then Run(e.state, ThrewError(env.typeError("request")), e.calls)
        else
          var params := SendParams(e.state.connectedAddress, tx.to, tx.value, None);
          var calls := e.calls + [EthSendTransaction(params)];
          match env.sendTransaction
          case Ok(h) => Run(e.state, Fulfilled(h), calls)
          case Err(msg) => Run(e.state, ThrewError(msg), calls)
  }

  /** The Solana sign branch: decodes the transaction and has the provider sign it. */
  function SignSolana(s: LegacyState, transaction: Option<string>, env: Env): (r: Run<string>)
  {
    var e := EnsureConnected(s, env, Solana);
    match e.result
    case ThrewError(msg) => Run(e.state, ThrewError(msg), e.calls)
    case RejectedText(t) => Run(e.state, RejectedText(t), e.calls)
    case Fulfilled(_) =>
      match env.decodeSolanaTx
      case Err(msg) => Run(e.state, ThrewError(msg), e.calls)
      case Ok(_) =>
        if !env.solanaPresent then Run(e.state, ThrewError(env.typeError("signTransaction")), e.calls)
        else
          var calls := e.calls + [SolSignTransaction(transaction)];
          match env.signSolanaTx
          case Ok(sig) => Run(e.state, Fulfilled(sig), calls)
          case Err(msg) => Run(e.state, ThrewError(msg), calls)
  }

  /** The four tags the listener answers. */
  const HandledTags: set<string> := {
    "CONNECT_WALLET_ETHEREUM", "SIGN_TRANSACTION_ETHEREUM", "CONNECT_WALLET_SOLANA", "SIGN_TRANSACTION_SOLANA"
  }

  /** Every tag this relay can broadcast in reply to a message. */
  const ReplyTags: set<string> := {
    "WALLET_CONNECTED_ETHEREUM", "WALLET_CONNECTION_ERROR_ETHEREUM",
    "TRANSACTION_SIGNED", "TRANSACTION_SIGN_ERROR",
    "WALLET_CONNECTED_SOLANA", "WALLET_CONNECTION_ERROR_SOLANA",
    "TRANSACTION_SIGNED_SOLANA", "TRANSACTION_SIGN_ERROR_SOLANA"
  }

  datatype StepResult = StepResult(state: LegacyState, out: Option<Message>, calls: seq<ProviderCall>)

  /** Turns a connect helper's settlement into the reply broadcast. */
  function ConnectReply(r: Run<Option<string>>, success: string, failure: string): StepResult
  {
    match r.result
    case Fulfilled(account) => StepResult(r.state, Some(WithAccount(success, account)), r.calls)
    case _ => StepResult(r.state, Some(WithError(failure, CaughtMessage(r.result))), r.calls)
  }

  /** Turns a sign branch's settlement into the reply broadcast. */
  function SignReply(r: Run<string>, chain: Chain, success: string, failure: string): StepResult
  {
    match r.result
    case Fulfilled(v) =>
      StepResult(r.state, Some(if chain == Ethereum then WithTxHash(success, v) else WithSignature(success, v)), r.calls)
    case _ => StepResult(r.state, Some(WithError(failure, CaughtMessage(r.result))), r.calls)
  }

  /** The `message` listener: four tags each get exactly one reply with a fixed
      success or error tag; every other tag, the Starknet requests included,
      gets nothing and changes nothing. */
  function Step(s: LegacyState, m: Message, env: Env): (r: StepResult)
    ensures r.out.Some? <==> m.tag in HandledTags
    ensures r.out.None? ==> r.state == s && r.calls == []
    ensures r.out.Some? ==> r.out.value.tag in ReplyTags
  {
    if m.tag == "CONNECT_WALLET_ETHEREUM" then
      ConnectReply(ConnectEthereum(s, env), "WALLET_CONNECTED_ETHEREUM", "WALLET_CONNECTION_ERROR_ETHEREUM")
    else if m.tag == "SIGN_TRANSACTION_ETHEREUM" then
      SignReply(SignEthereum(s, env), Ethereum, "TRANSACTION_SIGNED", "TRANSACTION_SIGN_ERROR")
    else if m.tag == "CONNECT_WALLET_SOLANA" then
      ConnectReply(ConnectSolana(s, env), "WALLET_CONNECTED_SOLANA", "WALLET_CONNECTION_ERROR_SOLANA")
    else if m.tag == "SIGN_TRANSACTION_SOLANA" then
      SignReply(SignSolana(s, m.transaction, env), Solana, "TRANSACTION_SIGNED_SOLANA", "TRANSACTION_SIGN_ERROR_SOLANA")
    else StepResult(s, None, [])
  }

  // ----- properties -----

  function ConnectedTag(c: Chain): string
  {
    if c == Ethereum then "WALLET_CONNECTED_ETHEREUM" else "WALLET_CONNECTED_SOLANA"
  }

  function ConnectionErrorTag(c: Chain): string
  {
    if c == Ethereum then "WALLET_CONNECTION_ERROR_ETHEREUM" else "WALLET_CONNECTION_ERROR_SOLANA"
  }

  /** A connect whose provider answers stores the account in the shared slot
      and replies `WALLET_CONNECTED_<chain>` with it. */
  lemma ConnectSetsSharedAddress(s: LegacyState, m: Message, env: Env, c: Chain, a: string)
    requires ParseRequest(m.tag) == Some(Request(Connect, c)) && c != Starknet
    requires c == Ethereum ==> env.ethereumPresent && env.requestAccounts == Ok(a)
    requires c == Solana ==> env.solanaPresent && env.solanaConnect == Ok(a)
    ensures Step(s, m, env).state == LegacyState(Some(a))
    ensures Step(s, m, env).out == Some(WithAccount(ConnectedTag(c), Some(a)))
  {
    assert RequestTag(Request(Connect, c)) == m.tag;
  }

  /** A provider failure inside connect is swallowed: the reply is the success
      tag with a `null` account, and the slot keeps its value. */
  lemma ConnectSwallowsProviderFailure(s: LegacyState, m: Message, env: Env, c: Chain)
    requires ParseRequest(m.tag) == Some(Request(Connect, c)) && c != Starknet
    requires c == Ethereum ==> env.ethereumPresent && env.requestAccounts.Err?
    requires c == Solana ==> env.solanaPresent && env.solanaConnect.Err?
    ensures Step(s, m, env).state == s
    ensures Step(s, m, env).out == Some(WithAccount(ConnectedTag(c), None))
  {
    assert RequestTag(Request(Connect, c)) == m.tag;
  }

  /** A missing provider rejects with a bare string, whose `message` is
      undefined: the error reply carries no text. */
  lemma MissingProviderLosesErrorText(s: LegacyState, m: Message, env: Env, c: Chain)
    requires ParseRequest(m.tag) == Some(Request(Connect, c)) && c != Starknet
    requires c == Ethereum ==> !env.ethereumPresent
    requires c == Solana ==> !env.solanaPresent
    ensures Step(s, m, env) == StepResult(s, Some(WithError(ConnectionErrorTag(c), None)), [])
  {
    assert RequestTag(Request(Connect, c)) == m.tag;
  }

  /** The sign replies use fixed tags: unsuffixed `TRANSACTION_SIGNED` /
      `TRANSACTION_SIGN_ERROR` for Ethereum, `_SOLANA` ones for Solana. */
  lemma SignReplyTags(s: LegacyState, m: Message, env: Env)
    requires m.tag == "SIGN_TRANSACTION_ETHEREUM" || m.tag == "SIGN_TRANSACTION_SOLANA"
    ensures var out := Step(s, m, env).out.value;
      && (m.tag == "SIGN_TRANSACTION_ETHEREUM" ==>
            (out.tag == "TRANSACTION_SIGNED" && out.txHash.Some?) || out.tag == "TRANSACTION_SIGN_ERROR")
      && (m.tag == "SIGN_TRANSACTION_SOLANA" ==>
            (out.tag == "TRANSACTION_SIGNED_SOLANA" && out.signature.Some?) || out.tag == "TRANSACTION_SIGN_ERROR_SOLANA")
  {
  }

  /** With the slot truthy, an Ethereum sign makes no connect and sends only
      `to`, `value` and `from` (the slot), dropping every other decoded field. */
  lemma EthereumSignForwardsToValueFrom(s: LegacyState, m: Message, env: Env)
    requires m.tag == "SIGN_TRANSACTION_ETHEREUM"
    requires Truthy(s.connectedAddress) && env.parseEthTx.Ok? && env.ethereumPresent
    ensures var tx := env.parseEthTx.value;
      var r := Step(s, m, env);
      && r.state == s
      && r.calls == [EthSendTransaction(SendParams(s.connectedAddress, tx.to, tx.value, None))]
      && (env.sendTransaction.Ok? ==> r.out == Some(WithTxHash("TRANSACTION_SIGNED", env.sendTransaction.value)))
      && (env.sendTransaction.Err? ==> r.out == Some(WithError("TRANSACTION_SIGN_ERROR", Some(env.sendTransaction.message))))
  {
  }

  /** A swallowed failure in the implicit connect leaves `null` in the slot and
      the transaction is still sent, with `from: null`. */
  lemma FailedImplicitConnectSendsFromNull(s: LegacyState, m: Message, env: Env)
    requires m.tag == "SIGN_TRANSACTION_ETHEREUM"
    requires !Truthy(s.connectedAddress) && env.ethereumPresent && env.requestAccounts.Err? && env.parseEthTx.Ok?
    ensures var tx := env.parseEthTx.value;
      var r := Step(s, m, env);
      && r.state == LegacyState(None)
      && r.calls == [EthRequestAccounts, EthSendTransaction(SendParams(None, tx.to, tx.value, None))]
  {
  }

  /** With the slot falsy, an Ethereum sign connects, stores the account it
      gets, and sends only `to` and `value` from that account. */
  lemma EmptySlotEthereumSignConnectsFirst(s: LegacyState, m: Message, env: Env, a: string)
    requires m.tag == "SIGN_TRANSACTION_ETHEREUM"
    requires !Truthy(s.connectedAddress) && env.ethereumPresent && env.requestAccounts == Ok(a) && env.parseEthTx.Ok?
    ensures var tx := env.parseEthTx.value;
      var r := Step(s, m, env);
      && r.state == LegacyState(Some(a))
      && r.calls == [EthRequestAccounts, EthSendTransaction(SendParams(Some(a), tx.to, tx.value, None))]
      && (env.sendTransaction.Ok? ==> r.out == Some(WithTxHash("TRANSACTION_SIGNED", env.sendTransaction.value)))
  {
  }

  /** The slot is shared: after a successful Solana connect, an Ethereum sign
      skips its own connect and sends from the Solana public key. */
  lemma SolanaConnectServesEthereumSign(s: LegacyState, connect: Message, sign: Message, env1: Env, env2: Env, key: string)
    requires connect.tag == "CONNECT_WALLET_SOLANA" && sign.tag == "SIGN_TRANSACTION_ETHEREUM"
    requires env1.solanaPresent && env1.solanaConnect == Ok(key) && key != ""
    requires env2.ethereumPresent && env2.parseEthTx.Ok?
    ensures var s1 := Step(s, connect, env1).state;
      var r := Step(s1, sign, env2);
      var tx := env2.parseEthTx.value;
      EthRequestAccounts !in r.calls
      && r.calls == [EthSendTransaction(SendParams(Some(key), tx.to, tx.value, None))]
  {
  }

  /** The same sharing the other way round: an Ethereum connect serves a Solana sign. */
  lemma EthereumConnectServesSolanaSign(s: LegacyState, connect: Message, sign: Message, env1: Env, env2: Env, account: string)
    requires connect.tag == "CONNECT_WALLET_ETHEREUM" && sign.tag == "SIGN_TRANSACTION_SOLANA"
    requires env1.ethereumPresent && env1.requestAccounts == Ok(account) && account != ""
    requires env2.solanaPresent && env2.decodeSolanaTx.Ok?
    ensures var s1 := Step(s, connect, env1).state;
      var r := Step(s1, sign, env2);
      SolConnect !in r.calls && r.calls == [SolSignTransaction(sign.transaction)]
  {
  }
}
