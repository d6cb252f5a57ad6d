/** The page-context relay of src/pageScript.ts: a table of six handlers keyed
    by request tag, two cached slots, and a listener that turns every handler
    outcome into exactly one reply broadcast. */
module PageRelay {
  import opened Wrappers
  import opened Messages
  import opened Drivers

  /** The `starknetAccount` slot. It holds `null`, the wallet object stored by
      the Starknet driver's connect, or, after an implicit connect in the sign
      handler, the address string that connect returned. */
  datatype StarknetSlot = NoAccount | WalletObject(wallet: StarknetWallet) | AddressText(address: string)

  predicate SlotTruthy(slot: StarknetSlot)
  {
    match slot
    case NoAccount => false
    case WalletObject(_) => true
    case AddressText(a) => a != ""
  }

  /** The page script's module-level state. */
  datatype RelayState = RelayState(connectedAddress: string, starknetAccount: StarknetSlot)

  const Initial := RelayState("", NoAccount)

  /** A handler (or driver) run: the state it leaves, how it settled, and the
      provider calls it made. */
  datatype Run = Run(state: RelayState, result: Outcome<string>, calls: seq<ProviderCall>)

  /** A run that follows provider calls already made. */
  function After(earlier: seq<ProviderCall>, r: Run): Run
  {
    r.(calls := earlier + r.calls)
  }

  const NoEthereumProvider := "No Ethereum provider found"
  const NoSolanaProvider := "No Solana provider found"
  const NoStarknetProvider := "No Starknet provider found"

  /** The message a missing provider object makes connect throw. */
  function NoProviderText(c: Chain): string
  {
    match c
    case Ethereum => NoEthereumProvider
    case Solana => NoSolanaProvider
    case Starknet => NoStarknetProvider
  }

  function ProviderPresent(env: Env, c: Chain): bool
  {
    match c
    case Ethereum => env.ethereumPresent
    case Solana => env.solanaPresent
    case Starknet => env.starknetPresent
  }

  // ----- walletHandlers -----

  function EthereumConnect(s: RelayState, env: Env): (r: Run)
    ensures r.state == s
  {
    if !env.ethereumPresent then Run(s, Err(NoEthereumProvider), [])
    else Run(s, env.requestAccounts, [EthRequestAccounts])
  }

  /** Decodes the transaction and sends it with `from` set to the cached address
      and `to`, `value`, `data` taken from the decoded transaction. */
  function EthereumSign(s: RelayState, env: Env): (r: Run)
    ensures r.state == s
    ensures EthRequestAccounts !in r.calls && SolConnect !in r.calls
  {
    match env.parseEthTx
    case Err(e) => Run(s, Err(e), [])
    case Ok(tx) =>
      if !env.ethereumPresent then Run(s, Err(env.typeError("request")), [])
      else
        var params := SendParams(Some(s.connectedAddress), tx.to, tx.value, tx.data);
        Run(s, env.sendTransaction, [EthSendTransaction(params)])
  }

  function SolanaConnect(s: RelayState, env: Env): (r: Run)
    ensures r.state == s
  {
    if !env.solanaPresent then Run(s, Err(NoSolanaProvider), [])
    else Run(s, env.solanaConnect, [SolConnect])
  }

  function SolanaSign(s: RelayState, transaction: Option<string>, env: Env): (r: Run)
    ensures r.state == s
    ensures EthRequestAccounts !in r.calls && SolConnect !in r.calls
  {
    match env.decodeSolanaTx
    case Err(e) => Run(s, Err(e), [])
    case Ok(_) =>
      if !env.solanaPresent then Run(s, Err(env.typeError("signTransaction")), [])
      else Run(s, env.signSolanaTx, [SolSignTransaction(transaction)])
  }

  /** The address a connected Starknet wallet reports: `selectedAddress` when
      truthy, the account's address otherwise. */
  function StarknetAddress(w: StarknetWallet): string
  {
    if w.selectedAddress != "" then w.selectedAddress else w.accountAddress
  }

  /** Stores get-starknet's result in the slot, then fires an argument-less
      `execute()` on its account before the null check; a `null` result
      therefore fails on that dereference, never on the null check. */
  function StarknetConnect(s: RelayState, env: Env): (r: Run)
    ensures r.state.connectedAddress == s.connectedAddress
  {
    if !env.starknetPresent then Run(s, Err(NoStarknetProvider), [])
    else
      match env.starknetConnect
      case Err(e) => Run(s, Err(e), [StarkConnect])
      case Ok(None) =>
        Run(s.(starknetAccount := NoAccount), Err(env.typeError("account")), [StarkConnect])
      case Ok(Some(w)) =>
        Run(s.(starknetAccount := WalletObject(w)), Ok(StarknetAddress(w)), [StarkConnect, StarkExecute(None)])
  }

  /** Decodes the call data and executes it through `starknetAccount.account`;
      a slot that holds anything but a wallet object has no `account`. */
  function StarknetSign(s: RelayState, transaction: Option<string>, env: Env): (r: Run)
    ensures r.state == s
  {
    match env.parseStarknetTx
    case Err(e) => Run(s, Err(e), [])
    case Ok(_) =>
      match s.starknetAccount
      case WalletObject(_) => Run(s, env.starknetExecute, [StarkExecute(transaction)])
      case AddressText(_) => Run(s, Err(env.typeError("execute")), [])
      case NoAccount => Run(s, Err(env.typeError("account")), [])
  }

  // ----- messageHandlers -----

  /** The handler for one request; a sign request first connects when its
      cache slot is falsy. */
  function Handle(s: RelayState, req: Request, transaction: Option<string>, env: Env): (r: Run)
  {
    match req
    case Request(Connect, Ethereum) => EthereumConnect(s, env)
    case Request(Connect, Solana) => SolanaConnect(s, env)
    case Request(Connect, Starknet) => StarknetConnect(s, env)
    case Request(Sign, Ethereum) =>
      if s.connectedAddress != "" then EthereumSign(s, env)
      else
        var c := EthereumConnect(s, env);
        (match c.result
         case Err(_) => c
         case Ok(a) => After(c.calls, EthereumSign(c.state.(connectedAddress := a), env)))
    case Request(Sign, Solana) =>
      if s.connectedAddress != "" then SolanaSign(s, transaction, env)
      else
        var c := SolanaConnect(s, env);
        (match c.result
         case Err(_) => c
         case Ok(a) => After(c.calls, SolanaSign(c.state.(connectedAddress := a), transaction, env)))
    case Request(Sign, Starknet) =>
      if SlotTruthy(s.starknetAccount) then StarknetSign(s, transaction, env)
      else
        var c := StarknetConnect(s, env);
        match c.result
        case Err(_) => c
        case Ok(a) => After(c.calls, StarknetSign(c.state.(starknetAccount := AddressText(a)), transaction, env))
  }

  /** The reply a handler returns when it succeeds with value `v`. */
  function SuccessReply(req: Request, v: string): Message
  {
    match req
    case Request(Connect, Ethereum) => WithAccount("WALLET_CONNECTED_ETHEREUM", Some(v))
    case Request(Connect, Solana) => WithAccount("WALLET_CONNECTED_SOLANA", Some(v))
    case Request(Connect, Starknet) => WithAccount("WALLET_CONNECTED_STARKNET", Some(v))
    case Request(Sign, Ethereum) => WithTxHash("TRANSACTION_SIGNED", v)
    case Request(Sign, Solana) => WithSignature("TRANSACTION_SIGNED_SOLANA", v)
    case Request(Sign, Starknet) => WithTxHash("TRANSACTION_SIGNED_STARKNET", v)
  }

  /** Every tag this relay can broadcast in reply to a message. */
  const ReplyTags: set<string> := {
    "WALLET_CONNECTED_ETHEREUM", "WALLET_CONNECTED_SOLANA", "WALLET_CONNECTED_STARKNET",
    "TRANSACTION_SIGNED", "TRANSACTION_SIGNED_SOLANA", "TRANSACTION_SIGNED_STARKNET",
    "CONNECT_WALLET_ETHEREUM_ERROR", "CONNECT_WALLET_SOLANA_ERROR", "CONNECT_WALLET_STARKNET_ERROR",
    "SIGN_TRANSACTION_ETHEREUM_ERROR", "SIGN_TRANSACTION_SOLANA_ERROR", "SIGN_TRANSACTION_STARKNET_ERROR"
  }

  /** The tag a failing handler's reply carries. */
  lemma ErrorTagIsReplyTag(req: Request)
    ensures RequestTag(req) + "_ERROR" in ReplyTags
  {
    match req
    case Request(Connect, Ethereum) => assert RequestTag(req) + "_ERROR" == "CONNECT_WALLET_ETHEREUM_ERROR";
    case Request(Connect, Solana) => assert RequestTag(req) + "_ERROR" == "CONNECT_WALLET_SOLANA_ERROR";
    case Request(Connect, Starknet) => assert RequestTag(req) + "_ERROR" == "CONNECT_WALLET_STARKNET_ERROR";
    case Request(Sign, Ethereum) => assert RequestTag(req) + "_ERROR" == "SIGN_TRANSACTION_ETHEREUM_ERROR";
    case Request(Sign, Solana) => assert RequestTag(req) + "_ERROR" == "SIGN_TRANSACTION_SOLANA_ERROR";
    case Request(Sign, Starknet) => assert RequestTag(req) + "_ERROR" == "SIGN_TRANSACTION_STARKNET_ERROR";
  }

  datatype StepResult = StepResult(state: RelayState, out: Option<Message>, calls: seq<ProviderCall>)

  /** The `message` listener: a tag among the six handler keys gets exactly one
      reply, the handler's own on success and `<tag>_ERROR` with the error text
      on failure; any other tag is ignored. */
  function Step(s: RelayState, m: Message, env: Env): (r: StepResult)
    ensures r.out.Some? <==> ParseRequest(m.tag).Some?
    ensures r.out.None? ==> r.state == s && r.calls == []
    ensures r.out.Some? ==> r.out.value.tag in ReplyTags
    ensures r.out.Some? ==> r.out.value.tag == m.tag + "_ERROR" || r.out.value.tag == SuccessReply(ParseRequest(m.tag).value, "").tag
    ensures r.state.connectedAddress != s.connectedAddress ==>
              s.connectedAddress == "" && m.tag in {"SIGN_TRANSACTION_ETHEREUM", "SIGN_TRANSACTION_SOLANA"}
  {
    match ParseRequest(m.tag)
    case None => StepResult(s, None, [])
    case Some(req) =>
      ErrorTagIsReplyTag(req);
      var run := Handle(s, req, m.transaction, env);
      var reply := match run.result
        case Ok(v) => SuccessReply(req, v)
        case Err(e) => WithError(m.tag + "_ERROR", Some(e));
      StepResult(run.state, Some(reply), run.calls)
  }

  /** One inbound message together with the environment it meets. */
  datatype Input = Input(message: Message, env: Env)

  /** The state after the listener has handled a sequence of messages in order. */
  function Replay(s: RelayState, inputs: seq<Input>): RelayState
    decreases |inputs|
  {
    if inputs == [] then s
    else Replay(Step(s, inputs[0].message, inputs[0].env).state, inputs[1..])
  }

  // ----- properties -----

  /** A successful connect replies `WALLET_CONNECTED_<chain>` carrying exactly
      the account the driver produced; the address cache is not touched. */
  lemma ConnectRepliesDriverAccount(s: RelayState, m: Message, env: Env, c: Chain)
    requires ParseRequest(m.tag) == Some(Request(Connect, c))
    ensures var r := Step(s, m, env);
      && r.state.connectedAddress == s.connectedAddress
      && (c == Ethereum && env.ethereumPresent && env.requestAccounts.Ok? ==>
            r.out == Some(WithAccount("WALLET_CONNECTED_ETHEREUM", Some(env.requestAccounts.value)))
            && r.calls == [EthRequestAccounts])
      && (c == Solana && env.solanaPresent && env.solanaConnect.Ok? ==>
            r.out == Some(WithAccount("WALLET_CONNECTED_SOLANA", Some(env.solanaConnect.value)))
            && r.calls == [SolConnect])
      && (c == Starknet && env.starknetPresent && env.starknetConnect.Ok? && env.starknetConnect.value.Some? ==>
            var w := env.starknetConnect.value.value;
            r.out == Some(WithAccount("WALLET_CONNECTED_STARKNET", Some(StarknetAddress(w))))
            && r.state.starknetAccount == WalletObject(w)
            && r.calls == [StarkConnect, StarkExecute(None)])
  {
    assert RequestTag(Request(Connect, c)) == m.tag;
  }

  /** A missing provider object fails connect with the fixed "No ... provider
      found" text, before any provider call and without a state change. */
  lemma MissingProviderFailsConnect(s: RelayState, m: Message, env: Env, c: Chain)
    requires ParseRequest(m.tag) == Some(Request(Connect, c))
    requires !ProviderPresent(env, c)
    ensures Step(s, m, env) == StepResult(s, Some(WithError(m.tag + "_ERROR", Some(NoProviderText(c)))), [])
  {
  }

  /** Whatever a handler throws is broadcast as `<request tag>_ERROR` with the
      thrown message verbatim; a handler that succeeds never uses that tag. */
  lemma FailureRepliesWithErrorTag(s: RelayState, m: Message, env: Env)
    requires ParseRequest(m.tag).Some?
    ensures var run := Handle(s, ParseRequest(m.tag).value, m.transaction, env);
      var out := Step(s, m, env).out.value;
      && (run.result.Err? <==> out.tag == m.tag + "_ERROR")
      && (run.result.Err? ==> out == WithError(m.tag + "_ERROR", Some(run.result.message)))
  {
    var req := ParseRequest(m.tag).value;
    SuccessTagsDiffer(req);
  }

  /** No success tag ends in the error marker of its own request. */
  lemma SuccessTagsDiffer(req: Request)
    ensures forall v :: SuccessReply(req, v).tag != RequestTag(req) + "_ERROR"
  {
    ErrorTagIsReplyTag(req);
    var e := RequestTag(req) + "_ERROR";
    assert |SuccessReply(req, "").tag| != |e|;
  }

  /** Sign success replies: Ethereum's is the unsuffixed `TRANSACTION_SIGNED`
      with a `txHash`, Solana's carries a `signature`, Starknet's a `txHash`. */
  lemma SignReplyShapes(s: RelayState, m: Message, env: Env, c: Chain)
    requires ParseRequest(m.tag) == Some(Request(Sign, c))
    ensures var out := Step(s, m, env).out.value;
      || out.tag == m.tag + "_ERROR"
      || (c == Ethereum && out.tag == "TRANSACTION_SIGNED" && out.txHash.Some? && out.signature.None?)
      || (c == Solana && out.tag == "TRANSACTION_SIGNED_SOLANA" && out.signature.Some? && out.txHash.None?)
      || (c == Starknet && out.tag == "TRANSACTION_SIGNED_STARKNET" && out.txHash.Some? && out.signature.None?)
  {
  }

  /** With an address cached, an Ethereum sign makes no connect, keeps the state,
      and sends the decoded `to`, `value`, `data` from the cached address; the
      provider's hash comes back under `TRANSACTION_SIGNED`. */
  lemma CachedEthereumSign(s: RelayState, m: Message, env: Env)
    requires m.tag == "SIGN_TRANSACTION_ETHEREUM"
    requires s.connectedAddress != "" && env.ethereumPresent && env.parseEthTx.Ok?
    ensures var tx := env.parseEthTx.value;
      var r := Step(s, m, env);
      && r.state == s
      && r.calls == [EthSendTransaction(SendParams(Some(s.connectedAddress), tx.to, tx.value, tx.data))]
      && (env.sendTransaction.Ok? ==> r.out == Some(WithTxHash("TRANSACTION_SIGNED", env.sendTransaction.value)))
      && (env.sendTransaction.Err? ==>
            r.out == Some(WithError("SIGN_TRANSACTION_ETHEREUM_ERROR", Some(env.sendTransaction.message))))
  {
    assert m.tag + "_ERROR" == "SIGN_TRANSACTION_ETHEREUM_ERROR";
  }

  /** With an address cached, neither Ethereum nor Solana sign connects. */
  lemma CachedAddressSkipsConnect(s: RelayState, m: Message, env: Env)
    requires m.tag == "SIGN_TRANSACTION_ETHEREUM" || m.tag == "SIGN_TRANSACTION_SOLANA"
    requires s.connectedAddress != ""
    ensures var r := Step(s, m, env);
      r.state == s && EthRequestAccounts !in r.calls && SolConnect !in r.calls
  {
  }

  /** With the cache empty, a sign connects first and stores what connect
      returned, then signs with it; Solana's connect serves Solana's sign. */
  lemma EmptyCacheSignConnectsFirst(s: RelayState, m: Message, env: Env)
    requires m.tag == "SIGN_TRANSACTION_SOLANA"
    requires s.connectedAddress == "" && env.solanaPresent && env.solanaConnect.Ok?
    requires env.decodeSolanaTx.Ok? && env.signSolanaTx.Ok?
    ensures Step(s, m, env) == StepResult(
      s.(connectedAddress := env.solanaConnect.value),
      Some(WithSignature("TRANSACTION_SIGNED_SOLANA", env.signSolanaTx.value)),
      [SolConnect, SolSignTransaction(m.transaction)])
  {
  }

  /** With the cache empty, an Ethereum sign requests accounts, stores the
      account it gets, and sends the decoded transaction from that account. */
  lemma EmptyCacheEthereumSignConnectsFirst(s: RelayState, m: Message, env: Env, a: string)
    requires m.tag == "SIGN_TRANSACTION_ETHEREUM"
    requires s.connectedAddress == "" && env.ethereumPresent && env.requestAccounts == Ok(a) && env.parseEthTx.Ok?
    ensures var tx := env.parseEthTx.value;
      var r := Step(s, m, env);
      && r.state == s.(connectedAddress := a)
      && r.calls == [EthRequestAccounts, EthSendTransaction(SendParams(Some(a), tx.to, tx.value, tx.data))]
      && (env.sendTransaction.Ok? ==> r.out == Some(WithTxHash("TRANSACTION_SIGNED", env.sendTransaction.value)))
  {
  }

  /** Once the address cache is non-empty, no sequence of messages changes it. */
  lemma {:induction false} AddressSticks(s: RelayState, inputs: seq<Input>)
    requires s.connectedAddress != ""
    ensures Replay(s, inputs).connectedAddress == s.connectedAddress
    decreases |inputs|
  {
    if inputs != [] {
      var next := Step(s, inputs[0].message, inputs[0].env).state;
      AddressSticks(next, inputs[1..]);
    }
  }

  /** A Starknet sign with a falsy slot overwrites the wallet object that its
      implicit connect stored with the returned address string, so the execute
      that follows reads `account` of a string and fails: the provider is never
      asked to execute the transaction. */
  lemma StarknetSignFromEmptySlotFails(s: RelayState, m: Message, env: Env, w: StarknetWallet)
    requires m.tag == "SIGN_TRANSACTION_STARKNET" && !SlotTruthy(s.starknetAccount)
    requires env.starknetPresent && env.starknetConnect == Ok(Some(w)) && env.parseStarknetTx.Ok?
    ensures var r := Step(s, m, env);
      && r.state.starknetAccount == AddressText(StarknetAddress(w))
      && r.out == Some(WithError("SIGN_TRANSACTION_STARKNET_ERROR", Some(env.typeError("execute"))))
      && r.calls == [StarkConnect, StarkExecute(None)]
  {
    assert m.tag + "_ERROR" == "SIGN_TRANSACTION_STARKNET_ERROR";
  }

  /** A Starknet sign succeeds only when an explicit connect has stored the
      wallet object in the slot beforehand. */
  lemma StarknetSignNeedsWalletObject(s: RelayState, m: Message, env: Env)
    requires m.tag == "SIGN_TRANSACTION_STARKNET"
    ensures Step(s, m, env).out.value.tag == "TRANSACTION_SIGNED_STARKNET" ==> s.starknetAccount.WalletObject?
  {
    SuccessTagsDiffer(Request(Sign, Starknet));
    assert m.tag + "_ERROR" == "SIGN_TRANSACTION_STARKNET_ERROR";
  }

  /** Connect first, then sign: the wallet object stays in the slot and the
      provider's transaction hash comes back as `TRANSACTION_SIGNED_STARKNET`. */
  lemma StarknetConnectThenSign(s: RelayState, connect: Message, sign: Message, env1: Env, env2: Env, w: StarknetWallet)
    requires connect.tag == "CONNECT_WALLET_STARKNET" && sign.tag == "SIGN_TRANSACTION_STARKNET"
    requires env1.starknetPresent && env1.starknetConnect == Ok(Some(w))
    requires env2.parseStarknetTx.Ok? && env2.starknetExecute.Ok?
    ensures var s1 := Step(s, connect, env1).state;
      var r := Step(s1, sign, env2);
      && r.out == Some(WithTxHash("TRANSACTION_SIGNED_STARKNET", env2.starknetExecute.value))
      && r.calls == [StarkExecute(sign.transaction)]
  {
  }

  // ----- as intended -----

  /** A `null` connect result fails on the dereference of the stray `execute()`
      call, so the "No Starknet account found" check after it is never the
      reason connect fails. */
  lemma NullStarknetWalletFailsOnDereference(s: RelayState, env: Env)
    requires env.starknetPresent && env.starknetConnect == Ok(None)
    ensures StarknetConnect(s, env) == Run(s.(starknetAccount := NoAccount), Err(env.typeError("account")), [StarkConnect])
  {
  }

  const NoStarknetAccount := "No Starknet account found"

  /** The evidently intended Starknet connect: the null check comes first and
      no argument-less `execute()` is fired. */
  function IntendedStarknetConnect(s: RelayState, env: Env): (r: Run)
    ensures r.state.connectedAddress == s.connectedAddress
    ensures StarkExecute(None) !in r.calls
  {
    if !env.starknetPresent then Run(s, Err(NoStarknetProvider), [])
    else
      match env.starknetConnect
      case Err(e) => Run(s, Err(e), [StarkConnect])
      case Ok(None) => Run(s.(starknetAccount := NoAccount), Err(NoStarknetAccount), [StarkConnect])
      case Ok(Some(w)) => Run(s.(starknetAccount := WalletObject(w)), Ok(StarknetAddress(w)), [StarkConnect])
  }

  /** The intended connect fails with "No Starknet account found" when
      get-starknet yields no wallet (and only then, unless get-starknet itself
      rejects with that text), and otherwise agrees with the code as
      written except for the stray `execute()`. */
  lemma IntendedStarknetConnectChecksNull(s: RelayState, env: Env)
    ensures var r := IntendedStarknetConnect(s, env);
      && (env.starknetPresent && env.starknetConnect == Ok(None) ==>
            r == Run(s.(starknetAccount := NoAccount), Err(NoStarknetAccount), [StarkConnect]))
      && (r.result == Err(NoStarknetAccount) ==>
            env.starknetConnect == Ok(None) || env.starknetConnect == Err(NoStarknetAccount))
      && (env.starknetConnect.Ok? && env.starknetConnect.value.Some? ==>
            var written := StarknetConnect(s, env);
            r.state == written.state && r.result == written.result
            && written.calls == r.calls + (if env.starknetPresent then [StarkExecute(None)] else []))
  {
    assert |NoStarknetAccount| != |NoStarknetProvider|;
  }

  /** The evidently intended Starknet sign handler: the implicit connect leaves
      the wallet object it stored in the slot, and signing goes through it. */
  function IntendedStarknetSign(s: RelayState, transaction: Option<string>, env: Env): (r: Run)
  {
    if SlotTruthy(s.starknetAccount) then StarknetSign(s, transaction, env)
    else
      var c := IntendedStarknetConnect(s, env);
      match c.result
      case Err(_) => c
      case Ok(_) => After(c.calls, StarknetSign(c.state, transaction, env))
  }

  /** From an empty slot, the intended handler connects, keeps the wallet
      object, and has the wallet execute the transaction: its outcome is the
      wallet's, where the code as written always fails. */
  lemma IntendedStarknetSignExecutes(s: RelayState, transaction: Option<string>, env: Env, w: StarknetWallet)
    requires !SlotTruthy(s.starknetAccount)
    requires env.starknetPresent && env.starknetConnect == Ok(Some(w)) && env.parseStarknetTx.Ok?
    ensures var r := IntendedStarknetSign(s, transaction, env);
      && r.state.starknetAccount == WalletObject(w)
      && r.result == env.starknetExecute
      && r.calls == [StarkConnect, StarkExecute(transaction)]
  {
  }
}
