/** What the page scripts ask of code outside the model: the injected wallet
    providers, the transaction decoders and the JavaScript engine. Every such
    call is an abstract outcome chosen by the environment. */
module Drivers {
  import opened Wrappers

  /** The fields the page script reads from a decoded Ethereum transaction. */
  datatype EthTx = EthTx(to: Option<string>, value: Option<string>, data: Option<string>)

  /** The parameters of an `eth_sendTransaction` request. */
  datatype SendParams = SendParams(
    from: Option<string>,
    to: Option<string>,
    value: Option<string>,
    data: Option<string>)

  /** The object get-starknet's `connect` hands back when the user picks a wallet. */
  datatype StarknetWallet = StarknetWallet(selectedAddress: string, accountAddress: string)

  /** One call the page script makes into a wallet provider, in the order made. */
  datatype ProviderCall =
    | EthRequestAccounts
    | EthSendTransaction(params: SendParams)
    | SolConnect
    | SolSignTransaction(transaction: Option<string>)
    | StarkConnect
    | StarkExecute(transaction: Option<string>)

  /** One environment for one inbound message: which provider objects exist and
      how each foreign call settles.
      `typeError(p)` is the message the engine gives the TypeError raised when a
      property `p` is read through `undefined` or `null`. */
  datatype Env = Env(
    ethereumPresent: bool,
    solanaPresent: bool,
    starknetPresent: bool,
    requestAccounts: Outcome<string>,
    parseEthTx: Outcome<EthTx>,
    sendTransaction: Outcome<string>,
    solanaConnect: Outcome<string>,
    decodeSolanaTx: Outcome<()>,
    signSolanaTx: Outcome<string>,
    starknetConnect: Outcome<Option<StarknetWallet>>,
    parseStarknetTx: Outcome<()>,
    starknetExecute: Outcome<string>,
    typeError: string -> string)
}
