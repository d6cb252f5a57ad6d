# blink-extension wallet relay, modelled in Dafny

The blink-extension browser extension replaces action links in the X (Twitter)
feed with transaction widgets. The content script runs in an isolated context
and cannot reach the wallets the page injects (`window.ethereum`,
`window.solana`, `window.starknet`). It therefore talks to an injected page
script over `window.postMessage`:

- an adapter posts a request tag such as `SIGN_TRANSACTION_SOLANA`;
- the page script calls the wallet and broadcasts a reply tag;
- the adapter's listener settles a promise unless its timer fires first.

This project models that relay as pure functions over immutable state and
proves what each side does. It also proves what happens when the two sides
meet, including the pairs whose tags do not match.

| file | models |
|---|---|
| `wrappers.dfy` | `Option` and `Outcome` (a value or an error message) |
| `messages.dfy` | the broadcast message record, request tags, the naming rule of the adapters' reply tags |
| `drivers.dfy` | `Env`: the outcome of every wallet, parser and get-starknet call, as parameters; the log of provider calls |
| `page_relay.dfy` | `src/pageScript.ts`: wallet drivers, six handlers, the two cache slots, the listener |
| `legacy_relay.dfy` | `src/pageScript.js`: the four-branch listener with one shared address slot |
| `pending_call.dfy` | the promise/listener/timer race every adapter operation builds |
| `adapters.dfy` | `src/adapters/*.ts`: tags, fields, deadlines and timeout texts per adapter |
| `composition.dfy` | each adapter operation against each relay |
| `observer.dfy` | the pure parts of `src/twitterObserver.tsx` |
| `content.dfy` | `src/content.ts`: its listener state and the call to `setupTwitterObserver` |

The wallets, the transaction decoders, the engine's `TypeError` messages and
get-starknet are not visible here. Each becomes a field of `Env`:
- an `Outcome` for a call that can fail;
- a presence flag for each `window.<provider>` object;
- `typeError(p)` for the message the engine gives when property `p` is read
  from `undefined` or `null`.

A handler therefore answers "what is broadcast, what state is left, and which
provider calls were made" for every combination of outcomes.

Facts of the code that shape the model:
- A timer that fires only rejects the call; the listener stays registered
  (`src/adapters/Ethereum.ts:13-15`, and likewise in the other adapters).
  `PendingCall.TimeoutKeepsListener` and `PendingCall.UnmatchedListenerStays`
  record this.
- The tags the page scripts reply with and the tags the adapters wait for do
  not always agree. `Composition` proves which calls can then only end by
  timeout.
- The content script sets `pageScriptLoaded` but never reads it
  (`src/content.ts:23-36`), so no call waits for the page script.
- Every adapter failure rejects the promise; no adapter resolves an
  `{ error }` value, although the declared return type allows one.
- The Ethereum adapter posts its `chain` (`src/adapters/Ethereum.ts:35, 44`),
  and neither page script reads it.
- `src/pageScript.js` keeps one address slot for Ethereum and Solana.
  `src/pageScript.ts` shares one between them too, and keeps a separate
  Starknet slot.

## Model

| member | source | states |
|---|---|---|
| Messages.RequestTagRoundTrip | src/pageScript.ts:101-135 | a tag is recognised as a request exactly when it is that request's handler key: parsing and printing tags are inverse |
| PageRelay.Step | src/pageScript.ts:142-153 | a message gets a reply iff its tag is one of the six handler keys; any other tag leaves state and provider untouched; every reply tag is one of the twelve the relay can send, and is the handler's success tag or `<tag>_ERROR`; the cached address changes only from empty, and only on an Ethereum or Solana sign |
| PageRelay.ConnectRepliesDriverAccount | src/pageScript.ts:102-113 | a successful connect replies `WALLET_CONNECTED_<chain>` with exactly the driver's account (Starknet: `selectedAddress`, else the account address), leaves the address cache alone and stores the Starknet wallet object |
| PageRelay.MissingProviderFailsConnect | src/pageScript.ts:34-77 | with the chain's `window` provider missing, connect replies `<tag>_ERROR` with "No <chain> provider found", makes no provider call and changes no state |
| PageRelay.FailureRepliesWithErrorTag | src/pageScript.ts:145-151 | a handler fails iff the reply tag is `<request tag>_ERROR`, and then the reply carries the thrown message verbatim |
| PageRelay.SignReplyShapes | src/pageScript.ts:114-134 | a sign replies `<tag>_ERROR` or its success shape: unsuffixed `TRANSACTION_SIGNED` with `txHash` for Ethereum, `signature` for Solana, `txHash` for Starknet |
| PageRelay.CachedEthereumSign | src/pageScript.ts:43-56 | with an address cached, an Ethereum sign sends exactly one `eth_sendTransaction` with `from` = the cache and `to`/`value`/`data` from the decoded transaction, and replies with the provider's hash or error |
| PageRelay.CachedAddressSkipsConnect | src/pageScript.ts:114-127 | with an address cached, neither sign handler connects or changes state |
| PageRelay.EmptyCacheSignConnectsFirst | src/pageScript.ts:121-127 | with the cache empty, a Solana sign connects, stores the key, then signs: two provider calls, in that order |
| PageRelay.EmptyCacheEthereumSignConnectsFirst | src/pageScript.ts:114-119 | with the cache empty, an Ethereum sign requests accounts, stores the account, and sends the decoded `to`/`value`/`data` from it: two provider calls, in that order |
| PageRelay.AddressSticks | src/pageScript.ts:114-127 | once the address cache is non-empty, no sequence of messages changes it |
| PageRelay.NullStarknetWalletFailsOnDereference | src/pageScript.ts:79-84 | a `null` get-starknet result stores `null` and fails with the `TypeError` of reading `account`, not "No Starknet account found" |
| PageRelay.IntendedStarknetConnectChecksNull | src/pageScript.ts:79-86 | the corrected connect fails with "No Starknet account found" for a `null` wallet; otherwise it agrees with the code except for the stray `execute()` call |
| PageRelay.StarknetSignFromEmptySlotFails | src/pageScript.ts:128-134 | with the Starknet slot falsy, the implicit connect's address string replaces the wallet object, and the sign fails with the `TypeError` of reading `execute`; the transaction is never executed |
| PageRelay.IntendedStarknetSignExecutes | src/pageScript.ts:128-134 | the corrected handler keeps the wallet object after the implicit connect, and its outcome is the wallet's execution result |
| PageRelay.StarknetSignNeedsWalletObject | src/pageScript.ts:89-96 | a Starknet sign succeeds only if the slot held a wallet object beforehand |
| PageRelay.StarknetConnectThenSign | src/pageScript.ts:73-96 | explicit connect followed by sign executes exactly the posted transaction and replies `TRANSACTION_SIGNED_STARKNET` with its hash |
| Messages.StartupBroadcasts | src/pageScript.ts:137-139 | on load the script broadcasts `PAGE_SCRIPT_LOADED` first and each startup tag exactly once; `src/pageScript.js` lines 3 and 40 broadcast the same two, in the same order |
| LegacyRelay.Step | src/pageScript.js:42-108 | exactly the four Ethereum/Solana request tags get a reply; any other tag, the Starknet ones included, changes nothing; every reply tag is one of eight |
| LegacyRelay.ConnectEthereum | src/pageScript.js:7-23 | when the helper returns an account the shared slot holds it; in every other case the slot is kept |
| LegacyRelay.ConnectSolana | src/pageScript.js:25-38 | when the helper returns a public key the shared slot holds it; in every other case the slot is kept |
| LegacyRelay.ConnectSetsSharedAddress | src/pageScript.js:43-46 | a connect whose provider answers stores the account and replies `WALLET_CONNECTED_<chain>` with it |
| LegacyRelay.ConnectSwallowsProviderFailure | src/pageScript.js:13-22 | a failing provider call is swallowed: the reply is the success tag with a `null` account and the slot is kept |
| LegacyRelay.MissingProviderLosesErrorText | src/pageScript.js:43-53 | a missing provider rejects with a bare string, so the error reply carries no text; no provider call, no state change |
| LegacyRelay.SignReplyTags | src/pageScript.js:54-106 | Ethereum sign replies unsuffixed `TRANSACTION_SIGNED` (with `txHash`) or `TRANSACTION_SIGN_ERROR`; Solana replies its `_SOLANA` pair |
| LegacyRelay.EthereumSignForwardsToValueFrom | src/pageScript.js:59-71 | with the slot truthy, an Ethereum sign sends only `to`, `value` and `from` = the slot, and replies with the provider's hash or error |
| LegacyRelay.FailedImplicitConnectSendsFromNull | src/pageScript.js:55-69 | a swallowed failure in the implicit connect leaves `null` in the slot, and the transaction is still sent with `from: null` |
| LegacyRelay.EmptySlotEthereumSignConnectsFirst | src/pageScript.js:55-71 | with the slot falsy, an Ethereum sign connects, stores the account, and sends only `to` and `value` from it: two provider calls, in that order |
| LegacyRelay.SolanaConnectServesEthereumSign | src/pageScript.js:54-64 | after a Solana connect, an Ethereum sign skips its own connect and sends from the Solana public key |
| LegacyRelay.EthereumConnectServesSolanaSign | src/pageScript.js:90-99 | after an Ethereum connect, a Solana sign skips its own connect |
| PendingCall.Step | src/adapters/Ethereum.ts:12-27 | a settled outcome never changes; listener and timer are never re-armed; a message matching neither tag changes nothing; the timer rejects a pending call with the timeout text and keeps the listener |
| PendingCall.RunKeepsConsistent | src/adapters/Solana.ts:6-22 | along any event sequence from the start, the timer is armed exactly while the call is pending, and a resolved call no longer listens |
| PendingCall.SuccessReplyResolves | src/adapters/Ethereum.ts:18-21 | the success reply resolves with the reply's field and clears both timer and listener |
| PendingCall.ErrorReplyRejects | src/adapters/Ethereum.ts:22-26 | the error reply rejects with the carried text verbatim (empty when absent) and clears both timer and listener |
| PendingCall.TimeoutKeepsListener | src/adapters/Ethereum.ts:13-15 | the timer rejects with the timeout text and leaves the listener registered |
| PendingCall.SettlementIsFinal | src/adapters/Starknet.ts:7-22 | no event sequence changes a settled outcome |
| PendingCall.LateReplyOnlyDetaches | src/adapters/Ethereum.ts:13-26 | a matching reply after the timeout removes the listener, but the timeout rejection stands |
| PendingCall.UnmatchedListenerStays | src/adapters/Starknet.ts:38-53 | if no delivered message matches, the listener stays registered whatever the timer does |
| PendingCall.OnlyTimeoutSettles | src/adapters/Solana.ts:27-42 | if no delivered message matches, the call stays pending or ends with the timeout rejection |
| Adapters.ConnectProtocol | src/adapters/Solana.ts:4-23 | `connect()` posts the chain's connect tag (Ethereum's with the constructor's chain), waits for the `WALLET_CONNECTED_<CHAIN>` success tag, resolves with `account`, times out after 30 s for Solana and 60 s otherwise |
| Adapters.SignProtocol | src/adapters/Ethereum.ts:9-40 | `signTransaction(tx)` posts the chain's sign tag with `tx` (and the chain for Ethereum), waits for the `TRANSACTION_SIGNED_<CHAIN>` success tag, resolves from `signature` (Solana) or `txHash`, and times out after 60 s |
| Adapters.ConfirmTransaction | src/adapters/Ethereum.ts:66-68 | `confirmTransaction` is already resolved, with no listener or timer |
| Adapters.ConfirmTransactionIsInert | src/adapters/Solana.ts:55-57 | no event sequence changes `confirmTransaction`'s result, for every adapter and signature |
| Adapters.ErrorTagVocabulary | src/adapters/Starknet.ts:12-53 | the error tags follow the `WALLET_CONNECTION_ERROR_<CHAIN>` / `TRANSACTION_SIGN_ERROR_<CHAIN>` naming of the Ethereum and Solana adapters iff the adapter is not Starknet's; Starknet waits for `WALLET_CONNECTED_STARKNET_ERROR` and `SIGN_TRANSACTION_STARKNET_ERROR` |
| Adapters.OwnRequestIgnored | src/adapters/Ethereum.ts:29-38 | a call is not settled by its own request echoing back on the channel |
| Composition.ConnectAgainstPageRelay | src/pageScript.ts:142-151 | against the TypeScript relay, a successful connect resolves with the driver's account; a failing one is never accepted, so the call stays pending |
| Composition.SignAgainstPageRelay | src/pageScript.ts:114-134 | against the TypeScript relay: an Ethereum sign always stays pending; Solana resolves on success and stays pending on failure; Starknet resolves or rejects with the handler's message |
| Composition.EthereumSignOnlyTimesOutOnPageRelay | src/adapters/Ethereum.ts:17-27 | with the TypeScript relay serving the channel, an Ethereum sign can only end by timeout |
| Composition.ConnectAgainstLegacyRelay | src/pageScript.js:42-89 | against the legacy relay: an account resolves; a swallowed failure resolves with `null`; a missing provider rejects with ""; Starknet stays pending |
| Composition.SignAgainstLegacyRelay | src/pageScript.js:54-106 | against the legacy relay: Ethereum and Starknet signs stay pending; a Solana sign resolves with the signature or rejects with the caught message |
| Composition.EthereumSignOnlyTimesOutOnLegacyRelay | src/pageScript.js:71-76 | with the legacy relay serving the channel, an Ethereum sign can only end by timeout |
| Content.Listen | src/content.ts:25-36 | the readiness flag becomes set exactly on `PAGE_SCRIPT_LOADED` and is never cleared; the unsuffixed `WALLET_CONNECTED` stores the message's `account` (absent included), and every other tag keeps the address |
| Content.ListenIsIdempotent | src/content.ts:25-36 | receiving the same message twice is the same as receiving it once |
| Content.ReadinessIsPermanent | src/content.ts:23-27 | once set, no message sequence clears the readiness flag |
| Content.StartupMakesReady | src/content.ts:23-38 | a page script's startup broadcasts make the listener ready from any state and change nothing else; from the initial state the result is ready with no address |
| Content.RelayTrafficNeverSetsAddress | src/content.ts:30-38 | no reply or broadcast of either page script sets the listener's address |
| Content.BindSetupArguments | src/twitterObserver.tsx:64-69 | the first two arguments bind to the two adapter parameters; `callbacks` is the third argument, or `{}` when it is undefined; `options` is the fourth argument, or the default options when it is undefined |
| Content.ExtraArgumentIgnored | src/twitterObserver.tsx:64-69 | an argument past the fourth changes no parameter |
| Content.ArgumentsBindShifted | src/content.ts:49-57 | the five arguments bind one position off: Ethereum → Solana slot, Solana → Starknet slot, Starknet → callbacks, `{}` → options, `OPTIONS` dropped (with the same levels after normalising) |
| Content.ShiftedBindingMisroutes | src/content.ts:50-56 | under that binding, a Solana action gets a chainless Ethereum adapter and a Starknet action the Solana adapter |
| Content.SolanaActionConnectsOverEthereum | src/content.ts:50-56 | witness: the plainest Solana action's connect posts `CONNECT_WALLET_ETHEREUM` |
| Content.IntendedBindingRoutesByChain | src/twitterObserver.tsx:152-165 | with the corrected arguments, every action gets an adapter of the chain its descriptor asks for, and `OPTIONS` reaches the observer |
| Observer.NormalizeOptions | src/twitterObserver.tsx:36-62 | a per-kind record passes through unchanged; otherwise all three kinds get one level, the given one or, when absent, the default options' level |
| Observer.UniformMeansEveryKind | src/twitterObserver.tsx:42-59 | a single level normalises like the record that repeats it for every kind, and a record normalises like a single level iff its three levels are that level |
| Observer.NormalizeOptionsStable | src/twitterObserver.tsx:42-59 | normalising is idempotent, and absent options normalise like the defaults |
| Observer.SelectAdapter | src/twitterObserver.tsx:152-165 | the adapter is the one for the chain the descriptor asks for (`isEthereum` first, then `isStarknet`, else Solana): a fresh Ethereum adapter with the descriptor's chain, or the Starknet or Solana configuration; with configurations of the right chains, the adapter's chain is the descriptor's |
| Observer.SelectionFollowsDescriptor | src/twitterObserver.tsx:152-165 | with configurations of the right chains, the chosen adapter's chain is the one the descriptor asks for |
| Observer.PlaceAction | src/twitterObserver.tsx:145-172 | a preview is replaced iff the action URL is truthy and both fetches succeed, and then with that URL and the selected adapter |
| Observer.ResolveXStylePreset | src/twitterObserver.tsx:215-224 | the preset is dark iff the colour scheme is "dark", or it is empty/absent and the media query prefers dark |
| Observer.ProcessBatch | src/twitterObserver.tsx:81-98 | the handled nodes are the longest all-element prefix of the batch's added nodes in order: the callback returns at the first non-element |

## Left out

- DOM work in `handleNewNode` is not modelled: the `div` check, the `card.wrapper` lookup and the link preview (`src/twitterObserver.tsx:111-124`). Neither are URL unshortening, the interstitial check, `actions.json` mapping, the fetches or rendering (126-143, 172-213, 226 onwards). They are browser and network I/O. Their results are parameters of `Observer.PlaceAction`.
- The registry refresh every ten minutes and `observer.observe` (`src/twitterObserver.tsx:73-80, 100`) are not modelled: they are timers and DOM registration.
- Script injection (`src/content.ts:40-47`) and the `DOMContentLoaded` wait (`src/content.ts:59-63`) are not modelled: they are DOM effects.
- Console logging is dropped everywhere.
- Message ordering is modelled; concurrency and real time are not.
  - Events form a sequence, and a pending call sees messages one at a time.
  - Two calls of the same kind in flight cannot be told apart, since messages carry no request id. This is not modelled.
  - The deadline is carried as a number. Time itself is only the `TimerFires` event.
- The relays model only one listener at a time. The real page runs the relay and all adapters on one channel. `Composition.Exchange` covers a single call: the echo of its own request, then the reply.
- `type in messageHandlers` (`src/pageScript.ts:144`) is true for inherited keys such as `toString`; the model recognises only the six handler keys.
- Decoders and providers appear only as outcomes in `Env`. These include viem's `parseTransaction`, `JSON.parse`, `VersionedTransaction.deserialize`, get-starknet and the wallets.
  - A decoded transaction is reduced to `to`/`value`/`data`.
  - `accounts[0]` of an empty account list is not modelled: a successful request yields one account string.
  - A get-starknet wallet is assumed to carry an `account`.
- The result of the argument-less `execute()` at `src/pageScript.ts:81` is not modelled. The call is logged, but its promise is never awaited and cannot change the reply.
- `Env.typeError` stands for the engine's exact `TypeError` texts, which are engine-specific.
- Webpack, Tailwind, `src/config.ts` and `src/utils/twitter.ts` are not part of this model.
- PageRelay.AddressSticks: each handler runs to completion before the next message is handled. In the source the sign handlers await between reading the cache and writing it (`src/pageScript.ts:115-116, 122-123`). An Ethereum sign and a Solana sign in flight together can both see `""`, both connect, and the later assignment then replaces a non-empty address. The same holds for the legacy relay's slot (`src/pageScript.js:56-57, 92-93`).
- PageRelay.SignReplyShapes, Composition.SignAgainstPageRelay, Composition.SignAgainstLegacyRelay: a successful Solana sign or Starknet execute is assumed to yield its `signature` / `transaction_hash` as a present string. The source destructures the field from whatever the wallet returns (`src/pageScript.ts:92-93, 125`, `src/pageScript.js:98`) and posts it even when it is undefined.
- PendingCall.Step: a late reply to a timed-out call detaches the listener but cannot change the outcome. Only the status and the two teardown flags are tracked, not the handler object.
- Adapters.ConnectProtocol / Adapters.SignProtocol: the deadline is a number on the protocol. No lemma relates it to elapsed time.

## Findings

| source | as written | input that shows it | evidently intended | confidence | as-written member | corrected member |
|---|---|---|---|---|---|---|
| src/content.ts:50-56 | passes an Ethereum adapter, a Solana adapter, a Starknet adapter, `{}` and `OPTIONS` to a four-parameter function, so every argument binds one position off | an action descriptor with `isEthereum` and `isStarknet` both false: its connect posts `CONNECT_WALLET_ETHEREUM` | pass the Solana and Starknet adapters, `{}` and `OPTIONS`; the observer builds Ethereum adapters itself | high (not executed) | Content.SolanaActionConnectsOverEthereum | Content.IntendedBindingRoutesByChain |
| src/pageScript.ts:79-84 | reads `starknetAccount.account.execute` before checking `starknetAccount` for `null` | get-starknet resolving `null`: connect fails with a `TypeError`, and "No Starknet account found" is unreachable | check for `null` first and drop the stray `execute()` | high (not executed) | PageRelay.NullStarknetWalletFailsOnDereference | PageRelay.IntendedStarknetConnectChecksNull |
| src/pageScript.ts:128-134 | stores the implicit connect's return value, an address string, over the wallet object that connect stored | a Starknet sign with an empty slot and a wallet that connects: `account` of a string is undefined, so the sign always fails | keep the wallet object in the slot and execute through it | high (not executed) | PageRelay.StarknetSignFromEmptySlotFails | PageRelay.IntendedStarknetSignExecutes |
