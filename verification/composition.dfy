/** What happens when an adapter's request meets each relay: the relay's reply
    tags against the tags the adapter's listener accepts. Several pairs do not
    match, and the lemmas here record which calls can then only end by timeout. */
module Composition {
  import opened Wrappers
  import opened Messages
  import opened Drivers
  import opened PendingCall
  import opened Adapters
  import PageRelay
  import LegacyRelay

  /** A call is started, receives its own request from the shared channel, and
      then the relay's reply, if the relay sent one. */
  function Exchange(p: Protocol, reply: Option<Message>): Call
  {
    var echoed := Step(p, Started, Deliver(p.request));
    match reply
    case None => echoed
    case Some(m) => Step(p, echoed, Deliver(m))
  }

  // ----- against src/pageScript.ts -----

  /** Connect against the TypeScript relay, for every adapter: a successful
      handler resolves the call with exactly the driver's account; a failing
      one replies `CONNECT_WALLET_<chain>_ERROR`, which no adapter accepts, so
      the call stays pending until its timer fires. */
  lemma ConnectAgainstPageRelay(a: Adapter, s: PageRelay.RelayState, env: Env)
    ensures var p := ConnectProtocol(a);
      var run := PageRelay.Handle(s, Request(Connect, ChainOf(a)), None, env);
      var c := Exchange(p, PageRelay.Step(s, p.request, env).out);
      && (run.result.Ok? ==> c == Call(Resolved(Account(Some(run.result.value))), false, false))
      && (run.result.Err? ==> c == Started)
  {
    var p := ConnectProtocol(a);
    assert ParseRequest(p.request.tag) == Some(Request(Connect, ChainOf(a)));
    PageRelay.ErrorTagIsReplyTag(Request(Connect, ChainOf(a)));
  }

  /** Sign against the TypeScript relay. Ethereum: neither `TRANSACTION_SIGNED`
      nor `SIGN_TRANSACTION_ETHEREUM_ERROR` is accepted, so the call stays
      pending whatever the wallet does. Solana: success resolves, failure is
      not accepted. Starknet: both replies are accepted. */
  lemma SignAgainstPageRelay(a: Adapter, tx: string, s: PageRelay.RelayState, env: Env)
    ensures var p := SignProtocol(a, tx);
      var run := PageRelay.Handle(s, Request(Sign, ChainOf(a)), Some(tx), env);
      var c := Exchange(p, PageRelay.Step(s, p.request, env).out);
      && (a.EthereumAdapter? ==> c == Started)
      && (a.SolanaActionAdapter? && run.result.Ok? ==> c == Call(Resolved(Signature(Some(run.result.value))), false, false))
      && (a.SolanaActionAdapter? && run.result.Err? ==> c == Started)
      && (a.StarknetActionAdapter? && run.result.Ok? ==> c == Call(Resolved(Signature(Some(run.result.value))), false, false))
      && (a.StarknetActionAdapter? && run.result.Err? ==> c == Call(Rejected(run.result.message), false, false))
  {
    var p := SignProtocol(a, tx);
    assert ParseRequest(p.request.tag) == Some(Request(Sign, ChainOf(a)));
    PageRelay.ErrorTagIsReplyTag(Request(Sign, ChainOf(a)));
  }

  /** Every tag that appears on the channel while the TypeScript relay runs:
      its replies, its startup broadcasts and the adapters' requests. */
  predicate PageRelayTraffic(tag: string)
  {
    tag in PageRelay.ReplyTags || tag == PageScriptLoaded || tag == EthereumReady || ParseRequest(tag).Some?
  }

  /** Every delivered message of a sequence is TypeScript-relay traffic. */
  predicate AllPageRelayTraffic(events: seq<Event>)
    decreases |events|
  {
    events == [] || ((events[0].Deliver? ==> PageRelayTraffic(events[0].message.tag)) && AllPageRelayTraffic(events[1..]))
  }

  /** An Ethereum `signTransaction` that is pending (or already timed out) can
      only end by timeout while the TypeScript relay serves the channel: no
      message the system broadcasts is one its listener accepts. */
  lemma {:induction false} EthereumSignOnlyTimesOutOnPageRelay(chain: Option<string>, tx: string, c: Call, events: seq<Event>)
    requires c.status == Pending || c.status == Rejected(SignTimeoutText)
    requires AllPageRelayTraffic(events)
    ensures var r := Run(SignProtocol(EthereumAdapter(chain), tx), c, events).status;
      r == Pending || r == Rejected(SignTimeoutText)
    decreases |events|
  {
    if events != [] {
      var p := SignProtocol(EthereumAdapter(chain), tx);
      if events[0].Deliver? {
        PageRelayTrafficMissesEthereumSign(events[0].message.tag);
      }
      EthereumSignOnlyTimesOutOnPageRelay(chain, tx, Step(p, c, events[0]), events[1..]);
    }
  }

  // ----- against src/pageScript.js -----

  /** Connect against the legacy relay. Ethereum and Solana: an account resolves
      the call with it; a swallowed provider failure resolves it with `null`; a
      missing provider rejects it with an empty message, the text having been
      lost on the relay side. Starknet: no reply, so the call stays pending. */
  lemma ConnectAgainstLegacyRelay(a: Adapter, s: LegacyRelay.LegacyState, env: Env)
    ensures var p := ConnectProtocol(a);
      var c := Exchange(p, LegacyRelay.Step(s, p.request, env).out);
      && (a.StarknetActionAdapter? ==> c == Started)
      && (a.EthereumAdapter? && env.ethereumPresent && env.requestAccounts.Ok? ==>
            c == Call(Resolved(Account(Some(env.requestAccounts.value))), false, false))
      && (a.EthereumAdapter? && env.ethereumPresent && env.requestAccounts.Err? ==>
            c == Call(Resolved(Account(None)), false, false))
      && (a.SolanaActionAdapter? && env.solanaPresent && env.solanaConnect.Ok? ==>
            c == Call(Resolved(Account(Some(env.solanaConnect.value))), false, false))
      && (a.SolanaActionAdapter? && env.solanaPresent && env.solanaConnect.Err? ==>
            c == Call(Resolved(Account(None)), false, false))
      && (!a.StarknetActionAdapter? && !PageRelay.ProviderPresent(env, ChainOf(a)) ==>
            c == Call(Rejected(""), false, false))
  {
  }

  /** Sign against the legacy relay. Ethereum: the relay replies with the
      unsuffixed `TRANSACTION_SIGNED` / `TRANSACTION_SIGN_ERROR`, which the
      adapter does not accept, so the call stays pending. Solana: both replies
      are accepted. Starknet: no reply. */
  lemma SignAgainstLegacyRelay(a: Adapter, tx: string, s: LegacyRelay.LegacyState, env: Env)
    ensures var p := SignProtocol(a, tx);
      var run := LegacyRelay.SignSolana(s, Some(tx), env);
      var c := Exchange(p, LegacyRelay.Step(s, p.request, env).out);
      && (a.EthereumAdapter? ==> c == Started)
      && (a.StarknetActionAdapter? ==> c == Started)
      && (a.SolanaActionAdapter? && run.result.Fulfilled? ==>
            c == Call(Resolved(Signature(Some(run.result.value))), false, false))
      && (a.SolanaActionAdapter? && !run.result.Fulfilled? ==>
            c == Call(Rejected(LegacyRelay.CaughtMessage(run.result).GetOr("")), false, false))
  {
  }

  /** Every tag that appears on the channel while the legacy relay runs. */
  predicate LegacyRelayTraffic(tag: string)
  {
    tag in LegacyRelay.ReplyTags || tag == PageScriptLoaded || tag == EthereumReady || ParseRequest(tag).Some?
  }

  /** Every delivered message of a sequence is legacy-relay traffic. */
  predicate AllLegacyRelayTraffic(events: seq<Event>)
    decreases |events|
  {
    events == [] || ((events[0].Deliver? ==> LegacyRelayTraffic(events[0].message.tag)) && AllLegacyRelayTraffic(events[1..]))
  }

  /** An Ethereum `signTransaction` that is pending (or already timed out) can
      only end by timeout while the legacy relay serves the channel, just as
      against the TypeScript relay. */
  lemma {:induction false} EthereumSignOnlyTimesOutOnLegacyRelay(chain: Option<string>, tx: string, c: Call, events: seq<Event>)
    requires c.status == Pending || c.status == Rejected(SignTimeoutText)
    requires AllLegacyRelayTraffic(events)
    ensures var r := Run(SignProtocol(EthereumAdapter(chain), tx), c, events).status;
      r == Pending || r == Rejected(SignTimeoutText)
    decreases |events|
  {
    if events != [] {
      var p := SignProtocol(EthereumAdapter(chain), tx);
      if events[0].Deliver? {
        LegacyRelayTrafficMissesEthereumSign(events[0].message.tag);
      }
      EthereumSignOnlyTimesOutOnLegacyRelay(chain, tx, Step(p, c, events[0]), events[1..]);
    }
  }

  /** Neither tag the Ethereum sign listener accepts is a request, a startup
      broadcast, or a reply of the given relay. */
  lemma PageRelayTrafficMissesEthereumSign(t: string)
    requires PageRelayTraffic(t)
    ensures t != "TRANSACTION_SIGNED_ETHEREUM" && t != "TRANSACTION_SIGN_ERROR_ETHEREUM"
  {
    if ParseRequest(t).Some? {
      assert t == RequestTag(ParseRequest(t).value);
    }
  }

  lemma LegacyRelayTrafficMissesEthereumSign(t: string)
    requires LegacyRelayTraffic(t)
    ensures t != "TRANSACTION_SIGNED_ETHEREUM" && t != "TRANSACTION_SIGN_ERROR_ETHEREUM"
  {
    if ParseRequest(t).Some? {
      assert t == RequestTag(ParseRequest(t).value);
    }
  }
}
