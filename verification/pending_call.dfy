/** The content-side half of one request: a promise that races a `message`
    listener against a `setTimeout`. The adapters in src/adapters/ all build
    this same machine; they differ only in the tags, field and deadline. */
module PendingCall {
  import opened Wrappers
  import opened Messages

  /** What a call's promise resolves with. */
  datatype Value = Account(account: Option<string>) | Signature(signature: Option<string>) | Nothing

  datatype Status = Pending | Resolved(value: Value) | Rejected(reason: string)

  /** A call in flight: its promise, whether its listener is still registered,
      and whether its timer is still armed. */
  datatype Call = Call(status: Status, listenerAttached: bool, timerArmed: bool)

  /** Which reply field the success tag resolves with. */
  datatype ResultField = AccountField | TxHashField | SignatureField

  /** One adapter operation: the request it posts, the two tags its listener
      accepts, what it resolves with, and its deadline and timeout message. */
  datatype Protocol = Protocol(
    request: Message,
    successTag: string,
    errorTag: string,
    resultField: ResultField,
    deadlineMs: nat,
    timeoutText: string)

  /** A message reaching the call's listener, or the call's timer expiring. */
  datatype Event = Deliver(message: Message) | TimerFires

  /** The state right after the operation posted its request: listener
      registered, timer armed, promise pending. */
  const Started := Call(Pending, true, true)

  /** A promise settles once; later `resolve` / `reject` calls are ignored. */
  function Settle(current: Status, outcome: Status): (r: Status)
    ensures current.Pending? ==> r == outcome
    ensures !current.Pending? ==> r == current
  {
    if current.Pending? then outcome else current
  }

  /** The value a success reply resolves the call with. */
  function ResolvedValue(f: ResultField, m: Message): Value
  {
    match f
    case AccountField => Account(m.account)
    case TxHashField => Signature(m.txHash)
    case SignatureField => Signature(m.signature)
  }

  /** `new Error(event.data.error).message`: an undefined `error` gives "". */
  function ErrorText(m: Message): string
  {
    m.error.GetOr("")
  }

  predicate Matches(p: Protocol, m: Message)
  {
    m.tag == p.successTag || m.tag == p.errorTag
  }

  /** One event. A matching reply clears the timer, removes the listener and
      settles the promise; the timer only rejects; anything else is ignored. */
  function Step(p: Protocol, c: Call, e: Event): (c': Call)
    ensures !c.status.Pending? ==> c'.status == c.status
    ensures c'.listenerAttached ==> c.listenerAttached
    ensures c'.timerArmed ==> c.timerArmed
    ensures e.Deliver? && !Matches(p, e.message) ==> c' == c
    ensures e.TimerFires? ==> c'.listenerAttached == c.listenerAttached
    ensures e.TimerFires? && c.timerArmed && c.status.Pending? ==> c'.status == Rejected(p.timeoutText)
  {
    match e
    case Deliver(m) =>
      if !c.listenerAttached then c
      else if m.tag == p.successTag then
        Call(Settle(c.status, Resolved(ResolvedValue(p.resultField, m))), false, false)
      else if m.tag == p.errorTag then
        Call(Settle(c.status, Rejected(ErrorText(m))), false, false)
      else c
    case TimerFires =>
      if !c.timerArmed then c
      else Call(Settle(c.status, Rejected(p.timeoutText)), c.listenerAttached, false)
  }

  /** The call after a sequence of events, in order. */
  function Run(p: Protocol, c: Call, events: seq<Event>): Call
    decreases |events|
  {
    if events == [] then c else Run(p, Step(p, c, events[0]), events[1..])
  }

  /** The invariant a call keeps from `Started` on: the timer is armed exactly
      while the promise is pending, a pending call still listens, and a
      resolved call no longer listens. */
  ghost predicate Consistent(c: Call)
  {
    && (c.timerArmed <==> c.status.Pending?)
    && (c.status.Pending? ==> c.listenerAttached)
    && (c.status.Resolved? ==> !c.listenerAttached)
  }

  lemma StepKeepsConsistent(p: Protocol, c: Call, e: Event)
    requires Consistent(c)
    ensures Consistent(Step(p, c, e))
  {
  }

  /** Every run from `Started` stays consistent; in particular a resolved call
      has torn down both its timer and its listener. */
  lemma {:induction false} RunKeepsConsistent(p: Protocol, c: Call, events: seq<Event>)
    requires Consistent(c)
    ensures Consistent(Run(p, c, events))
    decreases |events|
  {
    if events != [] {
      StepKeepsConsistent(p, c, events[0]);
      RunKeepsConsistent(p, Step(p, c, events[0]), events[1..]);
    }
  }

  /** The matching success reply resolves with the reply's field and tears
      down both timer and listener. */
  lemma SuccessReplyResolves(p: Protocol, m: Message)
    requires m.tag == p.successTag
    ensures Step(p, Started, Deliver(m)) == Call(Resolved(ResolvedValue(p.resultField, m)), false, false)
  {
  }

  /** The matching error reply rejects with the carried text verbatim ("" when
      the reply has none) and tears down both timer and listener. */
  lemma ErrorReplyRejects(p: Protocol, m: Message)
    requires m.tag == p.errorTag && m.tag != p.successTag
    ensures Step(p, Started, Deliver(m)) == Call(Rejected(ErrorText(m)), false, false)
    ensures m.error.Some? ==> Step(p, Started, Deliver(m)).status == Rejected(m.error.value)
  {
  }

  /** The timer rejects with the timeout message but leaves the listener registered. */
  lemma TimeoutKeepsListener(p: Protocol)
    ensures Step(p, Started, TimerFires) == Call(Rejected(p.timeoutText), true, false)
  {
  }

  /** Settlement is final: no later event changes a settled outcome. */
  lemma {:induction false} SettlementIsFinal(p: Protocol, c: Call, events: seq<Event>)
    requires !c.status.Pending?
    ensures Run(p, c, events).status == c.status
    decreases |events|
  {
    if events != [] {
      SettlementIsFinal(p, Step(p, c, events[0]), events[1..]);
    }
  }

  /** After a timeout, a late matching reply still runs the handler: it removes
      the listener, but the rejection stands. */
  lemma LateReplyOnlyDetaches(p: Protocol, m: Message)
    requires Matches(p, m)
    ensures var timedOut := Step(p, Started, TimerFires);
      Step(p, timedOut, Deliver(m)) == Call(Rejected(p.timeoutText), false, false)
  {
  }

  /** When no delivered message matches, the listener stays registered: the
      timeout path never removes it. */
  lemma {:induction false} UnmatchedListenerStays(p: Protocol, c: Call, events: seq<Event>)
    requires c.listenerAttached
    requires forall i :: 0 <= i < |events| && events[i].Deliver? ==> !Matches(p, events[i].message)
    ensures Run(p, c, events).listenerAttached
    decreases |events|
  {
    if events != [] {
      UnmatchedListenerStays(p, Step(p, c, events[0]), events[1..]);
    }
  }

  /** When no delivered message matches, the call can only stay pending or
      end by timeout. */
  lemma {:induction false} OnlyTimeoutSettles(p: Protocol, c: Call, events: seq<Event>)
    requires c.status == Pending || c.status == Rejected(p.timeoutText)
    requires forall i :: 0 <= i < |events| && events[i].Deliver? ==> !Matches(p, events[i].message)
    ensures var r := Run(p, c, events).status;
      r == Pending || r == Rejected(p.timeoutText)
    decreases |events|
  {
    if events != [] {
      OnlyTimeoutSettles(p, Step(p, c, events[0]), events[1..]);
    }
  }

  /** A call with no listener and no timer is inert: no event changes it. */
  lemma {:induction false} InertCallUnchanged(p: Protocol, c: Call, events: seq<Event>)
    requires !c.listenerAttached && !c.timerArmed
    ensures Run(p, c, events) == c
    decreases |events|
  {
    if events != [] {
      InertCallUnchanged(p, Step(p, c, events[0]), events[1..]);
    }
  }
}
