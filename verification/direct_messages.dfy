/**
 * Direct-message calls over one socket: each call subscribes to every incoming frame, waits for its
 * own reply, an error or its timeout, and is unsubscribed when it settles.
 */
module DirectMessages {
  import opened Common

  /** How long a call waits when it is not told. */
  const DEFAULT_TIMEOUT_MS := 8_000

  datatype Wire = Wire(id: string, body: string)

  datatype Request = Send(clientId: string, peer: string, body: string) | History(peer: string)

  /** An incoming frame; a field of the wrong type or absent is None. */
  datatype Frame =
    | MessageSent(clientId: Option<string>, message: Option<Wire>)
    | HistoryPage(peer: Option<string>, channelId: Option<string>, messages: seq<Wire>, hasMore: bool)
    | ErrorFrame(text: Option<string>)
    | OtherFrame

  datatype Outcome =
    | Confirmed(message: Wire)
    | Page(channelId: Option<string>, messages: seq<Wire>, hasMore: bool)
    | Rejected(text: string)
    | TimedOut
    | SendFailed

  /** Calls are numbered as they are made; `timers` maps a call to when its timeout is due. */
  datatype Client = Client(
    calls: seq<Request>, listeners: set<nat>, timers: map<nat, nat>, outcomes: map<nat, Outcome>,
    sent: seq<Request>, now: nat, timeoutMs: nat)

  /** What a frame means to a call that is still waiting. */
  function Reply(r: Request, f: Frame): Option<Outcome> {
    match f
    case MessageSent(clientId, message) =>
      if r.Send? && clientId == Some(r.clientId) && message.Some? then Some(Confirmed(message.value)) else None
    case HistoryPage(peer, channelId, messages, hasMore) =>
      if r.History? && peer.Some? && Lower(peer.value) == Lower(r.peer)
      then Some(Page(channelId, messages, hasMore)) else None
    case ErrorFrame(text) => if text.Some? then Some(Rejected(text.value)) else None
    case OtherFrame => None
  }

  datatype Event =
    | Start(request: Request, wsFails: bool)
    | Receive(frame: Frame)
    | Timeout(call: nat)
    | Advance(ms: nat)

  /** A due timeout fires before time moves on. */
  predicate Enabled(c: Client, e: Event) {
    match e
    case Timeout(call) => call in c.timers && c.timers[call] <= c.now
    case Advance(ms) => forall i :: i in c.timers ==> c.now + ms <= c.timers[i]
    case _ => true
  }

  function Finish(c: Client, call: nat, outcome: Outcome): Client {
    c.(listeners := c.listeners - {call}, timers := c.timers - {call}, outcomes := c.outcomes[call := outcome])
  }

  function Begin(c: Client, request: Request, wsFails: bool): Client {
    var n := |c.calls|;
    var subscribed := c.(calls := c.calls + [request], listeners := c.listeners + {n},
                         timers := c.timers[n := c.now + c.timeoutMs]);
    if wsFails then Finish(subscribed, n, SendFailed) else subscribed.(sent := c.sent + [request])
  }

  predicate Replied(c: Client, call: nat, frame: Frame) {
    call in c.listeners && call < |c.calls| && Reply(c.calls[call], frame).Some?
  }

  function Deliver(c: Client, frame: Frame): Client {
    var done := set i | i in c.listeners && Replied(c, i, frame);
    c.(listeners := c.listeners - done, timers := c.timers - done,
       outcomes := c.outcomes + map i | i in done :: Reply(c.calls[i], frame).value)
  }

  function Next(c: Client, e: Event): Client
    requires Enabled(c, e)
  {
    match e
    case Start(request, wsFails) => Begin(c, request, wsFails)
    case Receive(frame) => Deliver(c, frame)
    case Timeout(call) => Finish(c, call, TimedOut)
    case Advance(ms) => c.(now := c.now + ms)
  }

  ghost predicate IsRun(c: Client, events: seq<Event>) {
    events == [] ||
    (IsRun(c, events[..|events| - 1]) && Enabled(After(c, events[..|events| - 1]), events[|events| - 1]))
  }

  ghost function After(c: Client, events: seq<Event>): Client {
    if events == [] then c
    else
      var before := After(c, events[..|events| - 1]);
      if Enabled(before, events[|events| - 1]) then Next(before, events[|events| - 1]) else before
  }

  function NewClient(timeoutMs: nat): Client {
    Client([], {}, map[], map[], [], 0, timeoutMs)
  }

  // ----- What every reachable state keeps -----

  /** Listeners and timers belong to exactly the calls that have not settled. */
  ghost predicate Tidy(c: Client) {
    c.timers.Keys == c.listeners &&
    (forall i :: i in c.listeners <==> 0 <= i < |c.calls| && i !in c.outcomes) &&
    (forall i :: i in c.outcomes ==> i < |c.calls|)
  }

  /** No call waits longer than its budget. */
  ghost predicate InTime(c: Client) {
    forall i :: i in c.timers ==> c.now <= c.timers[i] <= c.now + c.timeoutMs
  }

  lemma StepKeeps(c: Client, e: Event)
    requires Tidy(c) && InTime(c) && Enabled(c, e)
    ensures Tidy(Next(c, e)) && InTime(Next(c, e)) && Next(c, e).timeoutMs == c.timeoutMs
  {
  }

  /** The subscribers are always exactly the unsettled calls, and none of them is overdue. */
  lemma {:induction false} SubscribersAreTheUnsettled(timeoutMs: nat, events: seq<Event>)
    requires IsRun(NewClient(timeoutMs), events)
    ensures Tidy(After(NewClient(timeoutMs), events)) && InTime(After(NewClient(timeoutMs), events))
    ensures After(NewClient(timeoutMs), events).timeoutMs == timeoutMs
    decreases |events|
  {
    if events != [] {
      SubscribersAreTheUnsettled(timeoutMs, events[..|events| - 1]);
      StepKeeps(After(NewClient(timeoutMs), events[..|events| - 1]), events[|events| - 1]);
    }
  }

  // ----- Each call by itself -----

  /** What an event means to one call: its reply, any error, or its own timeout. */
  function Answer(r: Request, call: nat, e: Event): Option<Outcome> {
    match e
    case Receive(frame) => Reply(r, frame)
    case Timeout(i) => if i == call then Some(TimedOut) else None
    case _ => None
  }

  /** The outcome of a call on its own: the first answer after it was made. */
  function FirstAnswer(r: Request, call: nat, events: seq<Event>): Option<Outcome> {
    if events == [] then None
    else
      var earlier := FirstAnswer(r, call, events[..|events| - 1]);
      if earlier.Some? then earlier else Answer(r, call, events[|events| - 1])
  }

  function OutcomeOf(c: Client, call: nat): Option<Outcome> {
    if call in c.outcomes then Some(c.outcomes[call]) else None
  }

  lemma OneStep(c: Client, e: Event, call: nat)
    requires Tidy(c) && Enabled(c, e) && call < |c.calls|
    ensures var d := Next(c, e);
            call < |d.calls| && d.calls[call] == c.calls[call] &&
            OutcomeOf(d, call) ==
              if call in c.outcomes then OutcomeOf(c, call) else Answer(c.calls[call], call, e)
  {
  }

  /**
   * However calls overlap, each one ends as if it were alone on the socket: with the first frame that
   * carries its own reply, or the first error, or its timeout, whichever comes first; later frames
   * change nothing.
   */
  lemma {:induction false} EachCallEndsWithItsFirstAnswer(c: Client, events: seq<Event>, call: nat)
    requires Tidy(c) && IsRun(c, events) && call in c.listeners
    ensures Tidy(After(c, events)) && call < |After(c, events).calls|
    ensures After(c, events).calls[call] == c.calls[call]
    ensures OutcomeOf(After(c, events), call) == FirstAnswer(c.calls[call], call, events)
    decreases |events|
  {
    if events != [] {
      var init, e := events[..|events| - 1], events[|events| - 1];
      EachCallEndsWithItsFirstAnswer(c, init, call);
      OneStep(After(c, init), e, call);
      TidyStep(After(c, init), e);
    }
  }

  lemma TidyStep(c: Client, e: Event)
    requires Tidy(c) && Enabled(c, e)
    ensures Tidy(Next(c, e))
  {
  }

  /** A call settles at most once. */
  lemma {:induction false} OutcomesNeverChange(c: Client, events: seq<Event>, call: nat)
    requires Tidy(c) && IsRun(c, events) && call in c.outcomes
    ensures Tidy(After(c, events)) && OutcomeOf(After(c, events), call) == OutcomeOf(c, call)
    decreases |events|
  {
    if events != [] {
      var init, e := events[..|events| - 1], events[|events| - 1];
      OutcomesNeverChange(c, init, call);
      assert call < |After(c, init).calls|;
      OneStep(After(c, init), e, call);
      TidyStep(After(c, init), e);
    }
  }

  /** A send is confirmed only by an echo of its own client id, with that echo's message. */
  lemma {:induction false} ConfirmedByOwnEcho(r: Request, call: nat, events: seq<Event>, m: Wire)
    requires FirstAnswer(r, call, events) == Some(Confirmed(m))
    ensures r.Send?
    ensures exists k :: 0 <= k < |events| && events[k] == Receive(MessageSent(Some(r.clientId), Some(m)))
    decreases |events|
  {
    var init := events[..|events| - 1];
    if FirstAnswer(r, call, init).Some? {
      ConfirmedByOwnEcho(r, call, init, m);
      var k :| 0 <= k < |init| && init[k] == Receive(MessageSent(Some(r.clientId), Some(m)));
      assert events[k] == init[k];
    } else {
      assert events[|events| - 1] == Receive(MessageSent(Some(r.clientId), Some(m)));
    }
  }

  /**
   * What answers a call. A send is answered by an echo that carries its client id and a message; a page
   * request by a page for its peer, whatever the case of the address; either by an error with a text;
   * and nothing else answers anything.
   */
  lemma RepliesExactly(r: Request, f: Frame, outcome: Outcome)
    ensures Reply(r, f) == Some(outcome) <==>
              (match outcome
               case Confirmed(m) => r.Send? && f == MessageSent(Some(r.clientId), Some(m))
               case Page(channelId, messages, hasMore) =>
                 r.History? && f.HistoryPage? && f == HistoryPage(f.peer, channelId, messages, hasMore) &&
                 f.peer.Some? && Lower(f.peer.value) == Lower(r.peer)
               case Rejected(text) => f == ErrorFrame(Some(text))
               case _ => false)
  {
  }

  /** Time passed over the events. */
  function Elapsed(events: seq<Event>): nat {
    if events == [] then 0
    else Elapsed(events[..|events| - 1]) + if events[|events| - 1].Advance? then events[|events| - 1].ms else 0
  }

  /** When each call was made. */
  function MadeAt(events: seq<Event>): seq<nat> {
    if events == [] then []
    else
      var init := events[..|events| - 1];
      MadeAt(init) + if events[|events| - 1].Start? then [Elapsed(init)] else []
  }

  /** What was asked, and what of it went over the wire, in order. */
  function Asked(events: seq<Event>): seq<Request> {
    if events == [] then []
    else
      var e := events[|events| - 1];
      Asked(events[..|events| - 1]) + if e.Start? then [e.request] else []
  }

  function WentOut(events: seq<Event>): seq<Request> {
    if events == [] then []
    else
      var e := events[|events| - 1];
      WentOut(events[..|events| - 1]) + if e.Start? && !e.wsFails then [e.request] else []
  }

  ghost predicate Recorded(c: Client, events: seq<Event>) {
    c.now == Elapsed(events) && c.calls == Asked(events) && c.sent == WentOut(events) &&
    |MadeAt(events)| == |c.calls| &&
    forall i :: i in c.timers ==> i < |MadeAt(events)| && c.timers[i] == MadeAt(events)[i] + c.timeoutMs
  }

  /** Over every run calls, wire and clock are what the events say, and each timer is due a budget after its call. */
  lemma {:induction false} RunIsRecorded(timeoutMs: nat, events: seq<Event>)
    requires IsRun(NewClient(timeoutMs), events)
    ensures Tidy(After(NewClient(timeoutMs), events)) && Recorded(After(NewClient(timeoutMs), events), events)
    ensures After(NewClient(timeoutMs), events).timeoutMs == timeoutMs
    decreases |events|
  {
    SubscribersAreTheUnsettled(timeoutMs, events);
    if events != [] {
      var init, e := events[..|events| - 1], events[|events| - 1];
      RunIsRecorded(timeoutMs, init);
      StepIsRecorded(After(NewClient(timeoutMs), init), init, e);
      assert init + [e] == events;
    }
  }

  lemma StepIsRecorded(c: Client, init: seq<Event>, e: Event)
    requires Tidy(c) && Recorded(c, init) && Enabled(c, e)
    ensures Recorded(Next(c, e), init + [e])
  {
    assert (init + [e])[..|init|] == init;
  }

  /** A call times out exactly when its budget has passed since it was made. */
  lemma TimesOutExactly(timeoutMs: nat, events: seq<Event>, call: nat)
    requires IsRun(NewClient(timeoutMs), events) && call in After(NewClient(timeoutMs), events).listeners
    ensures call < |MadeAt(events)|
    ensures Enabled(After(NewClient(timeoutMs), events), Timeout(call)) <==>
              Elapsed(events) == MadeAt(events)[call] + timeoutMs
  {
    RunIsRecorded(timeoutMs, events);
    SubscribersAreTheUnsettled(timeoutMs, events);
  }

  /**
   * Every call from its start: one that cannot be sent fails at once and for good, and any other ends
   * with its first answer.
   */
  lemma EveryCallEndsAsItShould(timeoutMs: nat, before: seq<Event>, request: Request, wsFails: bool, after: seq<Event>)
    requires IsRun(NewClient(timeoutMs), before)
    requires IsRun(Next(After(NewClient(timeoutMs), before), Start(request, wsFails)), after)
    ensures var c := After(NewClient(timeoutMs), before);
            var call := |Asked(before)|;
            OutcomeOf(After(Next(c, Start(request, wsFails)), after), call) ==
              if wsFails then Some(SendFailed) else FirstAnswer(request, call, after)
  {
    var c := After(NewClient(timeoutMs), before);
    var begun := Next(c, Start(request, wsFails));
    RunIsRecorded(timeoutMs, before);
    TidyStep(c, Start(request, wsFails));
    if wsFails {
      OutcomesNeverChange(begun, after, |c.calls|);
    } else {
      EachCallEndsWithItsFirstAnswer(begun, after, |c.calls|);
    }
  }

  // ----- Frames and who they settle -----

  ghost predicate DistinctClientIds(c: Client) {
    forall i, j :: 0 <= i < j < |c.calls| && c.calls[i].Send? && c.calls[j].Send? ==>
      c.calls[i].clientId != c.calls[j].clientId
  }

  /** With distinct client ids an echo settles no call but the one that sent it. */
  lemma EchoSettlesOneCall(c: Client, clientId: string, message: Wire, i: nat)
    requires Tidy(c) && DistinctClientIds(c) && i in c.listeners
    requires c.calls[i].Send? && c.calls[i].clientId == clientId
    ensures Deliver(c, MessageSent(Some(clientId), Some(message))) == Finish(c, i, Confirmed(message))
  {
    var f := MessageSent(Some(clientId), Some(message));
    var d := Deliver(c, f);
    assert forall j :: Replied(c, j, f) <==> j == i;
    assert (set j | j in c.listeners && Replied(c, j, f)) == {i};
    assert d.outcomes == c.outcomes[i := Confirmed(message)];
  }

  /**
   * An error frame names no call, so it fails every call in flight, whoever caused it. A frame
   * leaves a call waiting exactly when it is neither an error nor the call's own reply.
   */
  lemma ErrorFailsEveryCallInFlight(c: Client, text: string, i: nat)
    requires Tidy(c)
    ensures var d := Deliver(c, ErrorFrame(Some(text)));
            d.listeners == {} && d.timers == map[] &&
            (i in c.listeners ==> OutcomeOf(d, i) == Some(Rejected(text))) &&
            (i !in c.listeners ==> OutcomeOf(d, i) == OutcomeOf(c, i))
  {
    assert forall j :: j in c.listeners ==> Replied(c, j, ErrorFrame(Some(text)));
  }

  /** So a message the server accepted can be reported as failed because another one was not. */
  lemma ErrorForAnotherSend(c: Client, a: Request, b: Request, text: string, message: Wire)
    requires Tidy(c) && a.Send? && b.Send? && a.clientId != b.clientId
    ensures var both := Begin(Begin(c, a, false), b, false);
            var late := Deliver(Deliver(both, ErrorFrame(Some(text))), MessageSent(Some(a.clientId), Some(message)));
            OutcomeOf(late, |c.calls|) == Some(Rejected(text))
  {
    var both := Begin(Begin(c, a, false), b, false);
    TidyStep(c, Start(a, false));
    TidyStep(Begin(c, a, false), Start(b, false));
    ErrorFailsEveryCallInFlight(both, text, |c.calls|);
  }

  // ----- The live client -----

  class DmClient {
    var calls: seq<Request>
    var listeners: set<nat>
    var timers: map<nat, nat>
    var outcomes: map<nat, Outcome>
    var sent: seq<Request>
    var now: nat
    const timeoutMs: nat

    ghost function State(): Client
      reads this
    {
      Client(calls, listeners, timers, outcomes, sent, now, timeoutMs)
    }

    constructor (budget: Option<nat>)
      ensures State() == NewClient(budget.GetOr(8_000))
    {
      calls, listeners, timers, outcomes, sent, now := [], {}, map[], map[], [], 0;
      timeoutMs := budget.GetOr(DEFAULT_TIMEOUT_MS);
    }

    /** The `settled` flag: a call that has settled ignores any further attempt. */
    method FinishCall(call: nat, outcome: Outcome)
      requires Tidy(State())
      modifies this
      ensures State() == if call in old(outcomes) then old(State()) else Finish(old(State()), call, outcome)
    {
      if call in outcomes {
        return;
      }
      outcomes := outcomes[call := outcome];
      timers := timers - {call};
      listeners := listeners - {call};
    }

    method RunCall(request: Request, wsFails: bool) returns (call: nat)
      requires Tidy(State())
      modifies this
      ensures State() == Begin(old(State()), request, wsFails) && Tidy(State())
      ensures call == |old(calls)|
    {
      call := |calls|;
      calls := calls + [request];
      listeners := listeners + {call};
      timers := timers[call := now + timeoutMs];
      if wsFails {
        FinishCall(call, SendFailed);
      } else {
        sent := sent + [request];
      }
    }

    /** Every listener sees the frame, in any order. */
    method Emit(frame: Frame)
      requires Tidy(State())
      modifies this
      ensures State() == Deliver(old(State()), frame) && Tidy(State())
    {
      ghost var before := State();
      var todo := listeners;
      while todo != {}
        invariant todo <= listeners && Partly(before, State(), todo, frame)
        decreases |todo|
      {
        var i :| i in todo;
        PartlyMore(before, State(), todo, frame, i);
        var reply := Reply(calls[i], frame);
        if reply.Some? {
          FinishCall(i, reply.value);
        }
        todo := todo - {i};
      }
      DeliverIs(before, State(), frame);
    }
  }

  /** The frame has been shown to every listener but those still to do. */
  ghost predicate Partly(c: Client, d: Client, todo: set<nat>, frame: Frame) {
    Tidy(c) && Tidy(d) && d == c.(listeners := d.listeners, timers := d.timers, outcomes := d.outcomes) &&
    (forall i :: i in d.listeners <==> i in c.listeners && (i in todo || Reply(c.calls[i], frame).None?)) &&
    (forall i :: i in d.timers ==> i in c.timers && d.timers[i] == c.timers[i]) &&
    (forall i :: i in d.outcomes ==>
       d.outcomes[i] == if i in c.outcomes then c.outcomes[i] else Reply(c.calls[i], frame).value)
  }

  lemma PartlyMore(c: Client, d: Client, todo: set<nat>, frame: Frame, i: nat)
    requires Partly(c, d, todo, frame) && i in todo && i in d.listeners
    ensures Reply(c.calls[i], frame).None? ==> Partly(c, d, todo - {i}, frame)
    ensures Reply(c.calls[i], frame).Some? ==>
              Partly(c, Finish(d, i, Reply(c.calls[i], frame).value), todo - {i}, frame)
  {
  }

  lemma DeliveredListeners(c: Client, d: Client, frame: Frame)
    requires Partly(c, d, {}, frame)
    ensures d.listeners == Deliver(c, frame).listeners && d.timers == Deliver(c, frame).timers
  {
    var e := Deliver(c, frame);
    assert d.listeners == e.listeners;
    assert d.timers.Keys == e.timers.Keys;
  }

  lemma DeliveredOutcomes(c: Client, d: Client, frame: Frame)
    requires Partly(c, d, {}, frame)
    ensures d.outcomes == Deliver(c, frame).outcomes
  {
    var e := Deliver(c, frame);
    assert d.outcomes.Keys == e.outcomes.Keys;
  }

  lemma DeliverIs(c: Client, d: Client, frame: Frame)
    requires Partly(c, d, {}, frame)
    ensures d == Deliver(c, frame)
  {
    DeliveredListeners(c, d, frame);
    DeliveredOutcomes(c, d, frame);
  }
}
