/**
 * Challenges from one player to another: a store of requests with a life cycle, and two indexes of
 * the pending ones that the store keeps beside it.
 */
module FightRequests {
  import opened Common

  type Wallet = string
  type RequestId = string

  const TTL_MS := 90_000
  const MESSAGE_MAX := 280
  const MIN_STAKE_MIST := 100_000_000
  const MAX_PENDING_PER_SENDER := 5

  datatype RequestType = Friendly | WagerRequest | OtherType
  datatype Status = Pending | Accepted | Declined | Canceled | Expired

  /** The stake field of a message: missing or empty, not a number, or an amount. */
  datatype StakeField = Absent | Malformed | Amount(mist: int)

  datatype Request = Request(
    requestType: RequestType, fromWallet: Wallet, toWallet: Wallet, stake: StakeField, message: Option<string>,
    status: Status, expiresAt: nat, resolvedAt: Option<nat>, createdAt: nat)

  // ----- Decisions -----

  datatype CreateInput = CreateInput(
    requestType: RequestType, fromWallet: Wallet, toWallet: Wallet, stake: StakeField, message: Option<string>)

  datatype CreateRejection =
    | SelfTarget | InvalidTarget | InvalidStake | MessageTooLong | OverLimit | DuplicatePending | InvalidRequestType

  predicate IsAddress(w: Wallet) {
    "0x" <= w
  }

  function EvaluateCreate(input: CreateInput, pendingFromSender: nat, hasDuplicate: bool): Option<CreateRejection> {
    var from, to := Lower(input.fromWallet), Lower(input.toWallet);
    if input.requestType.OtherType? then Some(InvalidRequestType)
    else if !IsAddress(from) || !IsAddress(to) then Some(InvalidTarget)
    else if from == to then Some(SelfTarget)
    else if input.message.Some? && |input.message.value| > MESSAGE_MAX then Some(MessageTooLong)
    else if input.requestType.WagerRequest? && (!input.stake.Amount? || input.stake.mist < MIN_STAKE_MIST)
    then Some(InvalidStake)
    else if pendingFromSender >= MAX_PENDING_PER_SENDER then Some(OverLimit)
    else if hasDuplicate then Some(DuplicatePending)
    else None
  }

  datatype Action = Accept | Decline | Cancel | Expire

  datatype TransitionRejection = NotFound | NotPending | NotAuthorized | TooLate

  function NextStatus(action: Action): Status {
    match action
    case Accept => Accepted
    case Decline => Declined
    case Cancel => Canceled
    case Expire => Expired
  }

  predicate Authorized(r: Request, action: Action, actor: Option<Wallet>) {
    match action
    case Expire => true
    case Cancel => actor.Some? && actor.value != "" && Lower(actor.value) == Lower(r.fromWallet)
    case _ => actor.Some? && actor.value != "" && Lower(actor.value) == Lower(r.toWallet)
  }

  function EvaluateTransition(r: Option<Request>, action: Action, actor: Option<Wallet>, now: nat)
    : Result<Status, TransitionRejection>
  {
    if r.None? then Err(NotFound)
    else if r.value.status != Pending then Err(NotPending)
    else if now > r.value.expiresAt && action != Expire then Err(TooLate)
    else if !Authorized(r.value, action, actor) then Err(NotAuthorized)
    else Ok(NextStatus(action))
  }

  // ----- The store by itself, without indexes -----

  type Requests = map<RequestId, Request>

  predicate IsPending(m: Requests, id: RequestId) {
    id in m && m[id].status == Pending
  }

  function PendingFrom(m: Requests, w: Wallet): set<RequestId> {
    set id | id in m && m[id].status == Pending && m[id].fromWallet == w
  }

  function PendingTo(m: Requests, w: Wallet): set<RequestId> {
    set id | id in m && m[id].status == Pending && m[id].toWallet == w
  }

  predicate HasDuplicate(m: Requests, from: Wallet, to: Wallet) {
    exists id :: id in PendingFrom(m, from) && Lower(m[id].toWallet) == Lower(to)
  }

  /** Why a request is refused, found by looking through the whole store. */
  function Refusal(m: Requests, input: CreateInput): Option<CreateRejection> {
    var from, to := Lower(input.fromWallet), Lower(input.toWallet);
    EvaluateCreate(input.(fromWallet := from, toWallet := to), |PendingFrom(m, from)|, HasDuplicate(m, from, to))
  }

  function NewRequest(input: CreateInput, now: nat): Request {
    Request(input.requestType, Lower(input.fromWallet), Lower(input.toWallet),
            if input.requestType.WagerRequest? then input.stake else Absent, input.message, Pending,
            now + TTL_MS, None, now)
  }

  function Create(m: Requests, input: CreateInput, id: RequestId, now: nat): Requests {
    if Refusal(m, input).Some? then m else m[id := NewRequest(input, now)]
  }

  function Find(m: Requests, id: RequestId): Option<Request> {
    if id in m then Some(m[id]) else None
  }

  function Resolve(r: Request, status: Status, now: nat): Request {
    r.(status := status, resolvedAt := Some(now))
  }

  function Transition(m: Requests, id: RequestId, action: Action, actor: Option<Wallet>, now: nat): Requests {
    match EvaluateTransition(Find(m, id), action, actor, now)
    case Ok(status) => m[id := Resolve(m[id], status, now)]
    case Err(_) => m
  }

  predicate Overdue(m: Requests, id: RequestId, now: nat) {
    IsPending(m, id) && now > m[id].expiresAt
  }

  function Sweep(m: Requests, now: nat): Requests {
    map id | id in m :: if Overdue(m, id, now) then Resolve(m[id], Expired, now) else m[id]
  }

  // ----- Every run -----

  datatype Event =
    | Creates(input: CreateInput, id: RequestId, now: nat)
    | Transitions(id: RequestId, action: Action, actor: Option<Wallet>, now: nat)
    | Sweeps(now: nat)

  /** Request ids are never issued twice. */
  predicate Fresh(m: Requests, e: Event) {
    e.Creates? ==> e.id !in m
  }

  function Next(m: Requests, e: Event): Requests {
    match e
    case Creates(input, id, now) => Create(m, input, id, now)
    case Transitions(id, action, actor, now) => Transition(m, id, action, actor, now)
    case Sweeps(now) => Sweep(m, now)
  }

  function Run(m: Requests, events: seq<Event>): Requests {
    if events == [] then m else Next(Run(m, events[..|events| - 1]), events[|events| - 1])
  }

  predicate AllFresh(m: Requests, events: seq<Event>) {
    events == [] ||
    (AllFresh(m, events[..|events| - 1]) && Fresh(Run(m, events[..|events| - 1]), events[|events| - 1]))
  }

  predicate SamePair(r: Request, s: Request) {
    r.fromWallet == s.fromWallet && r.toWallet == s.toWallet
  }

  /** At most five pending per sender, at most one per pair, between distinct lower-case addresses. */
  ghost predicate Limited(m: Requests) {
    (forall w :: |PendingFrom(m, w)| <= 5) &&
    (forall i, j :: IsPending(m, i) && IsPending(m, j) && SamePair(m[i], m[j]) ==> i == j) &&
    (forall id :: id in m ==> Proper(m[id]))
  }

  /** What is true of a request from its creation on, whatever becomes of it. */
  predicate Proper(r: Request) {
    Lower(r.fromWallet) == r.fromWallet && Lower(r.toWallet) == r.toWallet && r.fromWallet != r.toWallet &&
    IsAddress(r.fromWallet) && IsAddress(r.toWallet) && !r.requestType.OtherType? &&
    (r.message.Some? ==> |r.message.value| <= 280) &&
    (r.requestType.WagerRequest? ==> r.stake.Amount? && r.stake.mist >= 100_000_000) &&
    r.expiresAt == r.createdAt + 90_000 && (r.status == Pending <==> r.resolvedAt.None?) &&
    (r.status == Accepted || r.status == Declined || r.status == Canceled ==> r.resolvedAt.value <= r.expiresAt)
  }

  lemma LowerIdempotent(s: string)
    ensures Lower(Lower(s)) == Lower(s)
  {
    forall i | 0 <= i < |s| ensures Lower(Lower(s))[i] == Lower(s)[i] {
      assert Lower(s)[i] == ToLower(s[i]);
    }
  }

  lemma SubsetCard(a: set<RequestId>, b: set<RequestId>)
    requires a <= b
    ensures |a| <= |b|
  {
    assert b == a + (b - a);
  }

  /** Nothing new is pending: the limits carry over. */
  lemma FewerPending(m: Requests, n: Requests)
    requires Limited(m) && (forall id :: id in n ==> id in m && Proper(n[id]))
    requires forall id :: IsPending(n, id) ==> IsPending(m, id) && n[id] == m[id]
    ensures Limited(n)
  {
    forall w ensures |PendingFrom(n, w)| <= MAX_PENDING_PER_SENDER {
      forall id | id in PendingFrom(n, w) ensures id in PendingFrom(m, w) { assert IsPending(n, id); }
      SubsetCard(PendingFrom(n, w), PendingFrom(m, w));
    }
  }

  /** A pending request is in its own sender's and its own target's set, and adds nothing elsewhere. */
  lemma PendingWithout(m: Requests, id: RequestId, w: Wallet)
    requires IsPending(m, id)
    ensures PendingFrom(m, w) == PendingFrom(m - {id}, w) + (if w == m[id].fromWallet then {id} else {})
    ensures PendingTo(m, w) == PendingTo(m - {id}, w) + (if w == m[id].toWallet then {id} else {})
  {
  }

  lemma ResolvedLeavesPending(m: Requests, id: RequestId, r: Request, w: Wallet)
    requires IsPending(m, id) && r.status != Pending
    ensures PendingFrom(m[id := r], w) == PendingFrom(m, w) - (if w == m[id].fromWallet then {id} else {})
    ensures PendingTo(m[id := r], w) == PendingTo(m, w) - (if w == m[id].toWallet then {id} else {})
  {
  }

  lemma NewIsProper(m: Requests, input: CreateInput, now: nat)
    requires Refusal(m, input).None?
    ensures Proper(NewRequest(input, now))
  {
    LowerIdempotent(input.fromWallet);
    LowerIdempotent(input.toWallet);
  }

  lemma NewPairIsNew(m: Requests, input: CreateInput, now: nat, i: RequestId)
    requires Limited(m) && Refusal(m, input).None? && IsPending(m, i)
    ensures !SamePair(m[i], NewRequest(input, now))
  {
    var from, to := Lower(input.fromWallet), Lower(input.toWallet);
    assert !HasDuplicate(m, from, to);
    if m[i].fromWallet == from {
      assert i in PendingFrom(m, from);
    }
  }

  lemma BelowLimit(m: Requests, input: CreateInput)
    requires Refusal(m, input).None?
    ensures |PendingFrom(m, Lower(input.fromWallet))| < MAX_PENDING_PER_SENDER
  {
  }

  lemma PendingAdded(m: Requests, id: RequestId, r: Request, w: Wallet)
    requires id !in m && r.status == Pending
    ensures |PendingFrom(m[id := r], w)| == |PendingFrom(m, w)| + if w == r.fromWallet then 1 else 0
  {
    assert PendingFrom(m[id := r], w) == PendingFrom(m, w) + if w == r.fromWallet then {id} else {};
  }

  lemma NewFitsLimit(m: Requests, input: CreateInput, id: RequestId, now: nat, w: Wallet)
    requires Limited(m) && Refusal(m, input).None? && id !in m
    ensures |PendingFrom(m[id := NewRequest(input, now)], w)| <= MAX_PENDING_PER_SENDER
  {
    BelowLimit(m, input);
    PendingAdded(m, id, NewRequest(input, now), w);
  }

  lemma CreateKeepsLimits(m: Requests, input: CreateInput, id: RequestId, now: nat)
    requires Limited(m) && id !in m
    ensures Limited(Create(m, input, id, now))
  {
    if Refusal(m, input).None? {
      var n := Create(m, input, id, now);
      NewIsProper(m, input, now);
      forall w ensures |PendingFrom(n, w)| <= MAX_PENDING_PER_SENDER { NewFitsLimit(m, input, id, now, w); }
      forall i | IsPending(m, i) ensures !SamePair(n[i], n[id]) && !SamePair(n[id], n[i]) {
        NewPairIsNew(m, input, now, i);
      }
    }
  }

  lemma StepKeepsLimits(m: Requests, e: Event)
    requires Limited(m) && Fresh(m, e)
    ensures Limited(Next(m, e))
  {
    match e
    case Creates(input, id, now) => CreateKeepsLimits(m, input, id, now);
    case Transitions(id, action, actor, now) => FewerPending(m, Next(m, e));
    case Sweeps(now) => FewerPending(m, Next(m, e));
  }

  /** In every run a sender never exceeds its limits, and nobody's deadline is ever overrun by an answer. */
  lemma {:induction false} RunKeepsLimits(m: Requests, events: seq<Event>)
    requires Limited(m) && AllFresh(m, events)
    ensures Limited(Run(m, events))
    decreases |events|
  {
    if events != [] {
      RunKeepsLimits(m, events[..|events| - 1]);
      StepKeepsLimits(Run(m, events[..|events| - 1]), events[|events| - 1]);
    }
  }

  /** A request that has been answered, withdrawn or expired never changes again. */
  lemma {:induction false} ResolvedForever(m: Requests, events: seq<Event>, id: RequestId)
    requires id in m && m[id].status != Pending && AllFresh(m, events)
    ensures id in Run(m, events) && Run(m, events)[id] == m[id]
    decreases |events|
  {
    if events != [] {
      ResolvedForever(m, events[..|events| - 1], id);
    }
  }

  /** What a request asks never changes: only its status and the time it was resolved do. */
  lemma {:induction false} TermsNeverChange(m: Requests, events: seq<Event>, id: RequestId)
    requires id in m && AllFresh(m, events)
    ensures id in Run(m, events) &&
            Run(m, events)[id].(status := m[id].status, resolvedAt := m[id].resolvedAt) == m[id]
    decreases |events|
  {
    if events != [] {
      TermsNeverChange(m, events[..|events| - 1], id);
    }
  }

  /** Requests of the sender still waiting for an answer, and those of them to the given target. */
  predicate WaitsFrom(m: Requests, id: RequestId, from: Wallet) {
    id in m && m[id].status == Pending && m[id].fromWallet == from
  }

  /**
   * A request is taken exactly if it is friendly or a wager, between two different wallets whose addresses
   * start with 0x, with a message of at most 280 characters, a wager with at least 0.1 SUI; and if fewer
   * than five of the sender's requests wait, none of them for the same target.
   */
  lemma TakenExactly(m: Requests, input: CreateInput)
    ensures var from, to := Lower(input.fromWallet), Lower(input.toWallet);
            Refusal(m, input).None? <==>
              !input.requestType.OtherType? && "0x" <= from && "0x" <= to && from != to &&
              (input.message.Some? ==> |input.message.value| <= 280) &&
              (input.requestType.WagerRequest? ==> input.stake.Amount? && input.stake.mist >= 100_000_000) &&
              |set id | id in m && WaitsFrom(m, id, from)| < 5 &&
              !exists id :: WaitsFrom(m, id, from) && Lower(m[id].toWallet) == to
  {
    var from, to := Lower(input.fromWallet), Lower(input.toWallet);
    LowerIdempotent(input.fromWallet);
    LowerIdempotent(input.toWallet);
    assert (set id | id in m && WaitsFrom(m, id, from)) == PendingFrom(m, from);
    assert forall id :: id in PendingFrom(m, from) <==> WaitsFrom(m, id, from);
  }

  /** What a refused sender is told: the first of these that is wrong. */
  lemma RefusedBecause(m: Requests, input: CreateInput)
    ensures var from, to := Lower(input.fromWallet), Lower(input.toWallet);
            var r := Refusal(m, input);
            var addressed := !input.requestType.OtherType? && "0x" <= from && "0x" <= to;
            var long := input.message.Some? && |input.message.value| > 280;
            var poor := input.requestType.WagerRequest? && (!input.stake.Amount? || input.stake.mist < 100_000_000);
            var fine := addressed && from != to && !long && !poor;
            (r == Some(InvalidRequestType) <==> input.requestType.OtherType?) &&
            (r == Some(InvalidTarget) <==> !input.requestType.OtherType? && !addressed) &&
            (r == Some(SelfTarget) <==> addressed && from == to) &&
            (r == Some(MessageTooLong) <==> addressed && from != to && long) &&
            (r == Some(InvalidStake) <==> addressed && from != to && !long && poor) &&
            (r == Some(OverLimit) <==> fine && |PendingFrom(m, from)| >= 5) &&
            (r == Some(DuplicatePending) <==> fine && |PendingFrom(m, from)| < 5 && HasDuplicate(m, from, to))
  {
    LowerIdempotent(input.fromWallet);
    LowerIdempotent(input.toWallet);
  }

  /** What is kept of a request that is taken: who asks whom for what, from now for ninety seconds. */
  lemma TakenIsKept(m: Requests, input: CreateInput, id: RequestId, now: nat)
    requires id !in m && Refusal(m, input).None?
    ensures var after := Create(m, input, id, now);
            after.Keys == m.Keys + {id} && (forall other :: other in m ==> after[other] == m[other]) &&
            after[id].requestType == input.requestType && after[id].fromWallet == Lower(input.fromWallet) &&
            after[id].toWallet == Lower(input.toWallet) && after[id].message == input.message &&
            after[id].stake == (if input.requestType.WagerRequest? then input.stake else Absent) &&
            after[id].status == Pending && after[id].createdAt == now && after[id].expiresAt == now + 90_000
  {
  }

  /** What a failed answer is told: no such request, no longer waiting, too late, or not theirs to give. */
  lemma AnswerFailsBecause(m: Requests, id: RequestId, action: Action, actor: Option<Wallet>, now: nat)
    ensures var r := EvaluateTransition(Find(m, id), action, actor, now);
            var waits := id in m && m[id].status == Pending;
            var late := waits && action != Expire && now > m[id].expiresAt;
            (r == Err(NotFound) <==> id !in m) && (r == Err(NotPending) <==> id in m && !waits) &&
            (r == Err(TooLate) <==> late) &&
            (r == Err(NotAuthorized) <==> waits && !late && !MayAct(m[id], action, actor))
  {
  }

  /** The target accepts and declines, the sender cancels, and nobody in particular expires. */
  predicate MayAct(r: Request, action: Action, actor: Option<Wallet>) {
    action == Expire ||
    (actor.Some? && actor.value != "" &&
     Lower(actor.value) == Lower(if action == Cancel then r.fromWallet else r.toWallet))
  }

  /**
   * Only the two wallets named in a request, each in its own role, can answer or withdraw it, and its
   * status then tells which of them did what and when.
   */
  lemma OnlyThePartiesDecide(m: Requests, id: RequestId, action: Action, actor: Option<Wallet>, now: nat)
    requires id in m
    ensures Transition(m, id, action, actor, now) != m <==>
              m[id].status == Pending && Authorized(m[id], action, actor) &&
              (action == Expire || now <= m[id].expiresAt)
    ensures var after := Transition(m, id, action, actor, now);
            after != m ==>
              after == m[id := after[id]] && after[id].resolvedAt == Some(now) &&
              (after[id].status == Accepted <==> action == Accept) &&
              (after[id].status == Declined <==> action == Decline) &&
              (after[id].status == Canceled <==> action == Cancel) &&
              (after[id].status == Expired <==> action == Expire)
  {
    if EvaluateTransition(Find(m, id), action, actor, now).Ok? {
      assert Transition(m, id, action, actor, now)[id].status != Pending;
    }
  }

  /** The event resolves the pending request to the given outcome, by right of its party or of time. */
  ghost predicate Decides(m: Requests, e: Event, id: RequestId, after: Request) {
    IsPending(m, id) &&
    match e
    case Creates(_, _, _) => false
    case Transitions(other, action, actor, now) =>
      other == id && Authorized(m[id], action, actor) && (action == Expire || now <= m[id].expiresAt) &&
      after == Resolve(m[id], NextStatus(action), now)
    case Sweeps(now) => now > m[id].expiresAt && after == Resolve(m[id], Expired, now)
  }

  lemma StepDecides(m: Requests, e: Event, id: RequestId)
    requires Fresh(m, e) && id in Next(m, e) && Next(m, e)[id].status != Pending && (id in m ==> IsPending(m, id))
    ensures Decides(m, e, id, Next(m, e)[id])
  {
    match e
    case Creates(_, _, _) =>
    case Transitions(other, action, actor, now) =>
      if other in m { OnlyThePartiesDecide(m, other, action, actor, now); }
    case Sweeps(now) =>
  }

  ghost predicate DecidesAt(m: Requests, events: seq<Event>, k: nat, id: RequestId, after: Request)
    requires k < |events|
  {
    Decides(Run(m, events[..k]), events[k], id, after)
  }

  lemma DecidesEarlier(m: Requests, events: seq<Event>, k: nat, id: RequestId, after: Request)
    requires events != [] && k < |events| - 1
    ensures DecidesAt(m, events, k, id, after) == DecidesAt(m, events[..|events| - 1], k, id, after)
  {
    assert events[..|events| - 1][..k] == events[..k];
  }

  /**
   * Over any run, a request that ends up resolved was resolved by one event that had the right to: the
   * target accepted or declined it in time, the sender withdrew it in time, or it expired. Its final
   * status and time are that event's.
   */
  lemma {:induction false} EveryOutcomeWasDecided(m: Requests, events: seq<Event>, id: RequestId)
    requires AllFresh(m, events) && (id in m ==> m[id].status == Pending)
    requires id in Run(m, events) && Run(m, events)[id].status != Pending
    ensures exists k: nat :: k < |events| && DecidesAt(m, events, k, id, Run(m, events)[id])
    decreases |events|
  {
    assert events != [];
    var init, e := events[..|events| - 1], events[|events| - 1];
    var before := Run(m, init);
    if id in before && before[id].status != Pending {
      EveryOutcomeWasDecided(m, init, id);
      var k: nat :| k < |init| && DecidesAt(m, init, k, id, before[id]);
      DecidesEarlier(m, events, k, id, before[id]);
      StaysResolved(before, e, id);
    } else {
      StepDecides(before, e, id);
      assert DecidesAt(m, events, |events| - 1, id, Run(m, events)[id]);
    }
  }

  lemma StaysResolved(m: Requests, e: Event, id: RequestId)
    requires Fresh(m, e) && id in m && m[id].status != Pending
    ensures id in Next(m, e) && Next(m, e)[id] == m[id]
  {
  }

  // ----- The live store and its indexes -----

  /** The requests of the set, each once, the oldest first. */
  ghost predicate OldestFirst(m: Requests, listed: seq<RequestId>, which: set<RequestId>) {
    NoDup(listed) && (forall id :: id in listed <==> id in which) && ByAge(m, listed)
  }

  ghost predicate ByAge(m: Requests, listed: seq<RequestId>) {
    (forall id :: id in listed ==> id in m) &&
    forall i, j :: 0 <= i < j < |listed| ==> m[listed[i]].createdAt <= m[listed[j]].createdAt
  }

  function InsertByAge(m: Requests, listed: seq<RequestId>, id: RequestId): (r: seq<RequestId>)
    requires id in m && forall i :: i in listed ==> i in m
    ensures multiset(r) == multiset(listed) + multiset{id}
    ensures forall i :: i in r <==> i in listed || i == id
  {
    if listed == [] then [id]
    else
      var last := |listed| - 1;
      assert listed == listed[..last] + [listed[last]];
      if m[listed[last]].createdAt <= m[id].createdAt then listed + [id]
      else InsertByAge(m, listed[..last], id) + [listed[last]]
  }

  /** Stable: of two requests of the same age, the earlier one stays in front. */
  function SortByAge(m: Requests, listed: seq<RequestId>): (r: seq<RequestId>)
    requires forall id :: id in listed ==> id in m
    ensures multiset(r) == multiset(listed) && forall id :: id in r <==> id in listed
  {
    if listed == [] then []
    else
      var last := |listed| - 1;
      assert listed == listed[..last] + [listed[last]];
      InsertByAge(m, SortByAge(m, listed[..last]), listed[last])
  }

  lemma ByAgeSnoc(m: Requests, listed: seq<RequestId>, last: RequestId)
    requires ByAge(m, listed) && last in m
    requires forall id :: id in listed ==> m[id].createdAt <= m[last].createdAt
    ensures ByAge(m, listed + [last])
  {
  }

  lemma {:induction false} InsertKeepsAge(m: Requests, listed: seq<RequestId>, id: RequestId)
    requires id in m && ByAge(m, listed)
    ensures ByAge(m, InsertByAge(m, listed, id))
    decreases |listed|
  {
    if listed != [] {
      var init, last := listed[..|listed| - 1], listed[|listed| - 1];
      assert ByAge(m, init);
      if m[last].createdAt <= m[id].createdAt {
        ByAgeSnoc(m, listed, id);
      } else {
        InsertKeepsAge(m, init, id);
        ByAgeSnoc(m, InsertByAge(m, init, id), last);
      }
    }
  }

  lemma {:induction false} SortIsByAge(m: Requests, listed: seq<RequestId>)
    requires forall id :: id in listed ==> id in m
    ensures ByAge(m, SortByAge(m, listed))
    decreases |listed|
  {
    if listed != [] {
      var init := listed[..|listed| - 1];
      SortIsByAge(m, init);
      InsertKeepsAge(m, SortByAge(m, init), listed[|listed| - 1]);
    }
  }

  lemma SortedByAge(m: Requests, listed: seq<RequestId>)
    requires NoDup(listed) && forall id :: id in listed ==> id in m
    ensures OldestFirst(m, SortByAge(m, listed), set id | id in listed)
  {
    SortIsByAge(m, listed);
    PermutationNoDup(listed, SortByAge(m, listed));
  }

  lemma {:induction false} OnceIfNoDup(ids: seq<RequestId>, id: RequestId)
    requires NoDup(ids)
    ensures multiset(ids)[id] <= 1
    decreases |ids|
  {
    if ids != [] {
      var init, last := ids[..|ids| - 1], ids[|ids| - 1];
      assert ids == init + [last];
      OnceIfNoDup(init, id);
      assert last !in init;
    }
  }

  lemma PermutationNoDup(a: seq<RequestId>, b: seq<RequestId>)
    requires NoDup(a) && multiset(a) == multiset(b)
    ensures NoDup(b)
  {
    forall i, j | 0 <= i < j < |b| ensures b[i] != b[j] {
      OnceIfNoDup(a, b[i]);
      assert b == b[..i] + [b[i]] + b[i + 1..j] + [b[j]] + b[j + 1..];
    }
  }

  lemma {:induction false} ListLength(m: Requests, listed: seq<RequestId>, which: set<RequestId>)
    requires NoDup(listed) && forall id :: id in listed <==> id in which
    ensures |listed| == |which|
    decreases |listed|
  {
    if listed == [] {
      assert which == {};
    } else {
      var init, last := listed[..|listed| - 1], listed[|listed| - 1];
      assert listed == init + [last];
      assert which == (which - {last}) + {last};
      ListLength(m, init, which - {last});
    }
  }

  // ----- One step of a sweep -----

  /** After a sweep nothing overdue is pending, and nothing else has changed. */
  lemma SweptClean(m: Requests, now: nat, id: RequestId)
    requires id in m
    ensures !Overdue(Sweep(m, now), id, now)
    ensures Sweep(m, now)[id] != m[id] <==> Overdue(m, id, now)
  {
  }

  /** All but the given requests have been swept. */
  ghost predicate SweptBut(before: Requests, m: Requests, todo: set<RequestId>, now: nat) {
    todo <= before.Keys && m.Keys == before.Keys &&
    forall id :: id in before ==> m[id] == if id in todo then before[id] else Sweep(before, now)[id]
  }

  ghost predicate Reported(before: Requests, expired: seq<RequestId>, todo: set<RequestId>, now: nat) {
    NoDup(expired) && forall id :: id in expired <==> id !in todo && Overdue(before, id, now)
  }

  lemma SweepsOne(before: Requests, m: Requests, todo: set<RequestId>, id: RequestId, now: nat)
    requires SweptBut(before, m, todo, now) && id in todo
    ensures SweptBut(before, if Overdue(before, id, now) then Transition(m, id, Expire, None, now) else m,
                     todo - {id}, now)
    ensures Overdue(m, id, now) <==> Overdue(before, id, now)
  {
  }

  lemma ReportsOne(before: Requests, expired: seq<RequestId>, todo: set<RequestId>, id: RequestId, now: nat)
    requires Reported(before, expired, todo, now) && id in todo
    ensures Reported(before, if Overdue(before, id, now) then expired + [id] else expired, todo - {id}, now)
  {
  }

  type Index = map<Wallet, set<RequestId>>

  function At(index: Index, w: Wallet): set<RequestId> {
    if w in index then index[w] else {}
  }

  class FightRequestStore {
    var requestsById: Requests
    var pendingByTarget: Index
    var pendingBySender: Index

    /** Both indexes are what a filter of the store would give. */
    ghost predicate Valid()
      reads this
    {
      (forall w :: At(pendingByTarget, w) == PendingTo(requestsById, w)) &&
      (forall w :: At(pendingBySender, w) == PendingFrom(requestsById, w))
    }

    constructor ()
      ensures Valid() && requestsById == map[] && Limited(requestsById)
    {
      requestsById, pendingByTarget, pendingBySender := map[], map[], map[];
    }

    method IndexInsert(id: RequestId)
      requires id in requestsById && requestsById[id].status == Pending
      requires forall w :: At(pendingByTarget, w) == PendingTo(requestsById - {id}, w)
      requires forall w :: At(pendingBySender, w) == PendingFrom(requestsById - {id}, w)
      modifies this`pendingByTarget, this`pendingBySender
      ensures Valid()
    {
      var r := requestsById[id];
      pendingByTarget := pendingByTarget[r.toWallet := At(pendingByTarget, r.toWallet) + {id}];
      pendingBySender := pendingBySender[r.fromWallet := At(pendingBySender, r.fromWallet) + {id}];
      forall w ensures PendingFrom(requestsById, w) == At(pendingBySender, w)
               ensures PendingTo(requestsById, w) == At(pendingByTarget, w) {
        PendingWithout(requestsById, id, w);
      }
    }

    method IndexRemove(id: RequestId, r: Request)
      modifies this`pendingByTarget, this`pendingBySender
      ensures forall w :: At(pendingByTarget, w) ==
                          At(old(pendingByTarget), w) - (if w == r.toWallet then {id} else {})
      ensures forall w :: At(pendingBySender, w) ==
                          At(old(pendingBySender), w) - (if w == r.fromWallet then {id} else {})
    {
      if r.toWallet in pendingByTarget {
        pendingByTarget := pendingByTarget[r.toWallet := pendingByTarget[r.toWallet] - {id}];
      }
      if r.fromWallet in pendingBySender {
        pendingBySender := pendingBySender[r.fromWallet := pendingBySender[r.fromWallet] - {id}];
      }
    }

    /** The pending ones among the ids, oldest first. */
    method PendingAmong(ids: set<RequestId>) returns (listed: seq<RequestId>)
      ensures OldestFirst(requestsById, listed, set id | id in ids && IsPending(requestsById, id))
    {
      listed := [];
      var todo := ids;
      while todo != {}
        invariant todo <= ids && NoDup(listed)
        invariant forall id :: id in listed <==> id in ids && id !in todo && IsPending(requestsById, id)
        decreases |todo|
      {
        var id :| id in todo;
        if id in requestsById && requestsById[id].status == Pending {
          listed := listed + [id];
        }
        todo := todo - {id};
      }
      SortedByAge(requestsById, listed);
      listed := SortByAge(requestsById, listed);
    }

    method GetPendingFromSender(w: Wallet) returns (listed: seq<RequestId>)
      requires Valid()
      ensures OldestFirst(requestsById, listed, PendingFrom(requestsById, w))
    {
      listed := PendingAmong(At(pendingBySender, w));
      assert (set id | id in At(pendingBySender, w) && IsPending(requestsById, id)) == PendingFrom(requestsById, w);
    }

    method GetPendingForTarget(w: Wallet) returns (listed: seq<RequestId>)
      requires Valid()
      ensures OldestFirst(requestsById, listed, PendingTo(requestsById, w))
    {
      listed := PendingAmong(At(pendingByTarget, w));
      assert (set id | id in At(pendingByTarget, w) && IsPending(requestsById, id)) == PendingTo(requestsById, w);
    }

    /** Decided from the indexes, with the outcome a search of the whole store would give. */
    method CreateRequest(input: CreateInput, newId: RequestId, now: nat) returns (r: Result<RequestId, CreateRejection>)
      requires Valid() && newId !in requestsById
      modifies this
      ensures Valid() && requestsById == Create(old(requestsById), input, newId, now)
      ensures r == match Refusal(old(requestsById), input) case None => Ok(newId) case Some(why) => Err(why)
    {
      var from, to := Lower(input.fromWallet), Lower(input.toWallet);
      var pending := GetPendingFromSender(from);
      var duplicate := exists id :: id in pending && Lower(requestsById[id].toWallet) == Lower(to);
      ListLength(requestsById, pending, PendingFrom(requestsById, from));
      var refusal := EvaluateCreate(input.(fromWallet := from, toWallet := to), |pending|, duplicate);
      if refusal.Some? {
        return Err(refusal.value);
      }
      ghost var before := requestsById;
      requestsById := requestsById[newId := NewRequest(input, now)];
      assert requestsById - {newId} == before;
      IndexInsert(newId);
      return Ok(newId);
    }

    method TransitionRequest(id: RequestId, action: Action, actor: Option<Wallet>, now: nat)
      returns (r: Result<Status, TransitionRejection>)
      requires Valid()
      modifies this
      ensures Valid() && requestsById == Transition(old(requestsById), id, action, actor, now)
      ensures r == EvaluateTransition(Find(old(requestsById), id), action, actor, now)
    {
      r := EvaluateTransition(Find(requestsById, id), action, actor, now);
      if r.Err? {
        return;
      }
      var req := requestsById[id];
      ghost var before := requestsById;
      requestsById := requestsById[id := Resolve(req, r.value, now)];
      IndexRemove(id, req);
      forall w ensures At(pendingByTarget, w) == PendingTo(requestsById, w)
               ensures At(pendingBySender, w) == PendingFrom(requestsById, w) {
        ResolvedLeavesPending(before, id, requestsById[id], w);
      }
    }

    /** Expires exactly the overdue requests, each reported once. */
    method SweepExpired(now: nat) returns (expired: seq<RequestId>)
      requires Valid()
      modifies this
      ensures Valid() && requestsById == Sweep(old(requestsById), now)
      ensures NoDup(expired) && forall id :: id in expired <==> Overdue(old(requestsById), id, now)
      ensures forall id :: id in requestsById ==>
                !Overdue(requestsById, id, now) && (requestsById[id] != old(requestsById)[id] <==> id in expired)
    {
      ghost var before := requestsById;
      var todo := requestsById.Keys;
      expired := [];
      while todo != {}
        invariant Valid() && SweptBut(before, requestsById, todo, now) && Reported(before, expired, todo, now)
        decreases |todo|
      {
        var id :| id in todo;
        SweepsOne(before, requestsById, todo, id, now);
        ReportsOne(before, expired, todo, id, now);
        if requestsById[id].status == Pending && now > requestsById[id].expiresAt {
          var r := TransitionRequest(id, Expire, None, now);
          expired := expired + [id];
        }
        todo := todo - {id};
      }
      assert requestsById == Sweep(before, now);
      forall id | id in before
        ensures !Overdue(requestsById, id, now) && (requestsById[id] != before[id] <==> id in expired)
      {
        SweptClean(before, now, id);
      }
    }
  }
}
