/**
 * Every wager, account and registry entry on chain together, over whole runs of calls by anyone.
 */
module ArenaWorld {
  import opened Common
  import opened Arena

  datatype World = World(
    balances: map<Address, nat>, wagers: map<nat, Wager>, registry: map<Address, nat>, nextId: nat, now: nat)

  /** Any transaction, or time passing. */
  datatype Call =
    | Create(sender: Address, stake: nat, character: Character)
    | On(id: nat, sender: Address, action: Action)
    | Wait(ms: nat)

  function Balance(balances: map<Address, nat>, a: Address): nat {
    if a in balances then balances[a] else 0
  }

  function Credit(balances: map<Address, nat>, payouts: seq<Payout>): map<Address, nat>
    decreases |payouts|
  {
    if payouts == [] then balances
    else Credit(balances[payouts[0].to := Balance(balances, payouts[0].to) + payouts[0].amount], payouts[1..])
  }

  function Debit(balances: map<Address, nat>, a: Address, amount: nat): map<Address, nat>
    requires amount <= Balance(balances, a)
  {
    balances[a := Balance(balances, a) - amount]
  }

  /** The call goes through: the sender owns the coin it stakes and no guard aborts. */
  predicate Succeeds(w: World, call: Call) {
    match call
    case Create(sender, stake, character) =>
      stake <= Balance(w.balances, sender) &&
      CreateWager(sender, stake, character, sender in w.registry, w.now).Ok?
    case On(id, sender, action) =>
      id in w.wagers && Deposit(action) <= Balance(w.balances, sender) &&
      Act(w.wagers[id], action, sender, sender in w.registry, w.now).Ok?
    case Wait(_) => true
  }

  function EffectOf(w: World, call: Call): Effect
    requires call.On? && Succeeds(w, call)
  {
    Act(w.wagers[call.id], call.action, call.sender, call.sender in w.registry, w.now).value
  }

  /** A transaction that aborts changes nothing. */
  function Step(w: World, call: Call): World {
    if !Succeeds(w, call) then w
    else
      match call
      case Create(sender, stake, character) =>
        w.(balances := Debit(w.balances, sender, stake),
           wagers := w.wagers[w.nextId := CreateWager(sender, stake, character, false, w.now).value],
           registry := w.registry[sender := w.nextId], nextId := w.nextId + 1)
      case On(id, sender, action) =>
        var e := EffectOf(w, call);
        w.(balances := Credit(Debit(w.balances, sender, Deposit(action)), e.payouts),
           wagers := w.wagers[id := e.wager],
           registry := if e.wager.status == Settled then w.registry - {e.wager.playerA} else w.registry)
      case Wait(ms) => w.(now := w.now + ms)
  }

  function Run(w: World, calls: seq<Call>): World {
    if calls == [] then w else Step(Run(w, calls[..|calls| - 1]), calls[|calls| - 1])
  }

  predicate Live(w: World, id: nat) {
    id in w.wagers && w.wagers[id].status != Settled
  }

  /** The registry lists exactly the creators of live wagers, each with its one wager. */
  ghost predicate RegistryExact(w: World) {
    (forall a :: a in w.registry ==> Live(w, w.registry[a]) && w.wagers[w.registry[a]].playerA == a) &&
    (forall id :: Live(w, id) ==> w.wagers[id].playerA in w.registry && w.registry[w.wagers[id].playerA] == id)
  }

  ghost predicate Good(w: World) {
    (forall id :: id in w.wagers ==> id < w.nextId && Sound(w.wagers[id])) && RegistryExact(w)
  }

  lemma StepKeepsSound(w: World, call: Call)
    requires Good(w)
    ensures forall id :: id in Step(w, call).wagers ==> id < Step(w, call).nextId && Sound(Step(w, call).wagers[id])
  {
    if call.On? && Succeeds(w, call) {
      ActKeepsSound(w.wagers[call.id], call.action, call.sender, call.sender in w.registry, w.now);
    }
  }

  lemma StepKeepsRegistry(w: World, call: Call)
    requires Good(w)
    ensures RegistryExact(Step(w, call))
  {
    if call.On? && Succeeds(w, call) {
      ActKeepsSound(w.wagers[call.id], call.action, call.sender, call.sender in w.registry, w.now);
      SettledIsFinal(w.wagers[call.id], call.action, call.sender, call.sender in w.registry, w.now);
    }
  }

  /** Registry and escrow rules hold after every run: one open wager per creator, always. */
  lemma {:induction false} RunKeepsGood(w: World, calls: seq<Call>)
    requires Good(w)
    ensures Good(Run(w, calls))
    decreases |calls|
  {
    if calls != [] {
      var before := Run(w, calls[..|calls| - 1]);
      RunKeepsGood(w, calls[..|calls| - 1]);
      StepKeepsSound(before, calls[|calls| - 1]);
      StepKeepsRegistry(before, calls[|calls| - 1]);
    }
  }

  lemma OneOpenWagerPerCreator(w: World, calls: seq<Call>, i: nat, j: nat)
    requires Good(w)
    requires Live(Run(w, calls), i) && Live(Run(w, calls), j)
    requires Run(w, calls).wagers[i].playerA == Run(w, calls).wagers[j].playerA
    ensures i == j
  {
    RunKeepsGood(w, calls);
  }

  // ----- Conservation -----

  ghost function Total<K(!new)>(m: map<K, nat>): nat {
    if m == map[] then 0
    else
      var k :| k in m;
      m[k] + Total(m - {k})
  }

  lemma {:induction false} TotalWithout<K(!new)>(m: map<K, nat>, k: K)
    requires k in m
    ensures Total(m) == m[k] + Total(m - {k})
    decreases |m|
  {
    var p :| p in m && Total(m) == m[p] + Total(m - {p});
    if p != k {
      TotalWithout(m - {p}, k);
      TotalWithout(m - {k}, p);
      assert m - {p} - {k} == m - {k} - {p};
    }
  }

  lemma TotalUpdate<K(!new)>(m: map<K, nat>, k: K, v: nat)
    ensures Total(m[k := v]) + (if k in m then m[k] else 0) == Total(m) + v
  {
    TotalWithout(m[k := v], k);
    if k in m {
      TotalWithout(m, k);
      assert m[k := v] - {k} == m - {k};
    } else {
      assert m[k := v] - {k} == m;
    }
  }

  ghost function HeldBy(wagers: map<nat, Wager>): map<nat, nat> {
    map id | id in wagers :: Held(wagers[id])
  }

  /** All the money there is: in accounts and in escrow. */
  ghost function Supply(w: World): nat {
    Total(w.balances) + Total(HeldBy(w.wagers))
  }

  lemma TotalDebit(balances: map<Address, nat>, a: Address, amount: nat)
    requires amount <= Balance(balances, a)
    ensures Total(Debit(balances, a, amount)) + amount == Total(balances)
  {
    TotalUpdate(balances, a, Balance(balances, a) - amount);
  }

  lemma {:induction false} TotalCredit(balances: map<Address, nat>, payouts: seq<Payout>)
    ensures Total(Credit(balances, payouts)) == Total(balances) + Paid(payouts)
    decreases |payouts|
  {
    if payouts != [] {
      var to, amount := payouts[0].to, payouts[0].amount;
      TotalUpdate(balances, to, Balance(balances, to) + amount);
      TotalCredit(balances[to := Balance(balances, to) + amount], payouts[1..]);
    }
  }

  lemma HeldUpdate(wagers: map<nat, Wager>, id: nat, wager: Wager)
    ensures Total(HeldBy(wagers[id := wager])) + (if id in wagers then Held(wagers[id]) else 0)
            == Total(HeldBy(wagers)) + Held(wager)
  {
    TotalUpdate(HeldBy(wagers), id, Held(wager));
    assert HeldBy(wagers[id := wager]) == HeldBy(wagers)[id := Held(wager)];
  }

  lemma StepConserves(w: World, call: Call)
    requires Good(w)
    ensures Supply(Step(w, call)) == Supply(w)
  {
    if Succeeds(w, call) {
      match call
      case Create(sender, stake, character) =>
        TotalDebit(w.balances, sender, stake);
        HeldUpdate(w.wagers, w.nextId, CreateWager(sender, stake, character, false, w.now).value);
      case On(id, sender, action) =>
        var e := EffectOf(w, call);
        ActKeepsSound(w.wagers[id], action, sender, sender in w.registry, w.now);
        TotalDebit(w.balances, sender, Deposit(action));
        TotalCredit(Debit(w.balances, sender, Deposit(action)), e.payouts);
        HeldUpdate(w.wagers, id, e.wager);
      case Wait(_) =>
    }
  }

  /** No run creates or destroys money: accounts, treasury and escrows always add up the same. */
  lemma {:induction false} RunConserves(w: World, calls: seq<Call>)
    requires Good(w)
    ensures Supply(Run(w, calls)) == Supply(w)
    decreases |calls|
  {
    if calls != [] {
      RunConserves(w, calls[..|calls| - 1]);
      RunKeepsGood(w, calls[..|calls| - 1]);
      StepConserves(Run(w, calls[..|calls| - 1]), calls[|calls| - 1]);
    }
  }

  /** While all the money there is fits 64 bits, both stakes of a live challenge always fit one balance. */
  lemma StakesAlwaysFit(w: World, calls: seq<Call>, id: nat)
    requires Good(w) && Supply(w) <= U64_MAX
    requires id in Run(w, calls).wagers
    ensures Held(Run(w, calls).wagers[id]) <= U64_MAX
  {
    RunConserves(w, calls);
    TotalWithout(HeldBy(Run(w, calls).wagers), id);
  }

  // ----- Settlement is final, and wagers do not touch each other -----

  lemma {:induction false} RunSnoc(w: World, calls: seq<Call>, call: Call)
    ensures Run(w, calls + [call]) == Step(Run(w, calls), call)
  {
    assert (calls + [call])[..|calls|] == calls;
  }

  lemma {:induction false} RunConcat(w: World, a: seq<Call>, b: seq<Call>)
    ensures Run(w, a + b) == Run(Run(w, a), b)
    decreases |b|
  {
    if b == [] {
      assert a + b == a;
    } else {
      var init, last := b[..|b| - 1], b[|b| - 1];
      RunConcat(w, a, init);
      RunSnoc(w, a + init, last);
      assert a + init + [last] == a + b;
    }
  }

  lemma {:induction false} SettledForever(w: World, calls: seq<Call>, id: nat)
    requires Good(w) && id in w.wagers && w.wagers[id].status == Settled
    ensures id in Run(w, calls).wagers && Run(w, calls).wagers[id] == w.wagers[id]
    decreases |calls|
  {
    if calls != [] {
      var before, last := Run(w, calls[..|calls| - 1]), calls[|calls| - 1];
      SettledForever(w, calls[..|calls| - 1], id);
      RunKeepsGood(w, calls[..|calls| - 1]);
      if last.On? && last.id == id {
        SettledIsFinal(w.wagers[id], last.action, last.sender, last.sender in before.registry, before.now);
      }
    }
  }

  // ----- Who can change a wager -----

  lemma OnChangesItsWager(w: World, call: Call, id: nat)
    requires Good(w) && id in w.wagers && call.On? && call.id == id && 2 * w.wagers[id].stake <= U64_MAX
    ensures Step(w, call).wagers[id] != w.wagers[id] <==> Succeeds(w, call)
    ensures Succeeds(w, call) <==>
              Deposit(call.action) <= Balance(w.balances, call.sender) &&
              Permitted(w.wagers[id], call.action, call.sender, call.sender in w.registry, w.now)
    ensures Succeeds(w, call) ==> Step(w, call).wagers[id].status == Leaves(call.action)
  {
    var wager, hasOpen := w.wagers[id], call.sender in w.registry;
    SucceedsExactly(wager, call.action, call.sender, hasOpen, w.now);
  }

  /**
   * Over every run: a wager is changed by a call exactly if the call is on it, by someone permitted to
   * make it then, who has the deposit it takes; and it is then where that call leads. Nobody else, and no
   * call on another wager, changes anything about it.
   */
  lemma ChangesExactly(w: World, calls: seq<Call>, call: Call, id: nat)
    requires Good(w) && id in Run(w, calls).wagers && 2 * Run(w, calls).wagers[id].stake <= U64_MAX
    ensures var now, after := Run(w, calls), Run(w, calls + [call]);
            id in after.wagers &&
            (after.wagers[id] != now.wagers[id] <==>
               call.On? && call.id == id && Deposit(call.action) <= Balance(now.balances, call.sender) &&
               Permitted(now.wagers[id], call.action, call.sender, call.sender in now.registry, now.now)) &&
            (after.wagers[id] != now.wagers[id] ==> after.wagers[id].status == Leaves(call.action))
  {
    var now := Run(w, calls);
    RunKeepsGood(w, calls);
    RunSnoc(w, calls, call);
    if call.On? && call.id == id {
      OnChangesItsWager(now, call, id);
    }
  }

  /** A wager comes into being exactly when a wallet that may creates it, under the next number. */
  lemma AppearsExactly(w: World, calls: seq<Call>, call: Call, id: nat)
    requires Good(w) && id !in Run(w, calls).wagers
    ensures var now, after := Run(w, calls), Run(w, calls + [call]);
            id in after.wagers <==>
              call.Create? && id == now.nextId && 0 < call.stake <= Balance(now.balances, call.sender) &&
              call.character.owner == call.sender && call.character.lockedUntil <= now.now &&
              call.sender !in now.registry
  {
    var now := Run(w, calls);
    RunSnoc(w, calls, call);
    if call.Create? {
      CreatesExactly(call.sender, call.stake, call.character, call.sender in now.registry, now.now);
    }
  }

  // ----- An open wager's terms -----

  /** The wager with any pending challenge taken out of it. */
  function Unchallenged(wager: Wager): Wager {
    wager.(challengerEscrow := 0, pendingChallenger := None, pendingAt := 0, status := Arena.Waiting)
  }

  /** While it is open, a wager is as it was created but for a pending challenge. */
  predicate OpenAsCreated(wager: Wager, created: Wager) {
    (wager.status == Arena.Waiting ==> wager == created) &&
    (wager.status == PendingApproval ==> Unchallenged(wager) == created)
  }

  lemma ActKeepsTerms(wager: Wager, action: Action, sender: Address, hasOpen: bool, now: nat, created: Wager)
    requires Unchallenged(created) == created && OpenAsCreated(wager, created)
    requires Act(wager, action, sender, hasOpen, now).Ok?
    ensures OpenAsCreated(Act(wager, action, sender, hasOpen, now).value.wager, created)
  {
  }

  lemma {:induction false} OpenStaysAsCreated(w: World, calls: seq<Call>, id: nat, created: Wager)
    requires Unchallenged(created) == created && Good(w) && id in w.wagers && OpenAsCreated(w.wagers[id], created)
    ensures id in Run(w, calls).wagers && OpenAsCreated(Run(w, calls).wagers[id], created)
    decreases |calls|
  {
    if calls != [] {
      var before, last := Run(w, calls[..|calls| - 1]), calls[|calls| - 1];
      OpenStaysAsCreated(w, calls[..|calls| - 1], id, created);
      RunKeepsGood(w, calls[..|calls| - 1]);
      if last.On? && last.id == id && Succeeds(before, last) {
        ActKeepsTerms(before.wagers[id], last.action, last.sender, last.sender in before.registry, before.now, created);
      }
    }
  }

  lemma StepKeepsGood(w: World, call: Call)
    requires Good(w)
    ensures Good(Step(w, call))
  {
    StepKeepsSound(w, call);
    StepKeepsRegistry(w, call);
  }

  lemma CreateCreates(w: World, create: Call)
    requires create.Create? && Succeeds(w, create)
    ensures CreateWager(create.sender, create.stake, create.character, false, w.now).Ok?
    ensures w.nextId in Step(w, create).wagers
    ensures Ok(Step(w, create).wagers[w.nextId]) ==
            CreateWager(create.sender, create.stake, create.character, false, w.now)
  {
  }

  lemma ChallengeSucceedsIff(w: World, id: nat, sender: Address, offered: nat, own: Character)
    requires id in w.wagers
    ensures Succeeds(w, On(id, sender, DoRequestAccept(offered, own))) <==>
              offered <= Balance(w.balances, sender) &&
              RequestAccept(w.wagers[id], sender, offered, own, sender in w.registry, w.now).Ok?
    ensures Succeeds(w, On(id, sender, DoCancelExpiredWager)) <==> CancelExpiredWager(w.wagers[id], w.now).Ok?
  {
  }

  /**
   * However many challenges an open wager has seen: whoever may challenge it, and when anyone may
   * call it off, is fixed by its creation. A challenger has no open wager, plays their own character
   * within one level of the creator's level then, and puts up the same stake; the ten minutes run
   * from the creation.
   */
  lemma OpenTermsAreTheCreations(w: World, create: Call, calls: seq<Call>, sender: Address, offered: nat,
                                 own: Character)
    requires Good(w) && create.Create? && Succeeds(w, create) && Supply(w) <= U64_MAX
    ensures w.nextId in Run(Step(w, create), calls).wagers
    ensures var id, later := w.nextId, Run(Step(w, create), calls);
            later.wagers[id].status == Arena.Waiting ==>
              (Succeeds(later, On(id, sender, DoRequestAccept(offered, own))) <==>
                 sender != create.sender && sender !in later.registry && own.owner == sender &&
                 offered == create.stake && offered <= Balance(later.balances, sender) &&
                 -1 <= own.level - create.character.level <= 1) &&
              (Succeeds(later, On(id, sender, DoCancelExpiredWager)) <==> later.now >= w.now + 10 * 60_000)
  {
    var id, later := w.nextId, Run(Step(w, create), calls);
    var created := CreateWager(create.sender, create.stake, create.character, false, w.now).value;
    CreateCreates(w, create);
    StepKeepsGood(w, create);
    StepConserves(w, create);
    OpenStaysAsCreated(Step(w, create), calls, id, created);
    StakesAlwaysFit(Step(w, create), calls, id);
    ChallengeSucceedsIff(later, id, sender, offered, own);
    if later.wagers[id].status == Arena.Waiting {
      ChallengersMatchTheCreation(create.sender, create.stake, create.character, w.now, sender, offered, own,
                                  sender in later.registry, later.now);
      DeadlinesRunFromEntry(created, create.sender, create.stake, create.character, w.now, sender, later.now);
    }
  }

  // ----- Every stake can be taken back without the treasury -----

  lemma {:induction false} CreditTo(balances: map<Address, nat>, payouts: seq<Payout>, a: Address)
    ensures Balance(Credit(balances, payouts), a) == Balance(balances, a) + PaidTo(payouts, a)
    decreases |payouts|
  {
    if payouts != [] {
      var to, amount := payouts[0].to, payouts[0].amount;
      CreditTo(balances[to := Balance(balances, to) + amount], payouts[1..], a);
    }
  }

  /** What a participant does to get its stake back, using only its own rights and the clock. */
  function ExitPlan(w: World, id: nat, who: Address): seq<Call>
    requires id in w.wagers
  {
    var wager := w.wagers[id];
    match wager.status
    case Waiting => [On(id, who, DoCancel)]
    case PendingApproval =>
      if who == wager.playerA then [On(id, who, DoDecline), On(id, who, DoCancel)] else [On(id, who, DoWithdraw)]
    case Active => [Wait(UntilExpiry(w, id)), On(id, who, DoCancelExpiredWager)]
    case Settled => []
  }

  /** How much of the ten minutes since the approval is left. */
  function UntilExpiry(w: World, id: nat): nat
    requires id in w.wagers
  {
    var deadline := w.wagers[id].acceptedAt + SETTLEMENT_TIMEOUT_MS;
    if w.now < deadline then deadline - w.now else 0
  }

  lemma ActOnBehalf(w: World, call: Call, a: Address)
    requires Good(w) && call.On? && !call.action.DoSettle? && Deposit(call.action) == 0 && Succeeds(w, call)
    ensures Balance(Step(w, call).balances, a) + StakeIn(Step(w, call).wagers[call.id], a)
            == Balance(w.balances, a) + StakeIn(w.wagers[call.id], a)
  {
    var e := EffectOf(w, call);
    OnlySettlementMovesMoney(w.wagers[call.id], call.action, call.sender, call.sender in w.registry, w.now, a);
    CreditTo(Debit(w.balances, call.sender, 0), e.payouts, a);
  }

  lemma RunOne(w: World, a: Call)
    ensures Run(w, [a]) == Step(w, a)
  {
    assert [a][..0] == [];
    assert Run(w, []) == w;
  }

  lemma RunTwo(w: World, a: Call, b: Call)
    ensures Run(w, [a, b]) == Step(Step(w, a), b)
  {
    RunOne(w, a);
    RunSnoc(w, [a], b);
    assert [a] + [b] == [a, b];
  }

  ghost predicate OutWithStake(before: World, after: World, id: nat, who: Address) {
    id in before.wagers && id in after.wagers && StakeIn(after.wagers[id], who) == 0 &&
    Balance(after.balances, who) == Balance(before.balances, who) + StakeIn(before.wagers[id], who)
  }

  lemma ExitWhilePending(w: World, id: nat)
    requires Good(w) && id in w.wagers && w.wagers[id].status == PendingApproval
    ensures OutWithStake(w, Run(w, ExitPlan(w, id, w.wagers[id].playerA)), id, w.wagers[id].playerA)
  {
    var who := w.wagers[id].playerA;
    var first, second := On(id, who, DoDecline), On(id, who, DoCancel);
    RunTwo(w, first, second);
    ActOnBehalf(w, first, who);
    StepKeepsSound(w, first);
    StepKeepsRegistry(w, first);
    ActOnBehalf(Step(w, first), second, who);
  }

  function Later(w: World, ms: nat): World {
    w.(now := w.now + ms)
  }

  lemma WaitKeeps(w: World, ms: nat)
    ensures Step(w, Wait(ms)) == Later(w, ms)
    ensures Good(w) ==> Good(Later(w, ms))
  {
    assert forall id :: Live(Later(w, ms), id) <==> Live(w, id);
  }

  lemma WaitIsLater(w: World, ms: nat)
    ensures Step(w, Wait(ms)) == Later(w, ms)
  {
  }

  lemma WaitThen(w: World, ms: nat, call: Call)
    ensures Run(w, [Wait(ms), call]) == Step(Later(w, ms), call)
  {
    WaitIsLater(w, ms);
    RunTwo(w, Wait(ms), call);
  }

  lemma ActivePlan(w: World, id: nat, who: Address)
    requires id in w.wagers && w.wagers[id].status == Active
    ensures ExitPlan(w, id, who) ==
            [Wait(UntilExpiry(w, id)), On(id, who, DoCancelExpiredWager)]
  {
  }

  /** Time passing changes neither balances nor wagers. */
  lemma OutFromLater(w: World, ms: nat, after: World, id: nat, who: Address)
    requires OutWithStake(Later(w, ms), after, id, who)
    ensures OutWithStake(w, after, id, who)
  {
  }

  lemma ExitWhileActive(w: World, id: nat, who: Address)
    requires Good(w) && id in w.wagers && w.wagers[id].status == Active && StakeIn(w.wagers[id], who) > 0
    ensures OutWithStake(w, Run(w, ExitPlan(w, id, who)), id, who)
    ensures Run(w, ExitPlan(w, id, who)).now == w.now + UntilExpiry(w, id)
  {
    var ms := UntilExpiry(w, id);
    ActivePlan(w, id, who);
    WaitThen(w, ms, On(id, who, DoCancelExpiredWager));
    WaitKeeps(w, ms);
    ExpiryPaysOut(Later(w, ms), id, who);
    OutFromLater(w, ms, Run(w, ExitPlan(w, id, who)), id, who);
  }

  lemma ExpiryPaysOut(w: World, id: nat, who: Address)
    requires Good(w) && id in w.wagers && w.wagers[id].status == Active
    requires w.now >= w.wagers[id].acceptedAt + SETTLEMENT_TIMEOUT_MS
    ensures OutWithStake(w, Step(w, On(id, who, DoCancelExpiredWager)), id, who)
  {
    ExpiryIsOpen(w.wagers[id], w.now);
    ActOnBehalf(w, On(id, who, DoCancelExpiredWager), who);
  }

  lemma ExpiryIsOpen(wager: Wager, now: nat)
    requires Arena.Sound(wager) && wager.status == Active && now >= wager.acceptedAt + SETTLEMENT_TIMEOUT_MS
    ensures CancelExpiredWager(wager, now).Ok? && CancelExpiredWager(wager, now).value.wager.status == Settled
  {
  }

  lemma ExitWhileWaiting(w: World, id: nat, who: Address)
    requires Good(w) && id in w.wagers && w.wagers[id].status == Waiting && StakeIn(w.wagers[id], who) > 0
    ensures OutWithStake(w, Run(w, ExitPlan(w, id, who)), id, who)
  {
    RunOne(w, On(id, who, DoCancel));
    ActOnBehalf(w, On(id, who, DoCancel), who);
  }

  lemma ExitAsChallenger(w: World, id: nat, who: Address)
    requires Good(w) && id in w.wagers && w.wagers[id].status == PendingApproval && StakeIn(w.wagers[id], who) > 0
    requires who != w.wagers[id].playerA
    ensures OutWithStake(w, Run(w, ExitPlan(w, id, who)), id, who)
  {
    RunOne(w, On(id, who, DoWithdraw));
    ActOnBehalf(w, On(id, who, DoWithdraw), who);
  }

  /** Only waiting takes time. */
  lemma CallsTakeNoTime(w: World, call: Call)
    requires !call.Wait?
    ensures Step(w, call).now == w.now
  {
  }

  lemma ExitTakesNoTime(w: World, id: nat, who: Address)
    requires id in w.wagers && (w.wagers[id].status == Waiting || w.wagers[id].status == PendingApproval)
    ensures Run(w, ExitPlan(w, id, who)).now == w.now
  {
    if w.wagers[id].status == Waiting {
      RunOne(w, On(id, who, DoCancel));
    } else if who == w.wagers[id].playerA {
      RunTwo(w, On(id, who, DoDecline), On(id, who, DoCancel));
      CallsTakeNoTime(w, On(id, who, DoDecline));
    } else {
      RunOne(w, On(id, who, DoWithdraw));
    }
  }

  /** When an exit begun in the state is over: at once, or ten minutes after an approved wager's approval. */
  function OutBy(w: World, id: nat): nat
    requires id in w.wagers
  {
    if w.wagers[id].status == Active then Max(w.now, w.wagers[id].acceptedAt + 600_000) else w.now
  }

  /**
   * From any reachable state, whoever has a stake in a wager can get all of it back by calls of
   * their own and the passage of time, with no help from the treasury or the other side: at once while
   * the wager is open, and otherwise at the latest ten minutes after its approval.
   */
  lemma ExitAlwaysWorks(w: World, calls: seq<Call>, id: nat, who: Address)
    requires Good(w) && id in Run(w, calls).wagers && StakeIn(Run(w, calls).wagers[id], who) > 0
    ensures OutWithStake(Run(w, calls), Run(Run(w, calls), ExitPlan(Run(w, calls), id, who)), id, who)
    ensures Run(Run(w, calls), ExitPlan(Run(w, calls), id, who)).now == OutBy(Run(w, calls), id)
    ensures forall c :: c in ExitPlan(Run(w, calls), id, who) ==> c.Wait? || (c.On? && c.sender == who)
  {
    var now := Run(w, calls);
    RunKeepsGood(w, calls);
    match now.wagers[id].status
    case Waiting =>
      ExitWhileWaiting(now, id, who);
      ExitTakesNoTime(now, id, who);
    case PendingApproval =>
      if who == now.wagers[id].playerA { ExitWhilePending(now, id); } else { ExitAsChallenger(now, id, who); }
      ExitTakesNoTime(now, id, who);
    case Active => ExitWhileActive(now, id, who);
    case Settled =>
  }

  // ----- What others can do to a stake -----

  /** Calls by anyone else, and waiting; the treasury does not settle the wager. */
  predicate ByOthers(calls: seq<Call>, id: nat, who: Address) {
    forall k :: 0 <= k < |calls| ==> ByAnother(calls[k], id, who)
  }

  predicate ByAnother(call: Call, id: nat, who: Address) {
    match call
    case Create(sender, _, _) => sender != who
    case On(other, sender, action) => sender != who && !(other == id && action.DoSettle?)
    case Wait(_) => true
  }

  /** What a wallet has in its account and in the wager. */
  function Worth(w: World, id: nat, who: Address): nat
    requires id in w.wagers
  {
    Balance(w.balances, who) + StakeIn(w.wagers[id], who)
  }

  lemma DebitSparesOthers(balances: map<Address, nat>, a: Address, amount: nat, who: Address)
    requires amount <= Balance(balances, a) && who != a
    ensures Balance(Debit(balances, a, amount), who) == Balance(balances, who)
  {
  }

  lemma CallOnKeepsWorth(w: World, call: Call, id: nat, who: Address)
    requires Good(w) && id in w.wagers && call.On? && ByAnother(call, id, who) && Succeeds(w, call)
    ensures id in Step(w, call).wagers && Worth(Step(w, call), id, who) >= Worth(w, id, who)
  {
    var e, debited := EffectOf(w, call), Debit(w.balances, call.sender, Deposit(call.action));
    DebitSparesOthers(w.balances, call.sender, Deposit(call.action), who);
    CreditTo(debited, e.payouts, who);
    if call.id == id {
      OnlySettlementMovesMoney(w.wagers[id], call.action, call.sender, call.sender in w.registry, w.now, who);
    }
  }

  lemma OthersKeepWorth(w: World, call: Call, id: nat, who: Address)
    requires Good(w) && id in w.wagers && ByAnother(call, id, who)
    ensures id in Step(w, call).wagers && Worth(Step(w, call), id, who) >= Worth(w, id, who)
  {
    if Succeeds(w, call) {
      match call
      case Create(sender, stake, _) => DebitSparesOthers(w.balances, sender, stake, who);
      case On(_, _, _) => CallOnKeepsWorth(w, call, id, who);
      case Wait(_) =>
    }
  }

  /** Once approved, a wager stays as it is until it is settled for good. */
  predicate SameOrSettled(before: Wager, after: Wager) {
    after == before || after.status == Settled
  }

  lemma ActOnActive(wager: Wager, action: Action, sender: Address, hasOpen: bool, now: nat)
    requires wager.status == Active && Act(wager, action, sender, hasOpen, now).Ok?
    ensures Act(wager, action, sender, hasOpen, now).value.wager.status == Settled
  {
  }

  lemma ActiveOrSettledStep(w: World, call: Call, id: nat, before: Wager)
    requires Good(w) && id in w.wagers && before.status == Active && SameOrSettled(before, w.wagers[id])
    ensures id in Step(w, call).wagers && SameOrSettled(before, Step(w, call).wagers[id])
  {
    if call.On? && call.id == id && Succeeds(w, call) {
      var hasOpen := call.sender in w.registry;
      SettledIsFinal(w.wagers[id], call.action, call.sender, hasOpen, w.now);
      ActOnActive(w.wagers[id], call.action, call.sender, hasOpen, w.now);
    }
  }

  lemma {:induction false} ActiveUntilSettled(w: World, calls: seq<Call>, id: nat)
    requires Good(w) && id in w.wagers && w.wagers[id].status == Active
    ensures id in Run(w, calls).wagers && SameOrSettled(w.wagers[id], Run(w, calls).wagers[id])
    decreases |calls|
  {
    if calls != [] {
      ActiveUntilSettled(w, calls[..|calls| - 1], id);
      RunKeepsGood(w, calls[..|calls| - 1]);
      ActiveOrSettledStep(Run(w, calls[..|calls| - 1]), calls[|calls| - 1], id, w.wagers[id]);
    }
  }

  /**
   * Whatever everybody else does, short of the treasury settling the wager, a wallet's account and its
   * stake together never shrink.
   */
  lemma {:induction false} OthersTakeNothing(w: World, calls: seq<Call>, id: nat, who: Address)
    requires Good(w) && id in w.wagers && ByOthers(calls, id, who)
    ensures id in Run(w, calls).wagers && Worth(Run(w, calls), id, who) >= Worth(w, id, who)
    decreases |calls|
  {
    if calls != [] {
      var init := calls[..|calls| - 1];
      assert forall k :: 0 <= k < |init| ==> init[k] == calls[k];
      OthersTakeNothing(w, init, id, who);
      RunKeepsGood(w, init);
      OthersKeepWorth(Run(w, init), calls[|calls| - 1], id, who);
    }
  }

  lemma SettledHasNoStake(w: World, call: Call, id: nat, who: Address)
    requires Good(w) && id in w.wagers && w.wagers[id].status == Settled
    requires call.On? && call.id == id && call.sender == who
    ensures Step(w, call) == w && StakeIn(w.wagers[id], who) == 0
  {
    SettledIsFinal(w.wagers[id], call.action, who, who in w.registry, w.now);
  }

  /**
   * So a stake in an approved wager cannot be held back: in every run by others, once ten minutes have
   * passed since the approval and the treasury has not settled it, one call by the staker leaves them
   * with nothing in the wager and at least all they had.
   */
  lemma OneCallAfterTheDeadline(w: World, calls: seq<Call>, id: nat, who: Address)
    requires Good(w) && id in w.wagers && w.wagers[id].status == Active && ByOthers(calls, id, who)
    requires StakeIn(w.wagers[id], who) > 0
    requires Run(w, calls).now >= w.wagers[id].acceptedAt + 10 * 60_000
    ensures var out := Step(Run(w, calls), On(id, who, DoCancelExpiredWager));
            id in out.wagers && StakeIn(out.wagers[id], who) == 0 &&
            Balance(out.balances, who) >= Balance(w.balances, who) + w.wagers[id].stake
  {
    var later, call := Run(w, calls), On(id, who, DoCancelExpiredWager);
    RunKeepsGood(w, calls);
    OthersTakeNothing(w, calls, id, who);
    ActiveUntilSettled(w, calls, id);
    if later.wagers[id].status == Settled {
      SettledHasNoStake(later, call, id, who);
    } else {
      ExpiryPaysOut(later, id, who);
    }
  }

  // ----- What the registry does not stop -----

  const ALICE: Address := 1
  const BOB: Address := 2

  function Fresh(): World {
    World(map[ALICE := 10, BOB := 20], map[], map[], 0, 0)
  }

  const CREATE := Create(ALICE, 10, Character(ALICE, 5, 0))
  const CHALLENGE := On(0, BOB, DoRequestAccept(10, Character(BOB, 6, 0)))
  const CREATE_OWN := Create(BOB, 10, Character(BOB, 6, 0))

  function Opened(): World {
    World(map[ALICE := 0, BOB := 20], map[0 := Wager(ALICE, 5, None, 10, 10, 0, None, 0, Waiting, 0, 0, 0)],
          map[ALICE := 0], 1, 0)
  }

  function Challenged(): World {
    World(map[ALICE := 0, BOB := 10],
          map[0 := Wager(ALICE, 5, None, 10, 10, 10, Some(BOB), 0, PendingApproval, 0, 0, 0)], map[ALICE := 0], 1, 0)
  }

  lemma OpenedIsReached()
    ensures Good(Fresh()) && Step(Fresh(), CREATE) == Opened()
  {
    assert Succeeds(Fresh(), CREATE);
    assert Debit(Fresh().balances, ALICE, 10) == Opened().balances;
  }

  lemma ChallengedIsReached()
    ensures Step(Opened(), CHALLENGE) == Challenged()
  {
    assert Succeeds(Opened(), CHALLENGE);
    assert EffectOf(Opened(), CHALLENGE) == Effect(Challenged().wagers[0], []);
    assert Debit(Opened().balances, BOB, 10) == Challenged().balances;
    assert Opened().wagers[0 := Challenged().wagers[0]] == Challenged().wagers;
  }

  lemma OwnWagerOpens()
    ensures var w := Step(Challenged(), CREATE_OWN);
            Live(w, 0) && Live(w, 1) && StakeIn(w.wagers[0], BOB) == 10 && StakeIn(w.wagers[1], BOB) == 10
  {
    assert Succeeds(Challenged(), CREATE_OWN);
  }

  lemma ChallengedRun()
    ensures Run(Fresh(), [CREATE, CHALLENGE]) == Challenged()
  {
    OpenedIsReached();
    ChallengedIsReached();
    RunTwo(Fresh(), CREATE, CHALLENGE);
  }

  /**
   * Only creators are registered: a wallet with a stake parked in someone's wager can still open its
   * own, so "one open wager per wallet" holds for creators alone.
   */
  lemma ChallengerMayStillCreate()
    ensures Good(Fresh())
    ensures var w := Run(Fresh(), [CREATE, CHALLENGE] + [CREATE_OWN]);
            Live(w, 0) && Live(w, 1) && StakeIn(w.wagers[0], BOB) == 10 && StakeIn(w.wagers[1], BOB) == 10
  {
    OpenedIsReached();
    ChallengedRun();
    RunSnoc(Fresh(), [CREATE, CHALLENGE], CREATE_OWN);
    OwnWagerOpens();
  }
}
