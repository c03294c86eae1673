/**
 * The grace ledger against its plain meaning. The reference keeps, for every wallet, the whole list
 * of disconnected stretches in its current fight; the ledger keeps one capped number. Over every
 * run the two agree, and on a punctual clock a forfeit comes exactly when the budget is gone.
 */
module GraceHistory {
  import opened Common
  import opened Scheduler
  import opened Grace

  function Sum(s: seq<nat>): nat {
    if s == [] then 0 else Sum(s[..|s| - 1]) + s[|s| - 1]
  }

  /** `stretches` are the finished disconnected durations, `since` the start of the open one. */
  datatype History = History(fightId: string, budgetMs: nat, stretches: seq<nat>, since: Option<nat>)

  type Histories = map<string, History>

  /** All disconnected time of a wallet in its current fight, the open stretch included. */
  function Spent(h: History, now: nat): nat {
    Sum(h.stretches) + match h.since case Some(start) => Elapsed(now, start) case None => 0
  }

  function Current(hs: Histories, wallet: string, fightId: string, budgetMs: nat): History {
    if wallet in hs && hs[wallet].fightId == fightId then hs[wallet] else History(fightId, budgetMs, [], None)
  }

  function Dropped(hs: Histories, wallet: string, fightId: string, budgetMs: nat, now: nat): Histories {
    var h := Current(hs, wallet, fightId, budgetMs);
    if h.since.Some? then hs
    else if Sum(h.stretches) >= h.budgetMs then hs - {wallet}
    else hs[wallet := h.(since := Some(now))]
  }

  function Returned(hs: Histories, wallet: string, now: nat): Histories {
    if wallet in hs && hs[wallet].since.Some?
    then hs[wallet := hs[wallet].(stretches := hs[wallet].stretches + [Elapsed(now, hs[wallet].since.value)],
                                  since := None)]
    else hs
  }

  function FightCleared(hs: Histories, fightId: string): Histories {
    map w | w in hs && hs[w].fightId != fightId :: hs[w]
  }

  // ----- Runs -----

  datatype Event =
    | Disconnect(wallet: string, fightId: string)
    | Reconnect(wallet: string)
    | ClearFight(fightId: string)
    | Fire(handle: nat)
    | Pass(ms: nat)
    | SetBudget(ms: nat)

  /** A forfeit, with the disconnected time the wallet had spent when it happened. */
  datatype Forfeit = Forfeit(wallet: string, fightId: string, spentMs: nat, budgetMs: nat)

  datatype World = World(ledger: Ledger, histories: Histories, forfeits: seq<Forfeit>)

  function NewWorld(budgetMs: nat): World {
    World(Ledger(map[], budgetMs, START), map[], [])
  }

  /** Only a due grace timer fires; a punctual clock also stops at the first waiting timer. */
  ghost predicate Enabled(w: World, e: Event, punctual: bool) {
    match e
    case Fire(handle) => Due(w.ledger.clock, handle) && w.ledger.clock.timers[handle].tag.GraceTimeout?
    case Pass(ms) => punctual ==> MayAdvance(w.ledger.clock, ms)
    case _ => true
  }

  function ForfeitOf(w: World, wallet: string, fightId: string): Forfeit {
    var h := Current(w.histories, wallet, fightId, w.ledger.budgetMs);
    Forfeit(wallet, fightId, Spent(h, w.ledger.clock.now), h.budgetMs)
  }

  function Next(w: World, e: Event): World {
    var l, hs, now := w.ledger, w.histories, w.ledger.clock.now;
    match e
    case Disconnect(wallet, fightId) =>
      var (l', outcome) := MarkDisconnect(l, wallet, fightId);
      World(l', Dropped(hs, wallet, fightId, l.budgetMs, now),
            w.forfeits + if outcome == ForfeitedNow then [ForfeitOf(w, wallet, fightId)] else [])
    case Reconnect(wallet) => w.(ledger := MarkReconnect(l, wallet).0, histories := Returned(hs, wallet, now))
    case ClearFight(fightId) => w.(ledger := ClearFightGrace(l, fightId), histories := FightCleared(hs, fightId))
    case Fire(handle) =>
      if handle in l.clock.timers && l.clock.timers[handle].tag.GraceTimeout? then
        var tag := l.clock.timers[handle].tag;
        World(FireForfeit(l, handle), hs - {tag.wallet},
              w.forfeits + [ForfeitOf(w, tag.wallet, tag.fightId)])
      else w
    case Pass(ms) => w.(ledger := l.(clock := Advance(l.clock, ms)))
    case SetBudget(ms) => w.(ledger := l.(budgetMs := ms))
  }

  function After(w: World, events: seq<Event>): World {
    if events == [] then w else Next(After(w, events[..|events| - 1]), events[|events| - 1])
  }

  ghost predicate IsRun(w: World, events: seq<Event>, punctual: bool) {
    events == [] ||
    (IsRun(w, events[..|events| - 1], punctual) &&
     Enabled(After(w, events[..|events| - 1]), events[|events| - 1], punctual))
  }

  // ----- Timers and records correspond -----

  /** The timer an active record owns. */
  ghost predicate Owns(l: Ledger, wallet: string)
    requires IsDisconnectPending(l, wallet)
  {
    var r := l.records[wallet];
    && r.active.value.handle in l.clock.timers
    && l.clock.timers[r.active.value.handle] == Timer(GraceTimeout(wallet, r.fightId), r.active.value.expiresAt)
    && r.active.value.startedAt <= l.clock.now
    && r.usedMs < r.budgetMs
    && r.active.value.expiresAt == r.active.value.startedAt + (r.budgetMs - r.usedMs)
  }

  ghost predicate TimersMatch(l: Ledger) {
    && HandlesUsed(l.clock)
    && (forall w :: w in l.records && l.records[w].active.Some? ==> Owns(l, w))
    && (forall h :: h in l.clock.timers && l.clock.timers[h].tag.GraceTimeout? ==>
          IsDisconnectPending(l, l.clock.timers[h].tag.wallet) &&
          l.records[l.clock.timers[h].tag.wallet].active.value.handle == h)
  }

  ghost predicate AgreesAt(l: Ledger, hs: Histories, w: string)
    requires w in l.records && w in hs
  {
    var r, h := l.records[w], hs[w];
    && r.fightId == h.fightId && r.budgetMs == h.budgetMs
    && r.usedMs == Min(h.budgetMs, Sum(h.stretches))
    && h.since == match r.active case Some(a) => Some(a.startedAt) case None => None
  }

  /** The ledger's number is the capped sum of the history's stretches, wallet by wallet. */
  ghost predicate Agrees(l: Ledger, hs: Histories) {
    && l.records.Keys == hs.Keys
    && (forall w :: w in l.records ==> AgreesAt(l, hs, w))
  }

  lemma SumAppend(s: seq<nat>, x: nat)
    ensures Sum(s + [x]) == Sum(s) + x
  {
    assert (s + [x])[..|s|] == s;
  }

  lemma ForFightKeepsTimers(l: Ledger, wallet: string, fightId: string)
    requires TimersMatch(l)
    ensures TimersMatch(ForFight(l, wallet, fightId))
  {
    var l1 := ForFight(l, wallet, fightId);
    forall w | w in l1.records && l1.records[w].active.Some? ensures Owns(l1, w) {
      assert Owns(l, w);
    }
  }

  lemma DisconnectKeepsTimers(l: Ledger, wallet: string, fightId: string)
    requires TimersMatch(l)
    ensures TimersMatch(MarkDisconnect(l, wallet, fightId).0)
  {
    var l1 := ForFight(l, wallet, fightId);
    ForFightKeepsTimers(l, wallet, fightId);
    var l2 := MarkDisconnect(l, wallet, fightId).0;
    forall w | w in l2.records && l2.records[w].active.Some? ensures Owns(l2, w) {
      if w != wallet { assert Owns(l1, w); }
    }
  }

  lemma ReconnectKeepsTimers(l: Ledger, wallet: string)
    requires TimersMatch(l)
    ensures TimersMatch(MarkReconnect(l, wallet).0)
  {
    var l' := MarkReconnect(l, wallet).0;
    forall w | w in l'.records && l'.records[w].active.Some? ensures Owns(l', w) {
      assert Owns(l, w);
      if wallet in l.records && l.records[wallet].active.Some? { assert Owns(l, wallet); }
    }
  }

  lemma ClearKeepsTimers(l: Ledger, fightId: string)
    requires TimersMatch(l)
    ensures TimersMatch(ClearFightGrace(l, fightId))
  {
    var l' := ClearFightGrace(l, fightId);
    var gone := HandlesOf(l, RecordsOf(l, fightId));
    forall w | w in l'.records && l'.records[w].active.Some? ensures Owns(l', w) {
      assert Owns(l, w);
      forall v | v in RecordsOf(l, fightId) && l.records[v].active.Some?
        ensures l.records[v].active.value.handle != l.records[w].active.value.handle
      {
        assert Owns(l, v);
      }
    }
    forall h | h in l'.clock.timers && l'.clock.timers[h].tag.GraceTimeout?
      ensures IsDisconnectPending(l', l'.clock.timers[h].tag.wallet) &&
              l'.records[l'.clock.timers[h].tag.wallet].active.value.handle == h
    {
      var w := l.clock.timers[h].tag.wallet;
      assert l.records[w].active.value.handle == h;
      assert w in RecordsOf(l, fightId) ==> h in gone;
    }
  }

  lemma FireKeepsTimers(l: Ledger, handle: nat)
    requires TimersMatch(l) && handle in l.clock.timers && l.clock.timers[handle].tag.GraceTimeout?
    ensures TimersMatch(FireForfeit(l, handle))
  {
    var l' := FireForfeit(l, handle);
    forall w | w in l'.records && l'.records[w].active.Some? ensures Owns(l', w) {
      assert Owns(l, w);
    }
  }

  lemma PassKeepsTimers(l: Ledger, ms: nat)
    requires TimersMatch(l)
    ensures TimersMatch(l.(clock := Advance(l.clock, ms)))
  {
    var l' := l.(clock := Advance(l.clock, ms));
    forall w | w in l'.records && l'.records[w].active.Some? ensures Owns(l', w) {
      assert Owns(l, w);
    }
  }

  // ----- Every step keeps the agreement -----

  lemma DisconnectAgrees(l: Ledger, hs: Histories, wallet: string, fightId: string)
    requires Agrees(l, hs)
    ensures Agrees(MarkDisconnect(l, wallet, fightId).0,
                   Dropped(hs, wallet, fightId, l.budgetMs, l.clock.now))
  {
    if wallet in l.records { assert AgreesAt(l, hs, wallet); }
    var l', hs' := MarkDisconnect(l, wallet, fightId).0, Dropped(hs, wallet, fightId, l.budgetMs, l.clock.now);
    assert l'.records.Keys == hs'.Keys;
    forall w | w in l'.records ensures AgreesAt(l', hs', w) {
      if w != wallet { assert AgreesAt(l, hs, w); }
    }
  }

  lemma ReconnectAgreesAt(l: Ledger, hs: Histories, wallet: string)
    requires wallet in l.records && wallet in hs && AgreesAt(l, hs, wallet)
    ensures AgreesAt(MarkReconnect(l, wallet).0, Returned(hs, wallet, l.clock.now), wallet)
  {
    if l.records[wallet].active.Some? {
      SumAppend(hs[wallet].stretches, Elapsed(l.clock.now, hs[wallet].since.value));
    }
  }

  lemma ReconnectAgrees(l: Ledger, hs: Histories, wallet: string)
    requires Agrees(l, hs)
    ensures Agrees(MarkReconnect(l, wallet).0, Returned(hs, wallet, l.clock.now))
  {
    var l', hs' := MarkReconnect(l, wallet).0, Returned(hs, wallet, l.clock.now);
    if wallet in l.records {
      assert AgreesAt(l, hs, wallet);
      ReconnectAgreesAt(l, hs, wallet);
    }
    forall w | w in l'.records && w != wallet ensures AgreesAt(l', hs', w) {
      assert AgreesAt(l, hs, w);
    }
  }

  lemma ClearAgrees(l: Ledger, hs: Histories, fightId: string)
    requires Agrees(l, hs)
    ensures Agrees(ClearFightGrace(l, fightId), FightCleared(hs, fightId))
  {
    var l', hs' := ClearFightGrace(l, fightId), FightCleared(hs, fightId);
    assert forall w :: w in l.records ==> AgreesAt(l, hs, w);
    assert l'.records.Keys == hs'.Keys;
    forall w | w in l'.records ensures AgreesAt(l', hs', w) {
      assert AgreesAt(l, hs, w);
    }
  }

  lemma FireAgrees(l: Ledger, hs: Histories, handle: nat)
    requires Agrees(l, hs) && handle in l.clock.timers && l.clock.timers[handle].tag.GraceTimeout?
    ensures Agrees(FireForfeit(l, handle), hs - {l.clock.timers[handle].tag.wallet})
  {
    var l', hs' := FireForfeit(l, handle), hs - {l.clock.timers[handle].tag.wallet};
    forall w | w in l'.records ensures AgreesAt(l', hs', w) {
      assert AgreesAt(l, hs, w);
    }
  }

  lemma NextKeepsLedger(w: World, e: Event)
    requires TimersMatch(w.ledger) && Agrees(w.ledger, w.histories)
    ensures TimersMatch(Next(w, e).ledger) && Agrees(Next(w, e).ledger, Next(w, e).histories)
  {
    var l, hs := w.ledger, w.histories;
    match e {
      case Disconnect(wallet, fightId) =>
        DisconnectKeepsTimers(l, wallet, fightId);
        DisconnectAgrees(l, hs, wallet, fightId);
      case Reconnect(wallet) =>
        ReconnectKeepsTimers(l, wallet);
        ReconnectAgrees(l, hs, wallet);
      case ClearFight(fightId) =>
        ClearKeepsTimers(l, fightId);
        ClearAgrees(l, hs, fightId);
      case Fire(handle) =>
        if handle in l.clock.timers && l.clock.timers[handle].tag.GraceTimeout? {
          FireKeepsTimers(l, handle);
          FireAgrees(l, hs, handle);
        }
      case Pass(ms) =>
        PassKeepsTimers(l, ms);
        assert forall v :: v in l.records ==> AgreesAt(l, hs, v);
        forall v | v in l.records ensures AgreesAt(Next(w, e).ledger, hs, v) {
          assert AgreesAt(l, hs, v);
        }
      case SetBudget(ms) =>
        forall v | v in l.records ensures AgreesAt(Next(w, e).ledger, hs, v) {
          assert AgreesAt(l, hs, v);
        }
        forall v | v in l.records && l.records[v].active.Some? ensures Owns(Next(w, e).ledger, v) {
          assert Owns(l, v);
        }
    }
  }

  /**
   * Over every run, whatever the clock does: each wallet's `usedMs` is the smaller of its budget and
   * the sum of its finished stretches in this fight, and each pending wallet owns exactly one timer.
   */
  lemma {:induction false} LedgerRefinesHistory(budgetMs: nat, events: seq<Event>)
    ensures var w := After(NewWorld(budgetMs), events);
            TimersMatch(w.ledger) && Agrees(w.ledger, w.histories)
  {
    if events != [] {
      LedgerRefinesHistory(budgetMs, events[..|events| - 1]);
      NextKeepsLedger(After(NewWorld(budgetMs), events[..|events| - 1]), events[|events| - 1]);
    }
  }

  /** The wallet is in a pending disconnect of the fight. */
  predicate AwayFrom(w: World, wallet: string, fightId: string) {
    wallet in w.histories && w.histories[wallet].fightId == fightId && w.histories[wallet].since.Some?
  }

  /**
   * Cycling never refills the grace: the next grant is the budget less everything spent so far, for the
   * fight that was dropped from; a second close changes nothing, and with nothing left it forfeits.
   */
  lemma NextGrantIsWhatIsLeft(budgetMs: nat, events: seq<Event>, wallet: string, fightId: string)
    ensures var w := After(NewWorld(budgetMs), events);
            var h := Current(w.histories, wallet, fightId, w.ledger.budgetMs);
            var spent := Sum(h.stretches);
            var outcome := MarkDisconnect(w.ledger, wallet, fightId).1;
            if AwayFrom(w, wallet, fightId) then outcome == AlreadyPending
            else if spent < h.budgetMs
            then outcome == Granted(DisconnectInfo(fightId, w.ledger.clock.now + (h.budgetMs - spent),
                                                   h.budgetMs - spent, spent, h.budgetMs))
            else outcome == ForfeitedNow
  {
    LedgerRefinesHistory(budgetMs, events);
    var w := After(NewWorld(budgetMs), events);
    if wallet in w.ledger.records { assert AgreesAt(w.ledger, w.histories, wallet); }
  }

  /** A return names exactly the fight its open stretch belongs to, and nothing when there is none. */
  lemma ReturnNamesItsFight(budgetMs: nat, events: seq<Event>, wallet: string)
    ensures var w := After(NewWorld(budgetMs), events);
            MarkReconnect(w.ledger, wallet).1 ==
              if wallet in w.histories && w.histories[wallet].since.Some? then Some(w.histories[wallet].fightId)
              else None
  {
    LedgerRefinesHistory(budgetMs, events);
    var w := After(NewWorld(budgetMs), events);
    if wallet in w.ledger.records { assert AgreesAt(w.ledger, w.histories, wallet); }
  }

  /** What one wallet does leaves every other wallet's record and timer alone. */
  lemma WalletsAreIndependent(l: Ledger, wallet: string, fightId: string, other: string)
    requires TimersMatch(l) && wallet != other
    ensures forall l' | l' in {MarkDisconnect(l, wallet, fightId).0, MarkReconnect(l, wallet).0} ::
              && (other in l'.records <==> other in l.records)
              && (other in l.records ==> l'.records[other] == l.records[other])
              && (IsDisconnectPending(l, other) ==>
                    var h := l.records[other].active.value.handle;
                    h in l'.clock.timers && l'.clock.timers[h] == l.clock.timers[h])
  {
    DisconnectKeepsTimers(l, wallet, fightId);
    ReconnectKeepsTimers(l, wallet);
    if IsDisconnectPending(l, other) {
      assert Owns(l, other);
      assert Owns(MarkDisconnect(l, wallet, fightId).0, other);
      assert Owns(MarkReconnect(l, wallet).0, other);
    }
  }

  // ----- When a forfeit happens -----

  ghost predicate WithinBudget(w: World) {
    && OnTime(w.ledger.clock)
    && (forall v :: v in w.histories ==> Spent(w.histories[v], w.ledger.clock.now) <= w.histories[v].budgetMs)
    && (forall i :: 0 <= i < |w.forfeits| ==> w.forfeits[i].spentMs == w.forfeits[i].budgetMs)
  }

  /** On a punctual clock the open stretch never outlasts what is left. */
  lemma SpentWithinBudget(l: Ledger, hs: Histories, v: string)
    requires TimersMatch(l) && Agrees(l, hs) && OnTime(l.clock) && v in hs
    requires Sum(hs[v].stretches) <= hs[v].budgetMs
    ensures Spent(hs[v], l.clock.now) <= hs[v].budgetMs
    ensures l.records[v].active.Some? ==>
              Spent(hs[v], l.clock.now) == hs[v].budgetMs - (l.records[v].active.value.expiresAt - l.clock.now)
  {
    assert AgreesAt(l, hs, v);
    if l.records[v].active.Some? { assert Owns(l, v); }
  }

  lemma NextOnTime(w: World, e: Event)
    requires OnTime(w.ledger.clock) && Enabled(w, e, true)
    ensures OnTime(Next(w, e).ledger.clock)
  {
  }

  lemma ForfeitAtBudget(w: World, e: Event)
    requires TimersMatch(w.ledger) && Agrees(w.ledger, w.histories) && WithinBudget(w) && Enabled(w, e, true)
    ensures forall i :: 0 <= i < |Next(w, e).forfeits| ==>
              Next(w, e).forfeits[i].spentMs == Next(w, e).forfeits[i].budgetMs
  {
    var l, hs := w.ledger, w.histories;
    match e {
      case Disconnect(wallet, fightId) =>
        if wallet in l.records { assert AgreesAt(l, hs, wallet); }
      case Fire(handle) =>
        var wallet := l.clock.timers[handle].tag.wallet;
        assert AgreesAt(l, hs, wallet) && Owns(l, wallet);
        SpentWithinBudget(l, hs, wallet);
      case _ =>
    }
  }

  lemma NextWithinBudget(w: World, e: Event)
    requires TimersMatch(w.ledger) && Agrees(w.ledger, w.histories) && WithinBudget(w) && Enabled(w, e, true)
    ensures WithinBudget(Next(w, e))
  {
    var w' := Next(w, e);
    NextKeepsLedger(w, e);
    NextOnTime(w, e);
    ForfeitAtBudget(w, e);
    forall v | v in w'.histories
      ensures Spent(w'.histories[v], w'.ledger.clock.now) <= w'.histories[v].budgetMs
    {
      StretchesWithinBudget(w, e, v);
      SpentWithinBudget(w'.ledger, w'.histories, v);
    }
  }

  lemma StretchesWithinBudget(w: World, e: Event, v: string)
    requires WithinBudget(w) && v in Next(w, e).histories
    ensures Sum(Next(w, e).histories[v].stretches) <= Next(w, e).histories[v].budgetMs
  {
    var hs := w.histories;
    if v in hs {
      assert Spent(hs[v], w.ledger.clock.now) <= hs[v].budgetMs;
      if e.Reconnect? && e.wallet == v && hs[v].since.Some? {
        SumAppend(hs[v].stretches, Elapsed(w.ledger.clock.now, hs[v].since.value));
      }
    }
  }

  /**
   * Over every punctual run: a wallet forfeits at the moment its disconnected time in the fight
   * reaches its budget, never before, whether the timer or the next drop discovers it; and no
   * wallet is ever disconnected for longer than its budget.
   */
  lemma {:induction false} ForfeitExactlyAtBudget(budgetMs: nat, events: seq<Event>)
    requires IsRun(NewWorld(budgetMs), events, true)
    ensures WithinBudget(After(NewWorld(budgetMs), events))
  {
    if events != [] {
      var init := events[..|events| - 1];
      ForfeitExactlyAtBudget(budgetMs, init);
      LedgerRefinesHistory(budgetMs, init);
      NextWithinBudget(After(NewWorld(budgetMs), init), events[|events| - 1]);
    }
  }

  predicate Exhausted(w: World, wallet: string) {
    IsDisconnectPending(w.ledger, wallet) && wallet in w.histories &&
    Spent(w.histories[wallet], w.ledger.clock.now) == w.histories[wallet].budgetMs
  }

  /** A wallet that has used its whole budget while away cannot be left waiting: time stops for its forfeit. */
  lemma ExhaustedWalletStopsTime(budgetMs: nat, events: seq<Event>, wallet: string, ms: nat)
    requires IsRun(NewWorld(budgetMs), events, true)
    requires Exhausted(After(NewWorld(budgetMs), events), wallet)
    ensures var w := After(NewWorld(budgetMs), events);
            && Due(w.ledger.clock, w.ledger.records[wallet].active.value.handle)
            && (Enabled(w, Pass(ms), true) ==> ms == 0)
  {
    ForfeitExactlyAtBudget(budgetMs, events);
    LedgerRefinesHistory(budgetMs, events);
    var w := After(NewWorld(budgetMs), events);
    assert AgreesAt(w.ledger, w.histories, wallet) && Owns(w.ledger, wallet);
    SpentWithinBudget(w.ledger, w.histories, wallet);
  }

  // ----- Cancelled timers -----

  /** Reconnecting, switching fight and clearing a fight all retire the timers they cancel. */
  lemma CancelledTimersRetire(l: Ledger, wallet: string, fightId: string)
    requires TimersMatch(l) && IsDisconnectPending(l, wallet)
    ensures var h := l.records[wallet].active.value.handle;
            && Retired(MarkReconnect(l, wallet).0.clock, h)
            && (l.records[wallet].fightId != fightId ==> Retired(MarkDisconnect(l, wallet, fightId).0.clock, h))
            && (l.records[wallet].fightId == fightId ==> Retired(ClearFightGrace(l, fightId).clock, h))
  {
    assert Owns(l, wallet);
  }

  lemma NextKeepsRetired(w: World, e: Event, handle: nat)
    requires Retired(w.ledger.clock, handle)
    ensures Retired(Next(w, e).ledger.clock, handle)
  {
  }

  /** A retired timer stays retired over every continuation, so no later event can fire it. */
  lemma {:induction false} RetiredTimersNeverFire(w: World, events: seq<Event>, handle: nat)
    requires TimersMatch(w.ledger) && Agrees(w.ledger, w.histories) && Retired(w.ledger.clock, handle)
    ensures TimersMatch(After(w, events).ledger) && Agrees(After(w, events).ledger, After(w, events).histories)
    ensures Retired(After(w, events).ledger.clock, handle)
    ensures !Enabled(After(w, events), Fire(handle), false)
  {
    if events != [] {
      var before := After(w, events[..|events| - 1]);
      RetiredTimersNeverFire(w, events[..|events| - 1], handle);
      NextKeepsLedger(before, events[|events| - 1]);
      NextKeepsRetired(before, events[|events| - 1], handle);
    }
  }
}
