/**
 * A fight: turns, the pausable turn timer and the grace ledger on one clock. Bounds how long players
 * who come and go can stall a fight, and says when each turn is resolved exactly once.
 */
module FightRoom {
  import opened Common
  import opened Scheduler
  import opened Grace
  import GraceHistory
  import FightPause

  const TURN_TIMER_MS: nat := 20_000
  const NEXT_TURN_DELAY_MS: nat := 1_500

  datatype Status = Fighting | Finished

  /**
   * `acted` are the players with an action for this turn, `away` the wallets in their grace window.
   * `resolved` lists the turns resolved, `winner` is set when a fight is forfeited, `pausedMs` is the time
   * that passed with someone away, and `turnStart` and `pausedAtTurnStart` are taken when a turn starts.
   */
  datatype Room = Room(
    a: string, b: string, fightId: string,
    ledger: Ledger, t: FightPause.TurnState,
    status: Status, turn: nat, acted: set<string>, away: set<string>,
    resolved: seq<nat>, winner: Option<string>, pausedMs: nat, turnStart: nat, pausedAtTurnStart: nat)

  function Now(r: Room): nat {
    r.ledger.clock.now
  }

  function WithClock(r: Room, c: Clock): Room {
    r.(ledger := r.ledger.(clock := c))
  }

  predicate BothActed(r: Room) {
    r.a in r.acted && r.b in r.acted
  }

  function StartNextTurn(r: Room): Room {
    var base := r.(turn := r.turn + 1, acted := {}, turnStart := Now(r), pausedAtTurnStart := r.pausedMs);
    var deadline := Some(Now(r) + TURN_TIMER_MS);
    if r.away != {} then base.(t := FightPause.TurnState(None, deadline, true, Some(TURN_TIMER_MS)))
    else
      var (clock, handle) := SetTimeout(r.ledger.clock, TurnTimeout, TURN_TIMER_MS);
      WithClock(base.(t := FightPause.TurnState(Some(handle), deadline, false, None)), clock)
  }

  function FinishFight(r: Room): Room {
    var stopped := WithClock(r, FightPause.ClearTimer(r.ledger.clock, r.t.timer));
    stopped.(status := Finished, t := FightPause.TurnState(None, None, false, None),
             ledger := ClearFightGrace(stopped.ledger, r.fightId))
  }

  /** `ends` is the outcome of the combat round, which decides whether the fight is over. */
  function ResolveFightTurn(r: Room, ends: bool): Room {
    var logged := r.(resolved := r.resolved + [r.turn]);
    if ends then FinishFight(logged)
    else WithClock(logged, SetTimeout(r.ledger.clock, NextTurn, NEXT_TURN_DELAY_MS).0)
  }

  /** A forfeit goes to the other player. */
  function Forfeited(r: Room, wallet: string): Room {
    FinishFight(r.(winner := Some(if wallet == r.a then r.b else r.a)))
  }

  function HandlePlayerDisconnect(r: Room, wallet: string): Room {
    if r.status == Finished || wallet !in {r.a, r.b} then r
    else
      var (ledger, outcome) := MarkDisconnect(r.ledger, wallet, r.fightId);
      match outcome
      case ForfeitedNow => Forfeited(r.(ledger := ledger), wallet)
      case AlreadyPending => r.(ledger := ledger)
      case Granted(_) =>
        var (t, clock, _) := FightPause.Pause(r.t, ledger.clock);
        r.(ledger := ledger.(clock := clock), t := t, away := r.away + {wallet})
  }

  /** The fight a return belongs to is looked up among the active ones. */
  function HandlePlayerReconnect(r: Room, wallet: string): Room {
    var (ledger, fightId) := MarkReconnect(r.ledger, wallet);
    if fightId.None? then r
    else if r.status == Finished || fightId.value != r.fightId then r.(ledger := ledger)
    else
      var away := r.away - {wallet};
      if away != {} then r.(ledger := ledger, away := away)
      else
        var (t, clock, _) := FightPause.Resume(r.t, ledger.clock);
        r.(ledger := ledger.(clock := clock), t := t, away := away)
  }

  function SubmitTurnAction(r: Room, wallet: string, ends: bool): Room {
    if r.status == Finished || wallet !in {r.a, r.b} || wallet in r.acted then r
    else
      var submitted := r.(acted := r.acted + {wallet});
      if !BothActed(submitted) then submitted
      else
        var stopped := WithClock(submitted, FightPause.ClearTimer(r.ledger.clock, r.t.timer));
        ResolveFightTurn(stopped.(t := FightPause.TurnState(None, None, false, None)), ends)
  }

  function HandleTurnTimeout(r: Room, ends: bool): Room {
    if r.status == Finished then r else ResolveFightTurn(r.(acted := r.acted + {r.a, r.b}), ends)
  }

  datatype Event =
    | Drop(wallet: string)
    | Return(wallet: string)
    | Submit(wallet: string, ends: bool)
    | Fire(handle: nat, ends: bool)
    | Pass(ms: nat)

  ghost predicate Enabled(r: Room, e: Event) {
    match e
    case Fire(handle, _) => Due(r.ledger.clock, handle)
    case Pass(ms) => MayAdvance(r.ledger.clock, ms)
    case _ => true
  }

  function FireTimer(r: Room, handle: nat, ends: bool): Room
    requires handle in r.ledger.clock.timers
  {
    var fired := WithClock(r, ClearTimeout(r.ledger.clock, handle));
    match r.ledger.clock.timers[handle].tag
    case GraceTimeout(wallet, _) =>
      var dropped := r.(ledger := FireForfeit(r.ledger, handle));
      if r.status == Finished then dropped else Forfeited(dropped, wallet)
    case TurnTimeout => HandleTurnTimeout(fired, ends)
    case NextTurn => if r.status == Finished then fired else StartNextTurn(fired)
  }

  function Next(r: Room, e: Event): Room {
    match e
    case Drop(wallet) => HandlePlayerDisconnect(r, wallet)
    case Return(wallet) => HandlePlayerReconnect(r, wallet)
    case Submit(wallet, ends) => SubmitTurnAction(r, wallet, ends)
    case Fire(handle, ends) => if handle in r.ledger.clock.timers then FireTimer(r, handle, ends) else r
    case Pass(ms) =>
      WithClock(r, Advance(r.ledger.clock, ms)).(pausedMs := r.pausedMs + if r.away != {} then ms else 0)
  }

  function CreateFight(a: string, b: string, fightId: string, graceMs: nat): Room {
    StartNextTurn(Room(a, b, fightId, Ledger(map[], graceMs, START),
                       FightPause.TurnState(None, None, false, None),
                       Fighting, 0, {}, {}, [], None, 0, 0, 0))
  }

  function After(r: Room, events: seq<Event>): Room {
    if events == [] then r else Next(After(r, events[..|events| - 1]), events[|events| - 1])
  }

  ghost predicate IsRun(r: Room, events: seq<Event>) {
    events == [] ||
    (IsRun(r, events[..|events| - 1]) && Enabled(After(r, events[..|events| - 1]), events[|events| - 1]))
  }

  // ----- The grace side of a fight -----

  /** A player's disconnected time in this fight, as the ledger has it. */
  function AwayMs(l: Ledger, wallet: string): nat {
    if wallet !in l.records then 0
    else
      l.records[wallet].usedMs +
      match l.records[wallet].active case Some(a) => Elapsed(l.clock.now, a.startedAt) case None => 0
  }

  ghost predicate RecordsOk(r: Room, graceMs: nat) {
    && r.ledger.budgetMs == graceMs
    && r.ledger.records.Keys <= {r.a, r.b}
    && (forall w :: w in r.ledger.records ==>
          && r.ledger.records[w].fightId == r.fightId
          && r.ledger.records[w].budgetMs == graceMs
          && r.ledger.records[w].usedMs <= graceMs)
  }

  /** The turn timer the fight holds is never one of the grace timers. */
  ghost predicate HoldsTurnTimer(r: Room) {
    r.t.timer.Some? ==>
      && r.t.timer.value < r.ledger.clock.nextId
      && (r.t.timer.value in r.ledger.clock.timers ==>
            r.ledger.clock.timers[r.t.timer.value].tag == TurnTimeout)
  }

  ghost predicate GraceSide(r: Room, graceMs: nat) {
    && GraceHistory.TimersMatch(r.ledger)
    && OnTime(r.ledger.clock)
    && RecordsOk(r, graceMs)
    && HoldsTurnTimer(r)
    && (r.status == Fighting ==> forall w :: w in r.away <==> IsDisconnectPending(r.ledger, w))
    && (r.status == Fighting ==> r.pausedMs <= AwayMs(r.ledger, r.a) + AwayMs(r.ledger, r.b))
  }

  /** Turn and next-turn timers may come and go without touching the ledger. */
  lemma OtherTimersKeepMatch(l: Ledger, c: Clock)
    requires GraceHistory.TimersMatch(l)
    requires c.now == l.clock.now && c.nextId >= l.clock.nextId && HandlesUsed(c)
    requires forall h :: h in l.clock.timers && l.clock.timers[h].tag.GraceTimeout? ==>
      h in c.timers && c.timers[h] == l.clock.timers[h]
    requires forall h :: h in c.timers && c.timers[h].tag.GraceTimeout? ==>
      h in l.clock.timers && c.timers[h] == l.clock.timers[h]
    ensures GraceHistory.TimersMatch(l.(clock := c))
  {
    forall w | w in l.records && l.records[w].active.Some? ensures GraceHistory.Owns(l.(clock := c), w) {
      assert GraceHistory.Owns(l, w);
    }
  }

  lemma ClearTurnTimerKeepsMatch(l: Ledger, timer: Option<nat>)
    requires GraceHistory.TimersMatch(l)
    requires timer.Some? && timer.value in l.clock.timers ==> l.clock.timers[timer.value].tag == TurnTimeout
    ensures GraceHistory.TimersMatch(l.(clock := FightPause.ClearTimer(l.clock, timer)))
  {
    OtherTimersKeepMatch(l, FightPause.ClearTimer(l.clock, timer));
  }

  lemma SetOtherTimerKeepsMatch(l: Ledger, tag: Tag, ms: nat)
    requires GraceHistory.TimersMatch(l) && !tag.GraceTimeout?
    ensures GraceHistory.TimersMatch(l.(clock := SetTimeout(l.clock, tag, ms).0))
  {
    OtherTimersKeepMatch(l, SetTimeout(l.clock, tag, ms).0);
  }

  lemma FinishGraceSide(r: Room, graceMs: nat)
    requires GraceHistory.TimersMatch(r.ledger) && OnTime(r.ledger.clock) && RecordsOk(r, graceMs)
    requires HoldsTurnTimer(r)
    ensures GraceSide(FinishFight(r), graceMs)
  {
    var stopped := WithClock(r, FightPause.ClearTimer(r.ledger.clock, r.t.timer));
    ClearTurnTimerKeepsMatch(r.ledger, r.t.timer);
    GraceHistory.ClearKeepsTimers(stopped.ledger, r.fightId);
  }

  lemma ForfeitedGraceSide(r: Room, wallet: string, graceMs: nat)
    requires GraceHistory.TimersMatch(r.ledger) && OnTime(r.ledger.clock) && RecordsOk(r, graceMs)
    requires HoldsTurnTimer(r)
    ensures GraceSide(Forfeited(r, wallet), graceMs)
  {
    FinishGraceSide(r.(winner := Some(if wallet == r.a then r.b else r.a)), graceMs);
  }

  lemma ResolveGraceSide(r: Room, ends: bool, graceMs: nat)
    requires GraceSide(r, graceMs) && r.status == Fighting
    ensures GraceSide(ResolveFightTurn(r, ends), graceMs)
  {
    if ends {
      FinishGraceSide(r.(resolved := r.resolved + [r.turn]), graceMs);
    } else {
      SetOtherTimerKeepsMatch(r.ledger, NextTurn, NEXT_TURN_DELAY_MS);
    }
  }

  lemma StartNextTurnGraceSide(r: Room, graceMs: nat)
    requires GraceSide(r, graceMs) && r.status == Fighting
    ensures GraceSide(StartNextTurn(r), graceMs)
  {
    SetOtherTimerKeepsMatch(r.ledger, TurnTimeout, TURN_TIMER_MS);
  }

  lemma DisconnectKeepsRecords(r: Room, wallet: string, graceMs: nat)
    requires GraceSide(r, graceMs) && r.status == Fighting && wallet in {r.a, r.b}
    ensures var (ledger, outcome) := MarkDisconnect(r.ledger, wallet, r.fightId);
            && GraceHistory.TimersMatch(ledger) && OnTime(ledger.clock) && RecordsOk(r.(ledger := ledger), graceMs)
            && HoldsTurnTimer(r.(ledger := ledger))
            && (outcome.AlreadyPending? ==> ledger == r.ledger)
            && (outcome.Granted? ==>
                  && (forall w :: AwayMs(ledger, w) == AwayMs(r.ledger, w))
                  && (forall w :: IsDisconnectPending(ledger, w) <==> w in r.away + {wallet}))
  {
    GraceHistory.DisconnectKeepsTimers(r.ledger, wallet, r.fightId);
  }

  lemma PauseGraceSide(r: Room, ledger: Ledger, away: set<string>, graceMs: nat)
    requires GraceHistory.TimersMatch(ledger) && OnTime(ledger.clock) && r.status == Fighting
    requires RecordsOk(r.(ledger := ledger), graceMs) && HoldsTurnTimer(r.(ledger := ledger))
    requires forall w :: IsDisconnectPending(ledger, w) <==> w in away
    requires r.pausedMs <= AwayMs(ledger, r.a) + AwayMs(ledger, r.b)
    ensures var (t, clock, _) := FightPause.Pause(r.t, ledger.clock);
            GraceSide(r.(ledger := ledger.(clock := clock), t := t, away := away), graceMs)
  {
    if !r.t.paused {
      ClearTurnTimerKeepsMatch(ledger, r.t.timer);
    }
  }

  lemma DropGraceSide(r: Room, wallet: string, graceMs: nat)
    requires GraceSide(r, graceMs)
    ensures GraceSide(HandlePlayerDisconnect(r, wallet), graceMs)
  {
    if r.status == Fighting && wallet in {r.a, r.b} {
      var (ledger, outcome) := MarkDisconnect(r.ledger, wallet, r.fightId);
      DisconnectKeepsRecords(r, wallet, graceMs);
      match outcome {
        case ForfeitedNow => ForfeitedGraceSide(r.(ledger := ledger), wallet, graceMs);
        case AlreadyPending =>
        case Granted(_) => PauseGraceSide(r, ledger, r.away + {wallet}, graceMs);
      }
    }
  }

  lemma ReturnGraceSide(r: Room, wallet: string, graceMs: nat)
    requires GraceSide(r, graceMs)
    ensures GraceSide(HandlePlayerReconnect(r, wallet), graceMs)
  {
    var (ledger, fightId) := MarkReconnect(r.ledger, wallet);
    GraceHistory.ReconnectKeepsTimers(r.ledger, wallet);
    if fightId.Some? {
      assert GraceHistory.Owns(r.ledger, wallet);
      assert AwayMs(ledger, wallet) == AwayMs(r.ledger, wallet);
      assert forall w :: AwayMs(ledger, w) == AwayMs(r.ledger, w);
      if r.status == Fighting && r.away - {wallet} == {} && r.t.paused {
        SetOtherTimerKeepsMatch(ledger, TurnTimeout, r.t.remainingMs.GetOr(0));
      }
    }
  }

  lemma SubmitGraceSide(r: Room, wallet: string, ends: bool, graceMs: nat)
    requires GraceSide(r, graceMs)
    ensures GraceSide(SubmitTurnAction(r, wallet, ends), graceMs)
  {
    var submitted := r.(acted := r.acted + {wallet});
    if r.status == Fighting && wallet in {r.a, r.b} && wallet !in r.acted && BothActed(submitted) {
      ClearTurnTimerKeepsMatch(r.ledger, r.t.timer);
      var stopped := WithClock(submitted, FightPause.ClearTimer(r.ledger.clock, r.t.timer));
      ResolveGraceSide(stopped.(t := FightPause.TurnState(None, None, false, None)), ends, graceMs);
    }
  }

  lemma FireGraceSide(r: Room, handle: nat, ends: bool, graceMs: nat)
    requires GraceSide(r, graceMs) && handle in r.ledger.clock.timers
    ensures GraceSide(FireTimer(r, handle, ends), graceMs)
  {
    var fired := WithClock(r, ClearTimeout(r.ledger.clock, handle));
    match r.ledger.clock.timers[handle].tag {
      case GraceTimeout(wallet, _) =>
        GraceHistory.FireKeepsTimers(r.ledger, handle);
        var dropped := r.(ledger := FireForfeit(r.ledger, handle));
        if r.status == Fighting { ForfeitedGraceSide(dropped, wallet, graceMs); }
      case TurnTimeout =>
        OtherTimersKeepMatch(r.ledger, fired.ledger.clock);
        if r.status == Fighting { ResolveGraceSide(fired.(acted := r.acted + {r.a, r.b}), ends, graceMs); }
      case NextTurn =>
        OtherTimersKeepMatch(r.ledger, fired.ledger.clock);
        if r.status == Fighting { StartNextTurnGraceSide(fired, graceMs); }
    }
  }

  lemma PassGraceSide(r: Room, ms: nat, graceMs: nat)
    requires GraceSide(r, graceMs) && MayAdvance(r.ledger.clock, ms)
    ensures GraceSide(Next(r, Pass(ms)), graceMs)
  {
    GraceHistory.PassKeepsTimers(r.ledger, ms);
    var r' := Next(r, Pass(ms));
    if r.status == Fighting {
      assert forall w :: AwayMs(r'.ledger, w) >= AwayMs(r.ledger, w);
      if r.away != {} {
        var w :| w in r.away;
        assert GraceHistory.Owns(r.ledger, w);
        assert w in {r.a, r.b} && AwayMs(r'.ledger, w) == AwayMs(r.ledger, w) + ms;
      }
    }
  }

  lemma NextGraceSide(r: Room, e: Event, graceMs: nat)
    requires GraceSide(r, graceMs) && Enabled(r, e)
    ensures GraceSide(Next(r, e), graceMs)
  {
    match e {
      case Drop(wallet) => DropGraceSide(r, wallet, graceMs);
      case Return(wallet) => ReturnGraceSide(r, wallet, graceMs);
      case Submit(wallet, ends) => SubmitGraceSide(r, wallet, ends, graceMs);
      case Fire(handle, ends) => FireGraceSide(r, handle, ends, graceMs);
      case Pass(ms) => PassGraceSide(r, ms, graceMs);
    }
  }

  lemma {:induction false} GraceSideHolds(a: string, b: string, fightId: string, graceMs: nat, events: seq<Event>)
    requires IsRun(CreateFight(a, b, fightId, graceMs), events)
    ensures GraceSide(After(CreateFight(a, b, fightId, graceMs), events), graceMs)
  {
    var start := CreateFight(a, b, fightId, graceMs);
    if events != [] {
      GraceSideHolds(a, b, fightId, graceMs, events[..|events| - 1]);
      NextGraceSide(After(start, events[..|events| - 1]), events[|events| - 1], graceMs);
    }
  }

  /** Nobody is away for longer than the grace, so nobody's absence pauses the fight for longer. */
  lemma AwayWithinGrace(r: Room, wallet: string, graceMs: nat)
    requires GraceSide(r, graceMs)
    ensures AwayMs(r.ledger, wallet) <= graceMs
  {
    if wallet in r.ledger.records && r.ledger.records[wallet].active.Some? {
      assert GraceHistory.Owns(r.ledger, wallet);
    }
  }
}
