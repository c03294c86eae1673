/** What a fight's clock guarantees: how long it can be stalled, and which turns are resolved once. */
module FightTime {
  import opened Common
  import opened Scheduler
  import opened Grace
  import opened FightRoom
  import GraceHistory
  import FightPause

  predicate InTurn(r: Room) {
    r.status == Fighting && !BothActed(r)
  }

  predicate BetweenTurns(r: Room) {
    r.status == Fighting && BothActed(r)
  }

  function TurnTimeLeft(r: Room): nat {
    if r.t.paused then r.t.remainingMs.GetOr(0) else FightPause.TimeLeft(r.t.deadline, Now(r))
  }

  const ROUND_MS: nat := TURN_TIMER_MS + NEXT_TURN_DELAY_MS

  // ----- The running turn -----

  /** A running turn is paused exactly while someone is away, and its time adds up. */
  ghost predicate TurnSide(r: Room) {
    InTurn(r) ==>
      && r.t.deadline.Some?
      && (r.t.paused <==> r.t.remainingMs.Some?)
      && (r.t.paused <==> r.away != {})
      && (!r.t.paused ==>
            && r.t.timer.Some?
            && r.t.timer.value in r.ledger.clock.timers
            && r.ledger.clock.timers[r.t.timer.value] == Timer(TurnTimeout, r.t.deadline.value))
      && r.pausedAtTurnStart <= r.pausedMs
      && Now(r) + TurnTimeLeft(r) == r.turnStart + TURN_TIMER_MS + (r.pausedMs - r.pausedAtTurnStart)
      && r.turn > 0
      && r.turnStart <= (r.turn - 1) * ROUND_MS + r.pausedAtTurnStart
  }

  ghost predicate NextTurnBy(r: Room, handle: nat) {
    && handle in r.ledger.clock.timers
    && r.ledger.clock.timers[handle].tag == NextTurn
    && r.ledger.clock.timers[handle].due <= r.turn * ROUND_MS + r.pausedMs
  }

  ghost predicate GapSide(r: Room) {
    BetweenTurns(r) ==> exists h :: NextTurnBy(r, h)
  }

  ghost predicate TimeSide(r: Room) {
    TurnSide(r) && GapSide(r)
  }

  /** On a punctual clock, every fighting state is within its rounds and its pauses. */
  lemma FightWithinRounds(r: Room)
    requires TimeSide(r) && OnTime(r.ledger.clock) && r.status == Fighting
    ensures Now(r) <= r.turn * ROUND_MS + r.pausedMs
  {
    if BetweenTurns(r) {
      var h :| NextTurnBy(r, h);
    }
  }

  lemma StartNextTurnTime(r: Room)
    requires Now(r) <= r.turn * ROUND_MS + r.pausedMs
    ensures TimeSide(StartNextTurn(r))
  {
  }

  lemma ResolveTime(r: Room, ends: bool)
    requires r.status == Fighting && BothActed(r) && HandlesUsed(r.ledger.clock)
    requires Now(r) + NEXT_TURN_DELAY_MS <= r.turn * ROUND_MS + r.pausedMs || exists h :: NextTurnBy(r, h)
    ensures TimeSide(ResolveFightTurn(r, ends))
  {
    if !ends {
      var r' := ResolveFightTurn(r, ends);
      if h :| NextTurnBy(r, h) {
        assert NextTurnBy(r', h);
      } else {
        assert NextTurnBy(r', r.ledger.clock.nextId);
      }
    }
  }

  lemma DropTime(r: Room, wallet: string)
    requires TimeSide(r) && GraceHistory.TimersMatch(r.ledger) && HoldsTurnTimer(r)
    requires forall w :: w in r.ledger.records ==> r.ledger.records[w].fightId == r.fightId
    ensures TimeSide(HandlePlayerDisconnect(r, wallet))
  {
    var r' := HandlePlayerDisconnect(r, wallet);
    if BetweenTurns(r') {
      var h :| NextTurnBy(r, h);
      assert NextTurnBy(r', h);
    }
  }

  lemma ReturnTime(r: Room, wallet: string, graceMs: nat)
    requires TimeSide(r) && GraceSide(r, graceMs)
    ensures TimeSide(HandlePlayerReconnect(r, wallet))
  {
    var r' := HandlePlayerReconnect(r, wallet);
    if r.status == Fighting && MarkReconnect(r.ledger, wallet).1.Some? {
      assert GraceHistory.Owns(r.ledger, wallet);
      assert wallet in r.away;
    }
    if BetweenTurns(r') {
      var h :| NextTurnBy(r, h);
      assert NextTurnBy(r', h);
    }
  }

  lemma SubmitTime(r: Room, wallet: string, ends: bool, graceMs: nat)
    requires TimeSide(r) && GraceSide(r, graceMs)
    ensures TimeSide(SubmitTurnAction(r, wallet, ends))
  {
    var submitted := r.(acted := r.acted + {wallet});
    if r.status == Fighting && wallet in {r.a, r.b} && wallet !in r.acted && BothActed(submitted) {
      var stopped := WithClock(submitted, FightPause.ClearTimer(r.ledger.clock, r.t.timer));
      ResolveTime(stopped.(t := FightPause.TurnState(None, None, false, None)), ends);
    }
  }

  lemma FireTime(r: Room, handle: nat, ends: bool, graceMs: nat)
    requires TimeSide(r) && GraceSide(r, graceMs) && handle in r.ledger.clock.timers
    ensures TimeSide(FireTimer(r, handle, ends))
  {
    if r.status == Fighting {
      FightWithinRounds(r);
      var fired := WithClock(r, ClearTimeout(r.ledger.clock, handle));
      match r.ledger.clock.timers[handle].tag {
        case GraceTimeout(_, _) =>
        case TurnTimeout =>
          if BetweenTurns(r) {
            var h :| NextTurnBy(r, h);
            assert NextTurnBy(fired.(acted := r.acted + {r.a, r.b}), h);
          }
          ResolveTime(fired.(acted := r.acted + {r.a, r.b}), ends);
        case NextTurn => StartNextTurnTime(fired);
      }
    }
  }

  lemma PassTime(r: Room, ms: nat, graceMs: nat)
    requires TimeSide(r) && GraceSide(r, graceMs) && MayAdvance(r.ledger.clock, ms)
    ensures TimeSide(Next(r, Pass(ms)))
  {
    var r' := Next(r, Pass(ms));
    if BetweenTurns(r) {
      var h :| NextTurnBy(r, h);
      assert NextTurnBy(r', h);
    } else if InTurn(r) && !r.t.paused {
      assert Now(r) + ms <= r.t.deadline.value;
    }
  }

  lemma NextTime(r: Room, e: Event, graceMs: nat)
    requires TimeSide(r) && GraceSide(r, graceMs) && Enabled(r, e)
    ensures TimeSide(Next(r, e))
  {
    match e {
      case Drop(wallet) => DropTime(r, wallet);
      case Return(wallet) => ReturnTime(r, wallet, graceMs);
      case Submit(wallet, ends) => SubmitTime(r, wallet, ends, graceMs);
      case Fire(handle, ends) => FireTime(r, handle, ends, graceMs);
      case Pass(ms) => PassTime(r, ms, graceMs);
    }
  }

  lemma {:induction false} TimeSideHolds(a: string, b: string, fightId: string, graceMs: nat, events: seq<Event>)
    requires IsRun(CreateFight(a, b, fightId, graceMs), events)
    ensures TimeSide(After(CreateFight(a, b, fightId, graceMs), events))
    ensures GraceSide(After(CreateFight(a, b, fightId, graceMs), events), graceMs)
  {
    var start := CreateFight(a, b, fightId, graceMs);
    GraceSideHolds(a, b, fightId, graceMs, events);
    if events != [] {
      var init := events[..|events| - 1];
      TimeSideHolds(a, b, fightId, graceMs, init);
      NextTime(After(start, init), events[|events| - 1], graceMs);
    }
  }

  lemma WithinBounds(r: Room, graceMs: nat)
    requires TimeSide(r) && GraceSide(r, graceMs) && r.status == Fighting
    ensures InTurn(r) ==> Now(r) <= r.turnStart + 20_000 + 2 * graceMs
    ensures Now(r) <= r.turn * 21_500 + 2 * graceMs
  {
    FightWithinRounds(r);
    AwayWithinGrace(r, r.a, graceMs);
    AwayWithinGrace(r, r.b, graceMs);
  }

  /**
   * The stall bound, over every run of drops, returns, actions and timeouts on a punctual clock:
   * a turn is over within its timer plus both players' grace, and a fight still going in turn n has
   * lasted at most n rounds plus both players' grace, however the absences are spread over it.
   */
  lemma StallBound(a: string, b: string, fightId: string, graceMs: nat, events: seq<Event>)
    requires IsRun(CreateFight(a, b, fightId, graceMs), events)
    ensures var r := After(CreateFight(a, b, fightId, graceMs), events);
            && (InTurn(r) ==> Now(r) <= r.turnStart + 20_000 + 2 * graceMs)
            && (r.status == Fighting ==> Now(r) <= r.turn * 21_500 + 2 * graceMs)
  {
    var r := After(CreateFight(a, b, fightId, graceMs), events);
    TimeSideHolds(a, b, fightId, graceMs, events);
    if r.status == Fighting {
      WithinBounds(r, graceMs);
    }
  }

  lemma StepKeepsPlayers(r: Room, e: Event)
    ensures Next(r, e).a == r.a && Next(r, e).b == r.b && Next(r, e).fightId == r.fightId
  {
  }

  lemma {:induction false} ConstantPlayers(r: Room, events: seq<Event>)
    ensures After(r, events).a == r.a && After(r, events).b == r.b && After(r, events).fightId == r.fightId
  {
    if events != [] {
      ConstantPlayers(r, events[..|events| - 1]);
      StepKeepsPlayers(After(r, events[..|events| - 1]), events[|events| - 1]);
    }
  }

  /** A running turn is frozen exactly while some player is in a pending disconnect. */
  lemma PausedIffSomeoneAway(a: string, b: string, fightId: string, graceMs: nat, events: seq<Event>)
    requires IsRun(CreateFight(a, b, fightId, graceMs), events)
    requires InTurn(After(CreateFight(a, b, fightId, graceMs), events))
    ensures var r := After(CreateFight(a, b, fightId, graceMs), events);
            r.t.paused <==> (IsDisconnectPending(r.ledger, a) || IsDisconnectPending(r.ledger, b))
  {
    TimeSideHolds(a, b, fightId, graceMs, events);
    ConstantPlayers(CreateFight(a, b, fightId, graceMs), events);
    var r := After(CreateFight(a, b, fightId, graceMs), events);
    assert forall w :: w in r.away ==> w in r.ledger.records;
  }

  // ----- Each turn once -----

  function TurnsUpTo(n: nat): seq<nat> {
    seq(n, i requires 0 <= i < n => i + 1)
  }

  ghost predicate NoTimer(r: Room, tag: Tag) {
    forall h :: h in r.ledger.clock.timers ==> r.ledger.clock.timers[h].tag != tag
  }

  ghost predicate OneNextTurn(r: Room) {
    forall h, k ::
      (&& h in r.ledger.clock.timers && r.ledger.clock.timers[h].tag == NextTurn
       && k in r.ledger.clock.timers && r.ledger.clock.timers[k].tag == NextTurn) ==> h == k
  }

  /** The turns resolved so far are 1, 2, 3, ... and no stray timer can change that. */
  ghost predicate Clean(r: Room) {
    && (InTurn(r) ==>
          && r.turn > 0 && r.resolved == TurnsUpTo(r.turn - 1)
          && NoTimer(r, NextTurn)
          && (r.t.paused ==> NoTimer(r, TurnTimeout))
          && (forall h :: h in r.ledger.clock.timers && r.ledger.clock.timers[h].tag == TurnTimeout ==>
                r.t.timer == Some(h)))
    && (BetweenTurns(r) ==>
          && r.turn > 0 && r.resolved == TurnsUpTo(r.turn)
          && NoTimer(r, TurnTimeout) && OneNextTurn(r)
          && FightPause.TimeLeft(r.t.deadline, Now(r)) == 0
          && (r.t.paused ==> r.t.remainingMs == Some(0)))
    && (r.status == Finished ==>
          r.resolved == TurnsUpTo(r.turn) || (r.turn > 0 && r.resolved == TurnsUpTo(r.turn - 1)))
  }

  /** The last absent player returns between two turns, after dropping between them. */
  predicate ResumesBetweenTurns(r: Room, e: Event) {
    e.Return? && BetweenTurns(r) && r.t.paused && IsDisconnectPending(r.ledger, e.wallet) && r.away <= {e.wallet}
  }

  lemma TurnsUpToNext(n: nat)
    ensures TurnsUpTo(n) + [n + 1] == TurnsUpTo(n + 1)
  {
  }

  lemma ResolveClean(r: Room, ends: bool)
    requires r.status == Fighting && BothActed(r) && r.turn > 0 && r.resolved == TurnsUpTo(r.turn - 1)
    requires NoTimer(r, NextTurn) && NoTimer(r, TurnTimeout) && HandlesUsed(r.ledger.clock)
    requires FightPause.TimeLeft(r.t.deadline, Now(r)) == 0 && !r.t.paused
    ensures Clean(ResolveFightTurn(r, ends))
  {
    TurnsUpToNext(r.turn - 1);
  }

  lemma DropClean(r: Room, wallet: string, graceMs: nat)
    requires Clean(r) && GraceSide(r, graceMs)
    ensures Clean(HandlePlayerDisconnect(r, wallet))
  {
  }

  lemma ReturnClean(r: Room, wallet: string, graceMs: nat)
    requires Clean(r) && TimeSide(r) && GraceSide(r, graceMs) && !ResumesBetweenTurns(r, Return(wallet))
    ensures Clean(HandlePlayerReconnect(r, wallet))
  {
    if IsDisconnectPending(r.ledger, wallet) {
      assert GraceHistory.Owns(r.ledger, wallet);
    }
  }

  lemma SubmitClean(r: Room, wallet: string, ends: bool, graceMs: nat)
    requires Clean(r) && TimeSide(r) && GraceSide(r, graceMs)
    ensures Clean(SubmitTurnAction(r, wallet, ends))
  {
    var submitted := r.(acted := r.acted + {wallet});
    if r.status == Fighting && wallet in {r.a, r.b} && wallet !in r.acted && BothActed(submitted) {
      var stopped := WithClock(submitted, FightPause.ClearTimer(r.ledger.clock, r.t.timer));
      ResolveClean(stopped.(t := FightPause.TurnState(None, None, false, None)), ends);
    }
  }

  lemma FireClean(r: Room, handle: nat, ends: bool, graceMs: nat)
    requires Clean(r) && TimeSide(r) && GraceSide(r, graceMs) && Due(r.ledger.clock, handle)
    ensures Clean(FireTimer(r, handle, ends))
  {
    if r.status == Fighting && r.ledger.clock.timers[handle].tag == TurnTimeout {
      assert r.t.timer == Some(handle);
      var fired := WithClock(r, ClearTimeout(r.ledger.clock, handle));
      ResolveClean(fired.(acted := r.acted + {r.a, r.b}), ends);
    }
  }

  lemma NextClean(r: Room, e: Event, graceMs: nat)
    requires Clean(r) && TimeSide(r) && GraceSide(r, graceMs) && Enabled(r, e)
    requires !ResumesBetweenTurns(r, e)
    ensures Clean(Next(r, e))
  {
    match e {
      case Drop(wallet) => DropClean(r, wallet, graceMs);
      case Return(wallet) => ReturnClean(r, wallet, graceMs);
      case Submit(wallet, ends) => SubmitClean(r, wallet, ends, graceMs);
      case Fire(handle, ends) => FireClean(r, handle, ends, graceMs);
      case Pass(ms) =>
    }
  }

  ghost predicate NeverResumesBetweenTurns(r: Room, events: seq<Event>) {
    events == [] ||
    (NeverResumesBetweenTurns(r, events[..|events| - 1]) &&
     !ResumesBetweenTurns(After(r, events[..|events| - 1]), events[|events| - 1]))
  }

  /** As long as no fight resumes between two turns, the turns are resolved 1, 2, 3, ..., each once. */
  lemma {:induction false} TurnsResolvedOnce(
      a: string, b: string, fightId: string, graceMs: nat, events: seq<Event>)
    requires IsRun(CreateFight(a, b, fightId, graceMs), events)
    requires NeverResumesBetweenTurns(CreateFight(a, b, fightId, graceMs), events)
    ensures Clean(After(CreateFight(a, b, fightId, graceMs), events))
  {
    var start := CreateFight(a, b, fightId, graceMs);
    if events != [] {
      var init := events[..|events| - 1];
      TurnsResolvedOnce(a, b, fightId, graceMs, init);
      TimeSideHolds(a, b, fightId, graceMs, init);
      NextClean(After(start, init), events[|events| - 1], graceMs);
    }
  }

  /**
   * The other half: from any state between two turns, a resume there leaves a turn timer due at
   * once, and when it fires the turn that was just resolved is resolved again.
   */
  lemma ResumeBetweenTurnsResolvesAgain(r: Room, wallet: string, graceMs: nat)
    requires Clean(r) && GraceSide(r, graceMs) && ResumesBetweenTurns(r, Return(wallet))
    ensures var resumed := Next(r, Return(wallet));
            && resumed.t.timer.Some? && Enabled(resumed, Fire(resumed.t.timer.value, false))
            && Next(resumed, Fire(resumed.t.timer.value, false)).resolved == TurnsUpTo(r.turn) + [r.turn]
  {
    assert GraceHistory.Owns(r.ledger, wallet);
    assert r.away - {wallet} == {};
  }

  lemma ActionsCloseTheTurn(r: Room)
    requires r.status == Fighting && r.acted == {} && r.a != r.b && r.away == {} && r.ledger.records == map[]
    ensures var gap := Next(Next(r, Submit(r.a, false)), Submit(r.b, false));
            && BetweenTurns(gap) && gap.ledger.records == map[] && gap.away == {} && !gap.t.paused
            && gap.a == r.a && gap.fightId == r.fightId && gap.turn == r.turn
            && gap.ledger.budgetMs == r.ledger.budgetMs
  {
  }

  lemma DropBetweenTurns(gap: Room)
    requires BetweenTurns(gap) && gap.ledger.records == map[] && gap.away == {} && !gap.t.paused
    requires gap.ledger.budgetMs > 0
    ensures var dropped := Next(gap, Drop(gap.a));
            ResumesBetweenTurns(dropped, Return(gap.a)) && dropped.turn == gap.turn
  {
  }

  function Blink(a: string, b: string): seq<Event> {
    [Submit(a, false), Submit(b, false), Drop(a)]
  }

  lemma BlinkIsRun(a: string, b: string, fightId: string, graceMs: nat)
    requires a != b && graceMs > 0
    ensures var start := CreateFight(a, b, fightId, graceMs);
            && IsRun(start, Blink(a, b)) && NeverResumesBetweenTurns(start, Blink(a, b))
            && After(start, Blink(a, b)).turn == 1
            && ResumesBetweenTurns(After(start, Blink(a, b)), Return(a))
  {
    var start := CreateFight(a, b, fightId, graceMs);
    var e1, e2, e3 := Submit(a, false), Submit(b, false), Drop(a);
    AfterSteps(start, [], e1);
    AfterSteps(start, [e1], e2);
    AfterSteps(start, [e1, e2], e3);
    NeverResumesSteps(start, [], e1);
    NeverResumesSteps(start, [e1], e2);
    NeverResumesSteps(start, [e1, e2], e3);
    assert [] + [e1] == [e1] && [e1] + [e2] == [e1, e2] && [e1, e2] + [e3] == Blink(a, b);
    ActionsCloseTheTurn(start);
    DropBetweenTurns(Next(Next(start, e1), e2));
  }

  /**
   * In every fight: both players act, then one connection drops and comes back before the next turn
   * starts, and turn 1 is resolved twice.
   */
  lemma BlinkBetweenTurns(a: string, b: string, fightId: string, graceMs: nat)
    requires a != b && graceMs > 0
    ensures var start := CreateFight(a, b, fightId, graceMs);
            var back := Blink(a, b) + [Return(a)];
            var timer := After(start, back).t.timer;
            && timer.Some?
            && IsRun(start, back + [Fire(timer.value, false)])
            && After(start, back + [Fire(timer.value, false)]).resolved == TurnsUpTo(1) + [1]
  {
    var start := CreateFight(a, b, fightId, graceMs);
    BlinkIsRun(a, b, fightId, graceMs);
    TurnsResolvedOnce(a, b, fightId, graceMs, Blink(a, b));
    GraceSideHolds(a, b, fightId, graceMs, Blink(a, b));
    AfterSteps(start, Blink(a, b), Return(a));
    ResumeBetweenTurnsResolvesAgain(After(start, Blink(a, b)), a, graceMs);
    var back := Blink(a, b) + [Return(a)];
    AfterSteps(start, back, Fire(After(start, back).t.timer.value, false));
  }

  lemma NeverResumesSteps(r: Room, events: seq<Event>, e: Event)
    requires !e.Return? && NeverResumesBetweenTurns(r, events)
    ensures NeverResumesBetweenTurns(r, events + [e])
  {
    assert (events + [e])[..|events|] == events;
  }

  lemma AfterSteps(r: Room, events: seq<Event>, e: Event)
    ensures After(r, events + [e]) == Next(After(r, events), e)
    ensures IsRun(r, events + [e]) <==> IsRun(r, events) && Enabled(After(r, events), e)
  {
    assert (events + [e])[..|events|] == events;
  }
}
