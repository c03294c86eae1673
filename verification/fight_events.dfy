/**
 * What a fight does, told from its events alone: who has acted since the turn began, how long each
 * player has been gone, and from that exactly when a turn is resolved, when the fight ends and who
 * wins a forfeit, and when each timer goes off.
 */
module FightEvents {
  import opened Common
  import opened Scheduler
  import opened Grace
  import opened FightRoom
  import opened FightTime
  import GraceHistory
  import FightPause

  /** The timer an event fires, while it waits. */
  predicate FiresTag(r: Room, e: Event, tag: Tag) {
    e.Fire? && e.handle in r.ledger.clock.timers && r.ledger.clock.timers[e.handle].tag == tag
  }

  predicate StartsTurn(r: Room, e: Event) {
    r.status == Fighting && FiresTag(r, e, NextTurn)
  }

  predicate FiresForfeit(r: Room, e: Event) {
    e.Fire? && e.handle in r.ledger.clock.timers && r.ledger.clock.timers[e.handle].tag.GraceTimeout?
  }

  /** The wallets that have sent an action since the last turn began. */
  function SubmittedSince(start: Room, events: seq<Event>): set<string> {
    if events == [] then {}
    else
      var init, e := events[..|events| - 1], events[|events| - 1];
      if e.Submit? then SubmittedSince(start, init) + {e.wallet}
      else if StartsTurn(After(start, init), e) then {}
      else SubmittedSince(start, init)
  }

  /** The last the room has heard of the wallet's connection is that it dropped. */
  predicate Gone(events: seq<Event>, w: string) {
    events != [] &&
    match events[|events| - 1]
    case Drop(x) => x == w || Gone(events[..|events| - 1], w)
    case Return(x) => x != w && Gone(events[..|events| - 1], w)
    case _ => Gone(events[..|events| - 1], w)
  }

  /** All the time the wallet has been gone. */
  function TimeGone(events: seq<Event>, w: string): nat {
    if events == [] then 0
    else
      var init, e := events[..|events| - 1], events[|events| - 1];
      TimeGone(init, w) + if e.Pass? && Gone(init, w) then e.ms else 0
  }

  // ----- Who has acted -----

  ghost predicate ActedIs(r: Room, submitted: set<string>) {
    InTurn(r) ==> forall w :: w in {r.a, r.b} ==> (w in r.acted <==> w in submitted)
  }

  lemma StepActed(r: Room, e: Event, submitted: set<string>)
    requires ActedIs(r, submitted)
    ensures ActedIs(Next(r, e),
                    if e.Submit? then submitted + {e.wallet} else if StartsTurn(r, e) then {} else submitted)
  {
  }

  /** In a running turn the players counted as having acted are those who have sent an action since it began. */
  lemma {:induction false} ActedIsSubmitted(start: Room, events: seq<Event>)
    requires start.acted == {}
    ensures ActedIs(After(start, events), SubmittedSince(start, events))
  {
    if events != [] {
      var init := events[..|events| - 1];
      ActedIsSubmitted(start, init);
      StepActed(After(start, init), events[|events| - 1], SubmittedSince(start, init));
    }
  }

  // ----- How long each player has been gone -----

  ghost predicate GoneIs(r: Room, events: seq<Event>) {
    r.status == Fighting ==> forall w :: w in {r.a, r.b} ==> GoneIsAt(r, events, w)
  }

  ghost predicate GoneIsAt(r: Room, events: seq<Event>, w: string) {
    (IsDisconnectPending(r.ledger, w) <==> Gone(events, w)) && AwayMs(r.ledger, w) == TimeGone(events, w)
  }

  lemma DropGone(r: Room, init: seq<Event>, wallet: string, w: string, graceMs: nat)
    requires GraceSide(r, graceMs) && w in {r.a, r.b} && r.status == Fighting && GoneIsAt(r, init, w)
    requires Next(r, Drop(wallet)).status == Fighting
    ensures GoneIsAt(Next(r, Drop(wallet)), init + [Drop(wallet)], w)
  {
    assert (init + [Drop(wallet)])[..|init|] == init;
    if wallet in {r.a, r.b} {
      DisconnectKeepsRecords(r, wallet, graceMs);
    }
  }

  lemma ReconnectEndsAbsence(r: Room, wallet: string, w: string, graceMs: nat)
    requires GraceSide(r, graceMs)
    ensures var ledger := MarkReconnect(r.ledger, wallet).0;
            AwayMs(ledger, w) == AwayMs(r.ledger, w) &&
            (IsDisconnectPending(ledger, w) <==> IsDisconnectPending(r.ledger, w) && w != wallet)
  {
    if MarkReconnect(r.ledger, wallet).1.Some? { assert GraceHistory.Owns(r.ledger, wallet); }
  }

  lemma ReturnGone(r: Room, init: seq<Event>, wallet: string, w: string, graceMs: nat)
    requires GraceSide(r, graceMs) && w in {r.a, r.b} && r.status == Fighting && GoneIsAt(r, init, w)
    ensures GoneIsAt(Next(r, Return(wallet)), init + [Return(wallet)], w)
  {
    assert (init + [Return(wallet)])[..|init|] == init;
    ReconnectEndsAbsence(r, wallet, w, graceMs);
    assert Next(r, Return(wallet)).ledger.records == MarkReconnect(r.ledger, wallet).0.records;
  }

  lemma PassGone(r: Room, init: seq<Event>, ms: nat, w: string, graceMs: nat)
    requires GraceSide(r, graceMs) && w in {r.a, r.b} && GoneIsAt(r, init, w)
    ensures GoneIsAt(Next(r, Pass(ms)), init + [Pass(ms)], w)
  {
    assert (init + [Pass(ms)])[..|init|] == init;
    if IsDisconnectPending(r.ledger, w) { assert GraceHistory.Owns(r.ledger, w); }
  }

  lemma OtherGone(r: Room, init: seq<Event>, e: Event, w: string)
    requires e.Submit? || e.Fire?
    requires w in {r.a, r.b} && r.status == Fighting && GoneIsAt(r, init, w) && Next(r, e).status == Fighting
    ensures GoneIsAt(Next(r, e), init + [e], w)
  {
    assert (init + [e])[..|init|] == init;
    assert Next(r, e).ledger.records == r.ledger.records && Next(r, e).ledger.clock.now == r.ledger.clock.now;
  }

  lemma StepGone(r: Room, init: seq<Event>, e: Event, graceMs: nat)
    requires GraceSide(r, graceMs) && GoneIs(r, init)
    ensures GoneIs(Next(r, e), init + [e])
  {
    if r.status == Fighting && Next(r, e).status == Fighting {
      forall w | w in {r.a, r.b} ensures GoneIsAt(Next(r, e), init + [e], w) {
        match e
        case Drop(wallet) => DropGone(r, init, wallet, w, graceMs);
        case Return(wallet) => ReturnGone(r, init, wallet, w, graceMs);
        case Pass(ms) => PassGone(r, init, ms, w, graceMs);
        case _ => OtherGone(r, init, e, w);
      }
    }
    FinishedStays(r, e);
  }

  lemma FinishedStays(r: Room, e: Event)
    ensures Next(r, e).a == r.a && Next(r, e).b == r.b && Next(r, e).fightId == r.fightId
    ensures r.status == Finished ==>
              Next(r, e).status == Finished && Next(r, e).resolved == r.resolved && Next(r, e).winner == r.winner
  {
  }

  /** While the fight goes on, the ledger has each player gone exactly when and for as long as the events say. */
  lemma {:induction false} LedgerIsConnections(
      a: string, b: string, fightId: string, graceMs: nat, events: seq<Event>)
    requires IsRun(CreateFight(a, b, fightId, graceMs), events)
    ensures var r := After(CreateFight(a, b, fightId, graceMs), events);
            GraceSide(r, graceMs) && GoneIs(r, events) && r.a == a && r.b == b && r.fightId == fightId
  {
    var start := CreateFight(a, b, fightId, graceMs);
    GraceSideHolds(a, b, fightId, graceMs, events);
    ConstantPlayers(start, events);
    if events != [] {
      var init, e := events[..|events| - 1], events[|events| - 1];
      LedgerIsConnections(a, b, fightId, graceMs, init);
      StepGone(After(start, init), init, e, graceMs);
      assert init + [e] == events;
    }
  }

  /** Whoever comes back finds the fight of this room, exactly while gone. */
  lemma ReturnFindsItsFight(a: string, b: string, fightId: string, graceMs: nat, events: seq<Event>, w: string)
    requires IsRun(CreateFight(a, b, fightId, graceMs), events) && w in {a, b}
    requires After(CreateFight(a, b, fightId, graceMs), events).status == Fighting
    ensures MarkReconnect(After(CreateFight(a, b, fightId, graceMs), events).ledger, w).1 ==
            if Gone(events, w) then Some(fightId) else None
  {
    LedgerIsConnections(a, b, fightId, graceMs, events);
    assert GoneIsAt(After(CreateFight(a, b, fightId, graceMs), events), events, w);
  }

  // ----- When a turn is resolved -----

  function Other(r: Room, w: string): string {
    if w == r.a then r.b else r.a
  }

  /** The running turn times out, or a player acts whom the other has been waiting for. */
  predicate ClosesTurn(r: Room, submitted: set<string>, e: Event) {
    r.status == Fighting && |r.resolved| < r.turn &&
    (FiresTag(r, e, TurnTimeout) ||
     (e.Submit? && e.wallet in {r.a, r.b} && e.wallet !in submitted && Other(r, e.wallet) in submitted))
  }

  lemma TurnsLength(n: nat)
    ensures |TurnsUpTo(n)| == n
  {
  }

  lemma OpenTurn(r: Room)
    requires Clean(r) && r.status == Fighting
    ensures InTurn(r) <==> |r.resolved| < r.turn
  {
    TurnsLength(r.turn);
    if r.turn > 0 { TurnsLength(r.turn - 1); }
  }

  lemma OnlyClosingResolves(r: Room, e: Event, submitted: set<string>)
    requires Clean(r) && Enabled(r, e) && ActedIs(r, submitted) && r.a != r.b && r.status == Fighting
    ensures Next(r, e).resolved == if ClosesTurn(r, submitted, e) then r.resolved + [r.turn] else r.resolved
  {
    OpenTurn(r);
    if e.Submit? && e.wallet in {r.a, r.b} {
      assert Other(r, e.wallet) in {r.a, r.b} && Other(r, e.wallet) != e.wallet;
    }
  }

  /**
   * Over every run without a resume between turns: an event resolves a turn exactly if it is the timeout
   * of the running turn, or the action of one player when the other has acted since the turn began; and
   * it is the running turn that is resolved.
   */
  lemma ResolvesExactly(a: string, b: string, fightId: string, graceMs: nat, events: seq<Event>, e: Event)
    requires a != b && IsRun(CreateFight(a, b, fightId, graceMs), events + [e])
    requires NeverResumesBetweenTurns(CreateFight(a, b, fightId, graceMs), events)
    ensures var start := CreateFight(a, b, fightId, graceMs);
            var r := After(start, events);
            After(start, events + [e]).resolved ==
              if ClosesTurn(r, SubmittedSince(start, events), e) then r.resolved + [r.turn] else r.resolved
  {
    var start := CreateFight(a, b, fightId, graceMs);
    var r := After(start, events);
    AfterSteps(start, events, e);
    TurnsResolvedOnce(a, b, fightId, graceMs, events);
    ActedIsSubmitted(start, events);
    ConstantPlayers(start, events);
    if r.status == Fighting {
      OnlyClosingResolves(r, e, SubmittedSince(start, events));
    } else {
      FinishedStays(r, e);
    }
  }

  // ----- When the fight ends -----

  /** A drop by a player who has been gone for the whole grace already. */
  predicate DropsSpent(r: Room, events: seq<Event>, e: Event, graceMs: nat) {
    e.Drop? && e.wallet in {r.a, r.b} && !Gone(events, e.wallet) && TimeGone(events, e.wallet) >= graceMs
  }

  predicate EndsRound(e: Event) {
    (e.Submit? && e.ends) || (e.Fire? && e.ends)
  }

  lemma DropEnds(r: Room, events: seq<Event>, e: Event, graceMs: nat)
    requires e.Drop? && r.status == Fighting && GraceSide(r, graceMs) && GoneIs(r, events)
    ensures Next(r, e).status == Finished <==> DropsSpent(r, events, e, graceMs)
    ensures Next(r, e).status == Finished ==> Next(r, e).winner == Some(Other(r, e.wallet))
    ensures Next(r, e).resolved == r.resolved
  {
    if e.wallet in {r.a, r.b} {
      assert GoneIsAt(r, events, e.wallet);
    }
  }

  lemma ForfeitEnds(r: Room, events: seq<Event>, e: Event, graceMs: nat)
    requires FiresForfeit(r, e) && r.status == Fighting && GraceSide(r, graceMs) && GoneIs(r, events) && Enabled(r, e)
    ensures Next(r, e).status == Finished && Next(r, e).resolved == r.resolved
    ensures var wallet := r.ledger.clock.timers[e.handle].tag.wallet;
            wallet in {r.a, r.b} && Gone(events, wallet) && TimeGone(events, wallet) == graceMs &&
            Next(r, e).winner == Some(Other(r, wallet))
  {
    var wallet := r.ledger.clock.timers[e.handle].tag.wallet;
    assert GraceHistory.Owns(r.ledger, wallet) && wallet in r.ledger.records;
    assert GoneIsAt(r, events, wallet);
  }

  lemma RoundEnds(r: Room, e: Event)
    requires r.status == Fighting && !e.Drop? && !FiresForfeit(r, e)
    ensures Next(r, e).status == Finished <==> Next(r, e).resolved != r.resolved && EndsRound(e)
    ensures Next(r, e).winner == r.winner
  {
  }

  /**
   * Over every run a fight that goes on is finished by an event exactly if the event resolves a turn that
   * decides it, fires a forfeit, or is a drop by a player whose grace is gone. A forfeit comes when its
   * player has been gone for exactly the grace, and the other player wins.
   */
  lemma FinishesExactly(a: string, b: string, fightId: string, graceMs: nat, events: seq<Event>, e: Event)
    requires IsRun(CreateFight(a, b, fightId, graceMs), events + [e])
    requires After(CreateFight(a, b, fightId, graceMs), events).status == Fighting
    ensures var start := CreateFight(a, b, fightId, graceMs);
            var r, after := After(start, events), After(start, events + [e]);
            (after.status == Finished <==>
               (after.resolved != r.resolved && EndsRound(e)) || FiresForfeit(r, e) ||
               DropsSpent(r, events, e, graceMs)) &&
            (FiresForfeit(r, e) ==>
               var wallet := r.ledger.clock.timers[e.handle].tag.wallet;
               wallet in {a, b} && Gone(events, wallet) && TimeGone(events, wallet) == graceMs &&
               after.winner == Some(if wallet == a then b else a)) &&
            (DropsSpent(r, events, e, graceMs) ==> after.winner == Some(if e.wallet == a then b else a)) &&
            (!FiresForfeit(r, e) && !DropsSpent(r, events, e, graceMs) ==> after.winner == r.winner)
  {
    var start := CreateFight(a, b, fightId, graceMs);
    var r := After(start, events);
    AfterSteps(start, events, e);
    LedgerIsConnections(a, b, fightId, graceMs, events);
    if e.Drop? {
      DropEnds(r, events, e, graceMs);
      if Next(r, e).status == Fighting { DropKeepsWinner(r, e); }
    } else if FiresForfeit(r, e) {
      ForfeitEnds(r, events, e, graceMs);
    } else {
      RoundEnds(r, e);
    }
  }

  lemma DropKeepsWinner(r: Room, e: Event)
    requires e.Drop? && Next(r, e).status == Fighting
    ensures Next(r, e).winner == r.winner
  {
  }

  /** Nobody wins by forfeit before somebody has forfeited. */
  lemma {:induction false} NoWinnerYet(a: string, b: string, fightId: string, graceMs: nat, events: seq<Event>)
    requires IsRun(CreateFight(a, b, fightId, graceMs), events)
    requires After(CreateFight(a, b, fightId, graceMs), events).status == Fighting
    ensures After(CreateFight(a, b, fightId, graceMs), events).winner == None
  {
    var start := CreateFight(a, b, fightId, graceMs);
    if events != [] {
      var init, e := events[..|events| - 1], events[|events| - 1];
      assert init + [e] == events;
      FinishedStays(After(start, init), e);
      NoWinnerYet(a, b, fightId, graceMs, init);
      FinishesExactly(a, b, fightId, graceMs, init, e);
    }
  }

  /** No record and no forfeit of the fight is left, and the turn timer is put away. */
  ghost predicate PutAway(r: Room) {
    r.ledger.records == map[] && r.t == FightPause.TurnState(None, None, false, None) &&
    forall h :: h in r.ledger.clock.timers ==> !r.ledger.clock.timers[h].tag.GraceTimeout?
  }

  lemma FinishPutsAway(r: Room, graceMs: nat)
    requires GraceHistory.TimersMatch(r.ledger) && OnTime(r.ledger.clock) && RecordsOk(r, graceMs)
    requires HoldsTurnTimer(r)
    ensures PutAway(FinishFight(r))
  {
    var stopped := WithClock(r, FightPause.ClearTimer(r.ledger.clock, r.t.timer));
    FinishGraceSide(r, graceMs);
    assert RecordsOf(stopped.ledger, r.fightId) == r.ledger.records.Keys;
    assert FinishFight(r).ledger.records == map[];
    forall h | h in FinishFight(r).ledger.clock.timers
      ensures !FinishFight(r).ledger.clock.timers[h].tag.GraceTimeout?
    {
      assert GraceHistory.TimersMatch(FinishFight(r).ledger);
    }
  }

  lemma DropPutsAway(r: Room, wallet: string, graceMs: nat)
    requires GraceSide(r, graceMs) && r.status == Fighting && Next(r, Drop(wallet)).status == Finished
    ensures PutAway(Next(r, Drop(wallet)))
  {
    var ledger := MarkDisconnect(r.ledger, wallet, r.fightId).0;
    DisconnectKeepsRecords(r, wallet, graceMs);
    FinishPutsAway(r.(ledger := ledger, winner := Some(Other(r, wallet))), graceMs);
  }

  lemma ForfeitPutsAway(r: Room, e: Event, graceMs: nat)
    requires GraceSide(r, graceMs) && r.status == Fighting && FiresForfeit(r, e)
    ensures PutAway(Next(r, e))
  {
    var dropped := r.(ledger := FireForfeit(r.ledger, e.handle));
    GraceHistory.FireKeepsTimers(r.ledger, e.handle);
    FinishPutsAway(dropped.(winner := Some(Other(r, r.ledger.clock.timers[e.handle].tag.wallet))), graceMs);
  }

  lemma RoundPutsAway(r: Room, ends: bool, graceMs: nat)
    requires GraceSide(r, graceMs) && r.status == Fighting && ResolveFightTurn(r, ends).status == Finished
    ensures PutAway(ResolveFightTurn(r, ends))
  {
    FinishPutsAway(r.(resolved := r.resolved + [r.turn]), graceMs);
  }

  lemma SubmitPutsAway(r: Room, wallet: string, ends: bool, graceMs: nat)
    requires GraceSide(r, graceMs) && r.status == Fighting && Next(r, Submit(wallet, ends)).status == Finished
    ensures PutAway(Next(r, Submit(wallet, ends)))
  {
    var submitted := r.(acted := r.acted + {wallet});
    var stopped := WithClock(submitted, FightPause.ClearTimer(r.ledger.clock, r.t.timer));
    ClearTurnTimerKeepsMatch(r.ledger, r.t.timer);
    RoundPutsAway(stopped.(t := FightPause.TurnState(None, None, false, None)), ends, graceMs);
  }

  lemma TimeoutPutsAway(r: Room, e: Event, graceMs: nat)
    requires GraceSide(r, graceMs) && r.status == Fighting && FiresTag(r, e, TurnTimeout)
    requires Next(r, e).status == Finished
    ensures PutAway(Next(r, e))
  {
    var fired := WithClock(r, ClearTimeout(r.ledger.clock, e.handle));
    OtherTimersKeepMatch(r.ledger, fired.ledger.clock);
    RoundPutsAway(fired.(acted := r.acted + {r.a, r.b}), e.ends, graceMs);
  }

  lemma StepPutsAway(r: Room, e: Event, graceMs: nat)
    requires GraceSide(r, graceMs) && Enabled(r, e) && Next(r, e).status == Finished
    requires r.status == Finished ==> PutAway(r)
    ensures PutAway(Next(r, e))
  {
    if r.status == Fighting {
      match e
      case Drop(wallet) => DropPutsAway(r, wallet, graceMs);
      case Submit(wallet, ends) => SubmitPutsAway(r, wallet, ends, graceMs);
      case Fire(handle, _) =>
        if FiresForfeit(r, e) { ForfeitPutsAway(r, e, graceMs); } else { TimeoutPutsAway(r, e, graceMs); }
      case _ =>
    }
  }

  /** A finished fight leaves no record, no forfeit and no turn timer behind, whatever comes after. */
  lemma {:induction false} FinishedLeavesNothing(
      a: string, b: string, fightId: string, graceMs: nat, events: seq<Event>)
    requires IsRun(CreateFight(a, b, fightId, graceMs), events)
    requires After(CreateFight(a, b, fightId, graceMs), events).status == Finished
    ensures PutAway(After(CreateFight(a, b, fightId, graceMs), events))
  {
    var start := CreateFight(a, b, fightId, graceMs);
    if events != [] {
      var init := events[..|events| - 1];
      GraceSideHolds(a, b, fightId, graceMs, init);
      if After(start, init).status == Finished { FinishedLeavesNothing(a, b, fightId, graceMs, init); }
      StepPutsAway(After(start, init), events[|events| - 1], graceMs);
    }
  }

  // ----- When the timers go off -----

  /** Time that has passed since the last turn began with neither player gone. */
  function PlayTime(start: Room, events: seq<Event>): nat {
    if events == [] then 0
    else
      var init, e := events[..|events| - 1], events[|events| - 1];
      if StartsTurn(After(start, init), e) then 0
      else PlayTime(start, init) + if e.Pass? && !Gone(init, start.a) && !Gone(init, start.b) then e.ms else 0
  }

  /** Time that has passed since a turn was last resolved. */
  function TimeSinceResolved(start: Room, events: seq<Event>): nat {
    if events == [] then 0
    else
      var init, e := events[..|events| - 1], events[|events| - 1];
      if After(start, events).resolved != After(start, init).resolved then 0
      else TimeSinceResolved(start, init) + if e.Pass? then e.ms else 0
  }

  ghost predicate PlayTimeIs(r: Room, played: nat) {
    r.status == Fighting ==>
      r.pausedAtTurnStart <= r.pausedMs && Now(r) == r.turnStart + played + (r.pausedMs - r.pausedAtTurnStart)
  }

  /** Turn clock and pauses move only as time passes, or when a turn starts. */
  lemma TurnClockStays(r: Room, e: Event)
    requires !e.Pass? && !StartsTurn(r, e) && Next(r, e).status == Fighting
    ensures Now(Next(r, e)) == Now(r) && Next(r, e).turnStart == r.turnStart
    ensures Next(r, e).pausedMs == r.pausedMs && Next(r, e).pausedAtTurnStart == r.pausedAtTurnStart
  {
  }

  lemma StepPlayTime(r: Room, init: seq<Event>, e: Event, played: nat, graceMs: nat)
    requires PlayTimeIs(r, played) && GraceSide(r, graceMs) && GoneIs(r, init)
    ensures PlayTimeIs(Next(r, e),
                       if StartsTurn(r, e) then 0
                       else played + if e.Pass? && !Gone(init, r.a) && !Gone(init, r.b) then e.ms else 0)
  {
    if e.Pass? && r.status == Fighting {
      assert GoneIsAt(r, init, r.a) && GoneIsAt(r, init, r.b);
      assert forall w :: w in r.away ==> w in r.ledger.records;
    } else if Next(r, e).status == Fighting && !StartsTurn(r, e) {
      FinishedStays(r, e);
      TurnClockStays(r, e);
    }
  }

  lemma {:induction false} PlayTimeHolds(a: string, b: string, fightId: string, graceMs: nat, events: seq<Event>)
    requires IsRun(CreateFight(a, b, fightId, graceMs), events)
    ensures PlayTimeIs(After(CreateFight(a, b, fightId, graceMs), events),
                       PlayTime(CreateFight(a, b, fightId, graceMs), events))
  {
    var start := CreateFight(a, b, fightId, graceMs);
    if events != [] {
      var init := events[..|events| - 1];
      PlayTimeHolds(a, b, fightId, graceMs, init);
      LedgerIsConnections(a, b, fightId, graceMs, init);
      StepPlayTime(After(start, init), init, events[|events| - 1], PlayTime(start, init), graceMs);
    }
  }

  /** Every waiting start of a turn is due one and a half seconds after the resolution. */
  ghost predicate GapTimeIs(r: Room, since: nat) {
    BetweenTurns(r) ==>
      forall h :: h in r.ledger.clock.timers && r.ledger.clock.timers[h].tag == NextTurn ==>
        r.ledger.clock.timers[h].due + since == Now(r) + 1_500
  }

  /** No event but a resolution sets a start of a turn. */
  lemma NextTurnsStay(r: Room, e: Event, h: nat)
    requires BetweenTurns(r) && !e.Pass? && Next(r, e).resolved == r.resolved && BetweenTurns(Next(r, e))
    requires h in Next(r, e).ledger.clock.timers && Next(r, e).ledger.clock.timers[h].tag == NextTurn
    ensures h in r.ledger.clock.timers && Next(r, e).ledger.clock.timers[h] == r.ledger.clock.timers[h]
    ensures Now(Next(r, e)) == Now(r)
  {
  }

  lemma ResolvingSetsNextTurn(r: Room, e: Event, h: nat, graceMs: nat)
    requires InTurn(r) && Clean(r) && TimeSide(r) && GraceSide(r, graceMs) && Enabled(r, e) && BetweenTurns(Next(r, e))
    requires h in Next(r, e).ledger.clock.timers && Next(r, e).ledger.clock.timers[h].tag == NextTurn
    ensures Next(r, e).resolved != r.resolved && Next(r, e).ledger.clock.timers[h].due == Now(Next(r, e)) + 1_500
  {
  }

  lemma GapKeepsResolved(r: Room, e: Event, graceMs: nat)
    requires BetweenTurns(r) && Clean(r) && GraceSide(r, graceMs) && Enabled(r, e) && BetweenTurns(Next(r, e))
    ensures Next(r, e).resolved == r.resolved
  {
  }

  lemma StepGapTime(r: Room, e: Event, since: nat, graceMs: nat)
    requires GapTimeIs(r, since) && Clean(r) && TimeSide(r) && GraceSide(r, graceMs) && Enabled(r, e)
    ensures GapTimeIs(Next(r, e), if Next(r, e).resolved != r.resolved then 0 else since + if e.Pass? then e.ms else 0)
  {
    var after := Next(r, e);
    if BetweenTurns(after) {
      FinishedStays(r, e);
      if BetweenTurns(r) { GapKeepsResolved(r, e, graceMs); }
      forall h | h in after.ledger.clock.timers && after.ledger.clock.timers[h].tag == NextTurn
        ensures after.ledger.clock.timers[h].due +
                (if after.resolved != r.resolved then 0 else since + if e.Pass? then e.ms else 0) == Now(after) + 1_500
      {
        if InTurn(r) {
          ResolvingSetsNextTurn(r, e, h, graceMs);
        } else if !e.Pass? {
          NextTurnsStay(r, e, h);
        }
      }
    }
  }

  lemma {:induction false} GapTimeHolds(a: string, b: string, fightId: string, graceMs: nat, events: seq<Event>)
    requires IsRun(CreateFight(a, b, fightId, graceMs), events)
    requires NeverResumesBetweenTurns(CreateFight(a, b, fightId, graceMs), events)
    ensures GapTimeIs(After(CreateFight(a, b, fightId, graceMs), events),
                      TimeSinceResolved(CreateFight(a, b, fightId, graceMs), events))
  {
    var start := CreateFight(a, b, fightId, graceMs);
    if events != [] {
      var init := events[..|events| - 1];
      GapTimeHolds(a, b, fightId, graceMs, init);
      TurnsResolvedOnce(a, b, fightId, graceMs, init);
      TimeSideHolds(a, b, fightId, graceMs, init);
      StepGapTime(After(start, init), events[|events| - 1], TimeSinceResolved(start, init), graceMs);
    }
  }

  lemma TimeoutIsTheTurns(r: Room, e: Event, graceMs: nat)
    requires Clean(r) && TimeSide(r) && GraceSide(r, graceMs) && Enabled(r, e) && FiresTag(r, e, TurnTimeout)
    requires r.status == Fighting
    ensures InTurn(r) && !r.t.paused && TurnTimeLeft(r) == 0
  {
  }

  /**
   * Over every run without a resume between turns: a turn times out when it has been played, with both
   * players there, for exactly twenty seconds; and the next one starts exactly one and a half seconds
   * after the last was resolved.
   */
  lemma TimersKeepTime(a: string, b: string, fightId: string, graceMs: nat, events: seq<Event>, e: Event)
    requires IsRun(CreateFight(a, b, fightId, graceMs), events + [e])
    requires NeverResumesBetweenTurns(CreateFight(a, b, fightId, graceMs), events)
    requires After(CreateFight(a, b, fightId, graceMs), events).status == Fighting
    ensures var start := CreateFight(a, b, fightId, graceMs);
            var r := After(start, events);
            (FiresTag(r, e, TurnTimeout) ==> PlayTime(start, events) == 20_000) &&
            (StartsTurn(r, e) ==> TimeSinceResolved(start, events) == 1_500)
  {
    var start := CreateFight(a, b, fightId, graceMs);
    var r := After(start, events);
    AfterSteps(start, events, e);
    TimeSideHolds(a, b, fightId, graceMs, events);
    TurnsResolvedOnce(a, b, fightId, graceMs, events);
    if FiresTag(r, e, TurnTimeout) {
      TimeoutIsTheTurns(r, e, graceMs);
      PlayTimeHolds(a, b, fightId, graceMs, events);
    } else if StartsTurn(r, e) {
      assert BetweenTurns(r);
      GapTimeHolds(a, b, fightId, graceMs, events);
    }
  }
}
