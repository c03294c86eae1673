/**
 * The pausable turn timer: while a player is away the running timer is cleared and the exact time
 * left is kept, to be scheduled again on return.
 */
module FightPause {
  import opened Common
  import opened Scheduler

  /** `deadline` is None before the first turn; `remainingMs` is set while paused. */
  datatype TurnState = TurnState(timer: Option<nat>, deadline: Option<nat>, paused: bool, remainingMs: Option<nat>)

  datatype PauseResult = PauseResult(paused: bool, remainingMs: nat)

  datatype ResumeResult = ResumeResult(resumed: bool, deadline: nat, remainingMs: nat)

  function TimeLeft(deadline: Option<nat>, now: nat): nat {
    match deadline
    case Some(d) => if now <= d then d - now else 0
    case None => 0
  }

  function ClearTimer(c: Clock, timer: Option<nat>): Clock {
    match timer
    case Some(h) => ClearTimeout(c, h)
    case None => c
  }

  function Pause(t: TurnState, c: Clock): (TurnState, Clock, PauseResult) {
    if t.paused then (t, c, PauseResult(false, t.remainingMs.GetOr(0)))
    else
      var left := TimeLeft(t.deadline, c.now);
      (TurnState(None, t.deadline, true, Some(left)), ClearTimer(c, t.timer), PauseResult(true, left))
  }

  function Resume(t: TurnState, c: Clock): (TurnState, Clock, ResumeResult) {
    if !t.paused then (t, c, ResumeResult(false, t.deadline.GetOr(0), 0))
    else
      var left := t.remainingMs.GetOr(0);
      var (c', handle) := SetTimeout(c, TurnTimeout, left);
      (TurnState(Some(handle), Some(c.now + left), false, None), c', ResumeResult(true, c.now + left, left))
  }

  /** The fight's timer fields, and the clock its timers live on; nothing else is touched. */
  class PauseableFight {
    var turnTimer: Option<nat>
    var turnDeadline: Option<nat>
    var turnPaused: bool
    var turnPausedRemainingMs: Option<nat>
    var clock: Clock
    var turn: nat
    var turnActions: map<string, string>

    ghost function State(): TurnState
      reads this
    {
      TurnState(turnTimer, turnDeadline, turnPaused, turnPausedRemainingMs)
    }

    constructor (clock: Clock, turn: nat)
      ensures State() == TurnState(None, None, false, None)
      ensures this.clock == clock && this.turn == turn && turnActions == map[]
    {
      turnTimer, turnDeadline, turnPaused, turnPausedRemainingMs := None, None, false, None;
      this.clock, this.turn, turnActions := clock, turn, map[];
    }

    method PauseFightTimer() returns (r: PauseResult)
      modifies this`turnTimer, this`turnPaused, this`turnPausedRemainingMs, this`clock
      ensures (State(), clock, r) == Pause(old(State()), old(clock))
    {
      if turnPaused {
        return PauseResult(false, turnPausedRemainingMs.GetOr(0));
      }
      if turnTimer.Some? {
        clock := ClearTimeout(clock, turnTimer.value);
        turnTimer := None;
      }
      var left := TimeLeft(turnDeadline, clock.now);
      turnPaused := true;
      turnPausedRemainingMs := Some(left);
      r := PauseResult(true, left);
    }

    method ResumeFightTimer() returns (r: ResumeResult)
      modifies this`turnTimer, this`turnDeadline, this`turnPaused, this`turnPausedRemainingMs, this`clock
      ensures (State(), clock, r) == Resume(old(State()), old(clock))
    {
      if !turnPaused {
        return ResumeResult(false, turnDeadline.GetOr(0), 0);
      }
      var left := turnPausedRemainingMs.GetOr(0);
      turnPaused := false;
      turnPausedRemainingMs := None;
      turnDeadline := Some(clock.now + left);
      var scheduled := SetTimeout(clock, TurnTimeout, left);
      clock := scheduled.0;
      turnTimer := Some(scheduled.1);
      r := ResumeResult(true, turnDeadline.value, left);
    }
  }

  /** A second pause changes nothing, whatever the clock has done since the first. */
  lemma PauseNeverRecaptures(t: TurnState, c: Clock, later: Clock)
    ensures var first := Pause(t, c);
            Pause(first.0, later) == (first.0, later, PauseResult(false, first.2.remainingMs))
  {
  }

  /** A second resume changes nothing either, and still reports the deadline the first one set. */
  lemma ResumeNeverRearms(t: TurnState, c: Clock, later: Clock)
    ensures var first := Resume(t, c);
            Resume(first.0, later) == (first.0, later, ResumeResult(false, first.2.deadline, 0))
  {
  }

  // ----- One turn -----

  datatype Event = PauseTurn | ResumeTurn | Pass(ms: nat) | Fire(handle: nat)

  /** `unpausedMs` counts running time up to the first timeout; `lateResumes` the resumes after it. */
  datatype Turn = Turn(t: TurnState, clock: Clock, unpausedMs: nat, fired: nat, lateResumes: nat)

  function StartTurn(now: nat, budgetMs: nat): Turn {
    var (clock, handle) := SetTimeout(Clock(now, map[], 0), TurnTimeout, budgetMs);
    Turn(TurnState(Some(handle), Some(now + budgetMs), false, None), clock, 0, 0, 0)
  }

  ghost predicate Enabled(s: Turn, e: Event) {
    match e
    case Pass(ms) => MayAdvance(s.clock, ms)
    case Fire(handle) => Due(s.clock, handle)
    case _ => true
  }

  function Next(s: Turn, e: Event): Turn {
    match e
    case PauseTurn => var r := Pause(s.t, s.clock); s.(t := r.0, clock := r.1)
    case ResumeTurn =>
      var r := Resume(s.t, s.clock);
      s.(t := r.0, clock := r.1,
         lateResumes := s.lateResumes + if r.2.resumed && s.fired > 0 then 1 else 0)
    case Pass(ms) =>
      s.(clock := Advance(s.clock, ms),
         unpausedMs := s.unpausedMs + if !s.t.paused && s.fired == 0 then ms else 0)
    case Fire(handle) => s.(clock := ClearTimeout(s.clock, handle), fired := s.fired + 1)
  }

  function After(s: Turn, events: seq<Event>): Turn {
    if events == [] then s else Next(After(s, events[..|events| - 1]), events[|events| - 1])
  }

  ghost predicate IsRun(s: Turn, events: seq<Event>) {
    events == [] ||
    (IsRun(s, events[..|events| - 1]) && Enabled(After(s, events[..|events| - 1]), events[|events| - 1]))
  }

  /** Time left in the turn: frozen while paused, counting down to the deadline otherwise. */
  function Remaining(s: Turn): nat {
    if s.t.paused then s.t.remainingMs.GetOr(0) else TimeLeft(s.t.deadline, s.clock.now)
  }

  /** The only live timer, if any, is the one the fight holds. */
  ghost predicate SingleTimer(s: Turn) {
    && HandlesUsed(s.clock)
    && (forall h :: h in s.clock.timers ==> s.t.timer == Some(h))
  }

  ghost predicate Balanced(s: Turn, budgetMs: nat) {
    && OnTime(s.clock) && SingleTimer(s) && s.t.deadline.Some?
    && (s.t.paused <==> s.t.remainingMs.Some?)
    && (s.t.paused ==> s.clock.timers == map[])
    && (s.fired == 0 ==>
          && s.unpausedMs + Remaining(s) == budgetMs
          && s.lateResumes == 0
          && (!s.t.paused ==>
                && s.t.timer.Some? && s.t.timer.value in s.clock.timers
                && s.clock.timers[s.t.timer.value].due == s.t.deadline.value))
    && (s.fired > 0 ==>
          && s.unpausedMs == budgetMs
          && s.t.deadline.value <= s.clock.now
          && (s.t.paused ==> s.t.remainingMs == Some(0))
          && (forall h :: h in s.clock.timers ==> s.clock.timers[h].due == s.clock.now)
          && s.fired + |s.clock.timers| <= 1 + s.lateResumes)
  }

  lemma StartBalanced(now: nat, budgetMs: nat)
    ensures Balanced(StartTurn(now, budgetMs), budgetMs)
  {
  }

  lemma EmptyTimers(c: Clock, timer: Option<nat>)
    requires forall h :: h in c.timers ==> timer == Some(h)
    ensures ClearTimer(c, timer).timers == map[]
  {
  }

  lemma NextBalanced(s: Turn, e: Event, budgetMs: nat)
    requires Balanced(s, budgetMs) && Enabled(s, e)
    ensures Balanced(Next(s, e), budgetMs)
  {
    match e {
      case PauseTurn => EmptyTimers(s.clock, s.t.timer);
      case ResumeTurn => ResumeBalanced(s, budgetMs);
      case Pass(ms) => PassBalanced(s, ms, budgetMs);
      case Fire(handle) =>
        assert s.t.timer == Some(handle);
        EmptyTimers(s.clock, s.t.timer);
    }
  }

  lemma ResumeBalanced(s: Turn, budgetMs: nat)
    requires Balanced(s, budgetMs)
    ensures Balanced(Next(s, ResumeTurn), budgetMs)
  {
    if s.t.paused {
      assert s.clock.timers == map[];
      assert Next(s, ResumeTurn).clock.timers.Keys == {s.clock.nextId};
    }
  }

  lemma PassBalanced(s: Turn, ms: nat, budgetMs: nat)
    requires Balanced(s, budgetMs) && Enabled(s, Pass(ms))
    ensures Balanced(Next(s, Pass(ms)), budgetMs)
  {
    if s.fired > 0 {
      assert forall h :: h in s.clock.timers ==> ms == 0;
    } else if !s.t.paused {
      assert s.clock.now + ms <= s.t.deadline.value;
    }
  }

  /**
   * Over every interleaving of pauses, resumes, passing time and timeouts on a punctual clock:
   * un-paused time plus time left is the turn's budget until the first timeout, which comes when
   * un-paused time reaches the budget; at most one timer is live; and the turn times out again only
   * if it is resumed again after timing out.
   */
  lemma {:induction false} TurnTimeConserved(now: nat, budgetMs: nat, events: seq<Event>)
    requires IsRun(StartTurn(now, budgetMs), events)
    ensures Balanced(After(StartTurn(now, budgetMs), events), budgetMs)
  {
    if events == [] {
      StartBalanced(now, budgetMs);
    } else {
      TurnTimeConserved(now, budgetMs, events[..|events| - 1]);
      NextBalanced(After(StartTurn(now, budgetMs), events[..|events| - 1]), events[|events| - 1], budgetMs);
    }
  }

  /** A running turn that has not timed out and has used its whole budget. */
  predicate UsedUp(s: Turn, budgetMs: nat) {
    s.fired == 0 && !s.t.paused && s.unpausedMs == budgetMs
  }

  /** The timeout cannot be missed: with the budget used up, a running turn's timer is due. */
  lemma BudgetUsedMeansDue(now: nat, budgetMs: nat, events: seq<Event>)
    requires IsRun(StartTurn(now, budgetMs), events)
    requires UsedUp(After(StartTurn(now, budgetMs), events), budgetMs)
    ensures var s := After(StartTurn(now, budgetMs), events);
            s.t.timer.Some? && Due(s.clock, s.t.timer.value)
  {
    TurnTimeConserved(now, budgetMs, events);
  }

  predicate NoResume(events: seq<Event>) {
    forall k :: 0 <= k < |events| ==> !events[k].ResumeTurn?
  }

  /** However long the absence and however often it is reported, what the first pause captured stays. */
  lemma {:induction false} CaptureHolds(s: Turn, events: seq<Event>)
    requires !s.t.paused && SingleTimer(s) && IsRun(Next(s, PauseTurn), events) && NoResume(events)
    ensures var away := After(Next(s, PauseTurn), events);
            away.t == Next(s, PauseTurn).t && away.clock.timers == map[] && away.unpausedMs == s.unpausedMs &&
            away.fired == s.fired
    decreases |events|
  {
    if events == [] {
      EmptyTimers(s.clock, s.t.timer);
    } else {
      var init, e := events[..|events| - 1], events[|events| - 1];
      assert forall k :: 0 <= k < |init| ==> init[k] == events[k];
      CaptureHolds(s, init);
      var away := After(Next(s, PauseTurn), init);
      PauseNeverRecaptures(s.t, s.clock, away.clock);
      assert Enabled(away, e) && !e.ResumeTurn?;
    }
  }

  /**
   * A player who leaves a running turn and comes back, whatever happens in between, finds exactly the
   * time that was left: the resumed timer is due then, and no running time has been counted.
   */
  lemma ReturnFindsWhatWasLeft(now: nat, budgetMs: nat, events: seq<Event>, away: seq<Event>)
    requires IsRun(StartTurn(now, budgetMs), events)
    requires IsRun(Next(After(StartTurn(now, budgetMs), events), PauseTurn), away) && NoResume(away)
    requires !After(StartTurn(now, budgetMs), events).t.paused
    ensures var left := After(StartTurn(now, budgetMs), events);
            var back := Next(After(Next(left, PauseTurn), away), ResumeTurn);
            Remaining(back) == Remaining(left) && back.unpausedMs == left.unpausedMs && back.fired == left.fired &&
            Pause(left.t, left.clock).2 == PauseResult(true, Remaining(left)) &&
            Resume(After(Next(left, PauseTurn), away).t, back.clock).2 ==
              ResumeResult(true, back.clock.now + Remaining(left), Remaining(left)) &&
            back.t.timer.Some? && back.t.timer.value in back.clock.timers &&
            back.clock.timers[back.t.timer.value].due == back.clock.now + Remaining(left)
  {
    TurnTimeConserved(now, budgetMs, events);
    CaptureHolds(After(StartTurn(now, budgetMs), events), away);
  }

  /** A second drop during an absence, and a second return after it, change nothing and report just that. */
  lemma RepeatsChangeNothing(s: Turn, events: seq<Event>)
    requires !s.t.paused && SingleTimer(s) && IsRun(Next(s, PauseTurn), events) && NoResume(events)
    ensures var away := After(Next(s, PauseTurn), events);
            Pause(away.t, away.clock) == (away.t, away.clock, PauseResult(false, Remaining(s)))
    ensures var away := After(Next(s, PauseTurn), events);
            var back := Next(away, ResumeTurn);
            Resume(back.t, back.clock) ==
              (back.t, back.clock, ResumeResult(false, away.clock.now + Remaining(s), 0))
  {
    CaptureHolds(s, events);
    var away := After(Next(s, PauseTurn), events);
    PauseNeverRecaptures(s.t, s.clock, away.clock);
    ResumeNeverRearms(away.t, away.clock, Next(away, ResumeTurn).clock);
  }

  /** A pause and a resume after the timeout, before the turn is replaced, make it fire a second time. */
  lemma LateResumeFiresAgain(now: nat, budgetMs: nat, events: seq<Event>)
    requires IsRun(StartTurn(now, budgetMs), events)
    requires After(StartTurn(now, budgetMs), events).fired > 0
    ensures var s := Next(Next(After(StartTurn(now, budgetMs), events), PauseTurn), ResumeTurn);
            && s.t.timer.Some? && Enabled(s, Fire(s.t.timer.value))
            && Next(s, Fire(s.t.timer.value)).fired == After(StartTurn(now, budgetMs), events).fired + 1
  {
    TurnTimeConserved(now, budgetMs, events);
  }
}
