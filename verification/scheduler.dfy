/**
 * One-shot timers over a clock. A timer may fire once it is due; a clock that keeps its promises
 * never lets time pass a timer that is still waiting.
 */
module Scheduler {
  datatype Tag = GraceTimeout(wallet: string, fightId: string) | TurnTimeout | NextTurn

  datatype Timer = Timer(tag: Tag, due: nat)

  datatype Clock = Clock(now: nat, timers: map<nat, Timer>, nextId: nat)

  const START := Clock(0, map[], 0)

  ghost predicate HandlesUsed(c: Clock) {
    forall h :: h in c.timers ==> h < c.nextId
  }

  function SetTimeout(c: Clock, tag: Tag, ms: nat): (r: (Clock, nat)) {
    (c.(timers := c.timers[c.nextId := Timer(tag, c.now + ms)], nextId := c.nextId + 1), c.nextId)
  }

  /** Clears a timer, or consumes it when it fires. */
  function ClearTimeout(c: Clock, handle: nat): Clock {
    c.(timers := c.timers - {handle})
  }

  predicate Due(c: Clock, handle: nat) {
    handle in c.timers && c.timers[handle].due <= c.now
  }

  /** Time may pass only up to the first waiting timer. */
  ghost predicate MayAdvance(c: Clock, ms: nat) {
    forall h :: h in c.timers ==> c.now + ms <= c.timers[h].due
  }

  function Advance(c: Clock, ms: nat): Clock {
    c.(now := c.now + ms)
  }

  /** No waiting timer is overdue. */
  ghost predicate OnTime(c: Clock) {
    forall h :: h in c.timers ==> c.now <= c.timers[h].due
  }

  /** A handle that was handed out and is no longer waiting; it can never fire again. */
  ghost predicate Retired(c: Clock, handle: nat) {
    handle < c.nextId && handle !in c.timers
  }
}
