/**
 * The treasury queue: a FIFO of tasks run at most `concurrency` at a time. A task's thunk may
 * enqueue more tasks while it is being started, so pumps nest; settling a task's promise and giving
 * its slot back are two separate steps.
 */
module TreasuryQueue {
  import opened Common

  // ----- The queue as a machine over its steps -----

  /** A synchronous call in progress: a pump loop, or the start of a task inside one. */
  datatype Frame = Pumping | Starting(task: nat)

  datatype Outcome = Resolved(value: int) | Rejected(error: int)

  /**
   * Tasks are numbered in the order they are enqueued. `stack` holds the calls in progress, the
   * innermost last; `settled` lists the settled tasks in order and `outcomes` what each settled with.
   */
  datatype Queue = Queue(
    concurrency: nat, enqueued: nat, waiting: seq<nat>, inFlight: nat, stack: seq<Frame>,
    started: seq<nat>, settled: seq<nat>, outcomes: map<nat, Outcome>, released: seq<nat>)

  function NewQueue(concurrency: nat): Queue {
    Queue(concurrency, 0, [], 0, [], [], [], map[], [])
  }

  function Top(q: Queue): Option<Frame> {
    if q.stack == [] then None else Some(q.stack[|q.stack| - 1])
  }

  datatype Event = Enqueue | Pump | ThunkReturns | Settle(task: nat, outcome: Outcome) | Release(task: nat)

  /** Callers run between tasks, or inside a thunk; promises settle only when nothing is running. */
  predicate Enabled(q: Queue, e: Event) {
    match e
    case Enqueue => Top(q).None? || Top(q).value.Starting?
    case Pump => Top(q) == Some(Pumping)
    case ThunkReturns => Top(q).Some? && Top(q).value.Starting?
    case Settle(task, _) => q.stack == [] && task in q.started && task !in q.settled
    case Release(task) => q.stack == [] && task in q.settled && task !in q.released
  }

  function Next(q: Queue, e: Event): Queue
    requires Enabled(q, e)
  {
    match e
    case Enqueue => q.(enqueued := q.enqueued + 1, waiting := q.waiting + [q.enqueued], stack := q.stack + [Pumping])
    case Pump =>
      if q.inFlight < q.concurrency && q.waiting != [] then
        q.(waiting := q.waiting[1..], inFlight := q.inFlight + 1,
           started := q.started + [q.waiting[0]], stack := q.stack + [Starting(q.waiting[0])])
      else q.(stack := q.stack[..|q.stack| - 1])
    case ThunkReturns => q.(stack := q.stack[..|q.stack| - 1])
    case Settle(task, outcome) => q.(settled := q.settled + [task], outcomes := q.outcomes[task := outcome])
    case Release(task) =>
      q.(released := q.released + [task], stack := [Pumping],
         inFlight := if q.inFlight == 0 then 0 else q.inFlight - 1)
  }

  ghost predicate IsRun(q: Queue, events: seq<Event>) {
    events == [] ||
    (IsRun(q, events[..|events| - 1]) &&
     Enabled(After(q, events[..|events| - 1]), events[|events| - 1]))
  }

  ghost function After(q: Queue, events: seq<Event>): Queue {
    if events == [] then q
    else
      var before := After(q, events[..|events| - 1]);
      if Enabled(before, events[|events| - 1]) then Next(before, events[|events| - 1]) else before
  }

  // ----- What every reachable state keeps -----

  function UpTo(n: nat): seq<nat> {
    seq(n, i requires 0 <= i < n => i)
  }

  ghost predicate Subset(a: seq<nat>, b: seq<nat>) {
    forall x :: x in a ==> x in b
  }

  /** Tasks leave the queue in the order they entered it, and settle and release once each. */
  ghost predicate InOrder(q: Queue) {
    && q.started + q.waiting == UpTo(q.enqueued)
    && NoDup(q.settled) && NoDup(q.released)
    && Subset(q.settled, q.started) && Subset(q.released, q.settled)
    && (forall t :: t in q.outcomes <==> t in q.settled)
  }

  /** The counter is the number of occupied slots, and never exceeds the concurrency. */
  ghost predicate Bounded(q: Queue) {
    && q.inFlight == |q.started| - |q.released|
    && q.inFlight <= q.concurrency
  }

  /** A free slot with work waiting means some pump is still in progress. */
  ghost predicate WorkConserving(q: Queue) {
    q.waiting != [] && q.inFlight < q.concurrency ==> Pumping in q.stack
  }

  ghost predicate Good(q: Queue) {
    InOrder(q) && Bounded(q) && WorkConserving(q)
  }

  lemma {:induction false} SubsetLength(a: seq<nat>, b: seq<nat>)
    requires NoDup(a) && NoDup(b) && Subset(a, b)
    ensures |a| <= |b|
    decreases |a|
  {
    if a != [] {
      var init, x := a[..|a| - 1], a[|a| - 1];
      assert a[|a| - 1] in a;
      var i :| 0 <= i < |b| && b[i] == x;
      var rest := b[..i] + b[i + 1..];
      assert Subset(init, rest) by {
        forall y | y in init ensures y in rest {
          var k :| 0 <= k < |init| && init[k] == y;
          assert a[k] in a;
          var j :| 0 <= j < |b| && b[j] == y;
          assert j != i;
          if j < i { assert rest[j] == y; } else { assert rest[j - 1] == y; }
        }
      }
      assert NoDup(rest);
      SubsetLength(init, rest);
    }
  }

  lemma UpToMore(n: nat)
    ensures UpTo(n) + [n] == UpTo(n + 1)
  {
  }

  lemma StartedNoDup(q: Queue)
    requires InOrder(q)
    ensures NoDup(q.started)
    ensures |q.started| <= q.enqueued && q.started == UpTo(|q.started|)
  {
    forall i | 0 <= i < |q.started| ensures q.started[i] == i {
      assert (q.started + q.waiting)[i] == i;
    }
  }

  lemma EnqueueGood(q: Queue)
    requires Good(q) && Enabled(q, Enqueue)
    ensures Good(Next(q, Enqueue))
  {
    UpToMore(q.enqueued);
    assert q.started + (q.waiting + [q.enqueued]) == (q.started + q.waiting) + [q.enqueued];
  }

  lemma PumpGood(q: Queue)
    requires Good(q) && Enabled(q, Pump)
    ensures Good(Next(q, Pump))
  {
    var q' := Next(q, Pump);
    if q.inFlight < q.concurrency && q.waiting != [] {
      assert q.waiting == [q.waiting[0]] + q.waiting[1..];
      assert q'.started + q'.waiting == q.started + q.waiting;
      assert q'.stack[|q.stack| - 1] == Pumping;
    }
  }

  lemma ThunkReturnsGood(q: Queue)
    requires Good(q) && Enabled(q, ThunkReturns)
    ensures Good(Next(q, ThunkReturns))
  {
    if Pumping in q.stack {
      var i :| 0 <= i < |q.stack| && q.stack[i] == Pumping;
      assert i < |q.stack| - 1;
      assert q.stack[..|q.stack| - 1][i] == Pumping;
    }
  }

  lemma ReleaseGood(q: Queue, task: nat)
    requires Good(q) && Enabled(q, Release(task))
    ensures Good(Next(q, Release(task)))
  {
    StartedNoDup(q);
    SubsetLength(q.released + [task], q.started);
  }

  lemma NextGood(q: Queue, e: Event)
    requires Good(q) && Enabled(q, e)
    ensures Good(Next(q, e))
  {
    match e {
      case Enqueue => EnqueueGood(q);
      case Pump => PumpGood(q);
      case ThunkReturns => ThunkReturnsGood(q);
      case Settle(_, _) =>
      case Release(task) => ReleaseGood(q, task);
    }
  }

  /**
   * In every reachable state, whatever thunks enqueue while they start and however tasks fail:
   * occupied slots are within the concurrency, tasks start in enqueue order and settle and release
   * once each, and enqueued tasks are exactly the waiting, the occupying and the released ones.
   */
  lemma {:induction false} QueueAlwaysGood(concurrency: nat, events: seq<Event>)
    requires IsRun(NewQueue(concurrency), events)
    ensures var q := After(NewQueue(concurrency), events);
            Good(q) && q.enqueued == |q.waiting| + q.inFlight + |q.released| && q.concurrency == concurrency
  {
    var start := NewQueue(concurrency);
    if events != [] {
      QueueAlwaysGood(concurrency, events[..|events| - 1]);
      NextGood(After(start, events[..|events| - 1]), events[|events| - 1]);
    } else {
      assert UpTo(0) == [];
    }
    var q := After(start, events);
    assert |q.started + q.waiting| == q.enqueued;
  }

  /** Once no call is in progress, either nothing waits or every slot is occupied. */
  lemma IdleMeansFullOrEmpty(concurrency: nat, events: seq<Event>)
    requires IsRun(NewQueue(concurrency), events)
    requires After(NewQueue(concurrency), events).stack == []
    ensures var q := After(NewQueue(concurrency), events);
            q.waiting == [] || q.inFlight == concurrency
  {
    QueueAlwaysGood(concurrency, events);
  }

  /** A settled task keeps the outcome it settled with. */
  lemma {:induction false} OutcomesNeverChange(q: Queue, events: seq<Event>, task: nat)
    requires Good(q) && IsRun(q, events) && task in q.outcomes
    ensures Good(After(q, events))
    ensures task in After(q, events).outcomes && After(q, events).outcomes[task] == q.outcomes[task]
  {
    if events != [] {
      OutcomesNeverChange(q, events[..|events| - 1], task);
      NextGood(After(q, events[..|events| - 1]), events[|events| - 1]);
    }
  }

  // ----- Whose outcome it is -----

  ghost predicate SettlesAt(events: seq<Event>, k: nat, task: nat, outcome: Outcome) {
    k < |events| && events[k] == Settle(task, outcome)
  }

  ghost predicate HasSettled(events: seq<Event>, task: nat, outcome: Outcome) {
    exists k: nat :: SettlesAt(events, k, task, outcome)
  }

  lemma HasSettledSnoc(init: seq<Event>, e: Event, task: nat, outcome: Outcome)
    ensures HasSettled(init + [e], task, outcome) <==> HasSettled(init, task, outcome) || e == Settle(task, outcome)
  {
    if HasSettled(init, task, outcome) {
      var k: nat :| SettlesAt(init, k, task, outcome);
      assert SettlesAt(init + [e], k, task, outcome);
    }
    if e == Settle(task, outcome) {
      assert SettlesAt(init + [e], |init|, task, outcome);
    }
    if HasSettled(init + [e], task, outcome) {
      var k: nat :| SettlesAt(init + [e], k, task, outcome);
      assert k < |init| ==> SettlesAt(init, k, task, outcome);
    }
  }

  /** In every run a task has an outcome if and only if the run settles it with exactly that one. */
  lemma {:induction false} OutcomeIsItsSettlement(concurrency: nat, events: seq<Event>, task: nat, outcome: Outcome)
    requires IsRun(NewQueue(concurrency), events)
    ensures var q := After(NewQueue(concurrency), events);
            (task in q.outcomes && q.outcomes[task] == outcome) <==> HasSettled(events, task, outcome)
  {
    if events != [] {
      var init, e := events[..|events| - 1], events[|events| - 1];
      assert events == init + [e];
      OutcomeIsItsSettlement(concurrency, init, task, outcome);
      QueueAlwaysGood(concurrency, init);
      HasSettledSnoc(init, e, task, outcome);
    }
  }

  /** And it settles each task at most once. */
  lemma {:induction false} SettledOnce(concurrency: nat, events: seq<Event>, j: nat, k: nat)
    requires IsRun(NewQueue(concurrency), events) && j < k < |events| && events[j].Settle? && events[k].Settle?
    ensures events[j].task != events[k].task
    decreases |events|
  {
    var init, e := events[..|events| - 1], events[|events| - 1];
    if k < |init| {
      SettledOnce(concurrency, init, j, k);
    } else {
      assert SettlesAt(init, j, events[j].task, events[j].outcome);
      OutcomeIsItsSettlement(concurrency, init, events[j].task, events[j].outcome);
      QueueAlwaysGood(concurrency, init);
    }
  }

  function Enqueues(events: seq<Event>): nat {
    if events == [] then 0 else Enqueues(events[..|events| - 1]) + if events[|events| - 1].Enqueue? then 1 else 0
  }

  function Releases(events: seq<Event>): nat {
    if events == [] then 0 else Releases(events[..|events| - 1]) + if events[|events| - 1].Release? then 1 else 0
  }

  /** The queue holds as many tasks as were enqueued, and has let go of as many as were released. */
  lemma {:induction false} NothingIsLost(concurrency: nat, events: seq<Event>)
    requires IsRun(NewQueue(concurrency), events)
    ensures var q := After(NewQueue(concurrency), events);
            |q.waiting| + q.inFlight + Releases(events) == Enqueues(events) && q.enqueued == Enqueues(events)
  {
    QueueAlwaysGood(concurrency, events);
    CountsAre(concurrency, events);
  }

  lemma {:induction false} CountsAre(concurrency: nat, events: seq<Event>)
    requires IsRun(NewQueue(concurrency), events)
    ensures var q := After(NewQueue(concurrency), events);
            q.enqueued == Enqueues(events) && |q.released| == Releases(events)
  {
    if events != [] {
      CountsAre(concurrency, events[..|events| - 1]);
    }
  }

  // ----- One at a time -----

  ghost predicate Serial(q: Queue) {
    q.settled == UpTo(|q.settled|) && q.released == UpTo(|q.released|)
  }

  lemma SerialCounts(q: Queue)
    requires Good(q) && q.concurrency == 1
    ensures |q.released| <= |q.settled| <= |q.started| <= |q.released| + 1
  {
    StartedNoDup(q);
    SubsetLength(q.settled, q.started);
    SubsetLength(q.released, q.settled);
  }

  lemma SerialStep(q: Queue, e: Event)
    requires Good(q) && q.concurrency == 1 && Serial(q) && Enabled(q, e)
    ensures Serial(Next(q, e))
  {
    SerialCounts(q);
    StartedNoDup(q);
    match e {
      case Settle(task, _) => UpToMore(|q.settled|);
      case Release(task) => UpToMore(|q.released|);
      case _ =>
    }
  }

  /** With one slot, tasks settle in the order they were enqueued. */
  lemma {:induction false} SerialSettlesInOrder(events: seq<Event>)
    requires IsRun(NewQueue(1), events)
    ensures Serial(After(NewQueue(1), events))
  {
    if events != [] {
      SerialSettlesInOrder(events[..|events| - 1]);
      QueueAlwaysGood(1, events[..|events| - 1]);
      SerialStep(After(NewQueue(1), events[..|events| - 1]), events[|events| - 1]);
    }
  }

  // ----- The queue drains -----

  function Measure(q: Queue): int {
    6 * |q.waiting| + 3 * (|q.started| - |q.settled|) + 2 * (|q.settled| - |q.released|) + |q.stack|
  }

  /** Every step but a new task brings the queue closer to empty. */
  lemma StepsDrain(q: Queue, e: Event)
    requires Good(q) && Enabled(q, e) && !e.Enqueue?
    ensures 0 <= Measure(Next(q, e)) < Measure(q)
  {
    NextGood(q, e);
    var q' := Next(q, e);
    StartedNoDup(q');
    SubsetLength(q'.settled, q'.started);
    SubsetLength(q'.released, q'.settled);
  }

  /** When no step is left but a new task, everything ever enqueued has settled and been released. */
  lemma StuckMeansDrained(q: Queue)
    requires Good(q) && q.concurrency > 0
    requires forall e :: Enabled(q, e) ==> e.Enqueue?
    ensures q.waiting == [] && q.inFlight == 0 && |q.released| == q.enqueued
    ensures forall t :: t in UpTo(q.enqueued) ==> t in q.outcomes
  {
    assert !Enabled(q, Pump) && !Enabled(q, ThunkReturns);
    assert q.stack == [];
    StartedNoDup(q);
    forall t | t in q.started ensures t in q.settled {
      assert !Enabled(q, Settle(t, Resolved(0)));
    }
    forall t | t in q.settled ensures t in q.released {
      assert !Enabled(q, Release(t));
    }
    SubsetLength(q.started, q.released);
    SubsetLength(q.released, q.settled);
    SubsetLength(q.settled, q.started);
    assert |q.started + q.waiting| == q.enqueued;
  }

  ghost predicate OnlyDrains(events: seq<Event>) {
    forall i :: 0 <= i < |events| ==> !events[i].Enqueue?
  }

  /** So a queue that gets no new task runs for boundedly many steps. */
  lemma {:induction false} DrainIsBounded(q: Queue, events: seq<Event>)
    requires Good(q) && IsRun(q, events) && OnlyDrains(events)
    ensures Good(After(q, events)) && Measure(After(q, events)) + |events| <= Measure(q)
  {
    if events != [] {
      var init := events[..|events| - 1];
      DrainIsBounded(q, init);
      NextGood(After(q, init), events[|events| - 1]);
      StepsDrain(After(q, init), events[|events| - 1]);
    }
  }

  // ----- The code: one pump loop over the task list -----

  /** How many tasks one pump starts when no thunk enqueues. */
  function PumpCount(concurrency: nat, inFlight: nat, waiting: nat): nat {
    if inFlight < concurrency then Min(concurrency - inFlight, waiting) else 0
  }

  /** The machine from the top of a pump to its end, when no thunk enqueues. */
  function PumpToEnd(q: Queue): Queue
    requires q.stack == [Pumping]
    decreases |q.waiting|
  {
    var q1 := Next(q, Pump);
    if q1.stack == [] then q1
    else
      assert q1.stack == [Pumping, Starting(q.waiting[0])];
      PumpToEnd(Next(q1, ThunkReturns))
  }

  lemma PumpStep(q: Queue)
    requires q.stack == [Pumping]
    ensures q.inFlight < q.concurrency && q.waiting != [] ==>
              Next(q, Pump).stack == [Pumping, Starting(q.waiting[0])] &&
              Next(Next(q, Pump), ThunkReturns) ==
                q.(waiting := q.waiting[1..], inFlight := q.inFlight + 1, started := q.started + [q.waiting[0]])
    ensures q.inFlight >= q.concurrency || q.waiting == [] ==> PumpToEnd(q) == q.(stack := [])
  {
    if q.inFlight < q.concurrency && q.waiting != [] {
      assert [Pumping, Starting(q.waiting[0])][..1] == [Pumping];
    }
  }

  /** Starting one task and then the next k - 1 is starting the next k. */
  lemma OneThenRest(started: seq<nat>, waiting: seq<nat>, k: nat)
    requires 1 <= k <= |waiting|
    ensures waiting[1..][k - 1..] == waiting[k..]
    ensures started + [waiting[0]] + waiting[1..][..k - 1] == started + waiting[..k]
  {
  }

  /** The first k waiting tasks have been started, and nothing is in progress. */
  function Moved(q: Queue, k: nat): Queue
    requires k <= |q.waiting|
  {
    q.(waiting := q.waiting[k..], started := q.started + q.waiting[..k], inFlight := q.inFlight + k, stack := [])
  }

  lemma MovedOneMore(q: Queue, k: nat)
    requires 1 <= k <= |q.waiting|
    ensures var one := q.(waiting := q.waiting[1..], inFlight := q.inFlight + 1, started := q.started + [q.waiting[0]]);
            Moved(one, k - 1) == Moved(q, k)
  {
    OneThenRest(q.started, q.waiting, k);
  }

  lemma MovedNone(q: Queue)
    ensures Moved(q, 0) == q.(stack := [])
  {
    assert q.waiting[0..] == q.waiting && q.started + q.waiting[..0] == q.started;
  }

  lemma {:induction false} PumpToEndMeans(q: Queue)
    requires q.stack == [Pumping]
    ensures PumpToEnd(q) == Moved(q, PumpCount(q.concurrency, q.inFlight, |q.waiting|))
    decreases |q.waiting|
  {
    var k := PumpCount(q.concurrency, q.inFlight, |q.waiting|);
    PumpStep(q);
    if k == 0 {
      MovedNone(q);
    } else {
      PumpToEndMeans(Next(Next(q, Pump), ThunkReturns));
      MovedOneMore(q, k);
    }
  }

  // ----- Calls that call back -----

  ghost predicate OneStep(q: Queue, r: Queue) {
    exists e :: Enabled(q, e) && r == Next(q, e)
  }

  ghost predicate StepAt(path: seq<Queue>, i: nat)
    requires i + 1 < |path|
  {
    OneStep(path[i], path[i + 1])
  }

  ghost predicate IsPath(path: seq<Queue>, q: Queue, r: Queue) {
    path != [] && path[0] == q && path[|path| - 1] == r && forall i :: 0 <= i < |path| - 1 ==> StepAt(path, i)
  }

  /** The machine can get from one state to the other. */
  ghost predicate Leads(q: Queue, r: Queue) {
    exists path :: IsPath(path, q, r)
  }

  lemma LeadsNowhere(q: Queue)
    ensures Leads(q, q)
  {
    assert IsPath([q], q, q);
  }

  lemma LeadsFurther(q: Queue, r: Queue, s: Queue)
    requires Leads(q, r) && Leads(r, s)
    ensures Leads(q, s)
  {
    var first, second :| IsPath(first, q, r) && IsPath(second, r, s);
    var path := first + second[1..];
    forall i | 0 <= i < |path| - 1 ensures StepAt(path, i) {
      if i < |first| - 1 {
        assert StepAt(first, i);
      } else {
        assert path[i] == second[i - (|first| - 1)] && path[i + 1] == second[i + 1 - (|first| - 1)];
        assert StepAt(second, i - (|first| - 1));
      }
    }
    assert IsPath(path, q, s);
  }

  lemma LeadsOn(q: Queue, r: Queue, e: Event)
    requires Leads(q, r) && Enabled(r, e)
    ensures Leads(q, Next(r, e))
  {
    var path := [r, Next(r, e)];
    assert OneStep(r, Next(r, e)) && StepAt(path, 0);
    assert IsPath(path, r, Next(r, e));
    LeadsFurther(q, r, Next(r, e));
  }

  /** What the machine can get to is what some run of it ends in. */
  lemma {:induction false} PathIsRun(path: seq<Queue>, q: Queue, r: Queue) returns (events: seq<Event>)
    requires IsPath(path, q, r)
    ensures IsRun(q, events) && After(q, events) == r
    decreases |path|
  {
    if |path| == 1 {
      events := [];
    } else {
      var init, p := path[..|path| - 1], path[|path| - 2];
      assert StepAt(path, |path| - 2) && OneStep(p, r);
      var e :| Enabled(p, e) && r == Next(p, e);
      forall i | 0 <= i < |init| - 1 ensures StepAt(init, i) { assert StepAt(path, i); }
      var before := PathIsRun(init, q, p);
      events := before + [e];
      assert events[..|events| - 1] == before;
    }
  }

  /** Some run from an empty queue ends in the state. */
  ghost predicate Reached(q: Queue) {
    Leads(NewQueue(q.concurrency), q)
  }

  lemma ReachedIsGood(q: Queue)
    requires Reached(q)
    ensures Good(q)
    ensures exists events :: IsRun(NewQueue(q.concurrency), events) && After(NewQueue(q.concurrency), events) == q
  {
    var path :| IsPath(path, NewQueue(q.concurrency), q);
    var events := PathIsRun(path, NewQueue(q.concurrency), q);
    QueueAlwaysGood(q.concurrency, events);
  }

  lemma ReachedOn(q: Queue, e: Event)
    requires Reached(q) && Enabled(q, e)
    ensures Reached(Next(q, e))
  {
    LeadsOn(NewQueue(q.concurrency), q, e);
  }

  lemma ReachedCounts(q: Queue)
    requires Reached(q)
    ensures q.inFlight <= q.concurrency && |q.waiting| == q.enqueued - |q.started|
    ensures q.waiting != [] ==> q.waiting[0] == |q.started|
  {
    ReachedIsGood(q);
    assert |q.started + q.waiting| == q.enqueued;
    assert q.waiting != [] ==> (q.started + q.waiting)[|q.started|] == q.waiting[0];
  }

  /** How many tasks the thunks of the given stretch of tasks enqueue while they start. */
  ghost function Spawned(spawns: nat -> nat, a: nat, b: nat): nat
    decreases b
  {
    if b <= a then 0 else Spawned(spawns, a, b - 1) + spawns(b - 1)
  }

  lemma {:induction false} SpawnedFrom(spawns: nat -> nat, a: nat, b: nat)
    requires a < b
    ensures Spawned(spawns, a, b) == spawns(a) + Spawned(spawns, a + 1, b)
    decreases b
  {
    if a + 1 < b {
      SpawnedFrom(spawns, a, b - 1);
    }
  }

  lemma {:induction false} SpawnedJoin(spawns: nat -> nat, a: nat, b: nat, c: nat)
    requires a <= b <= c
    ensures Spawned(spawns, a, b) + Spawned(spawns, b, c) == Spawned(spawns, a, c)
    decreases c
  {
    if b < c {
      SpawnedJoin(spawns, a, b, c - 1);
    }
  }

  lemma {:induction false} NothingSpawned(spawns: nat -> nat, a: nat, b: nat)
    requires forall t :: spawns(t) == 0
    ensures Spawned(spawns, a, b) == 0
    decreases b
  {
    if a < b {
      NothingSpawned(spawns, a, b - 1);
    }
  }

  /** Between two states of one call: each task started takes a slot, and new tasks come from its thunk. */
  ghost predicate Accounts(q: Queue, r: Queue, spawned: nat) {
    && r.concurrency == q.concurrency && r.settled == q.settled && r.outcomes == q.outcomes && r.released == q.released
    && |q.started| <= |r.started| && r.inFlight == q.inFlight + (|r.started| - |q.started|)
    && r.enqueued == q.enqueued + spawned
  }

  /** A reachable run of calls from one state to the other, and what it comes to. */
  ghost predicate Goes(q: Queue, r: Queue, spawned: nat) {
    Leads(q, r) && Reached(r) && Accounts(q, r, spawned)
  }

  /** A finished pump has filled every slot or emptied the queue, having started as many as there were. */
  ghost predicate Pumped(q: Queue, r: Queue, spawned: nat) {
    && Goes(q, r, spawned) && (r.inFlight == r.concurrency || r.waiting == [])
    && |r.started| - |q.started| == PumpCount(q.concurrency, q.inFlight, |q.waiting| + spawned)
  }

  lemma PumpStarts(entry: Queue, q: Queue, r: Queue, task: nat, spawned: nat)
    requires Goes(entry, q, spawned) && Top(q) == Some(Pumping) && q.inFlight < q.concurrency && q.waiting != []
    requires task == q.waiting[0]
    requires r == q.(waiting := q.waiting[1..], inFlight := q.inFlight + 1, started := q.started + [task],
                     stack := q.stack + [Starting(task)])
    ensures Goes(entry, r, spawned) && task == |q.started|
  {
    ReachedCounts(q);
    GoesPump(entry, q, spawned);
  }

  lemma SlotIsTaken(q: Queue, task: nat)
    requires Reached(q) && Enabled(q, Release(task))
    ensures q.inFlight > 0
  {
    ReachedIsGood(q);
    StartedNoDup(q);
    SubsetLength(q.released + [task], q.started);
  }

  lemma GoesFurther(q: Queue, r: Queue, s: Queue, first: nat, second: nat)
    requires Goes(q, r, first) && Goes(r, s, second)
    ensures Goes(q, s, first + second)
  {
    LeadsFurther(q, r, s);
  }

  lemma GoesPump(entry: Queue, q: Queue, spawned: nat)
    requires Goes(entry, q, spawned) && Enabled(q, Pump)
    ensures Goes(entry, Next(q, Pump), spawned)
  {
    LeadsOn(entry, q, Pump);
    ReachedOn(q, Pump);
  }

  lemma RoundSpawned(spawns: nat -> nat, a: nat, n: nat, m: nat)
    requires a <= n < m
    ensures Spawned(spawns, a, n) + (spawns(n) + Spawned(spawns, n + 1, m)) == Spawned(spawns, a, m)
  {
    SpawnedFrom(spawns, n, m);
    SpawnedJoin(spawns, a, n, m);
  }

  /** One round of the pump: the nth task is started, and its thunk's calls lead to the next round. */
  lemma PumpRound(spawns: nat -> nat, entry: Queue, next: Queue, r: Queue, n: nat)
    requires |next.started| == n + 1 && |entry.started| <= n
    requires Goes(entry, next, Spawned(spawns, |entry.started|, n))
    requires Goes(next, r, spawns(n) + Spawned(spawns, n + 1, |r.started|))
    ensures Goes(entry, r, Spawned(spawns, |entry.started|, |r.started|))
  {
    RoundSpawned(spawns, |entry.started|, n, |r.started|);
    GoesFurther(entry, next, r, Spawned(spawns, |entry.started|, n),
                spawns(n) + Spawned(spawns, n + 1, |r.started|));
  }

  lemma PumpEnds(entry: Queue, q: Queue, stack: seq<Frame>, spawned: nat)
    requires Reached(entry) && Goes(entry, q, spawned) && q.stack == stack + [Pumping]
    requires q.inFlight >= q.concurrency || q.waiting == []
    ensures Pumped(entry, q.(stack := stack), spawned)
  {
    assert q.stack[..|q.stack| - 1] == stack;
    LeadsOn(entry, q, Pump);
    ReachedOn(q, Pump);
    ReachedCounts(entry);
    ReachedCounts(q);
  }

  /** One more call of a thunk. */
  lemma ThunkGoesOn(spawns: nat -> nat, entry: Queue, q: Queue, r: Queue, calls: nat)
    requires Goes(entry, q, calls + Spawned(spawns, |entry.started|, |q.started|))
    requires Enabled(q, Enqueue) && Goes(Next(q, Enqueue), r, Spawned(spawns, |q.started|, |r.started|))
    ensures Goes(entry, r, calls + 1 + Spawned(spawns, |entry.started|, |r.started|))
  {
    LeadsOn(entry, q, Enqueue);
    LeadsFurther(entry, Next(q, Enqueue), r);
    SpawnedJoin(spawns, |entry.started|, |q.started|, |r.started|);
  }

  lemma ThunkEnds(entry: Queue, q: Queue, stack: seq<Frame>, task: nat, spawned: nat)
    requires Goes(entry, q, spawned) && q.stack == stack + [Starting(task)]
    ensures Goes(entry, q.(stack := stack), spawned)
  {
    assert q.stack[..|q.stack| - 1] == stack;
    LeadsOn(entry, q, ThunkReturns);
    ReachedOn(q, ThunkReturns);
  }

  lemma SameOrder(q: Queue, r: Queue)
    requires Reached(q) && Reached(r) && q.enqueued == r.enqueued && |q.started| <= |r.started|
    ensures var k := |r.started| - |q.started|;
            k <= |q.waiting| && r.started == q.started + q.waiting[..k] && r.waiting == q.waiting[k..]
  {
    ReachedIsGood(q);
    ReachedIsGood(r);
    ReachedCounts(q);
    ReachedCounts(r);
    var k := |r.started| - |q.started|;
    assert q.started + q.waiting == (q.started + q.waiting[..k]) + q.waiting[k..];
    SplitSame(r.started, r.waiting, q.started + q.waiting[..k], q.waiting[k..]);
  }

  lemma SplitSame(a: seq<nat>, b: seq<nat>, c: seq<nat>, d: seq<nat>)
    requires a + b == c + d && |a| == |c|
    ensures a == c && b == d
  {
    assert (a + b)[..|a|] == a && (c + d)[..|a|] == c;
    assert (a + b)[|a|..] == b && (c + d)[|a|..] == d;
  }

  lemma AccountsMoved(q: Queue, r: Queue, k: nat)
    requires k <= |q.waiting| && Accounts(q, r, 0) && r.stack == [] && |r.started| - |q.started| == k
    requires r.started == q.started + q.waiting[..k] && r.waiting == q.waiting[k..]
    ensures r == Moved(q, k)
  {
  }

  /** A finished pump without new tasks has only moved tasks from waiting to started. */
  lemma PumpedPlainly(q: Queue, r: Queue)
    requires Reached(q) && r.stack == [] && Pumped(q, r, 0)
    ensures var k := PumpCount(q.concurrency, q.inFlight, |q.waiting|);
            k <= |q.waiting| && r == Moved(q, k)
  {
    SameOrder(q, r);
    AccountsMoved(q, r, |r.started| - |q.started|);
  }

  /** When no thunk enqueues, what the calls do is the plain pump. */
  lemma PlainPump(spawns: nat -> nat, q: Queue, r: Queue)
    requires q.stack == [Pumping] && r.stack == [] && Reached(q) && (forall t :: spawns(t) == 0)
    requires Pumped(q, r, Spawned(spawns, |q.started|, |r.started|))
    ensures r == PumpToEnd(q)
  {
    NothingSpawned(spawns, |q.started|, |r.started|);
    PumpedPlainly(q, r);
    PumpToEndMeans(q);
  }

  /** The concurrency knob: at least one, and otherwise rounded down; None is a value that is no number. */
  function NormalizeConcurrency(raw: Option<real>): (c: nat)
    ensures raw.None? || raw.value < 1.0 ==> c == 1
    ensures raw.Some? && raw.value >= 1.0 ==> c >= 1 && c as real <= raw.value < c as real + 1.0
  {
    if raw.None? || raw.value < 1.0 then 1 else raw.value.Floor
  }

  /**
   * The task list and its counters. Starting a task runs its thunk up to the first await, which may
   * enqueue tasks and so pump again from inside the pump; `spawns` is how many task t's thunk does.
   */
  class Treasury {
    const concurrency: nat
    const spawns: nat -> nat
    var taskQueue: seq<nat>
    var inFlight: nat
    var totalCompleted: nat
    var maxObservedDepth: nat
    var enqueued: nat
    var started: seq<nat>
    ghost var settled: seq<nat>
    ghost var outcomes: map<nat, Outcome>
    ghost var released: seq<nat>

    ghost function State(stack: seq<Frame>): Queue
      reads this
    {
      Queue(concurrency, enqueued, taskQueue, inFlight, stack, started, settled, outcomes, released)
    }

    ghost predicate Tally()
      reads this
    {
      inFlight <= concurrency && |taskQueue| + |started| == enqueued && maxObservedDepth >= |taskQueue| + inFlight
    }

    ghost predicate Valid()
      reads this
    {
      Reached(State([])) && Tally() && totalCompleted == |released|
    }

    constructor (knob: Option<real>, spawns: nat -> nat)
      ensures Valid() && State([]) == NewQueue(NormalizeConcurrency(knob)) && this.spawns == spawns
      ensures totalCompleted == 0 && maxObservedDepth == 0
    {
      concurrency, this.spawns := NormalizeConcurrency(knob), spawns;
      taskQueue, inFlight, totalCompleted, maxObservedDepth := [], 0, 0, 0;
      enqueued, started, settled, outcomes, released := 0, [], [], map[], [];
      LeadsNowhere(NewQueue(NormalizeConcurrency(knob)));
    }

    method PumpTreasuryQueue(ghost stack: seq<Frame>)
      requires Reached(State(stack + [Pumping])) && Tally()
      modifies this`taskQueue, this`inFlight, this`started, this`enqueued, this`maxObservedDepth
      ensures Pumped(old(State(stack + [Pumping])), State(stack), Spawned(spawns, old(|started|), |started|))
      ensures Tally() && |taskQueue| + inFlight >= old(|taskQueue| + inFlight)
      ensures maxObservedDepth == Max(old(maxObservedDepth), |taskQueue| + inFlight)
      decreases concurrency - inFlight, 1
    {
      ghost var calls := stack + [Pumping];
      ghost var entry := State(calls);
      LeadsNowhere(entry);
      while inFlight < concurrency && taskQueue != []
        invariant Goes(entry, State(calls), Spawned(spawns, |entry.started|, |started|))
        invariant Tally() && |taskQueue| + inFlight >= old(|taskQueue| + inFlight)
        invariant maxObservedDepth == Max(old(maxObservedDepth), |taskQueue| + inFlight)
        decreases concurrency - inFlight
      {
        StartNext(entry, calls);
      }
      PumpEnds(entry, State(calls), stack, Spawned(spawns, |entry.started|, |started|));
    }

    /** One round of the loop: the front task is taken and started. */
    method StartNext(ghost entry: Queue, ghost calls: seq<Frame>)
      requires Goes(entry, State(calls), Spawned(spawns, |entry.started|, |started|)) && Tally()
      requires Top(State(calls)) == Some(Pumping) && inFlight < concurrency && taskQueue != []
      modifies this`taskQueue, this`inFlight, this`started, this`enqueued, this`maxObservedDepth
      ensures Goes(entry, State(calls), Spawned(spawns, |entry.started|, |started|))
      ensures Tally() && |taskQueue| + inFlight >= old(|taskQueue| + inFlight) && inFlight > old(inFlight)
      ensures maxObservedDepth == Max(old(maxObservedDepth), |taskQueue| + inFlight)
      decreases concurrency - inFlight, 0
    {
      var task := TakeTask(entry, calls, Spawned(spawns, |entry.started|, |started|));
      ghost var next := State(calls + [Starting(task)]);
      StartThunk(task, calls);
      PumpRound(spawns, entry, next, State(calls), task);
    }

    /** The front task leaves the queue and takes a slot. */
    method TakeTask(ghost entry: Queue, ghost calls: seq<Frame>, ghost spawned: nat) returns (task: nat)
      requires Goes(entry, State(calls), spawned) && Tally() && Top(State(calls)) == Some(Pumping)
      requires inFlight < concurrency && taskQueue != []
      modifies this`taskQueue, this`inFlight, this`started
      ensures Goes(entry, State(calls + [Starting(task)]), spawned) && Tally()
      ensures task == old(taskQueue[0]) == old(|started|) && taskQueue == old(taskQueue[1..])
      ensures inFlight == old(inFlight) + 1 && started == old(started) + [task]
    {
      ghost var before := State(calls);
      task := taskQueue[0];
      taskQueue := taskQueue[1..];
      inFlight := inFlight + 1;
      started := started + [task];
      PumpStarts(entry, before, State(calls + [Starting(task)]), task, spawned);
    }

    /** The thunk runs up to its first await, enqueueing what it enqueues. */
    method StartThunk(task: nat, ghost stack: seq<Frame>)
      requires Reached(State(stack + [Starting(task)])) && Tally()
      modifies this`taskQueue, this`inFlight, this`started, this`enqueued, this`maxObservedDepth
      ensures Goes(old(State(stack + [Starting(task)])), State(stack),
                   spawns(task) + Spawned(spawns, old(|started|), |started|))
      ensures Tally() && |taskQueue| + inFlight >= old(|taskQueue| + inFlight)
      ensures maxObservedDepth == Max(old(maxObservedDepth), |taskQueue| + inFlight)
      decreases concurrency - inFlight, 3
    {
      ghost var calls := stack + [Starting(task)];
      ghost var entry := State(calls);
      LeadsNowhere(entry);
      for i := 0 to spawns(task)
        invariant Goes(entry, State(calls), i + Spawned(spawns, |entry.started|, |started|))
        invariant Tally() && |taskQueue| + inFlight >= old(|taskQueue| + inFlight)
        invariant maxObservedDepth == Max(old(maxObservedDepth), |taskQueue| + inFlight)
      {
        ghost var before := State(calls);
        var _ := EnqueueTreasury(calls);
        ThunkGoesOn(spawns, entry, before, State(calls), i);
      }
      ThunkEnds(entry, State(calls), stack, task, spawns(task) + Spawned(spawns, |entry.started|, |started|));
    }

    /** Returns the number of the new task, which stands for the promise the caller gets. */
    method EnqueueTreasury(ghost stack: seq<Frame>) returns (task: nat)
      requires Reached(State(stack)) && Tally() && Enabled(State(stack), Enqueue)
      modifies this`taskQueue, this`inFlight, this`started, this`enqueued, this`maxObservedDepth
      ensures task == old(enqueued)
      ensures Pumped(Next(old(State(stack)), Enqueue), State(stack), Spawned(spawns, old(|started|), |started|))
      ensures Tally() && |taskQueue| + inFlight >= old(|taskQueue| + inFlight)
      ensures maxObservedDepth == Max(old(maxObservedDepth), |taskQueue| + inFlight)
      decreases concurrency - inFlight, 2
    {
      ReachedOn(State(stack), Enqueue);
      task := enqueued;
      taskQueue := taskQueue + [task];
      enqueued := enqueued + 1;
      if |taskQueue| + inFlight > maxObservedDepth {
        maxObservedDepth := |taskQueue| + inFlight;
      }
      assert State(stack + [Pumping]) == Next(old(State(stack)), Enqueue);
      PumpTreasuryQueue(stack);
    }

    method SettleTask(task: nat, outcome: Outcome)
      requires Valid() && Enabled(State([]), Settle(task, outcome))
      modifies this`settled, this`outcomes
      ensures Valid() && State([]) == Next(old(State([])), Settle(task, outcome))
      ensures outcomes == old(outcomes)[task := outcome] && settled == old(settled) + [task]
    {
      ReachedOn(State([]), Settle(task, outcome));
      settled := settled + [task];
      outcomes := outcomes[task := outcome];
    }

    method ReleaseSlot(task: nat)
      requires Valid() && Enabled(State([]), Release(task))
      modifies this
      ensures Valid()
      ensures Pumped(Next(old(State([])), Release(task)), State([]), Spawned(spawns, old(|started|), |started|))
      ensures totalCompleted == old(totalCompleted) + 1
      ensures Tally() && maxObservedDepth == Max(old(maxObservedDepth), |taskQueue| + inFlight)
    {
      ReachedOn(State([]), Release(task));
      SlotIsTaken(State([]), task);
      totalCompleted := totalCompleted + 1;
      released := released + [task];
      inFlight := inFlight - 1;
      assert State([] + [Pumping]) == Next(old(State([])), Release(task));
      PumpTreasuryQueue([]);
    }
  }

  // ----- Retries -----

  /**
   * Attempts a call up to once more than there are backoff delays. Returns the first success, or the
   * last failure when every attempt fails, and sleeps only between attempts.
   */
  method WithRetry<T, E>(call: nat -> Result<T, E>, backoffMs: seq<nat>)
    returns (result: Result<T, E>, attempts: nat, slept: seq<nat>)
    ensures 1 <= attempts <= |backoffMs| + 1
    ensures result == call(attempts - 1) && slept == backoffMs[..attempts - 1]
    ensures forall i :: 0 <= i < attempts - 1 ==> call(i).Err?
    ensures result.Err? ==> attempts == |backoffMs| + 1
  {
    result, attempts, slept := call(0), 1, [];
    while result.Err? && attempts < |backoffMs| + 1
      invariant 1 <= attempts <= |backoffMs| + 1
      invariant result == call(attempts - 1) && slept == backoffMs[..attempts - 1]
      invariant forall i :: 0 <= i < attempts - 1 ==> call(i).Err?
    {
      slept := slept + [backoffMs[attempts - 1]];
      result := call(attempts);
      attempts := attempts + 1;
    }
  }
}
