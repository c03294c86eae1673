/**
 * The reconnect grace ledger: each wallet has one cumulative budget of disconnected time per fight,
 * spent over any number of drops and returns, after which it forfeits.
 */
module Grace {
  import opened Common
  import opened Scheduler

  datatype Active = Active(handle: nat, startedAt: nat, expiresAt: nat)

  /** The record outlives a reconnect, so that `usedMs` survives the cycle. */
  datatype Record = Record(fightId: string, budgetMs: nat, usedMs: nat, active: Option<Active>)

  /** `budgetMs` is what a fight's first disconnect will be granted. */
  datatype Ledger = Ledger(records: map<string, Record>, budgetMs: nat, clock: Clock)

  datatype DisconnectInfo = DisconnectInfo(fightId: string, expiresAt: nat, graceMs: nat, usedMs: nat, budgetMs: nat)

  datatype DisconnectOutcome = Granted(info: DisconnectInfo) | AlreadyPending | ForfeitedNow

  function Cancel(c: Clock, active: Option<Active>): Clock {
    match active
    case Some(a) => ClearTimeout(c, a.handle)
    case None => c
  }

  function DropRecord(l: Ledger, wallet: string): Ledger {
    if wallet in l.records
    then l.(records := l.records - {wallet}, clock := Cancel(l.clock, l.records[wallet].active))
    else l
  }

  /** A record of another fight is over for this wallet. */
  function ForFight(l: Ledger, wallet: string, fightId: string): Ledger {
    if wallet in l.records && l.records[wallet].fightId != fightId then DropRecord(l, wallet) else l
  }

  function MarkDisconnect(ledger: Ledger, wallet: string, fightId: string): (Ledger, DisconnectOutcome) {
    var l := ForFight(ledger, wallet, fightId);
    if wallet in l.records && l.records[wallet].active.Some? then (l, AlreadyPending)
    else
      var budgetMs := if wallet in l.records then l.records[wallet].budgetMs else l.budgetMs;
      var usedMs := if wallet in l.records then l.records[wallet].usedMs else 0;
      if budgetMs <= usedMs then (l.(records := l.records - {wallet}), ForfeitedNow)
      else
        var graceMs := budgetMs - usedMs;
        var (clock, handle) := SetTimeout(l.clock, GraceTimeout(wallet, fightId), graceMs);
        var expiresAt := l.clock.now + graceMs;
        var record := Record(fightId, budgetMs, usedMs, Some(Active(handle, l.clock.now, expiresAt)));
        (l.(records := l.records[wallet := record], clock := clock),
         Granted(DisconnectInfo(fightId, expiresAt, graceMs, usedMs, budgetMs)))
  }

  function Elapsed(now: nat, startedAt: nat): nat {
    if now <= startedAt then 0 else now - startedAt
  }

  function MarkReconnect(l: Ledger, wallet: string): (Ledger, Option<string>) {
    if wallet !in l.records || l.records[wallet].active.None? then (l, None)
    else
      var r := l.records[wallet];
      var elapsed := Elapsed(l.clock.now, r.active.value.startedAt);
      (l.(records := l.records[wallet := r.(usedMs := Min(r.budgetMs, r.usedMs + elapsed), active := None)],
          clock := Cancel(l.clock, r.active)),
       Some(r.fightId))
  }

  function RecordsOf(l: Ledger, fightId: string): set<string> {
    set w | w in l.records && l.records[w].fightId == fightId
  }

  function HandlesOf(l: Ledger, wallets: set<string>): set<nat> {
    set w | w in wallets && w in l.records && l.records[w].active.Some? :: l.records[w].active.value.handle
  }

  function ClearFightGrace(l: Ledger, fightId: string): Ledger {
    var wallets := RecordsOf(l, fightId);
    l.(records := l.records - wallets,
       clock := l.clock.(timers := l.clock.timers - HandlesOf(l, wallets)))
  }

  predicate IsDisconnectPending(l: Ledger, wallet: string) {
    wallet in l.records && l.records[wallet].active.Some?
  }

  /** A due forfeit timer fires: the record goes first, then the forfeit runs. */
  function FireForfeit(l: Ledger, handle: nat): Ledger
    requires handle in l.clock.timers && l.clock.timers[handle].tag.GraceTimeout?
  {
    l.(records := l.records - {l.clock.timers[handle].tag.wallet}, clock := ClearTimeout(l.clock, handle))
  }

  /** The module's live state. Its records and timer queue are updated in place. */
  class ReconnectGrace {
    var records: map<string, Record>
    var budgetMs: nat
    var clock: Clock

    ghost function State(): Ledger
      reads this
    {
      Ledger(records, budgetMs, clock)
    }

    constructor (budgetMs: nat)
      ensures State() == Ledger(map[], budgetMs, START)
    {
      this.records, this.budgetMs, this.clock := map[], budgetMs, START;
    }

    method CancelActive(active: Option<Active>)
      modifies this`clock
      ensures clock == Cancel(old(clock), active)
    {
      if active.Some? {
        clock := ClearTimeout(clock, active.value.handle);
      }
    }

    method Disconnect(wallet: string, fightId: string) returns (outcome: DisconnectOutcome)
      modifies this
      ensures (State(), outcome) == MarkDisconnect(old(State()), wallet, fightId)
    {
      if wallet in records && records[wallet].fightId != fightId {
        CancelActive(records[wallet].active);
        records := records - {wallet};
      }
      if wallet in records && records[wallet].active.Some? {
        return AlreadyPending;
      }
      var budget, used := budgetMs, 0;
      if wallet in records {
        budget, used := records[wallet].budgetMs, records[wallet].usedMs;
      }
      if budget <= used {
        records := records - {wallet};
        return ForfeitedNow;
      }
      var now, graceMs := clock.now, budget - used;
      var scheduled := SetTimeout(clock, GraceTimeout(wallet, fightId), graceMs);
      clock := scheduled.0;
      records := records[wallet := Record(fightId, budget, used, Some(Active(scheduled.1, now, now + graceMs)))];
      outcome := Granted(DisconnectInfo(fightId, now + graceMs, graceMs, used, budget));
    }

    method Reconnect(wallet: string) returns (fightId: Option<string>)
      modifies this
      ensures (State(), fightId) == MarkReconnect(old(State()), wallet)
    {
      if wallet !in records || records[wallet].active.None? {
        return None;
      }
      var r := records[wallet];
      CancelActive(r.active);
      var elapsed := Elapsed(clock.now, r.active.value.startedAt);
      records := records[wallet := r.(usedMs := Min(r.budgetMs, r.usedMs + elapsed), active := None)];
      fightId := Some(r.fightId);
    }

    method ClearFight(fightId: string)
      modifies this
      ensures State() == ClearFightGrace(old(State()), fightId)
    {
      var wallets := records.Keys;
      ghost var cleared: set<string> := {};
      assert HandlesOf(State(), {}) == {};
      while wallets != {}
        invariant ClearedBut(old(State()), State(), fightId, wallets, cleared)
        decreases |wallets|
      {
        var wallet :| wallet in wallets;
        ClearsOne(old(State()), State(), fightId, wallets, cleared, wallet);
        wallets := wallets - {wallet};
        if records[wallet].fightId == fightId {
          CancelActive(records[wallet].active);
          records := records - {wallet};
          cleared := cleared + {wallet};
        }
      }
      assert cleared == RecordsOf(old(State()), fightId);
    }

    method Fire(handle: nat)
      requires Due(clock, handle) && clock.timers[handle].tag.GraceTimeout?
      modifies this
      ensures State() == FireForfeit(old(State()), handle)
    {
      var wallet := clock.timers[handle].tag.wallet;
      clock := ClearTimeout(clock, handle);
      records := records - {wallet};
    }
  }

  lemma HandlesOfMore(l: Ledger, wallets: set<string>, wallet: string)
    requires wallet in l.records
    ensures l.clock.timers - HandlesOf(l, wallets + {wallet}) ==
            Cancel(l.clock.(timers := l.clock.timers - HandlesOf(l, wallets)), l.records[wallet].active).timers
  {
    if l.records[wallet].active.Some? {
      assert HandlesOf(l, wallets + {wallet}) == HandlesOf(l, wallets) + {l.records[wallet].active.value.handle};
    } else {
      assert HandlesOf(l, wallets + {wallet}) == HandlesOf(l, wallets);
    }
  }

  /** All of the fight's records have been dropped but those still to do. */
  ghost predicate ClearedBut(l: Ledger, m: Ledger, fightId: string, todo: set<string>, cleared: set<string>) {
    todo <= l.records.Keys && cleared <= RecordsOf(l, fightId) && cleared !! todo &&
    RecordsOf(l, fightId) - todo <= cleared &&
    m == l.(records := l.records - cleared, clock := l.clock.(timers := l.clock.timers - HandlesOf(l, cleared)))
  }

  lemma ClearsOne(l: Ledger, m: Ledger, fightId: string, todo: set<string>, cleared: set<string>, wallet: string)
    requires ClearedBut(l, m, fightId, todo, cleared) && wallet in todo
    ensures wallet in m.records
    ensures m.records[wallet].fightId != fightId ==> ClearedBut(l, m, fightId, todo - {wallet}, cleared)
    ensures m.records[wallet].fightId == fightId ==>
              ClearedBut(l, DropRecord(m, wallet), fightId, todo - {wallet}, cleared + {wallet})
  {
    HandlesOfMore(l, cleared, wallet);
    assert l.records - cleared - {wallet} == l.records - (cleared + {wallet});
  }
}
