/**
 * Recovery after a restart: the wager lobby is rebuilt from the chain's registry, and wagers whose
 * fight was lost are cancelled from the table of wagers in flight.
 */
module BootRecovery {
  import opened Common
  import AcceptGate

  type Wallet = string
  type WagerId = string

  const WAITING := 0
  const ACTIVE := 1
  const SETTLED := 2
  const PENDING_APPROVAL := 3

  // ----- Rebuilding the lobby -----

  datatype RegistryEntry = RegistryEntry(creatorWallet: Wallet, wagerMatchId: WagerId)

  datatype ChainWagerFields = ChainWagerFields(
    status: nat, playerA: Wallet, playerALevel: nat, stakeAmount: nat, pendingChallenger: Option<Wallet>, pendingAt: nat)

  datatype ReadOutcome = Threw | NoFields | Read(fields: ChainWagerFields)

  datatype Stats = Stats(strength: nat, dexterity: nat, intuition: nat, endurance: nat)

  datatype CharacterFacts = CharacterFacts(id: string, name: string, level: nat, rating: int, stats: Stats)

  datatype PendingChallenger =
    PendingChallenger(wallet: Wallet, name: string, level: nat, rating: int, stats: Stats, pendingAt: nat)

  datatype LobbyEntry = LobbyEntry(
    wagerMatchId: WagerId, creatorWallet: Wallet, characterId: string, name: string, level: nat, rating: int,
    stats: Stats, wagerAmount: real, createdAt: nat, status: nat, levelSnapshot: nat,
    pendingChallenger: Option<PendingChallenger>)

  const NO_STATS := Stats(0, 0, 0, 0)

  function PlaceholderName(wallet: Wallet): string {
    var head := if |wallet| < 6 then wallet else wallet[..6];
    var tail := if |wallet| < 4 then wallet else wallet[|wallet| - 4..];
    head + "\U{2026}" + tail
  }

  function BuildLobbyEntry(id: WagerId, chain: ChainWagerFields, character: Option<CharacterFacts>, now: nat)
    : Option<LobbyEntry>
  {
    if chain.status != WAITING && chain.status != PENDING_APPROVAL then None
    else
      var facts := character.GetOr(
        CharacterFacts("rehydrated:" + id, PlaceholderName(chain.playerA), chain.playerALevel, 1000, NO_STATS));
      var pending :=
        if chain.status == PENDING_APPROVAL && chain.pendingChallenger.Some? && chain.pendingChallenger.value != ""
        then Some(PendingChallenger(chain.pendingChallenger.value, PlaceholderName(chain.pendingChallenger.value), 0,
                                    1000, NO_STATS, chain.pendingAt))
        else None;
      Some(LobbyEntry(id, chain.playerA, facts.id, facts.name, facts.level, facts.rating, facts.stats,
                      chain.stakeAmount as real / 1_000_000_000.0, now, chain.status, chain.playerALevel, pending))
  }

  datatype RehydrateResult =
    RehydrateResult(registryEntries: nat, adopted: nat, skippedActive: nat, skippedSettled: nat, errors: nat)

  /** What every read of the pass answers, and the clock; a wager that is not listed could not be read. */
  datatype Reads = Reads(wagers: map<WagerId, ReadOutcome>, characters: map<Wallet, CharacterFacts>, now: nat)

  function ReadOf(seen: Reads, id: WagerId): ReadOutcome {
    if id in seen.wagers then seen.wagers[id] else NoFields
  }

  function CharacterOf(seen: Reads, w: Wallet): Option<CharacterFacts> {
    if w in seen.characters then Some(seen.characters[w]) else None
  }

  predicate Adoptable(seen: Reads, id: WagerId) {
    var r := ReadOf(seen, id);
    r.Read? && (r.fields.status == WAITING || r.fields.status == PENDING_APPROVAL)
  }

  function Card(seen: Reads, row: RegistryEntry): LobbyEntry
    requires Adoptable(seen, row.wagerMatchId)
  {
    BuildLobbyEntry(row.wagerMatchId, ReadOf(seen, row.wagerMatchId).fields,
                    CharacterOf(seen, row.creatorWallet), seen.now).value
  }

  datatype Pass = Pass(lobby: map<WagerId, LobbyEntry>, result: RehydrateResult, rejected: nat)

  /** One registry entry. `rejected` counts adoptions the lobby refused, which the result does not. */
  function Visit(p: Pass, row: RegistryEntry, seen: Reads): Pass {
    var id := row.wagerMatchId;
    if Adoptable(seen, id) then
      if id in p.lobby then p.(rejected := p.rejected + 1)
      else
        Pass(p.lobby[id := Card(seen, row)], p.result.(adopted := p.result.adopted + 1), p.rejected)
    else if ReadOf(seen, id).Read? && ReadOf(seen, id).fields.status == SETTLED then
      p.(result := p.result.(skippedSettled := p.result.skippedSettled + 1))
    else if ReadOf(seen, id).Read? && ReadOf(seen, id).fields.status == ACTIVE then
      p.(result := p.result.(skippedActive := p.result.skippedActive + 1))
    else p.(result := p.result.(errors := p.result.errors + 1))
  }

  function VisitAll(p: Pass, rows: seq<RegistryEntry>, seen: Reads): Pass {
    if rows == [] then p else Visit(VisitAll(p, rows[..|rows| - 1], seen), rows[|rows| - 1], seen)
  }

  function Start(lobby: map<WagerId, LobbyEntry>, entries: nat): Pass {
    Pass(lobby, RehydrateResult(entries, 0, 0, 0, 0), 0)
  }

  class WagerLobby {
    var entries: map<WagerId, LobbyEntry>

    method AdoptWagerIntoLobby(entry: LobbyEntry) returns (adopted: bool)
      modifies this
      ensures adopted == (entry.wagerMatchId !in old(entries))
      ensures entries == if adopted then old(entries)[entry.wagerMatchId := entry] else old(entries)
    {
      if entry.wagerMatchId in entries {
        return false;
      }
      entries := entries[entry.wagerMatchId := entry];
      return true;
    }

    /** `registry` is None when the registry itself could not be read. */
    method RehydrateLobbyFromChain(registry: Option<seq<RegistryEntry>>, seen: Reads) returns (result: RehydrateResult)
      modifies this
      ensures registry.None? ==> entries == old(entries) && result == RehydrateResult(0, 0, 0, 0, 1)
      ensures registry.Some? ==>
                var p := VisitAll(Start(old(entries), |registry.value|), registry.value, seen);
                entries == p.lobby && result == p.result
    {
      result := RehydrateResult(0, 0, 0, 0, 0);
      if registry.None? {
        return result.(errors := 1);
      }
      var rows := registry.value;
      result := result.(registryEntries := |rows|);
      ghost var start := Start(entries, |rows|);
      assert rows[..|rows|] == rows;
      var i := 0;
      while i < |rows|
        invariant 0 <= i <= |rows|
        invariant entries == VisitAll(start, rows[..i], seen).lobby
        invariant result == VisitAll(start, rows[..i], seen).result
      {
        assert rows[..i + 1][..i] == rows[..i];
        var id := rows[i].wagerMatchId;
        var chain := ReadOf(seen, id);
        if !chain.Read? {
          result := result.(errors := result.errors + 1);
        } else if chain.fields.status == SETTLED {
          result := result.(skippedSettled := result.skippedSettled + 1);
        } else if chain.fields.status == ACTIVE {
          result := result.(skippedActive := result.skippedActive + 1);
        } else {
          var entry := BuildLobbyEntry(id, chain.fields, CharacterOf(seen, rows[i].creatorWallet), seen.now);
          if entry.None? {
            result := result.(errors := result.errors + 1);
          } else {
            var adopted := AdoptWagerIntoLobby(entry.value);
            if adopted {
              result := result.(adopted := result.adopted + 1);
            }
          }
        }
        i := i + 1;
      }
    }
  }

  /** The first registry entry for the wager. */
  ghost predicate FirstRow(rows: seq<RegistryEntry>, id: WagerId, k: int) {
    0 <= k < |rows| && rows[k].wagerMatchId == id && forall j :: 0 <= j < k ==> rows[j].wagerMatchId != id
  }

  ghost predicate Lists(rows: seq<RegistryEntry>, id: WagerId) {
    exists k :: 0 <= k < |rows| && rows[k].wagerMatchId == id
  }

  lemma ListsSnoc(rows: seq<RegistryEntry>, id: WagerId)
    requires rows != []
    ensures Lists(rows, id) <==> Lists(rows[..|rows| - 1], id) || rows[|rows| - 1].wagerMatchId == id
  {
    var init := rows[..|rows| - 1];
    if Lists(init, id) {
      var k :| 0 <= k < |init| && init[k].wagerMatchId == id;
      assert rows[k] == init[k];
    }
    if Lists(rows, id) {
      var k :| 0 <= k < |rows| && rows[k].wagerMatchId == id;
      assert k < |init| ==> init[k] == rows[k];
    }
  }

  /**
   * The lobby gains exactly the open wagers that could be read and were not there yet, each as the
   * card built from its own read; cards already there are left alone.
   */
  lemma {:induction false} LobbyGainsExactlyTheOpen(p: Pass, rows: seq<RegistryEntry>, seen: Reads, id: WagerId)
    ensures var after := VisitAll(p, rows, seen).lobby;
            (id in after <==> id in p.lobby || (Lists(rows, id) && Adoptable(seen, id))) &&
            (id in p.lobby ==> after[id] == p.lobby[id]) &&
            (id in after && id !in p.lobby ==> exists k :: FirstRow(rows, id, k) && after[id] == Card(seen, rows[k]))
    decreases |rows|
  {
    if rows != [] {
      var n := |rows| - 1;
      var init := rows[..n];
      LobbyGainsExactlyTheOpen(p, init, seen, id);
      ListsSnoc(rows, id);
      var before, after := VisitAll(p, init, seen).lobby, VisitAll(p, rows, seen).lobby;
      if id in before && id !in p.lobby {
        var k :| FirstRow(init, id, k) && before[id] == Card(seen, init[k]);
        assert FirstRow(rows, id, k) && rows[k] == init[k];
      } else if id in after && id !in before {
        assert !Lists(init, id);
        assert forall j :: 0 <= j < n ==> init[j] == rows[j];
        assert FirstRow(rows, id, n);
      }
    }
  }

  /** Every entry is accounted for once; the four counters miss exactly the refused adoptions. */
  lemma {:induction false} EveryEntryCountedOnce(p: Pass, rows: seq<RegistryEntry>, seen: Reads)
    ensures var q := VisitAll(p, rows, seen);
            q.result.adopted + q.result.skippedActive + q.result.skippedSettled + q.result.errors + q.rejected ==
            p.result.adopted + p.result.skippedActive + p.result.skippedSettled + p.result.errors + p.rejected + |rows|
    ensures |VisitAll(p, rows, seen).lobby| == |p.lobby| + VisitAll(p, rows, seen).result.adopted - p.result.adopted
    decreases |rows|
  {
    if rows != [] {
      EveryEntryCountedOnce(p, rows[..|rows| - 1], seen);
    }
  }

  /** An adoption is refused exactly when an open wager is listed a second time or was already in the lobby. */
  lemma {:induction false} RefusedExactlyWhenPresent(p: Pass, rows: seq<RegistryEntry>, seen: Reads)
    ensures VisitAll(p, rows, seen).rejected == p.rejected <==>
            forall k :: 0 <= k < |rows| && Adoptable(seen, rows[k].wagerMatchId) ==>
              rows[k].wagerMatchId !in p.lobby && !Lists(rows[..k], rows[k].wagerMatchId)
    ensures VisitAll(p, rows, seen).rejected >= p.rejected
    decreases |rows|
  {
    if rows != [] {
      var n := |rows| - 1;
      RefusedExactlyWhenPresent(p, rows[..n], seen);
      LobbyGainsExactlyTheOpen(p, rows[..n], seen, rows[n].wagerMatchId);
      forall k | 0 <= k < n ensures rows[..n][..k] == rows[..k] && rows[..n][k] == rows[k] { }
    }
  }

  /** Reading one wager differently changes no other wager's card. */
  lemma EntriesAreIndependent(p: Pass, rows: seq<RegistryEntry>, a: Reads, b: Reads, id: WagerId)
    requires ReadOf(a, id) == ReadOf(b, id) && a.characters == b.characters && a.now == b.now
    ensures var x, y := VisitAll(p, rows, a).lobby, VisitAll(p, rows, b).lobby;
            (id in x <==> id in y) && (id in x ==> x[id] == y[id])
  {
    LobbyGainsExactlyTheOpen(p, rows, a, id);
    LobbyGainsExactlyTheOpen(p, rows, b, id);
    var x, y := VisitAll(p, rows, a).lobby, VisitAll(p, rows, b).lobby;
    if id in x && id !in p.lobby {
      var j :| FirstRow(rows, id, j) && x[id] == Card(a, rows[j]);
      var k :| FirstRow(rows, id, k) && y[id] == Card(b, rows[k]);
      assert j == k;
    }
  }

  /** A second pass over the same facts finds everything in place. */
  lemma {:induction false} SecondPassAdoptsNothing(rows: seq<RegistryEntry>, seen: Reads, q: Pass)
    requires forall id :: Lists(rows, id) && Adoptable(seen, id) ==> id in q.lobby
    ensures VisitAll(q, rows, seen).lobby == q.lobby
    ensures VisitAll(q, rows, seen).result.adopted == q.result.adopted
    decreases |rows|
  {
    if rows != [] {
      var n := |rows| - 1;
      forall id | Lists(rows[..n], id) ensures Lists(rows, id) {
        var k :| 0 <= k < n && rows[..n][k].wagerMatchId == id;
        assert rows[k].wagerMatchId == id;
      }
      assert Lists(rows, rows[n].wagerMatchId);
      SecondPassAdoptsNothing(rows[..n], seen, q);
    }
  }

  lemma RepeatIsIdle(lobby: map<WagerId, LobbyEntry>, rows: seq<RegistryEntry>, seen: Reads)
    ensures var once := VisitAll(Start(lobby, |rows|), rows, seen).lobby;
            var again := VisitAll(Start(once, |rows|), rows, seen);
            again.lobby == once && again.result.adopted == 0
  {
    var p := Start(lobby, |rows|);
    var once := VisitAll(p, rows, seen).lobby;
    forall id | Lists(rows, id) && Adoptable(seen, id) ensures id in once {
      LobbyGainsExactlyTheOpen(p, rows, seen, id);
    }
    SecondPassAdoptsNothing(rows, seen, Start(once, |rows|));
  }

  /** A placeholder shows the first six characters of a wallet and its last four. */
  lemma PlaceholderShows(wallet: Wallet)
    requires |wallet| >= 6
    ensures var name := PlaceholderName(wallet);
            |name| == 11 && name[..6] == wallet[..6] && name[6] == '\U{2026}' &&
            name[7..] == wallet[|wallet| - 4..]
  {
  }

  /** What a rebuilt card says of its wager, and of its creator as far as the creator is known. */
  predicate SaysOf(card: LobbyEntry, id: WagerId, chain: ChainWagerFields, character: Option<CharacterFacts>, now: nat) {
    card.wagerMatchId == id && card.creatorWallet == chain.playerA && card.status == chain.status &&
    card.wagerAmount * 1_000_000_000.0 == chain.stakeAmount as real && card.levelSnapshot == chain.playerALevel &&
    card.createdAt == now &&
    (match character
     case Some(c) => CharacterFacts(card.characterId, card.name, card.level, card.rating, card.stats) == c
     case None =>
       card.characterId == "rehydrated:" + id && card.name == PlaceholderName(chain.playerA) &&
       card.level == chain.playerALevel && card.rating == 1000 && card.stats == Stats(0, 0, 0, 0)) &&
    (card.pendingChallenger.Some? <==> chain.status == 3 && AcceptGate.Truthy(chain.pendingChallenger)) &&
    (card.pendingChallenger.Some? ==>
       var pending := card.pendingChallenger.value;
       Some(pending.wallet) == chain.pendingChallenger && pending.pendingAt == chain.pendingAt &&
       pending.name == PlaceholderName(pending.wallet) && pending.level == 0 && pending.rating == 1000 &&
       pending.stats == Stats(0, 0, 0, 0))
  }

  lemma BuiltCardSays(id: WagerId, chain: ChainWagerFields, character: Option<CharacterFacts>, now: nat)
    ensures var card := BuildLobbyEntry(id, chain, character, now);
            (card.Some? <==> chain.status == 0 || chain.status == 3) &&
            (card.Some? ==> SaysOf(card.value, id, chain, character, now))
  {
  }

  /** Each card the pass adds says what was read of its wager, and of the creator its registry row names. */
  lemma RebuiltCardSays(lobby: map<WagerId, LobbyEntry>, rows: seq<RegistryEntry>, seen: Reads, id: WagerId)
    requires id !in lobby && id in VisitAll(Start(lobby, |rows|), rows, seen).lobby
    ensures ReadOf(seen, id).Read?
    ensures exists k :: FirstRow(rows, id, k) &&
              SaysOf(VisitAll(Start(lobby, |rows|), rows, seen).lobby[id], id, ReadOf(seen, id).fields,
                     CharacterOf(seen, rows[k].creatorWallet), seen.now)
  {
    var after := VisitAll(Start(lobby, |rows|), rows, seen).lobby;
    LobbyGainsExactlyTheOpen(Start(lobby, |rows|), rows, seen, id);
    var k :| FirstRow(rows, id, k) && after[id] == Card(seen, rows[k]);
    BuiltCardSays(id, ReadOf(seen, id).fields, CharacterOf(seen, rows[k].creatorWallet), seen.now);
  }

  // ----- What each counter counts -----

  function Count<T>(items: seq<T>, counts: T -> bool): nat {
    if items == [] then 0
    else Count(items[..|items| - 1], counts) + if counts(items[|items| - 1]) then 1 else 0
  }

  function ReadsStatus(seen: Reads, status: nat): RegistryEntry -> bool {
    (row: RegistryEntry) =>
      var read := ReadOf(seen, row.wagerMatchId);
      read.Read? && read.fields.status == status
  }

  function ReadsNothingKnown(seen: Reads): RegistryEntry -> bool {
    (row: RegistryEntry) =>
      var read := ReadOf(seen, row.wagerMatchId);
      read.Read? ==> read.fields.status > 3
  }

  /**
   * The counters of the pass: settled and active ones are those read so, errors those that could not be
   * read or are in no known status, and adopted the cards the lobby has gained.
   */
  lemma {:induction false} CountersAre(lobby: map<WagerId, LobbyEntry>, rows: seq<RegistryEntry>, seen: Reads, n: nat)
    requires n <= |rows|
    ensures var p := VisitAll(Start(lobby, |rows|), rows[..n], seen);
            p.result.registryEntries == |rows| && p.result.skippedSettled == Count(rows[..n], ReadsStatus(seen, 2)) &&
            p.result.skippedActive == Count(rows[..n], ReadsStatus(seen, 1)) &&
            p.result.errors == Count(rows[..n], ReadsNothingKnown(seen)) &&
            |p.lobby| == |lobby| + p.result.adopted
    decreases n
  {
    if n > 0 {
      CountersAre(lobby, rows, seen, n - 1);
      assert rows[..n][..n - 1] == rows[..n - 1];
    }
  }

  /**
   * A challenge that was awaiting approval survives the restart: when the creator approves it, the
   * rebuilt card leads the accept handler to the challenger the chain knows.
   */
  lemma RebuiltChallengeCanBeApproved(id: WagerId, chain: ChainWagerFields, character: Option<CharacterFacts>, now: nat)
    requires chain.status == PENDING_APPROVAL && AcceptGate.Truthy(chain.pendingChallenger)
    ensures var card := BuildLobbyEntry(id, chain, character, now).value;
            card.pendingChallenger.Some? &&
            var recorded := Some(card.pendingChallenger.value.wallet);
            AcceptGate.ResolveChallengerWallet(chain.playerA, card.creatorWallet, recorded) == chain.pendingChallenger
  {
  }

  // ----- Sweeping the wagers in flight -----

  /** Which calls fail during the sweep. */
  datatype Faults = Faults(readFails: set<WagerId>, cancelFails: set<WagerId>, deleteFails: set<WagerId>)

  datatype SweepResult = SweepResult(rowsScanned: nat, cancelled: nat, alreadySettled: nat, errors: nat)

  /** Chain statuses, the rows still in the table, and the counters. */
  datatype Books = Books(chain: map<WagerId, nat>, rows: set<WagerId>, result: SweepResult)

  predicate Readable(chain: map<WagerId, nat>, faults: Faults, id: WagerId) {
    id in chain && id !in faults.readFails
  }

  /** A failing call ends the row's turn with an error; what was done before it stays done. */
  function SweepRow(b: Books, id: WagerId, faults: Faults): Books {
    var r := b.result;
    var failed := b.(result := r.(errors := r.errors + 1));
    if !Readable(b.chain, faults, id) then failed
    else
      match b.chain[id]
      case 2 =>
        if id in faults.deleteFails
        then b.(result := r.(alreadySettled := r.alreadySettled + 1, errors := r.errors + 1))
        else b.(rows := b.rows - {id}, result := r.(alreadySettled := r.alreadySettled + 1))
      case 0 => if id in faults.deleteFails then failed else b.(rows := b.rows - {id})
      case s =>
        if s != ACTIVE && s != PENDING_APPROVAL then failed
        else if id in faults.cancelFails then failed
        else if id in faults.deleteFails then failed.(chain := b.chain[id := SETTLED])
        else Books(b.chain[id := SETTLED], b.rows - {id}, r.(cancelled := r.cancelled + 1))
  }

  function Sweep(b: Books, ids: seq<WagerId>, faults: Faults): Books {
    if ids == [] then b else SweepRow(Sweep(b, ids[..|ids| - 1], faults), ids[|ids| - 1], faults)
  }

  class OrphanSweeper {
    var chain: map<WagerId, nat>
    var rows: set<WagerId>
    var result: SweepResult
    const faults: Faults

    ghost function State(): Books
      reads this
    {
      Books(chain, rows, result)
    }

    constructor (chain: map<WagerId, nat>, rows: set<WagerId>, faults: Faults)
      ensures State() == Books(chain, rows, SweepResult(0, 0, 0, 0)) && this.faults == faults
    {
      this.chain, this.rows, this.faults := chain, rows, faults;
      result := SweepResult(0, 0, 0, 0);
    }

    method AdminCancelWager(id: WagerId) returns (ok: bool)
      requires id in chain
      modifies this
      ensures ok == (id !in faults.cancelFails)
      ensures rows == old(rows) && result == old(result)
      ensures chain == if ok then old(chain)[id := SETTLED] else old(chain)
    {
      if id in faults.cancelFails {
        return false;
      }
      chain := chain[id := SETTLED];
      return true;
    }

    method DeleteRow(id: WagerId) returns (ok: bool)
      modifies this
      ensures ok == (id !in faults.deleteFails)
      ensures chain == old(chain) && result == old(result)
      ensures rows == if ok then old(rows) - {id} else old(rows)
    {
      if id in faults.deleteFails {
        return false;
      }
      rows := rows - {id};
      return true;
    }

    /** `threw` tells the caller to count an error of its own. */
    method SweepOne(id: WagerId) returns (threw: bool)
      modifies this
      ensures SweepRow(old(State()), id, faults) ==
              if threw then State().(result := result.(errors := result.errors + 1)) else State()
    {
      if !Readable(chain, faults, id) {
        result := result.(errors := result.errors + 1);
        return false;
      }
      var status := chain[id];
      if status == SETTLED {
        result := result.(alreadySettled := result.alreadySettled + 1);
        var ok := DeleteRow(id);
        return !ok;
      }
      if status == ACTIVE || status == PENDING_APPROVAL {
        var ok := AdminCancelWager(id);
        if !ok { return true; }
        ok := DeleteRow(id);
        if !ok { return true; }
        result := result.(cancelled := result.cancelled + 1);
        return false;
      }
      if status == WAITING {
        var ok := DeleteRow(id);
        return !ok;
      }
      result := result.(errors := result.errors + 1);
      return false;
    }

    method SweepOrphanActiveWagers(stale: seq<WagerId>)
      modifies this
      ensures State() == Sweep(Books(old(chain), old(rows), SweepResult(|stale|, 0, 0, 0)), stale, faults)
    {
      result := SweepResult(|stale|, 0, 0, 0);
      ghost var start := State();
      assert stale[..|stale|] == stale;
      var i := 0;
      while i < |stale|
        invariant 0 <= i <= |stale|
        invariant State() == Sweep(start, stale[..i], faults)
      {
        assert stale[..i + 1][..i] == stale[..i];
        var threw := SweepOne(stale[i]);
        if threw {
          result := result.(errors := result.errors + 1);
        }
        i := i + 1;
      }
    }
  }

  /** What becomes of one wager in the sweep depends on that wager alone. */
  lemma {:induction false} SweepPointwise(b: Books, ids: seq<WagerId>, faults: Faults, id: WagerId)
    requires NoDup(ids)
    ensures var after := Sweep(b, ids, faults);
            var turn := if id in ids then SweepRow(b, id, faults) else b;
            (id in after.chain <==> id in b.chain) &&
            (id in b.chain ==> after.chain[id] == turn.chain[id]) && (id in after.rows <==> id in turn.rows)
    decreases |ids|
  {
    if ids != [] {
      var n := |ids| - 1;
      SweepPointwise(b, ids[..n], faults, id);
      assert id in ids <==> id in ids[..n] || id == ids[n];
      assert ids[n] !in ids[..n];
    }
  }

  /** Rows dropped because the wager was still WAITING; the counters leave them out. */
  ghost function DroppedWaiting(chain: map<WagerId, nat>, ids: seq<WagerId>, faults: Faults): nat {
    if ids == [] then 0
    else
      var id := ids[|ids| - 1];
      DroppedWaiting(chain, ids[..|ids| - 1], faults) +
      if Readable(chain, faults, id) && chain[id] == WAITING && id !in faults.deleteFails then 1 else 0
  }

  /** Settled rows that could not be deleted; they are counted as settled and as an error. */
  ghost function UndeletedSettled(chain: map<WagerId, nat>, ids: seq<WagerId>, faults: Faults): nat {
    if ids == [] then 0
    else
      var id := ids[|ids| - 1];
      UndeletedSettled(chain, ids[..|ids| - 1], faults) +
      if Readable(chain, faults, id) && chain[id] == SETTLED && id in faults.deleteFails then 1 else 0
  }

  /** The sweep's counters add up to the rows scanned exactly up to those two kinds of row. */
  lemma {:induction false} SweepCounts(b: Books, ids: seq<WagerId>, faults: Faults)
    requires NoDup(ids) && b.result.cancelled + b.result.alreadySettled + b.result.errors == 0
    ensures var r := Sweep(b, ids, faults).result;
            r.cancelled + r.alreadySettled + r.errors + DroppedWaiting(b.chain, ids, faults) ==
            |ids| + UndeletedSettled(b.chain, ids, faults)
    decreases |ids|
  {
    if ids != [] {
      var n := |ids| - 1;
      SweepCounts(b, ids[..n], faults);
      SweepPointwise(b, ids[..n], faults, ids[n]);
      assert ids[n] !in ids[..n];
    }
  }

  /** The wager is one that a sweep cancels if the call goes through. */
  predicate CallsOff(chain: map<WagerId, nat>, faults: Faults, id: WagerId) {
    Readable(chain, faults, id) && (chain[id] == 1 || chain[id] == 3) && id !in faults.cancelFails
  }

  /** The sweep has done with the row: it was settled, never accepted, or has just been cancelled. */
  predicate DoneWith(chain: map<WagerId, nat>, faults: Faults, id: WagerId) {
    Readable(chain, faults, id) && (chain[id] == 0 || chain[id] == 2 || CallsOff(chain, faults, id))
  }

  /**
   * What a sweep leaves of each wager: it is settled by the sweep exactly if it was live on chain, could
   * be read and cancelled; and its row goes exactly if nothing was left to do and the delete went through.
   */
  lemma SweepLeaves(b: Books, ids: seq<WagerId>, faults: Faults, id: WagerId)
    requires NoDup(ids) && id in ids
    ensures var after := Sweep(b, ids, faults);
            (id in after.chain <==> id in b.chain) &&
            (id in b.chain ==> after.chain[id] == if CallsOff(b.chain, faults, id) then 2 else b.chain[id]) &&
            (id in after.rows <==> id in b.rows && !(DoneWith(b.chain, faults, id) && id !in faults.deleteFails))
  {
    SweepPointwise(b, ids, faults, id);
  }

  function Cancels(chain: map<WagerId, nat>, faults: Faults): WagerId -> bool {
    (id: WagerId) => CallsOff(chain, faults, id) && id !in faults.deleteFails
  }

  function FindsSettled(chain: map<WagerId, nat>, faults: Faults): WagerId -> bool {
    (id: WagerId) => Readable(chain, faults, id) && chain[id] == 2
  }

  function Fails(chain: map<WagerId, nat>, faults: Faults): WagerId -> bool {
    (id: WagerId) => !DoneWith(chain, faults, id) || id in faults.deleteFails
  }

  /** Each counter of a sweep by itself: wagers cancelled for good, found settled, and left with something failed. */
  lemma {:induction false} SweepCountersAre(b: Books, ids: seq<WagerId>, faults: Faults)
    requires NoDup(ids)
    ensures var r := Sweep(b, ids, faults).result;
            r.rowsScanned == b.result.rowsScanned &&
            r.cancelled == b.result.cancelled + Count(ids, Cancels(b.chain, faults)) &&
            r.alreadySettled == b.result.alreadySettled + Count(ids, FindsSettled(b.chain, faults)) &&
            r.errors == b.result.errors + Count(ids, Fails(b.chain, faults))
    decreases |ids|
  {
    if ids != [] {
      var n := |ids| - 1;
      SweepCountersAre(b, ids[..n], faults);
      SweepPointwise(b, ids[..n], faults, ids[n]);
      assert ids[n] !in ids[..n];
      RowCounts(Sweep(b, ids[..n], faults), b.chain, ids[n], faults);
    }
  }

  lemma RowCounts(b: Books, chain: map<WagerId, nat>, id: WagerId, faults: Faults)
    requires (id in b.chain <==> id in chain) && (id in chain ==> b.chain[id] == chain[id])
    ensures var r, s := b.result, SweepRow(b, id, faults).result;
            s.rowsScanned == r.rowsScanned &&
            s.cancelled == r.cancelled + (if Cancels(chain, faults)(id) then 1 else 0) &&
            s.alreadySettled == r.alreadySettled + (if FindsSettled(chain, faults)(id) then 1 else 0) &&
            s.errors == r.errors + (if Fails(chain, faults)(id) then 1 else 0)
  {
  }

  // ----- Both passes together -----

  predicate Live(chain: map<WagerId, nat>, id: WagerId) {
    id in chain && (chain[id] == WAITING || chain[id] == ACTIVE || chain[id] == PENDING_APPROVAL)
  }

  /**
   * The two passes run side by side: each wager the lobby pass reads, it reads before or after the
   * sweep has dealt with it.
   */
  ghost predicate ReadsEitherSide(seen: Reads, before: map<WagerId, nat>, after: map<WagerId, nat>) {
    forall id :: ReadOf(seen, id).Read? ==>
      id in before && id in after &&
      (ReadOf(seen, id).fields.status == before[id] || ReadOf(seen, id).fields.status == after[id])
  }

  /**
   * After recovery a live wager that the registry lists is in nobody's hands, neither in the lobby nor
   * in the table for the next sweep, exactly if it is ACTIVE and never had a stale row, or it is open,
   * could not be read, and no failing delete kept a row for it.
   */
  lemma UnownedExactly(b: Books, stale: seq<WagerId>, faults: Faults, rows: seq<RegistryEntry>, seen: Reads, id: WagerId)
    requires NoDup(stale) && (forall x :: x in stale <==> x in b.rows)
    requires Lists(rows, id) && ReadsEitherSide(seen, b.chain, Sweep(b, stale, faults).chain)
    ensures var swept := Sweep(b, stale, faults);
            var lobby := VisitAll(Start(map[], |rows|), rows, seen).lobby;
            Live(swept.chain, id) && id !in lobby && id !in swept.rows <==>
              id in b.chain &&
              ((b.chain[id] == ACTIVE && id !in b.rows) ||
               (b.chain[id] == WAITING && !ReadOf(seen, id).Read? &&
                (id !in b.rows || (id !in faults.readFails && id !in faults.deleteFails))) ||
               (b.chain[id] == PENDING_APPROVAL && !ReadOf(seen, id).Read? && id !in b.rows))
  {
    SweepPointwise(b, stale, faults, id);
    LobbyGainsExactlyTheOpen(Start(map[], |rows|), rows, seen, id);
  }

  /** The sweep cancelled the wager as an unanswered challenge. */
  predicate CancelsChallenge(b: Books, faults: Faults, id: WagerId) {
    id in b.chain && b.chain[id] == PENDING_APPROVAL && id in b.rows &&
    id !in faults.readFails && id !in faults.cancelFails
  }

  /** What a sweep settles that was open before is exactly the challenges it cancels. */
  lemma SettledBySweep(b: Books, stale: seq<WagerId>, faults: Faults, id: WagerId)
    requires NoDup(stale) && (forall x :: x in stale <==> x in b.rows) && id in b.chain
    ensures var swept := Sweep(b, stale, faults);
            id in swept.chain && (swept.chain[id] != b.chain[id] ==> swept.chain[id] == SETTLED) &&
            (b.chain[id] == PENDING_APPROVAL ==> (swept.chain[id] == SETTLED <==> CancelsChallenge(b, faults, id))) &&
            (b.chain[id] == WAITING ==> swept.chain[id] == WAITING)
  {
    SweepPointwise(b, stale, faults, id);
  }

  /**
   * The lobby is left showing a wager that is already settled exactly when the sweep cancelled a
   * challenge awaiting approval after the lobby pass had read it.
   */
  lemma StaleCardExactly(b: Books, stale: seq<WagerId>, faults: Faults, rows: seq<RegistryEntry>, seen: Reads,
                         id: WagerId)
    requires NoDup(stale) && (forall x :: x in stale <==> x in b.rows)
    requires Lists(rows, id) && ReadsEitherSide(seen, b.chain, Sweep(b, stale, faults).chain)
    ensures var swept := Sweep(b, stale, faults);
            var lobby := VisitAll(Start(map[], |rows|), rows, seen).lobby;
            id in lobby && id in swept.chain && swept.chain[id] == SETTLED <==>
              CancelsChallenge(b, faults, id) && ReadOf(seen, id).Read? &&
              ReadOf(seen, id).fields.status == PENDING_APPROVAL
  {
    if id in b.chain { SettledBySweep(b, stale, faults, id); } else { SweepPointwise(b, stale, faults, id); }
    LobbyGainsExactlyTheOpen(Start(map[], |rows|), rows, seen, id);
  }
}
