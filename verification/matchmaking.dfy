/**
 * The friendly and ranked queue: a greedy first-come matcher run over the queue on every arrival and
 * on a timer.
 */
module Matchmaking {
  import opened Common

  const MATCHMAKING_INITIAL_RANGE := 200
  const MATCHMAKING_EXPAND_AMOUNT := 50
  const MATCHMAKING_EXPAND_INTERVAL_MS := 10_000

  datatype FightType = Friendly | Ranked | WagerFight | ItemStake | Bot

  datatype QueueEntry = QueueEntry(
    wallet: string, characterId: string, fightType: FightType, rating: int, joinedAt: nat, wagerAmount: Option<int>)

  function Abs(x: int): nat {
    if x < 0 then -x else x
  }

  function Waited(e: QueueEntry, now: nat): nat {
    if now < e.joinedAt then 0 else now - e.joinedAt
  }

  function AllowedRange(a: QueueEntry, b: QueueEntry, now: nat): nat {
    var longest := if Waited(a, now) < Waited(b, now) then Waited(b, now) else Waited(a, now);
    MATCHMAKING_INITIAL_RANGE + longest / MATCHMAKING_EXPAND_INTERVAL_MS * MATCHMAKING_EXPAND_AMOUNT
  }

  predicate CanMatch(a: QueueEntry, b: QueueEntry, now: nat) {
    a.fightType == b.fightType &&
    (a.fightType == WagerFight ==> a.wagerAmount == b.wagerAmount) &&
    (a.fightType == Friendly || Abs(a.rating - b.rating) <= AllowedRange(a, b, now))
  }

  /** By the time given, one of the two has waited the given number of ten-second steps. */
  predicate WaitedSteps(a: QueueEntry, b: QueueEntry, now: nat, steps: nat) {
    now >= a.joinedAt + 10_000 * steps || now >= b.joinedAt + 10_000 * steps
  }

  lemma StepsOfRange(a: QueueEntry, b: QueueEntry, now: nat, difference: nat)
    ensures difference <= AllowedRange(a, b, now) <==>
              difference <= 200 || exists steps: nat :: difference <= 200 + 50 * steps && WaitedSteps(a, b, now, steps)
  {
    var longest := if Waited(a, now) < Waited(b, now) then Waited(b, now) else Waited(a, now);
    var most := longest / 10_000;
    if 200 < difference <= AllowedRange(a, b, now) {
      assert WaitedSteps(a, b, now, most) && difference <= 200 + 50 * most;
    }
    forall steps: nat | difference <= 200 + 50 * steps && WaitedSteps(a, b, now, steps)
      ensures difference <= AllowedRange(a, b, now)
    {
      assert steps == 0 || longest >= 10_000 * steps;
      assert steps <= most;
    }
  }

  /**
   * Which pairs match: friendly ones always; wager fights for the same amount only; and all but friendly
   * ones when the ratings are at most 200 apart, and 50 more for every ten seconds that the one who has
   * waited longer has waited.
   */
  lemma MatchesExactly(a: QueueEntry, b: QueueEntry, now: nat)
    ensures CanMatch(a, b, now) <==>
              a.fightType == b.fightType && (a.fightType == WagerFight ==> a.wagerAmount == b.wagerAmount) &&
              (a.fightType == Friendly || -200 <= a.rating - b.rating <= 200 ||
               exists steps: nat ::
                 -200 - 50 * steps <= a.rating - b.rating <= 200 + 50 * steps && WaitedSteps(a, b, now, steps))
  {
    var difference := Abs(a.rating - b.rating);
    StepsOfRange(a, b, now, difference);
    forall steps: nat
      ensures -200 - 50 * steps <= a.rating - b.rating <= 200 + 50 * steps <==> difference <= 200 + 50 * steps { }
  }

  lemma CanMatchSymmetric(a: QueueEntry, b: QueueEntry, now: nat)
    ensures CanMatch(a, b, now) <==> CanMatch(b, a, now)
  {
  }

  ghost predicate OnePerWallet(queue: seq<QueueEntry>) {
    forall i, j :: 0 <= i < j < |queue| ==> queue[i].wallet != queue[j].wallet
  }

  predicate Queued(queue: seq<QueueEntry>, wallet: string) {
    exists i :: 0 <= i < |queue| && queue[i].wallet == wallet
  }

  /** The entries, in order, whose wallets are not in `gone`. */
  function Without(queue: seq<QueueEntry>, gone: set<string>): seq<QueueEntry> {
    if queue == [] then []
    else if queue[0].wallet in gone then Without(queue[1..], gone)
    else [queue[0]] + Without(queue[1..], gone)
  }

  function OfType(queue: seq<QueueEntry>, t: FightType): seq<QueueEntry> {
    if queue == [] then []
    else if queue[0].fightType == t then [queue[0]] + OfType(queue[1..], t)
    else OfType(queue[1..], t)
  }

  lemma {:induction false} WithoutMembers(queue: seq<QueueEntry>, gone: set<string>, e: QueueEntry)
    ensures e in Without(queue, gone) <==> e in queue && e.wallet !in gone
    decreases |queue|
  {
    if queue != [] {
      WithoutMembers(queue[1..], gone, e);
      assert e in queue <==> e == queue[0] || e in queue[1..];
    }
  }

  lemma {:induction false} OfTypeMembers(queue: seq<QueueEntry>, t: FightType, e: QueueEntry)
    ensures e in OfType(queue, t) <==> e in queue && e.fightType == t
    decreases |queue|
  {
    if queue != [] {
      OfTypeMembers(queue[1..], t, e);
      assert e in queue <==> e == queue[0] || e in queue[1..];
    }
  }

  lemma {:induction false} WithoutKeepsOnePerWallet(queue: seq<QueueEntry>, gone: set<string>)
    requires OnePerWallet(queue)
    ensures OnePerWallet(Without(queue, gone))
    decreases |queue|
  {
    if queue != [] {
      WithoutKeepsOnePerWallet(queue[1..], gone);
      forall e | e in Without(queue[1..], gone) ensures e.wallet != queue[0].wallet {
        WithoutMembers(queue[1..], gone, e);
      }
    }
  }

  lemma {:induction false} OfTypeKeepsOnePerWallet(queue: seq<QueueEntry>, t: FightType)
    requires OnePerWallet(queue)
    ensures OnePerWallet(OfType(queue, t))
    decreases |queue|
  {
    if queue != [] {
      OfTypeKeepsOnePerWallet(queue[1..], t);
      forall e | e in OfType(queue[1..], t) ensures e.wallet != queue[0].wallet {
        OfTypeMembers(queue[1..], t, e);
      }
    }
  }

  // ----- What a pass over the queue must achieve -----

  type Pair = (QueueEntry, QueueEntry)

  ghost predicate PairsFrom(pairs: seq<Pair>, queue: seq<QueueEntry>, now: nat) {
    forall k :: 0 <= k < |pairs| ==>
      pairs[k].0 in queue && pairs[k].1 in queue && pairs[k].0.wallet != pairs[k].1.wallet &&
      CanMatch(pairs[k].0, pairs[k].1, now)
  }

  /** No wallet is in two pairs. */
  ghost predicate PairsApart(pairs: seq<Pair>) {
    forall j, k :: 0 <= j < k < |pairs| ==>
      {pairs[j].0.wallet, pairs[j].1.wallet} !! {pairs[k].0.wallet, pairs[k].1.wallet}
  }

  ghost function WalletsOf(pairs: seq<Pair>): set<string> {
    (set k | 0 <= k < |pairs| :: pairs[k].0.wallet) + (set k | 0 <= k < |pairs| :: pairs[k].1.wallet)
  }

  predicate Unmatched(entries: seq<QueueEntry>, matched: set<string>, e: QueueEntry) {
    e in entries && e.wallet !in matched
  }

  /** No two of the entries that are not matched yet could be matched with each other. */
  ghost predicate NoneLeftToMatch(entries: seq<QueueEntry>, matched: set<string>, now: nat) {
    forall a, b :: Unmatched(entries, matched, a) && Unmatched(entries, matched, b) && a.wallet != b.wallet ==>
      !CanMatch(a, b, now)
  }

  ghost predicate Before(queue: seq<QueueEntry>, a: QueueEntry, b: QueueEntry) {
    exists i, j :: 0 <= i < j < |queue| && queue[i] == a && queue[j] == b
  }

  /**
   * First come, first served: a pair's earlier member was given the earliest compatible entry behind
   * it that no earlier pair had taken.
   */
  ghost predicate FirstCome(queue: seq<QueueEntry>, pairs: seq<Pair>, now: nat, from: nat) {
    forall m :: from <= m < |pairs| ==>
      Before(queue, pairs[m].0, pairs[m].1) &&
      forall c :: Before(queue, pairs[m].0, c) && Before(queue, c, pairs[m].1) && CanMatch(pairs[m].0, c, now) ==>
        c.wallet in WalletsOf(pairs[..m])
  }

  lemma {:induction false} OfTypeOrder(queue: seq<QueueEntry>, t: FightType, a: QueueEntry, b: QueueEntry)
    requires a.fightType == t && b.fightType == t
    ensures Before(queue, a, b) <==> Before(OfType(queue, t), a, b)
    decreases |queue|
  {
    if queue != [] {
      var rest := queue[1..];
      OfTypeOrder(rest, t, a, b);
      OfTypeMembers(rest, t, b);
      BeforeCons(rest, queue[0], a, b);
      BeforeCons(OfType(rest, t), queue[0], a, b);
      assert queue == [queue[0]] + rest;
    }
  }

  lemma BeforeCons(rest: seq<QueueEntry>, x: QueueEntry, a: QueueEntry, b: QueueEntry)
    ensures Before([x] + rest, a, b) <==> Before(rest, a, b) || (a == x && b in rest)
  {
    var all := [x] + rest;
    if Before(all, a, b) {
      var i, j :| 0 <= i < j < |all| && all[i] == a && all[j] == b;
      assert rest[j - 1] == b;
      if i > 0 { assert rest[i - 1] == a; }
    }
    if Before(rest, a, b) {
      var i, j :| 0 <= i < j < |rest| && rest[i] == a && rest[j] == b;
      assert all[i + 1] == a && all[j + 1] == b;
    }
    if a == x && b in rest {
      var j :| 0 <= j < |rest| && rest[j] == b;
      assert all[0] == a && all[j + 1] == b;
    }
  }

  /** What the group of one fight type was served holds of the queue the group was taken from. */
  lemma FirstComeInQueue(queue: seq<QueueEntry>, t: FightType, pairs: seq<Pair>, now: nat, from: nat)
    requires from <= |pairs| && FirstCome(queue, pairs[..from], now, 0)
    requires FirstCome(OfType(queue, t), pairs, now, from)
    requires forall m :: from <= m < |pairs| ==> pairs[m].0.fightType == t && pairs[m].1.fightType == t
    ensures FirstCome(queue, pairs, now, 0)
  {
    forall m | 0 <= m < |pairs|
      ensures Before(queue, pairs[m].0, pairs[m].1)
      ensures forall c :: Before(queue, pairs[m].0, c) && Before(queue, c, pairs[m].1) && CanMatch(pairs[m].0, c, now)
                ==> c.wallet in WalletsOf(pairs[..m])
    {
      if m < from {
        assert pairs[..from][m] == pairs[m] && pairs[..from][..m] == pairs[..m];
      } else {
        OfTypeOrder(queue, t, pairs[m].0, pairs[m].1);
        forall c | Before(queue, pairs[m].0, c) && Before(queue, c, pairs[m].1) && CanMatch(pairs[m].0, c, now)
          ensures c.wallet in WalletsOf(pairs[..m])
        {
          OfTypeOrder(queue, t, pairs[m].0, c);
          OfTypeOrder(queue, t, c, pairs[m].1);
        }
      }
    }
  }

  lemma OneIndex(queue: seq<QueueEntry>, i: nat, j: nat)
    requires OnePerWallet(queue) && i < |queue| && j < |queue| && queue[i] == queue[j]
    ensures i == j
  {
  }

  /** Serving the entry at `i` with the first one after it that fits keeps the rule. */
  lemma FirstComeGrows(entries: seq<QueueEntry>, pairs: seq<Pair>, matched: set<string>, now: nat, from: nat,
                       i: nat, j: nat)
    requires OnePerWallet(entries) && from <= |pairs| && FirstCome(entries, pairs, now, from)
    requires matched == WalletsOf(pairs) && i < j < |entries|
    requires forall k :: i < k < j ==> entries[k].wallet in matched || !CanMatch(entries[i], entries[k], now)
    ensures FirstCome(entries, pairs + [(entries[i], entries[j])], now, from)
  {
    var more := pairs + [(entries[i], entries[j])];
    forall m | from <= m < |more|
      ensures Before(entries, more[m].0, more[m].1)
      ensures forall c :: Before(entries, more[m].0, c) && Before(entries, c, more[m].1) && CanMatch(more[m].0, c, now)
                ==> c.wallet in WalletsOf(more[..m])
    {
      if m < |pairs| {
        assert more[m] == pairs[m] && more[..m] == pairs[..m];
      } else {
        assert more[..m] == pairs;
        forall c | Before(entries, entries[i], c) && Before(entries, c, entries[j]) && CanMatch(entries[i], c, now)
          ensures c.wallet in matched
        {
          var x, k :| 0 <= x < k < |entries| && entries[x] == entries[i] && entries[k] == c;
          var l, y :| 0 <= l < y < |entries| && entries[l] == c && entries[y] == entries[j];
          OneIndex(entries, x, i);
          OneIndex(entries, y, j);
          OneIndex(entries, k, l);
        }
      }
    }
  }

  ghost predicate Matching(queue: seq<QueueEntry>, pairs: seq<Pair>, matched: set<string>, now: nat) {
    PairsFrom(pairs, queue, now) && PairsApart(pairs) && matched == WalletsOf(pairs)
  }

  lemma WalletsOfMore(pairs: seq<Pair>, a: QueueEntry, b: QueueEntry)
    ensures WalletsOf(pairs + [(a, b)]) == WalletsOf(pairs) + {a.wallet, b.wallet}
  {
    var more := pairs + [(a, b)];
    assert more[|pairs|] == (a, b);
    forall w | w in WalletsOf(pairs) ensures w in WalletsOf(more) {
      var k :| 0 <= k < |pairs| && (pairs[k].0.wallet == w || pairs[k].1.wallet == w);
      assert more[k] == pairs[k];
    }
  }

  lemma StillApart(pairs: seq<Pair>, a: QueueEntry, b: QueueEntry)
    requires PairsApart(pairs) && a.wallet !in WalletsOf(pairs) && b.wallet !in WalletsOf(pairs)
    ensures PairsApart(pairs + [(a, b)])
  {
    forall k | 0 <= k < |pairs|
      ensures pairs[k].0.wallet in WalletsOf(pairs) && pairs[k].1.wallet in WalletsOf(pairs) { }
  }

  lemma MatchingGrows(queue: seq<QueueEntry>, pairs: seq<Pair>, matched: set<string>, now: nat, a: QueueEntry,
                      b: QueueEntry)
    requires Matching(queue, pairs, matched, now)
    requires a in queue && b in queue && a.wallet != b.wallet && CanMatch(a, b, now)
    requires a.wallet !in matched && b.wallet !in matched
    ensures Matching(queue, pairs + [(a, b)], matched + {a.wallet, b.wallet}, now)
  {
    StillApart(pairs, a, b);
    WalletsOfMore(pairs, a, b);
  }

  /** The entry at `i` has had its turn: it is matched, or nothing unmatched after it will do. */
  ghost predicate Tried(entries: seq<QueueEntry>, i: nat, matched: set<string>, now: nat)
    requires i < |entries|
  {
    entries[i].wallet in matched ||
    forall j :: i < j < |entries| ==> entries[j].wallet in matched || !CanMatch(entries[i], entries[j], now)
  }

  lemma TriedGrows(entries: seq<QueueEntry>, n: nat, matched: set<string>, more: set<string>, now: nat)
    requires n <= |entries| && matched <= more
    requires forall k :: 0 <= k < n ==> Tried(entries, k, matched, now)
    ensures forall k :: 0 <= k < n ==> Tried(entries, k, more, now)
  {
    forall k | 0 <= k < n ensures Tried(entries, k, more, now) {
      assert Tried(entries, k, matched, now);
    }
  }

  lemma TriedMeansNoneLeft(entries: seq<QueueEntry>, matched: set<string>, now: nat)
    requires forall i :: 0 <= i < |entries| ==> Tried(entries, i, matched, now)
    ensures NoneLeftToMatch(entries, matched, now)
  {
    forall a, b | Unmatched(entries, matched, a) && Unmatched(entries, matched, b) && a.wallet != b.wallet
      ensures !CanMatch(a, b, now)
    {
      var i :| 0 <= i < |entries| && entries[i] == a;
      var j :| 0 <= j < |entries| && entries[j] == b;
      assert Tried(entries, i, matched, now) && Tried(entries, j, matched, now);
      CanMatchSymmetric(a, b, now);
    }
  }

  // ----- The groups, in the order their types first appear -----

  function TypesOf(queue: seq<QueueEntry>): seq<FightType> {
    if queue == [] then []
    else
      var before, t := TypesOf(queue[..|queue| - 1]), queue[|queue| - 1].fightType;
      if t in before then before else before + [t]
  }

  predicate HasType(queue: seq<QueueEntry>, t: FightType) {
    exists i :: 0 <= i < |queue| && queue[i].fightType == t
  }

  /** At some point of the queue the first type has appeared and the second has not. */
  ghost predicate AppearsFirst(queue: seq<QueueEntry>, s: FightType, t: FightType) {
    exists n :: 0 <= n <= |queue| && HasType(queue[..n], s) && !HasType(queue[..n], t)
  }

  lemma {:induction false} TypesOfMembers(queue: seq<QueueEntry>, t: FightType)
    ensures t in TypesOf(queue) <==> HasType(queue, t)
    decreases |queue|
  {
    if queue != [] {
      var init, last := queue[..|queue| - 1], queue[|queue| - 1].fightType;
      TypesOfMembers(init, t);
      assert HasType(init, t) ==> HasType(queue, t) by {
        if HasType(init, t) {
          var i :| 0 <= i < |init| && init[i].fightType == t;
          assert queue[i].fightType == t;
        }
      }
      if HasType(queue, t) && t != last {
        var i :| 0 <= i < |queue| && queue[i].fightType == t;
        assert init[i].fightType == t;
      }
    }
  }

  lemma FirstInInit(queue: seq<QueueEntry>, s: FightType, t: FightType)
    requires queue != [] && AppearsFirst(queue[..|queue| - 1], s, t)
    ensures AppearsFirst(queue, s, t)
  {
    var init := queue[..|queue| - 1];
    var n :| 0 <= n <= |init| && HasType(init[..n], s) && !HasType(init[..n], t);
    assert queue[..n] == init[..n];
  }

  lemma {:induction false} TypesInOrder(queue: seq<QueueEntry>, a: nat, b: nat)
    requires a < b < |TypesOf(queue)|
    ensures AppearsFirst(queue, TypesOf(queue)[a], TypesOf(queue)[b]) && TypesOf(queue)[a] != TypesOf(queue)[b]
    decreases |queue|
  {
    var init := queue[..|queue| - 1];
    var s, t := TypesOf(queue)[a], TypesOf(queue)[b];
    if b < |TypesOf(init)| {
      TypesInOrder(init, a, b);
      FirstInInit(queue, s, t);
    } else {
      assert s in TypesOf(init) && t !in TypesOf(init);
      TypesOfMembers(init, s);
      TypesOfMembers(init, t);
      assert queue[..|init|] == init;
    }
  }

  /** Entries that are left to match in the queue are left to match in their own group. */
  lemma NoneLeftInAnyGroup(queue: seq<QueueEntry>, matched: set<string>, now: nat)
    requires forall t :: t in TypesOf(queue) ==> NoneLeftToMatch(OfType(queue, t), matched, now)
    ensures NoneLeftToMatch(queue, matched, now)
  {
    forall a, b | Unmatched(queue, matched, a) && Unmatched(queue, matched, b) && a.wallet != b.wallet
      ensures !CanMatch(a, b, now)
    {
      var t := a.fightType;
      TypesOfMembers(queue, t);
      assert NoneLeftToMatch(OfType(queue, t), matched, now);
      OfTypeMembers(queue, t, a);
      OfTypeMembers(queue, t, b);
      if b.fightType == t {
        assert Unmatched(OfType(queue, t), matched, a) && Unmatched(OfType(queue, t), matched, b);
      }
    }
  }

  /** The order of the callbacks: by the type that appeared first, and within a type by first member. */
  ghost predicate Called(queue: seq<QueueEntry>, p: Pair, q: Pair) {
    if p.0.fightType == q.0.fightType then Before(queue, p.0, q.0)
    else AppearsFirst(queue, p.0.fightType, q.0.fightType)
  }

  ghost predicate CalledInOrder(queue: seq<QueueEntry>, pairs: seq<Pair>) {
    forall j, k :: 0 <= j < k < |pairs| ==> Called(queue, pairs[j], pairs[k])
  }

  /** The pairs from `from` on are in the order of their first members. */
  ghost predicate ByFirst(entries: seq<QueueEntry>, pairs: seq<Pair>, from: nat) {
    forall j, k :: from <= j < k < |pairs| ==> Before(entries, pairs[j].0, pairs[k].0)
  }

  /** The pairs from `from` on have their first members among the first n entries. */
  ghost predicate Within(entries: seq<QueueEntry>, pairs: seq<Pair>, from: nat, n: nat) {
    n <= |entries| && forall j :: from <= j < |pairs| ==> pairs[j].0 in entries[..n]
  }

  lemma ByFirstGrows(entries: seq<QueueEntry>, pairs: seq<Pair>, from: nat, i: nat, j: nat)
    requires from <= |pairs| && ByFirst(entries, pairs, from) && Within(entries, pairs, from, i) && i < j < |entries|
    ensures ByFirst(entries, pairs + [(entries[i], entries[j])], from)
    ensures Within(entries, pairs + [(entries[i], entries[j])], from, i + 1)
  {
    var more := pairs + [(entries[i], entries[j])];
    forall m | from <= m < |pairs|
      ensures Before(entries, pairs[m].0, entries[i]) && pairs[m].0 in entries[..i + 1]
    {
      assert pairs[m].0 in entries[..i];
      var x :| 0 <= x < i && entries[..i][x] == pairs[m].0;
      assert entries[x] == pairs[m].0 && entries[..i + 1][x] == pairs[m].0;
    }
    assert entries[..i + 1][i] == entries[i];
    forall k, m | from <= k < m < |more| ensures Before(entries, more[k].0, more[m].0) {
      assert more[k] == pairs[k];
      if m < |pairs| { assert more[m] == pairs[m]; }
    }
  }

  lemma WithinGrows(entries: seq<QueueEntry>, pairs: seq<Pair>, from: nat, i: nat)
    requires Within(entries, pairs, from, i) && i < |entries|
    ensures Within(entries, pairs, from, i + 1)
  {
    assert entries[..i + 1] == entries[..i] + [entries[i]];
  }

  /** Serving one more group keeps the order, when all earlier pairs are of types that appeared before. */
  lemma CalledGrows(queue: seq<QueueEntry>, types: seq<FightType>, n: nat, pairs: seq<Pair>, from: nat)
    requires types == TypesOf(queue) && n < |types| && from <= |pairs| && CalledInOrder(queue, pairs[..from])
    requires forall m :: 0 <= m < from ==> pairs[m].0.fightType in types[..n]
    requires forall m :: from <= m < |pairs| ==> pairs[m].0.fightType == types[n]
    requires ByFirst(OfType(queue, types[n]), pairs, from)
    ensures CalledInOrder(queue, pairs)
  {
    forall j, k | 0 <= j < k < |pairs| ensures Called(queue, pairs[j], pairs[k]) {
      if k < from {
        assert pairs[..from][j] == pairs[j] && pairs[..from][k] == pairs[k];
      } else if j < from {
        assert pairs[j].0.fightType in types[..n];
        var a :| 0 <= a < n && types[..n][a] == pairs[j].0.fightType;
        assert types[a] == pairs[j].0.fightType;
        TypesInOrder(queue, a, n);
      } else {
        OfTypeOrder(queue, types[n], pairs[j].0, pairs[k].0);
      }
    }
  }

  lemma NoneLeftGrows(entries: seq<QueueEntry>, matched: set<string>, more: set<string>, now: nat)
    requires matched <= more && NoneLeftToMatch(entries, matched, now)
    ensures NoneLeftToMatch(entries, more, now)
  {
    forall a, b | Unmatched(entries, more, a) && Unmatched(entries, more, b) && a.wallet != b.wallet
      ensures !CanMatch(a, b, now)
    {
      assert Unmatched(entries, matched, a) && Unmatched(entries, matched, b);
    }
  }

  /** The first i entries of a group have had their turn, with what was served since `from`. */
  ghost predicate TurnsTaken(entries: seq<QueueEntry>, pairs: seq<Pair>, from: nat, matched: set<string>, now: nat,
                             i: nat)
  {
    FirstCome(entries, pairs, now, from) && ByFirst(entries, pairs, from) && Within(entries, pairs, from, i) &&
    (forall m :: from <= m < |pairs| ==> pairs[m].0 in entries && pairs[m].1 in entries) &&
    forall k :: 0 <= k < i ==> Tried(entries, k, matched, now)
  }

  lemma TurnServed(entries: seq<QueueEntry>, pairs: seq<Pair>, from: nat, matched: set<string>, now: nat, i: nat,
                   j: nat)
    requires OnePerWallet(entries) && from <= |pairs| && matched == WalletsOf(pairs) && i < j < |entries|
    requires TurnsTaken(entries, pairs, from, matched, now, i)
    requires forall k :: i < k < j ==> entries[k].wallet in matched || !CanMatch(entries[i], entries[k], now)
    ensures TurnsTaken(entries, pairs + [(entries[i], entries[j])], from,
                       matched + {entries[i].wallet, entries[j].wallet}, now, i + 1)
  {
    var both := matched + {entries[i].wallet, entries[j].wallet};
    ByFirstGrows(entries, pairs, from, i, j);
    FirstComeGrows(entries, pairs, matched, now, from, i, j);
    TriedGrows(entries, i, matched, both, now);
    assert Tried(entries, i, both, now);
  }

  lemma TurnSkipped(entries: seq<QueueEntry>, pairs: seq<Pair>, from: nat, matched: set<string>, now: nat, i: nat)
    requires i < |entries| && TurnsTaken(entries, pairs, from, matched, now, i) && Tried(entries, i, matched, now)
    ensures TurnsTaken(entries, pairs, from, matched, now, i + 1)
  {
    WithinGrows(entries, pairs, from, i);
  }

  /** The first n groups have been served. */
  ghost predicate GroupsServed(queue: seq<QueueEntry>, n: nat, pairs: seq<Pair>, matched: set<string>, now: nat) {
    n <= |TypesOf(queue)| && CalledInOrder(queue, pairs) &&
    (forall m :: 0 <= m < |pairs| ==> pairs[m].0.fightType in TypesOf(queue)[..n]) &&
    forall k :: 0 <= k < n ==> NoneLeftToMatch(OfType(queue, TypesOf(queue)[k]), matched, now)
  }

  lemma NextGroupServed(queue: seq<QueueEntry>, n: nat, pairsIn: seq<Pair>, matchedIn: set<string>,
                        pairs: seq<Pair>, matched: set<string>, now: nat)
    requires n < |TypesOf(queue)| && GroupsServed(queue, n, pairsIn, matchedIn, now)
    requires pairsIn <= pairs && ByFirst(OfType(queue, TypesOf(queue)[n]), pairs, |pairsIn|)
    requires forall m :: |pairsIn| <= m < |pairs| ==> pairs[m].0.fightType == TypesOf(queue)[n]
    requires matchedIn <= matched && NoneLeftToMatch(OfType(queue, TypesOf(queue)[n]), matched, now)
    ensures GroupsServed(queue, n + 1, pairs, matched, now)
  {
    var types := TypesOf(queue);
    assert types[..n + 1] == types[..n] + [types[n]];
    forall k | 0 <= k < n ensures NoneLeftToMatch(OfType(queue, types[k]), matched, now) {
      NoneLeftGrows(OfType(queue, types[k]), matchedIn, matched, now);
    }
    assert pairs[..|pairsIn|] == pairsIn;
    forall m | 0 <= m < |pairsIn| ensures pairs[m].0.fightType in types[..n] { assert pairs[m] == pairsIn[m]; }
    CalledGrows(queue, types, n, pairs, |pairsIn|);
  }

  lemma AllGroupsServed(queue: seq<QueueEntry>, pairs: seq<Pair>, matched: set<string>, now: nat)
    requires GroupsServed(queue, |TypesOf(queue)|, pairs, matched, now)
    ensures CalledInOrder(queue, pairs) && NoneLeftToMatch(queue, matched, now)
  {
    NoneLeftInAnyGroup(queue, matched, now);
  }

  class MatchmakingQueue {
    var queue: seq<QueueEntry>

    ghost predicate Valid()
      reads this
    {
      OnePerWallet(queue)
    }

    constructor ()
      ensures Valid() && queue == []
    {
      queue := [];
    }

    /** Adds the entry unless its wallet is queued already, then matches whoever can be. */
    method AddToQueue(entry: QueueEntry, now: nat) returns (added: bool, pairs: seq<Pair>)
      requires Valid()
      modifies this
      ensures Valid()
      ensures added == !Queued(old(queue), entry.wallet)
      ensures !added ==> queue == old(queue) && pairs == []
      ensures added ==> Matching(old(queue) + [entry], pairs, WalletsOf(pairs), now) &&
                        FirstCome(old(queue) + [entry], pairs, now, 0) && CalledInOrder(old(queue) + [entry], pairs) &&
                        NoneLeftToMatch(old(queue) + [entry], WalletsOf(pairs), now) &&
                        queue == Without(old(queue) + [entry], WalletsOf(pairs))
    {
      if Queued(queue, entry.wallet) {
        return false, [];
      }
      queue := queue + [entry];
      pairs := TryMatchPlayers(now);
      added := true;
    }

    method RemoveFromQueue(wallet: string) returns (removed: Option<QueueEntry>)
      requires Valid()
      modifies this
      ensures Valid() && !Queued(queue, wallet)
      ensures removed.Some? <==> Queued(old(queue), wallet)
      ensures removed.Some? ==> removed.value.wallet == wallet && removed.value in old(queue)
      ensures queue == Without(old(queue), {wallet})
    {
      ghost var before := queue;
      var i := 0;
      while i < |queue| && queue[i].wallet != wallet
        invariant 0 <= i <= |queue|
        invariant forall k :: 0 <= k < i ==> queue[k].wallet != wallet
      {
        i := i + 1;
      }
      WithoutOne(before, wallet, i);
      WithoutKeepsOnePerWallet(before, {wallet});
      forall e ensures e in Without(before, {wallet}) ==> e.wallet != wallet { WithoutMembers(before, {wallet}, e); }
      if i == |queue| {
        return None;
      }
      removed := Some(queue[i]);
      queue := queue[..i] + queue[i + 1..];
    }

    /**
     * One pass: everyone matched is matched once, first come first served, with somebody compatible;
     * they leave, the rest keep their places, and no two of the rest could have been matched.
     */
    method TryMatchPlayers(now: nat) returns (pairs: seq<Pair>)
      requires Valid()
      modifies this
      ensures Valid() && Matching(old(queue), pairs, WalletsOf(pairs), now)
      ensures FirstCome(old(queue), pairs, now, 0) && NoneLeftToMatch(old(queue), WalletsOf(pairs), now)
      ensures CalledInOrder(old(queue), pairs) && queue == Without(old(queue), WalletsOf(pairs))
    {
      ghost var before := queue;
      var matched: set<string> := {};
      pairs := [];
      var types, n := TypesOf(queue), 0;
      while n < |types|
        invariant 0 <= n <= |types| && types == TypesOf(before)
        invariant queue == before && Matching(before, pairs, matched, now)
        invariant FirstCome(before, pairs, now, 0) && GroupsServed(before, n, pairs, matched, now)
      {
        ghost var matchedIn, pairsIn := matched, pairs;
        matched, pairs := MatchGroup(queue, types[n], matched, pairs, now);
        NextGroupServed(before, n, pairsIn, matchedIn, pairs, matched, now);
        n := n + 1;
      }
      AllGroupsServed(before, pairs, matched, now);
      WithoutKeepsOnePerWallet(before, matched);
      queue := Without(queue, matched);
    }

    static method MatchGroup(queue: seq<QueueEntry>, t: FightType, matchedIn: set<string>, pairsIn: seq<Pair>, now: nat)
      returns (matched: set<string>, pairs: seq<Pair>)
      requires OnePerWallet(queue) && Matching(queue, pairsIn, matchedIn, now) && FirstCome(queue, pairsIn, now, 0)
      ensures Matching(queue, pairs, matched, now) && FirstCome(queue, pairs, now, 0)
      ensures matchedIn <= matched && NoneLeftToMatch(OfType(queue, t), matched, now)
      ensures pairsIn <= pairs && ByFirst(OfType(queue, t), pairs, |pairsIn|)
      ensures forall m :: |pairsIn| <= m < |pairs| ==> pairs[m].0.fightType == t
    {
      OfTypeKeepsOnePerWallet(queue, t);
      forall e ensures e in OfType(queue, t) <==> e in queue && e.fightType == t {
        OfTypeMembers(queue, t, e);
      }
      matched, pairs := MatchWithin(OfType(queue, t), queue, matchedIn, pairsIn, now);
      assert pairs[..|pairsIn|] == pairsIn;
      FirstComeInQueue(queue, t, pairs, now, |pairsIn|);
    }

    static method MatchWithin(entries: seq<QueueEntry>, ghost queue: seq<QueueEntry>, matchedIn: set<string>,
                              pairsIn: seq<Pair>, now: nat)
      returns (matched: set<string>, pairs: seq<Pair>)
      requires OnePerWallet(entries) && (forall e :: e in entries ==> e in queue)
      requires Matching(queue, pairsIn, matchedIn, now)
      ensures Matching(queue, pairs, matched, now) && matchedIn <= matched
      ensures pairsIn <= pairs && FirstCome(entries, pairs, now, |pairsIn|)
      ensures forall m :: |pairsIn| <= m < |pairs| ==> pairs[m].0 in entries && pairs[m].1 in entries
      ensures NoneLeftToMatch(entries, matched, now) && ByFirst(entries, pairs, |pairsIn|)
    {
      matched, pairs := matchedIn, pairsIn;
      var i := 0;
      while i < |entries|
        invariant 0 <= i <= |entries|
        invariant Matching(queue, pairs, matched, now) && matchedIn <= matched && pairsIn <= pairs
        invariant TurnsTaken(entries, pairs, |pairsIn|, matched, now, i)
      {
        var j := i + 1;
        if entries[i].wallet !in matched {
          while j < |entries| && (entries[j].wallet in matched || !CanMatch(entries[i], entries[j], now))
            invariant i < j <= |entries|
            invariant forall k :: i < k < j ==> entries[k].wallet in matched || !CanMatch(entries[i], entries[k], now)
          {
            j := j + 1;
          }
        }
        if entries[i].wallet !in matched && j < |entries| {
          MatchingGrows(queue, pairs, matched, now, entries[i], entries[j]);
          TurnServed(entries, pairs, |pairsIn|, matched, now, i, j);
          matched := matched + {entries[i].wallet, entries[j].wallet};
          pairs := pairs + [(entries[i], entries[j])];
        } else {
          TurnSkipped(entries, pairs, |pairsIn|, matched, now, i);
        }
        i := i + 1;
      }
      TriedMeansNoneLeft(entries, matched, now);
    }
  }

  lemma SkipOne(queue: seq<QueueEntry>, i: nat)
    requires 0 < i <= |queue|
    ensures i < |queue| ==> queue[..i] + queue[i + 1..] == [queue[0]] + (queue[1..][..i - 1] + queue[1..][i..])
  {
  }

  lemma {:induction false} WithoutOne(queue: seq<QueueEntry>, wallet: string, i: nat)
    requires OnePerWallet(queue) && i <= |queue|
    requires forall k :: 0 <= k < i ==> queue[k].wallet != wallet
    requires i < |queue| ==> queue[i].wallet == wallet
    ensures Without(queue, {wallet}) == if i < |queue| then queue[..i] + queue[i + 1..] else queue
    decreases |queue|
  {
    if queue != [] {
      if i > 0 {
        WithoutOne(queue[1..], wallet, i - 1);
        assert queue == [queue[0]] + queue[1..];
        SkipOne(queue, i);
      } else {
        WithoutNone(queue[1..], wallet);
        assert queue[..0] + queue[1..] == queue[1..];
      }
    }
  }

  lemma {:induction false} WithoutNone(queue: seq<QueueEntry>, wallet: string)
    requires forall e :: e in queue ==> e.wallet != wallet
    ensures Without(queue, {wallet}) == queue
    decreases |queue|
  {
    if queue != [] {
      WithoutNone(queue[1..], wallet);
    }
  }
}
