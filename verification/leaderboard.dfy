/**
 * The Hall of Fame's order and its pages. Win rates are compared as exact ratios.
 */
module Leaderboard {
  import opened Common

  datatype Entry = Entry(rank: int, wallet: string, level: int, rating: int, wins: nat, losses: nat)

  datatype SortKey = Rank | Level | Rating | Wins | Losses | WinRate
  datatype SortDir = Asc | Desc
  datatype SortState = SortState(key: SortKey, dir: SortDir)

  /** Draws do not count; nobody who has decided no fight has won any. */
  function RateNum(e: Entry): nat {
    if e.wins + e.losses == 0 then 0 else e.wins
  }

  function RateDen(e: Entry): (d: nat)
    ensures d > 0
  {
    if e.wins + e.losses == 0 then 1 else e.wins + e.losses
  }

  /** Has the sign of the difference of the two entries' values in a column. */
  function FieldDiff(a: Entry, b: Entry, key: SortKey): int {
    match key
    case Rank => a.rank - b.rank
    case Level => a.level - b.level
    case Rating => a.rating - b.rating
    case Wins => a.wins - b.wins
    case Losses => a.losses - b.losses
    case WinRate => RateNum(a) * RateDen(b) - RateNum(b) * RateDen(a)
  }

  function CompareText(a: string, b: string): int {
    if a == [] && b == [] then 0
    else if a == [] then -1
    else if b == [] then 1
    else if a[0] != b[0] then (if a[0] < b[0] then -1 else 1)
    else CompareText(a[1..], b[1..])
  }

  function CompareEntries(a: Entry, b: Entry, key: SortKey, dir: SortDir): int {
    var d := FieldDiff(a, b, key);
    if d != 0 then (if dir == Asc then d else -d)
    else if key != Rating && a.rating != b.rating then b.rating - a.rating
    else CompareText(a.wallet, b.wallet)
  }

  // ----- A strict total order -----

  lemma {:induction false} TextAntisymmetric(a: string, b: string)
    ensures CompareText(a, b) == -CompareText(b, a)
    ensures CompareText(a, b) == 0 <==> a == b
    decreases |a|
  {
    if a != [] && b != [] && a[0] == b[0] {
      TextAntisymmetric(a[1..], b[1..]);
      assert a == [a[0]] + a[1..] && b == [b[0]] + b[1..];
    }
  }

  lemma {:induction false} TextTransitive(a: string, b: string, c: string)
    requires CompareText(a, b) <= 0 && CompareText(b, c) <= 0
    ensures CompareText(a, c) <= 0
    decreases |a|
  {
    if a != [] && b != [] && c != [] && a[0] == b[0] && b[0] == c[0] {
      TextTransitive(a[1..], b[1..], c[1..]);
    }
  }

  lemma Scale(a: nat, b: nat, f: nat)
    requires f > 0
    ensures a <= b <==> a * f <= b * f
    ensures a == b <==> a * f == b * f
  {
    assert a < b ==> a * f < b * f by { ScaleUp(a, b, f); }
    assert b < a ==> b * f < a * f by { ScaleUp(b, a, f); }
  }

  lemma ScaleUp(a: nat, b: nat, f: nat)
    requires f > 0
    ensures a < b ==> a * f < b * f
  {
    assert b * f - a * f == (b - a) * f;
  }

  lemma SwapFactors(a: nat, b: nat, c: nat)
    ensures (a * b) * c == (a * c) * b
  {
  }

  lemma Between(x: nat, y: nat, z: nat)
    requires x <= y <= z
    ensures x == z ==> x == y && y == z
  {
  }

  lemma RatioTransitive(m: nat, p: nat, n: nat, q: nat, k: nat, r: nat)
    requires p > 0 && q > 0 && r > 0 && m * q <= n * p && n * r <= k * q
    ensures m * r <= k * p
    ensures m * r == k * p ==> m * q == n * p && n * r == k * q
  {
    var mq, np, nr, kq, mr, kp := m * q, n * p, n * r, k * q, m * r, k * p;
    SwapFactors(m, q, r);
    SwapFactors(n, p, r);
    SwapFactors(k, q, p);
    Scale(mq, np, r);
    Scale(nr, kq, p);
    Scale(mr, kp, q);
    Between(mr * q, nr * p, kp * q);
  }

  /** Values of a column are ordered: differences add up in sign, and cancel only when both are zero. */
  lemma FieldTransitive(a: Entry, b: Entry, c: Entry, key: SortKey)
    requires FieldDiff(a, b, key) <= 0 && FieldDiff(b, c, key) <= 0
    ensures FieldDiff(a, c, key) <= 0
    ensures FieldDiff(a, c, key) == 0 ==> FieldDiff(a, b, key) == 0 && FieldDiff(b, c, key) == 0
  {
    if key == WinRate {
      RatioTransitive(RateNum(a), RateDen(a), RateNum(b), RateDen(b), RateNum(c), RateDen(c));
    }
  }

  lemma FieldAntisymmetric(a: Entry, b: Entry, key: SortKey)
    ensures FieldDiff(a, b, key) == -FieldDiff(b, a, key)
  {
  }

  lemma FieldEqual(a: Entry, b: Entry, c: Entry, key: SortKey)
    requires FieldDiff(a, b, key) == 0 && FieldDiff(b, c, key) == 0
    ensures FieldDiff(a, c, key) == 0
  {
    FieldTransitive(a, b, c, key);
    FieldAntisymmetric(a, b, key);
    FieldAntisymmetric(b, c, key);
    FieldTransitive(c, b, a, key);
    FieldAntisymmetric(a, c, key);
  }

  /** Ties happen only between entries of one wallet, and swapping the arguments flips the sign. */
  lemma CompareAntisymmetric(a: Entry, b: Entry, key: SortKey, dir: SortDir)
    ensures CompareEntries(a, b, key, dir) == -CompareEntries(b, a, key, dir)
    ensures CompareEntries(a, b, key, dir) == 0 ==> a.wallet == b.wallet
  {
    FieldAntisymmetric(a, b, key);
    TextAntisymmetric(a.wallet, b.wallet);
  }

  lemma TieBreakTransitive(a: Entry, b: Entry, c: Entry, key: SortKey, dir: SortDir)
    requires FieldDiff(a, b, key) == 0 && FieldDiff(b, c, key) == 0
    requires CompareEntries(a, b, key, dir) <= 0 && CompareEntries(b, c, key, dir) <= 0
    ensures CompareEntries(a, c, key, dir) <= 0
  {
    FieldEqual(a, b, c, key);
    if key == Rating || (a.rating == b.rating && b.rating == c.rating) {
      TextTransitive(a.wallet, b.wallet, c.wallet);
    }
  }

  lemma CompareTransitive(a: Entry, b: Entry, c: Entry, key: SortKey, dir: SortDir)
    requires CompareEntries(a, b, key, dir) <= 0 && CompareEntries(b, c, key, dir) <= 0
    ensures CompareEntries(a, c, key, dir) <= 0
  {
    if FieldDiff(a, b, key) == 0 && FieldDiff(b, c, key) == 0 {
      TieBreakTransitive(a, b, c, key, dir);
    } else if dir == Asc {
      FieldTransitive(a, b, c, key);
    } else {
      FieldAntisymmetric(a, b, key);
      FieldAntisymmetric(b, c, key);
      FieldAntisymmetric(a, c, key);
      FieldTransitive(c, b, a, key);
    }
  }

  // ----- What the order means -----

  /** A column's value; a win rate is the ratio itself. */
  function ValueOf(e: Entry, key: SortKey): real {
    match key
    case Rank => e.rank as real
    case Level => e.level as real
    case Rating => e.rating as real
    case Wins => e.wins as real
    case Losses => e.losses as real
    case WinRate => if e.wins + e.losses == 0 then 0.0 else e.wins as real / (e.wins + e.losses) as real
  }

  /** The texts agree up to k, where the first one ends or has the smaller character. */
  predicate DecidedAt(a: string, b: string, k: nat) {
    k <= |a| && k < |b| && a[..k] == b[..k] && (k == |a| || a[k] < b[k])
  }

  /** Dictionary order: at the first difference the smaller character wins, and a prefix comes first. */
  ghost predicate TextBefore(a: string, b: string) {
    exists k: nat :: DecidedAt(a, b, k)
  }

  lemma RatioOrder(m: nat, p: nat, n: nat, q: nat)
    requires p > 0 && q > 0
    ensures m * q < n * p <==> m as real / p as real < n as real / q as real
    ensures m * q == n * p <==> m as real / p as real == n as real / q as real
  {
    var x, y := m as real / p as real, n as real / q as real;
    assert x * p as real == m as real && y * q as real == n as real;
    assert (m * q) as real == x * (p as real * q as real);
    assert (n * p) as real == y * (p as real * q as real);
    ScaleReal(x, y, p as real * q as real);
  }

  lemma ScaleReal(x: real, y: real, f: real)
    requires f > 0.0
    ensures x < y <==> x * f < y * f
    ensures x == y <==> x * f == y * f
  {
    assert (y - x) * f == y * f - x * f;
    assert x < y ==> (y - x) * f > 0.0;
    assert x > y ==> (x - y) * f > 0.0;
  }

  lemma DiffOfValues(a: Entry, b: Entry, key: SortKey)
    ensures FieldDiff(a, b, key) < 0 <==> ValueOf(a, key) < ValueOf(b, key)
    ensures FieldDiff(a, b, key) == 0 <==> ValueOf(a, key) == ValueOf(b, key)
  {
    if key == WinRate {
      RatioOrder(RateNum(a), RateDen(a), RateNum(b), RateDen(b));
    }
  }

  lemma {:induction false} TextOrder(a: string, b: string)
    ensures CompareText(a, b) < 0 <==> TextBefore(a, b)
    decreases |a|
  {
    if a == [] || b == [] || a[0] != b[0] {
      FirstDecides(a, b);
    } else {
      TextOrder(a[1..], b[1..]);
      TextBeforeTail(a, b);
    }
  }

  lemma FirstDecides(a: string, b: string)
    requires a == [] || b == [] || a[0] != b[0]
    ensures TextBefore(a, b) <==> b != [] && (a == [] || a[0] < b[0])
  {
    if b != [] && (a == [] || a[0] < b[0]) {
      assert DecidedAt(a, b, 0);
    }
    if TextBefore(a, b) {
      var k: nat :| DecidedAt(a, b, k);
      assert k > 0 ==> a[..k][0] == b[..k][0];
    }
  }

  lemma DecidedLater(a: string, b: string, k: nat)
    requires a != [] && b != [] && a[0] == b[0]
    ensures DecidedAt(a, b, k + 1) <==> DecidedAt(a[1..], b[1..], k)
  {
    if k < |a| && k < |b| {
      assert a[..k + 1] == [a[0]] + a[1..][..k] && b[..k + 1] == [b[0]] + b[1..][..k];
      assert a[1..][..k] == a[..k + 1][1..] && b[1..][..k] == b[..k + 1][1..];
    }
  }

  lemma TextBeforeTail(a: string, b: string)
    requires a != [] && b != [] && a[0] == b[0]
    ensures TextBefore(a, b) <==> TextBefore(a[1..], b[1..])
  {
    if TextBefore(a, b) {
      var k: nat :| DecidedAt(a, b, k);
      assert k > 0;
      DecidedLater(a, b, k - 1);
    }
    if TextBefore(a[1..], b[1..]) {
      var k: nat :| DecidedAt(a[1..], b[1..], k);
      DecidedLater(a, b, k);
    }
  }

  /**
   * One entry comes before another exactly if its value is smaller, or larger when descending; or the
   * values are equal and its rating is higher; or that is equal too and its wallet comes first.
   */
  lemma ComesBefore(a: Entry, b: Entry, key: SortKey, dir: SortDir)
    ensures CompareEntries(a, b, key, dir) < 0 <==>
              (if dir == Asc then ValueOf(a, key) < ValueOf(b, key) else ValueOf(a, key) > ValueOf(b, key)) ||
              (ValueOf(a, key) == ValueOf(b, key) &&
               (a.rating > b.rating || (a.rating == b.rating && TextBefore(a.wallet, b.wallet))))
  {
    DiffOfValues(a, b, key);
    DiffOfValues(b, a, key);
    FieldAntisymmetric(a, b, key);
    TextOrder(a.wallet, b.wallet);
  }

  // ----- Sorting -----

  ghost predicate Sorted(s: seq<Entry>, state: SortState) {
    forall i, j :: 0 <= i < j < |s| ==> CompareEntries(s[i], s[j], state.key, state.dir) <= 0
  }

  function Insert(e: Entry, s: seq<Entry>, state: SortState): seq<Entry> {
    if s == [] then [e]
    else if CompareEntries(e, s[0], state.key, state.dir) <= 0 then [e] + s
    else [s[0]] + Insert(e, s[1..], state)
  }

  function SortLeaderboard(entries: seq<Entry>, state: SortState): seq<Entry> {
    if entries == [] then [] else Insert(entries[0], SortLeaderboard(entries[1..], state), state)
  }

  lemma SortedCons(x: Entry, s: seq<Entry>, state: SortState)
    requires Sorted(s, state) && forall y :: y in s ==> CompareEntries(x, y, state.key, state.dir) <= 0
    ensures Sorted([x] + s, state) && multiset([x] + s) == multiset(s) + multiset{x}
  {
    var t := [x] + s;
    forall i, j | 0 <= i < j < |t| ensures CompareEntries(t[i], t[j], state.key, state.dir) <= 0 {
      ConsAt(x, s, state, i, j);
    }
  }

  lemma ConsAt(x: Entry, s: seq<Entry>, state: SortState, i: nat, j: nat)
    requires Sorted(s, state) && (forall y :: y in s ==> CompareEntries(x, y, state.key, state.dir) <= 0)
    requires i < j <= |s|
    ensures CompareEntries(([x] + s)[i], ([x] + s)[j], state.key, state.dir) <= 0
  {
    assert s[j - 1] in s;
  }

  lemma {:induction false} InsertSorts(e: Entry, s: seq<Entry>, state: SortState)
    requires Sorted(s, state)
    ensures Sorted(Insert(e, s, state), state)
    ensures multiset(Insert(e, s, state)) == multiset(s) + multiset{e}
    decreases |s|
  {
    if s != [] {
      if CompareEntries(e, s[0], state.key, state.dir) <= 0 {
        InsertFirst(e, s, state);
      } else {
        InsertSorts(e, s[1..], state);
        InsertLater(e, s, Insert(e, s[1..], state), state);
      }
    }
  }

  lemma InsertFirst(e: Entry, s: seq<Entry>, state: SortState)
    requires s != [] && Sorted(s, state) && CompareEntries(e, s[0], state.key, state.dir) <= 0
    ensures Sorted([e] + s, state) && multiset([e] + s) == multiset(s) + multiset{e}
  {
    forall x | x in s ensures CompareEntries(e, x, state.key, state.dir) <= 0 {
      if x != s[0] { CompareTransitive(e, s[0], x, state.key, state.dir); }
    }
    SortedCons(e, s, state);
  }

  lemma InsertLater(e: Entry, s: seq<Entry>, rest: seq<Entry>, state: SortState)
    requires s != [] && Sorted(s, state) && CompareEntries(e, s[0], state.key, state.dir) > 0
    requires Sorted(rest, state) && multiset(rest) == multiset(s[1..]) + multiset{e}
    ensures Sorted([s[0]] + rest, state) && multiset([s[0]] + rest) == multiset(s) + multiset{e}
  {
    CompareAntisymmetric(e, s[0], state.key, state.dir);
    forall x | x in rest ensures CompareEntries(s[0], x, state.key, state.dir) <= 0 {
      assert x in multiset(rest);
      assert x == e || x in s[1..];
    }
    SortedCons(s[0], rest, state);
    assert s == [s[0]] + s[1..];
  }

  lemma FirstApart(entries: seq<Entry>)
    requires entries != []
    ensures multiset(entries) == multiset(entries[1..]) + multiset{entries[0]}
  {
    assert entries == [entries[0]] + entries[1..];
  }

  lemma {:induction false} SortIsSortedPermutation(entries: seq<Entry>, state: SortState)
    ensures Sorted(SortLeaderboard(entries, state), state)
    ensures multiset(SortLeaderboard(entries, state)) == multiset(entries)
    decreases |entries|
  {
    if entries != [] {
      SortIsSortedPermutation(entries[1..], state);
      InsertSorts(entries[0], SortLeaderboard(entries[1..], state), state);
      FirstApart(entries);
    }
  }

  /** Each wallet has one entry. */
  ghost predicate OneEntryPerWallet(s: seq<Entry>) {
    forall x, y :: x in s && y in s && x.wallet == y.wallet ==> x == y
  }

  lemma SameFirst(s: seq<Entry>, t: seq<Entry>, state: SortState)
    requires Sorted(s, state) && Sorted(t, state) && multiset(s) == multiset(t) && OneEntryPerWallet(s)
    requires s != [] && t != []
    ensures s[0] == t[0]
  {
    assert s[0] in multiset(t) && t[0] in multiset(s);
    var i :| 0 <= i < |t| && t[i] == s[0];
    var j :| 0 <= j < |s| && s[j] == t[0];
    CompareAntisymmetric(s[0], t[0], state.key, state.dir);
    assert s[0] in s && t[0] in s;
    assert CompareEntries(t[0], s[0], state.key, state.dir) <= 0 || i == 0;
    assert CompareEntries(s[0], t[0], state.key, state.dir) <= 0 || j == 0;
  }

  lemma SameRest(s: seq<Entry>, t: seq<Entry>)
    requires s != [] && t != [] && s[0] == t[0] && multiset(s) == multiset(t)
    ensures multiset(s[1..]) == multiset(t[1..])
  {
    assert s == [s[0]] + s[1..] && t == [t[0]] + t[1..];
    assert multiset(s[1..]) == multiset(s) - multiset{s[0]};
    assert multiset(t[1..]) == multiset(t) - multiset{t[0]};
  }

  /** Two sorted arrangements of the same entries are the same arrangement. */
  lemma {:induction false} SortedIsUnique(s: seq<Entry>, t: seq<Entry>, state: SortState)
    requires Sorted(s, state) && Sorted(t, state) && multiset(s) == multiset(t) && OneEntryPerWallet(s)
    ensures s == t
    decreases |s|
  {
    assert |s| == |multiset(s)| == |multiset(t)| == |t|;
    if s != [] {
      SameFirst(s, t, state);
      SameRest(s, t);
      assert OneEntryPerWallet(s[1..]);
      SortedIsUnique(s[1..], t[1..], state);
      assert s == [s[0]] + s[1..] && t == [t[0]] + t[1..];
    }
  }

  /**
   * Whatever order the entries arrive in, and whichever correct sorting is used, every column and
   * direction has one arrangement.
   */
  lemma SortIgnoresInputOrder(a: seq<Entry>, b: seq<Entry>, state: SortState, anySorted: seq<Entry>)
    requires multiset(a) == multiset(b) && OneEntryPerWallet(a)
    requires Sorted(anySorted, state) && multiset(anySorted) == multiset(b)
    ensures SortLeaderboard(a, state) == SortLeaderboard(b, state) == anySorted
  {
    SortIsSortedPermutation(a, state);
    SortIsSortedPermutation(b, state);
    var s := SortLeaderboard(a, state);
    forall x | x in s ensures x in a { assert x in multiset(s); }
    SortedIsUnique(s, SortLeaderboard(b, state), state);
    SortedIsUnique(s, anySorted, state);
  }

  // ----- Pages -----

  const PAGE_SIZE := 20

  datatype PageView = PageView(visible: seq<Entry>, hasMore: bool)

  function PaginateEntries(entries: seq<Entry>, currentPage: int, pageSize: Option<nat>): PageView {
    var page, size := if currentPage < 1 then 1 else currentPage, pageSize.GetOr(PAGE_SIZE);
    var cutoff := Cutoff(entries, page * size);
    PageView(entries[..cutoff], |entries| > cutoff)
  }

  /** The number of entries a page shows. */
  function Cutoff(entries: seq<Entry>, shown: nat): nat {
    if |entries| < shown then |entries| else shown
  }

  lemma OneMorePage(page: nat, size: nat)
    ensures (page + 1) * size == page * size + size
  {
  }

  lemma LongerPrefix(entries: seq<Entry>, a: nat, b: nat)
    requires a <= b <= |entries|
    ensures entries[..a] <= entries[..b] <= entries
  {
    assert entries[..b][..a] == entries[..a];
  }

  lemma EverythingIsReached(entries: seq<Entry>, page: int, pageSize: Option<nat>)
    requires pageSize.GetOr(PAGE_SIZE) > 0 && page >= 1 && page >= |entries|
    ensures PaginateEntries(entries, page, pageSize) == PageView(entries, false)
  {
    assert page * pageSize.GetOr(PAGE_SIZE) >= page;
    assert entries[..|entries|] == entries;
  }

  /**
   * A page shows as many times the page size as its number, twenty unless told otherwise, or everything;
   * what comes before the first page is the first.
   */
  lemma PageShows(entries: seq<Entry>, page: int, pageSize: Option<nat>)
    ensures var view := PaginateEntries(entries, page, pageSize);
            var size := match pageSize case Some(n) => n case None => 20;
            view.visible <= entries && (view.hasMore <==> |view.visible| < |entries|) &&
            (page >= 1 ==> |view.visible| == Min(|entries|, page * size)) &&
            (page < 1 ==> view == PaginateEntries(entries, 1, pageSize))
  {
    assert page >= 1 ==> page * pageSize.GetOr(PAGE_SIZE) >= 0;
  }

  /**
   * Each page extends the one before, by a full page while there is more, until everything is shown,
   * which it is after at most as many pages as entries; "load more" is offered exactly while
   * something is hidden.
   */
  lemma PagesGrow(entries: seq<Entry>, page: int, pageSize: Option<nat>)
    requires page >= 1
    ensures var size := pageSize.GetOr(PAGE_SIZE);
            var now, next := PaginateEntries(entries, page, pageSize), PaginateEntries(entries, page + 1, pageSize);
            now.visible <= next.visible <= entries &&
            (now.hasMore <==> now.visible != entries) &&
            (next.hasMore ==> |next.visible| == |now.visible| + size) &&
            (size > 0 && now.hasMore ==> |now.visible| < |next.visible|) &&
            (size > 0 && page >= |entries| ==> now == PageView(entries, false))
  {
    var size := pageSize.GetOr(PAGE_SIZE);
    OneMorePage(page, size);
    LongerPrefix(entries, Cutoff(entries, page * size), Cutoff(entries, (page + 1) * size));
    if size > 0 && page >= |entries| {
      EverythingIsReached(entries, page, pageSize);
    }
  }
}
