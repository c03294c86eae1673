/** Runs of a player with a bare character that show where saves are refused, and what they can lose. */
module PlayRuns {
  import opened Common
  import opened Loadout
  import opened LoadoutSave
  import opened SaveOutcomes
  import opened Staging
  import opened Play

  const BOTH_RINGS: Equipment := map[Ring1Slot := RING, Ring2Slot := RING]
  const HELM_ONLY: Equipment := map[HelmetSlot := HELM]
  const HELM_AND_RING: Equipment := map[HelmetSlot := HELM, Ring1Slot := RING]

  /** A ring and a helmet, held and listed, and nothing worn. */
  const BARE := Chain("a", "a", false, 1, 0, map[], {RING, HELM})
  const START := State([View(Session(map[], map[]), {RING, HELM})], BARE)

  lemma Things()
    ensures IsOnChain(RING) && IsOnChain(HELM) && RING != HELM && RING.id != HELM.id
    ensures WellTyped(Ring1Slot, RING, 1) && WellTyped(Ring2Slot, RING, 1) && WellTyped(HelmetSlot, HELM, 1)
  {
    assert RING.id[40] == 'b' && HELM.id[40] == 'a';
  }

  lemma StartIsReady()
    ensures Ready(START) && InStep(START)
  {
    Things();
    assert Holdings(BARE) == {RING, HELM};
    assert ChainPart(map[]) == map[];
  }

  /** A move adds one render, and the earlier ones stay where they were, one further back. */
  lemma OneMoreRender(p: State, m: Move, lag: nat)
    requires p.views != []
    ensures Current(Next(p, m)) == NextSession(Current(p), Seen(p, m.lag), p.chain, m.event)
    ensures Next(p, m).chain == NextChain(p.chain, Seen(p, m.lag), m.event)
    ensures lag < |p.views| ==> Seen(Next(p, m), lag + 1) == Seen(p, lag)
    ensures !m.event.Refetch? ==> Seen(Next(p, m), 0).listed == Seen(p, 0).listed
  {
  }

  lemma PlayedOne(p: State, a: Move)
    requires p.views != []
    ensures Played(p, [a]) == Next(p, a)
  {
    assert Played(p, []) == p && [] + [a] == [a];
    PlayedSnoc(p, [], a);
  }

  lemma PlayedTwo(p: State, a: Move, b: Move)
    requires p.views != []
    ensures Played(p, [a] + [b]) == Next(Next(p, a), b)
  {
    PlayedOne(p, a);
    PlayedSnoc(p, [a], b);
  }

  lemma PlayedFour(p: State, a: Move, b: Move, c: Move, d: Move)
    requires p.views != []
    ensures Played(p, [a] + [b] + [c] + [d]) == Next(Next(Next(Next(p, a), b), c), d)
  {
    PlayedTwo(p, a, b);
    PlayedSnoc(p, [a] + [b], c);
    PlayedSnoc(p, [a] + [b] + [c], d);
  }

  const PICK_FIRST := Move(Pick(RING, Ring1Slot), 0)
  const PICK_HELM := Move(Pick(HELM, HelmetSlot), 0)
  const SAVE := Move(SaveAll, 0)

  lemma FirstPicked(p: State)
    requires p.views != [] && Seen(p, 0) == View(Session(map[], map[]), {RING, HELM}) && p.chain.level == 1
    ensures Current(Next(p, PICK_FIRST)) == Session(map[], ON_FIRST) && Next(p, PICK_FIRST).chain == p.chain
  {
    Things();
    OneMoreRender(p, PICK_FIRST, 0);
  }

  /** A save of one held item onto an empty, accepting slot of a bare loadout puts on just that. */
  lemma OneItemLands(c: Chain, slot: Slot, item: Item)
    requires Authorized(c) && IsOnChain(item) && slot !in c.slots && item in c.wallet
    requires EquipGuard(c, slot, item).None?
    ensures var s := Session(map[], map[slot := item]);
            Reconcile(s.pending) == s.pending && Transaction(s) != [] &&
            Saved(c, s) == Exec(Exec(c, Equip(slot, item)).value, SaveLoadout) && Saved(c, s).Ok?
  {
    var none: Equipment, one: Equipment := map[], map[slot := item];
    forall s ensures Emitted(none, one, s) <==> s == slot { OneIsEmitted(slot, item, s); }
    PuttingOn(c, none, one, slot);
  }

  lemma OneIsEmitted(slot: Slot, item: Item, s: Slot)
    requires IsOnChain(item)
    ensures Emitted(map[], map[slot := item], s) <==> s == slot
  {
  }

  // ----- One ring, two fingers -----

  const PICK_AGAIN := Move(Pick(RING, Ring2Slot), 1)

  lemma PickedAgain(one: State)
    requires |one.views| == 2 && Current(one) == Session(map[], ON_FIRST)
    requires Seen(one, 1) == View(Session(map[], map[]), {RING, HELM}) && one.chain == BARE
    ensures Current(Next(one, PICK_AGAIN)) == Session(map[], BOTH_RINGS) && Next(one, PICK_AGAIN).chain == BARE
  {
    Things();
    OneMoreRender(one, PICK_AGAIN, 0);
  }

  lemma TwoRingsStop(q: State)
    requires Ready(q) && Current(q) == Session(map[], BOTH_RINGS) && q.chain == BARE
    ensures Saved(BARE, Current(q)) == Err(ArgumentTaken)
  {
    BothAreWorn();
    assert ChainPart(map[]) == map[];
    assert Played(q, []) == q;
    EverySaveDecided(q, [], 0);
    assert !PutsOnWorn(BARE, Current(q)) && PutsOnTwice(Current(q));
  }

  lemma BothAreWorn()
    ensures Reconcile(BOTH_RINGS) == BOTH_RINGS && PutsOnTwice(Session(map[], BOTH_RINGS))
  {
    Things();
    var worn := Worn(map[], BOTH_RINGS);
    assert Ring1Slot in worn && Ring2Slot in worn && worn[Ring1Slot] == worn[Ring2Slot];
  }

  /** Two clicks in one render stage the ring on both fingers; the save stops at its second use. */
  lemma TwoClicksOneRing()
    ensures var q := Played(START, [PICK_FIRST] + [PICK_AGAIN]);
            Current(q) == Session(map[], BOTH_RINGS) && Saved(q.chain, Current(q)) == Err(ArgumentTaken)
  {
    StartIsReady();
    PlayedTwo(START, PICK_FIRST, PICK_AGAIN);
    PlayedReady(START, [PICK_FIRST] + [PICK_AGAIN]);
    FirstPicked(START);
    OneMoreRender(START, PICK_FIRST, 0);
    PickedAgain(Next(START, PICK_FIRST));
    TwoRingsStop(Played(START, [PICK_FIRST] + [PICK_AGAIN]));
  }

  // ----- A list fetched before the save -----

  const OFF_FIRST := Move(TakeOff(Ring1Slot), 0)
  const PICK_SECOND := Move(Pick(RING, Ring2Slot), 0)

  lemma RingIsSaved(one: State)
    requires one.views != [] && Current(one) == Session(map[], ON_FIRST) && one.chain == BARE
    requires Seen(one, 0).listed == {RING, HELM}
    ensures var two := Next(one, SAVE);
            Current(two) == Session(ON_FIRST, ON_FIRST) && two.chain.slots == ON_FIRST && two.chain.level == 1 &&
            Sound(two.chain) && Seen(two, 0).listed == {RING, HELM}
  {
    OneMoreRender(one, SAVE, 0);
    RingLands(one);
    StartIsReady();
    TransactionConserves(BARE, Transaction(Current(one)));
  }

  lemma RingLands(one: State)
    requires one.views != [] && Current(one) == Session(map[], ON_FIRST) && one.chain == BARE
    ensures Saved(BARE, Current(one)).Ok? && Saved(BARE, Current(one)).value.slots == ON_FIRST
    ensures Saved(BARE, Current(one)).value.level == 1 && Transaction(Current(one)) != []
    ensures Authorized(Saved(BARE, Current(one)).value) && HELM in Saved(BARE, Current(one)).value.wallet
  {
    Things();
    OneItemLands(BARE, Ring1Slot, RING);
  }

  lemma RingMoves(two: State)
    requires two.views != [] && Current(two) == Session(ON_FIRST, ON_FIRST) && two.chain.level == 1
    requires Seen(two, 0).listed == {RING, HELM}
    ensures var four := Next(Next(two, OFF_FIRST), PICK_SECOND);
            Current(four) == Session(ON_FIRST, ON_SECOND) && four.chain == two.chain
  {
    Things();
    OneMoreRender(two, OFF_FIRST, 0);
    var three := Next(two, OFF_FIRST);
    assert Current(three) == Session(ON_FIRST, map[]);
    OneMoreRender(three, PICK_SECOND, 0);
  }

  lemma RingIsRefused(four: State)
    requires four.views != [] && Current(four) == Session(ON_FIRST, ON_SECOND) && four.chain.slots == ON_FIRST
    requires Sound(four.chain)
    ensures Saved(four.chain, Current(four)) == Err(InputNotOwned)
  {
    Things();
    assert ChainPart(ON_FIRST) == ON_FIRST;
    MovedRingIsRefused(four.chain);
  }

  /**
   * After the save the list still offers the ring; taken off the first finger and picked for the
   * second before a refetch, it makes the next save be refused.
   */
  lemma OldListRefusesSave()
    ensures var q := Played(START, [PICK_FIRST] + [SAVE] + [OFF_FIRST] + [PICK_SECOND]);
            Current(q) == Session(ON_FIRST, ON_SECOND) && Saved(q.chain, Current(q)) == Err(InputNotOwned)
  {
    var one := Next(START, PICK_FIRST);
    PlayedFour(START, PICK_FIRST, SAVE, OFF_FIRST, PICK_SECOND);
    FirstPicked(START);
    OneMoreRender(START, PICK_FIRST, 0);
    RingIsSaved(one);
    RingMoves(Next(one, SAVE));
    RingIsRefused(Next(Next(Next(one, SAVE), OFF_FIRST), PICK_SECOND));
  }

  // ----- Clicks while a save is being signed -----

  const LATE_SAVE := Move(SaveAll, 1)

  lemma RingAdded(one: State)
    requires one.views != [] && Current(one) == Session(map[], HELM_ONLY) && one.chain == BARE
    requires Seen(one, 0).listed == {RING, HELM}
    ensures Current(Next(one, PICK_FIRST)) == Session(map[], HELM_AND_RING) && Next(one, PICK_FIRST).chain == BARE
    ensures Seen(Next(one, PICK_FIRST), 1).session == Session(map[], HELM_ONLY)
  {
    Things();
    OneMoreRender(one, PICK_FIRST, 0);
  }

  lemma LateSaveLands(two: State)
    requires two.views != [] && two.chain == BARE && Seen(two, 1).session == Session(map[], HELM_ONLY)
    ensures Current(Next(two, LATE_SAVE)) == Session(HELM_ONLY, HELM_ONLY)
  {
    OneMoreRender(two, LATE_SAVE, 0);
    HelmLands(BARE);
  }

  /** A ring staged while the wallet is signing the helmet's save is gone once that has landed. */
  lemma ClickWhileSigningIsLost()
    ensures Current(Played(START, [PICK_HELM] + [PICK_FIRST])) == Session(map[], HELM_AND_RING)
    ensures Current(Played(START, [PICK_HELM] + [PICK_FIRST] + [LATE_SAVE])) == Session(HELM_ONLY, HELM_ONLY)
  {
    PlayedTwo(START, PICK_HELM, PICK_FIRST);
    PlayedSnoc(START, [PICK_HELM] + [PICK_FIRST], LATE_SAVE);
    HelmPicked(START);
    OneMoreRender(START, PICK_HELM, 0);
    RingAdded(Next(START, PICK_HELM));
    LateSaveLands(Next(Next(START, PICK_HELM), PICK_FIRST));
  }

  lemma HelmPicked(p: State)
    requires p.views != [] && Seen(p, 0) == View(Session(map[], map[]), {RING, HELM}) && p.chain.level == 1
    ensures Current(Next(p, PICK_HELM)) == Session(map[], HELM_ONLY) && Next(p, PICK_HELM).chain == p.chain
  {
    Things();
    OneMoreRender(p, PICK_HELM, 0);
  }

  /** The helmet alone can be saved onto any character of the owner that wears none. */
  lemma HelmLands(c: Chain)
    requires Authorized(c) && c.level == 1 && HelmetSlot !in c.slots && HELM in c.wallet
    ensures Saved(c, Session(map[], HELM_ONLY)).Ok? && Transaction(Session(map[], HELM_ONLY)) != []
    ensures Saved(c, Session(map[], HELM_ONLY)).value.slots == c.slots[HelmetSlot := HELM]
  {
    Things();
    OneItemLands(c, HelmetSlot, HELM);
  }

  // ----- Two saves in flight -----

  const DISCARD := Move(Discard, 0)
  const FIRST_SAVE := Move(SaveAll, 3)

  /** Until the ring's save has landed; the helmet's, clicked three renders earlier, is still in flight. */
  function UntilSecondLands(): seq<Move> {
    [PICK_HELM] + [DISCARD] + [PICK_FIRST] + [SAVE]
  }

  lemma HelmDiscarded(one: State)
    requires |one.views| == 2 && Current(one) == Session(map[], HELM_ONLY) && one.chain == BARE
    requires Seen(one, 0).listed == {RING, HELM}
    ensures var two := Next(one, DISCARD);
            Seen(two, 0) == View(Session(map[], map[]), {RING, HELM}) && two.chain == BARE && |two.views| == 3 &&
            Seen(two, 1).session == Session(map[], HELM_ONLY)
  {
    OneMoreRender(one, DISCARD, 0);
  }

  lemma RingPickedNext(two: State)
    requires |two.views| == 3 && Seen(two, 0) == View(Session(map[], map[]), {RING, HELM}) && two.chain == BARE
    requires Seen(two, 1).session == Session(map[], HELM_ONLY)
    ensures var three := Next(two, PICK_FIRST);
            Current(three) == Session(map[], ON_FIRST) && three.chain == BARE && |three.views| == 4 &&
            Seen(three, 2).session == Session(map[], HELM_ONLY)
  {
    FirstPicked(two);
    OneMoreRender(two, PICK_FIRST, 1);
  }

  lemma RingSavedNext(three: State)
    requires |three.views| == 4 && Current(three) == Session(map[], ON_FIRST) && three.chain == BARE
    requires Seen(three, 2).session == Session(map[], HELM_ONLY)
    ensures RingSavedHelmInFlight(Next(three, SAVE))
  {
    OneMoreRender(three, SAVE, 2);
    RingLands(three);
  }

  /** The ring is worn and recorded; three renders back the helmet was staged. */
  ghost predicate RingSavedHelmInFlight(p: State) {
    p.views != [] && Current(p) == Session(ON_FIRST, ON_FIRST) && p.chain.slots == ON_FIRST && p.chain.level == 1 &&
    Authorized(p.chain) && HELM in p.chain.wallet && Seen(p, 3).session == Session(map[], HELM_ONLY)
  }

  lemma SecondLands()
    ensures RingSavedHelmInFlight(Played(START, UntilSecondLands()))
  {
    var one := Next(START, PICK_HELM);
    PlayedFour(START, PICK_HELM, DISCARD, PICK_FIRST, SAVE);
    HelmPicked(START);
    OneMoreRender(START, PICK_HELM, 0);
    HelmDiscarded(one);
    RingPickedNext(Next(one, DISCARD));
    RingSavedNext(Next(Next(one, DISCARD), PICK_FIRST));
  }

  lemma OlderLandsLast(p: State)
    requires RingSavedHelmInFlight(p)
    ensures LosesTrack(p, FIRST_SAVE)
    ensures Next(p, FIRST_SAVE).chain.slots == HELM_AND_RING
    ensures Current(Next(p, FIRST_SAVE)) == Session(HELM_ONLY, HELM_ONLY)
  {
    Things();
    OneMoreRender(p, FIRST_SAVE, 0);
    HelmLands(p.chain);
    assert ON_FIRST[HelmetSlot := HELM] == HELM_AND_RING;
    assert !Emitted(map[], HELM_ONLY, Ring1Slot) && !SameAt(p.chain.slots, ChainPart(HELM_ONLY), Ring1Slot);
  }

  /**
   * Of two saves in flight at once the older lands last: the character then wears helmet and ring, and
   * the client records the helmet alone.
   */
  lemma OlderSaveLosesTrack()
    ensures Tracks(Played(START, UntilSecondLands()))
    ensures LosesTrack(Played(START, UntilSecondLands()), FIRST_SAVE)
    ensures var q := Played(START, UntilSecondLands() + [FIRST_SAVE]);
            q.chain.slots == HELM_AND_RING && Current(q) == Session(HELM_ONLY, HELM_ONLY)
  {
    Things();
    SecondLands();
    assert ChainPart(ON_FIRST) == ON_FIRST;
    OlderLandsLast(Played(START, UntilSecondLands()));
    PlayedSnoc(START, UntilSecondLands(), FIRST_SAVE);
  }
}
