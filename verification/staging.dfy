/**
 * Staging: the player's clicks change a local pending loadout, guarded by the two-handed
 * classifier, until a save sends it to the chain. An action is decided on the render the player
 * clicked in, which may be older than the state it is applied to.
 */
module Staging {
  import opened Common
  import opened Loadout
  import opened LoadoutSave

  datatype Decision = Proceed | AutoClear | BlockAndExplain

  function ClassifyStageEquip(slot: Slot, candidate: Item, pending: Equipment): Decision {
    match slot
    case WeaponSlot =>
      if IsTwoHanded(candidate) && OffhandSlot in pending then AutoClear else Proceed
    case OffhandSlot =>
      if IsTwoHanded(candidate) then BlockAndExplain
      else if WeaponSlot in pending && IsTwoHanded(pending[WeaponSlot]) then BlockAndExplain
      else Proceed
    case _ => Proceed
  }

  predicate OffhandOneHanded(eq: Equipment) {
    OffhandSlot in eq ==> !IsTwoHanded(eq[OffhandSlot])
  }

  /** What the two-handed rule asks of a loadout. */
  predicate HandsLegal(eq: Equipment) {
    !ClearsOffhand(eq) && OffhandOneHanded(eq)
  }

  /**
   * The classifier decides exactly by what staging would do: it proceeds when the result is legal,
   * clears when clearing the off hand makes it legal, and blocks otherwise.
   */
  lemma ClassifierExact(slot: Slot, candidate: Item, pending: Equipment)
    requires HandsLegal(pending)
    ensures var staged := pending[slot := candidate];
            match ClassifyStageEquip(slot, candidate, pending)
            case Proceed => HandsLegal(staged)
            case AutoClear => !HandsLegal(staged) && HandsLegal(staged - {OffhandSlot}) && slot == WeaponSlot
            case BlockAndExplain => !HandsLegal(staged) && slot == OffhandSlot
  {
  }

  // ----- Sessions -----

  datatype Session = Session(committed: Equipment, pending: Equipment)

  /** `landed` says whether the chain accepted the save. */
  datatype Action =
    | StageEquip(item: Item, slot: Slot)
    | StageUnequip(slot: Slot)
    | StageDiscard
    | Save(landed: bool)

  function ReduceEquip(pending: Equipment, item: Item, slot: Slot): Equipment {
    if IdAt(pending, slot) == Some(item.id) then pending else pending[slot := item]
  }

  function Picked(pending: Equipment, seen: Equipment, item: Item, slot: Slot): Equipment {
    match ClassifyStageEquip(slot, item, seen)
    case BlockAndExplain => pending
    case decision =>
      var cleared := if decision == AutoClear then pending - {OffhandSlot} else pending;
      // A server-only item goes over the wire at once and is not staged.
      if IsOnChain(item) then ReduceEquip(cleared, item, slot) else cleared
  }

  function OnEquip(s: Session, seen: Session, item: Item, slot: Slot): Session {
    s.(pending := Picked(s.pending, seen.pending, item, slot))
  }

  function OnUnequip(s: Session, seen: Session, slot: Slot): Session {
    if slot in ChainPart(seen.pending) || slot in ChainPart(seen.committed)
    then s.(pending := s.pending - {slot})
    else s
  }

  function OnSave(s: Session, seen: Session, landed: bool): Session {
    var reconciled := Reconcile(seen.pending);
    if landed && Changed(SLOT_KEYS, seen.committed, reconciled) != []
    then Session(reconciled, reconciled)
    else s
  }

  function Step(s: Session, seen: Session, action: Action): Session {
    match action
    case StageEquip(item, slot) => OnEquip(s, seen, item, slot)
    case StageUnequip(slot) => OnUnequip(s, seen, slot)
    case StageDiscard => s.(pending := s.committed)
    case Save(landed) => OnSave(s, seen, landed)
  }

  /** `lag` is how many states behind the current one the player's render is. */
  datatype Click = Click(action: Action, lag: nat)

  /** The state whose render the click was made in. */
  function SeenBy(start: Session, states: seq<Session>, click: Click): Session
    requires states != []
  {
    if click.lag < |states| then states[|states| - 1 - click.lag] else start
  }

  /** What one more click makes of the states so far. */
  function Clicked(start: Session, states: seq<Session>, click: Click): Session
    requires states != []
  {
    Step(states[|states| - 1], SeenBy(start, states, click), click.action)
  }

  /** All states of a run, the start first. */
  function Trace(start: Session, clicks: seq<Click>): (states: seq<Session>)
    ensures |states| == |clicks| + 1
  {
    if clicks == [] then [start] else
      var states := Trace(start, clicks[..|clicks| - 1]);
      states + [Clicked(start, states, clicks[|clicks| - 1])]
  }

  function Final(start: Session, clicks: seq<Click>): Session {
    Trace(start, clicks)[|clicks|]
  }

  // ----- What a click does -----

  /** The item in a slot, if any. */
  function ItemAt(eq: Equipment, slot: Slot): Option<Item> {
    if slot in eq then Some(eq[slot]) else None
  }

  /** The two-handed rule turns the pick down: the item, or the weapon the render shows, needs both hands. */
  predicate TurnedDown(seen: Equipment, item: Item, slot: Slot) {
    slot == OffhandSlot &&
    (IsTwoHanded(item) || (WeaponSlot in seen && IsTwoHanded(seen[WeaponSlot])))
  }

  lemma Classifies(slot: Slot, item: Item, seen: Equipment)
    ensures ClassifyStageEquip(slot, item, seen) == BlockAndExplain <==> TurnedDown(seen, item, slot)
    ensures ClassifyStageEquip(slot, item, seen) == AutoClear <==>
              slot == WeaponSlot && IsTwoHanded(item) && OffhandSlot in seen
  {
  }

  lemma ReducedAt(pending: Equipment, item: Item, slot: Slot, t: Slot)
    ensures ItemAt(ReduceEquip(pending, item, slot), t) ==
            if t == slot && IdAt(pending, slot) != Some(item.id) then Some(item) else ItemAt(pending, t)
  {
  }

  /**
   * A pick, slot by slot. Turned down it changes nothing. Otherwise an on-chain item comes to be on the
   * clicked slot, unless the same object is there already; a server-only item is left to the server;
   * a two-handed weapon empties the off hand if the render shows one filled; and nothing else changes.
   */
  function AfterPick(pending: Equipment, seen: Equipment, item: Item, slot: Slot, t: Slot): Option<Item> {
    if TurnedDown(seen, item, slot) then ItemAt(pending, t)
    else if t == slot && IsOnChain(item) && IdAt(pending, slot) != Some(item.id) then Some(item)
    else if t == OffhandSlot && slot == WeaponSlot && IsTwoHanded(item) && OffhandSlot in seen then None
    else ItemAt(pending, t)
  }

  lemma PickedAt(pending: Equipment, seen: Equipment, item: Item, slot: Slot, t: Slot)
    ensures ItemAt(Picked(pending, seen, item, slot), t) == AfterPick(pending, seen, item, slot, t)
  {
    var decision := ClassifyStageEquip(slot, item, seen);
    Classifies(slot, item, seen);
    if decision != BlockAndExplain {
      ReducedAt(if decision == AutoClear then pending - {OffhandSlot} else pending, item, slot, t);
    }
  }

  lemma PickExactly(s: Session, seen: Session, item: Item, slot: Slot, t: Slot)
    ensures var after := Step(s, seen, StageEquip(item, slot));
            after.committed == s.committed &&
            ItemAt(after.pending, t) == AfterPick(s.pending, seen.pending, item, slot, t)
  {
    PickedAt(s.pending, seen.pending, item, slot, t);
  }

  /** Taking off empties the clicked slot exactly if the render shows an on-chain item there, worn or staged. */
  function AfterTakeOff(pending: Equipment, seen: Session, slot: Slot, t: Slot): Option<Item> {
    var shown := (slot in seen.pending && IsOnChain(seen.pending[slot])) ||
                 (slot in seen.committed && IsOnChain(seen.committed[slot]));
    if t == slot && shown then None else ItemAt(pending, t)
  }

  lemma TakeOffExactly(s: Session, seen: Session, slot: Slot, t: Slot)
    ensures var after := Step(s, seen, StageUnequip(slot));
            after.committed == s.committed && ItemAt(after.pending, t) == AfterTakeOff(s.pending, seen, slot, t)
  {
  }

  /** The click is a save that the chain accepts and that has a call to make. */
  predicate Lands(start: Session, states: seq<Session>, click: Click)
    requires states != []
  {
    var seen := SeenBy(start, states, click);
    click.action == Save(true) && SaveOps(seen.committed, Reconcile(seen.pending)) != []
  }

  /** The loadout that the last landed save of the run sent; the start's record if none has landed. */
  function LastSaved(start: Session, clicks: seq<Click>): Equipment {
    if clicks == [] then start.committed
    else
      var init, click := clicks[..|clicks| - 1], clicks[|clicks| - 1];
      if Lands(start, Trace(start, init), click) then Reconcile(SeenBy(start, Trace(start, init), click).pending)
      else LastSaved(start, init)
  }

  lemma CallsIffChanged(committed: Equipment, reconciled: Equipment)
    ensures SaveOps(committed, reconciled) == [] <==> Changed(SLOT_KEYS, committed, reconciled) == []
  {
    if Changed(SLOT_KEYS, committed, reconciled) != [] {
      ChangedEmptyIff(committed, reconciled);
      SaveOpsSplit(committed, reconciled);
    }
  }

  /** What is recorded as committed is always what the last landed save sent. */
  lemma {:induction false} RecordIsLastSaved(start: Session, clicks: seq<Click>)
    ensures Final(start, clicks).committed == LastSaved(start, clicks)
  {
    if clicks != [] {
      var init, click := clicks[..|clicks| - 1], clicks[|clicks| - 1];
      RecordIsLastSaved(start, init);
      var seen := SeenBy(start, Trace(start, init), click);
      CallsIffChanged(seen.committed, Reconcile(seen.pending));
    }
  }

  lemma LastSavedIsReconciled(start: Session, clicks: seq<Click>)
    requires !ClearsOffhand(start.committed)
    ensures !ClearsOffhand(LastSaved(start, clicks))
  {
  }

  lemma TraceSnoc(start: Session, clicks: seq<Click>, click: Click)
    ensures Trace(start, clicks + [click]) == Trace(start, clicks) + [Clicked(start, Trace(start, clicks), click)]
    ensures Final(start, clicks + [click]) == Clicked(start, Trace(start, clicks), click)
  {
    assert (clicks + [click])[..|clicks|] == clicks;
  }

  /**
   * A discard, in any state of any run and however old its render, leaves pending exactly what the last
   * landed save sent, or the start's record before the first; and a save clicked then has no call to make.
   */
  lemma DiscardRestores(start: Session, clicks: seq<Click>, lag: nat)
    ensures var s := Final(start, clicks + [Click(StageDiscard, lag)]);
            s.pending == LastSaved(start, clicks) && s.committed == LastSaved(start, clicks) &&
            (!ClearsOffhand(start.committed) ==> SaveOps(s.committed, Reconcile(s.pending)) == [])
  {
    RecordIsLastSaved(start, clicks);
    TraceSnoc(start, clicks, Click(StageDiscard, lag));
    if !ClearsOffhand(start.committed) {
      LastSavedIsReconciled(start, clicks);
      NoOpSaveIsEmpty(LastSaved(start, clicks), LastSaved(start, clicks));
    }
  }

  /**
   * Every click of every run, slot by slot: picks and takings-off as told, a discard back to the last
   * landed save, a save that lands to what it sent, and one that does not to nothing new. Only a landed
   * save changes the record.
   */
  lemma EveryClickExactly(start: Session, clicks: seq<Click>, click: Click, t: Slot)
    ensures var s, after := Final(start, clicks), Final(start, clicks + [click]);
            var seen := SeenBy(start, Trace(start, clicks), click);
            var lands := Lands(start, Trace(start, clicks), click);
            after.committed == (if lands then Reconcile(seen.pending) else s.committed) &&
            ItemAt(after.pending, t) ==
              match click.action
              case StageEquip(item, slot) => AfterPick(s.pending, seen.pending, item, slot, t)
              case StageUnequip(slot) => AfterTakeOff(s.pending, seen, slot, t)
              case StageDiscard => ItemAt(LastSaved(start, clicks), t)
              case Save(_) => if lands then ItemAt(Reconcile(seen.pending), t) else ItemAt(s.pending, t)
  {
    var s, seen := Final(start, clicks), SeenBy(start, Trace(start, clicks), click);
    TraceSnoc(start, clicks, click);
    match click.action
    case StageEquip(item, slot) => PickExactly(s, seen, item, slot, t);
    case StageUnequip(slot) => TakeOffExactly(s, seen, slot, t);
    case StageDiscard => RecordIsLastSaved(start, clicks);
    case Save(_) => CallsIffChanged(seen.committed, Reconcile(seen.pending));
  }

  ghost predicate Fresh(clicks: seq<Click>) {
    forall i :: 0 <= i < |clicks| ==> clicks[i].lag == 0
  }

  /** Neither loadout has a two-handed weapon in the off hand. */
  ghost predicate OneHanded(s: Session) {
    OffhandOneHanded(s.committed) && OffhandOneHanded(s.pending)
  }

  lemma StepKeepsOneHanded(s: Session, seen: Session, action: Action)
    requires OneHanded(s) && OneHanded(seen)
    ensures OneHanded(Step(s, seen, action))
  {
  }

  ghost predicate AllOneHanded(states: seq<Session>) {
    forall i :: 0 <= i < |states| ==> OneHanded(states[i])
  }

  lemma NextKeepsOneHanded(start: Session, states: seq<Session>, click: Click, more: seq<Session>)
    requires OneHanded(start) && AllOneHanded(states) && states != []
    requires more == states + [Clicked(start, states, click)]
    ensures AllOneHanded(more)
  {
    StepKeepsOneHanded(states[|states| - 1], SeenBy(start, states, click), click.action);
  }

  /** Over every run, stale renders included, no two-handed weapon ever reaches the off hand. */
  lemma {:induction false} StagingKeepsOffhandOneHanded(start: Session, clicks: seq<Click>)
    requires OneHanded(start)
    ensures AllOneHanded(Trace(start, clicks))
  {
    if clicks != [] {
      var init, click := clicks[..|clicks| - 1], clicks[|clicks| - 1];
      StagingKeepsOffhandOneHanded(start, init);
      NextKeepsOneHanded(start, Trace(start, init), click, Trace(start, clicks));
    }
  }

  ghost predicate Legal(s: Session) {
    HandsLegal(s.committed) && HandsLegal(s.pending)
  }

  lemma StepKeepsLegal(s: Session, action: Action)
    requires Legal(s)
    ensures Legal(Step(s, s, action))
  {
  }

  /** When every click is decided on the current state, the pending loadout is legal throughout. */
  lemma {:induction false} FreshStagingKeepsLegal(start: Session, clicks: seq<Click>)
    requires Legal(start) && Fresh(clicks)
    ensures forall i :: 0 <= i <= |clicks| ==> Legal(Trace(start, clicks)[i])
  {
    if clicks != [] {
      var init := clicks[..|clicks| - 1];
      FreshStagingKeepsLegal(start, init);
      StepKeepsLegal(Final(start, init), clicks[|clicks| - 1].action);
    }
  }

  // ----- Server-only items -----

  /** Server-only items are never staged: a pending one is the committed one. */
  ghost predicate ServerItemsCommitted(s: Session) {
    forall slot :: slot in s.pending && !IsOnChain(s.pending[slot]) ==>
      slot in s.committed && s.committed[slot] == s.pending[slot]
  }

  lemma StepKeepsServerItems(s: Session, seen: Session, action: Action)
    requires ServerItemsCommitted(s)
    ensures ServerItemsCommitted(Step(s, seen, action))
  {
  }

  /** Over every session, stale renders included, server-only items reach `pending` only from `committed`. */
  lemma {:induction false} ServerItemsOnlyFromCommitted(start: Session, clicks: seq<Click>)
    requires ServerItemsCommitted(start)
    ensures ServerItemsCommitted(Final(start, clicks))
  {
    if clicks != [] {
      var init, click := clicks[..|clicks| - 1], clicks[|clicks| - 1];
      ServerItemsOnlyFromCommitted(start, init);
      var states := Trace(start, init);
      StepKeepsServerItems(states[|states| - 1], SeenBy(start, states, click), click.action);
    }
  }

  // ----- Staging, then saving -----

  /** The type, level and mint rules a single item obeys; they say nothing about the hands. */
  predicate WellTyped(slot: Slot, item: Item, level: nat) {
    && TypeAccepted(slot, item)
    && item.levelReq <= level
    && (item.itemType == Weapon ==> item.slotType in {Some(Mainhand), Some(BothHands)})
    && (item.itemType == Shield ==> item.slotType == Some(Offhand))
  }

  /** Every on-chain item sits in a slot of its type. */
  ghost predicate Typed(eq: Equipment, level: nat) {
    forall slot :: slot in ChainPart(eq) ==> WellTyped(slot, eq[slot], level)
  }

  /**
   * The chain is as the client believes it, and the staged on-chain items are of a fitting type, each
   * staged once, and within reach. Server-only items may be worn or staged anywhere.
   */
  ghost predicate Savable(c: Chain, s: Session) {
    var reconciled := Reconcile(s.pending);
    Mirrors(c, s.committed) && SameObjects(s.committed, reconciled) && Typed(reconciled, c.level) &&
    DistinctItems(ChainPart(reconciled)) &&
    forall slot :: slot in ChainPart(reconciled) ==> WithinReach(c, s.committed, slot, reconciled[slot])
  }

  /**
   * The builder leaves out slots where an on-chain and a server-only item meet; what the other slots
   * come to still obeys the chain's two-handed rule.
   */
  lemma TargetIsFree(s: Session, level: nat)
    requires HandsFree(ChainPart(s.committed)) && ServerItemsCommitted(s)
    requires SameObjects(s.committed, Reconcile(s.pending)) && Typed(Reconcile(s.pending), level)
    ensures HandsFree(Target(s.committed, Reconcile(s.pending)))
  {
  }

  lemma TypedFits(slot: Slot, eq: Equipment, level: nat)
    requires Typed(eq, level) && slot in ChainPart(eq) && OffhandOneHanded(eq)
    ensures Fits(slot, eq[slot], level)
  {
    assert WellTyped(slot, eq[slot], level);
  }

  lemma WornIsOnChain(committed: Equipment, reconciled: Equipment)
    ensures forall slot :: slot in Worn(committed, reconciled) ==>
              slot in ChainPart(reconciled) && Worn(committed, reconciled)[slot] == reconciled[slot]
  {
  }

  lemma SavableIsAllowed(c: Chain, s: Session)
    requires OneHanded(s) && ServerItemsCommitted(s) && Savable(c, s) && HandsFree(c.slots) && Authorized(c)
    ensures SaveAllowed(c, s.committed, Reconcile(s.pending))
  {
    var reconciled := Reconcile(s.pending);
    TargetIsFree(s, c.level);
    WornIsOnChain(s.committed, reconciled);
    forall slot | slot in Worn(s.committed, reconciled)
      ensures Fits(slot, reconciled[slot], c.level) && reconciled[slot] in c.wallet
    {
      TypedFits(slot, reconciled, c.level);
      assert Dirty(s.committed, reconciled, slot);
    }
  }

  ghost predicate WhollyOnChain(s: Session) {
    AllOnChain(s.committed) && AllOnChain(s.pending)
  }

  lemma StepKeepsOnChain(s: Session, seen: Session, action: Action)
    requires WhollyOnChain(s) && WhollyOnChain(seen)
    ensures WhollyOnChain(Step(s, seen, action))
  {
  }

  ghost predicate AllWhollyOnChain(states: seq<Session>) {
    forall i :: 0 <= i < |states| ==> WhollyOnChain(states[i])
  }

  lemma NextKeepsOnChain(start: Session, states: seq<Session>, click: Click, more: seq<Session>)
    requires WhollyOnChain(start) && AllWhollyOnChain(states) && states != []
    requires more == states + [Clicked(start, states, click)]
    ensures AllWhollyOnChain(more)
  {
    StepKeepsOnChain(states[|states| - 1], SeenBy(start, states, click), click.action);
  }

  lemma {:induction false} StagingKeepsOnChain(start: Session, clicks: seq<Click>)
    requires WhollyOnChain(start)
    ensures AllWhollyOnChain(Trace(start, clicks))
  {
    if clicks != [] {
      var init, click := clicks[..|clicks| - 1], clicks[|clicks| - 1];
      StagingKeepsOnChain(start, init);
      NextKeepsOnChain(start, Trace(start, init), click, Trace(start, clicks));
    }
  }

  /**
   * After any run of clicks, however stale and whatever server-only items are worn, a save by the
   * owner of an unlocked character of well-typed items, each worn once and either staying put or held,
   * lands, and lands exactly on what its calls aim at: no two-handed rule is left to stop it. Without
   * server-only items that is the reconciled loadout, and without stale clicks the pending one.
   */
  lemma StagedSaveLands(start: Session, clicks: seq<Click>, c: Chain)
    requires OneHanded(start) && ServerItemsCommitted(start)
    requires Savable(c, Final(start, clicks))
    requires Sound(c) && HandsFree(c.slots) && Authorized(c)
    ensures var s := Final(start, clicks);
            var result := Submit(c, SaveOps(s.committed, Reconcile(s.pending)));
            && result.Ok?
            && result.value.slots == Target(s.committed, Reconcile(s.pending))
            && Sound(result.value) && Holdings(result.value) == Holdings(c)
            && (WhollyOnChain(start) ==> result.value.slots == Reconcile(s.pending))
            && (Legal(start) && Fresh(clicks) ==> Reconcile(s.pending) == s.pending)
  {
    var s := Final(start, clicks);
    StagingKeepsOffhandOneHanded(start, clicks);
    assert OneHanded(s);
    ServerItemsOnlyFromCommitted(start, clicks);
    SavableIsAllowed(c, s);
    SaveExact(c, s.committed, s.pending);
    if WhollyOnChain(start) {
      StagingKeepsOnChain(start, clicks);
      assert WhollyOnChain(s);
      NothingSkipped(s.committed, Reconcile(s.pending));
    }
    if Legal(start) && Fresh(clicks) {
      FreshStagingKeepsLegal(start, clicks);
      assert Legal(s);
    }
  }

  // ----- What the client records after a save -----

  /** An on-chain item is staged over a server-only one, a change the builder leaves out. */
  predicate TakesOver(s: Session, slot: Slot) {
    var reconciled := Reconcile(s.pending);
    slot in s.committed && slot in reconciled && !IsOnChain(s.committed[slot]) && IsOnChain(reconciled[slot])
  }

  lemma TakeoverIsMixedSwap(s: Session, slot: Slot)
    requires ServerItemsCommitted(s)
    ensures MixedSwap(s.committed, Reconcile(s.pending), slot) <==> TakesOver(s, slot)
  {
  }

  /**
   * When a save has gone through, the loadout the client then records as committed agrees with the
   * chain exactly if no slot had an on-chain item staged over a server-only one.
   */
  lemma RecordAgreesIff(c: Chain, s: Session)
    requires Mirrors(c, s.committed) && Sound(c) && HandsFree(c.slots) && ServerItemsCommitted(s)
    requires SameObjects(s.committed, Reconcile(s.pending))
    requires SaveOps(s.committed, Reconcile(s.pending)) != []
    requires Submit(c, SaveOps(s.committed, Reconcile(s.pending))).Ok?
    ensures var saved := Submit(c, SaveOps(s.committed, Reconcile(s.pending))).value;
            saved.slots == ChainPart(OnSave(s, s, true).committed) <==> forall slot :: !TakesOver(s, slot)
  {
    var reconciled := Reconcile(s.pending);
    SaveExact(c, s.committed, s.pending);
    TargetAgreesIff(s.committed, reconciled);
    ChangedEmptyIff(s.committed, reconciled);
    assert Changed(SLOT_KEYS, s.committed, reconciled) != [];
    forall slot ensures MixedSwap(s.committed, reconciled, slot) <==> TakesOver(s, slot) {
      TakeoverIsMixedSwap(s, slot);
    }
  }

  /**
   * So after any session and a save that changes something: the save lands, and the client's record is
   * the chain's exactly if no slot had an on-chain item staged over a server-only one.
   */
  lemma StagedRecordAgreesIff(start: Session, clicks: seq<Click>, c: Chain)
    requires OneHanded(start) && ServerItemsCommitted(start)
    requires Savable(c, Final(start, clicks))
    requires Sound(c) && HandsFree(c.slots) && Authorized(c)
    requires SaveOps(Final(start, clicks).committed, Reconcile(Final(start, clicks).pending)) != []
    ensures var s := Final(start, clicks);
            var result := Submit(c, SaveOps(s.committed, Reconcile(s.pending)));
            && result.Ok?
            && (result.value.slots == ChainPart(Step(s, s, Save(true)).committed) <==>
                  forall slot :: !TakesOver(s, slot))
  {
    StagedSaveLands(start, clicks, c);
    ServerItemsOnlyFromCommitted(start, clicks);
    RecordAgreesIff(c, Final(start, clicks));
  }

  const GREATSWORD := Item("0x00000000000000000000000000000000000000a1", Weapon, Some(BothHands), 1)
  const LONGSWORD := Item("0x00000000000000000000000000000000000000a2", Weapon, Some(Mainhand), 1)
  const HELM := Item("0x00000000000000000000000000000000000000a3", Helmet, Some(Mainhand), 1)
  const SHIELD := Item("0x00000000000000000000000000000000000000a4", Shield, Some(Offhand), 1)
  const NPC_SWORD := Item("npc-sword", Weapon, None, 1)

  /** A player wearing a server-only sword stages an on-chain sword over it, and a helmet. */
  const HYDRATED := Session(map[WeaponSlot := NPC_SWORD], map[WeaponSlot := NPC_SWORD])
  const SWORD_AND_HELM: Equipment := map[WeaponSlot := LONGSWORD, HelmetSlot := HELM]
  const STAGED := Session(map[WeaponSlot := NPC_SWORD], SWORD_AND_HELM)
  const BEFORE := Chain("a", "a", false, 1, 0, map[], {LONGSWORD, HELM})
  const AFTER := Chain("a", "a", false, 1, 1, map[HelmetSlot := HELM], {LONGSWORD})

  const CLICKS := [Click(StageEquip(LONGSWORD, WeaponSlot), 0), Click(StageEquip(HELM, HelmetSlot), 0)]

  lemma StagedIsReached()
    ensures Final(HYDRATED, CLICKS) == STAGED
  {
    assert IsOnChain(LONGSWORD) && IsOnChain(HELM) && !IsOnChain(NPC_SWORD);
    var one := Session(map[WeaponSlot := NPC_SWORD], map[WeaponSlot := LONGSWORD]);
    assert CLICKS[..1] == [CLICKS[0]] && [CLICKS[0]][..0] == [];
    assert HYDRATED.pending[WeaponSlot := LONGSWORD] == one.pending;
    assert Step(HYDRATED, HYDRATED, CLICKS[0].action) == one;
    assert Trace(HYDRATED, []) == [HYDRATED];
    assert Trace(HYDRATED, [CLICKS[0]]) == [HYDRATED, one];
  }

  lemma OnlyTheHelmIsEmitted(s: Slot)
    ensures Emitted(STAGED.committed, SWORD_AND_HELM, s) <==> s == HelmetSlot
  {
    assert IsOnChain(LONGSWORD) && IsOnChain(HELM) && !IsOnChain(NPC_SWORD);
  }

  lemma OnlyTheHelmIsSaved()
    ensures Reconcile(SWORD_AND_HELM) == SWORD_AND_HELM
    ensures SaveOps(STAGED.committed, SWORD_AND_HELM) != []
    ensures Submit(BEFORE, SaveOps(STAGED.committed, SWORD_AND_HELM)) == Ok(AFTER)
  {
    forall s ensures Emitted(STAGED.committed, SWORD_AND_HELM, s) <==> s == HelmetSlot { OnlyTheHelmIsEmitted(s); }
    PuttingOn(BEFORE, STAGED.committed, SWORD_AND_HELM, HelmetSlot);
    assert EquipGuard(BEFORE, HelmetSlot, HELM).None?;
    DistinctIds();
    assert BEFORE.wallet - {HELM} == {LONGSWORD};
  }

  lemma StartMirrors()
    ensures Mirrors(BEFORE, STAGED.committed) && Sound(BEFORE)
  {
    assert !IsOnChain(NPC_SWORD);
  }

  lemma DistinctIds()
    ensures LONGSWORD != HELM
  {
    assert LONGSWORD.itemType != HELM.itemType;
  }

  const RECORDED := Session(SWORD_AND_HELM, SWORD_AND_HELM)

  lemma SwordIsRecorded()
    ensures Step(STAGED, STAGED, Save(true)) == RECORDED && TakesOver(STAGED, WeaponSlot)
  {
    assert IsOnChain(LONGSWORD) && IsOnChain(HELM) && !IsOnChain(NPC_SWORD);
    forall s ensures Emitted(STAGED.committed, SWORD_AND_HELM, s) <==> s == HelmetSlot { OnlyTheHelmIsEmitted(s); }
    SingleChange(STAGED.committed, SWORD_AND_HELM, HelmetSlot);
  }

  lemma TakingTheSwordOffAborts()
    ensures var next := Step(RECORDED, RECORDED, StageUnequip(WeaponSlot));
            Submit(AFTER, SaveOps(next.committed, Reconcile(next.pending))) == Err(MoveAbort(E_SLOT_EMPTY))
  {
    var rest: Equipment := map[HelmetSlot := HELM];
    assert IsOnChain(LONGSWORD) && IsOnChain(HELM);
    assert SWORD_AND_HELM - {WeaponSlot} == rest;
    assert Step(RECORDED, RECORDED, StageUnequip(WeaponSlot)) == Session(SWORD_AND_HELM, rest);
    TakingOffNothing(AFTER, SWORD_AND_HELM, rest, WeaponSlot);
  }

  /**
   * The save lands and the client records the sword as worn, but the chain never got it: taking the
   * sword off again makes the next save abort with 2.
   */
  lemma RecordedSwordIsNotWorn()
    ensures Mirrors(BEFORE, HYDRATED.committed) && Sound(BEFORE) && Final(HYDRATED, CLICKS) == STAGED
    ensures Submit(BEFORE, SaveOps(STAGED.committed, Reconcile(STAGED.pending))) == Ok(AFTER)
    ensures var recorded := Step(STAGED, STAGED, Save(true));
            && WeaponSlot in recorded.committed && WeaponSlot !in AFTER.slots && TakesOver(STAGED, WeaponSlot)
            && var next := Step(recorded, recorded, StageUnequip(WeaponSlot));
               Submit(AFTER, SaveOps(next.committed, Reconcile(next.pending))) == Err(MoveAbort(E_SLOT_EMPTY))
  {
    StagedIsReached();
    StartMirrors();
    OnlyTheHelmIsSaved();
    SwordIsRecorded();
    TakingTheSwordOffAborts();
  }

  /** Two clicks in one render: the second does not see the first, and the builder must clear. */
  lemma StaleClickNeedsAutoClear()
    ensures var start := Session(map[], map[]);
            var clicks := [Click(StageEquip(SHIELD, OffhandSlot), 0), Click(StageEquip(GREATSWORD, WeaponSlot), 1)];
            && Legal(start) && ClearsOffhand(Final(start, clicks).pending)
            && Reconcile(Final(start, clicks).pending) == map[WeaponSlot := GREATSWORD]
  {
    var start := Session(map[], map[]);
    var first, second := Click(StageEquip(SHIELD, OffhandSlot), 0), Click(StageEquip(GREATSWORD, WeaponSlot), 1);
    assert [first, second][..1] == [first];
    assert [first][..0] == [];
    assert IsOnChain(GREATSWORD) && IsOnChain(SHIELD);
    assert Trace(start, []) == [start];
    assert Trace(start, [first]) == [start, Session(map[], map[OffhandSlot := SHIELD])];
    assert Final(start, [first, second]).pending == map[OffhandSlot := SHIELD, WeaponSlot := GREATSWORD];
  }
}
