/**
 * What a save does on chain: for every committed and pending loadout, exactly when the
 * compiled transaction goes through, and exactly which loadout it leaves behind.
 */
module LoadoutSave {
  import opened Common
  import opened Loadout

  ghost predicate Authorized(c: Chain) {
    c.owner == c.sender && !c.locked
  }

  /** The item may sit in the slot, whatever the other slots hold. */
  predicate Fits(slot: Slot, item: Item, level: nat) {
    && TypeAccepted(slot, item)
    && item.levelReq <= level
    && (slot == WeaponSlot ==> item.slotType in {Some(Mainhand), Some(BothHands)})
    && (slot == OffhandSlot ==> item.slotType != Some(BothHands))
    && (slot == OffhandSlot && item.itemType == Shield ==> item.slotType == Some(Offhand))
  }

  function Restrict(eq: Equipment, slots: seq<Slot>): Equipment {
    map s | s in eq && s in slots :: eq[s]
  }

  // ----- First half: every unequip -----

  function Freed(c: Chain, shed: Equipment): Chain {
    c.(slots := c.slots - shed.Keys, wallet := c.wallet + shed.Values)
  }

  lemma FreedStep(c: Chain, shed: Equipment, slot: Slot)
    requires Authorized(c) && slot in c.slots && slot !in shed
    ensures Exec(Freed(c, shed), Unequip(slot)) == Ok(Freed(c, shed[slot := c.slots[slot]]))
  {
    EquipConserves(shed, slot, c.slots[slot]);
    assert c.wallet + shed[slot := c.slots[slot]].Values == c.wallet + shed.Values + {c.slots[slot]};
    assert c.slots - shed[slot := c.slots[slot]].Keys == (c.slots - shed.Keys) - {slot};
  }

  lemma UnequipMore(c: Chain, init: seq<Slot>, last: Slot, committed: Equipment)
    requires Authorized(c) && last !in init
    requires last in committed ==> last in c.slots && c.slots[last] == committed[last]
    requires Run(c, Unequips(init, committed)) == Ok(Freed(c, Restrict(committed, init)))
    ensures Run(c, Unequips(init + [last], committed)) == Ok(Freed(c, Restrict(committed, init + [last])))
  {
    var before, after := Restrict(committed, init), Restrict(committed, init + [last]);
    var ops := Unequips(init, committed);
    assert (init + [last])[..|init|] == init;
    if last in committed {
      assert after == before[last := committed[last]];
      FreedStep(c, before, last);
      RunSnoc(c, ops, Unequip(last));
    } else {
      assert after == before;
      assert ops + [] == ops;
    }
  }

  lemma {:induction false} UnequipPhase(c: Chain, slots: seq<Slot>, committed: Equipment)
    requires Authorized(c) && NoDup(slots)
    requires forall s :: s in slots && s in committed ==> s in c.slots && c.slots[s] == committed[s]
    ensures Run(c, Unequips(slots, committed)) == Ok(Freed(c, Restrict(committed, slots)))
  {
    if slots == [] {
      var none: Equipment := map[];
      assert Restrict(committed, slots) == none;
      assert c.slots - none.Keys == c.slots && c.wallet + none.Values == c.wallet;
    } else {
      var init, last := slots[..|slots| - 1], slots[|slots| - 1];
      UnequipPhase(c, init, committed);
      UnequipMore(c, init, last, committed);
      assert slots == init + [last];
    }
  }

  // ----- Second half: every equip -----

  function Dressed(c: Chain, worn: Equipment): Chain {
    c.(slots := c.slots + worn, wallet := c.wallet - worn.Values)
  }

  /** No two slots receive the same item. */
  ghost predicate DistinctItems(eq: Equipment) {
    forall s, t :: s in eq && t in eq && s != t ==> eq[s] != eq[t]
  }

  ghost predicate AllFit(c: Chain, worn: Equipment) {
    forall s :: s in worn ==> Fits(s, worn[s], c.level) && worn[s] in c.wallet
  }

  /** What it takes for a batch of equips to go through. */
  ghost predicate EquipsAllowed(c: Chain, worn: Equipment) {
    AllFit(c, worn) && DistinctItems(worn) && HandsFree(c.slots + worn)
  }

  lemma EquipsAllowedSmaller(c: Chain, small: Equipment, slot: Slot, item: Item)
    requires slot !in small && slot !in c.slots
    requires EquipsAllowed(c, small[slot := item])
    ensures EquipsAllowed(c, small)
  {
    SlotsStep(c.slots, small, slot, item);
    HandsFreeSmaller(c.slots + small, slot, item);
    AllFitSmaller(c, small, slot, item);
    DistinctSmaller(small, slot, item);
  }

  lemma HandsFreeSmaller(eq: Equipment, slot: Slot, item: Item)
    requires slot !in eq && HandsFree(eq[slot := item])
    ensures HandsFree(eq)
  {
  }

  lemma AllFitSmaller(c: Chain, small: Equipment, slot: Slot, item: Item)
    requires slot !in small && AllFit(c, small[slot := item])
    ensures AllFit(c, small)
  {
    forall s | s in small ensures Fits(s, small[s], c.level) && small[s] in c.wallet {
      assert small[slot := item][s] == small[s];
    }
  }

  lemma DistinctSmaller(small: Equipment, slot: Slot, item: Item)
    requires slot !in small && DistinctItems(small[slot := item])
    ensures DistinctItems(small)
  {
    forall s, t | s in small && t in small && s != t ensures small[s] != small[t] {
      assert small[slot := item][s] == small[s] && small[slot := item][t] == small[t];
    }
  }

  lemma DressedStep(c: Chain, worn: Equipment, slot: Slot, item: Item)
    requires slot !in worn
    ensures Dressed(c, worn[slot := item]) ==
            Dressed(c, worn).(slots := (c.slots + worn)[slot := item],
                              wallet := c.wallet - worn.Values - {item})
  {
    EquipConserves(worn, slot, item);
    SlotsStep(c.slots, worn, slot, item);
    assert c.wallet - worn[slot := item].Values == c.wallet - worn.Values - {item};
  }

  lemma DistinctStep(worn: Equipment, slot: Slot, item: Item)
    requires slot !in worn && DistinctItems(worn)
    ensures DistinctItems(worn[slot := item]) <==> item !in worn.Values
  {
    var more := worn[slot := item];
    assert more[slot] == item;
    assert forall s :: s in worn ==> s in more && more[s] == worn[s];
  }

  /** The guard of one equip, against the declarative conditions. */
  lemma GuardIff(mid: Chain, slot: Slot, item: Item)
    requires Authorized(mid) && HandsFree(mid.slots) && slot !in mid.slots
    ensures EquipGuard(mid, slot, item).None? <==>
            item in mid.wallet && Fits(slot, item, mid.level) && HandsFree(mid.slots[slot := item])
  {
  }

  lemma AllFitStep(c: Chain, worn: Equipment, slot: Slot, item: Item)
    requires slot !in worn && AllFit(c, worn)
    ensures AllFit(c, worn[slot := item]) <==> Fits(slot, item, c.level) && item in c.wallet
  {
    var more := worn[slot := item];
    assert more[slot] == item;
    assert forall s :: s in worn ==> more[s] == worn[s];
  }

  lemma SlotsStep(slots: Equipment, worn: Equipment, slot: Slot, item: Item)
    ensures slots + worn[slot := item] == (slots + worn)[slot := item]
  {
  }

  /** One more equip: it goes through exactly when the extended batch is allowed. */
  lemma EquipStep(c: Chain, worn: Equipment, slot: Slot, item: Item)
    requires Authorized(c) && EquipsAllowed(c, worn)
    requires slot !in worn && slot !in c.slots
    ensures EquipGuard(Dressed(c, worn), slot, item).None? <==> EquipsAllowed(c, worn[slot := item])
  {
    GuardIff(Dressed(c, worn), slot, item);
    DistinctStep(worn, slot, item);
    AllFitStep(c, worn, slot, item);
    SlotsStep(c.slots, worn, slot, item);
  }

  ghost predicate EquipsSettled(c: Chain, slots: seq<Slot>, pending: Equipment) {
    var result := Run(c, Equips(slots, pending));
    && (result.Ok? <==> EquipsAllowed(c, Restrict(pending, slots)))
    && (result.Ok? ==> result == Ok(Dressed(c, Restrict(pending, slots))))
  }

  lemma EquipMore(c: Chain, init: seq<Slot>, last: Slot, pending: Equipment)
    requires Authorized(c) && last !in init && last !in c.slots
    requires EquipsSettled(c, init, pending)
    ensures EquipsSettled(c, init + [last], pending)
  {
    var before, after := Restrict(pending, init), Restrict(pending, init + [last]);
    var ops := Equips(init, pending);
    assert (init + [last])[..|init|] == init;
    if last !in pending {
      assert after == before;
      assert ops + [] == ops;
    } else {
      assert after == before[last := pending[last]];
      RunSnoc(c, ops, Equip(last, pending[last]));
      if EquipsAllowed(c, before) {
        EquipStep(c, before, last, pending[last]);
        DressedStep(c, before, last, pending[last]);
      } else if EquipsAllowed(c, after) {
        EquipsAllowedSmaller(c, before, last, pending[last]);
      }
    }
  }

  lemma {:induction false} EquipPhase(c: Chain, slots: seq<Slot>, pending: Equipment)
    requires Authorized(c) && NoDup(slots) && HandsFree(c.slots)
    requires forall s :: s in slots ==> s !in c.slots
    ensures EquipsSettled(c, slots, pending)
  {
    if slots == [] {
      var none: Equipment := map[];
      assert Restrict(pending, slots) == none;
      assert c.slots + none == c.slots && c.wallet - none.Values == c.wallet;
    } else {
      var init, last := slots[..|slots| - 1], slots[|slots| - 1];
      EquipPhase(c, init, pending);
      EquipMore(c, init, last, pending);
      assert slots == init + [last];
    }
  }

  // ----- The whole save -----

  lemma SlotKeysComplete()
    ensures NoDup(SLOT_KEYS)
    ensures forall s: Slot :: s in SLOT_KEYS
  {
    forall s: Slot ensures s in SLOT_KEYS {
      match s
      case WeaponSlot => assert SLOT_KEYS[0] == s;
      case OffhandSlot => assert SLOT_KEYS[1] == s;
      case HelmetSlot => assert SLOT_KEYS[2] == s;
      case ChestSlot => assert SLOT_KEYS[3] == s;
      case GlovesSlot => assert SLOT_KEYS[4] == s;
      case BootsSlot => assert SLOT_KEYS[5] == s;
      case BeltSlot => assert SLOT_KEYS[6] == s;
      case Ring1Slot => assert SLOT_KEYS[7] == s;
      case Ring2Slot => assert SLOT_KEYS[8] == s;
      case Ring3Slot => assert SLOT_KEYS[9] == s;
      case NecklaceSlot => assert SLOT_KEYS[10] == s;
      case PantsSlot => assert SLOT_KEYS[11] == s;
      case BraceletsSlot => assert SLOT_KEYS[12] == s;
    }
  }

  lemma {:induction false} ChangedNoDup(keys: seq<Slot>, committed: Equipment, pending: Equipment)
    requires NoDup(keys)
    ensures NoDup(Changed(keys, committed, pending))
  {
    if keys != [] {
      ChangedNoDup(keys[..|keys| - 1], committed, pending);
    }
  }

  /** The loadout the chain holds after a save: changed slots take the pending item, others stay. */
  function Target(committed: Equipment, reconciled: Equipment): Equipment {
    map s | s in committed.Keys + reconciled.Keys &&
            (if Emitted(committed, reconciled, s) then s in reconciled else s in ChainPart(committed)) ::
      if Emitted(committed, reconciled, s) then reconciled[s] else committed[s]
  }

  function Worn(committed: Equipment, reconciled: Equipment): Equipment {
    map s | s in reconciled && Emitted(committed, reconciled, s) :: reconciled[s]
  }

  function Shed(committed: Equipment, reconciled: Equipment): Equipment {
    map s | s in committed && Emitted(committed, reconciled, s) :: committed[s]
  }

  ghost predicate SomethingChanges(committed: Equipment, reconciled: Equipment) {
    exists s :: Emitted(committed, reconciled, s)
  }

  /** The client's committed loadout agrees with the chain. */
  ghost predicate Mirrors(c: Chain, committed: Equipment) {
    c.slots == ChainPart(committed)
  }

  /**
   * When a save's calls run to their end. Either nothing changes, or the sender owns an unlocked
   * character and every newly worn item fits its slot, is held once the unequips have run, is worn
   * once, and the loadout left behind keeps the off hand free of a two-handed weapon.
   */
  ghost predicate CallsPass(c: Chain, committed: Equipment, reconciled: Equipment) {
    SomethingChanges(committed, reconciled) ==>
      && Authorized(c)
      && (forall s :: s in Worn(committed, reconciled) ==>
            Fits(s, reconciled[s], c.level) && reconciled[s] in c.wallet + Shed(committed, reconciled).Values)
      && DistinctItems(Worn(committed, reconciled))
      && HandsFree(Target(committed, reconciled))
  }

  /** The sender holds every newly worn item before the save; what a slot gives up does not count. */
  ghost predicate WornIsHeld(c: Chain, committed: Equipment, reconciled: Equipment) {
    forall s :: s in Worn(committed, reconciled) ==> reconciled[s] in c.wallet
  }

  /**
   * When a save goes through. Either nothing changes, or the sender owns an unlocked character and
   * every newly worn item fits its slot, is held beforehand, is worn once, and the loadout left
   * behind keeps the off hand free of a two-handed weapon.
   */
  ghost predicate SaveAllowed(c: Chain, committed: Equipment, reconciled: Equipment) {
    SomethingChanges(committed, reconciled) ==>
      && Authorized(c)
      && WornIsHeld(c, committed, reconciled)
      && (forall s :: s in Worn(committed, reconciled) ==> Fits(s, reconciled[s], c.level))
      && DistinctItems(Worn(committed, reconciled))
      && HandsFree(Target(committed, reconciled))
  }

  function SavedChain(c: Chain, committed: Equipment, reconciled: Equipment): Chain {
    c.(slots := Target(committed, reconciled),
       wallet := c.wallet + Shed(committed, reconciled).Values - Worn(committed, reconciled).Values,
       version := if Changed(SLOT_KEYS, committed, reconciled) == [] then c.version else c.version + 1)
  }

  lemma ChangedEmptyIff(committed: Equipment, reconciled: Equipment)
    ensures Changed(SLOT_KEYS, committed, reconciled) == [] <==> !SomethingChanges(committed, reconciled)
  {
    var changed := Changed(SLOT_KEYS, committed, reconciled);
    SlotKeysComplete();
    assert forall s :: Emitted(committed, reconciled, s) <==> s in changed;
    if changed != [] {
      assert changed[0] in changed;
    }
  }

  lemma NothingChanges(c: Chain, committed: Equipment, reconciled: Equipment)
    requires Mirrors(c, committed) && !SomethingChanges(committed, reconciled)
    ensures Run(c, SaveOps(committed, reconciled)) == Ok(SavedChain(c, committed, reconciled))
  {
    ChangedEmptyIff(committed, reconciled);
    assert SaveOps(committed, reconciled) == [];
    assert Target(committed, reconciled) == c.slots;
    assert Shed(committed, reconciled) == map[] && Worn(committed, reconciled) == map[];
    assert c.wallet + Shed(committed, reconciled).Values - Worn(committed, reconciled).Values == c.wallet;
  }

  /** An unauthorised sender, or a locked character, is stopped by the first call. */
  lemma {:induction false} UnauthorizedRun(c: Chain, slots: seq<Slot>, committed: Equipment, reconciled: Equipment)
    requires !Authorized(c) && slots != []
    requires forall s :: s in slots ==> s in committed || s in reconciled
    ensures Run(c, Unequips(slots, committed) + Equips(slots, reconciled)).Err?
  {
    var unequips, equips := Unequips(slots, committed), Equips(slots, reconciled);
    var first := (unequips + equips)[..1];
    UnequipsKind(slots, committed);
    EquipsKind(slots, reconciled);
    if slots[0] in committed {
      assert Unequip(slots[0]) in unequips;
    } else {
      assert Equip(slots[0], reconciled[slots[0]]) in equips;
    }
    assert first == [(unequips + equips)[0]];
    assert first[..0] == [];
    RunStopsAt(c, unequips + equips, 1);
  }

  lemma {:induction false} UnequipsKind(slots: seq<Slot>, committed: Equipment)
    ensures forall op :: op in Unequips(slots, committed) ==> op.Unequip?
    ensures forall s :: s in slots && s in committed ==> Unequip(s) in Unequips(slots, committed)
  {
    if slots != [] {
      UnequipsKind(slots[..|slots| - 1], committed);
    }
  }

  lemma {:induction false} EquipsKind(slots: seq<Slot>, pending: Equipment)
    ensures forall op :: op in Equips(slots, pending) ==> op.Equip?
    ensures forall s :: s in slots && s in pending ==> Equip(s, pending[s]) in Equips(slots, pending)
  {
    if slots != [] {
      EquipsKind(slots[..|slots| - 1], pending);
    }
  }

  lemma SaveUnauthorized(c: Chain, committed: Equipment, reconciled: Equipment)
    requires !Authorized(c) && SomethingChanges(committed, reconciled)
    ensures Run(c, SaveOps(committed, reconciled)).Err?
  {
    var changed := Changed(SLOT_KEYS, committed, reconciled);
    SlotKeysComplete();
    var s :| Emitted(committed, reconciled, s);
    assert s in changed;
    UnauthorizedRun(c, changed, committed, reconciled);
    RunConcat(c, Unequips(changed, committed) + Equips(changed, reconciled), [SaveLoadout]);
  }

  lemma ChangedSlotsAre(committed: Equipment, reconciled: Equipment)
    ensures var changed := Changed(SLOT_KEYS, committed, reconciled);
            && NoDup(changed)
            && Restrict(committed, changed) == Shed(committed, reconciled)
            && Restrict(reconciled, changed) == Worn(committed, reconciled)
  {
    SlotKeysComplete();
    ChangedNoDup(SLOT_KEYS, committed, reconciled);
    RestrictIsShed(committed, reconciled, Changed(SLOT_KEYS, committed, reconciled));
    RestrictIsWorn(committed, reconciled, Changed(SLOT_KEYS, committed, reconciled));
  }

  lemma RestrictIsShed(committed: Equipment, reconciled: Equipment, changed: seq<Slot>)
    requires forall s :: s in changed <==> Emitted(committed, reconciled, s)
    ensures Restrict(committed, changed) == Shed(committed, reconciled)
  {
  }

  lemma RestrictIsWorn(committed: Equipment, reconciled: Equipment, changed: seq<Slot>)
    requires forall s :: s in changed <==> Emitted(committed, reconciled, s)
    ensures Restrict(reconciled, changed) == Worn(committed, reconciled)
  {
  }

  lemma TargetIsReached(c: Chain, committed: Equipment, reconciled: Equipment)
    requires Mirrors(c, committed)
    ensures (c.slots - Shed(committed, reconciled).Keys) + Worn(committed, reconciled) ==
            Target(committed, reconciled)
  {
  }

  lemma EquipsAllowedAfterFreeing(c: Chain, committed: Equipment, reconciled: Equipment)
    requires Authorized(c) && Mirrors(c, committed) && SomethingChanges(committed, reconciled)
    ensures EquipsAllowed(Freed(c, Shed(committed, reconciled)), Worn(committed, reconciled)) <==>
            CallsPass(c, committed, reconciled)
  {
    var worn := Worn(committed, reconciled);
    TargetIsReached(c, committed, reconciled);
    assert forall s :: s in worn ==> worn[s] == reconciled[s];
  }

  lemma BothPhases(c: Chain, committed: Equipment, reconciled: Equipment)
    requires Authorized(c) && Mirrors(c, committed) && HandsFree(c.slots)
    ensures var changed := Changed(SLOT_KEYS, committed, reconciled);
            var freed := Freed(c, Shed(committed, reconciled));
            var result := Run(c, Unequips(changed, committed) + Equips(changed, reconciled));
            && (result.Ok? <==> EquipsAllowed(freed, Worn(committed, reconciled)))
            && (result.Ok? ==> result == Ok(Dressed(freed, Worn(committed, reconciled))))
  {
    var changed := Changed(SLOT_KEYS, committed, reconciled);
    ChangedSlotsAre(committed, reconciled);
    RunConcat(c, Unequips(changed, committed), Equips(changed, reconciled));
    UnequipPhase(c, changed, committed);
    EquipPhase(Freed(c, Shed(committed, reconciled)), changed, reconciled);
  }

  lemma DressedIsSaved(c: Chain, committed: Equipment, reconciled: Equipment)
    requires Authorized(c) && Mirrors(c, committed) && SomethingChanges(committed, reconciled)
    ensures Exec(Dressed(Freed(c, Shed(committed, reconciled)), Worn(committed, reconciled)), SaveLoadout) ==
            Ok(SavedChain(c, committed, reconciled))
  {
    TargetIsReached(c, committed, reconciled);
    ChangedEmptyIff(committed, reconciled);
  }

  lemma SaveOpsSplit(committed: Equipment, reconciled: Equipment)
    requires SomethingChanges(committed, reconciled)
    ensures var changed := Changed(SLOT_KEYS, committed, reconciled);
            SaveOps(committed, reconciled) ==
            (Unequips(changed, committed) + Equips(changed, reconciled)) + [SaveLoadout]
  {
    ChangedEmptyIff(committed, reconciled);
  }

  /** The calls as specified: they run to the end exactly when they pass, with exactly the saved chain. */
  ghost predicate CallsSettled(c: Chain, committed: Equipment, reconciled: Equipment) {
    var result := Run(c, SaveOps(committed, reconciled));
    && (result.Ok? <==> CallsPass(c, committed, reconciled))
    && (result.Ok? ==> result == Ok(SavedChain(c, committed, reconciled)))
  }

  lemma SaveAuthorized(c: Chain, committed: Equipment, reconciled: Equipment)
    requires Authorized(c) && Mirrors(c, committed) && HandsFree(c.slots)
    requires SomethingChanges(committed, reconciled)
    ensures CallsSettled(c, committed, reconciled)
  {
    var changed := Changed(SLOT_KEYS, committed, reconciled);
    BothPhases(c, committed, reconciled);
    RunSnoc(c, Unequips(changed, committed) + Equips(changed, reconciled), SaveLoadout);
    SaveOpsSplit(committed, reconciled);
    EquipsAllowedAfterFreeing(c, committed, reconciled);
    DressedIsSaved(c, committed, reconciled);
  }

  lemma CallsExact(c: Chain, committed: Equipment, reconciled: Equipment)
    requires Mirrors(c, committed) && HandsFree(c.slots)
    ensures CallsSettled(c, committed, reconciled)
  {
    if !SomethingChanges(committed, reconciled) {
      NothingChanges(c, committed, reconciled);
    } else if Authorized(c) {
      SaveAuthorized(c, committed, reconciled);
    } else {
      SaveUnauthorized(c, committed, reconciled);
    }
  }

  lemma OpsOf(committed: Equipment, reconciled: Equipment, s: Slot, item: Item)
    ensures Equip(s, item) in SaveOps(committed, reconciled) <==>
            s in Worn(committed, reconciled) && Worn(committed, reconciled)[s] == item
  {
    var changed := Changed(SLOT_KEYS, committed, reconciled);
    SlotKeysComplete();
    UnequipsKind(changed, committed);
    EquipsExactly(changed, reconciled, s, item);
  }

  lemma {:induction false} EquipsExactly(slots: seq<Slot>, pending: Equipment, s: Slot, item: Item)
    ensures Equip(s, item) in Equips(slots, pending) <==> s in slots && s in pending && pending[s] == item
  {
    if slots != [] {
      var init, last := slots[..|slots| - 1], slots[|slots| - 1];
      EquipsExactly(init, pending, s, item);
      assert s in slots <==> s in init || s == last;
    }
  }

  /** The transaction's inputs are owned exactly when everything newly worn is held beforehand. */
  lemma InputsOwnedIff(c: Chain, committed: Equipment, reconciled: Equipment)
    ensures InputsOwned(c, SaveOps(committed, reconciled)) <==> WornIsHeld(c, committed, reconciled)
  {
    var ops, worn := SaveOps(committed, reconciled), Worn(committed, reconciled);
    if InputsOwned(c, ops) {
      forall s | s in worn ensures reconciled[s] in c.wallet {
        OpsOf(committed, reconciled, s, reconciled[s]);
        var i :| 0 <= i < |ops| && ops[i] == Equip(s, reconciled[s]);
        assert ops[i].Equip?;
      }
    }
    if WornIsHeld(c, committed, reconciled) {
      forall i | 0 <= i < |ops| && ops[i].Equip? ensures ops[i].item in c.wallet {
        OpsOf(committed, reconciled, ops[i].slot, ops[i].item);
        assert ops[i] in ops;
      }
    }
  }

  lemma AllowedIff(c: Chain, committed: Equipment, reconciled: Equipment)
    ensures SaveAllowed(c, committed, reconciled) <==>
            CallsPass(c, committed, reconciled) && WornIsHeld(c, committed, reconciled)
  {
    assert forall s :: s in Worn(committed, reconciled) ==> Emitted(committed, reconciled, s);
  }

  /** The save goes through exactly when it is allowed, and then leaves exactly the target loadout. */
  lemma SaveExact(c: Chain, committed: Equipment, pending: Equipment)
    requires Mirrors(c, committed) && Sound(c) && HandsFree(c.slots)
    ensures var reconciled := Reconcile(pending);
            var result := Submit(c, SaveOps(committed, reconciled));
            && (result.Ok? <==> SaveAllowed(c, committed, reconciled))
            && (result.Ok? ==>
                  && result.value == SavedChain(c, committed, reconciled)
                  && Sound(result.value)
                  && Holdings(result.value) == Holdings(c)
                  && HandsFree(result.value.slots))
  {
    var reconciled := Reconcile(pending);
    CallsExact(c, committed, reconciled);
    InputsOwnedIff(c, committed, reconciled);
    AllowedIff(c, committed, reconciled);
    if Submit(c, SaveOps(committed, reconciled)).Ok? {
      TransactionConserves(c, SaveOps(committed, reconciled));
    }
  }

  /** Somebody's item: every newly worn item is worn or held by the sender when the save is sent. */
  ghost predicate WornExists(c: Chain, committed: Equipment, reconciled: Equipment) {
    forall s :: s in Worn(committed, reconciled) ==> reconciled[s] in Holdings(c)
  }

  /**
   * A save is refused at its inputs exactly when it would newly put on an item that a slot of the
   * character holds at the start, even if the same save takes it off there first.
   */
  lemma RefusedExactlyForWornItems(c: Chain, committed: Equipment, reconciled: Equipment)
    requires Mirrors(c, committed) && Sound(c) && HandsFree(c.slots) && WornExists(c, committed, reconciled)
    ensures Submit(c, SaveOps(committed, reconciled)) == Err(InputNotOwned) <==>
            exists s, t :: s in Worn(committed, reconciled) && t in c.slots && c.slots[t] == reconciled[s]
  {
    var worn := Worn(committed, reconciled);
    InputsOwnedIff(c, committed, reconciled);
    RunNotRefused(c, SaveOps(committed, reconciled));
    if !WornIsHeld(c, committed, reconciled) {
      var s :| s in worn && reconciled[s] !in c.wallet;
      assert reconciled[s] in c.slots.Values;
      var t :| t in c.slots && c.slots[t] == reconciled[s];
    }
  }

  /** Calls never report unowned inputs. */
  lemma {:induction false} RunNotRefused(c: Chain, ops: seq<Op>)
    ensures Run(c, ops) != Err(InputNotOwned)
  {
    if ops != [] {
      RunNotRefused(c, ops[..|ops| - 1]);
    }
  }

  // ----- Does the client's record agree with the chain afterwards? -----

  /** One id never names two different items. */
  ghost predicate SameObjects(committed: Equipment, pending: Equipment) {
    forall s :: s in committed && s in pending && committed[s].id == pending[s].id ==> committed[s] == pending[s]
  }

  /** A slot that swaps an on-chain item for an off-chain one, or the reverse. */
  ghost predicate MixedSwap(committed: Equipment, reconciled: Equipment, slot: Slot) {
    && Dirty(committed, reconciled, slot)
    && (slot in ChainPart(committed) || slot in ChainPart(reconciled))
    && Dropped(committed, reconciled, slot)
  }

  /** The target is the on-chain part of `reconciled` exactly when no slot swaps between the two kinds of item. */
  lemma TargetAgreesIff(committed: Equipment, reconciled: Equipment)
    requires SameObjects(committed, reconciled)
    ensures Target(committed, reconciled) == ChainPart(reconciled) <==>
            forall s :: !MixedSwap(committed, reconciled, s)
  {
    var target, record := Target(committed, reconciled), ChainPart(reconciled);
    if forall s :: !MixedSwap(committed, reconciled, s) {
      forall s: Slot
        ensures s in target <==> s in record
        ensures s in target ==> target[s] == record[s]
      {
        assert !MixedSwap(committed, reconciled, s);
      }
      assert target == record;
    } else {
      var s :| MixedSwap(committed, reconciled, s);
      assert s in target.Keys + record.Keys;
      assert !(s in target && s in record && target[s] == record[s]);
    }
  }

  ghost predicate AllOnChain(eq: Equipment) {
    forall s :: s in eq ==> IsOnChain(eq[s])
  }

  /** The item stays where it is, or is held before the save. */
  ghost predicate WithinReach(c: Chain, committed: Equipment, slot: Slot, item: Item) {
    item in c.wallet || (slot in committed && committed[slot] == item)
  }

  lemma SkippedEmptyIff(committed: Equipment, reconciled: Equipment)
    ensures Skipped(SLOT_KEYS, committed, reconciled) == [] <==>
            forall s :: !Dropped(committed, reconciled, s)
  {
    var skipped := Skipped(SLOT_KEYS, committed, reconciled);
    SlotKeysComplete();
    assert forall s :: Dropped(committed, reconciled, s) <==> s in skipped;
    if skipped != [] {
      assert skipped[0] in skipped;
    }
  }

  lemma NothingSkipped(committed: Equipment, reconciled: Equipment)
    requires AllOnChain(committed) && AllOnChain(reconciled) && SameObjects(committed, reconciled)
    ensures Skipped(SLOT_KEYS, committed, reconciled) == []
    ensures Target(committed, reconciled) == reconciled
  {
    forall s ensures !Dropped(committed, reconciled, s) {
    }
    SkippedEmptyIff(committed, reconciled);
    TargetAgreesIff(committed, reconciled);
    assert ChainPart(reconciled) == reconciled;
  }

  /**
   * The headline case: with every item on chain, a save by the owner of an unlocked character,
   * of fitting items that are each worn once and either stay put or are held, lands exactly on the
   * reconciled loadout; nothing is left out and no off-hand rule can stop it.
   */
  lemma SaveLandsOnReconciled(c: Chain, committed: Equipment, pending: Equipment)
    requires Mirrors(c, committed) && Sound(c) && HandsFree(c.slots) && Authorized(c)
    requires AllOnChain(committed) && AllOnChain(Reconcile(pending))
    requires SameObjects(committed, Reconcile(pending)) && DistinctItems(Reconcile(pending))
    requires forall s :: s in Reconcile(pending) ==>
      Fits(s, pending[s], c.level) && WithinReach(c, committed, s, pending[s])
    ensures Skipped(SLOT_KEYS, committed, Reconcile(pending)) == []
    ensures var result := Submit(c, SaveOps(committed, Reconcile(pending)));
            && result.Ok?
            && result.value.slots == Reconcile(pending)
            && Sound(result.value)
            && Holdings(result.value) == Holdings(c)
  {
    var reconciled := Reconcile(pending);
    NothingSkipped(committed, reconciled);
    SaveAllowedWhenReached(c, committed, reconciled);
    SaveExact(c, committed, pending);
  }

  lemma SaveAllowedWhenReached(c: Chain, committed: Equipment, reconciled: Equipment)
    requires Authorized(c) && HandsFree(reconciled) && Target(committed, reconciled) == reconciled
    requires AllOnChain(committed) && AllOnChain(reconciled) && DistinctItems(reconciled)
    requires forall s :: s in reconciled ==> Fits(s, reconciled[s], c.level)
    requires forall s :: s in reconciled ==> WithinReach(c, committed, s, reconciled[s])
    ensures SaveAllowed(c, committed, reconciled)
  {
    assert forall s :: s in Worn(committed, reconciled) ==> s in reconciled && Dirty(committed, reconciled, s);
  }

  /** A save with nothing to change emits no call at all, not even the save marker. */
  lemma NoOpSaveIsEmpty(committed: Equipment, pending: Equipment)
    requires forall s :: IdAt(committed, s) == IdAt(pending, s)
    requires !ClearsOffhand(pending)
    ensures SaveOps(committed, Reconcile(pending)) == []
  {
    ChangedEmptyIff(committed, pending);
  }

  // ----- Saves of one change -----

  lemma TwoDiffer(slots: seq<Slot>)
    requires NoDup(slots)
    ensures |slots| >= 2 ==> slots[0] != slots[1]
  {
  }

  lemma SingleChange(committed: Equipment, reconciled: Equipment, slot: Slot)
    requires forall s :: Emitted(committed, reconciled, s) <==> s == slot
    ensures Changed(SLOT_KEYS, committed, reconciled) == [slot]
  {
    SlotKeysComplete();
    ChangedNoDup(SLOT_KEYS, committed, reconciled);
    OnlyOne(Changed(SLOT_KEYS, committed, reconciled), slot);
  }

  lemma OnlyOne(slots: seq<Slot>, slot: Slot)
    requires NoDup(slots) && forall s :: s in slots <==> s == slot
    ensures slots == [slot]
  {
    assert slot in slots;
    forall i | 0 <= i < |slots| ensures slots[i] == slot {
      assert slots[i] in slots;
    }
    TwoDiffer(slots);
  }

  lemma TwoCalls(c: Chain, first: Op, second: Op)
    ensures Run(c, [first] + [second]) ==
            match Exec(c, first)
            case Err(e) => Err(e)
            case Ok(c') => Exec(c', second)
  {
    assert [first][..0] == [];
    assert Run(c, [first]) == Exec(c, first);
    RunSnoc(c, [first], second);
  }

  lemma CallsOfOne(slot: Slot, eq: Equipment)
    ensures Unequips([slot], eq) == if slot in eq then [Unequip(slot)] else []
    ensures Equips([slot], eq) == if slot in eq then [Equip(slot, eq[slot])] else []
  {
    assert [slot][..0] == [];
  }

  /** The calls of a save that changes one slot. */
  lemma SaveOfOne(committed: Equipment, reconciled: Equipment, slot: Slot)
    requires forall s :: Emitted(committed, reconciled, s) <==> s == slot
    ensures SaveOps(committed, reconciled) ==
            (if slot in committed then [Unequip(slot)] else []) +
            (if slot in reconciled then [Equip(slot, reconciled[slot])] else []) + [SaveLoadout]
  {
    SingleChange(committed, reconciled, slot);
    CallsOfOne(slot, committed);
    CallsOfOne(slot, reconciled);
  }

  lemma SubmitHeld(c: Chain, first: Op, second: Op)
    requires InputsOwned(c, [first] + [second])
    ensures Submit(c, [first] + [second]) ==
            match Exec(c, first)
            case Err(e) => Err(e)
            case Ok(c') => Exec(c', second)
  {
    TwoCalls(c, first, second);
  }

  /** Putting one held item on an empty slot is an equip and the save marker. */
  lemma PuttingOn(c: Chain, committed: Equipment, reconciled: Equipment, slot: Slot)
    requires slot !in committed && slot in reconciled && reconciled[slot] in c.wallet
    requires forall s :: Emitted(committed, reconciled, s) <==> s == slot
    ensures SaveOps(committed, reconciled) == [Equip(slot, reconciled[slot])] + [SaveLoadout]
    ensures Submit(c, SaveOps(committed, reconciled)) ==
            match Exec(c, Equip(slot, reconciled[slot]))
            case Err(e) => Err(e)
            case Ok(c') => Exec(c', SaveLoadout)
  {
    SaveOfOne(committed, reconciled, slot);
    SubmitHeld(c, Equip(slot, reconciled[slot]), SaveLoadout);
  }

  /** Taking one item off is an unequip and the save marker; it aborts with 2 if the chain's slot is empty. */
  lemma TakingOffNothing(c: Chain, committed: Equipment, reconciled: Equipment, slot: Slot)
    requires Authorized(c) && slot !in c.slots && slot in committed && slot !in reconciled
    requires forall s :: Emitted(committed, reconciled, s) <==> s == slot
    ensures Submit(c, SaveOps(committed, reconciled)) == Err(MoveAbort(E_SLOT_EMPTY))
  {
    SaveOfOne(committed, reconciled, slot);
    assert SaveOps(committed, reconciled) == [Unequip(slot)] + [SaveLoadout];
    SubmitHeld(c, Unequip(slot), SaveLoadout);
  }

  // ----- A ring cannot change fingers in one save -----

  const RING := Item("0x00000000000000000000000000000000000000b1", Ring, Some(Mainhand), 1)
  const ON_FIRST: Equipment := map[Ring1Slot := RING]
  const ON_SECOND: Equipment := map[Ring2Slot := RING]

  /** The save takes the ring off the first finger before it puts it on the second, and is refused. */
  lemma MovedRingIsRefused(c: Chain)
    requires Mirrors(c, ON_FIRST) && Sound(c) && HandsFree(c.slots)
    ensures Submit(c, SaveOps(ON_FIRST, Reconcile(ON_SECOND))) == Err(InputNotOwned)
  {
    assert IsOnChain(RING);
    assert Emitted(ON_FIRST, ON_SECOND, Ring2Slot);
    assert Ring1Slot in c.slots && c.slots[Ring1Slot] == RING;
    assert RING in Holdings(c);
    assert Ring2Slot in Worn(ON_FIRST, ON_SECOND);
    RefusedExactlyForWornItems(c, ON_FIRST, ON_SECOND);
  }
}
