/**
 * The other outcomes of a save: why one that the two-handed rule and the item rules let through can
 * still be refused, and what one leaves behind when the client's picture of the chain was out of date.
 */
module SaveOutcomes {
  import opened Common
  import opened Loadout
  import opened LoadoutSave

  // ----- Why a save is refused -----

  /** With every other rule met, an equip is stopped only for an item the batch has used already. */
  lemma GuardOnlyTaken(mid: Chain, slot: Slot, item: Item)
    requires Authorized(mid) && slot !in mid.slots && Fits(slot, item, mid.level)
    requires HandsFree(mid.slots[slot := item])
    ensures EquipGuard(mid, slot, item).None? || EquipGuard(mid, slot, item) == Some(ArgumentTaken)
  {
  }

  /** The equips of a batch end well or at an item used twice. */
  ghost predicate OkOrTaken(c: Chain, slots: seq<Slot>, pending: Equipment) {
    Run(c, Equips(slots, pending)).Ok? || Run(c, Equips(slots, pending)) == Err(ArgumentTaken)
  }

  lemma RestrictMore(pending: Equipment, init: seq<Slot>, last: Slot)
    requires last !in init
    ensures Restrict(pending, init + [last]) ==
            if last in pending then Restrict(pending, init)[last := pending[last]] else Restrict(pending, init)
    ensures last !in Restrict(pending, init)
  {
  }

  lemma OneMoreEquip(c: Chain, init: seq<Slot>, last: Slot, pending: Equipment)
    requires Authorized(c) && last !in init && last !in c.slots && last in pending
    requires EquipsSettled(c, init, pending) && OkOrTaken(c, init, pending)
    requires Fits(last, pending[last], c.level)
    requires HandsFree((c.slots + Restrict(pending, init))[last := pending[last]])
    ensures OkOrTaken(c, init + [last], pending)
  {
    var ops := Equips(init, pending);
    assert (init + [last])[..|init|] == init;
    RunSnoc(c, ops, Equip(last, pending[last]));
    if Run(c, ops).Ok? {
      GuardOnlyTaken(Dressed(c, Restrict(pending, init)), last, pending[last]);
    }
  }

  lemma {:induction false} EquipsOkOrTaken(c: Chain, slots: seq<Slot>, pending: Equipment)
    requires Authorized(c) && NoDup(slots) && HandsFree(c.slots) && forall s :: s in slots ==> s !in c.slots
    requires forall s :: s in slots && s in pending ==> Fits(s, pending[s], c.level)
    requires HandsFree(c.slots + Restrict(pending, slots))
    ensures OkOrTaken(c, slots, pending)
  {
    if slots != [] {
      var init, last := slots[..|slots| - 1], slots[|slots| - 1];
      assert slots == init + [last];
      RestrictMore(pending, init, last);
      if last in pending {
        SlotsStep(c.slots, Restrict(pending, init), last, pending[last]);
        HandsFreeSmaller(c.slots + Restrict(pending, init), last, pending[last]);
        EquipsOkOrTaken(c, init, pending);
        EquipPhase(c, init, pending);
        OneMoreEquip(c, init, last, pending);
      } else {
        EquipsOkOrTaken(c, init, pending);
        assert Equips(slots, pending) == Equips(init, pending) + [];
        assert Equips(init, pending) + [] == Equips(init, pending);
      }
    }
  }

  /** Items of a fitting type in an arrangement the two-handed rule allows, saved by the character's owner. */
  ghost predicate Arranged(c: Chain, committed: Equipment, reconciled: Equipment) {
    Authorized(c) && HandsFree(Target(committed, reconciled)) &&
    forall s :: s in Worn(committed, reconciled) ==> Fits(s, reconciled[s], c.level)
  }

  lemma FreedOkOrTaken(c: Chain, committed: Equipment, reconciled: Equipment)
    requires Mirrors(c, committed) && HandsFree(c.slots) && Arranged(c, committed, reconciled)
    ensures OkOrTaken(Freed(c, Shed(committed, reconciled)), Changed(SLOT_KEYS, committed, reconciled), reconciled)
  {
    ChangedSlotsAre(committed, reconciled);
    TargetIsReached(c, committed, reconciled);
    EquipsOkOrTaken(Freed(c, Shed(committed, reconciled)), Changed(SLOT_KEYS, committed, reconciled), reconciled);
  }

  /** The calls end at an item used twice, or well and with the character still its owner's. */
  ghost predicate EndsOrTaken(c: Chain, ops: seq<Op>) {
    match Run(c, ops)
    case Ok(d) => d.owner == d.sender
    case Err(e) => e == ArgumentTaken
  }

  lemma PhasesOkOrTaken(c: Chain, committed: Equipment, reconciled: Equipment)
    requires Mirrors(c, committed) && HandsFree(c.slots) && Arranged(c, committed, reconciled)
    ensures var changed := Changed(SLOT_KEYS, committed, reconciled);
            EndsOrTaken(c, Unequips(changed, committed) + Equips(changed, reconciled))
  {
    var changed := Changed(SLOT_KEYS, committed, reconciled);
    ChangedSlotsAre(committed, reconciled);
    UnequipPhase(c, changed, committed);
    FreedOkOrTaken(c, committed, reconciled);
    RunConcat(c, Unequips(changed, committed), Equips(changed, reconciled));
    BothPhases(c, committed, reconciled);
  }

  lemma MarkedEnds(c: Chain, ops: seq<Op>)
    requires EndsOrTaken(c, ops)
    ensures EndsOrTaken(c, ops + [SaveLoadout])
  {
    RunSnoc(c, ops, SaveLoadout);
  }

  lemma CallsOkOrTaken(c: Chain, committed: Equipment, reconciled: Equipment)
    requires Mirrors(c, committed) && HandsFree(c.slots) && Arranged(c, committed, reconciled)
    requires SomethingChanges(committed, reconciled)
    ensures EndsOrTaken(c, SaveOps(committed, reconciled))
  {
    var changed := Changed(SLOT_KEYS, committed, reconciled);
    PhasesOkOrTaken(c, committed, reconciled);
    MarkedEnds(c, Unequips(changed, committed) + Equips(changed, reconciled));
    SaveOpsSplit(committed, reconciled);
  }

  /**
   * A save of such an arrangement has exactly three outcomes. It is refused at its inputs if it puts on an item the
   * sender does not hold; otherwise it stops with an item used twice if it puts one on twice; and
   * otherwise it lands.
   */
  lemma ThreeOutcomes(c: Chain, committed: Equipment, pending: Equipment)
    requires Mirrors(c, committed) && Sound(c) && HandsFree(c.slots) && Arranged(c, committed, Reconcile(pending))
    ensures var reconciled := Reconcile(pending);
            var result := Submit(c, SaveOps(committed, reconciled));
            var held, once := WornIsHeld(c, committed, reconciled), DistinctItems(Worn(committed, reconciled));
            (result == Err(InputNotOwned) <==> !held) &&
            (result == Err(ArgumentTaken) <==> held && !once) &&
            (result.Ok? <==> held && once)
  {
    var reconciled := Reconcile(pending);
    SaveExact(c, committed, pending);
    InputsOwnedIff(c, committed, reconciled);
    RunNotRefused(c, SaveOps(committed, reconciled));
    NothingWorn(c, committed, reconciled);
    if SomethingChanges(committed, reconciled) {
      CallsOkOrTaken(c, committed, reconciled);
    }
  }

  lemma NothingWorn(c: Chain, committed: Equipment, reconciled: Equipment)
    ensures !SomethingChanges(committed, reconciled) ==>
              WornIsHeld(c, committed, reconciled) && DistinctItems(Worn(committed, reconciled))
  {
    forall s | s in Worn(committed, reconciled) ensures SomethingChanges(committed, reconciled) {
      assert Emitted(committed, reconciled, s);
    }
  }

  // ----- What a landed save leaves on any chain -----

  /** Only slots, wallet and version differ. */
  predicate SameCharacter(c: Chain, d: Chain) {
    d.owner == c.owner && d.sender == c.sender && d.locked == c.locked && d.level == c.level
  }

  lemma {:induction false} UnequipsLeave(c: Chain, slots: seq<Slot>, committed: Equipment)
    requires Run(c, Unequips(slots, committed)).Ok?
    ensures var d := Run(c, Unequips(slots, committed)).value;
            SameCharacter(c, d) && d.slots == c.slots - Restrict(committed, slots).Keys
  {
    if slots != [] {
      var init, last := slots[..|slots| - 1], slots[|slots| - 1];
      var ops := Unequips(init, committed);
      assert slots == init + [last];
      if last in committed {
        RunSnoc(c, ops, Unequip(last));
        UnequipsLeave(c, init, committed);
        assert Restrict(committed, slots).Keys == Restrict(committed, init).Keys + {last};
      } else {
        assert Unequips(slots, committed) == ops + [] == ops;
        UnequipsLeave(c, init, committed);
        assert Restrict(committed, slots).Keys == Restrict(committed, init).Keys;
      }
    }
  }

  lemma {:induction false} EquipsLeave(c: Chain, slots: seq<Slot>, pending: Equipment)
    requires NoDup(slots) && Run(c, Equips(slots, pending)).Ok?
    ensures var d := Run(c, Equips(slots, pending)).value;
            SameCharacter(c, d) && d.slots == c.slots + Restrict(pending, slots)
  {
    if slots == [] {
      assert c.slots + Restrict(pending, slots) == c.slots;
    } else {
      var init, last := slots[..|slots| - 1], slots[|slots| - 1];
      var ops := Equips(init, pending);
      assert slots == init + [last];
      RestrictMore(pending, init, last);
      if last in pending {
        RunSnoc(c, ops, Equip(last, pending[last]));
        EquipsLeave(c, init, pending);
        SlotsStep(c.slots, Restrict(pending, init), last, pending[last]);
      } else {
        assert Equips(slots, pending) == ops + [] == ops;
        EquipsLeave(c, init, pending);
      }
    }
  }

  /** Whatever the chain held: a landed save empties what it sheds, fills what it puts on and touches no more. */
  lemma LandedLeaves(c: Chain, committed: Equipment, reconciled: Equipment)
    requires Submit(c, SaveOps(committed, reconciled)).Ok?
    ensures var d := Submit(c, SaveOps(committed, reconciled)).value;
            SameCharacter(c, d) &&
            d.slots == (c.slots - Shed(committed, reconciled).Keys) + Worn(committed, reconciled)
  {
    var changed := Changed(SLOT_KEYS, committed, reconciled);
    var marker := if changed == [] then [] else [SaveLoadout];
    ChangedSlotsAre(committed, reconciled);
    RunConcat(c, Unequips(changed, committed) + Equips(changed, reconciled), marker);
    RunConcat(c, Unequips(changed, committed), Equips(changed, reconciled));
    UnequipsLeave(c, changed, committed);
    EquipsLeave(Run(c, Unequips(changed, committed)).value, changed, reconciled);
    MarkerLeaves(Run(c, Unequips(changed, committed) + Equips(changed, reconciled)).value, marker);
  }

  lemma MarkerLeaves(c: Chain, marker: seq<Op>)
    requires marker == [] || marker == [SaveLoadout]
    ensures Run(c, marker).Ok? ==> SameCharacter(c, Run(c, marker).value) && Run(c, marker).value.slots == c.slots
  {
    if marker != [] {
      assert marker[..0] == [];
      assert Run(c, marker) == Exec(c, SaveLoadout);
    }
  }

  /** Where the save emits no call for a slot, the chain already holds what the client will record there. */
  ghost predicate UntouchedAgree(c: Chain, committed: Equipment, reconciled: Equipment) {
    forall s :: !Emitted(committed, reconciled, s) ==> SameAt(c.slots, ChainPart(reconciled), s)
  }

  predicate SameAt(a: Equipment, b: Equipment, s: Slot) {
    (s in a <==> s in b) && (s in a ==> a[s] == b[s])
  }

  lemma EmittedSlotsAgree(c: Chain, committed: Equipment, reconciled: Equipment, s: Slot)
    ensures var slots := (c.slots - Shed(committed, reconciled).Keys) + Worn(committed, reconciled);
            if Emitted(committed, reconciled, s) then SameAt(slots, ChainPart(reconciled), s)
            else SameAt(slots, c.slots, s)
  {
  }

  /**
   * On any chain, whatever the client believed of it: what the client records after a landed save is
   * what the chain holds exactly if it was already so in every slot the save made no call for.
   */
  lemma RecordIsTrueIff(c: Chain, committed: Equipment, reconciled: Equipment)
    requires Submit(c, SaveOps(committed, reconciled)).Ok?
    ensures Submit(c, SaveOps(committed, reconciled)).value.slots == ChainPart(reconciled) <==>
            UntouchedAgree(c, committed, reconciled)
  {
    var slots := Submit(c, SaveOps(committed, reconciled)).value.slots;
    LandedLeaves(c, committed, reconciled);
    forall s ensures Emitted(committed, reconciled, s) ==> SameAt(slots, ChainPart(reconciled), s)
             ensures !Emitted(committed, reconciled, s) ==> SameAt(slots, c.slots, s) {
      EmittedSlotsAgree(c, committed, reconciled, s);
    }
    if UntouchedAgree(c, committed, reconciled) {
      forall s: Slot ensures SameAt(slots, ChainPart(reconciled), s) { }
      SameEverywhere(slots, ChainPart(reconciled));
    }
  }

  lemma SameEverywhere(a: Equipment, b: Equipment)
    requires forall s: Slot :: SameAt(a, b, s)
    ensures a == b
  {
    assert forall s: Slot :: s in a ==> SameAt(a, b, s);
    assert a.Keys == b.Keys by {
      forall s: Slot ensures s in a <==> s in b { assert SameAt(a, b, s); }
    }
  }
}
