/**
 * Saving a loadout: the client compiles a (committed, pending) pair of loadouts into
 * an ordered list of chain calls, and the chain runs that list atomically.
 */
module Loadout {
  import opened Common

  // ----- Items and slots -----

  datatype ItemType =
    Weapon | Shield | Helmet | Chest | Gloves | Boots | Belt | Ring | Necklace | Pants | Bracelets

  datatype SlotType = Mainhand | Offhand | BothHands

  /** `slotType` is None for the legacy server-only items, which have no chain object. */
  datatype Item = Item(id: string, itemType: ItemType, slotType: Option<SlotType>, levelReq: nat)

  datatype Slot =
    WeaponSlot | OffhandSlot | HelmetSlot | ChestSlot | GlovesSlot | BootsSlot | BeltSlot
    | Ring1Slot | Ring2Slot | Ring3Slot | NecklaceSlot | PantsSlot | BraceletsSlot

  /** The canonical order in which slots are walked. */
  const SLOT_KEYS: seq<Slot> :=
    [WeaponSlot, OffhandSlot, HelmetSlot, ChestSlot, GlovesSlot, BootsSlot, BeltSlot,
     Ring1Slot, Ring2Slot, Ring3Slot, NecklaceSlot, PantsSlot, BraceletsSlot]

  /** A slot outside the domain is empty. */
  type Equipment = map<Slot, Item>

  const ON_CHAIN_ID_LENGTH := 42

  predicate IsOnChain(item: Item) {
    "0x" <= item.id && |item.id| >= ON_CHAIN_ID_LENGTH
  }

  predicate IsTwoHanded(item: Item) {
    item.itemType == Weapon && item.slotType == Some(BothHands)
  }

  function IdAt(eq: Equipment, slot: Slot): Option<string> {
    if slot in eq then Some(eq[slot].id) else None
  }

  predicate OnChainOrEmpty(eq: Equipment, slot: Slot) {
    slot in eq ==> IsOnChain(eq[slot])
  }

  /** The part of a loadout the chain knows about. */
  function ChainPart(eq: Equipment): Equipment {
    map slot | slot in eq && IsOnChain(eq[slot]) :: eq[slot]
  }

  /** The cross-slot rule: a two-handed weapon reserves the off hand. */
  predicate HandsFree(eq: Equipment) {
    !(WeaponSlot in eq && eq[WeaponSlot].slotType == Some(BothHands) && OffhandSlot in eq)
  }

  // ----- The builder -----

  datatype Op = Unequip(slot: Slot) | Equip(slot: Slot, item: Item) | SaveLoadout

  predicate ClearsOffhand(pending: Equipment) {
    WeaponSlot in pending && IsTwoHanded(pending[WeaponSlot]) && OffhandSlot in pending
  }

  function Reconcile(pending: Equipment): Equipment {
    if ClearsOffhand(pending) then pending - {OffhandSlot} else pending
  }

  predicate Dirty(committed: Equipment, pending: Equipment, slot: Slot) {
    IdAt(committed, slot) != IdAt(pending, slot)
  }

  predicate Emitted(committed: Equipment, pending: Equipment, slot: Slot) {
    Dirty(committed, pending, slot) && OnChainOrEmpty(committed, slot) && OnChainOrEmpty(pending, slot)
  }

  predicate Dropped(committed: Equipment, pending: Equipment, slot: Slot) {
    Dirty(committed, pending, slot) && !Emitted(committed, pending, slot)
  }

  function Changed(keys: seq<Slot>, committed: Equipment, pending: Equipment): (r: seq<Slot>)
    ensures forall s :: s in r <==> s in keys && Emitted(committed, pending, s)
  {
    if keys == [] then [] else
      var last := keys[|keys| - 1];
      Changed(keys[..|keys| - 1], committed, pending) +
      if Emitted(committed, pending, last) then [last] else []
  }

  /** The changed slots are in the canonical order: each is one of the keys, and they come as the keys do. */
  lemma {:induction false} ChangedInOrder(keys: seq<Slot>, committed: Equipment, pending: Equipment)
    ensures IsSubsequence(Changed(keys, committed, pending), keys)
    decreases |keys|
  {
    if keys != [] {
      var init, last := keys[..|keys| - 1], keys[|keys| - 1];
      var changed := Changed(keys, committed, pending);
      ChangedInOrder(init, committed, pending);
      if Emitted(committed, pending, last) {
        assert changed[..|changed| - 1] == Changed(init, committed, pending);
      } else {
        assert changed == Changed(init, committed, pending);
      }
    }
  }

  /** All of the first comes in the second, in the same order. */
  predicate IsSubsequence(a: seq<Slot>, b: seq<Slot>)
    decreases |b|
  {
    a == [] ||
    (b != [] &&
     (IsSubsequence(a, b[..|b| - 1]) ||
      (a[|a| - 1] == b[|b| - 1] && IsSubsequence(a[..|a| - 1], b[..|b| - 1]))))
  }

  function Skipped(keys: seq<Slot>, committed: Equipment, pending: Equipment): (r: seq<Slot>)
    ensures forall s :: s in r <==> s in keys && Dropped(committed, pending, s)
  {
    if keys == [] then [] else
      var last := keys[|keys| - 1];
      Skipped(keys[..|keys| - 1], committed, pending) +
      if Dropped(committed, pending, last) then [last] else []
  }

  function Unequips(slots: seq<Slot>, committed: Equipment): seq<Op> {
    if slots == [] then [] else
      var last := slots[|slots| - 1];
      Unequips(slots[..|slots| - 1], committed) + if last in committed then [Unequip(last)] else []
  }

  function Equips(slots: seq<Slot>, pending: Equipment): seq<Op> {
    if slots == [] then [] else
      var last := slots[|slots| - 1];
      Equips(slots[..|slots| - 1], pending) + if last in pending then [Equip(last, pending[last])] else []
  }

  /** Every unequip, then every equip, then the save marker; nothing when no slot changed. */
  function SaveOps(committed: Equipment, reconciled: Equipment): seq<Op> {
    var changed := Changed(SLOT_KEYS, committed, reconciled);
    Unequips(changed, committed) + Equips(changed, reconciled) + if changed == [] then [] else [SaveLoadout]
  }

  datatype SaveBuild = SaveBuild(
    ops: seq<Op>,
    changedSlots: seq<Slot>,
    skippedNonChainSlots: seq<Slot>,
    reconciledPending: Equipment,
    offhandAutoCleared: bool)

  datatype SlotOp = SlotOp(slot: Slot, needsUnequip: bool, equipItem: Option<Item>)

  function SlotOpFor(committed: Equipment, pending: Equipment, slot: Slot): SlotOp {
    SlotOp(slot, slot in committed, if slot in pending then Some(pending[slot]) else None)
  }

  method CollectSlotOps(keys: seq<Slot>, committed: Equipment, pending: Equipment)
    returns (slotOps: seq<SlotOp>, skipped: seq<Slot>)
    ensures skipped == Skipped(keys, committed, pending)
    ensures |slotOps| == |Changed(keys, committed, pending)|
    ensures forall i :: 0 <= i < |slotOps| ==>
      slotOps[i] == SlotOpFor(committed, pending, Changed(keys, committed, pending)[i])
  {
    slotOps, skipped := [], [];
    ghost var changed: seq<Slot> := [];
    for k := 0 to |keys|
      invariant changed == Changed(keys[..k], committed, pending)
      invariant skipped == Skipped(keys[..k], committed, pending)
      invariant |slotOps| == |changed|
      invariant forall i :: 0 <= i < |changed| ==> slotOps[i] == SlotOpFor(committed, pending, changed[i])
    {
      var slot := keys[k];
      assert keys[..k + 1][..k] == keys[..k];
      if IdAt(committed, slot) != IdAt(pending, slot) {
        if !OnChainOrEmpty(committed, slot) || !OnChainOrEmpty(pending, slot) {
          skipped := skipped + [slot];
        } else {
          slotOps := slotOps + [SlotOpFor(committed, pending, slot)];
          changed := changed + [slot];
        }
      }
    }
    assert keys[..|keys|] == keys;
  }

  method EmitUnequips(slotOps: seq<SlotOp>, ghost slots: seq<Slot>, ghost committed: Equipment)
    returns (ops: seq<Op>)
    requires |slotOps| == |slots|
    requires forall i :: 0 <= i < |slots| ==>
      slotOps[i].slot == slots[i] && slotOps[i].needsUnequip == (slots[i] in committed)
    ensures ops == Unequips(slots, committed)
  {
    ops := [];
    for k := 0 to |slotOps|
      invariant ops == Unequips(slots[..k], committed)
    {
      assert slots[..k + 1][..k] == slots[..k];
      if slotOps[k].needsUnequip {
        ops := ops + [Unequip(slotOps[k].slot)];
      }
    }
    assert slots[..|slots|] == slots;
  }

  method EmitEquips(slotOps: seq<SlotOp>, ghost slots: seq<Slot>, ghost pending: Equipment)
    returns (ops: seq<Op>)
    requires |slotOps| == |slots|
    requires forall i :: 0 <= i < |slots| ==>
      slotOps[i].slot == slots[i] &&
      slotOps[i].equipItem == if slots[i] in pending then Some(pending[slots[i]]) else None
    ensures ops == Equips(slots, pending)
  {
    ops := [];
    for k := 0 to |slotOps|
      invariant ops == Equips(slots[..k], pending)
    {
      assert slots[..k + 1][..k] == slots[..k];
      if slotOps[k].equipItem.Some? {
        ops := ops + [Equip(slotOps[k].slot, slotOps[k].equipItem.value)];
      }
    }
    assert slots[..|slots|] == slots;
  }

  method BuildSaveLoadoutTx(committed: Equipment, pending: Equipment) returns (r: SaveBuild)
    ensures r.reconciledPending == Reconcile(pending)
    ensures r.offhandAutoCleared == ClearsOffhand(pending)
    ensures r.changedSlots == Changed(SLOT_KEYS, committed, r.reconciledPending)
    ensures r.skippedNonChainSlots == Skipped(SLOT_KEYS, committed, r.reconciledPending)
    ensures r.ops == SaveOps(committed, r.reconciledPending)
  {
    var reconciled, autoCleared := pending, false;
    if WeaponSlot in pending && IsTwoHanded(pending[WeaponSlot]) && OffhandSlot in pending {
      reconciled, autoCleared := pending - {OffhandSlot}, true;
    }
    var slotOps, skipped := CollectSlotOps(SLOT_KEYS, committed, reconciled);
    ghost var slots := Changed(SLOT_KEYS, committed, reconciled);
    var unequips := EmitUnequips(slotOps, slots, committed);
    var equips := EmitEquips(slotOps, slots, reconciled);
    var changed := seq(|slotOps|, i requires 0 <= i < |slotOps| => slotOps[i].slot);
    assert changed == slots;
    var ops := unequips + equips;
    if |changed| > 0 {
      ops := ops + [SaveLoadout];
    }
    r := SaveBuild(ops, changed, skipped, reconciled, autoCleared);
  }

  // ----- The chain -----

  const E_WRONG_ITEM_TYPE := 0
  const E_SLOT_OCCUPIED := 1
  const E_SLOT_EMPTY := 2
  const E_LEVEL_TOO_LOW := 3
  const E_NOT_OWNER := 4
  const E_FIGHT_LOCKED := 5
  const E_OFFHAND_OCCUPIED := 6
  const E_WEAPON_IS_TWO_HANDED := 7
  const E_ITEM_NOT_MAINHAND := 8
  const E_ITEM_NOT_OFFHAND := 9

  /**
   * `InputNotOwned` refuses a transaction before its first call; `ArgumentTaken` stops one at a call
   * whose item an earlier call has consumed.
   */
  datatype Abort = InputNotOwned | ArgumentTaken | MoveAbort(code: nat)

  /** A character with its slots, and the items the transaction's sender holds. */
  datatype Chain = Chain(
    owner: string, sender: string, locked: bool, level: nat,
    version: nat, slots: Equipment, wallet: set<Item>)

  function WantedType(slot: Slot): ItemType {
    match slot
    case WeaponSlot => Weapon
    case OffhandSlot => Shield
    case HelmetSlot => Helmet
    case ChestSlot => Chest
    case GlovesSlot => Gloves
    case BootsSlot => Boots
    case BeltSlot => Belt
    case Ring1Slot => Ring
    case Ring2Slot => Ring
    case Ring3Slot => Ring
    case NecklaceSlot => Necklace
    case PantsSlot => Pants
    case BraceletsSlot => Bracelets
  }

  /** The off hand also takes a weapon. */
  predicate TypeAccepted(slot: Slot, item: Item) {
    item.itemType == WantedType(slot) || (slot == OffhandSlot && item.itemType == Weapon)
  }

  /** The guards of an equip call, in the order the chain asserts them; None when all pass. */
  function EquipGuard(c: Chain, slot: Slot, item: Item): Option<Abort> {
    if item !in c.wallet then Some(ArgumentTaken)
    else if c.owner != c.sender then Some(MoveAbort(E_NOT_OWNER))
    else if c.locked then Some(MoveAbort(E_FIGHT_LOCKED))
    else if !TypeAccepted(slot, item) then Some(MoveAbort(E_WRONG_ITEM_TYPE))
    else if item.levelReq > c.level then Some(MoveAbort(E_LEVEL_TOO_LOW))
    else if slot == WeaponSlot && item.slotType !in {Some(Mainhand), Some(BothHands)} then
      Some(MoveAbort(E_ITEM_NOT_MAINHAND))
    else if slot == WeaponSlot && item.slotType == Some(BothHands) && OffhandSlot in c.slots then
      Some(MoveAbort(E_OFFHAND_OCCUPIED))
    else if slot == OffhandSlot && item.slotType == Some(BothHands) then Some(MoveAbort(E_ITEM_NOT_OFFHAND))
    else if slot == OffhandSlot && item.itemType == Shield && item.slotType != Some(Offhand) then
      Some(MoveAbort(E_ITEM_NOT_OFFHAND))
    else if slot == OffhandSlot && WeaponSlot in c.slots && c.slots[WeaponSlot].slotType == Some(BothHands) then
      Some(MoveAbort(E_WEAPON_IS_TWO_HANDED))
    else if slot in c.slots then Some(MoveAbort(E_SLOT_OCCUPIED))
    else None
  }

  function Exec(c: Chain, op: Op): Result<Chain, Abort> {
    match op
    case Unequip(slot) =>
      if c.owner != c.sender then Err(MoveAbort(E_NOT_OWNER))
      else if c.locked then Err(MoveAbort(E_FIGHT_LOCKED))
      else if slot !in c.slots then Err(MoveAbort(E_SLOT_EMPTY))
      else Ok(c.(slots := c.slots - {slot}, wallet := c.wallet + {c.slots[slot]}))
    case Equip(slot, item) =>
      (match EquipGuard(c, slot, item)
       case Some(abort) => Err(abort)
       case None => Ok(c.(slots := c.slots[slot := item], wallet := c.wallet - {item})))
    case SaveLoadout =>
      if c.owner != c.sender then Err(MoveAbort(E_NOT_OWNER))
      else Ok(c.(version := c.version + 1))
  }

  /**
   * Why an equip of a held item aborts: the caller does not own the character (4); it is in a fight (5); the
   * item is of another type (0) or for a higher level (3); it is not a main-hand weapon (8) or not for the off
   * hand (9); a two-handed weapon meets a filled off hand (6), or an off-hand item a two-handed weapon (7);
   * or the slot is filled (1). The first that holds is reported.
   */
  lemma EquipAborts(c: Chain, slot: Slot, item: Item)
    requires item in c.wallet
    ensures var r := Exec(c, Equip(slot, item));
            var owned, unlocked := c.owner == c.sender, c.owner == c.sender && !c.locked;
            var typed := unlocked && TypeAccepted(slot, item);
            var leveled := typed && item.levelReq <= c.level;
            var bothHands := item.slotType == Some(BothHands);
            var main := slot == WeaponSlot ==> bothHands || item.slotType == Some(Mainhand);
            var off := slot == OffhandSlot ==>
                         !bothHands && (item.itemType == Shield ==> item.slotType == Some(Offhand));
            var clash := slot == WeaponSlot && bothHands && OffhandSlot in c.slots;
            var reserved := slot == OffhandSlot && WeaponSlot in c.slots &&
                            c.slots[WeaponSlot].slotType == Some(BothHands);
            (r == Err(MoveAbort(4)) <==> !owned) && (r == Err(MoveAbort(5)) <==> owned && c.locked) &&
            (r == Err(MoveAbort(0)) <==> unlocked && !TypeAccepted(slot, item)) &&
            (r == Err(MoveAbort(3)) <==> typed && item.levelReq > c.level) &&
            (r == Err(MoveAbort(8)) <==> leveled && !main) && (r == Err(MoveAbort(9)) <==> leveled && !off) &&
            (r == Err(MoveAbort(6)) <==> leveled && main && clash) &&
            (r == Err(MoveAbort(7)) <==> leveled && off && reserved) &&
            (r == Err(MoveAbort(1)) <==> leveled && main && off && !clash && !reserved && slot in c.slots) &&
            (r.Ok? <==> leveled && main && off && !clash && !reserved && slot !in c.slots)
  {
  }

  /** Why taking off aborts: not the owner's (4), in a fight (5), nothing there (2); the marker only for the first. */
  lemma UnequipAborts(c: Chain, slot: Slot)
    ensures var r := Exec(c, Unequip(slot));
            (r == Err(MoveAbort(4)) <==> c.owner != c.sender) &&
            (r == Err(MoveAbort(5)) <==> c.owner == c.sender && c.locked) &&
            (r == Err(MoveAbort(2)) <==> c.owner == c.sender && !c.locked && slot !in c.slots) &&
            (r.Ok? <==> c.owner == c.sender && !c.locked && slot in c.slots)
    ensures var r := Exec(c, SaveLoadout);
            if c.owner == c.sender then r == Ok(c.(version := c.version + 1)) else r == Err(MoveAbort(4))
  {
  }

  // ----- What the inventory offers -----

  /** The client's own table of item types by slot. */
  function SlotToItemTypes(slot: Slot): set<ItemType> {
    match slot
    case WeaponSlot => {Weapon}
    case OffhandSlot => {Shield, Weapon}
    case HelmetSlot => {Helmet}
    case ChestSlot => {Chest}
    case GlovesSlot => {Gloves}
    case BootsSlot => {Boots}
    case BeltSlot => {Belt}
    case Ring1Slot => {Ring}
    case Ring2Slot => {Ring}
    case Ring3Slot => {Ring}
    case NecklaceSlot => {Necklace}
    case PantsSlot => {Pants}
    case BraceletsSlot => {Bracelets}
  }

  /** The slots an item's detail view offers, in the order of the table. */
  function EquipTargets(item: Item, slots: seq<Slot>): (targets: seq<Slot>) {
    if slots == [] then []
    else
      var slot, rest := slots[|slots| - 1], EquipTargets(item, slots[..|slots| - 1]);
      if item.itemType !in SlotToItemTypes(slot) then rest
      else if item.itemType == Weapon && slot == OffhandSlot && IsTwoHanded(item) then rest
      else if item.itemType == Weapon && slot == WeaponSlot && item.slotType == Some(Offhand) then rest
      else rest + [slot]
  }

  /** The chain would take the item in the slot of a bare character of its level. */
  predicate ChainTakes(slot: Slot, item: Item) {
    EquipGuard(Chain("", "", false, item.levelReq, 0, map[], {item}), slot, item).None?
  }

  lemma TypesAgree(slot: Slot, item: Item)
    ensures item.itemType in SlotToItemTypes(slot) <==> TypeAccepted(slot, item)
  {
  }

  lemma {:induction false} TargetsAre(item: Item, slots: seq<Slot>, slot: Slot)
    ensures slot in EquipTargets(item, slots) <==>
              slot in slots && item.itemType in SlotToItemTypes(slot) &&
              !(item.itemType == Weapon && slot == OffhandSlot && IsTwoHanded(item)) &&
              !(item.itemType == Weapon && slot == WeaponSlot && item.slotType == Some(Offhand))
    decreases |slots|
  {
    if slots != [] {
      var init, last := slots[..|slots| - 1], slots[|slots| - 1];
      TargetsAre(item, init, slot);
      assert slot in slots <==> slot in init || slot == last;
    }
  }

  /**
   * Two tables of the client and the chain against each other: the slots the client offers for an on-chain
   * item are exactly those where the chain takes it, except for a shield that was not minted for the off
   * hand, which the client offers there and the chain refuses.
   */
  lemma OffersWhatTheChainTakes(item: Item, slot: Slot)
    requires item.slotType.Some?
    ensures slot in EquipTargets(item, SLOT_KEYS) <==>
              slot in SLOT_KEYS &&
              (ChainTakes(slot, item) ||
               (slot == OffhandSlot && item.itemType == Shield && item.slotType != Some(Offhand)))
  {
    TargetsAre(item, SLOT_KEYS, slot);
    TypesAgree(slot, item);
    EquipAborts(Chain("", "", false, item.levelReq, 0, map[], {item}), slot, item);
    match item.slotType.value
    case Mainhand =>
    case Offhand =>
    case BothHands =>
  }

  /** Runs calls in order and stops at the first abort. */
  function Run(c: Chain, ops: seq<Op>): Result<Chain, Abort> {
    if ops == [] then Ok(c) else
      match Run(c, ops[..|ops| - 1])
      case Err(e) => Err(e)
      case Ok(c') => Exec(c', ops[|ops| - 1])
  }

  /** The sender holds every item the calls are given. An item worn at the start belongs to its character. */
  predicate InputsOwned(c: Chain, ops: seq<Op>) {
    forall i :: 0 <= i < |ops| && ops[i].Equip? ==> ops[i].item in c.wallet
  }

  /** One transaction: its inputs are resolved first, then its calls run. */
  function Submit(c: Chain, ops: seq<Op>): Result<Chain, Abort> {
    if !InputsOwned(c, ops) then Err(InputNotOwned) else Run(c, ops)
  }

  /** The on-chain object; each call updates its fields in place or aborts and changes nothing. */
  class ChainCharacter {
    const owner: string
    const sender: string
    var locked: bool
    var level: nat
    var version: nat
    var slots: Equipment
    var wallet: set<Item>

    ghost function State(): Chain
      reads this
    {
      Chain(owner, sender, locked, level, version, slots, wallet)
    }

    constructor (c: Chain)
      ensures State() == c
    {
      owner, sender, locked, level := c.owner, c.sender, c.locked, c.level;
      version, slots, wallet := c.version, c.slots, c.wallet;
    }

    method Execute(op: Op) returns (abort: Option<Abort>)
      modifies this
      ensures abort.None? ==> Exec(old(State()), op) == Ok(State())
      ensures abort.Some? ==> Exec(old(State()), op) == Err(abort.value) && State() == old(State())
    {
      abort := None;
      match op {
        case Unequip(slot) =>
          if owner != sender { return Some(MoveAbort(E_NOT_OWNER)); }
          if locked { return Some(MoveAbort(E_FIGHT_LOCKED)); }
          if slot !in slots { return Some(MoveAbort(E_SLOT_EMPTY)); }
          wallet := wallet + {slots[slot]};
          slots := slots - {slot};
        case Equip(slot, item) =>
          abort := EquipGuard(Chain(owner, sender, locked, level, version, slots, wallet), slot, item);
          if abort.None? {
            slots := slots[slot := item];
            wallet := wallet - {item};
          }
        case SaveLoadout =>
          if owner != sender { return Some(MoveAbort(E_NOT_OWNER)); }
          version := version + 1;
      }
    }

    /** One transaction: its inputs are the sender's and all calls take effect, or nothing changes. */
    method ExecuteAll(ops: seq<Op>) returns (abort: Option<Abort>)
      modifies this
      ensures abort.None? ==> Submit(old(State()), ops) == Ok(State())
      ensures abort.Some? ==> Submit(old(State()), ops) == Err(abort.value) && State() == old(State())
    {
      if !InputsOwned(Chain(owner, sender, locked, level, version, slots, wallet), ops) {
        return Some(InputNotOwned);
      }
      var savedVersion, savedSlots, savedWallet, savedLocked, savedLevel := version, slots, wallet, locked, level;
      for k := 0 to |ops|
        invariant Run(old(State()), ops[..k]) == Ok(State())
      {
        assert ops[..k + 1][..k] == ops[..k];
        abort := Execute(ops[k]);
        if abort.Some? {
          RunStopsAt(old(State()), ops, k + 1);
          version, slots, wallet, locked, level := savedVersion, savedSlots, savedWallet, savedLocked, savedLevel;
          return;
        }
      }
      assert ops[..|ops|] == ops;
      abort := None;
    }
  }

  lemma RunStopsAt(c: Chain, ops: seq<Op>, k: nat)
    requires k <= |ops|
    requires Run(c, ops[..k]).Err?
    ensures Run(c, ops) == Run(c, ops[..k])
    decreases |ops|
  {
    if k < |ops| {
      var init := ops[..|ops| - 1];
      assert init[..k] == ops[..k];
      RunStopsAt(c, init, k);
    } else {
      assert ops[..k] == ops;
    }
  }

  lemma RunSnoc(c: Chain, ops: seq<Op>, op: Op)
    ensures Run(c, ops + [op]) ==
            match Run(c, ops)
            case Err(e) => Err(e)
            case Ok(c') => Exec(c', op)
  {
    assert (ops + [op])[..|ops|] == ops;
  }

  lemma RunConcat(c: Chain, a: seq<Op>, b: seq<Op>)
    ensures Run(c, a + b) ==
            match Run(c, a)
            case Err(e) => Err(e)
            case Ok(c') => Run(c', b)
  {
    if b == [] {
      assert a + b == a;
    } else {
      var init := b[..|b| - 1];
      assert (a + b)[..|a + b| - 1] == a + init;
      RunConcat(c, a, init);
    }
  }

  // ----- What every transaction keeps -----

  /** Every object is in one place: no item fills two slots, none is both worn and held. */
  ghost predicate Sound(c: Chain) {
    && (forall s, t :: s in c.slots && t in c.slots && s != t ==> c.slots[s] != c.slots[t])
    && (forall s :: s in c.slots ==> c.slots[s] !in c.wallet)
  }

  ghost function Holdings(c: Chain): set<Item> {
    c.wallet + c.slots.Values
  }

  lemma UnequipConserves(slots: Equipment, slot: Slot)
    requires slot in slots
    ensures slots.Values == (slots - {slot}).Values + {slots[slot]}
  {
    var rest := slots - {slot};
    assert rest.Values <= slots.Values by {
      forall x | x in rest.Values ensures x in slots.Values {
        var s :| s in rest && rest[s] == x;
        assert slots[s] == x;
      }
    }
    forall x | x in slots.Values ensures x in rest.Values + {slots[slot]} {
      var s :| s in slots && slots[s] == x;
      if s != slot { assert rest[s] == x; }
    }
  }

  lemma EquipConserves(slots: Equipment, slot: Slot, item: Item)
    requires slot !in slots
    ensures slots[slot := item].Values == slots.Values + {item}
  {
    var more := slots[slot := item];
    assert slot in more && more[slot] == item;
    forall x | x in slots.Values ensures x in more.Values {
      var s :| s in slots && slots[s] == x;
      assert s in more && more[s] == x;
    }
  }

  lemma ExecConserves(c: Chain, op: Op)
    requires Sound(c) && Exec(c, op).Ok?
    ensures Sound(Exec(c, op).value)
    ensures Holdings(Exec(c, op).value) == Holdings(c)
    ensures HandsFree(c.slots) ==> HandsFree(Exec(c, op).value.slots)
  {
    match op {
      case Unequip(slot) => UnequipConserves(c.slots, slot);
      case Equip(slot, item) => EquipConserves(c.slots, slot, item);
      case SaveLoadout =>
    }
  }

  lemma {:induction false} RunConserves(c: Chain, ops: seq<Op>)
    requires Sound(c) && HandsFree(c.slots) && Run(c, ops).Ok?
    ensures Sound(Run(c, ops).value)
    ensures Holdings(Run(c, ops).value) == Holdings(c)
    ensures HandsFree(Run(c, ops).value.slots)
  {
    if ops != [] {
      RunConserves(c, ops[..|ops| - 1]);
      ExecConserves(Run(c, ops[..|ops| - 1]).value, ops[|ops| - 1]);
    }
  }

  /** No transaction creates, loses or duplicates an item, or breaks the two-handed rule. */
  lemma TransactionConserves(c: Chain, ops: seq<Op>)
    requires Sound(c) && HandsFree(c.slots) && Submit(c, ops).Ok?
    ensures var after := Submit(c, ops).value;
            Sound(after) && Holdings(after) == Holdings(c) && HandsFree(after.slots)
  {
    RunConserves(c, ops);
  }
}
