/**
 * A player, a client and the chain together: items are picked from the client's list of what the
 * wallet holds, staged, saved as transactions, and recorded. Every click is decided on a render that
 * may be older than the state it is applied to, and the list in it is as old as its last fetch.
 */
module Play {
  import opened Common
  import opened Loadout
  import opened LoadoutSave
  import opened SaveOutcomes
  import opened Staging

  /** What one render shows. */
  datatype View = View(session: Session, listed: set<Item>)

  /** All renders so far, the current one last, and the chain. */
  datatype State = State(views: seq<View>, chain: Chain)

  datatype Event = Pick(item: Item, slot: Slot) | TakeOff(slot: Slot) | Discard | SaveAll | Refetch

  /** `lag` is how many renders behind the current one the player clicked in. */
  datatype Move = Move(event: Event, lag: nat)

  function Seen(p: State, lag: nat): View
    requires p.views != []
  {
    if lag < |p.views| then p.views[|p.views| - 1 - lag] else p.views[0]
  }

  function Current(p: State): Session
    requires p.views != []
  {
    Seen(p, 0).session
  }

  /** The picker lists unlocked items of a fitting type that the render stages nowhere. */
  predicate Offered(v: View, level: nat, item: Item, slot: Slot) {
    (item in v.listed || !IsOnChain(item)) && WellTyped(slot, item, level) &&
    forall s :: s in v.session.pending ==> v.session.pending[s].id != item.id
  }

  function Transaction(s: Session): seq<Op> {
    SaveOps(s.committed, Reconcile(s.pending))
  }

  function Saved(c: Chain, s: Session): Result<Chain, Abort> {
    Submit(c, Transaction(s))
  }

  function NextSession(s: Session, seen: View, c: Chain, e: Event): Session {
    match e
    case Pick(item, slot) =>
      if Offered(seen, c.level, item, slot) then Step(s, seen.session, StageEquip(item, slot)) else s
    case TakeOff(slot) => Step(s, seen.session, StageUnequip(slot))
    case Discard => Step(s, seen.session, StageDiscard)
    case SaveAll => Step(s, seen.session, Staging.Save(Saved(c, seen.session).Ok?))
    case Refetch => s
  }

  function NextChain(c: Chain, seen: View, e: Event): Chain {
    if e.SaveAll? && Saved(c, seen.session).Ok? then Saved(c, seen.session).value else c
  }

  function Next(p: State, m: Move): (q: State)
    requires p.views != []
    ensures |q.views| == |p.views| + 1
  {
    var seen, listed := Seen(p, m.lag), Seen(p, 0).listed;
    var session := NextSession(Current(p), seen, p.chain, m.event);
    State(p.views + [View(session, if m.event.Refetch? then p.chain.wallet else listed)],
          NextChain(p.chain, seen, m.event))
  }

  function Played(p: State, moves: seq<Move>): (q: State)
    requires p.views != []
    ensures q.views != []
  {
    if moves == [] then p else Next(Played(p, moves[..|moves| - 1]), moves[|moves| - 1])
  }

  // ----- What every run keeps -----

  /** No two objects share an id, and all of them are on chain. */
  ghost predicate RealItems(items: set<Item>) {
    (forall x :: x in items ==> IsOnChain(x)) &&
    (forall x, y :: x in items && y in items && x.id == y.id ==> x == y)
  }

  /** The on-chain items of a loadout exist and sit in slots of their type. */
  ghost predicate Wearable(eq: Equipment, level: nat, items: set<Item>) {
    Typed(eq, level) && ChainPart(eq).Values <= items
  }

  ghost predicate SessionFine(s: Session, level: nat, items: set<Item>) {
    OneHanded(s) && ServerItemsCommitted(s) && Wearable(s.committed, level, items) && Wearable(s.pending, level, items)
  }

  ghost predicate ViewFine(v: View, level: nat, items: set<Item>) {
    SessionFine(v.session, level, items) && v.listed <= items
  }

  /** The owner's unlocked character. */
  ghost predicate ChainFine(c: Chain) {
    Sound(c) && Authorized(c) && HandsFree(c.slots) && RealItems(Holdings(c))
  }

  ghost predicate Ready(p: State) {
    p.views != [] && ChainFine(p.chain) &&
    forall i :: 0 <= i < |p.views| ==> ViewFine(p.views[i], p.chain.level, Holdings(p.chain))
  }

  lemma SeenIsFine(p: State, lag: nat)
    requires Ready(p)
    ensures ViewFine(Seen(p, lag), p.chain.level, Holdings(p.chain))
  {
  }

  /** A change of the pending loadout adds at most the item on its slot. */
  ghost predicate PickedFrom(pending: Equipment, before: Equipment, item: Item, slot: Slot) {
    forall t :: t in pending ==>
      (t == slot && pending[t] == item) || (t in before && pending[t] == before[t])
  }

  lemma PickedIsWearable(pending: Equipment, before: Equipment, item: Item, slot: Slot, level: nat, items: set<Item>)
    requires PickedFrom(pending, before, item, slot) && Wearable(before, level, items)
    requires WellTyped(slot, item, level) && (IsOnChain(item) ==> item in items)
    ensures Wearable(pending, level, items)
  {
    forall x | x in ChainPart(pending).Values ensures x in items {
      var t :| t in ChainPart(pending) && pending[t] == x;
      assert x == item || (t in ChainPart(before) && before[t] == x && x in ChainPart(before).Values);
    }
    forall t | t in ChainPart(pending) ensures WellTyped(t, pending[t], level) {
      assert (t == slot && pending[t] == item) || (t in ChainPart(before) && pending[t] == before[t]);
    }
  }

  lemma LessIsWearable(less: Equipment, eq: Equipment, level: nat, items: set<Item>)
    requires Wearable(eq, level, items) && forall t :: t in less ==> t in eq && less[t] == eq[t]
    ensures Wearable(less, level, items)
  {
    forall x | x in ChainPart(less).Values ensures x in items {
      var t :| t in ChainPart(less) && less[t] == x;
      assert t in ChainPart(eq) && x in ChainPart(eq).Values;
    }
    forall t | t in ChainPart(less) ensures WellTyped(t, less[t], level) {
      assert t in ChainPart(eq);
    }
  }

  lemma PickKeepsFine(s: Session, seen: View, item: Item, slot: Slot, level: nat, items: set<Item>)
    requires SessionFine(s, level, items) && ViewFine(seen, level, items) && Offered(seen, level, item, slot)
    ensures SessionFine(Step(s, seen.session, StageEquip(item, slot)), level, items)
  {
    var t := Step(s, seen.session, StageEquip(item, slot));
    StepKeepsOneHanded(s, seen.session, StageEquip(item, slot));
    StepKeepsServerItems(s, seen.session, StageEquip(item, slot));
    assert t.committed == s.committed && PickedFrom(t.pending, s.pending, item, slot);
    PickedIsWearable(t.pending, s.pending, item, slot, level, items);
  }

  lemma OtherKeepsFine(s: Session, seen: Session, action: Action, level: nat, items: set<Item>)
    requires SessionFine(s, level, items) && SessionFine(seen, level, items) && !action.StageEquip?
    ensures SessionFine(Step(s, seen, action), level, items)
  {
    StepKeepsOneHanded(s, seen, action);
    StepKeepsServerItems(s, seen, action);
    match action
    case StageUnequip(slot) => LessIsWearable(Step(s, seen, action).pending, s.pending, level, items);
    case StageDiscard =>
    case Save(_) => LessIsWearable(Reconcile(seen.pending), seen.pending, level, items);
  }

  lemma NextSessionFine(s: Session, seen: View, c: Chain, e: Event, items: set<Item>)
    requires SessionFine(s, c.level, items) && ViewFine(seen, c.level, items)
    ensures SessionFine(NextSession(s, seen, c, e), c.level, items)
  {
    match e
    case Pick(item, slot) =>
      if Offered(seen, c.level, item, slot) { PickKeepsFine(s, seen, item, slot, c.level, items); }
    case TakeOff(slot) => OtherKeepsFine(s, seen.session, StageUnequip(slot), c.level, items);
    case Discard => OtherKeepsFine(s, seen.session, StageDiscard, c.level, items);
    case SaveAll =>
      OtherKeepsFine(s, seen.session, Staging.Save(Saved(c, seen.session).Ok?), c.level, items);
    case Refetch =>
  }

  lemma NextChainFine(c: Chain, seen: View, e: Event)
    requires ChainFine(c)
    ensures ChainFine(NextChain(c, seen, e))
    ensures NextChain(c, seen, e).level == c.level && Holdings(NextChain(c, seen, e)) == Holdings(c)
  {
    if e.SaveAll? && Saved(c, seen.session).Ok? {
      TransactionConserves(c, Transaction(seen.session));
      LandedLeaves(c, seen.session.committed, Reconcile(seen.session.pending));
    }
  }

  lemma NextReady(p: State, m: Move)
    requires Ready(p)
    ensures Ready(Next(p, m))
    ensures Holdings(Next(p, m).chain) == Holdings(p.chain) && Next(p, m).chain.level == p.chain.level
  {
    SeenIsFine(p, m.lag);
    SeenIsFine(p, 0);
    NextChainFine(p.chain, Seen(p, m.lag), m.event);
    NextSessionFine(Current(p), Seen(p, m.lag), p.chain, m.event, Holdings(p.chain));
    assert p.chain.wallet <= Holdings(p.chain);
  }

  lemma {:induction false} PlayedReady(p: State, moves: seq<Move>)
    requires Ready(p)
    ensures Ready(Played(p, moves))
    decreases |moves|
  {
    if moves != [] {
      PlayedReady(p, moves[..|moves| - 1]);
      NextReady(Played(p, moves[..|moves| - 1]), moves[|moves| - 1]);
    }
  }

  // ----- How every save is decided -----

  /** One id never names two items in a session whose on-chain items exist. */
  lemma FineIsSameObjects(s: Session, level: nat, items: set<Item>)
    requires SessionFine(s, level, items) && RealItems(items)
    ensures SameObjects(s.committed, Reconcile(s.pending))
  {
    var reconciled := Reconcile(s.pending);
    forall slot | slot in s.committed && slot in reconciled && s.committed[slot].id == reconciled[slot].id
      ensures s.committed[slot] == reconciled[slot]
    {
      if IsOnChain(reconciled[slot]) {
        assert reconciled[slot] in ChainPart(s.pending).Values by { assert slot in ChainPart(s.pending); }
        assert s.committed[slot] in ChainPart(s.committed).Values by { assert slot in ChainPart(s.committed); }
      }
    }
  }

  lemma FineIsArranged(c: Chain, s: Session)
    requires ChainFine(c) && SessionFine(s, c.level, Holdings(c)) && Mirrors(c, s.committed)
    ensures Arranged(c, s.committed, Reconcile(s.pending))
  {
    var reconciled := Reconcile(s.pending);
    FineIsSameObjects(s, c.level, Holdings(c));
    LessIsWearable(reconciled, s.pending, c.level, Holdings(c));
    TargetIsFree(s, c.level);
    WornIsOnChain(s.committed, reconciled);
    forall slot | slot in Worn(s.committed, reconciled) ensures Fits(slot, reconciled[slot], c.level) {
      TypedFits(slot, reconciled, c.level);
    }
  }

  /** The save puts on an item the character wears as it starts. */
  ghost predicate PutsOnWorn(c: Chain, s: Session) {
    var worn := Worn(s.committed, Reconcile(s.pending));
    exists slot, t :: slot in worn && t in c.slots && c.slots[t] == worn[slot]
  }

  /** The save puts one item on in two slots. */
  ghost predicate PutsOnTwice(s: Session) {
    var worn := Worn(s.committed, Reconcile(s.pending));
    exists slot, t :: slot in worn && t in worn && slot != t && worn[slot] == worn[t]
  }

  lemma HeldUnlessWorn(c: Chain, s: Session)
    requires ChainFine(c) && SessionFine(s, c.level, Holdings(c))
    ensures WornIsHeld(c, s.committed, Reconcile(s.pending)) <==> !PutsOnWorn(c, s)
  {
    var reconciled := Reconcile(s.pending);
    var worn := Worn(s.committed, reconciled);
    WornIsOnChain(s.committed, reconciled);
    LessIsWearable(reconciled, s.pending, c.level, Holdings(c));
    forall slot | slot in worn ensures worn[slot] in c.wallet || PutsOnWorn(c, s) {
      assert worn[slot] in ChainPart(reconciled).Values by { assert slot in ChainPart(reconciled); }
      if worn[slot] !in c.wallet {
        var t :| t in c.slots && c.slots[t] == worn[slot];
      }
    }
  }

  /**
   * After any run of clicks in renders and lists of any age, with server-only items worn or not: a save
   * clicked in a render that shows the loadout the chain holds is refused at its inputs exactly if it
   * puts on an item the character wears, stops exactly if it otherwise puts one item on twice, and
   * otherwise lands exactly on what its calls aim at. No two-handed, type or level abort is left.
   */
  lemma EverySaveDecided(p: State, moves: seq<Move>, lag: nat)
    requires Ready(p)
    requires var q := Played(p, moves); Mirrors(q.chain, Seen(q, lag).session.committed)
    ensures var q := Played(p, moves);
            var s := Seen(q, lag).session;
            var result := Saved(q.chain, s);
            (result == Err(InputNotOwned) <==> PutsOnWorn(q.chain, s)) &&
            (result == Err(ArgumentTaken) <==> !PutsOnWorn(q.chain, s) && PutsOnTwice(s)) &&
            (result.Ok? <==> !PutsOnWorn(q.chain, s) && !PutsOnTwice(s)) &&
            (result.Ok? ==> result.value.slots == Target(s.committed, Reconcile(s.pending)) &&
                            Holdings(result.value) == Holdings(q.chain))
  {
    var q := Played(p, moves);
    var s := Seen(q, lag).session;
    PlayedReady(p, moves);
    SeenIsFine(q, lag);
    FineIsArranged(q.chain, s);
    HeldUnlessWorn(q.chain, s);
    ThreeOutcomes(q.chain, s.committed, s.pending);
    SaveExact(q.chain, s.committed, s.pending);
  }

  // ----- When the client's record stays true -----

  /** The client's record of what is worn is the chain's. */
  ghost predicate Tracks(p: State)
    requires p.views != []
  {
    Mirrors(p.chain, Current(p).committed)
  }

  /**
   * The move is a save that lands and changes something, and leaves a slot alone that the chain holds
   * otherwise than the client will record it.
   */
  ghost predicate LosesTrack(p: State, m: Move)
    requires p.views != []
  {
    var s := Seen(p, m.lag).session;
    m.event.SaveAll? && Saved(p.chain, s).Ok? && Transaction(s) != [] &&
    !UntouchedAgree(p.chain, s.committed, Reconcile(s.pending))
  }

  lemma NoCallsNoChange(c: Chain, s: Session)
    ensures Transaction(s) == [] <==> Changed(SLOT_KEYS, s.committed, Reconcile(s.pending)) == []
    ensures Transaction(s) == [] ==> Saved(c, s) == Ok(c)
  {
    if Changed(SLOT_KEYS, s.committed, Reconcile(s.pending)) != [] {
      ChangedEmptyIff(s.committed, Reconcile(s.pending));
      SaveOpsSplit(s.committed, Reconcile(s.pending));
    }
  }

  lemma StepTracksIff(p: State, m: Move)
    requires p.views != [] && Tracks(p)
    ensures Tracks(Next(p, m)) <==> !LosesTrack(p, m)
  {
    var s := Seen(p, m.lag).session;
    NoCallsNoChange(p.chain, s);
    if m.event.SaveAll? && Saved(p.chain, s).Ok? && Transaction(s) != [] {
      RecordIsTrueIff(p.chain, s.committed, Reconcile(s.pending));
      assert Current(Next(p, m)) == Session(Reconcile(s.pending), Reconcile(s.pending));
    } else {
      assert Current(Next(p, m)).committed == Current(p).committed;
    }
  }

  ghost predicate TracksAt(p: State, moves: seq<Move>, k: nat)
    requires p.views != [] && k <= |moves|
  {
    Tracks(Played(p, moves[..k]))
  }

  ghost predicate LosesAt(p: State, moves: seq<Move>, k: nat)
    requires p.views != [] && k < |moves|
  {
    LosesTrack(Played(p, moves[..k]), moves[k])
  }

  ghost predicate AlwaysTracks(p: State, moves: seq<Move>)
    requires p.views != []
  {
    forall k :: 0 <= k <= |moves| ==> TracksAt(p, moves, k)
  }

  ghost predicate NeverLoses(p: State, moves: seq<Move>)
    requires p.views != []
  {
    forall k :: 0 <= k < |moves| ==> !LosesAt(p, moves, k)
  }

  lemma PrefixOf(init: seq<Move>, m: Move, k: nat)
    requires k <= |init|
    ensures (init + [m])[..k] == init[..k] && (k < |init| ==> (init + [m])[k] == init[k])
  {
  }

  lemma SameBefore(p: State, init: seq<Move>, m: Move, k: nat)
    requires p.views != [] && k <= |init|
    ensures TracksAt(p, init + [m], k) == TracksAt(p, init, k)
    ensures k < |init| ==> LosesAt(p, init + [m], k) == LosesAt(p, init, k)
  {
    PrefixOf(init, m, k);
  }

  lemma AtTheEnd(p: State, init: seq<Move>, m: Move)
    requires p.views != []
    ensures TracksAt(p, init + [m], |init| + 1) == Tracks(Played(p, init + [m]))
    ensures LosesAt(p, init + [m], |init|) == LosesTrack(Played(p, init), m)
    ensures TracksAt(p, init, |init|) == Tracks(Played(p, init))
  {
    assert (init + [m])[..|init| + 1] == init + [m];
    assert (init + [m])[..|init|] == init && init[..|init|] == init;
  }

  lemma AlwaysTracksSnoc(p: State, init: seq<Move>, m: Move)
    requires p.views != []
    ensures AlwaysTracks(p, init + [m]) <==> AlwaysTracks(p, init) && TracksAt(p, init + [m], |init| + 1)
  {
    forall k: nat | k <= |init| ensures TracksAt(p, init + [m], k) == TracksAt(p, init, k) {
      SameBefore(p, init, m, k);
    }
  }

  lemma NeverLosesSnoc(p: State, init: seq<Move>, m: Move)
    requires p.views != []
    ensures NeverLoses(p, init + [m]) <==> NeverLoses(p, init) && !LosesAt(p, init + [m], |init|)
  {
    forall k: nat | k < |init| ensures LosesAt(p, init + [m], k) == LosesAt(p, init, k) {
      SameBefore(p, init, m, k);
    }
  }

  lemma {:induction false} PlayedSnoc(p: State, moves: seq<Move>, m: Move)
    requires p.views != []
    ensures Played(p, moves + [m]) == Next(Played(p, moves), m)
  {
    assert (moves + [m])[..|moves|] == moves;
  }

  /**
   * Over any run the client's record is the chain's in every state if and only if no save of it lands
   * while leaving alone a slot that the chain holds otherwise than the client then records it.
   */
  lemma {:induction false} RecordStaysTrueIff(p: State, moves: seq<Move>)
    requires p.views != [] && Tracks(p)
    ensures AlwaysTracks(p, moves) <==> NeverLoses(p, moves)
    decreases |moves|
  {
    if moves == [] {
      assert moves[..0] == [] && (AlwaysTracks(p, moves) <==> TracksAt(p, moves, 0));
    } else {
      var init, m := moves[..|moves| - 1], moves[|moves| - 1];
      assert moves == init + [m];
      RecordStaysTrueIff(p, init);
      AlwaysTracksSnoc(p, init, m);
      NeverLosesSnoc(p, init, m);
      PlayedSnoc(p, init, m);
      AtTheEnd(p, init, m);
      if AlwaysTracks(p, init) {
        assert TracksAt(p, init, |init|);
        StepTracksIff(Played(p, init), m);
      }
    }
  }

  /** A save from a render whose record is true leaves such a slot exactly where an on-chain item took over. */
  lemma TrueSaveLosesIff(c: Chain, s: Session)
    requires Mirrors(c, s.committed) && ServerItemsCommitted(s) && SameObjects(s.committed, Reconcile(s.pending))
    ensures !UntouchedAgree(c, s.committed, Reconcile(s.pending)) <==> exists slot :: TakesOver(s, slot)
  {
    var reconciled := Reconcile(s.pending);
    forall slot ensures !Emitted(s.committed, reconciled, slot) && !SameAt(c.slots, ChainPart(reconciled), slot) <==>
                        TakesOver(s, slot) {
      UntouchedIff(s, slot);
    }
  }

  lemma UntouchedIff(s: Session, slot: Slot)
    requires ServerItemsCommitted(s) && SameObjects(s.committed, Reconcile(s.pending))
    ensures !Emitted(s.committed, Reconcile(s.pending), slot) &&
            !SameAt(ChainPart(s.committed), ChainPart(Reconcile(s.pending)), slot) <==>
            TakesOver(s, slot)
  {
  }

  // ----- What each move does -----

  /** The move is a save that lands and has a call to make. */
  predicate LandsNow(p: State, m: Move)
    requires p.views != []
  {
    var s := Seen(p, m.lag).session;
    m.event.SaveAll? && Saved(p.chain, s).Ok? && Transaction(s) != []
  }

  /** The loadout that the last landed save of the run sent; the record at the start if none has landed. */
  function LastSent(p: State, moves: seq<Move>): Equipment
    requires p.views != []
  {
    if moves == [] then Current(p).committed
    else
      var q, m := Played(p, moves[..|moves| - 1]), moves[|moves| - 1];
      if LandsNow(q, m) then Reconcile(Seen(q, m.lag).session.pending) else LastSent(p, moves[..|moves| - 1])
  }

  /** The wallet at the last refetch; the list at the start before the first. */
  function LastFetched(p: State, moves: seq<Move>): set<Item>
    requires p.views != []
  {
    if moves == [] then Seen(p, 0).listed
    else
      var init := moves[..|moves| - 1];
      if moves[|moves| - 1].event.Refetch? then Played(p, init).chain.wallet else LastFetched(p, init)
  }

  /**
   * One move, slot by slot. A pick does nothing unless the render lists the item, or it is server-only,
   * for a slot of its type and at the character's level, and stages it nowhere.
   */
  lemma MoveExactly(p: State, m: Move, t: Slot)
    requires p.views != []
    ensures var s, seen, after := Current(p), Seen(p, m.lag), Current(Next(p, m));
            after.committed == (if LandsNow(p, m) then Reconcile(seen.session.pending) else s.committed) &&
            ItemAt(after.pending, t) ==
              match m.event
              case Pick(item, slot) =>
                if (item in seen.listed || !IsOnChain(item)) && WellTyped(slot, item, p.chain.level) &&
                   (forall a :: a in seen.session.pending ==> seen.session.pending[a].id != item.id)
                then AfterPick(s.pending, seen.session.pending, item, slot, t) else ItemAt(s.pending, t)
              case TakeOff(slot) => AfterTakeOff(s.pending, seen.session, slot, t)
              case Discard => ItemAt(s.committed, t)
              case SaveAll =>
                if LandsNow(p, m) then ItemAt(Reconcile(seen.session.pending), t) else ItemAt(s.pending, t)
              case Refetch => ItemAt(s.pending, t)
  {
    var s, seen := Current(p), Seen(p, m.lag).session;
    assert Current(Next(p, m)) == NextSession(s, Seen(p, m.lag), p.chain, m.event);
    match m.event
    case Pick(item, slot) => PickExactly(s, seen, item, slot, t);
    case TakeOff(slot) => TakeOffExactly(s, seen, slot, t);
    case Discard =>
    case SaveAll => NoCallsNoChange(p.chain, seen);
    case Refetch =>
  }

  /** Over every run the record is what the last landed save sent, and the list what the last fetch found. */
  lemma {:induction false} RecordAndListAre(p: State, moves: seq<Move>)
    requires p.views != []
    ensures Current(Played(p, moves)).committed == LastSent(p, moves)
    ensures Seen(Played(p, moves), 0).listed == LastFetched(p, moves)
    decreases |moves|
  {
    if moves != [] {
      var init, m := moves[..|moves| - 1], moves[|moves| - 1];
      RecordAndListAre(p, init);
      MoveExactly(Played(p, init), m, WeaponSlot);
    }
  }

  lemma LastSentIsReconciled(p: State, moves: seq<Move>)
    requires p.views != [] && !ClearsOffhand(Current(p).committed)
    ensures !ClearsOffhand(LastSent(p, moves))
  {
  }

  /**
   * A discard, after any run and however old its render, leaves pending exactly what the last landed save
   * sent, or the record at the start before the first; and a save clicked then has no call to make.
   */
  lemma DiscardRestoresRecord(p: State, moves: seq<Move>, lag: nat)
    requires p.views != []
    ensures var s := Current(Played(p, moves + [Move(Discard, lag)]));
            s.pending == LastSent(p, moves) && s.committed == LastSent(p, moves) &&
            (!ClearsOffhand(Current(p).committed) ==> Transaction(s) == [])
  {
    var m, q := Move(Discard, lag), Played(p, moves);
    RecordAndListAre(p, moves);
    PlayedSnoc(p, moves, m);
    assert Current(Next(q, m)) == NextSession(Current(q), Seen(q, lag), q.chain, Discard);
    if !ClearsOffhand(Current(p).committed) {
      LastSentIsReconciled(p, moves);
      NoOpSaveIsEmpty(LastSent(p, moves), LastSent(p, moves));
    }
  }

  /** No save of the run has landed since the last refetch, and there was one. */
  predicate FetchedSince(p: State, moves: seq<Move>)
    requires p.views != []
  {
    moves != [] &&
    (moves[|moves| - 1].event.Refetch? ||
     (!LandsNow(Played(p, moves[..|moves| - 1]), moves[|moves| - 1]) && FetchedSince(p, moves[..|moves| - 1])))
  }

  /** With a refetch after every landed save the list is exactly what the wallet holds. */
  lemma {:induction false} FetchedListIsHeld(p: State, moves: seq<Move>)
    requires p.views != [] && FetchedSince(p, moves)
    ensures Seen(Played(p, moves), 0).listed == Played(p, moves).chain.wallet
    decreases |moves|
  {
    var init, m := moves[..|moves| - 1], moves[|moves| - 1];
    var q := Played(p, init);
    if !m.event.Refetch? {
      FetchedListIsHeld(p, init);
      NoCallsNoChange(q.chain, Seen(q, m.lag).session);
    }
  }

  // ----- Clicks in the current render, with an up-to-date list -----

  /** Every on-chain item is staged once, and none elsewhere than it is worn. */
  ghost predicate Settled(s: Session) {
    DistinctItems(ChainPart(s.pending)) &&
    forall a, b :: a in ChainPart(s.pending) && b in ChainPart(s.committed) && s.pending[a] == s.committed[b] ==> a == b
  }

  /** In the current render: a pick of an item the wallet holds, and no save of an item taking over. */
  ghost predicate UpToDate(p: State, m: Move)
    requires p.views != []
  {
    m.lag == 0 &&
    (m.event.Pick? && Offered(Seen(p, 0), p.chain.level, m.event.item, m.event.slot) && IsOnChain(m.event.item) ==>
       m.event.item in p.chain.wallet) &&
    (m.event.SaveAll? ==> forall slot :: !TakesOver(Current(p), slot))
  }

  ghost predicate AllUpToDate(p: State, moves: seq<Move>)
    requires p.views != []
  {
    forall k :: 0 <= k < |moves| ==> UpToDate(Played(p, moves[..k]), moves[k])
  }

  /** The record is true, and the current session is legal and settled. */
  ghost predicate InStep(p: State)
    requires p.views != []
  {
    Tracks(p) && Legal(Current(p)) && Settled(Current(p))
  }

  /** Staging an item that is neither staged nor worn. */
  lemma StagedSettled(s: Session, t: Session, item: Item, slot: Slot)
    requires Settled(s) && t.committed == s.committed && PickedFrom(t.pending, s.pending, item, slot)
    requires forall a :: a in s.pending ==> s.pending[a] != item
    requires forall b :: b in ChainPart(s.committed) ==> s.committed[b] != item
    ensures Settled(t)
  {
    var part, before := ChainPart(t.pending), ChainPart(s.pending);
    forall a | a in part ensures (a == slot && part[a] == item) || (a in before && part[a] == before[a]) { }
    forall a, b | a in part && b in part && a != b ensures part[a] != part[b] {
      assert a in before ==> before[a] == s.pending[a] && before[a] != item;
      assert b in before ==> before[b] == s.pending[b] && before[b] != item;
    }
    forall a, b | a in part && b in ChainPart(t.committed) && t.pending[a] == t.committed[b] ensures a == b {
      assert t.pending[a] != item;
    }
  }

  lemma PickSettled(s: Session, c: Chain, v: View, item: Item, slot: Slot)
    requires Settled(s) && Mirrors(c, s.committed) && Sound(c) && v.session == s && Offered(v, c.level, item, slot)
    requires IsOnChain(item) ==> item in c.wallet
    ensures Settled(Step(s, s, StageEquip(item, slot)))
  {
    var t := Step(s, s, StageEquip(item, slot));
    StagedShape(s, item, slot);
    if IsOnChain(item) {
      HeldIsNotWorn(s, c, item);
      StagedSettled(s, t, item, slot);
    } else {
      LessSettled(s, t);
    }
  }

  lemma StagedShape(s: Session, item: Item, slot: Slot)
    ensures var t := Step(s, s, StageEquip(item, slot));
            t.committed == s.committed && PickedFrom(t.pending, s.pending, item, slot) &&
            (!IsOnChain(item) ==> forall a :: a in t.pending ==> a in s.pending && t.pending[a] == s.pending[a])
  {
  }

  lemma HeldIsNotWorn(s: Session, c: Chain, item: Item)
    requires Mirrors(c, s.committed) && Sound(c) && item in c.wallet
    ensures forall b :: b in ChainPart(s.committed) ==> s.committed[b] != item
  {
    assert forall b :: b in ChainPart(s.committed) ==> b in c.slots && c.slots[b] == s.committed[b];
  }

  lemma LessSettled(s: Session, t: Session)
    requires Settled(s) && t.committed == s.committed
    requires forall a :: a in t.pending ==> a in s.pending && t.pending[a] == s.pending[a]
    ensures Settled(t)
  {
    var part, before := ChainPart(t.pending), ChainPart(s.pending);
    forall a | a in part ensures a in before && part[a] == before[a] { }
  }

  lemma SameSettled(eq: Equipment)
    requires DistinctItems(ChainPart(eq))
    ensures Settled(Session(eq, eq))
  {
    var part := ChainPart(eq);
    assert forall a :: a in part ==> part[a] == eq[a];
  }

  lemma SettledLands(c: Chain, s: Session)
    requires ChainFine(c) && SessionFine(s, c.level, Holdings(c)) && Mirrors(c, s.committed) && Settled(s) && Legal(s)
    ensures Saved(c, s).Ok? && Saved(c, s).value.slots == Target(s.committed, s.pending)
    ensures Reconcile(s.pending) == s.pending
  {
    FineIsArranged(c, s);
    HeldUnlessWorn(c, s);
    FineIsSameObjects(s, c.level, Holdings(c));
    WornIsOnChain(s.committed, s.pending);
    NotWornTwice(s);
    NotPutOnWorn(c, s);
    ThreeOutcomes(c, s.committed, s.pending);
    SaveExact(c, s.committed, s.pending);
  }

  lemma NotWornTwice(s: Session)
    requires Settled(s)
    ensures DistinctItems(Worn(s.committed, s.pending))
  {
    WornIsOnChain(s.committed, s.pending);
    var worn, part := Worn(s.committed, s.pending), ChainPart(s.pending);
    assert forall a :: a in worn ==> a in part && worn[a] == part[a];
  }

  lemma NotPutOnWorn(c: Chain, s: Session)
    requires Settled(s) && Legal(s) && Mirrors(c, s.committed)
    ensures !PutsOnWorn(c, s)
  {
    WornIsOnChain(s.committed, s.pending);
    var worn := Worn(s.committed, s.pending);
    forall a, b | a in worn && b in c.slots ensures c.slots[b] != worn[a] {
      assert a in ChainPart(s.pending) && b in ChainPart(s.committed);
      assert Dirty(s.committed, s.pending, a);
    }
  }

  lemma SavedInStep(p: State)
    requires Ready(p) && InStep(p) && UpToDate(p, Move(SaveAll, 0))
    ensures InStep(Next(p, Move(SaveAll, 0)))
  {
    var s, q := Current(p), Next(p, Move(SaveAll, 0));
    SeenIsFine(p, 0);
    SettledLands(p.chain, s);
    FineIsSameObjects(s, p.chain.level, Holdings(p.chain));
    TrueSaveLosesIff(p.chain, s);
    StepTracksIff(p, Move(SaveAll, 0));
    SameSettled(s.pending);
    assert Current(q) == s || Current(q) == Session(s.pending, s.pending);
  }

  lemma NextInStep(p: State, m: Move)
    requires Ready(p) && InStep(p) && UpToDate(p, m)
    ensures InStep(Next(p, m))
  {
    var s := Current(p);
    match m.event
    case Pick(item, slot) =>
      StepTracksIff(p, m);
      StepKeepsLegal(s, StageEquip(item, slot));
      if Offered(Seen(p, 0), p.chain.level, item, slot) { PickSettled(s, p.chain, Seen(p, 0), item, slot); }
    case TakeOff(slot) =>
      StepTracksIff(p, m);
      StepKeepsLegal(s, StageUnequip(slot));
      LessSettled(s, Step(s, s, StageUnequip(slot)));
    case Discard =>
      StepTracksIff(p, m);
      StepKeepsLegal(s, StageDiscard);
      SameSettled(s.committed);
    case SaveAll => SavedInStep(p);
    case Refetch => StepTracksIff(p, m);
  }

  /**
   * When clicks are made in the current render, picks are of items the wallet holds and no item takes
   * over a server-only one, every save of every run lands, on what its calls aim at for the pending
   * loadout; and where no item takes over, on exactly its on-chain part.
   */
  lemma {:induction false} EverySaveLands(p: State, moves: seq<Move>)
    requires Ready(p) && InStep(p) && AllUpToDate(p, moves)
    ensures var q := Played(p, moves);
            var s := Current(q);
            InStep(q) && Saved(q.chain, s).Ok? && Saved(q.chain, s).value.slots == Target(s.committed, s.pending) &&
            ((forall slot :: !TakesOver(s, slot)) ==> Saved(q.chain, s).value.slots == ChainPart(s.pending))
    decreases |moves|
  {
    var q := Played(p, moves);
    PlayedReady(p, moves);
    if moves != [] {
      var init, m := moves[..|moves| - 1], moves[|moves| - 1];
      forall k | 0 <= k < |init| ensures init[..k] == moves[..k] && init[k] == moves[k] { }
      assert AllUpToDate(p, init);
      EverySaveLands(p, init);
      PlayedReady(p, init);
      assert moves[..|moves| - 1] == init && moves[|moves| - 1] == m;
      NextInStep(Played(p, init), m);
    }
    LandsOnPending(q);
  }

  lemma LandsOnPending(q: State)
    requires Ready(q) && InStep(q)
    ensures var s := Current(q);
            Saved(q.chain, s).Ok? && Saved(q.chain, s).value.slots == Target(s.committed, s.pending) &&
            ((forall slot :: !TakesOver(s, slot)) ==> Saved(q.chain, s).value.slots == ChainPart(s.pending))
  {
    var s := Current(q);
    SeenIsFine(q, 0);
    SettledLands(q.chain, s);
    FineIsSameObjects(s, q.chain.level, Holdings(q.chain));
    TrueSaveLosesIff(q.chain, s);
    RecordIsTrueIff(q.chain, s.committed, s.pending);
  }
}
