/**
 * The on-chain wager: two stakes held in escrow from challenge to settlement. Each entry function is
 * given as a function from the wager's state to its effect or its abort; the class below performs
 * them in place.
 */
module Arena {
  import opened Common

  type Address = nat

  const TREASURY: Address := 0
  const U64_MAX := 0xFFFF_FFFF_FFFF_FFFF
  const PLATFORM_FEE_BPS := 500
  const BPS_BASE := 10_000
  const MATCH_EXPIRY_MS := 600_000
  const SETTLEMENT_TIMEOUT_MS := 600_000
  const CHALLENGE_TIMEOUT_MS := 300_000
  const WAGER_RESOLUTION_TIMEOUT_MS := 1_800_000
  const LEVEL_BRACKET := 1

  datatype Status = Waiting | Active | Settled | PendingApproval

  /** `lockedUntil` is when the character's fight lock runs out; 0 when it never had one. */
  datatype Character = Character(owner: Address, level: nat, lockedUntil: nat)

  datatype Wager = Wager(
    playerA: Address, playerALevel: nat, playerB: Option<Address>, stake: nat, escrow: nat,
    challengerEscrow: nat, pendingChallenger: Option<Address>, pendingAt: nat, status: Status,
    createdAt: nat, acceptedAt: nat, settledAt: nat)

  /** The contract's abort codes; `Arithmetic` is the machine's own abort on overflow. */
  datatype Abort =
    | EInvalidStake | EMatchNotWaiting | EMatchNotActive | EStakeMismatch | ENotPlayerA | EInvalidWinner
    | EMatchAlreadySettled | ECannotJoinOwnMatch | EUnauthorized | ENotExpired | ENoOpponent
    | EAlreadyHasOpenWager | ELevelOutOfBracket | ENotPendingApproval | EChallengerSlotTaken
    | ENotCreatorForApproval | ENotPendingChallenger | EChallengeNotExpired | ENotActiveForReclaim
    | EWagerNotStalled | ENotWagerParticipant | ECreatorFightLocked | ENotCharacterOwner
    | EWrongExpiryEntrypoint | Arithmetic

  datatype Payout = Payout(to: Address, amount: nat)

  datatype Effect = Effect(wager: Wager, payouts: seq<Payout>)

  // ----- The entry functions -----

  function CreateWager(sender: Address, stake: nat, character: Character, hasOpen: bool, now: nat): Result<Wager, Abort> {
    if stake == 0 then Err(EInvalidStake)
    else if character.owner != sender then Err(ENotCharacterOwner)
    else if character.lockedUntil > now then Err(ECreatorFightLocked)
    else if hasOpen then Err(EAlreadyHasOpenWager)
    else Ok(Wager(sender, character.level, None, stake, stake, 0, None, 0, Waiting, now, 0, 0))
  }

  predicate InBracket(a: nat, b: nat) {
    if b <= a then a - b <= LEVEL_BRACKET else b - a <= LEVEL_BRACKET
  }

  function RequestAccept(w: Wager, sender: Address, stake: nat, character: Character, hasOpen: bool, now: nat)
    : Result<Effect, Abort>
  {
    if w.status != Waiting then Err(EMatchNotWaiting)
    else if w.pendingChallenger.Some? then Err(EChallengerSlotTaken)
    else if hasOpen then Err(EAlreadyHasOpenWager)
    else if sender == w.playerA then Err(ECannotJoinOwnMatch)
    else if character.owner != sender then Err(ENotCharacterOwner)
    else if !InBracket(character.level, w.playerALevel) then Err(ELevelOutOfBracket)
    else if stake != w.stake then Err(EStakeMismatch)
    else if w.challengerEscrow + stake > U64_MAX then Err(Arithmetic)
    else Ok(Effect(w.(challengerEscrow := w.challengerEscrow + stake, pendingChallenger := Some(sender),
                      pendingAt := now, status := PendingApproval), []))
  }

  function Approve(w: Wager, sender: Address, now: nat): Result<Effect, Abort> {
    if w.status != PendingApproval then Err(ENotPendingApproval)
    else if sender != w.playerA then Err(ENotCreatorForApproval)
    else if w.pendingChallenger.None? then Err(ENoOpponent)
    else if w.escrow + w.challengerEscrow > U64_MAX then Err(Arithmetic)
    else Ok(Effect(w.(escrow := w.escrow + w.challengerEscrow, challengerEscrow := 0,
                      playerB := w.pendingChallenger, pendingChallenger := None, pendingAt := 0,
                      status := Active, acceptedAt := now), []))
  }

  /** Back to WAITING, with the challenger's stake returned. */
  function ReturnChallenge(w: Wager): Effect
    requires w.pendingChallenger.Some?
  {
    Effect(w.(challengerEscrow := 0, pendingChallenger := None, pendingAt := 0, status := Waiting),
           [Payout(w.pendingChallenger.value, w.challengerEscrow)])
  }

  function Decline(w: Wager, sender: Address): Result<Effect, Abort> {
    if w.status != PendingApproval then Err(ENotPendingApproval)
    else if sender != w.playerA then Err(ENotCreatorForApproval)
    else if w.pendingChallenger.None? then Err(ENoOpponent)
    else Ok(ReturnChallenge(w))
  }

  function Withdraw(w: Wager, sender: Address): Result<Effect, Abort> {
    if w.status != PendingApproval then Err(ENotPendingApproval)
    else if w.pendingChallenger.None? then Err(ENoOpponent)
    else if sender != w.pendingChallenger.value then Err(ENotPendingChallenger)
    else Ok(ReturnChallenge(w))
  }

  function CancelExpiredChallenge(w: Wager, now: nat): Result<Effect, Abort> {
    if w.status != PendingApproval then Err(ENotPendingApproval)
    else if now < w.pendingAt + CHALLENGE_TIMEOUT_MS then Err(EChallengeNotExpired)
    else if w.pendingChallenger.None? then Err(ENoOpponent)
    else Ok(ReturnChallenge(w))
  }

  /** Pays `toA` from the escrow to the creator and the rest to player B. */
  function Split(w: Wager, toA: nat, now: nat): Effect
    requires w.playerB.Some? && toA <= w.escrow
  {
    Effect(w.(escrow := 0, status := Settled, settledAt := now),
           [Payout(w.playerA, toA), Payout(w.playerB.value, w.escrow - toA)])
  }

  function RefundCreator(w: Wager, now: nat): Effect {
    Effect(w.(escrow := 0, status := Settled, settledAt := now), [Payout(w.playerA, w.escrow)])
  }

  function Settle(w: Wager, sender: Address, winner: Address, now: nat): Result<Effect, Abort> {
    if sender != TREASURY then Err(EUnauthorized)
    else if w.status != Active then Err(EMatchNotActive)
    else if w.playerB.None? then Err(ENoOpponent)
    else if winner != w.playerA && winner != w.playerB.value then Err(EInvalidWinner)
    else if w.escrow * PLATFORM_FEE_BPS > U64_MAX then Err(Arithmetic)
    else
      var fee := w.escrow * PLATFORM_FEE_BPS / BPS_BASE;
      Ok(Effect(w.(escrow := 0, status := Settled, settledAt := now),
                [Payout(TREASURY, fee), Payout(winner, w.escrow - fee)]))
  }

  function SettleTie(w: Wager, sender: Address, now: nat): Result<Effect, Abort> {
    if sender != TREASURY then Err(EUnauthorized)
    else if w.status != Active then Err(EMatchNotActive)
    else if w.playerB.None? then Err(ENoOpponent)
    else if w.escrow < w.stake then Err(Arithmetic)
    else Ok(Split(w, w.stake, now))
  }

  function Cancel(w: Wager, sender: Address, now: nat): Result<Effect, Abort> {
    if w.status != Waiting then Err(EMatchNotWaiting)
    else if sender != w.playerA then Err(ENotPlayerA)
    else Ok(RefundCreator(w, now))
  }

  function AdminCancel(w: Wager, sender: Address, now: nat): Result<Effect, Abort> {
    if sender != TREASURY then Err(EUnauthorized)
    else
      match w.status
      case Settled => Err(EMatchAlreadySettled)
      case Waiting => Ok(RefundCreator(w, now))
      case Active => if w.playerB.None? then Err(ENoOpponent) else Ok(Split(w, w.escrow / 2, now))
      case PendingApproval =>
        if w.pendingChallenger.None? then Err(ENoOpponent)
        else
          Ok(Effect(w.(escrow := 0, challengerEscrow := 0, pendingChallenger := None, pendingAt := 0,
                       status := Settled, settledAt := now),
                    [Payout(w.playerA, w.escrow), Payout(w.pendingChallenger.value, w.challengerEscrow)]))
  }

  function CancelExpiredWager(w: Wager, now: nat): Result<Effect, Abort> {
    match w.status
    case Settled => Err(EMatchAlreadySettled)
    case PendingApproval => Err(EWrongExpiryEntrypoint)
    case Waiting =>
      if now < w.createdAt + MATCH_EXPIRY_MS then Err(ENotExpired) else Ok(RefundCreator(w, now))
    case Active =>
      if now < w.acceptedAt + SETTLEMENT_TIMEOUT_MS then Err(ENotExpired)
      else if w.playerB.None? then Err(ENoOpponent)
      else Ok(Split(w, w.escrow / 2, now))
  }

  function ReclaimStalled(w: Wager, sender: Address, now: nat): Result<Effect, Abort> {
    if w.status != Active then Err(ENotActiveForReclaim)
    else if w.playerB.None? then Err(ENoOpponent)
    else if now < w.acceptedAt + WAGER_RESOLUTION_TIMEOUT_MS then Err(EWagerNotStalled)
    else if sender != w.playerA && sender != w.playerB.value then Err(ENotWagerParticipant)
    else if w.escrow < w.stake then Err(Arithmetic)
    else Ok(Split(w, w.stake, now))
  }

  /** The entry functions that act on an existing wager. */
  datatype Action =
    | DoRequestAccept(stake: nat, character: Character) | DoApprove | DoDecline | DoWithdraw
    | DoCancelExpiredChallenge | DoSettle(winner: Address) | DoSettleTie | DoCancel | DoAdminCancel
    | DoCancelExpiredWager | DoReclaim

  function Act(w: Wager, action: Action, sender: Address, hasOpen: bool, now: nat): Result<Effect, Abort> {
    match action
    case DoRequestAccept(stake, character) => RequestAccept(w, sender, stake, character, hasOpen, now)
    case DoApprove => Approve(w, sender, now)
    case DoDecline => Decline(w, sender)
    case DoWithdraw => Withdraw(w, sender)
    case DoCancelExpiredChallenge => CancelExpiredChallenge(w, now)
    case DoSettle(winner) => Settle(w, sender, winner, now)
    case DoSettleTie => SettleTie(w, sender, now)
    case DoCancel => Cancel(w, sender, now)
    case DoAdminCancel => AdminCancel(w, sender, now)
    case DoCancelExpiredWager => CancelExpiredWager(w, now)
    case DoReclaim => ReclaimStalled(w, sender, now)
  }

  // ----- What one action keeps and pays -----

  function Held(w: Wager): nat {
    w.escrow + w.challengerEscrow
  }

  function Deposit(action: Action): nat {
    if action.DoRequestAccept? then action.stake else 0
  }

  function Paid(payouts: seq<Payout>): nat {
    if payouts == [] then 0 else payouts[0].amount + Paid(payouts[1..])
  }

  function PaidTo(payouts: seq<Payout>, a: Address): nat {
    if payouts == [] then 0
    else (if payouts[0].to == a then payouts[0].amount else 0) + PaidTo(payouts[1..], a)
  }

  /** What the escrows hold, and who is in the fight, are functions of the status. */
  predicate Sound(w: Wager) {
    w.stake > 0 &&
    match w.status
    case Waiting =>
      w.escrow == w.stake && w.challengerEscrow == 0 && w.playerB.None? && w.pendingChallenger.None?
    case PendingApproval =>
      w.escrow == w.stake && w.challengerEscrow == w.stake && w.playerB.None? &&
      w.pendingChallenger.Some? && w.pendingChallenger.value != w.playerA
    case Active =>
      w.escrow == 2 * w.stake && w.challengerEscrow == 0 && w.pendingChallenger.None? &&
      w.playerB.Some? && w.playerB.value != w.playerA
    case Settled => w.escrow == 0 && w.challengerEscrow == 0 && w.pendingChallenger.None?
  }

  lemma PaidPair(a: Payout, b: Payout)
    ensures Paid([a]) == a.amount
    ensures Paid([a, b]) == a.amount + b.amount
    ensures forall x :: PaidTo([a], x) == if a.to == x then a.amount else 0
    ensures forall x :: PaidTo([a, b], x) ==
                        (if a.to == x then a.amount else 0) + (if b.to == x then b.amount else 0)
  {
    assert [a][1..] == [];
    assert [a, b][1..] == [b] && [b][1..] == [];
    assert Paid([b]) == b.amount;
    forall x ensures PaidTo([a, b], x) ==
                     (if a.to == x then a.amount else 0) + (if b.to == x then b.amount else 0) {
      assert PaidTo([b], x) == if b.to == x then b.amount else 0;
    }
  }

  /** Every action keeps the escrow rule and pays out exactly what the escrow loses. */
  lemma ActKeepsSound(w: Wager, action: Action, sender: Address, hasOpen: bool, now: nat)
    requires Sound(w) && Act(w, action, sender, hasOpen, now).Ok?
    ensures var e := Act(w, action, sender, hasOpen, now).value;
            Sound(e.wager) && e.wager.playerA == w.playerA && e.wager.stake == w.stake &&
            Held(e.wager) + Paid(e.payouts) == Held(w) + Deposit(action)
  {
    var payouts := Act(w, action, sender, hasOpen, now).value.payouts;
    if |payouts| == 1 { PaidPair(payouts[0], payouts[0]); assert payouts == [payouts[0]]; }
    if |payouts| == 2 { PaidPair(payouts[0], payouts[1]); assert payouts == [payouts[0], payouts[1]]; }
  }

  lemma SettledIsFinal(w: Wager, action: Action, sender: Address, hasOpen: bool, now: nat)
    ensures Act(w, action, sender, hasOpen, now).Ok? ==> w.status != Settled
  {
  }

  /**
   * The slot-taken, no-opponent checks are never what stops a call, and only the fee product can
   * overflow once both stakes together fit a balance.
   */
  lemma DefensiveChecksAreDead(w: Wager, action: Action, sender: Address, hasOpen: bool, now: nat)
    requires Sound(w)
    ensures var r := Act(w, action, sender, hasOpen, now);
            r.Err? ==> r.error != EChallengerSlotTaken && r.error != ENoOpponent
    ensures var r := Act(w, action, sender, hasOpen, now);
            2 * w.stake <= U64_MAX && r == Err(Arithmetic) ==>
              action.DoSettle? && w.escrow * PLATFORM_FEE_BPS > U64_MAX
  {
  }

  /**
   * Settlement goes through exactly for the treasury, on a live wager, naming one of the two
   * fighters, when the fee product fits 64 bits; it then pays out everything, 5% rounded down to the
   * treasury.
   */
  lemma SettleExactly(w: Wager, sender: Address, winner: Address, now: nat)
    requires Sound(w)
    ensures Settle(w, sender, winner, now).Ok? <==>
              (sender == TREASURY && w.status == Active && (winner == w.playerA || Some(winner) == w.playerB) &&
               w.stake * 1_000 <= U64_MAX)
    ensures Settle(w, sender, winner, now).Ok? ==>
              var payouts := Settle(w, sender, winner, now).value.payouts;
              var fee := w.stake / 10;
              Paid(payouts) == 2 * w.stake &&
              PaidTo(payouts, winner) == (2 * w.stake - fee) + (if winner == TREASURY then fee else 0) &&
              (winner != TREASURY ==> PaidTo(payouts, TREASURY) == fee)
  {
    if Settle(w, sender, winner, now).Ok? {
      var p := Settle(w, sender, winner, now).value.payouts;
      assert p == [p[0], p[1]];
      PaidPair(p[0], p[1]);
      assert 2 * w.stake * PLATFORM_FEE_BPS / BPS_BASE == w.stake / 10;
    }
  }

  /**
   * Who may do what, and when. Only the creator answers a challenge or takes an unchallenged wager back,
   * only the challenger withdraws, only the treasury settles, calls a tie or cancels at will; anyone may
   * call off what has run out, after five minutes for a challenge and ten for a wager, and either
   * fighter a fight after thirty.
   */
  predicate Permitted(w: Wager, action: Action, sender: Address, hasOpen: bool, now: nat) {
    match action
    case DoRequestAccept(stake, character) =>
      w.status == Waiting && sender != w.playerA && !hasOpen && character.owner == sender && stake == w.stake &&
      -1 <= character.level - w.playerALevel <= 1
    case DoApprove => w.status == PendingApproval && sender == w.playerA
    case DoDecline => w.status == PendingApproval && sender == w.playerA
    case DoWithdraw => w.status == PendingApproval && Some(sender) == w.pendingChallenger
    case DoCancelExpiredChallenge => w.status == PendingApproval && now >= w.pendingAt + 5 * 60_000
    case DoSettle(winner) =>
      w.status == Active && sender == TREASURY && (winner == w.playerA || Some(winner) == w.playerB) &&
      w.stake * 1_000 <= U64_MAX
    case DoSettleTie => w.status == Active && sender == TREASURY
    case DoCancel => w.status == Waiting && sender == w.playerA
    case DoAdminCancel => w.status != Settled && sender == TREASURY
    case DoCancelExpiredWager =>
      (w.status == Waiting && now >= w.createdAt + 10 * 60_000) ||
      (w.status == Active && now >= w.acceptedAt + 10 * 60_000)
    case DoReclaim =>
      w.status == Active && now >= w.acceptedAt + 30 * 60_000 && (sender == w.playerA || Some(sender) == w.playerB)
  }

  /** Each action has one place it takes a wager to. */
  function Leaves(action: Action): Status {
    match action
    case DoRequestAccept(_, _) => PendingApproval
    case DoApprove => Active
    case DoDecline => Waiting
    case DoWithdraw => Waiting
    case DoCancelExpiredChallenge => Waiting
    case _ => Settled
  }

  lemma SucceedsExactly(w: Wager, action: Action, sender: Address, hasOpen: bool, now: nat)
    requires Sound(w) && 2 * w.stake <= U64_MAX
    ensures var r := Act(w, action, sender, hasOpen, now);
            (r.Ok? <==> Permitted(w, action, sender, hasOpen, now)) &&
            (r.Ok? ==> r.value.wager.status == Leaves(action))
  {
    if action.DoSettle? { SettleExactly(w, sender, action.winner, now); }
  }

  /** What else a call writes down: who challenges and fights, and when; the terms are never touched. */
  lemma WritesExactly(w: Wager, action: Action, sender: Address, hasOpen: bool, now: nat)
    requires Sound(w) && Act(w, action, sender, hasOpen, now).Ok?
    ensures var after := Act(w, action, sender, hasOpen, now).value.wager;
            after.playerA == w.playerA && after.playerALevel == w.playerALevel && after.stake == w.stake &&
            after.createdAt == w.createdAt &&
            after.pendingChallenger == (if action.DoRequestAccept? then Some(sender) else None) &&
            (action.DoRequestAccept? ==> after.pendingAt == now) &&
            after.playerB == (if action.DoApprove? then w.pendingChallenger else w.playerB) &&
            after.acceptedAt == (if action.DoApprove? then now else w.acceptedAt) &&
            after.settledAt == (if after.status == Settled then now else w.settledAt)
  {
  }

  /** A wager is created exactly by the owner of an unlocked character without an open one, with a stake. */
  lemma CreatesExactly(sender: Address, stake: nat, character: Character, hasOpen: bool, now: nat)
    ensures CreateWager(sender, stake, character, hasOpen, now).Ok? <==>
              stake > 0 && character.owner == sender && character.lockedUntil <= now && !hasOpen
    ensures CreateWager(sender, stake, character, hasOpen, now).Ok? ==>
              var w := CreateWager(sender, stake, character, hasOpen, now).value;
              w.playerA == sender && w.playerALevel == character.level && w.stake == stake && w.createdAt == now &&
              w.status == Waiting && Sound(w)
  {
  }

  /** What stops a call that is not permitted: the status is judged first, then the caller, then the time. */
  lemma AbortsExactly(w: Wager, action: Action, sender: Address, hasOpen: bool, now: nat)
    requires Sound(w) && 2 * w.stake <= U64_MAX && !Permitted(w, action, sender, hasOpen, now)
    ensures Act(w, action, sender, hasOpen, now) ==
            Err(match action
                case DoRequestAccept(stake, character) =>
                  if w.status != Waiting then EMatchNotWaiting
                  else if hasOpen then EAlreadyHasOpenWager
                  else if sender == w.playerA then ECannotJoinOwnMatch
                  else if character.owner != sender then ENotCharacterOwner
                  else if stake != w.stake && -1 <= character.level - w.playerALevel <= 1 then EStakeMismatch
                  else ELevelOutOfBracket
                case DoApprove => if w.status == PendingApproval then ENotCreatorForApproval else ENotPendingApproval
                case DoDecline => if w.status == PendingApproval then ENotCreatorForApproval else ENotPendingApproval
                case DoWithdraw => if w.status == PendingApproval then ENotPendingChallenger else ENotPendingApproval
                case DoCancelExpiredChallenge =>
                  if w.status == PendingApproval then EChallengeNotExpired else ENotPendingApproval
                case DoSettle(winner) =>
                  if sender != TREASURY then EUnauthorized
                  else if w.status != Active then EMatchNotActive
                  else if winner == w.playerA || Some(winner) == w.playerB then Arithmetic
                  else EInvalidWinner
                case DoSettleTie => if sender == TREASURY then EMatchNotActive else EUnauthorized
                case DoCancel => if w.status == Waiting then ENotPlayerA else EMatchNotWaiting
                case DoAdminCancel => if sender == TREASURY then EMatchAlreadySettled else EUnauthorized
                case DoCancelExpiredWager =>
                  (match w.status
                   case Settled => EMatchAlreadySettled
                   case PendingApproval => EWrongExpiryEntrypoint
                   case _ => ENotExpired)
                case DoReclaim =>
                  if w.status != Active then ENotActiveForReclaim
                  else if now < w.acceptedAt + 30 * 60_000 then EWagerNotStalled
                  else ENotWagerParticipant)
  {
    SucceedsExactly(w, action, sender, hasOpen, now);
    if action.DoSettle? { assert w.status == Active ==> w.escrow * 500 == w.stake * 1_000; }
  }

  /** The stake each account has in a wager that is not settled. */
  function StakeIn(w: Wager, a: Address): nat {
    if w.status == Settled then 0
    else if a == w.playerA || Some(a) == w.playerB || Some(a) == w.pendingChallenger then w.stake
    else 0
  }

  /** Except by settlement, money only ever goes back to whoever staked it, and in full. */
  lemma OnlySettlementMovesMoney(w: Wager, action: Action, sender: Address, hasOpen: bool, now: nat, a: Address)
    requires Sound(w) && Act(w, action, sender, hasOpen, now).Ok? && !action.DoSettle?
    ensures var e := Act(w, action, sender, hasOpen, now).value;
            PaidTo(e.payouts, a) + StakeIn(e.wager, a) ==
            StakeIn(w, a) + (if a == sender then Deposit(action) else 0)
  {
    var payouts := Act(w, action, sender, hasOpen, now).value.payouts;
    if |payouts| == 1 { PaidPair(payouts[0], payouts[0]); assert payouts == [payouts[0]]; }
    if |payouts| == 2 { PaidPair(payouts[0], payouts[1]); assert payouts == [payouts[0], payouts[1]]; }
  }

  /**
   * The thirty-minute participants' reclaim adds nothing to the ten-minute expiry anyone may call:
   * wherever it goes through, the expiry does too, with the same effect. A fighter who is losing can
   * therefore call the bout off after ten minutes, not thirty.
   */
  lemma ExpirySubsumesReclaim(w: Wager, sender: Address, now: nat)
    requires Sound(w)
    ensures ReclaimStalled(w, sender, now).Ok? ==> CancelExpiredWager(w, now) == ReclaimStalled(w, sender, now)
    ensures w.status == Active ==>
              (CancelExpiredWager(w, now).Ok? <==> now >= w.acceptedAt + SETTLEMENT_TIMEOUT_MS)
  {
  }

  /**
   * Who may challenge is fixed when the wager is created: anyone else without an open wager of their
   * own, playing their own character within one level of the creator's level then, for the same stake.
   */
  lemma ChallengersMatchTheCreation(creator: Address, stake: nat, character: Character, now: nat, sender: Address,
                                    offered: nat, own: Character, hasOpen: bool, later: nat)
    requires stake <= U64_MAX && CreateWager(creator, stake, character, false, now).Ok?
    ensures var w := CreateWager(creator, stake, character, false, now).value;
            RequestAccept(w, sender, offered, own, hasOpen, later).Ok? <==>
              sender != creator && !hasOpen && own.owner == sender && offered == stake &&
              -1 <= own.level - character.level <= 1
  {
  }

  /**
   * Each deadline runs from the moment its state was entered: ten minutes from creation, five from
   * the challenge, and ten, or thirty for the participants' own reclaim, from approval.
   */
  lemma DeadlinesRunFromEntry(w: Wager, sender: Address, stake: nat, character: Character, now: nat, caller: Address,
                              later: nat)
    requires Sound(w)
    ensures CreateWager(sender, stake, character, false, now).Ok? ==>
              (CancelExpiredWager(CreateWager(sender, stake, character, false, now).value, later).Ok? <==>
                 later >= now + 10 * 60_000)
    ensures RequestAccept(w, sender, stake, character, false, now).Ok? ==>
              var pending := RequestAccept(w, sender, stake, character, false, now).value.wager;
              (CancelExpiredChallenge(pending, later).Ok? <==> later >= now + 5 * 60_000)
    ensures Approve(w, sender, now).Ok? ==>
              var active := Approve(w, sender, now).value.wager;
              (CancelExpiredWager(active, later).Ok? <==> later >= now + 10 * 60_000) &&
              (ReclaimStalled(active, caller, later).Ok? <==>
                 later >= now + 30 * 60_000 && (caller == w.playerA || Some(caller) == w.pendingChallenger))
  {
  }

  // ----- The shared objects, updated in place -----

  class OpenWagerRegistry {
    var table: map<Address, nat>

    constructor ()
      ensures table == map[]
    {
      table := map[];
    }

    method Remove(a: Address)
      modifies this
      ensures table == old(table) - {a}
    {
      if a in table {
        table := table - {a};
      }
    }
  }

  class WagerMatch {
    const playerA: Address
    const playerALevel: nat
    const stake: nat
    const createdAt: nat
    var playerB: Option<Address>
    var escrow: nat
    var challengerEscrow: nat
    var pendingChallenger: Option<Address>
    var pendingAt: nat
    var status: Status
    var acceptedAt: nat
    var settledAt: nat

    function State(): Wager
      reads this
    {
      Wager(playerA, playerALevel, playerB, stake, escrow, challengerEscrow, pendingChallenger, pendingAt,
            status, createdAt, acceptedAt, settledAt)
    }

    /** The caller has passed the guards of `create_wager`. */
    constructor (sender: Address, stakeValue: nat, character: Character, now: nat)
      requires CreateWager(sender, stakeValue, character, false, now).Ok?
      ensures State() == CreateWager(sender, stakeValue, character, false, now).value
    {
      playerA, playerALevel, stake, createdAt := sender, character.level, stakeValue, now;
      playerB, escrow, challengerEscrow, pendingChallenger := None, stakeValue, 0, None;
      pendingAt, status, acceptedAt, settledAt := 0, Waiting, 0, 0;
    }

    /** What a call must do: take the specified effect, or abort with the wager as it was. */
    ghost predicate Performs(before: Wager, r: Result<seq<Payout>, Abort>, spec: Result<Effect, Abort>)
      reads this
    {
      match spec
      case Ok(e) => r == Ok(e.payouts) && State() == e.wager
      case Err(code) => r == Err(code) && State() == before
    }

    method RequestAcceptWager(sender: Address, stakeValue: nat, character: Character,
                              registry: OpenWagerRegistry, now: nat)
      returns (r: Result<seq<Payout>, Abort>)
      modifies this
      ensures Performs(old(State()), r,
                       RequestAccept(old(State()), sender, stakeValue, character, sender in registry.table, now))
    {
      if status != Waiting { return Err(EMatchNotWaiting); }
      if pendingChallenger.Some? { return Err(EChallengerSlotTaken); }
      if sender in registry.table { return Err(EAlreadyHasOpenWager); }
      if sender == playerA { return Err(ECannotJoinOwnMatch); }
      if character.owner != sender { return Err(ENotCharacterOwner); }
      var inBracket := if character.level >= playerALevel
                       then character.level - playerALevel <= LEVEL_BRACKET
                       else playerALevel - character.level <= LEVEL_BRACKET;
      if !inBracket { return Err(ELevelOutOfBracket); }
      if stakeValue != stake { return Err(EStakeMismatch); }
      if challengerEscrow + stakeValue > U64_MAX { return Err(Arithmetic); }
      challengerEscrow := challengerEscrow + stakeValue;
      pendingChallenger := Some(sender);
      pendingAt := now;
      status := PendingApproval;
      return Ok([]);
    }

    method ApproveChallenger(sender: Address, now: nat) returns (r: Result<seq<Payout>, Abort>)
      modifies this
      ensures Performs(old(State()), r, Approve(old(State()), sender, now))
    {
      if status != PendingApproval { return Err(ENotPendingApproval); }
      if sender != playerA { return Err(ENotCreatorForApproval); }
      if pendingChallenger.None? { return Err(ENoOpponent); }
      if escrow + challengerEscrow > U64_MAX { return Err(Arithmetic); }
      var challengerBalance := challengerEscrow;
      challengerEscrow := 0;
      escrow := escrow + challengerBalance;
      playerB := pendingChallenger;
      pendingChallenger := None;
      pendingAt := 0;
      status := Active;
      acceptedAt := now;
      return Ok([]);
    }

    method ReturnChallengerStake() returns (payouts: seq<Payout>)
      requires pendingChallenger.Some?
      modifies this
      ensures Performs(old(State()), Ok(payouts), Ok(ReturnChallenge(old(State()))))
    {
      payouts := [Payout(pendingChallenger.value, challengerEscrow)];
      challengerEscrow := 0;
      pendingChallenger := None;
      pendingAt := 0;
      status := Waiting;
    }

    method DeclineChallenger(sender: Address) returns (r: Result<seq<Payout>, Abort>)
      modifies this
      ensures Performs(old(State()), r, Decline(old(State()), sender))
    {
      if status != PendingApproval { return Err(ENotPendingApproval); }
      if sender != playerA { return Err(ENotCreatorForApproval); }
      if pendingChallenger.None? { return Err(ENoOpponent); }
      var payouts := ReturnChallengerStake();
      return Ok(payouts);
    }

    method WithdrawChallenge(sender: Address) returns (r: Result<seq<Payout>, Abort>)
      modifies this
      ensures Performs(old(State()), r, Withdraw(old(State()), sender))
    {
      if status != PendingApproval { return Err(ENotPendingApproval); }
      if pendingChallenger.None? { return Err(ENoOpponent); }
      if sender != pendingChallenger.value { return Err(ENotPendingChallenger); }
      var payouts := ReturnChallengerStake();
      return Ok(payouts);
    }

    method CancelChallengeIfExpired(now: nat) returns (r: Result<seq<Payout>, Abort>)
      modifies this
      ensures Performs(old(State()), r, CancelExpiredChallenge(old(State()), now))
    {
      if status != PendingApproval { return Err(ENotPendingApproval); }
      if now < pendingAt + CHALLENGE_TIMEOUT_MS { return Err(EChallengeNotExpired); }
      if pendingChallenger.None? { return Err(ENoOpponent); }
      var payouts := ReturnChallengerStake();
      return Ok(payouts);
    }

    /** The registry entry goes with the wager's last transition. */
    method Finish(registry: OpenWagerRegistry, now: nat)
      modifies this, registry
      ensures State() == old(State()).(status := Settled, settledAt := now)
      ensures registry.table == old(registry.table) - {playerA}
    {
      status := Settled;
      settledAt := now;
      registry.Remove(playerA);
    }

    method SettleWager(sender: Address, winner: Address, registry: OpenWagerRegistry, now: nat)
      returns (r: Result<seq<Payout>, Abort>)
      modifies this, registry
      ensures Performs(old(State()), r, Settle(old(State()), sender, winner, now))
      ensures registry.table == if r.Ok? then old(registry.table) - {playerA} else old(registry.table)
    {
      if sender != TREASURY { return Err(EUnauthorized); }
      if status != Active { return Err(EMatchNotActive); }
      if playerB.None? { return Err(ENoOpponent); }
      if winner != playerA && winner != playerB.value { return Err(EInvalidWinner); }
      if escrow * PLATFORM_FEE_BPS > U64_MAX { return Err(Arithmetic); }
      var fee := escrow * PLATFORM_FEE_BPS / BPS_BASE;
      escrow := escrow - fee;
      var payouts := [Payout(TREASURY, fee), Payout(winner, escrow)];
      escrow := 0;
      Finish(registry, now);
      return Ok(payouts);
    }

    method PaySplit(toA: nat, registry: OpenWagerRegistry, now: nat) returns (payouts: seq<Payout>)
      requires playerB.Some? && toA <= escrow
      modifies this, registry
      ensures Performs(old(State()), Ok(payouts), Ok(Split(old(State()), toA, now)))
      ensures registry.table == old(registry.table) - {playerA}
    {
      escrow := escrow - toA;
      payouts := [Payout(playerA, toA), Payout(playerB.value, escrow)];
      escrow := 0;
      Finish(registry, now);
    }

    method PayCreator(registry: OpenWagerRegistry, now: nat) returns (payouts: seq<Payout>)
      modifies this, registry
      ensures Performs(old(State()), Ok(payouts), Ok(RefundCreator(old(State()), now)))
      ensures registry.table == old(registry.table) - {playerA}
    {
      payouts := [Payout(playerA, escrow)];
      escrow := 0;
      Finish(registry, now);
    }

    method SettleWagerTie(sender: Address, registry: OpenWagerRegistry, now: nat)
      returns (r: Result<seq<Payout>, Abort>)
      modifies this, registry
      ensures Performs(old(State()), r, SettleTie(old(State()), sender, now))
      ensures registry.table == if r.Ok? then old(registry.table) - {playerA} else old(registry.table)
    {
      if sender != TREASURY { return Err(EUnauthorized); }
      if status != Active { return Err(EMatchNotActive); }
      if playerB.None? { return Err(ENoOpponent); }
      if escrow < stake { return Err(Arithmetic); }
      var payouts := PaySplit(stake, registry, now);
      return Ok(payouts);
    }

    method CancelWager(sender: Address, registry: OpenWagerRegistry, now: nat)
      returns (r: Result<seq<Payout>, Abort>)
      modifies this, registry
      ensures Performs(old(State()), r, Cancel(old(State()), sender, now))
      ensures registry.table == if r.Ok? then old(registry.table) - {playerA} else old(registry.table)
    {
      if status != Waiting { return Err(EMatchNotWaiting); }
      if sender != playerA { return Err(ENotPlayerA); }
      var payouts := PayCreator(registry, now);
      return Ok(payouts);
    }

    method AdminCancelWager(sender: Address, registry: OpenWagerRegistry, now: nat)
      returns (r: Result<seq<Payout>, Abort>)
      modifies this, registry
      ensures Performs(old(State()), r, AdminCancel(old(State()), sender, now))
      ensures registry.table == if r.Ok? then old(registry.table) - {playerA} else old(registry.table)
    {
      if sender != TREASURY { return Err(EUnauthorized); }
      if status == Settled { return Err(EMatchAlreadySettled); }
      var payouts;
      if status == Waiting {
        payouts := PayCreator(registry, now);
      } else if status == Active {
        if playerB.None? { return Err(ENoOpponent); }
        payouts := PaySplit(escrow / 2, registry, now);
      } else {
        if pendingChallenger.None? { return Err(ENoOpponent); }
        payouts := [Payout(playerA, escrow), Payout(pendingChallenger.value, challengerEscrow)];
        escrow, challengerEscrow := 0, 0;
        pendingChallenger, pendingAt := None, 0;
        Finish(registry, now);
      }
      return Ok(payouts);
    }

    method CancelWagerIfExpired(registry: OpenWagerRegistry, now: nat) returns (r: Result<seq<Payout>, Abort>)
      modifies this, registry
      ensures Performs(old(State()), r, CancelExpiredWager(old(State()), now))
      ensures registry.table == if r.Ok? then old(registry.table) - {playerA} else old(registry.table)
    {
      if status == Settled { return Err(EMatchAlreadySettled); }
      if status == PendingApproval { return Err(EWrongExpiryEntrypoint); }
      var payouts;
      if status == Waiting {
        if now < createdAt + MATCH_EXPIRY_MS { return Err(ENotExpired); }
        payouts := PayCreator(registry, now);
      } else {
        if now < acceptedAt + SETTLEMENT_TIMEOUT_MS { return Err(ENotExpired); }
        if playerB.None? { return Err(ENoOpponent); }
        payouts := PaySplit(escrow / 2, registry, now);
      }
      return Ok(payouts);
    }

    method ReclaimStalledWager(sender: Address, registry: OpenWagerRegistry, now: nat)
      returns (r: Result<seq<Payout>, Abort>)
      modifies this, registry
      ensures Performs(old(State()), r, ReclaimStalled(old(State()), sender, now))
      ensures registry.table == if r.Ok? then old(registry.table) - {playerA} else old(registry.table)
    {
      if status != Active { return Err(ENotActiveForReclaim); }
      if playerB.None? { return Err(ENoOpponent); }
      if now < acceptedAt + WAGER_RESOLUTION_TIMEOUT_MS { return Err(EWagerNotStalled); }
      if sender != playerA && sender != playerB.value { return Err(ENotWagerParticipant); }
      if escrow < stake { return Err(Arithmetic); }
      var payouts := PaySplit(stake, registry, now);
      return Ok(payouts);
    }
  }
}
