/**
 * The gates between modes: the busy predicates that client and server both apply before a player
 * enters a queue or a wager, and the server's decision on a `wager_accepted` message.
 */
module AcceptGate {
  import opened Common

  type Wallet = string
  type WagerId = string

  /** A field that may be absent, null or empty: all three are falsy. */
  predicate Truthy(s: Option<string>) {
    s.Some? && s.value != ""
  }

  // ----- Busy -----

  datatype BusyKind = Idle | InFight | OwnWager | FightQueue | PendingWagerAccept

  function EvaluateServerBusy(hasFight: bool, ownWagerId: Option<WagerId>, inMatchmakingQueue: bool): BusyKind {
    if hasFight then InFight
    else if Truthy(ownWagerId) then OwnWager
    else if inMatchmakingQueue then FightQueue
    else Idle
  }

  /** A busy player is told the first thing that holds of a fight, an open wager and the queue. */
  lemma BusyExactly(hasFight: bool, ownWagerId: Option<WagerId>, inQueue: bool)
    ensures var kind := EvaluateServerBusy(hasFight, ownWagerId, inQueue);
            (kind == InFight <==> hasFight) && (kind == OwnWager <==> !hasFight && Truthy(ownWagerId)) &&
            (kind == FightQueue <==> !hasFight && !Truthy(ownWagerId) && inQueue) &&
            (kind == Idle <==> !hasFight && !Truthy(ownWagerId) && !inQueue)
  {
  }

  /** The client's view; `ownLobbyEntry`, `activeFight` and `pendingWagerAccept` are objects holding an id. */
  datatype BusyStateInput = BusyStateInput(
    callerWallet: Option<Wallet>, ownLobbyEntry: Option<WagerId>, activeFight: Option<string>,
    fightQueue: Option<string>, pendingWagerAccept: Option<WagerId>)

  function ComputeBusyState(input: BusyStateInput): BusyKind {
    if !Truthy(input.callerWallet) then Idle
    else if input.activeFight.Some? then InFight
    else if input.ownLobbyEntry.Some? then OwnWager
    else if Truthy(input.fightQueue) then FightQueue
    else if input.pendingWagerAccept.Some? then PendingWagerAccept
    else Idle
  }

  /**
   * Client and server give the same answer about the same facts, except that a client without a
   * wallet is never busy and only the client knows of an accept still being signed.
   */
  lemma ClientAndServerAgree(input: BusyStateInput)
    requires input.ownLobbyEntry != Some("")
    ensures var client := ComputeBusyState(input);
            var server := EvaluateServerBusy(input.activeFight.Some?, input.ownLobbyEntry, Truthy(input.fightQueue));
            client == server <==>
              if Truthy(input.callerWallet) then server != Idle || input.pendingWagerAccept.None? else server == Idle
  {
  }

  // ----- Accepting a wager -----

  datatype ChainStatus = Waiting | Active | Settled | PendingApproval

  datatype LobbyWager = LobbyWager(creatorWallet: Wallet, wagerMatchId: WagerId)

  datatype Rejection = NotInLobby | SelfAccept | HasOpenWager | IsQueued | NotActiveOnChain

  datatype AcceptOutcome =
    | Proceed
    | Reject(reason: Rejection)
    | AutoRollback(targetWagerId: WagerId, callerOwnWagerId: Option<WagerId>, removeFromMatchmakingQueue: bool)

  predicate SameWallet(a: Wallet, b: Wallet) {
    Lower(a) == Lower(b)
  }

  predicate HasDifferentOwn(own: Option<LobbyWager>, target: WagerId) {
    own.Some? && own.value.wagerMatchId != target
  }

  function DecideAcceptOutcome(caller: Wallet, target: WagerId, status: ChainStatus, own: Option<LobbyWager>,
                               inLobby: Option<LobbyWager>, inQueue: bool): AcceptOutcome
  {
    if inLobby.None? then Reject(NotInLobby)
    else if status != Active && SameWallet(inLobby.value.creatorWallet, caller) then Reject(SelfAccept)
    else if HasDifferentOwn(own, target) || inQueue then
      if status == Active then
        AutoRollback(target, if HasDifferentOwn(own, target) then Some(own.value.wagerMatchId) else None, inQueue)
      else if HasDifferentOwn(own, target) then Reject(HasOpenWager)
      else Reject(IsQueued)
    else if status != Active then Reject(NotActiveOnChain)
    else Proceed
  }

  /**
   * A listed, live wager is never just turned away: it starts its fight exactly when its caller is
   * free, and otherwise is unwound together with everything that made the caller busy. Nothing that
   * is not live on chain is ever started or unwound.
   */
  lemma LiveWagersStartOrUnwind(caller: Wallet, target: WagerId, status: ChainStatus, own: Option<LobbyWager>,
                                inLobby: Option<LobbyWager>, inQueue: bool)
    ensures var outcome := DecideAcceptOutcome(caller, target, status, own, inLobby, inQueue);
            !outcome.Reject? <==> inLobby.Some? && status == Active
    ensures var outcome := DecideAcceptOutcome(caller, target, status, own, inLobby, inQueue);
            !outcome.Reject? ==>
              (outcome == Proceed <==> (own.None? || own.value.wagerMatchId == target) && !inQueue)
    ensures var outcome := DecideAcceptOutcome(caller, target, status, own, inLobby, inQueue);
            outcome.AutoRollback? ==>
              outcome.targetWagerId == target && (outcome.removeFromMatchmakingQueue <==> inQueue) &&
              (own.Some? ==> outcome.targetWagerId == own.value.wagerMatchId ||
                             outcome.callerOwnWagerId == Some(own.value.wagerMatchId)) &&
              (outcome.callerOwnWagerId.Some? ==> own.Some? && own.value.wagerMatchId != target)
  {
  }

  /**
   * Why a message is turned away: the wager is not listed; or it is not live on chain, and then the first
   * of these that holds: it is the caller's own, the caller lists another, the caller is queued, or
   * nothing of the kind. What a rollback takes back of the caller's is exactly the other wager listed.
   */
  lemma RejectsExactly(caller: Wallet, target: WagerId, status: ChainStatus, own: Option<LobbyWager>,
                       inLobby: Option<LobbyWager>, inQueue: bool)
    ensures var outcome := DecideAcceptOutcome(caller, target, status, own, inLobby, inQueue);
            var dead := inLobby.Some? && status != Active;
            var mine := inLobby.Some? && SameWallet(inLobby.value.creatorWallet, caller);
            var another := own.Some? && own.value.wagerMatchId != target;
            (outcome == Reject(NotInLobby) <==> inLobby.None?) &&
            (outcome == Reject(SelfAccept) <==> dead && mine) &&
            (outcome == Reject(HasOpenWager) <==> dead && !mine && another) &&
            (outcome == Reject(IsQueued) <==> dead && !mine && !another && inQueue) &&
            (outcome == Reject(NotActiveOnChain) <==> dead && !mine && !another && !inQueue) &&
            (outcome.AutoRollback? ==>
               outcome.callerOwnWagerId == if another then Some(own.value.wagerMatchId) else None)
  {
  }

  /** The fight's second player: the caller, unless the caller is the creator approving a challenger. */
  function ResolveChallengerWallet(caller: Wallet, creator: Wallet, pendingChallenger: Option<Wallet>): Option<Wallet> {
    if !SameWallet(caller, creator) then Some(caller)
    else if !Truthy(pendingChallenger) then None
    else pendingChallenger
  }

  /**
   * The fight gets the wallet that staked second exactly when that wallet is the caller, or the
   * creator calls and the lobby has recorded it: any other caller is taken for the challenger.
   */
  lemma ResolvesToStakerExactly(caller: Wallet, creator: Wallet, pendingChallenger: Option<Wallet>, staker: Wallet)
    requires staker != "" && !SameWallet(staker, creator)
    ensures ResolveChallengerWallet(caller, creator, pendingChallenger) == Some(staker) <==>
              caller == staker || (SameWallet(caller, creator) && pendingChallenger == Some(staker))
  {
  }
}
