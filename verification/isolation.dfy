/**
 * The server's three ways into a fight, run together: the matchmaking queue, the wager lobby and the
 * fights themselves. Message handlers run to their next await in one step; what they read before an
 * await is a snapshot that other handlers may outdate.
 */
module Isolation {
  import opened Common
  import opened AcceptGate

  datatype Entry = Entry(creator: Wallet, pendingChallenger: Option<Wallet>)

  /** A `wager_accepted` being handled: waiting for the chain, or for its fight to be created. */
  datatype Accept =
    | Deciding(caller: Wallet, target: Option<Entry>, own: Option<WagerId>, inQueue: bool)
    | Launching(creator: Wallet, challenger: Wallet, caller: Wallet)

  datatype HandshakeKind = RequestAccepted | BackToWaiting | Reclaimed

  /** A handshake message waiting for the chain, holding the entry it read on arrival. */
  datatype Handshake = Handshake(caller: Wallet, id: WagerId, kind: HandshakeKind, entry: Option<Entry>)

  /** `starting` holds the pairs whose `createFight` has not reached its end yet. */
  datatype Server = Server(
    queue: set<Wallet>, lobby: map<WagerId, Entry>, fighting: set<Wallet>, starting: multiset<(Wallet, Wallet)>,
    accepts: map<WagerId, Accept>, handshakes: multiset<Handshake>)

  const EMPTY := Server({}, map[], {}, multiset{}, map[], multiset{})

  /** Where an event names `own`, it is what the handler's scan of the lobby found for the caller. */
  datatype Event =
    | QueueFight(w: Wallet, own: Option<WagerId>)
    | OpenWager(w: Wallet, own: Option<WagerId>, id: WagerId)
    | StartBotFight(w: Wallet, own: Option<WagerId>)
    | LeaveQueue(w: Wallet)
    | CancelWager(w: Wallet, id: WagerId)
    | ExpireWager(id: WagerId)
    | Match(a: Wallet, b: Wallet)
    | FriendlyAccepted(a: Wallet, b: Wallet)
    | FightStarts(a: Wallet, b: Wallet)
    | FightFails(a: Wallet, b: Wallet)
    | FightEnds(a: Wallet, b: Wallet)
    | AcceptArrives(w: Wallet, own: Option<WagerId>, id: WagerId)
    | AcceptDecides(id: WagerId, status: Option<ChainStatus>, charactersKnown: bool)
    | AcceptLaunches(id: WagerId)
    | AcceptFails(id: WagerId)
    | HandshakeArrives(w: Wallet, id: WagerId, kind: HandshakeKind)
    | HandshakeResumes(h: Handshake, confirmed: bool)
    | AdoptWager(id: WagerId, entry: Entry)

  predicate Owner(lobby: map<WagerId, Entry>, id: WagerId, w: Wallet) {
    id in lobby && lobby[id].creator == w
  }

  ghost predicate Owns(lobby: map<WagerId, Entry>, w: Wallet) {
    exists id :: Owner(lobby, id, w)
  }

  ghost predicate ScanFinds(s: Server, w: Wallet, own: Option<WagerId>) {
    match own
    case Some(id) => Owner(s.lobby, id, w)
    case None => !Owns(s.lobby, w)
  }

  predicate Idles(s: Server, w: Wallet, own: Option<WagerId>) {
    EvaluateServerBusy(w in s.fighting, own, w in s.queue) == Idle
  }

  function AsLobbyWager(id: WagerId, e: Option<Entry>): Option<LobbyWager> {
    match e
    case Some(entry) => Some(LobbyWager(entry.creator, id))
    case None => None
  }

  function OutcomeOf(id: WagerId, a: Accept, status: ChainStatus): AcceptOutcome
    requires a.Deciding?
  {
    var own := if a.own.Some? then Some(LobbyWager(a.caller, a.own.value)) else None;
    DecideAcceptOutcome(a.caller, id, status, own, AsLobbyWager(id, a.target), a.inQueue)
  }

  function Decide(s: Server, id: WagerId, status: ChainStatus, charactersKnown: bool): Server
    requires id in s.accepts && s.accepts[id].Deciding?
  {
    var a := s.accepts[id];
    var done := s.(accepts := s.accepts - {id});
    match OutcomeOf(id, a, status)
    case Reject(_) => done
    case AutoRollback(target, own, fromQueue) =>
      done.(lobby := s.lobby - {target} - (if own.Some? then {own.value} else {}),
            queue := s.queue - (if fromQueue then {a.caller} else {}))
    case Proceed =>
      var challenger := ResolveChallengerWallet(a.caller, a.target.value.creator, a.target.value.pendingChallenger);
      if challenger.None? then done
      else if !charactersKnown then done.(lobby := s.lobby - {id})
      else
        s.(lobby := s.lobby - {id},
           accepts := s.accepts[id := Launching(a.target.value.creator, challenger.value, a.caller)])
  }

  /** The fight exists; then any other wager of the two is dropped, and two wallets leave the queue. */
  function Launch(s: Server, id: WagerId, a: Accept): Server
    requires a.Launching?
  {
    s.(fighting := s.fighting + {a.creator, a.challenger},
       lobby := map i | i in s.lobby && s.lobby[i].creator !in {a.creator, a.challenger} :: s.lobby[i],
       queue := s.queue - {a.creator, a.caller}, accepts := s.accepts - {id})
  }

  /** A handshake writes back the entry it read, whether or not it is still listed. */
  function Resume(s: Server, h: Handshake): Server {
    if h.entry.None? then s
    else
      match h.kind
      case Reclaimed => s.(lobby := s.lobby - {h.id})
      case RequestAccepted => s.(lobby := s.lobby[h.id := h.entry.value.(pendingChallenger := Some(h.caller))])
      case BackToWaiting => s.(lobby := s.lobby[h.id := h.entry.value.(pendingChallenger := None)])
  }

  /** A message whose guard fails changes nothing. */
  ghost function Next(s: Server, e: Event): Server {
    match e
    case QueueFight(w, own) =>
      if ScanFinds(s, w, own) && Idles(s, w, own) then s.(queue := s.queue + {w}) else s
    case OpenWager(w, own, id) =>
      if ScanFinds(s, w, own) && Idles(s, w, own) && id != "" then s.(lobby := s.lobby[id := Entry(w, None)]) else s
    case StartBotFight(w, own) =>
      if ScanFinds(s, w, own) && Idles(s, w, own) then s.(fighting := s.fighting + {w}) else s
    case LeaveQueue(w) => s.(queue := s.queue - {w})
    case CancelWager(w, id) => if Owner(s.lobby, id, w) then s.(lobby := s.lobby - {id}) else s
    case ExpireWager(id) => s.(lobby := s.lobby - {id})
    case Match(a, b) =>
      if a in s.queue && b in s.queue && a != b
      then s.(queue := s.queue - {a, b}, starting := s.starting + multiset{(a, b)}) else s
    case FriendlyAccepted(a, b) =>
      if a !in s.fighting && b !in s.fighting then s.(starting := s.starting + multiset{(a, b)}) else s
    case FightStarts(a, b) =>
      if (a, b) in s.starting
      then s.(starting := s.starting - multiset{(a, b)}, fighting := s.fighting + {a, b}) else s
    case FightFails(a, b) => s.(starting := s.starting - multiset{(a, b)})
    case FightEnds(a, b) => s.(fighting := s.fighting - {a, b})
    case AcceptArrives(w, own, id) =>
      if ScanFinds(s, w, own) && id !in s.accepts && w !in s.fighting && id != "" then
        var target := if id in s.lobby then Some(s.lobby[id]) else None;
        s.(accepts := s.accepts[id := Deciding(w, target, own, w in s.queue)])
      else s
    case AcceptDecides(id, status, charactersKnown) =>
      if id !in s.accepts || !s.accepts[id].Deciding? then s
      else if status.None? then s.(accepts := s.accepts - {id})
      else Decide(s, id, status.value, charactersKnown)
    case AcceptLaunches(id) =>
      if id in s.accepts && s.accepts[id].Launching? then Launch(s, id, s.accepts[id]) else s
    case AcceptFails(id) => s.(accepts := s.accepts - {id})
    case HandshakeArrives(w, id, kind) =>
      if id in s.lobby then s.(handshakes := s.handshakes + multiset{Handshake(w, id, kind, Some(s.lobby[id]))})
      else if kind == Reclaimed then s.(handshakes := s.handshakes + multiset{Handshake(w, id, kind, None)})
      else s
    case HandshakeResumes(h, confirmed) =>
      if h !in s.handshakes then s
      else
        var done := s.(handshakes := s.handshakes - multiset{h});
        if confirmed then Resume(done, h) else done
    case AdoptWager(id, entry) => if id in s.lobby || id == "" then s else s.(lobby := s.lobby[id := entry])
  }

  ghost function Run(s: Server, events: seq<Event>): Server {
    if events == [] then s else Next(Run(s, events[..|events| - 1]), events[|events| - 1])
  }

  // ----- Queue against lobby -----

  /** Nobody is both queued and waiting in the lobby, and nobody lists two wagers. */
  ghost predicate Isolated(s: Server) {
    "" !in s.lobby &&
    (forall id :: id in s.lobby ==> s.lobby[id].creator !in s.queue) &&
    (forall i, j :: i in s.lobby && j in s.lobby && s.lobby[i].creator == s.lobby[j].creator ==> i == j)
  }

  datatype Listing = Listing(id: WagerId, creator: Wallet)

  /** The wager an event lists without asking the busy gate: a handshake's snapshot, or an adoption. */
  function Ungated(s: Server, e: Event): Option<Listing> {
    match e
    case HandshakeResumes(h, confirmed) =>
      if confirmed && h in s.handshakes && h.entry.Some? && !h.kind.Reclaimed?
      then Some(Listing(h.id, h.entry.value.creator)) else None
    case AdoptWager(id, entry) =>
      if id in s.lobby || id == "" then None else Some(Listing(id, entry.creator))
    case _ => None
  }

  /** It names a creator who is queued at that moment, or has another wager listed. */
  ghost predicate ListsBusyCreator(s: Server, e: Event) {
    var listed := Ungated(s, e);
    listed.Some? &&
    (listed.value.id == "" || listed.value.creator in s.queue ||
     exists id :: id != listed.value.id && Owner(s.lobby, id, listed.value.creator))
  }

  /** What a client shows when its picture of the server is current. */
  predicate Pictures(input: BusyStateInput, s: Server, w: Wallet, own: Option<WagerId>) {
    Truthy(input.callerWallet) && input.callerWallet == Some(w) && input.ownLobbyEntry == own &&
    (input.activeFight.Some? <==> w in s.fighting) && (Truthy(input.fightQueue) <==> w in s.queue)
  }

  /**
   * A client whose picture is current lets its player try exactly what the server would allow, but for
   * an accept still being signed, of which the server knows nothing.
   */
  lemma ClientGateIsServerGate(s: Server, w: Wallet, own: Option<WagerId>, input: BusyStateInput)
    requires Isolated(s) && ScanFinds(s, w, own) && Pictures(input, s, w, own)
    ensures ComputeBusyState(input) == Idle <==>
              !Owns(s.lobby, w) && w !in s.queue && w !in s.fighting && input.pendingWagerAccept.None?
    ensures ComputeBusyState(input) == Idle ==> w in Next(s, QueueFight(w, own)).queue
  {
    ClientAndServerAgree(input);
    assert own.Some? ==> Owner(s.lobby, own.value, w);
  }

  lemma LobbyShrinks(s: Server, t: Server)
    requires Isolated(s) && t.queue <= s.queue
    requires forall id :: id in t.lobby ==> id in s.lobby && t.lobby[id].creator == s.lobby[id].creator
    ensures Isolated(t)
  {
  }

  lemma GatedEntry(s: Server, w: Wallet, own: Option<WagerId>)
    requires Isolated(s) && ScanFinds(s, w, own) && Idles(s, w, own)
    ensures !Owns(s.lobby, w) && w !in s.queue && w !in s.fighting
  {
  }

  lemma GatedStepsKeepIsolation(s: Server, e: Event)
    requires Isolated(s) && (e.QueueFight? || e.OpenWager?)
    ensures Isolated(Next(s, e))
  {
    if ScanFinds(s, e.w, e.own) && Idles(s, e.w, e.own) {
      GatedEntry(s, e.w, e.own);
      assert forall id :: id in s.lobby ==> Owner(s.lobby, id, s.lobby[id].creator);
      assert forall id :: id in s.lobby ==> s.lobby[id].creator != e.w;
    }
  }

  lemma AcceptsKeepIsolation(s: Server, e: Event)
    requires Isolated(s) && (e.AcceptDecides? || e.AcceptLaunches?)
    ensures Isolated(Next(s, e))
  {
    LobbyShrinks(s, Next(s, e));
  }

  /** Listing a wager of the given creator, whatever else its entry says. */
  lemma ListingIsolates(s: Server, t: Server, id: WagerId, entry: Entry)
    requires Isolated(s) && t.queue == s.queue && t.lobby == s.lobby[id := entry]
    ensures Isolated(t) <==>
              id != "" && entry.creator !in s.queue &&
              !exists other :: other != id && Owner(s.lobby, other, entry.creator)
  {
    var creator := entry.creator;
    assert t.lobby[id].creator == creator;
    assert forall i :: i != id && i in t.lobby ==> i in s.lobby && t.lobby[i] == s.lobby[i];
    if exists other :: other != id && Owner(s.lobby, other, creator) {
      var other :| other != id && Owner(s.lobby, other, creator);
      assert t.lobby[other].creator == t.lobby[id].creator && other != id;
    } else {
      forall i, j | i in t.lobby && j in t.lobby && t.lobby[i].creator == t.lobby[j].creator ensures i == j {
        assert i != id ==> Owner(s.lobby, i, t.lobby[i].creator);
        assert j != id ==> Owner(s.lobby, j, t.lobby[j].creator);
      }
    }
  }

  lemma UngatedIsolates(s: Server, e: Event)
    requires Isolated(s) && Ungated(s, e).Some?
    ensures Isolated(Next(s, e)) <==> !ListsBusyCreator(s, e)
  {
    match e
    case HandshakeResumes(h, _) =>
      var entry := if h.kind == RequestAccepted then h.entry.value.(pendingChallenger := Some(h.caller))
                   else h.entry.value.(pendingChallenger := None);
      ListingIsolates(s, Next(s, e), h.id, entry);
    case AdoptWager(id, entry) => ListingIsolates(s, Next(s, e), id, entry);
  }

  /**
   * Exactly two kinds of step can put a wallet in the lobby while it is queued, or list it twice: a
   * handshake that writes back an entry whose creator has moved on in the meantime, and the adoption
   * of a wager whose creator is busy already.
   */
  lemma StepIsolation(s: Server, e: Event)
    requires Isolated(s)
    ensures Isolated(Next(s, e)) <==> !ListsBusyCreator(s, e)
  {
    if Ungated(s, e).Some? {
      UngatedIsolates(s, e);
    } else if e.QueueFight? || e.OpenWager? {
      GatedStepsKeepIsolation(s, e);
    } else if e.AcceptDecides? || e.AcceptLaunches? {
      AcceptsKeepIsolation(s, e);
    } else {
      LobbyShrinks(s, Next(s, e));
    }
  }

  /** An ungated listing is of a wager still listed for that creator, or of an idle creator. */
  ghost predicate ListsIdle(s: Server, e: Event) {
    match Ungated(s, e)
    case None => true
    case Some(listed) =>
      Owner(s.lobby, listed.id, listed.creator) ||
      (listed.id != "" && listed.creator !in s.queue && !Owns(s.lobby, listed.creator))
  }

  ghost predicate ListsOnlyIdle(s: Server, events: seq<Event>) {
    forall k :: 0 <= k < |events| ==> ListsIdle(Run(s, events[..k]), events[k])
  }

  lemma IdleListing(s: Server, e: Event)
    requires Isolated(s) && ListsIdle(s, e)
    ensures !ListsBusyCreator(s, e)
  {
  }

  /** In any interleaving whose ungated listings are of idle creators, the queue never meets the lobby. */
  lemma {:induction false} QueueNeverMeetsLobby(s: Server, events: seq<Event>)
    requires Isolated(s) && ListsOnlyIdle(s, events)
    ensures Isolated(Run(s, events))
    decreases |events|
  {
    if events != [] {
      var init, e := events[..|events| - 1], events[|events| - 1];
      forall k | 0 <= k < |init| ensures init[..k] == events[..k] && init[k] == events[k] { }
      assert ListsOnlyIdle(s, init);
      QueueNeverMeetsLobby(s, init);
      assert events[..|events| - 1] == init && events[|events| - 1] == e;
      IdleListing(Run(s, init), e);
      StepIsolation(Run(s, init), e);
    }
  }

  // ----- Queue against fights -----

  ghost predicate QueueClearOfFights(s: Server) {
    s.queue !! s.fighting
  }

  /** The event starts a fight for someone queued whom nothing takes out of the queue. */
  predicate StartsSomeoneQueued(s: Server, e: Event) {
    match e
    case FightStarts(a, b) => (a, b) in s.starting && (a in s.queue || b in s.queue)
    case AcceptLaunches(id) =>
      id in s.accepts && s.accepts[id].Launching? &&
      s.accepts[id].challenger in s.queue && s.accepts[id].challenger !in {s.accepts[id].creator, s.accepts[id].caller}
    case _ => false
  }

  /**
   * A wallet comes to be queued and fighting exactly when the fight of a matched or a friendly pair is
   * created while one of them is queued, or when a creator's approval starts the fight of a challenger
   * who is queued: the clean-up drops the creator and the caller, who is then the creator.
   */
  lemma StepQueueAgainstFights(s: Server, e: Event)
    requires Isolated(s) && QueueClearOfFights(s)
    ensures QueueClearOfFights(Next(s, e)) <==> !StartsSomeoneQueued(s, e)
  {
    match e
    case FightStarts(a, b) => StartAgainstQueue(s, a, b);
    case AcceptLaunches(id) =>
      if id in s.accepts && s.accepts[id].Launching? { LaunchAgainstQueue(s, id); }
    case QueueFight(w, own) =>
      if ScanFinds(s, w, own) && Idles(s, w, own) { GatedEntry(s, w, own); }
    case StartBotFight(w, own) =>
      if ScanFinds(s, w, own) && Idles(s, w, own) { GatedEntry(s, w, own); }
    case _ => OthersOnlyShrink(s, e);
  }

  lemma OthersOnlyShrink(s: Server, e: Event)
    requires !e.FightStarts? && !e.AcceptLaunches? && !e.QueueFight? && !e.StartBotFight?
    ensures Next(s, e).queue <= s.queue && Next(s, e).fighting <= s.fighting
  {
  }

  lemma StartAgainstQueue(s: Server, a: Wallet, b: Wallet)
    requires QueueClearOfFights(s)
    ensures QueueClearOfFights(Next(s, FightStarts(a, b))) <==> !StartsSomeoneQueued(s, FightStarts(a, b))
  {
    var t := Next(s, FightStarts(a, b));
    if (a, b) in s.starting {
      assert t.queue == s.queue && t.fighting == s.fighting + {a, b};
      assert a in t.fighting && b in t.fighting;
    }
  }

  lemma LaunchAgainstQueue(s: Server, id: WagerId)
    requires QueueClearOfFights(s) && id in s.accepts && s.accepts[id].Launching?
    ensures QueueClearOfFights(Next(s, AcceptLaunches(id))) <==> !StartsSomeoneQueued(s, AcceptLaunches(id))
  {
    var a, t := s.accepts[id], Next(s, AcceptLaunches(id));
    assert t.fighting == s.fighting + {a.creator, a.challenger} && t.queue == s.queue - {a.creator, a.caller};
    assert a.challenger in t.fighting;
    assert a.challenger in t.queue <==> StartsSomeoneQueued(s, AcceptLaunches(id));
  }

  /** Queue, lobby and fights are as the gates mean them to be. */
  ghost predicate Apart(s: Server) {
    Isolated(s) && QueueClearOfFights(s)
  }

  ghost predicate Breaks(s: Server, e: Event) {
    ListsBusyCreator(s, e) || StartsSomeoneQueued(s, e)
  }

  lemma StepApart(s: Server, e: Event)
    requires Apart(s)
    ensures Apart(Next(s, e)) <==> !Breaks(s, e)
  {
    StepIsolation(s, e);
    StepQueueAgainstFights(s, e);
  }

  ghost predicate AlwaysApart(s: Server, events: seq<Event>) {
    forall k :: 0 <= k <= |events| ==> Apart(Run(s, events[..k]))
  }

  ghost predicate NeverBreaks(s: Server, events: seq<Event>) {
    forall k :: 0 <= k < |events| ==> !Breaks(Run(s, events[..k]), events[k])
  }

  lemma AlwaysApartSnoc(s: Server, init: seq<Event>, e: Event)
    ensures AlwaysApart(s, init + [e]) <==> AlwaysApart(s, init) && Apart(Run(s, init + [e]))
  {
    var events := init + [e];
    assert events[..|events|] == events;
    assert forall k :: 0 <= k <= |init| ==> events[..k] == init[..k];
    assert AlwaysApart(s, events) ==> AlwaysApart(s, init) by {
      if AlwaysApart(s, events) {
        forall k | 0 <= k <= |init| ensures Apart(Run(s, init[..k])) { assert Apart(Run(s, events[..k])); }
      }
    }
  }

  lemma NeverBreaksSnoc(s: Server, init: seq<Event>, e: Event)
    ensures NeverBreaks(s, init + [e]) <==> NeverBreaks(s, init) && !Breaks(Run(s, init), e)
  {
    var events := init + [e];
    assert events[..|init|] == init && events[|init|] == e;
    forall k | 0 <= k < |init| ensures events[..k] == init[..k] && events[k] == init[k] { }
    assert NeverBreaks(s, events) ==> NeverBreaks(s, init) by {
      if NeverBreaks(s, events) {
        forall k | 0 <= k < |init| ensures !Breaks(Run(s, init[..k]), init[k]) {
          assert !Breaks(Run(s, events[..k]), events[k]);
        }
      }
    }
  }

  /**
   * Over any interleaving: the queue is disjoint from the lobby's owners and from the fighters, and
   * each owner lists one wager, in every state of the run, if and only if no event of it lists a busy
   * creator or starts the fight of someone queued.
   */
  lemma {:induction false} QueueApartIff(s: Server, events: seq<Event>)
    requires Apart(s)
    ensures AlwaysApart(s, events) <==> NeverBreaks(s, events)
    decreases |events|
  {
    if events == [] {
      assert events[..0] == [];
    } else {
      var init, e := events[..|events| - 1], events[|events| - 1];
      assert events == init + [e];
      QueueApartIff(s, init);
      AlwaysApartSnoc(s, init, e);
      NeverBreaksSnoc(s, init, e);
      RunSnoc(s, init, e);
      assert init[..|init|] == init;
      if AlwaysApart(s, init) {
        assert Apart(Run(s, init[..|init|]));
        StepApart(Run(s, init), e);
      }
    }
  }

  lemma {:induction false} RunSnoc(s: Server, events: seq<Event>, e: Event)
    ensures Run(s, events + [e]) == Next(Run(s, events), e)
  {
    assert (events + [e])[..|events|] == events;
  }

  // ----- Rollback -----

  /**
   * A rollback removes what its snapshot saw: the caller stays queued, or listed, exactly if it
   * became so after the snapshot. When nothing has changed since, nothing of the caller is left.
   */
  lemma RollbackUnwindsCaller(s: Server, id: WagerId, status: ChainStatus, known: bool)
    requires Isolated(s) && id in s.accepts && s.accepts[id].Deciding?
    requires OutcomeOf(id, s.accepts[id], status).AutoRollback?
    ensures var a := s.accepts[id];
            var t := Next(s, AcceptDecides(id, Some(status), known));
            id !in t.lobby && id !in t.accepts &&
            (a.caller in t.queue <==> a.caller in s.queue && !a.inQueue) &&
            (Owns(t.lobby, a.caller) <==>
               exists i :: Owner(s.lobby, i, a.caller) && i != id && Some(i) != a.own) &&
            (ScanFinds(s, a.caller, a.own) && (a.inQueue <==> a.caller in s.queue) ==>
               !Owns(t.lobby, a.caller) && a.caller !in t.queue)
  {
    var a := s.accepts[id];
    var t := Next(s, AcceptDecides(id, Some(status), known));
    assert forall i :: Owner(t.lobby, i, a.caller) <==> Owner(s.lobby, i, a.caller) && i != id && Some(i) != a.own;
    assert ScanFinds(s, a.caller, a.own) ==> forall i :: Owner(s.lobby, i, a.caller) ==> Some(i) == a.own;
  }

  /**
   * The decision on a wager that is live on chain takes it out of the lobby, whoever sent it, except
   * when its free creator approves a challenger the lobby has not recorded. It goes on to a fight only
   * if the caller was free and both characters are known.
   */
  lemma LiveDecisionLeavesLobby(s: Server, id: WagerId, known: bool)
    requires id in s.accepts && s.accepts[id].Deciding? && s.accepts[id].target.Some? && id in s.lobby
    ensures var a := s.accepts[id];
            var entry := a.target.value;
            var free := (a.own.None? || a.own.value == id) && !a.inQueue;
            var unknown := SameWallet(a.caller, entry.creator) && !Truthy(entry.pendingChallenger);
            var t := Next(s, AcceptDecides(id, Some(Active), known));
            (id in t.lobby <==> free && unknown) && (id in t.accepts <==> free && !unknown && known)
  {
    var a := s.accepts[id];
    var own := if a.own.Some? then Some(LobbyWager(a.caller, a.own.value)) else None;
    LiveWagersStartOrUnwind(a.caller, id, Active, own, AsLobbyWager(id, a.target), a.inQueue);
  }

  // ----- One fight per wager -----

  /**
   * An accepted wager leaves the lobby. Its fight is between its creator and the wallet that staked
   * second on chain exactly when that wallet is the caller, or the creator calls and the handler's
   * snapshot records it as the challenger.
   */
  lemma FightIsTheStakersExactly(s: Server, id: WagerId, status: ChainStatus, staker: Wallet)
    requires id in s.accepts && s.accepts[id].Deciding? && OutcomeOf(id, s.accepts[id], status).Proceed?
    requires staker != "" && !SameWallet(staker, s.accepts[id].target.value.creator)
    ensures var a := s.accepts[id];
            var entry := a.target.value;
            var t := Next(s, AcceptDecides(id, Some(status), true));
            (id in t.accepts ==> id !in t.lobby) &&
            ((id in t.accepts && t.accepts[id] == Launching(entry.creator, staker, a.caller)) <==>
               a.caller == staker ||
               (SameWallet(a.caller, entry.creator) && entry.pendingChallenger == Some(staker)))
  {
    var a := s.accepts[id];
    ResolvesToStakerExactly(a.caller, a.target.value.creator, a.target.value.pendingChallenger, staker);
  }

  /** Nothing left on the server could start a fight for the wager. */
  ghost predicate Gone(s: Server, id: WagerId) {
    id !in s.lobby &&
    (id in s.accepts ==> s.accepts[id].Deciding? && s.accepts[id].target.None?) &&
    (forall h :: h in s.handshakes && h.id == id ==> h.entry.None?)
  }

  /**
   * When its fight is created, an accepted wager is gone exactly if no handshake still holds its
   * entry, and nobody but the two fighters has listed its id in the meantime.
   */
  lemma GoneOnceLaunched(s: Server, id: WagerId)
    requires id in s.accepts && s.accepts[id].Launching?
    ensures Gone(Next(s, AcceptLaunches(id)), id) <==>
              (forall h :: h in s.handshakes && h.id == id ==> h.entry.None?) &&
              (id in s.lobby ==> s.lobby[id].creator in {s.accepts[id].creator, s.accepts[id].challenger})
  {
    var t := Next(s, AcceptLaunches(id));
    assert t.handshakes == s.handshakes && id !in t.accepts;
    var pair := {s.accepts[id].creator, s.accepts[id].challenger};
    assert id in t.lobby <==> id in s.lobby && s.lobby[id].creator !in pair;
  }

  predicate ListsAgain(e: Event, id: WagerId) {
    (e.OpenWager? || e.AdoptWager?) && e.id == id
  }

  lemma GoneInAccepts(s: Server, e: Event, id: WagerId)
    requires Gone(s, id) && (e.AcceptArrives? || e.AcceptDecides? || e.AcceptLaunches? || e.AcceptFails?)
    ensures Gone(Next(s, e), id)
  {
    assert Next(s, e).handshakes == s.handshakes;
  }

  lemma GoneAfterArrival(s: Server, w: Wallet, arrived: WagerId, kind: HandshakeKind, id: WagerId)
    requires Gone(s, id)
    ensures Gone(Next(s, HandshakeArrives(w, arrived, kind)), id)
  {
    var t := Next(s, HandshakeArrives(w, arrived, kind));
    assert t.lobby == s.lobby && t.accepts == s.accepts;
    forall h | h in t.handshakes && h.id == id ensures h.entry.None? {
      assert h in s.handshakes || (arrived == id && h.entry.None?);
    }
  }

  lemma GoneAfterResume(s: Server, h: Handshake, confirmed: bool, id: WagerId)
    requires Gone(s, id)
    ensures Gone(Next(s, HandshakeResumes(h, confirmed)), id)
  {
    var t := Next(s, HandshakeResumes(h, confirmed));
    assert t.accepts == s.accepts;
    assert h in s.handshakes && h.id == id ==> t.lobby == s.lobby;
    assert id !in t.lobby;
    forall g | g in t.handshakes && g.id == id ensures g.entry.None? {
      assert g in s.handshakes;
    }
  }

  lemma GoneStays(s: Server, e: Event, id: WagerId)
    requires Gone(s, id) && !ListsAgain(e, id)
    ensures Gone(Next(s, e), id)
  {
    if e.AcceptArrives? || e.AcceptDecides? || e.AcceptLaunches? || e.AcceptFails? {
      GoneInAccepts(s, e, id);
    } else if e.HandshakeArrives? {
      GoneAfterArrival(s, e.w, e.id, e.kind, id);
    } else if e.HandshakeResumes? {
      GoneAfterResume(s, e.h, e.confirmed, id);
    } else {
      OthersKeepProgress(s, e);
      OthersDoNotList(s, e, id);
      GoneCarries(s, Next(s, e), id);
    }
  }

  predicate AwaitsChain(e: Event) {
    e.AcceptArrives? || e.AcceptDecides? || e.AcceptLaunches? || e.AcceptFails? ||
    e.HandshakeArrives? || e.HandshakeResumes?
  }

  /** Nothing that awaits the chain has moved. */
  predicate SameProgress(s: Server, t: Server) {
    t.accepts == s.accepts && t.handshakes == s.handshakes
  }

  lemma EntriesKeepProgress(s: Server, e: Event)
    requires e.QueueFight? || e.OpenWager? || e.StartBotFight?
    ensures SameProgress(s, Next(s, e))
  {
  }

  lemma FightsKeepProgress(s: Server, e: Event)
    requires e.Match? || e.FriendlyAccepted? || e.FightStarts? || e.FightFails? || e.FightEnds?
    ensures SameProgress(s, Next(s, e))
  {
  }

  lemma ListingsKeepProgress(s: Server, e: Event)
    requires e.LeaveQueue? || e.CancelWager? || e.ExpireWager? || e.AdoptWager?
    ensures SameProgress(s, Next(s, e))
  {
  }

  lemma OthersKeepProgress(s: Server, e: Event)
    requires !AwaitsChain(e)
    ensures SameProgress(s, Next(s, e))
  {
    if e.QueueFight? || e.OpenWager? || e.StartBotFight? {
      EntriesKeepProgress(s, e);
    } else if e.LeaveQueue? || e.CancelWager? || e.ExpireWager? || e.AdoptWager? {
      ListingsKeepProgress(s, e);
    } else {
      FightsKeepProgress(s, e);
    }
  }

  lemma OthersDoNotList(s: Server, e: Event, id: WagerId)
    requires id !in s.lobby && !ListsAgain(e, id) && !AwaitsChain(e)
    ensures id !in Next(s, e).lobby
  {
  }

  lemma GoneCarries(s: Server, t: Server, id: WagerId)
    requires Gone(s, id) && id !in t.lobby && t.accepts == s.accepts && t.handshakes == s.handshakes
    ensures Gone(t, id)
  {
  }

  /** Once a wager is gone, no later accept of it, however many, starts a fight. */
  lemma {:induction false} NoSecondFight(s: Server, events: seq<Event>, id: WagerId)
    requires Gone(s, id) && forall k :: 0 <= k < |events| ==> !ListsAgain(events[k], id)
    ensures Gone(Run(s, events), id)
    ensures Next(Run(s, events), AcceptLaunches(id)) == Run(s, events)
    decreases |events|
  {
    if events != [] {
      NoSecondFight(s, events[..|events| - 1], id);
      GoneStays(Run(s, events[..|events| - 1]), events[|events| - 1], id);
    }
  }
}
