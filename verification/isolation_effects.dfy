/**
 * The server's steps told resource by resource: which events put a wallet into the queue or a fight, or a
 * wager into the lobby, which take it out, and what is remembered of a message that waits.
 */
module IsolationEffects {
  import opened Common
  import opened AcceptGate
  import opened Isolation

  /** The wallet is in no queue, fight or listed wager, as the handler's scan has found it. */
  ghost predicate Free(s: Server, w: Wallet, own: Option<WagerId>) {
    ScanFinds(s, w, own) && w !in s.queue && w !in s.fighting && !Truthy(own)
  }

  function EntryAt(s: Server, id: WagerId): Option<Entry> {
    if id in s.lobby then Some(s.lobby[id]) else None
  }

  function AcceptAt(s: Server, id: WagerId): Option<Accept> {
    if id in s.accepts then Some(s.accepts[id]) else None
  }

  /** The message waits for the chain, found its wager listed, and its caller with another wager or queued. */
  predicate CameBusy(s: Server, id: WagerId) {
    id in s.accepts && s.accepts[id].Deciding? && s.accepts[id].target.Some? &&
    (OtherWager(s, id).Some? || s.accepts[id].inQueue)
  }

  function OtherWager(s: Server, id: WagerId): Option<WagerId>
    requires id in s.accepts && s.accepts[id].Deciding?
  {
    var own := s.accepts[id].own;
    if own.Some? && own.value != id then own else None
  }

  /** It found its wager listed, its caller free, and a second player: the caller, or who challenged the creator. */
  predicate CameFree(s: Server, id: WagerId) {
    id in s.accepts && s.accepts[id].Deciding? && s.accepts[id].target.Some? && !CameBusy(s, id) &&
    (SameWallet(s.accepts[id].caller, s.accepts[id].target.value.creator) ==>
       Truthy(s.accepts[id].target.value.pendingChallenger))
  }

  function SecondPlayer(a: Accept): Wallet
    requires a.Deciding? && a.target.Some?
    requires SameWallet(a.caller, a.target.value.creator) ==> Truthy(a.target.value.pendingChallenger)
  {
    if SameWallet(a.caller, a.target.value.creator) then a.target.value.pendingChallenger.value else a.caller
  }

  predicate Launches(s: Server, id: WagerId) {
    id in s.accepts && s.accepts[id].Launching?
  }

  lemma DecidesBy(s: Server, id: WagerId)
    requires id in s.accepts && s.accepts[id].Deciding?
    ensures var outcome := OutcomeOf(id, s.accepts[id], Active);
            (outcome.AutoRollback? <==> CameBusy(s, id)) &&
            (outcome.AutoRollback? ==>
               outcome == AutoRollback(id, OtherWager(s, id), s.accepts[id].inQueue)) &&
            (outcome == Proceed <==> s.accepts[id].target.Some? && !CameBusy(s, id))
    ensures forall status :: status != Active ==> OutcomeOf(id, s.accepts[id], status).Reject?
  {
  }

  /** Who is queued after an event: a free wallet that queues gets in, and four kinds of event take one out. */
  lemma QueuedExactly(s: Server, e: Event, w: Wallet)
    ensures w in Next(s, e).queue <==>
              match e
              case QueueFight(x, own) => w in s.queue || (x == w && Free(s, x, own))
              case LeaveQueue(x) => w in s.queue && x != w
              case Match(a, b) => w in s.queue && !(a in s.queue && b in s.queue && a != b && w in {a, b})
              case AcceptDecides(id, status, _) =>
                w in s.queue &&
                !(status == Some(Active) && CameBusy(s, id) && s.accepts[id].inQueue && s.accepts[id].caller == w)
              case AcceptLaunches(id) =>
                w in s.queue && !(Launches(s, id) && w in {s.accepts[id].creator, s.accepts[id].caller})
              case _ => w in s.queue
  {
    if e.AcceptDecides? && e.id in s.accepts && s.accepts[e.id].Deciding? { DecidesBy(s, e.id); }
  }

  /** Who fights after an event. */
  lemma FightsExactly(s: Server, e: Event, w: Wallet)
    ensures w in Next(s, e).fighting <==>
              match e
              case StartBotFight(x, own) => w in s.fighting || (x == w && Free(s, x, own))
              case FightStarts(a, b) => w in s.fighting || ((a, b) in s.starting && w in {a, b})
              case AcceptLaunches(id) =>
                w in s.fighting || (Launches(s, id) && w in {s.accepts[id].creator, s.accepts[id].challenger})
              case FightEnds(a, b) => w in s.fighting && w !in {a, b}
              case _ => w in s.fighting
  {
    if e.AcceptDecides? && e.id in s.accepts && s.accepts[e.id].Deciding? { DecidesBy(s, e.id); }
  }

  /** What a decision does to the lobby: a busy caller's wagers go with the wager, a free one's fight takes it. */
  function AfterDecision(s: Server, i: WagerId, status: Option<ChainStatus>, id: WagerId): Option<Entry> {
    if status == Some(Active) && CameBusy(s, i) && (id == i || Some(id) == OtherWager(s, i)) then None
    else if status == Some(Active) && CameFree(s, i) && id == i then None
    else EntryAt(s, id)
  }

  lemma DecisionLists(s: Server, i: WagerId, status: Option<ChainStatus>, known: bool, id: WagerId)
    ensures EntryAt(Next(s, AcceptDecides(i, status, known)), id) == AfterDecision(s, i, status, id)
  {
    if i in s.accepts && s.accepts[i].Deciding? { DecidesBy(s, i); }
  }

  /** What a handshake writes back: the entry it read, with its caller as the challenger or without one. */
  function AfterHandshake(s: Server, h: Handshake, confirmed: bool, id: WagerId): Option<Entry> {
    if !confirmed || h !in s.handshakes || h.entry.None? || h.id != id then EntryAt(s, id)
    else
      match h.kind
      case Reclaimed => None
      case RequestAccepted => Some(Entry(h.entry.value.creator, Some(h.caller)))
      case BackToWaiting => Some(Entry(h.entry.value.creator, None))
  }

  lemma HandshakeLists(s: Server, h: Handshake, confirmed: bool, id: WagerId)
    ensures EntryAt(Next(s, HandshakeResumes(h, confirmed)), id) == AfterHandshake(s, h, confirmed, id)
  {
  }

  lemma LaunchLists(s: Server, i: WagerId, id: WagerId)
    ensures EntryAt(Next(s, AcceptLaunches(i)), id) ==
              if Launches(s, i) && id in s.lobby &&
                 s.lobby[id].creator in {s.accepts[i].creator, s.accepts[i].challenger}
              then None else EntryAt(s, id)
  {
  }

  /** What the lobby lists under an id after an event. */
  lemma ListedExactly(s: Server, e: Event, id: WagerId)
    ensures EntryAt(Next(s, e), id) ==
              match e
              case OpenWager(w, own, i) =>
                if i == id && id != "" && Free(s, w, own) then Some(Entry(w, None)) else EntryAt(s, id)
              case CancelWager(w, i) =>
                if i == id && id in s.lobby && s.lobby[id].creator == w then None else EntryAt(s, id)
              case ExpireWager(i) => if i == id then None else EntryAt(s, id)
              case AdoptWager(i, entry) =>
                if i == id && id !in s.lobby && id != "" then Some(entry) else EntryAt(s, id)
              case AcceptDecides(i, status, _) => AfterDecision(s, i, status, id)
              case AcceptLaunches(i) =>
                if Launches(s, i) && id in s.lobby &&
                   s.lobby[id].creator in {s.accepts[i].creator, s.accepts[i].challenger}
                then None else EntryAt(s, id)
              case HandshakeResumes(h, confirmed) => AfterHandshake(s, h, confirmed, id)
              case _ => EntryAt(s, id)
  {
    match e
    case AcceptDecides(i, status, known) => DecisionLists(s, i, status, known, id);
    case AcceptLaunches(i) => LaunchLists(s, i, id);
    case HandshakeResumes(h, confirmed) => HandshakeLists(s, h, confirmed, id);
    case _ =>
  }

  /** What is remembered of an accept: what its arrival saw, then the pair its fight is for, then nothing. */
  lemma RememberedExactly(s: Server, e: Event, id: WagerId)
    ensures AcceptAt(Next(s, e), id) ==
              match e
              case AcceptArrives(w, own, i) =>
                if i == id && id != "" && id !in s.accepts && w !in s.fighting && ScanFinds(s, w, own)
                then Some(Deciding(w, EntryAt(s, id), own, w in s.queue)) else AcceptAt(s, id)
              case AcceptDecides(i, status, known) =>
                if i != id || id !in s.accepts || !s.accepts[id].Deciding? then AcceptAt(s, id)
                else if status == Some(Active) && CameFree(s, id) && known
                then Some(Launching(s.accepts[id].target.value.creator, SecondPlayer(s.accepts[id]),
                                    s.accepts[id].caller))
                else None
              case AcceptLaunches(i) => if i == id && Launches(s, id) then None else AcceptAt(s, id)
              case AcceptFails(i) => if i == id then None else AcceptAt(s, id)
              case _ => AcceptAt(s, id)
  {
    if e.AcceptDecides? && e.id in s.accepts && s.accepts[e.id].Deciding? { DecidesBy(s, e.id); }
  }

  /** Which pairs have a fight on its way: matched ones and friends neither of whom fights, till it starts or fails. */
  lemma StartingExactly(s: Server, e: Event, pair: (Wallet, Wallet))
    ensures Next(s, e).starting[pair] ==
              match e
              case Match(a, b) =>
                s.starting[pair] + if (a, b) == pair && a in s.queue && b in s.queue && a != b then 1 else 0
              case FriendlyAccepted(a, b) =>
                s.starting[pair] + if (a, b) == pair && a !in s.fighting && b !in s.fighting then 1 else 0
              case FightStarts(a, b) => s.starting[pair] - if (a, b) == pair && s.starting[pair] > 0 then 1 else 0
              case FightFails(a, b) => s.starting[pair] - if (a, b) == pair && s.starting[pair] > 0 then 1 else 0
              case _ => s.starting[pair]
  {
    if e.AcceptDecides? && e.id in s.accepts && s.accepts[e.id].Deciding? { DecidesBy(s, e.id); }
  }

  /** Which handshakes wait: those for a listed wager, with its entry, and reclaims of any, until they resume. */
  lemma WaitingExactly(s: Server, e: Event, h: Handshake)
    ensures Next(s, e).handshakes[h] ==
              match e
              case HandshakeArrives(w, id, kind) =>
                s.handshakes[h] +
                if h == Handshake(w, id, kind, EntryAt(s, id)) && (id in s.lobby || kind == Reclaimed) then 1 else 0
              case HandshakeResumes(other, _) =>
                s.handshakes[h] - if other == h && s.handshakes[h] > 0 then 1 else 0
              case _ => s.handshakes[h]
  {
    if e.AcceptDecides? && e.id in s.accepts && s.accepts[e.id].Deciding? { DecidesBy(s, e.id); }
  }
}
