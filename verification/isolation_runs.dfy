/**
 * Interleavings of the server's handlers, from an empty server, that break what the gates mean to
 * keep: each is a run, and the state it ends in.
 */
module IsolationRuns {
  import opened Common
  import opened AcceptGate
  import opened Isolation

  const ALICE: Wallet := "0xa"
  const BOB: Wallet := "0xb"
  const CAROL: Wallet := "0xc"

  /** One more event of a run whose state so far is known. */
  lemma Then(s: Server, events: seq<Event>, e: Event, t: Server, u: Server)
    requires Run(s, events) == t && Next(t, e) == u
    ensures Run(s, events + [e]) == u
  {
    RunSnoc(s, events, e);
  }

  lemma FirstOf(e: Event, t: Server)
    requires Next(EMPTY, e) == t
    ensures Run(EMPTY, [e]) == t
  {
    assert Run(EMPTY, []) == EMPTY;
    RunSnoc(EMPTY, [], e);
    assert [] + [e] == [e];
  }

  lemma MayEnter(s: Server, w: Wallet)
    requires w !in s.fighting && w !in s.queue && forall id :: id in s.lobby ==> s.lobby[id].creator != w
    ensures ScanFinds(s, w, None) && Idles(s, w, None)
  {
  }

  lemma Distinct()
    ensures ALICE != BOB && BOB != CAROL && ALICE != CAROL
    ensures !SameWallet(ALICE, BOB) && !SameWallet(ALICE, CAROL) && SameWallet(ALICE, ALICE)
  {
    assert Lower(ALICE)[2] == 'a' && Lower(BOB)[2] == 'b' && Lower(CAROL)[2] == 'c';
    assert ALICE[2] == 'a' && BOB[2] == 'b' && CAROL[2] == 'c';
  }

  // ----- Queue against lobby -----

  const OPENS := OpenWager(ALICE, None, "w")
  const LISTED := EMPTY.(lobby := map["w" := Entry(ALICE, None)])

  lemma Opened()
    ensures Run(EMPTY, [OPENS]) == LISTED
  {
    MayEnter(EMPTY, ALICE);
    FirstOf(OPENS, LISTED);
  }

  const BOB_WITHDRAWS := Handshake(BOB, "w", BackToWaiting, Some(Entry(ALICE, None)))

  function UntilCancelled(): seq<Event> {
    [OPENS] + [HandshakeArrives(BOB, "w", BackToWaiting)] + [CancelWager(ALICE, "w")]
  }

  /** Bob's handshake has read the entry, and Alice has then cancelled the wager. */
  lemma CancelledIsReached()
    ensures Run(EMPTY, UntilCancelled()) == EMPTY.(handshakes := multiset{BOB_WITHDRAWS})
  {
    Opened();
    var two := LISTED.(handshakes := multiset{BOB_WITHDRAWS});
    Then(EMPTY, [OPENS], HandshakeArrives(BOB, "w", BackToWaiting), LISTED, two);
    assert two.lobby - {"w"} == map[];
    Then(EMPTY, [OPENS] + [HandshakeArrives(BOB, "w", BackToWaiting)], CancelWager(ALICE, "w"), two,
         EMPTY.(handshakes := multiset{BOB_WITHDRAWS}));
  }

  lemma WithdrawalRelists(s: Server)
    requires s.handshakes == multiset{BOB_WITHDRAWS} && s.queue == {ALICE}
    ensures var t := Next(s, HandshakeResumes(BOB_WITHDRAWS, true));
            ALICE in t.queue && Owner(t.lobby, "w", ALICE)
  {
    assert BOB_WITHDRAWS in s.handshakes;
  }

  /** A late handshake lists a cancelled wager again while its creator is in the queue. */
  lemma StaleHandshakeBreaksIsolation()
    ensures Apart(EMPTY)
    ensures var s := Run(EMPTY, UntilCancelled() + [QueueFight(ALICE, None)] + [HandshakeResumes(BOB_WITHDRAWS, true)]);
            ALICE in s.queue && Owner(s.lobby, "w", ALICE)
  {
    CancelledIsReached();
    var three := EMPTY.(handshakes := multiset{BOB_WITHDRAWS});
    MayEnter(three, ALICE);
    var four := three.(queue := {ALICE});
    Then(EMPTY, UntilCancelled(), QueueFight(ALICE, None), three, four);
    WithdrawalRelists(four);
    RunSnoc(EMPTY, UntilCancelled() + [QueueFight(ALICE, None)], HandshakeResumes(BOB_WITHDRAWS, true));
  }

  /** Alice reconnects after a restart and queues before the lobby has been rebuilt. */
  lemma LateAdoptionBreaksIsolation()
    ensures var s := Run(EMPTY, [QueueFight(ALICE, None)] + [AdoptWager("w", Entry(ALICE, None))]);
            ALICE in s.queue && Owner(s.lobby, "w", ALICE)
  {
    MayEnter(EMPTY, ALICE);
    FirstOf(QueueFight(ALICE, None), EMPTY.(queue := {ALICE}));
    RunSnoc(EMPTY, [QueueFight(ALICE, None)], AdoptWager("w", Entry(ALICE, None)));
  }

  // ----- Queue against fights -----

  function UntilMatched(): seq<Event> {
    [QueueFight(ALICE, None)] + [QueueFight(BOB, None)] + [Match(ALICE, BOB)]
  }

  const MATCHED := EMPTY.(starting := multiset{(ALICE, BOB)})

  lemma MatchedIsReached()
    ensures Run(EMPTY, UntilMatched()) == MATCHED
  {
    Distinct();
    MayEnter(EMPTY, ALICE);
    var one, two := EMPTY.(queue := {ALICE}), EMPTY.(queue := {ALICE, BOB});
    FirstOf(QueueFight(ALICE, None), one);
    MayEnter(one, BOB);
    Then(EMPTY, [QueueFight(ALICE, None)], QueueFight(BOB, None), one, two);
    assert two.queue - {ALICE, BOB} == {};
    Then(EMPTY, [QueueFight(ALICE, None)] + [QueueFight(BOB, None)], Match(ALICE, BOB), two, MATCHED);
  }

  /** A matched player who queues again before the match's fight has been created is then in both. */
  lemma RequeueBeforeStartClashes()
    ensures var s := Run(EMPTY, UntilMatched() + [QueueFight(ALICE, None)] + [FightStarts(ALICE, BOB)]);
            ALICE in s.queue && ALICE in s.fighting
  {
    MatchedIsReached();
    MayEnter(MATCHED, ALICE);
    var four := MATCHED.(queue := {ALICE});
    Then(EMPTY, UntilMatched(), QueueFight(ALICE, None), MATCHED, four);
    RunSnoc(EMPTY, UntilMatched() + [QueueFight(ALICE, None)], FightStarts(ALICE, BOB));
  }

  /** A friendly challenge is accepted without a look at the queue. */
  lemma QueuedFriendClashes()
    ensures var s := Run(EMPTY, [QueueFight(BOB, None)] + [FriendlyAccepted(ALICE, BOB)] + [FightStarts(ALICE, BOB)]);
            BOB in s.queue && BOB in s.fighting
  {
    MayEnter(EMPTY, BOB);
    var one := EMPTY.(queue := {BOB});
    FirstOf(QueueFight(BOB, None), one);
    var two := one.(starting := multiset{(ALICE, BOB)});
    Then(EMPTY, [QueueFight(BOB, None)], FriendlyAccepted(ALICE, BOB), one, two);
    RunSnoc(EMPTY, [QueueFight(BOB, None)] + [FriendlyAccepted(ALICE, BOB)], FightStarts(ALICE, BOB));
  }

  const BOB_REQUESTS := Handshake(BOB, "w", RequestAccepted, Some(Entry(ALICE, None)))

  function UntilRequested(): seq<Event> {
    [OPENS] + [HandshakeArrives(BOB, "w", RequestAccepted)] + [HandshakeResumes(BOB_REQUESTS, true)]
  }

  const REQUESTED := EMPTY.(lobby := map["w" := Entry(ALICE, Some(BOB))])

  lemma RequestedIsReached()
    ensures Run(EMPTY, UntilRequested()) == REQUESTED
  {
    Opened();
    var two := LISTED.(handshakes := multiset{BOB_REQUESTS});
    Then(EMPTY, [OPENS], HandshakeArrives(BOB, "w", RequestAccepted), LISTED, two);
    assert two.lobby["w" := Entry(ALICE, Some(BOB))] == REQUESTED.lobby;
    assert two.handshakes - multiset{BOB_REQUESTS} == multiset{};
    Then(EMPTY, [OPENS] + [HandshakeArrives(BOB, "w", RequestAccepted)], HandshakeResumes(BOB_REQUESTS, true), two,
         REQUESTED);
  }

  function Accepted(w: Wallet, own: Option<WagerId>): seq<Event> {
    [AcceptArrives(w, own, "w")] + [AcceptDecides("w", Some(Active), true)] + [AcceptLaunches("w")]
  }

  /** The wager's accept may arrive, and its snapshot will decide for the given second player. */
  ghost predicate MayAccept(s: Server, w: Wallet, own: Option<WagerId>, challenger: Wallet) {
    s.accepts == map[] && "w" in s.lobby && ScanFinds(s, w, own) && (own.None? || own == Some("w")) &&
    w !in s.fighting && w !in s.queue &&
    ResolveChallengerWallet(w, s.lobby["w"].creator, s.lobby["w"].pendingChallenger) == Some(challenger)
  }

  function Arrived(s: Server, w: Wallet, own: Option<WagerId>): Server
    requires "w" in s.lobby
  {
    s.(accepts := map["w" := Deciding(w, Some(s.lobby["w"]), own, false)])
  }

  function Decided(s: Server, w: Wallet, challenger: Wallet): Server
    requires "w" in s.lobby
  {
    s.(lobby := s.lobby - {"w"}, accepts := map["w" := Launching(s.lobby["w"].creator, challenger, w)])
  }

  lemma AcceptArrivesStep(s: Server, w: Wallet, own: Option<WagerId>, challenger: Wallet)
    requires MayAccept(s, w, own, challenger)
    ensures Next(s, AcceptArrives(w, own, "w")) == Arrived(s, w, own)
  {
    var a := Deciding(w, Some(s.lobby["w"]), own, false);
    assert s.accepts["w" := a] == map["w" := a];
  }

  lemma SnapshotProceeds(s: Server, w: Wallet, own: Option<WagerId>, challenger: Wallet)
    requires MayAccept(s, w, own, challenger)
    ensures OutcomeOf("w", Arrived(s, w, own).accepts["w"], Active) == Proceed
  {
  }

  lemma AcceptDecidesStep(s: Server, w: Wallet, own: Option<WagerId>, challenger: Wallet)
    requires MayAccept(s, w, own, challenger)
    ensures Next(Arrived(s, w, own), AcceptDecides("w", Some(Active), true)) == Decided(s, w, challenger)
  {
    SnapshotProceeds(s, w, own, challenger);
    var one := Arrived(s, w, own);
    var launch := Launching(s.lobby["w"].creator, challenger, w);
    assert one.accepts["w" := launch] == map["w" := launch];
  }

  /** What the launch of the decided accept leaves. */
  ghost predicate AfterLaunch(s: Server, w: Wallet, challenger: Wallet, t: Server)
    requires "w" in s.lobby
  {
    var creator := s.lobby["w"].creator;
    t.fighting == s.fighting + {creator, challenger} && t.queue == s.queue - {creator, w} &&
    t.handshakes == s.handshakes && t.accepts == map[] && t.lobby.Keys <= s.lobby.Keys - {"w"}
  }

  lemma AcceptLaunchesStep(s: Server, w: Wallet, challenger: Wallet)
    requires "w" in s.lobby
    ensures AfterLaunch(s, w, challenger, Next(Decided(s, w, challenger), AcceptLaunches("w")))
  {
    var two := Decided(s, w, challenger);
    assert two.accepts - {"w"} == map[];
  }

  /** The three steps of an accept that goes through. */
  lemma AcceptRuns(events: seq<Event>, s: Server, w: Wallet, own: Option<WagerId>, challenger: Wallet)
    requires Run(EMPTY, events) == s && MayAccept(s, w, own, challenger)
    ensures AfterLaunch(s, w, challenger, Run(EMPTY, events + Accepted(w, own)))
  {
    AcceptArrivesStep(s, w, own, challenger);
    AcceptDecidesStep(s, w, own, challenger);
    AcceptLaunchesStep(s, w, challenger);
    var arrives, decides := AcceptArrives(w, own, "w"), AcceptDecides("w", Some(Active), true);
    Then(EMPTY, events, arrives, s, Arrived(s, w, own));
    Then(EMPTY, events + [arrives], decides, Arrived(s, w, own), Decided(s, w, challenger));
    RunSnoc(EMPTY, events + [arrives] + [decides], AcceptLaunches("w"));
    assert events + [arrives] + [decides] + [AcceptLaunches("w")] == events + Accepted(w, own);
  }

  /** Bob's challenge is pending, so nothing stops him queueing; Alice's approval then starts his fight. */
  lemma QueuedChallengerClashes()
    ensures var s := Run(EMPTY, UntilRequested() + [QueueFight(BOB, None)] + Accepted(ALICE, Some("w")));
            BOB in s.queue && BOB in s.fighting
  {
    Distinct();
    RequestedIsReached();
    MayEnter(REQUESTED, BOB);
    var four := REQUESTED.(queue := {BOB});
    Then(EMPTY, UntilRequested(), QueueFight(BOB, None), REQUESTED, four);
    assert Owner(four.lobby, "w", ALICE);
    AcceptRuns(UntilRequested() + [QueueFight(BOB, None)], four, ALICE, Some("w"), BOB);
  }

  // ----- Whose fight it is -----

  /** Carol, who has staked nothing, sends the accept of a live wager and gets Bob's fight. */
  lemma ThirdWalletGetsTheFight()
    ensures Run(EMPTY, UntilRequested()).lobby == map["w" := Entry(ALICE, Some(BOB))]
    ensures Run(EMPTY, UntilRequested() + Accepted(CAROL, None)).fighting == {ALICE, CAROL}
  {
    Distinct();
    RequestedIsReached();
    MayEnter(REQUESTED, CAROL);
    AcceptRuns(UntilRequested(), REQUESTED, CAROL, None, CAROL);
  }

  function UntilStarted(): seq<Event> {
    [OPENS] + [HandshakeArrives(BOB, "w", RequestAccepted)] + Accepted(BOB, None)
  }

  ghost predicate StartedWithHandshake(s: Server) {
    s.fighting == {ALICE, BOB} && s.queue == {} && s.handshakes == multiset{BOB_REQUESTS} &&
    s.accepts == map[] && s.lobby == map[]
  }

  /** Bob's handshake is still waiting for the chain when his accept starts the fight. */
  lemma StartedIsReached()
    ensures StartedWithHandshake(Run(EMPTY, UntilStarted()))
  {
    Distinct();
    Opened();
    var two := LISTED.(handshakes := multiset{BOB_REQUESTS});
    Then(EMPTY, [OPENS], HandshakeArrives(BOB, "w", RequestAccepted), LISTED, two);
    MayEnter(two, BOB);
    AcceptRuns([OPENS] + [HandshakeArrives(BOB, "w", RequestAccepted)], two, BOB, None, BOB);
  }

  lemma RelistedAgain(s: Server)
    requires StartedWithHandshake(s)
    ensures var t := Next(s, HandshakeResumes(BOB_REQUESTS, true));
            t.lobby == map["w" := Entry(ALICE, Some(BOB))] && t.fighting == s.fighting && t.queue == s.queue &&
            t.accepts == s.accepts
  {
    assert BOB_REQUESTS in s.handshakes;
  }

  lemma NotGoneYet(s: Server)
    requires StartedWithHandshake(s)
    ensures !Gone(s, "w")
  {
    assert BOB_REQUESTS in s.handshakes && BOB_REQUESTS.id == "w" && BOB_REQUESTS.entry.Some?;
  }

  /** Written back after the fight has started, Bob's handshake lists the wager again; Carol's accept starts another. */
  lemma LateHandshakeStartsSecondFight()
    ensures Run(EMPTY, UntilStarted()).fighting == {ALICE, BOB} && !Gone(Run(EMPTY, UntilStarted()), "w")
    ensures Run(EMPTY, UntilStarted() + [HandshakeResumes(BOB_REQUESTS, true)] + Accepted(CAROL, None)).fighting ==
              {ALICE, BOB, CAROL}
  {
    StartedIsReached();
    var five := Run(EMPTY, UntilStarted());
    NotGoneYet(five);
    RelistedAgain(five);
    RunSnoc(EMPTY, UntilStarted(), HandshakeResumes(BOB_REQUESTS, true));
    var six := Next(five, HandshakeResumes(BOB_REQUESTS, true));
    Distinct();
    MayEnter(six, CAROL);
    AcceptRuns(UntilStarted() + [HandshakeResumes(BOB_REQUESTS, true)], six, CAROL, None, CAROL);
  }
}
