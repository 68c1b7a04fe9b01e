/**
  * How an election goes, scene by scene: the replica asks about the founder, two bridges attest its absence and
  * then vote, and the replica is promoted. All of it may happen at one moment.
  */
module ElectionScenes {
  import opened Community
  import opened Quorums
  import opened BridgeLedger
  import opened Bridge
  import opened HostWriter
  import opened Coordinator
  import opened WitnessCollection
  import opened Failover
  import opened TimedSystem
  import opened Scenes

  function AbsenceAt(p: Params, a: HostId, b: HostId, i: BridgeId, now: int): AbsenceWitness {
    AbsenceWitness(i, i, p.scope.server, b, a, HashOf(FirstRecord(p, a)), 1, false, now, now + 5_000)
  }

  function VoteAt(p: Params, a: HostId, b: HostId, now: int): Vote {
    Vote(ElectionKey(p.scope, 2), b, a, HashOf(FirstRecord(p, a)), now)
  }

  function VotesAt(p: Params, a: HostId, b: HostId, now: int): map<ElectionKey, Vote> {
    map[ElectionKey(p.scope, 2) := VoteAt(p, a, b, now)]
  }

  function ReceiptAt(p: Params, a: HostId, b: HostId, i: BridgeId, n: nat, now: int): Receipt {
    Receipt(i, i, Word(n), p.scope.server, b, a, HashOf(FirstRecord(p, a)), 1, 2, now, now, now + RECEIPT_TTL_MS)
  }

  function AskAt(a: HostId, b: HostId, now: int): Ask { Ask(b, Word(1), a, now) }

  function WitnessAt(p: Params, a: HostId, b: HostId, i: BridgeId, now: int): WitnessMsg {
    WitnessMsg(Word(1), AbsenceAt(p, a, b, i, now))
  }

  function ClaimAt(p: Params, a: HostId, b: HostId, i: BridgeId, n: nat, now: int): ClaimMsg {
    ClaimMsg(i, Word(n), AbsenceAt(p, a, b, i, now))
  }

  const NO_ELECTIONS := Elections(map[], {}, {}, {}, {})

  // ---------------------------------------------------------------- single scenes

  predicate CampaignMay(s: Sys, h: HostId, event: CampaignEvent) { CampaignEnabled(s, h, event) }

  lemma CollectScene(p: Params, f: Film, a: HostId, but: Leeway, h: HostId, event: CampaignEvent) returns (g: Film)
    requires Shot(p, f, a, but) && CampaignMay(f.last, h, event)
    ensures Shot(p, g, a, but) && g.last == f.last.(elections := ElectionsAfter(p, f.last.elections, h, event, f.last.now))
  {
    hide Shot, ElectionsAfter, CampaignEnabled;
    var s' := f.last.(elections := ElectionsAfter(p, f.last.elections, h, event, f.last.now));
    assert Next(p, f.last, s', Collect(h, event)) by { MayCollect(p, f.last, s', h, event); }
    Shoot(p, f, a, but, Collect(h, event), s');
    g := Extended(f, Collect(h, event), s');
  }

  lemma MayCollect(p: Params, s: Sys, s': Sys, h: HostId, event: CampaignEvent)
    requires CampaignMay(s, h, event) && s' == s.(elections := ElectionsAfter(p, s.elections, h, event, s.now))
    ensures Next(p, s, s', Collect(h, event))
  {
  }

  /** The bridge knows the founder by its first record and has missed it for the whole grace. */
  predicate Misses(p: Params, s: Sys, a: HostId, i: BridgeId, top: Mark) {
    && i in s.bridges && i in p.configs && KnownPrimary(s.bridges[i].ledger.marks, p.scope, Some(top))
    && top.key == KeyOf(p, a) && top.recordHash == HashOf(FirstRecord(p, a)) && top.epoch == 1
    && Absent(s.bridges[i].sockets, KeyOf(p, a), s.wires.alive, Grace(p.configs[i]), s.now)
  }

  lemma GoneMisses(p: Params, s: Sys, a: HostId, i: BridgeId, since: int, votes: map<ElectionKey, Vote>)
    requires BridgeIs(s, i, Registered(p, a, Away(p, a, since), votes)) && LongGone(p, i, since, s.now)
    ensures Misses(p, s, a, i, FirstMark(p, a))
  {
    hide Grace;
  }

  lemma AttestScene(p: Params, f: Film, a: HostId, b: HostId, but: Leeway, i: BridgeId, top: Mark) returns (g: Film)
    requires Shot(p, f, a, but) && ParamsOk(p) && Misses(p, f.last, a, i, top) && AskAt(a, b, f.last.now) in f.last.elections.asks
    ensures Shot(p, g, a, but)
    ensures g.last == f.last.(elections := f.last.elections.(witnesses := f.last.elections.witnesses + {WitnessAt(p, a, b, i, f.last.now)}))
  {
    hide Shot, KnownPrimary, Absent, FirstRecord;
    var s, t := f.last, Attest(i, AskAt(a, b, f.last.now), top);
    var s' := s.(elections := s.elections.(witnesses := s.elections.witnesses + {WitnessAt(p, a, b, i, s.now)}));
    assert Attested(p, s, i, t.ask, top) == AbsenceAt(p, a, b, i, s.now);
    Shoot(p, f, a, but, t, s');
    g := Extended(f, t, s');
  }

  // ---------------------------------------------------------------- asking

  function Answers(p: Params, a: HostId, b: HostId, i: BridgeId, j: BridgeId, now: int): map<BridgeId, AbsenceWitness> {
    map[i := AbsenceAt(p, a, b, i, now), j := AbsenceAt(p, a, b, j, now)]
  }

  /** The replica's attempt and the messages of it, once both bridges have attested the absence. */
  function Ballots(p: Params, a: HostId, b: HostId, i: BridgeId, j: BridgeId, now: int, c: Campaign, claims: set<ClaimMsg>): Elections {
    Elections(map[b := c], {Handout(FirstRecord(p, a), now)}, {AskAt(a, b, now)}, {WitnessAt(p, a, b, i, now), WitnessAt(p, a, b, j, now)}, claims)
  }

  function AskingWith(p: Params, a: HostId, b: HostId, now: int, answers: map<BridgeId, AbsenceWitness>): Campaign {
    Asking(AskAt(a, b, now), FirstRecord(p, a), answers)
  }

  function VotingWith(p: Params, a: HostId, b: HostId, i: BridgeId, j: BridgeId, now: int, order: seq<BridgeId>, claim: Option<ClaimMsg>,
                      votes: map<BridgeId, Receipt>): Campaign {
    Voting(FirstRecord(p, a), Answers(p, a, b, i, j, now), order, claim, votes)
  }

  /** The replica may ask: a bridge still hands out the founder's record, and no attempt has begun. */
  predicate Askable(p: Params, s: Sys, a: HostId, b: HostId, k: BridgeId) {
    && s.elections == NO_ELECTIONS && Follows(p, s, a, b) && Early(s.now)
    && k in s.bridges && KeyOf(p, a) in s.bridges[k].records && s.bridges[k].records[KeyOf(p, a)].record == FirstRecord(p, a)
    && s.bridges[k].records[KeyOf(p, a)].expiresAt == START + RECORD_TTL_MS
  }

  lemma AskBoth(p: Params, f: Film, a: HostId, b: HostId, but: Leeway, k: BridgeId) returns (g: Film)
    requires Shot(p, f, a, but) && Askable(p, f.last, a, b, k)
    ensures Shot(p, g, a, but)
    ensures var e := Elections(map[b := AskingWith(p, a, b, f.last.now, map[])], {Handout(FirstRecord(p, a), f.last.now)}, {AskAt(a, b, f.last.now)}, {}, {});
      g.last == f.last.(elections := e)
  {
    hide Shot;
    var s := f.last;
    var s' := s.(elections := s.elections.(handouts := {Handout(FirstRecord(p, a), s.now)}));
    Shoot(p, f, a, but, HandOut(k, a), s');
    g := Extended(f, HandOut(k, a), s');
    assert Handout(FirstRecord(p, a), s.now) in g.last.elections.handouts;
    g := CollectScene(p, g, a, but, b, AskBridges(FirstRecord(p, a), Word(1)));
  }

  lemma WitnessIsHeard(p: Params, a: HostId, b: HostId, i: BridgeId, now: int, answers: map<BridgeId, AbsenceWitness>)
    requires i in W(p) && i !in answers
    ensures HearWitness(AskingWith(p, a, b, now, answers), WitnessAt(p, a, b, i, now), p.scope.server, W(p), now)
      == AskingWith(p, a, b, now, answers[i := AbsenceAt(p, a, b, i, now)])
  {
  }

  lemma HearBoth(p: Params, f: Film, a: HostId, b: HostId, but: Leeway, i: BridgeId, j: BridgeId) returns (g: Film)
    requires Shot(p, f, a, but) && i in W(p) && j in W(p) && i != j
    requires f.last.elections == Ballots(p, a, b, i, j, f.last.now, AskingWith(p, a, b, f.last.now, map[]), {})
    ensures Shot(p, g, a, but)
    ensures g.last == f.last.(elections := Ballots(p, a, b, i, j, f.last.now, AskingWith(p, a, b, f.last.now, Answers(p, a, b, i, j, f.last.now)), {}))
  {
    hide Shot, HearWitness, FirstRecord;
    var now := f.last.now;
    var one := map[i := AbsenceAt(p, a, b, i, now)];
    WitnessIsHeard(p, a, b, i, now, map[]);
    WitnessIsHeard(p, a, b, j, now, one);
    assert map[][i := AbsenceAt(p, a, b, i, now)] == one && one[j := AbsenceAt(p, a, b, j, now)] == Answers(p, a, b, i, j, now);
    g := CollectScene(p, f, a, but, b, WitnessArrives(WitnessAt(p, a, b, i, now)));
    assert g.last.elections == Ballots(p, a, b, i, j, now, AskingWith(p, a, b, now, one), {});
    g := CollectScene(p, g, a, but, b, WitnessArrives(WitnessAt(p, a, b, j, now)));
  }

  lemma BothMiss(p: Params, a: HostId, b: HostId, i: BridgeId, j: BridgeId, now: int)
    requires ParamsOk(p) && i in W(p) && j in W(p) && i != j
    ensures CloseAsking(AskingWith(p, a, b, now, Answers(p, a, b, i, j, now)), W(p), [i, j]) == VotingWith(p, a, b, i, j, now, [i, j], None, map[])
  {
    assert Answers(p, a, b, i, j, now).Keys == {i, j} && |{i, j}| == 2;
  }

  /** Two bridges attest the absence, and the replica is about to ask them for their votes. */
  lemma Canvass(p: Params, f: Film, a: HostId, b: HostId, but: Leeway, i: BridgeId, top: Mark, j: BridgeId, peak: Mark, k: BridgeId)
    returns (g: Film)
    requires Shot(p, f, a, but) && ParamsOk(p) && i in W(p) && j in W(p) && i != j && Askable(p, f.last, a, b, k)
    requires Misses(p, f.last, a, i, top) && Misses(p, f.last, a, j, peak)
    ensures Shot(p, g, a, but)
    ensures g.last == f.last.(elections := Ballots(p, a, b, i, j, f.last.now, VotingWith(p, a, b, i, j, f.last.now, [i, j], None, map[]), {}))
  {
    hide Shot, FirstRecord, CloseAsking, Absent, KnownPrimary, Follower, ParamsOk;
    var now := f.last.now;
    var asked := AskBoth(p, f, a, b, but, k);
    hide Askable, Early;
    var one := AttestScene(p, asked, a, b, but, i, top);
    var two := AttestScene(p, one, a, b, but, j, peak);
    assert two.last.elections == Ballots(p, a, b, i, j, now, AskingWith(p, a, b, now, map[]), {});
    var heard := HearBoth(p, two, a, b, but, i, j);
    BothMiss(p, a, b, i, j, now);
    g := CollectScene(p, heard, a, but, b, AskingEnds([i, j]));
  }

  // ---------------------------------------------------------------- voting

  lemma AbsenceGetsVote(p: Params, a: HostId, b: HostId, i: BridgeId, since: int, open: set<Socket>, n: nat, now: int)
    requires ParamsOk(p) && |b| >= 1 && n >= 1 && LongGone(p, i, since, now)
    ensures ClaimVote(Registered(p, a, Away(p, a, since), map[]), Word(n), p.scope.authority, AbsenceAt(p, a, b, i, now),
                      Some(FirstMark(p, a)), open, p.configs[i], now, true)
      == (Registered(p, a, Away(p, a, since), VotesAt(p, a, b, now)), Granted(ReceiptAt(p, a, b, i, n, now)))
  {
    var v := Registered(p, a, Away(p, a, since), map[]);
    assert Scope(p.scope.authority, p.scope.server) == p.scope;
    assert Word(n) != "";
    assert DurableEntryCount(v.ledger) < MAX_DURABLE_ENTRIES;
    assert WithVote(v.ledger, VoteAt(p, a, b, now)).votes == VotesAt(p, a, b, now);
  }

  /** A bridge the founder has left for the whole grace votes for the replica. */
  lemma VoteFor(p: Params, f: Film, a: HostId, b: HostId, but: Leeway, i: BridgeId, since: int, n: nat) returns (g: Film)
    requires Shot(p, f, a, but) && ParamsOk(p) && |b| >= 1 && n >= 1
    requires BridgeIs(f.last, i, Registered(p, a, Away(p, a, since), map[])) && LongGone(p, i, since, f.last.now)
    requires ClaimMsg(i, Word(n), AbsenceAt(p, a, b, i, f.last.now)) in f.last.elections.claims
    ensures Shot(p, g, a, but)
    ensures var s, s' := f.last, g.last;
      s' == s.(bridges := s.bridges[i := Registered(p, a, Away(p, a, since), VotesAt(p, a, b, s.now))],
               net := s.net.(receipts := s.net.receipts + {ReceiptAt(p, a, b, i, n, s.now)}),
               history := s.history.(absences := s'.history.absences))
  {
    hide Shot, ClaimVote;
    var s, v := f.last, f.last.bridges[i];
    AbsenceGetsVote(p, a, b, i, since, s.wires.alive, n, s.now);
    assert KnownPrimary(v.ledger.marks, p.scope, Some(FirstMark(p, a)));
    assert CutOff(v.sockets, Away(p, a, since), s.wires.alive) == {};
    UncutNothing(s.history);
    g := BridgeScene(p, f, a, but, Claim(i, Word(n), AbsenceAt(p, a, b, i, s.now), Some(FirstMark(p, a)), true));
  }

  /** The first bridge in order is asked for its vote. */
  lemma ClaimFirst(p: Params, f: Film, a: HostId, b: HostId, but: Leeway, i: BridgeId, j: BridgeId) returns (g: Film)
    requires Shot(p, f, a, but)
    requires f.last.elections == Ballots(p, a, b, i, j, f.last.now, VotingWith(p, a, b, i, j, f.last.now, [i, j], None, map[]), {})
    ensures Shot(p, g, a, but)
    ensures var c := ClaimAt(p, a, b, i, 1, f.last.now);
      g.last == f.last.(elections := Ballots(p, a, b, i, j, f.last.now, VotingWith(p, a, b, i, j, f.last.now, [j], Some(c), map[]), {c}))
  {
    hide Shot, FirstRecord;
    g := CollectScene(p, f, a, but, b, ClaimNext(Word(1)));
  }

  lemma VoteIsHeard(p: Params, a: HostId, b: HostId, i: BridgeId, j: BridgeId, k: BridgeId, n: nat, now: int, order: seq<BridgeId>,
                    votes: map<BridgeId, Receipt>)
    requires k in {i, j}
    ensures HearReply(VotingWith(p, a, b, i, j, now, order, Some(ClaimAt(p, a, b, k, n, now)), votes), VoteGranted(ReceiptAt(p, a, b, k, n, now)),
                      p.scope.server, now)
      == VotingWith(p, a, b, i, j, now, order, None, votes[k := ReceiptAt(p, a, b, k, n, now)])
  {
  }

  /** The first bridge has voted, and the second has not been asked. */
  function OneVoteIn(p: Params, a: HostId, b: HostId, i: BridgeId, j: BridgeId, now: int): Elections {
    Ballots(p, a, b, i, j, now, VotingWith(p, a, b, i, j, now, [j], None, map[i := ReceiptAt(p, a, b, i, 1, now)]), {ClaimAt(p, a, b, i, 1, now)})
  }

  lemma HearFirst(p: Params, f: Film, a: HostId, b: HostId, but: Leeway, i: BridgeId, j: BridgeId) returns (g: Film)
    requires Shot(p, f, a, but) && ReceiptAt(p, a, b, i, 1, f.last.now) in f.last.net.receipts
    requires var c := ClaimAt(p, a, b, i, 1, f.last.now);
      f.last.elections == Ballots(p, a, b, i, j, f.last.now, VotingWith(p, a, b, i, j, f.last.now, [j], Some(c), map[]), {c})
    ensures Shot(p, g, a, but)
    ensures g.last == f.last.(elections := OneVoteIn(p, a, b, i, j, f.last.now))
  {
    hide Shot, FirstRecord, HearReply;
    var r := ReceiptAt(p, a, b, i, 1, f.last.now);
    VoteIsHeard(p, a, b, i, j, i, 1, f.last.now, [j], map[]);
    assert map[][i := r] == map[i := r];
    g := CollectScene(p, f, a, but, b, ReplyArrives(VoteGranted(r)));
  }

  lemma NextIsClaimed(p: Params, a: HostId, b: HostId, i: BridgeId, j: BridgeId, now: int, votes: map<BridgeId, Receipt>)
    ensures SendClaim(VotingWith(p, a, b, i, j, now, [j], None, votes), Word(2))
      == VotingWith(p, a, b, i, j, now, [], Some(ClaimAt(p, a, b, j, 2, now)), votes)
  {
    assert [j][1..] == [];
  }

  /** The second is asked after the first has answered. */
  lemma ClaimSecond(p: Params, f: Film, a: HostId, b: HostId, but: Leeway, i: BridgeId, j: BridgeId) returns (g: Film)
    requires Shot(p, f, a, but) && i != j && f.last.elections == OneVoteIn(p, a, b, i, j, f.last.now)
    ensures Shot(p, g, a, but)
    ensures var c, d, r := ClaimAt(p, a, b, i, 1, f.last.now), ClaimAt(p, a, b, j, 2, f.last.now), ReceiptAt(p, a, b, i, 1, f.last.now);
      g.last == f.last.(elections := Ballots(p, a, b, i, j, f.last.now, VotingWith(p, a, b, i, j, f.last.now, [], Some(d), map[i := r]), {c, d}))
  {
    hide Shot, FirstRecord;
    var c, d := ClaimAt(p, a, b, i, 1, f.last.now), ClaimAt(p, a, b, j, 2, f.last.now);
    assert |Word(1)| != |Word(2)| && {c} + {d} == {c, d};
    NextIsClaimed(p, a, b, i, j, f.last.now, map[i := ReceiptAt(p, a, b, i, 1, f.last.now)]);
    hide SendClaim;
    g := CollectScene(p, f, a, but, b, ClaimNext(Word(2)));
  }

  lemma TwoValues(i: BridgeId, j: BridgeId, r: Receipt, q: Receipt)
    requires i != j
    ensures map[i := r][j := q].Values == {r, q}
  {
    var m := map[i := r][j := q];
    assert m[i] == r && m[j] == q;
  }

  lemma HearSecond(p: Params, f: Film, a: HostId, b: HostId, but: Leeway, i: BridgeId, j: BridgeId) returns (g: Film)
    requires Shot(p, f, a, but) && i != j && ReceiptAt(p, a, b, j, 2, f.last.now) in f.last.net.receipts
    requires var c, d, r := ClaimAt(p, a, b, i, 1, f.last.now), ClaimAt(p, a, b, j, 2, f.last.now), ReceiptAt(p, a, b, i, 1, f.last.now);
      f.last.elections == Ballots(p, a, b, i, j, f.last.now, VotingWith(p, a, b, i, j, f.last.now, [], Some(d), map[i := r]), {c, d})
    ensures Shot(p, g, a, but)
    ensures g.last == f.last.(elections := g.last.elections)
    ensures Concludes(CampaignOf(g.last.elections, b), {ReceiptAt(p, a, b, i, 1, f.last.now), ReceiptAt(p, a, b, j, 2, f.last.now)})
  {
    hide Shot, FirstRecord, HearReply;
    var r, q := ReceiptAt(p, a, b, i, 1, f.last.now), ReceiptAt(p, a, b, j, 2, f.last.now);
    VoteIsHeard(p, a, b, i, j, j, 2, f.last.now, [], map[i := r]);
    TwoValues(i, j, r, q);
    g := CollectScene(p, f, a, but, b, ReplyArrives(VoteGranted(q)));
  }

  // ---------------------------------------------------------------- the promotion

  lemma VotesElect(p: Params, a: HostId, b: HostId, i: BridgeId, j: BridgeId, now: int)
    requires ParamsOk(p) && i in W(p) && j in W(p) && i != j
    ensures MayPromote(Follower(p, a, b), 1, {ReceiptAt(p, a, b, i, 1, now), ReceiptAt(p, a, b, j, 2, now)}, true, now)
  {
    var r, q := ReceiptAt(p, a, b, i, 1, now), ReceiptAt(p, a, b, j, 2, now);
    assert VotingBridges({r, q}) == {i, j};
    assert {i, j} <= W(p) && |{i, j}| == 2;
    assert |Word(1)| != |Word(2)|;
  }

  predicate Electable(s: Sys, b: HostId, votes: set<Receipt>) {
    && b in s.nodes && votes <= s.net.receipts && Concludes(CampaignOf(s.elections, b), votes)
    && MayPromote(s.nodes[b].service, 1, votes, true, s.now)
  }

  /** `b` writes, and nothing else a later scene asks about has changed. */
  predicate Won(s: Sys, s': Sys, b: HostId) {
    && b in s'.nodes && s' == s.(nodes := s.nodes[b := s'.nodes[b]], elections := s'.elections, history := s'.history)
    && s'.nodes[b].service.writer && s'.history.evidence == s.history.evidence
  }

  lemma WinnerWrites(p: Params, s: Sys, b: HostId, votes: set<Receipt>)
    requires Electable(s, b, votes)
    ensures Won(s, HostAfter(p, s, WinElection(b, 1, votes, true)), b)
  {
    hide MayPromote, Persist;
    var n := s.nodes[b];
    var service := Promote(n.service, 1, votes, true, s.now);
    assert service.writer && !n.service.writer by { PromotedWrites(n.service, votes, s.now); }
    assert Win(n, 1, votes, true, s.now).service == service;
  }

  lemma PromotedWrites(x: Host, votes: set<Receipt>, now: int)
    requires MayPromote(x, 1, votes, true, now)
    ensures Promote(x, 1, votes, true, now).writer && !x.writer
  {
  }

  lemma MayWin(p: Params, s: Sys, b: HostId, votes: set<Receipt>)
    requires Electable(s, b, votes)
    ensures HostMay(p, s, WinElection(b, 1, votes, true)) && OnTime(p, s, WinElection(b, 1, votes, true))
  {
    hide MayPromote;
  }

  /** The replica wins the election. */
  lemma Elect(p: Params, f: Film, a: HostId, b: HostId, but: Leeway, votes: set<Receipt>) returns (g: Film)
    requires Shot(p, f, a, but) && Electable(f.last, b, votes)
    ensures Shot(p, g, a, but) && |g.steps| == |f.steps| + 1 && g.steps[|f.steps|].WinElection?
    ensures Won(f.last, g.last, b)
  {
    hide Shot, Electable, HostAfter, HostMay, OnTime;
    WinnerWrites(p, f.last, b, votes);
    MayWin(p, f.last, b, votes);
    g := HostScene(p, f, a, but, WinElection(b, 1, votes, true));
  }

  lemma WonBeside(s: Sys, s': Sys, a: HostId, b: HostId)
    requires a in s.nodes && s.nodes[a].service.writer && a != b && Won(s, s', b)
    ensures !AtMostOneWriter(s')
  {
    assert s'.nodes[a].service.writer && s'.nodes[b].service.writer;
  }

  // ---------------------------------------------------------------- a whole election

  /** Both bridges have voted and the replica writes. */
  predicate Elected(p: Params, s: Sys, s': Sys, a: HostId, b: HostId, i: BridgeId, j: BridgeId, left: int, gone: int) {
    && b in s'.nodes && s'.nodes == s.nodes[b := s'.nodes[b]] && s'.nodes[b].service.writer
    && s'.now == s.now && s'.wires == s.wires && s'.timers == s.timers && s'.net == s.net.(receipts := s'.net.receipts)
    && s'.history.evidence == s.history.evidence
    && s'.bridges == s.bridges[i := Registered(p, a, Away(p, a, left), VotesAt(p, a, b, s.now))]
                              [j := Registered(p, a, Away(p, a, gone), VotesAt(p, a, b, s.now))]
  }

  lemma GoneIsAskable(p: Params, s: Sys, a: HostId, b: HostId, i: BridgeId, since: int)
    requires s.elections == NO_ELECTIONS && Follows(p, s, a, b) && Early(s.now)
    requires BridgeIs(s, i, Registered(p, a, Away(p, a, since), map[]))
    ensures Askable(p, s, a, b, i)
  {
  }

  lemma BothVote(p: Params, f: Film, a: HostId, b: HostId, but: Leeway, i: BridgeId, left: int, j: BridgeId, gone: int) returns (g: Film)
    requires Shot(p, f, a, but) && CastOk(p, a, b) && i in W(p) && j in W(p) && i != j
    requires f.last.elections == NO_ELECTIONS && Follows(p, f.last, a, b) && Early(f.last.now)
    requires BridgeIs(f.last, i, Registered(p, a, Away(p, a, left), map[])) && LongGone(p, i, left, f.last.now)
    requires BridgeIs(f.last, j, Registered(p, a, Away(p, a, gone), map[])) && LongGone(p, j, gone, f.last.now)
    ensures Shot(p, g, a, but)
    ensures var s, s', r, q := f.last, g.last, ReceiptAt(p, a, b, i, 1, f.last.now), ReceiptAt(p, a, b, j, 2, f.last.now);
      && s' == s.(bridges := s'.bridges, net := s.net.(receipts := s.net.receipts + {r} + {q}), elections := s'.elections,
                  history := s.history.(absences := s'.history.absences))
      && s'.bridges == s.bridges[i := Registered(p, a, Away(p, a, left), VotesAt(p, a, b, s.now))]
                                [j := Registered(p, a, Away(p, a, gone), VotesAt(p, a, b, s.now))]
      && Concludes(CampaignOf(s'.elections, b), {r, q})
  {
    hide Shot, Registered, Away, VotesAt, ReceiptAt, LongGone, Askable, ParamsOk, FirstRecord, Concludes;
    hide AbsenceAt, Misses, Follows, Early;
    GoneIsAskable(p, f.last, a, b, i, left);
    GoneMisses(p, f.last, a, i, left, map[]);
    GoneMisses(p, f.last, a, j, gone, map[]);
    var asked := Canvass(p, f, a, b, but, i, FirstMark(p, a), j, FirstMark(p, a), i);
    var first := ClaimFirst(p, asked, a, b, but, i, j);
    var voted := VoteFor(p, first, a, b, but, i, left, 1);
    var heard := HearFirst(p, voted, a, b, but, i, j);
    var second := ClaimSecond(p, heard, a, b, but, i, j);
    var both := VoteFor(p, second, a, b, but, j, gone, 2);
    g := HearSecond(p, both, a, b, but, i, j);
  }

  lemma ElectNow(p: Params, f: Film, a: HostId, b: HostId, but: Leeway, i: BridgeId, left: int, j: BridgeId, gone: int) returns (g: Film)
    requires Shot(p, f, a, but) && CastOk(p, a, b) && i in W(p) && j in W(p) && i != j
    requires f.last.elections == NO_ELECTIONS && Follows(p, f.last, a, b) && Early(f.last.now)
    requires BridgeIs(f.last, i, Registered(p, a, Away(p, a, left), map[])) && LongGone(p, i, left, f.last.now)
    requires BridgeIs(f.last, j, Registered(p, a, Away(p, a, gone), map[])) && LongGone(p, j, gone, f.last.now)
    ensures Shot(p, g, a, but) && Elected(p, f.last, g.last, a, b, i, j, left, gone)
    ensures |g.steps| >= 1 && g.steps[|g.steps| - 1].WinElection?
  {
    hide Shot, Registered, Away, VotesAt, ReceiptAt, LongGone, ParamsOk, FirstRecord, Concludes, MayPromote, Follower;
    var voted := BothVote(p, f, a, b, but, i, left, j, gone);
    VotesElect(p, a, b, i, j, f.last.now);
    g := Elect(p, voted, a, b, but, {ReceiptAt(p, a, b, i, 1, f.last.now), ReceiptAt(p, a, b, j, 2, f.last.now)});
  }
}
