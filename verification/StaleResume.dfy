/**
  * Why a resume has to be fresh. With three bridges one may have voted, and another served the founder too long
  * ago: then the founder resumes although nobody of its acknowledgement set has voted, the bridge that has
  * not served it for so long votes at once, and the replica is elected beside it.
  */
module StaleResume {
  import opened Community
  import opened Quorums
  import opened BridgeLedger
  import opened Bridge
  import opened HostWriter
  import opened Coordinator
  import opened WitnessCollection
  import opened Failover
  import opened TimedSystem
  import opened Scenes
  import opened ElectionScenes
  import opened NeededHypotheses
  import opened WriterLoops
  import opened ShortGrace
  import RegistrationQuorum

  predicate FirstSockets(x: Socket, y: Socket, z: Socket) { x.serial == 0 && y.serial == 0 && z.serial == 0 }

  // ---------------------------------------------------------------- half a quorum

  /** The founder has been at the bridge of `z`, and has restarted. */
  predicate Restarted(p: Params, s: Sys, a: HostId, b: HostId, x: Socket, y: Socket, z: Socket) {
    && s.now == START && s.nodes == map[a := Waiting(p, a), b := Started(Follower(p, a, b), START)] && s.bridges.Keys == W(p)
    && BridgeIs(s, x.bridge, Restart(EMPTY)) && BridgeIs(s, y.bridge, Restart(EMPTY))
    && BridgeIs(s, z.bridge, Registered(p, a, Away(p, a, START), map[]))
    && s.wires == Wires(map[LineOf(z) := z], {z}, {}) && FirstRecord(p, a) in s.net.records && NonceUnused(s.net, 2)
    && s.timers == Timers(map[a := START, b := START], map[a := START, b := START]) && s.elections == NO_ELECTIONS
  }

  /** It restarts and signs its first record once more. */
  lemma RestartAndSign(p: Params, f: Film, a: HostId, b: HostId) returns (g: Film)
    requires Shot(p, f, a, ButStaleResumes) && ParamsOk(p) && a != b && HasFirstDb(p, f.last, a)
    requires f.last.now == START && f.last.elections == NO_ELECTIONS
    requires f.last.nodes.Keys == {a, b} && f.last.nodes[b] == Started(Follower(p, a, b), START)
    requires FirstRecord(p, a) in f.last.net.records
    ensures Shot(p, g, a, ButStaleResumes)
    ensures g.last == f.last.(nodes := map[a := Waiting(p, a), b := Started(Follower(p, a, b), START)])
  {
    hide Shot, FirstRecord, EnsureRound, Waiting, NeededHypotheses.Suspended, Founder, FounderDb, Follower, ParamsOk;
    g := RestartFounder(p, f, a, ButStaleResumes);
    SuspendedSigns(p, a);
    g := Sign(p, g, a, ButStaleResumes);
    assert f.last.net.records + {FirstRecord(p, a)} == f.last.net.records;
    assert g.last.nodes == map[a := Waiting(p, a), b := Started(Follower(p, a, b), START)];
  }

  lemma VisitAndRestart(p: Params, a: HostId, b: HostId, x: Socket, y: Socket, z: Socket) returns (g: Film)
    requires CastOk(p, a, b) && ThreeBridges(p, x, y, z, a) && FirstSockets(x, y, z)
    ensures Shot(p, g, a, ButStaleResumes) && Restarted(p, g.last, a, b, x, y, z)
  {
    hide Shot, Registered, FirstRecord, EnsureRound, Waiting, Founder, FounderDb, Follower, ParamsOk, Restart, NonceUnused;
    var signed := OpenAndSign(p, a, b, ButStaleResumes);
    SignedTimers(p, signed.last, a, b);
    FounderSigns(p, a);
    var visited := Visit(p, signed, a, ButStaleResumes, z, 1);
    g := RestartAndSign(p, visited, a, b);
  }

  /** Two bridges lost the founder at the start; it has the answer of one of them and waits for another. */
  predicate HalfQuorum(p: Params, s: Sys, a: HostId, b: HostId, x: Socket, y: Socket, z: Socket) {
    && s.nodes == map[a := HalfWay(p, a, x), b := Started(Follower(p, a, b), START)] && a != b
    && BridgeIs(s, x.bridge, Registered(p, a, Away(p, a, START), map[])) && BridgeIs(s, y.bridge, Restart(EMPTY))
    && BridgeIs(s, z.bridge, Registered(p, a, Away(p, a, START), map[]))
    && Unused(s.wires, y) && FirstRecord(p, a) in s.net.records && NonceUnused(s.net, 3)
    && Line(a, x.bridge) in s.history.evidence && s.history.evidence[Line(a, x.bridge)] == START
    && a in s.timers.pulsed && s.timers.pulsed[a] == START
  }

  lemma WaitingHasRound(p: Params, a: HostId)
    ensures Waiting(p, a).links == map[] && Waiting(p, a).round == Some(Publication(FirstRecord(p, a), false, {}))
  {
  }

  /** What a question to a bridge leaves: its answer is on its way. */
  predicate AskedNew(p: Params, s: Sys, s': Sys, a: HostId, k: Socket, n: nat) {
    && a in s.nodes
    && s' == Sys(s.now, s.bridges[k.bridge := Registered(p, a, Here(p, a, k), map[])], s.nodes[a := Asked(s.nodes[a], k)],
                 Connected(s.wires, k), s'.net, s.elections, s.timers, s'.history)
    && s'.net.records == s.net.records && s'.net.receipts == s.net.receipts && NonceUnused(s'.net, n + 1)
    && AckMsg(k, FirstRecord(p, a), s.now) in s'.net.acks && s'.history.evidence == s.history.evidence
  }

  lemma AskNew(p: Params, f: Film, a: HostId, k: Socket, n: nat) returns (g: Film)
    requires Shot(p, f, a, ButStaleResumes) && ParamsOk(p) && |a| >= 1 && Dialable(p, f.last, a, k) && Challengeable(p, f.last, a, n)
    requires BridgeIs(f.last, k.bridge, Restart(EMPTY)) && HasFirstRound(p, f.last, a)
    ensures Shot(p, g, a, ButStaleResumes) && AskedNew(p, f.last, g.last, a, k, n)
  {
    hide Shot, Registered, FirstRecord, ParamsOk, Restart, NonceUnused, Here, Publish, Dial, Connected, IsNewer;
    assert Registrable(p, a, Restart(EMPTY), map[]);
    hide Registrable;
    var registered := Register(p, f, a, ButStaleResumes, Restart(EMPTY), map[], k, n);
    NonceUsed(f.last.net, registered.last.net, k, n, HashOf(FirstRecord(p, a)));
    g := Offer(p, registered, a, ButStaleResumes, k.bridge);
    AskedIsBoth(f.last.nodes, a, k, g.last.nodes);
  }

  predicate HeardFirst(p: Params, s: Sys, s': Sys, a: HostId, k: Socket) {
    && s' == s.(nodes := s.nodes[a := HalfWay(p, a, k)], history := s'.history)
    && s'.history.evidence == s.history.evidence[Line(a, k.bridge) := s.now]
  }

  predicate LeftAgain(p: Params, s: Sys, s': Sys, a: HostId, k: Socket) {
    s' == s.(bridges := s.bridges[k.bridge := Registered(p, a, Away(p, a, s.now), map[])], wires := s.wires.(alive := s.wires.alive - {k}))
  }

  lemma HalfNodes(p: Params, s: Sys, e: Sys, h: Sys, s': Sys, a: HostId, b: HostId, x: Socket, y: Socket, z: Socket)
    requires a != b && ThreeBridges(p, x, y, z, a) && FirstSockets(x, y, z) && Restarted(p, s, a, b, x, y, z)
    requires AskedNew(p, s, e, a, x, 2) && HeardFirst(p, e, h, a, x) && LeftAgain(p, h, s', a, x)
    ensures s'.nodes == map[a := HalfWay(p, a, x), b := Started(Follower(p, a, b), START)] && s'.now == START
    ensures Line(a, x.bridge) in s'.history.evidence && s'.history.evidence[Line(a, x.bridge)] == START && s'.timers == s.timers
    ensures s'.elections == NO_ELECTIONS
  {
    hide Registered, FirstRecord, Waiting, HalfWay, Follower, Restart, Here, Away, Asked, NonceUnused;
    assert s'.nodes == s.nodes[a := HalfWay(p, a, x)];
  }

  lemma HalfBridges(p: Params, s: Sys, e: Sys, h: Sys, s': Sys, a: HostId, b: HostId, x: Socket, y: Socket, z: Socket)
    requires a != b && ThreeBridges(p, x, y, z, a) && FirstSockets(x, y, z) && Restarted(p, s, a, b, x, y, z)
    requires AskedNew(p, s, e, a, x, 2) && HeardFirst(p, e, h, a, x) && LeftAgain(p, h, s', a, x)
    ensures BridgeIs(s', x.bridge, Registered(p, a, Away(p, a, START), map[])) && BridgeIs(s', y.bridge, Restart(EMPTY))
    ensures BridgeIs(s', z.bridge, Registered(p, a, Away(p, a, START), map[]))
  {
    hide Registered, FirstRecord, Waiting, HalfWay, Follower, Restart, Here, Away, Asked, NonceUnused;
  }

  lemma HalfWires(p: Params, s: Sys, e: Sys, h: Sys, s': Sys, a: HostId, b: HostId, x: Socket, y: Socket, z: Socket)
    requires a != b && ThreeBridges(p, x, y, z, a) && FirstSockets(x, y, z) && Restarted(p, s, a, b, x, y, z)
    requires AskedNew(p, s, e, a, x, 2) && HeardFirst(p, e, h, a, x) && LeftAgain(p, h, s', a, x)
    ensures Unused(s'.wires, y) && FirstRecord(p, a) in s'.net.records && NonceUnused(s'.net, 3)
  {
    hide Registered, FirstRecord, Waiting, HalfWay, Follower, Restart, Here, Away, Asked, NonceUnused;
  }

  lemma HalfIsReached(p: Params, s: Sys, e: Sys, h: Sys, s': Sys, a: HostId, b: HostId, x: Socket, y: Socket, z: Socket)
    requires a != b && ThreeBridges(p, x, y, z, a) && FirstSockets(x, y, z) && Restarted(p, s, a, b, x, y, z)
    requires AskedNew(p, s, e, a, x, 2) && HeardFirst(p, e, h, a, x) && LeftAgain(p, h, s', a, x)
    ensures HalfQuorum(p, s', a, b, x, y, z) && s'.now == START && s'.elections == NO_ELECTIONS
  {
    HalfNodes(p, s, e, h, s', a, b, x, y, z);
    HalfBridges(p, s, e, h, s', a, b, x, y, z);
    HalfWires(p, s, e, h, s', a, b, x, y, z);
    hide AskedNew, HeardFirst, LeftAgain, Registered, FirstRecord, Waiting, HalfWay, Follower, Restart, Here, Away, NonceUnused;
  }

  lemma HearFromOne(p: Params, f: Film, a: HostId, b: HostId, x: Socket, y: Socket, z: Socket) returns (g: Film)
    requires Shot(p, f, a, ButStaleResumes) && CastOk(p, a, b) && ThreeBridges(p, x, y, z, a) && FirstSockets(x, y, z)
    requires Restarted(p, f.last, a, b, x, y, z) && p.delay >= 0
    ensures Shot(p, g, a, ButStaleResumes) && HalfQuorum(p, g.last, a, b, x, y, z) && g.last.now == START
    ensures g.last.elections == NO_ELECTIONS
  {
    hide Shot, Registered, FirstRecord, Waiting, HalfWay, Follower, ParamsOk, Restart, NonceUnused, Here, Away, Asked, HalfQuorum;
    WaitingHasRound(p, a);
    var asked := AskNew(p, f, a, x, 2);
    var heard := HearOne(p, asked, a, ButStaleResumes, x);
    g := Leave(p, heard, a, ButStaleResumes, x, map[]);
    HalfIsReached(p, f.last, asked.last, heard.last, g.last, a, b, x, y, z);
  }

  // ---------------------------------------------------------------- one vote, and the resume

  lemma HalfIsSilent(p: Params, s: Sys, a: HostId, b: HostId, x: Socket, y: Socket, z: Socket)
    requires HalfQuorum(p, s, a, b, x, y, z)
    ensures Silent(s)
  {
  }

  /** Two bridges have attested the founder's absence, and that of `z` has voted. */
  lemma OneVotes(p: Params, f: Film, a: HostId, b: HostId, x: Socket, y: Socket, z: Socket) returns (g: Film)
    requires Shot(p, f, a, ButStaleResumes) && CastOk(p, a, b) && ThreeBridges(p, x, y, z, a)
    requires HalfQuorum(p, f.last, a, b, x, y, z) && f.last.now == START && f.last.elections == NO_ELECTIONS
    requires Patience(p, x.bridge, z.bridge) < RECORD_TTL_MS
    ensures Shot(p, g, a, ButStaleResumes) && g.last.now == START + Patience(p, x.bridge, z.bridge)
    ensures ReceiptAt(p, a, b, z.bridge, 1, g.last.now) in g.last.net.receipts
    ensures HalfQuorum(p, g.last.(bridges := f.last.bridges), a, b, x, y, z)
    ensures g.last.bridges == f.last.bridges[z.bridge := Registered(p, a, Away(p, a, START), VotesAt(p, a, b, g.last.now))]
    ensures g.last.elections == OneVoteIn(p, a, b, z.bridge, x.bridge, g.last.now)
  {
    hide Shot, Registered, ParamsOk, VotesAt, ReceiptAt, LongGone, MayPass, Silent, Patience, HalfWay, Follower, FirstRecord;
    hide Misses, Askable, OneVoteIn, AbsenceAt;
    var but, i, j := ButStaleResumes, z.bridge, x.bridge;
    PatienceIsLong(p, x.bridge, z.bridge);
    HalfIsSilent(p, f.last, a, b, x, y, z);
    SilenceMayPass(p, f.last, START + Patience(p, x.bridge, z.bridge));
    var late := Wait(p, f, a, but, Patience(p, x.bridge, z.bridge));
    BothAreGone(p, late.last, a, b, i, j);
    var asked := Canvass(p, late, a, b, but, i, FirstMark(p, a), j, FirstMark(p, a), i);
    var claimed := ClaimFirst(p, asked, a, b, but, i, j);
    var voted := VoteFor(p, claimed, a, b, but, i, START, 1);
    g := HearFirst(p, voted, a, b, but, i, j);
  }

  lemma BothAreGone(p: Params, s: Sys, a: HostId, b: HostId, i: BridgeId, j: BridgeId)
    requires s.elections == NO_ELECTIONS && Follows(p, s, a, b) && Early(s.now)
    requires BridgeIs(s, i, Registered(p, a, Away(p, a, START), map[])) && LongGone(p, i, START, s.now)
    requires BridgeIs(s, j, Registered(p, a, Away(p, a, START), map[])) && LongGone(p, j, START, s.now)
    ensures Askable(p, s, a, b, i) && Misses(p, s, a, i, FirstMark(p, a)) && Misses(p, s, a, j, FirstMark(p, a))
  {
    GoneIsAskable(p, s, a, b, i, START);
    GoneMisses(p, s, a, i, START, map[]);
    GoneMisses(p, s, a, j, START, map[]);
  }

  /** The answer that resumes the founder is on its way. */
  predicate OneAnswerAway(p: Params, s: Sys, a: HostId, b: HostId, x: Socket, y: Socket) {
    && s.nodes == map[a := Asked(HalfWay(p, a, x), y), b := Started(Follower(p, a, b), START)] && a != b
    && BridgeIs(s, x.bridge, Registered(p, a, Away(p, a, START), map[])) && BridgeIs(s, y.bridge, Registered(p, a, Here(p, a, y), map[]))
    && AckMsg(y, FirstRecord(p, a), s.now) in s.net.acks
    && Line(a, x.bridge) in s.history.evidence && s.history.evidence[Line(a, x.bridge)] == START
    && a in s.timers.pulsed && s.timers.pulsed[a] == START
  }

  lemma HalfWayHasRound(p: Params, a: HostId, x: Socket)
    ensures HalfWay(p, a, x).links == map[x.bridge := x] && HalfWay(p, a, x).round.Some?
    ensures HalfWay(p, a, x).round.value.record == FirstRecord(p, a)
  {
  }

  lemma AskSecond(p: Params, f: Film, a: HostId, b: HostId, x: Socket, y: Socket, z: Socket) returns (g: Film)
    requires Shot(p, f, a, ButStaleResumes) && CastOk(p, a, b) && ThreeBridges(p, x, y, z, a)
    requires Early(f.last.now) && BridgeIs(f.last, x.bridge, Registered(p, a, Away(p, a, START), map[]))
    requires BridgeIs(f.last, y.bridge, Restart(EMPTY))
    requires HalfQuorum(p, f.last.(bridges := f.last.bridges[z.bridge := Registered(p, a, Away(p, a, START), map[])]), a, b, x, y, z)
    ensures Shot(p, g, a, ButStaleResumes) && OneAnswerAway(p, g.last, a, b, x, y) && g.last.now == f.last.now
    ensures g.last.net.receipts == f.last.net.receipts && g.last.elections == f.last.elections
  {
    hide Shot, Registered, FirstRecord, HalfWay, Follower, ParamsOk, Restart, NonceUnused, Here, Away, Asked;
    HalfWayHasRound(p, a, x);
    g := AskNew(p, f, a, y, 3);
    assert g.last.nodes == map[a := Asked(HalfWay(p, a, x), y), b := Started(Follower(p, a, b), START)];
  }

  /** Nobody of the acknowledgement set has voted, but one of it served the founder too long ago. */
  lemma ResumeIsStale(p: Params, s: Sys, a: HostId, b: HostId, x: Socket, y: Socket) returns (t: Step)
    requires OneAnswerAway(p, s, a, b, x, y) && ParamsOk(p) && Chosen(p, x.bridge, y.bridge) && x.host == a && y.host == a
    requires p.delay >= 0 && START < s.now - p.period - p.delay
    ensures t == GetAck(a, AckMsg(y, FirstRecord(p, a), s.now), true) && HostMay(p, s, t) && StaleResume(p, s, t)
    ensures var s' := HostAfter(p, s, t);
      && a in s'.nodes && b in s'.nodes && s'.nodes[a].service.writer && s'.nodes[b].service == Follower(p, a, b)
      && s' == s.(nodes := s'.nodes, history := s'.history)
  {
    hide FirstRecord, ReceiveAck, HalfWay, HistoryAfterHost, Asked;
    t := GetAck(a, AckMsg(y, FirstRecord(p, a), s.now), true);
    SecondAck(p, a, x, y, s.now);
    AskedIsLinked(HalfWay(p, a, x), y);
  }

  lemma ResumeStale(p: Params, f: Film, a: HostId, b: HostId, x: Socket, y: Socket) returns (g: Film)
    requires Shot(p, f, a, ButStaleResumes) && CastOk(p, a, b) && OneAnswerAway(p, f.last, a, b, x, y)
    requires Chosen(p, x.bridge, y.bridge) && x.host == a && y.host == a && p.delay >= 0 && START < f.last.now - p.period - p.delay
    ensures Shot(p, g, a, ButStaleResumes) && a in g.last.nodes && g.last.nodes[a].service.writer && Follows(p, g.last, a, b)
    ensures g.last == f.last.(nodes := g.last.nodes, history := g.last.history)
  {
    hide Shot, HostMay, StaleResume, HostAfter, OnTime, FirstRecord;
    var t := ResumeIsStale(p, f.last, a, b, x, y);
    g := HostScene(p, f, a, ButStaleResumes, t);
  }

  // ---------------------------------------------------------------- the whole run

  /**
    * Resuming has to be fresh. In every community of three bridges there is a run, on time but for a resume on
    * acknowledgements one of which is too old, after which two hosts write; nobody who gave them had voted.
    */
  lemma StaleResumeMakesTwoWriters(p: Params, a: HostId, b: HostId, x: BridgeId, y: BridgeId, z: BridgeId)
    returns (run: seq<Sys>, steps: seq<Step>)
    requires CastOk(p, a, b) && W(p) == {x, y, z} && |W(p)| == 3 && p.delay >= 0
    requires p.period + p.delay < Max(Grace(p.configs[x]), Grace(p.configs[z])) < RECORD_TTL_MS
    ensures IsRun(p, run, steps, a, 1)
    ensures forall i | 0 <= i < |steps| :: OnTime(p, run[i], steps[i]) || StaleResume(p, run[i], steps[i])
    ensures !AtMostOneWriter(run[|steps|])
  {
    hide IsRun, Shot, OnTime, StaleResume, Grace, Restarted, ParamsOk, AtMostOneWriter, Registered, VotesAt;
    hide ReceiptAt, LongGone, FirstRecord, Follower, OneVoteIn;
    var k, q, r := Socket(a, x, 0), Socket(a, y, 0), Socket(a, z, 0);
    AllDifferent(p, x, y, z);
    PatienceIsLong(p, x, z);
    var f := VisitAndRestart(p, a, b, k, q, r);
    f := HearFromOne(p, f, a, b, k, q, r);
    f := OneVotes(p, f, a, b, k, q, r);
    f := AskSecond(p, f, a, b, k, q, r);
    f := ResumeStale(p, f, a, b, k, q);
    f := VoteLate(p, f, a, b, x, z);
    ShotIsRun(p, f, a, ButStaleResumes);
    run, steps := f.run, f.steps;
  }

  /** The second bridge votes although the founder writes again, and the replica is promoted. */
  lemma VoteLate(p: Params, f: Film, a: HostId, b: HostId, x: BridgeId, z: BridgeId) returns (g: Film)
    requires Shot(p, f, a, ButStaleResumes) && CastOk(p, a, b) && x in W(p) && z in W(p) && x != z
    requires f.last.elections == OneVoteIn(p, a, b, z, x, f.last.now) && ReceiptAt(p, a, b, z, 1, f.last.now) in f.last.net.receipts
    requires BridgeIs(f.last, x, Registered(p, a, Away(p, a, START), map[])) && LongGone(p, x, START, f.last.now)
    requires a in f.last.nodes && f.last.nodes[a].service.writer && Follows(p, f.last, a, b)
    ensures Shot(p, g, a, ButStaleResumes) && !AtMostOneWriter(g.last)
  {
    hide Shot, ParamsOk, AtMostOneWriter, Registered, VotesAt, ReceiptAt, LongGone, FirstRecord, Follower;
    hide OneVoteIn, Concludes, MayPromote, Won;
    var but := ButStaleResumes;
    var second := ClaimSecond(p, f, a, b, but, z, x);
    var both := VoteFor(p, second, a, b, but, x, START, 2);
    var heard := HearSecond(p, both, a, b, but, z, x);
    VotesElect(p, a, b, z, x, f.last.now);
    g := Elect(p, heard, a, b, but, {ReceiptAt(p, a, b, z, 1, f.last.now), ReceiptAt(p, a, b, x, 2, f.last.now)});
    WonBeside(heard.last, g.last, a, b);
  }
}
