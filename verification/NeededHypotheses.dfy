/**
  * Runs that show what the timed theorem needs. In every community a founder that restarts,
  * and then resumes although the bridges have already voted for its replica, writes beside it; and the same
  * run up to the promotion shows that elections do happen in runs that are on time.
  */
module NeededHypotheses {
  import opened Community
  import opened Quorums
  import opened BridgeLedger
  import opened Bridge
  import opened WitnessFloor
  import opened HostWriter
  import opened Coordinator
  import opened Failover
  import opened TimedSystem
  import opened Scenes
  import opened ElectionScenes
  import RegistrationQuorum

  // ---------------------------------------------------------------- the founder restarts

  /** The founder after a restart: it waits for its bridges before it writes again. */
  function Suspended(p: Params, a: HostId): Host {
    Host(Founder(p, a).boot, FounderDb(p, a), false, Some(Eligibility(1, W(p), [W(p)])), None)
  }

  lemma RestartSuspends(p: Params, a: HostId)
    requires ParamsOk(p)
    ensures Restore(Founder(p, a).boot, FounderDb(p, a), false, true) == Suspended(p, a)
  {
    FloorIsConfigured(p);
    var boot, db, one := Founder(p, a).boot, FounderDb(p, a), Bridges(W(p));
    assert AsCandidates([W(p)]) == [one];
    assert [one] + ConfiguredSets(boot) + TrustSets(db.replicaTrust) + db.enrolled == [one, one, one];
    assert CurrentFloor(boot, db, [one]) == Floor([W(p)], true);
    assert Persist(boot, db, RowWriter, 1, [one]) == db;
  }

  /** Suspended, with the round of the first record, before any bridge has answered. */
  function Waiting(p: Params, a: HostId): Node {
    Node(Suspended(p, a).(pending := Some(PendingRecord(FirstRecord(p, a), false))),
         RegistrationQuorum.Acks(Some(BindingOf(FirstRecord(p, a))), {}, None, {}), START, false,
         Some(Publication(FirstRecord(p, a), false, {})), map[], map[], map[])
  }

  lemma SuspendedSigns(p: Params, a: HostId)
    ensures EnsureRound(Started(Suspended(p, a), START), START) == Waiting(p, a)
    ensures Waiting(p, a).round == Some(Publication(FirstRecord(p, a), false, {}))
  {
  }

  predicate WouldSign(p: Params, s: Sys, a: HostId) {
    a in s.nodes && EnsureRound(s.nodes[a], s.now).round.Some? && EnsureRound(s.nodes[a], s.now).round.value.record == FirstRecord(p, a)
  }

  /** The founder signs its first record. */
  lemma Sign(p: Params, f: Film, a: HostId, but: Leeway) returns (g: Film)
    requires Shot(p, f, a, but) && WouldSign(p, f.last, a)
    ensures Shot(p, g, a, but)
    ensures var s := f.last;
      g.last == s.(nodes := s.nodes[a := EnsureRound(s.nodes[a], s.now)], net := s.net.(records := s.net.records + {FirstRecord(p, a)}))
  {
    hide Shot, EnsureRound, FirstRecord;
    g := HostScene(p, f, a, but, SignRound(a));
  }

  predicate HasFirstDb(p: Params, s: Sys, a: HostId) {
    a in s.nodes && s.nodes[a].service.boot == Founder(p, a).boot && s.nodes[a].service.db == FounderDb(p, a)
  }

  lemma RestartFounder(p: Params, f: Film, a: HostId, but: Leeway) returns (g: Film)
    requires Shot(p, f, a, but) && ParamsOk(p) && HasFirstDb(p, f.last, a) && a !in f.last.elections.campaigns
    ensures Shot(p, g, a, but)
    ensures g.last == f.last.(nodes := f.last.nodes[a := Started(Suspended(p, a), f.last.now)])
  {
    hide Shot, Restore, Suspended, FounderDb, Founder;
    RestartSuspends(p, a);
    g := HostScene(p, f, a, but, RebootHost(a, true));
    assert f.last.elections.campaigns - {a} == f.last.elections.campaigns;
  }

  /** Two bridges of the community, which are a strict majority of it. */
  predicate Chosen(p: Params, x: BridgeId, y: BridgeId) { x in W(p) && y in W(p) && x != y }

  predicate LeftBoth(p: Params, s: Sys, a: HostId, x: BridgeId, y: BridgeId) {
    && BridgeIs(s, x, Registered(p, a, Away(p, a, START), map[])) && BridgeIs(s, y, Registered(p, a, Away(p, a, START), map[]))
    && s.bridges.Keys == W(p)
  }

  predicate VotedBoth(p: Params, s: Sys, a: HostId, b: HostId, x: BridgeId, y: BridgeId) {
    && BridgeIs(s, x, Registered(p, a, Away(p, a, START), VotesAt(p, a, b, s.now)))
    && BridgeIs(s, y, Registered(p, a, Away(p, a, START), VotesAt(p, a, b, s.now))) && s.bridges.Keys == W(p)
  }

  /** What the first half of the story leaves: the founder has been at both bridges, has left them and restarted. */
  predicate Deserted(p: Params, s: Sys, a: HostId, b: HostId, x: BridgeId, y: BridgeId) {
    && s.now == START && LeftBoth(p, s, a, x, y)
    && s.nodes == map[a := Waiting(p, a), b := Started(Follower(p, a, b), START)]
    && s.wires == Wires(map[Line(a, x) := Socket(a, x, 0), Line(a, y) := Socket(a, y, 0)], {Socket(a, x, 0), Socket(a, y, 0)}, {})
    && FirstRecord(p, a) in s.net.records && NonceUnused(s.net, 3) && s.elections == NO_ELECTIONS
    && s.timers == Timers(map[a := START, b := START], map[a := START, b := START])
  }

  /** The founder registers at a bridge that knows nobody and closes the connection again. */
  lemma Visit(p: Params, f: Film, a: HostId, but: Leeway, k: Socket, n: nat) returns (g: Film)
    requires Shot(p, f, a, but) && ParamsOk(p) && |a| >= 1 && Dialable(p, f.last, a, k) && Challengeable(p, f.last, a, n)
    requires BridgeIs(f.last, k.bridge, Restart(EMPTY)) && k !in f.last.wires.alive
    ensures Shot(p, g, a, but)
    ensures var s, s' := f.last, g.last;
      && s' == Sys(s.now, s.bridges[k.bridge := Registered(p, a, Away(p, a, s.now), map[])], s.nodes[a := Dial(s.nodes[a], k)],
                   Wires(s.wires.newest[LineOf(k) := k], s.wires.seen + {k}, s.wires.alive), s'.net, s.elections, s.timers, s'.history)
      && FirstRecord(p, a) in s'.net.records && NonceUnused(s'.net, n + 1)
  {
    hide Shot, Registered, FirstRecord;
    assert Registrable(p, a, Restart(EMPTY), map[]);
    hide Registrable;
    g := Register(p, f, a, but, Restart(EMPTY), map[], k, n);
    g := Leave(p, g, a, but, k, map[]);
    assert f.last.wires.alive + {k} - {k} == f.last.wires.alive;
    assert f.last.bridges[k.bridge := Registered(p, a, Here(p, a, k), map[])][k.bridge := Registered(p, a, Away(p, a, f.last.now), map[])]
      == f.last.bridges[k.bridge := Registered(p, a, Away(p, a, f.last.now), map[])];
  }

  lemma FounderSigns(p: Params, a: HostId)
    ensures var n' := EnsureRound(Started(Founder(p, a), START), START);
      n'.round == Some(Publication(FirstRecord(p, a), false, {})) && n'.service.boot == Founder(p, a).boot && n'.service.db == FounderDb(p, a)
      && n'.links == map[]
  {
  }

  /** The founder writes, has signed its first record and is connected to nobody. */
  predicate Signed(p: Params, s: Sys, a: HostId, b: HostId) {
    && s.now == START && s.bridges.Keys == W(p) && (forall i | i in W(p) :: s.bridges[i] == Restart(EMPTY))
    && s.nodes == map[a := EnsureRound(Started(Founder(p, a), START), START), b := Started(Follower(p, a, b), START)]
    && s.wires == Wires(map[], {}, {}) && s.elections == NO_ELECTIONS
    && FirstRecord(p, a) in s.net.records && NonceUnused(s.net, 1)
    && s.timers == Timers(map[a := START, b := START], map[a := START, b := START])
  }

  lemma SignedActs(p: Params, s: Sys, a: HostId, b: HostId)
    requires Signed(p, s, a, b) && a != b
    ensures a in s.nodes && Acting(p, a, s.nodes[a]) && s.nodes[a].lease == START && s.nodes[a].links == map[]
    ensures s.nodes[a].quorum.acknowledged == {} && s.nodes[a].quorum.live == {}
    ensures s.nodes.Keys == {a, b} && s.nodes[b].service == Follower(p, a, b) && Early(s.now)
  {
  }

  lemma OpenAndSign(p: Params, a: HostId, b: HostId, but: Leeway) returns (g: Film)
    requires CastOk(p, a, b)
    ensures Shot(p, g, a, but) && Signed(p, g.last, a, b)
  {
    hide Shot, FirstRecord, EnsureRound, Founder, Follower, Restart, ParamsOk;
    g := OpensAs(p, a, b, but);
    FounderSigns(p, a);
    g := Sign(p, g, a, but);
    assert g.last.nodes == map[a := EnsureRound(Started(Founder(p, a), START), START), b := Started(Follower(p, a, b), START)];
  }

  lemma VisitBoth(p: Params, f: Film, a: HostId, b: HostId, x: BridgeId, y: BridgeId, but: Leeway) returns (g: Film)
    requires Shot(p, f, a, but) && CastOk(p, a, b) && Chosen(p, x, y) && Signed(p, f.last, a, b)
    ensures Shot(p, g, a, but) && a in g.last.nodes && g.last.nodes.Keys == {a, b}
    ensures var s := g.last;
      && s.now == START && LeftBoth(p, s, a, x, y)
      && s.nodes[a].service.boot == Founder(p, a).boot && s.nodes[a].service.db == FounderDb(p, a)
      && s.nodes[b] == Started(Follower(p, a, b), START)
      && s.wires == Wires(map[Line(a, x) := Socket(a, x, 0), Line(a, y) := Socket(a, y, 0)], {Socket(a, x, 0), Socket(a, y, 0)}, {})
      && FirstRecord(p, a) in s.net.records && NonceUnused(s.net, 3) && s.timers == f.last.timers && s.elections == NO_ELECTIONS
  {
    hide Shot, Registered, FirstRecord, EnsureRound, Founder, FounderDb, Follower, Restart, ParamsOk, NonceUnused;
    FounderSigns(p, a);
    g := Visit(p, f, a, but, Socket(a, x, 0), 1);
    g := Visit(p, g, a, but, Socket(a, y, 0), 2);
  }

  lemma Desert(p: Params, a: HostId, b: HostId, x: BridgeId, y: BridgeId, but: Leeway) returns (g: Film)
    requires CastOk(p, a, b) && Chosen(p, x, y)
    ensures Shot(p, g, a, but) && Deserted(p, g.last, a, b, x, y)
  {
    hide Shot, Registered, FirstRecord, EnsureRound, Waiting, Suspended, Founder, FounderDb, Follower, Signed, ParamsOk;
    g := OpenAndSign(p, a, b, but);
    SignedTimers(p, g.last, a, b);
    g := VisitBoth(p, g, a, b, x, y, but);
    g := RestartFounder(p, g, a, but);
    SuspendedSigns(p, a);
    g := Sign(p, g, a, but);
    assert g.last.nodes == map[a := Waiting(p, a), b := Started(Follower(p, a, b), START)];
  }

  lemma SignedTimers(p: Params, s: Sys, a: HostId, b: HostId)
    requires Signed(p, s, a, b)
    ensures s.timers == Timers(map[a := START, b := START], map[a := START, b := START])
  {
  }

  // ---------------------------------------------------------------- the replica is elected

  /** The founder is still suspended and the replica writes at the next epoch. */
  predicate Usurped(p: Params, s: Sys, a: HostId, b: HostId, x: BridgeId, y: BridgeId) {
    && s.nodes.Keys == {a, b} && s.nodes[a] == Waiting(p, a) && s.nodes[b].service.writer
    && VotedBoth(p, s, a, b, x, y)
    && s.wires == Wires(map[Line(a, x) := Socket(a, x, 0), Line(a, y) := Socket(a, y, 0)], {Socket(a, x, 0), Socket(a, y, 0)}, {})
    && FirstRecord(p, a) in s.net.records && NonceUnused(s.net, 3)
    && a in s.timers.pulsed && s.timers.pulsed[a] == START && Chosen(p, x, y) && s.now == START + Patience(p, x, y)
  }

  /** How long it takes until both bridges may vote. */
  function Patience(p: Params, x: BridgeId, y: BridgeId): nat
    requires Chosen(p, x, y)
  {
    Max(Grace(p.configs[x]), Grace(p.configs[y]))
  }

  predicate Silent(s: Sys) { forall h | h in s.nodes :: !s.nodes[h].service.writer }

  lemma PatienceIsLong(p: Params, x: BridgeId, y: BridgeId)
    requires Chosen(p, x, y)
    ensures LongGone(p, x, START, START + Patience(p, x, y)) && LongGone(p, y, START, START + Patience(p, x, y))
  {
  }

  lemma SilenceMayPass(p: Params, s: Sys, now: int)
    requires Silent(s)
    ensures MayPass(p, s, now)
  {
  }

  lemma ElectedUsurps(p: Params, s: Sys, s': Sys, a: HostId, b: HostId, x: BridgeId, y: BridgeId)
    requires a != b && Chosen(p, x, y) && Deserted(p, s, a, b, x, y)
    requires Elected(p, s.(now := START + Patience(p, x, y)), s', a, b, x, y, START, START)
    ensures Usurped(p, s', a, b, x, y)
  {
    hide Registered, FirstRecord, Waiting, Follower, VotesAt, Grace, Away;
  }

  lemma DesertedIsAskable(p: Params, s: Sys, a: HostId, b: HostId, x: BridgeId, y: BridgeId)
    requires a != b && Deserted(p, s, a, b, x, y) && Chosen(p, x, y) && Patience(p, x, y) < RECORD_TTL_MS
    ensures Silent(s) && LeftBoth(p, s, a, x, y) && s.elections == NO_ELECTIONS
    ensures Follows(p, s, a, b) && Early(START + Patience(p, x, y)) && s.now == START
  {
  }

  /** As soon as both bridges have missed the founder for their graces, the replica asks them and is elected. */
  lemma Usurp(p: Params, f: Film, a: HostId, b: HostId, x: BridgeId, y: BridgeId, but: Leeway) returns (g: Film)
    requires Shot(p, f, a, but) && CastOk(p, a, b) && Chosen(p, x, y) && Deserted(p, f.last, a, b, x, y)
    requires Patience(p, x, y) < RECORD_TTL_MS
    ensures Shot(p, g, a, but) && Usurped(p, g.last, a, b, x, y) && g.last.now == START + Patience(p, x, y)
    ensures |g.steps| >= 1 && g.steps[|g.steps| - 1].WinElection?
  {
    hide Shot, Registered, FirstRecord, Deserted, Usurped, LongGone, MayPass, Silent, Follower, Early, ParamsOk, Away, VotesAt, Patience;
    DesertedIsAskable(p, f.last, a, b, x, y);
    PatienceIsLong(p, x, y);
    SilenceMayPass(p, f.last, START + Patience(p, x, y));
    var late := Wait(p, f, a, but, Patience(p, x, y));
    g := ElectNow(p, late, a, b, but, x, START, y, START);
    ElectedUsurps(p, f.last, g.last, a, b, x, y);
  }

  /**
    * Elections happen: in every community in which two graces are shorter than a record is valid there is a
    * run, on time from its first step to its last, that ends with the promotion of a replica.
    */
  lemma ElectionsHappenOnTime(p: Params, a: HostId, b: HostId, x: BridgeId, y: BridgeId) returns (run: seq<Sys>, steps: seq<Step>)
    requires CastOk(p, a, b) && Chosen(p, x, y) && Patience(p, x, y) < RECORD_TTL_MS
    ensures IsRun(p, run, steps, a, 1) && forall i | 0 <= i < |steps| :: OnTime(p, run[i], steps[i])
    ensures |steps| >= 1 && steps[|steps| - 1].WinElection? && b in run[|steps|].nodes && run[|steps|].nodes[b].service.writer
  {
    hide IsRun, OnTime, CastOk, Deserted, Waiting, VotesAt, Registered, FirstRecord;
    var f := Desert(p, a, b, x, y, Strictly);
    f := Usurp(p, f, a, b, x, y, Strictly);
    ShotIsRun(p, f, a, Strictly);
    run, steps := f.run, f.steps;
  }

  // ---------------------------------------------------------------- the founder resumes beside it

  function Committed(p: Params, a: HostId): Host {
    Suspended(p, a).(
      db := FounderDb(p, a).(recordSeq := 1, recordHash := HashOf(FirstRecord(p, a)), chain := map[1 := FirstRecord(p, a)]),
      pending := Some(PendingRecord(FirstRecord(p, a), true)))
  }

  /** The suspended founder with the acknowledgement of one bridge. */
  function HalfWay(p: Params, a: HostId, k: Socket): Node {
    Node(Committed(p, a), RegistrationQuorum.Acks(Some(BindingOf(FirstRecord(p, a))), {k.bridge}, None, {k.bridge}), START, false,
         Some(Publication(FirstRecord(p, a), true, {k.bridge})), map[k.bridge := k], map[], map[])
  }

  lemma FirstAck(p: Params, a: HostId, k: Socket, now: int)
    requires ParamsOk(p) && k.bridge in W(p)
    ensures ReceiveAck(Asked(Waiting(p, a), k), k.bridge, FirstRecord(p, a), true, now) == HalfWay(p, a, k)
    ensures AckCounts(Asked(Waiting(p, a), k), AckMsg(k, FirstRecord(p, a), now))
  {
    var n := Asked(Waiting(p, a), k);
    assert n.published == map[k.bridge := FirstRecord(p, a)] && n.published - {k.bridge} == map[];
    assert CommitRecord(n.service, HashOf(FirstRecord(p, a))) == Committed(p, a);
    assert |{k.bridge}| < Threshold(|W(p)|);
    assert !MayResume(Committed(p, a), BindingOf(FirstRecord(p, a)), {k.bridge}, W(p), true);
    assert {} + {k.bridge} == {k.bridge};
  }

  lemma SecondAck(p: Params, a: HostId, x: Socket, y: Socket, now: int)
    requires ParamsOk(p) && Chosen(p, x.bridge, y.bridge)
    ensures var n' := ReceiveAck(Asked(HalfWay(p, a, x), y), y.bridge, FirstRecord(p, a), true, now);
      && n'.service.writer && n'.service.db.epoch == 1 && n'.round.Some? && n'.round.value.acked == {x.bridge, y.bridge}
    ensures AckCounts(Asked(HalfWay(p, a, x), y), AckMsg(y, FirstRecord(p, a), now))
  {
    var n := Asked(HalfWay(p, a, x), y);
    var acked := {x.bridge} + {y.bridge};
    assert acked == {x.bridge, y.bridge} && |acked| == 2;
    assert acked * W(p) == acked;
    assert MayResume(Committed(p, a), BindingOf(FirstRecord(p, a)), acked, W(p), true);
    hide Persist;
  }

  /** What the scenes of the resume keep: the replica writes, and both bridges have voted for it. */
  predicate Opposed(p: Params, s: Sys, a: HostId, b: HostId, x: BridgeId, y: BridgeId) {
    && s.nodes.Keys == {a, b} && s.nodes[b].service.writer && x in s.bridges && y in s.bridges
    && s.bridges[x].ledger.votes == VotesAt(p, a, b, s.now) && s.bridges[y].ledger.votes == VotesAt(p, a, b, s.now)
    && a in s.timers.pulsed && s.timers.pulsed[a] == START && Early(s.now)
  }

  predicate HasFirstRound(p: Params, s: Sys, a: HostId) {
    a in s.nodes && s.nodes[a].round.Some? && s.nodes[a].round.value.record == FirstRecord(p, a)
  }

  predicate NodeIs(s: Sys, h: HostId, n: Node) { h in s.nodes && s.nodes[h] == n }

  /** The founder registers its old record once more, on a new socket, and waits for the answer. */
  lemma AskAgain(p: Params, f: Film, a: HostId, b: HostId, x: BridgeId, y: BridgeId, but: Leeway, k: Socket, n: nat) returns (g: Film)
    requires Shot(p, f, a, but) && CastOk(p, a, b) && Chosen(p, x, y) && Opposed(p, f.last, a, b, x, y)
    requires BridgeIs(f.last, k.bridge, Registered(p, a, Away(p, a, START), VotesAt(p, a, b, f.last.now)))
    requires Dialable(p, f.last, a, k) && Challengeable(p, f.last, a, n) && HasFirstRound(p, f.last, a)
    ensures Shot(p, g, a, but) && Opposed(p, g.last, a, b, x, y)
    ensures var s, s' := f.last, g.last;
      && s'.now == s.now && s'.nodes == s.nodes[a := Asked(s.nodes[a], k)] && s'.wires == Connected(s.wires, k)
      && s'.bridges.Keys == s.bridges.Keys && (forall i | i in s.bridges && i != k.bridge :: s'.bridges[i] == s.bridges[i])
      && s'.net.records == s.net.records && NonceUnused(s'.net, n + 1)
      && AckMsg(k, FirstRecord(p, a), s.now) in s'.net.acks && s'.history.evidence == s.history.evidence
  {
    hide Shot, FirstRecord, VotesAt, NonceUnused, IsNewer, ParamsOk, Publish, Dial, Connected;
    var v, votes := f.last.bridges[k.bridge], VotesAt(p, a, b, f.last.now);
    AwayIsRegistrable(p, a, v, START, votes);
    hide Registrable, Away;
    g := Register(p, f, a, but, v, votes, k, n);
    NonceUsed(f.last.net, g.last.net, k, n, HashOf(FirstRecord(p, a)));
    g := Offer(p, g, a, but, k.bridge);
  }

  /** The first bridge's answer commits the record and resumes nobody. */
  lemma HearOne(p: Params, f: Film, a: HostId, but: Leeway, k: Socket) returns (g: Film)
    requires Shot(p, f, a, but) && ParamsOk(p) && p.delay >= 0
    requires k.host == a && k.bridge in W(p) && NodeIs(f.last, a, Asked(Waiting(p, a), k))
    requires AckMsg(k, FirstRecord(p, a), f.last.now) in f.last.net.acks
    ensures Shot(p, g, a, but)
    ensures var s, s' := f.last, g.last;
      && s' == s.(nodes := s.nodes[a := HalfWay(p, a, k)], history := s'.history)
      && s'.history.evidence == s.history.evidence[Line(a, k.bridge) := s.now]
  {
    hide Shot, FirstRecord, VotesAt, ReceiveAck, AckCounts, LiveQuorum, NoteRenewal, ParamsOk;
    var s, m := f.last, AckMsg(k, FirstRecord(p, a), f.last.now);
    FirstAck(p, a, k, s.now);
    NotWriting(p, a, k);
    g := HostScene(p, f, a, but, GetAck(a, m, true));
  }

  lemma NotWriting(p: Params, a: HostId, k: Socket)
    ensures !HalfWay(p, a, k).service.writer && !LiveQuorum(HalfWay(p, a, k))
    ensures Linked(Asked(Waiting(p, a), k), k)
  {
  }

  lemma StillOpposed(p: Params, s: Sys, s': Sys, a: HostId, b: HostId, x: BridgeId, y: BridgeId)
    requires Opposed(p, s, a, b, x, y) && a in s.nodes && a in s'.nodes && a != b
    requires s' == s.(nodes := s.nodes[a := s'.nodes[a]], history := s'.history)
    ensures Opposed(p, s', a, b, x, y)
  {
  }

  lemma UsurpedIsOpposed(p: Params, s: Sys, a: HostId, b: HostId, x: BridgeId, y: BridgeId)
    requires Usurped(p, s, a, b, x, y) && Early(s.now)
    ensures Opposed(p, s, a, b, x, y)
    ensures forall i | i in {x, y} :: s.bridges[i] == Registered(p, a, Away(p, a, START), VotesAt(p, a, b, s.now))
    ensures s.nodes[a] == Waiting(p, a) && FirstRecord(p, a) in s.net.records && NonceUnused(s.net, 3)
    ensures Waiting(p, a).links == map[] && Waiting(p, a).round == Some(Publication(FirstRecord(p, a), false, {}))
    ensures forall i | i in {x, y} :: IsNewer(s.wires, Socket(a, i, 1)) && Socket(a, i, 1) !in s.wires.seen
  {
  }

  /** One acknowledgement away from the resume. */
  predicate OneAway(p: Params, s: Sys, a: HostId, b: HostId, x: Socket, y: Socket) {
    && Opposed(p, s, a, b, x.bridge, y.bridge) && s.nodes[a] == Asked(HalfWay(p, a, x), y)
    && AckMsg(y, FirstRecord(p, a), s.now) in s.net.acks
    && Line(a, x.bridge) in s.history.evidence && s.history.evidence[Line(a, x.bridge)] == s.now
  }

  lemma ComeClose(p: Params, f: Film, a: HostId, b: HostId, x: BridgeId, y: BridgeId, but: Leeway) returns (g: Film)
    requires Shot(p, f, a, but) && CastOk(p, a, b) && Chosen(p, x, y) && p.delay >= 0 && Usurped(p, f.last, a, b, x, y) && Early(f.last.now)
    ensures Shot(p, g, a, but) && OneAway(p, g.last, a, b, Socket(a, x, 1), Socket(a, y, 1))
  {
    hide Shot, FirstRecord, VotesAt, NonceUnused, IsNewer, ParamsOk, Waiting, Registered, Usurped, Opposed, Asked, Away;
    UsurpedIsOpposed(p, f.last, a, b, x, y);
    g := AskAgain(p, f, a, b, x, y, but, Socket(a, x, 1), 3);
    var asked := g;
    g := HearOne(p, asked, a, but, Socket(a, x, 1));
    StillOpposed(p, asked.last, g.last, a, b, x, y);
    StillNewer(f.last.wires, Socket(a, x, 1), Socket(a, y, 1));
    g := AskAgain(p, g, a, b, x, y, but, Socket(a, y, 1), 4);
  }

  lemma StillNewer(w: Wires, k: Socket, q: Socket)
    requires IsNewer(w, q) && q !in w.seen && k.bridge != q.bridge
    ensures IsNewer(Connected(w, k), q) && q !in Connected(w, k).seen
  {
  }

  /** Timely and fresh in everything but that a bridge of the acknowledgement set has voted. */
  predicate Opposes(p: Params, s: Sys, t: Step) {
    t.GetAck? && s.now - t.ack.at <= p.delay && ResumesFresh(p, s, t) && !ResumesUnopposed(p, s, t)
  }

  /** The step that makes two writers: only the votes speak against it. */
  lemma LastAck(p: Params, s: Sys, a: HostId, b: HostId, x: Socket, y: Socket) returns (t: Step)
    requires OneAway(p, s, a, b, x, y) && ParamsOk(p) && a != b && Chosen(p, x.bridge, y.bridge)
    requires x.host == a && y.host == a && p.delay >= 0 && p.period >= 0
    ensures t.GetAck? && t.host == a && t.host in s.nodes && HostEnabled(p, s, t) && Opposes(p, s, t)
    ensures !AtMostOneWriter(HostAfter(p, s, t))
  {
    hide FirstRecord, ReceiveAck, HalfWay, HistoryAfterHost, Asked;
    t := GetAck(a, AckMsg(y, FirstRecord(p, a), s.now), true);
    SecondAck(p, a, x, y, s.now);
    AskedIsLinked(HalfWay(p, a, x), y);
    assert !HasNoVote(p, s, x.bridge, 2);
    var s' := HostAfter(p, s, t);
    assert s'.nodes[a].service.writer && s'.nodes[b].service.writer;
  }

  lemma AskedIsLinked(n: Node, k: Socket)
    ensures Linked(Asked(n, k), k)
  {
  }

  /**
    * Resuming has to be unopposed. In every community, as long as two of its graces are shorter than a record
    * is valid, there is a run, on time but for its last step, which resumes the restarted founder: the acknowledgement is fresh and so is what every
    * bridge of its set last served, only they have voted for the replica. Then two hosts write.
    */
  lemma OpposedResumeMakesTwoWriters(p: Params, a: HostId, b: HostId, x: BridgeId, y: BridgeId) returns (run: seq<Sys>, steps: seq<Step>)
    requires CastOk(p, a, b) && Chosen(p, x, y) && Patience(p, x, y) < RECORD_TTL_MS && p.period >= 0 && p.delay >= 0
    ensures IsRun(p, run, steps, a, 1) && |steps| >= 1
    ensures forall i | 0 <= i < |steps| - 1 :: OnTime(p, run[i], steps[i])
    ensures Opposes(p, run[|steps| - 1], steps[|steps| - 1])
    ensures !AtMostOneWriter(run[|steps|])
  {
    hide Shot, OnTime, Deserted, Usurped, OneAway, ParamsOk, Grace, HostAfter, HostEnabled, Opposes, AtMostOneWriter;
    var f := Desert(p, a, b, x, y, Strictly);
    f := Usurp(p, f, a, b, x, y, Strictly);
    f := ComeClose(p, f, a, b, x, y, Strictly);
    var t := LastAck(p, f.last, a, b, Socket(a, x, 1), Socket(a, y, 1));
    run, steps := Finished(p, f, a, t);
  }

  lemma Finished(p: Params, f: Film, a: HostId, t: Step) returns (run: seq<Sys>, steps: seq<Step>)
    requires Shot(p, f, a, Strictly) && HostMay(p, f.last, t)
    ensures IsRun(p, run, steps, a, 1) && |steps| == |f.steps| + 1 && steps[|f.steps|] == t
    ensures forall i | 0 <= i < |steps| - 1 :: OnTime(p, run[i], steps[i])
    ensures run[|f.steps|] == f.last && run[|steps|] == HostAfter(p, f.last, t)
  {
    hide OnTime, HostAfter, Init, StepOfBridge, BridgeEnabled, WireNext;
    ShotIsRun(p, f, a, Strictly);
    run, steps := f.run + [HostAfter(p, f.last, t)], f.steps + [t];
    forall i | 0 <= i < |steps| ensures Next(p, run[i], run[i + 1], steps[i]) {
      if i < |f.steps| { assert Next(p, f.run[i], f.run[i + 1], f.steps[i]); }
    }
  }
}
