/**
  * Why revocations have to spare hosts that act as primary. A bridge that has revoked a writer's grant goes
  * on answering pings on the connection it has cut off, so the writer keeps its lease, while the time of
  * its disconnect runs and the same bridge votes for the replica.
  */
module RevokedWriter {
  import opened Community
  import opened Quorums
  import opened BridgeLedger
  import opened Bridge
  import opened HostWriter
  import opened Coordinator
  import opened WitnessCollection
  import opened Failover
  import opened TimedSystem
  import opened Scenes
  import opened ElectionScenes
  import opened NeededHypotheses
  import opened WriterLoops
  import opened LateRenewals
  import opened ShortGrace
  import RegistrationQuorum

  function Withdrawal(p: Params, a: HostId): Revocation {
    Revocation(GrantKey(p.scope, a), START, 2, "")
  }

  /** A bridge that has revoked the founder's grant while the founder was connected. */
  function Withdrawn(p: Params, a: HostId, since: int, votes: map<ElectionKey, Vote>): BridgeState {
    BridgeState(
      Ledger(map[GrantKey(p.scope, a) := Withdrawal(p, a)], map[], map[KeyOf(p, a) := FirstMark(p, a).(generation := 2)], votes,
             map[Credential(p, a).key := Credential(p, a)]),
      map[], Away(p, a, since), Challenges(map[], map[]))
  }

  lemma SocketIsCut(p: Params, a: HostId, k: Socket, now: int)
    ensures WithdrawnSockets(Here(p, a, k), Withdrawal(p, a)) == {k}
    ensures UnbindAll(Here(p, a, k), {k}, now) == Away(p, a, now)
  {
    assert Lost(Here(p, a, k), {k}) == {KeyOf(p, a)};
  }

  lemma MarksAreFloored(p: Params, a: HostId)
    ensures var l := Knowing(p, a, map[]);
      && JudgeRevocation(l, Withdrawal(p, a)) == Accepted
      && WithRevocation(l, Withdrawal(p, a)) == Withdrawn(p, a, START, map[]).ledger
  {
    var l, r := Knowing(p, a, map[]), Withdrawal(p, a);
    assert l.revocations[r.key := r] == map[r.key := r];
    assert WithRevocation(l, r).marks == map[KeyOf(p, a) := FirstMark(p, a).(generation := 2)];
  }

  lemma RevocationCuts(p: Params, a: HostId, k: Socket, now: int)
    ensures Revoke(Registered(p, a, Here(p, a, k), map[]), Withdrawal(p, a), now, true) == (Withdrawn(p, a, now, map[]), None)
  {
    hide JudgeRevocation, WithRevocation, UnbindAll, WithdrawnSockets, Here, Away;
    var v, r := Registered(p, a, Here(p, a, k), map[]), Withdrawal(p, a);
    MarksAreFloored(p, a);
    SocketIsCut(p, a, k, now);
    assert v.ledger.revocations == map[] && |v.ledger.revocations| < MAX_DURABLE_ENTRIES;
    assert ApplyRevocation(v, r, now).records == map[];
  }

  lemma RevokeAt(p: Params, f: Film, a: HostId, k: Socket) returns (g: Film)
    requires Shot(p, f, a, ButRevocations) && k.bridge in p.configs
    requires BridgeIs(f.last, k.bridge, Registered(p, a, Here(p, a, k), map[]))
    ensures Shot(p, g, a, ButRevocations)
    ensures g.last == f.last.(bridges := f.last.bridges[k.bridge := Withdrawn(p, a, f.last.now, map[])], history := g.last.history)
  {
    hide Shot, Revoke, Registered, Withdrawn, HistoryAfterBridge;
    RevocationCuts(p, a, k, f.last.now);
    g := BridgeScene(p, f, a, ButRevocations, RevokeGrant(k.bridge, Withdrawal(p, a), true));
  }

  /** The bridge votes as if the founder had hung up. */
  lemma RevokedGetsVote(p: Params, a: HostId, b: HostId, i: BridgeId, since: int, open: set<Socket>, n: nat, now: int)
    requires ParamsOk(p) && |b| >= 1 && n >= 1 && LongGone(p, i, since, now)
    ensures var known := Some(FirstMark(p, a).(generation := 2));
      && ClaimVote(Withdrawn(p, a, since, map[]), Word(n), p.scope.authority, AbsenceAt(p, a, b, i, now), known, open, p.configs[i], now, true)
         == (Withdrawn(p, a, since, VotesAt(p, a, b, now)), Granted(ReceiptAt(p, a, b, i, n, now)))
      && KnownPrimary(Withdrawn(p, a, since, map[]).ledger.marks, p.scope, known)
  {
    var v := Withdrawn(p, a, since, map[]);
    assert Scope(p.scope.authority, p.scope.server) == p.scope;
    assert Word(n) != "";
    assert DurableEntryCount(v.ledger) < MAX_DURABLE_ENTRIES;
    assert WithVote(v.ledger, VoteAt(p, a, b, now)).votes == VotesAt(p, a, b, now);
  }

  lemma VoteRevoked(p: Params, f: Film, a: HostId, b: HostId, i: BridgeId, since: int, n: nat) returns (g: Film)
    requires Shot(p, f, a, ButRevocations) && ParamsOk(p) && |b| >= 1 && n >= 1
    requires BridgeIs(f.last, i, Withdrawn(p, a, since, map[])) && LongGone(p, i, since, f.last.now)
    requires ClaimMsg(i, Word(n), AbsenceAt(p, a, b, i, f.last.now)) in f.last.elections.claims
    ensures Shot(p, g, a, ButRevocations)
    ensures var s, s' := f.last, g.last;
      s' == s.(bridges := s.bridges[i := Withdrawn(p, a, since, VotesAt(p, a, b, s.now))],
               net := s.net.(receipts := s.net.receipts + {ReceiptAt(p, a, b, i, n, s.now)}), history := s'.history)
  {
    hide Shot, ClaimVote, Withdrawn, VotesAt, HistoryAfterBridge, KnownPrimary, ParamsOk;
    var s := f.last;
    RevokedGetsVote(p, a, b, i, since, s.wires.alive, n, s.now);
    g := BridgeScene(p, f, a, ButRevocations, Claim(i, Word(n), AbsenceAt(p, a, b, i, s.now), Some(FirstMark(p, a).(generation := 2)), true));
  }

  // ---------------------------------------------------------------- the election

  function WithdrawnMark(p: Params, a: HostId): Mark { FirstMark(p, a).(generation := 2) }

  lemma WithdrawnMisses(p: Params, s: Sys, a: HostId, i: BridgeId, since: int)
    requires BridgeIs(s, i, Withdrawn(p, a, since, map[])) && LongGone(p, i, since, s.now)
    ensures Misses(p, s, a, i, WithdrawnMark(p, a))
  {
    hide Grace;
  }

  /** The bridge of `x` has cut the founder off, that of `j` has lost it; the founder goes on writing. */
  predicate CutAndLeft(p: Params, s: Sys, a: HostId, b: HostId, x: BridgeId, j: BridgeId, gone: int) {
    && Stage(p, s, a, b) && s.elections == NO_ELECTIONS && Early(s.now)
    && BridgeIs(s, x, Withdrawn(p, a, START, map[])) && LongGone(p, x, START, s.now)
    && Gone(p, s, a, j, gone) && LongGone(p, j, gone, s.now)
  }

  lemma CutMayAsk(p: Params, s: Sys, a: HostId, b: HostId, x: BridgeId, j: BridgeId, gone: int)
    requires CutAndLeft(p, s, a, b, x, j, gone)
    ensures Askable(p, s, a, b, j) && Misses(p, s, a, x, WithdrawnMark(p, a)) && Misses(p, s, a, j, FirstMark(p, a))
    ensures Acts(p, s, a) && Follows(p, s, a, b) && a != b
  {
    StageWrites(p, s, a, b);
    GoneIsAskable(p, s, a, b, j, gone);
    GoneMisses(p, s, a, j, gone, map[]);
    WithdrawnMisses(p, s, a, x, START);
  }

  /** Both vote for the replica at this moment. */
  lemma ElectCutOff(p: Params, f: Film, a: HostId, b: HostId, x: BridgeId, j: BridgeId, gone: int) returns (g: Film)
    requires Shot(p, f, a, ButRevocations) && CastOk(p, a, b) && Chosen(p, x, j) && CutAndLeft(p, f.last, a, b, x, j, gone)
    ensures Shot(p, g, a, ButRevocations) && !AtMostOneWriter(g.last)
  {
    var s, but := f.last, ButRevocations;
    CutMayAsk(p, s, a, b, x, j, gone);
    ActsWrite(p, a, s.nodes[a]);
    hide Shot, ParamsOk, AtMostOneWriter, Registered, Withdrawn, VotesAt, ReceiptAt, LongGone, FirstRecord;
    hide Follower, OneVoteIn, Concludes;
    hide MayPromote, Won, Misses, Askable, Stage, Acting, AbsenceAt, Away;
    var asked := Canvass(p, f, a, b, but, x, WithdrawnMark(p, a), j, FirstMark(p, a), j);
    var first := ClaimFirst(p, asked, a, b, but, x, j);
    var voted := VoteRevoked(p, first, a, b, x, START, 1);
    var heard := HearFirst(p, voted, a, b, but, x, j);
    var second := ClaimSecond(p, heard, a, b, but, x, j);
    var both := VoteFor(p, second, a, b, but, j, gone, 2);
    var last := HearSecond(p, both, a, b, but, x, j);
    VotesElect(p, a, b, x, j, s.now);
    g := Elect(p, last, a, b, but, {ReceiptAt(p, a, b, x, 1, s.now), ReceiptAt(p, a, b, j, 2, s.now)});
    WonBeside(last.last, g.last, a, b);
  }

  // ---------------------------------------------------------------- three bridges

  /** The bridge of `x` has cut the founder off and answers its pings still, that of `z` has lost it. */
  predicate CutOffAt(p: Params, s: Sys, a: HostId, b: HostId, x: Socket, y: Socket, z: Socket) {
    && Thrives(p, s, a, b) && s.elections == NO_ELECTIONS && Reaches(p, s, a, Open(x), s.now) && Reaches(p, s, a, Open(y), s.now)
    && BridgeIs(s, x.bridge, Withdrawn(p, a, START, map[])) && Gone(p, s, a, z.bridge, START)
  }

  lemma RevokeAndLeave(p: Params, f: Film, a: HostId, b: HostId, x: Socket, y: Socket, z: Socket) returns (g: Film)
    requires Shot(p, f, a, ButRevocations) && ThreeBridges(p, x, y, z, a) && AllJoined(p, f.last, a, b, x, y, z)
    ensures Shot(p, g, a, ButRevocations) && CutOffAt(p, g.last, a, b, x, y, z) && g.last.now == START
  {
    hide Shot, Registered, Withdrawn, Follower, Writing, Acting, Here, Away;
    var left := Part(p, f, a, b, ButRevocations, z);
    g := RevokeAt(p, left, a, x);
    SameStage(p, left.last, g.last, a, b);
  }

  lemma StillCutOff(p: Params, s: Sys, s': Sys, a: HostId, b: HostId, x: Socket, y: Socket, z: Socket)
    requires CutOffAt(p, s, a, b, x, y, z) && Unharmed(s, s', a) && Thrives(p, s', a, b)
    ensures CutOffAt(p, s', a, b, x, y, z)
  {
    hide Stage, Registered, Withdrawn;
  }

  lemma OpenForever(p: Params, s: Sys, a: HostId, k: Socket, now: int, until: int)
    requires Reaches(p, s, a, Open(k), now)
    ensures Reaches(p, s, a, Open(k), until)
  {
  }

  lemma HumCutOff(p: Params, f: Film, a: HostId, b: HostId, x: Socket, y: Socket, z: Socket, until: int) returns (g: Film)
    requires Shot(p, f, a, ButRevocations) && Brisk(p) && ThreeBridges(p, x, y, z, a)
    requires CutOffAt(p, f.last, a, b, x, y, z) && f.last.now <= until
    ensures Shot(p, g, a, ButRevocations) && CutOffAt(p, g.last, a, b, x, y, z) && g.last.now == until
  {
    hide Shot, Stage, Registered, Withdrawn, Reaches;
    OpenForever(p, f.last, a, x, f.last.now, until);
    OpenForever(p, f.last, a, y, f.last.now, until);
    g := HumUntil(p, f, a, b, ButRevocations, Open(x), Open(y), until);
    StillCutOff(p, f.last, g.last, a, b, x, y, z);
  }

  /**
    * Revocations have to spare writers. In every community of three bridges two of which have a grace shorter
    * than a record is valid there is a run, on time but for one revocation that cuts off the writer, after
    * which two hosts write: it renews its lease on the pongs of the bridge that has cut it off and votes against it.
    */
  lemma CutOffWriterMakesTwoWriters(p: Params, a: HostId, b: HostId, x: BridgeId, y: BridgeId, z: BridgeId)
    returns (run: seq<Sys>, steps: seq<Step>)
    requires CastOk(p, a, b) && W(p) == {x, y, z} && |W(p)| == 3 && Brisk(p)
    requires Max(Grace(p.configs[x]), Grace(p.configs[z])) < RECORD_TTL_MS
    ensures IsRun(p, run, steps, a, 1) && forall i | 0 <= i < |steps| :: OnTime(p, run[i], steps[i]) || steps[i].RevokeGrant?
    ensures !AtMostOneWriter(run[|steps|])
  {
    hide IsRun, Shot, OnTime, Grace, AllJoined, Stage, Signed, ParamsOk, AtMostOneWriter, Withdrawn, Registered, LongGone, Reaches;
    var k, q, r := Socket(a, x, 0), Socket(a, y, 0), Socket(a, z, 0);
    AllDifferent(p, x, y, z);
    PatienceIsLong(p, x, z);
    var f := OpenAndSign(p, a, b, ButRevocations);
    f := JoinAll(p, f, a, b, ButRevocations, k, q, r);
    f := RevokeAndLeave(p, f, a, b, k, q, r);
    f := HumCutOff(p, f, a, b, k, q, r, START + Patience(p, x, z));
    f := ElectCutOff(p, f, a, b, x, z, START);
    ShotIsRun(p, f, a, ButRevocations);
    run, steps := f.run, f.steps;
  }

  // ---------------------------------------------------------------- two bridges

  /** The bridge of `x` has cut the founder off, that of `y` serves it. */
  predicate CutOffAtOne(p: Params, s: Sys, a: HostId, b: HostId, x: Socket, y: Socket) {
    && Thrives(p, s, a, b) && s.elections == NO_ELECTIONS && Reaches(p, s, a, Open(x), s.now) && Serves(p, s, a, y)
    && BridgeIs(s, x.bridge, Withdrawn(p, a, START, map[]))
  }

  lemma JoinTwo(p: Params, a: HostId, b: HostId, x: Socket, y: Socket) returns (g: Film)
    requires CastOk(p, a, b) && Chosen(p, x.bridge, y.bridge) && x.host == a && y.host == a && x.serial == 0
    requires y.serial == 0 && p.delay >= 0
    ensures Shot(p, g, a, ButRevocations) && Thrives(p, g.last, a, b) && g.last.elections == NO_ELECTIONS && g.last.now == START
    ensures Serves(p, g.last, a, x) && Serves(p, g.last, a, y)
  {
    hide Shot, Signed, MayJoin, JoinedAt, Thrives, Serves, FirstRecord, Acting, Restart, NonceUnused, Unused, ParamsOk;
    var signed := OpenAndSign(p, a, b, ButRevocations);
    SignedMayJoin(p, signed.last, a, b, x);
    SignedMayJoin(p, signed.last, a, b, y);
    var one := JoinNext(p, signed, a, ButRevocations, x, 1);
    StillMayJoin(p, signed.last, one.last, a, x, y, 1);
    g := JoinNext(p, one, a, ButRevocations, y, 2);
    TwoAreJoined(p, signed.last, one.last, g.last, a, b, x, y);
  }

  lemma TwoAreJoined(p: Params, s: Sys, e: Sys, s': Sys, a: HostId, b: HostId, x: Socket, y: Socket)
    requires Signed(p, s, a, b) && a != b && x.bridge != y.bridge && x.host == a && y.host == a && Chosen(p, x.bridge, y.bridge)
    requires a in e.nodes && JoinedAt(p, s, e, a, x, map[], 1) && JoinedAt(p, e, s', a, y, map[], 2) && s'.nodes[a].lease == START
    ensures Thrives(p, s', a, b) && s'.elections == NO_ELECTIONS && s'.now == START && Serves(p, s', a, x) && Serves(p, s', a, y)
  {
    hide Registered, Here, FirstRecord, EnsureRound, Restart, Founder, Acting, Writing, Follower, NonceUnused;
    SignedActs(p, s, a, b);
    FollowerIsSilent(p, a, b);
  }

  lemma RevokeOne(p: Params, f: Film, a: HostId, b: HostId, x: Socket, y: Socket) returns (g: Film)
    requires Shot(p, f, a, ButRevocations) && Thrives(p, f.last, a, b) && f.last.elections == NO_ELECTIONS && f.last.now == START
    requires Serves(p, f.last, a, x) && Serves(p, f.last, a, y) && x.bridge != y.bridge
    ensures Shot(p, g, a, ButRevocations) && CutOffAtOne(p, g.last, a, b, x, y) && g.last.now == START
  {
    hide Shot, Registered, Withdrawn, Follower, Writing, Acting, Here;
    g := RevokeAt(p, f, a, x);
    SameStage(p, f.last, g.last, a, b);
  }

  lemma StillCutOffAtOne(p: Params, s: Sys, s': Sys, a: HostId, b: HostId, x: Socket, y: Socket)
    requires CutOffAtOne(p, s, a, b, x, y) && Unharmed(s, s', a) && Thrives(p, s', a, b)
    ensures CutOffAtOne(p, s', a, b, x, y)
  {
    hide Stage, Registered, Withdrawn;
  }

  lemma HumCutOffAtOne(p: Params, f: Film, a: HostId, b: HostId, x: Socket, y: Socket, until: int) returns (g: Film)
    requires Shot(p, f, a, ButRevocations) && Brisk(p) && ParamsOk(p) && x.bridge != y.bridge && CutOffAtOne(p, f.last, a, b, x, y)
    requires f.last.now <= until
    ensures Shot(p, g, a, ButRevocations) && CutOffAtOne(p, g.last, a, b, x, y) && g.last.now == until
  {
    hide Shot, Stage, Registered, Withdrawn, Reaches;
    OpenForever(p, f.last, a, x, f.last.now, until);
    ServesReaches(p, f.last, a, y, until);
    g := HumUntil(p, f, a, b, ButRevocations, Open(x), Open(y), until);
    StillCutOffAtOne(p, f.last, g.last, a, b, x, y);
  }

  /** The bridge of `y` loses the founder, which lives on its last renewal. */
  lemma LeaveAndLast(p: Params, f: Film, a: HostId, b: HostId, x: Socket, y: Socket, ms: nat) returns (g: Film)
    requires Shot(p, f, a, ButRevocations) && Brisk(p) && x.bridge != y.bridge && CutOffAtOne(p, f.last, a, b, x, y)
    requires ms < p.fence + p.poll
    ensures Shot(p, g, a, ButRevocations) && Stage(p, g.last, a, b) && g.last.elections == NO_ELECTIONS && g.last.now == f.last.now + ms
    ensures BridgeIs(g.last, x.bridge, Withdrawn(p, a, START, map[])) && Gone(p, g.last, a, y.bridge, f.last.now)
  {
    hide Shot, Registered, Withdrawn, Follower, Writing, Acting, Here, Away;
    var left := Part(p, f, a, b, ButRevocations, y);
    var until := f.last.now + ms;
    g := Go(p, left, a, b, ButRevocations, until, f.last.now + p.fence - 1, until);
    WentUnharmed(left.last, g.last, a, f.last.now + p.fence - 1, until);
  }

  /**
    * With two bridges, which both have to vote, this takes a grace shorter than a lease: the other grace may be
    * as long as a record is valid, but its bridge has cut the writer off.
    */
  lemma CutOffAtOneMakesTwoWriters(p: Params, a: HostId, b: HostId, x: BridgeId, y: BridgeId) returns (run: seq<Sys>, steps: seq<Step>)
    requires CastOk(p, a, b) && Chosen(p, x, y) && Brisk(p) && p.fence + p.poll <= RECORD_TTL_MS
    requires Grace(p.configs[x]) < RECORD_TTL_MS && Grace(p.configs[y]) < p.fence + p.poll
    ensures IsRun(p, run, steps, a, 1) && forall i | 0 <= i < |steps| :: OnTime(p, run[i], steps[i]) || steps[i].RevokeGrant?
    ensures !AtMostOneWriter(run[|steps|])
  {
    hide IsRun, Shot, OnTime, Stage, ParamsOk, AtMostOneWriter, Withdrawn, Registered, CutOffAtOne, Thrives, Serves;
    var k, q, grace := Socket(a, x, 0), Socket(a, y, 0), Grace(p.configs[y]);
    var f := JoinTwo(p, a, b, k, q);
    f := RevokeOne(p, f, a, b, k, q);
    f := HumCutOffAtOne(p, f, a, b, k, q, START + Max(0, Grace(p.configs[x]) - grace));
    var gone := f.last.now;
    f := LeaveAndLast(p, f, a, b, k, q, grace);
    f := ElectCutOff(p, f, a, b, x, y, gone);
    ShotIsRun(p, f, a, ButRevocations);
    run, steps := f.run, f.steps;
  }
}
