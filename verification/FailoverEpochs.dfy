/**
  * In every run of the failover system, with crashes, restarts, resumes and revocations: each epoch has
  * at most one writer, ever. A bridge votes once per election and remembers it; an election is a strict
  * majority of one bridge set; two strict majorities meet.
  */
module FailoverEpochs {
  import opened Community
  import opened Quorums
  import opened BridgeLedger
  import opened Bridge
  import opened BridgeInvariants
  import opened WitnessFloor
  import opened HostWriter
  import opened Coordinator
  import opened Failover
  import HostRuns

  type Champions = map<nat, HostId>

  predicate Champion(c: Champions, e: nat, h: HostId) {
    e in c && c[e] == h
  }

  predicate Grows(c: Champions, d: Champions) {
    forall e | e in c :: Champion(d, e, c[e])
  }

  // ---------------------------------------------------------------- the invariant

  predicate RightfulRecord(c: Champions, r: HostRecord) {
    r.role.Primary? ==> Champion(c, r.epoch, r.hostId)
  }

  /** Whoever writes, waits to resume, or could revive a stored writer row is the champion of its epoch. */
  predicate RightfulHost(c: Champions, h: HostId, x: Host) {
    && (ActsAsPrimary(x) ==> Champion(c, x.db.epoch, h))
    && (x.resume.Some? ==> x.resume.value.epoch == x.db.epoch && !x.writer)
    && (x.db.row.Some? && HostRuns.Revivable(x.db.row.value, x.boot.grant, x.db.epoch) ==> Champion(c, x.db.epoch, h))
    && (x.pending.Some? ==> x.pending.value.record.hostId == h && RightfulRecord(c, x.pending.value.record))
  }

  predicate RightfulMarks(c: Champions, scope: Scope, marks: map<HostKey, Mark>) {
    forall k | k in marks && k.scope == scope && marks[k].role.Primary? :: Champion(c, marks[k].epoch, k.hostId)
  }

  predicate RightfulPending(c: Champions, scope: Scope, pending: map<Socket, Pending>) {
    forall k | k in pending :: FrameScope(pending[k].frame) == scope && RightfulRecord(c, pending[k].frame.record)
  }

  predicate RightfulBridge(c: Champions, scope: Scope, v: BridgeState) {
    Valid(v) && RightfulMarks(c, scope, v.ledger.marks) && RightfulPending(c, scope, v.challenges.pending)
  }

  predicate VotedFor(v: BridgeState, scope: Scope, e: nat, h: HostId) {
    ElectionKey(scope, e) in v.ledger.votes && v.ledger.votes[ElectionKey(scope, e)].candidate == h
  }

  predicate Backed(p: Params, c: Champions, bridges: map<BridgeId, BridgeState>, r: Receipt) {
    && r.bridge in bridges && r.electionEpoch == r.primaryEpoch + 1
    && VotedFor(bridges[r.bridge], p.scope, r.electionEpoch, r.candidate)
    && Champion(c, r.primaryEpoch, r.primary)
  }

  predicate ElectedBy(p: Params, bridges: map<BridgeId, BridgeState>, q: set<BridgeId>, e: nat, h: HostId) {
    StrictMajority(q, W(p)) && forall b | b in q :: b in bridges && VotedFor(bridges[b], p.scope, e, h)
  }

  ghost predicate Elected(p: Params, bridges: map<BridgeId, BridgeState>, e: nat, h: HostId) {
    exists q: set<BridgeId> :: ElectedBy(p, bridges, q, e, h)
  }

  predicate RightfulNode(p: Params, c: Champions, h: HostId, n: Node) {
    && HostFits(p, h, n.service) && RightfulHost(c, h, n.service)
    && (n.round.Some? ==> n.round.value.record.hostId == h && RightfulRecord(c, n.round.value.record))
  }

  predicate NodesRightful(p: Params, c: Champions, nodes: map<HostId, Node>) {
    forall h | h in nodes :: RightfulNode(p, c, h, nodes[h])
  }

  predicate BridgesRightful(p: Params, c: Champions, bridges: map<BridgeId, BridgeState>) {
    bridges.Keys == W(p) && forall b | b in bridges :: RightfulBridge(c, p.scope, bridges[b])
  }

  predicate NetRightful(p: Params, c: Champions, bridges: map<BridgeId, BridgeState>, net: Net) {
    && (forall r | r in net.records :: RightfulRecord(c, r))
    && (forall m | m in net.acks :: RightfulRecord(c, m.record))
    && (forall r | r in net.receipts :: Backed(p, c, bridges, r))
  }

  /** Every later champion was elected, and stored epochs are never below an epoch once won. */
  ghost predicate ChampionsSound(p: Params, c: Champions, s: Sys, e0: nat) {
    && e0 in c
    && (forall e | e in c :: e >= e0 && c[e] in s.nodes && s.nodes[c[e]].service.db.epoch >= e)
    && (forall e: nat | e in c && e > e0 :: e - 1 in c && Elected(p, s.bridges, e, c[e]))
  }

  ghost predicate EpochInv(p: Params, s: Sys, e0: nat) {
    var c := s.history.champions;
    && ParamsOk(p) && s.now >= 1
    && NodesRightful(p, c, s.nodes)
    && BridgesRightful(p, c, s.bridges)
    && NetRightful(p, c, s.bridges, s.net)
    && ChampionsSound(p, c, s, e0)
  }

  lemma InitInv(p: Params, s: Sys, founder: HostId, e0: nat)
    requires Init(p, s, founder, e0)
    ensures EpochInv(p, s, e0)
  {
    var c := s.history.champions;
    forall h | h in s.nodes ensures RightfulNode(p, c, h, s.nodes[h]) {
      InitNode(p, s, founder, e0, h);
    }
    assert BridgesRightful(p, c, s.bridges) by {
      forall b | b in s.bridges ensures RightfulBridge(c, p.scope, s.bridges[b]) {
        RestartValid(s.bridges[b].ledger);
      }
    }
    hide RightfulNode, BridgesRightful;
    assert NodesRightful(p, c, s.nodes);
    assert ChampionsSound(p, c, s, e0);
  }

  lemma InitNode(p: Params, s: Sys, founder: HostId, e0: nat, h: HostId)
    requires Init(p, s, founder, e0) && h in s.nodes
    ensures RightfulNode(p, s.history.champions, h, s.nodes[h])
  {
    hide ParamsOk, HostFits;
  }

  // ---------------------------------------------------------------- one host

  lemma SyncKeepsFloor(p: Params, h: HostId, x: Host, snap: Snapshot)
    requires HostFits(p, h, x) && CleanSync(p, x, snap)
    ensures Normal(PersistedFloor(ApplySnapshot(x, snap).db.row, x.boot.grant))
  {
  }

  lemma HostStep(p: Params, c: Champions, h: HostId, x: Host, t: HostRuns.Step)
    requires HostFits(p, h, x) && RightfulHost(c, h, x)
    requires t.Reboot? ==> t.configured == W(p)
    requires t.Sync? ==> CleanSync(p, x, t.snapshot)
    requires t.Win? ==> !MayPromote(x, t.expectedEpoch, t.votes, t.granted, t.now)
    requires !t.Trust?
    ensures var y := HostRuns.Do(x, t); HostFits(p, h, y) && RightfulHost(c, h, y) && y.db.epoch >= x.db.epoch
  {
    hide Normal, Suffices, ObservedCertificateValid, LastOwnPrimary, MayPromote, RegistrationVerifies, CurrentFloor;
    var y := HostRuns.Do(x, t);
    if !t.Sync? {
      HostRuns.StepExtendsFloor(x, t);
    } else {
      SyncKeepsFloor(p, h, x, t.snapshot);
    }
    HostRuns.StepNeverLowersEpoch(x, t);
    assert y.boot == x.boot by {
      if t.Reboot? { assert x.boot.(configured := t.configured) == x.boot; }
    }
  }

  /** An acknowledgement commits the record of the round in force and may then resume the host; it can do no more. */
  lemma AckIsCommitThenResume(n: Node, bridge: BridgeId, record: HostRecord, granted: bool, now: int)
    ensures var y := ReceiveAck(n, bridge, record, granted, now).service;
      y == n.service || (n.round.Some? &&
        var r := n.round.value.record;
        || y == CommitRecord(n.service, HashOf(r))
        || exists x, acked ::
             (x == n.service || x == CommitRecord(n.service, HashOf(r))) && y == Resume(x, BindingOf(r), acked, Targets(n), granted))
  {
    if AnswersPublication(n, bridge, record) {
      var r := n.round.value.record;
      var x := if n.round.value.committed then n.service else CommitRecord(n.service, HashOf(r));
      var acked := n.round.value.acked + {bridge};
      assert ReceiveAck(n, bridge, record, granted, now).service in {x, Resume(x, BindingOf(r), acked, Targets(n), granted)};
    }
  }

  predicate ServiceKept(p: Params, c: Champions, h: HostId, x: Host, y: Host) {
    HostFits(p, h, y) && RightfulHost(c, h, y) && y.db.epoch >= x.db.epoch
  }

  lemma AckKeepsService(p: Params, c: Champions, h: HostId, n: Node, bridge: BridgeId, record: HostRecord, granted: bool, now: int)
    requires HostFits(p, h, n.service) && RightfulHost(c, h, n.service)
    ensures ServiceKept(p, c, h, n.service, ReceiveAck(n, bridge, record, granted, now).service)
  {
    hide ReceiveAck, HostFits, RightfulHost, CommitRecord, Resume;
    var x := n.service;
    AckIsCommitThenResume(n, bridge, record, granted, now);
    var y := ReceiveAck(n, bridge, record, granted, now).service;
    if y != x {
      var r := n.round.value.record;
      var commit := HostRuns.CommitOwn(HashOf(r));
      HostStep(p, c, h, x, commit);
      if y != HostRuns.Do(x, commit) {
        var z, acked :| (z == x || z == CommitRecord(x, HashOf(r))) && y == Resume(z, BindingOf(r), acked, Targets(n), granted);
        var resume := HostRuns.TryResume(BindingOf(r), acked, Targets(n), granted);
        HostStep(p, c, h, z, resume);
        assert y == HostRuns.Do(z, resume);
      }
    }
  }

  /** The host transition behind a step of its node; an acknowledgement is two of them and handled above. */
  function ServiceStep(p: Params, n: Node, t: Failover.Step, now: int): Option<HostRuns.Step>
    requires IsHostStep(t)
  {
    match t
    case SignRound(_) => if n.round.Some? then None else Some(HostRuns.Sign(now))
    case Poll(_, granted) =>
      if n.service.writer && n.observed && now - n.lease >= p.fence then Some(HostRuns.LoseQuorum(granted)) else None
    case Renew(_) =>
      if n.round.Some? && n.round.value.committed then Some(HostRuns.Abandon(HashOf(n.round.value.record))) else None
    case HearEpoch(_, a, prior, accepted, granted, trusted) => Some(HostRuns.Hear(a, prior, accepted, granted, trusted, now))
    case SyncReplica(_, snap) => Some(HostRuns.Sync(snap))
    case EnrollReplica(_, promotable, witnesses, access) => Some(HostRuns.EnrollOne(promotable, witnesses, access))
    case RebootHost(_, granted) => Some(HostRuns.Reboot(n.service.boot.configured, granted))
    case _ => None
  }

  lemma NodeServiceIsHostStep(p: Params, n: Node, t: Failover.Step, now: int)
    requires IsHostStep(t) && !t.WinElection? && !t.GetAck?
    ensures NodeAfter(p, n, t, now).service ==
      match ServiceStep(p, n, t, now) case None => n.service case Some(u) => HostRuns.Do(n.service, u)
  {
    if t.RebootHost? {
      assert n.service.boot.(configured := n.service.boot.configured) == n.service.boot;
    }
  }

  /** Every step of a host but an election win leaves its service rightful under the same champions. */
  lemma NodeStep(p: Params, c: Champions, s: Sys, t: Failover.Step)
    requires NodesRightful(p, c, s.nodes)
    requires IsHostStep(t) && HostEnabled(p, s, t) && !t.WinElection?
    ensures ServiceKept(p, c, t.host, s.nodes[t.host].service, NodeAfter(p, s.nodes[t.host], t, s.now).service)
  {
    var h, n := t.host, s.nodes[t.host];
    if t.GetAck? {
      AckKeepsService(p, c, h, n, t.ack.socket.bridge, t.ack.record, t.granted, s.now);
    } else {
      NodeServiceIsHostStep(p, n, t, s.now);
      match ServiceStep(p, n, t, s.now) {
        case None =>
        case Some(u) =>
          assert !u.Win? && !u.Trust?;
          HostStep(p, c, h, n.service, u);
      }
    }
  }

  lemma NodeStepKeepsRound(p: Params, c: Champions, s: Sys, t: Failover.Step)
    requires NodesRightful(p, c, s.nodes)
    requires IsHostStep(t) && HostEnabled(p, s, t) && !t.WinElection?
    ensures RightfulNode(p, c, t.host, NodeAfter(p, s.nodes[t.host], t, s.now))
    ensures NodeAfter(p, s.nodes[t.host], t, s.now).service.db.epoch >= s.nodes[t.host].service.db.epoch
  {
    hide NodeAfter, HostFits, RightfulRecord, HostEnabled;
    EnabledIsHere(p, s, t);
    NodeStep(p, c, s, t);
    NodeStepRound(p, s.nodes[t.host], t, s.now);
  }

  /** A round keeps its record, and a new one is for the record then pending. */
  lemma NodeStepRound(p: Params, n: Node, t: Failover.Step, now: int)
    requires IsHostStep(t) && !t.WinElection?
    ensures var n' := NodeAfter(p, n, t, now);
      n'.round.Some? ==>
        || (n.round.Some? && n'.round.value.record == n.round.value.record)
        || (n'.service.pending.Some? && n'.round.value.record == n'.service.pending.value.record)
  {
    hide MayPromote, MayObserve, Resume, CurrentFloor, CommitRecord;
  }

  lemma NotingKeeps(hist: History, h: HostId, b: BridgeId, at: int, wrote: bool, n': Node, now: int)
    ensures var hist' := NoteEvidence(hist, h, b, at, wrote, n', now);
      hist' == hist.(evidence := hist'.evidence, renewals := hist'.renewals)
  {
    hide LiveQuorum;
  }

  /** What a step of a host may add to the history. */
  lemma HistoryKeeps(hist: History, n: Node, n': Node, t: Failover.Step, now: int)
    requires IsHostStep(t)
    ensures var hist' := HistoryAfterHost(hist, n, n', t, now);
      !t.WinElection? ==> hist' == hist.(evidence := hist'.evidence, ackedAt := hist'.ackedAt, renewals := hist'.renewals)
    ensures var hist' := HistoryAfterHost(hist, n, n', t, now);
      t.WinElection? ==> hist' == hist.(champions := hist.champions[t.expectedEpoch + 1 := t.host], began := hist'.began, renewals := hist'.renewals)
  {
    hide AckCounts, PongCounts, PongEvidence, NoteEvidence;
    if t.GetAck? {
      NotingKeeps(hist.(ackedAt := hist.ackedAt[Line(t.host, t.ack.socket.bridge) := t.ack.at]), t.host, t.ack.socket.bridge, t.ack.at,
        n.service.writer, n', now);
    } else if t.GetPong? {
      NotingKeeps(hist, t.host, t.pong.socket.bridge, PongEvidence(hist, t.host, t.pong), n.service.writer, n', now);
    }
  }

  /** What a host step other than an election win may touch. */
  lemma HostStepTouches(p: Params, s: Sys, t: Failover.Step)
    requires IsHostStep(t) && t.host in s.nodes && !t.WinElection?
    ensures var s', n' := HostAfter(p, s, t), NodeAfter(p, s.nodes[t.host], t, s.now);
      && s'.history.champions == s.history.champions && s'.now == s.now
      && s'.bridges == s.bridges && s'.net.receipts == s.net.receipts && s'.net.acks == s.net.acks
      && s'.nodes == s.nodes[t.host := n']
      && forall r | r in s'.net.records :: r in s.net.records || (n'.round.Some? && r == n'.round.value.record)
  {
    hide NodeAfter, HistoryAfterHost;
    HistoryKeeps(s.history, s.nodes[t.host], NodeAfter(p, s.nodes[t.host], t, s.now), t, s.now);
  }

  /** Stored epochs only rise and nothing else about past elections depends on the hosts. */
  lemma SoundStays(p: Params, c: Champions, s: Sys, s': Sys, e0: nat)
    requires ChampionsSound(p, c, s, e0) && s'.bridges == s.bridges
    requires forall h | h in s.nodes :: h in s'.nodes && s'.nodes[h].service.db.epoch >= s.nodes[h].service.db.epoch
    ensures ChampionsSound(p, c, s', e0)
  {
    hide Elected;
  }

  lemma NodesStay(p: Params, c: Champions, nodes: map<HostId, Node>, h: HostId, n': Node)
    requires NodesRightful(p, c, nodes) && RightfulNode(p, c, h, n')
    ensures NodesRightful(p, c, nodes[h := n'])
  {
    hide RightfulNode;
  }

  lemma HostStepKeepsInv(p: Params, s: Sys, t: Failover.Step, e0: nat)
    requires EpochInv(p, s, e0)
    requires IsHostStep(t) && t.host in s.nodes && HostEnabled(p, s, t) && !t.WinElection?
    ensures EpochInv(p, HostAfter(p, s, t), e0)
    ensures HostAfter(p, s, t).history.champions == s.history.champions
  {
    hide HostEnabled, HostAfter, NodeAfter, RightfulNode, RightfulRecord, RightfulBridge, BridgesRightful, Backed, Elected;
    hide NodesRightful, ParamsOk, ChampionsSound;
    var c, h := s.history.champions, t.host;
    var n' := NodeAfter(p, s.nodes[h], t, s.now);
    var s' := HostAfter(p, s, t);
    NodeStepKeepsRound(p, c, s, t);
    HostStepTouches(p, s, t);
    RoundIsRightful(p, c, h, n');
    NodesStay(p, c, s.nodes, h, n');
    SoundStays(p, c, s, s', e0);
    assert NetRightful(p, c, s'.bridges, s'.net);
  }

  lemma RoundIsRightful(p: Params, c: Champions, h: HostId, n: Node)
    requires RightfulNode(p, c, h, n)
    ensures n.round.Some? ==> RightfulRecord(c, n.round.value.record)
  {
  }

  // ---------------------------------------------------------------- an election

  lemma VotersAreConfigured(p: Params, s: Sys, t: Failover.Step)
    requires NodesRightful(p, s.history.champions, s.nodes)
    requires t.WinElection? && HostEnabled(p, s, t)
    ensures StrictMajority(VotingBridges(t.votes), W(p))
    ensures forall r | r in t.votes ::
      (r in s.net.receipts && r.electionEpoch == t.expectedEpoch + 1 && r.primaryEpoch == t.expectedEpoch && r.candidate == t.host
       && s.now - r.issuedAt <= OBSERVATION_FRESHNESS_MS)
  {
    assert RightfulNode(p, s.history.champions, t.host, s.nodes[t.host]);
  }

  lemma ElectedOnce(p: Params, bridges: map<BridgeId, BridgeState>, e: nat, h: HostId, g: HostId)
    requires Elected(p, bridges, e, h) && Elected(p, bridges, e, g)
    ensures h == g
  {
    var q: set<BridgeId> :| ElectedBy(p, bridges, q, e, h);
    var r: set<BridgeId> :| ElectedBy(p, bridges, r, e, g);
    var both := MajoritiesMeet(q, r, W(p));
    assert bridges[both].ledger.votes[ElectionKey(p.scope, e)].candidate == h;
  }

  /** The heart of the matter: whoever wins an epoch that already had a champion is that champion. */
  lemma WinnerIsUnique(p: Params, s: Sys, t: Failover.Step, e0: nat)
    requires EpochInv(p, s, e0)
    requires t.WinElection? && HostEnabled(p, s, t)
    ensures var c, e := s.history.champions, t.expectedEpoch;
      && e in c && e >= e0
      && Elected(p, s.bridges, e + 1, t.host)
      && (e + 1 in c ==> c[e + 1] == t.host)
  {
    hide NodesRightful, BridgesRightful, HostEnabled, ParamsOk, VotedFor;
    var c, e, h := s.history.champions, t.expectedEpoch, t.host;
    VotersAreConfigured(p, s, t);
    var quorum := VotingBridges(t.votes);
    assert StrictMajority(quorum, W(p));
    forall b | b in quorum ensures b in s.bridges && VotedFor(s.bridges[b], p.scope, e + 1, h) {
      var r :| r in t.votes && r.bridge == b;
      assert Backed(p, c, s.bridges, r);
    }
    assert ElectedBy(p, s.bridges, quorum, e + 1, h);
    var any := MajoritiesMeet(quorum, quorum, W(p));
    var r :| r in t.votes && r.bridge == any;
    assert Backed(p, c, s.bridges, r) && Champion(c, e, r.primary);
    if e + 1 in c {
      ElectedOnce(p, s.bridges, e + 1, h, c[e + 1]);
    }
  }

  lemma GrowingKeepsBridges(p: Params, c: Champions, d: Champions, bridges: map<BridgeId, BridgeState>)
    requires Grows(c, d) && BridgesRightful(p, c, bridges)
    ensures BridgesRightful(p, d, bridges)
  {
    forall b | b in bridges ensures RightfulBridge(d, p.scope, bridges[b]) {
      assert RightfulBridge(c, p.scope, bridges[b]);
    }
  }

  lemma GrowingKeepsNet(p: Params, c: Champions, d: Champions, bridges: map<BridgeId, BridgeState>, net: Net)
    requires Grows(c, d) && NetRightful(p, c, bridges, net)
    ensures NetRightful(p, d, bridges, net)
  {
  }

  lemma GrowingKeepsNode(p: Params, c: Champions, d: Champions, h: HostId, n: Node)
    requires Grows(c, d) && RightfulNode(p, c, h, n)
    ensures RightfulNode(p, d, h, n)
  {
  }

  lemma WinnerFits(p: Params, c: Champions, h: HostId, n: Node, e: nat, votes: set<Receipt>, granted: bool, now: int)
    requires RightfulNode(p, c, h, n) && MayPromote(n.service, e, votes, granted, now) && Champion(c, e + 1, h)
    ensures RightfulNode(p, c, h, Win(n, e, votes, granted, now))
    ensures Win(n, e, votes, granted, now).service.db.epoch == e + 1 == n.service.db.epoch + 1
    ensures Win(n, e, votes, granted, now).service.writer
  {
    HostRuns.StepExtendsFloor(n.service, HostRuns.Win(e, votes, granted, now));
  }

  lemma WinChanges(p: Params, s: Sys, t: Failover.Step)
    requires t.WinElection? && HostEnabled(p, s, t)
    ensures var s', h, e := HostAfter(p, s, t), t.host, t.expectedEpoch;
      && s'.history.champions == s.history.champions[e + 1 := h]
      && s'.nodes == s.nodes[h := Win(s.nodes[h], e, t.votes, t.granted, s.now)]
      && s'.net == s.net && s'.bridges == s.bridges && s'.now == s.now
      && MayPromote(s.nodes[h].service, e, t.votes, t.granted, s.now)
  {
    hide Win, MayPromote;
  }

  lemma SoundAfterWin(p: Params, c: Champions, s: Sys, s': Sys, e0: nat, h: HostId, e: nat)
    requires ChampionsSound(p, c, s, e0) && s'.bridges == s.bridges
    requires forall g | g in s.nodes :: g in s'.nodes && s'.nodes[g].service.db.epoch >= s.nodes[g].service.db.epoch
    requires e in c && e >= e0 && Elected(p, s.bridges, e + 1, h)
    requires e + 1 in c ==> c[e + 1] == h
    requires h in s'.nodes && s'.nodes[h].service.db.epoch >= e + 1
    ensures ChampionsSound(p, c[e + 1 := h], s', e0)
  {
    hide Elected;
  }

  lemma WinKeepsNodes(p: Params, c: Champions, d: Champions, s: Sys, t: Failover.Step)
    requires Grows(c, d) && NodesRightful(p, c, s.nodes)
    requires t.WinElection? && HostEnabled(p, s, t) && Champion(d, t.expectedEpoch + 1, t.host)
    ensures var n' := Win(s.nodes[t.host], t.expectedEpoch, t.votes, t.granted, s.now);
      && NodesRightful(p, d, s.nodes[t.host := n'])
      && n'.service.db.epoch == t.expectedEpoch + 1 >= s.nodes[t.host].service.db.epoch
  {
    WinChanges(p, s, t);
    hide RightfulNode, MayPromote, Win, HostEnabled;
    forall k | k in s.nodes ensures RightfulNode(p, d, k, s.nodes[k]) {
      GrowingKeepsNode(p, c, d, k, s.nodes[k]);
    }
    WinnerFits(p, d, t.host, s.nodes[t.host], t.expectedEpoch, t.votes, t.granted, s.now);
  }

  lemma WinKeepsInv(p: Params, s: Sys, t: Failover.Step, e0: nat)
    requires EpochInv(p, s, e0)
    requires t.WinElection? && t.host in s.nodes && HostEnabled(p, s, t)
    ensures EpochInv(p, HostAfter(p, s, t), e0)
    ensures Grows(s.history.champions, HostAfter(p, s, t).history.champions)
  {
    hide HostEnabled, HostAfter, MayPromote, Win, Elected, RightfulNode, BridgesRightful, NetRightful;
    var c, s' := s.history.champions, HostAfter(p, s, t);
    var h, e := t.host, t.expectedEpoch;
    WinnerIsUnique(p, s, t, e0);
    WinChanges(p, s, t);
    var d := c[e + 1 := h];
    assert Grows(c, d);
    GrowingKeepsBridges(p, c, d, s.bridges);
    GrowingKeepsNet(p, c, d, s.bridges, s.net);
    WinKeepsNodes(p, c, d, s, t);
    hide NodesRightful, ParamsOk;
    SoundAfterWin(p, c, s, s', e0, h, e);
  }

  // ---------------------------------------------------------------- one bridge

  predicate VotesKept(v: BridgeState, v': BridgeState) {
    forall k | k in v.ledger.votes :: k in v'.ledger.votes && v'.ledger.votes[k] == v.ledger.votes[k]
  }

  predicate BridgeKept(c: Champions, scope: Scope, v: BridgeState, v': BridgeState) {
    RightfulBridge(c, scope, v') && VotesKept(v, v')
  }

  lemma CleanupIsRightful(c: Champions, scope: Scope, v: BridgeState, now: int)
    requires RightfulBridge(c, scope, v)
    ensures BridgeKept(c, scope, v, Cleanup(v, now))
  {
    hide Valid, UnbindAll;
    CleanupKeeps(v, now);
  }

  lemma BeginIsRightful(c: Champions, scope: Scope, v: BridgeState, ws: Socket, requestId: string, f: Frame,
                        known: Option<Mark>, cfg: Config, challenge: string, now: int)
    requires RightfulBridge(c, scope, v) && RightfulRecord(c, f.record) && FrameScope(f) == scope
    ensures BridgeKept(c, scope, v, Begin(v, ws, requestId, f, known, cfg, challenge, now).0)
  {
    hide Valid, Cleanup, RegistrationFault, AccessValid, RightfulMarks, RightfulRecord;
    BeginKeeps(v, ws, requestId, f, known, cfg, challenge, now);
    CleanupIsRightful(c, scope, v, now);
  }

  lemma CommitIsRightful(c: Champions, scope: Scope, v: BridgeState, ws: Socket, f: Frame, now: int, persisted: bool)
    requires RightfulBridge(c, scope, v) && RightfulRecord(c, f.record) && FrameScope(f) == scope && MarkShape(FrameMark(f))
    ensures BridgeKept(c, scope, v, Commit(v, ws, f, now, persisted).0)
  {
    hide Valid, Rebind, MarkAdvances, Idempotent, MarkShape, RightfulPending;
    CommitKeeps(v, ws, f, now, persisted);
  }

  lemma ClearedIsRightful(c: Champions, scope: Scope, v: BridgeState, ws: Socket)
    requires RightfulBridge(c, scope, v)
    ensures BridgeKept(c, scope, v, Cleared(v, ws))
  {
    ClearPendingAgrees(v.challenges, ws);
    hide ClaimsAgree;
  }

  lemma ProveIsRightful(c: Champions, scope: Scope, v: BridgeState, ws: Socket, requestId: string, proof: Proof,
                        known: Option<Mark>, cfg: Config, now: int, persisted: bool)
    requires RightfulBridge(c, scope, v)
    ensures BridgeKept(c, scope, v, Prove(v, ws, requestId, proof, known, cfg, now, persisted).0)
  {
    hide Valid, RegistrationFault, Commit, ProofValid, RightfulMarks, RightfulRecord, FrameMark, MarkShape;
    if ws in v.challenges.pending {
      var f := v.challenges.pending[ws].frame;
      ClearedIsRightful(c, scope, v, ws);
      if RegistrationFault(v, f, known, cfg, now).None? {
        ValidatedMarkIsAccepted(v, f, known, cfg, now);
        CommitIsRightful(c, scope, Cleared(v, ws), ws, f, now, persisted);
      }
    }
  }

  lemma RevokeIsRightful(c: Champions, scope: Scope, v: BridgeState, r: Revocation, now: int, persisted: bool)
    requires RightfulBridge(c, scope, v)
    ensures BridgeKept(c, scope, v, Revoke(v, r, now, persisted).0)
  {
    hide Valid, JudgeRevocation, UnbindAll;
    RevokeKeeps(v, r, now, persisted);
  }

  lemma CloseIsRightful(c: Champions, scope: Scope, v: BridgeState, ws: Socket, now: int)
    requires RightfulBridge(c, scope, v)
    ensures BridgeKept(c, scope, v, Close(v, ws, now))
  {
    hide Valid, Unbind;
    CloseKeeps(v, ws, now);
  }

  lemma RestartIsRightful(c: Champions, scope: Scope, v: BridgeState, credentials: map<AccessKey, Access>)
    requires RightfulBridge(c, scope, v) && forall k | k in credentials :: credentials[k].key == k
    ensures BridgeKept(c, scope, v, Restart(v.ledger.(access := credentials)))
  {
    RestartValid(v.ledger.(access := credentials));
  }

  lemma ClaimIsRightful(c: Champions, scope: Scope, v: BridgeState, requestId: string, w: AbsenceWitness, known: Option<Mark>,
                        open: set<Socket>, cfg: Config, now: int, persisted: bool)
    requires RightfulBridge(c, scope, v) && now >= 1 && w.server == scope.server
    requires KnownPrimary(v.ledger.marks, scope, known)
    ensures BridgeKept(c, scope, v, ClaimVote(v, requestId, scope.authority, w, known, open, cfg, now, persisted).0)
  {
    hide Valid, KnownPrimary, WitnessValid, Absent, SameBallot, RightfulPending;
    assert scope == Scope(scope.authority, w.server);
    ClaimVoteKeeps(v, requestId, scope.authority, w, known, open, cfg, now, persisted);
  }

  /** A receipt is only issued for the vote this bridge holds, and names the champion it knows as primary. */
  lemma GrantedReceiptIsBacked(c: Champions, scope: Scope, v: BridgeState, requestId: string, w: AbsenceWitness,
                               known: Option<Mark>, open: set<Socket>, cfg: Config, now: int, persisted: bool)
    requires RightfulBridge(c, scope, v) && w.server == scope.server && KnownPrimary(v.ledger.marks, scope, known)
    requires ClaimVote(v, requestId, scope.authority, w, known, open, cfg, now, persisted).1.Granted?
    ensures var (v', reply) := ClaimVote(v, requestId, scope.authority, w, known, open, cfg, now, persisted);
      && reply.receipt.bridge == cfg.me && reply.receipt.electionEpoch == reply.receipt.primaryEpoch + 1
      && VotedFor(v', scope, reply.receipt.electionEpoch, reply.receipt.candidate)
      && Champion(c, reply.receipt.primaryEpoch, reply.receipt.primary)
  {
    hide WitnessValid, Absent, ClaimsAgree, SocketsAgree, RightfulPending;
  }

  lemma BridgeStep(p: Params, c: Champions, s: Sys, t: Failover.Step)
    requires IsBridgeStep(t) && BridgeEnabled(p, s, t) && BridgesRightful(p, c, s.bridges) && s.now >= 1
    requires forall r | r in s.net.records :: RightfulRecord(c, r)
    ensures var b := BridgeOf(t);
      BridgeKept(c, p.scope, s.bridges[b], BridgeAfter(p, p.configs[b], s.bridges[b], t, s.wires.alive, s.now))
  {
    hide BridgeKept, RightfulRecord, RightfulBridge, Begin, Prove, Close, Cleanup, Revoke, ClaimVote, Restart, KnownPrimary;
    var b := BridgeOf(t);
    var v, cfg := s.bridges[b], p.configs[b];
    match t {
      case BeginReg(_, k, requestId, f, known, nonce) =>
        BeginIsRightful(c, p.scope, v, k, requestId, f, known, cfg, nonce, s.now);
      case ProveReg(_, requestId, m, known, persisted) =>
        ProveIsRightful(c, p.scope, v, m.socket, requestId, m.proof, known, cfg, s.now, persisted);
      case CloseSocket(k) => CloseIsRightful(c, p.scope, v, k, s.now);
      case CleanUp(_) => CleanupIsRightful(c, p.scope, v, s.now);
      case RevokeGrant(_, r, persisted) => RevokeIsRightful(c, p.scope, v, r, s.now, persisted);
      case IssueAccess(_, a) => IssuingIsRightful(c, p.scope, v, a);
      case Claim(_, requestId, w, known, persisted) =>
        ClaimIsRightful(c, p.scope, v, requestId, w, known, s.wires.alive, cfg, s.now, persisted);
      case RebootBridge(_, credentials) => RestartIsRightful(c, p.scope, v, credentials);
    }
  }

  lemma IssuingIsRightful(c: Champions, scope: Scope, v: BridgeState, a: Access)
    requires RightfulBridge(c, scope, v)
    ensures BridgeKept(c, scope, v, v.(ledger := v.ledger.(access := v.ledger.access[a.key := a])))
  {
  }

  predicate AllVotesKept(bridges: map<BridgeId, BridgeState>, after: map<BridgeId, BridgeState>) {
    forall b | b in bridges :: b in after && VotesKept(bridges[b], after[b])
  }

  /** What was backed or elected stays so while no bridge forgets a vote. */
  lemma VotesOnlyGrow(p: Params, c: Champions, bridges: map<BridgeId, BridgeState>, after: map<BridgeId, BridgeState>)
    requires AllVotesKept(bridges, after)
    ensures forall r | Backed(p, c, bridges, r) :: Backed(p, c, after, r)
    ensures forall e: nat, h | Elected(p, bridges, e, h) :: Elected(p, after, e, h)
  {
    forall e: nat, h | Elected(p, bridges, e, h) ensures Elected(p, after, e, h) {
      var q: set<BridgeId> :| ElectedBy(p, bridges, q, e, h);
      forall b | b in q ensures b in after && VotedFor(after[b], p.scope, e, h) {
        assert VotedFor(bridges[b], p.scope, e, h) && VotesKept(bridges[b], after[b]);
      }
      assert ElectedBy(p, after, q, e, h);
    }
    forall r | Backed(p, c, bridges, r) ensures Backed(p, c, after, r) {
      assert VotesKept(bridges[r.bridge], after[r.bridge]);
    }
  }

  lemma BridgeStepTouches(p: Params, s: Sys, t: Failover.Step)
    requires IsBridgeStep(t) && BridgeOf(t) in s.bridges && BridgeOf(t) in p.configs
    ensures var b := BridgeOf(t);
      var s', v' := StepOfBridge(p, s, t), BridgeAfter(p, p.configs[b], s.bridges[b], t, s.wires.alive, s.now);
      && s'.now == s.now && s'.nodes == s.nodes && s'.bridges == s.bridges[b := v']
      && s'.history.champions == s.history.champions && s'.net.records == s.net.records
      && (s'.net.acks == s.net.acks
          || (Commits(p.configs[b], s.bridges[b], t, s.now) && s'.net.acks == s.net.acks
              + {AckMsg(t.message.socket, s.bridges[b].challenges.pending[t.message.socket].frame.record, s.now)}))
      && (s'.net.receipts == s.net.receipts
          || (t.Claim? && Votes(p, p.configs[b], s.bridges[b], t, s.wires.alive, s.now)
              && s'.net.receipts == s.net.receipts + {Claimed(p, p.configs[b], s.bridges[b], t, s.wires.alive, s.now).1.receipt}))
  {
    hide Prove, Begin, ClaimVote, BridgeAfter, BridgeEnabled, WiresAfterBridge;
    HistoryKeepsChampions(p, p.configs[BridgeOf(t)], s.bridges[BridgeOf(t)], s.net, s.history, t, s.wires.alive, s.now);
    hide HistoryAfterBridge;
  }

  lemma HistoryKeepsChampions(p: Params, c: Config, v: BridgeState, net: Net, hist: History, t: Failover.Step, alive: set<Socket>, now: int)
    requires IsBridgeStep(t)
    ensures HistoryAfterBridge(p, c, v, net, hist, t, alive, now).champions == hist.champions
  {
    hide HistoryAfterBridge;
  }

  lemma NewReceiptIsBacked(p: Params, c: Champions, s: Sys, t: Failover.Step)
    requires IsBridgeStep(t) && BridgeEnabled(p, s, t) && BridgesRightful(p, c, s.bridges) && ParamsOk(p)
    requires t.Claim? && Votes(p, p.configs[t.bridge], s.bridges[t.bridge], t, s.wires.alive, s.now)
    ensures Backed(p, c, StepOfBridge(p, s, t).bridges, Claimed(p, p.configs[t.bridge], s.bridges[t.bridge], t, s.wires.alive, s.now).1.receipt)
  {
    hide RightfulBridge, ClaimVote, KnownPrimary;
    var v := s.bridges[t.bridge];
    GrantedReceiptIsBacked(c, p.scope, v, t.requestId, t.absence, t.known, s.wires.alive, p.configs[t.bridge], s.now, t.persisted);
  }

  /** What a bridge acknowledges is the record it challenged. */
  lemma NewAckIsRightful(p: Params, c: Champions, s: Sys, t: Failover.Step)
    requires IsBridgeStep(t) && BridgeOf(t) in s.bridges && BridgeOf(t) in p.configs && BridgesRightful(p, c, s.bridges)
    requires Commits(p.configs[BridgeOf(t)], s.bridges[BridgeOf(t)], t, s.now)
    ensures RightfulRecord(c, s.bridges[BridgeOf(t)].challenges.pending[t.message.socket].frame.record)
  {
    hide Prove, RightfulRecord;
    assert RightfulBridge(c, p.scope, s.bridges[BridgeOf(t)]);
    hide Valid, RightfulMarks;
  }

  lemma SoundWithVotes(p: Params, c: Champions, s: Sys, s': Sys, e0: nat)
    requires ChampionsSound(p, c, s, e0) && s'.nodes == s.nodes && AllVotesKept(s.bridges, s'.bridges)
    ensures ChampionsSound(p, c, s', e0)
  {
    VotesOnlyGrow(p, c, s.bridges, s'.bridges);
    hide Elected, AllVotesKept;
  }

  lemma BridgeStepKeepsBridges(p: Params, c: Champions, s: Sys, t: Failover.Step)
    requires IsBridgeStep(t) && BridgeOf(t) in s.bridges && BridgeOf(t) in p.configs
    requires BridgeEnabled(p, s, t) && BridgesRightful(p, c, s.bridges) && s.now >= 1
    requires forall r | r in s.net.records :: RightfulRecord(c, r)
    ensures BridgesRightful(p, c, StepOfBridge(p, s, t).bridges)
    ensures AllVotesKept(s.bridges, StepOfBridge(p, s, t).bridges)
  {
    hide RightfulBridge, BridgeAfter, BridgeEnabled, StepOfBridge, RightfulRecord, Votes, Claimed, BridgeOf;
    BridgeStep(p, c, s, t);
    BridgeStepTouches(p, s, t);
  }

  lemma BridgeStepKeepsInv(p: Params, s: Sys, t: Failover.Step, e0: nat)
    requires EpochInv(p, s, e0)
    requires IsBridgeStep(t) && BridgeOf(t) in s.bridges && BridgeOf(t) in p.configs && BridgeEnabled(p, s, t)
    ensures EpochInv(p, StepOfBridge(p, s, t), e0)
    ensures StepOfBridge(p, s, t).history.champions == s.history.champions
  {
    hide BridgeEnabled, StepOfBridge, BridgeAfter, NodesRightful, BridgesRightful, ParamsOk, ChampionsSound, Backed, Elected, Votes;
    hide RightfulRecord, AllVotesKept, Claimed, Commits;
    var c, s' := s.history.champions, StepOfBridge(p, s, t);
    BridgeStepTouches(p, s, t);
    BridgeStepKeepsBridges(p, c, s, t);
    SoundWithVotes(p, c, s, s', e0);
    VotesOnlyGrow(p, c, s.bridges, s'.bridges);
    if s'.net.receipts != s.net.receipts {
      NewReceiptIsBacked(p, c, s, t);
    }
    if s'.net.acks != s.net.acks {
      NewAckIsRightful(p, c, s, t);
    }
    assert NetRightful(p, c, s'.bridges, s'.net);
  }

  lemma WireStepKeepsInv(p: Params, s: Sys, s': Sys, t: Failover.Step, e0: nat)
    requires EpochInv(p, s, e0)
    requires !IsHostStep(t) && !IsBridgeStep(t) && WireNext(p, s, s', t)
    ensures EpochInv(p, s', e0) && s'.history.champions == s.history.champions
  {
    hide NodesRightful, BridgesRightful, ParamsOk, Backed, Elected, RightfulRecord, HostFits;
    hide MayAttest, MayHandOut, CampaignEnabled, ElectionsAfter, Attested, BoundTo;
  }

  // ---------------------------------------------------------------- whole runs

  lemma NextKeepsInv(p: Params, s: Sys, s': Sys, t: Failover.Step, e0: nat)
    requires EpochInv(p, s, e0) && Next(p, s, s', t)
    ensures EpochInv(p, s', e0) && Grows(s.history.champions, s'.history.champions)
  {
    hide EpochInv, HostEnabled, BridgeEnabled, HostAfter, StepOfBridge, WireNext;
    if t.WinElection? {
      EnabledIsHere(p, s, t);
      WinKeepsInv(p, s, t, e0);
    } else if IsHostStep(t) {
      EnabledIsHere(p, s, t);
      HostStepKeepsInv(p, s, t, e0);
    } else if IsBridgeStep(t) {
      EnabledIsThere(p, s, t);
      BridgeStepKeepsInv(p, s, t, e0);
    } else {
      WireStepKeepsInv(p, s, s', t, e0);
    }
  }

  lemma EnabledIsHere(p: Params, s: Sys, t: Failover.Step)
    requires IsHostStep(t) && HostEnabled(p, s, t)
    ensures t.host in s.nodes
  {
  }

  lemma EnabledIsThere(p: Params, s: Sys, t: Failover.Step)
    requires IsBridgeStep(t) && BridgeEnabled(p, s, t)
    ensures BridgeOf(t) in s.bridges && BridgeOf(t) in p.configs
  {
  }

  lemma {:induction false} RunKeepsInv(p: Params, run: seq<Sys>, steps: seq<Failover.Step>, founder: HostId, e0: nat, i: nat, j: nat)
    requires IsRun(p, run, steps, founder, e0) && i <= j < |run|
    ensures EpochInv(p, run[i], e0) && EpochInv(p, run[j], e0)
    ensures Grows(run[i].history.champions, run[j].history.champions)
    decreases j
  {
    hide EpochInv, Next, Init;
    if j == 0 {
      InitInv(p, run[0], founder, e0);
    } else if i < j {
      RunKeepsInv(p, run, steps, founder, e0, i, j - 1);
      NextKeepsInv(p, run[j - 1], run[j], steps[j - 1], e0);
    } else {
      RunKeepsInv(p, run, steps, founder, e0, j - 1, j - 1);
      NextKeepsInv(p, run[j - 1], run[j], steps[j - 1], e0);
    }
  }

  /** `h` may write at epoch `e`: it is the writer role this host's process holds. */
  predicate WritesAt(s: Sys, h: HostId, e: nat) {
    h in s.nodes && s.nodes[h].service.writer && s.nodes[h].service.db.epoch == e
  }

  /**
    * At most one host ever writes in an epoch: whatever crashes, restarts, resumes, fences and lost or
    * repeated messages lie between them, two writers of one epoch are one host.
    */
  lemma OneWriterPerEpoch(p: Params, run: seq<Sys>, steps: seq<Failover.Step>, founder: HostId, e0: nat,
                          i: nat, j: nat, g: HostId, h: HostId, e: nat)
    requires IsRun(p, run, steps, founder, e0) && i < |run| && j < |run|
    requires WritesAt(run[i], g, e) && WritesAt(run[j], h, e)
    ensures g == h
  {
    hide Next, Init, HostFits, BridgesRightful, NetRightful, ChampionsSound;
    if i <= j { RunKeepsInv(p, run, steps, founder, e0, i, j); } else { RunKeepsInv(p, run, steps, founder, e0, j, i); }
    assert RightfulNode(p, run[i].history.champions, g, run[i].nodes[g]);
    assert RightfulNode(p, run[j].history.champions, h, run[j].nodes[h]);
  }

  /**
    * Whoever wins an election holds a strict majority of durable votes for exactly that epoch, in the
    * state it wins in; and any other win of the same epoch, at any time, is by the same host.
    */
  lemma OnePromotionPerEpoch(p: Params, run: seq<Sys>, steps: seq<Failover.Step>, founder: HostId, e0: nat, i: nat, j: nat)
    requires IsRun(p, run, steps, founder, e0) && |run| == |steps| + 1 && i < |steps| && j < |steps|
    requires steps[i].WinElection? && steps[j].WinElection?
    ensures Elected(p, run[i].bridges, steps[i].expectedEpoch + 1, steps[i].host)
    ensures steps[i].expectedEpoch == steps[j].expectedEpoch ==> steps[i].host == steps[j].host
  {
    hide IsRun, EpochInv, Elected;
    WinIsRecorded(p, run, steps, founder, e0, i);
    WinIsRecorded(p, run, steps, founder, e0, j);
    if i <= j { RunKeepsInv(p, run, steps, founder, e0, i + 1, j + 1); } else { RunKeepsInv(p, run, steps, founder, e0, j + 1, i + 1); }
  }

  lemma WinIsRecorded(p: Params, run: seq<Sys>, steps: seq<Failover.Step>, founder: HostId, e0: nat, i: nat)
    requires IsRun(p, run, steps, founder, e0) && i < |steps| && steps[i].WinElection?
    ensures Elected(p, run[i].bridges, steps[i].expectedEpoch + 1, steps[i].host)
    ensures Champion(run[i + 1].history.champions, steps[i].expectedEpoch + 1, steps[i].host)
  {
    hide Init, EpochInv, Elected, NodeAfter, MayPromote;
    RunKeepsInv(p, run, steps, founder, e0, i, i);
    assert Next(p, run[i], run[i + 1], steps[i]);
    WinnerIsUnique(p, run[i], steps[i], e0);
  }

  // ---------------------------------------------------------------- observation

  lemma TwoOfThreeIsStrict(p: Params, q: set<BridgeId>)
    requires ParamsOk(p) && q <= W(p) && |q| >= 2
    ensures StrictMajority(q, W(p))
  {
  }

  lemma {:induction false} DistinctBridges(receipts: seq<Receipt>, n: nat)
    requires n <= |receipts| && forall i, j | 0 <= i < j < |receipts| :: receipts[i].bridge != receipts[j].bridge
    ensures |set i | 0 <= i < n :: receipts[i].bridge| == n
    decreases n
  {
    var all := set i | 0 <= i < n :: receipts[i].bridge;
    if n > 0 {
      DistinctBridges(receipts, n - 1);
      assert all == (set i | 0 <= i < n - 1 :: receipts[i].bridge) + {receipts[n - 1].bridge};
    } else {
      assert all == {};
    }
  }

  /**
    * A host is only fenced by a certificate if its successor really was elected: with receipts that
    * bridges issued and only the community's bridges trusted, a strict majority of them voted.
    */
  lemma ObservedWasElected(p: Params, s: Sys, e0: nat, h: HostId, a: Announcement, prior: HostRecord, accepted: bool, granted: bool,
                           trusted: set<BridgeId>)
    requires EpochInv(p, s, e0) && h in s.nodes
    requires trusted <= W(p) && forall i | 0 <= i < |a.certificate| :: a.certificate[i] in s.net.receipts
    requires MayObserve(s.nodes[h].service, a, prior, accepted, granted, trusted, s.now)
    ensures Elected(p, s.bridges, s.nodes[h].service.db.epoch + 1, a.record.hostId)
    ensures Champion(s.history.champions, s.nodes[h].service.db.epoch, h)
  {
    hide NodesRightful, BridgesRightful, ChampionsSound, VotedFor, RegistrationVerifies, LastOwnPrimary;
    var x := s.nodes[h].service;
    var e := x.db.epoch + 1;
    var q := set i | 0 <= i < |a.certificate| :: a.certificate[i].bridge;
    DistinctBridges(a.certificate, |a.certificate|);
    forall i | 0 <= i < |a.certificate| ensures ReceiptCertifies(a.certificate[i], a, Self(x), HashOf(prior), x.db.epoch, trusted, s.now)
      && Backed(p, s.history.champions, s.bridges, a.certificate[i]) {
    }
    TwoOfThreeIsStrict(p, q);
    FitsSelf(p, s, h);
    assert ElectedBy(p, s.bridges, q, e, a.record.hostId);
    assert Backed(p, s.history.champions, s.bridges, a.certificate[0]);
  }

  lemma FitsSelf(p: Params, s: Sys, h: HostId)
    requires NodesRightful(p, s.history.champions, s.nodes) && h in s.nodes
    ensures Self(s.nodes[h].service) == h
  {
    assert RightfulNode(p, s.history.champions, h, s.nodes[h]);
  }

  /**
    * A bridge only lets a primary raise the epoch of a community it knows if that primary was elected:
    * with genuine receipts and a grant that names the community's bridges, a strict majority voted for it.
    */
  lemma CertifiedWasElected(p: Params, s: Sys, e0: nat, b: BridgeId, f: Frame, known: Option<Mark>)
    requires EpochInv(p, s, e0) && b in s.bridges && b in p.configs && FrameScope(f) == p.scope
    requires f.certificate.Some? ==> forall i | 0 <= i < |f.certificate.value| :: f.certificate.value[i] in s.net.receipts
    requires f.grant.witnessBridges <= W(p)
    requires RegistrationFault(s.bridges[b], f, known, p.configs[b], s.now).None? && f.record.role.Primary?
    requires !NoMarks(s.bridges[b].ledger.marks, p.scope) && RaisesEpoch(s.bridges[b].ledger.marks, p.scope, f.record.epoch)
    ensures Elected(p, s.bridges, f.record.epoch, f.record.hostId)
    ensures VotedFor(s.bridges[b], p.scope, f.record.epoch, f.record.hostId)
  {
    hide NodesRightful, BridgesRightful, ChampionsSound, Elected, ParamsOk;
    FaultlessIsCertified(s.bridges[b], f, known, p.configs[b], s.now);
    ConfigIsNamed(p, b);
    var items := f.certificate.value;
    var q := set i | 0 <= i < |items| :: items[i].bridge;
    DistinctBridges(items, |items|);
    forall i | 0 <= i < |items| ensures Backed(p, s.history.champions, s.bridges, items[i])
      && ReceiptSupports(items[i], f, known.value, p.configs[b], s.bridges[b].ledger.votes, s.now) {
    }
    TwoOfThreeIsStrict(p, q);
    assert ElectedBy(p, s.bridges, q, f.record.epoch, f.record.hostId);
    var own :| 0 <= own < |items| && items[own].bridge == p.configs[b].me;
    assert Backed(p, s.history.champions, s.bridges, items[own]);
    ElectedFrom(p, s.bridges, q, f.record.epoch, f.record.hostId);
  }

  lemma ElectedFrom(p: Params, bridges: map<BridgeId, BridgeState>, q: set<BridgeId>, e: nat, h: HostId)
    requires ElectedBy(p, bridges, q, e, h)
    ensures Elected(p, bridges, e, h)
  {
  }

  lemma ConfigIsNamed(p: Params, b: BridgeId)
    requires ParamsOk(p) && b in p.configs
    ensures p.configs[b].me == b
  {
  }

  lemma FaultlessIsCertified(v: BridgeState, f: Frame, known: Option<Mark>, cfg: Config, now: int)
    requires RegistrationFault(v, f, known, cfg, now).None? && f.record.role.Primary?
    requires !NoMarks(v.ledger.marks, FrameScope(f)) && RaisesEpoch(v.ledger.marks, FrameScope(f), f.record.epoch)
    ensures CertificateValid(f, known, v.ledger.marks, cfg, v.ledger.votes, now)
  {
    hide RegistrationVerifies, FollowsMark, RepeatsMark;
  }
}
