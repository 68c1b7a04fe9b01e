/**
  * How long a bridge can vote after the primary is gone: the record its vote names was signed before the
  * disconnect it attests, and the replica only asks while that record is valid.
  */
module RecordLives {
  import opened Community
  import opened Quorums
  import opened BridgeLedger
  import opened Bridge
  import opened HostWriter
  import opened Coordinator
  import opened WitnessCollection
  import opened Failover
  import opened FailoverElections

  // ---------------------------------------------------------------- the invariant

  /** Signed by now, and valid for at most the time a host gives its records. */
  predicate Dated(r: HostRecord, now: int) {
    r.issuedAt <= now && r.expiresAt <= r.issuedAt + RECORD_TTL_MS
  }

  predicate NodeDated(n: Node, now: int) {
    && (n.service.pending.Some? ==> Dated(n.service.pending.value.record, now))
    && (n.round.Some? ==> Dated(n.round.value.record, now))
  }

  predicate RecordsDated(s: Sys) {
    && (forall r | r in s.net.records :: Dated(r, s.now))
    && (forall h | h in s.nodes :: NodeDated(s.nodes[h], s.now))
  }

  /** The record a mark stands for was signed before any disconnect that is still on record. */
  predicate MarkDated(m: Mark, key: HostKey, disconnectedAt: map<HostKey, int>, now: int) {
    m.recordHash.HashOf? ==>
      m.recordHash.record.issuedAt <= now && (key in disconnectedAt ==> m.recordHash.record.issuedAt <= disconnectedAt[key])
  }

  predicate BridgeDated(v: BridgeState, now: int) {
    && (forall k | k in v.ledger.marks :: MarkDated(v.ledger.marks[k], k, v.sockets.disconnectedAt, now))
    && (forall k | k in v.records :: Dated(v.records[k].record, now))
    && (forall k | k in v.challenges.pending :: Dated(v.challenges.pending[k].frame.record, now))
  }

  predicate BridgesDated(s: Sys) {
    forall b | b in s.bridges :: BridgeDated(s.bridges[b], s.now)
  }

  /** The absence a witness states is a whole grace, and began after the record it names was signed. */
  predicate WitnessDated(p: Params, w: AbsenceWitness) {
    w.bridge in p.configs && (!w.primaryOnline && w.primaryHash.HashOf? ==> w.primaryHash.record.issuedAt + Grace(p.configs[w.bridge]) <= w.observedAt)
  }

  predicate CampaignDated(c: Campaign) {
    match c
    case Idle => true
    case Asking(ask, record, answers) =>
      record.expiresAt <= record.issuedAt + RECORD_TTL_MS && ask.issuedAt < record.expiresAt && NamedWhileValid(record, answers)
    case Voting(record, absent, _, _, _) => record.expiresAt <= record.issuedAt + RECORD_TTL_MS && NamedWhileValid(record, absent)
  }

  predicate NamedWhileValid(record: HostRecord, answers: map<BridgeId, AbsenceWitness>) {
    forall b | b in answers :: answers[b].primaryHash == HashOf(record) && answers[b].observedAt < record.expiresAt + ASK_FRESHNESS_MS
  }

  predicate ElectionsDated(p: Params, s: Sys) {
    && (forall h | h in s.elections.handouts :: Dated(h.record, s.now))
    && (forall m | m in s.elections.witnesses :: WitnessDated(p, m.seen))
    && (forall h | h in s.elections.campaigns :: CampaignDated(s.elections.campaigns[h]))
  }

  predicate DatesInv(p: Params, s: Sys) {
    RecordsDated(s) && BridgesDated(s) && ElectionsDated(p, s)
  }

  // ---------------------------------------------------------------- hosts

  lemma QuietDates(p: Params, n: Node, t: Step, now: int)
    requires t.DialUp? || t.HangUp? || t.PublishTo? || t.Answer? || t.GetPong? || t.Pulse?
    requires NodeDated(n, now)
    ensures NodeDated(NodeAfter(p, n, t, now), now)
  {
    hide RegistrationQuorum.Step, Dated;
  }

  lemma HostStepDates(p: Params, n: Node, t: Step, now: int)
    requires IsHostStep(t) && NodeDated(n, now)
    ensures NodeDated(NodeAfter(p, n, t, now), now)
  {
    hide ReceiveAck, ReceivePong, Hear, Win, FenceTick, LivenessTick, Restore, EnsureRound, Heartbeat;
    hide ApplySnapshot, Enroll, Dial, Drop, Publish, Dated;
    match t {
      case SignRound(_) => SignDates(n, now);
      case Renew(_) => RenewDates(n, now);
      case SyncReplica(_, snapshot) => SyncDates(n.service, snapshot);
      case EnrollReplica(_, promotable, witnesses, access) => EnrollDates(n.service, promotable, witnesses, access);
      case RebootHost(_, granted) => RestoredIsBare(n.service, granted);
      case GetAck(_, m, granted) => AckDates(n, m.socket.bridge, m.record, granted, now);
      case WinElection(_, e, votes, granted) => WinDates(n, e, votes, granted, now);
      case HearEpoch(_, a, prior, accepted, granted, trusted) => HearDates(n, a, prior, accepted, granted, trusted, now);
      case Poll(_, granted) => PollDates(n, p.fence, granted, now);
      case _ => QuietDates(p, n, t, now);
    }
  }

  lemma SignDates(n: Node, now: int)
    requires NodeDated(n, now)
    ensures NodeDated(EnsureRound(n, now), now)
  {
  }

  lemma RenewDates(n: Node, now: int)
    requires NodeDated(n, now)
    ensures NodeDated(Heartbeat(n), now)
  {
    hide Dated;
  }

  lemma SyncDates(x: Host, snapshot: Snapshot)
    ensures ApplySnapshot(x, snapshot).pending == x.pending
  {
  }

  lemma EnrollDates(x: Host, promotable: bool, witnesses: set<BridgeId>, access: set<BridgeId>)
    ensures Enroll(x, promotable, witnesses, access).pending == x.pending
  {
    hide Persist;
  }

  lemma AckDates(n: Node, bridge: BridgeId, record: HostRecord, granted: bool, now: int)
    requires NodeDated(n, now)
    ensures NodeDated(ReceiveAck(n, bridge, record, granted, now), now)
  {
    hide MayResume, Persist, RegistrationQuorum.Step, Dated;
  }

  lemma WinDates(n: Node, e: nat, votes: set<Receipt>, granted: bool, now: int)
    requires NodeDated(n, now)
    ensures NodeDated(Win(n, e, votes, granted, now), now)
  {
    hide MayPromote, Persist, Dated;
  }

  lemma HearDates(n: Node, a: Announcement, prior: HostRecord, accepted: bool, granted: bool, trusted: set<BridgeId>, now: int)
    requires NodeDated(n, now)
    ensures NodeDated(Hear(n, a, prior, accepted, granted, trusted, now), now)
  {
    hide MayObserve, Persist, Dated;
  }

  lemma PollDates(n: Node, fence: int, granted: bool, now: int)
    requires NodeDated(n, now)
    ensures NodeDated(FenceTick(n, fence, granted, now), now)
  {
    hide Persist, Dated;
  }

  lemma RestoredIsBare(x: Host, granted: bool)
    ensures Restore(x.boot, x.db, false, granted).pending.None?
  {
  }

  // ---------------------------------------------------------------- bridges

  predicate MarksDated(marks: map<HostKey, Mark>, sockets: Sockets, now: int) {
    forall k | k in marks :: MarkDated(marks[k], k, sockets.disconnectedAt, now)
  }

  lemma LaterKeepsMarks(marks: map<HostKey, Mark>, before: Sockets, after: Sockets, now: int)
    requires MarksDated(marks, before, now) && LaterDisconnects(before, after, now)
    ensures MarksDated(marks, after, now)
  {
  }

  lemma FlooredKeepsMarks(l: Ledger, r: Revocation, sockets: Sockets, now: int)
    requires MarksDated(l.marks, sockets, now)
    ensures MarksDated(WithRevocation(l, r).marks, sockets, now)
  {
  }

  lemma RebindDrops(k: Sockets, ws: Socket, b: Bridge.Binding, now: int)
    ensures b.key !in Rebind(k, ws, b, now).disconnectedAt
  {
  }

  lemma CommitDates(v: BridgeState, ws: Socket, f: Frame, now: int, persisted: bool)
    requires BridgeDated(v, now) && Dated(f.record, now)
    ensures BridgeDated(Commit(v, ws, f, now, persisted).0, now)
  {
    hide Rebind, Idempotent, MarkAdvances;
    RebindDisconnects(v.sockets, ws, FrameBinding(f, now), now);
    RebindDrops(v.sockets, ws, FrameBinding(f, now), now);
    LaterKeepsMarks(v.ledger.marks, v.sockets, Rebind(v.sockets, ws, FrameBinding(f, now), now), now);
  }

  lemma CleanupDates(v: BridgeState, now: int)
    requires BridgeDated(v, now)
    ensures BridgeDated(Cleanup(v, now), now)
  {
    hide UnbindAll, Dated, MarkDated;
    UnbindAllDisconnects(v.sockets, ExpiredSockets(v.sockets, now), now);
    LaterKeepsMarks(v.ledger.marks, v.sockets, UnbindAll(v.sockets, ExpiredSockets(v.sockets, now), now), now);
  }

  lemma BeginDates(v: BridgeState, ws: Socket, requestId: string, f: Frame, known: Option<Mark>, c: Config, challenge: string, now: int)
    requires BridgeDated(v, now) && Dated(f.record, now)
    ensures BridgeDated(Begin(v, ws, requestId, f, known, c, challenge, now).0, now)
  {
    CleanupDates(v, now);
    hide Cleanup, RegistrationFault, AccessValid, Dated, MarkDated;
  }

  lemma RevokeDates(v: BridgeState, r: Revocation, now: int, persisted: bool)
    requires BridgeDated(v, now)
    ensures BridgeDated(Revoke(v, r, now, persisted).0, now)
  {
    hide UnbindAll, Dated, MarkDated, WithRevocation, JudgeRevocation;
    var cut := UnbindAll(v.sockets, WithdrawnSockets(v.sockets, r), now);
    UnbindAllDisconnects(v.sockets, WithdrawnSockets(v.sockets, r), now);
    LaterKeepsMarks(v.ledger.marks, v.sockets, cut, now);
    FlooredKeepsMarks(v.ledger, r, cut, now);
  }

  lemma ProveDates(v: BridgeState, ws: Socket, requestId: string, proof: Proof, known: Option<Mark>, c: Config, now: int, persisted: bool)
    requires BridgeDated(v, now)
    ensures BridgeDated(Prove(v, ws, requestId, proof, known, c, now, persisted).0, now)
  {
    if ws in v.challenges.pending {
      ClearedDates(v, ws, now);
      CommitDates(Cleared(v, ws), ws, v.challenges.pending[ws].frame, now, persisted);
    }
    hide Commit, Cleared, BridgeDated, RegistrationFault, ProofValid;
  }

  lemma ClearedDates(v: BridgeState, ws: Socket, now: int)
    requires BridgeDated(v, now)
    ensures BridgeDated(Cleared(v, ws), now)
  {
    hide MarkDated, Dated;
  }

  lemma CloseDates(v: BridgeState, ws: Socket, now: int)
    requires BridgeDated(v, now)
    ensures BridgeDated(Close(v, ws, now), now)
  {
    LaterKeepsMarks(v.ledger.marks, v.sockets, Unbind(v.sockets, ws, now), now);
    hide MarkDated, Dated, Unbind;
  }

  lemma ClaimDates(v: BridgeState, requestId: string, authority: Key, w: AbsenceWitness, known: Option<Mark>,
                   open: set<Socket>, c: Config,
                   now: int, persisted: bool)
    requires BridgeDated(v, now)
    ensures BridgeDated(ClaimVote(v, requestId, authority, w, known, open, c, now, persisted).0, now)
  {
    hide MarkDated, Dated, WitnessValid, Absent, SameBallot, DurableEntryCount;
  }

  lemma BridgeStepDates(p: Params, s: Sys, t: Step)
    requires IsBridgeStep(t) && BridgeOf(t) in s.bridges && BridgeOf(t) in p.configs && BridgeEnabled(p, s, t)
    requires RecordsDated(s) && BridgeDated(s.bridges[BridgeOf(t)], s.now)
    ensures BridgeDated(BridgeAfter(p, p.configs[BridgeOf(t)], s.bridges[BridgeOf(t)], t, s.wires.alive, s.now), s.now)
  {
    hide Begin, Prove, Revoke, Cleanup, Close, ClaimVote, Dated, NodeDated, KnownPrimary, MarkDated;
    var c, v, now := p.configs[BridgeOf(t)], s.bridges[BridgeOf(t)], s.now;
    match t {
      case BeginReg(_, k, requestId, f, known, nonce) => BeginDates(v, k, requestId, f, known, c, nonce, now);
      case ProveReg(_, requestId, m, known, persisted) => ProveDates(v, m.socket, requestId, m.proof, known, c, now, persisted);
      case CloseSocket(k) => CloseDates(v, k, now);
      case CleanUp(_) => CleanupDates(v, now);
      case RevokeGrant(_, r, persisted) => RevokeDates(v, r, now, persisted);
      case Claim(_, requestId, w, known, persisted) => ClaimDates(v, requestId, p.scope.authority, w, known, s.wires.alive, c, now, persisted);
      case IssueAccess(_, _) =>
      case RebootBridge(_, _) => RestartDates(v.ledger.(access := t.credentials), v.sockets, now);
    }
  }

  lemma RestartDates(l: Ledger, sockets: Sockets, now: int)
    requires MarksDated(l.marks, sockets, now)
    ensures BridgeDated(Restart(l), now)
  {
  }

  // ---------------------------------------------------------------- elections

  lemma AttestedIsDated(p: Params, s: Sys, t: Step)
    requires ParamsOk(p) && BridgesDated(s) && t.Attest? && MayAttest(p, s, t.bridge, t.ask, t.top)
    ensures WitnessDated(p, Attested(p, s, t.bridge, t.ask, t.top))
  {
    hide Grace;
    assert BridgeDated(s.bridges[t.bridge], s.now);
  }

  /** A witness that fits was observed within the freshness of the request. */
  lemma HeardIsDated(p: Params, s: Sys, c: Campaign, m: WitnessMsg)
    requires ElectionsInv(p, s) && CampaignOk(s, c) && CampaignDated(c) && m in s.elections.witnesses
    ensures CampaignDated(HearWitness(c, m, p.scope.server, W(p), s.now))
  {
    assert WitnessOk(p, s, m);
    if c.Asking? && WitnessFits(m, c.ask, p.scope.server, c.record, s.now) {
      var a :| a in s.elections.asks && a.nonce == m.nonce && m.seen.observedAt <= a.issuedAt + ASK_FRESHNESS_MS;
      assert a == c.ask;
    }
  }

  lemma CampaignStaysDated(p: Params, s: Sys, h: HostId, event: CampaignEvent)
    requires ElectionsInv(p, s) && ElectionsDated(p, s) && CampaignEnabled(s, h, event)
    ensures CampaignDated(CampaignAfter(p, CampaignOf(s.elections, h), h, event, s.now))
  {
    var c := CampaignOf(s.elections, h);
    assert CampaignDated(c) && CampaignOk(s, c);
    match event {
      case WitnessArrives(m) => HeardIsDated(p, s, c, m);
      case AskBridges(record, _) =>
        var r :| r in s.elections.handouts && r.record == record && s.now - r.at <= RESOLVE_TIMEOUT_MS;
        assert Dated(r.record, s.now);
      case _ =>
    }
  }

  // ---------------------------------------------------------------- whole runs

  lemma HostKeepsDates(p: Params, s: Sys, t: Step)
    requires DatesInv(p, s) && IsHostStep(t) && t.host in s.nodes
    ensures DatesInv(p, HostAfter(p, s, t))
  {
    hide NodeAfter, BridgeDated, NodeDated, Dated, CampaignDated, WitnessDated, HistoryAfterHost, NetAfterHost;
    var n, n' := s.nodes[t.host], NodeAfter(p, s.nodes[t.host], t, s.now);
    HostStepDates(p, n, t, s.now);
    SignedIsDated(s.net, t, n', s.now);
  }

  lemma SignedIsDated(net: Net, t: Step, n': Node, now: int)
    requires NodeDated(n', now) && forall r | r in net.records :: Dated(r, now)
    ensures forall r | r in NetAfterHost(net, t, n').records :: Dated(r, now)
  {
    hide Dated;
  }

  lemma BridgeKeepsDates(p: Params, s: Sys, t: Step)
    requires DatesInv(p, s) && IsBridgeStep(t) && BridgeOf(t) in s.bridges && BridgeOf(t) in p.configs && BridgeEnabled(p, s, t)
    ensures DatesInv(p, StepOfBridge(p, s, t))
  {
    hide BridgeAfter, BridgeDated, Dated, NodeDated, CampaignDated, WitnessDated, HistoryAfterBridge, NetAfterBridge, BridgeEnabled;
    assert BridgeDated(s.bridges[BridgeOf(t)], s.now);
    BridgeStepDates(p, s, t);
    NetKeepsRecords(p, p.configs[BridgeOf(t)], s.bridges[BridgeOf(t)], s.net, t, s.wires.alive, s.now);
  }

  lemma NetKeepsRecords(p: Params, c: Config, v: BridgeState, net: Net, t: Step, alive: set<Socket>, now: int)
    ensures NetAfterBridge(p, c, v, net, t, alive, now).records == net.records
  {
    hide Begin, Commits, Votes;
  }

  lemma CollectKeepsDates(p: Params, s: Sys, s': Sys, t: Step)
    requires DatesInv(p, s) && ElectionsInv(p, s) && ParamsOk(p) && (t.HandOut? || t.Attest? || t.Collect?) && WireNext(p, s, s', t)
    ensures DatesInv(p, s')
  {
    hide NodeDated, CampaignDated, WitnessDated, ElectionsInv, CampaignEnabled, CampaignAfter;
    if t.Attest? {
      AttestedIsDated(p, s, t);
    } else if t.Collect? {
      CampaignStaysDated(p, s, t.host, t.event);
    } else {
      assert BridgeDated(s.bridges[t.bridge], s.now);
    }
  }

  lemma TimeKeepsDates(p: Params, s: Sys, s': Sys)
    requires DatesInv(p, s) && s.now <= s'.now && s'.nodes == s.nodes && s'.bridges == s.bridges && s'.net.records == s.net.records
    requires s'.elections == s.elections
    ensures DatesInv(p, s')
  {
    forall h | h in s'.nodes ensures NodeDated(s'.nodes[h], s'.now) { assert NodeDated(s.nodes[h], s.now); }
    forall b | b in s'.bridges ensures BridgeDated(s'.bridges[b], s'.now) { assert BridgeDated(s.bridges[b], s.now); }
  }

  lemma NextKeepsDates(p: Params, s: Sys, s': Sys, t: Step)
    requires DatesInv(p, s) && ElectionsInv(p, s) && ParamsOk(p) && Next(p, s, s', t)
    ensures DatesInv(p, s')
  {
    hide DatesInv, ElectionsInv, ParamsOk, HostAfter, StepOfBridge, CampaignEnabled, MayAttest, MayHandOut;
    if IsHostStep(t) {
      HostKeepsDates(p, s, t);
    } else if IsBridgeStep(t) {
      BridgeKeepsDates(p, s, t);
    } else if t.HandOut? || t.Attest? || t.Collect? {
      CollectKeepsDates(p, s, s', t);
    } else {
      TimeKeepsDates(p, s, s');
    }
  }

  lemma InitDated(p: Params, s: Sys, founder: HostId, e0: nat)
    requires Init(p, s, founder, e0)
    ensures DatesInv(p, s)
  {
    hide HostFits;
  }

  lemma {:induction false} RunKeepsDates(p: Params, run: seq<Sys>, steps: seq<Step>, founder: HostId, e0: nat, i: nat)
    requires IsRun(p, run, steps, founder, e0) && i < |run|
    ensures DatesInv(p, run[i])
  {
    hide Next, DatesInv, ElectionsInv;
    if i == 0 {
      hide Init;
      InitDated(p, run[0], founder, e0);
    } else {
      RunKeepsDates(p, run, steps, founder, e0, i - 1);
      RunKeepsElections(p, run, steps, founder, e0, i - 1);
      NextKeepsDates(p, run[i - 1], run[i], steps[i - 1]);
    }
  }

  // ---------------------------------------------------------------- who can vote

  /** The longest absence a bridge can attest while the primary's record is still handed out. */
  const LONGEST_ABSENCE_MS := RECORD_TTL_MS + ASK_FRESHNESS_MS

  lemma VoterIsBrief(p: Params, s: Sys, h: HostId, votes: set<Receipt>, r: Receipt)
    requires DatesInv(p, s) && ElectionsInv(p, s) && Concludes(CampaignOf(s.elections, h), votes) && r in votes
    ensures r.bridge in p.configs && Grace(p.configs[r.bridge]) < LONGEST_ABSENCE_MS
  {
    hide Grace, RecordsDated, BridgesDated, AsksOk, WitnessesOk, ClaimsOk, ReceiptsBacked, VoteOk, AfterAll;
    var c := CampaignOf(s.elections, h);
    assert CampaignOk(s, c) && CampaignDated(c);
    var i :| i in c.votes && c.votes[i] == r;
    assert VoteOk(s, c.absent, i, r);
    var m := ClaimOfVote(p, s, c.absent, i, r);
    assert Issued(s.elections, c.absent[m.bridge]);
    var w :| w in s.elections.witnesses && w.seen == m.seen;
    assert WitnessDated(p, w.seen);
  }

  /** A bridge whose grace outlasts a record by more than the time a request stays fresh never has a say in a promotion. */
  lemma VotersAreBrief(p: Params, run: seq<Sys>, steps: seq<Step>, founder: HostId, e0: nat, i: nat, r: Receipt)
    requires IsRun(p, run, steps, founder, e0) && i < |steps| && steps[i].WinElection? && r in steps[i].votes
    ensures r.bridge in p.configs && Grace(p.configs[r.bridge]) < LONGEST_ABSENCE_MS
  {
    hide DatesInv, ElectionsInv, MayPromote;
    RunKeepsElections(p, run, steps, founder, e0, i);
    RunKeepsDates(p, run, steps, founder, e0, i);
    assert Next(p, run[i], run[i + 1], steps[i]);
    VoterIsBrief(p, run[i], steps[i].host, steps[i].votes, r);
  }
}
