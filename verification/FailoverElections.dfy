/**
  * What the collection of votes keeps, in every run: a vote is claimed with the bridge's own statement that the
  * primary is gone, and by the first claim of an attempt every bridge it claims from had made that statement.
  */
module FailoverElections {
  import opened Community
  import opened Quorums
  import opened BridgeLedger
  import opened Bridge
  import opened HostWriter
  import opened Coordinator
  import opened WitnessCollection
  import opened Failover

  // ---------------------------------------------------------------- the invariant

  predicate AsksOk(e: Elections, now: int) {
    && (forall a | a in e.asks :: a.issuedAt <= now)
    && (forall a, c | a in e.asks && c in e.asks && a.nonce == c.nonce :: a == c)
  }

  /** The absence the witness states began a whole grace before; any disconnect recorded since is later than it. */
  predicate AttestsAbsence(p: Params, w: AbsenceWitness, disconnectedAt: map<HostKey, int>)
    requires w.bridge in p.configs
  {
    var key := KeyOf(p, w.primary);
    key in disconnectedAt ==>
      disconnectedAt[key] + Grace(p.configs[w.bridge]) <= w.observedAt || w.observedAt <= disconnectedAt[key]
  }

  predicate WitnessOk(p: Params, s: Sys, m: WitnessMsg) {
    && m.seen.bridge in p.configs && m.seen.bridge in s.bridges
    && m.seen.observedAt <= s.now && m.seen.expiresAt == m.seen.observedAt + WITNESS_TTL_MS
    && (exists a | a in s.elections.asks :: a.nonce == m.nonce && m.seen.observedAt <= a.issuedAt + ASK_FRESHNESS_MS)
    && (!m.seen.primaryOnline ==> AttestsAbsence(p, m.seen, s.bridges[m.seen.bridge].sockets.disconnectedAt))
  }

  predicate WitnessesOk(p: Params, s: Sys) {
    forall m | m in s.elections.witnesses :: WitnessOk(p, s, m)
  }

  predicate Issued(e: Elections, w: AbsenceWitness) {
    exists m | m in e.witnesses :: m.seen == w
  }

  predicate ClaimsOk(e: Elections) {
    && (forall m | m in e.claims :: m.bridge == m.seen.bridge && Issued(e, m.seen))
    && (forall m, n | m in e.claims && n in e.claims && m.requestId == n.requestId :: m == n)
  }

  /** A vote was claimed with a witness of its bridge, whose whole grace had run by then. */
  predicate Backs(p: Params, s: Sys, m: ClaimMsg, r: Receipt) {
    && m.requestId == r.requestId && m.bridge == r.bridge && r.bridge in p.configs && r in s.history.absences
    && (WITNESS_TTL_MS <= Grace(p.configs[r.bridge]) ==> s.history.absences[r] + Grace(p.configs[r.bridge]) <= m.seen.observedAt)
  }

  predicate ReceiptBacked(p: Params, s: Sys, r: Receipt) {
    r.issuedAt <= s.now && exists m | m in s.elections.claims :: Backs(p, s, m, r)
  }

  predicate ReceiptsBacked(p: Params, s: Sys) {
    forall r | r in s.net.receipts :: ReceiptBacked(p, s, r)
  }

  /** Every vote the request got or will get is later than all witnesses of the attempt. */
  predicate AfterAll(absent: map<BridgeId, AbsenceWitness>, requestId: string, receipts: set<Receipt>) {
    forall r, b | r in receipts && r.requestId == requestId && b in absent :: absent[b].observedAt <= r.issuedAt
  }

  predicate ClaimOk(s: Sys, absent: map<BridgeId, AbsenceWitness>, m: ClaimMsg) {
    m in s.elections.claims && m.bridge in absent && absent[m.bridge] == m.seen && AfterAll(absent, m.requestId, s.net.receipts)
  }

  predicate VoteOk(s: Sys, absent: map<BridgeId, AbsenceWitness>, b: BridgeId, r: Receipt) {
    && r in s.net.receipts && r.bridge == b
    && exists m | m in s.elections.claims :: m.requestId == r.requestId && ClaimOk(s, absent, m)
  }

  predicate AnswersOk(s: Sys, answers: map<BridgeId, AbsenceWitness>) {
    forall b | b in answers :: answers[b].bridge == b && answers[b].observedAt <= s.now && Issued(s.elections, answers[b])
  }

  predicate CampaignOk(s: Sys, c: Campaign) {
    match c
    case Idle => true
    case Asking(ask, _, answers) => ask in s.elections.asks && AnswersOk(s, answers)
    case Voting(_, absent, _, claim, votes) =>
      && AnswersOk(s, absent) && (forall b | b in absent :: !absent[b].primaryOnline)
      && (claim.Some? ==> ClaimOk(s, absent, claim.value))
      && forall b | b in votes :: VoteOk(s, absent, b, votes[b])
  }

  predicate CampaignsOk(s: Sys) {
    forall h | h in s.elections.campaigns :: CampaignOk(s, s.elections.campaigns[h])
  }

  predicate ElectionsInv(p: Params, s: Sys) {
    AsksOk(s.elections, s.now) && WitnessesOk(p, s) && ClaimsOk(s.elections) && ReceiptsBacked(p, s) && CampaignsOk(s)
  }

  // ---------------------------------------------------------------- what an election rests on

  /** By the first of these votes every voter's whole grace had run. */
  predicate OneCollection(p: Params, s: Sys, votes: set<Receipt>) {
    forall r, q | r in votes && q in votes ::
      r.bridge in p.configs && r in s.history.absences
      && (WITNESS_TTL_MS <= Grace(p.configs[r.bridge]) ==> s.history.absences[r] + Grace(p.configs[r.bridge]) <= q.issuedAt)
  }

  /** The claim a vote answers was made with the witness that backs the vote. */
  lemma ClaimOfVote(p: Params, s: Sys, absent: map<BridgeId, AbsenceWitness>, b: BridgeId, r: Receipt) returns (m: ClaimMsg)
    requires ReceiptsBacked(p, s) && ClaimsOk(s.elections) && VoteOk(s, absent, b, r)
    ensures Backs(p, s, m, r) && ClaimOk(s, absent, m) && m.requestId == r.requestId
  {
    hide AfterAll, Issued;
    m :| m in s.elections.claims && m.requestId == r.requestId && ClaimOk(s, absent, m);
    assert ReceiptBacked(p, s, r);
    var k :| k in s.elections.claims && Backs(p, s, k, r);
    assert k == m;
  }

  /** The candidate asks for votes only after every voter has attested the absence. */
  lemma VotesAreOneCollection(p: Params, s: Sys, h: HostId, votes: set<Receipt>)
    requires ElectionsInv(p, s) && Concludes(CampaignOf(s.elections, h), votes)
    ensures OneCollection(p, s, votes)
  {
    var c := CampaignOf(s.elections, h);
    assert CampaignOk(s, c);
    hide AsksOk, WitnessesOk, ClaimsOk, ReceiptsBacked, CampaignsOk, Issued, Grace;
    forall r, q | r in votes && q in votes
      ensures r.bridge in p.configs && r in s.history.absences
      ensures WITNESS_TTL_MS <= Grace(p.configs[r.bridge]) ==> s.history.absences[r] + Grace(p.configs[r.bridge]) <= q.issuedAt
    {
      var i :| i in c.votes && c.votes[i] == r;
      var j :| j in c.votes && c.votes[j] == q;
      assert VoteOk(s, c.absent, i, r) && VoteOk(s, c.absent, j, q);
      var m := ClaimOfVote(p, s, c.absent, i, r);
      var n := ClaimOfVote(p, s, c.absent, j, q);
    }
  }

  // ---------------------------------------------------------------- disconnects

  /** Disconnects are recorded as they happen. */
  predicate LaterDisconnects(before: Sockets, after: Sockets, now: int) {
    forall k | k in after.disconnectedAt ::
      (k in before.disconnectedAt && before.disconnectedAt[k] == after.disconnectedAt[k]) || after.disconnectedAt[k] == now
  }

  lemma RebindDisconnects(k: Sockets, ws: Socket, b: Bridge.Binding, now: int)
    ensures LaterDisconnects(k, Rebind(k, ws, b, now), now)
  {
  }

  lemma UnbindAllDisconnects(k: Sockets, gone: set<Socket>, now: int)
    ensures LaterDisconnects(k, UnbindAll(k, gone, now), now)
  {
  }

  lemma BridgeDisconnects(p: Params, c: Config, v: BridgeState, t: Step, alive: set<Socket>, now: int)
    requires IsBridgeStep(t)
    ensures LaterDisconnects(v.sockets, BridgeAfter(p, c, v, t, alive, now).sockets, now)
  {
    hide UnbindAll, Prove, Revoke, RegistrationFault, AccessValid, DropOverdue, WitnessValid, Absent;
    UnbindAllDisconnects(v.sockets, ExpiredSockets(v.sockets, now), now);
    match t {
      case RevokeGrant(_, r, persisted) => RevokeDisconnects(v, r, now, persisted);
      case ProveReg(_, requestId, m, known, persisted) => ProveDisconnects(v, m.socket, requestId, m.proof, known, c, now, persisted);
      case _ =>
    }
  }

  lemma RevokeDisconnects(v: BridgeState, r: Revocation, now: int, persisted: bool)
    ensures LaterDisconnects(v.sockets, Revoke(v, r, now, persisted).0.sockets, now)
  {
    hide UnbindAll, JudgeRevocation, WithRevocation;
    UnbindAllDisconnects(v.sockets, WithdrawnSockets(v.sockets, r), now);
  }

  lemma ProveDisconnects(v: BridgeState, ws: Socket, requestId: string, proof: Proof, known: Option<Mark>, c: Config,
                         now: int, persisted: bool)
    ensures LaterDisconnects(v.sockets, Prove(v, ws, requestId, proof, known, c, now, persisted).0.sockets, now)
  {
    hide Rebind, RegistrationFault, ProofValid, Idempotent, MarkAdvances;
    if ws in v.challenges.pending { RebindDisconnects(v.sockets, ws, FrameBinding(v.challenges.pending[ws].frame, now), now); }
  }

  // ---------------------------------------------------------------- steps that ask and answer nothing

  /** What most steps do to what the invariant reads. */
  predicate Drifts(s: Sys, s': Sys) {
    && s.now <= s'.now && s'.elections == s.elections.(campaigns := s'.elections.campaigns, handouts := s'.elections.handouts)
    && (forall h | h in s'.elections.campaigns :: h in s.elections.campaigns && s'.elections.campaigns[h] == s.elections.campaigns[h])
    && s'.net.receipts == s.net.receipts && s'.history.absences == s.history.absences && s'.bridges.Keys == s.bridges.Keys
    && forall b | b in s.bridges :: LaterDisconnects(s.bridges[b].sockets, s'.bridges[b].sockets, s.now)
  }

  lemma DriftKeepsWitness(p: Params, s: Sys, s': Sys, m: WitnessMsg)
    requires WitnessOk(p, s, m) && Drifts(s, s')
    ensures WitnessOk(p, s', m)
  {
    assert LaterDisconnects(s.bridges[m.seen.bridge].sockets, s'.bridges[m.seen.bridge].sockets, s.now);
    var a :| a in s.elections.asks && a.nonce == m.nonce && m.seen.observedAt <= a.issuedAt + ASK_FRESHNESS_MS;
    assert a in s'.elections.asks;
  }

  lemma DriftKeepsReceipt(p: Params, s: Sys, s': Sys, r: Receipt)
    requires ReceiptBacked(p, s, r) && Drifts(s, s')
    ensures ReceiptBacked(p, s', r)
  {
    var m :| m in s.elections.claims && Backs(p, s, m, r);
    assert m in s'.elections.claims && Backs(p, s', m, r);
  }

  lemma DriftKeepsCampaign(s: Sys, s': Sys, c: Campaign)
    requires CampaignOk(s, c) && s.now <= s'.now && s'.net.receipts == s.net.receipts
    requires s.elections.asks <= s'.elections.asks && s.elections.witnesses <= s'.elections.witnesses
    requires s.elections.claims <= s'.elections.claims
    ensures CampaignOk(s', c)
  {
    forall w | Issued(s.elections, w) ensures Issued(s'.elections, w) {
      var m :| m in s.elections.witnesses && m.seen == w;
      assert m in s'.elections.witnesses;
    }
    if c.Voting? {
      forall b | b in c.votes ensures VoteOk(s', c.absent, b, c.votes[b]) {
        assert VoteOk(s, c.absent, b, c.votes[b]);
        var m :| m in s.elections.claims && m.requestId == c.votes[b].requestId && ClaimOk(s, c.absent, m);
        assert m in s'.elections.claims && ClaimOk(s', c.absent, m);
      }
    }
  }

  lemma DriftKeeps(p: Params, s: Sys, s': Sys)
    requires ElectionsInv(p, s) && Drifts(s, s')
    ensures ElectionsInv(p, s')
  {
    hide WitnessOk, ReceiptBacked, CampaignOk;
    forall m | m in s'.elections.witnesses ensures WitnessOk(p, s', m) { DriftKeepsWitness(p, s, s', m); }
    forall r | r in s'.net.receipts ensures ReceiptBacked(p, s', r) { DriftKeepsReceipt(p, s, s', r); }
    forall h | h in s'.elections.campaigns ensures CampaignOk(s', s'.elections.campaigns[h]) {
      DriftKeepsCampaign(s, s', s.elections.campaigns[h]);
    }
  }

  lemma SameDisconnects(s: Sys)
    ensures forall b | b in s.bridges :: LaterDisconnects(s.bridges[b].sockets, s.bridges[b].sockets, s.now)
  {
  }

  /** Elections may lose attempts. */
  predicate Forgets(e: Elections, e': Elections) {
    && e' == e.(campaigns := e'.campaigns)
    && forall h | h in e'.campaigns :: h in e.campaigns && e'.campaigns[h] == e.campaigns[h]
  }

  lemma HostForgets(e: Elections, t: Step)
    ensures Forgets(e, ElectionsAfterHost(e, t))
  {
  }

  lemma HostHistory(hist: History, n: Node, n': Node, t: Step, now: int)
    ensures HistoryAfterHost(hist, n, n', t, now).absences == hist.absences
  {
    hide LiveQuorum, AckCounts, PongCounts;
  }

  lemma HostNet(net: Net, t: Step, n': Node)
    ensures NetAfterHost(net, t, n').receipts == net.receipts
  {
  }

  lemma HostStepDrifts(p: Params, s: Sys, t: Step)
    requires IsHostStep(t) && t.host in s.nodes
    ensures Drifts(s, HostAfter(p, s, t))
  {
    hide NodeAfter, LaterDisconnects, HistoryAfterHost, NetAfterHost, ElectionsAfterHost;
    SameDisconnects(s);
    HostForgets(s.elections, t);
    HostHistory(s.history, s.nodes[t.host], NodeAfter(p, s.nodes[t.host], t, s.now), t, s.now);
    HostNet(s.net, t, NodeAfter(p, s.nodes[t.host], t, s.now));
  }

  // ---------------------------------------------------------------- a bridge votes

  ghost predicate GivesVote(p: Params, s: Sys, t: Step)
    requires IsBridgeStep(t) && BridgeOf(t) in s.bridges && BridgeOf(t) in p.configs
  {
    Votes(p, p.configs[BridgeOf(t)], s.bridges[BridgeOf(t)], t, s.wires.alive, s.now)
  }

  lemma QuietBridge(p: Params, s: Sys, t: Step)
    requires IsBridgeStep(t) && BridgeOf(t) in s.bridges && BridgeOf(t) in p.configs
    ensures var b := BridgeOf(t); var c, v := p.configs[b], s.bridges[b];
      !GivesVote(p, s, t) ==>
        && NetAfterBridge(p, c, v, s.net, t, s.wires.alive, s.now).receipts == s.net.receipts
        && HistoryAfterBridge(p, c, v, s.net, s.history, t, s.wires.alive, s.now).absences == s.history.absences
  {
    hide Commits, Votes, CutBy, Claimed, Begin;
  }

  lemma BridgeStepMoves(p: Params, s: Sys, t: Step)
    requires IsBridgeStep(t) && BridgeOf(t) in s.bridges && BridgeOf(t) in p.configs
    ensures var s' := StepOfBridge(p, s, t);
      && s'.now == s.now && s'.elections == s.elections && s'.bridges.Keys == s.bridges.Keys
      && (forall b | b in s.bridges :: LaterDisconnects(s.bridges[b].sockets, s'.bridges[b].sockets, s.now))
      && (!GivesVote(p, s, t) ==> s'.net.receipts == s.net.receipts && s'.history.absences == s.history.absences)
  {
    hide BridgeAfter, LaterDisconnects, NetAfterBridge, HistoryAfterBridge;
    QuietBridge(p, s, t);
    var b := BridgeOf(t);
    BridgeDisconnects(p, p.configs[b], s.bridges[b], t, s.wires.alive, s.now);
    SameDisconnects(s);
  }

  lemma SameElectionsDrift(s: Sys, s': Sys)
    requires s'.now == s.now && s'.elections == s.elections && s'.bridges.Keys == s.bridges.Keys
    requires forall b | b in s.bridges :: LaterDisconnects(s.bridges[b].sockets, s'.bridges[b].sockets, s.now)
    requires s'.net.receipts == s.net.receipts && s'.history.absences == s.history.absences
    ensures Drifts(s, s')
  {
    hide LaterDisconnects;
  }

  lemma BridgeStepDrifts(p: Params, s: Sys, t: Step)
    requires IsBridgeStep(t) && BridgeOf(t) in s.bridges && BridgeOf(t) in p.configs && !GivesVote(p, s, t)
    ensures Drifts(s, StepOfBridge(p, s, t))
  {
    hide StepOfBridge, LaterDisconnects, GivesVote, Drifts;
    BridgeStepMoves(p, s, t);
    SameElectionsDrift(s, StepOfBridge(p, s, t));
  }

  /** What a vote adds. */
  predicate VoteAdded(p: Params, s: Sys, s': Sys, m: ClaimMsg, r: Receipt) {
    && m in s.elections.claims && r.requestId == m.requestId && r.bridge == m.bridge && r.issuedAt == s.now
    && m.bridge in p.configs && m.bridge in s.bridges && s.now < m.seen.expiresAt && !m.seen.primaryOnline
    && s'.net.receipts == s.net.receipts + {r}
    && var k, d := KeyOf(p, m.seen.primary), s.bridges[m.bridge].sockets.disconnectedAt;
    && k in d && d[k] + Grace(p.configs[m.bridge]) <= s.now
    && s'.history.absences == if r in s.net.receipts then s.history.absences else s.history.absences[r := d[k]]
  }

  lemma VoteIsAdded(p: Params, s: Sys, t: Step) returns (m: ClaimMsg, r: Receipt)
    requires ParamsOk(p) && IsBridgeStep(t) && BridgeOf(t) in s.bridges && BridgeOf(t) in p.configs
    requires BridgeEnabled(p, s, t) && GivesVote(p, s, t)
    ensures VoteAdded(p, s, StepOfBridge(p, s, t), m, r)
    ensures r.issuedAt == s.now && StepOfBridge(p, s, t).net.receipts == s.net.receipts + {r}
  {
    hide KnownPrimary, DurableEntryCount, Grace;
    m := ClaimMsg(t.bridge, t.requestId, t.absence);
    r := Claimed(p, p.configs[t.bridge], s.bridges[t.bridge], t, s.wires.alive, s.now).1.receipt;
  }

  lemma NewReceiptIsBacked(p: Params, s: Sys, s': Sys, m: ClaimMsg, r: Receipt)
    requires ElectionsInv(p, s) && VoteAdded(p, s, s', m, r) && s'.elections == s.elections && s'.now == s.now && r !in s.net.receipts
    ensures ReceiptBacked(p, s', r)
  {
    assert Issued(s.elections, m.seen);
    var w :| w in s.elections.witnesses && w.seen == m.seen;
    assert WitnessOk(p, s, w);
    assert Backs(p, s', m, r);
  }

  lemma OldReceiptIsBacked(p: Params, s: Sys, s': Sys, m: ClaimMsg, r: Receipt, q: Receipt)
    requires ReceiptBacked(p, s, q) && VoteAdded(p, s, s', m, r) && s'.elections == s.elections && s'.now == s.now && q in s.net.receipts
    ensures ReceiptBacked(p, s', q)
  {
    var n :| n in s.elections.claims && Backs(p, s, n, q);
    assert Backs(p, s', n, q);
  }

  lemma VoteKeepsClaim(s: Sys, s': Sys, absent: map<BridgeId, AbsenceWitness>, m: ClaimMsg, r: Receipt)
    requires ClaimOk(s, absent, m) && AnswersOk(s, absent) && s'.elections == s.elections && s'.net.receipts == s.net.receipts + {r}
    requires r.issuedAt == s.now
    ensures ClaimOk(s', absent, m)
  {
  }

  lemma VoteKeepsCampaign(s: Sys, s': Sys, c: Campaign, r: Receipt)
    requires CampaignOk(s, c) && s'.elections == s.elections && s'.now == s.now
    requires s'.net.receipts == s.net.receipts + {r} && r.issuedAt == s.now
    ensures CampaignOk(s', c)
  {
    hide ClaimOk, Issued;
    if c.Voting? {
      if c.claim.Some? { VoteKeepsClaim(s, s', c.absent, c.claim.value, r); }
      forall b | b in c.votes ensures VoteOk(s', c.absent, b, c.votes[b]) {
        assert VoteOk(s, c.absent, b, c.votes[b]);
        var m :| m in s.elections.claims && m.requestId == c.votes[b].requestId && ClaimOk(s, c.absent, m);
        VoteKeepsClaim(s, s', c.absent, m, r);
      }
    }
  }

  lemma SocketsKeepWitness(p: Params, s: Sys, s': Sys, m: WitnessMsg)
    requires WitnessOk(p, s, m) && s'.elections == s.elections && s'.now == s.now && s'.bridges.Keys == s.bridges.Keys
    requires forall b | b in s.bridges :: LaterDisconnects(s.bridges[b].sockets, s'.bridges[b].sockets, s.now)
    ensures WitnessOk(p, s', m)
  {
    assert LaterDisconnects(s.bridges[m.seen.bridge].sockets, s'.bridges[m.seen.bridge].sockets, s.now);
  }

  lemma VoteKeepsReceipts(p: Params, s: Sys, s': Sys, m: ClaimMsg, r: Receipt)
    requires ElectionsInv(p, s) && VoteAdded(p, s, s', m, r) && s'.elections == s.elections && s'.now == s.now
    requires s'.net.receipts == s.net.receipts + {r}
    ensures ReceiptsBacked(p, s')
  {
    hide ReceiptBacked, WitnessOk, CampaignOk, VoteAdded;
    forall q | q in s'.net.receipts ensures ReceiptBacked(p, s', q) {
      if q in s.net.receipts { OldReceiptIsBacked(p, s, s', m, r, q); } else { NewReceiptIsBacked(p, s, s', m, r); }
    }
  }

  lemma VoteKeepsRest(p: Params, s: Sys, s': Sys, r: Receipt)
    requires WitnessesOk(p, s) && CampaignsOk(s) && s'.elections == s.elections && s'.now == s.now && s'.bridges.Keys == s.bridges.Keys
    requires forall b | b in s.bridges :: LaterDisconnects(s.bridges[b].sockets, s'.bridges[b].sockets, s.now)
    requires s'.net.receipts == s.net.receipts + {r} && r.issuedAt == s.now
    ensures WitnessesOk(p, s') && CampaignsOk(s')
  {
    hide WitnessOk, CampaignOk, LaterDisconnects;
    forall w | w in s'.elections.witnesses ensures WitnessOk(p, s', w) { SocketsKeepWitness(p, s, s', w); }
    forall h | h in s'.elections.campaigns ensures CampaignOk(s', s'.elections.campaigns[h]) {
      VoteKeepsCampaign(s, s', s.elections.campaigns[h], r);
    }
  }

  lemma VoteKeeps(p: Params, s: Sys, t: Step)
    requires ElectionsInv(p, s) && ParamsOk(p)
    requires IsBridgeStep(t) && BridgeOf(t) in s.bridges && BridgeOf(t) in p.configs && BridgeEnabled(p, s, t) && GivesVote(p, s, t)
    ensures ElectionsInv(p, StepOfBridge(p, s, t))
  {
    hide StepOfBridge, BridgeEnabled, GivesVote, WitnessesOk, ReceiptsBacked, CampaignsOk, LaterDisconnects;
    hide ParamsOk, VoteAdded, ClaimsOk, AsksOk;
    BridgeStepMoves(p, s, t);
    var m, r := VoteIsAdded(p, s, t);
    VoteKeepsReceipts(p, s, StepOfBridge(p, s, t), m, r);
    VoteKeepsRest(p, s, StepOfBridge(p, s, t), r);
  }

  // ---------------------------------------------------------------- a bridge attests

  lemma AttestKeeps(p: Params, s: Sys, s': Sys, t: Step)
    requires ElectionsInv(p, s) && ParamsOk(p) && t.Attest? && WireNext(p, s, s', t)
    ensures ElectionsInv(p, s')
  {
    hide ReceiptBacked, CampaignOk, KnownPrimary, Grace;
    var w := WitnessMsg(t.ask.nonce, Attested(p, s, t.bridge, t.ask, t.top));
    forall m | m in s'.elections.witnesses ensures WitnessOk(p, s', m) {
      if m in s.elections.witnesses { assert WitnessOk(p, s, m); }
    }
    forall r | r in s'.net.receipts ensures ReceiptBacked(p, s', r) { MoreMessages(p, s, s', r); }
    forall h | h in s'.elections.campaigns ensures CampaignOk(s', s'.elections.campaigns[h]) {
      DriftKeepsCampaign(s, s', s.elections.campaigns[h]);
    }
    forall m | m in s'.elections.claims ensures Issued(s'.elections, m.seen) {
      assert Issued(s.elections, m.seen);
      var n :| n in s.elections.witnesses && n.seen == m.seen;
      assert n in s'.elections.witnesses;
    }
  }

  lemma MoreMessages(p: Params, s: Sys, s': Sys, r: Receipt)
    requires ReceiptBacked(p, s, r) && s'.history == s.history && s'.now == s.now && s.elections.claims <= s'.elections.claims
    ensures ReceiptBacked(p, s', r)
  {
    var m :| m in s.elections.claims && Backs(p, s, m, r);
    assert m in s'.elections.claims && Backs(p, s', m, r);
  }

  // ---------------------------------------------------------------- a replica's attempt moves on

  /** What an attempt adds to the messages. */
  predicate Campaigns(p: Params, s: Sys, s': Sys, h: HostId, event: CampaignEvent) {
    CampaignEnabled(s, h, event) && s' == s.(elections := ElectionsAfter(p, s.elections, h, event, s.now))
  }

  lemma NewAskIsOk(p: Params, s: Sys, s': Sys, h: HostId, event: CampaignEvent)
    requires AsksOk(s.elections, s.now) && Campaigns(p, s, s', h, event)
    ensures AsksOk(s'.elections, s'.now)
    ensures s.elections.asks <= s'.elections.asks && s.elections.claims <= s'.elections.claims && s'.elections.witnesses == s.elections.witnesses
  {
    hide HearWitness, HearReply, SendClaim, CloseAsking;
  }

  lemma NewClaimIsOk(p: Params, s: Sys, s': Sys, h: HostId, event: CampaignEvent)
    requires ClaimsOk(s.elections) && Campaigns(p, s, s', h, event) && CampaignOk(s, CampaignOf(s.elections, h))
    ensures ClaimsOk(s'.elections)
  {
    var c := CampaignOf(s.elections, h);
    forall m | m in s'.elections.claims ensures m.bridge == m.seen.bridge && Issued(s'.elections, m.seen) {
      if m in s.elections.claims {
        assert Issued(s.elections, m.seen);
      } else {
        assert c.Voting? && m.bridge in c.absent && c.absent[m.bridge] == m.seen;
        assert Issued(s.elections, m.seen);
      }
      var n :| n in s.elections.witnesses && n.seen == m.seen;
      assert n in s'.elections.witnesses;
    }
  }

  lemma FreshClaim(p: Params, s: Sys, absent: map<BridgeId, AbsenceWitness>, requestId: string)
    requires ReceiptsBacked(p, s) && forall m | m in s.elections.claims :: m.requestId != requestId
    ensures AfterAll(absent, requestId, s.net.receipts)
  {
    forall r | r in s.net.receipts ensures r.requestId != requestId {
      assert ReceiptBacked(p, s, r);
      var m :| m in s.elections.claims && Backs(p, s, m, r);
    }
  }

  /** The attempt whose turn it was, with nothing yet sent. */
  lemma OwnCampaignOk(p: Params, s: Sys, s': Sys, h: HostId, event: CampaignEvent)
    requires ElectionsInv(p, s) && Campaigns(p, s, s', h, event)
    requires s.elections.asks <= s'.elections.asks && s.elections.claims <= s'.elections.claims
    requires s'.elections.witnesses == s.elections.witnesses
    ensures CampaignOk(s', CampaignOf(s'.elections, h))
  {
    var c, c' := CampaignOf(s.elections, h), CampaignOf(s'.elections, h);
    assert CampaignOk(s, c);
    DriftKeepsCampaign(s, s', c);
    hide WitnessOk, ReceiptBacked;
    match event {
      case AskBridges(_, _) =>
      case WitnessArrives(m) => HeardIsOk(p, s, s', c, m);
      case AskingEnds(_) =>
      case ClaimNext(requestId) => SentIsOk(p, s, s', c, requestId);
      case ReplyArrives(reply) => RepliedIsOk(p, s, s', c, reply);
      case GiveUp =>
    }
  }

  lemma HeardIsOk(p: Params, s: Sys, s': Sys, c: Campaign, m: WitnessMsg)
    requires CampaignOk(s', c) && WitnessesOk(p, s) && m in s.elections.witnesses && s'.now == s.now
    requires s'.elections.witnesses == s.elections.witnesses
    ensures CampaignOk(s', HearWitness(c, m, p.scope.server, W(p), s.now))
  {
    assert WitnessOk(p, s, m);
    assert Issued(s'.elections, m.seen);
  }

  lemma SentIsOk(p: Params, s: Sys, s': Sys, c: Campaign, requestId: string)
    requires CampaignOk(s', c) && ReceiptsBacked(p, s) && s'.net == s.net
    requires forall m | m in s.elections.claims :: m.requestId != requestId
    requires var d := SendClaim(c, requestId); d.Voting? && d.claim.Some? ==> d.claim.value in s'.elections.claims
    ensures CampaignOk(s', SendClaim(c, requestId))
  {
    if c.Voting? { FreshClaim(p, s, c.absent, requestId); }
  }

  lemma RepliedIsOk(p: Params, s: Sys, s': Sys, c: Campaign, reply: ClaimReply)
    requires CampaignOk(s', c) && (reply.VoteGranted? ==> reply.receipt in s'.net.receipts)
    ensures CampaignOk(s', HearReply(c, reply, p.scope.server, s.now))
  {
    var d := HearReply(c, reply, p.scope.server, s.now);
    if c.Voting? && c.claim.Some? {
      forall b | b in d.votes ensures VoteOk(s', d.absent, b, d.votes[b]) {
        if b in c.votes && d.votes[b] == c.votes[b] {
          assert VoteOk(s', c.absent, b, c.votes[b]);
        } else {
          assert d.votes[b].requestId == c.claim.value.requestId && ClaimOk(s', c.absent, c.claim.value);
        }
      }
    }
  }

  lemma CollectKeeps(p: Params, s: Sys, s': Sys, h: HostId, event: CampaignEvent)
    requires ElectionsInv(p, s) && Campaigns(p, s, s', h, event)
    ensures ElectionsInv(p, s')
  {
    assert CampaignOk(s, CampaignOf(s.elections, h));
    NewAskIsOk(p, s, s', h, event);
    NewClaimIsOk(p, s, s', h, event);
    OwnCampaignOk(p, s, s', h, event);
    hide CampaignOk, ReceiptBacked, CampaignEnabled, CampaignAfter, AttestsAbsence;
    forall m | m in s'.elections.witnesses ensures WitnessOk(p, s', m) {
      assert WitnessOk(p, s, m);
      var a :| a in s.elections.asks && a.nonce == m.nonce && m.seen.observedAt <= a.issuedAt + ASK_FRESHNESS_MS;
      assert a in s'.elections.asks;
    }
    forall r | r in s'.net.receipts ensures ReceiptBacked(p, s', r) { MoreMessages(p, s, s', r); }
    forall g | g in s'.elections.campaigns ensures CampaignOk(s', s'.elections.campaigns[g]) {
      if g != h { DriftKeepsCampaign(s, s', s.elections.campaigns[g]); }
    }
  }

  // ---------------------------------------------------------------- whole runs

  lemma NextKeepsElections(p: Params, s: Sys, s': Sys, t: Step)
    requires ElectionsInv(p, s) && ParamsOk(p) && Next(p, s, s', t)
    ensures ElectionsInv(p, s')
  {
    hide ElectionsInv, ParamsOk, HostAfter, StepOfBridge, GivesVote;
    if IsHostStep(t) {
      HostStepDrifts(p, s, t);
      DriftKeeps(p, s, s');
    } else if IsBridgeStep(t) {
      if GivesVote(p, s, t) {
        VoteKeeps(p, s, t);
      } else {
        BridgeStepDrifts(p, s, t);
        DriftKeeps(p, s, s');
      }
    } else if t.Attest? {
      AttestKeeps(p, s, s', t);
    } else if t.Collect? {
      CollectKeeps(p, s, s', t.host, t.event);
    } else {
      SameDisconnects(s);
      DriftKeeps(p, s, s');
    }
  }

  lemma {:induction false} RunKeepsElections(p: Params, run: seq<Sys>, steps: seq<Step>, founder: HostId, e0: nat, i: nat)
    requires IsRun(p, run, steps, founder, e0) && i < |run|
    ensures ElectionsInv(p, run[i])
  {
    hide Next;
    if i > 0 {
      RunKeepsElections(p, run, steps, founder, e0, i - 1);
      NextKeepsElections(p, run[i - 1], run[i], steps[i - 1]);
    }
  }

  /** In every run, whoever is promoted began to ask for votes only when every voter had missed the primary for its whole grace. */
  lemma WinnerCollectedOnce(p: Params, run: seq<Sys>, steps: seq<Step>, founder: HostId, e0: nat, i: nat)
    requires IsRun(p, run, steps, founder, e0) && i < |steps| && steps[i].WinElection?
    ensures OneCollection(p, run[i], steps[i].votes)
  {
    hide ElectionsInv, OneCollection, MayPromote;
    RunKeepsElections(p, run, steps, founder, e0, i);
    assert Next(p, run[i], run[i + 1], steps[i]);
    VotesAreOneCollection(p, run[i], steps[i].host, steps[i].votes);
  }
}
