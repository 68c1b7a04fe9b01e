/**
  * The whole failover system of one community: its hosts, its bridges, the connections between them,
  * every message ever sent, and a global clock in milliseconds.
  *
  * Messages are kept in sets and may be delivered late, more than once or never; sockets may close and
  * processes may die at any moment. `History` records what happened and decides nothing.
  */
module Failover {
  import opened Community
  import opened Quorums
  import opened BridgeLedger
  import opened Bridge
  import opened BridgeInvariants
  import opened WitnessFloor
  import opened HostWriter
  import opened Coordinator
  import opened WitnessCollection
  import RegistrationQuorum

  /** One host's connections to one bridge. */
  datatype Line = Line(host: HostId, bridge: BridgeId)

  datatype ChallengeMsg = ChallengeMsg(socket: Socket, challenge: string, recordHash: RecordHash)
  datatype ProofMsg = ProofMsg(socket: Socket, proof: Proof)
  datatype AckMsg = AckMsg(socket: Socket, record: HostRecord, at: int)
  datatype PongMsg = PongMsg(socket: Socket, round: RoundId, at: int, bound: bool)

  datatype Net = Net(
    records: set<HostRecord>, receipts: set<Receipt>, challenges: set<ChallengeMsg>, proofs: set<ProofMsg>,
    acks: set<AckMsg>, pongs: set<PongMsg>)

  /** The attempts of replicas to be elected, and every message of theirs but the votes. */
  datatype Elections = Elections(
    campaigns: map<HostId, Campaign>, handouts: set<Handout>, asks: set<Ask>, witnesses: set<WitnessMsg>, claims: set<ClaimMsg>)

  /** `newest` is the last socket a host dialled; `seen` and `alive` are the bridge side of all sockets. */
  datatype Wires = Wires(newest: map<Line, Socket>, seen: set<Socket>, alive: set<Socket>)

  datatype Timers = Timers(polled: map<HostId, int>, pulsed: map<HostId, int>)

  /** A bridge served a host's bound socket at `at`. */
  datatype Contact = Contact(bridge: BridgeId, host: HostId, at: int)

  /** A lease renewal and when each bridge of its quorum had last served the host; a reset has no quorum. */
  datatype Renewal = Renewal(at: int, evidence: map<BridgeId, int>)

  /** `boundSince` says since when a registered socket has been bound without a break, or was until it closed. */
  datatype History = History(
    champions: map<nat, HostId>, began: map<nat, int>, contacts: set<Contact>,
    evidence: map<Line, int>, ackedAt: map<Line, int>, renewals: map<HostId, seq<Renewal>>,
    absences: map<Receipt, int>, boundSince: map<Socket, int>)

  datatype Sys = Sys(
    now: int, bridges: map<BridgeId, BridgeState>, nodes: map<HostId, Node>,
    wires: Wires, net: Net, elections: Elections, timers: Timers, history: History)

  datatype Params = Params(
    scope: Scope, configs: map<BridgeId, Config>, fence: int, poll: int, period: int, delay: int)

  function W(p: Params): set<BridgeId> { p.configs.Keys }

  /** Two or three bridges, each knowing its own name. */
  predicate ParamsOk(p: Params) {
    && 2 <= |W(p)| <= 3
    && p.scope.authority != ""
    && forall b | b in p.configs :: p.configs[b].me == b
  }

  function KeyOf(p: Params, h: HostId): HostKey { HostKey(p.scope, h) }

  // ---------------------------------------------------------------- steps

  datatype Step =
    | Tick(ms: nat)
    // the host
    | DialUp(host: HostId, socket: Socket)
    | HangUp(host: HostId, bridge: BridgeId)
    | SignRound(host: HostId)
    | PublishTo(host: HostId, bridge: BridgeId)
    | Answer(host: HostId, challenge: ChallengeMsg, proof: Proof)
    | GetAck(host: HostId, ack: AckMsg, granted: bool)
    | GetPong(host: HostId, pong: PongMsg)
    | Pulse(host: HostId, round: RoundId)
    | Poll(host: HostId, granted: bool)
    | Renew(host: HostId)
    | WinElection(host: HostId, expectedEpoch: nat, votes: set<Receipt>, granted: bool)
    | HearEpoch(host: HostId, announcement: Announcement, prior: HostRecord, accepted: bool, granted: bool, trusted: set<BridgeId>)
    | SyncReplica(host: HostId, snapshot: Snapshot)
    | EnrollReplica(host: HostId, promotable: bool, witnesses: set<BridgeId>, access: set<BridgeId>)
    | RebootHost(host: HostId, granted: bool)
    | Collect(host: HostId, event: CampaignEvent)
    // the bridge
    | OpenSocket(socket: Socket)
    | BeginReg(bridge: BridgeId, socket: Socket, requestId: string, frame: Frame, known: Option<Mark>, nonce: string)
    | ProveReg(bridge: BridgeId, requestId: string, message: ProofMsg, known: Option<Mark>, persisted: bool)
    | CloseSocket(socket: Socket)
    | CleanUp(bridge: BridgeId)
    | RevokeGrant(bridge: BridgeId, revocation: Revocation, persisted: bool)
    | IssueAccess(bridge: BridgeId, credential: Access)
    | Claim(bridge: BridgeId, requestId: string, absence: AbsenceWitness, known: Option<Mark>, persisted: bool)
    | AnswerPing(socket: Socket, round: RoundId)
    | HandOut(bridge: BridgeId, primary: HostId)
    | Attest(bridge: BridgeId, ask: Ask, top: Mark)
    | RebootBridge(bridge: BridgeId, credentials: map<AccessKey, Access>)

  predicate IsHostStep(t: Step) {
    t.DialUp? || t.HangUp? || t.SignRound? || t.PublishTo? || t.Answer? || t.GetAck? || t.GetPong? || t.Pulse? || t.Poll? || t.Renew?
    || t.WinElection? || t.HearEpoch? || t.SyncReplica? || t.EnrollReplica? || t.RebootHost?
  }

  predicate IsBridgeStep(t: Step) {
    t.BeginReg? || t.ProveReg? || t.CloseSocket? || t.CleanUp? || t.RevokeGrant? || t.IssueAccess? || t.Claim? || t.RebootBridge?
  }

  // ---------------------------------------------------------------- steps of a host

  predicate Linked(n: Node, s: Socket) {
    s.bridge in n.links && n.links[s.bridge] == s
  }

  predicate HostEnabled(p: Params, s: Sys, t: Step)
    requires IsHostStep(t)
  {
    t.host in s.nodes &&
    var h, n := t.host, s.nodes[t.host];
    match t
    case DialUp(_, k) => k.host == h && k.bridge in W(p) && k.bridge !in n.links && IsNewer(s.wires, k)
    case Answer(_, m, proof) => m in s.net.challenges && Linked(n, m.socket) && proof.challenge == m.challenge
    case GetAck(_, m, _) => m in s.net.acks && Linked(n, m.socket) && m.socket.host == h
    case GetPong(_, m) => m in s.net.pongs && Linked(n, m.socket) && m.socket.host == h
    case Pulse(_, r) => r.host == h && r.startedAt == s.now
    case WinElection(_, e, votes, granted) => 
      && votes <= s.net.receipts && Concludes(CampaignOf(s.elections, h), votes)
      && MayPromote(n.service, e, votes, granted, s.now)
    case SyncReplica(_, snap) => CleanSync(p, n.service, snap)
    case _ => true
  }

  predicate IsNewer(w: Wires, k: Socket) {
    Line(k.host, k.bridge) in w.newest ==> k.serial > w.newest[Line(k.host, k.bridge)].serial
  }

  /** The replica loop syncs a replica that is not about to resume, and nobody else's database holds its writer row. */
  predicate CleanSync(p: Params, x: Host, snap: Snapshot) {
    x.boot.asReplica && x.resume.None? && snap.row.None? && (snap.replicaTrust.Some? ==> snap.replicaTrust.value == W(p))
  }

  function NodeAfter(p: Params, n: Node, t: Step, now: int): Node
    requires IsHostStep(t)
  {
    match t
    case DialUp(_, k) => Dial(n, k)
    case HangUp(_, b) => Drop(n, b)
    case SignRound(_) => EnsureRound(n, now)
    case PublishTo(_, b) => Publish(n, b)
    case Answer(_, _, _) => n
    case GetAck(_, m, granted) => ReceiveAck(n, m.socket.bridge, m.record, granted, now)
    case GetPong(_, m) => ReceivePong(n, m.socket.bridge, m.round, now)
    case Pulse(_, r) => LivenessTick(n, r)
    case Poll(_, granted) => FenceTick(n, p.fence, granted, now)
    case Renew(_) => Heartbeat(n)
    case WinElection(_, e, votes, granted) => Win(n, e, votes, granted, now)
    case HearEpoch(_, a, prior, accepted, granted, trusted) => Hear(n, a, prior, accepted, granted, trusted, now)
    case SyncReplica(_, snap) => n.(service := ApplySnapshot(n.service, snap))
    case EnrollReplica(_, promotable, witnesses, access) => n.(service := Enroll(n.service, promotable, witnesses, access))
    case RebootHost(_, granted) => Started(Restore(n.service.boot, n.service.db, false, granted), now)
  }

  function NetAfterHost(net: Net, t: Step, n': Node): Net {
    match t
    case SignRound(_) => if n'.round.Some? then net.(records := net.records + {n'.round.value.record}) else net
    case Answer(_, m, proof) => net.(proofs := net.proofs + {ProofMsg(m.socket, proof)})
    case _ => net
  }

  function CampaignOf(e: Elections, h: HostId): Campaign {
    if h in e.campaigns then e.campaigns[h] else Idle
  }

  /** An attempt ends with the promotion, and with the process. */
  function ElectionsAfterHost(e: Elections, t: Step): Elections {
    match t
    case WinElection(h, _, _, _) => e.(campaigns := e.campaigns - {h})
    case RebootHost(h, _) => e.(campaigns := e.campaigns - {h})
    case _ => e
  }

  function TimersAfter(timers: Timers, t: Step, now: int): Timers {
    match t
    case Pulse(h, _) => timers.(pulsed := timers.pulsed[h := now])
    case Poll(h, _) => timers.(polled := timers.polled[h := now])
    case _ => timers
  }

  predicate AckCounts(n: Node, m: AckMsg) {
    && AnswersPublication(n, m.socket.bridge, m.record)
    && m.socket.bridge in Targets(n) && n.quorum.active == Some(BindingOf(n.round.value.record))
  }

  predicate PongCounts(n: Node, m: PongMsg) {
    && n.round.Some? && m.socket.bridge in n.awaiting && n.awaiting[m.socket.bridge] == m.round
    && n.quorum.active == Some(BindingOf(n.round.value.record)) && n.quorum.livenessRound == Some(m.round)
    && m.socket.bridge in n.quorum.acknowledged
  }

  predicate LiveQuorum(n: Node) {
    n.service.writer && n.round.Some? && RegistrationQuorum.HasStrictLiveQuorum(n.quorum, Targets(n), BindingOf(n.round.value.record))
  }

  /**
    * A lease renewal is recorded with the evidence of the live quorum of that moment. With the
    * renewal that makes a suspended host the writer again its record starts afresh.
    */
  function NoteRenewal(hist: History, h: HostId, wrote: bool, n': Node, now: int): History {
    var quorum := map b | b in n'.quorum.live && Line(h, b) in hist.evidence :: hist.evidence[Line(h, b)];
    hist.(renewals := hist.renewals[h := (if wrote && h in hist.renewals then hist.renewals[h] else []) + [Renewal(now, quorum)]])
  }

  function NoteEvidence(hist: History, h: HostId, b: BridgeId, at: int, wrote: bool, n': Node, now: int): History {
    var seen := hist.(evidence := hist.evidence[Line(h, b) := at]);
    if LiveQuorum(n') then NoteRenewal(seen, h, wrote, n', now) else seen
  }

  /** A pong counts from the moment it was sent; one that overtook the acknowledgement counts from that. */
  function PongEvidence(hist: History, h: HostId, m: PongMsg): int {
    if m.bound || Line(h, m.socket.bridge) !in hist.ackedAt then m.at else hist.ackedAt[Line(h, m.socket.bridge)]
  }

  function HistoryAfterHost(hist: History, n: Node, n': Node, t: Step, now: int): History {
    match t
    case GetAck(h, m, _) =>
      if !AckCounts(n, m) then hist
      else NoteEvidence(hist.(ackedAt := hist.ackedAt[Line(h, m.socket.bridge) := m.at]), h, m.socket.bridge, m.at, n.service.writer, n', now)
    case GetPong(h, m) =>
      if !PongCounts(n, m) then hist
      else NoteEvidence(hist, h, m.socket.bridge, PongEvidence(hist, h, m), n.service.writer, n', now)
    case WinElection(h, e, _, _) =>
      hist.(champions := hist.champions[e + 1 := h],
            began := if e + 1 in hist.began then hist.began else hist.began[e + 1 := now],
            renewals := hist.renewals[h := [Renewal(now, map[])]])
    case _ => hist
  }

  function HostAfter(p: Params, s: Sys, t: Step): Sys
    requires IsHostStep(t) && t.host in s.nodes
  {
    var n := s.nodes[t.host];
    var n' := NodeAfter(p, n, t, s.now);
    Sys(s.now, s.bridges, s.nodes[t.host := n'],
        if t.DialUp? then s.wires.(newest := s.wires.newest[Line(t.host, t.socket.bridge) := t.socket]) else s.wires,
        NetAfterHost(s.net, t, n'), ElectionsAfterHost(s.elections, t), TimersAfter(s.timers, t, s.now), HistoryAfterHost(s.history, n, n', t, s.now))
  }

  // ---------------------------------------------------------------- steps of a bridge

  function BridgeOf(t: Step): BridgeId
    requires IsBridgeStep(t)
  {
    if t.CloseSocket? then t.socket.bridge else t.bridge
  }

  predicate BridgeEnabled(p: Params, s: Sys, t: Step)
    requires IsBridgeStep(t)
  {
    BridgeOf(t) in s.bridges && BridgeOf(t) in p.configs &&
    var b, v, c := BridgeOf(t), s.bridges[BridgeOf(t)], p.configs[BridgeOf(t)];
    match t
    case BeginReg(_, k, _, f, known, nonce) =>
      && k in s.wires.alive && k.bridge == b
      && f.record in s.net.records && f.record.hostId == k.host && FrameScope(f) == p.scope
      && KnownPrimary(v.ledger.marks, p.scope, known)
      && forall m | m in s.net.challenges :: m.challenge != nonce
    case ProveReg(_, _, m, known, _) =>
      m in s.net.proofs && m.socket in s.wires.alive && m.socket.bridge == b && KnownPrimary(v.ledger.marks, p.scope, known)
    case CloseSocket(k) => k in s.wires.alive
    case Claim(_, requestId, w, known, _) =>
      ClaimMsg(b, requestId, w) in s.elections.claims && w.server == p.scope.server && KnownPrimary(v.ledger.marks, p.scope, known)
    case RebootBridge(_, credentials) => forall k | k in credentials :: credentials[k].key == k
    case _ => true
  }

  function Proved(c: Config, v: BridgeState, t: Step, now: int): (BridgeState, Option<Reject>)
    requires t.ProveReg?
  {
    Prove(v, t.message.socket, t.requestId, t.message.proof, t.known, c, now, t.persisted)
  }

  function Claimed(p: Params, c: Config, v: BridgeState, t: Step, alive: set<Socket>, now: int): (BridgeState, VoteReply)
    requires t.Claim?
  {
    ClaimVote(v, t.requestId, p.scope.authority, t.absence, t.known, alive, c, now, t.persisted)
  }

  function BridgeAfter(p: Params, c: Config, v: BridgeState, t: Step, alive: set<Socket>, now: int): BridgeState
    requires IsBridgeStep(t)
  {
    match t
    case BeginReg(_, k, requestId, f, known, nonce) => Begin(v, k, requestId, f, known, c, nonce, now).0
    case ProveReg(_, _, _, _, _) => Proved(c, v, t, now).0
    case CloseSocket(k) => Close(v, k, now)
    case CleanUp(_) => Cleanup(v, now)
    case RevokeGrant(_, r, persisted) => Revoke(v, r, now, persisted).0
    case IssueAccess(_, a) => v.(ledger := v.ledger.(access := v.ledger.access[a.key := a]))
    case Claim(_, _, _, _, _) => Claimed(p, c, v, t, alive, now).0
    case RebootBridge(_, credentials) => Restart(v.ledger.(access := credentials))
  }

  /** The registration on `t.message.socket` was committed just now. */
  predicate Commits(c: Config, v: BridgeState, t: Step, now: int) {
    t.ProveReg? && Proved(c, v, t, now).1.None? && t.message.socket in v.challenges.pending
  }

  predicate Votes(p: Params, c: Config, v: BridgeState, t: Step, alive: set<Socket>, now: int) {
    t.Claim? && Claimed(p, c, v, t, alive, now).1.Granted?
  }

  function AliveAfter(alive: set<Socket>, t: Step): set<Socket> {
    match t
    case CloseSocket(k) => alive - {k}
    case RebootBridge(b, _) => set k | k in alive && k.bridge != b
    case _ => alive
  }

  function WiresAfterBridge(w: Wires, t: Step): Wires {
    w.(alive := AliveAfter(w.alive, t))
  }

  /** The sockets a bridge stops serving although they stay open. */
  function CutOff(before: Sockets, after: Sockets, alive: set<Socket>): set<Socket> {
    set k | k in before.hostOf && k !in after.hostOf && k in alive
  }

  function NetAfterBridge(p: Params, c: Config, v: BridgeState, net: Net, t: Step, alive: set<Socket>, now: int): Net {
    if t.BeginReg? && Begin(v, t.socket, t.requestId, t.frame, t.known, c, t.nonce, now).1.None? then
      net.(challenges := net.challenges + {ChallengeMsg(t.socket, t.nonce, HashOf(t.frame.record))})
    else if Commits(c, v, t, now) then
      net.(acks := net.acks + {AckMsg(t.message.socket, v.challenges.pending[t.message.socket].frame.record, now)})
    else if Votes(p, c, v, t, alive, now) then
      net.(receipts := net.receipts + {Claimed(p, c, v, t, alive, now).1.receipt})
    else net
  }

  function Uncut(hist: History, cut: set<Socket>): History {
    hist.(boundSince := hist.boundSince - cut)
  }

  /** What becomes known with a registration on `k`. */
  function Noted(hist: History, k: Socket, now: int): History {
    hist.(contacts := hist.contacts + {Contact(k.bridge, k.host, now)},
          boundSince := if k in hist.boundSince then hist.boundSince else hist.boundSince[k := now])
  }

  function CutBy(p: Params, c: Config, v: BridgeState, t: Step, alive: set<Socket>, now: int): set<Socket>
    requires IsBridgeStep(t)
  {
    CutOff(v.sockets, BridgeAfter(p, c, v, t, alive, now).sockets, AliveAfter(alive, t))
  }

  function HistoryAfterBridge(p: Params, c: Config, v: BridgeState, net: Net, before: History, t: Step, alive: set<Socket>, now: int)
    : (after: History)
    requires IsBridgeStep(t)
    ensures after == before.(contacts := after.contacts, boundSince := after.boundSince, absences := after.absences)
  {
    var hist := Uncut(before, CutBy(p, c, v, t, alive, now));
    if Commits(c, v, t, now) then Noted(hist, t.message.socket, now)
    else if Votes(p, c, v, t, alive, now) && KeyOf(p, t.absence.primary) in v.sockets.disconnectedAt then
      var r := Claimed(p, c, v, t, alive, now).1.receipt;
      if r in net.receipts then hist
      else hist.(absences := hist.absences[r := v.sockets.disconnectedAt[KeyOf(p, t.absence.primary)]])
    else hist
  }

  function StepOfBridge(p: Params, s: Sys, t: Step): Sys
    requires IsBridgeStep(t) && BridgeOf(t) in s.bridges && BridgeOf(t) in p.configs
  {
    var b, v, c := BridgeOf(t), s.bridges[BridgeOf(t)], p.configs[BridgeOf(t)];
    Sys(s.now, s.bridges[b := BridgeAfter(p, c, v, t, s.wires.alive, s.now)], s.nodes, WiresAfterBridge(s.wires, t),
        NetAfterBridge(p, c, v, s.net, t, s.wires.alive, s.now), s.elections, s.timers,
        HistoryAfterBridge(p, c, v, s.net, s.history, t, s.wires.alive, s.now))
  }

  // ---------------------------------------------------------------- elections

  /** `resolve` hands out a record that is still valid; the sweep in it is a step of its own. */
  predicate MayHandOut(p: Params, s: Sys, b: BridgeId, primary: HostId) {
    b in s.bridges && KeyOf(p, primary) in s.bridges[b].records && s.now < s.bridges[b].records[KeyOf(p, primary)].expiresAt
  }

  /** A replica asks about the primary of its own epoch, whose record a bridge has just handed out and is still valid. */
  predicate MayAsk(s: Sys, h: HostId, record: HostRecord, nonce: string) {
    && h in s.nodes && CampaignOf(s.elections, h).Idle?
    && var x := s.nodes[h].service;
    && x.boot.asReplica && !x.writer && x.resume.None?
    && (exists r | r in s.elections.handouts :: r.record == record && s.now - r.at <= RESOLVE_TIMEOUT_MS)
    && record.role.Primary? && record.epoch == x.db.epoch && s.now < record.expiresAt
    && forall a | a in s.elections.asks :: a.nonce != nonce
  }

  predicate CampaignEnabled(s: Sys, h: HostId, event: CampaignEvent) {
    match event
    case AskBridges(record, nonce) => MayAsk(s, h, record, nonce)
    case WitnessArrives(m) => m in s.elections.witnesses
    case ClaimNext(requestId) => requestId != "" && forall m | m in s.elections.claims :: m.requestId != requestId
    case ReplyArrives(reply) => reply.VoteGranted? ==> reply.receipt in s.net.receipts
    case _ => true
  }

  function CampaignAfter(p: Params, c: Campaign, h: HostId, event: CampaignEvent, now: int): Campaign {
    match event
    case AskBridges(record, nonce) => Asking(Ask(h, nonce, record.hostId, now), record, map[])
    case WitnessArrives(m) => HearWitness(c, m, p.scope.server, W(p), now)
    case AskingEnds(order) => CloseAsking(c, W(p), order)
    case ClaimNext(requestId) => SendClaim(c, requestId)
    case ReplyArrives(reply) => HearReply(c, reply, p.scope.server, now)
    case GiveUp => Idle
  }

  function ElectionsAfter(p: Params, e: Elections, h: HostId, event: CampaignEvent, now: int): Elections {
    var c := CampaignAfter(p, CampaignOf(e, h), h, event, now);
    e.(campaigns := e.campaigns[h := c],
       asks := if event.AskBridges? && c.Asking? then e.asks + {c.ask} else e.asks,
       claims := if event.ClaimNext? && c.Voting? && c.claim.Some? then e.claims + {c.claim.value} else e.claims)
  }

  /** `witnessPrimary` answers a fresh request about the primary it knows. */
  predicate MayAttest(p: Params, s: Sys, b: BridgeId, ask: Ask, known: Mark) {
    && b in s.bridges && b in p.configs && ask in s.elections.asks && s.now - ask.issuedAt <= ASK_FRESHNESS_MS
    && KnownPrimary(s.bridges[b].ledger.marks, p.scope, Some(known)) && ask.primary == known.key.hostId
  }

  function Attested(p: Params, s: Sys, b: BridgeId, ask: Ask, known: Mark): AbsenceWitness
    requires b in s.bridges && b in p.configs
  {
    ObservePrimary(s.bridges[b], p.scope, ask.host, known, s.wires.alive, p.configs[b], s.now)
  }

  // ---------------------------------------------------------------- time and wires

  predicate BoundTo(p: Params, sockets: Sockets, k: Socket) {
    KeyOf(p, k.host) in sockets.ofHost && sockets.ofHost[KeyOf(p, k.host)] == k
  }

  predicate WireNext(p: Params, s: Sys, s': Sys, t: Step)
    requires !IsHostStep(t) && !IsBridgeStep(t)
  {
    match t
    case Tick(ms) => s' == s.(now := s.now + ms)
    case OpenSocket(k) =>
      && k !in s.wires.seen && k.bridge in s.bridges
      && Line(k.host, k.bridge) in s.wires.newest && k.serial <= s.wires.newest[Line(k.host, k.bridge)].serial
      && s' == s.(wires := s.wires.(seen := s.wires.seen + {k}, alive := s.wires.alive + {k}))
    case Collect(h, event) => CampaignEnabled(s, h, event) && s' == s.(elections := ElectionsAfter(p, s.elections, h, event, s.now))
    case HandOut(b, primary) =>
      && MayHandOut(p, s, b, primary)
      && s' == s.(elections := s.elections.(handouts := s.elections.handouts + {Handout(s.bridges[b].records[KeyOf(p, primary)].record, s.now)}))
    case Attest(b, ask, known) =>
      && MayAttest(p, s, b, ask, known)
      && s' == s.(elections := s.elections.(witnesses := s.elections.witnesses + {WitnessMsg(ask.nonce, Attested(p, s, b, ask, known))}))
    case AnswerPing(k, r) =>
      && k in s.wires.alive && k.bridge in s.bridges && r.startedAt <= s.now
      && var bound := BoundTo(p, s.bridges[k.bridge].sockets, k);
      && s' == s.(net := s.net.(pongs := s.net.pongs + {PongMsg(k, r, s.now, bound)}),
                  history := if bound then s.history.(contacts := s.history.contacts + {Contact(k.bridge, k.host, s.now)}) else s.history)
  }

  predicate Next(p: Params, s: Sys, s': Sys, t: Step) {
    if IsHostStep(t) then HostEnabled(p, s, t) && s' == HostAfter(p, s, t)
    else if IsBridgeStep(t) then BridgeEnabled(p, s, t) && s' == StepOfBridge(p, s, t)
    else WireNext(p, s, s', t)
  }

  // ---------------------------------------------------------------- the start

  /** What the composed system assumes of each host: one bridge set, a promotable grant, a fixed boot mode. */
  predicate HostFits(p: Params, h: HostId, x: Host) {
    && Self(x) == h && |h| >= 1
    && x.boot.grant.signer == p.scope.authority && x.boot.grant.server == p.scope.server
    && x.boot.configured == W(p) && CanBePromoted(x.boot.grant)
    && (x.db.replicaTrust.Some? ==> x.db.replicaTrust.value == W(p))
    && (x.boot.asReplica || x.db.row.Some?)
    && Normal(PersistedFloor(x.db.row, x.boot.grant))
  }

  /** One host created the community and writes at epoch `e0`; every other host is a fresh replica. */
  predicate Init(p: Params, s: Sys, founder: HostId, e0: nat) {
    && ParamsOk(p) && s.now >= 1
    && s.bridges.Keys == W(p)
    && (forall b | b in s.bridges :: s.bridges[b] == Restart(s.bridges[b].ledger) && s.bridges[b].ledger == EMPTY)
    && founder in s.nodes
    && (forall h | h in s.nodes ::
          && s.nodes[h] == Started(s.nodes[h].service, s.now)
          && HostFits(p, h, s.nodes[h].service) && s.nodes[h].service.resume.None? && s.nodes[h].service.pending.None?
          && (h != founder ==> !s.nodes[h].service.writer && s.nodes[h].service.db.row.None?))
    && s.nodes[founder].service.writer && s.nodes[founder].service.db.epoch == e0
    && s.wires == Wires(map[], {}, {})
    && s.net == Net({}, {}, {}, {}, {}, {}) && s.elections == Elections(map[], {}, {}, {}, {})
    && s.timers == Timers(map h | h in s.nodes :: s.now, map h | h in s.nodes :: s.now)
    && s.history == History(map[e0 := founder], map[e0 := s.now], {}, map[], map[], map[founder := [Renewal(s.now, map[])]], map[], map[])
  }

  /** A run: a first state and one step after another. */
  predicate IsRun(p: Params, run: seq<Sys>, steps: seq<Step>, founder: HostId, e0: nat) {
    && |run| == |steps| + 1
    && Init(p, run[0], founder, e0)
    && forall i | 0 <= i < |steps| :: Next(p, run[i], run[i + 1], steps[i])
  }
}
