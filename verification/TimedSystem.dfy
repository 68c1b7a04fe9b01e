/**
  * What the failover system keeps when its loops run on time: the hypotheses about time, and the
  * invariant that ties every lease renewal to the moments bridges last served the writer.
  */
module TimedSystem {
  import opened Community
  import opened Quorums
  import opened BridgeLedger
  import opened Bridge
  import opened BridgeInvariants
  import opened HostWriter
  import opened Coordinator
  import opened Failover
  import FailoverEpochs
  import RegistrationQuorum

  // ---------------------------------------------------------------- hypotheses

  /** How long after it last served a writer a bridge may still keep the writer's lease running. */
  function Lag(p: Params): int { p.fence + p.poll + p.period + p.delay }

  /** An absence that lasts longer than whatever its bridge last did for the writer. */
  predicate LongGrace(p: Params, b: BridgeId) {
    b in p.configs && Grace(p.configs[b]) >= Lag(p)
  }

  function Max(a: int, b: int): int { if a > b then a else b }

  /** What is enough if both of two bridges have it: a renewal is set off by a bridge that served within a period or a delay. */
  predicate FairGrace(p: Params, b: BridgeId) {
    b in p.configs && Grace(p.configs[b]) >= p.fence + p.poll + Max(p.period, p.delay)
  }

  /** Three bridges need a long grace each; of two, which both have to vote, one is enough, or a fair one each. */
  predicate GracesHold(p: Params) {
    if |W(p)| == 3 then forall b | b in p.configs :: LongGrace(p, b)
    else (exists b | b in p.configs :: LongGrace(p, b)) || (forall b | b in p.configs :: FairGrace(p, b))
  }

  /** The shortest fence time the code lets its operator set; a witness is not valid for longer. */
  const SHORTEST_FENCE_MS := 5_000

  predicate GraceSuffices(p: Params) {
    p.fence >= SHORTEST_FENCE_MS && p.poll >= 0 && p.period >= 0 && p.delay >= 0 && GracesHold(p)
  }

  /**
    * A step that happens on time: time does not pass a writer's next poll or liveness round, an
    * acknowledgement is not older than `delay`, a suspended writer resumes only safely, and no revocation
    * or expiry cuts off an open connection of a host that acts as primary.
    */
  predicate OnTime(p: Params, s: Sys, t: Step) {
    match t
    case Tick(ms) =>
      forall h | h in s.nodes && s.nodes[h].service.writer :: InTime(p, s.timers, h, s.now + ms)
    case GetAck(h, m, _) =>
      s.now - m.at <= p.delay && (Resumes(p, s, t) ==> ResumesSafely(p, s, t))
    case RevokeGrant(_, _, _) => SparesPrimaries(p, s, t)
    case CleanUp(_) => SparesPrimaries(p, s, t)
    case BeginReg(_, _, _, _, _, _) => SparesPrimaries(p, s, t)
    case _ => true
  }

  predicate InTime(p: Params, timers: Timers, h: HostId, now: int) {
    && h in timers.polled && now <= timers.polled[h] + p.poll
    && h in timers.pulsed && now <= timers.pulsed[h] + p.period
  }

  /** The acknowledgement makes a host that a restart suspended the writer again. */
  predicate Resumes(p: Params, s: Sys, t: Step)
    requires t.GetAck?
  {
    t.host in s.nodes && !s.nodes[t.host].service.writer && NodeAfter(p, s.nodes[t.host], t, s.now).service.writer
  }

  predicate ResumesSafely(p: Params, s: Sys, t: Step)
    requires t.GetAck?
  {
    ResumesFresh(p, s, t) && ResumesUnopposed(p, s, t)
  }

  /** Every bridge of the acknowledgement set served the host just now. */
  predicate ResumesFresh(p: Params, s: Sys, t: Step)
    requires t.GetAck?
  {
    t.host in s.nodes && t.host in s.timers.pulsed &&
    var n' := NodeAfter(p, s.nodes[t.host], t, s.now);
    n'.round.Some? && forall b | b in n'.round.value.acked ::
      && Line(t.host, b) in EvidenceWith(s.history, t)
      && Fresh(p, EvidenceWith(s.history, t)[Line(t.host, b)], s.timers.pulsed[t.host], s.now)
  }

  /** None of them has voted in the election after the host's epoch. */
  predicate ResumesUnopposed(p: Params, s: Sys, t: Step)
    requires t.GetAck?
  {
    t.host in s.nodes &&
    var n' := NodeAfter(p, s.nodes[t.host], t, s.now);
    n'.round.Some? && forall b | b in n'.round.value.acked :: HasNoVote(p, s, b, n'.service.db.epoch + 1)
  }

  predicate HasNoVote(p: Params, s: Sys, b: BridgeId, e: nat) {
    b in s.bridges && ElectionKey(p.scope, e) !in s.bridges[b].ledger.votes
  }

  function EvidenceWith(hist: History, t: Step): map<Line, int>
    requires t.GetAck?
  {
    hist.evidence[Line(t.host, t.ack.socket.bridge) := t.ack.at]
  }

  /** Served within one liveness period and one delay, and no longer than a delay before the last liveness round. */
  predicate Fresh(p: Params, at: int, pulsed: int, now: int) {
    at >= now - p.period - p.delay && at >= pulsed - p.delay
  }

  predicate ServesPrimary(nodes: map<HostId, Node>, k: Socket) {
    k.host in nodes && ActsAsPrimary(nodes[k.host].service) && Linked(nodes[k.host], k)
  }

  predicate SparesPrimaries(p: Params, s: Sys, t: Step)
    requires IsBridgeStep(t)
  {
    BridgeOf(t) in s.bridges && BridgeOf(t) in p.configs ==>
      forall k | k in CutBy(p, p.configs[BridgeOf(t)], s.bridges[BridgeOf(t)], t, s.wires.alive, s.now) :: !ServesPrimary(s.nodes, k)
  }

  // ---------------------------------------------------------------- clocks, sockets and messages

  predicate ClocksOk(s: Sys) {
    && s.history.began.Keys == s.history.champions.Keys
    && (forall e | e in s.history.began :: s.history.began[e] <= s.now)
    && (forall c | c in s.history.contacts :: c.at <= s.now)
    && (forall k | k in s.history.boundSince :: s.history.boundSince[k] <= s.now)
    && (forall h | h in s.nodes :: h in s.timers.polled && h in s.timers.pulsed)
    && (forall h | h in s.timers.polled :: s.timers.polled[h] <= s.now)
    && (forall h | h in s.timers.pulsed :: s.timers.pulsed[h] <= s.now)
  }

  function LineOf(k: Socket): Line { Line(k.host, k.bridge) }

  predicate IsNewest(w: Wires, k: Socket) {
    LineOf(k) in w.newest && w.newest[LineOf(k)] == k
  }

  /** Every socket a bridge has seen was dialled no later than the newest of its line. */
  predicate WiresOk(w: Wires, hist: History) {
    && (forall l | l in w.newest :: LineOf(w.newest[l]) == l)
    && (forall k | k in w.seen :: LineOf(k) in w.newest && k.serial <= w.newest[LineOf(k)].serial)
    && w.alive <= w.seen
    && hist.boundSince.Keys <= w.seen
  }

  predicate AckOk(w: Wires, hist: History, now: int, m: AckMsg) {
    m.socket in w.seen && m.at <= now && Contact(m.socket.bridge, m.socket.host, m.at) in hist.contacts
  }

  /** A pong sent by an unbound socket was sent before that socket was last bound. */
  predicate PongOk(w: Wires, hist: History, now: int, m: PongMsg) {
    && m.socket in w.seen && m.round.startedAt <= m.at <= now
    && (m.bound ==> Contact(m.socket.bridge, m.socket.host, m.at) in hist.contacts)
    && (!m.bound && m.socket in hist.boundSince ==> hist.boundSince[m.socket] >= m.at)
  }

  function Nonces(net: Net): set<string> {
    set m | m in net.challenges :: m.challenge
  }

  predicate MessagesOk(s: Sys) {
    && (forall m | m in s.net.acks :: AckOk(s.wires, s.history, s.now, m))
    && (forall m | m in s.net.pongs :: PongOk(s.wires, s.history, s.now, m))
    && (forall m | m in s.net.proofs :: m.proof.challenge in Nonces(s.net))
  }

  /** The primary of a receipt was not served by the receipt's bridge for the whole grace before it. */
  predicate ReceiptOk(p: Params, hist: History, now: int, r: Receipt) {
    && r in hist.absences && r.bridge in p.configs && r.issuedAt <= now
    && var d := hist.absences[r];
    && d <= r.issuedAt - Grace(p.configs[r.bridge])
    && r.primaryEpoch in hist.began && hist.began[r.primaryEpoch] <= d
    && forall c | c in hist.contacts && c.bridge == r.bridge && c.host == r.primary :: c.at <= d || c.at >= r.issuedAt
  }

  predicate ReceiptsOk(p: Params, s: Sys) {
    forall r | r in s.net.receipts :: ReceiptOk(p, s.history, s.now, r)
  }

  // ---------------------------------------------------------------- one bridge

  predicate BoundOk(p: Params, b: BridgeId, sockets: Sockets) {
    forall k | k in sockets.hostOf :: k.bridge == b && sockets.hostOf[k].key == KeyOf(p, k.host)
  }

  predicate PendingOk(p: Params, b: BridgeId, challenges: Challenges) {
    forall k | k in challenges.pending :: k.bridge == b && challenges.pending[k].key == KeyOf(p, k.host)
  }

  /** A challenge that has been answered is on a socket no newer socket of its line has been bound after. */
  predicate AnsweredOk(challenges: Challenges, net: Net, hist: History) {
    forall m, k | m in net.proofs && k in hist.boundSince ::
      Answers(challenges, m) && LineOf(k) == LineOf(m.socket) ==> k.serial <= m.socket.serial
  }

  predicate Answers(challenges: Challenges, m: ProofMsg) {
    m.socket in challenges.pending && challenges.pending[m.socket].challenge == m.proof.challenge
  }

  /** `boundSince` names the sockets that are bound, and of the open ones no others. */
  predicate SinceOk(p: Params, b: BridgeId, sockets: Sockets, w: Wires, hist: History) {
    && (forall k | k in hist.boundSince && k in w.alive && k.bridge == b :: BoundTo(p, sockets, k))
    && (forall k | k in sockets.hostOf :: k in hist.boundSince)
  }

  predicate PrimaryBegan(marks: map<HostKey, Mark>, key: HostKey, hist: History, d: int) {
    key in marks && marks[key].role.Primary? ==> marks[key].epoch in hist.began && hist.began[marks[key].epoch] <= d
  }

  /** A recorded disconnect is later than everything the bridge did for the host, and than its epoch's start. */
  predicate DisconnectOk(b: BridgeId, marks: map<HostKey, Mark>, hist: History, key: HostKey, d: int) {
    && (forall c | c in hist.contacts && c.bridge == b && c.host == key.hostId :: c.at <= d)
    && PrimaryBegan(marks, key, hist, d)
  }

  predicate DisconnectsOk(p: Params, b: BridgeId, sockets: Sockets, marks: map<HostKey, Mark>, hist: History) {
    forall key | key in sockets.disconnectedAt && key.scope == p.scope ::
      DisconnectOk(b, marks, hist, key, sockets.disconnectedAt[key])
  }

  predicate BridgeOk(p: Params, b: BridgeId, v: BridgeState, w: Wires, net: Net, hist: History) {
    && BoundOk(p, b, v.sockets) && PendingOk(p, b, v.challenges) && AnsweredOk(v.challenges, net, hist)
    && SinceOk(p, b, v.sockets, w, hist) && DisconnectsOk(p, b, v.sockets, v.ledger.marks, hist)
  }

  predicate BridgesOk(p: Params, s: Sys) {
    forall b | b in s.bridges :: BridgeOk(p, b, s.bridges[b], s.wires, s.net, s.history)
  }

  // ---------------------------------------------------------------- one host

  predicate LinksOk(h: HostId, n: Node, w: Wires) {
    forall b | b in n.links :: LineOf(n.links[b]) == Line(h, b) && IsNewest(w, n.links[b])
  }

  predicate AckedLine(k: Socket, hist: History, now: int) {
    && k in hist.boundSince && LineOf(k) in hist.ackedAt
    && hist.boundSince[k] <= hist.ackedAt[LineOf(k)] <= now
    && Contact(k.bridge, k.host, hist.ackedAt[LineOf(k)]) in hist.contacts
  }

  predicate AckedOk(n: Node, hist: History, now: int) {
    forall b | b in n.quorum.acknowledged :: b in n.links && AckedLine(n.links[b], hist, now)
  }

  /** A primary record of the host's present epoch. */
  predicate OwnRecord(x: Host, r: HostRecord) {
    r.role.Primary? && r.epoch == x.db.epoch
  }

  /** A bridge that acknowledged a primary record of this epoch has not cut that connection off since. */
  predicate AcksOk(h: HostId, n: Node, net: Net, hist: History) {
    forall m | m in net.acks && Linked(n, m.socket) && m.socket.host == h && OwnRecord(n.service, m.record) ::
      m.socket in hist.boundSince && hist.boundSince[m.socket] <= m.at
  }

  predicate RecordsOk(n: Node) {
    && (n.service.pending.Some? ==> OwnRecord(n.service, n.service.pending.value.record))
    && (n.round.Some? ==> OwnRecord(n.service, n.round.value.record))
    && (forall b | b in n.published :: OwnRecord(n.service, n.published[b]))
  }

  predicate Served(h: HostId, b: BridgeId, hist: History, now: int) {
    && Line(h, b) in hist.evidence && hist.evidence[Line(h, b)] <= now
    && Contact(b, h, hist.evidence[Line(h, b)]) in hist.contacts
  }

  predicate ServedOk(h: HostId, n: Node, hist: History, now: int) {
    forall b | b in n.quorum.live :: Served(h, b, hist, now)
  }

  /** What holds of a host while it writes or waits to resume. */
  predicate PrimaryOk(h: HostId, n: Node, net: Net, hist: History, now: int) {
    ActsAsPrimary(n.service) ==> AckedOk(n, hist, now) && AcksOk(h, n, net, hist) && RecordsOk(n) && ServedOk(h, n, hist, now)
  }

  predicate QuorumOk(p: Params, n: Node) {
    && n.quorum.live <= n.quorum.acknowledged <= W(p) && n.quorum.acknowledged <= n.links.Keys
    && (n.quorum.active.None? ==> n.quorum == RegistrationQuorum.Empty())
    && (n.quorum.active.Some? ==> n.round.Some? && n.quorum.active.value == BindingOf(n.round.value.record))
  }

  /** No liveness round runs for a suspended host, so all its acknowledgements still count as live. */
  predicate SuspendedOk(n: Node) {
    n.service.resume.Some? ==>
      && !n.service.writer
      && (n.round.None? ==> n.quorum == RegistrationQuorum.Empty())
      && (n.round.Some? ==>
          && n.quorum.active == Some(BindingOf(n.round.value.record)) && n.quorum.livenessRound.None?
          && n.quorum.live == n.quorum.acknowledged == n.round.value.acked)
  }

  predicate FreshOk(p: Params, h: HostId, n: Node, hist: History, timers: Timers, now: int) {
    n.service.writer ==>
      && h in timers.pulsed
      && (forall b | b in n.quorum.live :: Line(h, b) in hist.evidence && Fresh(p, hist.evidence[Line(h, b)], timers.pulsed[h], now))
      && (n.quorum.livenessRound.Some? ==>
          n.quorum.livenessRound.value.startedAt >= timers.pulsed[h] && n.quorum.livenessRound.value.startedAt >= now - p.period)
  }

  /** Some bridge of the renewal, the one that set it off, served within a liveness period or a delay of it. */
  predicate SetOff(p: Params, r: Renewal) {
    exists b | b in r.evidence :: r.at - Max(p.period, p.delay) <= r.evidence[b]
  }

  /** A strict majority served the host shortly before the renewal. */
  predicate Sustained(p: Params, h: HostId, r: Renewal, contacts: set<Contact>) {
    && StrictMajority(r.evidence.Keys, W(p)) && SetOff(p, r)
    && forall b | b in r.evidence ::
         Contact(b, h, r.evidence[b]) in contacts && r.at - p.period - p.delay <= r.evidence[b] <= r.at
  }

  /** A renewal follows the one before within a lease. */
  predicate RenewalOk(p: Params, h: HostId, before: int, r: Renewal, contacts: set<Contact>) {
    before <= r.at < before + p.fence + p.poll && Sustained(p, h, r, contacts)
  }

  predicate RenewalsOk(p: Params, h: HostId, rs: seq<Renewal>, contacts: set<Contact>) {
    |rs| >= 1 && forall k | 1 <= k < |rs| :: RenewalOk(p, h, rs[k - 1].at, rs[k], contacts)
  }

  /** No bridge of `evidence` has attested an absence of `h` at `epoch` that began before it served the host. */
  predicate NoneAttested(h: HostId, epoch: nat, evidence: map<BridgeId, int>, net: Net, hist: History) {
    forall r | r in net.receipts && r.primary == h && r.primaryEpoch == epoch && r.bridge in evidence ::
      r in hist.absences && hist.absences[r] >= evidence[r.bridge]
  }

  /** A lease starts with the epoch, or with a resume that a strict majority served and that nobody had voted against. */
  predicate StartOk(p: Params, h: HostId, epoch: nat, r: Renewal, net: Net, hist: History) {
    || (epoch in hist.began && r.at == hist.began[epoch])
    || (Sustained(p, h, r, hist.contacts) && NoneAttested(h, epoch, r.evidence, net, hist))
  }

  /** A writer's lease: its history since the promotion or the resume, and that it has not run out unnoticed. */
  predicate LeaseOk(p: Params, h: HostId, n: Node, net: Net, hist: History, timers: Timers, now: int) {
    n.service.writer ==>
      && n.observed && h in hist.renewals && h in timers.polled
      && RenewalsOk(p, h, hist.renewals[h], hist.contacts)
      && var rs := hist.renewals[h];
      && StartOk(p, h, n.service.db.epoch, rs[0], net, hist) && rs[|rs| - 1].at == n.lease
      && timers.polled[h] - p.fence < n.lease <= now < n.lease + p.fence + p.poll
  }

  predicate NodeOk(p: Params, h: HostId, n: Node, w: Wires, net: Net, hist: History, timers: Timers, now: int) {
    && LinksOk(h, n, w) && QuorumOk(p, n) && SuspendedOk(n) && PrimaryOk(h, n, net, hist, now)
    && FreshOk(p, h, n, hist, timers, now) && LeaseOk(p, h, n, net, hist, timers, now)
  }

  predicate NodesOk(p: Params, s: Sys) {
    forall h | h in s.nodes :: NodeOk(p, h, s.nodes[h], s.wires, s.net, s.history, s.timers, s.now)
  }

  /** A writer writes at the highest epoch any champion has. */
  predicate OnTop(champions: map<nat, HostId>, n: Node) {
    n.service.writer ==> forall e | e in champions :: e <= n.service.db.epoch
  }

  predicate WritersOnTop(s: Sys) {
    forall h | h in s.nodes :: OnTop(s.history.champions, s.nodes[h])
  }

  ghost predicate TimedInv(p: Params, s: Sys, e0: nat) {
    && FailoverEpochs.EpochInv(p, s, e0) && GraceSuffices(p)
    && ClocksOk(s) && WiresOk(s.wires, s.history) && MessagesOk(s) && ReceiptsOk(p, s)
    && BridgesOk(p, s) && NodesOk(p, s) && WritersOnTop(s)
  }

  predicate AtMostOneWriter(s: Sys) {
    forall g, h | g in s.nodes && h in s.nodes && s.nodes[g].service.writer && s.nodes[h].service.writer :: g == h
  }
}
