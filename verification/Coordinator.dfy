/**
  * `registerRendezvousTargets` of `apps/janjanode/src/main.ts`: one registration round at a time,
  * acknowledgements and pongs that renew the write lease, and the one-second loops that start
  * liveness rounds and fence a writer whose lease ran out.
  */
module Coordinator {
  import opened Community
  import opened RegistrationQuorum
  import opened HostWriter

  /** A random liveness round id, identified by the tick that drew it. */
  datatype RoundId = RoundId(host: HostId, startedAt: int, serial: nat)

  datatype Publication = Publication(record: HostRecord, committed: bool, acked: set<BridgeId>)

  /** `published` holds the record of each connection's `pendingPublish`, while it is a current one. */
  datatype Node = Node(
    service: Host, quorum: Acks<RoundId>, lease: int, observed: bool, round: Option<Publication>,
    links: map<BridgeId, Socket>, awaiting: map<BridgeId, RoundId>, published: map<BridgeId, HostRecord>)

  function Targets(n: Node): set<BridgeId> { n.service.boot.configured }

  function BindingOf(r: HostRecord): Binding {
    Binding(HashOf(r), r.epoch, r.role)
  }

  /** A fresh process: no sockets, no round, and a lease that starts now. */
  function Started(service: Host, now: int): Node {
    Node(service, Empty(), now, service.writer, None, map[], map[], map[])
  }

  /** `ensureRound` */
  function EnsureRound(n: Node, now: int): Node {
    if n.round.Some? then n
    else
      var service := CreateRecord(n.service, now);
      var record := service.pending.value.record;
      n.(service := service, round := Some(Publication(record, false, {})),
         quorum := Step(n.quorum, Targets(n), Begin(BindingOf(record))))
  }

  /** `publish` once there is a round: the connection now waits for an answer to this very record. */
  function Publish(n: Node, bridge: BridgeId): Node {
    if n.round.None? || bridge !in n.links then n
    else n.(published := n.published[bridge := n.round.value.record])
  }

  /** `RegistrationWriteAuthorityLease.observe`, asked only by a writer. */
  function Renewed(n: Node, b: Binding, now: int): int {
    if n.service.writer && HasStrictLiveQuorum(n.quorum, Targets(n), b) then now else n.lease
  }

  predicate Committable(n: Node)
    requires n.round.Some?
  {
    n.round.value.committed || (n.service.pending.Some? && n.service.pending.value.record == n.round.value.record)
  }

  /** The answer is to what this connection published last, and the round there is now can be committed. */
  predicate AnswersPublication(n: Node, bridge: BridgeId, record: HostRecord) {
    n.round.Some? && bridge in n.published && n.published[bridge] == record && Committable(n)
  }

  /**
    * A bridge's `register.result` for `record`. It is matched against what the connection published, but
    * what it commits and counts for is the round in force, which need not be the one it was published for.
    */
  function ReceiveAck(n: Node, bridge: BridgeId, record: HostRecord, granted: bool, now: int): Node {
    if !AnswersPublication(n, bridge, record) then n
    else
      var current := n.round.value.record;
      var committed := if n.round.value.committed then n.service else CommitRecord(n.service, HashOf(current));
      var spent := n.(service := committed, round := Some(n.round.value.(committed := true)), published := n.published - {bridge});
      if bridge !in Targets(n) || n.quorum.active != Some(BindingOf(current)) then spent
      else Acknowledged(spent, bridge, granted, now)
  }

  function Acknowledged(n: Node, bridge: BridgeId, granted: bool, now: int): Node
    requires n.round.Some?
  {
    var binding, acked := BindingOf(n.round.value.record), n.round.value.acked + {bridge};
    var service := Resume(n.service, binding, acked, Targets(n), granted);
    var counted := n.(service := service, quorum := Step(n.quorum, Targets(n), Acknowledge(bridge, binding)),
                      round := Some(n.round.value.(acked := acked)),
                      observed := n.observed || (service.writer && !n.service.writer));
    counted.(lease := Renewed(counted, binding, now))
  }

  /**
    * Which record the bridge acknowledged does not matter: an answer to what the connection published,
    * were it long superseded, commits the record of the round in force and counts for that.
    */
  lemma StaleAckCounts(n: Node, bridge: BridgeId, record: HostRecord, granted: bool, now: int)
    requires AnswersPublication(n, bridge, record) && bridge in Targets(n)
    requires n.quorum.active == Some(BindingOf(n.round.value.record))
    ensures var n' := ReceiveAck(n, bridge, record, granted, now); var current := n.round.value.record;
      && n'.round == Some(Publication(current, true, n.round.value.acked + {bridge})) && bridge in n'.quorum.live
      && n'.service.db.chain.Keys >= n.service.db.chain.Keys && bridge !in n'.published
      && (!n.round.value.committed && !n.service.pending.value.committed ==> n'.service.db.recordHash == HashOf(current))
  {
    hide MayResume, CurrentFloor;
  }

  /** The pong handler of the socket currently connected to `bridge`. */
  function ReceivePong(n: Node, bridge: BridgeId, round: RoundId, now: int): Node {
    if n.round.None? || bridge !in n.awaiting || n.awaiting[bridge] != round then n
    else
      var binding := BindingOf(n.round.value.record);
      var counted := n.(quorum := Step(n.quorum, Targets(n), ConfirmLiveness(bridge, binding, round)), awaiting := n.awaiting - {bridge});
      if n.quorum.active == Some(binding) && n.quorum.livenessRound == Some(round) && bridge in n.quorum.acknowledged
      then counted.(lease := Renewed(counted, binding, now))
      else counted
  }

  /** The `bridgeLiveness` interval. */
  function LivenessTick(n: Node, round: RoundId): Node {
    if !n.service.writer || n.round.None? || n.quorum.active != Some(BindingOf(n.round.value.record)) then n
    else n.(quorum := Step(n.quorum, Targets(n), BeginLiveness(BindingOf(n.round.value.record), round)),
            awaiting := map b | b in n.links :: round)
  }

  /** The `writerFence` interval. */
  function FenceTick(n: Node, fenceMs: int, granted: bool, now: int): Node {
    if !n.service.writer then
      n.(observed := false, quorum := if n.service.resume.Some? then n.quorum else Empty())
    else if !n.observed then
      n.(observed := true, lease := now, quorum := Empty(), round := None)
    else if now - n.lease >= fenceMs then
      n.(service := Fence(n.service, granted))
    else n
  }

  function Forgotten(n: Node): Host {
    if n.round.Some? then AbandonRecord(n.service, HashOf(n.round.value.record)) else n.service
  }

  /** The renewal heartbeat: a committed round is abandoned so that the next publication signs a new one. */
  function Heartbeat(n: Node): Node {
    if n.round.None? || !n.round.value.committed then n
    else n.(service := Forgotten(n), round := None, quorum := Empty())
  }

  /** `promoteFromWitness` and, in the same turn, its `writerPromoted` listener `publishPromotedWriter`. */
  function Win(n: Node, expectedEpoch: nat, votes: set<Receipt>, granted: bool, now: int): Node {
    var service := Promote(n.service, expectedEpoch, votes, granted, now);
    if service == n.service then n
    else n.(service := service, observed := true, lease := now, round := None, quorum := Empty(), published := map[])
  }

  /** A `host.epoch` frame or a rejection that carries a higher registration. */
  function Hear(n: Node, a: Announcement, prior: HostRecord, accepted: bool, granted: bool, trusted: set<BridgeId>, now: int): Node {
    if !MayObserve(n.service, a, prior, accepted, granted, trusted, now) then n
    else n.(service := Observe(n.service, a, prior, accepted, granted, trusted, now), round := None, quorum := Empty())
  }

  /** A connection opens: nothing is expected of the new socket yet. */
  function Dial(n: Node, s: Socket): Node {
    n.(links := n.links[s.bridge := s], awaiting := n.awaiting - {s.bridge}, published := n.published - {s.bridge})
  }

  /** `scheduleReconnect`: the bridge no longer counts for anything. */
  function Drop(n: Node, bridge: BridgeId): Node {
    n.(links := n.links - {bridge}, awaiting := n.awaiting - {bridge},
       quorum := Step(n.quorum, Targets(n), Remove(bridge)),
       round := if n.round.Some? then Some(n.round.value.(acked := n.round.value.acked - {bridge})) else None)
  }
}
