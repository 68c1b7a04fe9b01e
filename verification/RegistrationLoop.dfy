/**
  * The closures of `registerRendezvousTargets` as one object: the service, the acknowledgement quorum
  * and the write lease it drives, updated in place by socket events and the one-second loops. Each
  * handler is tied to the function of `Coordinator` that the composed system steps by.
  */
module RegistrationLoop {
  import opened Community
  import opened RegistrationQuorum
  import opened RegistrationObjects
  import opened HostWriter
  import opened HostService
  import opened Coordinator

  class Loop {
    const svc: ServerService
    const ackQuorum: RegistrationAckQuorum<RoundId>
    const writeAuthority: RegistrationWriteAuthorityLease<RoundId>
    var writerObserved: bool
    var round: Option<Publication>
    var links: map<BridgeId, Socket>
    var livenessRoundId: map<BridgeId, RoundId>
    var pendingPublish: map<BridgeId, HostRecord>

    ghost predicate Valid()
      reads this, svc, ackQuorum, writeAuthority
    {
      && ackQuorum.Valid() && writeAuthority.Valid() && writeAuthority.quorum == ackQuorum
      && Ids(ackQuorum.bridgeIds) == svc.boot.configured
    }

    ghost function Value(): Node
      reads this, svc, ackQuorum, writeAuthority
    {
      Node(svc.Value(), ackQuorum.Value(), writeAuthority.lastStrictQuorumAt, writerObserved, round, links, livenessRoundId,
           pendingPublish)
    }

    constructor (svc: ServerService, bridgeIds: seq<BridgeId>, fenceMs: int, now: int)
      requires Configurable(bridgeIds) && Ids(bridgeIds) == svc.boot.configured && fenceMs > 0
      ensures Valid() && this.svc == svc && fresh(ackQuorum) && fresh(writeAuthority) && writeAuthority.timeoutMs == fenceMs
      ensures Value() == Started(svc.Value(), now)
    {
      this.svc := svc;
      var quorum := new RegistrationAckQuorum<RoundId>(bridgeIds);
      ackQuorum := quorum;
      writeAuthority := new RegistrationWriteAuthorityLease<RoundId>(quorum, fenceMs, now);
      writerObserved := svc.writer;
      round := None;
      links := map[];
      livenessRoundId := map[];
      pendingPublish := map[];
    }

    method EnsureRound(now: int)
      requires Valid()
      modifies this, svc, ackQuorum
      ensures Valid() && Value() == Coordinator.EnsureRound(old(Value()), now)
    {
      if round.Some? { return; }
      svc.CreatePrimaryRegistration(now);
      var record := svc.pendingRegistration.value.record;
      round := Some(Publication(record, false, {}));
      ackQuorum.Begin(BindingOf(record));
    }

    /** `publish`, for a connection that has its access token and cursor. */
    method Publish(bridge: BridgeId, now: int)
      requires Valid()
      modifies this, svc, ackQuorum
      ensures Valid() && Value() == Coordinator.Publish(Coordinator.EnsureRound(old(Value()), now), bridge)
    {
      EnsureRound(now);
      if bridge !in links { return; }
      pendingPublish := pendingPublish[bridge := round.value.record];
    }

    /** The lease is only ever asked for by a writer. */
    method ObserveIfWriter(binding: Binding, now: int)
      requires Valid() && writeAuthority.NotBefore(now)
      modifies writeAuthority
      ensures Valid() && writeAuthority.lastStrictQuorumAt == Renewed(old(Value()), binding, now)
    {
      if svc.writer { var _ := writeAuthority.Observe(binding, now); }
    }

    /** The part of the acknowledgement handler after the round in force is committed. */
    method CountAcknowledgement(bridge: BridgeId, granted: bool, now: int)
      requires Valid() && writeAuthority.NotBefore(now) && round.Some? && round.value.committed
      modifies this, svc, ackQuorum, writeAuthority
      ensures Valid()
      ensures Value() ==
        if bridge !in Targets(old(Value())) || old(Value()).quorum.active != Some(BindingOf(old(round).value.record)) then old(Value())
        else Acknowledged(old(Value()), bridge, granted, now)
    {
      var binding := BindingOf(round.value.record);
      var counted := ackQuorum.Acknowledge(bridge, binding);
      if !counted { return; }
      round := Some(round.value.(acked := round.value.acked + {bridge}));
      var resumed := svc.ResumeWriterAfterRegistrationQuorum(binding, round.value.acked, svc.boot.configured, granted);
      if resumed { writerObserved := true; }
      hide MayResume, Resume;
      ObserveIfWriter(binding, now);
    }

    /** A bridge's acknowledgement: of what this connection published, for whatever round is in force. */
    method OnRegisterResult(bridge: BridgeId, record: HostRecord, granted: bool, now: int)
      requires Valid() && writeAuthority.NotBefore(now)
      modifies this, svc, ackQuorum, writeAuthority
      ensures Valid() && Value() == ReceiveAck(old(Value()), bridge, record, granted, now)
    {
      hide Resume, Renewed, Step, Replay;
      if round.None? || bridge !in pendingPublish || pendingPublish[bridge] != record { return; }
      if !round.value.committed {
        if svc.pendingRegistration.None? || svc.pendingRegistration.value.record != round.value.record { return; }
        var _ := svc.CommitPrimaryRegistration(HashOf(round.value.record));
        round := Some(round.value.(committed := true));
      }
      pendingPublish := pendingPublish - {bridge};
      CountAcknowledgement(bridge, granted, now);
    }

    method OnPong(bridge: BridgeId, roundId: RoundId, now: int)
      requires Valid() && writeAuthority.NotBefore(now)
      modifies this, ackQuorum, writeAuthority
      ensures Valid() && Value() == ReceivePong(old(Value()), bridge, roundId, now)
    {
      if round.None? || bridge !in livenessRoundId || livenessRoundId[bridge] != roundId { return; }
      livenessRoundId := livenessRoundId - {bridge};
      AcknowledgedIffCounts(ackQuorum.calls, Ids(ackQuorum.bridgeIds), bridge, BindingOf(round.value.record));
      LivenessRoundIsRunning(ackQuorum.calls, Ids(ackQuorum.bridgeIds), BindingOf(round.value.record), roundId);
      var confirmed := ackQuorum.ConfirmLiveness(bridge, BindingOf(round.value.record), roundId);
      if confirmed { ObserveIfWriter(BindingOf(round.value.record), now); }
    }

    /** The one-second liveness interval; `roundId` is the fresh random id. */
    method BridgeLiveness(roundId: RoundId)
      requires Valid()
      modifies this, ackQuorum
      ensures Valid() && Value() == LivenessTick(old(Value()), roundId)
    {
      if !svc.writer || round.None? { return; }
      var begun := ackQuorum.BeginLivenessRound(BindingOf(round.value.record), Some(roundId));
      if !begun { return; }
      livenessRoundId := map b | b in links :: roundId;
    }

    /** The one-second fence interval. A host it leaves writing has an event of its lease at this very moment. */
    method WriterFence(granted: bool, now: int)
      requires Valid() && writeAuthority.NotBefore(now)
      modifies this, svc, ackQuorum, writeAuthority
      ensures Valid() && Value() == FenceTick(old(Value()), writeAuthority.timeoutMs, granted, now)
      ensures svc.writer ==> writeAuthority.events[|writeAuthority.events| - 1].at == now
    {
      if !svc.writer {
        writerObserved := false;
        if svc.writerResumeEligibility.None? { ackQuorum.Clear(); }
      } else if !writerObserved {
        writerObserved := true;
        writeAuthority.Reset(now);
        ackQuorum.Clear();
        round := None;
      } else {
        var _ := writeAuthority.FenceIfQuorumExpired(svc, granted, now);
      }
    }

    method Renew()
      requires Valid()
      modifies this, svc, ackQuorum
      ensures Valid() && Value() == Heartbeat(old(Value()))
    {
      if round.None? || !round.value.committed { return; }
      svc.AbandonPrimaryRegistration(HashOf(round.value.record));
      round := None;
      ackQuorum.Clear();
    }

    /** `promoteFromWitness` and its `writerPromoted` listener. */
    method Promote(expectedEpoch: nat, bridgeIds: seq<BridgeId>, observations: seq<Observation>, granted: bool, now: int)
      returns (promoted: bool)
      requires Valid() && writeAuthority.NotBefore(now)
      requires if svc.db.replicaTrust.Some? then Ids(bridgeIds) == svc.db.replicaTrust.value else bridgeIds == []
      modifies this, svc, ackQuorum, writeAuthority
      ensures Valid() && promoted == (ListsFit(bridgeIds, observations)
        && MayPromote(old(svc.Value()), expectedEpoch, Ids(ReceiptsOf(observations)), granted, now))
      ensures Value() == if promoted then Win(old(Value()), expectedEpoch, Ids(ReceiptsOf(observations)), granted, now) else old(Value())
    {
      hide MayPromote;
      promoted := svc.PromoteFromWitness(expectedEpoch, bridgeIds, observations, granted, now);
      if !promoted { return; }
      writerObserved := true;
      writeAuthority.Reset(now);
      ackQuorum.Clear();
      round := None;
      pendingPublish := map[];
    }

    method OnHigherEpoch(a: Announcement, accepted: bool, granted: bool, trusted: set<BridgeId>, now: int)
      returns (ghost prior: HostRecord)
      requires Valid()
      modifies this, svc, ackQuorum
      ensures Valid() && Value() == Hear(old(Value()), a, prior, accepted, granted, trusted, now)
    {
      var observed: bool;
      observed, prior := svc.ObserveHigherEpoch(a, accepted, granted, trusted, now);
      if !observed { return; }
      if round.Some? { svc.AbandonPrimaryRegistration(HashOf(round.value.record)); }
      round := None;
      ackQuorum.Clear();
    }

    method OnOpen(s: Socket)
      requires Valid()
      modifies this
      ensures Valid() && Value() == Dial(old(Value()), s)
    {
      links := links[s.bridge := s];
      livenessRoundId := livenessRoundId - {s.bridge};
      pendingPublish := pendingPublish - {s.bridge};
    }

    /** `scheduleReconnect` */
    method ScheduleReconnect(bridge: BridgeId)
      requires Valid()
      modifies this, ackQuorum
      ensures Valid() && Value() == Drop(old(Value()), bridge)
    {
      links := links - {bridge};
      livenessRoundId := livenessRoundId - {bridge};
      ackQuorum.Remove(bridge);
      if round.Some? { round := Some(round.value.(acked := round.value.acked - {bridge})); }
    }
  }
}
