/**
  * The two objects of `registration-quorum.ts`, updated in place. Each keeps a ghost history of its
  * calls; what a caller may conclude from an answer is stated about that history.
  */
module RegistrationObjects {
  import opened Community
  import opened Quorums
  import opened RegistrationQuorum
  import opened HostWriter
  import opened HostService

  /** What the constructor accepts: one to three bridge ids, no two equal. */
  predicate Configurable(bridgeIds: seq<BridgeId>) {
    1 <= |bridgeIds| <= 3 && Distinct(bridgeIds)
  }

  class RegistrationAckQuorum<R(==,!new)> {
    const bridgeIds: seq<BridgeId>
    var activeKey: Option<Binding>
    var acknowledgements: set<BridgeId>
    var activeLivenessRound: Option<R>
    var liveAcknowledgements: set<BridgeId>
    ghost var calls: seq<Call<R>>

    ghost function Value(): Acks<R>
      reads this
    {
      Acks(activeKey, acknowledgements, activeLivenessRound, liveAcknowledgements)
    }

    ghost predicate Valid()
      reads this
    {
      Configurable(bridgeIds) && Value() == Replay(calls, Ids(bridgeIds))
    }

    constructor (bridgeIds: seq<BridgeId>)
      requires Configurable(bridgeIds)
      ensures Valid() && this.bridgeIds == bridgeIds && calls == [] && Value() == Empty()
    {
      this.bridgeIds := bridgeIds;
      activeKey := None;
      acknowledgements := {};
      activeLivenessRound := None;
      liveAcknowledgements := {};
      calls := [];
    }

    /** The constructor's own check, with its exception as `None`. */
    static method Create(bridgeIds: seq<BridgeId>) returns (q: Option<RegistrationAckQuorum<R>>)
      ensures q.Some? <==> Configurable(bridgeIds)
      ensures q.Some? ==> fresh(q.value) && q.value.Valid() && q.value.bridgeIds == bridgeIds && q.value.calls == []
    {
      if |bridgeIds| < 1 || |bridgeIds| > 3 { return None; }
      var seen: set<BridgeId> := {};
      for i := 0 to |bridgeIds|
        invariant seen == Ids(bridgeIds[..i])
        invariant Distinct(bridgeIds[..i])
      {
        if bridgeIds[i] in seen {
          assert exists j | 0 <= j < i :: bridgeIds[j] == bridgeIds[i];
          return None;
        }
        seen := seen + {bridgeIds[i]};
      }
      var made := new RegistrationAckQuorum<R>(bridgeIds);
      return Some(made);
    }

    ghost predicate Took(before: seq<Call<R>>, c: Call<R>)
      reads this
    {
      calls == before + [c]
    }

    method Begin(binding: Binding)
      requires Valid()
      modifies this
      ensures Valid() && Took(old(calls), Call.Begin(binding))
    {
      calls := calls + [Call.Begin(binding)];
      if activeKey == Some(binding) { return; }
      activeKey := Some(binding);
      acknowledgements := {};
      activeLivenessRound := None;
      liveAcknowledgements := {};
    }

    method Acknowledge(bridgeId: BridgeId, binding: Binding) returns (accepted: bool)
      requires Valid()
      modifies this
      ensures Valid() && Took(old(calls), Call.Acknowledge(bridgeId, binding))
      ensures accepted <==> bridgeId in bridgeIds && old(activeKey) == Some(binding)
    {
      calls := calls + [Call.Acknowledge(bridgeId, binding)];
      if bridgeId !in bridgeIds || activeKey != Some(binding) { return false; }
      acknowledgements := acknowledgements + {bridgeId};
      liveAcknowledgements := liveAcknowledgements + {bridgeId};
      return true;
    }

    /** An empty round id, here `None`, is refused before anything else is looked at. */
    method BeginLivenessRound(binding: Binding, roundId: Option<R>) returns (accepted: bool)
      requires Valid()
      modifies this
      ensures Valid() && (if roundId.Some? then Took(old(calls), Call.BeginLiveness(binding, roundId.value)) else calls == old(calls))
      ensures accepted <==> roundId.Some? && old(activeKey) == Some(binding)
    {
      if roundId.None? { return false; }
      calls := calls + [Call.BeginLiveness(binding, roundId.value)];
      if activeKey != Some(binding) { return false; }
      activeLivenessRound := roundId;
      liveAcknowledgements := {};
      return true;
    }

    method ConfirmLiveness(bridgeId: BridgeId, binding: Binding, roundId: R) returns (accepted: bool)
      requires Valid()
      modifies this
      ensures Valid() && Took(old(calls), Call.ConfirmLiveness(bridgeId, binding, roundId))
      ensures accepted <==> Counts(old(calls), Ids(bridgeIds), bridgeId, binding) && Running(old(calls), binding, roundId)
    {
      AcknowledgedIffCounts(calls, Ids(bridgeIds), bridgeId, binding);
      LivenessRoundIsRunning(calls, Ids(bridgeIds), binding, roundId);
      calls := calls + [Call.ConfirmLiveness(bridgeId, binding, roundId)];
      if activeKey != Some(binding) || activeLivenessRound != Some(roundId) || bridgeId !in acknowledgements { return false; }
      liveAcknowledgements := liveAcknowledgements + {bridgeId};
      return true;
    }

    method Clear()
      requires Valid()
      modifies this
      ensures Valid() && Took(old(calls), Call.Clear) && Value() == Empty()
    {
      calls := calls + [Call.Clear];
      activeKey := None;
      acknowledgements := {};
      activeLivenessRound := None;
      liveAcknowledgements := {};
    }

    method Remove(bridgeId: BridgeId)
      requires Valid()
      modifies this
      ensures Valid() && Took(old(calls), Call.Remove(bridgeId))
    {
      calls := calls + [Call.Remove(bridgeId)];
      acknowledgements := acknowledgements - {bridgeId};
      liveAcknowledgements := liveAcknowledgements - {bridgeId};
    }

    /** A strict quorum is a strict majority of the configured bridges, each of which acknowledged exactly this round. */
    method HasStrictQuorum(binding: Binding) returns (strict: bool)
      requires Valid()
      ensures strict <==> exists q: set<BridgeId> ::
        StrictMajority(q, Ids(bridgeIds)) && forall id | id in q :: Counts(calls, Ids(bridgeIds), id, binding)
    {
      strict := activeKey == Some(binding) && |acknowledgements| >= |bridgeIds| / 2 + 1;
      StrictMeansCounted(calls, bridgeIds, binding, activeKey, acknowledgements, strict);
    }

    /** The same for fresh evidence. */
    method HasStrictLiveQuorum(binding: Binding) returns (strict: bool)
      requires Valid()
      ensures strict <==> HasStrictLiveQuorumValue(calls, Ids(bridgeIds), binding)
    {
      DistinctIffSize(bridgeIds);
      strict := activeKey == Some(binding) && |liveAcknowledgements| >= |bridgeIds| / 2 + 1;
    }
  }

  ghost predicate HasStrictLiveQuorumValue<R>(calls: seq<Call<R>>, ids: set<BridgeId>, binding: Binding) {
    RegistrationQuorum.HasStrictLiveQuorum(Replay(calls, ids), ids, binding)
  }

  lemma StrictMeansCounted<R(!new)>(calls: seq<Call<R>>, bridgeIds: seq<BridgeId>, binding: Binding,
                           active: Option<Binding>, acknowledged: set<BridgeId>, strict: bool)
    requires Configurable(bridgeIds)
    requires Replay(calls, Ids(bridgeIds)).active == active && Replay(calls, Ids(bridgeIds)).acknowledged == acknowledged
    requires strict <==> active == Some(binding) && |acknowledged| >= |bridgeIds| / 2 + 1
    ensures strict <==> exists q: set<BridgeId> ::
      StrictMajority(q, Ids(bridgeIds)) && forall id | id in q :: Counts(calls, Ids(bridgeIds), id, binding)
  {
    var ids := Ids(bridgeIds);
    DistinctIffSize(bridgeIds);
    LiveWithinAcknowledgedWithinConfigured(calls, ids);
    forall id ensures active == Some(binding) && id in acknowledged <==> Counts(calls, ids, id, binding) {
      AcknowledgedIffCounts(calls, ids, id, binding);
    }
    if strict {
      assert StrictMajority(acknowledged, ids);
    }
    if q: set<BridgeId> :| StrictMajority(q, ids) && forall id | id in q :: Counts(calls, ids, id, binding) {
      var any := MajoritiesMeet(q, q, ids);
      assert Counts(calls, ids, any, binding);
      assert q <= acknowledged;
      SubsetSize(q, acknowledged);
    }
  }

  /** Fresh evidence in the same sense: every bridge of the live set counts live in the history. */
  lemma LiveQuorumMeansEvidence<R(!new)>(calls: seq<Call<R>>, ids: set<BridgeId>, binding: Binding)
    requires HasStrictLiveQuorumValue(calls, ids, binding)
    ensures StrictMajority(Replay(calls, ids).live, ids)
    ensures forall id | id in Replay(calls, ids).live :: CountsLive(calls, ids, id, binding)
  {
    LiveWithinAcknowledgedWithinConfigured(calls, ids);
    forall id | id in Replay(calls, ids).live ensures CountsLive(calls, ids, id, binding) {
      LiveIffCountsLive(calls, ids, id, binding);
    }
  }

  // ---------------------------------------------------------------- the write lease

  /** A renewal at a strict live quorum or a reset; or a fence poll that found the lease still running. */
  datatype LeaseEvent = Proof(at: int) | Passed(at: int)

  /** `timeoutMs` is `primaryFenceMs`, which the registration loop computes once, at least five seconds. */
  class RegistrationWriteAuthorityLease<R(==,!new)> {
    const quorum: RegistrationAckQuorum<R>
    const timeoutMs: int
    var lastStrictQuorumAt: int
    ghost var events: seq<LeaseEvent>

    ghost predicate Valid()
      reads this
    {
      && timeoutMs > 0
      && HasProof(events) && lastStrictQuorumAt == LastProof(events)
      && InOrder(events) && PolledBy(events, timeoutMs)
    }

    /** The monotonic clock has not gone back since the last event. */
    ghost predicate NotBefore(now: int)
      reads this
    {
      forall i | 0 <= i < |events| :: events[i].at <= now
    }

    constructor (quorum: RegistrationAckQuorum<R>, timeoutMs: int, initialProofAt: int)
      requires timeoutMs > 0
      ensures Valid() && this.quorum == quorum && this.timeoutMs == timeoutMs && events == [Proof(initialProofAt)]
    {
      this.quorum := quorum;
      this.timeoutMs := timeoutMs;
      lastStrictQuorumAt := initialProofAt;
      events := [Proof(initialProofAt)];
    }

    method Reset(now: int)
      requires Valid() && NotBefore(now)
      modifies this
      ensures Valid() && events == old(events) + [Proof(now)]
    {
      EventAppended(events, Proof(now), timeoutMs);
      events := events + [Proof(now)];
      lastStrictQuorumAt := now;
    }

    /** Only a strict live quorum renews the lease. */
    method Observe(binding: Binding, now: int) returns (renewed: bool)
      requires Valid() && quorum.Valid() && NotBefore(now)
      modifies this
      ensures Valid() && renewed == HasStrictLiveQuorumValue(quorum.calls, Ids(quorum.bridgeIds), binding)
      ensures events == if renewed then old(events) + [Proof(now)] else old(events)
    {
      var strict := quorum.HasStrictLiveQuorum(binding);
      if !strict { return false; }
      EventAppended(events, Proof(now), timeoutMs);
      events := events + [Proof(now)];
      lastStrictQuorumAt := now;
      return true;
    }

    method ShouldFence(now: int) returns (expired: bool)
      requires Valid()
      ensures expired <==> now - LastProof(events) >= timeoutMs
    {
      expired := now - lastStrictQuorumAt >= timeoutMs;
    }

    /** The callback is `fencePrimaryWriter`; it is called only once the lease has run out. */
    method FenceIfQuorumExpired(svc: ServerService, granted: bool, now: int) returns (fenced: bool)
      requires Valid() && NotBefore(now)
      modifies this, svc
      ensures Valid() && fenced == (now - LastProof(old(events)) >= timeoutMs && ActsAsPrimary(old(svc.Value())))
      ensures svc.Value() == if now - LastProof(old(events)) >= timeoutMs then Fence(old(svc.Value()), granted) else old(svc.Value())
      ensures events == if now - LastProof(old(events)) >= timeoutMs then old(events) else old(events) + [Passed(now)]
    {
      var expired := ShouldFence(now);
      if expired {
        fenced := svc.FencePrimaryWriter(granted);
      } else {
        EventAppended(events, Passed(now), timeoutMs);
        events := events + [Passed(now)];
        fenced := false;
      }
    }
  }

  predicate HasProof(events: seq<LeaseEvent>) {
    events != [] && events[0].Proof?
  }

  /** The moment of the last renewal or reset. */
  function LastProof(events: seq<LeaseEvent>): int
    requires HasProof(events)
  {
    var n := |events| - 1;
    if events[n].Proof? then events[n].at else LastProof(events[..n])
  }

  predicate InOrder(events: seq<LeaseEvent>) {
    forall j, k | 0 <= j <= k < |events| :: events[j].at <= events[k].at
  }

  /** Every poll that let the writer go on came less than `fence` after the last renewal before it. */
  predicate PolledBy(events: seq<LeaseEvent>, fence: int) {
    forall i | 0 <= i < |events| && events[i].Passed? :: HasProof(events[..i]) && events[i].at - LastProof(events[..i]) < fence
  }

  /** A renewal may come at any later moment, a passed poll only while the lease runs. */
  lemma EventAppended(events: seq<LeaseEvent>, e: LeaseEvent, fence: int)
    requires HasProof(events) && InOrder(events) && PolledBy(events, fence)
    requires forall i | 0 <= i < |events| :: events[i].at <= e.at
    requires e.Passed? ==> e.at - LastProof(events) < fence
    ensures HasProof(events + [e]) && InOrder(events + [e]) && PolledBy(events + [e], fence)
    ensures LastProof(events + [e]) == if e.Proof? then e.at else LastProof(events)
  {
    assert (events + [e])[..|events|] == events;
    forall i | 0 <= i < |events| ensures (events + [e])[..i] == events[..i] {
    }
  }

  lemma {:induction false} LastProofIsThere(events: seq<LeaseEvent>) returns (i: nat)
    requires HasProof(events)
    ensures i < |events| && events[i] == Proof(LastProof(events)) && forall j | i < j < |events| :: events[j].Passed?
    decreases |events|
  {
    var n := |events| - 1;
    if events[n].Proof? { i := n; } else { i := LastProofIsThere(events[..n]); }
  }

  /**
    * Over every history of a lease: if its last event, a renewal or a poll that let the writer go on,
    * is no longer than `poll` ago, then a strict live quorum or a reset lies less than
    * `timeoutMs + poll` back.
    */
  lemma PolledWriterSawQuorum<R(!new)>(lease: RegistrationWriteAuthorityLease<R>, poll: int, now: int) returns (i: nat)
    requires lease.Valid() && lease.NotBefore(now)
    requires now - lease.events[|lease.events| - 1].at <= poll
    ensures i < |lease.events| && lease.events[i].Proof? && now - lease.timeoutMs - poll < lease.events[i].at <= now
    ensures lease.lastStrictQuorumAt == lease.events[i].at
  {
    var events := lease.events;
    i := LastProofIsThere(events);
    var n := |events| - 1;
    if events[n].Passed? {
      assert events[n].at - LastProof(events[..n]) < lease.timeoutMs;
    }
  }
}
