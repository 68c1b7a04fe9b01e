/** What each step of a host keeps of the timed invariant: links, acknowledgements, fresh evidence and the lease. */
module TimedHosts {
  import opened Community
  import opened Quorums
  import opened Bridge
  import opened WitnessFloor
  import opened HostWriter
  import opened Coordinator
  import opened Failover
  import opened TimedSystem
  import FailoverEpochs
  import HostRuns
  import RegistrationQuorum

  /** `n'` writes only if `n` did, at the same epoch and under a lease at least as late. */
  predicate NoNewWriter(n: Node, n': Node) {
    n'.service.writer ==> n.service.writer && n'.service.db.epoch == n.service.db.epoch
  }

  /** After a reboot with two or three bridges nobody writes before a quorum has acknowledged it. */
  lemma RebootSuspends(p: Params, h: HostId, x: Host, granted: bool)
    requires ParamsOk(p) && HostFits(p, h, x)
    ensures !Restore(x.boot, x.db, false, granted).writer
  {
    var b, db := x.boot, x.db;
    if granted && db.row.Some? && RowUsable(db.row.value, b, db.epoch) && db.row.value.state.RowWriter? {
      HostRuns.ConfiguredSetIsInFloor(b, db, AsCandidates(db.row.value.floor.sets));
    }
  }

  lemma NobodyStartsWriting(p: Params, s: Sys, t: Step, n: Node)
    requires IsHostStep(t) && t.host in s.nodes && n == s.nodes[t.host]
    requires !t.WinElection? && (t.GetAck? ==> !Resumes(p, s, t)) && ParamsOk(p) && HostFits(p, t.host, n.service)
    ensures NoNewWriter(n, NodeAfter(p, n, t, s.now))
  {
    hide HostFits, ParamsOk;
    if t.RebootHost? {
      RebootSuspends(p, t.host, n.service, t.granted);
    }
  }

  // ---------------------------------------------------------------- steps that touch no link and no quorum

  /** Nothing the invariant speaks of changed, except that the host may have stopped acting as primary. */
  predicate Quieter(n: Node, n': Node) {
    && NoNewWriter(n, n') && n'.links == n.links && n'.lease == n.lease && n'.published == n.published
    && (n'.service.writer ==> n'.observed == n.observed)
    && (ActsAsPrimary(n'.service) ==>
        && n'.service.resume == n.service.resume && n'.service.writer == n.service.writer
        && n'.service.db.epoch == n.service.db.epoch && (RecordsOk(n) ==> RecordsOk(n')))
    && ((n'.quorum == RegistrationQuorum.Empty() && n'.round.None?) || (n'.quorum == n.quorum && n'.round == n.round))
  }

  lemma QuieterIsOk(p: Params, h: HostId, n: Node, n': Node, w: Wires, net: Net, hist: History, timers: Timers, now: int)
    requires NodeOk(p, h, n, w, net, hist, timers, now) && Quieter(n, n')
    ensures NodeOk(p, h, n', w, net, hist, timers, now)
  {
    hide RenewalsOk, AckedLine, Served, RecordsOk, StartOk;
  }

  lemma QuietStep(p: Params, n: Node, t: Step, now: int)
    requires t.Renew? || t.HearEpoch? || t.SyncReplica? || t.EnrollReplica? || t.Answer?
    requires t.SyncReplica? ==> CleanSync(p, n.service, t.snapshot)
    ensures Quieter(n, NodeAfter(p, n, t, now))
  {
    hide Heartbeat, Hear, Enroll, ApplySnapshot, CleanSync, Quieter;
    match t {
      case Renew(_) => RenewedIsQuieter(n);
      case HearEpoch(_, a, prior, accepted, granted, trusted) => HeardIsQuieter(n, a, prior, accepted, granted, trusted, now);
      case SyncReplica(_, snap) => SyncedIsQuieter(p, n, snap);
      case EnrollReplica(_, promotable, witnesses, access) => EnrolledIsQuieter(n, promotable, witnesses, access);
      case Answer(_, _, _) => SameIsQuieter(n);
    }
  }

  lemma SameIsQuieter(n: Node)
    ensures Quieter(n, n)
  {
  }

  lemma RenewedIsQuieter(n: Node)
    ensures Quieter(n, Heartbeat(n))
  {
  }

  lemma HeardIsQuieter(n: Node, a: Announcement, prior: HostRecord, accepted: bool, granted: bool, trusted: set<BridgeId>, now: int)
    ensures Quieter(n, Hear(n, a, prior, accepted, granted, trusted, now))
  {
    hide MayObserve, Persist, RecordsOk;
  }

  lemma EnrolledIsQuieter(n: Node, promotable: bool, witnesses: set<BridgeId>, access: set<BridgeId>)
    ensures Quieter(n, n.(service := Enroll(n.service, promotable, witnesses, access)))
  {
    hide CurrentFloor;
  }

  lemma SyncedIsQuieter(p: Params, n: Node, snap: Snapshot)
    requires CleanSync(p, n.service, snap)
    ensures Quieter(n, n.(service := ApplySnapshot(n.service, snap)))
  {
  }

  lemma SignedIsOk(p: Params, h: HostId, n: Node, w: Wires, net: Net, hist: History, timers: Timers, now: int)
    requires NodeOk(p, h, n, w, net, hist, timers, now)
    ensures NodeOk(p, h, EnsureRound(n, now), w, net, hist, timers, now)
  {
    hide RenewalsOk, AckedLine, Served, StartOk;
  }

  lemma PublishedIsOk(p: Params, h: HostId, n: Node, b: BridgeId, w: Wires, net: Net, hist: History, timers: Timers, now: int)
    requires NodeOk(p, h, n, w, net, hist, timers, now)
    ensures NodeOk(p, h, Publish(n, b), w, net, hist, timers, now)
  {
    hide RenewalsOk, AckedLine, Served, StartOk;
  }

  lemma DroppedIsOk(p: Params, h: HostId, n: Node, b: BridgeId, w: Wires, net: Net, hist: History, timers: Timers, now: int)
    requires NodeOk(p, h, n, w, net, hist, timers, now)
    ensures NodeOk(p, h, Drop(n, b), w, net, hist, timers, now)
  {
    hide RenewalsOk, AckedLine, Served, StartOk;
  }

  lemma DialledIsOk(p: Params, h: HostId, n: Node, k: Socket, w: Wires, net: Net, hist: History, timers: Timers, now: int)
    requires NodeOk(p, h, n, w, net, hist, timers, now) && k.host == h && k.bridge !in n.links
    requires forall m | m in net.acks :: m.socket != k
    ensures NodeOk(p, h, Dial(n, k), w.(newest := w.newest[Line(h, k.bridge) := k]), net, hist, timers, now)
  {
    hide RenewalsOk, AckedLine, Served, StartOk;
  }

  lemma RebootedIsOk(p: Params, h: HostId, service: Host, w: Wires, net: Net, hist: History, timers: Timers, now: int)
    requires !service.writer && service.pending.None?
    ensures NodeOk(p, h, Started(service, now), w, net, hist, timers, now)
  {
  }

  /** The fence poll: a writer it leaves writing has a lease younger than `fence`. */
  lemma PolledIsOk(p: Params, h: HostId, n: Node, granted: bool, w: Wires, net: Net, hist: History, timers: Timers, now: int)
    requires NodeOk(p, h, n, w, net, hist, timers, now)
    ensures NodeOk(p, h, FenceTick(n, p.fence, granted, now), w, net, hist, timers.(polled := timers.polled[h := now]), now)
  {
    hide RenewalsOk, AckedLine, Served, StartOk;
  }

  /** A liveness round: everything counted so far is wiped, so nothing older than the round counts. */
  lemma PulsedIsOk(p: Params, h: HostId, n: Node, r: RoundId, w: Wires, net: Net, hist: History, timers: Timers, now: int)
    requires NodeOk(p, h, n, w, net, hist, timers, now) && r.startedAt == now && GraceSuffices(p)
    ensures NodeOk(p, h, LivenessTick(n, r), w, net, hist, timers.(pulsed := timers.pulsed[h := now]), now)
  {
    hide RenewalsOk, AckedLine, Served, StartOk;
  }

  // ---------------------------------------------------------------- fresh evidence and renewals

  /** One more bridge counts as live, on evidence `at`; the recorded evidence of the others is untouched. */
  predicate Counted(p: Params, h: HostId, n: Node, n': Node, b: BridgeId, at: int, hist: History, timers: Timers, now: int) {
    && NoNewWriter(n, n') && n'.observed == n.observed && n'.links == n.links
    && (ActsAsPrimary(n'.service) ==> ActsAsPrimary(n.service) && Contact(b, h, at) in hist.contacts && at <= now)
    && n'.quorum.active == n.quorum.active && n'.quorum.livenessRound == n.quorum.livenessRound
    && n'.quorum.active.Some? && n'.round.Some? && n'.quorum.active.value == BindingOf(n'.round.value.record)
    && n'.quorum.live <= n'.quorum.acknowledged <= W(p) && n'.quorum.acknowledged <= n'.links.Keys
    && n'.quorum.live == n.quorum.live + {b}
    && n'.service.boot.configured == W(p)
    && n'.lease == (if LiveQuorum(n') then now else n.lease)
    && (n.service.writer ==> h in timers.pulsed && Fresh(p, at, timers.pulsed[h], now) && at >= now - Max(p.period, p.delay))
  }

  lemma CountedIsLive(p: Params, h: HostId, n: Node, n': Node, b: BridgeId, at: int, hist: History, timers: Timers, now: int)
    requires ActsAsPrimary(n.service) ==> ServedOk(h, n, hist, now)
    requires FreshOk(p, h, n, hist, timers, now) && Counted(p, h, n, n', b, at, hist, timers, now)
    ensures var seen := hist.(evidence := hist.evidence[Line(h, b) := at]);
      (ActsAsPrimary(n'.service) ==> ServedOk(h, n', seen, now)) && FreshOk(p, h, n', seen, timers, now)
  {
  }

  function EvidenceOfLive(h: HostId, n: Node, hist: History): map<BridgeId, int> {
    map b | b in n.quorum.live && Line(h, b) in hist.evidence :: hist.evidence[Line(h, b)]
  }

  /** A renewal is backed by a strict majority that served the host within one liveness period and one delay. */
  lemma RenewalIsBacked(p: Params, h: HostId, n: Node, hist: History, timers: Timers, before: int, sender: BridgeId, now: int)
    requires ServedOk(h, n, hist, now) && FreshOk(p, h, n, hist, timers, now) && LiveQuorum(n)
    requires n.service.boot.configured == W(p) && n.quorum.live <= W(p)
    requires sender in n.quorum.live && Line(h, sender) in hist.evidence && hist.evidence[Line(h, sender)] >= now - Max(p.period, p.delay)
    requires before <= now < before + p.fence + p.poll
    ensures RenewalOk(p, h, before, Renewal(now, EvidenceOfLive(h, n, hist)), hist.contacts)
  {
    assert forall b | b in n.quorum.live :: Served(h, b, hist, now);
    var r := Renewal(now, EvidenceOfLive(h, n, hist));
    assert r.evidence.Keys == n.quorum.live;
    assert sender in r.evidence && r.at - Max(p.period, p.delay) <= r.evidence[sender];
  }

  lemma RenewalsGrow(p: Params, h: HostId, rs: seq<Renewal>, r: Renewal, contacts: set<Contact>)
    requires RenewalsOk(p, h, rs, contacts) && RenewalOk(p, h, rs[|rs| - 1].at, r, contacts)
    ensures RenewalsOk(p, h, rs + [r], contacts)
  {
    hide RenewalOk;
    var all := rs + [r];
    forall k | 1 <= k < |all| ensures RenewalOk(p, h, all[k - 1].at, all[k], contacts) {
      if k < |rs| {
        assert RenewalOk(p, h, rs[k - 1].at, rs[k], contacts);
      }
    }
  }

  lemma NotingStarts(p: Params, h: HostId, epoch: nat, r: Renewal, net: Net, hist: History, hist': History)
    requires StartOk(p, h, epoch, r, net, hist)
    requires hist'.began == hist.began && hist'.contacts == hist.contacts && hist'.absences == hist.absences
    ensures StartOk(p, h, epoch, r, net, hist')
  {
  }

  lemma CountedKeepsLease(p: Params, h: HostId, n: Node, n': Node, b: BridgeId, at: int, net: Net, hist: History, timers: Timers, now: int)
    requires ActsAsPrimary(n.service) ==> ServedOk(h, n, hist, now)
    requires FreshOk(p, h, n, hist, timers, now) && LeaseOk(p, h, n, net, hist, timers, now) && GraceSuffices(p)
    requires Counted(p, h, n, n', b, at, hist, timers, now) && h in timers.polled && timers.polled[h] <= now
    ensures LeaseOk(p, h, n', net, NoteEvidence(hist, h, b, at, n.service.writer, n', now), timers, now)
  {
    hide StartOk;
    var seen := hist.(evidence := hist.evidence[Line(h, b) := at]);
    var noted := NoteEvidence(hist, h, b, at, n.service.writer, n', now);
    if n'.service.writer {
      NotingStarts(p, h, n.service.db.epoch, hist.renewals[h][0], net, hist, noted);
      if LiveQuorum(n') {
        CountedIsLive(p, h, n, n', b, at, hist, timers, now);
        var rs := hist.renewals[h];
        var r := Renewal(now, EvidenceOfLive(h, n', seen));
        RenewalIsBacked(p, h, n', seen, timers, n.lease, b, now);
        RenewalsGrow(p, h, rs, r, seen.contacts);
        assert NoteRenewal(seen, h, true, n', now).renewals[h] == rs + [r];
      }
    }
  }

  /** What a counted message leaves of the connections and records of a host that acts as primary. */
  predicate StillPrimary(h: HostId, n': Node, net: Net, hist: History, now: int) {
    ActsAsPrimary(n'.service) ==> AckedOk(n', hist, now) && AcksOk(h, n', net, hist) && RecordsOk(n')
  }

  lemma CountedIsOk(p: Params, h: HostId, n: Node, n': Node, b: BridgeId, at: int, w: Wires, net: Net, hist: History, timers: Timers, now: int)
    requires NodeOk(p, h, n, w, net, hist, timers, now) && GraceSuffices(p)
    requires Counted(p, h, n, n', b, at, hist, timers, now) && h in timers.polled && timers.polled[h] <= now
    requires StillPrimary(h, n', net, hist, now) && SuspendedOk(n')
    ensures NodeOk(p, h, n', w, net, NoteEvidence(hist, h, b, at, n.service.writer, n', now), timers, now)
  {
    CountedIsLive(p, h, n, n', b, at, hist, timers, now);
    CountedKeepsLease(p, h, n, n', b, at, net, hist, timers, now);
    NotedParts(p, h, n', b, at, n.service.writer, net, hist, timers, now);
    hide LeaseOk, AckedLine, Served, SuspendedOk, NoteEvidence, StillPrimary, FreshOk, PrimaryOk;
  }

  lemma NotedParts(p: Params, h: HostId, n': Node, b: BridgeId, at: int, wrote: bool, net: Net, hist: History, timers: Timers, now: int)
    requires StillPrimary(h, n', net, hist, now)
    requires var seen := hist.(evidence := hist.evidence[Line(h, b) := at]);
      (ActsAsPrimary(n'.service) ==> ServedOk(h, n', seen, now)) && FreshOk(p, h, n', seen, timers, now)
    ensures var noted := NoteEvidence(hist, h, b, at, wrote, n', now);
      PrimaryOk(h, n', net, noted, now) && FreshOk(p, h, n', noted, timers, now)
  {
    hide LiveQuorum, RecordsOk;
    var seen := hist.(evidence := hist.evidence[Line(h, b) := at]);
    var noted := NoteEvidence(hist, h, b, at, wrote, n', now);
    assert noted == seen.(renewals := noted.renewals);
    if ActsAsPrimary(n'.service) {
      forall q | q in n'.quorum.acknowledged ensures AckedLine(n'.links[q], noted, now) { assert AckedLine(n'.links[q], hist, now); }
      forall q | q in n'.quorum.live ensures Served(h, q, noted, now) { assert Served(h, q, seen, now); }
    }
    hide AckedLine, Served;
  }

  // ---------------------------------------------------------------- acknowledgements

  function AfterAck(n: Node, m: AckMsg, granted: bool, now: int): Node {
    ReceiveAck(n, m.socket.bridge, m.record, granted, now)
  }

  function AckNoted(hist: History, h: HostId, m: AckMsg): History {
    hist.(ackedAt := hist.ackedAt[Line(h, m.socket.bridge) := m.at])
  }

  lemma AckShape(n: Node, m: AckMsg, granted: bool, now: int)
    requires AckCounts(n, m)
    ensures var n', b := AfterAck(n, m, granted, now), m.socket.bridge;
      && n'.links == n.links && n'.round == Some(Publication(n.round.value.record, true, n.round.value.acked + {b}))
      && n'.quorum == n.quorum.(acknowledged := n.quorum.acknowledged + {b}, live := n.quorum.live + {b})
      && n'.service.boot == n.service.boot && n'.service.db.epoch == n.service.db.epoch
      && n'.published == n.published - {b}
      && n'.lease == (if LiveQuorum(n') then now else n.lease)
  {
    hide MayResume, CurrentFloor;
  }

  /** What an acknowledgement may make of the service: the pending record stays, and only a resume changes the role. */
  lemma AckService(n: Node, m: AckMsg, granted: bool, now: int)
    requires AckCounts(n, m)
    ensures var n' := AfterAck(n, m, granted, now);
      && (n'.service.pending.Some? <==> n.service.pending.Some?)
      && (n'.service.pending.Some? ==> n'.service.pending.value.record == n.service.pending.value.record)
      && (if n'.service.writer && !n.service.writer
          then n.service.resume.Some? && n'.service.resume.None? && n'.observed
               && |n.round.value.acked + {m.socket.bridge}| >= Threshold(|Targets(n)|)
          else n'.service.writer == n.service.writer && n'.service.resume == n.service.resume && n'.observed == n.observed)
  {
    hide Persist;
  }

  /** A counted acknowledgement is evidence from the moment the bridge committed the registration. */
  lemma AckCountsAsEvidence(p: Params, h: HostId, n: Node, m: AckMsg, granted: bool, w: Wires, net: Net, hist: History, timers: Timers, now: int)
    requires NodeOk(p, h, n, w, net, hist, timers, now) && n.service.boot.configured == W(p)
    requires Linked(n, m.socket) && m.socket.host == h && AckOk(w, hist, now, m) && now - m.at <= p.delay
    requires AckCounts(n, m) && h in timers.pulsed && timers.pulsed[h] <= now && p.period >= 0
    requires NoNewWriter(n, AfterAck(n, m, granted, now))
    ensures Counted(p, h, n, AfterAck(n, m, granted, now), m.socket.bridge, m.at, AckNoted(hist, h, m), timers, now)
  {
    AckShape(n, m, granted, now);
    AckService(n, m, granted, now);
    hide AfterAck, RenewalsOk, LeaseOk, FreshOk, PrimaryOk, LinksOk, LiveQuorum, SuspendedOk;
  }

  /** The acknowledging connection has not been cut off since the bridge committed the registration. */
  lemma AckingLine(h: HostId, n: Node, m: AckMsg, w: Wires, net: Net, hist: History, now: int)
    requires LinksOk(h, n, w) && AcksOk(h, n, net, hist) && RecordsOk(n)
    requires Linked(n, m.socket) && m.socket.host == h && AckOk(w, hist, now, m) && m in net.acks && AckCounts(n, m)
    ensures AckedLine(m.socket, AckNoted(hist, h, m), now)
  {
    assert OwnRecord(n.service, m.record);
  }

  lemma AckedLinesStay(h: HostId, n: Node, m: AckMsg, w: Wires, hist: History, now: int)
    requires LinksOk(h, n, w) && AckedOk(n, hist, now) && AckedLine(m.socket, AckNoted(hist, h, m), now)
    requires Linked(n, m.socket) && m.socket.host == h
    ensures AckedOk(n, AckNoted(hist, h, m), now)
  {
    forall b | b in n.quorum.acknowledged ensures AckedLine(n.links[b], AckNoted(hist, h, m), now) {
      assert AckedLine(n.links[b], hist, now);
    }
  }

  /** What an acknowledgement leaves of the records and connections of a host that acts as primary. */
  lemma AckRecords(h: HostId, n: Node, m: AckMsg, granted: bool, net: Net, hist: History, now: int)
    requires AckCounts(n, m) && AcksOk(h, n, net, hist) && RecordsOk(n)
    ensures AcksOk(h, AfterAck(n, m, granted, now), net, AckNoted(hist, h, m)) && RecordsOk(AfterAck(n, m, granted, now))
    ensures AcksOk(h, n, net, AckNoted(hist, h, m))
  {
    AckShape(n, m, granted, now);
    AckService(n, m, granted, now);
    hide AfterAck, LiveQuorum, AckCounts;
  }

  lemma AckIsAcknowledged(p: Params, h: HostId, n: Node, m: AckMsg, granted: bool, w: Wires, net: Net, hist: History, now: int)
    requires LinksOk(h, n, w) && PrimaryOk(h, n, net, hist, now) && ActsAsPrimary(n.service)
    requires Linked(n, m.socket) && m.socket.host == h && AckOk(w, hist, now, m) && m in net.acks && AckCounts(n, m)
    ensures StillPrimary(h, AfterAck(n, m, granted, now), net, AckNoted(hist, h, m), now)
    ensures PrimaryOk(h, n, net, AckNoted(hist, h, m), now)
  {
    hide AfterAck, LiveQuorum, AckCounts, AcksOk, RecordsOk, AckedLine, Served, AckOk, LinksOk;
    AckShape(n, m, granted, now);
    AckRecords(h, n, m, granted, net, hist, now);
    AckingLine(h, n, m, w, net, hist, now);
    AckedLinesStay(h, n, m, w, hist, now);
    ServedStays(h, n, m, hist, now);
  }

  lemma ServedStays(h: HostId, n: Node, m: AckMsg, hist: History, now: int)
    requires ServedOk(h, n, hist, now)
    ensures ServedOk(h, n, AckNoted(hist, h, m), now)
  {
    forall b | b in n.quorum.live ensures Served(h, b, AckNoted(hist, h, m), now) { assert Served(h, b, hist, now); }
  }

  lemma AckKeepsNode(p: Params, h: HostId, n: Node, m: AckMsg, net: Net, hist: History, timers: Timers, now: int)
    requires FreshOk(p, h, n, hist, timers, now) && LeaseOk(p, h, n, net, hist, timers, now)
    ensures FreshOk(p, h, n, AckNoted(hist, h, m), timers, now) && LeaseOk(p, h, n, net, AckNoted(hist, h, m), timers, now)
  {
    if n.service.writer { NotingStarts(p, h, n.service.db.epoch, hist.renewals[h][0], net, hist, AckNoted(hist, h, m)); }
    hide RenewalsOk, StartOk;
  }

  lemma AckSuspended(n: Node, m: AckMsg, granted: bool, now: int)
    requires SuspendedOk(n) && AckCounts(n, m)
    ensures SuspendedOk(AfterAck(n, m, granted, now))
  {
    AckShape(n, m, granted, now);
    AckService(n, m, granted, now);
    hide AfterAck, LiveQuorum;
  }

  lemma NodeParts(p: Params, h: HostId, n: Node, w: Wires, net: Net, hist: History, timers: Timers, now: int)
    requires NodeOk(p, h, n, w, net, hist, timers, now)
    ensures LinksOk(h, n, w) && QuorumOk(p, n) && SuspendedOk(n) && PrimaryOk(h, n, net, hist, now)
    ensures FreshOk(p, h, n, hist, timers, now) && LeaseOk(p, h, n, net, hist, timers, now)
  {
  }

  lemma NodeWhole(p: Params, h: HostId, n: Node, w: Wires, net: Net, hist: History, timers: Timers, now: int)
    requires LinksOk(h, n, w) && QuorumOk(p, n) && SuspendedOk(n) && PrimaryOk(h, n, net, hist, now)
    requires FreshOk(p, h, n, hist, timers, now) && LeaseOk(p, h, n, net, hist, timers, now)
    ensures NodeOk(p, h, n, w, net, hist, timers, now)
  {
  }

  lemma NotPrimary(h: HostId, n: Node, net: Net, hist: History, now: int)
    requires !ActsAsPrimary(n.service)
    ensures PrimaryOk(h, n, net, hist, now) && StillPrimary(h, n, net, hist, now)
  {
  }

  /** A counted acknowledgement that resumes nobody. */
  lemma AckCountedIsOk(p: Params, h: HostId, n: Node, m: AckMsg, granted: bool, w: Wires, net: Net, hist: History, timers: Timers, now: int)
    requires NodeOk(p, h, n, w, net, hist, timers, now) && n.service.boot.configured == W(p) && GraceSuffices(p)
    requires Linked(n, m.socket) && m.socket.host == h && AckOk(w, hist, now, m) && now - m.at <= p.delay && m in net.acks
    requires h in timers.pulsed && timers.pulsed[h] <= now && h in timers.polled && timers.polled[h] <= now
    requires AckCounts(n, m) && NoNewWriter(n, AfterAck(n, m, granted, now))
    ensures NodeOk(p, h, AfterAck(n, m, granted, now), w, net,
                   NoteEvidence(AckNoted(hist, h, m), h, m.socket.bridge, m.at, n.service.writer, AfterAck(n, m, granted, now), now), timers, now)
  {
    hide NodeOk, AckOk, Linked, AfterAck, AckCounts, Counted, NoteEvidence, LinksOk, FreshOk, LeaseOk, QuorumOk, SuspendedOk;
    hide PrimaryOk, StillPrimary, AckNoted;
    NodeParts(p, h, n, w, net, hist, timers, now);
    AckCountsAsEvidence(p, h, n, m, granted, w, net, hist, timers, now);
    AckKeepsNode(p, h, n, m, net, hist, timers, now);
    AckSuspended(n, m, granted, now);
    if ActsAsPrimary(n.service) {
      AckIsAcknowledged(p, h, n, m, granted, w, net, hist, now);
    } else {
      AckStaysIdle(n, m, granted, now);
      NotPrimary(h, n, net, AckNoted(hist, h, m), now);
      NotPrimary(h, AfterAck(n, m, granted, now), net, AckNoted(hist, h, m), now);
    }
    NodeWhole(p, h, n, w, net, AckNoted(hist, h, m), timers, now);
    CountedIsOk(p, h, n, AfterAck(n, m, granted, now), m.socket.bridge, m.at, w, net, AckNoted(hist, h, m), timers, now);
  }

  lemma AckStaysIdle(n: Node, m: AckMsg, granted: bool, now: int)
    requires AckCounts(n, m) && !ActsAsPrimary(n.service)
    ensures !ActsAsPrimary(AfterAck(n, m, granted, now).service)
  {
    AckService(n, m, granted, now);
  }

  // ---------------------------------------------------------------- a resume

  /** No bridge of `q` has voted in the election after `epoch`, so there is no receipt of it. */
  predicate NoReceipts(net: Net, q: set<BridgeId>, epoch: nat) {
    forall r | r in net.receipts && r.bridge in q :: r.primaryEpoch != epoch
  }

  predicate AllFresh(p: Params, h: HostId, q: set<BridgeId>, evidence: map<Line, int>, pulsed: int, now: int) {
    forall b | b in q :: Line(h, b) in evidence && Fresh(p, evidence[Line(h, b)], pulsed, now)
  }

  /** What is known of a host at the moment an acknowledgement makes it the writer again. */
  predicate Resumed(p: Params, h: HostId, n': Node, net: Net, seen: History, timers: Timers, now: int) {
    && n'.service.writer && n'.service.resume.None? && n'.observed && LiveQuorum(n') && n'.lease == now && n'.quorum.livenessRound.None?
    && n'.service.boot.configured == W(p) && n'.quorum.live <= W(p)
    && h in timers.pulsed && AllFresh(p, h, n'.quorum.live, seen.evidence, timers.pulsed[h], now)
    && NoReceipts(net, n'.quorum.live, n'.service.db.epoch)
    && h in timers.polled && timers.polled[h] <= now
    && SentJustNow(p, h, n'.quorum.live, seen.evidence, now)
  }

  predicate SentJustNow(p: Params, h: HostId, q: set<BridgeId>, evidence: map<Line, int>, now: int) {
    exists b | b in q :: Line(h, b) in evidence && evidence[Line(h, b)] >= now - Max(p.period, p.delay)
  }

  /** A resume starts a lease of its own, served by a strict majority none of which has attested an absence. */
  lemma ResumedStartsLease(p: Params, h: HostId, n': Node, net: Net, seen: History, timers: Timers, now: int)
    requires Resumed(p, h, n', net, seen, timers, now) && ServedOk(h, n', seen, now) && GraceSuffices(p)
    ensures LeaseOk(p, h, n', net, NoteRenewal(seen, h, false, n', now), timers, now)
    ensures FreshOk(p, h, n', seen, timers, now)
  {
    var r := Renewal(now, EvidenceOfLive(h, n', seen));
    ResumedIsSustained(p, h, n', net, seen, timers, now);
    assert NoteRenewal(seen, h, false, n', now).renewals[h] == [r];
    hide Sustained, NoneAttested, SentJustNow, NoReceipts, ServedOk, LiveQuorum;
  }

  lemma ResumedIsSustained(p: Params, h: HostId, n': Node, net: Net, seen: History, timers: Timers, now: int)
    requires Resumed(p, h, n', net, seen, timers, now) && ServedOk(h, n', seen, now) && GraceSuffices(p)
    ensures Sustained(p, h, Renewal(now, EvidenceOfLive(h, n', seen)), seen.contacts)
    ensures NoneAttested(h, n'.service.db.epoch, EvidenceOfLive(h, n', seen), net, seen)
  {
    var r := Renewal(now, EvidenceOfLive(h, n', seen));
    assert forall b | b in n'.quorum.live :: Served(h, b, seen, now);
    assert r.evidence.Keys == n'.quorum.live;
    var b :| b in n'.quorum.live && Line(h, b) in seen.evidence && seen.evidence[Line(h, b)] >= now - Max(p.period, p.delay);
    assert b in r.evidence && r.at - Max(p.period, p.delay) <= r.evidence[b];
    hide GracesHold;
  }

  lemma AckResumes(p: Params, h: HostId, n: Node, m: AckMsg, granted: bool, w: Wires, net: Net, hist: History, timers: Timers, now: int)
    requires NodeOk(p, h, n, w, net, hist, timers, now) && n.service.boot.configured == W(p)
    requires AckCounts(n, m) && AfterAck(n, m, granted, now).service.writer && !n.service.writer && now - m.at <= p.delay
    requires var n' := AfterAck(n, m, granted, now);
      && h in timers.pulsed && AllFresh(p, h, n'.round.value.acked, hist.evidence[Line(h, m.socket.bridge) := m.at], timers.pulsed[h], now)
      && NoReceipts(net, n'.round.value.acked, n'.service.db.epoch)
    requires h in timers.polled && timers.polled[h] <= now
    ensures var n', seen := AfterAck(n, m, granted, now), AckNoted(hist, h, m).(evidence := hist.evidence[Line(h, m.socket.bridge) := m.at]);
      Resumed(p, h, n', net, seen, timers, now) && n'.quorum.live == n.quorum.live + {m.socket.bridge}
      && n'.quorum.live <= n'.quorum.acknowledged && n'.links == n.links && ActsAsPrimary(n.service)
  {
    AckShape(n, m, granted, now);
    AckService(n, m, granted, now);
    SenderIsRecent(p, h, AfterAck(n, m, granted, now).quorum.live, m, hist.evidence, now);
    hide AfterAck, AllFresh, NoReceipts, LinksOk, PrimaryOk, FreshOk, LeaseOk, SentJustNow;
  }

  lemma SenderIsRecent(p: Params, h: HostId, q: set<BridgeId>, m: AckMsg, evidence: map<Line, int>, now: int)
    requires m.socket.bridge in q && now - m.at <= p.delay
    ensures SentJustNow(p, h, q, evidence[Line(h, m.socket.bridge) := m.at], now)
  {
    assert evidence[Line(h, m.socket.bridge) := m.at][Line(h, m.socket.bridge)] == m.at;
  }

  lemma ResumedServed(h: HostId, n: Node, n': Node, m: AckMsg, w: Wires, hist: History, now: int)
    requires ServedOk(h, n, hist, now) && AckOk(w, hist, now, m) && m.socket.host == h
    requires n'.quorum.live == n.quorum.live + {m.socket.bridge}
    ensures ServedOk(h, n', AckNoted(hist, h, m).(evidence := hist.evidence[Line(h, m.socket.bridge) := m.at]), now)
  {
    forall b | b in n.quorum.live ensures Served(h, b, hist, now) { }
  }

  /** The acknowledgement that makes a suspended host the writer again. */
  lemma AckResumedIsOk(p: Params, h: HostId, n: Node, m: AckMsg, granted: bool, w: Wires, net: Net, hist: History, timers: Timers, now: int)
    requires NodeOk(p, h, n, w, net, hist, timers, now) && n.service.boot.configured == W(p) && GraceSuffices(p)
    requires Linked(n, m.socket) && m.socket.host == h && AckOk(w, hist, now, m) && m in net.acks
    requires AckCounts(n, m) && AfterAck(n, m, granted, now).service.writer && !n.service.writer && now - m.at <= p.delay
    requires var n' := AfterAck(n, m, granted, now);
      && h in timers.pulsed && n'.round.Some?
      && AllFresh(p, h, n'.round.value.acked, hist.evidence[Line(h, m.socket.bridge) := m.at], timers.pulsed[h], now)
      && NoReceipts(net, n'.round.value.acked, n'.service.db.epoch)
    requires h in timers.polled && timers.polled[h] <= now
    ensures NodeOk(p, h, AfterAck(n, m, granted, now), w, net,
                   NoteEvidence(AckNoted(hist, h, m), h, m.socket.bridge, m.at, false, AfterAck(n, m, granted, now), now), timers, now)
  {
    var n', noted := AfterAck(n, m, granted, now), AckNoted(hist, h, m);
    AckShape(n, m, granted, now);
    AckResumes(p, h, n, m, granted, w, net, hist, timers, now);
    var seen := noted.(evidence := hist.evidence[Line(h, m.socket.bridge) := m.at]);
    AckIsAcknowledged(p, h, n, m, granted, w, net, hist, now);
    AckSuspended(n, m, granted, now);
    ResumedServed(h, n, n', m, w, hist, now);
    ResumedStartsLease(p, h, n', net, seen, timers, now);
    NotedParts(p, h, n', m.socket.bridge, m.at, false, net, noted, timers, now);
    hide AfterAck, AllFresh, NoReceipts, PrimaryOk, FreshOk, LeaseOk, StillPrimary, AckNoted, LiveQuorum, AckOk, AckCounts;
  }

  // ---------------------------------------------------------------- pongs and whole messages

  /** When the bridge last served the host, as far as this pong shows. */
  lemma PongShowsContact(p: Params, h: HostId, n: Node, m: PongMsg, w: Wires, hist: History, now: int)
    requires LinksOk(h, n, w) && AckedOk(n, hist, now)
    requires Linked(n, m.socket) && m.socket.host == h && PongOk(w, hist, now, m) && PongCounts(n, m)
    ensures m.round.startedAt <= PongEvidence(hist, h, m) <= now
    ensures Contact(m.socket.bridge, h, PongEvidence(hist, h, m)) in hist.contacts
  {
    assert AckedLine(n.links[m.socket.bridge], hist, now);
  }

  lemma PongShape(n: Node, m: PongMsg, now: int)
    requires PongCounts(n, m)
    ensures var n' := ReceivePong(n, m.socket.bridge, m.round, now);
      && n' == n.(quorum := n'.quorum, awaiting := n'.awaiting, lease := n'.lease)
      && n'.quorum == n.quorum.(live := n.quorum.live + {m.socket.bridge})
      && n'.lease == (if LiveQuorum(n') then now else n.lease)
  {
  }

  /** A pong of the running round counts for a bridge that acknowledged, as evidence no older than the round. */
  lemma PongCountsAsEvidence(p: Params, h: HostId, n: Node, m: PongMsg, w: Wires, net: Net, hist: History, timers: Timers, now: int)
    requires NodeOk(p, h, n, w, net, hist, timers, now) && n.service.boot.configured == W(p) && p.delay >= 0
    requires Linked(n, m.socket) && m.socket.host == h && PongOk(w, hist, now, m) && PongCounts(n, m)
    ensures var n' := ReceivePong(n, m.socket.bridge, m.round, now);
      Counted(p, h, n, n', m.socket.bridge, PongEvidence(hist, h, m), hist, timers, now)
      && StillPrimary(h, n', net, hist, now) && SuspendedOk(n')
  {
    if ActsAsPrimary(n.service) { PongShowsContact(p, h, n, m, w, hist, now); }
    PongShape(n, m, now);
    hide ReceivePong, LeaseOk, PongEvidence, PongOk, AckedLine, Served, LinksOk, LiveQuorum;
  }

  lemma IgnoredAckIsOk(p: Params, h: HostId, n: Node, m: AckMsg, granted: bool, w: Wires, net: Net, hist: History, timers: Timers, now: int)
    requires NodeOk(p, h, n, w, net, hist, timers, now) && !AckCounts(n, m)
    ensures NodeOk(p, h, AfterAck(n, m, granted, now), w, net, hist, timers, now)
  {
    hide RenewalsOk, AckedLine, Served, StartOk;
  }

  lemma IgnoredPongIsOk(p: Params, h: HostId, n: Node, m: PongMsg, w: Wires, net: Net, hist: History, timers: Timers, now: int)
    requires NodeOk(p, h, n, w, net, hist, timers, now) && !PongCounts(n, m)
    ensures NodeOk(p, h, ReceivePong(n, m.socket.bridge, m.round, now), w, net, hist, timers, now)
  {
    hide RenewalsOk, AckedLine, Served, StartOk;
  }

  /** What the acknowledgement has to satisfy if it resumes the host. */
  predicate SafeIfResuming(p: Params, h: HostId, n: Node, m: AckMsg, granted: bool, net: Net, hist: History, timers: Timers, now: int) {
    var n' := AfterAck(n, m, granted, now);
    n'.service.writer && !n.service.writer ==>
      && h in timers.pulsed && n'.round.Some?
      && AllFresh(p, h, n'.round.value.acked, hist.evidence[Line(h, m.socket.bridge) := m.at], timers.pulsed[h], now)
      && NoReceipts(net, n'.round.value.acked, n'.service.db.epoch)
  }

  lemma IgnoredResumesNobody(n: Node, m: AckMsg, granted: bool, now: int)
    requires !AckCounts(n, m)
    ensures AfterAck(n, m, granted, now).service.writer == n.service.writer
  {
  }

  lemma OtherwiseNoNewWriter(n: Node, m: AckMsg, granted: bool, now: int)
    requires AckCounts(n, m) && !(AfterAck(n, m, granted, now).service.writer && !n.service.writer)
    ensures NoNewWriter(n, AfterAck(n, m, granted, now))
  {
    AckShape(n, m, granted, now);
  }

  lemma AckIsOk(p: Params, h: HostId, n: Node, m: AckMsg, granted: bool, w: Wires, net: Net, hist: History, timers: Timers, now: int)
    requires NodeOk(p, h, n, w, net, hist, timers, now) && n.service.boot.configured == W(p) && GraceSuffices(p)
    requires Linked(n, m.socket) && m.socket.host == h && AckOk(w, hist, now, m) && now - m.at <= p.delay && m in net.acks
    requires h in timers.pulsed && timers.pulsed[h] <= now && h in timers.polled && timers.polled[h] <= now
    requires SafeIfResuming(p, h, n, m, granted, net, hist, timers, now)
    ensures var n' := AfterAck(n, m, granted, now);
      NodeOk(p, h, n', w, net, HistoryAfterHost(hist, n, n', GetAck(h, m, granted), now), timers, now)
  {
    hide NodeOk, AckOk, Linked, AfterAck, AckCounts, Counted, NoteEvidence, NoNewWriter, GraceSuffices, AllFresh, NoReceipts;
    if !AckCounts(n, m) {
      IgnoredAckIsOk(p, h, n, m, granted, w, net, hist, timers, now);
    } else if AfterAck(n, m, granted, now).service.writer && !n.service.writer {
      AckResumedIsOk(p, h, n, m, granted, w, net, hist, timers, now);
    } else {
      OtherwiseNoNewWriter(n, m, granted, now);
      AckCountedIsOk(p, h, n, m, granted, w, net, hist, timers, now);
    }
  }

  lemma PongIsOk(p: Params, h: HostId, n: Node, m: PongMsg, w: Wires, net: Net, hist: History, timers: Timers, now: int)
    requires NodeOk(p, h, n, w, net, hist, timers, now) && n.service.boot.configured == W(p) && GraceSuffices(p)
    requires Linked(n, m.socket) && m.socket.host == h && PongOk(w, hist, now, m)
    requires h in timers.polled && timers.polled[h] <= now
    ensures var n' := ReceivePong(n, m.socket.bridge, m.round, now);
      NodeOk(p, h, n', w, net, HistoryAfterHost(hist, n, n', GetPong(h, m), now), timers, now)
  {
    hide NodeOk, PongOk, Linked, ReceivePong, PongCounts, PongEvidence, Counted, StillPrimary, SuspendedOk, NoteEvidence;
    if PongCounts(n, m) {
      PongCountsAsEvidence(p, h, n, m, w, net, hist, timers, now);
      var n' := ReceivePong(n, m.socket.bridge, m.round, now);
      CountedIsOk(p, h, n, n', m.socket.bridge, PongEvidence(hist, h, m), w, net, hist, timers, now);
    } else {
      IgnoredPongIsOk(p, h, n, m, w, net, hist, timers, now);
    }
  }

  /** A promotion starts a lease of its own, at the moment its epoch begins. */
  lemma WinnerIsOk(p: Params, h: HostId, n: Node, e: nat, votes: set<Receipt>, granted: bool, w: Wires, net: Net, hist: History,
                   timers: Timers, now: int)
    requires NodeOk(p, h, n, w, net, hist, timers, now) && GraceSuffices(p)
    requires MayPromote(n.service, e, votes, granted, now) && e + 1 !in hist.began
    requires forall m | m in net.acks :: !(m.record.role.Primary? && m.record.epoch == e + 1)
    requires h in timers.polled && timers.polled[h] <= now && h in timers.pulsed
    ensures var n' := Win(n, e, votes, granted, now);
      NodeOk(p, h, n', w, net, HistoryAfterHost(hist, n, n', WinElection(h, e, votes, granted), now), timers, now)
  {
    hide MayPromote, AckedLine, Served, LinksOk, Promote;
    PromotionChanges(n.service, e, votes, granted, now);
    NodeParts(p, h, n, w, net, hist, timers, now);
    WonParts(p, h, n, e, votes, granted, w, net, now);
    hide NodeOk, Win;
    var n' := Win(n, e, votes, granted, now);
    WinnerLease(p, h, n', e, net, HistoryAfterHost(hist, n, n', WinElection(h, e, votes, granted), now), timers, now);
    NodeWhole(p, h, n', w, net, HistoryAfterHost(hist, n, n', WinElection(h, e, votes, granted), now), timers, now);
  }

  /** A promoted node starts with nothing but its connections. */
  lemma WonParts(p: Params, h: HostId, n: Node, e: nat, votes: set<Receipt>, granted: bool, w: Wires, net: Net, now: int)
    requires LinksOk(h, n, w) && MayPromote(n.service, e, votes, granted, now)
    requires forall m | m in net.acks :: !(m.record.role.Primary? && m.record.epoch == e + 1)
    ensures var n' := Win(n, e, votes, granted, now);
      && n'.service.writer && n'.service.db.epoch == e + 1 && n'.observed && n'.lease == now && n'.quorum == RegistrationQuorum.Empty()
      && LinksOk(h, n', w) && QuorumOk(p, n') && SuspendedOk(n') && forall hist :: PrimaryOk(h, n', net, hist, now)
  {
    hide MayPromote, Promote, LinksOk;
    PromotionChanges(n.service, e, votes, granted, now);
    var n' := Win(n, e, votes, granted, now);
    assert n'.links == n.links && n'.round.None? && n'.published == map[];
    SameLinks(h, n, n', w);
  }

  lemma SameLinks(h: HostId, n: Node, n': Node, w: Wires)
    requires LinksOk(h, n, w) && n'.links == n.links
    ensures LinksOk(h, n', w)
  {
  }

  lemma WinnerLease(p: Params, h: HostId, n: Node, e: nat, net: Net, hist: History, timers: Timers, now: int)
    requires n.service.writer && n.service.db.epoch == e + 1 && n.observed && n.lease == now && n.quorum == RegistrationQuorum.Empty()
    requires h in hist.renewals && hist.renewals[h] == [Renewal(now, map[])] && e + 1 in hist.began && hist.began[e + 1] == now
    requires GraceSuffices(p) && h in timers.polled && timers.polled[h] <= now && h in timers.pulsed
    ensures LeaseOk(p, h, n, net, hist, timers, now) && FreshOk(p, h, n, hist, timers, now)
  {
  }

  lemma PromotionChanges(x: Host, e: nat, votes: set<Receipt>, granted: bool, now: int)
    requires MayPromote(x, e, votes, granted, now)
    ensures Promote(x, e, votes, granted, now).writer && !x.writer && Promote(x, e, votes, granted, now).db.epoch == e + 1
    ensures Promote(x, e, votes, granted, now).pending.None? && Promote(x, e, votes, granted, now).resume.None?
  {
  }

  // ---------------------------------------------------------------- all hosts

  /** New acknowledgements are on sockets bound since, new absences began after all contacts. */
  predicate NetGrows(h: HostId, n: Node, net: Net, net': Net, hist: History, hist': History) {
    && (forall m | m in net'.acks && m !in net.acks && Linked(n, m.socket) :: m.socket in hist'.boundSince && hist'.boundSince[m.socket] <= m.at)
    && (forall r | r in net'.receipts && r in net.receipts && r in hist.absences :: r in hist'.absences && hist'.absences[r] == hist.absences[r])
    && (forall r | r in net'.receipts && r !in net.receipts ::
          r in hist'.absences && forall c | c in hist.contacts && c.bridge == r.bridge && c.host == r.primary :: c.at <= hist'.absences[r])
  }

  /** What one host's part of the invariant reads stays the same, or only grows. */
  predicate SameFor(h: HostId, n: Node, w: Wires, w': Wires, hist: History, hist': History) {
    && (forall l | l in w.newest && l.host == h :: l in w'.newest && w'.newest[l] == w.newest[l])
    && (forall l | l in hist.evidence && l.host == h :: l in hist'.evidence && hist'.evidence[l] == hist.evidence[l])
    && (forall l | l in hist.ackedAt && l.host == h :: l in hist'.ackedAt && hist'.ackedAt[l] == hist.ackedAt[l])
    && (h in hist.renewals ==> h in hist'.renewals && hist'.renewals[h] == hist.renewals[h])
    && hist.contacts <= hist'.contacts
    && (ActsAsPrimary(n.service) ==>
        forall k | k in hist.boundSince && Linked(n, k) && k.host == h :: k in hist'.boundSince && hist'.boundSince[k] == hist.boundSince[k])
    && (forall e | e in hist.began :: e in hist'.began && hist'.began[e] == hist.began[e])
  }

  predicate SameTimers(h: HostId, timers: Timers, timers': Timers) {
    && (h in timers.polled ==> h in timers'.polled && timers'.polled[h] == timers.polled[h])
    && (h in timers.pulsed ==> h in timers'.pulsed && timers'.pulsed[h] == timers.pulsed[h])
  }

  lemma RenewalsStay(p: Params, h: HostId, rs: seq<Renewal>, contacts: set<Contact>, contacts': set<Contact>)
    requires RenewalsOk(p, h, rs, contacts) && contacts <= contacts'
    ensures RenewalsOk(p, h, rs, contacts')
  {
    forall k | 1 <= k < |rs| ensures RenewalOk(p, h, rs[k - 1].at, rs[k], contacts') {
      assert RenewalOk(p, h, rs[k - 1].at, rs[k], contacts);
    }
  }

  lemma StartStays(p: Params, h: HostId, n: Node, epoch: nat, r: Renewal, w: Wires, w': Wires, net: Net, net': Net, hist: History, hist': History)
    requires StartOk(p, h, epoch, r, net, hist) && SameFor(h, n, w, w', hist, hist') && NetGrows(h, n, net, net', hist, hist')
    ensures StartOk(p, h, epoch, r, net', hist')
  {
    if !(epoch in hist.began && r.at == hist.began[epoch]) {
      forall q | q in net'.receipts && q.primary == h && q.primaryEpoch == epoch && q.bridge in r.evidence
        ensures q in hist'.absences && hist'.absences[q] >= r.evidence[q.bridge]
      {
        assert Contact(q.bridge, h, r.evidence[q.bridge]) in hist.contacts;
        if q in net.receipts { assert q in hist.absences && hist.absences[q] >= r.evidence[q.bridge]; }
      }
      hide SameFor, NetGrows;
    }
  }

  lemma FreshStays(p: Params, h: HostId, n: Node, hist: History, hist': History, w: Wires, w': Wires, timers: Timers, timers': Timers, now: int)
    requires FreshOk(p, h, n, hist, timers, now) && SameFor(h, n, w, w', hist, hist') && SameTimers(h, timers, timers')
    ensures FreshOk(p, h, n, hist', timers', now)
  {
  }

  lemma LinksStay(h: HostId, n: Node, hist: History, hist': History, w: Wires, w': Wires)
    requires LinksOk(h, n, w) && SameFor(h, n, w, w', hist, hist')
    ensures LinksOk(h, n, w')
  {
  }

  lemma PrimaryStays(h: HostId, n: Node, net: Net, net': Net, hist: History, hist': History, w: Wires, w': Wires, now: int)
    requires LinksOk(h, n, w) && PrimaryOk(h, n, net, hist, now) && SameFor(h, n, w, w', hist, hist') && NetGrows(h, n, net, net', hist, hist')
    ensures PrimaryOk(h, n, net', hist', now)
  {
    hide RecordsOk;
    if ActsAsPrimary(n.service) {
      forall b | b in n.quorum.acknowledged ensures AckedLine(n.links[b], hist', now) {
        assert AckedLine(n.links[b], hist, now) && LineOf(n.links[b]) == Line(h, b) && Linked(n, n.links[b]);
      }
      forall b | b in n.quorum.live ensures Served(h, b, hist', now) {
        assert Served(h, b, hist, now);
      }
      forall m | m in net'.acks && Linked(n, m.socket) && m.socket.host == h && OwnRecord(n.service, m.record)
        ensures m.socket in hist'.boundSince && hist'.boundSince[m.socket] <= m.at
      {
      }
      hide SameFor, NetGrows, AckedLine, Served;
    }
  }

  lemma NodeStays(p: Params, h: HostId, n: Node, net: Net, net': Net, hist: History, hist': History, w: Wires, w': Wires,
                  timers: Timers, timers': Timers, now: int)
    requires NodeOk(p, h, n, w, net, hist, timers, now) && SameFor(h, n, w, w', hist, hist') && SameTimers(h, timers, timers')
    requires NetGrows(h, n, net, net', hist, hist')
    ensures NodeOk(p, h, n, w', net', hist', timers', now)
  {
    FreshStays(p, h, n, hist, hist', w, w', timers, timers', now);
    LinksStay(h, n, hist, hist', w, w');
    PrimaryStays(h, n, net, net', hist, hist', w, w', now);
    if n.service.writer {
      RenewalsStay(p, h, hist.renewals[h], hist.contacts, hist'.contacts);
      StartStays(p, h, n, n.service.db.epoch, hist.renewals[h][0], w, w', net, net', hist, hist');
    }
    hide FreshOk, LinksOk, PrimaryOk, RenewalsOk, StartOk, NetGrows;
  }

  predicate StartsEpoch(t: Step, hist: History) {
    t.WinElection? ==> t.expectedEpoch + 1 !in hist.began
  }

  lemma NotingIsLocal(hist: History, h: HostId, b: BridgeId, at: int, wrote: bool, n': Node, now: int, g: HostId, x: Node, w: Wires)
    requires g != h
    ensures SameFor(g, x, w, w, hist, NoteEvidence(hist, h, b, at, wrote, n', now))
  {
    hide LiveQuorum, ActsAsPrimary, Linked;
    var seen := hist.(evidence := hist.evidence[Line(h, b) := at]);
    assert NoteEvidence(hist, h, b, at, wrote, n', now) in {seen, NoteRenewal(seen, h, wrote, n', now)};
  }

  lemma SameForTwice(g: HostId, x: Node, w: Wires, a: History, b: History, c: History)
    requires SameFor(g, x, w, w, a, b) && SameFor(g, x, w, w, b, c)
    ensures SameFor(g, x, w, w, a, c)
  {
  }

  lemma SameForItself(g: HostId, x: Node, w: Wires, hist: History)
    ensures SameFor(g, x, w, w, hist, hist)
  {
  }

  lemma AckTimeIsLocal(hist: History, l: Line, at: int, g: HostId, x: Node, w: Wires)
    requires l.host != g
    ensures SameFor(g, x, w, w, hist, hist.(ackedAt := hist.ackedAt[l := at]))
  {
  }

  lemma WinIsLocal(hist: History, n: Node, n': Node, t: Step, now: int, g: HostId, x: Node, w: Wires)
    requires t.WinElection? && g != t.host && StartsEpoch(t, hist)
    ensures SameFor(g, x, w, w, hist, HistoryAfterHost(hist, n, n', t, now))
  {
    hide NoteEvidence, AckCounts, PongCounts;
  }

  lemma HistoryIsLocal(hist: History, n: Node, n': Node, t: Step, now: int, g: HostId, x: Node, w: Wires)
    requires IsHostStep(t) && g != t.host && StartsEpoch(t, hist)
    ensures SameFor(g, x, w, w, hist, HistoryAfterHost(hist, n, n', t, now))
  {
    hide AckCounts, PongCounts, PongEvidence, NoteEvidence, SameFor;
    SameForItself(g, x, w, hist);
    if t.WinElection? { WinIsLocal(hist, n, n', t, now, g, x, w); }
    if t.GetAck? {
      var noted := hist.(ackedAt := hist.ackedAt[Line(t.host, t.ack.socket.bridge) := t.ack.at]);
      AckTimeIsLocal(hist, Line(t.host, t.ack.socket.bridge), t.ack.at, g, x, w);
      NotingIsLocal(noted, t.host, t.ack.socket.bridge, t.ack.at, n.service.writer, n', now, g, x, w);
      SameForTwice(g, x, w, hist, noted, NoteEvidence(noted, t.host, t.ack.socket.bridge, t.ack.at, n.service.writer, n', now));
    } else if t.GetPong? {
      NotingIsLocal(hist, t.host, t.pong.socket.bridge, PongEvidence(hist, t.host, t.pong), n.service.writer, n', now, g, x, w);
    }
  }

  /** A step of one host leaves what the others are judged by alone. */
  lemma HostStepIsLocal(p: Params, s: Sys, t: Step, g: HostId)
    requires IsHostStep(t) && t.host in s.nodes && g in s.nodes && g != t.host && StartsEpoch(t, s.history)
    ensures var s' := HostAfter(p, s, t);
      && SameFor(g, s.nodes[g], s.wires, s'.wires, s.history, s'.history) && SameTimers(g, s.timers, s'.timers)
      && NetGrows(g, s.nodes[g], s.net, s'.net, s.history, s'.history)
  {
    hide NodeAfter, HistoryAfterHost;
    var n, n' := s.nodes[t.host], NodeAfter(p, s.nodes[t.host], t, s.now);
    HistoryIsLocal(s.history, n, n', t, s.now, g, s.nodes[g], s.wires);
    FailoverEpochs.HistoryKeeps(s.history, n, n', t, s.now);
  }

  lemma QuietStepTouchesNothing(p: Params, s: Sys, t: Step)
    requires IsHostStep(t) && t.host in s.nodes
    requires !t.GetAck? && !t.GetPong? && !t.WinElection? && !t.Pulse? && !t.Poll? && !t.DialUp?
    ensures var s' := HostAfter(p, s, t);
      s'.wires == s.wires && s'.history == s.history && s'.timers == s.timers
      && s'.net.acks == s.net.acks && s'.net.receipts == s.net.receipts
  {
    hide NodeAfter;
  }

  /** Of the messages on their way a host is judged by acknowledgements and receipts alone. */
  lemma SameMessages(p: Params, h: HostId, n: Node, w: Wires, net: Net, net': Net, hist: History, timers: Timers, now: int)
    requires NodeOk(p, h, n, w, net, hist, timers, now) && net'.acks == net.acks && net'.receipts == net.receipts
    ensures NodeOk(p, h, n, w, net', hist, timers, now)
  {
    hide LinksOk, QuorumOk, SuspendedOk, AckedOk, RecordsOk, ServedOk, FreshOk, RenewalsOk;
  }

  predicate OwnPremise(p: Params, s: Sys, h: HostId) {
    && h in s.nodes && NodeOk(p, h, s.nodes[h], s.wires, s.net, s.history, s.timers, s.now)
    && GraceSuffices(p) && ParamsOk(p) && HostFits(p, h, s.nodes[h].service)
    && h in s.timers.polled && s.timers.polled[h] <= s.now && h in s.timers.pulsed && s.timers.pulsed[h] <= s.now
    && MessagesOk(s) && WiresOk(s.wires, s.history)
  }

  lemma RestoredIsIdle(b: Boot, db: Db, granted: bool)
    ensures Restore(b, db, false, granted).pending.None?
  {
  }

  lemma OwnQuietStep(p: Params, s: Sys, t: Step)
    requires IsHostStep(t) && OwnPremise(p, s, t.host) && HostEnabled(p, s, t)
    requires !t.GetAck? && !t.GetPong? && !t.WinElection? && !t.Pulse? && !t.Poll? && !t.DialUp?
    ensures var s' := HostAfter(p, s, t); NodeOk(p, t.host, s'.nodes[t.host], s'.wires, s.net, s'.history, s'.timers, s'.now)
  {
    var h, n := t.host, s.nodes[t.host];
    QuietStepTouchesNothing(p, s, t);
    if t.SyncReplica? { SyncIsClean(p, s, t); }
    hide NodeOk, HostEnabled, MessagesOk, GraceSuffices, ParamsOk, HostFits, WiresOk, CleanSync;
    if t.SignRound? {
      SignedIsOk(p, h, n, s.wires, s.net, s.history, s.timers, s.now);
    } else if t.PublishTo? {
      PublishedIsOk(p, h, n, t.bridge, s.wires, s.net, s.history, s.timers, s.now);
    } else if t.HangUp? {
      DroppedIsOk(p, h, n, t.bridge, s.wires, s.net, s.history, s.timers, s.now);
    } else if t.RebootHost? {
      RebootSuspends(p, h, n.service, t.granted);
      RestoredIsIdle(n.service.boot, n.service.db, t.granted);
      RebootedIsOk(p, h, Restore(n.service.boot, n.service.db, false, t.granted), s.wires, s.net, s.history, s.timers, s.now);
    } else {
      QuietStep(p, n, t, s.now);
      QuieterIsOk(p, h, n, NodeAfter(p, n, t, s.now), s.wires, s.net, s.history, s.timers, s.now);
    }
  }

  lemma SyncIsClean(p: Params, s: Sys, t: Step)
    requires t.SyncReplica? && t.host in s.nodes && HostEnabled(p, s, t)
    ensures CleanSync(p, s.nodes[t.host].service, t.snapshot)
  {
  }

  /** A socket just dialled has carried nothing yet. */
  lemma DialIsUnseen(p: Params, s: Sys, t: Step)
    requires t.DialUp? && t.host in s.nodes && HostEnabled(p, s, t) && MessagesOk(s) && WiresOk(s.wires, s.history)
    ensures forall m | m in s.net.acks :: m.socket != t.socket
  {
    forall m | m in s.net.acks ensures m.socket != t.socket {
      assert AckOk(s.wires, s.history, s.now, m);
    }
  }

  lemma OwnTimerStep(p: Params, s: Sys, t: Step)
    requires IsHostStep(t) && OwnPremise(p, s, t.host) && HostEnabled(p, s, t)
    requires t.Pulse? || t.Poll? || t.DialUp?
    ensures var s' := HostAfter(p, s, t); NodeOk(p, t.host, s'.nodes[t.host], s'.wires, s.net, s'.history, s'.timers, s'.now)
  {
    var h, n := t.host, s.nodes[t.host];
    if t.DialUp? { DialIsUnseen(p, s, t); }
    hide NodeOk, MessagesOk, GraceSuffices, ParamsOk, HostFits, WiresOk;
    match t {
      case Pulse(_, r) => PulsedIsOk(p, h, n, r, s.wires, s.net, s.history, s.timers, s.now);
      case Poll(_, granted) => PolledIsOk(p, h, n, granted, s.wires, s.net, s.history, s.timers, s.now);
      case DialUp(_, k) => DialledIsOk(p, h, n, k, s.wires, s.net, s.history, s.timers, s.now);
    }
  }

  lemma FitsConfigured(p: Params, h: HostId, x: Host)
    requires HostFits(p, h, x)
    ensures x.boot.configured == W(p)
  {
  }

  lemma StartsFresh(t: Step, hist: History)
    requires StartsEpoch(t, hist)
    ensures t.WinElection? ==> t.expectedEpoch + 1 !in hist.began
  {
  }

  /** The premise of the step about what is on its way: a resume is safe, and no acknowledgement is of a later epoch. */
  predicate MessagePremise(p: Params, s: Sys, t: Step) {
    && (t.GetAck? && t.host in s.nodes ==>
        SafeIfResuming(p, t.host, s.nodes[t.host], t.ack, t.granted, s.net, s.history, s.timers, s.now))
    && (t.WinElection? ==> forall m | m in s.net.acks :: !(m.record.role.Primary? && m.record.epoch == t.expectedEpoch + 1))
  }

  lemma OwnMessageStep(p: Params, s: Sys, t: Step)
    requires IsHostStep(t) && OwnPremise(p, s, t.host) && HostEnabled(p, s, t) && OnTime(p, s, t) && StartsEpoch(t, s.history)
    requires MessagePremise(p, s, t)
    requires t.GetAck? || t.GetPong? || t.WinElection?
    ensures var s' := HostAfter(p, s, t); NodeOk(p, t.host, s'.nodes[t.host], s'.wires, s.net, s'.history, s'.timers, s'.now)
  {
    hide NodeOk, AckOk, PongOk, GraceSuffices, ParamsOk, HostFits, MayPromote, HistoryAfterHost, ReceiveAck, ReceivePong, Win, NoNewWriter;
    hide StartsEpoch, WiresOk, SafeIfResuming, Resumes, ResumesSafely;
    var h, n := t.host, s.nodes[t.host];
    FitsConfigured(p, h, n.service);
    StartsFresh(t, s.history);
    match t {
      case GetAck(_, m, granted) => AckIsOk(p, h, n, m, granted, s.wires, s.net, s.history, s.timers, s.now);
      case GetPong(_, m) => PongIsOk(p, h, n, m, s.wires, s.net, s.history, s.timers, s.now);
      case WinElection(_, e, votes, granted) => WinnerIsOk(p, h, n, e, votes, granted, s.wires, s.net, s.history, s.timers, s.now);
    }
  }

  lemma HostStepKeepsNodes(p: Params, s: Sys, t: Step)
    requires IsHostStep(t) && t.host in s.nodes && OwnPremise(p, s, t.host) && HostEnabled(p, s, t) && OnTime(p, s, t)
    requires StartsEpoch(t, s.history) && NodesOk(p, s) && MessagePremise(p, s, t)
    ensures NodesOk(p, HostAfter(p, s, t))
  {
    hide HostEnabled, OnTime, OwnPremise, NodeOk, StartsEpoch, HostAfter, SameFor, SameTimers, NetGrows, MessagePremise;
    var s' := HostAfter(p, s, t);
    HostAfterNodes(p, s, t);
    forall g | g in s'.nodes ensures NodeOk(p, g, s'.nodes[g], s'.wires, s'.net, s'.history, s'.timers, s'.now) {
      if g != t.host {
        HostStepIsLocal(p, s, t, g);
        NodeStays(p, g, s.nodes[g], s.net, s'.net, s.history, s'.history, s.wires, s'.wires, s.timers, s'.timers, s.now);
      } else {
        if t.GetAck? || t.GetPong? || t.WinElection? {
          OwnMessageStep(p, s, t);
        } else if t.Pulse? || t.Poll? || t.DialUp? {
          OwnTimerStep(p, s, t);
        } else {
          OwnQuietStep(p, s, t);
        }
        SameMessages(p, g, s'.nodes[g], s'.wires, s.net, s'.net, s'.history, s'.timers, s'.now);
      }
    }
  }

  lemma HostAfterNodes(p: Params, s: Sys, t: Step)
    requires IsHostStep(t) && t.host in s.nodes
    ensures var s' := HostAfter(p, s, t);
      && s'.nodes == s.nodes[t.host := NodeAfter(p, s.nodes[t.host], t, s.now)] && s'.now == s.now && s'.bridges == s.bridges
      && s'.net.acks == s.net.acks && s'.net.receipts == s.net.receipts
  {
    hide NodeAfter;
  }
}
