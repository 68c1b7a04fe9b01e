/**
  * The writer role of one Community Host (`apps/janjanode/src/server.service.ts`) as a value: what
  * is stored in its database, what only its process knows, and what each transition does to them.
  */
module HostWriter {
  import opened Community
  import opened Quorums
  import opened WitnessFloor
  import opened RegistrationQuorum

  datatype RowState = RowWriter | RowFenced

  /** The `writer_state:<hostId>` row. */
  datatype Row = Row(state: RowState, grantId: GrantId, epoch: nat, floor: Floor)

  /** The part of the database the writer role depends on. `chain` is this host's own committed records. */
  datatype Db = Db(
    epoch: nat, opSeq: nat, row: Option<Row>,
    replicaPrimary: Option<HostId>, replicaTrust: Option<set<BridgeId>>, enrolled: seq<Candidate>,
    recordSeq: nat, recordHash: RecordHash, chain: map<nat, HostRecord>)

  /** How the process was started; the signing device and its grant are fixed. */
  datatype Boot = Boot(grant: Grant, asReplica: bool, configured: set<BridgeId>)

  datatype Eligibility = Eligibility(epoch: nat, configured: set<BridgeId>, sets: seq<set<BridgeId>>)

  datatype PendingRecord = PendingRecord(record: HostRecord, committed: bool)

  datatype Host = Host(boot: Boot, db: Db, writer: bool, resume: Option<Eligibility>, pending: Option<PendingRecord>)

  const OBSERVATION_FRESHNESS_MS := 10_000
  const CERTIFICATE_TTL_MS := 24 * 3_600_000
  const RECORD_TTL_MS := 5 * 60_000

  function Self(h: Host): HostId { h.boot.grant.hostId }

  predicate CanBePromoted(g: Grant) { CanPromote in g.capabilities }

  // ---------------------------------------------------------------- the witness floor

  /** `persistedWriterWitnessState` */
  function PersistedFloor(row: Option<Row>, grant: Grant): Floor {
    if row.None? || row.value.grantId != grant.grantId then NOTHING else row.value.floor
  }

  function ConfiguredSets(b: Boot): seq<Candidate> {
    (if CanBePromoted(b.grant) && b.configured != {} then [Bridges(b.configured)] else [])
    + (if CanBePromoted(b.grant) && b.grant.witnessBridges != {} then [Bridges(b.grant.witnessBridges)] else [])
  }

  function TrustSets(trust: Option<set<BridgeId>>): seq<Candidate> {
    if trust.Some? then [Bridges(trust.value)] else []
  }

  /** `writerWitnessState` */
  function CurrentFloor(b: Boot, db: Db, additional: seq<Candidate>): Floor {
    Compute(PersistedFloor(db.row, b.grant), additional + ConfiguredSets(b) + TrustSets(db.replicaTrust) + db.enrolled)
  }

  /** `persistWriterState` */
  function Persist(b: Boot, db: Db, state: RowState, epoch: nat, additional: seq<Candidate>): Db {
    db.(row := Some(Row(state, b.grant.grantId, epoch, CurrentFloor(b, db, additional))))
  }

  // ---------------------------------------------------------------- boot

  predicate RowUsable(row: Row, b: Boot, epoch: nat) {
    row.grantId == b.grant.grantId && row.epoch == epoch
  }

  function Suspended(b: Boot, db: Db, f: Floor): Option<Eligibility> {
    if f.complete then Some(Eligibility(db.epoch, b.configured, f.sets)) else None
  }

  /** `restoreWriterState`; `granted` says whether the host's own grant is active right now. */
  function Restore(b: Boot, db: Db, createdCommunity: bool, granted: bool): Host {
    if !granted then Host(b, db, false, None, None)
    else if db.row.None? then
      var floor := CurrentFloor(b, db, []);
      if !b.asReplica && (createdCommunity || (b.configured == {} && floor.sets == [] && floor.complete))
      then Host(b, Persist(b, db, RowWriter, db.epoch, AsCandidates(floor.sets)), true, None, None)
      else if !b.asReplica && b.configured != {}
      then Host(b, Persist(b, db, RowWriter, db.epoch, AsCandidates(floor.sets)), false, Suspended(b, db, floor), None)
      else Host(b, db, false, None, None)
    else if RowUsable(db.row.value, b, db.epoch) && db.row.value.state.RowWriter? then
      var floor := CurrentFloor(b, db, AsCandidates(db.row.value.floor.sets));
      var stored := Persist(b, db, RowWriter, db.epoch, AsCandidates(floor.sets));
      if floor.sets != [] || !floor.complete then Host(b, stored, false, Suspended(b, db, floor), None)
      else Host(b, stored, true, None, None)
    else Host(b, db, false, None, None)
  }

  // ---------------------------------------------------------------- registration records

  predicate ActsAsPrimary(h: Host) {
    h.writer || h.resume.Some?
  }

  /** The record `createPrimaryRegistration` signs next. */
  function NextRecord(h: Host, now: int): HostRecord {
    HostRecord(h.boot.grant.device, h.boot.grant.server, h.boot.grant.grantId, Self(h),
               if ActsAsPrimary(h) then Primary else Replica, h.db.epoch, h.db.recordSeq + 1, h.db.recordHash,
               now, RECORD_TTL_MS, now + RECORD_TTL_MS)
  }

  /** `createPrimaryRegistration`: one record stays pending until it is abandoned. */
  function CreateRecord(h: Host, now: int): Host {
    if h.pending.Some? then h else h.(pending := Some(PendingRecord(NextRecord(h, now), false)))
  }

  /** `commitPrimaryRegistration` */
  function CommitRecord(h: Host, hash: RecordHash): Host {
    if h.pending.None? || HashOf(h.pending.value.record) != hash || h.pending.value.committed then h
    else
      var r := h.pending.value.record;
      h.(db := h.db.(recordSeq := r.recordSeq, recordHash := hash,
                     chain := if r.recordSeq in h.db.chain then h.db.chain else h.db.chain[r.recordSeq := r]),
         pending := Some(PendingRecord(r, true)))
  }

  /** `abandonPrimaryRegistration` */
  function AbandonRecord(h: Host, hash: RecordHash): Host {
    if h.pending.Some? && HashOf(h.pending.value.record) == hash then h.(pending := None) else h
  }

  // ---------------------------------------------------------------- resume

  predicate MayResume(h: Host, binding: Binding, acked: set<BridgeId>, configured: set<BridgeId>, granted: bool) {
    && h.resume.Some? && !h.writer && binding.role.Primary?
    && configured == h.resume.value.configured
    && Suffices(acked, configured, h.resume.value.sets)
    && h.pending.Some? && h.pending.value.committed
    && var r := h.pending.value.record;
    && HashOf(r) == binding.recordHash
    && r.role.Primary? && r.epoch == binding.epoch && r.epoch == h.resume.value.epoch
    && r.hostId == Self(h) && r.grantId == h.boot.grant.grantId
    && granted
  }

  /** `resumeWriterAfterRegistrationQuorum` */
  function Resume(h: Host, binding: Binding, acked: set<BridgeId>, configured: set<BridgeId>, granted: bool): Host {
    if !MayResume(h, binding, acked, configured, granted) then h
    else h.(db := Persist(h.boot, h.db, RowWriter, h.resume.value.epoch, AsCandidates(h.resume.value.sets)),
            resume := None, writer := true)
  }

  // ---------------------------------------------------------------- fencing

  /** `fencePrimaryWriter`: without an active grant the row is left as it was. */
  function Fence(h: Host, granted: bool): Host {
    if !ActsAsPrimary(h) then h
    else h.(db := if granted then Persist(h.boot, h.db, RowFenced, h.db.epoch, []) else h.db,
            resume := None, pending := None, writer := false)
  }

  /** What `observeHigherEpoch` is handed: a registration with the certificate that promoted it. */
  datatype Announcement = Announcement(authority: Key, grant: Grant, record: HostRecord, certificate: seq<Receipt>)

  predicate ReceiptCertifies(r: Receipt, a: Announcement, primary: HostId, primaryHash: RecordHash, primaryEpoch: nat,
                             trusted: set<BridgeId>, now: int) {
    && r.bridge in a.grant.witnessBridges && r.bridge in trusted && r.signer == r.bridge
    && 1 <= |r.requestId| <= 128
    && r.server == a.record.server && r.candidate == a.record.hostId
    && r.primary == primary && r.primaryHash == primaryHash && r.primaryEpoch == primaryEpoch
    && r.electionEpoch == a.record.epoch
    && r.voteGrantedAt <= r.issuedAt && r.issuedAt <= now + 5_000
    && now < r.expiresAt <= r.issuedAt + CERTIFICATE_TTL_MS
  }

  /** `validObservedPromotionCertificate` */
  predicate ObservedCertificateValid(a: Announcement, primary: HostId, primaryHash: RecordHash, primaryEpoch: nat,
                                     trusted: set<BridgeId>, now: int) {
    && 2 <= |a.certificate| <= 3 && a.record.epoch == primaryEpoch + 1
    && |trusted| >= 2 && |a.grant.witnessBridges| >= 2
    && (forall i | 0 <= i < |a.certificate| ::
          ReceiptCertifies(a.certificate[i], a, primary, primaryHash, primaryEpoch, trusted, now))
    && (forall i, j | 0 <= i < j < |a.certificate| ::
          a.certificate[i].bridge != a.certificate[j].bridge && a.certificate[i].requestId != a.certificate[j].requestId)
  }

  predicate OwnPrimaryAt(db: Db, n: nat) {
    n in db.chain && db.chain[n].role.Primary? && db.chain[n].epoch == db.epoch
  }

  /** `prior` is this host's last committed primary record of its own epoch. */
  predicate LastOwnPrimary(db: Db, prior: HostRecord) {
    exists n | n in db.chain :: OwnPrimaryAt(db, n) && db.chain[n] == prior && forall m | m in db.chain && OwnPrimaryAt(db, m) :: m <= n
  }

  predicate MayObserve(h: Host, a: Announcement, prior: HostRecord, accepted: bool, granted: bool, trusted: set<BridgeId>, now: int) {
    && a.authority == h.boot.grant.signer
    && RegistrationVerifies(a.record, a.grant, a.authority, false, now)
    && a.record.server == h.boot.grant.server && a.record.role.Primary? && a.record.epoch == h.db.epoch + 1
    && granted && accepted
    && LastOwnPrimary(h.db, prior)
    && ObservedCertificateValid(a, Self(h), HashOf(prior), h.db.epoch, trusted, now)
  }

  /** `observeHigherEpoch`; `accepted` says the announced grant is active in this host's own database. */
  function Observe(h: Host, a: Announcement, prior: HostRecord, accepted: bool, granted: bool, trusted: set<BridgeId>, now: int): Host {
    if !MayObserve(h, a, prior, accepted, granted, trusted, now) then h
    else h.(db := Persist(h.boot, h.db.(epoch := a.record.epoch), RowFenced, a.record.epoch, []),
            resume := None, pending := None, writer := false)
  }

  // ---------------------------------------------------------------- promotion

  /** `strictBridgeWitnessQuorum`: any online observation vetoes and a missing one never counts. */
  predicate StrictBridgeWitnessQuorum(total: nat, observations: seq<Option<bool>>) {
    && 2 <= total <= 3 && |observations| == total
    && Some(true) !in observations
    && Absences(observations) >= Threshold(total)
  }

  /** How many bridges report the primary absent. */
  function Absences(observations: seq<Option<bool>>): nat {
    if observations == [] then 0
    else
      var n := |observations| - 1;
      Absences(observations[..n]) + if observations[n] == Some(false) then 1 else 0
  }

  function VotingBridges(votes: set<Receipt>): set<BridgeId> {
    set r | r in votes :: r.bridge
  }

  predicate VoteBinds(r: Receipt, candidate: HostId, primary: HostId, bridges: set<BridgeId>, epoch: nat, now: int) {
    && r.bridge in bridges && r.candidate == candidate && r.primary == primary
    && r.primaryEpoch == epoch && r.electionEpoch == epoch + 1 && r.primaryHash != NoHash
    && now < r.expiresAt <= r.issuedAt + CERTIFICATE_TTL_MS
    && -OBSERVATION_FRESHNESS_MS <= now - r.issuedAt <= OBSERVATION_FRESHNESS_MS
  }

  predicate MayPromote(h: Host, expectedEpoch: nat, votes: set<Receipt>, granted: bool, now: int) {
    && !h.writer && granted && CanBePromoted(h.boot.grant)
    && expectedEpoch == h.db.epoch
    && h.db.replicaPrimary.Some? && h.db.replicaTrust.Some?
    && var bridges := h.db.replicaTrust.value;
    && 2 <= |bridges| <= 3
    && (forall r | r in votes :: VoteBinds(r, Self(h), h.db.replicaPrimary.value, bridges, expectedEpoch, now))
    && (forall r, q | r in votes && q in votes ::
          r.primaryHash == q.primaryHash && (r.bridge == q.bridge || r.requestId == q.requestId ==> r == q))
    && StrictMajority(VotingBridges(votes), bridges)
  }

  /** `promoteFromWitness` */
  function Promote(h: Host, expectedEpoch: nat, votes: set<Receipt>, granted: bool, now: int): Host {
    if !MayPromote(h, expectedEpoch, votes, granted, now) then h
    else h.(db := Persist(h.boot, h.db.(epoch := expectedEpoch + 1, opSeq := h.db.opSeq + 1), RowWriter, expectedEpoch + 1, []),
            resume := None, pending := None, writer := true)
  }

  // ---------------------------------------------------------------- snapshots and enrollment

  /** A snapshot of another host's database, seen from the host that applies it. `row` is that host's own row in it. */
  datatype Snapshot = Snapshot(
    epoch: nat, seq_: nat, row: Option<Row>, replicaPrimary: Option<HostId>, replicaTrust: Option<set<BridgeId>>,
    enrolled: seq<Candidate>, recordSeq: nat, recordHash: RecordHash, chain: map<nat, HostRecord>)

  predicate SnapshotFits(h: Host, s: Snapshot) {
    && !h.writer && s.epoch >= h.db.epoch && s.seq_ >= h.db.opSeq
    && forall n | n in s.chain && n in h.db.chain :: s.chain[n] == h.db.chain[n]
  }

  /** `applyReplicaSnapshot`: everything is replaced but the replica's own trust and registration chain. */
  function ApplySnapshot(h: Host, s: Snapshot): Host {
    if !SnapshotFits(h, s) then h
    else h.(db := Db(s.epoch, s.seq_, s.row,
                     if h.db.replicaPrimary.Some? then h.db.replicaPrimary else s.replicaPrimary,
                     if h.db.replicaTrust.Some? then h.db.replicaTrust else s.replicaTrust,
                     s.enrolled,
                     if h.db.recordSeq > 0 then h.db.recordSeq else s.recordSeq,
                     if h.db.recordHash != NoHash then h.db.recordHash else s.recordHash,
                     s.chain + h.db.chain))
  }

  /** The last step of `enrollReplica`: remember the replica's witnesses as an election configuration. */
  function Enroll(h: Host, promotable: bool, witnesses: set<BridgeId>, access: set<BridgeId>): Host {
    if !h.writer then h
    else
      var db := h.db.(enrolled := h.db.enrolled + if promotable then [Bridges(witnesses)] else []);
      h.(db := Persist(h.boot, db, RowWriter, db.epoch, if promotable && access != {} then [Bridges(access)] else []))
  }

  /** `configureReplicaTrust`: the primary a replica follows is fixed once. */
  function ConfigureTrust(h: Host, primary: HostId, bridges: set<BridgeId>): Host {
    if h.writer || primary == "" || |bridges| > MAX_BRIDGES then h
    else if h.db.replicaPrimary.Some? && h.db.replicaPrimary.value != primary then h
    else h.(db := h.db.(replicaPrimary := Some(primary), replicaTrust := Some(bridges)))
  }
}
