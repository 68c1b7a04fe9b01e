/**
  * Whole runs of one host: fencing is permanent, the stored epoch never falls, and the witness floor
  * only grows.
  */
module HostRuns {
  import opened Community
  import opened Quorums
  import opened WitnessFloor
  import opened RegistrationQuorum
  import opened HostWriter

  datatype Step =
    | Reboot(configured: set<BridgeId>, granted: bool)
    | Sign(now: int)
    | CommitOwn(hash: RecordHash)
    | Abandon(hash: RecordHash)
    | TryResume(binding: Binding, acked: set<BridgeId>, configured: set<BridgeId>, granted: bool)
    | LoseQuorum(granted: bool)
    | Hear(announcement: Announcement, prior: HostRecord, accepted: bool, granted: bool, trusted: set<BridgeId>, now: int)
    | Win(expectedEpoch: nat, votes: set<Receipt>, granted: bool, now: int)
    | Sync(snapshot: Snapshot)
    | EnrollOne(promotable: bool, witnesses: set<BridgeId>, access: set<BridgeId>)
    | Trust(primary: HostId, bridges: set<BridgeId>)

  /** A reboot keeps the database, the grant and the boot mode; the configured bridges may change. */
  function Do(h: Host, s: Step): Host {
    match s
    case Reboot(configured, granted) => Restore(h.boot.(configured := configured), h.db, false, granted)
    case Sign(now) => CreateRecord(h, now)
    case CommitOwn(hash) => CommitRecord(h, hash)
    case Abandon(hash) => AbandonRecord(h, hash)
    case TryResume(b, acked, configured, granted) => Resume(h, b, acked, configured, granted)
    case LoseQuorum(granted) => Fence(h, granted)
    case Hear(a, prior, accepted, granted, trusted, now) => Observe(h, a, prior, accepted, granted, trusted, now)
    case Win(e, votes, granted, now) => Promote(h, e, votes, granted, now)
    case Sync(snapshot) => ApplySnapshot(h, snapshot)
    case EnrollOne(promotable, witnesses, access) => Enroll(h, promotable, witnesses, access)
    case Trust(primary, bridges) => ConfigureTrust(h, primary, bridges)
  }

  function Run(h: Host, steps: seq<Step>): Host {
    if steps == [] then h else Do(Run(h, steps[..|steps| - 1]), steps[|steps| - 1])
  }

  // ---------------------------------------------------------------- the stored epoch

  lemma StepNeverLowersEpoch(h: Host, s: Step)
    ensures Do(h, s).db.epoch >= h.db.epoch
    ensures Do(h, s).boot.grant == h.boot.grant && Do(h, s).boot.asReplica == h.boot.asReplica
  {
  }

  /** No sequence of reboots, records, resumes, fences, promotions or snapshots lowers a host's epoch. */
  lemma {:induction false} EpochNeverFalls(h: Host, steps: seq<Step>)
    ensures Run(h, steps).db.epoch >= h.db.epoch
    ensures Run(h, steps).boot.grant == h.boot.grant && Run(h, steps).boot.asReplica == h.boot.asReplica
  {
    if steps != [] {
      EpochNeverFalls(h, steps[..|steps| - 1]);
      StepNeverLowersEpoch(Run(h, steps[..|steps| - 1]), steps[|steps| - 1]);
    }
  }

  // ---------------------------------------------------------------- fencing

  /** Not a writer, not waiting to resume, and with nothing stored that a reboot could revive. */
  predicate Inert(h: Host) {
    && !h.writer && h.resume.None?
    && (h.db.row.None? ==> h.boot.asReplica)
    && (h.db.row.Some? ==> !Revivable(h.db.row.value, h.boot.grant, h.db.epoch))
  }

  predicate Revivable(row: Row, grant: Grant, epoch: nat) {
    row.state.RowWriter? && row.grantId == grant.grantId && row.epoch == epoch
  }

  /** Connectivity fencing with an active grant leaves nothing to revive. */
  lemma FencingIsInert(h: Host)
    requires ActsAsPrimary(h)
    ensures Inert(Fence(h, true))
  {
  }

  lemma ObservingIsInert(h: Host, a: Announcement, prior: HostRecord, trusted: set<BridgeId>, now: int)
    requires MayObserve(h, a, prior, true, true, trusted, now)
    ensures Inert(Observe(h, a, prior, true, true, trusted, now))
    ensures Observe(h, a, prior, true, true, trusted, now).db.epoch == h.db.epoch + 1
  {
  }

  /**
    * The steps fencing survives: any at all, but no promotion, and no fitting snapshot that itself
    * carries this host's row as a live writer or takes the row away from a host booted as primary.
    */
  predicate Harmless(h: Host, s: Step) {
    match s
    case Win(e, votes, granted, now) => !MayPromote(h, e, votes, granted, now)
    case Sync(snap) => SnapshotFits(h, snap) ==>
      && (snap.row.Some? ==> !Revivable(snap.row.value, h.boot.grant, snap.epoch))
      && (snap.row.None? ==> h.boot.asReplica)
    case _ => true
  }

  /** One step leaves a fenced host fenced exactly if it is harmless; a snapshot can revive it as well as a promotion. */
  lemma StepKeepsInertIff(h: Host, s: Step)
    requires Inert(h)
    ensures Inert(Do(h, s)) <==> Harmless(h, s)
  {
  }

  /** A snapshot that takes the row away, or brings it as a live writer's, revives a fenced host at its next reboot. */
  lemma HarmfulSnapshotRevives(h: Host, snap: Snapshot, configured: set<BridgeId>)
    requires Inert(h) && !Harmless(h, Sync(snap)) && configured != {}
    ensures var after := Do(h, Sync(snap));
      var row := after.db.row;
      ActsAsPrimary(Do(after, Reboot(configured, true))) <==>
        CurrentFloor(h.boot.(configured := configured), after.db, if row.Some? then AsCandidates(row.value.floor.sets) else []).complete
  {
  }

  predicate AllHarmless(h: Host, steps: seq<Step>) {
    forall i | 0 <= i < |steps| :: Harmless(Run(h, steps[..i]), steps[i])
  }

  /** Fencing is permanent: only a promotion makes the host a writer again, and then at a higher epoch. */
  lemma {:induction false} FencedStaysFenced(h: Host, steps: seq<Step>)
    requires Inert(h) && AllHarmless(h, steps)
    ensures Inert(Run(h, steps)) && !ActsAsPrimary(Run(h, steps))
  {
    if steps != [] {
      var n := |steps| - 1;
      var front := steps[..n];
      assert forall i | 0 <= i < n :: front[..i] == steps[..i] && front[i] == steps[i];
      FencedStaysFenced(h, front);
      assert Harmless(Run(h, front), steps[n]);
      StepKeepsInertIff(Run(h, front), steps[n]);
    }
  }

  /** The one way back: whoever writes after being fenced won an election above the fenced epoch. */
  lemma ReturnNeedsPromotion(h: Host, steps: seq<Step>)
    requires Inert(h) && Run(h, steps).writer
    ensures exists i :: 0 <= i < |steps| && !Harmless(Run(h, steps[..i]), steps[i])
    ensures (forall i | 0 <= i < |steps| && steps[i].Sync? :: Harmless(Run(h, steps[..i]), steps[i])) ==>
      exists i :: 0 <= i < |steps| && steps[i].Win? && Run(h, steps[..i + 1]).db.epoch > h.db.epoch
  {
    if AllHarmless(h, steps) {
      FencedStaysFenced(h, steps);
    }
    var i :| 0 <= i < |steps| && !Harmless(Run(h, steps[..i]), steps[i]);
    if steps[i].Win? {
      var before := Run(h, steps[..i]);
      EpochNeverFalls(h, steps[..i]);
      assert steps[..i + 1][..i] == steps[..i] && steps[..i + 1][i] == steps[i];
      assert Run(h, steps[..i + 1]) == Do(before, steps[i]);
    }
  }

  /** All states of a run of a fenced host are fenced exactly if all its steps are harmless. */
  lemma {:induction false} StaysFencedIff(h: Host, steps: seq<Step>)
    requires Inert(h)
    ensures (forall i | 0 <= i <= |steps| :: Inert(Run(h, steps[..i]))) <==> AllHarmless(h, steps)
  {
    if AllHarmless(h, steps) {
      forall i | 0 <= i <= |steps| ensures Inert(Run(h, steps[..i])) {
        var front := steps[..i];
        assert forall j | 0 <= j < i :: front[..j] == steps[..j] && front[j] == steps[j];
        FencedStaysFenced(h, front);
      }
    }
    if forall i | 0 <= i <= |steps| :: Inert(Run(h, steps[..i])) {
      forall i | 0 <= i < |steps| ensures Harmless(Run(h, steps[..i]), steps[i]) {
        assert steps[..i + 1][..i] == steps[..i] && steps[..i + 1][i] == steps[i];
        assert Inert(Run(h, steps[..i])) && Inert(Run(h, steps[..i + 1]));
        StepKeepsInertIff(Run(h, steps[..i]), steps[i]);
      }
    }
  }

  /** What the database of a fenced host must look like for a reboot to leave it fenced. */
  predicate NothingToRevive(b: Boot, db: Db) {
    match db.row
    case Some(row) => !Revivable(row, b.grant, db.epoch) || !CurrentFloor(b, db, AsCandidates(row.floor.sets)).complete
    case None =>
      var floor := CurrentFloor(b, db, []);
      b.asReplica || !floor.complete || (b.configured == {} && floor.sets != [])
  }

  /**
    * A fence survives a reboot, with whatever bridges are configured then, exactly if the host's own
    * grant was active when it fenced, is not active when it boots, or the row the fence left behind
    * gives a reboot nothing to revive.
    */
  lemma FenceSurvivesRebootIff(h: Host, granted: bool, configured: set<BridgeId>, awake: bool)
    requires ActsAsPrimary(h)
    ensures !ActsAsPrimary(Do(Fence(h, granted), Reboot(configured, awake))) <==>
      granted || !awake || NothingToRevive(h.boot.(configured := configured), h.db)
  {
    hide CurrentFloor;
  }

  /** With two or three bridges configured the floor is not empty, or its history is incomplete. */
  lemma ConfiguredSetIsInFloor(b: Boot, db: Db, additional: seq<Candidate>)
    requires CanBePromoted(b.grant) && 2 <= |b.configured| <= MAX_BRIDGES
    requires Normal(PersistedFloor(db.row, b.grant))
    ensures var f := CurrentFloor(b, db, additional); f.complete ==> b.configured in f.sets
    ensures var f := CurrentFloor(b, db, additional); f.sets != [] || !f.complete
  {
    var p := PersistedFloor(db.row, b.grant);
    var known := additional + ConfiguredSets(b) + TrustSets(db.replicaTrust) + db.enrolled;
    var cs := AsCandidates(p.sets) + known;
    var i := |p.sets| + |additional|;
    assert b.configured != {};
    assert cs[i] == Bridges(b.configured);
    KnownSetIsKeptOrHistoryLost(Floor([], p.complete), cs, i);
  }

  // ---------------------------------------------------------------- the floor over a run

  /** A snapshot replaces the row, so it has to carry an extension of the floor in its own row for this host. */
  predicate KeepsFloor(h: Host, s: Step) {
    s.Sync? && SnapshotFits(h, s.snapshot) ==>
      var now_ := PersistedFloor(s.snapshot.row, h.boot.grant);
      Normal(now_) && Extends(now_, PersistedFloor(h.db.row, h.boot.grant))
  }

  lemma ExtendsItself(f: Floor)
    ensures Extends(f, f)
  {
  }

  lemma StepExtendsFloor(h: Host, s: Step)
    requires Normal(PersistedFloor(h.db.row, h.boot.grant)) && KeepsFloor(h, s)
    ensures var after := Do(h, s);
      && Normal(PersistedFloor(after.db.row, h.boot.grant))
      && Extends(PersistedFloor(after.db.row, h.boot.grant), PersistedFloor(h.db.row, h.boot.grant))
  {
    hide Compute, Normal, Extends, Suffices, ObservedCertificateValid, LastOwnPrimary, MayPromote, RegistrationVerifies;
    var p := PersistedFloor(h.db.row, h.boot.grant);
    forall known: seq<Candidate> ensures Normal(Compute(p, known)) && Extends(Compute(p, known), p) {
      ComputeExtends(p, known);
    }
    ExtendsItself(p);
  }

  /** For a fixed grant the stored floor is append-only, and a lost history is lost for good. */
  lemma {:induction false} FloorIsAppendOnly(h: Host, steps: seq<Step>)
    requires Normal(PersistedFloor(h.db.row, h.boot.grant))
    requires forall i | 0 <= i < |steps| :: KeepsFloor(Run(h, steps[..i]), steps[i])
    ensures var after := Run(h, steps);
      && Normal(PersistedFloor(after.db.row, h.boot.grant))
      && Extends(PersistedFloor(after.db.row, h.boot.grant), PersistedFloor(h.db.row, h.boot.grant))
  {
    if steps != [] {
      var n := |steps| - 1;
      var front := steps[..n];
      assert forall i | 0 <= i < n :: front[..i] == steps[..i] && front[i] == steps[i];
      FloorIsAppendOnly(h, front);
      EpochNeverFalls(h, front);
      StepExtendsFloor(Run(h, front), steps[n]);
    }
  }

  /** Once the history is incomplete no reboot of this database ever offers to resume. */
  lemma LostHistoryBlocksResume(h: Host, configured: set<BridgeId>, granted: bool)
    requires h.db.row.Some? && h.db.row.value.grantId == h.boot.grant.grantId
    requires Normal(h.db.row.value.floor) && !h.db.row.value.floor.complete
    ensures Do(h, Reboot(configured, granted)).resume.None? && !Do(h, Reboot(configured, granted)).writer
  {
    var b := h.boot.(configured := configured);
    var p := PersistedFloor(h.db.row, b.grant);
    var known := AsCandidates(p.sets) + ConfiguredSets(b) + TrustSets(h.db.replicaTrust) + h.db.enrolled;
    ComputeExtends(p, known);
  }

  // ---------------------------------------------------------------- resume and the floor

  /** What is waiting to resume was computed from, and stored as, the floor of the row. */
  predicate ResumeMatchesRow(h: Host) {
    h.resume.Some? ==>
      && h.db.row.Some? && h.db.row.value.grantId == h.boot.grant.grantId
      && h.db.row.value.epoch == h.resume.value.epoch == h.db.epoch
      && h.db.row.value.state.RowWriter?
      && h.db.row.value.floor.sets == h.resume.value.sets
      && Normal(h.db.row.value.floor)
  }

  lemma RestoreMatchesRow(b: Boot, db: Db, granted: bool)
    requires Normal(PersistedFloor(db.row, b.grant))
    ensures ResumeMatchesRow(Restore(b, db, false, granted))
  {
    if granted && db.row.Some? && RowUsable(db.row.value, b, db.epoch) && db.row.value.state.RowWriter? {
      StoredFloorIsComputedFloor(b, db, AsCandidates(db.row.value.floor.sets));
    } else if granted && db.row.None? {
      StoredFloorIsComputedFloor(b, db, []);
    }
  }

  lemma StoredFloorIsComputedFloor(b: Boot, db: Db, extra: seq<Candidate>)
    requires Normal(PersistedFloor(db.row, b.grant))
    ensures var f := CurrentFloor(b, db, extra);
      CurrentFloor(b, db, AsCandidates(f.sets)).sets == f.sets && Normal(CurrentFloor(b, db, AsCandidates(f.sets)))
  {
    var p, known := PersistedFloor(db.row, b.grant), ConfiguredSets(b) + TrustSets(db.replicaTrust) + db.enrolled;
    assert extra + ConfiguredSets(b) + TrustSets(db.replicaTrust) + db.enrolled == extra + known;
    ComputingTwiceIsOnce(p, extra, known);
    var f := CurrentFloor(b, db, extra);
    assert AsCandidates(f.sets) + ConfiguredSets(b) + TrustSets(db.replicaTrust) + db.enrolled == AsCandidates(f.sets) + known;
    ComputeExtends(p, AsCandidates(f.sets) + known);
  }

  /** The runtime only syncs hosts that neither write nor wait to resume (`startReplicaLoop`). */
  predicate LoopGuard(h: Host, s: Step) {
    s.Sync? ==> h.resume.None?
  }

  lemma StepKeepsResumeMatch(h: Host, s: Step)
    requires Normal(PersistedFloor(h.db.row, h.boot.grant)) && ResumeMatchesRow(h) && LoopGuard(h, s)
    requires h.writer ==> h.resume.None?
    ensures ResumeMatchesRow(Do(h, s)) && (Do(h, s).writer ==> Do(h, s).resume.None?)
  {
    if s.Reboot? {
      RestoreMatchesRow(h.boot.(configured := s.configured), h.db, s.granted);
    }
  }

  /**
    * Whoever is allowed to resume was acknowledged by a bridge of every election quorum of every set
    * in the stored floor, so no election under any past configuration can have missed it.
    */
  lemma ResumeMeetsEveryElection(h: Host, b: Binding, acked: set<BridgeId>, configured: set<BridgeId>, granted: bool,
                                 i: nat, election: set<BridgeId>) returns (common: BridgeId)
    requires ResumeMatchesRow(h) && MayResume(h, b, acked, configured, granted)
    requires i < |h.db.row.value.floor.sets| && StrictMajority(election, h.db.row.value.floor.sets[i])
    ensures common in acked && common in election
  {
    common := SufficientAcksMeetEveryElection(acked, configured, h.resume.value.sets, i, election);
  }

  predicate AllGuarded(h: Host, steps: seq<Step>) {
    forall i | 0 <= i < |steps| :: KeepsFloor(Run(h, steps[..i]), steps[i]) && LoopGuard(Run(h, steps[..i]), steps[i])
  }

  /** At every moment of every such run, what waits to resume was stored as the floor of the row. */
  lemma {:induction false} RunKeepsResumeMatch(h: Host, steps: seq<Step>)
    requires Normal(PersistedFloor(h.db.row, h.boot.grant)) && ResumeMatchesRow(h) && (h.writer ==> h.resume.None?)
    requires AllGuarded(h, steps)
    ensures ResumeMatchesRow(Run(h, steps)) && (Run(h, steps).writer ==> Run(h, steps).resume.None?)
    ensures Run(h, steps).boot.grant == h.boot.grant && Normal(PersistedFloor(Run(h, steps).db.row, h.boot.grant))
    ensures Extends(PersistedFloor(Run(h, steps).db.row, h.boot.grant), PersistedFloor(h.db.row, h.boot.grant))
  {
    hide Do, ResumeMatchesRow, Normal, KeepsFloor, LoopGuard;
    FloorIsAppendOnly(h, steps);
    EpochNeverFalls(h, steps);
    if steps != [] {
      var n := |steps| - 1;
      var front := steps[..n];
      assert forall i | 0 <= i < n :: front[..i] == steps[..i] && front[i] == steps[i];
      RunKeepsResumeMatch(h, front);
      assert KeepsFloor(Run(h, front), steps[n]) && LoopGuard(Run(h, front), steps[n]);
      StepKeepsResumeMatch(Run(h, front), steps[n]);
    }
  }

  /**
    * Over whole runs: acknowledgements that let a host resume meet every election quorum of every set it
    * ever stored in its floor, also of sets configured and dropped again long before.
    */
  lemma ResumeMeetsElectionsOfThePast(h: Host, steps: seq<Step>, b: Binding, acked: set<BridgeId>, configured: set<BridgeId>,
                                      granted: bool, i: nat, election: set<BridgeId>) returns (common: BridgeId)
    requires Normal(PersistedFloor(h.db.row, h.boot.grant)) && ResumeMatchesRow(h) && (h.writer ==> h.resume.None?)
    requires AllGuarded(h, steps) && MayResume(Run(h, steps), b, acked, configured, granted)
    requires i < |PersistedFloor(h.db.row, h.boot.grant).sets|
    requires StrictMajority(election, PersistedFloor(h.db.row, h.boot.grant).sets[i])
    ensures common in acked && common in election
  {
    RunKeepsResumeMatch(h, steps);
    var after := Run(h, steps);
    assert after.db.row.value.floor.sets[i] == PersistedFloor(h.db.row, h.boot.grant).sets[i];
    common := ResumeMeetsEveryElection(after, b, acked, configured, granted, i, election);
  }

  /** A snapshot without this host's own row forgets its floor, unless there was nothing to remember. */
  lemma RowlessSnapshotKeepsFloorIff(h: Host, s: Snapshot)
    requires SnapshotFits(h, s) && s.row.None?
    ensures Extends(PersistedFloor(ApplySnapshot(h, s).db.row, h.boot.grant), PersistedFloor(h.db.row, h.boot.grant))
      <==> PersistedFloor(h.db.row, h.boot.grant) == NOTHING
  {
  }
}
