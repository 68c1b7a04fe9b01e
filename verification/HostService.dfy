/**
  * The writer fields of `ServerService`, updated in place. Every method is tied to the transition of
  * the same name in `HostWriter`, which the theorems about whole runs are about.
  */
module HostService {
  import opened Community
  import opened Quorums
  import opened WitnessFloor
  import opened RegistrationQuorum
  import opened HostWriter

  /** `add` for each value of a list. */
  method AddEach(f: Floor, values: seq<Candidate>) returns (g: Floor)
    ensures g == AddAll(f, values)
  {
    var sets, complete := f.sets, f.complete;
    for i := 0 to |values|
      invariant Floor(sets, complete) == AddAll(f, values[..i])
    {
      AddAllConcat(f, values[..i], [values[i]]);
      assert values[..i + 1] == values[..i] + [values[i]];
      AddOne(Floor(sets, complete), values[i]);
      if values[i].Malformed? || |values[i].ids| > MAX_BRIDGES {
        complete := false;
      } else if |values[i].ids| >= 2 && values[i].ids !in sets {
        if |sets| >= MAX_SETS { complete := false; } else { sets := sets + [values[i].ids]; }
      }
    }
    assert values[..|values|] == values;
    return Floor(sets, complete);
  }

  lemma AddOne(f: Floor, c: Candidate)
    ensures AddAll(f, [c]) == Add(f, c)
  {
    assert [c][1..] == [];
    assert AddAll(Add(f, c), []) == Add(f, c);
  }

  /** `strictBridgeWitnessQuorum` over the list of live observations. */
  method CountWitnesses(total: nat, observations: seq<Option<bool>>) returns (strict: bool)
    ensures strict == StrictBridgeWitnessQuorum(total, observations)
  {
    if total < 2 || total > 3 || |observations| != total { return false; }
    var absent: nat := 0;
    for i := 0 to |observations|
      invariant Some(true) !in observations[..i]
      invariant absent == Absences(observations[..i])
    {
      assert observations[..i + 1] == observations[..i] + [observations[i]] && observations[..i + 1][..i] == observations[..i];
      if observations[i] == Some(true) { return false; }
      if observations[i] == Some(false) { absent := absent + 1; }
    }
    assert observations[..|observations|] == observations;
    return absent >= total / 2 + 1;
  }

  /** The list `promoteFromWitness` hands over: a vote is an absence, no vote is no observation. */
  function Observed<T(==)>(bridges: seq<T>, voted: set<T>): seq<Option<bool>> {
    seq(|bridges|, i requires 0 <= i < |bridges| => if bridges[i] in voted then Some(false) else None)
  }

  lemma ObservedFront<T>(bridges: seq<T>, voted: set<T>)
    requires bridges != [] && Distinct(bridges)
    ensures var n := |bridges| - 1; Observed(bridges, voted)[..n] == Observed(bridges[..n], voted - {bridges[n]})
  {
  }

  lemma VotesWithoutLast<T>(bridges: seq<T>, voted: set<T>)
    requires bridges != [] && forall b | b in voted :: b in bridges
    ensures var n := |bridges| - 1;
      (forall b | b in voted - {bridges[n]} :: b in bridges[..n])
      && |voted| == |voted - {bridges[n]}| + if bridges[n] in voted then 1 else 0
  {
    var n := |bridges| - 1;
    assert bridges == bridges[..n] + [bridges[n]];
    if bridges[n] in voted { assert voted == (voted - {bridges[n]}) + {bridges[n]}; } else { assert voted == voted - {bridges[n]}; }
  }

  lemma {:induction false} AbsencesAreVotes<T>(bridges: seq<T>, voted: set<T>)
    requires Distinct(bridges)
    requires forall b | b in voted :: b in bridges
    ensures Absences(Observed(bridges, voted)) == |voted|
    decreases |bridges|
  {
    if bridges == [] {
      assert voted == {};
    } else {
      var n := |bridges| - 1;
      VotesWithoutLast(bridges, voted);
      ObservedFront(bridges, voted);
      AbsencesAreVotes(bridges[..n], voted - {bridges[n]});
    }
  }

  /** The live-witness policy is a strict majority of the configured bridges, two or three of them. */
  lemma WitnessListIsMajority<T>(bridges: seq<T>, voted: set<T>)
    requires Distinct(bridges)
    requires forall b | b in voted :: b in bridges
    ensures StrictBridgeWitnessQuorum(|bridges|, Observed(bridges, voted)) <==>
      2 <= |bridges| <= 3 && |voted| >= Threshold(|bridges|)
  {
    AbsencesAreVotes(bridges, voted);
  }

  /** `new Set(list)` */
  method SetOf<T(==)>(list: seq<T>) returns (ids: set<T>)
    ensures ids == Ids(list)
  {
    ids := {};
    for i := 0 to |list|
      invariant ids == Ids(list[..i])
    {
      IdsUpTo(list, i);
      ids := ids + {list[i]};
    }
    assert list[..|list|] == list;
  }

  /** A verified vote as `promoteFromWitness` receives it; `observedAt` is the receipt's `issuedAt`. */
  datatype Observation = Observation(receipt: Receipt, primaryOnline: bool)

  function ReceiptsOf(observations: seq<Observation>): seq<Receipt> {
    seq(|observations|, i requires 0 <= i < |observations| => observations[i].receipt)
  }

  function BridgesOf(receipts: seq<Receipt>): seq<BridgeId> {
    seq(|receipts|, i requires 0 <= i < |receipts| => receipts[i].bridge)
  }

  function RequestsOf(receipts: seq<Receipt>): seq<string> {
    seq(|receipts|, i requires 0 <= i < |receipts| => receipts[i].requestId)
  }

  function HashesOf(receipts: seq<Receipt>): seq<RecordHash> {
    seq(|receipts|, i requires 0 <= i < |receipts| => receipts[i].primaryHash)
  }

  /** What the lists must satisfy beyond the votes in them: no bridge and no request twice, every vote of an absent primary. */
  predicate ListsFit(bridgeIds: seq<BridgeId>, observations: seq<Observation>) {
    && Distinct(bridgeIds) && Distinct(BridgesOf(ReceiptsOf(observations))) && Distinct(RequestsOf(ReceiptsOf(observations)))
    && forall o | o in observations :: !o.primaryOnline
  }

  predicate AllBind(observations: seq<Observation>, candidate: HostId, primary: HostId, bridges: set<BridgeId>, epoch: nat, now: int) {
    forall o | o in observations :: !o.primaryOnline && VoteBinds(o.receipt, candidate, primary, bridges, epoch, now)
  }

  /** The `some(...)` over the observations, negated. */
  method EveryObservationBinds(bridgeIds: seq<BridgeId>, observations: seq<Observation>, candidate: HostId, primary: HostId,
                               epoch: nat, now: int) returns (all: bool)
    ensures all == AllBind(observations, candidate, primary, Ids(bridgeIds), epoch, now)
  {
    for i := 0 to |observations|
      invariant AllBind(observations[..i], candidate, primary, Ids(bridgeIds), epoch, now)
    {
      var entry := observations[i].receipt;
      if entry.bridge !in bridgeIds || entry.candidate != candidate || entry.primary != primary || observations[i].primaryOnline
        || entry.primaryEpoch != epoch || entry.electionEpoch != epoch + 1 || entry.primaryHash == NoHash
        || entry.expiresAt <= now || entry.expiresAt > entry.issuedAt + 24 * 3_600_000
        || now - entry.issuedAt > 10_000 || entry.issuedAt - now > 10_000 {
        assert observations[i] in observations;
        return false;
      }
    }
    return true;
  }

  /** `byBridge` and the list of live observations made from it. */
  method ObservationsByBridge(bridgeIds: seq<BridgeId>, observations: seq<Observation>) returns (live: seq<Option<bool>>)
    ensures live == Observed(bridgeIds, Ids(BridgesOf(ReceiptsOf(observations))))
  {
    var byBridge: map<BridgeId, Observation> := map[];
    ghost var voters := BridgesOf(ReceiptsOf(observations));
    for i := 0 to |observations|
      invariant byBridge.Keys == Ids(voters[..i])
    {
      IdsUpTo(voters, i);
      byBridge := byBridge[observations[i].receipt.bridge := observations[i]];
    }
    assert voters[..|observations|] == voters;
    live := [];
    for i := 0 to |bridgeIds|
      invariant live == Observed(bridgeIds[..i], byBridge.Keys)
    {
      live := live + [if bridgeIds[i] in byBridge then Some(false) else None];
    }
    assert bridgeIds[..|bridgeIds|] == bridgeIds;
  }

  lemma VotersAreListed(receipts: seq<Receipt>)
    ensures VotingBridges(Ids(receipts)) == Ids(BridgesOf(receipts))
  {
    forall r | r in Ids(receipts) ensures r.bridge in Ids(BridgesOf(receipts)) {
      var i :| 0 <= i < |receipts| && receipts[i] == r;
      assert BridgesOf(receipts)[i] == r.bridge;
    }
    forall b | b in Ids(BridgesOf(receipts)) ensures b in VotingBridges(Ids(receipts)) {
      var i :| 0 <= i < |receipts| && BridgesOf(receipts)[i] == b;
      assert receipts[i] in Ids(receipts);
    }
  }

  predicate OneHash(votes: set<Receipt>) {
    forall r, q | r in votes && q in votes :: r.primaryHash == q.primaryHash
  }

  predicate NoTwoVotes(votes: set<Receipt>) {
    forall r, q | r in votes && q in votes && (r.bridge == q.bridge || r.requestId == q.requestId) :: r == q
  }

  /** One distinct hash among the receipts is the same hash in every one of them. */
  lemma OneHashIff(receipts: seq<Receipt>)
    requires receipts != []
    ensures |Ids(HashesOf(receipts))| == 1 <==> OneHash(Ids(receipts))
  {
    var hashes, first := Ids(HashesOf(receipts)), HashesOf(receipts)[0];
    assert first in hashes;
    forall r | r in Ids(receipts) ensures r.primaryHash in hashes {
      var i :| 0 <= i < |receipts| && receipts[i] == r;
      assert HashesOf(receipts)[i] == r.primaryHash;
    }
    if OneHash(Ids(receipts)) {
      forall x | x in hashes ensures x == first {
        var i :| 0 <= i < |receipts| && HashesOf(receipts)[i] == x;
        assert receipts[i] in Ids(receipts) && receipts[0] in Ids(receipts);
      }
      assert hashes == {first};
    }
    if |hashes| == 1 {
      var rest := hashes - {first};
      assert hashes == rest + {first} && rest == {};
      forall r, q | r in Ids(receipts) && q in Ids(receipts) ensures r.primaryHash == q.primaryHash {
        assert r.primaryHash in hashes && q.primaryHash in hashes;
      }
    }
  }

  /** Lists without repetition hold no two votes of one bridge or one request. */
  lemma DistinctListsGiveOneVoteEach(receipts: seq<Receipt>)
    requires Distinct(BridgesOf(receipts)) && Distinct(RequestsOf(receipts))
    ensures NoTwoVotes(Ids(receipts))
  {
    var bridges, requests := BridgesOf(receipts), RequestsOf(receipts);
    forall r, q | r in Ids(receipts) && q in Ids(receipts) && (r.bridge == q.bridge || r.requestId == q.requestId) ensures r == q {
      var i :| 0 <= i < |receipts| && receipts[i] == r;
      var j :| 0 <= j < |receipts| && receipts[j] == q;
      assert bridges[i] == r.bridge && bridges[j] == q.bridge && requests[i] == r.requestId && requests[j] == q.requestId;
    }
  }

  /**
    * What the list checks decide. The stored bridges and the observations are lists; the checks on them,
    * the last being the live-witness policy, hold exactly if the votes elect this host.
    */
  lemma ListsElectIff(h: Host, epoch: nat, bridgeIds: seq<BridgeId>, observations: seq<Observation>, granted: bool, now: int)
    requires ListsFit(bridgeIds, observations)
    requires !h.writer && granted && CanBePromoted(h.boot.grant) && epoch == h.db.epoch
    requires h.db.replicaPrimary.Some? && h.db.replicaTrust == Some(Ids(bridgeIds))
    ensures MayPromote(h, epoch, Ids(ReceiptsOf(observations)), granted, now) <==>
      && |Ids(HashesOf(ReceiptsOf(observations)))| == 1
      && AllBind(observations, Self(h), h.db.replicaPrimary.value, Ids(bridgeIds), epoch, now)
      && StrictBridgeWitnessQuorum(|bridgeIds|, Observed(bridgeIds, Ids(BridgesOf(ReceiptsOf(observations)))))
  {
    hide VoteBinds;
    var receipts, primary := ReceiptsOf(observations), h.db.replicaPrimary.value;
    var votes, voted := Ids(receipts), Ids(BridgesOf(receipts));
    VotersAreListed(receipts);
    DistinctListsGiveOneVoteEach(receipts);
    DistinctIffSize(bridgeIds);
    var bind := AllBind(observations, Self(h), primary, Ids(bridgeIds), epoch, now);
    assert bind <==> forall r | r in votes :: VoteBinds(r, Self(h), primary, Ids(bridgeIds), epoch, now) by {
      forall o | o in observations ensures o.receipt in votes {
        var i :| 0 <= i < |observations| && observations[i] == o;
        assert receipts[i] == o.receipt;
      }
    }
    assert (forall r, q | r in votes && q in votes ::
              r.primaryHash == q.primaryHash && (r.bridge == q.bridge || r.requestId == q.requestId ==> r == q)) <==> OneHash(votes);
    if observations == [] {
      assert voted == {} && !StrictMajority(VotingBridges(votes), Ids(bridgeIds));
      assert Ids(HashesOf(receipts)) == {};
    } else {
      OneHashIff(receipts);
      if bind {
        BoundVotersAreListed(observations, bridgeIds, Self(h), primary, epoch, now);
        WitnessListIsMajority(bridgeIds, voted);
      }
    }
  }

  lemma BoundVotersAreListed(observations: seq<Observation>, bridgeIds: seq<BridgeId>, candidate: HostId, primary: HostId,
                             epoch: nat, now: int)
    requires AllBind(observations, candidate, primary, Ids(bridgeIds), epoch, now)
    ensures Ids(BridgesOf(ReceiptsOf(observations))) <= Ids(bridgeIds)
    ensures forall b | b in Ids(BridgesOf(ReceiptsOf(observations))) :: b in bridgeIds
  {
    forall b | b in Ids(BridgesOf(ReceiptsOf(observations))) ensures b in Ids(bridgeIds) {
      var i :| 0 <= i < |observations| && BridgesOf(ReceiptsOf(observations))[i] == b;
      assert observations[i] in observations;
    }
  }

  /** `validObservedPromotionCertificate` as a loop over the receipts. */
  method ValidObservedPromotionCertificate(a: Announcement, primary: HostId, primaryHash: RecordHash, primaryEpoch: nat,
                                           trusted: set<BridgeId>, now: int) returns (valid: bool)
    ensures valid == ObservedCertificateValid(a, primary, primaryHash, primaryEpoch, trusted, now)
  {
    hide ReceiptCertifies, Distinct;
    var receipts := a.certificate;
    SeparateIff(receipts);
    if |receipts| < 2 || |receipts| > 3 || a.record.epoch != primaryEpoch + 1 { return false; }
    if |trusted| < 2 || |a.grant.witnessBridges| < 2 { return false; }
    var bridgeIds: set<BridgeId>, requestIds: set<string> := {}, {};
    ghost var bridges, requests := BridgesOf(receipts), RequestsOf(receipts);
    DistinctIffSize(bridges[..0]);
    DistinctIffSize(requests[..0]);
    for i := 0 to |receipts|
      invariant bridgeIds == Ids(bridges[..i]) && requestIds == Ids(requests[..i])
      invariant Distinct(bridges[..i]) && Distinct(requests[..i])
      invariant forall j | 0 <= j < i :: ReceiptCertifies(receipts[j], a, primary, primaryHash, primaryEpoch, trusted, now)
    {
      IdsUpTo(bridges, i);
      IdsUpTo(requests, i);
      if !ReceiptCertifies(receipts[i], a, primary, primaryHash, primaryEpoch, trusted, now) { return false; }
      if receipts[i].bridge in bridgeIds || receipts[i].requestId in requestIds {
        if Distinct(bridges) { DistinctFront(bridges, i + 1); }
        if Distinct(requests) { DistinctFront(requests, i + 1); }
        return false;
      }
      bridgeIds := bridgeIds + {receipts[i].bridge};
      requestIds := requestIds + {receipts[i].requestId};
    }
    assert bridges[..|receipts|] == bridges && requests[..|receipts|] == requests;
    DistinctIffSize(bridges);
    return |bridgeIds| >= 2;
  }

  lemma SeparateIff(receipts: seq<Receipt>)
    ensures Distinct(BridgesOf(receipts)) && Distinct(RequestsOf(receipts)) <==>
      forall i, j | 0 <= i < j < |receipts| :: receipts[i].bridge != receipts[j].bridge && receipts[i].requestId != receipts[j].requestId
  {
    var bridges, requests := BridgesOf(receipts), RequestsOf(receipts);
    forall i, j | Distinct(bridges) && Distinct(requests) && 0 <= i < j < |receipts|
      ensures receipts[i].bridge != receipts[j].bridge && receipts[i].requestId != receipts[j].requestId
    {
      assert bridges[i] != bridges[j] && requests[i] != requests[j];
    }
  }

  lemma DistinctFront<T>(list: seq<T>, i: nat)
    requires i <= |list| && Distinct(list)
    ensures Distinct(list[..i])
  {
  }

  class ServerService {
    const boot: Boot
    var db: Db
    var writer: bool
    var writerResumeEligibility: Option<Eligibility>
    var pendingRegistration: Option<PendingRecord>

    function Value(): Host
      reads this
    {
      Host(boot, db, writer, writerResumeEligibility, pendingRegistration)
    }

    /** `writerWitnessState` */
    method WriterWitnessState(additional: seq<Candidate>) returns (f: Floor)
      ensures f == CurrentFloor(boot, db, additional)
    {
      hide AddAll, AsCandidates, PersistedFloor, ConfiguredSets, TrustSets;
      var persisted := PersistedFloor(db.row, boot.grant);
      TrustIsOne(AddAll(AddAll(AddAll(Floor([], persisted.complete), AsCandidates(persisted.sets)), additional), ConfiguredSets(boot)), db.replicaTrust);
      ghost var start, own := Floor([], persisted.complete), AsCandidates(persisted.sets);
      ghost var fromBoot, trust := ConfiguredSets(boot), TrustSets(db.replicaTrust);
      f := AddEach(Floor([], persisted.complete), AsCandidates(persisted.sets));
      f := AddEach(f, additional);
      if CanBePromoted(boot.grant) && boot.configured != {} { f := AddEach(f, [Bridges(boot.configured)]); }
      if CanBePromoted(boot.grant) && boot.grant.witnessBridges != {} { f := AddEach(f, [Bridges(boot.grant.witnessBridges)]); }
      AddAllTwice(AddAll(AddAll(start, own), additional), boot);
      if db.replicaTrust.Some? { f := AddEach(f, [Bridges(db.replicaTrust.value)]); }
      f := AddEach(f, db.enrolled);
      AddAllConcat(start, own, additional);
      AddAllConcat(start, own + additional, fromBoot);
      AddAllConcat(start, own + additional + fromBoot, trust);
      AddAllConcat(start, own + additional + fromBoot + trust, db.enrolled);
      assert own + additional + fromBoot + trust + db.enrolled == own + (additional + fromBoot + trust + db.enrolled);
    }

    /** `persistWriterState` */
    method PersistWriterState(state: RowState, epoch: nat, additional: seq<Candidate>)
      modifies this`db
      ensures db == Persist(boot, old(db), state, epoch, additional)
    {
      var known := WriterWitnessState(additional);
      db := db.(row := Some(Row(state, boot.grant.grantId, epoch, known)));
    }

    /** Process start: `restoreWriterState`. */
    constructor (boot: Boot, db: Db, createdCommunity: bool, granted: bool)
      ensures this.boot == boot && Value() == Restore(boot, db, createdCommunity, granted)
    {
      this.boot := boot;
      this.db := db;
      writer := false;
      writerResumeEligibility := None;
      pendingRegistration := None;
      new;
      if !granted { return; }
      if this.db.row.None? {
        var known := WriterWitnessState([]);
        if !boot.asReplica && (createdCommunity || (boot.configured == {} && known.sets == [] && known.complete)) {
          PersistWriterState(RowWriter, this.db.epoch, AsCandidates(known.sets));
          writer := true;
        } else if !boot.asReplica && boot.configured != {} {
          PersistWriterState(RowWriter, this.db.epoch, AsCandidates(known.sets));
          if known.complete {
            writerResumeEligibility := Some(Eligibility(this.db.epoch, boot.configured, known.sets));
          }
        }
        return;
      }
      var row := this.db.row.value;
      writer := RowUsable(row, boot, this.db.epoch) && row.state.RowWriter?;
      if writer {
        var known := WriterWitnessState(AsCandidates(row.floor.sets));
        PersistWriterState(RowWriter, this.db.epoch, AsCandidates(known.sets));
        if known.sets != [] || !known.complete {
          writer := false;
          if known.complete {
            writerResumeEligibility := Some(Eligibility(this.db.epoch, boot.configured, known.sets));
          }
        }
      }
    }

    method CreatePrimaryRegistration(now: int)
      modifies this`pendingRegistration
      ensures Value() == CreateRecord(old(Value()), now)
    {
      if pendingRegistration.Some? { return; }
      pendingRegistration := Some(PendingRecord(NextRecord(Value(), now), false));
    }

    method CommitPrimaryRegistration(hash: RecordHash) returns (ok: bool)
      modifies this
      ensures Value() == CommitRecord(old(Value()), hash)
      ensures ok <==> old(pendingRegistration).Some? && HashOf(old(pendingRegistration).value.record) == hash
      ensures db.chain.Keys >= old(db).chain.Keys && forall n | n in old(db).chain :: db.chain[n] == old(db).chain[n]
    {
      if pendingRegistration.None? || HashOf(pendingRegistration.value.record) != hash { return false; }
      if pendingRegistration.value.committed { return true; }
      var record := pendingRegistration.value.record;
      db := db.(recordSeq := record.recordSeq, recordHash := hash);
      if record.recordSeq !in db.chain { db := db.(chain := db.chain[record.recordSeq := record]); }
      pendingRegistration := Some(PendingRecord(record, true));
      return true;
    }

    method AbandonPrimaryRegistration(hash: RecordHash)
      modifies this`pendingRegistration
      ensures Value() == AbandonRecord(old(Value()), hash)
    {
      if pendingRegistration.Some? && HashOf(pendingRegistration.value.record) == hash { pendingRegistration := None; }
    }

    /** Every historical witness set has to be met by a strict majority of its own. */
    method MeetsEverySet(acked: set<BridgeId>, sets: seq<set<BridgeId>>) returns (meets: bool)
      ensures meets <==> forall i | 0 <= i < |sets| :: |acked * sets[i]| >= Threshold(|sets[i]|)
    {
      for i := 0 to |sets|
        invariant forall j | 0 <= j < i :: |acked * sets[j]| >= Threshold(|sets[j]|)
      {
        if |acked * sets[i]| < |sets[i]| / 2 + 1 { return false; }
      }
      return true;
    }

    /** `resumeWriterAfterRegistrationQuorum` */
    method ResumeWriterAfterRegistrationQuorum(binding: Binding, acked: set<BridgeId>, configured: set<BridgeId>, granted: bool)
      returns (resumed: bool)
      modifies this
      ensures Value() == Resume(old(Value()), binding, acked, configured, granted)
      ensures resumed == MayResume(old(Value()), binding, acked, configured, granted)
    {
      if writerResumeEligibility.None? || writer || binding.role.Replica? { return false; }
      var eligible := writerResumeEligibility.value;
      if configured != eligible.configured || !(acked <= configured) || configured == {}
        || |acked| < |configured| / 2 + 1 { return false; }
      var meets := MeetsEverySet(acked, eligible.sets);
      if !meets { return false; }
      if pendingRegistration.None? || !pendingRegistration.value.committed
        || HashOf(pendingRegistration.value.record) != binding.recordHash { return false; }
      var record := pendingRegistration.value.record;
      if record.role.Replica? || record.epoch != binding.epoch || record.epoch != eligible.epoch
        || record.hostId != boot.grant.hostId || record.grantId != boot.grant.grantId || !granted { return false; }
      PersistWriterState(RowWriter, eligible.epoch, AsCandidates(eligible.sets));
      writerResumeEligibility := None;
      writer := true;
      return true;
    }

    /** `fencePrimaryWriter` */
    method FencePrimaryWriter(granted: bool) returns (fenced: bool)
      modifies this
      ensures Value() == Fence(old(Value()), granted) && !writer && writerResumeEligibility.None?
      ensures fenced == ActsAsPrimary(old(Value()))
    {
      if !writer && writerResumeEligibility.None? { return false; }
      if granted { PersistWriterState(RowFenced, db.epoch, []); }
      writerResumeEligibility := None;
      pendingRegistration := None;
      writer := false;
      return true;
    }

    /** The last committed primary record of this host's own epoch. */
    method PriorPrimary() returns (prior: Option<HostRecord>)
      ensures prior.Some? ==> LastOwnPrimary(db, prior.value)
      ensures prior.None? ==> forall p :: !LastOwnPrimary(db, p)
    {
      var rows, last: nat := db.chain.Keys, 0;
      prior := None;
      while rows != {}
        invariant rows <= db.chain.Keys
        invariant prior.None? ==> forall n | n in db.chain && n !in rows :: !OwnPrimaryAt(db, n)
        invariant prior.Some? ==> OwnPrimaryAt(db, last) && db.chain[last] == prior.value
        invariant prior.Some? ==> forall n | n in db.chain && n !in rows && OwnPrimaryAt(db, n) :: n <= last
      {
        var n :| n in rows;
        if db.chain[n].role.Primary? && db.chain[n].epoch == db.epoch && (prior.None? || last < n) {
          prior, last := Some(db.chain[n]), n;
        }
        rows := rows - {n};
      }
    }

    /** `observeHigherEpoch`. Without a prior record of its own there is no `prior` it could be called with. */
    method ObserveHigherEpoch(a: Announcement, accepted: bool, granted: bool, trusted: set<BridgeId>, now: int)
      returns (observed: bool, ghost prior: HostRecord)
      modifies this
      ensures LastOwnPrimary(old(db), prior) || forall p :: !LastOwnPrimary(old(db), p)
      ensures Value() == Observe(old(Value()), a, prior, accepted, granted, trusted, now)
      ensures observed == MayObserve(old(Value()), a, prior, accepted, granted, trusted, now)
    {
      hide LastOwnPrimary, RegistrationVerifies, ObservedCertificateValid, CurrentFloor;
      var last := PriorPrimary();
      prior := if last.Some? then last.value else a.record;
      if a.authority != boot.grant.signer { return false, prior; }
      if !RegistrationVerifies(a.record, a.grant, a.authority, false, now)
        || a.record.server != boot.grant.server || a.record.role.Replica? || a.record.epoch != db.epoch + 1 { return false, prior; }
      if !granted || !accepted || last.None? { return false, prior; }
      var valid := ValidObservedPromotionCertificate(a, boot.grant.hostId, HashOf(last.value), db.epoch, trusted, now);
      if !valid { return false, prior; }
      db := db.(epoch := a.record.epoch);
      PersistWriterState(RowFenced, a.record.epoch, []);
      writerResumeEligibility := None;
      pendingRegistration := None;
      writer := false;
      return true, prior;
    }

    /** `promoteFromWitness`; `bridgeIds` is the stored list `replica_witness_bridge_ids`, empty if there is none. */
    method PromoteFromWitness(expectedEpoch: nat, bridgeIds: seq<BridgeId>, observations: seq<Observation>, granted: bool, now: int)
      returns (promoted: bool)
      requires if db.replicaTrust.Some? then Ids(bridgeIds) == db.replicaTrust.value else bridgeIds == []
      modifies this
      ensures promoted == (ListsFit(bridgeIds, observations) && MayPromote(old(Value()), expectedEpoch, Ids(ReceiptsOf(observations)), granted, now))
      ensures Value() == if promoted then Promote(old(Value()), expectedEpoch, Ids(ReceiptsOf(observations)), granted, now) else old(Value())
    {
      hide MayPromote, VoteBinds, StrictBridgeWitnessQuorum, Observed, CurrentFloor;
      promoted := MayBePromoted(expectedEpoch, bridgeIds, observations, granted, now);
      if !promoted { return; }
      db := db.(epoch := expectedEpoch + 1, opSeq := db.opSeq + 1);
      PersistWriterState(RowWriter, expectedEpoch + 1, []);
      writerResumeEligibility := None;
      pendingRegistration := None;
      writer := true;
    }

    /** The checks of `promoteFromWitness`, in its order. */
    method MayBePromoted(expectedEpoch: nat, bridgeIds: seq<BridgeId>, observations: seq<Observation>, granted: bool, now: int)
      returns (may: bool)
      requires if db.replicaTrust.Some? then Ids(bridgeIds) == db.replicaTrust.value else bridgeIds == []
      ensures may == (ListsFit(bridgeIds, observations) && MayPromote(Value(), expectedEpoch, Ids(ReceiptsOf(observations)), granted, now))
    {
      hide VoteBinds, StrictBridgeWitnessQuorum, Observed;
      if writer || !granted || CanPromote !in boot.grant.capabilities || expectedEpoch != db.epoch { return false; }
      DistinctIffSize(bridgeIds);
      if db.replicaPrimary.None? || |bridgeIds| < 2 { return false; }
      var bridges := SetOf(bridgeIds);
      var receipts := ReceiptsOf(observations);
      var voters := SetOf(BridgesOf(receipts));
      var requests := SetOf(RequestsOf(receipts));
      var hashes := SetOf(HashesOf(receipts));
      DistinctIffSize(BridgesOf(receipts));
      DistinctIffSize(RequestsOf(receipts));
      if |bridges| != |bridgeIds| || |voters| != |observations| || |requests| != |observations| { return false; }
      var bound := EveryObservationBinds(bridgeIds, observations, boot.grant.hostId, db.replicaPrimary.value, expectedEpoch, now);
      var live := ObservationsByBridge(bridgeIds, observations);
      var strict := CountWitnesses(|bridgeIds|, live);
      may := |hashes| == 1 && bound && strict;
      if ListsFit(bridgeIds, observations) {
        ListsElectIff(Value(), expectedEpoch, bridgeIds, observations, granted, now);
      }
    }

    /** `configureReplicaTrust`; both exceptions leave everything as it was. */
    method ConfigureReplicaTrust(primary: HostId, bridges: set<BridgeId>)
      modifies this`db
      ensures Value() == ConfigureTrust(old(Value()), primary, bridges)
    {
      if writer || primary == "" || |bridges| > MAX_BRIDGES { return; }
      if db.replicaPrimary.Some? && db.replicaPrimary.value != primary { return; }
      db := db.(replicaPrimary := Some(primary), replicaTrust := Some(bridges));
    }

    /** The transaction at the end of `enrollReplica`. */
    method EnrollReplica(promotable: bool, witnesses: set<BridgeId>, access: set<BridgeId>)
      modifies this`db
      ensures Value() == Enroll(old(Value()), promotable, witnesses, access)
    {
      if !writer { return; }
      db := db.(enrolled := db.enrolled + if promotable then [Bridges(witnesses)] else []);
      PersistWriterState(RowWriter, db.epoch, if promotable && access != {} then [Bridges(access)] else []);
    }
  }

  lemma TrustIsOne(f: Floor, trust: Option<set<BridgeId>>)
    ensures AddAll(f, TrustSets(trust)) == if trust.Some? then AddAll(f, [Bridges(trust.value)]) else f
  {
  }

  lemma AddAllTwice(f: Floor, b: Boot)
    ensures AddAll(f, ConfiguredSets(b)) ==
      var first := if CanBePromoted(b.grant) && b.configured != {} then AddAll(f, [Bridges(b.configured)]) else f;
      if CanBePromoted(b.grant) && b.grant.witnessBridges != {} then AddAll(first, [Bridges(b.grant.witnessBridges)]) else first
  {
    var configured := if CanBePromoted(b.grant) && b.configured != {} then [Bridges(b.configured)] else [];
    var granted := if CanBePromoted(b.grant) && b.grant.witnessBridges != {} then [Bridges(b.grant.witnessBridges)] else [];
    AddAllConcat(f, configured, granted);
  }
}
