/**
  * Why a promotion never meets a writer whose lease still runs: the absence every voter attested is
  * longer than a lease, and the last renewal inside it was served by one of those very voters.
  */
module LeaseSafety {
  import opened Community
  import opened Quorums
  import opened Bridge
  import opened HostWriter
  import opened Coordinator
  import opened Failover
  import opened TimedSystem
  import opened WitnessCollection
  import opened FailoverElections

  lemma EarliestOf(votes: set<Receipt>) returns (first: Receipt)
    requires votes != {}
    ensures first in votes && forall r | r in votes :: first.issuedAt <= r.issuedAt
  {
    first :| first in votes;
    if votes != {first} {
      var next := EarliestOf(votes - {first});
      if next.issuedAt < first.issuedAt { first := next; }
    }
  }

  /** The last renewal before `m`; the next one, or the present moment, is less than a lease later. */
  lemma LastRenewalBefore(p: Params, h: HostId, rs: seq<Renewal>, contacts: set<Contact>, m: int, now: int) returns (k: nat)
    requires RenewalsOk(p, h, rs, contacts) && rs[0].at < m <= now < rs[|rs| - 1].at + p.fence + p.poll
    ensures k < |rs| && m - p.fence - p.poll < rs[k].at < m
  {
    k := 0;
    while k + 1 < |rs| && rs[k + 1].at < m
      invariant k < |rs| && rs[k].at < m
    {
      k := k + 1;
    }
    if k + 1 < |rs| {
      assert RenewalOk(p, h, rs[k].at, rs[k + 1], contacts);
    }
  }

  /** `votes` elect somebody at `now` while `g` is the primary of `epoch`. */
  predicate Election(p: Params, s: Sys, votes: set<Receipt>, g: HostId, epoch: nat) {
    && StrictMajority(VotingBridges(votes), W(p))
    && forall r | r in votes ::
      (r in s.net.receipts && r.primaryEpoch == epoch && r.primary == g)
  }

  /** No voter served the primary between its disconnect and its vote. */
  lemma ServedByNoVoter(p: Params, s: Sys, r: Receipt, at: int)
    requires r in s.net.receipts && ReceiptsOk(p, s)
    requires s.history.absences[r] < at < r.issuedAt
    ensures Contact(r.bridge, r.primary, at) !in s.history.contacts
  {
    assert ReceiptOk(p, s.history, s.now, r);
  }

  /** A vote comes a whole grace after the primary's epoch began. */
  lemma VotesComeLate(p: Params, s: Sys, r: Receipt)
    requires r in s.net.receipts && ReceiptsOk(p, s)
    ensures r in s.history.absences && r.issuedAt <= s.now && r.bridge in p.configs
    ensures s.history.absences[r] + Grace(p.configs[r.bridge]) <= r.issuedAt
    ensures r.primaryEpoch in s.history.began && s.history.began[r.primaryEpoch] + Grace(p.configs[r.bridge]) <= r.issuedAt
  {
    assert ReceiptOk(p, s.history, s.now, r);
  }

  // ---------------------------------------------------------------- what renewed the lease last

  /** `m` is a moment at which every voter's grace had run and none had voted: that of the earliest vote. */
  predicate BeforeVotes(p: Params, s: Sys, votes: set<Receipt>, m: int) {
    && m <= s.now && (forall r | r in votes :: m <= r.issuedAt)
    && forall r | r in votes ::
      r.bridge in p.configs && r in s.history.absences
      && (WITNESS_TTL_MS <= Grace(p.configs[r.bridge]) ==> s.history.absences[r] + Grace(p.configs[r.bridge]) <= m)
  }

  /** The candidate asks for votes only after all witnesses, so the earliest vote is such a moment. */
  lemma EarliestVote(p: Params, s: Sys, votes: set<Receipt>, g: HostId, epoch: nat) returns (m: int)
    requires Election(p, s, votes, g, epoch) && OneCollection(p, s, votes) && ReceiptsOk(p, s)
    ensures BeforeVotes(p, s, votes, m)
  {
    var any := MajoritiesMeet(VotingBridges(votes), VotingBridges(votes), W(p));
    assert any in VotingBridges(votes);
    var first := EarliestOf(votes);
    VotesComeLate(p, s, first);
    m := first.issuedAt;
  }

  /** No voter that served the writer for this renewal did so after its absence had begun. */
  predicate ServedEarly(s: Sys, votes: set<Receipt>, q: Renewal) {
    forall r | r in votes && r.bridge in q.evidence :: r in s.history.absences && q.evidence[r.bridge] <= s.history.absences[r]
  }

  /** Of two bridges both vote. */
  lemma VoteOf(p: Params, s: Sys, votes: set<Receipt>, g: HostId, epoch: nat, b: BridgeId) returns (r: Receipt)
    requires ParamsOk(p) && Election(p, s, votes, g, epoch) && |W(p)| == 2 && b in W(p)
    ensures r in votes && r.bridge == b
  {
    MajorityOfTwoIsAll(VotingBridges(votes), W(p));
    assert b in VotingBridges(votes);
    r :| r in votes && r.bridge == b;
  }

  /**
    * Some voter served the writer for this renewal, and either its grace is long, or the grace is fair and the
    * voter set off the renewal.
    */
  lemma SharedVoter(p: Params, s: Sys, votes: set<Receipt>, g: HostId, epoch: nat, q: Renewal) returns (r: Receipt)
    requires ParamsOk(p) && GraceSuffices(p) && Election(p, s, votes, g, epoch) && Sustained(p, g, q, s.history.contacts)
    ensures r in votes && r.bridge in q.evidence
    ensures LongGrace(p, r.bridge) || (FairGrace(p, r.bridge) && q.at - Max(p.period, p.delay) <= q.evidence[r.bridge])
  {
    if |W(p)| == 3 {
      var b := MajoritiesMeet(VotingBridges(votes), q.evidence.Keys, W(p));
      r :| r in votes && r.bridge == b;
    } else {
      MajorityOfTwoIsAll(q.evidence.Keys, W(p));
      var b: BridgeId;
      if long :| long in p.configs && LongGrace(p, long) {
        b := long;
      } else {
        b :| b in q.evidence && q.at - Max(p.period, p.delay) <= q.evidence[b];
      }
      r := VoteOf(p, s, votes, g, epoch, b);
    }
  }

  /** What renewed the lease is so old by the first vote that the lease has run out. */
  lemma RenewalIsOld(p: Params, s: Sys, votes: set<Receipt>, g: HostId, epoch: nat, q: Renewal, m: int)
    requires ParamsOk(p) && GraceSuffices(p) && Election(p, s, votes, g, epoch) && BeforeVotes(p, s, votes, m)
    requires Sustained(p, g, q, s.history.contacts) && ServedEarly(s, votes, q)
    ensures q.at + p.fence + p.poll <= m
  {
    var r := SharedVoter(p, s, votes, g, epoch, q);
    assert q.evidence[r.bridge] <= s.history.absences[r];
  }

  /** Every vote comes a lease after the epoch it is about began. */
  lemma EpochIsOld(p: Params, s: Sys, votes: set<Receipt>, g: HostId, epoch: nat, m: int)
    requires ParamsOk(p) && GraceSuffices(p) && Election(p, s, votes, g, epoch) && BeforeVotes(p, s, votes, m) && ReceiptsOk(p, s)
    ensures epoch in s.history.began && s.history.began[epoch] + p.fence + p.poll <= m
  {
    var r: Receipt;
    if |W(p)| == 3 {
      var b := MajoritiesMeet(VotingBridges(votes), VotingBridges(votes), W(p));
      r :| r in votes && r.bridge == b;
      assert LongGrace(p, r.bridge);
    } else {
      var b :| b in p.configs && (LongGrace(p, b) || FairGrace(p, b));
      r := VoteOf(p, s, votes, g, epoch, b);
      assert LongGrace(p, r.bridge) || FairGrace(p, r.bridge);
    }
    assert ReceiptOk(p, s.history, s.now, r);
  }

  /** Whether a promotion or a resume started the lease, it did so at least a lease before the first vote. */
  lemma StartIsEarly(p: Params, s: Sys, g: HostId, epoch: nat, votes: set<Receipt>, start: Renewal, m: int)
    requires ParamsOk(p) && GraceSuffices(p) && ReceiptsOk(p, s) && Election(p, s, votes, g, epoch) && BeforeVotes(p, s, votes, m)
    requires StartOk(p, g, epoch, start, s.net, s.history)
    ensures start.at + p.fence + p.poll <= m
  {
    EpochIsOld(p, s, votes, g, epoch, m);
    if !(epoch in s.history.began && start.at == s.history.began[epoch]) {
      RenewalIsOld(p, s, votes, g, epoch, start, m);
    }
  }

  /** A renewal before the first vote was served before the absences, for no voter served the writer during them. */
  lemma EarlyRenewal(p: Params, s: Sys, votes: set<Receipt>, g: HostId, epoch: nat, q: Renewal, m: int)
    requires Election(p, s, votes, g, epoch) && BeforeVotes(p, s, votes, m) && ReceiptsOk(p, s)
    requires Sustained(p, g, q, s.history.contacts) && q.at < m
    ensures ServedEarly(s, votes, q)
  {
    forall r | r in votes && r.bridge in q.evidence ensures q.evidence[r.bridge] <= s.history.absences[r] {
      VotesComeLate(p, s, r);
      if s.history.absences[r] < q.evidence[r.bridge] { ServedByNoVoter(p, s, r, q.evidence[r.bridge]); }
    }
  }

  /**
    * While `g` holds the write lease at its epoch, no strict majority can have voted it absent in one
    * collection: the lease would have to have been renewed by a bridge that did not see the host.
    */
  lemma LeaseExcludesElection(p: Params, s: Sys, g: HostId, votes: set<Receipt>)
    requires ParamsOk(p) && GraceSuffices(p) && ReceiptsOk(p, s)
    requires g in s.nodes && s.nodes[g].service.writer
    requires LeaseOk(p, g, s.nodes[g], s.net, s.history, s.timers, s.now)
    requires OneCollection(p, s, votes)
    ensures !Election(p, s, votes, g, s.nodes[g].service.db.epoch)
  {
    var epoch, rs := s.nodes[g].service.db.epoch, s.history.renewals[g];
    if Election(p, s, votes, g, epoch) {
      var m := EarliestVote(p, s, votes, g, epoch);
      StartIsEarly(p, s, g, epoch, votes, rs[0], m);
      var k := LastRenewalBefore(p, g, rs, s.history.contacts, m, s.now);
      if k > 0 {
        assert RenewalOk(p, g, rs[k - 1].at, rs[k], s.history.contacts);
        EarlyRenewal(p, s, votes, g, epoch, rs[k], m);
        RenewalIsOld(p, s, votes, g, epoch, rs[k], m);
      }
      assert false;
    }
  }

  // ---------------------------------------------------------------- the configured constants

  const FENCE_MS := 15_000
  const POLL_MS := 1_000
  const LIVENESS_MS := 1_000
  const DEFAULT_GRACE_MS := 30_000

  predicate DefaultLoops(p: Params) {
    p.fence == FENCE_MS && p.poll == POLL_MS && p.period == LIVENESS_MS && p.delay >= 0
  }

  /** The default grace is long enough exactly while messages take at most thirteen seconds, or fourteen with two bridges. */
  lemma DefaultGraceSufficesIff(p: Params)
    requires ParamsOk(p) && DefaultLoops(p)
    requires forall b | b in p.configs :: p.configs[b].configuredGrace == DEFAULT_GRACE_MS
    ensures GraceSuffices(p) <==> p.delay <= if |W(p)| == 3 then 13_000 else 14_000
  {
    assert W(p) != {};
    var b :| b in p.configs;
    assert Grace(p.configs[b]) == DEFAULT_GRACE_MS && (LongGrace(p, b) || !LongGrace(p, b)) && (FairGrace(p, b) || !FairGrace(p, b));
  }

  /** The production floor alone is long enough exactly while messages take at most three seconds, or four with two bridges. */
  lemma ProductionFloorSufficesIff(p: Params)
    requires ParamsOk(p) && DefaultLoops(p)
    requires forall b | b in p.configs :: p.configs[b].production && p.configs[b].configuredGrace <= 20_000
    ensures GraceSuffices(p) <==> p.delay <= if |W(p)| == 3 then 3_000 else 4_000
  {
    assert W(p) != {};
    var b :| b in p.configs;
    assert Grace(p.configs[b]) == 20_000 && (LongGrace(p, b) || !LongGrace(p, b)) && (FairGrace(p, b) || !FairGrace(p, b));
  }
}
