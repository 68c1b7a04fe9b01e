/**
  * Exactly how long the absence graces have to be. For every delay and every grace of each bridge, either no run
  * that is on time ever has two writers at one instant, or there is one that has.
  */
module ExactGrace {
  import opened Community
  import opened Quorums
  import opened BridgeLedger
  import opened Bridge
  import opened HostWriter
  import opened WitnessCollection
  import opened Failover
  import opened FailoverEpochs
  import opened TimedSystem
  import opened LeaseSafety
  import opened FailoverTiming
  import opened RecordLives
  import opened Delays
  import opened Scenes
  import opened WriterLoops
  import opened ShortGrace
  import opened TwoShortGraces

  // ---------------------------------------------------------------- while records last

  /** The founder's record outlasts a lease, and of three bridges at least two can vote while it is valid. */
  predicate RecordsLast(p: Params) {
    Lag(p) <= RECORD_TTL_MS && (|W(p)| == 3 ==> CanElect(p))
  }

  /** Two bridges can attest an absence while the primary's record is still handed out. */
  predicate CanElect(p: Params) {
    exists b, c | b in p.configs && c in p.configs && b != c :: Brief(p, b) && Brief(p, c)
  }

  lemma RefutedBy(p: Params, run: seq<Sys>, steps: seq<Step>, founder: HostId)
    requires IsRun(p, run, steps, founder, 1) && (forall i | 0 <= i < |steps| :: OnTime(p, run[i], steps[i]))
    requires !AtMostOneWriter(run[|steps|])
    ensures !NeverTwoWriters(p)
  {
    hide AtMostOneWriter, OnTime, Init, Next;
    assert RunsOnTime(p, run, steps) && |steps| < |run|;
  }

  lemma ThreeNeedLongGraces(p: Params, z: BridgeId)
    requires ParamsOk(p) && Brisk(p) && RecordsLast(p) && |W(p)| == 3 && z in p.configs && !LongGrace(p, z)
    ensures !NeverTwoWriters(p)
  {
    hide Grace, NeverTwoWriters;
    var b, c :| b in p.configs && c in p.configs && b != c && Brief(p, b) && Brief(p, c);
    var x := if b == z then c else b;
    var y := TheThird(W(p), x, z);
    var run, steps := OneShortGraceMakesTwoWriters(p, "a", "b", x, y, z);
    RefutedBy(p, run, steps, "a");
  }

  lemma TheThird(w: set<BridgeId>, x: BridgeId, z: BridgeId) returns (y: BridgeId)
    requires |w| == 3 && x in w && z in w && x != z
    ensures w == {x, y, z}
  {
    var rest := w - {x, z};
    assert |{x, z}| == 2 && |rest| == 1;
    y :| y in rest;
    assert rest - {y} == {} by { assert |rest - {y}| == 0; }
    assert w == {x, z} + rest && rest == {y};
  }

  lemma TheOther(w: set<BridgeId>, y: BridgeId) returns (x: BridgeId)
    requires |w| == 2 && y in w
    ensures w == {x, y} && x != y
  {
    var rest := w - {y};
    assert |rest| == 1;
    x :| x in rest;
    assert rest - {x} == {} by { assert |rest - {x}| == 0; }
    assert rest == {x};
  }

  lemma TwoNeedFairGraces(p: Params, y: BridgeId)
    requires ParamsOk(p) && Brisk(p) && RecordsLast(p) && |W(p)| == 2 && y in p.configs && !FairGrace(p, y)
    requires forall b | b in p.configs :: !LongGrace(p, b)
    ensures !NeverTwoWriters(p)
  {
    hide Grace, NeverTwoWriters, IsRun, OnTime, AtMostOneWriter;
    var x := TheOther(W(p), y);
    var k, q := Socket("a", x, 0), Socket("a", y, 0);
    var run, steps;
    if p.delay > p.period {
      run, steps := LongDelayRun(p, "a", "b", k, q);
    } else {
      run, steps := LongRoundRun(p, "a", "b", k, q);
    }
    RefutedBy(p, run, steps, "a");
  }

  lemma GracesAreSafe(p: Params)
    requires Brisk(p) && p.fence >= SHORTEST_FENCE_MS && GracesHold(p)
    ensures NeverTwoWriters(p)
  {
    hide GracesHold, AtMostOneWriter, IsRun, RunsOnTime;
    forall founder, e0, run, steps, i | IsRun(p, run, steps, founder, e0) && RunsOnTime(p, run, steps) && 0 <= i < |run|
      ensures AtMostOneWriter(run[i])
    {
      NoInstantHasTwoWriters(p, run, steps, founder, e0, i);
    }
  }

  /**
    * The exact condition. Three bridges keep a community from ever having two writers exactly if each of their
    * graces is at least a lease, a fence poll, a liveness round and a delay. Two bridges do exactly if one of
    * the graces is, or if both are at least a lease, a poll and the longer of a round and a delay.
    */
  lemma NeverTwoWritersIff(p: Params)
    requires ParamsOk(p) && Brisk(p) && p.fence >= SHORTEST_FENCE_MS && RecordsLast(p)
    ensures NeverTwoWriters(p) <==> GracesHold(p)
  {
    if GracesHold(p) {
      GracesAreSafe(p);
    } else {
      hide NeverTwoWriters, RecordsLast;
      if |W(p)| == 3 {
        var z :| z in p.configs && !LongGrace(p, z);
        ThreeNeedLongGraces(p, z);
      } else {
        var y :| y in p.configs && !FairGrace(p, y);
        TwoNeedFairGraces(p, y);
      }
    }
  }

  // ---------------------------------------------------------------- when nobody can be elected

  /** No grace is within ten seconds of the life of a record. */
  predicate OffTheLimit(p: Params) {
    forall b | b in p.configs :: Grace(p.configs[b]) < RECORD_TTL_MS - ASK_FRESHNESS_MS || Grace(p.configs[b]) >= LONGEST_ABSENCE_MS
  }

  lemma TwoOf<T>(s: set<T>) returns (b: T, c: T)
    requires |s| >= 2
    ensures b in s && c in s && b != c
  {
    b :| b in s;
    assert |s - {b}| >= 1;
    c :| c in s - {b};
  }

  /** A promotion takes two bridges whose graces a record outlasts. */
  lemma PromotionNeedsElectors(p: Params, run: seq<Sys>, steps: seq<Step>, founder: HostId, e0: nat, i: nat)
    requires OffTheLimit(p) && IsRun(p, run, steps, founder, e0) && i < |steps| && steps[i].WinElection?
    ensures CanElect(p)
  {
    hide Init, Grace;
    assert Next(p, run[i], run[i + 1], steps[i]);
    var b, c := TwoOf(VotingBridges(steps[i].votes));
    var r :| r in steps[i].votes && r.bridge == b;
    var q :| q in steps[i].votes && q.bridge == c;
    VotersAreBrief(p, run, steps, founder, e0, i, r);
    VotersAreBrief(p, run, steps, founder, e0, i, q);
    assert Brief(p, b) && Brief(p, c);
  }

  lemma StepKeepsChampions(p: Params, s: Sys, s': Sys, t: Step)
    requires Next(p, s, s', t) && !t.WinElection?
    ensures s'.history.champions == s.history.champions
  {
    hide HostEnabled, BridgeEnabled, NodeAfter, BridgeAfter, HistoryAfterHost, HistoryAfterBridge;
    hide NetAfterBridge, MayAttest, MayHandOut, CampaignEnabled;
    if IsHostStep(t) { EnabledIsHere(p, s, t); HostAfterChampions(p, s, t); }
    if IsBridgeStep(t) { EnabledIsThere(p, s, t); }
  }

  lemma {:induction false} FounderStaysChampion(p: Params, run: seq<Sys>, steps: seq<Step>, founder: HostId, e0: nat, i: nat)
    requires OffTheLimit(p) && !CanElect(p) && IsRun(p, run, steps, founder, e0) && i < |run|
    ensures run[i].history.champions == map[e0 := founder]
  {
    hide Next, OffTheLimit, CanElect, HostFits;
    if i > 0 {
      FounderStaysChampion(p, run, steps, founder, e0, i - 1);
      if steps[i - 1].WinElection? { PromotionNeedsElectors(p, run, steps, founder, e0, i - 1); }
      StepKeepsChampions(p, run[i - 1], run[i], steps[i - 1]);
    }
  }

  lemma FounderWritesAlone(p: Params, run: seq<Sys>, steps: seq<Step>, founder: HostId, e0: nat, i: nat)
    requires OffTheLimit(p) && !CanElect(p) && IsRun(p, run, steps, founder, e0) && i < |run|
    ensures AtMostOneWriter(run[i])
  {
    hide IsRun, OffTheLimit, CanElect, EpochInv;
    RunKeepsInv(p, run, steps, founder, e0, i, i);
    FounderStaysChampion(p, run, steps, founder, e0, i);
    forall g | g in run[i].nodes && run[i].nodes[g].service.writer ensures g == founder { WritersAreChampions(p, run[i], e0, g); }
  }

  lemma NoElectionIsSafe(p: Params)
    requires OffTheLimit(p) && !CanElect(p)
    ensures NeverTwoWriters(p)
  {
    hide IsRun, RunsOnTime, OffTheLimit, CanElect, AtMostOneWriter;
    forall founder, e0, run, steps, i | IsRun(p, run, steps, founder, e0) && RunsOnTime(p, run, steps) && 0 <= i < |run|
      ensures AtMostOneWriter(run[i])
    {
      FounderWritesAlone(p, run, steps, founder, e0, i);
    }
  }

  // ---------------------------------------------------------------- whatever the delay and the graces

  /** The loops of the code: a poll and a liveness round every second, and a fence time clamped to five to fifteen seconds. */
  predicate CodeLoops(p: Params) {
    p.poll == POLL_MS && p.period == LIVENESS_MS && p.delay >= 0 && SHORTEST_FENCE_MS <= p.fence <= FENCE_MS
  }

  /** The shortest delay for which the graces do not hold. */
  lemma {:induction false} ShortestDelay(p: Params) returns (q: Params)
    requires !GracesHold(p) && p.delay >= 0
    ensures Slower(q, p) && q.delay >= 0 && !GracesHold(q) && (q.delay == 0 || GracesHold(q.(delay := q.delay - 1)))
    decreases p.delay
  {
    hide GracesHold;
    q := p;
    if p.delay > 0 && !GracesHold(p.(delay := p.delay - 1)) { q := ShortestDelay(p.(delay := p.delay - 1)); }
  }

  /** For that delay records last. */
  lemma ShortestDelayIsShort(p: Params)
    requires ParamsOk(p) && CodeLoops(p) && OffTheLimit(p) && CanElect(p) && (p.delay == 0 || GracesHold(p.(delay := p.delay - 1)))
    ensures Lag(p) <= RECORD_TTL_MS
  {
    hide Grace;
    var b, c :| b in p.configs && c in p.configs && b != c && Brief(p, b) && Brief(p, c);
    if p.delay > 0 {
      var faster := p.(delay := p.delay - 1);
      if |W(p)| == 3 {
        assert LongGrace(faster, b);
      } else {
        TwoAreAll(W(p), b, c);
        var i: BridgeId;
        if long :| long in faster.configs && LongGrace(faster, long) { i := long; } else { i := b; assert FairGrace(faster, b); }
        assert i in {b, c} && (LongGrace(faster, i) || FairGrace(faster, i));
      }
    }
  }

  lemma TwoAreAll(w: set<BridgeId>, b: BridgeId, c: BridgeId)
    requires |w| == 2 && b in w && c in w && b != c
    ensures w == {b, c}
  {
    var rest := w - {b, c};
    assert w == {b, c} + rest && |{b, c}| == 2;
  }

  /**
    * The exact condition for the loops of the code, every delay and all graces but those within ten seconds of
    * the life of a record: a community never has two writers exactly if its graces are long enough or nobody
    * can ever be elected.
    */
  lemma NeverTwoWritersExactly(p: Params)
    requires ParamsOk(p) && CodeLoops(p) && OffTheLimit(p)
    ensures NeverTwoWriters(p) <==> GracesHold(p) || !CanElect(p)
  {
    hide NeverTwoWriters;
    if GracesHold(p) {
      hide GracesHold;
      GracesAreSafe(p);
    } else if !CanElect(p) {
      NoElectionIsSafe(p);
    } else {
      var q := ShortestDelay(p);
      hide GracesHold;
      SameElectors(p, q);
      ShortestDelayIsShort(q);
      NeverTwoWritersIff(q);
      if NeverTwoWriters(p) { FasterIsSafe(q, p); }
    }
  }

  lemma SameElectors(p: Params, q: Params)
    requires CanElect(p) && OffTheLimit(p) && Slower(q, p)
    ensures CanElect(q) && OffTheLimit(q)
  {
    hide Grace;
    var b, c :| b in p.configs && c in p.configs && b != c && Brief(p, b) && Brief(p, c);
    assert Brief(q, b) && Brief(q, c);
  }

  lemma EqualGracesElect(p: Params, grace: int)
    requires ParamsOk(p) && grace < RECORD_TTL_MS - ASK_FRESHNESS_MS && forall b | b in p.configs :: Grace(p.configs[b]) == grace
    ensures OffTheLimit(p) && CanElect(p)
  {
    var b, c := TwoOf(W(p));
    assert Brief(p, b) && Brief(p, c);
  }

  /** With the default loops and graces this is a matter of the delay alone. */
  lemma DefaultGraceIsExact(p: Params)
    requires ParamsOk(p) && DefaultLoops(p)
    requires forall b | b in p.configs :: p.configs[b].configuredGrace == DEFAULT_GRACE_MS
    ensures NeverTwoWriters(p) <==> p.delay <= if |W(p)| == 3 then 13_000 else 14_000
  {
    hide NeverTwoWriters;
    EqualGracesElect(p, DEFAULT_GRACE_MS);
    DefaultGraceSufficesIff(p);
    NeverTwoWritersExactly(p);
  }

  /** And with the production floor. */
  lemma ProductionFloorIsExact(p: Params)
    requires ParamsOk(p) && DefaultLoops(p)
    requires forall b | b in p.configs :: p.configs[b].production && p.configs[b].configuredGrace <= 20_000
    ensures NeverTwoWriters(p) <==> p.delay <= if |W(p)| == 3 then 3_000 else 4_000
  {
    hide NeverTwoWriters;
    EqualGracesElect(p, 20_000);
    ProductionFloorSufficesIff(p);
    NeverTwoWritersExactly(p);
  }
}
