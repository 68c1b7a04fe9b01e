/**
  * The message delay bounds only what counts as on time: it decides no step, and what is on time for a short
  * delay is so for every longer one.
  */
module Delays {
  import opened Community
  import opened Bridge
  import opened HostWriter
  import opened Coordinator
  import opened Failover
  import opened TimedSystem
  import opened FailoverTiming

  /** The same community, where messages may take longer. */
  predicate Slower(p: Params, q: Params) { q == p.(delay := q.delay) && p.delay <= q.delay }

  lemma SameInit(p: Params, q: Params, s: Sys, founder: HostId, e0: nat)
    requires Slower(p, q) && Init(p, s, founder, e0)
    ensures Init(q, s, founder, e0)
  {
    forall h | h in s.nodes ensures HostFits(q, h, s.nodes[h].service) {
      assert HostFits(p, h, s.nodes[h].service);
    }
  }

  lemma SameHostStep(p: Params, q: Params, s: Sys, t: Step)
    requires Slower(p, q) && IsHostStep(t) && t.host in s.nodes
    ensures HostEnabled(p, s, t) == HostEnabled(q, s, t) && HostAfter(p, s, t) == HostAfter(q, s, t)
  {
    SameNode(p, q, s.nodes[t.host], t, s.now);
  }

  lemma SameBridgeStep(p: Params, q: Params, s: Sys, t: Step)
    requires Slower(p, q) && IsBridgeStep(t) && BridgeOf(t) in s.bridges && BridgeOf(t) in p.configs
    ensures BridgeEnabled(p, s, t) == BridgeEnabled(q, s, t) && StepOfBridge(p, s, t) == StepOfBridge(q, s, t)
    ensures CutBy(p, p.configs[BridgeOf(t)], s.bridges[BridgeOf(t)], t, s.wires.alive, s.now)
      == CutBy(q, q.configs[BridgeOf(t)], s.bridges[BridgeOf(t)], t, s.wires.alive, s.now)
  {
    hide Begin, Prove, Close, Cleanup, Revoke, ClaimVote, Restart, KnownPrimary, Uncut, Noted, AliveAfter;
  }

  lemma SameNext(p: Params, q: Params, s: Sys, s': Sys, t: Step)
    requires Slower(p, q) && Next(p, s, s', t)
    ensures Next(q, s, s', t)
  {
    if IsHostStep(t) { SameHostStep(p, q, s, t); }
    else if IsBridgeStep(t) { SameBridgeStep(p, q, s, t); }
  }

  lemma StillSpares(p: Params, q: Params, s: Sys, t: Step)
    requires Slower(p, q) && IsBridgeStep(t) && SparesPrimaries(p, s, t)
    ensures SparesPrimaries(q, s, t)
  {
    hide CutBy, BridgeEnabled, StepOfBridge, ServesPrimary;
    if BridgeOf(t) in s.bridges && BridgeOf(t) in p.configs { SameBridgeStep(p, q, s, t); }
  }

  lemma StillSafe(p: Params, q: Params, s: Sys, t: Step)
    requires Slower(p, q) && t.GetAck? && OnTime(p, s, t)
    ensures OnTime(q, s, t)
  {
    hide HostEnabled, HostAfter, NodeAfter;
    if t.host in s.nodes { SameNode(p, q, s.nodes[t.host], t, s.now); }
  }

  lemma SameNode(p: Params, q: Params, n: Node, t: Step, now: int)
    requires Slower(p, q) && IsHostStep(t)
    ensures NodeAfter(p, n, t, now) == NodeAfter(q, n, t, now)
  {
  }

  lemma StillOnTime(p: Params, q: Params, s: Sys, t: Step)
    requires Slower(p, q) && OnTime(p, s, t)
    ensures OnTime(q, s, t)
  {
    if t.GetAck? {
      StillSafe(p, q, s, t);
    } else if t.RevokeGrant? || t.CleanUp? || t.BeginReg? {
      StillSpares(p, q, s, t);
    }
    hide Resumes, ResumesSafely, SparesPrimaries;
  }

  lemma {:induction false} SlowerRun(p: Params, q: Params, run: seq<Sys>, steps: seq<Step>, founder: HostId, e0: nat)
    requires Slower(p, q) && IsRun(p, run, steps, founder, e0) && RunsOnTime(p, run, steps)
    ensures IsRun(q, run, steps, founder, e0) && RunsOnTime(q, run, steps)
  {
    hide Init, Next, OnTime;
    SameInit(p, q, run[0], founder, e0);
    forall i | 0 <= i < |steps| ensures Next(q, run[i], run[i + 1], steps[i]) && OnTime(q, run[i], steps[i]) {
      SameNext(p, q, run[i], run[i + 1], steps[i]);
      StillOnTime(p, q, run[i], steps[i]);
    }
  }

  /** At no instant of any run that is on time do two hosts write. */
  ghost predicate NeverTwoWriters(p: Params) {
    forall founder, e0, run, steps, i |
      IsRun(p, run, steps, founder, e0) && RunsOnTime(p, run, steps) && 0 <= i < |run| :: AtMostOneWriter(run[i])
  }

  /** What is safe for a delay is so for every shorter one. */
  lemma FasterIsSafe(p: Params, q: Params)
    requires Slower(p, q) && NeverTwoWriters(q)
    ensures NeverTwoWriters(p)
  {
    hide IsRun, RunsOnTime, AtMostOneWriter;
    forall founder, e0, run, steps, i | IsRun(p, run, steps, founder, e0) && RunsOnTime(p, run, steps) && 0 <= i < |run|
      ensures AtMostOneWriter(run[i])
    {
      SlowerRun(p, q, run, steps, founder, e0);
    }
  }
}
