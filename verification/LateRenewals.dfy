/**
  * How old what renews a lease may be: a renewal on an acknowledgement that has been on its way for a delay
  * and has then counted for a whole liveness round, and a lease that nobody renews until it runs out.
  */
module LateRenewals {
  import opened Community
  import opened Quorums
  import opened BridgeLedger
  import opened Bridge
  import opened HostWriter
  import opened Coordinator
  import opened Failover
  import opened TimedSystem
  import opened Scenes
  import opened ElectionScenes
  import opened WriterLoops
  import RegistrationQuorum

  /** The lease has just been renewed, although the liveness round may be an old one. */
  predicate Renews(p: Params, s: Sys, a: HostId, b: HostId) {
    Stage(p, s, a, b) && s.nodes[a].lease == s.now && a in s.timers.polled && a in s.timers.pulsed && s.timers.polled[a] == s.now
  }

  /** Between the two halves of a renewal a liveness round may pass, if nobody starts another. */
  lemma HalvesRenew(p: Params, s: Sys, h: Sys, e: Sys, s': Sys, a: HostId, b: BridgeId, c: BridgeId)
    requires 2 <= |W(p)| <= 3 && b != c && Counted(p, s, h, a, b) && Counted(p, e, s', a, c)
    requires a in e.nodes && e.nodes[a] == h.nodes[a] && s.nodes[a].quorum.live == {}
    ensures s'.nodes[a].lease == e.now
  {
    assert {} + {b} + {c} == {b, c};
  }

  lemma SizeAtLeastTwo(t: set<BridgeId>, b: BridgeId, c: BridgeId)
    requires b in t && c in t && b != c
    ensures |t| >= 2
  {
    assert {b, c} <= t && t == (t - {b, c}) + {b, c};
  }

  lemma WaitedOut(s: Sys, s': Sys, a: HostId, polls: int)
    requires Went(s, s', a, polls, s.now)
    ensures s'.nodes == s.nodes && Unharmed(s, s', a)
  {
    assert s.nodes[a := s.nodes[a]] == s.nodes;
  }

  lemma StartedReaches(p: Params, s: Sys, s': Sys, a: HostId, u: Source, until: int)
    requires RoundStarted(s, s', a) && Reaches(p, s, a, u, until)
    ensures Reaches(p, s', a, u, until) && Owes(s', a, u, RoundId(a, s.now, 1)) && s'.nodes[a].quorum.live == {}
    ensures s'.now == s.now && Unharmed(s, s', a)
  {
  }

  /** One bridge is heard of as a liveness round begins, and the other when the next is due. */
  lemma RenewLate(p: Params, f: Film, a: HostId, b: HostId, but: Leeway, u: Source, v: Source) returns (g: Film)
    requires Shot(p, f, a, but) && Brisk(p) && 2 <= |W(p)| <= 3 && u.socket.bridge != v.socket.bridge
    requires Lives(p, f.last, a, b, f.last.now + p.period)
    requires Reaches(p, f.last, a, u, f.last.now) && Reaches(p, f.last, a, v, f.last.now + p.period)
    ensures Shot(p, g, a, but) && Unharmed(f.last, g.last, a) && g.last.now == f.last.now + p.period && Renews(p, g.last, a, b)
    ensures g.last.timers.pulsed[a] == f.last.now
  {
    hide Shot, Acting, Writing, Follower, Reaches, Owes, Counts, Pulsed;
    var now, until := f.last.now, f.last.now + p.period;
    var r := RoundId(a, now, 1);
    var begun := NextRound(p, f, a, b, but);
    StartedReaches(p, f.last, begun.last, a, u, now);
    StartedReaches(p, f.last, begun.last, a, v, until);
    var half := Nudge(p, begun, a, b, but, u, r);
    CountedUnharmed(p, begun.last, half.last, a, u.socket.bridge);
    StillReaches(p, begun.last, half.last, a, v, until);
    StillOwes(p, begun.last, half.last, a, u.socket.bridge, v, r);
    LeaseStays(p, f.last, begun.last, half.last, a, u.socket.bridge);
    var held := Go(p, half, a, b, but, until, until, now);
    WaitedOut(half.last, held.last, a, until);
    StillReaches(p, half.last, held.last, a, v, until);
    StillOwed(half.last, held.last, a, v, r);
    g := Nudge(p, held, a, b, but, v, r);
    CountedUnharmed(p, held.last, g.last, a, v.socket.bridge);
    HalvesRenew(p, begun.last, half.last, held.last, g.last, a, u.socket.bridge, v.socket.bridge);
    UnharmedTwice(f.last, begun.last, half.last, a);
    UnharmedTwice(f.last, half.last, held.last, a);
    UnharmedTwice(f.last, held.last, g.last, a);
  }

  lemma StillOwed(s: Sys, s': Sys, a: HostId, u: Source, r: RoundId)
    requires s'.nodes == s.nodes && Owes(s, a, u, r)
    ensures Owes(s', a, u, r)
  {
  }

  lemma LeaseStays(p: Params, s: Sys, e: Sys, h: Sys, a: HostId, b: BridgeId)
    requires RoundStarted(s, e, a) && Counted(p, e, h, a, b)
    ensures h.nodes[a].lease in {s.now, s.nodes[a].lease}
  {
  }

  // ---------------------------------------------------------------- the end of a lease

  /** The writer has lived to the last moment of the lease it had. */
  predicate Expires(p: Params, s: Sys, s': Sys, a: HostId, b: HostId) {
    && Unharmed(s, s', a) && Stage(p, s', a, b) && s'.now == s.now + p.fence + p.poll - 1
    && a in s'.timers.polled && a in s'.timers.pulsed && s'.timers.pulsed[a] == s'.now
    && s'.nodes[a] == Pulsed(s.nodes[a], RoundId(a, s'.now, 0))
  }

  lemma PulsedTwice(n: Node, r: RoundId, q: RoundId)
    ensures Pulsed(Pulsed(n, r), q) == Pulsed(n, q)
  {
  }

  lemma Expire(p: Params, f: Film, a: HostId, b: HostId, but: Leeway) returns (g: Film)
    requires Shot(p, f, a, but) && Brisk(p) && Renews(p, f.last, a, b)
    ensures Shot(p, g, a, but) && Expires(p, f.last, g.last, a, b)
  {
    hide Shot, Acting, Writing, Follower, Pulsed;
    var now := f.last.now;
    var until := now + p.fence + p.poll - 1;
    var begun := NextRound(p, f, a, b, but);
    RoundUnharmed(f.last, begun.last, a);
    PulsedLease(f.last.nodes[a], RoundId(a, now, 1));
    g := Go(p, begun, a, b, but, until, now + p.fence - 1, until);
    WentUnharmed(begun.last, g.last, a, now + p.fence - 1, until);
    UnharmedTwice(f.last, begun.last, g.last, a);
    PulsedTwice(f.last.nodes[a], RoundId(a, now, 1), RoundId(a, until, 0));
  }

  lemma PulsedLease(n: Node, r: RoundId)
    ensures Pulsed(n, r).lease == n.lease && Pulsed(n, r).links == n.links && Pulsed(n, r).quorum.acknowledged == n.quorum.acknowledged
  {
  }

  // ---------------------------------------------------------------- two writers

  lemma BothWrite(p: Params, s: Sys, s': Sys, a: HostId, b: HostId, i: BridgeId, j: BridgeId, left: int, gone: int)
    requires a in s.nodes && s.nodes[a].service.writer && a != b && Elected(p, s, s', a, b, i, j, left, gone)
    ensures !AtMostOneWriter(s')
  {
    assert s'.nodes[a].service.writer && s'.nodes[b].service.writer;
  }

  /** Two bridges vote at this moment and the replica is promoted beside the founder. */
  lemma ElectBeside(p: Params, f: Film, a: HostId, b: HostId, but: Leeway, i: BridgeId, left: int, j: BridgeId, gone: int) returns (g: Film)
    requires Shot(p, f, a, but) && CastOk(p, a, b) && i in W(p) && j in W(p) && i != j && Stage(p, f.last, a, b)
    requires f.last.elections == NO_ELECTIONS && Early(f.last.now)
    requires Gone(p, f.last, a, i, left) && LongGone(p, i, left, f.last.now)
    requires Gone(p, f.last, a, j, gone) && LongGone(p, j, gone, f.last.now)
    ensures Shot(p, g, a, but) && !AtMostOneWriter(g.last)
  {
    hide Shot, Registered, Away, Writing, Acting, Follower, ParamsOk, LongGone, AtMostOneWriter, Elected;
    StageWrites(p, f.last, a, b);
    ActsWrite(p, a, f.last.nodes[a]);
    g := ElectNow(p, f, a, b, but, i, left, j, gone);
    BothWrite(p, f.last, g.last, a, b, i, j, left, gone);
  }
}
