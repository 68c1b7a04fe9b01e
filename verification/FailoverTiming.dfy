/**
  * In every run whose loops are on time, no instant has two writers: the old writer has fenced itself
  * before any candidate can be promoted.
  */
module FailoverTiming {
  import opened Community
  import opened Quorums
  import opened BridgeLedger
  import opened Bridge
  import opened BridgeInvariants
  import opened HostWriter
  import opened Coordinator
  import opened Failover
  import opened TimedSystem
  import opened TimedHosts
  import opened TimedBridges
  import opened LeaseSafety
  import opened FailoverElections
  import opened FailoverEpochs
  import RegistrationQuorum

  // ---------------------------------------------------------------- the start

  lemma InitTimed(p: Params, s: Sys, founder: HostId, e0: nat)
    requires Init(p, s, founder, e0) && GraceSuffices(p)
    ensures TimedInv(p, s, e0)
  {
    hide Init, EpochInv, GraceSuffices, BridgesOk, NodesOk, WritersOnTop, ClocksOk, WiresOk, MessagesOk, ReceiptsOk;
    InitInv(p, s, founder, e0);
    InitElsewhere(p, s, founder, e0);
    InitNodesOk(p, s, founder, e0);
  }

  lemma InitNodesOk(p: Params, s: Sys, founder: HostId, e0: nat)
    requires Init(p, s, founder, e0) && GraceSuffices(p)
    ensures NodesOk(p, s) && WritersOnTop(s)
  {
    hide NodeOk, OnTop, Init, GraceSuffices;
    forall h | h in s.nodes ensures NodeOk(p, h, s.nodes[h], s.wires, s.net, s.history, s.timers, s.now) && OnTop(s.history.champions, s.nodes[h]) {
      InitNodeOk(p, s, founder, e0, h);
    }
  }

  lemma InitElsewhere(p: Params, s: Sys, founder: HostId, e0: nat)
    requires Init(p, s, founder, e0)
    ensures BridgesOk(p, s) && ClocksOk(s) && WiresOk(s.wires, s.history) && MessagesOk(s) && ReceiptsOk(p, s)
  {
    hide HostFits, ParamsOk;
    forall b | b in s.bridges ensures BridgeOk(p, b, s.bridges[b], s.wires, s.net, s.history) {
      RestartedIsOk(p, b, s.bridges[b], s.bridges[b].ledger, s.wires, s.net, s.history);
    }
    hide BridgeOk, Started;
  }

  lemma InitNodeOk(p: Params, s: Sys, founder: HostId, e0: nat, h: HostId)
    requires Init(p, s, founder, e0) && h in s.nodes && GraceSuffices(p)
    ensures NodeOk(p, h, s.nodes[h], s.wires, s.net, s.history, s.timers, s.now) && OnTop(s.history.champions, s.nodes[h])
  {
    hide HostFits, ParamsOk;
  }

  // ---------------------------------------------------------------- an election

  lemma {:induction false} NoGap(p: Params, c: Champions, s: Sys, e0: nat, e: nat, top: nat)
    requires ChampionsSound(p, c, s, e0) && e0 <= e <= top && top in c
    ensures e in c
    decreases top
  {
    if e < top { NoGap(p, c, s, e0, e, top - 1); }
  }

  /** Whoever can win now follows the highest epoch any champion has. */
  lemma WinnerFollowsTop(p: Params, s: Sys, t: Step, e0: nat)
    requires EpochInv(p, s, e0) && t.WinElection? && HostEnabled(p, s, t)
    ensures var c, e := s.history.champions, t.expectedEpoch;
      e in c && forall top | top in c :: top <= e
  {
    hide RightfulNode, RightfulBridge, NetRightful, ParamsOk, Elected;
    var c, e := s.history.champions, t.expectedEpoch;
    WinnerIsUnique(p, s, t, e0);
    forall top | top in c ensures top <= e {
      if top > e { NoGap(p, c, s, e0, e + 1, top); }
    }
  }

  lemma WritersAreChampions(p: Params, s: Sys, e0: nat, h: HostId)
    requires EpochInv(p, s, e0) && h in s.nodes && s.nodes[h].service.writer
    ensures Champion(s.history.champions, s.nodes[h].service.db.epoch, h)
  {
    hide HostFits, ParamsOk, BridgesRightful, NetRightful, ChampionsSound;
    assert RightfulNode(p, s.history.champions, h, s.nodes[h]);
  }

  /** The votes of a possible winner all name the champion of the highest epoch as the absent primary. */
  lemma VotesNameTheChampion(p: Params, s: Sys, t: Step, e0: nat, g: HostId)
    requires EpochInv(p, s, e0) && t.WinElection? && HostEnabled(p, s, t)
    requires Champion(s.history.champions, t.expectedEpoch, g)
    ensures Election(p, s, t.votes, g, t.expectedEpoch)
  {
    hide HostEnabled, NodesRightful, BridgesRightful, ParamsOk, ChampionsSound, VotedFor;
    VotersAreConfigured(p, s, t);
    assert forall r | r in t.votes :: Backed(p, s.history.champions, s.bridges, r);
  }

  /** When somebody can be promoted nobody writes: the lease of the last writer has run out and it knows. */
  lemma NobodyWritesAtAnElection(p: Params, s: Sys, t: Step, e0: nat, g: HostId)
    requires EpochInv(p, s, e0) && GraceSuffices(p) && ReceiptsOk(p, s)
    requires t.WinElection? && HostEnabled(p, s, t) && g in s.nodes && OneCollection(p, s, t.votes)
    requires LeaseOk(p, g, s.nodes[g], s.net, s.history, s.timers, s.now) && OnTop(s.history.champions, s.nodes[g])
    ensures !s.nodes[g].service.writer
  {
    hide HostEnabled, EpochInv, LeaseOk, ReceiptsOk, GraceSuffices, Election, OneCollection, ParamsOk, NodesRightful, BridgesRightful, NetRightful;
    if s.nodes[g].service.writer {
      WinnerFollowsTop(p, s, t, e0);
      WritersAreChampions(p, s, e0, g);
      VotesNameTheChampion(p, s, t, e0, g);
      InvParams(p, s, e0);
      LeaseExcludesElection(p, s, g, t.votes);
    }
  }

  // ---------------------------------------------------------------- a resume

  /** What `ResumesSafely` asks of the bridges of the acknowledgement set, as the host's own lemmas need it. */
  lemma ResumeIsSafe(p: Params, s: Sys, t: Step, e0: nat)
    requires EpochInv(p, s, e0) && t.GetAck? && t.host in s.nodes && OnTime(p, s, t)
    ensures SafeIfResuming(p, t.host, s.nodes[t.host], t.ack, t.granted, s.net, s.history, s.timers, s.now)
  {
    hide NodesRightful, BridgesRightful, ChampionsSound, ParamsOk, ReceiveAck, Fresh;
    if Resumes(p, s, t) {
      var n' := NodeAfter(p, s.nodes[t.host], t, s.now);
      forall r | r in s.net.receipts && r.bridge in n'.round.value.acked ensures r.primaryEpoch != n'.service.db.epoch {
        assert Backed(p, s.history.champions, s.bridges, r) && HasNoVote(p, s, r.bridge, n'.service.db.epoch + 1);
      }
    }
  }

  /** A strict majority without a vote for the next epoch shows that nobody has been elected to it. */
  lemma NobodySucceeded(p: Params, s: Sys, e0: nat, q: set<BridgeId>, e: nat)
    requires ChampionsSound(p, s.history.champions, s, e0) && e in s.history.champions
    requires StrictMajority(q, W(p)) && forall b | b in q :: HasNoVote(p, s, b, e + 1)
    ensures forall top | top in s.history.champions :: top <= e
  {
    var c := s.history.champions;
    forall top | top in c ensures top <= e {
      if top > e {
        NoGap(p, c, s, e0, e + 1, top);
        var voters: set<BridgeId> :| ElectedBy(p, s.bridges, voters, e + 1, c[e + 1]);
        var both := MajoritiesMeet(q, voters, W(p));
        assert false;
      }
    }
  }

  lemma ResumeNeedsMajority(p: Params, h: HostId, n: Node, m: AckMsg, granted: bool, now: int)
    requires QuorumOk(p, n) && SuspendedOk(n) && HostFits(p, h, n.service)
    requires AfterAck(n, m, granted, now).service.writer && !n.service.writer
    ensures AfterAck(n, m, granted, now).round.Some? && StrictMajority(AfterAck(n, m, granted, now).round.value.acked, W(p))
  {
    hide ReceiveAck;
    if !AckCounts(n, m) { IgnoredResumesNobody(n, m, granted, now); }
    AckShape(n, m, granted, now);
    AckService(n, m, granted, now);
    FitsConfigured(p, h, n.service);
  }

  /** A host that resumes safely writes at the highest epoch any champion has. */
  lemma ResumedIsOnTop(p: Params, s: Sys, t: Step, e0: nat)
    requires EpochInv(p, s, e0) && t.GetAck? && t.host in s.nodes && OnTime(p, s, t) && Resumes(p, s, t)
    requires QuorumOk(p, s.nodes[t.host]) && SuspendedOk(s.nodes[t.host]) && HostFits(p, t.host, s.nodes[t.host].service)
    requires Champion(s.history.champions, NodeAfter(p, s.nodes[t.host], t, s.now).service.db.epoch, t.host)
    ensures OnTop(s.history.champions, NodeAfter(p, s.nodes[t.host], t, s.now))
  {
    hide NodesRightful, BridgesRightful, NetRightful, ParamsOk, ReceiveAck, Fresh, QuorumOk, SuspendedOk, HostFits, ChampionsSound;
    var n' := NodeAfter(p, s.nodes[t.host], t, s.now);
    ResumeNeedsMajority(p, t.host, s.nodes[t.host], t.ack, t.granted, s.now);
    NobodySucceeded(p, s, e0, n'.round.value.acked, n'.service.db.epoch);
  }

  lemma InvParams(p: Params, s: Sys, e0: nat)
    requires EpochInv(p, s, e0)
    ensures ParamsOk(p) && NodesRightful(p, s.history.champions, s.nodes) && BridgesRightful(p, s.history.champions, s.bridges)
    ensures NetRightful(p, s.history.champions, s.bridges, s.net) && s.now >= 1
  {
  }

  // ---------------------------------------------------------------- steps of a host

  lemma HostStepStarts(p: Params, s: Sys, t: Step, e0: nat)
    requires EpochInv(p, s, e0) && IsHostStep(t) && HostEnabled(p, s, t) && ClocksOk(s)
    ensures StartsEpoch(t, s.history)
  {
    if t.WinElection? { WinnerFollowsTop(p, s, t, e0); }
    hide HostEnabled, EpochInv;
  }

  lemma HistoryBegins(hist: History, n: Node, n': Node, t: Step, now: int)
    requires t.WinElection? && StartsEpoch(t, hist)
    ensures HistoryAfterHost(hist, n, n', t, now).began == hist.began[t.expectedEpoch + 1 := now]
  {
  }

  /** A host's timers move to the present, and an epoch begins at most now. */
  predicate ClocksMove(s: Sys, s': Sys) {
    && s'.now == s.now && s'.nodes.Keys == s.nodes.Keys
    && s'.history.contacts == s.history.contacts && s'.history.boundSince == s.history.boundSince
    && s'.history.began.Keys == s'.history.champions.Keys
    && (forall e | e in s'.history.began :: (e in s.history.began && s'.history.began[e] == s.history.began[e]) || s'.history.began[e] == s.now)
    && s.timers.polled.Keys <= s'.timers.polled.Keys && s.timers.pulsed.Keys <= s'.timers.pulsed.Keys
    && (forall h | h in s'.timers.polled :: (h in s.timers.polled && s'.timers.polled[h] == s.timers.polled[h]) || s'.timers.polled[h] == s.now)
    && (forall h | h in s'.timers.pulsed :: (h in s.timers.pulsed && s'.timers.pulsed[h] == s.timers.pulsed[h]) || s'.timers.pulsed[h] == s.now)
  }

  lemma ClocksAfter(s: Sys, s': Sys)
    requires ClocksOk(s) && ClocksMove(s, s')
    ensures ClocksOk(s')
  {
  }

  lemma HostStepMovesClocks(p: Params, s: Sys, t: Step)
    requires s.history.began.Keys == s.history.champions.Keys && IsHostStep(t) && t.host in s.nodes && StartsEpoch(t, s.history)
    ensures ClocksMove(s, HostAfter(p, s, t))
  {
    hide NodeAfter, HistoryAfterHost, StartsEpoch;
    HistoryKeeps(s.history, s.nodes[t.host], NodeAfter(p, s.nodes[t.host], t, s.now), t, s.now);
    if t.WinElection? { HistoryBegins(s.history, s.nodes[t.host], NodeAfter(p, s.nodes[t.host], t, s.now), t, s.now); }
  }

  lemma HostStepKeepsClocks(p: Params, s: Sys, t: Step)
    requires ClocksOk(s) && IsHostStep(t) && t.host in s.nodes && StartsEpoch(t, s.history)
    ensures ClocksOk(HostAfter(p, s, t))
  {
    hide HostAfter, StartsEpoch, ClocksMove;
    HostStepMovesClocks(p, s, t);
    ClocksAfter(s, HostAfter(p, s, t));
  }

  /** What a host step leaves of wires, messages and history, as far as bridges and receipts read them. */
  lemma HostStepLeaves(p: Params, s: Sys, t: Step)
    requires IsHostStep(t) && t.host in s.nodes && StartsEpoch(t, s.history)
    ensures var s' := HostAfter(p, s, t);
      && s'.now == s.now && s'.bridges == s.bridges
      && s'.net.acks == s.net.acks && s'.net.pongs == s.net.pongs && s'.net.challenges == s.net.challenges
      && s'.net.receipts == s.net.receipts
      && s'.net.proofs == (if t.Answer? then s.net.proofs + {ProofMsg(t.challenge.socket, t.proof)} else s.net.proofs)
      && s'.wires == (if t.DialUp? then s.wires.(newest := s.wires.newest[Line(t.host, t.socket.bridge) := t.socket]) else s.wires)
      && s'.history.contacts == s.history.contacts && s'.history.boundSince == s.history.boundSince
      && s'.history.absences == s.history.absences
      && forall e | e in s.history.began :: e in s'.history.began && s'.history.began[e] == s.history.began[e]
  {
    hide NodeAfter, HistoryAfterHost, StartsEpoch;
    var n, n' := s.nodes[t.host], NodeAfter(p, s.nodes[t.host], t, s.now);
    HistoryKeeps(s.history, n, n', t, s.now);
    if t.WinElection? {
      HistoryBegins(s.history, n, n', t, s.now);
      StartsFresh(t, s.history);
    }
  }

  predicate DialsNewer(s: Sys, t: Step) {
    t.DialUp? ==> t.socket.host == t.host && IsNewer(s.wires, t.socket)
  }

  lemma DialedLine(s: Sys, t: Step, k: Socket)
    requires WiresOk(s.wires, s.history) && t.DialUp? && DialsNewer(s, t) && k in s.wires.seen
    ensures k != t.socket
    ensures var w' := s.wires.(newest := s.wires.newest[Line(t.host, t.socket.bridge) := t.socket]);
      && LineOf(k) in w'.newest && k.serial <= w'.newest[LineOf(k)].serial && (IsNewest(w', k) ==> IsNewest(s.wires, k))
  {
  }

  lemma HostStepKeepsWires(p: Params, s: Sys, s': Sys, t: Step)
    requires WiresOk(s.wires, s.history) && t.DialUp? && DialsNewer(s, t)
    requires s'.wires == s.wires.(newest := s.wires.newest[Line(t.host, t.socket.bridge) := t.socket])
    requires s'.history.boundSince == s.history.boundSince
    ensures WiresOk(s'.wires, s'.history)
    ensures forall k | k in s.wires.seen && IsNewest(s'.wires, k) :: IsNewest(s.wires, k)
  {
    forall k | k in s.wires.seen ensures LineOf(k) in s'.wires.newest && k.serial <= s'.wires.newest[LineOf(k)].serial
      && (IsNewest(s'.wires, k) ==> IsNewest(s.wires, k)) {
      DialedLine(s, t, k);
    }
    hide DialsNewer;
  }

  /** The host answers a challenge it received, on its newest socket. */
  predicate AnswersHonestly(s: Sys, t: Step) {
    t.Answer? ==> t.proof.challenge in Nonces(s.net) && IsNewest(s.wires, t.challenge.socket)
  }

  lemma HostStepPremises(p: Params, s: Sys, t: Step)
    requires IsHostStep(t) && t.host in s.nodes && HostEnabled(p, s, t) && LinksOk(t.host, s.nodes[t.host], s.wires)
    ensures DialsNewer(s, t) && AnswersHonestly(s, t)
  {
    hide MayPromote;
  }

  lemma HostStepKeepsMessages(p: Params, s: Sys, t: Step)
    requires WiresOk(s.wires, s.history) && MessagesOk(s) && ReceiptsOk(p, s)
    requires IsHostStep(t) && t.host in s.nodes && StartsEpoch(t, s.history) && DialsNewer(s, t) && AnswersHonestly(s, t)
    ensures var s' := HostAfter(p, s, t); WiresOk(s'.wires, s'.history) && MessagesOk(s') && ReceiptsOk(p, s')
  {
    HostStepLeaves(p, s, t);
    var s' := HostAfter(p, s, t);
    hide HostAfter, StartsEpoch, DialsNewer;
    if t.DialUp? { HostStepKeepsWires(p, s, s', t); }
    hide WiresOk, IsNewest;
    SameMessagesOk(p, s, s');
  }

  /** Messages and receipts read neither hosts nor timers, and of the wires only what was seen. */
  lemma SameMessagesOk(p: Params, s: Sys, s': Sys)
    requires MessagesOk(s) && ReceiptsOk(p, s)
    requires s'.now == s.now && s'.net.acks == s.net.acks && s'.net.pongs == s.net.pongs && s'.net.challenges == s.net.challenges
    requires s'.net.receipts == s.net.receipts && s'.wires.seen == s.wires.seen
    requires forall m | m in s'.net.proofs :: m in s.net.proofs || m.proof.challenge in Nonces(s.net)
    requires s'.history.contacts == s.history.contacts && s'.history.boundSince == s.history.boundSince
    requires s'.history.absences == s.history.absences
    requires forall e | e in s.history.began :: e in s'.history.began && s'.history.began[e] == s.history.began[e]
    ensures MessagesOk(s') && ReceiptsOk(p, s')
  {
    forall m | m in s.net.acks ensures AckOk(s'.wires, s'.history, s'.now, m) { assert AckOk(s.wires, s.history, s.now, m); }
    forall m | m in s.net.pongs ensures PongOk(s'.wires, s'.history, s'.now, m) { assert PongOk(s.wires, s.history, s.now, m); }
    forall r | r in s.net.receipts ensures ReceiptOk(p, s'.history, s'.now, r) { assert ReceiptOk(p, s.history, s.now, r); }
    hide AckOk, PongOk, ReceiptOk;
  }

  lemma HostStepKeepsBridges(p: Params, s: Sys, t: Step)
    requires BridgesOk(p, s) && WiresOk(s.wires, s.history)
    requires IsHostStep(t) && t.host in s.nodes && StartsEpoch(t, s.history) && DialsNewer(s, t) && AnswersHonestly(s, t)
    ensures BridgesOk(p, HostAfter(p, s, t))
  {
    HostStepLeaves(p, s, t);
    var s' := HostAfter(p, s, t);
    hide HostAfter, StartsEpoch, BridgeOk, DialsNewer;
    forall b | b in s.bridges ensures BridgeOk(p, b, s.bridges[b], s'.wires, s'.net, s'.history) {
      if t.DialUp? { HostStepKeepsWires(p, s, s', t); }
      assert SameAt(b, s.wires, s'.wires, s.history, s'.history);
      if t.Answer? {
        BridgeAnswered(p, b, s.bridges[b], s.wires, s.net, s'.net, s.history, s'.history, ProofMsg(t.challenge.socket, t.proof));
      } else {
        BridgeStays(p, b, s.bridges[b], s.wires, s'.wires, s.net, s'.net, s.history, s'.history);
      }
    }
  }

  lemma BridgeAnswered(p: Params, b: BridgeId, v: BridgeState, w: Wires, net: Net, net': Net, hist: History, hist': History, m: ProofMsg)
    requires BridgeOk(p, b, v, w, net, hist) && SameAt(b, w, w, hist, hist') && WiresOk(w, hist) && IsNewest(w, m.socket)
    requires net'.proofs == net.proofs + {m}
    ensures BridgeOk(p, b, v, w, net', hist')
  {
    AnsweredStays(v.challenges, w, net, hist, m);
    var answered := net.(proofs := net.proofs + {m});
    assert BridgeOk(p, b, v, w, answered, hist);
    hide AnsweredOk, BoundOk, PendingOk, DisconnectsOk, SinceOk, WiresOk, SameAt, IsNewest;
    BridgeStays(p, b, v, w, w, answered, net', hist, hist');
  }

  lemma NobodyStartsOnTop(c: Champions, n: Node, n': Node)
    requires OnTop(c, n) && NoNewWriter(n, n')
    ensures OnTop(c, n')
  {
  }

  lemma PlainStepKeepsTop(p: Params, s: Sys, t: Step)
    requires WritersOnTop(s) && IsHostStep(t) && t.host in s.nodes && !t.WinElection? && StartsEpoch(t, s.history)
    requires NoNewWriter(s.nodes[t.host], NodeAfter(p, s.nodes[t.host], t, s.now))
    ensures WritersOnTop(HostAfter(p, s, t))
  {
    hide HostAfter, NodeAfter, NoNewWriter, OnTop;
    HostAfterNodes(p, s, t);
    HostAfterChampions(p, s, t);
    NobodyStartsOnTop(s.history.champions, s.nodes[t.host], NodeAfter(p, s.nodes[t.host], t, s.now));
  }

  lemma HostAfterChampions(p: Params, s: Sys, t: Step)
    requires IsHostStep(t) && t.host in s.nodes
    ensures !t.WinElection? ==> HostAfter(p, s, t).history.champions == s.history.champions
    ensures t.WinElection? ==> HostAfter(p, s, t).history.champions == s.history.champions[t.expectedEpoch + 1 := t.host]
  {
    hide NodeAfter, HistoryAfterHost;
    HistoryKeeps(s.history, s.nodes[t.host], NodeAfter(p, s.nodes[t.host], t, s.now), t, s.now);
  }

  lemma WinnerOfOneCollection(p: Params, s: Sys, t: Step)
    requires ElectionsInv(p, s) && t.WinElection? && HostEnabled(p, s, t)
    ensures OneCollection(p, s, t.votes)
  {
    hide ElectionsInv, OneCollection, MayPromote;
    VotesAreOneCollection(p, s, t.host, t.votes);
  }

  lemma WinKeepsTop(p: Params, s: Sys, t: Step, e0: nat)
    requires TimedInv(p, s, e0) && t.WinElection? && t.host in s.nodes && HostEnabled(p, s, t) && OneCollection(p, s, t.votes)
    ensures WritersOnTop(HostAfter(p, s, t))
  {
    hide OneCollection;
    hide HostEnabled, EpochInv, HostAfter, NodeAfter, LeaseOk, LinksOk, PrimaryOk, QuorumOk, SuspendedOk, FreshOk;
    hide GraceSuffices, ClocksOk, WiresOk, MessagesOk, ReceiptsOk, BridgesOk, OnTop, StartsEpoch;
    HostAfterNodes(p, s, t);
    assert StartsEpoch(t, s.history) by { HostStepStarts(p, s, t, e0); }
    HostAfterChampions(p, s, t);
    forall g | g in s.nodes ensures !s.nodes[g].service.writer {
      assert NodeOk(p, g, s.nodes[g], s.wires, s.net, s.history, s.timers, s.now);
      NobodyWritesAtAnElection(p, s, t, e0, g);
    }
    WinnerIsOnTop(p, s, t, e0);
    forall g | g in s.nodes && g != t.host ensures OnTop(HostAfter(p, s, t).history.champions, s.nodes[g]) {
      SilentIsOnTop(HostAfter(p, s, t).history.champions, s.nodes[g]);
    }
  }

  lemma SilentIsOnTop(c: Champions, n: Node)
    requires !n.service.writer
    ensures OnTop(c, n)
  {
  }

  lemma WinnerIsOnTop(p: Params, s: Sys, t: Step, e0: nat)
    requires EpochInv(p, s, e0) && t.WinElection? && t.host in s.nodes && HostEnabled(p, s, t)
    ensures OnTop(s.history.champions[t.expectedEpoch + 1 := t.host], NodeAfter(p, s.nodes[t.host], t, s.now))
  {
    hide EpochInv, MayPromote, Promote;
    WinnerFollowsTop(p, s, t, e0);
    PromotionChanges(s.nodes[t.host].service, t.expectedEpoch, t.votes, t.granted, s.now);
  }

  lemma HostPremises(p: Params, s: Sys, t: Step, e0: nat)
    requires TimedInv(p, s, e0) && IsHostStep(t) && t.host in s.nodes
    ensures OwnPremise(p, s, t.host) && NodesRightful(p, s.history.champions, s.nodes)
    ensures LinksOk(t.host, s.nodes[t.host], s.wires) && QuorumOk(p, s.nodes[t.host]) && SuspendedOk(s.nodes[t.host])
  {
    hide EpochInv, MessagesOk, GraceSuffices, ParamsOk, BridgesOk, ReceiptsOk, WiresOk;
    InvParams(p, s, e0);
    hide BridgesRightful, NetRightful, RightfulHost, HostFits, RightfulRecord;
    assert RightfulNode(p, s.history.champions, t.host, s.nodes[t.host]);
    assert NodeOk(p, t.host, s.nodes[t.host], s.wires, s.net, s.history, s.timers, s.now);
    hide FreshOk, LeaseOk, QuorumOk, PrimaryOk, SuspendedOk, LinksOk;
  }

  lemma HostMessages(p: Params, s: Sys, t: Step, e0: nat)
    requires EpochInv(p, s, e0) && IsHostStep(t) && t.host in s.nodes && HostEnabled(p, s, t) && OnTime(p, s, t)
    ensures MessagePremise(p, s, t)
  {
    hide EpochInv, OnTime, SafeIfResuming, HostEnabled;
    if t.GetAck? { ResumeIsSafe(p, s, t, e0); }
    if t.WinElection? {
      WinnerFollowsTop(p, s, t, e0);
      InvParams(p, s, e0);
      hide NodesRightful, BridgesRightful;
      assert forall m | m in s.net.acks :: RightfulRecord(s.history.champions, m.record);
    }
  }

  lemma ResumedChampion(p: Params, s: Sys, t: Step, e0: nat)
    requires t.GetAck? && t.host in s.nodes && EpochInv(p, HostAfter(p, s, t), e0)
    requires NodeAfter(p, s.nodes[t.host], t, s.now).service.writer
    ensures Champion(s.history.champions, NodeAfter(p, s.nodes[t.host], t, s.now).service.db.epoch, t.host)
  {
    hide EpochInv, HostAfter, NodeAfter;
    HostAfterNodes(p, s, t);
    HostAfterChampions(p, s, t);
    WritersAreChampions(p, HostAfter(p, s, t), e0, t.host);
  }

  lemma TopWithOne(s: Sys, s': Sys, h: HostId, n': Node)
    requires WritersOnTop(s) && OnTop(s.history.champions, n')
    requires s'.nodes == s.nodes[h := n'] && s'.history.champions == s.history.champions
    ensures WritersOnTop(s')
  {
    hide OnTop;
  }

  lemma ResumeKeepsTop(p: Params, s: Sys, t: Step, e0: nat)
    requires IsHostStep(t) && t.GetAck? && t.host in s.nodes && OnTime(p, s, t) && Resumes(p, s, t)
    requires EpochInv(p, s, e0) && EpochInv(p, HostAfter(p, s, t), e0) && WritersOnTop(s)
    requires NodeAfter(p, s.nodes[t.host], t, s.now).service.writer
    requires QuorumOk(p, s.nodes[t.host]) && SuspendedOk(s.nodes[t.host]) && HostFits(p, t.host, s.nodes[t.host].service)
    ensures WritersOnTop(HostAfter(p, s, t))
  {
    hide EpochInv, OnTime, Resumes, QuorumOk, SuspendedOk, HostFits, HostAfter, NodeAfter, OnTop, WritersOnTop, IsHostStep;
    ResumedChampion(p, s, t, e0);
    ResumedIsOnTop(p, s, t, e0);
    HostAfterNodes(p, s, t);
    HostAfterChampions(p, s, t);
    TopWithOne(s, HostAfter(p, s, t), t.host, NodeAfter(p, s.nodes[t.host], t, s.now));
  }

  lemma ResumedWrites(p: Params, s: Sys, t: Step)
    requires t.GetAck? && t.host in s.nodes && Resumes(p, s, t)
    ensures NodeAfter(p, s.nodes[t.host], t, s.now).service.writer
  {
  }

  lemma HostStepKeepsTop(p: Params, s: Sys, t: Step, e0: nat)
    requires TimedInv(p, s, e0) && ElectionsInv(p, s) && IsHostStep(t) && t.host in s.nodes && HostEnabled(p, s, t) && OnTime(p, s, t)
    requires StartsEpoch(t, s.history) && OwnPremise(p, s, t.host) && EpochInv(p, HostAfter(p, s, t), e0)
    requires QuorumOk(p, s.nodes[t.host]) && SuspendedOk(s.nodes[t.host])
    ensures WritersOnTop(HostAfter(p, s, t))
  {
    hide HostEnabled, OnTime, HostAfter, NodeAfter, EpochInv, NodesOk, GraceSuffices, ClocksOk, WiresOk, MessagesOk, ReceiptsOk;
    hide BridgesOk, StartsEpoch, NoNewWriter, NodeOk, ParamsOk, HostFits, WritersOnTop, Resumes, QuorumOk, SuspendedOk, ElectionsInv, OneCollection;
    if t.WinElection? {
      WinnerOfOneCollection(p, s, t);
      WinKeepsTop(p, s, t, e0);
    } else if t.GetAck? && Resumes(p, s, t) {
      ResumedWrites(p, s, t);
      ResumeKeepsTop(p, s, t, e0);
    } else {
      NobodyStartsWriting(p, s, t, s.nodes[t.host]);
      PlainStepKeepsTop(p, s, t);
    }
  }

  lemma HostStepTimed(p: Params, s: Sys, t: Step, e0: nat)
    requires TimedInv(p, s, e0) && ElectionsInv(p, s) && IsHostStep(t) && t.host in s.nodes && HostEnabled(p, s, t) && OnTime(p, s, t)
    requires EpochInv(p, HostAfter(p, s, t), e0)
    ensures TimedInv(p, HostAfter(p, s, t), e0)
  {
    hide HostEnabled, OnTime, HostAfter, EpochInv, NodesOk, GraceSuffices, ClocksOk, WiresOk, MessagesOk, ReceiptsOk;
    hide BridgesOk, StartsEpoch, WritersOnTop, OwnPremise, NodesRightful, LinksOk, DialsNewer, AnswersHonestly, MessagePremise;
    hide QuorumOk, SuspendedOk, ElectionsInv;
    HostStepStarts(p, s, t, e0);
    HostPremises(p, s, t, e0);
    HostMessages(p, s, t, e0);
    HostStepPremises(p, s, t);
    HostStepKeepsClocks(p, s, t);
    HostStepKeepsMessages(p, s, t);
    HostStepKeepsBridges(p, s, t);
    HostStepKeepsNodes(p, s, t);
    HostStepKeepsTop(p, s, t, e0);
  }

  // ---------------------------------------------------------------- steps of a bridge

  /** What a bridge step may do outside its bridge. */
  datatype Outcome = Committed(socket: Socket, record: HostRecord) | Voted(receipt: Receipt) | Quiet

  ghost function OutcomeOf(p: Params, s: Sys, t: Step): Outcome
    requires IsBridgeStep(t) && BridgeOf(t) in s.bridges && BridgeOf(t) in p.configs
  {
    var v, c := s.bridges[BridgeOf(t)], p.configs[BridgeOf(t)];
    if Commits(c, v, t, s.now) then Committed(t.message.socket, v.challenges.pending[t.message.socket].frame.record)
    else if Votes(p, c, v, t, s.wires.alive, s.now) && KeyOf(p, t.absence.primary) in v.sockets.disconnectedAt then
      Voted(Claimed(p, c, v, t, s.wires.alive, s.now).1.receipt)
    else Quiet
  }

  /** A vote is only given for a disconnected primary. */
  lemma VotesNameDisconnected(p: Params, s: Sys, t: Step)
    requires IsBridgeStep(t) && BridgeOf(t) in s.bridges && BridgeOf(t) in p.configs && BridgeEnabled(p, s, t)
    requires Votes(p, p.configs[BridgeOf(t)], s.bridges[BridgeOf(t)], t, s.wires.alive, s.now)
    ensures KeyOf(p, t.absence.primary) in s.bridges[t.bridge].sockets.disconnectedAt
  {
    hide WitnessValid, KnownPrimary;
  }

  predicate NetMoves(s: Sys, s': Sys, t: Step, o: Outcome) {
    && s'.net.proofs == s.net.proofs && s'.net.pongs == s.net.pongs
    && s'.net.acks == (match o case Committed(k, r) => s.net.acks + {AckMsg(k, r, s.now)} case _ => s.net.acks)
    && s'.net.receipts == (match o case Voted(r) => s.net.receipts + {r} case _ => s.net.receipts)
    && s.net.challenges <= s'.net.challenges
  }

  ghost function CutIn(p: Params, s: Sys, t: Step): set<Socket>
    requires IsBridgeStep(t) && BridgeOf(t) in s.bridges && BridgeOf(t) in p.configs
  {
    CutBy(p, p.configs[BridgeOf(t)], s.bridges[BridgeOf(t)], t, s.wires.alive, s.now)
  }

  predicate HistoryMoves(p: Params, s: Sys, s': Sys, t: Step, o: Outcome, cut: set<Socket>) {
    match o
    case Committed(k, _) => s'.history == Noted(Uncut(s.history, cut), k, s.now)
    case Voted(r) =>
      && t.Claim? && t.bridge in s.bridges && KeyOf(p, t.absence.primary) in s.bridges[t.bridge].sockets.disconnectedAt
      && var d := s.bridges[t.bridge].sockets.disconnectedAt[KeyOf(p, t.absence.primary)];
      s'.history == (if r in s.net.receipts then Uncut(s.history, cut)
                     else Uncut(s.history, cut).(absences := s.history.absences[r := d]))
    case Quiet => s'.history == Uncut(s.history, cut)
  }

  lemma BridgeNetMoves(p: Params, s: Sys, t: Step)
    requires IsBridgeStep(t) && BridgeOf(t) in s.bridges && BridgeOf(t) in p.configs && BridgeEnabled(p, s, t)
    ensures NetMoves(s, StepOfBridge(p, s, t), t, OutcomeOf(p, s, t))
  {
    hide BridgeAfter, Begin, Proved, Claimed, BridgeEnabled, HistoryAfterBridge, WiresAfterBridge;
    if t.Claim? && Votes(p, p.configs[BridgeOf(t)], s.bridges[BridgeOf(t)], t, s.wires.alive, s.now) {
      VotesNameDisconnected(p, s, t);
    }
  }

  lemma BridgeHistoryMoves(p: Params, s: Sys, t: Step)
    requires IsBridgeStep(t) && BridgeOf(t) in s.bridges && BridgeOf(t) in p.configs
    ensures HistoryMoves(p, s, StepOfBridge(p, s, t), t, OutcomeOf(p, s, t), CutIn(p, s, t))
  {
    hide BridgeAfter, Begin, Prove, ClaimVote, NetAfterBridge, WiresAfterBridge, CutBy;
  }

  lemma BridgeRestMoves(p: Params, s: Sys, t: Step)
    requires IsBridgeStep(t) && BridgeOf(t) in s.bridges && BridgeOf(t) in p.configs
    ensures var s' := StepOfBridge(p, s, t);
      && s'.now == s.now && s'.nodes == s.nodes && s'.timers == s.timers
      && s'.wires.newest == s.wires.newest && s'.wires.seen == s.wires.seen && s'.wires.alive <= s.wires.alive
  {
    hide BridgeAfter, NetAfterBridge, HistoryAfterBridge;
  }

  lemma CommitterIsAlive(p: Params, s: Sys, t: Step)
    requires IsBridgeStep(t) && BridgeOf(t) in s.bridges && BridgeOf(t) in p.configs && BridgeEnabled(p, s, t)
    requires OutcomeOf(p, s, t).Committed?
    ensures OutcomeOf(p, s, t).socket in s.wires.alive && OutcomeOf(p, s, t).socket.bridge == BridgeOf(t)
  {
    hide Prove, KnownPrimary;
  }

  /** Of those cut off none is an open connection of a host that acts as primary. */
  predicate CutsNoPrimary(s: Sys, cut: set<Socket>) {
    forall k | k in cut :: !ServesPrimary(s.nodes, k)
  }

  predicate Moves(p: Params, s: Sys, s': Sys, t: Step, o: Outcome, cut: set<Socket>) {
    && NetMoves(s, s', t, o) && HistoryMoves(p, s, s', t, o, cut)
    && s'.now == s.now && s'.nodes == s.nodes && s'.timers == s.timers
    && s'.wires.newest == s.wires.newest && s'.wires.seen == s.wires.seen && s'.wires.alive <= s.wires.alive
    && (o.Committed? ==> o.socket in s.wires.alive)
  }

  lemma BridgeMoves(p: Params, s: Sys, t: Step)
    requires IsBridgeStep(t) && BridgeOf(t) in s.bridges && BridgeOf(t) in p.configs && BridgeEnabled(p, s, t)
    ensures Moves(p, s, StepOfBridge(p, s, t), t, OutcomeOf(p, s, t), CutIn(p, s, t))
  {
    hide StepOfBridge, NetMoves, HistoryMoves, OutcomeOf, BridgeEnabled, CutIn;
    BridgeNetMoves(p, s, t);
    BridgeHistoryMoves(p, s, t);
    BridgeRestMoves(p, s, t);
    if OutcomeOf(p, s, t).Committed? { CommitterIsAlive(p, s, t); }
  }

  // The rest of the invariant, for anything a bridge step may do outside its bridge.

  /** What a bridge step leaves of the history's own clocks. */
  lemma MovesHistory(p: Params, s: Sys, s': Sys, t: Step, o: Outcome, cut: set<Socket>)
    requires Moves(p, s, s', t, o, cut)
    ensures s'.history.champions == s.history.champions && s'.history.began == s.history.began
    ensures forall c | c in s'.history.contacts :: c in s.history.contacts || c.at == s.now
    ensures forall k | k in s'.history.boundSince ::
      if k in s.history.boundSince then s'.history.boundSince[k] in {s.history.boundSince[k], s.now}
      else o.Committed? && k == o.socket && s'.history.boundSince[k] == s.now
  {
    hide NetMoves, Linked;
    match o {
      case Committed(k, _) => NotedCommits(Uncut(s.history, cut), k, s.now);
      case Voted(_) =>
      case Quiet =>
    }
  }

  lemma MovesKeepClocks(p: Params, s: Sys, s': Sys, t: Step, o: Outcome, cut: set<Socket>)
    requires ClocksOk(s) && WiresOk(s.wires, s.history) && Moves(p, s, s', t, o, cut)
    ensures ClocksOk(s') && WiresOk(s'.wires, s'.history)
  {
    hide NetMoves, HistoryMoves;
    MovesHistory(p, s, s', t, o, cut);
  }

  lemma MovesKeepPong(p: Params, s: Sys, s': Sys, t: Step, o: Outcome, cut: set<Socket>, m: PongMsg)
    requires PongOk(s.wires, s.history, s.now, m) && Moves(p, s, s', t, o, cut)
    ensures PongOk(s'.wires, s'.history, s'.now, m)
  {
    hide NetMoves;
  }

  lemma MovesKeepAck(p: Params, s: Sys, s': Sys, t: Step, o: Outcome, cut: set<Socket>, m: AckMsg)
    requires (m in s.net.acks ==> AckOk(s.wires, s.history, s.now, m)) && WiresOk(s.wires, s.history)
    requires Moves(p, s, s', t, o, cut) && m in s'.net.acks
    ensures AckOk(s'.wires, s'.history, s'.now, m)
  {
  }

  lemma MovesKeepMessages(p: Params, s: Sys, s': Sys, t: Step, o: Outcome, cut: set<Socket>)
    requires MessagesOk(s) && ClocksOk(s) && WiresOk(s.wires, s.history) && Moves(p, s, s', t, o, cut)
    ensures MessagesOk(s')
  {
    hide AckOk, PongOk, HistoryMoves, ClocksOk, WiresOk;
    assert Nonces(s.net) <= Nonces(s'.net);
    forall m | m in s'.net.acks ensures AckOk(s'.wires, s'.history, s'.now, m) { MovesKeepAck(p, s, s', t, o, cut, m); }
    forall m | m in s'.net.pongs ensures PongOk(s'.wires, s'.history, s'.now, m) { MovesKeepPong(p, s, s', t, o, cut, m); }
  }

  lemma MovesAreSameFor(p: Params, s: Sys, s': Sys, t: Step, o: Outcome, cut: set<Socket>, h: HostId)
    requires Moves(p, s, s', t, o, cut) && CutsNoPrimary(s, cut) && h in s.nodes
    ensures SameFor(h, s.nodes[h], s.wires, s'.wires, s.history, s'.history) && SameTimers(h, s.timers, s'.timers)
  {
    hide NetMoves;
    forall k | ActsAsPrimary(s.nodes[h].service) && Linked(s.nodes[h], k) && k.host == h ensures k !in cut {
      assert ServesPrimary(s.nodes, k);
    }
  }

  /** A new receipt's absence began after every contact the bridge had with its primary. */
  predicate LaterThanContacts(s: Sys, s': Sys, o: Outcome) {
    o.Voted? && o.receipt !in s.net.receipts ==>
      o.receipt in s'.history.absences
      && forall c | c in s.history.contacts && c.bridge == o.receipt.bridge && c.host == o.receipt.primary :: c.at <= s'.history.absences[o.receipt]
  }

  lemma MovesGrowNet(p: Params, s: Sys, s': Sys, t: Step, o: Outcome, cut: set<Socket>, h: HostId)
    requires Moves(p, s, s', t, o, cut) && ClocksOk(s) && LaterThanContacts(s, s', o) && h in s.nodes
    ensures NetGrows(h, s.nodes[h], s.net, s'.net, s.history, s'.history)
  {
    if o.Committed? { NotedCommits(Uncut(s.history, cut), o.socket, s.now); }
  }

  lemma MovesKeepNodes(p: Params, s: Sys, s': Sys, t: Step, o: Outcome, cut: set<Socket>)
    requires NodesOk(p, s) && WritersOnTop(s) && Moves(p, s, s', t, o, cut) && ClocksOk(s)
    requires CutsNoPrimary(s, cut) && LaterThanContacts(s, s', o)
    ensures NodesOk(p, s') && WritersOnTop(s')
  {
    hide CutsNoPrimary, LaterThanContacts, ClocksOk, NetMoves, NodeOk, SameFor, SameTimers, NetGrows, OnTop;
    assert s'.history.champions == s.history.champions && s'.nodes == s.nodes && s'.now == s.now;
    forall h | h in s.nodes ensures NodeOk(p, h, s.nodes[h], s'.wires, s'.net, s'.history, s'.timers, s.now) {
      MovesAreSameFor(p, s, s', t, o, cut, h);
      MovesGrowNet(p, s, s', t, o, cut, h);
      NodeStays(p, h, s.nodes[h], s.net, s'.net, s.history, s'.history, s.wires, s'.wires, s.timers, s'.timers, s.now);
    }
  }

  // ---------------------------------------------------------------- receipts and bridges

  lemma OldReceiptStays(p: Params, s: Sys, s': Sys, t: Step, o: Outcome, cut: set<Socket>, r: Receipt)
    requires ReceiptOk(p, s.history, s.now, r) && r in s.net.receipts && Moves(p, s, s', t, o, cut)
    ensures ReceiptOk(p, s'.history, s'.now, r)
  {
    hide NetMoves;
  }

  /** A granted vote carries the absence the bridge checked: disconnected for the whole grace, and never served since. */
  lemma NewReceiptOk(p: Params, s: Sys, s': Sys, t: Step, cut: set<Socket>)
    requires BridgesOk(p, s) && ParamsOk(p) && t.Claim? && t.bridge in s.bridges && t.bridge in p.configs && BridgeEnabled(p, s, t)
    requires Votes(p, p.configs[t.bridge], s.bridges[t.bridge], t, s.wires.alive, s.now)
    requires var r := Claimed(p, p.configs[t.bridge], s.bridges[t.bridge], t, s.wires.alive, s.now).1.receipt;
      && KeyOf(p, t.absence.primary) in s.bridges[t.bridge].sockets.disconnectedAt
      && s'.now == s.now
      && s'.history == Uncut(s.history, cut).(absences := s.history.absences[r := s.bridges[t.bridge].sockets.disconnectedAt[KeyOf(p, t.absence.primary)]])
    ensures var r := Claimed(p, p.configs[t.bridge], s.bridges[t.bridge], t, s.wires.alive, s.now).1.receipt;
      && ReceiptOk(p, s'.history, s'.now, r)
      && forall c | c in s.history.contacts && c.bridge == r.bridge && c.host == r.primary :: c.at <= s'.history.absences[r]
  {
    hide BridgeOk, ClaimVote, ParamsOk, KnownPrimary, BridgesOk, Grace;
    var v, key := s.bridges[t.bridge], KeyOf(p, t.absence.primary);
    DisconnectAt(p, s, t.bridge, key);
    GrantedMeansAbsent(p.scope, v, t.requestId, t.absence, t.known, s.wires.alive, p.configs[t.bridge], s.now, t.persisted);
    ConfigIsNamed(p, t.bridge);
  }

  lemma DisconnectAt(p: Params, s: Sys, b: BridgeId, key: HostKey)
    requires BridgesOk(p, s) && b in s.bridges && key.scope == p.scope && key in s.bridges[b].sockets.disconnectedAt
    ensures DisconnectOk(b, s.bridges[b].ledger.marks, s.history, key, s.bridges[b].sockets.disconnectedAt[key])
  {
    assert BridgeOk(p, b, s.bridges[b], s.wires, s.net, s.history);
  }

  /** What `claimPromotionVote` grants: the known primary is the one named, and absent for the grace at this moment. */
  lemma GrantedMeansAbsent(scope: Scope, v: BridgeState, requestId: string, w: AbsenceWitness, known: Option<Mark>,
                           open: set<Socket>, c: Config, now: int, persisted: bool)
    requires ClaimVote(v, requestId, scope.authority, w, known, open, c, now, persisted).1.Granted?
    requires KnownPrimary(v.ledger.marks, scope, known) && w.server == scope.server
    ensures var r, key := ClaimVote(v, requestId, scope.authority, w, known, open, c, now, persisted).1.receipt, HostKey(scope, w.primary);
      && r.bridge == c.me && r.issuedAt == now && r.primary == w.primary && r.primaryEpoch == w.primaryEpoch
      && key in v.ledger.marks && v.ledger.marks[key].role.Primary? && v.ledger.marks[key].epoch == w.primaryEpoch
      && key in v.sockets.disconnectedAt && now - v.sockets.disconnectedAt[key] >= Grace(c)
  {
    hide WitnessValid, Grace;
  }

  lemma BridgeStepKeepsReceipts(p: Params, s: Sys, t: Step)
    requires ReceiptsOk(p, s) && BridgesOk(p, s) && ParamsOk(p)
    requires IsBridgeStep(t) && BridgeOf(t) in s.bridges && BridgeOf(t) in p.configs && BridgeEnabled(p, s, t)
    ensures ReceiptsOk(p, StepOfBridge(p, s, t)) && LaterThanContacts(s, StepOfBridge(p, s, t), OutcomeOf(p, s, t))
  {
    hide StepOfBridge, BridgeEnabled, Commits, Votes, ParamsOk, BridgesOk, ReceiptOk, Claimed, CutIn;
    BridgeMoves(p, s, t);
    var s', o, cut := StepOfBridge(p, s, t), OutcomeOf(p, s, t), CutIn(p, s, t);
    if o.Voted? && o.receipt !in s.net.receipts { NewReceiptOk(p, s, s', t, cut); }
    forall r | r in s'.net.receipts ensures ReceiptOk(p, s'.history, s'.now, r) {
      if r in s.net.receipts {
        OldReceiptStays(p, s, s', t, o, cut, r);
      } else {
        NewReceiptOk(p, s, s', t, cut);
      }
    }
  }

  lemma CommitsIsProve(c: Config, v: BridgeState, t: Step, now: int)
    requires t.ProveReg?
    ensures Commits(c, v, t, now) <==> Proved(c, v, t, now).1.None?
  {
    hide RegistrationFault, ProofValid, Commit;
  }

  lemma MarksHaveBegun(p: Params, s: Sys, b: BridgeId)
    requires BridgesRightful(p, s.history.champions, s.bridges) && ClocksOk(s) && b in s.bridges
    ensures MarksBegan(p, s.bridges[b].ledger.marks, s.history, s.now)
  {
    assert RightfulBridge(s.history.champions, p.scope, s.bridges[b]);
    hide Valid, RightfulPending;
  }

  /** What each own step of a bridge is given. */
  predicate OwnBridge(p: Params, s: Sys, b: BridgeId) {
    && b in s.bridges && b in p.configs && BridgeOk(p, b, s.bridges[b], s.wires, s.net, s.history) && Valid(s.bridges[b])
    && MarksBegan(p, s.bridges[b].ledger.marks, s.history, s.now)
    && (forall c | c in s.history.contacts :: c.at <= s.now)
    && WiresOk(s.wires, s.history) && MessagesOk(s)
  }

  /** The history after a step of the bridge that commits nothing. */
  function HistoryCut(s: Sys, v: BridgeState, v': BridgeState): History {
    Uncut(s.history, CutOff(v.sockets, v'.sockets, s.wires.alive))
  }

  lemma OwnBegin(p: Params, s: Sys, t: Step)
    requires t.BeginReg? && OwnBridge(p, s, t.bridge) && BridgeEnabled(p, s, t)
    ensures var v := s.bridges[t.bridge];
      var v' := Begin(v, t.socket, t.requestId, t.frame, t.known, p.configs[t.bridge], t.nonce, s.now).0;
      BridgeOk(p, t.bridge, v', s.wires, s.net, HistoryCut(s, v, v'))
  {
    hide BridgeOk, KnownPrimary, Begin, AckOk, PongOk, MarksBegan, WellKept, ClaimsAgree, SocketsAgree, WiresOk, Uncut;
    forall m | m in s.net.proofs ensures m.proof.challenge != t.nonce {
      assert m.proof.challenge in Nonces(s.net);
    }
    BegunIsOk(p, t.bridge, s.bridges[t.bridge], t.socket, t.requestId, t.frame, t.known, p.configs[t.bridge], t.nonce, s.wires, s.net, s.history, s.now);
  }

  lemma OwnProve(p: Params, s: Sys, t: Step)
    requires t.ProveReg? && OwnBridge(p, s, t.bridge) && BridgeEnabled(p, s, t)
    ensures var v := s.bridges[t.bridge];
      var (v', reject) := Proved(p.configs[t.bridge], v, t, s.now);
      && BridgeOk(p, t.bridge, v', s.wires, s.net, AfterProof(s.history, v, v', reject, t.message.socket, s.wires.alive, s.now))
      && forall q | q in CutOff(v.sockets, v'.sockets, s.wires.alive) :: !IsNewest(s.wires, q)
  {
    hide BridgeOk, KnownPrimary, Prove, Valid, WiresOk, MarksBegan, MessagesOk, IsNewest, AfterProof, CutOff;
    ProvenIsOk(p, t.bridge, s.bridges[t.bridge], t.requestId, t.message, t.known, p.configs[t.bridge], t.persisted, s.wires, s.net, s.history, s.now);
  }

  lemma OwnClose(p: Params, s: Sys, t: Step)
    requires t.CloseSocket? && OwnBridge(p, s, t.socket.bridge)
    ensures var v, w' := s.bridges[t.socket.bridge], s.wires.(alive := s.wires.alive - {t.socket});
      var v' := Close(v, t.socket, s.now);
      && BridgeOk(p, t.socket.bridge, v', w', s.net, s.history)
      && Uncut(s.history, CutOff(v.sockets, v'.sockets, w'.alive)) == s.history
  {
    hide BridgeOk, Close, MarksBegan, WellKept, MessagesOk, WiresOk, CutOff, Uncut;
    ClosedIsOk(p, t.socket.bridge, s.bridges[t.socket.bridge], t.socket, s.wires, s.net, s.history, s.now);
  }

  lemma VotingIsFewer(v: BridgeState, requestId: string, authority: Key, w: AbsenceWitness, known: Option<Mark>,
                      open: set<Socket>, c: Config, now: int, persisted: bool)
    ensures Fewer(v, ClaimVote(v, requestId, authority, w, known, open, c, now, persisted).0)
  {
    hide WitnessValid, Absent, SameBallot;
  }

  /** Sweeping, revoking, granting a vote and issuing access. */
  lemma OwnSweep(p: Params, s: Sys, t: Step)
    requires (t.CleanUp? || t.RevokeGrant? || t.Claim? || t.IssueAccess?) && OwnBridge(p, s, t.bridge)
    ensures var v := s.bridges[t.bridge];
      var v' := BridgeAfter(p, p.configs[t.bridge], v, t, s.wires.alive, s.now);
      BridgeOk(p, t.bridge, v', s.wires, s.net, HistoryCut(s, v, v'))
  {
    var v, c := s.bridges[t.bridge], p.configs[t.bridge];
    var v' := BridgeAfter(p, c, v, t, s.wires.alive, s.now);
    hide BridgeOk, Cleanup, Revoke, ClaimVote, MarksBegan, WellKept, ClaimsAgree, SocketsAgree, WiresOk, MessagesOk, CutOff, Uncut;
    match t {
      case CleanUp(_) => CleanedIsOk(p, t.bridge, v, s.wires, s.net, s.history, s.now);
      case RevokeGrant(_, r, persisted) => RevokedIsOk(p, t.bridge, v, r, persisted, s.wires, s.net, s.history, s.now);
      case Claim(_, _, _, _, _) =>
        VotingIsFewer(v, t.requestId, p.scope.authority, t.absence, t.known, s.wires.alive, c, s.now, t.persisted);
        FewerIsOk(p, t.bridge, v, v', s.wires, s.net, s.history);
      case IssueAccess(_, _) => FewerIsOk(p, t.bridge, v, v', s.wires, s.net, s.history);
    }
  }

  lemma ProofsMatter(p: Params, b: BridgeId, v: BridgeState, w: Wires, net: Net, net': Net, hist: History, hist': History)
    requires BridgeOk(p, b, v, w, net, hist) && net'.proofs == net.proofs
    requires hist'.contacts == hist.contacts && hist'.boundSince == hist.boundSince && hist'.began == hist.began
    ensures BridgeOk(p, b, v, w, net', hist')
  {
    assert SameAt(b, w, w, hist, hist') by { hide BridgeOk; }
    hide BridgeOk, SameAt;
    BridgeStays(p, b, v, w, w, net, net', hist, hist');
  }

  lemma BridgeStepEffect(p: Params, s: Sys, t: Step)
    requires IsBridgeStep(t) && BridgeOf(t) in s.bridges && BridgeOf(t) in p.configs
    ensures var b, s' := BridgeOf(t), StepOfBridge(p, s, t);
      && s'.bridges == s.bridges[b := BridgeAfter(p, p.configs[b], s.bridges[b], t, s.wires.alive, s.now)]
      && s'.wires == WiresAfterBridge(s.wires, t) && s'.net.proofs == s.net.proofs
      && var uncut := Uncut(s.history, CutIn(p, s, t));
      (if Commits(p.configs[b], s.bridges[b], t, s.now) then s'.history == Noted(uncut, t.message.socket, s.now)
       else s'.history.contacts == uncut.contacts && s'.history.boundSince == uncut.boundSince && s'.history.began == uncut.began)
  {
    hide BridgeAfter, Begin, Prove, ClaimVote, WiresAfterBridge, CutBy;
  }

  lemma RightfulIsValid(p: Params, c: Champions, bridges: map<BridgeId, BridgeState>, b: BridgeId)
    requires BridgesRightful(p, c, bridges) && b in bridges
    ensures Valid(bridges[b])
  {
    assert RightfulBridge(c, p.scope, bridges[b]);
  }

  lemma OwnBridgeHolds(p: Params, s: Sys, b: BridgeId)
    requires BridgesOk(p, s) && WiresOk(s.wires, s.history) && MessagesOk(s) && ClocksOk(s)
    requires BridgesRightful(p, s.history.champions, s.bridges) && b in s.bridges && b in p.configs
    ensures OwnBridge(p, s, b)
  {
    hide BridgeOk, WiresOk, MessagesOk, Valid, MarksBegan, BridgesRightful;
    RightfulIsValid(p, s.history.champions, s.bridges, b);
    MarksHaveBegun(p, s, b);
  }

  /** The bridge of a step, seen alone, in the history as the step leaves it. */
  lemma OwnBridgeStep(p: Params, s: Sys, t: Step)
    requires IsBridgeStep(t) && BridgeOf(t) in s.bridges && BridgeOf(t) in p.configs && BridgeEnabled(p, s, t) && OwnBridge(p, s, BridgeOf(t))
    ensures var b, s' := BridgeOf(t), StepOfBridge(p, s, t); BridgeOk(p, b, s'.bridges[b], s'.wires, s'.net, s'.history)
  {
    hide StepOfBridge, BridgeOk, WiresOk, MessagesOk, BridgeEnabled, Noted, Uncut, CutOff, MarksBegan;
    hide Begin, Prove, Close, ClaimVote, Cleanup, Revoke, Valid;
    BridgeStepEffect(p, s, t);
    var b, s' := BridgeOf(t), StepOfBridge(p, s, t);
    var v, c := s.bridges[b], p.configs[b];
    var v' := BridgeAfter(p, c, v, t, s.wires.alive, s.now);
    if t.ProveReg? {
      OwnProve(p, s, t);
      CommitsIsProve(c, v, t, s.now);
      ProofsMatter(p, b, v', s'.wires, s.net, s'.net, AfterProof(s.history, v, v', Proved(c, v, t, s.now).1, t.message.socket, s.wires.alive, s.now), s'.history);
    } else if t.RebootBridge? {
      BridgeParts(p, b, v, s.wires, s.net, s.history);
      RestartedIsOk(p, b, v, v.ledger.(access := t.credentials), s.wires, s.net, s.history);
      ProofsMatter(p, b, v', s'.wires, s.net, s'.net, s.history, s'.history);
    } else if t.CloseSocket? {
      OwnClose(p, s, t);
      ProofsMatter(p, b, v', s'.wires, s.net, s'.net, s.history, s'.history);
    } else {
      if t.BeginReg? { OwnBegin(p, s, t); } else { OwnSweep(p, s, t); }
      ProofsMatter(p, b, v', s'.wires, s.net, s'.net, HistoryCut(s, v, v'), s'.history);
    }
  }

  lemma BridgeParts(p: Params, b: BridgeId, v: BridgeState, w: Wires, net: Net, hist: History)
    requires BridgeOk(p, b, v, w, net, hist)
    ensures BoundOk(p, b, v.sockets) && SinceOk(p, b, v.sockets, w, hist)
  {
  }

  // ---------------------------------------------------------------- whom a bridge cuts off

  lemma CutIsHere(p: Params, s: Sys, t: Step, k: Socket)
    requires IsBridgeStep(t) && BridgeOf(t) in s.bridges && BridgeOf(t) in p.configs && BoundOk(p, BridgeOf(t), s.bridges[BridgeOf(t)].sockets)
    requires k in CutIn(p, s, t)
    ensures k.bridge == BridgeOf(t)
  {
    hide BridgeAfter;
  }

  /** Steps other than proofs, revocations and sweeps cut off nobody. */
  lemma OthersCutNobody(p: Params, s: Sys, t: Step)
    requires (t.Claim? || t.IssueAccess? || t.CloseSocket? || t.RebootBridge?) && BridgeOf(t) in s.bridges && BridgeOf(t) in p.configs
    requires BoundOk(p, BridgeOf(t), s.bridges[BridgeOf(t)].sockets)
    ensures CutIn(p, s, t) == {}
  {
    hide ClaimVote;
    if t.Claim? {
      VotingIsFewer(s.bridges[t.bridge], t.requestId, p.scope.authority, t.absence, t.known, s.wires.alive, p.configs[t.bridge], s.now, t.persisted);
    }
  }

  lemma ServedIsNewest(p: Params, s: Sys, k: Socket)
    requires NodesOk(p, s) && ServesPrimary(s.nodes, k)
    ensures IsNewest(s.wires, k)
  {
    assert NodeOk(p, k.host, s.nodes[k.host], s.wires, s.net, s.history, s.timers, s.now);
  }

  lemma ProofSparesPrimaries(p: Params, s: Sys, t: Step)
    requires NodesOk(p, s) && t.ProveReg? && t.bridge in s.bridges && t.bridge in p.configs
    requires OwnBridge(p, s, t.bridge) && BridgeEnabled(p, s, t)
    ensures CutsNoPrimary(s, CutIn(p, s, t))
  {
    hide NodesOk, OwnBridge, BridgeEnabled, Prove, IsNewest, ServesPrimary;
    OwnProve(p, s, t);
    forall k | k in CutIn(p, s, t) ensures !ServesPrimary(s.nodes, k) {
      if ServesPrimary(s.nodes, k) { ServedIsNewest(p, s, k); }
    }
  }

  lemma StepSparesPrimaries(p: Params, s: Sys, t: Step)
    requires NodesOk(p, s) && IsBridgeStep(t) && BridgeOf(t) in s.bridges && BridgeOf(t) in p.configs
    requires BridgeEnabled(p, s, t) && OwnBridge(p, s, BridgeOf(t)) && OnTime(p, s, t)
    ensures CutsNoPrimary(s, CutIn(p, s, t))
  {
    hide NodesOk, BridgeEnabled, ServesPrimary, MessagesOk, WiresOk, CutBy, Valid, MarksBegan, SinceOk, AnsweredOk, PendingOk, DisconnectsOk, BoundOk;
    if t.ProveReg? {
      ProofSparesPrimaries(p, s, t);
    } else if !t.RevokeGrant? && !t.CleanUp? && !t.BeginReg? {
      OthersCutNobody(p, s, t);
    }
  }

  lemma MovesAreElsewhere(p: Params, s: Sys, s': Sys, t: Step, o: Outcome, cut: set<Socket>, b: BridgeId)
    requires Moves(p, s, s', t, o, cut) && (o.Committed? ==> o.socket.bridge != b) && forall k | k in cut :: k.bridge != b
    ensures SameAt(b, s.wires, s'.wires, s.history, s'.history)
  {
    hide NetMoves;
  }

  lemma BridgeStepKeepsBridges(p: Params, s: Sys, t: Step)
    requires BridgesOk(p, s) && IsBridgeStep(t) && BridgeOf(t) in s.bridges && BridgeOf(t) in p.configs && BridgeEnabled(p, s, t)
    requires OwnBridge(p, s, BridgeOf(t))
    ensures BridgesOk(p, StepOfBridge(p, s, t))
  {
    hide StepOfBridge, BridgeOk, BridgeEnabled, BridgeAfter, WiresAfterBridge, OwnBridge;
    hide Commits, OutcomeOf, Moves, SameAt, Noted, CutIn, BoundOk, SinceOk;
    OwnBridgeStep(p, s, t);
    BridgeMoves(p, s, t);
    BridgeStepEffect(p, s, t);
    var s', o, cut := StepOfBridge(p, s, t), OutcomeOf(p, s, t), CutIn(p, s, t);
    BridgeParts(p, BridgeOf(t), s.bridges[BridgeOf(t)], s.wires, s.net, s.history);
    if o.Committed? { CommitterIsAlive(p, s, t); }
    forall k | k in cut ensures k.bridge == BridgeOf(t) { CutIsHere(p, s, t, k); }
    forall b | b in s'.bridges && b != BridgeOf(t) ensures BridgeOk(p, b, s'.bridges[b], s'.wires, s'.net, s'.history) {
      MovesAreElsewhere(p, s, s', t, o, cut, b);
      BridgeStays(p, b, s.bridges[b], s.wires, s'.wires, s.net, s'.net, s.history, s'.history);
    }
  }

  lemma BridgeStepTimed(p: Params, s: Sys, t: Step, e0: nat)
    requires TimedInv(p, s, e0) && IsBridgeStep(t) && BridgeOf(t) in s.bridges && BridgeOf(t) in p.configs
    requires BridgeEnabled(p, s, t) && OnTime(p, s, t) && EpochInv(p, StepOfBridge(p, s, t), e0)
    ensures TimedInv(p, StepOfBridge(p, s, t), e0)
  {
    hide StepOfBridge, BridgesOk, NodesOk, WritersOnTop, WiresOk, ClocksOk, MessagesOk, ReceiptsOk, GraceSuffices, EpochInv;
    hide BridgeEnabled, BridgesRightful, NodesRightful, NetRightful, OnTime, ParamsOk, OutcomeOf, Moves, CutIn, OwnBridge;
    hide CutsNoPrimary, LaterThanContacts;
    InvParams(p, s, e0);
    OwnBridgeHolds(p, s, BridgeOf(t));
    BridgeMoves(p, s, t);
    StepSparesPrimaries(p, s, t);
    var s', o, cut := StepOfBridge(p, s, t), OutcomeOf(p, s, t), CutIn(p, s, t);
    BridgeStepKeepsReceipts(p, s, t);
    MovesKeepClocks(p, s, s', t, o, cut);
    MovesKeepMessages(p, s, s', t, o, cut);
    MovesKeepNodes(p, s, s', t, o, cut);
    BridgeStepKeepsBridges(p, s, t);
  }

  // ---------------------------------------------------------------- time, sockets and pings

  /** Time may pass while every writer's poll and liveness round are due later. */
  lemma TickKeepsNode(p: Params, h: HostId, n: Node, w: Wires, net: Net, hist: History, timers: Timers, now: int, ms: nat)
    requires NodeOk(p, h, n, w, net, hist, timers, now) && (n.service.writer ==> InTime(p, timers, h, now + ms))
    ensures NodeOk(p, h, n, w, net, hist, timers, now + ms)
  {
    hide RenewalsOk, StartOk, RecordsOk, AcksOk;
    if ActsAsPrimary(n.service) {
      forall b | b in n.quorum.acknowledged ensures AckedLine(n.links[b], hist, now + ms) { assert AckedLine(n.links[b], hist, now); }
      forall b | b in n.quorum.live ensures Served(h, b, hist, now + ms) { assert Served(h, b, hist, now); }
    }
    hide AckedLine, Served, LinksOk;
  }

  lemma TickKeepsMessages(p: Params, s: Sys, s': Sys)
    requires ClocksOk(s) && MessagesOk(s) && ReceiptsOk(p, s) && s' == s.(now := s'.now) && s'.now >= s.now
    ensures ClocksOk(s') && MessagesOk(s') && ReceiptsOk(p, s')
  {
    forall r | r in s.net.receipts ensures ReceiptOk(p, s.history, s'.now, r) { assert ReceiptOk(p, s.history, s.now, r); }
    forall m | m in s.net.acks ensures AckOk(s.wires, s.history, s'.now, m) { assert AckOk(s.wires, s.history, s.now, m); }
    forall m | m in s.net.pongs ensures PongOk(s.wires, s.history, s'.now, m) { assert PongOk(s.wires, s.history, s.now, m); }
    hide ReceiptOk, AckOk, PongOk;
  }

  lemma TickKeepsNodes(p: Params, s: Sys, ms: nat)
    requires NodesOk(p, s) && forall h | h in s.nodes && s.nodes[h].service.writer :: InTime(p, s.timers, h, s.now + ms)
    ensures NodesOk(p, s.(now := s.now + ms))
  {
    hide NodeOk, InTime;
    forall h | h in s.nodes ensures NodeOk(p, h, s.nodes[h], s.wires, s.net, s.history, s.timers, s.now + ms) {
      TickKeepsNode(p, h, s.nodes[h], s.wires, s.net, s.history, s.timers, s.now, ms);
    }
  }

  lemma TickTimed(p: Params, s: Sys, t: Step, e0: nat)
    requires TimedInv(p, s, e0) && t.Tick? && OnTime(p, s, t)
    requires EpochInv(p, s.(now := s.now + t.ms), e0)
    ensures TimedInv(p, s.(now := s.now + t.ms), e0)
  {
    hide EpochInv, GraceSuffices, ClocksOk, WiresOk, MessagesOk, ReceiptsOk, BridgeOk, NodesOk, OnTop, InTime;
    var s' := s.(now := s.now + t.ms);
    TickKeepsMessages(p, s, s');
    TickKeepsNodes(p, s, t.ms);
    hide SparesPrimaries, Resumes, ResumesSafely;
  }

  /** A step that leaves every bridge's and every host's own state alone. */
  predicate Outside(s: Sys, s': Sys) {
    && s'.now == s.now && s'.bridges == s.bridges && s'.nodes == s.nodes && s'.timers == s.timers
    && s'.history == s.history.(contacts := s'.history.contacts) && s.history.contacts <= s'.history.contacts
    && s'.net == s.net.(pongs := s'.net.pongs)
    && s'.wires.newest == s.wires.newest
  }

  lemma OutsideKeepsNodes(p: Params, s: Sys, s': Sys)
    requires NodesOk(p, s) && WritersOnTop(s) && Outside(s, s')
    ensures NodesOk(p, s') && WritersOnTop(s')
  {
    hide NodeOk, OnTop;
    forall h | h in s.nodes ensures NodeOk(p, h, s.nodes[h], s'.wires, s'.net, s'.history, s'.timers, s'.now) {
      assert SameFor(h, s.nodes[h], s.wires, s'.wires, s.history, s'.history) && NetGrows(h, s.nodes[h], s.net, s'.net, s.history, s'.history);
      hide SameFor, NetGrows;
      NodeStays(p, h, s.nodes[h], s.net, s'.net, s.history, s'.history, s.wires, s'.wires, s.timers, s'.timers, s.now);
    }
  }

  /** A socket a bridge sees for the first time has carried nothing and been bound to nobody. */
  predicate Opened(s: Sys, s': Sys, k: Socket) {
    && s' == s.(wires := s.wires.(seen := s.wires.seen + {k}, alive := s.wires.alive + {k}))
    && k !in s.wires.seen && LineOf(k) in s.wires.newest && k.serial <= s.wires.newest[LineOf(k)].serial
  }

  lemma OpeningKeepsMessages(p: Params, s: Sys, s': Sys, k: Socket)
    requires ClocksOk(s) && WiresOk(s.wires, s.history) && MessagesOk(s) && ReceiptsOk(p, s) && Opened(s, s', k)
    ensures Outside(s, s') && ClocksOk(s') && WiresOk(s'.wires, s'.history) && MessagesOk(s') && ReceiptsOk(p, s')
  {
    forall m | m in s.net.acks ensures AckOk(s'.wires, s'.history, s'.now, m) { assert AckOk(s.wires, s.history, s.now, m); }
    forall m | m in s.net.pongs ensures PongOk(s'.wires, s'.history, s'.now, m) { assert PongOk(s.wires, s.history, s.now, m); }
    hide ReceiptOk, AckOk, PongOk;
  }

  lemma OpeningKeepsBridges(p: Params, s: Sys, s': Sys, k: Socket)
    requires WiresOk(s.wires, s.history) && BridgesOk(p, s) && Opened(s, s', k)
    ensures BridgesOk(p, s')
  {
    hide BridgeOk;
    forall b | b in s.bridges ensures BridgeOk(p, b, s.bridges[b], s'.wires, s'.net, s'.history) {
      assert SameAt(b, s.wires, s'.wires, s.history, s'.history);
      BridgeStays(p, b, s.bridges[b], s.wires, s'.wires, s.net, s'.net, s.history, s'.history);
    }
  }

  lemma OutsideTimed(p: Params, s: Sys, s': Sys, e0: nat)
    requires TimedInv(p, s, e0) && Outside(s, s') && EpochInv(p, s', e0)
    requires ClocksOk(s') && WiresOk(s'.wires, s'.history) && MessagesOk(s') && ReceiptsOk(p, s') && BridgesOk(p, s')
    ensures TimedInv(p, s', e0)
  {
    hide EpochInv, GraceSuffices, ClocksOk, WiresOk, MessagesOk, ReceiptsOk, BridgesOk, NodesOk, WritersOnTop, Outside;
    OutsideKeepsNodes(p, s, s');
  }

  lemma OpeningTimed(p: Params, s: Sys, s': Sys, k: Socket, e0: nat)
    requires TimedInv(p, s, e0) && Opened(s, s', k) && EpochInv(p, s', e0)
    ensures TimedInv(p, s', e0)
  {
    hide EpochInv, GraceSuffices, ClocksOk, WiresOk, MessagesOk, ReceiptsOk, BridgesOk, NodesOk, WritersOnTop, Outside, Opened;
    OpeningKeepsMessages(p, s, s', k);
    OpeningKeepsBridges(p, s, s', k);
    OutsideTimed(p, s, s', e0);
  }

  lemma OpeningIsOpened(p: Params, s: Sys, s': Sys, t: Step)
    requires t.OpenSocket? && WireNext(p, s, s', t)
    ensures Opened(s, s', t.socket)
  {
  }

  /** What the pong of a bound socket adds to the history, and that of an unbound one does not. */
  predicate Ponged(s: Sys, s': Sys, k: Socket, r: RoundId, bound: bool) {
    && s'.net == s.net.(pongs := s.net.pongs + {PongMsg(k, r, s.now, bound)})
    && s'.history == (if bound then s.history.(contacts := s.history.contacts + {Contact(k.bridge, k.host, s.now)}) else s.history)
    && s'.now == s.now && s'.bridges == s.bridges && s'.nodes == s.nodes && s'.timers == s.timers && s'.wires == s.wires
    && k in s.wires.alive && r.startedAt <= s.now
  }

  lemma PongKeepsMessages(p: Params, s: Sys, s': Sys, k: Socket, r: RoundId, bound: bool)
    requires ClocksOk(s) && WiresOk(s.wires, s.history) && MessagesOk(s) && ReceiptsOk(p, s) && Ponged(s, s', k, r, bound)
    requires bound || k !in s.history.boundSince
    ensures ClocksOk(s') && WiresOk(s'.wires, s'.history) && MessagesOk(s') && ReceiptsOk(p, s') && Outside(s, s')
  {
    assert PongOk(s'.wires, s'.history, s'.now, PongMsg(k, r, s.now, bound));
    forall q | q in s.net.receipts ensures ReceiptOk(p, s'.history, s'.now, q) { assert ReceiptOk(p, s.history, s.now, q); }
    forall m | m in s.net.acks ensures AckOk(s'.wires, s'.history, s'.now, m) { assert AckOk(s.wires, s.history, s.now, m); }
    forall m | m in s.net.pongs ensures PongOk(s'.wires, s'.history, s'.now, m) { assert PongOk(s.wires, s.history, s.now, m); }
    hide ReceiptOk, AckOk, PongOk;
  }

  lemma PongKeepsBridges(p: Params, s: Sys, s': Sys, k: Socket, r: RoundId)
    requires BridgesOk(p, s) && k.bridge in s.bridges && Ponged(s, s', k, r, BoundTo(p, s.bridges[k.bridge].sockets, k))
    requires Valid(s.bridges[k.bridge])
    ensures BridgesOk(p, s')
  {
    hide BridgeOk, Valid;
    forall b | b in s.bridges ensures BridgeOk(p, b, s.bridges[b], s'.wires, s'.net, s'.history) {
      if b != k.bridge || !BoundTo(p, s.bridges[b].sockets, k) {
        assert SameAt(b, s.wires, s'.wires, s.history, s'.history);
        BridgeStays(p, b, s.bridges[b], s.wires, s'.wires, s.net, s'.net, s.history, s'.history);
      } else {
        ValidSockets(s.bridges[b]);
        ServingKeepsDisconnects(p, b, s.bridges[b], s.wires, s.net, s'.net, s.history, k, s.now);
      }
    }
  }

  lemma ValidSockets(v: BridgeState)
    requires Valid(v)
    ensures SocketsAgree(v.sockets)
  {
  }

  /** An open socket known as bound is bound. */
  lemma KnownIsBound(p: Params, s: Sys, k: Socket)
    requires BridgesOk(p, s) && k.bridge in s.bridges && k in s.wires.alive
    ensures BoundTo(p, s.bridges[k.bridge].sockets, k) || k !in s.history.boundSince
  {
    assert BridgeOk(p, k.bridge, s.bridges[k.bridge], s.wires, s.net, s.history);
  }

  lemma PingTimed(p: Params, s: Sys, s': Sys, t: Step, e0: nat)
    requires TimedInv(p, s, e0) && t.AnswerPing? && t.socket.bridge in s.bridges
    requires Ponged(s, s', t.socket, t.round, BoundTo(p, s.bridges[t.socket.bridge].sockets, t.socket)) && EpochInv(p, s', e0)
    ensures TimedInv(p, s', e0)
  {
    hide EpochInv, GraceSuffices, ClocksOk, WiresOk, MessagesOk, ReceiptsOk, BridgesOk, NodesOk, WritersOnTop, Outside, BoundTo;
    hide NodesRightful, BridgesRightful, NetRightful, ParamsOk, Valid, IsNewest;
    assert t.socket in s.wires.alive;
    InvParams(p, s, e0);
    RightfulIsValid(p, s.history.champions, s.bridges, t.socket.bridge);
    KnownIsBound(p, s, t.socket);
    PongKeepsMessages(p, s, s', t.socket, t.round, BoundTo(p, s.bridges[t.socket.bridge].sockets, t.socket));
    PongKeepsBridges(p, s, s', t.socket, t.round);
    hide Ponged;
    OutsideTimed(p, s, s', e0);
  }

  lemma PingMeansPonged(p: Params, s: Sys, s': Sys, t: Step)
    requires t.AnswerPing? && WireNext(p, s, s', t)
    ensures t.socket.bridge in s.bridges
    ensures Ponged(s, s', t.socket, t.round, BoundTo(p, s.bridges[t.socket.bridge].sockets, t.socket))
  {
  }

  // ---------------------------------------------------------------- elections

  /** Witnesses and claims change nothing the invariant reads. */
  lemma ElectionsTimed(p: Params, s: Sys, s': Sys, e0: nat)
    requires TimedInv(p, s, e0) && s' == s.(elections := s'.elections) && EpochInv(p, s', e0)
    ensures TimedInv(p, s', e0)
  {
    hide EpochInv, GraceSuffices, ReceiptOk, BridgeOk, NodeOk, OnTop;
  }

  // ---------------------------------------------------------------- whole runs

  lemma NextTimed(p: Params, s: Sys, s': Sys, t: Step, e0: nat)
    requires TimedInv(p, s, e0) && ElectionsInv(p, s) && Next(p, s, s', t) && OnTime(p, s, t)
    ensures TimedInv(p, s', e0)
  {
    hide ElectionsInv, EpochInv, GraceSuffices, ClocksOk, WiresOk, MessagesOk, ReceiptsOk, BridgesOk, NodesOk, WritersOnTop;
    NextKeepsInv(p, s, s', t, e0);
    hide HostEnabled, BridgeEnabled, HostAfter, StepOfBridge, OnTime, Ponged, Opened;
    if IsHostStep(t) {
      EnabledIsHere(p, s, t);
      HostStepTimed(p, s, t, e0);
    } else if IsBridgeStep(t) {
      EnabledIsThere(p, s, t);
      BridgeStepTimed(p, s, t, e0);
    } else if t.Tick? {
      TickTimed(p, s, t, e0);
    } else if t.OpenSocket? {
      OpeningIsOpened(p, s, s', t);
      OpeningTimed(p, s, s', t.socket, e0);
    } else if t.HandOut? || t.Attest? || t.Collect? {
      ElectionsTimed(p, s, s', e0);
    } else {
      PingMeansPonged(p, s, s', t);
      PingTimed(p, s, s', t, e0);
    }
  }

  /** Two writers are both champions of the highest epoch. */
  lemma WritersAgree(p: Params, s: Sys, e0: nat)
    requires TimedInv(p, s, e0)
    ensures AtMostOneWriter(s)
  {
    hide EpochInv, GraceSuffices, ClocksOk, WiresOk, MessagesOk, ReceiptsOk, BridgesOk, NodesOk;
    forall g, h | g in s.nodes && h in s.nodes && s.nodes[g].service.writer && s.nodes[h].service.writer ensures g == h {
      WritersAreChampions(p, s, e0, g);
      WritersAreChampions(p, s, e0, h);
      assert OnTop(s.history.champions, s.nodes[g]) && OnTop(s.history.champions, s.nodes[h]);
    }
  }

  /** A run whose steps all happen on time. */
  predicate RunsOnTime(p: Params, run: seq<Sys>, steps: seq<Step>) {
    |run| == |steps| + 1 && forall i | 0 <= i < |steps| :: OnTime(p, run[i], steps[i])
  }

  lemma {:induction false} TimedRunKeepsInv(p: Params, run: seq<Sys>, steps: seq<Step>, founder: HostId, e0: nat, i: nat)
    requires GraceSuffices(p) && IsRun(p, run, steps, founder, e0) && RunsOnTime(p, run, steps) && i < |run|
    ensures TimedInv(p, run[i], e0)
  {
    hide GraceSuffices, TimedInv, Init, Next, OnTime, ElectionsInv;
    if i == 0 {
      InitTimed(p, run[0], founder, e0);
    } else {
      TimedRunKeepsInv(p, run, steps, founder, e0, i - 1);
      RunKeepsElections(p, run, steps, founder, e0, i - 1);
      NextTimed(p, run[i - 1], run[i], steps[i - 1], e0);
    }
  }

  /**
    * The write lease is safe: with graces as `GracesHold` asks for them, at no instant of any run that is on
    * time do two hosts write. `ExactGrace` shows that these graces are exactly the ones that are long enough.
    */
  lemma NoInstantHasTwoWriters(p: Params, run: seq<Sys>, steps: seq<Step>, founder: HostId, e0: nat, i: nat)
    requires GraceSuffices(p) && IsRun(p, run, steps, founder, e0) && RunsOnTime(p, run, steps) && i < |run|
    ensures AtMostOneWriter(run[i])
  {
    TimedRunKeepsInv(p, run, steps, founder, e0, i);
    WritersAgree(p, run[i], e0);
  }

  /** When a candidate is promoted in such a run the old writer has already fenced itself. */
  lemma OldWriterIsFencedFirst(p: Params, run: seq<Sys>, steps: seq<Step>, founder: HostId, e0: nat, i: nat, g: HostId)
    requires GraceSuffices(p) && IsRun(p, run, steps, founder, e0) && RunsOnTime(p, run, steps)
    requires |run| == |steps| + 1 && i < |steps| && steps[i].WinElection? && g in run[i].nodes
    ensures !run[i].nodes[g].service.writer
  {
    hide EpochInv, Init, OnTime, GraceSuffices, ClocksOk, WiresOk, MessagesOk, ReceiptsOk, BridgesOk, HostAfter, HostEnabled, StepOfBridge, BridgeEnabled, WireNext;
    TimedRunKeepsInv(p, run, steps, founder, e0, i);
    assert Next(p, run[i], run[i + 1], steps[i]);
    NodeOkAt(p, run[i], g, e0);
    WinnerCollectedOnce(p, run, steps, founder, e0, i);
    NobodyWritesAtAnElection(p, run[i], steps[i], e0, g);
  }

  lemma NodeOkAt(p: Params, s: Sys, h: HostId, e0: nat)
    requires TimedInv(p, s, e0) && h in s.nodes
    ensures LeaseOk(p, h, s.nodes[h], s.net, s.history, s.timers, s.now) && OnTop(s.history.champions, s.nodes[h])
    ensures EpochInv(p, s, e0) && GraceSuffices(p) && ReceiptsOk(p, s)
  {
    hide EpochInv, GraceSuffices, ClocksOk, WiresOk, MessagesOk, ReceiptsOk, BridgesOk;
    assert NodeOk(p, h, s.nodes[h], s.wires, s.net, s.history, s.timers, s.now);
  }
}
