/**
  * What a writer lives through between two scenes: time in which nobody renews its lease, answers that come
  * late, connections that come and go, and two bridges that keep it alive.
  */
module WriterLoops {
  import opened Community
  import opened Quorums
  import opened BridgeLedger
  import opened Bridge
  import opened HostWriter
  import opened Coordinator
  import opened Failover
  import opened TimedSystem
  import opened Scenes
  import RegistrationQuorum

  /** Loops that let time pass, and a liveness round at least once in a lease. */
  predicate Brisk(p: Params) {
    p.poll >= 1 && 1 <= p.period < p.fence && p.delay >= 0
  }

  /** The founder writes with a committed round, the replica follows it, and there is nobody else. */
  predicate Stage(p: Params, s: Sys, a: HostId, b: HostId) {
    && s.nodes.Keys == {a, b} && a != b && s.nodes[b].service == Follower(p, a, b) && !s.nodes[b].service.writer
    && Acting(p, a, s.nodes[a]) && Writing(p, a, s.nodes[a]) && FirstRecord(p, a) in s.net.records
  }

  /** When the fence poll and the liveness round last ran. */
  predicate Ran(s: Sys, a: HostId, polled: int, pulsed: int) {
    a in s.timers.polled && s.timers.polled[a] == polled && a in s.timers.pulsed && s.timers.pulsed[a] == pulsed
  }

  lemma StageWrites(p: Params, s: Sys, a: HostId, b: HostId)
    requires Stage(p, s, a, b)
    ensures Writes(p, s, a) && Acts(p, s, a) && OnlyWriter(s, a) && Follows(p, s, a, b) && a != b
  {
  }

  /** A stage is about the hosts and the record alone, and survives what a liveness round does to the founder. */
  lemma SameStage(p: Params, s: Sys, s': Sys, a: HostId, b: HostId)
    requires Stage(p, s, a, b) && s'.nodes == s.nodes && s'.net.records == s.net.records
    ensures Stage(p, s', a, b)
  {
  }

  lemma NewStage(p: Params, s: Sys, s': Sys, a: HostId, b: HostId, n: Node)
    requires Stage(p, s, a, b) && s'.nodes == s.nodes[a := n] && s'.net.records == s.net.records && Acting(p, a, n) && Writing(p, a, n)
    ensures Stage(p, s', a, b)
  {
  }

  lemma PulsedActs(p: Params, a: HostId, n: Node, r: RoundId)
    requires Acting(p, a, n) && Writing(p, a, n)
    ensures Acting(p, a, Pulsed(n, r)) && Writing(p, a, Pulsed(n, r))
  {
  }

  // ---------------------------------------------------------------- time passes

  /** Liveness rounds since a moment, the last of them at `pulsed`. */
  function Moved(n: Node, a: HostId, since: int, pulsed: int): Node {
    if pulsed > since then Pulsed(n, RoundId(a, pulsed, 0)) else n
  }

  /** Every millisecond brought a fence poll up to the time `polls`, and a liveness round up to the time `pulses`. */
  predicate Went(s: Sys, s': Sys, a: HostId, polls: int, pulses: int) {
    && a in s.nodes && s.now <= s'.now && Ran(s', a, Min(s'.now, polls), Min(s'.now, pulses))
    && s' == s.(now := s'.now, nodes := s.nodes[a := Moved(s.nodes[a], a, s.now, Min(s'.now, pulses))], timers := s'.timers)
  }

  lemma WentStage(p: Params, s: Sys, s': Sys, a: HostId, b: HostId, polls: int, pulses: int)
    requires Stage(p, s, a, b) && Went(s, s', a, polls, pulses)
    ensures Stage(p, s', a, b) && s'.nodes[a].lease == s.nodes[a].lease && s'.nodes.Keys == s.nodes.Keys
  {
    var pulsed := Min(s'.now, pulses);
    PulsedActs(p, a, s.nodes[a], RoundId(a, pulsed, 0));
    hide Acting, Writing;
  }

  /** What one more millisecond brings. */
  predicate OnceMore(s: Sys, s': Sys, a: HostId, polls: int, pulses: int) {
    && a in s.nodes && a in s.timers.polled && a in s.timers.pulsed && s'.now == s.now + 1
    && s' == s.(now := s.now + 1,
                nodes := if s.now < pulses then s.nodes[a := Pulsed(s.nodes[a], RoundId(a, s.now + 1, 0))] else s.nodes,
                timers := Timers(if s.now < polls then s.timers.polled[a := s.now + 1] else s.timers.polled,
                                 if s.now < pulses then s.timers.pulsed[a := s.now + 1] else s.timers.pulsed))
  }

  lemma WentFurther(s: Sys, e: Sys, s': Sys, a: HostId, polls: int, pulses: int)
    requires Went(s, e, a, polls, pulses) && OnceMore(e, s', a, polls, pulses)
    ensures Went(s, s', a, polls, pulses)
  {
    var n, m := Moved(s.nodes[a], a, s.now, Min(e.now, pulses)), Moved(s.nodes[a], a, s.now, Min(s'.now, pulses));
    assert s.nodes[a := n][a := m] == s.nodes[a := m];
    assert e.now < pulses ==> m == Pulsed(n, RoundId(a, s'.now, 0));
  }

  lemma OneOn(p: Params, f: Film, a: HostId, b: HostId, but: Leeway, polls: int, pulses: int) returns (g: Film)
    requires Shot(p, f, a, but) && Stage(p, f.last, a, b) && InTime(p, f.last.timers, a, f.last.now + 1)
    requires f.last.now < polls ==> f.last.now + 1 - f.last.nodes[a].lease < p.fence
    ensures Shot(p, g, a, but) && OnceMore(f.last, g.last, a, polls, pulses)
  {
    hide Shot, Acting, Writing, Pulsed, Follower;
    StageWrites(p, f.last, a, b);
    g := Wait(p, f, a, but, 1);
    if f.last.now < polls { g := PollOn(p, g, a, but); }
    if f.last.now < pulses { g := StartRound(p, g, a, but, RoundId(a, f.last.now + 1, 0)); }
  }

  /** Some time in which nobody renews the lease. */
  lemma {:induction false} Go(p: Params, f: Film, a: HostId, b: HostId, but: Leeway, until: int, polls: int, pulses: int) returns (g: Film)
    requires Shot(p, f, a, but) && Stage(p, f.last, a, b) && Brisk(p) && f.last.now <= until
    requires Ran(f.last, a, Min(f.last.now, polls), Min(f.last.now, pulses)) && until <= polls + p.poll && until <= pulses + p.period
    requires Min(until, polls) - f.last.nodes[a].lease < p.fence
    ensures Shot(p, g, a, but) && Went(f.last, g.last, a, polls, pulses) && g.last.now == until && Stage(p, g.last, a, b)
    decreases until - f.last.now
  {
    hide Shot, Acting, Writing, Pulsed, Follower;
    if until == f.last.now {
      g := f;
      assert f.last.nodes[a := f.last.nodes[a]] == f.last.nodes;
    } else {
      var e := Go(p, f, a, b, but, until - 1, polls, pulses);
      WentStage(p, f.last, e.last, a, b, polls, pulses);
      g := OneOn(p, e, a, b, but, polls, pulses);
      WentFurther(f.last, e.last, g.last, a, polls, pulses);
      WentStage(p, f.last, g.last, a, b, polls, pulses);
    }
  }

  /** A round begins although one may just have begun. */
  predicate RoundStarted(s: Sys, s': Sys, a: HostId) {
    && a in s.nodes
    && s' == s.(nodes := s.nodes[a := Pulsed(s.nodes[a], RoundId(a, s.now, 1))], timers := s.timers.(pulsed := s.timers.pulsed[a := s.now]))
  }

  lemma NextRound(p: Params, f: Film, a: HostId, b: HostId, but: Leeway) returns (g: Film)
    requires Shot(p, f, a, but) && Stage(p, f.last, a, b)
    ensures Shot(p, g, a, but) && Stage(p, g.last, a, b) && RoundStarted(f.last, g.last, a)
  {
    hide Shot, Acting, Writing, Pulsed, Follower;
    StageWrites(p, f.last, a, b);
    PulsedActs(p, a, f.last.nodes[a], RoundId(a, f.last.now, 1));
    g := StartRound(p, f, a, but, RoundId(a, f.last.now, 1));
    NewStage(p, f.last, g.last, a, b, Pulsed(f.last.nodes[a], RoundId(a, f.last.now, 1)));
  }

  // ---------------------------------------------------------------- late messages

  /** The node of a writer with one acknowledgement more. */
  function Acked(n: Node, b: BridgeId, now: int): Node {
    if n.round.None? then n
    else
      var counted := n.(quorum := n.quorum.(acknowledged := n.quorum.acknowledged + {b}, live := n.quorum.live + {b}),
                        round := Some(n.round.value.(acked := n.round.value.acked + {b})), published := n.published - {b});
      counted.(lease := if |counted.quorum.live| >= Threshold(|Targets(n)|) then now else n.lease)
  }

  lemma AckIsCounted(p: Params, a: HostId, n: Node, b: BridgeId, now: int)
    requires Acting(p, a, n) && Writing(p, a, n) && b in W(p) && b in n.published && n.published[b] == FirstRecord(p, a)
    ensures ReceiveAck(n, b, FirstRecord(p, a), true, now) == Acked(n, b, now)
    ensures Acting(p, a, Acked(n, b, now)) && Writing(p, a, Acked(n, b, now))
  {
    hide MayResume, Persist, FirstRecord;
    NoResume(n.service);
  }

  lemma PublishedActs(p: Params, a: HostId, n: Node, k: Socket)
    requires Acting(p, a, n) && Writing(p, a, n) && Linked(n, k)
    ensures var n' := Publish(n, k.bridge);
      && Acting(p, a, n') && Writing(p, a, n') && Linked(n', k) && n'.published == n.published[k.bridge := FirstRecord(p, a)]
      && n' == n.(published := n'.published)
  {
  }

  /** Offering the record and hearing an acknowledgement of it leaves no trace but the count. */
  lemma OfferedIsSpent(p: Params, a: HostId, n: Node, k: Socket, now: int)
    requires Acting(p, a, n) && Writing(p, a, n) && Linked(n, k)
    ensures Counts(p, n, Acked(Publish(n, k.bridge), k.bridge, now), k.bridge, now)
  {
  }

  /** One bridge more has served the writer, which renews the lease if that makes a strict majority. */
  predicate Counts(p: Params, n: Node, n': Node, b: BridgeId, now: int) {
    && n'.links == n.links && n'.awaiting - {b} == n.awaiting - {b} && n'.quorum.livenessRound == n.quorum.livenessRound
    && n'.quorum.acknowledged == n.quorum.acknowledged + {b} && n'.quorum.live == n.quorum.live + {b}
    && n'.lease == if |n'.quorum.live| >= Threshold(|W(p)|) then now else n.lease
  }

  /** What counting one bridge changes. */
  predicate Counted(p: Params, s: Sys, s': Sys, a: HostId, b: BridgeId) {
    && a in s.nodes && a in s'.nodes && Counts(p, s.nodes[a], s'.nodes[a], b, s.now)
    && s' == s.(nodes := s.nodes[a := s'.nodes[a]], net := s.net.(pongs := s'.net.pongs), history := s'.history)
  }

  /** An acknowledgement that has been on its way for up to a delay. */
  lemma HearLate(p: Params, f: Film, a: HostId, b: HostId, but: Leeway, k: Socket, at: int) returns (g: Film)
    requires Shot(p, f, a, but) && Stage(p, f.last, a, b) && LinkedBy(f.last, a, k) && k.host == a && k.bridge in W(p)
    requires AckMsg(k, FirstRecord(p, a), at) in f.last.net.acks && f.last.now <= at + p.delay
    ensures Shot(p, g, a, but) && Stage(p, g.last, a, b) && Counted(p, f.last, g.last, a, k.bridge)
  {
    hide Shot, FirstRecord, ReceiveAck, HistoryAfterHost, Acked, Follower, Publish, Counts;
    var s := f.last;
    PublishedActs(p, a, s.nodes[a], k);
    OfferedIsSpent(p, a, s.nodes[a], k, s.now);
    var n := Publish(s.nodes[a], k.bridge);
    AckIsCounted(p, a, n, k.bridge, s.now);
    ActsWrite(p, a, n);
    hide Acting, Writing;
    var offered := Offer(p, f, a, but, k.bridge);
    g := HostScene(p, offered, a, but, GetAck(a, AckMsg(k, FirstRecord(p, a), at), true));
    assert s.nodes[a := n][a := g.last.nodes[a]] == s.nodes[a := g.last.nodes[a]];
    NewStage(p, s, g.last, a, b, g.last.nodes[a]);
  }

  lemma ActsWrite(p: Params, a: HostId, n: Node)
    requires Acting(p, a, n)
    ensures n.service.writer
  {
  }

  /** The bridge answers the ping of the running round, and the answer stays on its way. */
  lemma PingNow(p: Params, f: Film, a: HostId, b: HostId, but: Leeway, k: Socket, r: RoundId) returns (g: Film, m: PongMsg)
    requires Shot(p, f, a, but) && Stage(p, f.last, a, b) && k.bridge in f.last.bridges
    requires k in f.last.wires.alive && r.startedAt <= f.last.now
    ensures Shot(p, g, a, but) && Stage(p, g.last, a, b) && m.socket == k && m.round == r && m in g.last.net.pongs
    ensures g.last == f.last.(net := f.last.net.(pongs := g.last.net.pongs), history := g.last.history)
  {
    hide Shot, BoundTo;
    var s := f.last;
    var bound := BoundTo(p, s.bridges[k.bridge].sockets, k);
    m := PongMsg(k, r, s.now, bound);
    var s' := s.(net := s.net.(pongs := s.net.pongs + {m}),
                 history := if bound then s.history.(contacts := s.history.contacts + {Contact(k.bridge, k.host, s.now)}) else s.history);
    Shoot(p, f, a, but, AnswerPing(k, r), s');
    g := Extended(f, AnswerPing(k, r), s');
    SameStage(p, s, s', a, b);
  }

  lemma EchoedActs(p: Params, a: HostId, n: Node, b: BridgeId, now: int)
    requires Acting(p, a, n) && Writing(p, a, n)
    ensures Acting(p, a, Echoed(n, b, now)) && Writing(p, a, Echoed(n, b, now))
  {
  }

  lemma HearPong(p: Params, f: Film, a: HostId, b: HostId, but: Leeway, m: PongMsg) returns (g: Film)
    requires Shot(p, f, a, but) && Stage(p, f.last, a, b) && m in f.last.net.pongs && m.socket.host == a
    requires Awaits(f.last, a, m.socket, m.round)
    ensures Shot(p, g, a, but) && Stage(p, g.last, a, b)
    ensures g.last == f.last.(nodes := f.last.nodes[a := Echoed(f.last.nodes[a], m.socket.bridge, f.last.now)], history := g.last.history)
  {
    hide Shot, Writing, Acting, ReceivePong, Echoed, HistoryAfterHost, Follower;
    PongEchoes(p, a, f.last.nodes[a], m.socket, m.round, f.last.now);
    EchoedActs(p, a, f.last.nodes[a], m.socket.bridge, f.last.now);
    g := HostScene(p, f, a, but, GetPong(a, m));
    NewStage(p, f.last, g.last, a, b, Echoed(f.last.nodes[a], m.socket.bridge, f.last.now));
  }

  /** The same at once. */
  lemma EchoNow(p: Params, f: Film, a: HostId, b: HostId, but: Leeway, k: Socket, r: RoundId) returns (g: Film)
    requires Shot(p, f, a, but) && Stage(p, f.last, a, b) && Awaits(f.last, a, k, r)
    requires k.host == a && k.bridge in f.last.bridges && k in f.last.wires.alive && r.startedAt <= f.last.now
    ensures Shot(p, g, a, but) && Stage(p, g.last, a, b) && Heard(f.last, g.last, a, k)
  {
    hide Shot, Writing, Acting, Echoed, Follower;
    StageWrites(p, f.last, a, b);
    g := Echo(p, f, a, but, k, r);
    EchoedActs(p, a, f.last.nodes[a], k.bridge, f.last.now);
    NewStage(p, f.last, g.last, a, b, Echoed(f.last.nodes[a], k.bridge, f.last.now));
  }

  // ---------------------------------------------------------------- connections that come and go

  lemma DroppedActs(p: Params, a: HostId, n: Node, i: BridgeId)
    requires Acting(p, a, n) && Writing(p, a, n)
    ensures Acting(p, a, Drop(n, i)) && Writing(p, a, Drop(n, i))
  {
  }

  /** The founder gives up a connection. */
  lemma HangUpOn(p: Params, f: Film, a: HostId, b: HostId, but: Leeway, i: BridgeId) returns (g: Film)
    requires Shot(p, f, a, but) && Stage(p, f.last, a, b)
    ensures Shot(p, g, a, but) && Stage(p, g.last, a, b)
    ensures g.last == f.last.(nodes := f.last.nodes[a := Drop(f.last.nodes[a], i)])
  {
    hide Shot, Writing, Acting, Drop, Follower;
    DroppedActs(p, a, f.last.nodes[a], i);
    g := HostScene(p, f, a, but, HangUp(a, i));
    NewStage(p, f.last, g.last, a, b, Drop(f.last.nodes[a], i));
  }

  lemma AskedActs(p: Params, a: HostId, n: Node, k: Socket)
    requires Acting(p, a, n) && Writing(p, a, n)
    ensures Acting(p, a, Asked(n, k)) && Writing(p, a, Asked(n, k))
    ensures Linked(Asked(n, k), k) && k.bridge in Asked(n, k).published && Asked(n, k).published[k.bridge] == FirstRecord(p, a)
  {
  }

  /** A registration on a socket that closes at once: its acknowledgement is on its way and the bridge is left. */
  predicate Brushed(p: Params, s: Sys, s': Sys, a: HostId, k: Socket, n: nat) {
    && a in s.nodes
    && s' == Sys(s.now, s.bridges[k.bridge := Registered(p, a, Away(p, a, s.now), map[])], s.nodes[a := Asked(s.nodes[a], k)],
                 Wires(s.wires.newest[LineOf(k) := k], s.wires.seen + {k}, s.wires.alive), s'.net, s.elections, s.timers, s'.history)
    && s'.net.records == s.net.records && s'.net.receipts == s.net.receipts && NonceUnused(s'.net, n + 1)
    && s'.net.acks == s.net.acks + {AckMsg(k, FirstRecord(p, a), s.now)} && s'.net.pongs == s.net.pongs
  }

  lemma Brush(p: Params, f: Film, a: HostId, b: HostId, but: Leeway, v: BridgeState, k: Socket, n: nat) returns (g: Film)
    requires Shot(p, f, a, but) && ParamsOk(p) && |a| >= 1 && Stage(p, f.last, a, b)
    requires Dialable(p, f.last, a, k) && Challengeable(p, f.last, a, n) && k !in f.last.wires.alive
    requires BridgeIs(f.last, k.bridge, v) && Registrable(p, a, v, map[])
    ensures Shot(p, g, a, but) && Stage(p, g.last, a, b) && Brushed(p, f.last, g.last, a, k, n)
  {
    hide Shot, FirstRecord, Writing, Acting, Registrable, Registered, Here, Away, NonceUnused, IsNewer, ParamsOk, Follower, Asked;
    var s := f.last;
    AskedActs(p, a, s.nodes[a], k);
    var registered := Register(p, f, a, but, v, map[], k, n);
    NonceUsed(s.net, registered.last.net, k, n, HashOf(FirstRecord(p, a)));
    var offered := Offer(p, registered, a, but, k.bridge);
    AskedIsBoth(s.nodes, a, k, offered.last.nodes);
    g := Leave(p, offered, a, but, k, map[]);
    assert s.wires.alive + {k} - {k} == s.wires.alive;
    NewStage(p, s, g.last, a, b, Asked(s.nodes[a], k));
  }

  lemma AskedIsBoth(nodes: map<HostId, Node>, a: HostId, k: Socket, after: map<HostId, Node>)
    requires a in nodes && after == nodes[a := Dial(nodes[a], k)][a := Publish(Dial(nodes[a], k), k.bridge)]
    ensures after == nodes[a := Asked(nodes[a], k)]
  {
  }

  /** The bridge has the founder's record and has not been connected to it since this moment. */
  predicate Gone(p: Params, s: Sys, a: HostId, i: BridgeId, since: int) {
    BridgeIs(s, i, Registered(p, a, Away(p, a, since), map[]))
  }

  /** The bridge serves the founder on this connection. */
  predicate Serves(p: Params, s: Sys, a: HostId, k: Socket) {
    && k.host == a && k.bridge in W(p) && LinkedBy(s, a, k) && k in s.wires.alive && k.bridge in s.nodes[a].quorum.acknowledged
    && BridgeIs(s, k.bridge, Registered(p, a, Here(p, a, k), map[]))
  }

  predicate Unused(w: Wires, k: Socket) { IsNewer(w, k) && k !in w.seen && k !in w.alive }

  /** What a bridge that parts from the founder, and the founder from it, leave alone. */
  predicate Parted(p: Params, s: Sys, s': Sys, a: HostId, k: Socket) {
    && a in s.nodes && a in s'.nodes && s'.nodes[a] == Drop(s.nodes[a], k.bridge)
    && s' == s.(bridges := s.bridges[k.bridge := Registered(p, a, Away(p, a, s.now), map[])], nodes := s.nodes[a := s'.nodes[a]],
                wires := s.wires.(alive := s.wires.alive - {k}))
  }

  /** A connection closes, and both sides notice. */
  lemma Part(p: Params, f: Film, a: HostId, b: HostId, but: Leeway, k: Socket) returns (g: Film)
    requires Shot(p, f, a, but) && Stage(p, f.last, a, b) && Serves(p, f.last, a, k)
    ensures Shot(p, g, a, but) && Stage(p, g.last, a, b) && Parted(p, f.last, g.last, a, k)
  {
    hide Shot, Registered, Here, Away, Writing, Acting, Follower, Drop;
    var left := Leave(p, f, a, but, k, map[]);
    SameStage(p, f.last, left.last, a, b);
    g := HangUpOn(p, left, a, b, but, k.bridge);
  }

  /** The bridge of `q` has been left, an acknowledgement of it is on its way on the connection `q`, and `k` is closed. */
  predicate Swapped(p: Params, s: Sys, s': Sys, a: HostId, k: Socket, q: Socket) {
    && a in s.nodes && a in s'.nodes && s'.nodes[a].links == s.nodes[a].links[q.bridge := q] && s'.nodes[a].lease == s.nodes[a].lease
    && s'.nodes[a].quorum.acknowledged >= s.nodes[a].quorum.acknowledged - {q.bridge}
    && s'.nodes[a].quorum.live >= s.nodes[a].quorum.live - {q.bridge}
    && s' == Sys(s.now, s.bridges[q.bridge := Registered(p, a, Away(p, a, s.now), map[])], s.nodes[a := s'.nodes[a]],
                 Wires(s.wires.newest[LineOf(q) := q], s.wires.seen + {q}, s.wires.alive - {k}), s'.net, s.elections, s.timers, s'.history)
    && s'.net.records == s.net.records && s'.net.receipts == s.net.receipts
    && s'.net.acks == s.net.acks + {AckMsg(q, FirstRecord(p, a), s.now)}
  }

  lemma BrushSwaps(p: Params, s: Sys, s': Sys, a: HostId, q: Socket, n: nat)
    requires Brushed(p, s, s', a, q, n) && q !in s.wires.alive
    ensures Swapped(p, s, s', a, q, q) && NonceUnused(s'.net, n + 1)
  {
    assert s.wires.alive - {q} == s.wires.alive;
  }

  lemma PartedBrushSwaps(p: Params, s: Sys, e: Sys, s': Sys, a: HostId, k: Socket, q: Socket, n: nat)
    requires Parted(p, s, e, a, k) && Brushed(p, e, s', a, q, n) && k.bridge == q.bridge
    ensures Swapped(p, s, s', a, k, q)
  {
    hide Registered, Away;
    var off := e.nodes[a];
    assert s'.nodes[a] == Asked(off, q) && s.nodes[a := off][a := s'.nodes[a]] == s.nodes[a := s'.nodes[a]];
    var v, w := Registered(p, a, Away(p, a, s.now), map[]), s.bridges;
    assert w[k.bridge := v][q.bridge := v] == w[q.bridge := v];
    assert (s.nodes[a].links - {q.bridge})[q.bridge := q] == s.nodes[a].links[q.bridge := q];
  }

  lemma PartedMayDial(p: Params, s: Sys, e: Sys, a: HostId, k: Socket, q: Socket)
    requires Parted(p, s, e, a, k) && q.host == a && q.bridge == k.bridge && q.bridge in W(p) && Unused(s.wires, q)
    ensures Dialable(p, e, a, q) && Gone(p, e, a, q.bridge, e.now) && q !in e.wires.alive && e.now == s.now && e.net == s.net
  {
    hide Registered;
  }

  /** The bridge of `k` closes that connection, answers a registration on a new one, and closes this as well. */
  lemma Swap(p: Params, f: Film, a: HostId, b: HostId, but: Leeway, k: Socket, q: Socket, n: nat) returns (g: Film)
    requires Shot(p, f, a, but) && ParamsOk(p) && |a| >= 1 && Stage(p, f.last, a, b) && Serves(p, f.last, a, k)
    requires q.host == a && q.bridge == k.bridge && Unused(f.last.wires, q) && NonceUnused(f.last.net, n) && Early(f.last.now)
    ensures Shot(p, g, a, but) && Stage(p, g.last, a, b) && Swapped(p, f.last, g.last, a, k, q) && NonceUnused(g.last.net, n + 1)
  {
    hide Shot, FirstRecord, Writing, Acting, Registered, Away, NonceUnused, ParamsOk, Follower, Asked, Unused, Drop;
    var parted := Part(p, f, a, b, but, k);
    PartedMayDial(p, f.last, parted.last, a, k, q);
    var v := parted.last.bridges[q.bridge];
    AwayIsRegistrable(p, a, v, parted.last.now, map[]);
    hide Registrable;
    g := Brush(p, parted, a, b, but, v, q, n);
    PartedBrushSwaps(p, f.last, parted.last, g.last, a, k, q, n);
  }

  // ---------------------------------------------------------------- two bridges keep the lease alive

  /** Where a writer can still hear of a bridge: on an open connection, or by an acknowledgement on its way. */
  datatype Source = Open(socket: Socket) | Late(socket: Socket, at: int)

  /** The source can be heard up to the time `until`. */
  predicate Reaches(p: Params, s: Sys, a: HostId, u: Source, until: int) {
    && LinkedBy(s, a, u.socket) && u.socket.host == a && u.socket.bridge in W(p)
    && match u
       case Open(k) => k.bridge in s.bridges && k in s.wires.alive && k.bridge in s.nodes[a].quorum.acknowledged
       case Late(k, at) => AckMsg(k, FirstRecord(p, a), at) in s.net.acks && until <= at + p.delay
  }

  /** An open connection owes the pong of the running round. */
  predicate Owes(s: Sys, a: HostId, u: Source, r: RoundId) {
    u.Open? ==> Awaits(s, a, u.socket, r)
  }

  /** The writer hears of a bridge. */
  lemma Nudge(p: Params, f: Film, a: HostId, b: HostId, but: Leeway, u: Source, r: RoundId) returns (g: Film)
    requires Shot(p, f, a, but) && Stage(p, f.last, a, b) && Reaches(p, f.last, a, u, f.last.now)
    requires Owes(f.last, a, u, r) && r.startedAt <= f.last.now
    ensures Shot(p, g, a, but) && Stage(p, g.last, a, b) && Counted(p, f.last, g.last, a, u.socket.bridge)
  {
    hide Shot, FirstRecord, Follower, Acting;
    match u
    case Late(k, at) => g := HearLate(p, f, a, b, but, k, at);
    case Open(k) =>
      g := EchoNow(p, f, a, b, but, k, r);
      EchoCounts(p, f.last.nodes[a], k, r, f.last.now);
  }

  lemma EchoCounts(p: Params, n: Node, k: Socket, r: RoundId, now: int)
    requires Expected(n, k, r) && n.service.boot.configured == W(p)
    ensures Counts(p, n, Echoed(n, k.bridge, now), k.bridge, now)
  {
  }

  /** The writer has just renewed its lease. */
  predicate Thrives(p: Params, s: Sys, a: HostId, b: HostId) {
    Stage(p, s, a, b) && Ran(s, a, s.now, s.now) && s.nodes[a].lease == s.now
  }

  /** What time spent on renewals leaves alone. */
  predicate Unharmed(s: Sys, s': Sys, a: HostId) {
    && a in s.nodes && a in s'.nodes
   
    && s' == s.(now := s'.now, nodes := s.nodes[a := s'.nodes[a]], net := s.net.(pongs := s'.net.pongs), timers := s'.timers, history := s'.history)
    && s'.nodes[a].links == s.nodes[a].links && s'.nodes[a].quorum.acknowledged >= s.nodes[a].quorum.acknowledged
  }

  lemma UnharmedTwice(s: Sys, e: Sys, s': Sys, a: HostId)
    requires Unharmed(s, e, a) && Unharmed(e, s', a)
    ensures Unharmed(s, s', a)
  {
    assert s'.nodes == s.nodes[a := s'.nodes[a]];
  }

  lemma StillReaches(p: Params, s: Sys, s': Sys, a: HostId, u: Source, until: int)
    requires Unharmed(s, s', a) && Reaches(p, s, a, u, until)
    ensures Reaches(p, s', a, u, until)
  {
  }

  lemma ServesReaches(p: Params, s: Sys, a: HostId, k: Socket, until: int)
    requires Serves(p, s, a, k)
    ensures Reaches(p, s, a, Open(k), until)
  {
  }

  lemma CountedUnharmed(p: Params, s: Sys, s': Sys, a: HostId, b: BridgeId)
    requires Counted(p, s, s', a, b)
    ensures Unharmed(s, s', a) && s'.now == s.now && s'.timers == s.timers
  {
  }

  lemma WentUnharmed(s: Sys, s': Sys, a: HostId, polls: int, pulses: int)
    requires Went(s, s', a, polls, pulses)
    ensures Unharmed(s, s', a)
  {
  }

  lemma RoundUnharmed(s: Sys, s': Sys, a: HostId)
    requires RoundStarted(s, s', a)
    ensures Unharmed(s, s', a)
  {
  }

  /** Two bridges that count make a strict majority. */
  lemma TwoRenew(p: Params, s: Sys, h: Sys, s': Sys, a: HostId, b: BridgeId, c: BridgeId)
    requires 2 <= |W(p)| <= 3 && b != c && Counted(p, s, h, a, b) && Counted(p, h, s', a, c) && s.nodes[a].quorum.live == {}
    ensures s'.nodes[a].lease == s.now
  {
    assert {} + {b} + {c} == {b, c};
  }

  /** The other bridge still owes its pong. */
  lemma StillOwes(p: Params, s: Sys, h: Sys, a: HostId, b: BridgeId, v: Source, r: RoundId)
    requires Counted(p, s, h, a, b) && b != v.socket.bridge && Owes(s, a, v, r)
    ensures Owes(h, a, v, r)
  {
    if v.Open? {
      var k := v.socket.bridge;
      assert k in s.nodes[a].awaiting - {b} && (s.nodes[a].awaiting - {b})[k] == r;
      assert k in h.nodes[a].awaiting - {b};
    }
  }

  lemma PulseOwes(p: Params, s: Sys, s': Sys, a: HostId, u: Source, until: int, r: RoundId)
    requires Reaches(p, s, a, u, until) && a in s'.nodes && s'.nodes[a] == Pulsed(s.nodes[a], r)
    ensures Owes(s', a, u, r) && s'.nodes[a].quorum.live == {}
  {
  }

  /** The writer hears of both bridges after a pulse. */
  lemma NudgeBoth(p: Params, f: Film, a: HostId, b: HostId, but: Leeway, u: Source, v: Source, r: RoundId) returns (g: Film)
    requires Shot(p, f, a, but) && Stage(p, f.last, a, b) && 2 <= |W(p)| <= 3 && u.socket.bridge != v.socket.bridge
    requires Reaches(p, f.last, a, u, f.last.now) && Reaches(p, f.last, a, v, f.last.now)
    requires Owes(f.last, a, u, r) && Owes(f.last, a, v, r) && r.startedAt <= f.last.now && f.last.nodes[a].quorum.live == {}
    ensures Shot(p, g, a, but) && Stage(p, g.last, a, b) && Unharmed(f.last, g.last, a) && g.last.now == f.last.now
    ensures g.last.timers == f.last.timers && g.last.nodes[a].lease == f.last.now
  {
    hide Shot, Acting, Writing, Follower, Reaches, Counts, Owes;
    var half := Nudge(p, f, a, b, but, u, r);
    CountedUnharmed(p, f.last, half.last, a, u.socket.bridge);
    StillReaches(p, f.last, half.last, a, v, f.last.now);
    StillOwes(p, f.last, half.last, a, u.socket.bridge, v, r);
    g := Nudge(p, half, a, b, but, v, r);
    CountedUnharmed(p, half.last, g.last, a, v.socket.bridge);
    UnharmedTwice(f.last, half.last, g.last, a);
    TwoRenew(p, f.last, half.last, g.last, a, u.socket.bridge, v.socket.bridge);
  }

  /** One millisecond on, and the lease is renewed. */
  lemma Hum(p: Params, f: Film, a: HostId, b: HostId, but: Leeway, u: Source, v: Source) returns (g: Film)
    requires Shot(p, f, a, but) && Thrives(p, f.last, a, b) && Brisk(p) && 2 <= |W(p)| <= 3 && u.socket.bridge != v.socket.bridge
    requires Reaches(p, f.last, a, u, f.last.now + 1) && Reaches(p, f.last, a, v, f.last.now + 1)
    ensures Shot(p, g, a, but) && Thrives(p, g.last, a, b) && g.last.now == f.last.now + 1 && Unharmed(f.last, g.last, a)
  {
    hide Shot, Acting, Writing, Follower, Reaches, Owes, Pulsed;
    var now := f.last.now + 1;
    var beaten := Go(p, f, a, b, but, now, now, now);
    WentUnharmed(f.last, beaten.last, a, now, now);
    PulseOwes(p, f.last, beaten.last, a, u, now, RoundId(a, now, 0));
    PulseOwes(p, f.last, beaten.last, a, v, now, RoundId(a, now, 0));
    StillReaches(p, f.last, beaten.last, a, u, now);
    StillReaches(p, f.last, beaten.last, a, v, now);
    g := NudgeBoth(p, beaten, a, b, but, u, v, RoundId(a, now, 0));
    UnharmedTwice(f.last, beaten.last, g.last, a);
  }

  /** As long as two bridges can be heard, the writer goes on. */
  lemma {:induction false} HumUntil(p: Params, f: Film, a: HostId, b: HostId, but: Leeway, u: Source, v: Source, until: int) returns (g: Film)
    requires Shot(p, f, a, but) && Thrives(p, f.last, a, b) && Brisk(p) && 2 <= |W(p)| <= 3 && u.socket.bridge != v.socket.bridge
    requires f.last.now <= until && Reaches(p, f.last, a, u, until) && Reaches(p, f.last, a, v, until)
    ensures Shot(p, g, a, but) && Thrives(p, g.last, a, b) && g.last.now == until && Unharmed(f.last, g.last, a)
    decreases until - f.last.now
  {
    hide Shot, Acting, Writing, Follower;
    if f.last.now == until {
      g := f;
    } else {
      var e := HumUntil(p, f, a, b, but, u, v, until - 1);
      StillReaches(p, f.last, e.last, a, u, until);
      StillReaches(p, f.last, e.last, a, v, until);
      g := Hum(p, e, a, b, but, u, v);
      UnharmedTwice(f.last, e.last, g.last, a);
    }
  }

  /** The writer's loops have just run, and its lease lasts until then. */
  predicate Lives(p: Params, s: Sys, a: HostId, b: HostId, until: int) {
    Stage(p, s, a, b) && Ran(s, a, s.now, s.now) && until - s.nodes[a].lease < p.fence
  }

  lemma WentLives(p: Params, s: Sys, s': Sys, a: HostId, b: HostId, until: int)
    requires Stage(p, s, a, b) && Went(s, s', a, s'.now, s'.now) && until - s.nodes[a].lease < p.fence
    ensures Lives(p, s', a, b, until) && Unharmed(s, s', a)
  {
    WentStage(p, s, s', a, b, s'.now, s'.now);
    hide Stage, Pulsed;
  }

  /** Some time and a round more: on the lease there is if it lasts, else on answers that come again and again. */
  lemma Linger(p: Params, f: Film, a: HostId, b: HostId, but: Leeway, u: Source, v: Source, until: int) returns (g: Film)
    requires Shot(p, f, a, but) && Thrives(p, f.last, a, b) && Brisk(p) && 2 <= |W(p)| <= 3 && u.socket.bridge != v.socket.bridge
    requires f.last.now <= until && Reaches(p, f.last, a, u, until) && Reaches(p, f.last, a, v, until)
    ensures Shot(p, g, a, but) && Lives(p, g.last, a, b, until + p.period) && g.last.now == until && Unharmed(f.last, g.last, a)
  {
    hide Shot, Acting, Writing, Follower, Reaches, Pulsed;
    if until + p.period - f.last.now < p.fence {
      g := Go(p, f, a, b, but, until, until, until);
      WentLives(p, f.last, g.last, a, b, until + p.period);
    } else {
      g := HumUntil(p, f, a, b, but, u, v, until);
    }
  }
}
