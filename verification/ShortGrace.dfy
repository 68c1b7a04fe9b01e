/**
  * Why three bridges need a long grace each. What renews a lease may be as old as a liveness round and a delay
  * together, so a bridge whose grace is shorter than that and a lease may attest the writer's absence, and vote,
  * while the writer still lives on what the bridge did for it.
  */
module ShortGrace {
  import opened Community
  import opened Quorums
  import opened BridgeLedger
  import opened Bridge
  import opened HostWriter
  import opened Coordinator
  import opened Failover
  import opened TimedSystem
  import opened Scenes
  import opened ElectionScenes
  import opened NeededHypotheses
  import opened WriterLoops
  import opened LateRenewals
  import RegistrationQuorum

  predicate ThreeBridges(p: Params, x: Socket, y: Socket, z: Socket, a: HostId) {
    && W(p) == {x.bridge, y.bridge, z.bridge} && x.bridge != y.bridge && y.bridge != z.bridge && x.bridge != z.bridge
    && x.host == a && y.host == a && z.host == a
  }

  // ---------------------------------------------------------------- act one: three bridges acknowledge

  predicate AllJoined(p: Params, s: Sys, a: HostId, b: HostId, x: Socket, y: Socket, z: Socket) {
    && Thrives(p, s, a, b) && s.now == START && Serves(p, s, a, x) && Serves(p, s, a, y) && Serves(p, s, a, z)
    && Unused(s.wires, Again(z)) && NonceUnused(s.net, 4) && s.elections == NO_ELECTIONS
  }

  /** The next socket of the same line. */
  function Again(k: Socket): Socket { k.(serial := 1) }

  /** Whom the founder may join next. */
  predicate MayJoin(p: Params, s: Sys, a: HostId, k: Socket, n: nat) {
    && a in s.nodes && k.host == a && k.bridge in W(p) && k.bridge in s.bridges && s.bridges[k.bridge] == Restart(EMPTY)
    && k.bridge !in s.nodes[a].links && Unused(s.wires, k) && FirstRecord(p, a) in s.net.records && NonceUnused(s.net, n)
    && Acting(p, a, s.nodes[a]) && s.nodes[a].lease == START && s.now == START
  }

  /** One more bridge at the start. */
  lemma JoinNext(p: Params, f: Film, a: HostId, but: Leeway, k: Socket, n: nat) returns (g: Film)
    requires Shot(p, f, a, but) && ParamsOk(p) && |a| >= 1 && MayJoin(p, f.last, a, k, n) && p.delay >= 0
    ensures Shot(p, g, a, but) && a in g.last.nodes && JoinedAt(p, f.last, g.last, a, k, map[], n) && g.last.nodes[a].lease == START
  {
    hide Shot, FirstRecord, Registered, Here, Writing, Acting, ParamsOk, Restart, NonceUnused;
    assert Registrable(p, a, Restart(EMPTY), map[]);
    hide Registrable;
    g := Join(p, f, a, but, Restart(EMPTY), map[], k, n);
  }

  lemma StillMayJoin(p: Params, s: Sys, s': Sys, a: HostId, k: Socket, q: Socket, n: nat)
    requires a in s'.nodes && JoinedAt(p, s, s', a, k, map[], n) && s'.nodes[a].lease == START
    requires MayJoin(p, s, a, q, n) && k.bridge != q.bridge && k.host == a
    ensures MayJoin(p, s', a, q, n + 1)
  {
    hide Acting, Writing, Restart, FirstRecord;
  }

  lemma SignedMayJoin(p: Params, s: Sys, a: HostId, b: HostId, k: Socket)
    requires Signed(p, s, a, b) && a != b && k.host == a && k.bridge in W(p)
    ensures MayJoin(p, s, a, k, 1)
  {
    SignedActs(p, s, a, b);
    hide Acting, EnsureRound;
  }

  /** The three joins, one after another. */
  predicate Joins(p: Params, s: Sys, s1: Sys, s2: Sys, s3: Sys, a: HostId, x: Socket, y: Socket, z: Socket) {
    JoinedAt(p, s, s1, a, x, map[], 1) && JoinedAt(p, s1, s2, a, y, map[], 2) && JoinedAt(p, s2, s3, a, z, map[], 3)
  }

  lemma JoinsWires(p: Params, s: Sys, s1: Sys, s2: Sys, s3: Sys, a: HostId, x: Socket, y: Socket, z: Socket)
    requires ThreeBridges(p, x, y, z, a) && Joins(p, s, s1, s2, s3, a, x, y, z) && s.wires == Wires(map[], {}, {})
    requires x.serial == 0 && z.serial == 0
    ensures s3.wires.alive == {x, y, z} && Unused(s3.wires, Again(z)) && NonceUnused(s3.net, 4)
    ensures s3.net.records == s.net.records && s3.now == s.now && s3.timers == s.timers && s3.elections == s.elections
  {
    hide Joined, Registered, NonceUnused;
  }

  lemma JoinsBridges(p: Params, s: Sys, s1: Sys, s2: Sys, s3: Sys, a: HostId, x: Socket, y: Socket, z: Socket)
    requires ThreeBridges(p, x, y, z, a) && Joins(p, s, s1, s2, s3, a, x, y, z) && s.bridges.Keys == W(p)
    ensures s3.bridges.Keys == {x.bridge, y.bridge, z.bridge}
    ensures s3.bridges[x.bridge] == Registered(p, a, Here(p, a, x), map[]) && s3.bridges[y.bridge] == Registered(p, a, Here(p, a, y), map[])
    ensures s3.bridges[z.bridge] == Registered(p, a, Here(p, a, z), map[])
  {
    hide Joined, Registered, Here, NonceUnused;
  }

  lemma JoinedKeeps(p: Params, s: Sys, s': Sys, a: HostId, k: Socket, n: nat)
    requires JoinedAt(p, s, s', a, k, map[], n)
    ensures a in s.nodes && a in s'.nodes && s'.nodes == s.nodes[a := s'.nodes[a]]
    ensures s'.nodes[a].links == s.nodes[a].links[k.bridge := k]
    ensures s'.nodes[a].quorum.acknowledged == s.nodes[a].quorum.acknowledged + {k.bridge}
    ensures Acting(p, a, s'.nodes[a]) && Writing(p, a, s'.nodes[a])
  {
    hide Acting, Writing, Registered;
  }

  lemma JoinsNode(p: Params, s: Sys, s1: Sys, s2: Sys, s3: Sys, a: HostId, x: Socket, y: Socket, z: Socket)
    requires a in s.nodes && ThreeBridges(p, x, y, z, a) && Joins(p, s, s1, s2, s3, a, x, y, z) && s.nodes[a].quorum.acknowledged == {}
    ensures a in s3.nodes && s3.nodes == s.nodes[a := s3.nodes[a]]
    ensures var n := s3.nodes[a];
      && Acting(p, a, n) && Writing(p, a, n) && Linked(n, x) && Linked(n, y) && Linked(n, z)
      && n.quorum.acknowledged == {x.bridge, y.bridge, z.bridge}
  {
    hide JoinedAt, Acting, Writing;
    JoinedKeeps(p, s, s1, a, x, 1);
    JoinedKeeps(p, s1, s2, a, y, 2);
    JoinedKeeps(p, s2, s3, a, z, 3);
  }

  lemma AllAreJoined(p: Params, s: Sys, s1: Sys, s2: Sys, s3: Sys, a: HostId, b: HostId, x: Socket, y: Socket, z: Socket)
    requires ThreeBridges(p, x, y, z, a) && Signed(p, s, a, b) && a != b && x.serial == 0 && z.serial == 0
    requires Joins(p, s, s1, s2, s3, a, x, y, z) && a in s3.nodes && s3.nodes[a].lease == START
    ensures AllJoined(p, s3, a, b, x, y, z)
  {
    hide FirstRecord, Registered, Here, Founder, EnsureRound, Writing, Restart, NonceUnused, Joins, Acting, Follower;
    SignedActs(p, s, a, b);
    FollowerIsSilent(p, a, b);
    JoinsWires(p, s, s1, s2, s3, a, x, y, z);
    JoinsBridges(p, s, s1, s2, s3, a, x, y, z);
    JoinsNode(p, s, s1, s2, s3, a, x, y, z);
  }

  lemma FollowerIsSilent(p: Params, a: HostId, b: HostId)
    ensures !Follower(p, a, b).writer
  {
  }

  lemma JoinAll(p: Params, f: Film, a: HostId, b: HostId, but: Leeway, x: Socket, y: Socket, z: Socket) returns (g: Film)
    requires Shot(p, f, a, but) && CastOk(p, a, b) && ThreeBridges(p, x, y, z, a) && p.delay >= 0
    requires Signed(p, f.last, a, b) && x.serial == 0 && z.serial == 0
    ensures Shot(p, g, a, but) && AllJoined(p, g.last, a, b, x, y, z)
  {
    hide Shot, Signed, JoinedAt, AllJoined, ParamsOk, FirstRecord, Acting, Restart, NonceUnused, Unused;
    SignedMayJoin(p, f.last, a, b, x);
    SignedMayJoin(p, f.last, a, b, y);
    SignedMayJoin(p, f.last, a, b, z);
    var f1 := JoinNext(p, f, a, but, x, 1);
    StillMayJoin(p, f.last, f1.last, a, x, y, 1);
    StillMayJoin(p, f.last, f1.last, a, x, z, 1);
    var f2 := JoinNext(p, f1, a, but, y, 2);
    StillMayJoin(p, f1.last, f2.last, a, y, z, 2);
    g := JoinNext(p, f2, a, but, z, 3);
    AllAreJoined(p, f.last, f1.last, f2.last, g.last, a, b, x, y, z);
  }

  // ---------------------------------------------------------------- act two: two of them lose the founder

  /** The bridge of `x` lost the founder at the start, and the two others renew its lease. */
  predicate OneLeft(p: Params, s: Sys, a: HostId, b: HostId, x: Socket, y: Socket, z: Socket) {
    && Thrives(p, s, a, b) && Gone(p, s, a, x.bridge, START) && Serves(p, s, a, y) && Serves(p, s, a, z)
    && Unused(s.wires, Again(z)) && NonceUnused(s.net, 4) && s.elections == NO_ELECTIONS
  }

  lemma FirstLeaves(p: Params, f: Film, a: HostId, b: HostId, x: Socket, y: Socket, z: Socket) returns (g: Film)
    requires Shot(p, f, a, Strictly) && ThreeBridges(p, x, y, z, a) && AllJoined(p, f.last, a, b, x, y, z)
    ensures Shot(p, g, a, Strictly) && OneLeft(p, g.last, a, b, x, y, z) && g.last.now == START
  {
    hide Shot, Registered, Follower, Writing, Acting;
    g := Part(p, f, a, b, Strictly, x);
  }

  lemma StillOneLeft(p: Params, s: Sys, s': Sys, a: HostId, b: HostId, x: Socket, y: Socket, z: Socket)
    requires OneLeft(p, s, a, b, x, y, z) && Unharmed(s, s', a) && Thrives(p, s', a, b)
    ensures OneLeft(p, s', a, b, x, y, z)
  {
    hide Stage, Registered;
  }

  /** The bridge of `z` lost the founder at `left`, and served it last then. */
  predicate TwoLeft(p: Params, s: Sys, a: HostId, x: Socket, y: Socket, z: Socket, left: int) {
    && a in s.nodes && Gone(p, s, a, x.bridge, START) && Gone(p, s, a, z.bridge, left) && Serves(p, s, a, y)
    && s.elections == NO_ELECTIONS
  }

  lemma StillTwoLeft(p: Params, s: Sys, s': Sys, a: HostId, x: Socket, y: Socket, z: Socket, left: int)
    requires TwoLeft(p, s, a, x, y, z, left) && Unharmed(s, s', a)
    ensures TwoLeft(p, s', a, x, y, z, left)
  {
    hide Registered;
  }

  lemma SwappedLeft(p: Params, s: Sys, s': Sys, a: HostId, b: HostId, x: Socket, y: Socket, z: Socket)
    requires ThreeBridges(p, x, y, z, a) && OneLeft(p, s, a, b, x, y, z) && Swapped(p, s, s', a, z, Again(z)) && Stage(p, s', a, b)
    requires p.delay >= 0
    ensures TwoLeft(p, s', a, x, y, z, s.now) && Thrives(p, s', a, b) && Reaches(p, s', a, Late(Again(z), s.now), s.now + p.delay)
  {
    hide Registered, Here, Stage;
  }

  /** As soon as the first bridge may vote the second one loses the founder. */
  lemma SecondLeaves(p: Params, f: Film, a: HostId, b: HostId, x: Socket, y: Socket, z: Socket) returns (g: Film)
    requires Shot(p, f, a, Strictly) && CastOk(p, a, b) && Brisk(p) && ThreeBridges(p, x, y, z, a) && OneLeft(p, f.last, a, b, x, y, z)
    requires START <= f.last.now < START + RECORD_TTL_MS
    ensures Shot(p, g, a, Strictly) && TwoLeft(p, g.last, a, x, y, z, f.last.now) && Thrives(p, g.last, a, b) && g.last.now == f.last.now
    ensures Reaches(p, g.last, a, Late(Again(z), f.last.now), f.last.now + p.delay)
  {
    hide Shot, Registered, Here, Follower, Writing, Acting, NonceUnused, ParamsOk, FirstRecord;
    g := Swap(p, f, a, b, Strictly, z, Again(z), 4);
    SwappedLeft(p, f.last, g.last, a, b, x, y, z);
  }

  /** Its last answer is a delay on the way, and then counts for a whole round: that much later the lease is renewed. */
  lemma RenewLast(p: Params, f: Film, a: HostId, b: HostId, x: Socket, y: Socket, z: Socket) returns (g: Film)
    requires Shot(p, f, a, Strictly) && CastOk(p, a, b) && Brisk(p) && ThreeBridges(p, x, y, z, a) && Thrives(p, f.last, a, b)
    requires TwoLeft(p, f.last, a, x, y, z, f.last.now) && Reaches(p, f.last, a, Late(Again(z), f.last.now), f.last.now + p.delay)
    ensures Shot(p, g, a, Strictly) && TwoLeft(p, g.last, a, x, y, z, f.last.now) && Renews(p, g.last, a, b)
    ensures g.last.now == f.last.now + p.delay + p.period
  {
    hide Shot, Thrives, Lives, Renews, TwoLeft, Reaches;
    var then_ := f.last.now;
    var z' := Late(Again(z), then_);
    ServedByY(p, f.last, a, x, y, z, then_, then_ + p.delay);
    var on := Linger(p, f, a, b, Strictly, Open(y), z', then_ + p.delay);
    StillTwoLeft(p, f.last, on.last, a, x, y, z, then_);
    StillReaches(p, f.last, on.last, a, z', then_ + p.delay);
    ServedByY(p, on.last, a, x, y, z, then_, then_ + p.delay + p.period);
    g := RenewLate(p, on, a, b, Strictly, z', Open(y));
    StillTwoLeft(p, on.last, g.last, a, x, y, z, then_);
  }

  lemma ServedByY(p: Params, s: Sys, a: HostId, x: Socket, y: Socket, z: Socket, left: int, until: int)
    requires TwoLeft(p, s, a, x, y, z, left)
    ensures Reaches(p, s, a, Open(y), until)
  {
  }

  // ---------------------------------------------------------------- act three: both vote as the lease runs out

  lemma LastMoment(p: Params, s: Sys, s': Sys, a: HostId, b: HostId, x: Socket, y: Socket, z: Socket, left: int)
    requires TwoLeft(p, s, a, x, y, z, left) && Expires(p, s, s', a, b)
    ensures Gone(p, s', a, x.bridge, START) && Gone(p, s', a, z.bridge, left) && Stage(p, s', a, b) && s'.elections == NO_ELECTIONS
    ensures s'.now == s.now + p.fence + p.poll - 1
  {
    hide Registered, Stage;
  }

  lemma BothVoteThen(p: Params, f: Film, a: HostId, b: HostId, x: Socket, y: Socket, z: Socket, left: int) returns (g: Film)
    requires Shot(p, f, a, Strictly) && CastOk(p, a, b) && Brisk(p) && ThreeBridges(p, x, y, z, a) && Renews(p, f.last, a, b)
    requires TwoLeft(p, f.last, a, x, y, z, left) && Early(f.last.now + p.fence + p.poll - 1)
    requires LongGone(p, x.bridge, START, f.last.now + p.fence + p.poll - 1)
    requires LongGone(p, z.bridge, left, f.last.now + p.fence + p.poll - 1)
    ensures Shot(p, g, a, Strictly) && !AtMostOneWriter(g.last)
  {
    hide Shot, Renews, Stage, ParamsOk, LongGone, Registered, Gone, TwoLeft, AtMostOneWriter, Expires;
    var late := Expire(p, f, a, b, Strictly);
    LastMoment(p, f.last, late.last, a, b, x, y, z, left);
    g := ElectBeside(p, late, a, b, Strictly, x.bridge, START, z.bridge, left);
  }

  /** A bridge whose grace ends before the record does that the founder signed as it last served it. */
  predicate Brief(p: Params, i: BridgeId) {
    i in p.configs && Grace(p.configs[i]) < RECORD_TTL_MS
  }

  /**
    * Of three bridges, each needs a long grace: with a single one that falls short, were it by a millisecond,
    * there is a run, on time from its first step to its last, after which two hosts write.
    */
  lemma OneShortGraceMakesTwoWriters(p: Params, a: HostId, b: HostId, x: BridgeId, y: BridgeId, z: BridgeId)
    returns (run: seq<Sys>, steps: seq<Step>)
    requires CastOk(p, a, b) && W(p) == {x, y, z} && |W(p)| == 3 && Brisk(p) && Lag(p) <= RECORD_TTL_MS
    requires Brief(p, x) && !LongGrace(p, z)
    ensures IsRun(p, run, steps, a, 1) && forall i | 0 <= i < |steps| :: OnTime(p, run[i], steps[i])
    ensures !AtMostOneWriter(run[|steps|])
  {
    hide IsRun, Shot, OnTime, Grace, AllJoined, OneLeft, TwoLeft, Stage, Signed, ParamsOk, AtMostOneWriter;
    var k, q, r := Socket(a, x, 0), Socket(a, y, 0), Socket(a, z, 0);
    AllDifferent(p, x, y, z);
    var left := START + Max(0, Grace(p.configs[x]) - Lag(p) + 1);
    var f := OpenAndSign(p, a, b, Strictly);
    f := JoinAll(p, f, a, b, Strictly, k, q, r);
    f := FirstLeaves(p, f, a, b, k, q, r);
    f := StayWithTwo(p, f, a, b, k, q, r, left);
    f := SecondLeaves(p, f, a, b, k, q, r);
    f := RenewLast(p, f, a, b, k, q, r);
    f := BothVoteThen(p, f, a, b, k, q, r, left);
    ShotIsRun(p, f, a, Strictly);
    run, steps := f.run, f.steps;
  }

  lemma StayWithTwo(p: Params, f: Film, a: HostId, b: HostId, x: Socket, y: Socket, z: Socket, until: int) returns (g: Film)
    requires Shot(p, f, a, Strictly) && CastOk(p, a, b) && Brisk(p) && ThreeBridges(p, x, y, z, a) && OneLeft(p, f.last, a, b, x, y, z)
    requires f.last.now <= until
    ensures Shot(p, g, a, Strictly) && OneLeft(p, g.last, a, b, x, y, z) && g.last.now == until
  {
    hide Shot, Stage, ParamsOk, Registered;
    ServesReaches(p, f.last, a, y, until);
    ServesReaches(p, f.last, a, z, until);
    g := HumUntil(p, f, a, b, Strictly, Open(y), Open(z), until);
    StillOneLeft(p, f.last, g.last, a, b, x, y, z);
  }

  lemma AllDifferent(p: Params, x: BridgeId, y: BridgeId, z: BridgeId)
    requires W(p) == {x, y, z} && |W(p)| == 3
    ensures x != y && y != z && x != z
  {
    assert |{x, y}| <= 2 && |{x, z}| <= 2;
    assert x == y || y == z ==> {x, y, z} == {x, z};
    assert x == z ==> {x, y, z} == {x, y};
  }
}
