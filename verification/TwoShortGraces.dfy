/**
  * How short the graces of two bridges may be. Both have to vote, so a single long grace is enough; if neither
  * is long, then a fair one each keeps the writer's last renewal older than the votes, and less does not.
  */
module TwoShortGraces {
  import opened Community
  import opened Quorums
  import opened BridgeLedger
  import opened Bridge
  import opened HostWriter
  import opened Coordinator
  import opened Failover
  import opened TimedSystem
  import opened Scenes
  import opened ElectionScenes
  import opened NeededHypotheses
  import opened WriterLoops
  import opened LateRenewals
  import opened ShortGrace
  import RegistrationQuorum

  predicate BothBridges(p: Params, x: Socket, y: Socket, a: HostId) {
    W(p) == {x.bridge, y.bridge} && x.bridge != y.bridge && x.host == a && y.host == a && x.serial == 0 && y.serial == 0
  }

  // ---------------------------------------------------------------- one bridge left at the start, the other at `q`

  /** The bridge of `x` lost the founder at the start, and its answer is on its way. */
  predicate LeftAtStart(p: Params, s: Sys, a: HostId, x: Socket) {
    Gone(p, s, a, x.bridge, START) && Reaches(p, s, a, Late(x, START), START + p.delay) && s.elections == NO_ELECTIONS
  }

  predicate Before(p: Params, s: Sys, a: HostId, x: Socket, y: Socket) {
    LeftAtStart(p, s, a, x) && Serves(p, s, a, y) && Unused(s.wires, Again(y)) && NonceUnused(s.net, 3)
  }

  predicate After(p: Params, s: Sys, a: HostId, x: Socket, y: Socket, q: int) {
    && LeftAtStart(p, s, a, x) && Gone(p, s, a, y.bridge, q) && Reaches(p, s, a, Late(Again(y), q), q + p.delay)
    && NonceUnused(s.net, 4)
  }

  /** The bridge of `y` loses the founder at the time `q`, when it serves it once more. */
  predicate Pair(p: Params, s: Sys, a: HostId, x: Socket, y: Socket, q: int) {
    if s.now < q then Before(p, s, a, x, y) else After(p, s, a, x, y, q)
  }

  /** Where the bridge of `y` can be heard. */
  function Other(y: Socket, q: int, now: int): Source {
    if now < q then Open(y) else Late(Again(y), q)
  }

  lemma PairReaches(p: Params, s: Sys, a: HostId, x: Socket, y: Socket, q: int, until: int)
    requires Pair(p, s, a, x, y, q) && until <= q + p.delay
    ensures Reaches(p, s, a, Other(y, q, s.now), until) && (until <= START + p.delay ==> Reaches(p, s, a, Late(x, START), until))
  {
    hide Registered;
  }

  lemma PairStays(p: Params, s: Sys, s': Sys, a: HostId, x: Socket, y: Socket, q: int)
    requires Pair(p, s, a, x, y, q) && Unharmed(s, s', a) && (s'.now < q <==> s.now < q)
    ensures Pair(p, s', a, x, y, q)
  {
    hide Registered;
  }

  lemma BeforeStays(p: Params, s: Sys, s': Sys, a: HostId, x: Socket, y: Socket)
    requires Before(p, s, a, x, y) && Unharmed(s, s', a)
    ensures Before(p, s', a, x, y)
  {
    hide Registered;
  }

  lemma SwappedPair(p: Params, s: Sys, s': Sys, a: HostId, x: Socket, y: Socket)
    requires BothBridges(p, x, y, a) && Before(p, s, a, x, y) && Swapped(p, s, s', a, y, Again(y)) && NonceUnused(s'.net, 4) && p.delay >= 0
    ensures After(p, s', a, x, y, s.now)
  {
    hide Registered;
  }

  /** What the swap leaves to the founder. */
  predicate Undisturbed(s: Sys, s': Sys, a: HostId, i: BridgeId) {
    && a in s.nodes && a in s'.nodes && s'.nodes[a].lease == s.nodes[a].lease
    && (i in s.nodes[a].quorum.live ==> i in s'.nodes[a].quorum.live)
  }

  lemma SwapPair(p: Params, f: Film, a: HostId, b: HostId, x: Socket, y: Socket) returns (g: Film)
    requires Shot(p, f, a, Strictly) && CastOk(p, a, b) && p.delay >= 0 && BothBridges(p, x, y, a)
    requires Stage(p, f.last, a, b) && Before(p, f.last, a, x, y) && Early(f.last.now)
    ensures Shot(p, g, a, Strictly) && Stage(p, g.last, a, b) && After(p, g.last, a, x, y, f.last.now)
    ensures g.last.now == f.last.now && g.last.timers == f.last.timers && Undisturbed(f.last, g.last, a, x.bridge)
  {
    hide Shot, Stage, Registered, ParamsOk, FirstRecord, NonceUnused;
    g := Swap(p, f, a, b, Strictly, y, Again(y), 3);
    SwappedPair(p, f.last, g.last, a, x, y);
  }

  /** The lease lives until the last answer of the first bridge is almost too old, and a round longer. */
  lemma HumPair(p: Params, f: Film, a: HostId, b: HostId, x: Socket, y: Socket, q: int, until: int) returns (g: Film)
    requires Shot(p, f, a, Strictly) && CastOk(p, a, b) && Brisk(p) && BothBridges(p, x, y, a)
    requires Thrives(p, f.last, a, b) && Before(p, f.last, a, x, y)
    requires START <= f.last.now < q && f.last.now <= until <= START + p.delay && Early(until)
    ensures Shot(p, g, a, Strictly) && Lives(p, g.last, a, b, until + p.period) && Pair(p, g.last, a, x, y, q) && g.last.now == until
  {
    hide Shot, Stage, Before, After, Reaches, ParamsOk;
    var x' := Late(x, START);
    PairReaches(p, f.last, a, x, y, q, until);
    OpenReaches(p, f.last, a, x, y, q, until);
    if until < q {
      g := Linger(p, f, a, b, Strictly, Open(y), x', until);
      PairStays(p, f.last, g.last, a, x, y, q);
    } else if until + p.period - f.last.now < p.fence {
      var at := Go(p, f, a, b, Strictly, q, q, q);
      WentLives(p, f.last, at.last, a, b, until + p.period);
      BeforeStays(p, f.last, at.last, a, x, y);
      var swapped := SwapPair(p, at, a, b, x, y);
      g := Go(p, swapped, a, b, Strictly, until, until, until);
      WentLives(p, swapped.last, g.last, a, b, until + p.period);
      PairStays(p, swapped.last, g.last, a, x, y, q);
    } else {
      PairReaches(p, f.last, a, x, y, q, q);
      var at := HumUntil(p, f, a, b, Strictly, Open(y), x', q);
      BeforeStays(p, f.last, at.last, a, x, y);
      var swapped := SwapPair(p, at, a, b, x, y);
      PairReaches(p, swapped.last, a, x, y, q, until);
      g := HumUntil(p, swapped, a, b, Strictly, Late(Again(y), q), x', until);
      PairStays(p, swapped.last, g.last, a, x, y, q);
    }
  }

  lemma OpenReaches(p: Params, s: Sys, a: HostId, x: Socket, y: Socket, q: int, until: int)
    requires Before(p, s, a, x, y)
    ensures Reaches(p, s, a, Open(y), until)
  {
  }

  /** Nobody renews the lease. */
  lemma GoPair(p: Params, f: Film, a: HostId, b: HostId, x: Socket, y: Socket, q: int, until: int) returns (g: Film)
    requires Shot(p, f, a, Strictly) && Brisk(p) && Stage(p, f.last, a, b) && Pair(p, f.last, a, x, y, q) && q <= f.last.now <= until
    requires Ran(f.last, a, f.last.now, f.last.now) && until <= f.last.now + p.period && until - f.last.nodes[a].lease < p.fence
    ensures Shot(p, g, a, Strictly) && Stage(p, g.last, a, b) && Pair(p, g.last, a, x, y, q) && g.last.now == until
    ensures Ran(g.last, a, until, f.last.now) && Undisturbed(f.last, g.last, a, x.bridge)
  {
    hide Shot, After, Acting, Writing, Follower, Pulsed;
    g := Go(p, f, a, b, Strictly, until, until, f.last.now);
    WaitedOut(f.last, g.last, a, until);
    PairStays(p, f.last, g.last, a, x, y, q);
  }

  // ---------------------------------------------------------------- the first bridge's last renewal

  /** A second bridge renews the lease. */
  lemma SecondRenews(p: Params, s: Sys, s': Sys, a: HostId, i: BridgeId, c: BridgeId)
    requires 2 <= |W(p)| <= 3 && Counted(p, s, s', a, c) && i in s.nodes[a].quorum.live && i != c
    ensures s'.nodes[a].lease == s.now
  {
    SizeAtLeastTwo(s'.nodes[a].quorum.live, i, c);
  }

  lemma CountedLease(p: Params, s: Sys, s': Sys, a: HostId, i: BridgeId)
    requires Counted(p, s, s', a, i)
    ensures i in s'.nodes[a].quorum.live && s'.now == s.now && s'.timers == s.timers
    ensures s'.nodes[a].lease == s.now || s'.nodes[a].lease == s.nodes[a].lease
  {
  }

  lemma StartedLease(s: Sys, s': Sys, a: HostId)
    requires RoundStarted(s, s', a)
    ensures a in s'.nodes && s'.nodes[a].lease == s.nodes[a].lease && s'.now == s.now
    ensures s'.timers == s.timers.(pulsed := s.timers.pulsed[a := s.now])
  {
  }

  /** The answer of the bridge of `x` counts as a liveness round begins. */
  lemma HearFirst(p: Params, f: Film, a: HostId, b: HostId, x: Socket, y: Socket, q: int) returns (g: Film)
    requires Shot(p, f, a, Strictly) && CastOk(p, a, b) && Brisk(p) && BothBridges(p, x, y, a)
    requires Lives(p, f.last, a, b, f.last.now + p.period) && Pair(p, f.last, a, x, y, q) && f.last.now == START + p.delay
    requires f.last.now <= q + p.delay
    ensures Shot(p, g, a, Strictly) && Stage(p, g.last, a, b) && Pair(p, g.last, a, x, y, q) && g.last.now == f.last.now
    ensures Lives(p, g.last, a, b, g.last.now + p.period) && x.bridge in g.last.nodes[a].quorum.live
    ensures g.last.now < q ==> Owes(g.last, a, Open(y), RoundId(a, g.last.now, 1))
  {
    hide Shot, Before, After, Reaches, ParamsOk, Acting, Writing, Follower, Pulsed, Counts, Owes;
    var now, x', r := f.last.now, Late(x, START), RoundId(a, f.last.now, 1);
    var begun := NextRound(p, f, a, b, Strictly);
    StartedLease(f.last, begun.last, a);
    PairReaches(p, f.last, a, x, y, q, now);
    StartedReaches(p, f.last, begun.last, a, x', now);
    StartedReaches(p, f.last, begun.last, a, Other(y, q, now), now);
    PairStays(p, f.last, begun.last, a, x, y, q);
    LateOwes(begun.last, a, x', r);
    g := Nudge(p, begun, a, b, Strictly, x', r);
    CountedUnharmed(p, begun.last, g.last, a, x.bridge);
    CountedLease(p, begun.last, g.last, a, x.bridge);
    PairStays(p, begun.last, g.last, a, x, y, q);
    StillOwes(p, begun.last, g.last, a, x.bridge, Other(y, q, now), r);
  }

  lemma LateOwes(s: Sys, a: HostId, u: Source, r: RoundId)
    requires u.Late?
    ensures Owes(s, a, u, r)
  {
  }

  /** A round later the second bridge makes a renewal of it. */
  lemma FirstLease(p: Params, f: Film, a: HostId, b: HostId, x: Socket, y: Socket, q: int) returns (g: Film)
    requires Shot(p, f, a, Strictly) && CastOk(p, a, b) && Brisk(p) && BothBridges(p, x, y, a)
    requires Thrives(p, f.last, a, b) && Before(p, f.last, a, x, y) && f.last.now == START && START + p.period <= q <= START + p.delay
    requires Early(START + p.delay + p.period)
    ensures Shot(p, g, a, Strictly) && Renews(p, g.last, a, b) && Pair(p, g.last, a, x, y, q)
    ensures g.last.now == START + p.delay + p.period
  {
    hide Shot, Before, After, Reaches, ParamsOk, Acting, Writing, Follower, Counts, Owes;
    var then_ := START + p.delay;
    var until, r := then_ + p.period, RoundId(a, then_, 1);
    var on := HumPair(p, f, a, b, x, y, q, then_);
    var half := HearFirst(p, on, a, b, x, y, q);
    var held := GoPair(p, half, a, b, x, y, q, until);
    PairReaches(p, held.last, a, x, y, q, until);
    LateOwes(held.last, a, Other(y, q, until), r);
    g := Nudge(p, held, a, b, Strictly, Other(y, q, until), r);
    CountedUnharmed(p, held.last, g.last, a, y.bridge);
    PairStays(p, held.last, g.last, a, x, y, q);
    SecondRenews(p, held.last, g.last, a, x.bridge, y.bridge);
  }

  // ---------------------------------------------------------------- the start

  lemma JoinedServes(p: Params, s: Sys, s': Sys, a: HostId, b: HostId, x: Socket, y: Socket)
    requires BothBridges(p, x, y, a) && Signed(p, s, a, b) && a != b && JoinedAt(p, s, s', a, y, map[], 1) && s'.nodes[a].lease == START
    ensures Thrives(p, s', a, b) && Serves(p, s', a, y) && Unused(s'.wires, Again(y)) && Unused(s'.wires, x) && NonceUnused(s'.net, 2)
    ensures s'.elections == NO_ELECTIONS && s'.now == START && x.bridge !in s'.nodes[a].links && BridgeIs(s', x.bridge, Restart(EMPTY))
  {
    hide Registered, Here, FirstRecord, EnsureRound, Restart, Founder, Acting, Writing, Follower;
    SignedActs(p, s, a, b);
    FollowerIsSilent(p, a, b);
  }

  lemma BrushedBefore(p: Params, s: Sys, s': Sys, a: HostId, b: HostId, x: Socket, y: Socket)
    requires BothBridges(p, x, y, a) && Thrives(p, s, a, b) && Serves(p, s, a, y) && s.now == START && p.delay >= 0
    requires Unused(s.wires, Again(y)) && s.elections == NO_ELECTIONS && Swapped(p, s, s', a, x, x)
    requires NonceUnused(s'.net, 3) && Stage(p, s', a, b)
    ensures Thrives(p, s', a, b) && Before(p, s', a, x, y)
  {
    hide Registered, Here, Acting, Writing, Follower;
  }

  /** The founder joins one bridge and has brushed the other when the story begins. */
  lemma BeginPair(p: Params, a: HostId, b: HostId, x: Socket, y: Socket) returns (g: Film)
    requires CastOk(p, a, b) && BothBridges(p, x, y, a) && p.delay >= 0
    ensures Shot(p, g, a, Strictly) && Thrives(p, g.last, a, b) && Before(p, g.last, a, x, y) && g.last.now == START
  {
    hide Shot, Signed, MayJoin, JoinedAt, Thrives, Before, Serves, Brushed, Swapped, FirstRecord, Acting;
    hide Restart, NonceUnused, Unused, ParamsOk;
    var signed := OpenAndSign(p, a, b, Strictly);
    SignedMayJoin(p, signed.last, a, b, y);
    var joined := JoinNext(p, signed, a, Strictly, y, 1);
    JoinedServes(p, signed.last, joined.last, a, b, x, y);
    g := BrushNext(p, joined, a, b, x);
    BrushedBefore(p, joined.last, g.last, a, b, x, y);
  }

  lemma BrushNext(p: Params, f: Film, a: HostId, b: HostId, x: Socket) returns (g: Film)
    requires Shot(p, f, a, Strictly) && CastOk(p, a, b) && Thrives(p, f.last, a, b) && f.last.now == START
    requires x.host == a && x.bridge in W(p) && x.bridge !in f.last.nodes[a].links && Unused(f.last.wires, x)
    requires BridgeIs(f.last, x.bridge, Restart(EMPTY)) && NonceUnused(f.last.net, 2)
    ensures Shot(p, g, a, Strictly) && Stage(p, g.last, a, b) && Swapped(p, f.last, g.last, a, x, x) && NonceUnused(g.last.net, 3)
    ensures g.last.now == START
  {
    hide Shot, FirstRecord, Acting, Writing, Restart, NonceUnused, ParamsOk, Follower, Asked;
    assert Registrable(p, a, Restart(EMPTY), map[]);
    hide Registrable;
    g := Brush(p, f, a, b, Strictly, Restart(EMPTY), x, 2);
    BrushSwaps(p, f.last, g.last, a, x, 2);
  }

  // ---------------------------------------------------------------- both vote at the end of that lease

  /** The last renewal was a moment ago, and nobody has voted. */
  predicate LastLease(p: Params, s: Sys, a: HostId, b: HostId, x: Socket, y: Socket, left: int) {
    Renews(p, s, a, b) && Gone(p, s, a, x.bridge, START) && Gone(p, s, a, y.bridge, left) && s.elections == NO_ELECTIONS
  }

  lemma ExpiredGone(p: Params, s: Sys, s': Sys, a: HostId, b: HostId, x: Socket, y: Socket, left: int)
    requires LastLease(p, s, a, b, x, y, left) && Expires(p, s, s', a, b)
    ensures Gone(p, s', a, x.bridge, START) && Gone(p, s', a, y.bridge, left) && Stage(p, s', a, b)
    ensures s'.now == s.now + p.fence + p.poll - 1 && s'.elections == NO_ELECTIONS
  {
    hide Registered;
  }

  lemma VoteOut(p: Params, f: Film, a: HostId, b: HostId, x: Socket, y: Socket, left: int) returns (run: seq<Sys>, steps: seq<Step>)
    requires Shot(p, f, a, Strictly) && CastOk(p, a, b) && Brisk(p) && BothBridges(p, x, y, a) && LastLease(p, f.last, a, b, x, y, left)
    requires LongGone(p, x.bridge, START, f.last.now + p.fence + p.poll - 1) && Early(f.last.now + p.fence + p.poll - 1)
    requires LongGone(p, y.bridge, left, f.last.now + p.fence + p.poll - 1)
    ensures IsRun(p, run, steps, a, 1) && (forall k | 0 <= k < |steps| :: OnTime(p, run[k], steps[k]))
    ensures !AtMostOneWriter(run[|steps|])
  {
    hide Shot, ParamsOk, Stage, Registered, LongGone, IsRun, OnTime, AtMostOneWriter, Expires, Away;
    RenewsLast(p, f.last, a, b, x, y, left);
    var late := Expire(p, f, a, b, Strictly);
    ExpiredGone(p, f.last, late.last, a, b, x, y, left);
    var won := ElectBeside(p, late, a, b, Strictly, x.bridge, START, y.bridge, left);
    ShotIsRun(p, won, a, Strictly);
    run, steps := won.run, won.steps;
  }

  lemma RenewsLast(p: Params, s: Sys, a: HostId, b: HostId, x: Socket, y: Socket, left: int)
    requires LastLease(p, s, a, b, x, y, left)
    ensures Renews(p, s, a, b)
  {
  }

  /** A delay longer than a round: what sets the renewal off may be an answer that old. */
  lemma LongDelayRun(p: Params, a: HostId, b: HostId, x: Socket, y: Socket) returns (run: seq<Sys>, steps: seq<Step>)
    requires CastOk(p, a, b) && Brisk(p) && BothBridges(p, x, y, a) && p.delay > p.period && Lag(p) <= RECORD_TTL_MS
    requires !LongGrace(p, x.bridge) && Grace(p.configs[y.bridge]) < p.fence + p.poll + p.delay
    ensures IsRun(p, run, steps, a, 1) && (forall k | 0 <= k < |steps| :: OnTime(p, run[k], steps[k]))
    ensures !AtMostOneWriter(run[|steps|])
  {
    hide Shot, ParamsOk, Thrives, Renews, Before, Stage, Registered, IsRun, OnTime, AtMostOneWriter, Grace;
    var q := START + p.period;
    SizeOfTwo(p, x, y, a);
    var f := BeginPair(p, a, b, x, y);
    f := FirstLease(p, f, a, b, x, y, q);
    run, steps := VoteOut(p, f, a, b, x, y, q);
  }

  lemma SizeOfTwo(p: Params, x: Socket, y: Socket, a: HostId)
    requires BothBridges(p, x, y, a)
    ensures |W(p)| == 2
  {
  }

  // ---------------------------------------------------------------- a pong held back for a round

  /** The bridge of `y` has answered the ping of the round and then lost the founder; its answer is on its way. */
  predicate Answered(p: Params, s: Sys, a: HostId, b: HostId, x: Socket, y: Socket, m: PongMsg) {
    && Lives(p, s, a, b, s.now + p.period) && x.bridge in s.nodes[a].quorum.live
    && Gone(p, s, a, x.bridge, START) && Gone(p, s, a, y.bridge, s.now)
    && s.elections == NO_ELECTIONS && m in s.net.pongs && m.socket == y && m.round == RoundId(a, s.now, 1) && Owes(s, a, Open(y), m.round)
  }

  lemma AnsweredSo(p: Params, s: Sys, e: Sys, s': Sys, a: HostId, b: HostId, x: Socket, y: Socket, m: PongMsg)
    requires BothBridges(p, x, y, a) && Before(p, s, a, x, y) && Stage(p, e, a, b) && Ran(s, a, s.now, s.now)
    requires s.now + p.period - s.nodes[a].lease < p.fence && x.bridge in s.nodes[a].quorum.live && Owes(s, a, Open(y), RoundId(a, s.now, 1))
    requires e == s.(net := s.net.(pongs := e.net.pongs), history := e.history) && m in e.net.pongs && m.socket == y
    requires m.round == RoundId(a, s.now, 1)
    requires s' == e.(bridges := e.bridges[y.bridge := Registered(p, a, Away(p, a, e.now), map[])],
                      wires := e.wires.(alive := e.wires.alive - {y}))
    ensures Answered(p, s', a, b, x, y, m)
  {
    hide Registered;
    SameStage(p, e, s', a, b);
    hide Stage;
  }

  lemma AnswerAndLeave(p: Params, f: Film, a: HostId, b: HostId, x: Socket, y: Socket) returns (g: Film, m: PongMsg)
    requires Shot(p, f, a, Strictly) && BothBridges(p, x, y, a) && Before(p, f.last, a, x, y) && Stage(p, f.last, a, b)
    requires Lives(p, f.last, a, b, f.last.now + p.period) && x.bridge in f.last.nodes[a].quorum.live
    requires Owes(f.last, a, Open(y), RoundId(a, f.last.now, 1))
    ensures Shot(p, g, a, Strictly) && Answered(p, g.last, a, b, x, y, m) && g.last.now == f.last.now
  {
    hide Shot, Acting, Writing, Follower, Registered, Here, Away, Owes, Answered;
    var pinged: Film;
    pinged, m := PingNow(p, f, a, b, Strictly, y, RoundId(a, f.last.now, 1));
    g := Leave(p, pinged, a, Strictly, y, map[]);
    AnsweredSo(p, f.last, pinged.last, g.last, a, b, x, y, m);
  }

  lemma HeardRenews(p: Params, s: Sys, e: Sys, s': Sys, a: HostId, b: HostId, x: Socket, y: Socket, m: PongMsg, until: int)
    requires BothBridges(p, x, y, a) && Answered(p, s, a, b, x, y, m) && Went(s, e, a, until, s.now) && e.now == until
    requires a in e.nodes && Stage(p, s', a, b)
    requires s' == e.(nodes := e.nodes[a := Echoed(e.nodes[a], m.socket.bridge, e.now)], history := s'.history)
    ensures LastLease(p, s', a, b, x, y, s.now)
  {
    hide Registered;
    WaitedOut(s, e, a, until);
    EchoCounts(p, s.nodes[a], y, m.round, until);
    SizeOfTwo(p, x, y, a);
    SizeAtLeastTwo(s'.nodes[a].quorum.live, x.bridge, y.bridge);
  }

  lemma HearHeldPong(p: Params, f: Film, a: HostId, b: HostId, x: Socket, y: Socket, m: PongMsg) returns (g: Film)
    requires Shot(p, f, a, Strictly) && Brisk(p) && BothBridges(p, x, y, a) && Answered(p, f.last, a, b, x, y, m)
    ensures Shot(p, g, a, Strictly) && LastLease(p, g.last, a, b, x, y, f.last.now) && g.last.now == f.last.now + p.period
  {
    hide Shot, Acting, Writing, Follower, Registered, Echoed;
    var until := f.last.now + p.period;
    var held := Go(p, f, a, b, Strictly, until, until, f.last.now);
    WaitedOut(f.last, held.last, a, until);
    g := HearPong(p, held, a, b, Strictly, m);
    HeardRenews(p, f.last, held.last, g.last, a, b, x, y, m, until);
  }

  /** A round at least as long as the delay: what sets the renewal off may be a pong that old. */
  lemma LongRoundRun(p: Params, a: HostId, b: HostId, x: Socket, y: Socket) returns (run: seq<Sys>, steps: seq<Step>)
    requires CastOk(p, a, b) && Brisk(p) && BothBridges(p, x, y, a) && Lag(p) <= RECORD_TTL_MS
    requires !LongGrace(p, x.bridge) && Grace(p.configs[y.bridge]) < p.fence + p.poll + p.period
    ensures IsRun(p, run, steps, a, 1) && (forall k | 0 <= k < |steps| :: OnTime(p, run[k], steps[k]))
    ensures !AtMostOneWriter(run[|steps|])
  {
    hide Shot, ParamsOk, Thrives, Renews, Before, Stage, Registered, IsRun, OnTime, AtMostOneWriter, Grace, Answered, LastLease;
    var never, then_ := START + p.delay + p.period, START + p.delay;
    SizeOfTwo(p, x, y, a);
    var f := BeginPair(p, a, b, x, y);
    f := HumPair(p, f, a, b, x, y, never, then_);
    f := HearFirst(p, f, a, b, x, y, never);
    var m: PongMsg;
    f, m := AnswerAndLeave(p, f, a, b, x, y);
    f := HearHeldPong(p, f, a, b, x, y, m);
    run, steps := VoteOut(p, f, a, b, x, y, then_);
  }
}
