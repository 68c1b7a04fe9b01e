/**
  * The request queue of `HostClient` (`packages/networking/src/index.ts`). Result frames carry no
  * correlation id, so one request is in flight at a time and a timed-out one costs the socket.
  *
  * A request is named by its position in the order of calls. `lines` is the host's side of each
  * socket: the frames it received there and how many of them it has answered, in order.
  */
module HostClientQueue {
  import opened Community

  datatype FailureCode = TimedOut | HostOffline

  /** A result frame carries the host's answer to one particular frame; a failure is the client's own. */
  datatype Value = Data(answerTo: nat) | Failure(code: FailureCode)

  datatype Resolution = Resolution(request: nat, value: Value)

  datatype Line = Line(sent: seq<nat>, answered: nat)

  datatype Client = Client(
    closed: bool, authenticated: bool, open: bool, generation: nat, pending: seq<nat>, inFlight: Option<nat>,
    next: nat, resolved: seq<Resolution>, lines: map<nat, Line>)

  /** Whether the receive policy could be set and the frame be sent, should it come to that. */
  datatype Luck = Luck(policy: bool, send: bool)

  datatype Happening =
    | Called(luck: Luck)
    | Opened(generation: nat)
    | Ready(generation: nat, luck: Luck)
    | Answered(generation: nat, reset: bool, luck: Luck)
    | TimerFired(request: nat)
    // the socket is closing: its readyState says so before its close event arrives
    | Closing(generation: nat)
    | SocketClosed(generation: nat)

  const FRESH := Client(false, false, false, 1, [], None, 0, [], map[1 := Line([], 0)])

  // ---------------------------------------------------------------- the handlers

  function Settle(c: Client, r: nat, v: Value): Client {
    if exists i | 0 <= i < |c.resolved| :: c.resolved[i].request == r then c
    else c.(resolved := c.resolved + [Resolution(r, v)])
  }

  /** `replaceTimedOutConnection` and the `connect` it calls. */
  function Replace(c: Client): Client {
    if c.closed then c
    else c.(generation := c.generation + 1, authenticated := false, open := false, lines := c.lines[c.generation + 1 := Line([], 0)])
  }

  function SendOn(c: Client, r: nat): Client {
    if c.generation !in c.lines then c
    else c.(lines := c.lines[c.generation := c.lines[c.generation].(sent := c.lines[c.generation].sent + [r])])
  }

  /** `dispatchNextRequest` */
  function Dispatch(c: Client, luck: Luck): Client {
    if c.inFlight.Some? || !c.authenticated || !c.open || c.pending == [] then c
    else
      var r, rest := c.pending[0], c.(pending := c.pending[1..]);
      if !luck.policy || !luck.send then Replace(Settle(rest, r, Failure(HostOffline)))
      else SendOn(rest.(inFlight := Some(r)), r)
  }

  /** `request`, `command` and `send`; a closed transport answers at once. */
  function Call(c: Client, luck: Luck): Client {
    var called := c.(next := c.next + 1);
    if c.closed then Settle(called, c.next, Failure(HostOffline))
    else Dispatch(called.(pending := c.pending + [c.next]), luck)
  }

  /** `handleRequestResult` */
  function TakeResult(c: Client, v: Value, reset: bool, luck: Luck): Client {
    if c.inFlight.None? then c
    else
      var idle := c.(inFlight := None);
      if !reset then Replace(Settle(idle, c.inFlight.value, Failure(HostOffline)))
      else Dispatch(Settle(idle, c.inFlight.value, v), luck)
  }

  function Counted(c: Client, g: nat): Client
    requires g in c.lines
  {
    c.(lines := c.lines[g := c.lines[g].(answered := c.lines[g].answered + 1)])
  }

  /** A result frame arrives on socket `g`: the host's answer to the next frame it received there. */
  function TakeFrame(c: Client, g: nat, reset: bool, luck: Luck): Client {
    if g !in c.lines || c.lines[g].answered >= |c.lines[g].sent| then c
    else
      var v := Data(c.lines[g].sent[c.lines[g].answered]);
      if g != c.generation || c.closed || !c.authenticated then Counted(c, g)
      else TakeResult(Counted(c, g), v, reset, luck)
  }

  function Without(xs: seq<nat>, x: nat): seq<nat> {
    if xs == [] then [] else if xs[0] == x then xs[1..] else [xs[0]] + Without(xs[1..], x)
  }

  /** `handleRequestTimeout` */
  function TimeOut(c: Client, r: nat): Client {
    if r >= c.next || (exists i | 0 <= i < |c.resolved| :: c.resolved[i].request == r) then c
    else if c.inFlight == Some(r) then Replace(Settle(c.(inFlight := None), r, Failure(TimedOut)))
    else Settle(c.(pending := Without(c.pending, r)), r, Failure(TimedOut))
  }

  function FailAll(c: Client, rs: seq<nat>): Client
    decreases |rs|
  {
    if rs == [] then c else FailAll(Settle(c, rs[0], Failure(HostOffline)), rs[1..])
  }

  /** The close handler and its `failRequests`. */
  function CloseOn(c: Client, g: nat): Client {
    if g != c.generation then c
    else
      var shut := c.(closed := true, authenticated := false, inFlight := None, pending := []);
      FailAll(if c.inFlight.Some? then Settle(shut, c.inFlight.value, Failure(HostOffline)) else shut, c.pending)
  }

  function After(c: Client, h: Happening): Client {
    match h
    case Called(luck) => Call(c, luck)
    case Opened(g) => if g != c.generation || c.closed then c else c.(open := true)
    case Ready(g, luck) =>
      if g != c.generation || c.closed || c.authenticated then c else Dispatch(c.(authenticated := true), luck)
    case Answered(g, reset, luck) => TakeFrame(c, g, reset, luck)
    case TimerFired(r) => TimeOut(c, r)
    case Closing(g) => if g != c.generation then c else c.(open := false)
    case SocketClosed(g) => CloseOn(c, g)
  }

  function Run(hs: seq<Happening>): Client {
    if hs == [] then FRESH else After(Run(hs[..|hs| - 1]), hs[|hs| - 1])
  }

  // ---------------------------------------------------------------- what every run keeps

  predicate Increasing(xs: seq<nat>) {
    forall i, j | 0 <= i < j < |xs| :: xs[i] < xs[j]
  }

  predicate Resolved(c: Client, r: nat) {
    exists i | 0 <= i < |c.resolved| :: c.resolved[i].request == r
  }

  /** Every call is queued, in flight or resolved, and only one of the three. */
  predicate Accounted(c: Client) {
    && Increasing(c.pending)
    && (forall r | r in c.pending :: r < c.next && !Resolved(c, r) && c.inFlight != Some(r))
    && (c.inFlight.Some? ==> c.inFlight.value < c.next && !Resolved(c, c.inFlight.value))
    && (forall i | 0 <= i < |c.resolved| :: c.resolved[i].request < c.next)
    && (forall r: nat | r < c.next :: r in c.pending || c.inFlight == Some(r) || Resolved(c, r))
  }

  /** No request is resolved twice, and data only ever answers the request it resolves. */
  predicate Correlated(c: Client) {
    && (forall i, j | 0 <= i < j < |c.resolved| :: c.resolved[i].request != c.resolved[j].request)
    && (forall i | 0 <= i < |c.resolved| && c.resolved[i].value.Data? :: c.resolved[i].value.answerTo == c.resolved[i].request)
  }

  /** On the current socket everything but the request in flight has been answered. */
  predicate Aligned(c: Client) {
    && c.generation in c.lines
    && (c.inFlight.Some? ==> c.authenticated && !c.closed)
    && (c.closed ==> c.pending == [])
    && (!c.closed ==>
        var line := c.lines[c.generation];
        if c.inFlight.Some? then |line.sent| == line.answered + 1 && line.sent[line.answered] == c.inFlight.value
        else line.answered == |line.sent|)
  }

  /** Frames go out in the order of the calls, each at most once over all sockets. */
  predicate SentInOrder(c: Client) {
    && (forall g | g in c.lines :: g <= c.generation && Increasing(c.lines[g].sent) && BelowAll(c.lines[g].sent, c.pending, c.next))
    && (forall f, g | f in c.lines && g in c.lines && f < g :: AllBelow(c.lines[f].sent, c.lines[g].sent))
  }

  predicate AllBelow(xs: seq<nat>, ys: seq<nat>) {
    forall i, j | 0 <= i < |xs| && 0 <= j < |ys| :: xs[i] < ys[j]
  }

  /** Everything sent comes before everything queued, and was called. */
  predicate BelowAll(sent: seq<nat>, pending: seq<nat>, next: nat) {
    AllBelow(sent, pending) && forall i | 0 <= i < |sent| :: sent[i] < next
  }

  predicate Sound(c: Client) {
    Accounted(c) && Correlated(c) && Aligned(c) && SentInOrder(c)
  }

  /** The state between two handlers: nothing in flight, nothing owed on the current socket, `r` belongs nowhere. */
  predicate Missing(c: Client, r: nat) {
    && Increasing(c.pending) && r < c.next && !Resolved(c, r) && r !in c.pending && c.inFlight.None?
    && (forall q | q in c.pending :: q < c.next && !Resolved(c, q))
    && (forall i | 0 <= i < |c.resolved| :: c.resolved[i].request < c.next)
    && (forall q: nat | q < c.next && q != r :: q in c.pending || Resolved(c, q))
  }

  lemma SettleResolves(c: Client, r: nat, v: Value)
    requires !Resolved(c, r)
    ensures forall q: nat :: Resolved(Settle(c, r, v), q) <==> Resolved(c, q) || q == r
    ensures Correlated(c) && (v.Data? ==> v.answerTo == r) ==> Correlated(Settle(c, r, v))
  {
    var d := Settle(c, r, v);
    assert d.resolved == c.resolved + [Resolution(r, v)];
    forall q: nat | Resolved(c, q) ensures Resolved(d, q) {
      var i :| 0 <= i < |c.resolved| && c.resolved[i].request == q;
      assert d.resolved[i].request == q;
    }
    assert d.resolved[|c.resolved|].request == r;
  }

  lemma SettledIsAccounted(c: Client, r: nat, v: Value)
    requires Missing(c, r)
    ensures Accounted(Settle(c, r, v))
  {
    SettleResolves(c, r, v);
  }

  lemma ReplacedIsAligned(c: Client)
    requires c.inFlight.None? && !c.closed && SentInOrder(c) && c.generation in c.lines
    ensures Aligned(Replace(c)) && SentInOrder(Replace(c))
  {
  }

  lemma FailedIsSound(c: Client, r: nat, code: FailureCode)
    requires Missing(c, r) && Correlated(c) && SentInOrder(c) && !c.closed && c.generation in c.lines
    ensures Sound(Replace(Settle(c, r, Failure(code))))
  {
    SettledIsAccounted(c, r, Failure(code));
    SettleResolves(c, r, Failure(code));
    ReplacedIsAligned(Settle(c, r, Failure(code)));
  }

  lemma SentLine(sent: seq<nat>, r: nat, rest: seq<nat>, next: nat)
    requires Increasing(sent) && BelowAll(sent, [r] + rest, next) && Increasing([r] + rest) && r < next
    ensures Increasing(sent + [r]) && BelowAll(sent + [r], rest, next)
  {
    var all := [r] + rest;
    assert all[0] == r && forall j | 0 <= j < |rest| :: all[j + 1] == rest[j];
  }

  lemma OtherLine(sent: seq<nat>, r: nat, rest: seq<nat>, next: nat)
    requires BelowAll(sent, [r] + rest, next)
    ensures BelowAll(sent, rest, next) && forall i | 0 <= i < |sent| :: sent[i] < r
  {
    var all := [r] + rest;
    assert all[0] == r && forall j | 0 <= j < |rest| :: all[j + 1] == rest[j];
  }

  lemma BelowMore(xs: seq<nat>, ys: seq<nat>, r: nat)
    requires AllBelow(xs, ys) && forall i | 0 <= i < |xs| :: xs[i] < r
    ensures AllBelow(xs, ys + [r])
  {
  }

  lemma SentIsOrdered(c: Client, r: nat)
    requires SentInOrder(c) && Aligned(c) && c.pending != [] && r == c.pending[0] && Increasing(c.pending) && r < c.next
    ensures SentInOrder(SendOn(c.(pending := c.pending[1..], inFlight := Some(r)), r))
  {
    hide Increasing, BelowAll, AllBelow;
    var rest, g := c.pending[1..], c.generation;
    assert c.pending == [r] + rest;
    var d := SendOn(c.(pending := rest, inFlight := Some(r)), r);
    SentLine(c.lines[g].sent, r, rest, c.next);
    forall f | f in c.lines ensures BelowAll(c.lines[f].sent, rest, c.next) && forall i | 0 <= i < |c.lines[f].sent| :: c.lines[f].sent[i] < r {
      OtherLine(c.lines[f].sent, r, rest, c.next);
    }
    forall f | f in c.lines && f < g ensures AllBelow(c.lines[f].sent, d.lines[g].sent) {
      BelowMore(c.lines[f].sent, c.lines[g].sent, r);
    }
  }

  lemma HeadAndRest(pending: seq<nat>)
    requires Increasing(pending) && pending != []
    ensures Increasing(pending[1..]) && pending[0] in pending
    ensures forall q :: q in pending <==> q == pending[0] || q in pending[1..]
    ensures forall q | q in pending[1..] :: q > pending[0]
  {
    assert pending == [pending[0]] + pending[1..];
  }

  lemma SameResolutions(c: Client, d: Client)
    requires d.resolved == c.resolved
    ensures forall q: nat :: Resolved(d, q) <==> Resolved(c, q)
  {
  }

  lemma SentIsAccounted(c: Client, r: nat)
    requires Accounted(c) && c.inFlight.None? && c.pending != [] && r == c.pending[0]
    ensures Accounted(SendOn(c.(pending := c.pending[1..], inFlight := Some(r)), r))
  {
    hide Resolved, Increasing;
    HeadAndRest(c.pending);
    SameResolutions(c, SendOn(c.(pending := c.pending[1..], inFlight := Some(r)), r));
  }

  lemma SentIsSound(c: Client)
    requires Sound(c) && c.inFlight.None? && c.authenticated && !c.closed && c.pending != []
    ensures Sound(SendOn(c.(pending := c.pending[1..], inFlight := Some(c.pending[0])), c.pending[0]))
  {
    var r := c.pending[0];
    assert r in c.pending;
    SentIsOrdered(c, r);
    SentIsAccounted(c, r);
    hide Accounted, SentInOrder;
  }

  lemma TakenIsMissing(c: Client)
    requires Accounted(c) && c.inFlight.None? && c.pending != []
    ensures Missing(c.(pending := c.pending[1..]), c.pending[0])
  {
    var d := c.(pending := c.pending[1..]);
    assert c.pending == [c.pending[0]] + c.pending[1..];
    assert forall q: nat :: Resolved(d, q) <==> Resolved(c, q);
    assert c.pending[0] in c.pending;
  }

  lemma DispatchKeeps(c: Client, luck: Luck)
    requires Sound(c)
    ensures Sound(Dispatch(c, luck))
  {
    if c.inFlight.None? && c.authenticated && c.open && c.pending != [] {
      if luck.policy && luck.send {
        SentIsSound(c);
      } else {
        TakenIsMissing(c);
        assert forall q | q in c.pending[1..] :: q in c.pending;
        FailedIsSound(c.(pending := c.pending[1..]), c.pending[0], HostOffline);
      }
    }
  }

  lemma QueuedIsAccounted(c: Client)
    requires Accounted(c)
    ensures Accounted(c.(next := c.next + 1, pending := c.pending + [c.next]))
  {
    var queued := c.(next := c.next + 1, pending := c.pending + [c.next]);
    assert forall q: nat :: Resolved(queued, q) <==> Resolved(c, q);
    assert forall i | 0 <= i < |c.pending| :: c.pending[i] in c.pending;
    assert forall q: nat :: q in queued.pending <==> q in c.pending || q == c.next;
    NextIsUnresolved(c);
    hide Resolved;
  }

  lemma NextIsUnresolved(c: Client)
    requires Accounted(c)
    ensures !Resolved(c, c.next)
  {
  }

  lemma BelowNext(sent: seq<nat>, pending: seq<nat>, next: nat)
    requires BelowAll(sent, pending, next)
    ensures BelowAll(sent, pending + [next], next + 1)
  {
  }

  lemma QueuedIsSound(c: Client)
    requires Sound(c) && !c.closed
    ensures Sound(c.(next := c.next + 1, pending := c.pending + [c.next]))
  {
    QueuedIsAccounted(c);
    forall g | g in c.lines ensures BelowAll(c.lines[g].sent, c.pending + [c.next], c.next + 1) {
      BelowNext(c.lines[g].sent, c.pending, c.next);
    }
    hide Accounted, BelowAll, AllBelow, Increasing;
  }

  lemma RefusedIsSound(c: Client)
    requires Sound(c) && c.closed
    ensures Sound(Settle(c.(next := c.next + 1), c.next, Failure(HostOffline)))
  {
    var called := c.(next := c.next + 1);
    assert forall q: nat :: Resolved(called, q) <==> Resolved(c, q);
    SettledIsAccounted(called, c.next, Failure(HostOffline));
    SettleResolves(called, c.next, Failure(HostOffline));
  }

  lemma CallKeeps(c: Client, luck: Luck)
    requires Sound(c)
    ensures Sound(Call(c, luck))
  {
    hide Sound, Dispatch, Settle;
    if c.closed {
      RefusedIsSound(c);
    } else {
      QueuedIsSound(c);
      DispatchKeeps(c.(next := c.next + 1, pending := c.pending + [c.next]), luck);
    }
  }

  /** What arrives while a request is in flight is the answer to that very request. */
  lemma NextAnswerIsInFlight(c: Client, g: nat)
    requires Sound(c) && g == c.generation && !c.closed && c.lines[g].answered < |c.lines[g].sent|
    ensures c.inFlight == Some(c.lines[g].sent[c.lines[g].answered])
  {
  }

  lemma FinishedIsMissing(c: Client, lines: map<nat, Line>)
    requires Accounted(c) && c.inFlight.Some?
    ensures Missing(c.(inFlight := None, lines := lines), c.inFlight.value)
  {
    assert forall q: nat :: Resolved(c.(inFlight := None, lines := lines), q) <==> Resolved(c, q);
  }

  lemma CountedIsAccounted(c: Client, g: nat)
    requires Accounted(c) && g in c.lines
    ensures Accounted(Counted(c, g))
  {
    assert forall q: nat :: Resolved(Counted(c, g), q) <==> Resolved(c, q);
    hide Resolved;
  }

  lemma CountedKeepsRest(c: Client, g: nat)
    requires Sound(c) && g in c.lines && c.lines[g].answered < |c.lines[g].sent|
    ensures Accounted(Counted(c, g)) && Correlated(Counted(c, g)) && SentInOrder(Counted(c, g))
    ensures g != c.generation || c.closed ==> Aligned(Counted(c, g))
  {
    CountedIsAccounted(c, g);
    hide Accounted, Correlated;
    assert forall f | f in c.lines :: Counted(c, g).lines[f].sent == c.lines[f].sent;
  }

  lemma FinishedKeeps(c: Client, idle: Client, reset: bool, luck: Luck)
    requires Accounted(c) && Correlated(c) && SentInOrder(c) && c.inFlight.Some? && !c.closed && idle == c.(inFlight := None)
    requires c.generation in c.lines && c.lines[c.generation].answered == |c.lines[c.generation].sent|
    ensures Sound(TakeResult(c, Data(c.inFlight.value), reset, luck))
  {
    var r := c.inFlight.value;
    FinishedIsMissing(c, c.lines);
    assert idle == c.(inFlight := None, lines := c.lines);
    if reset {
      var settled := Settle(idle, r, Data(r));
      SettledIsAccounted(idle, r, Data(r));
      SettleResolves(idle, r, Data(r));
      assert settled == idle.(resolved := settled.resolved);
      assert Correlated(settled) && Aligned(settled) && SentInOrder(settled);
      hide Sound, Accounted, Correlated, SentInOrder, Resolved;
      DispatchKeeps(settled, luck);
    } else {
      FailedIsSound(idle, r, HostOffline);
    }
  }

  lemma TakeFrameKeeps(c: Client, g: nat, reset: bool, luck: Luck)
    requires Sound(c)
    ensures Sound(TakeFrame(c, g, reset, luck))
  {
    if g in c.lines && c.lines[g].answered < |c.lines[g].sent| {
      CountedKeepsRest(c, g);
      if g == c.generation && !c.closed {
        NextAnswerIsInFlight(c, g);
        FinishedKeeps(Counted(c, g), Counted(c, g).(inFlight := None), reset, luck);
      }
    }
    hide Accounted, Correlated, SentInOrder, TakeResult;
  }

  lemma ConsIncreasing(x: nat, xs: seq<nat>)
    requires Increasing(xs) && forall q | q in xs :: x < q
    ensures Increasing([x] + xs)
  {
    assert forall i | 0 <= i < |xs| :: xs[i] in xs;
  }

  lemma {:induction false} WithoutRemoves(xs: seq<nat>, x: nat)
    requires Increasing(xs)
    ensures Increasing(Without(xs, x)) && forall q :: q in Without(xs, x) <==> q in xs && q != x
  {
    if xs != [] {
      var rest := xs[1..];
      assert xs == [xs[0]] + rest;
      if xs[0] != x {
        WithoutRemoves(rest, x);
        ConsIncreasing(xs[0], Without(rest, x));
      } else {
        assert x !in rest;
      }
    }
  }

  lemma BelowFewer(sent: seq<nat>, pending: seq<nat>, fewer: seq<nat>, next: nat)
    requires BelowAll(sent, pending, next) && forall q | q in fewer :: q in pending
    ensures BelowAll(sent, fewer, next)
  {
    forall i, j | 0 <= i < |sent| && 0 <= j < |fewer| ensures sent[i] < fewer[j] {
      assert fewer[j] in pending;
      var k :| 0 <= k < |pending| && pending[k] == fewer[j];
    }
  }

  lemma DequeuedIsSound(c: Client, r: nat)
    requires Sound(c) && r < c.next && !Resolved(c, r) && c.inFlight != Some(r)
    ensures Sound(Settle(c.(pending := Without(c.pending, r)), r, Failure(TimedOut)))
  {
    WithoutRemoves(c.pending, r);
    var d := c.(pending := Without(c.pending, r));
    assert forall q: nat :: Resolved(d, q) <==> Resolved(c, q);
    SettleResolves(d, r, Failure(TimedOut));
    forall g | g in c.lines ensures BelowAll(c.lines[g].sent, d.pending, c.next) {
      BelowFewer(c.lines[g].sent, c.pending, d.pending, c.next);
    }
    hide Resolved, BelowAll, AllBelow, Without;
  }

  lemma TimeOutKeeps(c: Client, r: nat)
    requires Sound(c)
    ensures Sound(TimeOut(c, r))
  {
    hide SentInOrder, Correlated;
    if r < c.next && !Resolved(c, r) {
      if c.inFlight == Some(r) {
        FinishedIsMissing(c, c.lines);
        assert c.(inFlight := None, lines := c.lines) == c.(inFlight := None);
        OnlyInFlight(c);
        FailedIsSound(c.(inFlight := None), r, TimedOut);
      } else {
        DequeuedIsSound(c, r);
      }
    }
  }

  /** Neither invariant reads the request in flight. */
  lemma OnlyInFlight(c: Client)
    requires Correlated(c) && SentInOrder(c)
    ensures Correlated(c.(inFlight := None)) && SentInOrder(c.(inFlight := None))
  {
  }

  lemma SettleAppends(c: Client, r: nat, v: Value)
    requires r < c.next && forall i | 0 <= i < |c.resolved| :: c.resolved[i].request < c.next
    ensures var d := Settle(c, r, v);
      d == c.(resolved := d.resolved) && forall i | 0 <= i < |d.resolved| :: d.resolved[i].request < d.next
  {
  }

  lemma {:induction false} FailAllResolves(c: Client, rs: seq<nat>)
    requires Correlated(c) && Increasing(rs) && forall r | r in rs :: !Resolved(c, r) && r < c.next
    requires forall i | 0 <= i < |c.resolved| :: c.resolved[i].request < c.next
    ensures var d := FailAll(c, rs);
      && Correlated(d) && d == c.(resolved := d.resolved) && (forall i | 0 <= i < |d.resolved| :: d.resolved[i].request < d.next)
      && forall q: nat :: Resolved(d, q) <==> Resolved(c, q) || q in rs
    decreases |rs|
  {
    if rs != [] {
      HeadAndRest(rs);
      SettleResolves(c, rs[0], Failure(HostOffline));
      SettleAppends(c, rs[0], Failure(HostOffline));
      hide Resolved, Correlated, Increasing, Settle;
      FailAllResolves(Settle(c, rs[0], Failure(HostOffline)), rs[1..]);
    }
  }

  lemma CloseKeeps(c: Client, g: nat)
    requires Sound(c)
    ensures Sound(CloseOn(c, g))
  {
    if g == c.generation {
      var shut := c.(closed := true, authenticated := false, inFlight := None, pending := []);
      assert forall q: nat :: Resolved(shut, q) <==> Resolved(c, q);
      if c.inFlight.Some? { SettleResolves(shut, c.inFlight.value, Failure(HostOffline)); }
      FailAllResolves(if c.inFlight.Some? then Settle(shut, c.inFlight.value, Failure(HostOffline)) else shut, c.pending);
    }
  }

  lemma AfterKeeps(c: Client, h: Happening)
    requires Sound(c)
    ensures Sound(After(c, h))
  {
    match h {
      case Called(luck) => CallKeeps(c, luck);
      case Opened(g) => assert forall q: nat :: Resolved(c.(open := true), q) <==> Resolved(c, q);
      case Ready(g, luck) =>
        var ready := c.(authenticated := true);
        assert forall q: nat :: Resolved(ready, q) <==> Resolved(c, q);
        if g == c.generation && !c.closed && !c.authenticated { DispatchKeeps(ready, luck); }
      case Answered(g, reset, luck) => TakeFrameKeeps(c, g, reset, luck);
      case TimerFired(r) => TimeOutKeeps(c, r);
      case Closing(g) => assert forall q: nat :: Resolved(c.(open := false), q) <==> Resolved(c, q);
      case SocketClosed(g) => CloseKeeps(c, g);
    }
  }

  /**
    * In every run, whatever times out, reconnects, closes, fails to send or arrives late on an old socket: each
    * call is queued, in flight or resolved; none is resolved twice; host data only resolves the call it
    * answers; at most one call is in flight; and frames go out once, in the order of the calls.
    */
  lemma {:induction false} EveryRunIsSound(hs: seq<Happening>)
    ensures Sound(Run(hs))
  {
    if hs != [] {
      EveryRunIsSound(hs[..|hs| - 1]);
      AfterKeeps(Run(hs[..|hs| - 1]), hs[|hs| - 1]);
    }
  }

  // ---------------------------------------------------------------- the object

  /** The fields of `HostClient` the queue lives in, updated in place. `lines` is the host's, for the record. */
  class HostClient {
    var closed: bool
    var authenticated: bool
    var open: bool
    var socketGeneration: nat
    var pendingRequests: seq<nat>
    var inFlightRequest: Option<nat>
    var next: nat
    var resolved: seq<Resolution>
    ghost var lines: map<nat, Line>

    ghost function Value(): Client
      reads this
    {
      Client(closed, authenticated, open, socketGeneration, pendingRequests, inFlightRequest, next, resolved, lines)
    }

    constructor ()
      ensures Value() == FRESH
    {
      closed, authenticated, open, socketGeneration := false, false, false, 1;
      pendingRequests, inFlightRequest, next, resolved := [], None, 0, [];
      lines := map[1 := Line([], 0)];
    }

    method SettleRequest(r: nat, v: Value)
      modifies this`resolved
      ensures Value() == Settle(old(Value()), r, v)
    {
      if exists i | 0 <= i < |resolved| :: resolved[i].request == r { return; }
      resolved := resolved + [Resolution(r, v)];
    }

    method ReplaceTimedOutConnection()
      modifies this
      ensures Value() == Replace(old(Value()))
    {
      if closed { return; }
      socketGeneration, authenticated, open := socketGeneration + 1, false, false;
      lines := lines[socketGeneration := Line([], 0)];
    }

    method DispatchNextRequest(luck: Luck)
      modifies this
      ensures Value() == Dispatch(old(Value()), luck)
    {
      if inFlightRequest.Some? || !authenticated || !open || pendingRequests == [] { return; }
      var request := pendingRequests[0];
      pendingRequests := pendingRequests[1..];
      inFlightRequest := Some(request);
      if !luck.policy || !luck.send {
        inFlightRequest := None;
        SettleRequest(request, Failure(HostOffline));
        ReplaceTimedOutConnection();
      } else if socketGeneration in lines {
        lines := lines[socketGeneration := lines[socketGeneration].(sent := lines[socketGeneration].sent + [request])];
      }
    }

    method EnqueueResultFrame(luck: Luck)
      modifies this
      ensures Value() == Call(old(Value()), luck)
    {
      var request := next;
      next := next + 1;
      if closed {
        SettleRequest(request, Failure(HostOffline));
      } else {
        pendingRequests := pendingRequests + [request];
        DispatchNextRequest(luck);
      }
    }

    method HandleRequestResult(v: Value, reset: bool, luck: Luck)
      modifies this
      ensures Value() == TakeResult(old(Value()), v, reset, luck)
    {
      if inFlightRequest.None? { return; }
      var request := inFlightRequest.value;
      inFlightRequest := None;
      if !reset {
        SettleRequest(request, Failure(HostOffline));
        ReplaceTimedOutConnection();
      } else {
        SettleRequest(request, v);
        DispatchNextRequest(luck);
      }
    }

    /** `indexOf` and `splice` of a queued request. */
    method Dequeue(r: nat)
      modifies this`pendingRequests
      ensures Value() == old(Value()).(pending := Without(old(pendingRequests), r))
    {
      var i := 0;
      while i < |pendingRequests| && pendingRequests[i] != r
        invariant i <= |pendingRequests|
        invariant Without(pendingRequests, r) == pendingRequests[..i] + Without(pendingRequests[i..], r)
      {
        assert pendingRequests[i..][1..] == pendingRequests[i + 1..];
        i := i + 1;
      }
      if i < |pendingRequests| {
        assert pendingRequests[i..][1..] == pendingRequests[i + 1..];
        pendingRequests := pendingRequests[..i] + pendingRequests[i + 1..];
      } else {
        assert pendingRequests[..i] + Without([], r) == pendingRequests;
      }
    }

    method HandleRequestTimeout(r: nat)
      requires r < next
      modifies this
      ensures Value() == TimeOut(old(Value()), r)
    {
      if exists i | 0 <= i < |resolved| :: resolved[i].request == r { return; }
      if inFlightRequest == Some(r) {
        inFlightRequest := None;
        SettleRequest(r, Failure(TimedOut));
        ReplaceTimedOutConnection();
      } else {
        Dequeue(r);
        SettleRequest(r, Failure(TimedOut));
      }
    }

    /** The close handler of socket `g`. */
    method OnClose(g: nat)
      modifies this
      ensures Value() == CloseOn(old(Value()), g)
    {
      if g != socketGeneration { return; }
      closed, authenticated := true, false;
      var queued := pendingRequests;
      ghost var before := Value();
      pendingRequests := [];
      if inFlightRequest.Some? {
        var request := inFlightRequest.value;
        inFlightRequest := None;
        SettleRequest(request, Failure(HostOffline));
      }
      ghost var failing := Value();
      for i := 0 to |queued|
        invariant FailAll(failing, queued) == FailAll(Value(), queued[i..])
      {
        assert queued[i..][0] == queued[i] && queued[i..][1..] == queued[i + 1..];
        SettleRequest(queued[i], Failure(HostOffline));
      }
    }
  }
}
