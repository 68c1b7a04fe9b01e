/**
  * Concrete runs of the failover system, put together scene by scene: a community with a founder and one
  * replica, registrations at its bridges, disconnects, votes, promotions and restarts.
  */
module Scenes {
  import opened Community
  import opened Quorums
  import opened BridgeLedger
  import opened Bridge
  import opened BridgeInvariants
  import opened WitnessFloor
  import opened HostWriter
  import opened Coordinator
  import opened Failover
  import opened TimedSystem
  import RegistrationQuorum

  // ---------------------------------------------------------------- films

  /** A run so far: its states, the steps between them, and where it has got to. */
  datatype Film = Film(run: seq<Sys>, steps: seq<Step>, last: Sys)

  /** Which steps of a run need not be on time. */
  datatype Leeway = Strictly | ButRevocations | ButStaleResumes

  /** Timely and unopposed, only that a bridge of the acknowledgement set served the host too long ago. */
  predicate StaleResume(p: Params, s: Sys, t: Step) {
    t.GetAck? && s.now - t.ack.at <= p.delay && ResumesUnopposed(p, s, t) && !ResumesFresh(p, s, t)
  }

  predicate Passes(p: Params, but: Leeway, s: Sys, t: Step) {
    (but.ButRevocations? && t.RevokeGrant?) || (but.ButStaleResumes? && StaleResume(p, s, t))
  }

  /** The film starts as a community does, and its step to state `i` was possible, and on time unless `but` lets it pass. */
  ghost predicate GoesOn(p: Params, f: Film, founder: HostId, but: Leeway, i: nat)
    requires |f.run| == |f.steps| + 1 && i <= |f.steps|
  {
    if i == 0 then Init(p, f.run[0], founder, 1)
    else Next(p, f.run[i - 1], f.run[i], f.steps[i - 1]) && (OnTime(p, f.run[i - 1], f.steps[i - 1]) || Passes(p, but, f.run[i - 1], f.steps[i - 1]))
  }

  ghost predicate Shot(p: Params, f: Film, founder: HostId, but: Leeway) {
    && |f.run| == |f.steps| + 1 && f.last == f.run[|f.steps|]
    && forall i | 0 <= i <= |f.steps| :: GoesOn(p, f, founder, but, i)
  }

  function Extended(f: Film, t: Step, s: Sys): Film {
    Film(f.run + [s], f.steps + [t], s)
  }

  lemma Shoot(p: Params, f: Film, founder: HostId, but: Leeway, t: Step, s: Sys)
    requires Shot(p, f, founder, but) && Next(p, f.last, s, t) && (OnTime(p, f.last, t) || Passes(p, but, f.last, t))
    ensures Shot(p, Extended(f, t, s), founder, but)
  {
    hide Next, OnTime, Init, Passes;
    var g := Extended(f, t, s);
    forall i | 0 <= i <= |g.steps| ensures GoesOn(p, g, founder, but, i) {
      if i <= |f.steps| { assert GoesOn(p, f, founder, but, i); }
    }
  }

  lemma ShotIsRun(p: Params, f: Film, founder: HostId, but: Leeway)
    requires Shot(p, f, founder, but)
    ensures IsRun(p, f.run, f.steps, founder, 1) && f.run[|f.steps|] == f.last
    ensures forall i | 0 <= i < |f.steps| :: OnTime(p, f.run[i], f.steps[i]) || Passes(p, but, f.run[i], f.steps[i])
  {
    hide Next, OnTime, Init, Passes;
    assert GoesOn(p, f, founder, but, 0);
    forall i | 0 <= i < |f.steps|
      ensures Next(p, f.run[i], f.run[i + 1], f.steps[i]) && (OnTime(p, f.run[i], f.steps[i]) || Passes(p, but, f.run[i], f.steps[i]))
    {
      assert GoesOn(p, f, founder, but, i + 1);
    }
  }

  // ---------------------------------------------------------------- the cast

  const FOREVER := 1_000_000_000
  const START := 1

  /** A fresh nonce or request id. */
  function Word(n: nat): (w: string)
    ensures |w| == n
  {
    seq(n, i requires 0 <= i < n => 'n')
  }

  /** The access token every bridge issues to the founder. */
  const TOKEN: string := Word(32)

  function GrantFor(p: Params, h: HostId): Grant {
    Grant(p.scope.authority, p.scope.server, h, h, h, {CanRegister, CanReplicate, CanPromote}, W(p), 1, FOREVER)
  }

  function FounderDb(p: Params, a: HostId): Db {
    Db(1, 0, Some(Row(RowWriter, a, 1, Floor([W(p)], true))), None, None, [], 0, NoHash, map[])
  }

  /** The host that created the community and writes at epoch one. */
  function Founder(p: Params, a: HostId): Host {
    Host(Boot(GrantFor(p, a), false, W(p)), FounderDb(p, a), true, None, None)
  }

  /** Its replica, which follows it and trusts the bridges. */
  function Follower(p: Params, a: HostId, b: HostId): Host {
    Host(Boot(GrantFor(p, b), true, W(p)), Db(1, 0, None, Some(a), Some(W(p)), [], 0, NoHash, map[]), false, None, None)
  }

  function Opening(p: Params, a: HostId, b: HostId): Sys {
    Sys(START, map i | i in W(p) :: Restart(EMPTY), map[a := Started(Founder(p, a), START), b := Started(Follower(p, a, b), START)],
        Wires(map[], {}, {}), Net({}, {}, {}, {}, {}, {}), Elections(map[], {}, {}, {}, {}), Timers(map[a := START, b := START], map[a := START, b := START]),
        History(map[1 := a], map[1 := START], {}, map[], map[], map[a := [Renewal(START, map[])]], map[], map[]))
  }

  predicate CastOk(p: Params, a: HostId, b: HostId) {
    ParamsOk(p) && a != b && |a| >= 1 && |b| >= 1
  }

  lemma FloorIsConfigured(p: Params)
    requires ParamsOk(p)
    ensures Normal(Floor([W(p)], true)) && Compute(Floor([W(p)], true), [Bridges(W(p)), Bridges(W(p)), Bridges(W(p))]) == Floor([W(p)], true)
  {
    var one, f := Bridges(W(p)), Floor([W(p)], true);
    assert AsCandidates(f.sets) == [one];
    assert [one] + [one, one, one] == [one, one, one, one];
    assert Add(Floor([], true), one) == f;
    assert Add(f, one) == f;
    assert [one, one, one, one][1..] == [one, one, one] && [one, one, one][1..] == [one, one] && [one, one][1..] == [one] && [one][1..] == [];
    assert AddAll(f, [one]) == AddAll(f, []) && AddAll(f, [one, one]) == AddAll(f, [one]) && AddAll(f, [one, one, one]) == AddAll(f, [one, one]);
  }

  lemma CastFits(p: Params, a: HostId, b: HostId)
    requires CastOk(p, a, b)
    ensures HostFits(p, a, Founder(p, a)) && HostFits(p, b, Follower(p, a, b))
  {
    FloorIsConfigured(p);
  }

  lemma OpeningIsInit(p: Params, a: HostId, b: HostId)
    requires CastOk(p, a, b)
    ensures Init(p, Opening(p, a, b), a, 1)
  {
    hide HostFits, Normal, PersistedFloor;
    CastFits(p, a, b);
    var s := Opening(p, a, b);
    assert s.timers == Timers(map h | h in s.nodes :: s.now, map h | h in s.nodes :: s.now);
  }

  lemma OpensAs(p: Params, a: HostId, b: HostId, but: Leeway) returns (f: Film)
    requires CastOk(p, a, b)
    ensures Shot(p, f, a, but) && f == Film([Opening(p, a, b)], [], Opening(p, a, b))
  {
    hide Init, Opening;
    OpeningIsInit(p, a, b);
    f := Film([Opening(p, a, b)], [], Opening(p, a, b));
  }

  // ---------------------------------------------------------------- the founder's registration

  /** The record the founder signs first, and again after a restart at the same moment. */
  function FirstRecord(p: Params, a: HostId): HostRecord {
    HostRecord(a, p.scope.server, a, a, Primary, 1, 1, NoHash, START, RECORD_TTL_MS, START + RECORD_TTL_MS)
  }

  function FirstFrame(p: Params, a: HostId): Frame {
    Frame(p.scope.authority, GrantFor(p, a), FirstRecord(p, a), None, TOKEN)
  }

  function FirstMark(p: Params, a: HostId): Mark {
    Mark(KeyOf(p, a), 1, 1, HashOf(FirstRecord(p, a)), a, 1, Primary)
  }

  function Credential(p: Params, a: HostId): Access {
    Access(AccessKey(KeyOf(p, a), Registration), TOKEN, a, 1, FOREVER)
  }

  function Knowing(p: Params, a: HostId, votes: map<ElectionKey, Vote>): Ledger {
    Ledger(map[], map[], map[KeyOf(p, a) := FirstMark(p, a)], votes, map[Credential(p, a).key := Credential(p, a)])
  }

  /** A bridge that has the founder's first record, with the given sockets and votes. */
  function Registered(p: Params, a: HostId, sockets: Sockets, votes: map<ElectionKey, Vote>): BridgeState {
    BridgeState(Knowing(p, a, votes),
                map[KeyOf(p, a) := Stored(FirstRecord(p, a), GrantFor(p, a), START + RECORD_TTL_MS)], sockets, Challenges(map[], map[]))
  }

  function Away(p: Params, a: HostId, since: int): Sockets {
    Sockets(map[], map[], map[KeyOf(p, a) := since])
  }

  function Here(p: Params, a: HostId, k: Socket): Sockets {
    Sockets(map[KeyOf(p, a) := k], map[k := Bridge.Binding(KeyOf(p, a), a, 1, START + RECORD_TTL_MS)], map[])
  }

  /** What a registration scene may start from: a bridge that knows nobody, or one the founder has left. */
  ghost predicate Registrable(p: Params, a: HostId, v: BridgeState, votes: map<ElectionKey, Vote>) {
    (v == Restart(EMPTY) && votes == map[]) || exists since :: v == Registered(p, a, Away(p, a, since), votes)
  }

  lemma AwayIsRegistrable(p: Params, a: HostId, v: BridgeState, since: int, votes: map<ElectionKey, Vote>)
    requires v == Registered(p, a, Away(p, a, since), votes)
    ensures Registrable(p, a, v, votes)
  {
  }

  function KnownAt(p: Params, a: HostId, v: BridgeState): Option<Mark> {
    if v.ledger.marks == map[] then None else Some(FirstMark(p, a))
  }

  function WithCredential(p: Params, a: HostId, v: BridgeState): BridgeState {
    v.(ledger := v.ledger.(access := v.ledger.access[Credential(p, a).key := Credential(p, a)]))
  }

  predicate Early(now: int) { START <= now < START + RECORD_TTL_MS }

  lemma NothingToClean(p: Params, a: HostId, v: BridgeState, votes: map<ElectionKey, Vote>, now: int)
    requires Registrable(p, a, v, votes) && Early(now)
    ensures Cleanup(WithCredential(p, a, v), now) == WithCredential(p, a, v)
  {
    var u := WithCredential(p, a, v);
    UnbindNothing(u.sockets, now);
    assert ExpiredSockets(u.sockets, now) == {};
    assert DropOverdue(u.challenges, now) == u.challenges;
    assert UnexpiredAccess(u.ledger.access, now) == u.ledger.access;
    assert (map k | k in u.records && u.records[k].expiresAt > now :: u.records[k]) == u.records;
  }

  lemma FrameIsFaultless(p: Params, a: HostId, v: BridgeState, votes: map<ElectionKey, Vote>, c: Config, now: int)
    requires ParamsOk(p) && |a| >= 1 && Registrable(p, a, v, votes) && Early(now)
    ensures RegistrationFault(WithCredential(p, a, v), FirstFrame(p, a), KnownAt(p, a, v), c, now).None?
    ensures KnownPrimary(v.ledger.marks, p.scope, KnownAt(p, a, v))
  {
    var u, f := WithCredential(p, a, v), FirstFrame(p, a);
    assert FrameScope(f) == p.scope && FrameKey(f) == KeyOf(p, a);
    if v == Restart(EMPTY) {
      assert ScopeRecords(u.records, p.scope) == {};
    } else {
      assert KeyOf(p, a) in u.ledger.marks && u.ledger.marks[KeyOf(p, a)] == FirstMark(p, a);
      assert RepeatsMark(f, FirstMark(p, a));
      assert !RaisesEpoch(u.ledger.marks, p.scope, 1);
    }
  }

  function Challenged(p: Params, a: HostId, v: BridgeState, k: Socket, n: nat, now: int): BridgeState {
    WithCredential(p, a, v).(challenges := Challenges(
      map[k := Pending(Word(1), Word(n), now, now + REGISTRATION_CHALLENGE_TTL_MS, KeyOf(p, a), FirstFrame(p, a))], map[KeyOf(p, a) := k]))
  }

  lemma BeginChallenges(p: Params, a: HostId, v: BridgeState, votes: map<ElectionKey, Vote>, k: Socket, c: Config, n: nat, now: int)
    requires ParamsOk(p) && |a| >= 1 && Registrable(p, a, v, votes) && Early(now) && k.host == a
    ensures Begin(WithCredential(p, a, v), k, Word(1), FirstFrame(p, a), KnownAt(p, a, v), c, Word(n), now) == (Challenged(p, a, v, k, n, now), None)
  {
    NothingToClean(p, a, v, votes, now);
    FrameIsFaultless(p, a, v, votes, c, now);
    var u, f := WithCredential(p, a, v), FirstFrame(p, a);
    assert AccessValid(u.ledger, f, now) by {
      assert AccessKey(FrameKey(f), Registration) == Credential(p, a).key;
    }
    hide Cleanup, RegistrationFault;
    assert map[k := Pending(Word(1), Word(n), now, now + REGISTRATION_CHALLENGE_TTL_MS, FrameKey(f), f)]
      == u.challenges.pending[k := Pending(Word(1), Word(n), now, now + REGISTRATION_CHALLENGE_TTL_MS, FrameKey(f), f)];
    assert u.challenges.claims[FrameKey(f) := k] == map[KeyOf(p, a) := k];
  }

  function AnswerTo(p: Params, a: HostId, n: nat, now: int): Proof {
    Proof(a, Word(n), HashOf(FirstRecord(p, a)), a, now, now + 1)
  }

  /** The proof registers the socket, whether or not the bridge already had the record. */
  lemma ProofRegisters(p: Params, a: HostId, v: BridgeState, votes: map<ElectionKey, Vote>, k: Socket, c: Config, n: nat, now: int)
    requires ParamsOk(p) && |a| >= 1 && Registrable(p, a, v, votes) && Early(now) && k.host == a
    ensures Prove(Challenged(p, a, v, k, n, now), k, Word(1), AnswerTo(p, a, n, now), KnownAt(p, a, v), c, now, true)
      == (Registered(p, a, Here(p, a, k), votes), None)
  {
    var u, f := Challenged(p, a, v, k, n, now), FirstFrame(p, a);
    FaultIgnoresChallenges(p, a, v, votes, k, c, n, now);
    assert ProofValid(u.challenges.pending[k], AnswerTo(p, a, n, now), now);
    var w := Cleared(u, k);
    assert w.challenges == Challenges(map[], map[]);
    ClearedCommits(p, a, v, votes, w, k, now);
    hide RegistrationFault, Commit, ProofValid;
  }

  lemma FaultIgnoresChallenges(p: Params, a: HostId, v: BridgeState, votes: map<ElectionKey, Vote>, k: Socket, c: Config, n: nat, now: int)
    requires ParamsOk(p) && |a| >= 1 && Registrable(p, a, v, votes) && Early(now)
    ensures RegistrationFault(Challenged(p, a, v, k, n, now), FirstFrame(p, a), KnownAt(p, a, v), c, now).None?
  {
    FrameIsFaultless(p, a, v, votes, c, now);
    var u, w := Challenged(p, a, v, k, n, now), WithCredential(p, a, v);
    assert u.ledger == w.ledger && u.records == w.records;
    SameFault(u, w, FirstFrame(p, a), KnownAt(p, a, v), c, now);
  }

  lemma SameFault(u: BridgeState, w: BridgeState, f: Frame, known: Option<Mark>, c: Config, now: int)
    requires u.ledger == w.ledger && u.records == w.records
    ensures RegistrationFault(u, f, known, c, now) == RegistrationFault(w, f, known, c, now)
  {
  }

  lemma BindsHere(p: Params, a: HostId, s: Sockets, k: Socket, now: int)
    requires s.ofHost == map[] && s.hostOf == map[] && s.disconnectedAt.Keys <= {KeyOf(p, a)}
    ensures Rebind(s, k, Bridge.Binding(KeyOf(p, a), a, 1, START + RECORD_TTL_MS), now) == Here(p, a, k)
  {
    assert Unbind(s, k, now) == s && Evict(s, KeyOf(p, a), k, now) == s;
    assert s.ofHost[KeyOf(p, a) := k] == map[KeyOf(p, a) := k];
    assert s.disconnectedAt - {KeyOf(p, a)} == map[];
  }

  lemma ClearedCommits(p: Params, a: HostId, v: BridgeState, votes: map<ElectionKey, Vote>, w: BridgeState, k: Socket, now: int)
    requires |a| >= 1 && Registrable(p, a, v, votes) && Early(now) && k.host == a
    requires w == WithCredential(p, a, v)
    ensures Commit(w, k, FirstFrame(p, a), now, true) == (Registered(p, a, Here(p, a, k), votes), None)
  {
    hide Rebind;
    var f := FirstFrame(p, a);
    assert FrameKey(f) == KeyOf(p, a) && FrameMark(f) == FirstMark(p, a);
    assert FrameBinding(f, now) == Bridge.Binding(KeyOf(p, a), a, 1, START + RECORD_TTL_MS);
    assert RecordExpiry(f, now) == START + RECORD_TTL_MS;
    BindsHere(p, a, w.sockets, k, now);
    assert w.ledger.access == map[Credential(p, a).key := Credential(p, a)];
    if v == Restart(EMPTY) {
      assert WithMark(w.ledger, FrameMark(f)).marks == map[KeyOf(p, a) := FirstMark(p, a)];
      assert w.records[FrameKey(f) := Stored(f.record, f.grant, RecordExpiry(f, now))].Keys == {KeyOf(p, a)};
    } else {
      assert Idempotent(w.ledger.marks, f);
      assert w.ledger == Knowing(p, a, votes);
      var out := Admit(w, w.ledger, k, f, now);
      assert Commit(w, k, f, now, true) == (out, None);
      assert out.records == Registered(p, a, Here(p, a, k), votes).records;
      assert out.sockets == Here(p, a, k);
    }
  }

  // ---------------------------------------------------------------- what scenes start from

  predicate HostMay(p: Params, s: Sys, t: Step) { IsHostStep(t) && t.host in s.nodes && HostEnabled(p, s, t) }

  predicate BridgeMay(p: Params, s: Sys, t: Step) {
    IsBridgeStep(t) && BridgeOf(t) in s.bridges && BridgeOf(t) in p.configs && BridgeEnabled(p, s, t)
  }

  predicate BridgeIs(s: Sys, i: BridgeId, v: BridgeState) { i in s.bridges && s.bridges[i] == v }

  predicate LinkedBy(s: Sys, a: HostId, k: Socket) { a in s.nodes && Linked(s.nodes[a], k) }

  /** The founder has no connection on the socket's line, and the socket is a new one. */
  predicate Dialable(p: Params, s: Sys, a: HostId, k: Socket) {
    && a in s.nodes && k.host == a && k.bridge in W(p) && k.bridge in s.bridges
    && k.bridge !in s.nodes[a].links && IsNewer(s.wires, k) && k !in s.wires.seen
  }

  /** What a registration asks of the messages; `n` is the length of the nonce. */
  predicate Challengeable(p: Params, s: Sys, a: HostId, n: nat) {
    FirstRecord(p, a) in s.net.records && NonceUnused(s.net, n) && Early(s.now)
  }

  predicate MayPass(p: Params, s: Sys, now: int) {
    forall h | h in s.nodes && s.nodes[h].service.writer :: InTime(p, s.timers, h, now)
  }

  predicate LongGone(p: Params, i: BridgeId, since: int, now: int) {
    i in p.configs && since != 0 && now - since >= Grace(p.configs[i])
  }

  predicate Follows(p: Params, s: Sys, a: HostId, b: HostId) { b in s.nodes && s.nodes[b].service == Follower(p, a, b) }

  predicate NonceUnused(net: Net, n: nat) {
    forall m | m in net.challenges :: |m.challenge| < n
  }

  // ---------------------------------------------------------------- scenes

  lemma UncutNothing(hist: History)
    ensures Uncut(hist, {}) == hist
  {
    assert hist.boundSince - {} == hist.boundSince;
  }

  lemma HostScene(p: Params, f: Film, a: HostId, but: Leeway, t: Step) returns (g: Film)
    requires Shot(p, f, a, but) && HostMay(p, f.last, t)
    requires OnTime(p, f.last, t) || Passes(p, but, f.last, t)
    ensures Shot(p, g, a, but) && g.last == HostAfter(p, f.last, t) && g == Extended(f, t, g.last)
  {
    hide Shot, HostEnabled, HostAfter, OnTime, Passes;
    g := Extended(f, t, HostAfter(p, f.last, t));
    Shoot(p, f, a, but, t, HostAfter(p, f.last, t));
  }

  lemma BridgeScene(p: Params, f: Film, a: HostId, but: Leeway, t: Step) returns (g: Film)
    requires Shot(p, f, a, but) && BridgeMay(p, f.last, t)
    requires (OnTime(p, f.last, t) || Passes(p, but, f.last, t))
    ensures Shot(p, g, a, but) && g.last == StepOfBridge(p, f.last, t)
  {
    hide Shot, BridgeEnabled, StepOfBridge, OnTime, Passes;
    g := Extended(f, t, StepOfBridge(p, f.last, t));
    Shoot(p, f, a, but, t, StepOfBridge(p, f.last, t));
  }

  /** The founder dials a bridge and the bridge sees the socket. */
  lemma Connect(p: Params, f: Film, a: HostId, but: Leeway, k: Socket) returns (g: Film)
    requires Shot(p, f, a, but) && Dialable(p, f.last, a, k)
    ensures Shot(p, g, a, but)
    ensures var s, w := f.last, f.last.wires;
      g.last == s.(nodes := s.nodes[a := Dial(s.nodes[a], k)], wires := Wires(w.newest[LineOf(k) := k], w.seen + {k}, w.alive + {k}))
  {
    hide Shot;
    var dialled := HostScene(p, f, a, but, DialUp(a, k));
    var s := dialled.last;
    var s' := s.(wires := s.wires.(seen := s.wires.seen + {k}, alive := s.wires.alive + {k}));
    Shoot(p, dialled, a, but, OpenSocket(k), s');
    g := Extended(dialled, OpenSocket(k), s');
  }

  /** The bridge issues the founder's credential. */
  lemma Admitted(p: Params, f: Film, a: HostId, but: Leeway, b: BridgeId) returns (g: Film)
    requires Shot(p, f, a, but) && b in f.last.bridges && b in p.configs
    ensures Shot(p, g, a, but)
    ensures g.last == f.last.(bridges := f.last.bridges[b := WithCredential(p, a, f.last.bridges[b])])
  {
    hide Shot;
    UncutNothing(f.last.history);
    var v := f.last.bridges[b];
    assert CutOff(v.sockets, WithCredential(p, a, v).sockets, f.last.wires.alive) == {};
    g := BridgeScene(p, f, a, but, IssueAccess(b, Credential(p, a)));
  }

  lemma Challenge(p: Params, f: Film, a: HostId, but: Leeway, v: BridgeState, votes: map<ElectionKey, Vote>, k: Socket, n: nat)
    returns (g: Film)
    requires Shot(p, f, a, but) && ParamsOk(p) && |a| >= 1 && k.bridge in p.configs && Registrable(p, a, v, votes)
    requires BridgeIs(f.last, k.bridge, WithCredential(p, a, v))
    requires k.host == a && k in f.last.wires.alive && Challengeable(p, f.last, a, n)
    ensures Shot(p, g, a, but)
    ensures var s := f.last;
      g.last == s.(bridges := s.bridges[k.bridge := Challenged(p, a, v, k, n, s.now)],
                    net := s.net.(challenges := s.net.challenges + {ChallengeMsg(k, Word(n), HashOf(FirstRecord(p, a)))}))
  {
    hide Shot, Begin, Cleanup, RegistrationFault;
    var s, u := f.last, WithCredential(p, a, v);
    var t := BeginReg(k.bridge, k, Word(1), FirstFrame(p, a), KnownAt(p, a, v), Word(n));
    BeginChallenges(p, a, v, votes, k, p.configs[k.bridge], n, s.now);
    FrameIsFaultless(p, a, v, votes, p.configs[k.bridge], s.now);
    assert CutOff(u.sockets, Challenged(p, a, v, k, n, s.now).sockets, s.wires.alive) == {};
    UncutNothing(s.history);
    g := BridgeScene(p, f, a, but, t);
  }

  lemma Respond(p: Params, f: Film, a: HostId, but: Leeway, k: Socket, n: nat) returns (g: Film)
    requires Shot(p, f, a, but) && LinkedBy(f.last, a, k)
    requires ChallengeMsg(k, Word(n), HashOf(FirstRecord(p, a))) in f.last.net.challenges
    ensures Shot(p, g, a, but)
    ensures var s := f.last;
      g.last == s.(net := s.net.(proofs := s.net.proofs + {ProofMsg(k, AnswerTo(p, a, n, s.now))}))
  {
    hide Shot;
    var s := f.last;
    g := HostScene(p, f, a, but, Answer(a, ChallengeMsg(k, Word(n), HashOf(FirstRecord(p, a))), AnswerTo(p, a, n, s.now)));
    assert s.nodes[a := s.nodes[a]] == s.nodes;
  }

  lemma Registers(p: Params, f: Film, a: HostId, but: Leeway, v: BridgeState, votes: map<ElectionKey, Vote>, k: Socket, n: nat)
    returns (g: Film)
    requires Shot(p, f, a, but) && ParamsOk(p) && |a| >= 1 && k.bridge in p.configs && Registrable(p, a, v, votes)
    requires BridgeIs(f.last, k.bridge, Challenged(p, a, v, k, n, f.last.now)) && Early(f.last.now)
    requires k.host == a && k in f.last.wires.alive && ProofMsg(k, AnswerTo(p, a, n, f.last.now)) in f.last.net.proofs
    ensures Shot(p, g, a, but)
    ensures var s := f.last;
      g.last == s.(bridges := s.bridges[k.bridge := Registered(p, a, Here(p, a, k), votes)],
                    net := s.net.(acks := s.net.acks + {AckMsg(k, FirstRecord(p, a), s.now)}),
                    history := Noted(s.history, k, s.now))
  {
    hide Shot, Prove, RegistrationFault;
    var s, u := f.last, Challenged(p, a, v, k, n, f.last.now);
    var t := ProveReg(k.bridge, Word(1), ProofMsg(k, AnswerTo(p, a, n, s.now)), KnownAt(p, a, v), true);
    ProofRegisters(p, a, v, votes, k, p.configs[k.bridge], n, s.now);
    FrameIsFaultless(p, a, v, votes, p.configs[k.bridge], s.now);
    assert CutOff(u.sockets, Here(p, a, k), s.wires.alive) == {};
    UncutNothing(s.history);
    g := BridgeScene(p, f, a, but, t);
  }

  function Connected(w: Wires, k: Socket): Wires {
    Wires(w.newest[LineOf(k) := k], w.seen + {k}, w.alive + {k})
  }

  /** The founder registers its first record on a new socket; `n` is the length of the nonce. */
  lemma Register(p: Params, f: Film, a: HostId, but: Leeway, v: BridgeState, votes: map<ElectionKey, Vote>, k: Socket, n: nat)
    returns (g: Film)
    requires Shot(p, f, a, but) && ParamsOk(p) && |a| >= 1 && Dialable(p, f.last, a, k) && Challengeable(p, f.last, a, n)
    requires BridgeIs(f.last, k.bridge, v) && Registrable(p, a, v, votes)
    ensures Shot(p, g, a, but)
    ensures var s, s' := f.last, g.last;
      && s' == Sys(s.now, s.bridges[k.bridge := Registered(p, a, Here(p, a, k), votes)], s.nodes[a := Dial(s.nodes[a], k)],
                   Connected(s.wires, k), s'.net, s.elections, s.timers, Noted(s.history, k, s.now))
      && s'.net == s.net.(challenges := s.net.challenges + {ChallengeMsg(k, Word(n), HashOf(FirstRecord(p, a)))},
                          proofs := s'.net.proofs, acks := s.net.acks + {AckMsg(k, FirstRecord(p, a), s.now)})
  {
    hide Shot, WithCredential, Challenged, Registered, Registrable, FirstRecord;
    g := Connect(p, f, a, but, k);
    g := Admitted(p, g, a, but, k.bridge);
    g := Challenge(p, g, a, but, v, votes, k, n);
    g := Respond(p, g, a, but, k, n);
    g := Registers(p, g, a, but, v, votes, k, n);
  }

  /** A registered socket closes. */
  lemma Leave(p: Params, f: Film, a: HostId, but: Leeway, k: Socket, votes: map<ElectionKey, Vote>) returns (g: Film)
    requires Shot(p, f, a, but) && k.bridge in p.configs && k in f.last.wires.alive && k.host == a
    requires BridgeIs(f.last, k.bridge, Registered(p, a, Here(p, a, k), votes))
    ensures Shot(p, g, a, but)
    ensures var s := f.last;
      g.last == s.(bridges := s.bridges[k.bridge := Registered(p, a, Away(p, a, s.now), votes)],
                   wires := s.wires.(alive := s.wires.alive - {k}))
  {
    hide Shot;
    var s, v := f.last, f.last.bridges[k.bridge];
    var v' := Close(v, k, s.now);
    assert v' == Registered(p, a, Away(p, a, s.now), votes) by {
      var u := Unbind(v.sockets, k, s.now);
      assert u.ofHost == map[] && u.hostOf == map[] && u.disconnectedAt == map[KeyOf(p, a) := s.now];
    }
    assert CutOff(v.sockets, v'.sockets, s.wires.alive - {k}) == {};
    UncutNothing(s.history);
    g := BridgeScene(p, f, a, but, CloseSocket(k));
  }

  lemma Wait(p: Params, f: Film, a: HostId, but: Leeway, ms: nat) returns (g: Film)
    requires Shot(p, f, a, but) && MayPass(p, f.last, f.last.now + ms)
    ensures Shot(p, g, a, but) && g.last == f.last.(now := f.last.now + ms)
  {
    hide Shot;
    var s' := f.last.(now := f.last.now + ms);
    Shoot(p, f, a, but, Tick(ms), s');
    g := Extended(f, Tick(ms), s');
  }

  // ---------------------------------------------------------------- a writer's loops

  /** The founder writes at epoch one with a committed round for its first record. */
  predicate Writing(p: Params, a: HostId, n: Node) {
    && n.service.writer && n.observed && n.service.boot.configured == W(p)
    && n.round.Some? && n.round.value.record == FirstRecord(p, a) && n.round.value.committed
    && n.quorum.active == Some(BindingOf(FirstRecord(p, a)))
  }

  predicate Writes(p: Params, s: Sys, a: HostId) { a in s.nodes && Writing(p, a, s.nodes[a]) }

  /** The lease would still run at `now`. */
  predicate Young(p: Params, s: Sys, a: HostId, now: int) { a in s.nodes && now - s.nodes[a].lease < p.fence }

  predicate OnlyWriter(s: Sys, a: HostId) { forall h | h in s.nodes && h != a :: !s.nodes[h].service.writer }

  function Pulsed(n: Node, r: RoundId): Node {
    n.(quorum := n.quorum.(livenessRound := Some(r), live := {}), awaiting := map b | b in n.links :: r)
  }

  lemma PulsedWrites(p: Params, a: HostId, n: Node, r: RoundId)
    requires Writing(p, a, n)
    ensures LivenessTick(n, r) == Pulsed(n, r) && Writing(p, a, Pulsed(n, r))
  {
  }

  lemma PolledStays(p: Params, a: HostId, n: Node, now: int)
    requires Writing(p, a, n) && now - n.lease < p.fence
    ensures FenceTick(n, p.fence, true, now) == n
  {
  }

  lemma StartRound(p: Params, f: Film, a: HostId, but: Leeway, r: RoundId) returns (g: Film)
    requires Shot(p, f, a, but) && Writes(p, f.last, a) && r.host == a && r.startedAt == f.last.now
    ensures Shot(p, g, a, but)
    ensures var s := f.last;
      g.last == s.(nodes := s.nodes[a := Pulsed(s.nodes[a], r)], timers := s.timers.(pulsed := s.timers.pulsed[a := s.now]))
  {
    hide Shot, Writing, LivenessTick;
    PulsedWrites(p, a, f.last.nodes[a], r);
    g := HostScene(p, f, a, but, Pulse(a, r));
  }

  lemma PollOn(p: Params, f: Film, a: HostId, but: Leeway) returns (g: Film)
    requires Shot(p, f, a, but) && Writes(p, f.last, a) && Young(p, f.last, a, f.last.now)
    ensures Shot(p, g, a, but)
    ensures g.last == f.last.(timers := f.last.timers.(polled := f.last.timers.polled[a := f.last.now]))
  {
    hide Shot, Writing, FenceTick;
    PolledStays(p, a, f.last.nodes[a], f.last.now);
    g := HostScene(p, f, a, but, Poll(a, true));
    assert f.last.nodes[a := f.last.nodes[a]] == f.last.nodes;
  }

  function Echoed(n: Node, b: BridgeId, now: int): Node {
    var counted := n.(quorum := n.quorum.(live := n.quorum.live + {b}), awaiting := n.awaiting - {b});
    counted.(lease := if |counted.quorum.live| >= Threshold(|Targets(n)|) then now else n.lease)
  }

  /** The bridge of `k` acknowledged and still owes the pong of the running round. */
  predicate Expected(n: Node, k: Socket, r: RoundId) {
    && k.bridge in n.awaiting && n.awaiting[k.bridge] == r && n.quorum.livenessRound == Some(r)
    && k.bridge in n.quorum.acknowledged && Linked(n, k)
  }

  predicate Awaits(s: Sys, a: HostId, k: Socket, r: RoundId) { a in s.nodes && Expected(s.nodes[a], k, r) }

  lemma PongEchoes(p: Params, a: HostId, n: Node, k: Socket, r: RoundId, now: int)
    requires Writing(p, a, n) && Expected(n, k, r)
    ensures ReceivePong(n, k.bridge, r, now) == Echoed(n, k.bridge, now) && Writing(p, a, Echoed(n, k.bridge, now))
  {
  }

  /** What an answered ping changes. */
  predicate Heard(s: Sys, s': Sys, a: HostId, k: Socket) {
    && a in s.nodes
    && s' == s.(nodes := s.nodes[a := Echoed(s.nodes[a], k.bridge, s.now)], net := s.net.(pongs := s'.net.pongs), history := s'.history)
  }

  /** The bridge answers the ping of the running round, bound or not, and the writer counts it. */
  lemma Echo(p: Params, f: Film, a: HostId, but: Leeway, k: Socket, r: RoundId) returns (g: Film)
    requires Shot(p, f, a, but) && Writes(p, f.last, a) && Awaits(f.last, a, k, r)
    requires k.host == a && k.bridge in f.last.bridges && k in f.last.wires.alive && r.startedAt <= f.last.now
    ensures Shot(p, g, a, but) && Heard(f.last, g.last, a, k)
  {
    hide Shot, Writing, ReceivePong, Echoed, BoundTo, HistoryAfterHost;
    var s := f.last;
    PongEchoes(p, a, s.nodes[a], k, r, s.now);
    var bound := BoundTo(p, s.bridges[k.bridge].sockets, k);
    var m := PongMsg(k, r, s.now, bound);
    var s' := s.(net := s.net.(pongs := s.net.pongs + {m}),
                 history := if bound then s.history.(contacts := s.history.contacts + {Contact(k.bridge, k.host, s.now)}) else s.history);
    Shoot(p, f, a, but, AnswerPing(k, r), s');
    g := Extended(f, AnswerPing(k, r), s');
    g := HostScene(p, g, a, but, GetPong(a, m));
  }

  // ---------------------------------------------------------------- a writer joins a bridge

  function Asked(n: Node, k: Socket): Node { Publish(Dial(n, k), k.bridge) }

  /** The founder offers its record on the connection to `i`. */
  lemma Offer(p: Params, f: Film, a: HostId, but: Leeway, i: BridgeId) returns (g: Film)
    requires Shot(p, f, a, but) && a in f.last.nodes
    ensures Shot(p, g, a, but) && g.last == f.last.(nodes := f.last.nodes[a := Publish(f.last.nodes[a], i)])
  {
    hide Shot, Publish;
    g := HostScene(p, f, a, but, PublishTo(a, i));
  }

  /** A writer whose round for the first record is committed or can be. */
  predicate Acting(p: Params, a: HostId, n: Node) {
    && n.service.writer && n.service.resume.None? && n.observed && n.service.boot.configured == W(p)
    && n.round.Some? && n.round.value.record == FirstRecord(p, a)
    && (n.round.value.committed || (n.service.pending.Some? && n.service.pending.value.record == FirstRecord(p, a)))
    && n.quorum.active == Some(BindingOf(FirstRecord(p, a)))
  }

  predicate Acts(p: Params, s: Sys, a: HostId) { a in s.nodes && Acting(p, a, s.nodes[a]) }

  /** One bridge more has acknowledged, which renews the lease if that makes a strict majority. */
  predicate Joined(p: Params, a: HostId, n: Node, n': Node, k: Socket, now: int) {
    && Acting(p, a, n') && Writing(p, a, n')
    && n'.quorum == n.quorum.(acknowledged := n.quorum.acknowledged + {k.bridge}, live := n.quorum.live + {k.bridge})
    && n'.links == n.links[k.bridge := k] && n'.awaiting == n.awaiting - {k.bridge}
    && n'.lease == if |n'.quorum.live| >= Threshold(|W(p)|) then now else n.lease
  }

  lemma AckJoins(p: Params, a: HostId, n: Node, k: Socket, now: int)
    requires Acting(p, a, n) && k.bridge in W(p)
    ensures Joined(p, a, n, ReceiveAck(Asked(n, k), k.bridge, FirstRecord(p, a), true, now), k, now)
    ensures Linked(Asked(n, k), k) && Asked(n, k).service.writer
  {
    hide MayResume, Persist, FirstRecord;
    NoResume(n.service);
    NoResume(CommitRecord(n.service, HashOf(FirstRecord(p, a))));
  }

  lemma NoResume(x: Host)
    requires x.writer
    ensures forall b, acked, configured, granted :: Resume(x, b, acked, configured, granted) == x
  {
  }

  /** What joining a bridge changes. */
  predicate JoinedAt(p: Params, s: Sys, s': Sys, a: HostId, k: Socket, votes: map<ElectionKey, Vote>, n: nat) {
    && a in s.nodes && a in s'.nodes && Joined(p, a, s.nodes[a], s'.nodes[a], k, s.now)
    && s' == Sys(s.now, s.bridges[k.bridge := Registered(p, a, Here(p, a, k), votes)], s.nodes[a := s'.nodes[a]],
                 Connected(s.wires, k), s'.net, s.elections, s.timers, s'.history)
    && s'.net.records == s.net.records && s'.net.receipts == s.net.receipts && NonceUnused(s'.net, n + 1)
  }

  /** The writer registers at a bridge and counts its answer. */
  lemma Join(p: Params, f: Film, a: HostId, but: Leeway, v: BridgeState, votes: map<ElectionKey, Vote>, k: Socket, n: nat)
    returns (g: Film)
    requires Shot(p, f, a, but) && ParamsOk(p) && |a| >= 1 && Dialable(p, f.last, a, k) && Challengeable(p, f.last, a, n)
    requires BridgeIs(f.last, k.bridge, v) && Registrable(p, a, v, votes)
    requires Acts(p, f.last, a) && p.delay >= 0
    ensures Shot(p, g, a, but) && JoinedAt(p, f.last, g.last, a, k, votes, n)
  {
    hide Shot, FirstRecord, NonceUnused, IsNewer, ParamsOk, Registrable, Registered, Here, Acting, Joined, ReceiveAck, HistoryAfterHost;
    var s := f.last;
    AckJoins(p, a, s.nodes[a], k, s.now);
    JoinedWrites(p, a, s.nodes[a], ReceiveAck(Asked(s.nodes[a], k), k.bridge, FirstRecord(p, a), true, s.now), k, s.now);
    g := Register(p, f, a, but, v, votes, k, n);
    NonceUsed(s.net, g.last.net, k, n, HashOf(FirstRecord(p, a)));
    ActingHasRound(p, a, s.nodes[a]);
    g := Offer(p, g, a, but, k.bridge);
    assert g.last.nodes[a] == Asked(s.nodes[a], k);
    g := HostScene(p, g, a, but, GetAck(a, AckMsg(k, FirstRecord(p, a), s.now), true));
    assert g.last.nodes == s.nodes[a := g.last.nodes[a]];
  }

  lemma ActingHasRound(p: Params, a: HostId, n: Node)
    requires Acting(p, a, n)
    ensures n.round.Some? && n.round.value.record == FirstRecord(p, a)
  {
  }

  lemma JoinedWrites(p: Params, a: HostId, n: Node, n': Node, k: Socket, now: int)
    requires Joined(p, a, n, n', k, now)
    ensures n'.service.writer
  {
  }

  lemma NonceUsed(net: Net, net': Net, k: Socket, n: nat, h: RecordHash)
    requires NonceUnused(net, n) && net'.challenges == net.challenges + {ChallengeMsg(k, Word(n), h)}
    ensures NonceUnused(net', n + 1)
  {
  }
}
