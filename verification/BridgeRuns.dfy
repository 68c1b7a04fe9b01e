/**
  * Whole runs of one bridge: every change of its ledger is one logged event, the records it accepts
  * from each host form one chain, and each epoch is raised once, by the candidate it voted for.
  */
module BridgeRuns {
  import opened Community
  import opened BridgeLedger
  import opened Bridge
  import opened BridgeInvariants

  datatype Move =
    | BeginMove(ws: Socket, requestId: string, frame: Frame, known: Option<Mark>, challenge: string)
    | ProveMove(ws: Socket, requestId: string, proof: Proof, known: Option<Mark>, persisted: bool)
    | RevokeMove(revocation: Revocation, persisted: bool)
    | VoteMove(requestId: string, authority: Key, absence: AbsenceWitness, known: Option<Mark>, open: set<Socket>, persisted: bool)
    | AccessMove(credential: Access)
    | CloseMove(ws: Socket)
    | CleanupMove
    | RestartMove(access: map<AccessKey, Access>)

  /** The sort over the marks finds a head, the clock is past zero, and credentials sit under their keys. */
  predicate Enabled(s: BridgeState, m: Move, now: int) {
    match m
    case BeginMove(_, _, f, known, _) => KnownPrimary(s.ledger.marks, FrameScope(f), known)
    case ProveMove(ws, _, _, known, _) =>
      ws in s.challenges.pending ==> KnownPrimary(s.ledger.marks, FrameScope(s.challenges.pending[ws].frame), known)
    case VoteMove(_, authority, w, known, _, _) => now >= 1 && KnownPrimary(s.ledger.marks, Scope(authority, w.server), known)
    case RestartMove(access) => forall k | k in access :: access[k].key == k
    case _ => true
  }

  function Moved(c: Config, s: BridgeState, m: Move, now: int): BridgeState {
    match m
    case BeginMove(ws, requestId, f, known, challenge) => Begin(s, ws, requestId, f, known, c, challenge, now).0
    case ProveMove(ws, requestId, proof, known, persisted) => Prove(s, ws, requestId, proof, known, c, now, persisted).0
    case RevokeMove(r, persisted) => Revoke(s, r, now, persisted).0
    case VoteMove(requestId, authority, w, known, open, persisted) =>
      ClaimVote(s, requestId, authority, w, known, open, c, now, persisted).0
    case AccessMove(a) => s.(ledger := s.ledger.(access := s.ledger.access[a.key := a]))
    case CloseMove(ws) => Close(s, ws, now)
    case CleanupMove => Cleanup(s, now)
    case RestartMove(access) => Restart(s.ledger.(access := access))
  }

  lemma MovedIsValid(c: Config, s: BridgeState, m: Move, now: int)
    requires Valid(s) && Enabled(s, m, now)
    ensures Valid(Moved(c, s, m, now))
  {
    hide Valid, Begin, Prove, Revoke, ClaimVote, Close, Cleanup, Restart, KnownPrimary;
    match m {
      case BeginMove(ws, requestId, f, known, challenge) => BeginKeeps(s, ws, requestId, f, known, c, challenge, now);
      case ProveMove(ws, requestId, proof, known, persisted) => ProveKeeps(s, ws, requestId, proof, known, c, now, persisted);
      case RevokeMove(r, persisted) => RevokeKeeps(s, r, now, persisted);
      case VoteMove(requestId, authority, w, known, open, persisted) =>
        ClaimVoteKeeps(s, requestId, authority, w, known, open, c, now, persisted);
      case AccessMove(a) => IssuingKeeps(s, a);
      case CloseMove(ws) => CloseKeeps(s, ws, now);
      case CleanupMove => CleanupKeeps(s, now);
      case RestartMove(access) => RestartingKeeps(s, access);
    }
  }

  lemma IssuingKeeps(s: BridgeState, a: Access)
    requires Valid(s)
    ensures Valid(s.(ledger := s.ledger.(access := s.ledger.access[a.key := a])))
  {
  }

  lemma RestartingKeeps(s: BridgeState, access: map<AccessKey, Access>)
    requires Valid(s) && forall k | k in access :: access[k].key == k
    ensures Valid(Restart(s.ledger.(access := access)))
  {
    RestartValid(s.ledger.(access := access));
  }

  // ---------------------------------------------------------------- the ledger and its log

  /** The move changes nothing a log has to record. */
  predicate Unlogged(before: Ledger, after: Ledger) {
    after == before.(access := after.access)
  }

  /** The mark a successful proof adds, if it is not a repetition. */
  function NewFrame(c: Config, s: BridgeState, m: Move, now: int): Option<Frame> {
    if m.ProveMove? && m.ws in s.challenges.pending
      && Prove(s, m.ws, m.requestId, m.proof, m.known, c, now, m.persisted).1.None?
      && !Idempotent(s.ledger.marks, s.challenges.pending[m.ws].frame)
    then Some(s.challenges.pending[m.ws].frame) else None
  }

  function Logged(c: Config, s: BridgeState, m: Move, now: int): Option<Event> {
    match m
    case ProveMove(_, _, _, _, _) =>
      (match NewFrame(c, s, m, now) case None => None case Some(f) => Some(MarkEvent(FrameMark(f))))
    case RevokeMove(r, persisted) =>
      if JudgeRevocation(s.ledger, r).Accepted? && Revoke(s, r, now, persisted).1.None? then Some(RevocationEvent(r)) else None
    case VoteMove(requestId, authority, w, known, open, persisted) =>
      var ballot := WitnessBallot(w, Scope(authority, w.server), now);
      if ClaimVote(s, requestId, authority, w, known, open, c, now, persisted).1.Granted? && ballot.key !in s.ledger.votes
      then Some(VoteEvent(ballot)) else None
    case AccessMove(a) => Some(AccessEvent(a))
    case _ => None
  }

  lemma ProofIsLogged(c: Config, s: BridgeState, m: Move, now: int)
    requires m.ProveMove?
    ensures var s' := Moved(c, s, m, now);
      match NewFrame(c, s, m, now)
      case Some(f) =>
        && Accept(s.ledger, MarkEvent(FrameMark(f))) == Some(s'.ledger) && s'.ledger == WithMark(s.ledger, FrameMark(f))
        && m.ws in s.challenges.pending && s.challenges.pending[m.ws].frame == f
        && RegistrationFault(s, f, m.known, c, now).None? && FrameKey(f) in s'.ledger.marks
      case None => s'.ledger == s.ledger
  {
    hide RegistrationFault, ProofValid, Rebind, ClearPending, MarkAdvances;
    if NewFrame(c, s, m, now).Some? {
      ValidatedMarkIsAccepted(s, s.challenges.pending[m.ws].frame, m.known, c, now);
    }
  }

  lemma VoteIsLogged(c: Config, s: BridgeState, m: Move, now: int)
    requires m.VoteMove? && Valid(s) && Enabled(s, m, now)
    ensures var s' := Moved(c, s, m, now);
      match Logged(c, s, m, now)
      case Some(e) => Accept(s.ledger, e) == Some(s'.ledger)
      case None => s'.ledger == s.ledger
  {
    hide Absent, ClaimsAgree, SocketsAgree;
    if m.known.Some? { assert MarkShape(m.known.value); }
  }

  /** Every change of the ledger is one logged event, and replaying that event makes the same change. */
  lemma LedgerMovesByLoggedEvent(c: Config, s: BridgeState, m: Move, now: int)
    requires Valid(s) && Enabled(s, m, now)
    ensures var s' := Moved(c, s, m, now);
      match Logged(c, s, m, now)
      case Some(e) => Accept(s.ledger, e) == Some(s'.ledger)
      case None => Unlogged(s.ledger, s'.ledger)
  {
    hide Valid;
    if m.ProveMove? {
      hide Prove, Idempotent, MarkAdvances, KnownPrimary, RegistrationFault;
      ProofIsLogged(c, s, m, now);
    } else if m.VoteMove? {
      hide ClaimVote, KnownPrimary;
      VoteIsLogged(c, s, m, now);
    } else {
      hide KnownPrimary, RegistrationFault, AccessValid, UnbindAll, DropOverdue;
    }
  }

  // ---------------------------------------------------------------- whole runs

  predicate IsRun(c: Config, ss: seq<BridgeState>, ms: seq<Move>, times: seq<int>) {
    && |ss| == |ms| + 1 && |times| == |ms| && ss[0] == Restart(EMPTY)
    && forall i | 0 <= i < |ms| :: Enabled(ss[i], ms[i], times[i]) && ss[i + 1] == Moved(c, ss[i], ms[i], times[i])
  }

  lemma {:induction false} RunIsValid(c: Config, ss: seq<BridgeState>, ms: seq<Move>, times: seq<int>, i: nat)
    requires IsRun(c, ss, ms, times) && i < |ss|
    ensures Valid(ss[i])
  {
    hide Moved, Valid, Enabled;
    if i == 0 {
      RestartValid(EMPTY);
    } else {
      RunIsValid(c, ss, ms, times, i - 1);
      MovedIsValid(c, ss[i - 1], ms[i - 1], times[i - 1]);
    }
  }

  lemma MoveRemembers(c: Config, s: BridgeState, m: Move, now: int)
    requires Valid(s) && Enabled(s, m, now)
    ensures Remembers(Moved(c, s, m, now).ledger, s.ledger)
  {
    LedgerMovesByLoggedEvent(c, s, m, now);
    hide Moved, Enabled, Logged, SocketsAgree, ClaimsAgree, Accept;
    if Logged(c, s, m, now).Some? { AcceptRemembers(s.ledger, Logged(c, s, m, now).value); }
  }

  /** Over a run no vote changes, no revocation is withdrawn and no host's mark moves backwards. */
  lemma {:induction false} RunRemembers(c: Config, ss: seq<BridgeState>, ms: seq<Move>, times: seq<int>, i: nat, j: nat)
    requires IsRun(c, ss, ms, times) && i <= j < |ss|
    ensures Remembers(ss[j].ledger, ss[i].ledger)
    decreases j
  {
    hide Moved, Valid, Enabled, Remembers;
    if i < j {
      RunRemembers(c, ss, ms, times, i, j - 1);
      RunIsValid(c, ss, ms, times, j - 1);
      MoveRemembers(c, ss[j - 1], ms[j - 1], times[j - 1]);
      RemembersTransitive(ss[i].ledger, ss[j - 1].ledger, ss[j].ledger);
    } else {
      RemembersItself(ss[i].ledger);
    }
  }

  lemma RemembersItself(l: Ledger)
    ensures Remembers(l, l)
  {
  }

  // ---------------------------------------------------------------- the run and its log

  /** What the first `i` moves appended to the state file. */
  ghost function LogOf(c: Config, ss: seq<BridgeState>, ms: seq<Move>, times: seq<int>, i: nat): seq<Event>
    requires IsRun(c, ss, ms, times) && i <= |ms|
  {
    if i == 0 then []
    else match Logged(c, ss[i - 1], ms[i - 1], times[i - 1])
      case Some(e) => LogOf(c, ss, ms, times, i - 1) + [e]
      case None => LogOf(c, ss, ms, times, i - 1)
  }

  lemma AcceptIgnoresAccess(a: Ledger, b: Ledger, e: Event)
    requires Unlogged(a, b) && Accept(a, e).Some?
    ensures Accept(b, e).Some? && Unlogged(Accept(a, e).value, Accept(b, e).value)
  {
    if e.RevocationEvent? { assert JudgeRevocation(a, e.revocation) == JudgeRevocation(b, e.revocation); }
  }

  /** Replaying a run's log is never refused and gives its marks, revocations, votes and pairings. */
  lemma {:induction false} LogReplaysToLedger(c: Config, ss: seq<BridgeState>, ms: seq<Move>, times: seq<int>, i: nat)
    requires IsRun(c, ss, ms, times) && i <= |ms|
    ensures var replayed := Replay(LogOf(c, ss, ms, times, i));
      replayed.Some? && Unlogged(ss[i].ledger, replayed.value)
  {
    hide Moved, Enabled, Valid, Logged, Accept;
    if i > 0 {
      var s, m, now := ss[i - 1], ms[i - 1], times[i - 1];
      LogReplaysToLedger(c, ss, ms, times, i - 1);
      RunIsValid(c, ss, ms, times, i - 1);
      LedgerMovesByLoggedEvent(c, s, m, now);
      var log := LogOf(c, ss, ms, times, i - 1);
      if Logged(c, s, m, now).Some? {
        var e := Logged(c, s, m, now).value;
        ReplayConcat(EMPTY, log, [e]);
        ReplayOne(Replay(log).value, e);
        AcceptIgnoresAccess(s.ledger, Replay(log).value, e);
      }
    }
  }

  // ---------------------------------------------------------------- the chain of one host

  /** The registrations of host `key` newly accepted during the first `i` moves, in order. */
  ghost function Chain(c: Config, ss: seq<BridgeState>, ms: seq<Move>, times: seq<int>, key: HostKey, i: nat): seq<Frame>
    requires IsRun(c, ss, ms, times) && i <= |ms|
  {
    if i == 0 then []
    else
      var before := Chain(c, ss, ms, times, key, i - 1);
      match NewFrame(c, ss[i - 1], ms[i - 1], times[i - 1])
      case Some(f) => if FrameKey(f) == key then before + [f] else before
      case None => before
  }

  /** Sequence numbers count from one, each record names the hash of the one before, nothing ever falls. */
  predicate LinkedChain(chain: seq<Frame>) {
    forall j | 0 <= j < |chain| :: LinkedAt(chain, j)
  }

  predicate LinkedAt(chain: seq<Frame>, j: nat)
    requires j < |chain|
  {
    && chain[j].record.recordSeq == j + 1
    && chain[j].record.previous == (if j == 0 then NoHash else HashOf(chain[j - 1].record))
    && (j > 0 ==> chain[j - 1].record.epoch <= chain[j].record.epoch && chain[j - 1].grant.generation <= chain[j].grant.generation)
  }

  /** The bridge's mark is the head of the chain; a revocation may have raised its generation since. */
  predicate HeadedBy(marks: map<HostKey, Mark>, key: HostKey, chain: seq<Frame>) {
    if chain == [] then key !in marks
    else
      var head := chain[|chain| - 1];
      && key in marks && marks[key].recordSeq == |chain| && marks[key].recordHash == HashOf(head.record)
      && marks[key].epoch == head.record.epoch && marks[key].generation >= head.grant.generation
  }

  /** A registration that passes validation and is not a repetition follows its host's mark. */
  lemma ValidatedFollows(s: BridgeState, f: Frame, known: Option<Mark>, c: Config, now: int)
    requires RegistrationFault(s, f, known, c, now).None? && !Idempotent(s.ledger.marks, f)
    ensures f.record.recordSeq >= 1
    ensures if FrameKey(f) in s.ledger.marks then FollowsMark(f, s.ledger.marks[FrameKey(f)])
      else f.record.recordSeq == 1 && f.record.previous == NoHash
  {
    hide CertificateValid, GrantVerifies;
  }

  /** ... and so continues its chain. */
  lemma ValidatedContinues(s: BridgeState, f: Frame, known: Option<Mark>, c: Config, now: int, chain: seq<Frame>)
    requires RegistrationFault(s, f, known, c, now).None? && !Idempotent(s.ledger.marks, f)
    requires LinkedChain(chain) && HeadedBy(s.ledger.marks, FrameKey(f), chain)
    ensures LinkedChain(chain + [f]) && HeadedBy(WithMark(s.ledger, FrameMark(f)).marks, FrameKey(f), chain + [f])
  {
    hide RegistrationFault, Idempotent;
    ValidatedFollows(s, f, known, c, now);
    var longer := chain + [f];
    forall j | 0 <= j < |longer| ensures LinkedAt(longer, j) {
      if j < |chain| { assert LinkedAt(chain, j); }
    }
  }

  lemma OtherEventsKeepHead(l: Ledger, e: Event, key: HostKey, chain: seq<Frame>)
    requires Accept(l, e).Some? && HeadedBy(l.marks, key, chain) && (e.MarkEvent? ==> e.mark.key != key)
    ensures HeadedBy(Accept(l, e).value.marks, key, chain)
  {
    hide MarkAdvances, JudgeRevocation;
  }

  lemma UnloggedKeepsHead(a: Ledger, b: Ledger, key: HostKey, chain: seq<Frame>)
    requires Unlogged(a, b) && HeadedBy(a.marks, key, chain)
    ensures HeadedBy(b.marks, key, chain)
  {
  }

  lemma LoggedMarkIsNewFrame(c: Config, s: BridgeState, m: Move, now: int)
    ensures Logged(c, s, m, now).Some? && Logged(c, s, m, now).value.MarkEvent? ==>
      NewFrame(c, s, m, now).Some? && Logged(c, s, m, now).value.mark.key == FrameKey(NewFrame(c, s, m, now).value)
  {
    hide Revoke, ClaimVote, NewFrame;
  }

  /** A move that accepts nothing new from `key` leaves the head of its chain. */
  lemma OtherMovesKeepHead(c: Config, s: BridgeState, m: Move, now: int, key: HostKey, chain: seq<Frame>)
    requires Valid(s) && Enabled(s, m, now) && HeadedBy(s.ledger.marks, key, chain)
    requires NewFrame(c, s, m, now).Some? ==> FrameKey(NewFrame(c, s, m, now).value) != key
    ensures HeadedBy(Moved(c, s, m, now).ledger.marks, key, chain)
  {
    hide Moved, Enabled, Valid, NewFrame, Logged, Accept, HeadedBy, Unlogged, FrameKey;
    LedgerMovesByLoggedEvent(c, s, m, now);
    LoggedMarkIsNewFrame(c, s, m, now);
    match Logged(c, s, m, now) {
      case Some(e) => OtherEventsKeepHead(s.ledger, e, key, chain);
      case None => UnloggedKeepsHead(s.ledger, Moved(c, s, m, now).ledger, key, chain);
    }
  }

  /**
    * Across registrations, revocations, closes and restarts, the records a bridge accepts from one host
    * form a gap-free hash-linked chain from sequence one, and its mark is always the head of it.
    */
  lemma {:induction false} AcceptedRecordsFormChain(c: Config, ss: seq<BridgeState>, ms: seq<Move>, times: seq<int>, key: HostKey, i: nat)
    requires IsRun(c, ss, ms, times) && i <= |ms|
    ensures LinkedChain(Chain(c, ss, ms, times, key, i)) && HeadedBy(ss[i].ledger.marks, key, Chain(c, ss, ms, times, key, i))
  {
    hide Moved, Enabled, Valid, NewFrame, LinkedChain, HeadedBy, Idempotent, RegistrationFault, MarkAdvances;
    if i == 0 {
      EmptyChain(key);
    } else {
      var s, m, now := ss[i - 1], ms[i - 1], times[i - 1];
      AcceptedRecordsFormChain(c, ss, ms, times, key, i - 1);
      RunIsValid(c, ss, ms, times, i - 1);
      var chain := Chain(c, ss, ms, times, key, i - 1);
      if NewFrame(c, s, m, now).Some? && FrameKey(NewFrame(c, s, m, now).value) == key {
        var f := NewFrame(c, s, m, now).value;
        NewFrameIsNew(c, s, m, now);
        ProofIsLogged(c, s, m, now);
        ValidatedContinues(s, f, m.known, c, now, chain);
      } else {
        OtherMovesKeepHead(c, s, m, now, key, chain);
      }
    }
  }

  lemma NewFrameIsNew(c: Config, s: BridgeState, m: Move, now: int)
    requires NewFrame(c, s, m, now).Some?
    ensures m.ProveMove? && !Idempotent(s.ledger.marks, NewFrame(c, s, m, now).value)
  {
    hide Idempotent, Prove;
  }

  lemma EmptyChain(key: HostKey)
    ensures LinkedChain([]) && HeadedBy(map[], key, [])
  {
  }

  // ---------------------------------------------------------------- epochs of one scope

  /** One accepted record raises the highest epoch of its scope by at most one; every other move leaves the epochs alone. */
  lemma EpochRisesByOne(c: Config, s: BridgeState, m: Move, now: int, scope: Scope, top: nat)
    requires Valid(s) && Enabled(s, m, now)
    requires forall k | k in s.ledger.marks && k.scope == scope :: s.ledger.marks[k].epoch <= top
    ensures var marks := Moved(c, s, m, now).ledger.marks;
      && (forall k | k in marks && k.scope == scope :: marks[k].epoch <= top + 1)
      && (NewFrame(c, s, m, now).None? ==> forall k | k in marks && k.scope == scope :: marks[k].epoch <= top)
  {
    hide Moved, Enabled, Valid, NewFrame, MarkAdvances, RegistrationFault, Idempotent;
    if m.ProveMove? {
      ProofIsLogged(c, s, m, now);
      if NewFrame(c, s, m, now).Some? && FrameScope(NewFrame(c, s, m, now).value) == scope {
        ValidatedEpoch(s, NewFrame(c, s, m, now).value, m.known, c, now, top);
      }
    } else {
      OtherMovesKeepEpochs(c, s, m, now);
    }
  }

  lemma OtherMovesKeepEpochs(c: Config, s: BridgeState, m: Move, now: int)
    requires Valid(s) && Enabled(s, m, now) && !m.ProveMove?
    ensures var marks := Moved(c, s, m, now).ledger.marks;
      marks.Keys == s.ledger.marks.Keys && forall k | k in marks :: marks[k].epoch == s.ledger.marks[k].epoch
  {
    hide Moved, Enabled, Valid, Logged, Accept;
    LedgerMovesByLoggedEvent(c, s, m, now);
    OnlyProofsLogMarks(c, s, m, now);
    if Logged(c, s, m, now).Some? { OtherEventsKeepEpochs(s.ledger, Logged(c, s, m, now).value); }
  }

  lemma OnlyProofsLogMarks(c: Config, s: BridgeState, m: Move, now: int)
    ensures Logged(c, s, m, now).Some? && !m.ProveMove? ==> !Logged(c, s, m, now).value.MarkEvent?
  {
    hide Revoke, ClaimVote, NewFrame;
  }

  lemma OtherEventsKeepEpochs(l: Ledger, e: Event)
    requires Accept(l, e).Some? && !e.MarkEvent?
    ensures var marks := Accept(l, e).value.marks;
      marks.Keys == l.marks.Keys && forall k | k in marks :: marks[k].epoch == l.marks[k].epoch
  {
    hide JudgeRevocation;
  }

  lemma ValidatedEpoch(s: BridgeState, f: Frame, known: Option<Mark>, c: Config, now: int, top: nat)
    requires RegistrationFault(s, f, known, c, now).None?
    requires forall k | k in s.ledger.marks && k.scope == FrameScope(f) :: s.ledger.marks[k].epoch <= top
    ensures f.record.epoch <= top + 1
  {
    hide CertificateValid, RegistrationVerifies, FollowsMark, RepeatsMark;
  }

  /** The move accepted a primary record above every epoch its community had at this bridge. */
  predicate Raises(c: Config, s: BridgeState, m: Move, now: int, scope: Scope, epoch: nat, host: HostId) {
    var accepted := NewFrame(c, s, m, now);
    accepted.Some? && accepted.value.record.role.Primary? && RaisesEpoch(s.ledger.marks, scope, epoch)
    && FrameKey(accepted.value) == HostKey(scope, host) && accepted.value.record.epoch == epoch
  }

  /** In a community the bridge already knows, an epoch is only raised by the candidate it durably voted for. */
  lemma RaiserHasTheVote(c: Config, s: BridgeState, m: Move, now: int, scope: Scope, epoch: nat, host: HostId)
    requires Raises(c, s, m, now, scope, epoch, host) && !NoMarks(s.ledger.marks, scope) && Enabled(s, m, now)
    ensures var k := ElectionKey(scope, epoch); k in s.ledger.votes && s.ledger.votes[k].candidate == host
  {
    ProofIsLogged(c, s, m, now);
    var f := NewFrame(c, s, m, now).value;
    hide NewFrame, Moved;
    CertificateHoldsOwnVote(s, f, m.known, c, now);
  }

  lemma CertificateHoldsOwnVote(s: BridgeState, f: Frame, known: Option<Mark>, c: Config, now: int)
    requires RegistrationFault(s, f, known, c, now).None? && f.record.role.Primary?
    requires !NoMarks(s.ledger.marks, FrameScope(f)) && RaisesEpoch(s.ledger.marks, FrameScope(f), f.record.epoch)
    requires KnownPrimary(s.ledger.marks, FrameScope(f), known)
    ensures var k := ElectionKey(FrameScope(f), f.record.epoch);
      k in s.ledger.votes && s.ledger.votes[k].candidate == f.record.hostId
  {
    assert CertificateValid(f, known, s.ledger.marks, c, s.ledger.votes, now);
    hide RegistrationFault, RegistrationVerifies;
    var items := f.certificate.value;
    var i :| 0 <= i < |items| && items[i].bridge == c.me;
    assert ReceiptSupports(items[i], f, known.value, c, s.ledger.votes, now);
  }

  /** Over a run each epoch of a community is raised at most once, so by at most one host. */
  lemma EachEpochIsRaisedOnce(c: Config, ss: seq<BridgeState>, ms: seq<Move>, times: seq<int>, i: nat, j: nat,
                              scope: Scope, epoch: nat, g: HostId, h: HostId)
    requires IsRun(c, ss, ms, times) && |ss| == |ms| + 1 && |times| == |ms| && i < |ms| && j < |ms|
    requires Raises(c, ss[i], ms[i], times[i], scope, epoch, g) && Raises(c, ss[j], ms[j], times[j], scope, epoch, h)
    ensures i == j && g == h
  {
    hide Moved, Enabled, IsRun, NewFrame, RaisesEpoch;
    if i < j {
      RaisedStays(c, ss, ms, times, i, j, scope, epoch, g);
    } else if j < i {
      RaisedStays(c, ss, ms, times, j, i, scope, epoch, h);
    }
  }

  lemma RaisedStays(c: Config, ss: seq<BridgeState>, ms: seq<Move>, times: seq<int>, i: nat, j: nat, scope: Scope, epoch: nat, g: HostId)
    requires IsRun(c, ss, ms, times) && |ss| == |ms| + 1 && |times| == |ms| && i < j < |ss|
    requires Raises(c, ss[i], ms[i], times[i], scope, epoch, g)
    ensures !RaisesEpoch(ss[j].ledger.marks, scope, epoch)
  {
    NewFrameIsNew(c, ss[i], ms[i], times[i]);
    RaisedMark(c, ss, ms, times, i, scope, epoch, g);
    hide Moved, Enabled, IsRun, Raises, NewFrame;
    RunRemembers(c, ss, ms, times, i + 1, j);
    assert HostKey(scope, g) in ss[j].ledger.marks && NotBehind(ss[j].ledger.marks[HostKey(scope, g)], ss[i + 1].ledger.marks[HostKey(scope, g)]);
  }

  lemma RaisedMark(c: Config, ss: seq<BridgeState>, ms: seq<Move>, times: seq<int>, i: nat, scope: Scope, epoch: nat, g: HostId)
    requires IsRun(c, ss, ms, times) && i < |ms| && ms[i].ProveMove?
    requires Raises(c, ss[i], ms[i], times[i], scope, epoch, g)
    ensures HostKey(scope, g) in ss[i + 1].ledger.marks && ss[i + 1].ledger.marks[HostKey(scope, g)].epoch == epoch
  {
    hide Moved, Enabled, NewFrame;
    ProofIsLogged(c, ss[i], ms[i], times[i]);
  }

  // ---------------------------------------------------------------- when a certificate is asked for

  /** The one rule that reads the certificate and the votes. */
  predicate NeedsCertificate(s: BridgeState, f: Frame) {
    !NoMarks(s.ledger.marks, FrameScope(f)) && f.record.role.Primary? && RaisesEpoch(s.ledger.marks, FrameScope(f), f.record.epoch)
  }

  /** Stripping the certificate from an acceptable registration matters exactly if it is a primary's and raises the epoch. */
  lemma CertificateMattersIff(s: BridgeState, f: Frame, known: Option<Mark>, c: Config, now: int)
    requires RegistrationFault(s, f, known, c, now).None?
    ensures RegistrationFault(s, f.(certificate := None), known, c, now).Some? <==> NeedsCertificate(s, f)
  {
    hide RegistrationVerifies;
  }

  /**
    * A vote does not bind the bridge against the old primary: whatever it registers at its own epoch is
    * judged as if there were no vote. This is why a writer suspended by a restart may still resume then.
    */
  lemma VoteDoesNotStopOldPrimary(s: BridgeState, v: Vote, f: Frame, known: Option<Mark>, c: Config, now: int)
    requires !NeedsCertificate(s, f)
    ensures RegistrationFault(s.(ledger := WithVote(s.ledger, v)), f, known, c, now) == RegistrationFault(s, f, known, c, now)
  {
    hide RegistrationVerifies, FollowsMark, RepeatsMark;
  }

  /** The first primary of a community needs nobody's vote: the initial checkpoint starts at epoch zero or one. */
  lemma FirstPrimaryNeedsNoVote(f: Frame, c: Config, now: int)
    requires f.authority != "" && WellFormedGrant(f.grant) && WellFormedRecord(f.record) && f.certificate.None?
    requires RegistrationVerifies(f.record, f.grant, f.authority, false, now)
    ensures RegistrationFault(Restart(EMPTY), f, None, c, now).None? <==>
      f.record.epoch <= 1 && f.record.recordSeq == 1 && f.record.previous == NoHash
  {
    hide RegistrationVerifies;
    assert ScopeRecords(map[], FrameScope(f)) == {};
  }

  // ---------------------------------------------------------------- revocation is final

  /** No record and no bound socket rests on a grant that has been revoked at its generation. */
  predicate NothingWithdrawn(s: BridgeState) {
    forall g | g in s.ledger.revocations :: NothingRestsOn(s.records, s.sockets.hostOf, s.ledger.revocations[g])
  }

  predicate NothingRestsOn(records: map<HostKey, Stored>, hostOf: map<Socket, Binding>, r: Revocation) {
    && (forall k | k in records :: !Withdraws(r, k.scope, records[k].grant.grantId, records[k].grant.generation))
    && (forall ws | ws in hostOf :: !Withdraws(r, hostOf[ws].key.scope, hostOf[ws].grantId, hostOf[ws].generation))
  }

  /** The same revocations, and no record or binding that was not there before. */
  predicate Thinner(s: BridgeState, s': BridgeState) {
    && s'.ledger.revocations == s.ledger.revocations
    && (forall k | k in s'.records :: k in s.records && s'.records[k] == s.records[k])
    && (forall ws | ws in s'.sockets.hostOf :: ws in s.sockets.hostOf && s'.sockets.hostOf[ws] == s.sockets.hostOf[ws])
  }

  lemma ThinnerKeeps(s: BridgeState, s': BridgeState)
    requires NothingWithdrawn(s) && Thinner(s, s')
    ensures NothingWithdrawn(s')
  {
    hide Withdraws;
    forall g | g in s'.ledger.revocations ensures NothingRestsOn(s'.records, s'.sockets.hostOf, s'.ledger.revocations[g]) {
      assert NothingRestsOn(s.records, s.sockets.hostOf, s.ledger.revocations[g]);
    }
  }

  /** A revocation takes away everything that rests on the grant, and nothing that was sound rests on an older one. */
  lemma RevokingWithdraws(s: BridgeState, r: Revocation, now: int)
    requires NothingWithdrawn(s)
    ensures NothingWithdrawn(ApplyRevocation(s, r, now))
  {
    hide Withdraws, Lost, Floored;
    var s' := ApplyRevocation(s, r, now);
    forall g | g in s'.ledger.revocations ensures NothingRestsOn(s'.records, s'.sockets.hostOf, s'.ledger.revocations[g]) {
      if g != r.key { assert NothingRestsOn(s.records, s.sockets.hostOf, s.ledger.revocations[g]); }
    }
  }

  /** Validation refuses a grant that is revoked at its generation. */
  lemma ValidatedIsNotRevoked(s: BridgeState, f: Frame, known: Option<Mark>, c: Config, now: int, g: GrantKey)
    requires RegistrationFault(s, f, known, c, now).None? && g in s.ledger.revocations && s.ledger.revocations[g].key == g
    ensures !Withdraws(s.ledger.revocations[g], FrameScope(f), f.grant.grantId, f.grant.generation)
  {
    hide CertificateValid, FollowsMark, RepeatsMark;
  }

  lemma AdmittingAdds(s: BridgeState, ledger: Ledger, ws: Socket, f: Frame, now: int, r: Revocation)
    requires NothingRestsOn(s.records, s.sockets.hostOf, r) && !Withdraws(r, FrameScope(f), f.grant.grantId, f.grant.generation)
    ensures NothingRestsOn(Admit(s, ledger, ws, f, now).records, Admit(s, ledger, ws, f, now).sockets.hostOf, r)
  {
    hide Withdraws, RecordExpiry;
  }

  /** What a commitment leaves: the record admitted, or nothing. */
  lemma CommitCases(s: BridgeState, ws: Socket, f: Frame, now: int, persisted: bool)
    ensures var s' := Commit(s, ws, f, now, persisted).0;
      s' == s || (s' == Admit(s, s'.ledger, ws, f, now) && s'.ledger.revocations == s.ledger.revocations)
  {
    hide Rebind, MarkAdvances, Idempotent, RecordExpiry, FrameBinding, FrameMark, FrameKey;
  }

  /** What a proof leaves: the record admitted after validation, or at most a challenge fewer. */
  lemma ProofCases(c: Config, s: BridgeState, m: Move, now: int)
    requires m.ProveMove?
    ensures var s' := Moved(c, s, m, now);
      || (s'.ledger == s.ledger && s'.records == s.records && s'.sockets == s.sockets)
      || (&& m.ws in s.challenges.pending
          && var f := s.challenges.pending[m.ws].frame;
          RegistrationFault(s, f, m.known, c, now).None? && s'.ledger.revocations == s.ledger.revocations
          && s' == Admit(Cleared(s, m.ws), s'.ledger, m.ws, f, now))
  {
    hide RegistrationFault, ProofValid, Commit, Admit, ClearPending;
    if m.ws in s.challenges.pending {
      CommitCases(Cleared(s, m.ws), m.ws, s.challenges.pending[m.ws].frame, now, m.persisted);
    }
  }

  lemma ProvingKeepsWithdrawn(c: Config, s: BridgeState, m: Move, now: int)
    requires m.ProveMove? && NothingWithdrawn(s) && WellKept(s.ledger)
    ensures NothingWithdrawn(Moved(c, s, m, now))
  {
    hide Moved, RegistrationFault, Admit, NothingRestsOn, Withdraws, Cleared;
    ProofCases(c, s, m, now);
    var s' := Moved(c, s, m, now);
    forall g | g in s'.ledger.revocations ensures NothingRestsOn(s'.records, s'.sockets.hostOf, s'.ledger.revocations[g]) {
      if s'.ledger != s.ledger || s'.records != s.records || s'.sockets != s.sockets {
        var f := s.challenges.pending[m.ws].frame;
        ValidatedIsNotRevoked(s, f, m.known, c, now, g);
        ClearingKeepsRest(s, m.ws);
        AdmittingAdds(Cleared(s, m.ws), s'.ledger, m.ws, f, now, s.ledger.revocations[g]);
      }
    }
  }

  lemma ClearingKeepsRest(s: BridgeState, ws: Socket)
    ensures Cleared(s, ws).records == s.records && Cleared(s, ws).sockets == s.sockets && Cleared(s, ws).ledger == s.ledger
  {
  }

  lemma SweepingIsThinner(s: BridgeState, now: int)
    ensures Thinner(s, Cleanup(s, now))
  {
    hide Lost, DropOverdue;
  }

  lemma BeginningIsThinner(c: Config, s: BridgeState, m: Move, now: int)
    requires m.BeginMove?
    ensures Thinner(s, Moved(c, s, m, now))
  {
    hide RegistrationFault, AccessValid, Cleanup, AddPending, FrameKey;
    SweepingIsThinner(s, now);
  }

  lemma OtherMovesAreThinner(c: Config, s: BridgeState, m: Move, now: int)
    requires !m.ProveMove? && !m.RevokeMove?
    ensures Thinner(s, Moved(c, s, m, now))
  {
    if m.BeginMove? {
      BeginningIsThinner(c, s, m, now);
    } else if m.CleanupMove? {
      SweepingIsThinner(s, now);
    }
    hide RegistrationFault, WitnessValid, Absent, SameBallot, ClearPending, Begin, Cleanup;
  }

  lemma MoveKeepsWithdrawn(c: Config, s: BridgeState, m: Move, now: int)
    requires NothingWithdrawn(s) && WellKept(s.ledger)
    ensures NothingWithdrawn(Moved(c, s, m, now))
  {
    hide Moved, NothingWithdrawn, WellKept, Thinner;
    if m.ProveMove? {
      ProvingKeepsWithdrawn(c, s, m, now);
    } else if m.RevokeMove? {
      RevokeMoveWithdraws(c, s, m, now);
    } else {
      OtherMovesAreThinner(c, s, m, now);
      ThinnerKeeps(s, Moved(c, s, m, now));
    }
  }

  lemma RevokeMoveWithdraws(c: Config, s: BridgeState, m: Move, now: int)
    requires m.RevokeMove? && NothingWithdrawn(s)
    ensures NothingWithdrawn(Moved(c, s, m, now))
  {
    hide NothingWithdrawn, ApplyRevocation, JudgeRevocation;
    RevokingWithdraws(s, m.revocation, now);
  }

  /** At no moment of a run does a record or a bound socket rest on a grant revoked at its generation. */
  lemma {:induction false} RevokedGrantsHoldNothing(c: Config, ss: seq<BridgeState>, ms: seq<Move>, times: seq<int>, i: nat)
    requires IsRun(c, ss, ms, times) && i < |ss|
    ensures NothingWithdrawn(ss[i])
  {
    hide Moved, Enabled, SocketsAgree, ClaimsAgree, NothingRestsOn, WellKept;
    if i > 0 {
      RevokedGrantsHoldNothing(c, ss, ms, times, i - 1);
      RunIsValid(c, ss, ms, times, i - 1);
      MoveKeepsWithdrawn(c, ss[i - 1], ms[i - 1], times[i - 1]);
    }
  }

  /** Once a grant has been revoked at some generation, no registration under it at that generation is ever accepted again. */
  lemma RevokedNeverRegistersAgain(c: Config, ss: seq<BridgeState>, ms: seq<Move>, times: seq<int>, i: nat, j: nat, g: GrantKey)
    requires IsRun(c, ss, ms, times) && |ss| == |ms| + 1 && |times| == |ms| && i <= j < |ms| && g in ss[i].ledger.revocations
    requires NewFrame(c, ss[j], ms[j], times[j]).Some?
    ensures var f := NewFrame(c, ss[j], ms[j], times[j]).value;
      FrameScope(f) != g.scope || f.grant.grantId != g.grantId || f.grant.generation > ss[i].ledger.revocations[g].generation
  {
    hide IsRun, Moved, NewFrame, RegistrationFault, SocketsAgree, ClaimsAgree;
    RunRemembers(c, ss, ms, times, i, j);
    RunIsValid(c, ss, ms, times, j);
    NewFrameIsProof(c, ss[j], ms[j], times[j]);
    ValidatedIsNotRevoked(ss[j], NewFrame(c, ss[j], ms[j], times[j]).value, ms[j].known, c, times[j], g);
  }

  lemma NewFrameIsProof(c: Config, s: BridgeState, m: Move, now: int)
    requires NewFrame(c, s, m, now).Some?
    ensures m.ProveMove? && RegistrationFault(s, NewFrame(c, s, m, now).value, m.known, c, now).None?
  {
    hide Moved, RegistrationFault, NewFrame;
    NewFrameIsNew(c, s, m, now);
    ProofIsLogged(c, s, m, now);
  }

  // ---------------------------------------------------------------- no registration without a challenge

  /** Move `i` challenged `ws` for `p`: access was valid and validation found no fault at that moment. */
  ghost predicate Challenged(c: Config, ss: seq<BridgeState>, ms: seq<Move>, times: seq<int>, i: nat, ws: Socket, p: Pending)
    requires i < |ms| && |ss| == |ms| + 1 && |times| == |ms|
  {
    && ms[i].BeginMove? && ms[i].ws == ws && ms[i].frame == p.frame && ms[i].challenge == p.challenge && ms[i].requestId == p.requestId
    && p.createdAt == times[i] && p.expiresAt == times[i] + REGISTRATION_CHALLENGE_TTL_MS
    && AccessValid(ss[i].ledger, p.frame, times[i])
  }

  lemma BeginChallenges(c: Config, s: BridgeState, m: Move, now: int, ws: Socket)
    requires m.BeginMove? && ws in Moved(c, s, m, now).challenges.pending
    ensures var p := Moved(c, s, m, now).challenges.pending[ws];
      || (ws in s.challenges.pending && s.challenges.pending[ws] == p)
      || (m.ws == ws && m.frame == p.frame && m.challenge == p.challenge && m.requestId == p.requestId
          && p.createdAt == now && p.expiresAt == now + REGISTRATION_CHALLENGE_TTL_MS && AccessValid(s.ledger, p.frame, now))
  {
    hide RegistrationFault, UnbindAll;
  }

  /** Every challenge pending afterwards was pending before, unchanged. */
  predicate FewerPending(s: BridgeState, s': BridgeState) {
    forall ws | ws in s'.challenges.pending :: ws in s.challenges.pending && s'.challenges.pending[ws] == s.challenges.pending[ws]
  }

  lemma ProvingChallengesNobody(c: Config, s: BridgeState, m: Move, now: int)
    requires m.ProveMove?
    ensures FewerPending(s, Moved(c, s, m, now))
  {
    hide RegistrationFault, ProofValid, Rebind, Idempotent, MarkAdvances;
  }

  lemma VotingChallengesNobody(c: Config, s: BridgeState, m: Move, now: int)
    requires m.VoteMove? || m.RevokeMove? || m.AccessMove?
    ensures FewerPending(s, Moved(c, s, m, now))
  {
    hide WitnessValid, Absent, SameBallot, JudgeRevocation, UnbindAll;
  }

  lemma ClosingChallengesNobody(c: Config, s: BridgeState, m: Move, now: int)
    requires m.CloseMove? || m.CleanupMove? || m.RestartMove?
    ensures FewerPending(s, Moved(c, s, m, now))
  {
    hide UnbindAll, Unbind;
  }

  lemma OtherMovesChallengeNobody(c: Config, s: BridgeState, m: Move, now: int)
    requires !m.BeginMove?
    ensures FewerPending(s, Moved(c, s, m, now))
  {
    hide Moved, FewerPending;
    if m.ProveMove? {
      ProvingChallengesNobody(c, s, m, now);
    } else if m.CloseMove? || m.CleanupMove? || m.RestartMove? {
      ClosingChallengesNobody(c, s, m, now);
    } else {
      VotingChallengesNobody(c, s, m, now);
    }
  }

  /** Whatever is pending was challenged by an earlier move. */
  lemma {:induction false} PendingWasChallenged(c: Config, ss: seq<BridgeState>, ms: seq<Move>, times: seq<int>, j: nat, ws: Socket) returns (i: nat)
    requires IsRun(c, ss, ms, times) && |ss| == |ms| + 1 && |times| == |ms| && j < |ss| && ws in ss[j].challenges.pending
    ensures i < j && Challenged(c, ss, ms, times, i, ws, ss[j].challenges.pending[ws])
  {
    hide Moved, Enabled, AccessValid;
    assert j > 0;
    var s, m, now := ss[j - 1], ms[j - 1], times[j - 1];
    if m.BeginMove? { BeginChallenges(c, s, m, now, ws); } else { OtherMovesChallengeNobody(c, s, m, now); }
    if ws in s.challenges.pending && s.challenges.pending[ws] == ss[j].challenges.pending[ws] {
      i := PendingWasChallenged(c, ss, ms, times, j - 1, ws);
    } else {
      i := j - 1;
    }
  }

  lemma ProofAnswers(c: Config, s: BridgeState, m: Move, now: int)
    requires NewFrame(c, s, m, now).Some?
    ensures m.ProveMove? && m.ws in s.challenges.pending
    ensures var p := s.challenges.pending[m.ws];
      p.frame == NewFrame(c, s, m, now).value && now < p.expiresAt && m.requestId == p.requestId
      && m.proof.challenge == p.challenge && m.proof.signer == p.frame.grant.device && m.proof.recordHash == HashOf(p.frame.record)
    ensures m.ws !in Moved(c, s, m, now).challenges.pending
  {
    hide RegistrationFault, Rebind, MarkAdvances, Idempotent;
  }

  /**
    * Nothing is accepted without a challenge of its own: the same socket began that very registration
    * with valid access less than thirty seconds before, the granted device signed that challenge and that
    * record, and the challenge is spent.
    */
  lemma EveryRegistrationWasChallenged(c: Config, ss: seq<BridgeState>, ms: seq<Move>, times: seq<int>, j: nat) returns (i: nat)
    requires IsRun(c, ss, ms, times) && |ss| == |ms| + 1 && |times| == |ms| && j < |ms|
    requires NewFrame(c, ss[j], ms[j], times[j]).Some?
    ensures var f := NewFrame(c, ss[j], ms[j], times[j]).value;
      && ms[j].ProveMove? && i < j && ms[i].BeginMove? && ms[i].ws == ms[j].ws && ms[i].frame == f
      && AccessValid(ss[i].ledger, f, times[i]) && times[j] < times[i] + REGISTRATION_CHALLENGE_TTL_MS
      && ms[j].proof.challenge == ms[i].challenge && ms[j].proof.signer == f.grant.device && ms[j].proof.recordHash == HashOf(f.record)
      && ms[j].ws !in ss[j + 1].challenges.pending
  {
    ProofAnswers(c, ss[j], ms[j], times[j]);
    i := PendingWasChallenged(c, ss, ms, times, j, ms[j].ws);
    assert ss[j + 1] == Moved(c, ss[j], ms[j], times[j]);
    hide Moved, Enabled, AccessValid, NewFrame;
  }
}
