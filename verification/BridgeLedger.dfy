/**
  * The durable half of a bridge (`apps/rendezvous/src/main.ts`): high-water marks, revocations,
  * promotion votes, pairing consumptions and host access, the events that record them, and what
  * replaying those events rebuilds.
  */
module BridgeLedger {
  import opened Community

  datatype Mark = Mark(
    key: HostKey, epoch: nat, recordSeq: nat, recordHash: RecordHash, grantId: GrantId, generation: nat, role: Role)

  datatype GrantKey = GrantKey(scope: Scope, grantId: GrantId)

  /** A signed grant revocation; `scope.authority` is the key that signed it. */
  datatype Revocation = Revocation(key: GrantKey, revokedAt: int, generation: nat, reason: string)

  datatype ElectionKey = ElectionKey(scope: Scope, epoch: nat)

  datatype Vote = Vote(
    key: ElectionKey, candidate: HostId, primary: HostId, primaryHash: RecordHash, grantedAt: int)

  datatype Pairing = Pairing(tokenHash: string, bridge: BridgeId, host: HostKey, consumedAt: int, expiresAt: int)

  datatype AccessSlot = Registration | Witness

  datatype AccessKey = AccessKey(host: HostKey, slot: AccessSlot)

  datatype Access = Access(key: AccessKey, tokenHash: string, grantId: GrantId, generation: nat, expiresAt: int)

  datatype Ledger = Ledger(
    revocations: map<GrantKey, Revocation>,
    pairings: map<string, Pairing>,
    marks: map<HostKey, Mark>,
    votes: map<ElectionKey, Vote>,
    access: map<AccessKey, Access>)

  const EMPTY := Ledger(map[], map[], map[], map[], map[])

  datatype Event =
    | RevocationEvent(revocation: Revocation)
    | PairingEvent(pairing: Pairing)
    | MarkEvent(mark: Mark)
    | VoteEvent(vote: Vote)
    | AccessEvent(access: Access)

  const MAX_DURABLE_ENTRIES := 16_384

  function DurableEntryCount(l: Ledger): nat {
    |l.votes| + |l.pairings| + |l.access| + |l.marks| + |l.revocations|
  }

  // ---------------------------------------------------------------- applying one event

  /** `persistedHighWater`: the shape a stored mark must have. */
  predicate MarkShape(m: Mark) {
    |m.key.hostId| >= 1 && m.recordSeq >= 1 && m.recordHash != NoHash && m.generation >= 1
  }

  /** `applyHighWaterMark` refuses a mark that would move its host backwards. */
  predicate MarkAdvances(marks: map<HostKey, Mark>, m: Mark) {
    m.key in marks ==>
      var current := marks[m.key];
      && m.generation >= current.generation
      && (m.generation == current.generation ==> m.grantId == current.grantId)
      && m.epoch >= current.epoch
      && m.recordSeq > current.recordSeq
  }

  /** `persistedPromotionVote`: the shape a stored vote must have. */
  predicate VoteShape(v: Vote) {
    |v.candidate| >= 1 && |v.primary| >= 1 && v.primaryHash != NoHash && v.key.epoch >= 1 && v.grantedAt >= 1
  }

  predicate SameBallot(v: Vote, w: Vote) {
    v.candidate == w.candidate && v.primary == w.primary && v.primaryHash == w.primaryHash
  }

  datatype RevokeVerdict = Accepted | Repeated | Stale

  /** The checks of `revoke`, in its order. */
  function JudgeRevocation(l: Ledger, r: Revocation): RevokeVerdict {
    if r.key in l.revocations && l.revocations[r.key] == r then Repeated
    else if r.key in l.revocations && (r.generation < l.revocations[r.key].generation
      || (r.generation == l.revocations[r.key].generation && r.revokedAt <= l.revocations[r.key].revokedAt)) then Stale
    else if r.generation == 0 || exists k | k in l.marks ::
      k.scope == r.key.scope && l.marks[k].grantId == r.key.grantId && r.generation <= l.marks[k].generation then Stale
    else Accepted
  }

  function Floored(m: Mark, r: Revocation): Mark {
    if m.key.scope == r.key.scope && m.grantId == r.key.grantId && m.generation < r.generation
    then m.(generation := r.generation) else m
  }

  /** `applyRevocation`, durable part: remember the revocation and raise the generation floor of its marks. */
  function WithRevocation(l: Ledger, r: Revocation): Ledger {
    l.(revocations := l.revocations[r.key := r], marks := map k | k in l.marks :: Floored(l.marks[k], r))
  }

  function WithMark(l: Ledger, m: Mark): Ledger {
    l.(marks := l.marks[m.key := m])
  }

  function WithVote(l: Ledger, v: Vote): Ledger {
    l.(votes := l.votes[v.key := v])
  }

  /** One log record as `loadRendezvousState` applies it; `None` is its fatal corruption error. */
  function Accept(l: Ledger, e: Event): Option<Ledger> {
    match e
    case RevocationEvent(r) =>
      (match JudgeRevocation(l, r)
       case Accepted => Some(WithRevocation(l, r))
       case Repeated => Some(l)
       case Stale => None)
    case PairingEvent(p) => Some(l.(pairings := l.pairings[p.tokenHash := p]))
    case MarkEvent(m) => if MarkShape(m) && MarkAdvances(l.marks, m) then Some(WithMark(l, m)) else None
    case VoteEvent(v) =>
      if !VoteShape(v) then None
      else if v.key !in l.votes then Some(WithVote(l, v))
      else if SameBallot(l.votes[v.key], v) then Some(l)
      else None
    case AccessEvent(a) => Some(l.(access := l.access[a.key := a]))
  }

  function ReplayFrom(l: Ledger, events: seq<Event>): Option<Ledger>
    decreases |events|
  {
    if events == [] then Some(l)
    else match Accept(l, events[0])
      case None => None
      case Some(next) => ReplayFrom(next, events[1..])
  }

  function Replay(events: seq<Event>): Option<Ledger> {
    ReplayFrom(EMPTY, events)
  }

  lemma {:induction false} ReplayConcat(l: Ledger, first: seq<Event>, second: seq<Event>)
    ensures ReplayFrom(l, first + second) ==
      match ReplayFrom(l, first) case None => None case Some(mid) => ReplayFrom(mid, second)
    decreases |first|
  {
    if first == [] {
      assert first + second == second;
    } else {
      assert (first + second)[0] == first[0] && (first + second)[1..] == first[1..] + second;
      match Accept(l, first[0]) {
        case None =>
        case Some(next) => ReplayConcat(next, first[1..], second);
      }
    }
  }

  lemma ReplayOne(l: Ledger, e: Event)
    ensures ReplayFrom(l, [e]) == Accept(l, e)
  {
    assert [e][1..] == [];
    match Accept(l, e) {
      case None =>
      case Some(next) => assert ReplayFrom(next, []) == Some(next);
    }
  }

  // ---------------------------------------------------------------- what every ledger keeps

  /** Entries are filed under their own keys and have the shape replay demands. */
  predicate WellKept(l: Ledger) {
    && (forall k | k in l.revocations :: l.revocations[k].key == k && l.revocations[k].generation >= 1)
    && (forall k | k in l.pairings :: l.pairings[k].tokenHash == k)
    && (forall k | k in l.marks :: l.marks[k].key == k && MarkShape(l.marks[k]))
    && (forall k | k in l.votes :: l.votes[k].key == k && VoteShape(l.votes[k]))
    && (forall k | k in l.access :: l.access[k].key == k)
  }

  lemma AcceptKeepsWell(l: Ledger, e: Event)
    requires WellKept(l) && Accept(l, e).Some?
    ensures WellKept(Accept(l, e).value)
  {
  }

  /**
    * `newer` remembers everything `older` promised never to take back: votes stand, pairing tokens
    * stay burnt, revocations only rise, and no host's mark moves backwards.
    */
  predicate Remembers(newer: Ledger, older: Ledger) {
    && (forall k | k in older.votes :: k in newer.votes && newer.votes[k] == older.votes[k])
    && (forall k | k in older.pairings :: k in newer.pairings)
    && (forall k | k in older.revocations ::
          k in newer.revocations && newer.revocations[k].generation >= older.revocations[k].generation)
    && (forall k | k in older.marks :: k in newer.marks && NotBehind(newer.marks[k], older.marks[k]))
  }

  predicate NotBehind(newer: Mark, older: Mark) {
    newer.generation >= older.generation && newer.epoch >= older.epoch && newer.recordSeq >= older.recordSeq
  }

  lemma RevocationRemembers(l: Ledger, r: Revocation)
    requires WellKept(l) && JudgeRevocation(l, r).Accepted?
    ensures Remembers(WithRevocation(l, r), l)
  {
    var next := WithRevocation(l, r);
    forall k | k in l.marks ensures k in next.marks && NotBehind(next.marks[k], l.marks[k]) {
      assert next.marks[k] == Floored(l.marks[k], r);
    }
  }

  lemma MarkRemembers(l: Ledger, m: Mark)
    requires MarkAdvances(l.marks, m)
    ensures Remembers(WithMark(l, m), l)
  {
  }

  lemma AcceptRemembers(l: Ledger, e: Event)
    requires WellKept(l) && Accept(l, e).Some?
    ensures Remembers(Accept(l, e).value, l)
  {
    hide WellKept, JudgeRevocation, MarkAdvances, Floored;
    match e {
      case RevocationEvent(r) => if JudgeRevocation(l, r).Accepted? { RevocationRemembers(l, r); }
      case MarkEvent(m) => MarkRemembers(l, m);
      case _ =>
    }
  }

  lemma RemembersTransitive(a: Ledger, b: Ledger, c: Ledger)
    requires Remembers(c, b) && Remembers(b, a)
    ensures Remembers(c, a)
  {
    forall k | k in a.marks ensures NotBehind(c.marks[k], a.marks[k]) {
      assert NotBehind(c.marks[k], b.marks[k]) && NotBehind(b.marks[k], a.marks[k]);
    }
  }

  /** No continuation of the log takes back a vote, a burnt token, a revocation or a mark. */
  lemma {:induction false} ReplayRemembers(l: Ledger, events: seq<Event>)
    requires WellKept(l) && ReplayFrom(l, events).Some?
    ensures WellKept(ReplayFrom(l, events).value) && Remembers(ReplayFrom(l, events).value, l)
    decreases |events|
  {
    if events == [] {
    } else {
      var next := Accept(l, events[0]).value;
      AcceptKeepsWell(l, events[0]);
      AcceptRemembers(l, events[0]);
      ReplayRemembers(next, events[1..]);
      RemembersTransitive(l, next, ReplayFrom(l, events).value);
    }
  }
}
