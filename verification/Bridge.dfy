/**
  * One bridge (`apps/rendezvous/src/main.ts`) as a value: its ledger, the registrations and sockets
  * it currently knows, and what each frame, close and restart does to them.
  */
module Bridge {
  import opened Community
  import opened BridgeLedger

  datatype Frame = Frame(
    authority: Key, grant: Grant, record: HostRecord, certificate: Option<seq<Receipt>>, accessToken: string)

  datatype Stored = Stored(record: HostRecord, grant: Grant, expiresAt: int)

  datatype Binding = Binding(key: HostKey, grantId: GrantId, generation: nat, authorizationExpiresAt: int)

  datatype Pending = Pending(
    requestId: string, challenge: string, createdAt: int, expiresAt: int, key: HostKey, frame: Frame)

  /** `hostSockets`, `socketHosts` and `hostDisconnectedAt`. */
  datatype Sockets = Sockets(ofHost: map<HostKey, Socket>, hostOf: map<Socket, Binding>, disconnectedAt: map<HostKey, int>)

  /** `pendingRegistrations` and `pendingRegistrationClaims`. */
  datatype Challenges = Challenges(pending: map<Socket, Pending>, claims: map<HostKey, Socket>)

  datatype BridgeState = BridgeState(
    ledger: Ledger, records: map<HostKey, Stored>, sockets: Sockets, challenges: Challenges)

  datatype Reject = InvalidInput | Unauthorized | Conflict | RateLimited | Unavailable

  /** The bridge's own identity and its configured absence grace. */
  datatype Config = Config(me: BridgeId, production: bool, configuredGrace: int)

  const MAX_TTL_MS := 2 * 3_600_000
  const MAX_RECORDS_PER_SERVER := 16
  const REGISTRATION_CHALLENGE_TTL_MS := 30_000
  const REGISTRATION_PROOF_CLOCK_SKEW_MS := 5_000
  const RECEIPT_TTL_MS := 24 * 3_600_000
  const WITNESS_FRESHNESS_MS := 10_000

  function Min(a: int, b: int): int { if a < b then a else b }

  /** `absenceGraceMs`: never below 20 s in production, 10 ms otherwise. */
  function Grace(c: Config): int {
    var minimum := if c.production then 20_000 else 10;
    if c.configuredGrace > minimum then c.configuredGrace else minimum
  }

  // ---------------------------------------------------------------- reading the ledger

  predicate NoMarks(marks: map<HostKey, Mark>, scope: Scope) {
    forall k | k in marks :: k.scope != scope
  }

  /** `epoch` is above every epoch the bridge has recorded in `scope`. */
  predicate RaisesEpoch(marks: map<HostKey, Mark>, scope: Scope, epoch: nat) {
    epoch > 0 && forall k | k in marks :: k.scope == scope ==> marks[k].epoch < epoch
  }

  /** `m` heads the bridge's list of primaries: highest epoch first, then highest sequence. */
  predicate TopPrimary(marks: map<HostKey, Mark>, scope: Scope, m: Mark) {
    && m.key in marks && marks[m.key] == m && m.key.scope == scope && m.role.Primary?
    && forall k | k in marks :: k.scope == scope && marks[k].role.Primary? ==>
         marks[k].epoch < m.epoch || (marks[k].epoch == m.epoch && marks[k].recordSeq <= m.recordSeq)
  }

  /** What the sort over the marks may find first; equal heads may come in either order. */
  predicate KnownPrimary(marks: map<HostKey, Mark>, scope: Scope, known: Option<Mark>) {
    match known
    case Some(m) => TopPrimary(marks, scope, m)
    case None => forall k | k in marks :: k.scope == scope ==> !marks[k].role.Primary?
  }

  predicate Revoked(l: Ledger, scope: Scope, g: Grant) {
    var k := GrantKey(scope, g.grantId);
    k in l.revocations && g.generation <= l.revocations[k].generation
  }

  // ---------------------------------------------------------------- validateRegistration

  function FrameScope(f: Frame): Scope { Scope(f.authority, f.record.server) }

  function FrameKey(f: Frame): HostKey { HostKey(FrameScope(f), f.record.hostId) }

  function FrameMark(f: Frame): Mark {
    Mark(FrameKey(f), f.record.epoch, f.record.recordSeq, HashOf(f.record), f.grant.grantId, f.grant.generation, f.record.role)
  }

  /** The record is byte for byte the one the bridge already holds as this host's head. */
  predicate Idempotent(marks: map<HostKey, Mark>, f: Frame) {
    FrameKey(f) in marks &&
    var current := marks[FrameKey(f)];
    current.recordHash == HashOf(f.record) && current.recordSeq == f.record.recordSeq
    && current.epoch == f.record.epoch && current.grantId == f.record.grantId
  }

  predicate ReceiptSupports(r: Receipt, f: Frame, primary: Mark, c: Config, votes: map<ElectionKey, Vote>, now: int) {
    && r.bridge in f.grant.witnessBridges
    && r.signer == r.bridge
    && 1 <= |r.requestId| <= 128
    && r.server == f.record.server
    && r.candidate == f.record.hostId
    && r.primary == primary.key.hostId && r.primaryHash == primary.recordHash && r.primaryEpoch == primary.epoch
    && r.electionEpoch == f.record.epoch
    && r.voteGrantedAt <= r.issuedAt && r.issuedAt <= now + 5_000
    && now < r.expiresAt <= r.issuedAt + RECEIPT_TTL_MS
    && (r.bridge == c.me ==> MatchesOwnVote(r, f, primary, votes))
  }

  predicate MatchesOwnVote(r: Receipt, f: Frame, primary: Mark, votes: map<ElectionKey, Vote>) {
    var k := ElectionKey(primary.key.scope, f.record.epoch);
    k in votes && votes[k].candidate == f.record.hostId && votes[k].primary == primary.key.hostId
    && votes[k].primaryHash == primary.recordHash && votes[k].grantedAt == r.voteGrantedAt
  }

  /** `validPromotionCertificate`: two or three distinct approved bridges, this bridge's durable vote among them. */
  predicate CertificateValid(f: Frame, known: Option<Mark>, marks: map<HostKey, Mark>, c: Config, votes: map<ElectionKey, Vote>, now: int) {
    && f.certificate.Some? && 2 <= |f.certificate.value| <= 3
    && |f.grant.witnessBridges| >= 2
    && known.Some?
    && (forall k | k in marks :: k.scope == FrameScope(f) ==> marks[k].epoch <= known.value.epoch)
    && var items := f.certificate.value;
    && (forall i | 0 <= i < |items| :: ReceiptSupports(items[i], f, known.value, c, votes, now))
    && (forall i, j | 0 <= i < j < |items| :: items[i].bridge != items[j].bridge && items[i].requestId != items[j].requestId)
    && (exists i | 0 <= i < |items| :: items[i].bridge == c.me)
  }

  /** The checks against this host's own previous mark. */
  predicate FollowsMark(f: Frame, previous: Mark) {
    && f.grant.generation >= previous.generation
    && (f.grant.generation == previous.generation ==> f.grant.grantId == previous.grantId)
    && f.record.epoch >= previous.epoch
    && f.record.recordSeq == previous.recordSeq + 1 && f.record.previous == previous.recordHash
  }

  predicate RepeatsMark(f: Frame, previous: Mark) {
    && f.grant.generation >= previous.generation
    && (f.grant.generation == previous.generation ==> f.grant.grantId == previous.grantId)
    && f.record.recordSeq == previous.recordSeq && f.record.epoch == previous.epoch
    && f.record.grantId == previous.grantId && HashOf(f.record) == previous.recordHash
  }

  function ScopeRecords(records: map<HostKey, Stored>, scope: Scope): set<HostKey> {
    set k | k in records && k.scope == scope
  }

  function RegistrationFault(s: BridgeState, f: Frame, known: Option<Mark>, c: Config, now: int): Option<Reject> {
    var l, scope, key := s.ledger, FrameScope(f), FrameKey(f);
    if f.authority == "" || !WellFormedGrant(f.grant) || !WellFormedRecord(f.record) then Some(InvalidInput)
    else if !RegistrationVerifies(f.record, f.grant, f.authority, Revoked(l, scope, f.grant), now) then Some(Unauthorized)
    else if NoMarks(l.marks, scope) && (f.record.epoch > 1 || f.record.recordSeq != 1) then Some(Conflict)
    else if exists k | k in l.marks :: k.scope == scope && f.record.epoch < l.marks[k].epoch then Some(Conflict)
    else if !NoMarks(l.marks, scope)
      && (forall k | k in l.marks :: k.scope == scope ==> l.marks[k].epoch + 1 < f.record.epoch) then Some(Conflict)
    else if key in l.marks && !FollowsMark(f, l.marks[key]) && !RepeatsMark(f, l.marks[key]) then Some(Conflict)
    else if key !in l.marks && (f.record.recordSeq != 1 || f.record.previous != NoHash) then Some(Conflict)
    else if !NoMarks(l.marks, scope) && f.record.role.Primary? && RaisesEpoch(l.marks, scope, f.record.epoch)
      && !CertificateValid(f, known, l.marks, c, l.votes, now) then Some(Unauthorized)
    else if key !in s.records && |ScopeRecords(s.records, scope)| >= MAX_RECORDS_PER_SERVER then Some(RateLimited)
    else None
  }

  // ---------------------------------------------------------------- sockets

  /** `unbindSocket` */
  function Unbind(k: Sockets, ws: Socket, now: int): Sockets {
    if ws !in k.hostOf then k
    else
      var key := k.hostOf[ws].key;
      Sockets(if key in k.ofHost && k.ofHost[key] == ws then k.ofHost - {key} else k.ofHost,
              k.hostOf - {ws}, k.disconnectedAt[key := now])
  }

  /** The hosts that lose their socket when `gone` is unbound. */
  function Lost(k: Sockets, gone: set<Socket>): set<HostKey> {
    set ws | ws in k.hostOf && ws in gone :: k.hostOf[ws].key
  }

  /** `unbindSocket` for every socket of a set. */
  function UnbindAll(k: Sockets, gone: set<Socket>, now: int): Sockets {
    Sockets(map key | key in k.ofHost && k.ofHost[key] !in gone :: k.ofHost[key],
            k.hostOf - gone,
            map key | key in k.disconnectedAt.Keys + Lost(k, gone) :: if key in Lost(k, gone) then now else k.disconnectedAt[key])
  }

  /** A host's previous socket gives way to the one now registering. */
  function Evict(k: Sockets, key: HostKey, ws: Socket, now: int): Sockets {
    if key in k.ofHost && k.ofHost[key] != ws then Unbind(k, k.ofHost[key], now) else k
  }

  function Bind(k: Sockets, ws: Socket, b: Binding): Sockets {
    Sockets(k.ofHost[b.key := ws], k.hostOf[ws := b], k.disconnectedAt - {b.key})
  }

  function Rebind(k: Sockets, ws: Socket, b: Binding, now: int): Sockets {
    Bind(Evict(Unbind(k, ws, now), b.key, ws, now), ws, b)
  }

  /** `clearPendingRegistration` */
  function ClearPending(c: Challenges, ws: Socket): Challenges {
    if ws !in c.pending then c
    else
      var key := c.pending[ws].key;
      Challenges(c.pending - {ws}, if key in c.claims && c.claims[key] == ws then c.claims - {key} else c.claims)
  }

  function AddPending(c: Challenges, ws: Socket, p: Pending): Challenges {
    Challenges(c.pending[ws := p], c.claims[p.key := ws])
  }

  predicate Overdue(c: Challenges, ws: Socket, now: int) {
    ws in c.pending && c.pending[ws].expiresAt <= now
  }

  function DropOverdue(c: Challenges, now: int): Challenges {
    Challenges(map ws | ws in c.pending && !Overdue(c, ws, now) :: c.pending[ws],
               map key | key in c.claims && !Overdue(c, c.claims[key], now) :: c.claims[key])
  }

  function ExpiredSockets(k: Sockets, now: int): set<Socket> {
    set ws | ws in k.hostOf && k.hostOf[ws].authorizationExpiresAt <= now
  }

  function UnexpiredAccess(access: map<AccessKey, Access>, now: int): map<AccessKey, Access> {
    map k | k in access && access[k].expiresAt > now :: access[k]
  }

  /** `cleanup`: expired records, bindings, challenges and host access go. */
  function Cleanup(s: BridgeState, now: int): BridgeState {
    BridgeState(
      s.ledger.(access := UnexpiredAccess(s.ledger.access, now)),
      map k | k in s.records && s.records[k].expiresAt > now :: s.records[k],
      UnbindAll(s.sockets, ExpiredSockets(s.sockets, now), now),
      DropOverdue(s.challenges, now))
  }

  // ---------------------------------------------------------------- registration

  /** `validHostAccessToken`; a token is identified with its hash. */
  predicate AccessValid(l: Ledger, f: Frame, now: int) {
    var k := AccessKey(FrameKey(f), Registration);
    32 <= |f.accessToken| <= 512 && k in l.access && l.access[k].expiresAt > now
    && l.access[k].grantId == f.grant.grantId && l.access[k].generation == f.grant.generation
    && l.access[k].tokenHash == f.accessToken
  }

  /** `beginRegistration`; `challenge` stands for the fresh random challenge and nonce. */
  function Begin(s: BridgeState, ws: Socket, requestId: string, f: Frame, known: Option<Mark>, c: Config, challenge: string, now: int)
    : (BridgeState, Option<Reject>)
  {
    var clean := Cleanup(s, now);
    if !(1 <= |requestId| <= 128) then (clean, Some(InvalidInput))
    else if ws in clean.challenges.pending then (clean, Some(Conflict))
    else if RegistrationFault(clean, f, known, c, now).Some? then (clean, RegistrationFault(clean, f, known, c, now))
    else if !AccessValid(clean.ledger, f, now) then (clean, Some(Unauthorized))
    else if FrameKey(f) in clean.challenges.claims then (clean, Some(Conflict))
    else
      var p := Pending(requestId, challenge, now, now + REGISTRATION_CHALLENGE_TTL_MS, FrameKey(f), f);
      (clean.(challenges := AddPending(clean.challenges, ws, p)), None)
  }

  /** A host's signed answer to one challenge. */
  datatype Proof = Proof(signer: Key, challenge: string, recordHash: RecordHash, hostId: HostId, issuedAt: int, expiresAt: int)

  /** `validRegistrationProof` */
  predicate ProofValid(p: Pending, proof: Proof, now: int) {
    && proof.signer == p.frame.grant.device
    && proof.challenge == p.challenge
    && proof.recordHash == HashOf(p.frame.record)
    && proof.hostId == p.frame.record.hostId
    && p.createdAt - REGISTRATION_PROOF_CLOCK_SKEW_MS <= proof.issuedAt <= now + REGISTRATION_PROOF_CLOCK_SKEW_MS
    && proof.issuedAt < proof.expiresAt <= p.expiresAt && now < proof.expiresAt
  }

  /** `commitRegistration`; `persisted` says whether the log append succeeded. */
  function Commit(s: BridgeState, ws: Socket, f: Frame, now: int, persisted: bool): (BridgeState, Option<Reject>) {
    if Idempotent(s.ledger.marks, f) then (Admit(s, s.ledger, ws, f, now), None)
    else if FrameKey(f) !in s.ledger.marks && |s.ledger.marks| >= MAX_DURABLE_ENTRIES then (s, Some(Unavailable))
    else if !persisted then (s, Some(Unavailable))
    else if !MarkAdvances(s.ledger.marks, FrameMark(f)) then (s, Some(Conflict))
    else (Admit(s, WithMark(s.ledger, FrameMark(f)), ws, f, now), None)
  }

  function RecordExpiry(f: Frame, now: int): int {
    Min(f.record.expiresAt, now + MAX_TTL_MS)
  }

  function FrameBinding(f: Frame, now: int): Binding {
    Binding(FrameKey(f), f.grant.grantId, f.grant.generation, Min(RecordExpiry(f, now), f.grant.expiresAt))
  }

  /** The second half of `commitRegistration`: publish the record and bind the socket. */
  function Admit(s: BridgeState, ledger: Ledger, ws: Socket, f: Frame, now: int): BridgeState {
    BridgeState(ledger, s.records[FrameKey(f) := Stored(f.record, f.grant, RecordExpiry(f, now))],
                Rebind(s.sockets, ws, FrameBinding(f, now), now), s.challenges)
  }

  function Cleared(s: BridgeState, ws: Socket): BridgeState {
    s.(challenges := ClearPending(s.challenges, ws))
  }

  /** `proveRegistration`: the challenge is spent whatever happens; then validate once more and commit. */
  function Prove(s: BridgeState, ws: Socket, requestId: string, proof: Proof, known: Option<Mark>, c: Config, now: int, persisted: bool)
    : (BridgeState, Option<Reject>)
  {
    if ws !in s.challenges.pending then (s, Some(Unauthorized))
    else
      var p := s.challenges.pending[ws];
      if requestId != p.requestId || proof.challenge != p.challenge then (Cleared(s, ws), Some(Unauthorized))
      else if p.expiresAt <= now || !ProofValid(p, proof, now) then (Cleared(s, ws), Some(Unauthorized))
      else if RegistrationFault(s, p.frame, known, c, now).Some? then (Cleared(s, ws), RegistrationFault(s, p.frame, known, c, now))
      else Commit(Cleared(s, ws), ws, p.frame, now, persisted)
  }

  // ---------------------------------------------------------------- revocation

  /** `revoke` with its in-memory consequences in `applyRevocation`. */
  function Revoke(s: BridgeState, r: Revocation, now: int, persisted: bool): (BridgeState, Option<Reject>) {
    match JudgeRevocation(s.ledger, r)
    case Repeated => (s, None)
    case Stale => (s, Some(Conflict))
    case Accepted =>
      if r.key !in s.ledger.revocations && |s.ledger.revocations| >= MAX_DURABLE_ENTRIES then (s, Some(Unavailable))
      else if !persisted then (s, Some(Unavailable))
      else (ApplyRevocation(s, r, now), None)
  }

  predicate Withdraws(r: Revocation, scope: Scope, grantId: GrantId, generation: nat) {
    scope == r.key.scope && grantId == r.key.grantId && generation <= r.generation
  }

  function WithdrawnSockets(k: Sockets, r: Revocation): set<Socket> {
    set ws | ws in k.hostOf && Withdraws(r, k.hostOf[ws].key.scope, k.hostOf[ws].grantId, k.hostOf[ws].generation)
  }

  function ApplyRevocation(s: BridgeState, r: Revocation, now: int): BridgeState {
    BridgeState(
      WithRevocation(s.ledger, r),
      map k | k in s.records && !Withdraws(r, k.scope, s.records[k].grant.grantId, s.records[k].grant.generation) :: s.records[k],
      UnbindAll(s.sockets, WithdrawnSockets(s.sockets, r), now),
      s.challenges)
  }

  // ---------------------------------------------------------------- promotion

  /** The bridge may attest absence: no open bound socket, and an observed disconnect older than the grace. */
  predicate Absent(k: Sockets, key: HostKey, open: set<Socket>, grace: int, now: int) {
    && !(key in k.ofHost && k.ofHost[key] in open)
    && key in k.disconnectedAt && k.disconnectedAt[key] != 0
    && now - k.disconnectedAt[key] >= grace
  }

  /** `verifySignedBridgeWitness` as `claimPromotionVote` uses it. */
  predicate WitnessValid(w: AbsenceWitness, c: Config, now: int) {
    && w.signer == c.me && w.bridge == c.me && !w.primaryOnline
    && now < w.expiresAt <= w.observedAt + WITNESS_FRESHNESS_MS
    && -WITNESS_FRESHNESS_MS <= now - w.observedAt <= WITNESS_FRESHNESS_MS
    && |w.replica| >= 1
  }

  function WitnessBallot(w: AbsenceWitness, scope: Scope, now: int): Vote {
    Vote(ElectionKey(scope, w.primaryEpoch + 1), w.replica, w.primary, w.primaryHash, now)
  }

  datatype VoteReply = Granted(receipt: Receipt) | Refused(reason: Reject)

  /** `claimPromotionVote` */
  function ClaimVote(s: BridgeState, requestId: string, authority: Key, w: AbsenceWitness, known: Option<Mark>,
                     open: set<Socket>, c: Config, now: int, persisted: bool): (BridgeState, VoteReply)
  {
    var scope := Scope(authority, w.server);
    var ballot := WitnessBallot(w, scope, now);
    if requestId == "" then (s, Refused(InvalidInput))
    else if !WitnessValid(w, c, now) then (s, Refused(Unauthorized))
    else if authority == "" then (s, Refused(InvalidInput))
    else if ballot.key in s.ledger.votes && !SameBallot(s.ledger.votes[ballot.key], ballot) then (s, Refused(Conflict))
    else if known.None? || known.value.key.hostId != w.primary || known.value.recordHash != w.primaryHash
      || known.value.epoch != w.primaryEpoch then (s, Refused(Conflict))
    else if !Absent(s.sockets, HostKey(scope, w.primary), open, Grace(c), now) then (s, Refused(Conflict))
    else if ballot.key in s.ledger.votes then (s, Granted(IssueReceipt(s.ledger.votes[ballot.key], w, c, requestId, now)))
    else if DurableEntryCount(s.ledger) >= MAX_DURABLE_ENTRIES || !persisted then (s, Refused(Unavailable))
    else (s.(ledger := WithVote(s.ledger, ballot)), Granted(IssueReceipt(ballot, w, c, requestId, now)))
  }

  function IssueReceipt(v: Vote, w: AbsenceWitness, c: Config, requestId: string, now: int): Receipt {
    Receipt(c.me, c.me, requestId, v.key.scope.server, v.candidate, v.primary, v.primaryHash, w.primaryEpoch, v.key.epoch,
            v.grantedAt, now, now + RECEIPT_TTL_MS)
  }

  /** The answer of `witnessPrimary` to an authorised replica. */
  function ObservePrimary(s: BridgeState, scope: Scope, replica: HostId, known: Mark, open: set<Socket>, c: Config, now: int): AbsenceWitness {
    AbsenceWitness(c.me, c.me, scope.server, replica, known.key.hostId, known.recordHash, known.epoch,
                   !Absent(s.sockets, HostKey(scope, known.key.hostId), open, Grace(c), now), now, now + 5_000)
  }

  // ---------------------------------------------------------------- close and restart

  /** The socket's close handler. */
  function Close(s: BridgeState, ws: Socket, now: int): BridgeState {
    s.(challenges := ClearPending(s.challenges, ws), sockets := Unbind(s.sockets, ws, now))
  }

  /** A new process: only the ledger comes back. */
  function Restart(ledger: Ledger): BridgeState {
    BridgeState(ledger, map[], Sockets(map[], map[], map[]), Challenges(map[], map[]))
  }
}
