/**
  * The module-level maps of `apps/rendezvous/src/main.ts` as one object, and the functions that update
  * them and the state file in place. Each method is tied to the function of the same name in `Bridge`;
  * what those functions keep is proved in `BridgeInvariants`, `BridgeRuns` and `Durability`.
  */
module RendezvousServer {
  import opened Community
  import opened BridgeLedger
  import opened Bridge
  import opened BridgeInvariants
  import opened StateFile
  import opened Compaction
  import opened Durability

  class RendezvousBridge {
    const config: Config
    var highWaterMarks: map<HostKey, Mark>
    var revokedGrants: map<GrantKey, Revocation>
    var promotionVotes: map<ElectionKey, Vote>
    var consumedPairingTokens: map<string, Pairing>
    var hostAccess: map<AccessKey, Access>
    var records: map<HostKey, Stored>
    var hostSockets: map<HostKey, Socket>
    var socketHosts: map<Socket, Bridge.Binding>
    var hostDisconnectedAt: map<HostKey, int>
    var pendingRegistrations: map<Socket, Pending>
    var pendingRegistrationClaims: map<HostKey, Socket>
    var stateFile: Text
    var durableStateSeq: nat
    var durableStateHash: LogHash

    function LedgerNow(): Ledger
      reads this
    {
      Ledger(revokedGrants, consumedPairingTokens, highWaterMarks, promotionVotes, hostAccess)
    }

    function SocketsNow(): Sockets
      reads this
    {
      Sockets(hostSockets, socketHosts, hostDisconnectedAt)
    }

    function ChallengesNow(): Challenges
      reads this
    {
      Challenges(pendingRegistrations, pendingRegistrationClaims)
    }

    function State(): BridgeState
      reads this
    {
      BridgeState(LedgerNow(), records, SocketsNow(), ChallengesNow())
    }

    /** The file and the memory it has to agree with. */
    function Disk(): Machine
      reads this
    {
      Machine(stateFile, LedgerNow(), durableStateSeq, durableStateHash)
    }

    predicate Valid()
      reads this
    {
      BridgeInvariants.Valid(State())
    }

    /** A process starting on an empty file. */
    constructor (config: Config)
      ensures Valid() && this.config == config && State() == Restart(EMPTY) && Disk() == NEWBORN
    {
      this.config := config;
      highWaterMarks, revokedGrants, promotionVotes, consumedPairingTokens, hostAccess := map[], map[], map[], map[], map[];
      records, hostSockets, socketHosts, hostDisconnectedAt := map[], map[], map[], map[];
      pendingRegistrations, pendingRegistrationClaims := map[], map[];
      stateFile, durableStateSeq, durableStateHash := [], 0, Genesis;
      new;
      RestartValid(EMPTY);
    }

    // -------------------------------------------------------------- sockets and challenges

    method UnbindSocket(ws: Socket, now: int)
      modifies this`hostSockets, this`socketHosts, this`hostDisconnectedAt
      ensures SocketsNow() == Unbind(old(SocketsNow()), ws, now)
    {
      if ws in socketHosts {
        var key := socketHosts[ws].key;
        if key in hostSockets && hostSockets[key] == ws { hostSockets := hostSockets - {key}; }
        hostDisconnectedAt := hostDisconnectedAt[key := now];
      }
      socketHosts := socketHosts - {ws};
    }

    /** Unbinds the sockets of `gone` one after another, in no particular order. */
    method UnbindSockets(gone: set<Socket>, now: int)
      requires SocketsAgree(SocketsNow())
      modifies this`hostSockets, this`socketHosts, this`hostDisconnectedAt
      ensures SocketsNow() == UnbindAll(old(SocketsNow()), gone, now)
    {
      ghost var before, done: set<Socket> := SocketsNow(), {};
      var todo := gone;
      UnbindNothing(before, now);
      while todo != {}
        invariant done !! todo && done + todo == gone
        invariant SocketsNow() == UnbindAll(before, done, now)
      {
        var ws :| ws in todo;
        UnbindAllAddsOne(before, done, ws, now);
        UnbindSocket(ws, now);
        todo, done := todo - {ws}, done + {ws};
      }
      assert done == gone;
    }

    method ClearPendingRegistration(ws: Socket)
      modifies this`pendingRegistrations, this`pendingRegistrationClaims
      ensures ChallengesNow() == ClearPending(old(ChallengesNow()), ws)
    {
      if ws !in pendingRegistrations { return; }
      var claim := pendingRegistrations[ws].key;
      pendingRegistrations := pendingRegistrations - {ws};
      if claim in pendingRegistrationClaims && pendingRegistrationClaims[claim] == ws {
        pendingRegistrationClaims := pendingRegistrationClaims - {claim};
      }
    }

    method DropOverdueChallenges(now: int)
      requires ClaimsAgree(ChallengesNow())
      modifies this`pendingRegistrations, this`pendingRegistrationClaims
      ensures ChallengesNow() == DropOverdue(old(ChallengesNow()), now)
    {
      ghost var before := ChallengesNow();
      var todo := set ws | ws in pendingRegistrations && pendingRegistrations[ws].expiresAt <= now;
      ghost var overdue, done: set<Socket> := todo, {};
      ClearNone(before);
      while todo != {}
        invariant done !! todo && done + todo == overdue
        invariant ChallengesNow() == ClearAll(before, done)
      {
        var ws :| ws in todo;
        ClearAllAddsOne(before, done, ws);
        ClearPendingRegistration(ws);
        todo, done := todo - {ws}, done + {ws};
      }
      assert done == overdue;
      ClearAllOverdue(before, now);
    }

    /** `cleanup` */
    method Sweep(now: int)
      requires Valid()
      modifies this
      ensures Valid() && State() == Cleanup(old(State()), now)
      ensures Disk() == old(Disk()).(memory := LedgerNow())
    {
      hide BridgeInvariants.Valid, Unbind, UnbindAll, DropOverdue, SocketsAgree, ClaimsAgree, Cleanup, ExpiredSockets, UnexpiredAccess;
      ghost var before := State();
      CleanupKeeps(before, now);
      ValidParts(before);
      records := UnexpiredRecords(records, now);
      var expired := ExpiredSockets(SocketsNow(), now);
      UnbindSockets(expired, now);
      DropOverdueChallenges(now);
      hostAccess := UnexpiredAccess(hostAccess, now);
      CleanupParts(before, now);
    }

    /** The socket's close handler. */
    method OnClose(ws: Socket, now: int)
      requires Valid()
      modifies this
      ensures Valid() && State() == Close(old(State()), ws, now) && Disk() == old(Disk())
    {
      hide BridgeInvariants.Valid, Unbind, ClearPending;
      CloseKeeps(State(), ws, now);
      ClearPendingRegistration(ws);
      UnbindSocket(ws, now);
    }

    // -------------------------------------------------------------- the state file

    /** `appendStateEvent`; when `works` is false the write throws before anything reaches the file. */
    method AppendStateEvent(e: Event, width: nat, works: bool) returns (written: bool)
      modifies this`stateFile, this`durableStateSeq, this`durableStateHash
      ensures written == works
      ensures stateFile == if works then old(stateFile) + AppendedText(old(Head(Disk())), e, width) else old(stateFile)
      ensures durableStateSeq == old(durableStateSeq) + if works then 1 else 0
      ensures durableStateHash == if works then NextEnvelope(old(Head(Disk())), e).hash else old(durableStateHash)
    {
      if !works { return false; }
      var envelope := NextEnvelope(Head(Disk()), e);
      stateFile := stateFile + LineText(envelope, width) + [Newline];
      assert LineText(envelope, width) + [Newline] == AppendedText(Head(Disk()), e, width);
      durableStateSeq := durableStateSeq + 1;
      durableStateHash := envelope.hash;
      return true;
    }

    /** The file keeps agreeing with memory when an accepted event is appended and then applied. */
    ghost predicate Recorded(before: Machine, e: Event, width: nat)
      reads this
    {
      RecordedAs(Disk(), before, e, width)
    }

    method ApplyHighWaterMark(mark: Mark) returns (ok: bool)
      modifies this`highWaterMarks
      ensures ok == MarkAdvances(old(highWaterMarks), mark)
      ensures highWaterMarks == if ok then old(highWaterMarks)[mark.key := mark] else old(highWaterMarks)
    {
      if mark.key in highWaterMarks {
        var current := highWaterMarks[mark.key];
        if mark.generation < current.generation { return false; }
        if mark.generation == current.generation && mark.grantId != current.grantId { return false; }
        if mark.epoch < current.epoch || mark.recordSeq <= current.recordSeq { return false; }
      }
      highWaterMarks := highWaterMarks[mark.key := mark];
      return true;
    }

    method ApplyPromotionVote(vote: Vote) returns (ok: bool)
      modifies this`promotionVotes
      ensures ok == (vote.key !in old(promotionVotes) || SameBallot(old(promotionVotes)[vote.key], vote))
      ensures promotionVotes == if vote.key in old(promotionVotes) then old(promotionVotes) else old(promotionVotes)[vote.key := vote]
    {
      if vote.key in promotionVotes { return SameBallot(promotionVotes[vote.key], vote); }
      promotionVotes := promotionVotes[vote.key := vote];
      return true;
    }

    // -------------------------------------------------------------- registration

    /** The second half of `commitRegistration`: publish the record and bind the socket. */
    method BindRegistration(ws: Socket, f: Frame, now: int)
      modifies this
      ensures State() == Admit(old(State()), old(LedgerNow()), ws, f, now) && Disk() == old(Disk())
    {
      hide Unbind, RecordExpiry, FrameBinding;
      records := records[FrameKey(f) := Stored(f.record, f.grant, RecordExpiry(f, now))];
      UnbindSocket(ws, now);
      BindingKey(f, now);
      var key := FrameKey(f);
      if key in hostSockets && hostSockets[key] != ws { UnbindSocket(hostSockets[key], now); }
      socketHosts := socketHosts[ws := FrameBinding(f, now)];
      hostSockets := hostSockets[key := ws];
      hostDisconnectedAt := hostDisconnectedAt - {key};
    }

    /** The first half of `commitRegistration`: a new mark is logged before it is applied. */
    method RecordMark(mark: Mark, width: nat, works: bool) returns (reject: Option<Reject>)
      requires MarkShape(mark) && MarkAdvances(highWaterMarks, mark)
      modifies this
      ensures reject == if (mark.key !in old(highWaterMarks) && |old(highWaterMarks)| >= MAX_DURABLE_ENTRIES) || !works then Some(Unavailable) else None
      ensures reject.None? ==> State() == old(State()).(ledger := WithMark(old(LedgerNow()), mark))
      ensures reject.None? ==> Recorded(old(Disk()), MarkEvent(mark), width)
      ensures reject.Some? ==> State() == old(State()) && Disk() == old(Disk())
    {
      hide MarkAdvances, AppendedText, NextEnvelope, MarkShape;
      if mark.key !in highWaterMarks && |highWaterMarks| >= MAX_DURABLE_ENTRIES { return Some(Unavailable); }
      var written := AppendStateEvent(MarkEvent(mark), width, works);
      if !written { return Some(Unavailable); }
      var ok := ApplyHighWaterMark(mark);
      return if ok then None else Some(Conflict);
    }

    /** `commitRegistration`, without the compaction it may trigger. */
    method CommitRegistration(ws: Socket, f: Frame, now: int, width: nat, works: bool) returns (reject: Option<Reject>)
      requires MarkShape(FrameMark(f)) && (Idempotent(highWaterMarks, f) || MarkAdvances(highWaterMarks, FrameMark(f)))
      modifies this
      ensures (State(), reject) == Commit(old(State()), ws, f, now, works)
      ensures if reject.None? && !Idempotent(old(highWaterMarks), f) then Recorded(old(Disk()), MarkEvent(FrameMark(f)), width) else Disk() == old(Disk())
    {
      hide Rebind, Idempotent, MarkAdvances, MarkShape, FrameKey, FrameMark, RecordedAs;
      MarkKey(f);
      if !Idempotent(highWaterMarks, f) {
        reject := RecordMark(FrameMark(f), width, works);
        if reject.Some? { return; }
      }
      BindRegistration(ws, f, now);
      return None;
    }

    /** `beginRegistration` */
    method BeginRegistration(ws: Socket, requestId: string, f: Frame, known: Option<Mark>, challenge: string, now: int)
      returns (reject: Option<Reject>)
      requires Valid()
      modifies this
      ensures Valid() && (State(), reject) == Begin(old(State()), ws, requestId, f, known, config, challenge, now)
      ensures Disk() == old(Disk()).(memory := LedgerNow())
    {
      hide BridgeInvariants.Valid, Cleanup, RegistrationFault, AccessValid, FrameKey;
      BeginKeeps(State(), ws, requestId, f, known, config, challenge, now);
      Sweep(now);
      if !(1 <= |requestId| <= 128) { return Some(InvalidInput); }
      if ws in pendingRegistrations { return Some(Conflict); }
      var fault := RegistrationFault(State(), f, known, config, now);
      if fault.Some? { return fault; }
      if !AccessValid(LedgerNow(), f, now) { return Some(Unauthorized); }
      if FrameKey(f) in pendingRegistrationClaims { return Some(Conflict); }
      var p := Pending(requestId, challenge, now, now + REGISTRATION_CHALLENGE_TTL_MS, FrameKey(f), f);
      pendingRegistrations := pendingRegistrations[ws := p];
      pendingRegistrationClaims := pendingRegistrationClaims[p.key := ws];
      return None;
    }

    /** `proveRegistration` */
    method ProveRegistration(ws: Socket, requestId: string, proof: Proof, known: Option<Mark>, now: int, width: nat, works: bool)
      returns (reject: Option<Reject>)
      requires Valid()
      modifies this
      ensures Valid() && (State(), reject) == Prove(old(State()), ws, requestId, proof, known, config, now, works)
      ensures Disk() == old(Disk()) || (exists m: Mark :: Recorded(old(Disk()), MarkEvent(m), width))
    {
      hide BridgeInvariants.Valid, RegistrationFault, ProofValid, Commit, ClearPending, Idempotent, MarkAdvances, FrameMark, MarkShape, RecordedAs;
      ghost var before := State();
      ProveKeeps(before, ws, requestId, proof, known, config, now, works);
      if ws !in pendingRegistrations { return Some(Unauthorized); }
      var p := pendingRegistrations[ws];
      ClearPendingRegistration(ws);
      if requestId != p.requestId || proof.challenge != p.challenge { return Some(Unauthorized); }
      if p.expiresAt <= now || !ProofValid(p, proof, now) { return Some(Unauthorized); }
      ClearedFault(before, ws, p.frame, known, config, now);
      var fault := RegistrationFault(State(), p.frame, known, config, now);
      if fault.Some? { return fault; }
      ValidatedMarkAdvances(State(), p.frame, known, config, now);
      reject := CommitRegistration(ws, p.frame, now, width, works);
    }

    // -------------------------------------------------------------- revocation

    method DropWithdrawnRecords(r: Revocation)
      modifies this`records
      ensures records == map k | k in old(records)
        && !Withdraws(r, k.scope, old(records)[k].grant.grantId, old(records)[k].grant.generation) :: old(records)[k]
    {
      ghost var before := records;
      var todo := records.Keys;
      while todo != {}
        invariant todo <= records.Keys <= before.Keys
        invariant forall k | k in records :: records[k] == before[k]
        invariant forall k | k in before && k !in todo ::
          (k in records <==> !Withdraws(r, k.scope, before[k].grant.grantId, before[k].grant.generation))
      {
        var k :| k in todo;
        if Withdraws(r, k.scope, records[k].grant.grantId, records[k].grant.generation) { records := records - {k}; }
        todo := todo - {k};
      }
    }

    method FloorMarks(r: Revocation)
      modifies this`highWaterMarks
      ensures highWaterMarks == map k | k in old(highWaterMarks) :: Floored(old(highWaterMarks)[k], r)
    {
      ghost var before := highWaterMarks;
      var todo := highWaterMarks.Keys;
      while todo != {}
        invariant todo <= highWaterMarks.Keys == before.Keys
        invariant forall k | k in before :: highWaterMarks[k] == if k in todo then before[k] else Floored(before[k], r)
      {
        var k :| k in todo;
        var mark := highWaterMarks[k];
        if mark.key.scope == r.key.scope && mark.grantId == r.key.grantId && mark.generation < r.generation {
          highWaterMarks := highWaterMarks[k := mark.(generation := r.generation)];
        }
        todo := todo - {k};
      }
    }

    /** The durable half of `applyRevocation`, and the records it withdraws. */
    method RecordRevoked(r: Revocation)
      modifies this`revokedGrants, this`records, this`highWaterMarks
      ensures LedgerNow() == WithRevocation(old(LedgerNow()), r)
      ensures records == map k | k in old(records)
        && !Withdraws(r, k.scope, old(records)[k].grant.grantId, old(records)[k].grant.generation) :: old(records)[k]
    {
      hide Withdraws, Floored;
      revokedGrants := revokedGrants[r.key := r];
      DropWithdrawnRecords(r);
      FloorMarks(r);
    }

    /** `applyRevocation` */
    method ApplyRevoked(r: Revocation, now: int)
      requires SocketsAgree(SocketsNow())
      modifies this
      ensures State() == ApplyRevocation(old(State()), r, now)
      ensures Disk() == old(Disk()).(memory := WithRevocation(old(LedgerNow()), r))
    {
      hide SocketsAgree, UnbindAll, Withdraws, WithdrawnSockets, WithRevocation;
      RecordRevoked(r);
      var withdrawn := WithdrawnSockets(SocketsNow(), r);
      UnbindSockets(withdrawn, now);
    }

    /** `revoke` of a verified revocation */
    method RevokeGrant(r: Revocation, now: int, width: nat, works: bool) returns (reject: Option<Reject>)
      requires Valid()
      modifies this
      ensures Valid() && (State(), reject) == Revoke(old(State()), r, now, works)
      ensures Disk() == old(Disk()) || Recorded(old(Disk()), RevocationEvent(r), width)
    {
      hide BridgeInvariants.Valid, JudgeRevocation, ApplyRevocation, WithRevocation, AppendedText, NextEnvelope;
      RevokeKeeps(State(), r, now, works);
      ValidParts(State());
      match JudgeRevocation(LedgerNow(), r) {
        case Repeated => return None;
        case Stale => return Some(Conflict);
        case Accepted =>
      }
      if r.key !in revokedGrants && |revokedGrants| >= MAX_DURABLE_ENTRIES { return Some(Unavailable); }
      var written := AppendStateEvent(RevocationEvent(r), width, works);
      if !written { return Some(Unavailable); }
      ApplyRevoked(r, now);
      return None;
    }

    // -------------------------------------------------------------- promotion votes

    /** `claimPromotionVote` */
    method ClaimPromotionVote(requestId: string, authority: Key, w: AbsenceWitness, known: Option<Mark>, open: set<Socket>,
                              now: int, width: nat, works: bool) returns (reply: VoteReply)
      requires Valid() && now >= 1 && KnownPrimary(highWaterMarks, Scope(authority, w.server), known)
      modifies this
      ensures Valid() && (State(), reply) == ClaimVote(old(State()), requestId, authority, w, known, open, config, now, works)
      ensures Disk() == old(Disk()) || Recorded(old(Disk()), VoteEvent(WitnessBallot(w, Scope(authority, w.server), now)), width)
    {
      hide BridgeInvariants.Valid, WitnessValid, Absent, AppendedText, NextEnvelope, KnownPrimary, WitnessBallot, SameBallot, IssueReceipt, DurableEntryCount, VoteShape;
      hide WellKept, Grace;
      ClaimVoteKeeps(State(), requestId, authority, w, known, open, config, now, works);
      var ballot := WitnessBallot(w, Scope(authority, w.server), now);
      if requestId == "" { return Refused(InvalidInput); }
      if !WitnessValid(w, config, now) { return Refused(Unauthorized); }
      if authority == "" { return Refused(InvalidInput); }
      if ballot.key in promotionVotes && !SameBallot(promotionVotes[ballot.key], ballot) { return Refused(Conflict); }
      if known.None? || known.value.key.hostId != w.primary || known.value.recordHash != w.primaryHash
        || known.value.epoch != w.primaryEpoch { return Refused(Conflict); }
      if !Absent(SocketsNow(), HostKey(Scope(authority, w.server), w.primary), open, Grace(config), now) { return Refused(Conflict); }
      if ballot.key !in promotionVotes {
        if DurableEntryCount(LedgerNow()) >= MAX_DURABLE_ENTRIES { return Refused(Unavailable); }
        ValidParts(State());
        BallotIsWell(LedgerNow(), Scope(authority, w.server), w, known, config, now);
        var written := AppendStateEvent(VoteEvent(ballot), width, works);
        if !written { return Refused(Unavailable); }
        var _ := ApplyPromotionVote(ballot);
      }
      return Granted(IssueReceipt(promotionVotes[ballot.key], w, config, requestId, now));
    }

    // -------------------------------------------------------------- loading and compacting

    /** One record of the state file, applied as the running process would have applied it. */
    method ApplyEvent(e: Event, now: int) returns (ok: bool)
      requires SocketsNow() == Sockets(map[], map[], map[]) && records == map[]
      modifies this
      ensures ok == Accept(old(LedgerNow()), e).Some?
      ensures ok ==> LedgerNow() == Accept(old(LedgerNow()), e).value
      ensures SocketsNow() == Sockets(map[], map[], map[]) && records == map[] && ChallengesNow() == old(ChallengesNow())
      ensures stateFile == old(stateFile) && durableStateSeq == old(durableStateSeq) && durableStateHash == old(durableStateHash)
    {
      hide MarkShape, VoteShape, JudgeRevocation, Floored;
      match e {
        case MarkEvent(mark) =>
          if !MarkShape(mark) { return false; }
          ok := ApplyHighWaterMark(mark);
        case VoteEvent(vote) =>
          if !VoteShape(vote) { return false; }
          ok := ApplyPromotionVote(vote);
        case RevocationEvent(r) =>
          match JudgeRevocation(LedgerNow(), r) {
            case Repeated => return true;
            case Stale => return false;
            case Accepted =>
              NothingToWithdraw(r, now);
              ApplyRevoked(r, now);
              return true;
          }
        case AccessEvent(access) =>
          hostAccess := hostAccess[access.key := access];
          return true;
        case PairingEvent(pairing) =>
          consumedPairingTokens := consumedPairingTokens[pairing.tokenHash := pairing];
          return true;
      }
    }

    /** One turn of the loading loop. */
    method ApplyLine(line: Text, now: int) returns (ok: bool)
      requires SocketsNow() == Sockets(map[], map[], map[]) && records == map[]
      modifies this
      ensures ok == ReadLine(old(Head(Disk())), line).Some?
      ensures ok ==> Head(Disk()) == ReadLine(old(Head(Disk())), line).value
      ensures SocketsNow() == Sockets(map[], map[], map[]) && records == map[] && ChallengesNow() == old(ChallengesNow())
      ensures stateFile == old(stateFile)
    {
      hide Accept, Parse, Chained;
      if line == [] { return true; }
      var parsed := Parse(line);
      if parsed.None? || !Chained(Head(Disk()), parsed.value) { return false; }
      ok := ApplyEvent(parsed.value.event, now);
      if ok { durableStateSeq, durableStateHash := parsed.value.seq_, parsed.value.hash; }
    }

    /** `loadRendezvousState` in a fresh process; `false` is its corruption error. */
    method LoadState(file: Text, now: int) returns (ok: bool)
      requires State() == Restart(EMPTY)
      modifies this
      ensures ok == Reloaded(file).Some?
      ensures ok ==> State() == Restart(Reloaded(file).value.memory) && Disk() == Reloaded(file).value
    {
      hide ReadLine;
      stateFile := file[..CleanLength(file)];
      durableStateSeq, durableStateHash := 0, Genesis;
      var rest := stateFile;
      while FirstNewline(rest) < |rest|
        invariant SocketsNow() == Sockets(map[], map[], map[]) && records == map[] && ChallengesNow() == Challenges(map[], map[])
        invariant stateFile == Truncated(file)
        invariant Load(file) == ReadFrom(Head(Disk()), rest)
        decreases |rest|
      {
        var n := FirstNewline(rest);
        ok := ApplyLine(rest[..n], now);
        if !ok { return; }
        rest := rest[n + 1..];
      }
      return true;
    }

    /** `maybeCompactState` once its size threshold is met. The maps may be enumerated in any order. */
    method CompactState(now: int) returns (ghost order: Order, ghost widths: seq<nat>)
      requires Valid()
      modifies this
      ensures Valid() && State() == Cleanup(old(State()), now)
      ensures CompactFits(old(Disk()).(memory := LedgerNow()), order, widths, now)
      ensures Compacted(old(Disk()).(memory := LedgerNow()), order, widths, now) == Some(Disk())
    {
      hide BridgeInvariants.Valid, Cleanup, Checkpoint, Covers, WrittenText, Written, Load, UnexpiredAccess, WellKept;
      Sweep(now);
      ValidParts(State());
      ghost var swept := Disk();
      var l := LedgerNow();
      SweptIsUnexpired(old(State()), now);
      var revocations := Enumerate(revokedGrants.Keys);
      var pairings := Enumerate(consumedPairingTokens.Keys);
      var marks := Enumerate(highWaterMarks.Keys);
      var votes := Enumerate(promotionVotes.Keys);
      var access := Enumerate(UnexpiredAccess(hostAccess, now).Keys);
      var o := Order(revocations, pairings, marks, votes, access);
      var text, seq_, hash, lengths := WriteLines(Checkpoint(l, o, now));
      CompactedFileLoads(l, o, lengths, now);
      order, widths := o, lengths;
      stateFile, durableStateSeq, durableStateHash := text, seq_, hash;
      UnexpiredIsUnexpired(l, now);
      ChainIsWritten(BLANK, Checkpoint(l, o, now));
    }
  }

  /** Iterates over a set of keys, in an order nobody may rely on. */
  method Enumerate<K(!new)>(keys: set<K>) returns (ks: seq<K>)
    ensures Covers(ks, keys)
  {
    ks := [];
    var todo := keys;
    while todo != {}
      invariant todo <= keys && Distinct(ks)
      invariant forall i | 0 <= i < |ks| :: ks[i] in keys && ks[i] !in todo
      invariant forall k | k in keys && k !in todo :: k in ks
    {
      var k :| k in todo;
      ks := ks + [k];
      todo := todo - {k};
    }
  }

  /** The sequence number and hash after a chain of events. */
  function ChainAfter(log: Log, events: seq<Event>): Log
    decreases |events|
  {
    if events == [] then log else ChainAfter(Advanced(log, events[0], EMPTY), events[1..])
  }

  lemma {:induction false} ChainSnoc(log: Log, events: seq<Event>, e: Event, widths: seq<nat>, width: nat)
    requires |widths| == |events|
    ensures ChainAfter(log, events + [e]) == Advanced(ChainAfter(log, events), e, EMPTY)
    ensures WrittenText(log, events + [e], widths + [width]) ==
      WrittenText(log, events, widths) + AppendedText(ChainAfter(log, events), e, width)
    decreases |events|
  {
    hide AppendedText;
    var more, wider := events + [e], widths + [width];
    if events == [] {
      assert more[1..] == [] && wider[1..] == [];
      assert WrittenText(Advanced(log, e, EMPTY), [], []) == [];
    } else {
      assert more[0] == events[0] && wider[0] == widths[0] && more[1..] == events[1..] + [e] && wider[1..] == widths[1..] + [width];
      ChainSnoc(Advanced(log, events[0], EMPTY), events[1..], e, widths[1..], width);
    }
  }

  lemma {:induction false} ChainIsWritten(log: Log, events: seq<Event>)
    ensures Written(log, events).Some? ==>
      Written(log, events).value.seq_ == ChainAfter(log, events).seq_ && Written(log, events).value.hash == ChainAfter(log, events).hash
    decreases |events|
  {
    if events != [] && Accept(log.ledger, events[0]).Some? {
      var next := Accept(log.ledger, events[0]).value;
      ChainIsWritten(Advanced(log, events[0], next), events[1..]);
      ChainIgnoresLedger(Advanced(log, events[0], next), Advanced(log, events[0], EMPTY), events[1..]);
    }
  }

  lemma {:induction false} ChainIgnoresLedger(a: Log, b: Log, events: seq<Event>)
    requires a.seq_ == b.seq_ && a.hash == b.hash
    ensures ChainAfter(a, events).seq_ == ChainAfter(b, events).seq_ && ChainAfter(a, events).hash == ChainAfter(b, events).hash
    decreases |events|
  {
    if events != [] { assert Advanced(a, events[0], EMPTY) == Advanced(b, events[0], EMPTY); }
  }

  /** The loop of `maybeCompactState` over its events; each line is as long as its JSON text happens to be. */
  method WriteLines(events: seq<Event>) returns (text: Text, seq_: nat, hash: LogHash, widths: seq<nat>)
    ensures |widths| == |events| && (forall i | 0 <= i < |widths| :: widths[i] >= 1)
    ensures text == WrittenText(BLANK, events, widths)
    ensures seq_ == ChainAfter(BLANK, events).seq_ && hash == ChainAfter(BLANK, events).hash
  {
    hide AppendedText, WrittenText, ChainAfter;
    text, seq_, hash, widths := [], 0, Genesis, [];
    WrittenNothing();
    for i := 0 to |events|
      invariant |widths| == i && (forall j | 0 <= j < |widths| :: widths[j] >= 1)
      invariant text == WrittenText(BLANK, events[..i], widths)
      invariant seq_ == ChainAfter(BLANK, events[..i]).seq_ && hash == ChainAfter(BLANK, events[..i]).hash
    {
      var width: nat :| width >= 1;
      var envelope := NextEnvelope(Log(EMPTY, seq_, hash), events[i]);
      ChainSnoc(BLANK, events[..i], events[i], widths, width);
      assert events[..i + 1] == events[..i] + [events[i]];
      SameText(Log(EMPTY, seq_, hash), ChainAfter(BLANK, events[..i]), events[i], width);
      text := text + AppendedText(Log(EMPTY, seq_, hash), events[i], width);
      seq_, hash, widths := envelope.seq_, envelope.hash, widths + [width];
    }
    assert events[..|events|] == events;
  }

  lemma WrittenNothing()
    ensures WrittenText(BLANK, [], []) == [] && ChainAfter(BLANK, []) == BLANK
  {
  }

  lemma UnexpiredIsUnexpired(l: Ledger, now: int)
    requires l.access == UnexpiredAccess(l.access, now)
    ensures Unexpired(l, now) == l
  {
  }

  lemma SweptIsUnexpired(s: BridgeState, now: int)
    ensures Cleanup(s, now).ledger.access == UnexpiredAccess(Cleanup(s, now).ledger.access, now)
  {
    UnexpiredLater(s.ledger.access, now, now);
  }

  lemma NothingToWithdraw(r: Revocation, now: int)
    ensures UnbindAll(Sockets(map[], map[], map[]), WithdrawnSockets(Sockets(map[], map[], map[]), r), now) == Sockets(map[], map[], map[])
  {
    assert WithdrawnSockets(Sockets(map[], map[], map[]), r) == {};
    UnbindNothing(Sockets(map[], map[], map[]), now);
  }

  lemma BindingKey(f: Frame, now: int)
    ensures FrameBinding(f, now).key == FrameKey(f)
  {
  }

  /** The file and memory of `before` after one event was accepted, appended and applied. */
  ghost predicate RecordedAs(after: Machine, before: Machine, e: Event, width: nat) {
    Accept(before.memory, e).Some? && after == Machine(
      before.text + AppendedText(Head(before), e, width), Accept(before.memory, e).value,
      before.seq_ + 1, NextEnvelope(Head(before), e).hash)
  }

  lemma MarkKey(f: Frame)
    ensures FrameMark(f).key == FrameKey(f)
  {
  }

  lemma ClearedFault(s: BridgeState, ws: Socket, f: Frame, known: Option<Mark>, c: Config, now: int)
    ensures RegistrationFault(Cleared(s, ws), f, known, c, now) == RegistrationFault(s, f, known, c, now)
  {
    hide RegistrationVerifies, CertificateValid;
  }

  lemma ValidatedMarkAdvances(s: BridgeState, f: Frame, known: Option<Mark>, c: Config, now: int)
    requires RegistrationFault(s, f, known, c, now).None?
    ensures MarkShape(FrameMark(f)) && (Idempotent(s.ledger.marks, f) || MarkAdvances(s.ledger.marks, FrameMark(f)))
  {
    ValidatedMarkIsAccepted(s, f, known, c, now);
    hide RegistrationFault;
  }

  function UnexpiredRecords(records: map<HostKey, Stored>, now: int): map<HostKey, Stored> {
    map k | k in records && records[k].expiresAt > now :: records[k]
  }

  lemma CleanupParts(s: BridgeState, now: int)
    ensures Cleanup(s, now) == BridgeState(
      s.ledger.(access := UnexpiredAccess(s.ledger.access, now)), UnexpiredRecords(s.records, now),
      UnbindAll(s.sockets, ExpiredSockets(s.sockets, now), now), DropOverdue(s.challenges, now))
  {
  }

  lemma ValidParts(s: BridgeState)
    requires BridgeInvariants.Valid(s)
    ensures SocketsAgree(s.sockets) && ClaimsAgree(s.challenges) && WellKept(s.ledger)
  {
  }

  /** `clearPendingRegistration` for every socket of a set. */
  ghost function ClearAll(c: Challenges, gone: set<Socket>): Challenges {
    Challenges(c.pending - gone, map key | key in c.claims && c.claims[key] !in gone :: c.claims[key])
  }

  lemma ClearNone(c: Challenges)
    ensures ClearAll(c, {}) == c
  {
    assert ClearAll(c, {}).pending == c.pending && ClearAll(c, {}).claims == c.claims;
  }

  lemma ClearAllAddsOne(c: Challenges, gone: set<Socket>, ws: Socket)
    requires ClaimsAgree(c) && ws !in gone && ws in c.pending
    ensures ClearPending(ClearAll(c, gone), ws) == ClearAll(c, gone + {ws})
  {
    var once, all := ClearPending(ClearAll(c, gone), ws), ClearAll(c, gone + {ws});
    assert once.pending == all.pending && once.claims == all.claims;
  }

  lemma ClearAllOverdue(c: Challenges, now: int)
    requires ClaimsAgree(c)
    ensures ClearAll(c, set ws | ws in c.pending && c.pending[ws].expiresAt <= now) == DropOverdue(c, now)
  {
    var gone := set ws | ws in c.pending && c.pending[ws].expiresAt <= now;
    assert ClearAll(c, gone).pending == DropOverdue(c, now).pending && ClearAll(c, gone).claims == DropOverdue(c, now).claims;
  }
}
