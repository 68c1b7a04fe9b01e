/** What every frame, close, cleanup, revocation and restart keeps at one bridge. */
module BridgeInvariants {
  import opened Community
  import opened BridgeLedger
  import opened Bridge

  /** `hostSockets` and `socketHosts` are inverse to each other; a disconnect time belongs to an unbound host. */
  predicate SocketsAgree(k: Sockets) {
    && (forall key | key in k.ofHost :: k.ofHost[key] in k.hostOf && k.hostOf[k.ofHost[key]].key == key)
    && (forall ws | ws in k.hostOf :: k.hostOf[ws].key in k.ofHost && k.ofHost[k.hostOf[ws].key] == ws)
    && (forall key | key in k.disconnectedAt :: key !in k.ofHost)
  }

  /** `pendingRegistrations` and `pendingRegistrationClaims` are inverse: one pending challenge per host. */
  predicate ClaimsAgree(c: Challenges) {
    && (forall ws | ws in c.pending :: c.pending[ws].key in c.claims && c.claims[c.pending[ws].key] == ws)
    && (forall ws | ws in c.pending :: c.pending[ws].key == FrameKey(c.pending[ws].frame))
    && (forall key | key in c.claims :: c.claims[key] in c.pending && c.pending[c.claims[key]].key == key)
  }

  predicate Valid(s: BridgeState) {
    WellKept(s.ledger) && SocketsAgree(s.sockets) && ClaimsAgree(s.challenges)
  }

  // ---------------------------------------------------------------- sockets and challenges

  lemma UnbindAgrees(k: Sockets, ws: Socket, now: int)
    requires SocketsAgree(k)
    ensures SocketsAgree(Unbind(k, ws, now)) && ws !in Unbind(k, ws, now).hostOf
  {
  }

  lemma UnbindAllAgrees(k: Sockets, gone: set<Socket>, now: int)
    requires SocketsAgree(k)
    ensures SocketsAgree(UnbindAll(k, gone, now))
  {
  }

  lemma UnbindNothing(k: Sockets, now: int)
    ensures UnbindAll(k, {}, now) == k
  {
    var u := UnbindAll(k, {}, now);
    assert u.ofHost == k.ofHost && u.hostOf == k.hostOf;
    assert Lost(k, {}) == {};
    assert u.disconnectedAt == k.disconnectedAt;
  }

  lemma LostAddsOne(k: Sockets, gone: set<Socket>, ws: Socket)
    ensures Lost(k, gone + {ws}) == Lost(k, gone) + if ws in k.hostOf then {k.hostOf[ws].key} else {}
  {
  }

  lemma UnbindAllHosts(k: Sockets, gone: set<Socket>, ws: Socket, now: int)
    requires SocketsAgree(k) && ws !in gone
    ensures Unbind(UnbindAll(k, gone, now), ws, now).ofHost == UnbindAll(k, gone + {ws}, now).ofHost
  {
    var once := UnbindAll(k, gone, now);
    assert ws in once.hostOf <==> ws in k.hostOf;
    assert ws in k.hostOf ==> once.hostOf[ws] == k.hostOf[ws];
    hide Lost;
  }

  lemma UnbindAllTimes(k: Sockets, gone: set<Socket>, ws: Socket, now: int)
    requires ws !in gone
    ensures Unbind(UnbindAll(k, gone, now), ws, now).disconnectedAt == UnbindAll(k, gone + {ws}, now).disconnectedAt
  {
    LostAddsOne(k, gone, ws);
    var once := UnbindAll(k, gone, now);
    assert ws in once.hostOf <==> ws in k.hostOf;
    assert ws in k.hostOf ==> once.hostOf[ws] == k.hostOf[ws];
  }

  /** Unbinding a set socket by socket, in any order, is unbinding it at once. */
  lemma UnbindAllAddsOne(k: Sockets, gone: set<Socket>, ws: Socket, now: int)
    requires SocketsAgree(k) && ws !in gone
    ensures Unbind(UnbindAll(k, gone, now), ws, now) == UnbindAll(k, gone + {ws}, now)
  {
    UnbindAllHosts(k, gone, ws, now);
    UnbindAllTimes(k, gone, ws, now);
    assert (k.hostOf - gone) - {ws} == k.hostOf - (gone + {ws});
    assert Unbind(UnbindAll(k, gone, now), ws, now).hostOf == UnbindAll(k, gone + {ws}, now).hostOf;
  }

  lemma EvictAgrees(k: Sockets, key: HostKey, ws: Socket, now: int)
    requires SocketsAgree(k) && ws !in k.hostOf
    ensures SocketsAgree(Evict(k, key, ws, now)) && key !in Evict(k, key, ws, now).ofHost && ws !in Evict(k, key, ws, now).hostOf
  {
  }

  lemma BindAgrees(k: Sockets, ws: Socket, b: Binding)
    requires SocketsAgree(k) && ws !in k.hostOf && b.key !in k.ofHost
    ensures SocketsAgree(Bind(k, ws, b))
  {
  }

  lemma RebindAgrees(k: Sockets, ws: Socket, b: Binding, now: int)
    requires SocketsAgree(k)
    ensures SocketsAgree(Rebind(k, ws, b, now))
  {
    UnbindAgrees(k, ws, now);
    EvictAgrees(Unbind(k, ws, now), b.key, ws, now);
    BindAgrees(Evict(Unbind(k, ws, now), b.key, ws, now), ws, b);
  }

  lemma ClearPendingAgrees(c: Challenges, ws: Socket)
    requires ClaimsAgree(c)
    ensures ClaimsAgree(ClearPending(c, ws)) && ws !in ClearPending(c, ws).pending
  {
  }

  lemma DropOverdueAgrees(c: Challenges, now: int)
    requires ClaimsAgree(c)
    ensures ClaimsAgree(DropOverdue(c, now))
  {
  }

  lemma AddPendingAgrees(c: Challenges, ws: Socket, p: Pending)
    requires ClaimsAgree(c) && ws !in c.pending && p.key !in c.claims && p.key == FrameKey(p.frame)
    ensures ClaimsAgree(AddPending(c, ws, p))
  {
  }

  // ---------------------------------------------------------------- each operation

  lemma RestartValid(l: Ledger)
    requires WellKept(l)
    ensures Valid(Restart(l))
  {
  }

  lemma CleanupKeeps(s: BridgeState, now: int)
    requires Valid(s)
    ensures Valid(Cleanup(s, now))
  {
    UnbindAllAgrees(s.sockets, ExpiredSockets(s.sockets, now), now);
    DropOverdueAgrees(s.challenges, now);
  }

  lemma BeginKeeps(s: BridgeState, ws: Socket, requestId: string, f: Frame, known: Option<Mark>, c: Config, challenge: string, now: int)
    requires Valid(s)
    ensures Valid(Begin(s, ws, requestId, f, known, c, challenge, now).0)
  {
    hide RegistrationFault, AccessValid, Cleanup, FrameKey, WellKept, SocketsAgree, ClaimsAgree;
    CleanupKeeps(s, now);
    var clean := Cleanup(s, now);
    if ws !in clean.challenges.pending && FrameKey(f) !in clean.challenges.claims {
      AddPendingAgrees(clean.challenges, ws, Pending(requestId, challenge, now, now + REGISTRATION_CHALLENGE_TTL_MS, FrameKey(f), f));
    }
  }

  /** Whatever validation accepts, the ledger accepts: an appended mark is never refused on replay. */
  lemma ValidatedMarkIsAccepted(s: BridgeState, f: Frame, known: Option<Mark>, c: Config, now: int)
    requires RegistrationFault(s, f, known, c, now).None?
    ensures MarkShape(FrameMark(f))
    ensures Idempotent(s.ledger.marks, f) || Accept(s.ledger, MarkEvent(FrameMark(f))) == Some(WithMark(s.ledger, FrameMark(f)))
  {
  }

  lemma CommitKeeps(s: BridgeState, ws: Socket, f: Frame, now: int, persisted: bool)
    requires Valid(s) && MarkShape(FrameMark(f))
    ensures Valid(Commit(s, ws, f, now, persisted).0)
  {
    hide Rebind, SocketsAgree, ClaimsAgree, MarkAdvances, Idempotent;
    RebindAgrees(s.sockets, ws, FrameBinding(f, now), now);
  }

  lemma ProveKeeps(s: BridgeState, ws: Socket, requestId: string, proof: Proof, known: Option<Mark>, c: Config, now: int, persisted: bool)
    requires Valid(s)
    ensures Valid(Prove(s, ws, requestId, proof, known, c, now, persisted).0)
  {
    hide RegistrationFault, ProofValid, Commit, ClearPending, WellKept, SocketsAgree, MarkShape, FrameMark, ClaimsAgree, Idempotent;
    ClearPendingAgrees(s.challenges, ws);
    if ws in s.challenges.pending {
      var f := s.challenges.pending[ws].frame;
      if RegistrationFault(s, f, known, c, now).None? {
        ValidatedMarkIsAccepted(s, f, known, c, now);
        CommitKeeps(Cleared(s, ws), ws, f, now, persisted);
      }
    }
  }

  lemma RevokeKeeps(s: BridgeState, r: Revocation, now: int, persisted: bool)
    requires Valid(s)
    ensures Valid(Revoke(s, r, now, persisted).0)
  {
    if JudgeRevocation(s.ledger, r).Accepted? {
      AcceptKeepsWell(s.ledger, RevocationEvent(r));
      UnbindAllAgrees(s.sockets, WithdrawnSockets(s.sockets, r), now);
    }
  }

  lemma ClaimVoteKeeps(s: BridgeState, requestId: string, authority: Key, w: AbsenceWitness, known: Option<Mark>,
                       open: set<Socket>, c: Config, now: int, persisted: bool)
    requires Valid(s) && now >= 1
    requires KnownPrimary(s.ledger.marks, Scope(authority, w.server), known)
    ensures Valid(ClaimVote(s, requestId, authority, w, known, open, c, now, persisted).0)
  {
    hide WitnessBallot, WitnessValid, Absent, SocketsAgree, ClaimsAgree, SameBallot, WellKept, IssueReceipt;
    var scope := Scope(authority, w.server);
    var (s', reply) := ClaimVote(s, requestId, authority, w, known, open, c, now, persisted);
    if s' != s {
      BallotIsWell(s.ledger, scope, w, known, c, now);
    }
  }

  /** The ballot of a valid witness for the primary the bridge knows has the shape replay demands. */
  lemma BallotIsWell(l: Ledger, scope: Scope, w: AbsenceWitness, known: Option<Mark>, c: Config, now: int)
    requires WellKept(l) && now >= 1 && WitnessValid(w, c, now)
    requires KnownPrimary(l.marks, scope, known) && known.Some?
    requires known.value.key.hostId == w.primary && known.value.recordHash == w.primaryHash
    ensures VoteShape(WitnessBallot(w, scope, now)) && WellKept(WithVote(l, WitnessBallot(w, scope, now)))
  {
    assert MarkShape(known.value);
  }

  lemma CloseKeeps(s: BridgeState, ws: Socket, now: int)
    requires Valid(s)
    ensures Valid(Close(s, ws, now)) && ws !in Close(s, ws, now).challenges.pending && ws !in Close(s, ws, now).sockets.hostOf
  {
    ClearPendingAgrees(s.challenges, ws);
    UnbindAgrees(s.sockets, ws, now);
  }

  // ---------------------------------------------------------------- what the vote checks mean

  /** A bound host is never voted absent, open socket or not: its disconnect time is gone. */
  lemma BoundVetoesVote(k: Sockets, key: HostKey, open: set<Socket>, grace: int, now: int)
    requires SocketsAgree(k) && key in k.ofHost
    ensures !Absent(k, key, open, grace, now)
  {
  }

  /**
    * An absence the bridge attests can be turned into its vote: while nothing has changed and the witness
    * is fresh, the claim is granted unless another candidate has the vote or the log takes no more.
    */
  lemma AttestedAbsenceIsVotedIff(s: BridgeState, scope: Scope, replica: HostId, known: Mark, open: set<Socket>, c: Config,
                                  observedAt: int, requestId: string, now: int, persisted: bool)
    requires observedAt <= now < observedAt + 5_000 && requestId != "" && scope.authority != "" && |replica| >= 1
    requires known.key.scope == scope
    ensures var w := ObservePrimary(s, scope, replica, known, open, c, observedAt);
      var ballot := WitnessBallot(w, scope, now);
      !w.primaryOnline ==>
        (ClaimVote(s, requestId, scope.authority, w, Some(known), open, c, now, persisted).1.Granted? <==>
          if ballot.key in s.ledger.votes then SameBallot(s.ledger.votes[ballot.key], ballot)
          else persisted && DurableEntryCount(s.ledger) < MAX_DURABLE_ENTRIES)
  {
    assert scope == Scope(scope.authority, scope.server);
    hide DurableEntryCount, Grace;
  }
}
