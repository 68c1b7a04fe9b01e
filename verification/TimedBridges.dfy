/** What each step of a bridge keeps of the timed invariant: who is bound, who was absent since when, who may still answer. */
module TimedBridges {
  import opened Community
  import opened BridgeLedger
  import opened Bridge
  import opened BridgeInvariants
  import opened HostWriter
  import opened Coordinator
  import opened Failover
  import opened TimedSystem

  // ---------------------------------------------------------------- sockets

  /** A socket that only ever serves one host: registering over it replaces the host's previous socket and nothing else. */
  lemma RebindOwn(k: Sockets, ws: Socket, b: Binding, now: int)
    requires SocketsAgree(k) && (ws in k.hostOf ==> k.hostOf[ws].key == b.key)
    ensures Rebind(k, ws, b, now).ofHost == k.ofHost[b.key := ws]
    ensures Rebind(k, ws, b, now).disconnectedAt == k.disconnectedAt - {b.key}
    ensures forall q | q in Rebind(k, ws, b, now).hostOf ::
      if q == ws then Rebind(k, ws, b, now).hostOf[q] == b else q in k.hostOf && Rebind(k, ws, b, now).hostOf[q] == k.hostOf[q]
  {
  }

  /** A step that binds nobody new: who is still bound stays known as bound, who is cut off is forgotten. */
  lemma SinceKept(p: Params, b: BridgeId, sockets: Sockets, sockets': Sockets, w: Wires, w': Wires, hist: History)
    requires SinceOk(p, b, sockets, w, hist) && BoundOk(p, b, sockets') && SocketsAgree(sockets) && SocketsAgree(sockets')
    requires sockets'.hostOf.Keys <= sockets.hostOf.Keys && w'.alive <= w.alive
    ensures SinceOk(p, b, sockets', w', Uncut(hist, CutOff(sockets, sockets', w'.alive)))
  {
  }

  // ---------------------------------------------------------------- steps that bind and unbind nobody

  /** The same sockets and marks, and no challenge that was not pending before. */
  predicate Fewer(v: BridgeState, v': BridgeState) {
    && v'.sockets == v.sockets && v'.ledger.marks == v.ledger.marks && FewerPending(v, v')
  }

  predicate FewerPending(v: BridgeState, v': BridgeState) {
    forall k | k in v'.challenges.pending :: k in v.challenges.pending && v'.challenges.pending[k] == v.challenges.pending[k]
  }

  lemma FewerIsOk(p: Params, b: BridgeId, v: BridgeState, v': BridgeState, w: Wires, net: Net, hist: History)
    requires BridgeOk(p, b, v, w, net, hist) && Fewer(v, v')
    ensures BridgeOk(p, b, v', w, net, hist) && Uncut(hist, CutOff(v.sockets, v'.sockets, w.alive)) == hist
  {
    assert CutOff(v.sockets, v'.sockets, w.alive) == {};
    hide DisconnectOk;
  }

  // ---------------------------------------------------------------- steps that unbind

  /** Every primary mark is of an epoch that has begun. */
  predicate MarksBegan(p: Params, marks: map<HostKey, Mark>, hist: History, now: int) {
    forall key | key in marks && key.scope == p.scope :: PrimaryBegan(marks, key, hist, now)
  }

  /** A revocation raises generations and touches neither role nor epoch. */
  predicate SameEpochs(marks: map<HostKey, Mark>, marks': map<HostKey, Mark>) {
    forall key | key in marks' :: key in marks && marks'[key].role == marks[key].role && marks'[key].epoch == marks[key].epoch
  }

  lemma DisconnectedNow(b: BridgeId, marks: map<HostKey, Mark>, hist: History, key: HostKey, now: int)
    requires forall c | c in hist.contacts :: c.at <= now
    requires key in marks ==> PrimaryBegan(marks, key, hist, now)
    ensures DisconnectOk(b, marks, hist, key, now)
  {
  }

  lemma UnboundKeepsDisconnects(p: Params, b: BridgeId, v: BridgeState, v': BridgeState, hist: History, hist': History, now: int)
    requires DisconnectsOk(p, b, v.sockets, v.ledger.marks, hist) && SameEpochs(v.ledger.marks, v'.ledger.marks)
    requires forall c | c in hist.contacts :: c.at <= now
    requires MarksBegan(p, v.ledger.marks, hist, now) && hist'.contacts == hist.contacts && hist'.began == hist.began
    requires forall key | key in v'.sockets.disconnectedAt ::
      v'.sockets.disconnectedAt[key] == now
      || (key in v.sockets.disconnectedAt && v'.sockets.disconnectedAt[key] == v.sockets.disconnectedAt[key])
    ensures DisconnectsOk(p, b, v'.sockets, v'.ledger.marks, hist')
  {
    hide PrimaryBegan;
    forall key | key in v'.sockets.disconnectedAt && key.scope == p.scope
      ensures DisconnectOk(b, v'.ledger.marks, hist', key, v'.sockets.disconnectedAt[key])
    {
      var d := v'.sockets.disconnectedAt[key];
      if d == now {
        DisconnectedNow(b, v.ledger.marks, hist, key, now);
      } else {
        assert DisconnectOk(b, v.ledger.marks, hist, key, d);
      }
      SameDisconnect(b, v.ledger.marks, v'.ledger.marks, hist, hist', key, d);
    }
    hide DisconnectOk;
  }

  lemma SameDisconnect(b: BridgeId, marks: map<HostKey, Mark>, marks': map<HostKey, Mark>, hist: History, hist': History, key: HostKey, d: int)
    requires DisconnectOk(b, marks, hist, key, d) && SameEpochs(marks, marks')
    requires hist'.contacts == hist.contacts && hist'.began == hist.began
    ensures DisconnectOk(b, marks', hist', key, d)
  {
  }

  /** Unbinding the sockets of a set, for whatever reason, at one moment. */
  lemma UnboundIsOk(p: Params, b: BridgeId, v: BridgeState, v': BridgeState, gone: set<Socket>, w: Wires, net: Net, hist: History, now: int)
    requires BridgeOk(p, b, v, w, net, hist) && SocketsAgree(v.sockets)
    requires v'.sockets == UnbindAll(v.sockets, gone, now) && FewerPending(v, v') && SameEpochs(v.ledger.marks, v'.ledger.marks)
    requires forall c | c in hist.contacts :: c.at <= now
    requires MarksBegan(p, v.ledger.marks, hist, now)
    ensures BridgeOk(p, b, v', w, net, Uncut(hist, CutOff(v.sockets, v'.sockets, w.alive)))
  {
    hide MarksBegan, SameEpochs, DisconnectsOk, SinceOk, AnsweredOk, PendingOk, FewerPending, CutOff;
    var hist' := Uncut(hist, CutOff(v.sockets, v'.sockets, w.alive));
    UnboundKeepsDisconnects(p, b, v, v', hist, hist', now);
    FewerAnswered(p, b, v, v', net, hist, CutOff(v.sockets, v'.sockets, w.alive));
    UnbindAllAgrees(v.sockets, gone, now);
    SinceKept(p, b, v.sockets, v'.sockets, w, w, hist);
    hide SocketsAgree;
  }

  lemma FewerAnswered(p: Params, b: BridgeId, v: BridgeState, v': BridgeState, net: Net, hist: History, cut: set<Socket>)
    requires PendingOk(p, b, v.challenges) && AnsweredOk(v.challenges, net, hist) && FewerPending(v, v')
    ensures PendingOk(p, b, v'.challenges) && AnsweredOk(v'.challenges, net, Uncut(hist, cut))
  {
  }

  lemma CleanedIsOk(p: Params, b: BridgeId, v: BridgeState, w: Wires, net: Net, hist: History, now: int)
    requires BridgeOk(p, b, v, w, net, hist) && SocketsAgree(v.sockets)
    requires forall c | c in hist.contacts :: c.at <= now
    requires MarksBegan(p, v.ledger.marks, hist, now)
    ensures BridgeOk(p, b, Cleanup(v, now), w, net, Uncut(hist, CutOff(v.sockets, Cleanup(v, now).sockets, w.alive)))
  {
    hide BridgeOk, UnbindAll, MarksBegan, SocketsAgree;
    UnboundIsOk(p, b, v, Cleanup(v, now), ExpiredSockets(v.sockets, now), w, net, hist, now);
  }

  lemma RevokedIsOk(p: Params, b: BridgeId, v: BridgeState, r: Revocation, persisted: bool, w: Wires, net: Net, hist: History, now: int)
    requires BridgeOk(p, b, v, w, net, hist) && SocketsAgree(v.sockets)
    requires forall c | c in hist.contacts :: c.at <= now
    requires MarksBegan(p, v.ledger.marks, hist, now)
    ensures var v' := Revoke(v, r, now, persisted).0; BridgeOk(p, b, v', w, net, Uncut(hist, CutOff(v.sockets, v'.sockets, w.alive)))
  {
    hide BridgeOk, UnbindAll, MarksBegan, SocketsAgree, JudgeRevocation, WithdrawnSockets, CutOff;
    var v' := Revoke(v, r, now, persisted).0;
    if v' == v {
      FewerIsOk(p, b, v, v', w, net, hist);
    } else {
      UnboundIsOk(p, b, v, v', WithdrawnSockets(v.sockets, r), w, net, hist, now);
    }
  }

  /** A fresh challenge has not been answered. */
  lemma ChallengedIsOk(p: Params, b: BridgeId, v: BridgeState, k: Socket, pending: Pending, w: Wires, net: Net, hist: History)
    requires BridgeOk(p, b, v, w, net, hist) && k.bridge == b && pending.key == KeyOf(p, k.host)
    requires forall m | m in net.proofs :: m.proof.challenge != pending.challenge
    ensures BridgeOk(p, b, v.(challenges := AddPending(v.challenges, k, pending)), w, net, hist)
  {
    hide DisconnectOk;
  }

  /** Beginning a registration sweeps first, and may then leave one more challenge pending. */
  lemma BeginCases(v: BridgeState, k: Socket, requestId: string, f: Frame, known: Option<Mark>, c: Config, nonce: string, now: int)
    ensures var v', clean := Begin(v, k, requestId, f, known, c, nonce, now).0, Cleanup(v, now);
      || v' == clean
      || v' == clean.(challenges := AddPending(clean.challenges, k,
                        Pending(requestId, nonce, now, now + REGISTRATION_CHALLENGE_TTL_MS, FrameKey(f), f)))
  {
    hide Cleanup, RegistrationFault, AccessValid;
  }

  lemma BegunIsOk(p: Params, b: BridgeId, v: BridgeState, k: Socket, requestId: string, f: Frame, known: Option<Mark>, c: Config,
                  nonce: string, w: Wires, net: Net, hist: History, now: int)
    requires BridgeOk(p, b, v, w, net, hist) && SocketsAgree(v.sockets) && k.bridge == b && FrameKey(f) == KeyOf(p, k.host)
    requires forall q | q in hist.contacts :: q.at <= now
    requires MarksBegan(p, v.ledger.marks, hist, now)
    requires forall m | m in net.proofs :: m.proof.challenge != nonce
    ensures var v' := Begin(v, k, requestId, f, known, c, nonce, now).0;
      BridgeOk(p, b, v', w, net, Uncut(hist, CutOff(v.sockets, v'.sockets, w.alive)))
  {
    hide BridgeOk, Cleanup, Begin, CutOff, SocketsAgree, MarksBegan;
    CleanedIsOk(p, b, v, w, net, hist, now);
    BeginCases(v, k, requestId, f, known, c, nonce, now);
    var clean := Cleanup(v, now);
    var hist' := Uncut(hist, CutOff(v.sockets, clean.sockets, w.alive));
    ChallengedIsOk(p, b, clean, k, Pending(requestId, nonce, now, now + REGISTRATION_CHALLENGE_TTL_MS, FrameKey(f), f), w, net, hist');
  }

  // ---------------------------------------------------------------- closing

  lemma ClosedIsOk(p: Params, b: BridgeId, v: BridgeState, k: Socket, w: Wires, net: Net, hist: History, now: int)
    requires BridgeOk(p, b, v, w, net, hist) && SocketsAgree(v.sockets) && ClaimsAgree(v.challenges)
    requires forall c | c in hist.contacts :: c.at <= now
    requires MarksBegan(p, v.ledger.marks, hist, now)
    ensures var w' := w.(alive := w.alive - {k});
      && BridgeOk(p, b, Close(v, k, now), w', net, hist)
      && Uncut(hist, CutOff(v.sockets, Close(v, k, now).sockets, w'.alive)) == hist
  {
    var v', w' := Close(v, k, now), w.(alive := w.alive - {k});
    hide DisconnectsOk, SinceOk, MarksBegan, AnsweredOk, PendingOk;
    assert CutOff(v.sockets, v'.sockets, w'.alive) == {};
    assert Uncut(hist, {}) == hist;
    UnbindAgrees(v.sockets, k, now);
    SinceKept(p, b, v.sockets, v'.sockets, w, w', hist);
    FewerAnswered(p, b, v, v', net, hist, {});
    UnboundKeepsDisconnects(p, b, v, v', hist, hist, now);
  }

  lemma RestartedIsOk(p: Params, b: BridgeId, v: BridgeState, ledger: Ledger, w: Wires, net: Net, hist: History)
    requires BoundOk(p, b, v.sockets)
    ensures var w' := w.(alive := set k | k in w.alive && k.bridge != b);
      && BridgeOk(p, b, Restart(ledger), w', net, hist)
      && Uncut(hist, CutOff(v.sockets, Restart(ledger).sockets, w'.alive)) == hist
  {
    assert CutOff(v.sockets, Restart(ledger).sockets, set k | k in w.alive && k.bridge != b) == {};
  }

  // ---------------------------------------------------------------- committing a registration

  lemma NotedCommits(hist: History, k: Socket, now: int)
    ensures Noted(hist, k, now).boundSince.Keys == hist.boundSince.Keys + {k}
    ensures forall q | q in hist.boundSince :: Noted(hist, k, now).boundSince[q] == hist.boundSince[q]
  {
  }

  /** A socket that proves itself is at least as new as every socket of its line that is bound. */
  lemma ProverIsNewest(challenges: Challenges, m: ProofMsg, w: Wires, net: Net, hist: History, q: Socket)
    requires AnsweredOk(challenges, net, hist) && WiresOk(w, hist) && m in net.proofs && Answers(challenges, m) && m.socket in w.seen
    requires q in hist.boundSince && IsNewest(w, q) && LineOf(q) == LineOf(m.socket)
    ensures q == m.socket
  {
    assert q.serial <= m.socket.serial;
  }

  /** `k` is bound now, its host's other socket gave way, and nothing else changed. */
  predicate Rebound(sockets: Sockets, sockets': Sockets, k: Socket, key: HostKey) {
    && SocketsAgree(sockets') && sockets'.ofHost == sockets.ofHost[key := k]
    && forall q | q in sockets'.hostOf && q != k :: q in sockets.hostOf && sockets'.hostOf[q] == sockets.hostOf[q]
  }

  lemma ReboundOpen(p: Params, b: BridgeId, sockets: Sockets, sockets': Sockets, k: Socket, w: Wires, hist: History, q: Socket)
    requires SinceOk(p, b, sockets, w, hist) && SocketsAgree(sockets) && Rebound(sockets, sockets', k, KeyOf(p, k.host))
    requires q in hist.boundSince && q !in CutOff(sockets, sockets', w.alive) && q in w.alive && q.bridge == b && q != k
    ensures BoundTo(p, sockets', q)
  {
    assert BoundTo(p, sockets, q) && q in sockets.hostOf;
    assert q in sockets'.hostOf;
  }

  lemma ReboundHeld(p: Params, b: BridgeId, sockets: Sockets, sockets': Sockets, k: Socket, w: Wires, hist: History, q: Socket)
    requires SinceOk(p, b, sockets, w, hist) && Rebound(sockets, sockets', k, KeyOf(p, k.host)) && q in sockets'.hostOf && q != k
    ensures q in hist.boundSince && q !in CutOff(sockets, sockets', w.alive)
  {
  }

  lemma CommittedKeepsSince(p: Params, b: BridgeId, sockets: Sockets, k: Socket, binding: Binding, w: Wires, hist: History, now: int)
    requires BoundOk(p, b, sockets) && SinceOk(p, b, sockets, w, hist) && SocketsAgree(sockets)
    requires k.bridge == b && binding.key == KeyOf(p, k.host)
    ensures var sockets' := Rebind(sockets, k, binding, now);
      SinceOk(p, b, sockets', w, Noted(Uncut(hist, CutOff(sockets, sockets', w.alive)), k, now))
  {
    hide Rebind, Noted, SocketsAgree, CutOff, BoundOk;
    var sockets' := Rebind(sockets, k, binding, now);
    assert Rebound(sockets, sockets', k, binding.key) by {
      RebindIsOwn(p, b, sockets, k, binding, now);
    }
    var cut := CutOff(sockets, sockets', w.alive);
    NotedCommits(Uncut(hist, cut), k, now);
    forall q | q in hist.boundSince && q !in cut && q in w.alive && q.bridge == b && q != k ensures BoundTo(p, sockets', q) {
      hide SinceOk;
      ReboundOpen(p, b, sockets, sockets', k, w, hist, q);
    }
    forall q | q in sockets'.hostOf && q != k ensures q in hist.boundSince && q !in cut {
      hide SinceOk;
      ReboundHeld(p, b, sockets, sockets', k, w, hist, q);
    }
  }

  lemma RebindIsOwn(p: Params, b: BridgeId, sockets: Sockets, k: Socket, binding: Binding, now: int)
    requires BoundOk(p, b, sockets) && SocketsAgree(sockets) && binding.key == KeyOf(p, k.host)
    ensures Rebound(sockets, Rebind(sockets, k, binding, now), k, binding.key)
  {
    RebindOwn(sockets, k, binding, now);
    RebindAgrees(sockets, k, binding, now);
    hide Rebind, SocketsAgree;
  }

  /** Registering displaces no socket that is the newest of its line. */
  lemma CommitSparesNewest(p: Params, b: BridgeId, v: BridgeState, m: ProofMsg, binding: Binding, w: Wires, net: Net, hist: History,
                           now: int, q: Socket)
    requires BoundOk(p, b, v.sockets) && AnsweredOk(v.challenges, net, hist) && SinceOk(p, b, v.sockets, w, hist)
    requires SocketsAgree(v.sockets) && WiresOk(w, hist)
    requires m in net.proofs && Answers(v.challenges, m) && m.socket in w.seen && m.socket.bridge == b
    requires binding.key == KeyOf(p, m.socket.host)
    requires q in CutOff(v.sockets, Rebind(v.sockets, m.socket, binding, now), w.alive)
    ensures !IsNewest(w, q)
  {
    RebindOwn(v.sockets, m.socket, binding, now);
    if IsNewest(w, q) {
      assert q.host == m.socket.host by { EvictedIsOwn(p, b, v.sockets, m.socket, binding, now, q); }
      ProverIsNewest(v.challenges, m, w, net, hist, q);
    }
  }

  lemma EvictedIsOwn(p: Params, b: BridgeId, sockets: Sockets, k: Socket, binding: Binding, now: int, q: Socket)
    requires BoundOk(p, b, sockets) && SocketsAgree(sockets) && binding.key == KeyOf(p, k.host)
    requires q in sockets.hostOf && q !in Rebind(sockets, k, binding, now).hostOf
    ensures q.host == k.host
  {
  }

  lemma CommittedKeepsAnswered(p: Params, b: BridgeId, challenges: Challenges, k: Socket, net: Net, hist: History, now: int)
    requires AnsweredOk(challenges, net, hist) && PendingOk(p, b, challenges) && ClaimsAgree(challenges) && k in challenges.pending
    ensures AnsweredOk(ClearPending(challenges, k), net, Noted(hist, k, now))
    ensures PendingOk(p, b, ClearPending(challenges, k))
  {
  }

  lemma CommittedKeepsBound(p: Params, b: BridgeId, sockets: Sockets, k: Socket, binding: Binding, hist: History, now: int)
    requires BoundOk(p, b, sockets) && SocketsAgree(sockets) && k.bridge == b && binding.key == KeyOf(p, k.host)
    ensures BoundOk(p, b, Rebind(sockets, k, binding, now))
  {
    RebindOwn(sockets, k, binding, now);
    hide Rebind, SocketsAgree;
  }

  lemma CommittedKeepsDisconnects(p: Params, b: BridgeId, sockets: Sockets, marks: map<HostKey, Mark>, marks': map<HostKey, Mark>,
                                  k: Socket, binding: Binding, hist: History, now: int)
    requires BoundOk(p, b, sockets) && SocketsAgree(sockets) && DisconnectsOk(p, b, sockets, marks, hist)
    requires k.bridge == b && binding.key == KeyOf(p, k.host)
    requires forall key | key in marks' && key != binding.key :: key in marks && marks'[key] == marks[key]
    ensures DisconnectsOk(p, b, Rebind(sockets, k, binding, now), marks', Noted(hist, k, now))
  {
    RebindOwn(sockets, k, binding, now);
    hide Rebind, SocketsAgree, BoundOk;
    forall key | key in sockets.disconnectedAt && key != binding.key && key.scope == p.scope
      ensures DisconnectOk(b, marks', Noted(hist, k, now), key, sockets.disconnectedAt[key])
    {
      assert DisconnectOk(b, marks, hist, key, sockets.disconnectedAt[key]);
    }
    hide DisconnectOk;
  }

  lemma CommittedIsOk(p: Params, b: BridgeId, v: BridgeState, ledger: Ledger, m: ProofMsg, f: Frame, w: Wires, net: Net, hist: History, now: int)
    requires BridgeOk(p, b, v, w, net, hist) && Valid(v) && WiresOk(w, hist)
    requires m in net.proofs && Answers(v.challenges, m) && m.socket in w.alive
    requires v.challenges.pending[m.socket].frame == f
    requires ledger.marks == v.ledger.marks || ledger == WithMark(v.ledger, FrameMark(f))
    ensures var v' := Admit(Cleared(v, m.socket), ledger, m.socket, f, now);
      && BridgeOk(p, b, v', w, net, Noted(Uncut(hist, CutOff(v.sockets, v'.sockets, w.alive)), m.socket, now))
      && forall q | q in CutOff(v.sockets, v'.sockets, w.alive) :: !IsNewest(w, q)
  {
    var k, binding := m.socket, FrameBinding(f, now);
    assert binding.key == KeyOf(p, k.host) && k.bridge == b;
    var sockets' := Rebind(v.sockets, k, binding, now);
    var uncut := Uncut(hist, CutOff(v.sockets, sockets', w.alive));
    CommittedKeepsSince(p, b, v.sockets, k, binding, w, hist, now);
    CommittedKeepsAnswered(p, b, v.challenges, k, net, uncut, now);
    CommittedKeepsBound(p, b, v.sockets, k, binding, uncut, now);
    DisconnectsIgnoreSockets(p, b, v.sockets, v.ledger.marks, hist, uncut);
    CommittedKeepsDisconnects(p, b, v.sockets, v.ledger.marks, ledger.marks, k, binding, uncut, now);
    forall q | q in CutOff(v.sockets, sockets', w.alive) ensures !IsNewest(w, q) {
      CommitSparesNewest(p, b, v, m, binding, w, net, hist, now, q);
    }
    hide Noted, BoundOk, DisconnectsOk, SinceOk, AnsweredOk, Rebind, ClearPending, SocketsAgree, WiresOk, IsNewest, CutOff, Uncut;
  }

  lemma DisconnectsIgnoreSockets(p: Params, b: BridgeId, sockets: Sockets, marks: map<HostKey, Mark>, hist: History, hist': History)
    requires DisconnectsOk(p, b, sockets, marks, hist) && hist' == hist.(boundSince := hist'.boundSince)
    ensures DisconnectsOk(p, b, sockets, marks, hist')
  {
    forall key | key in sockets.disconnectedAt && key.scope == p.scope
      ensures DisconnectOk(b, marks, hist', key, sockets.disconnectedAt[key])
    {
      assert DisconnectOk(b, marks, hist, key, sockets.disconnectedAt[key]);
    }
    hide DisconnectOk;
  }

  lemma ClearedIsFewer(v: BridgeState, k: Socket)
    ensures Fewer(v, Cleared(v, k))
  {
  }

  /** A commitment needs a pending challenge and the proof that answers it, and leaves the ledger as it was or adds the mark. */
  lemma ProveCases(v: BridgeState, ws: Socket, requestId: string, proof: Proof, known: Option<Mark>, c: Config, now: int, persisted: bool)
    ensures var (v', reject) := Prove(v, ws, requestId, proof, known, c, now, persisted);
      if reject.None? then
        ws in v.challenges.pending && v.challenges.pending[ws].challenge == proof.challenge
        && var f := v.challenges.pending[ws].frame;
        (v' == Admit(Cleared(v, ws), v.ledger, ws, f, now) || v' == Admit(Cleared(v, ws), WithMark(v.ledger, FrameMark(f)), ws, f, now))
      else v' == v || v' == Cleared(v, ws)
  {
    hide RegistrationFault, ProofValid, ClearPending, Admit, MarkAdvances, Idempotent;
  }

  /** The history after a proof at this bridge. */
  function AfterProof(hist: History, v: BridgeState, v': BridgeState, reject: Option<Reject>, k: Socket, alive: set<Socket>, now: int): History {
    var uncut := Uncut(hist, CutOff(v.sockets, v'.sockets, alive));
    if reject.None? then Noted(uncut, k, now) else uncut
  }

  lemma ProvenIsOk(p: Params, b: BridgeId, v: BridgeState, requestId: string, m: ProofMsg, known: Option<Mark>, c: Config,
                   persisted: bool, w: Wires, net: Net, hist: History, now: int)
    requires BridgeOk(p, b, v, w, net, hist) && Valid(v) && WiresOk(w, hist)
    requires m in net.proofs && m.socket in w.alive
    ensures var (v', reject) := Prove(v, m.socket, requestId, m.proof, known, c, now, persisted);
      && BridgeOk(p, b, v', w, net, AfterProof(hist, v, v', reject, m.socket, w.alive, now))
      && forall q | q in CutOff(v.sockets, v'.sockets, w.alive) :: !IsNewest(w, q)
  {
    var (v', reject) := Prove(v, m.socket, requestId, m.proof, known, c, now, persisted);
    ProveCases(v, m.socket, requestId, m.proof, known, c, now, persisted);
    hide Prove, BridgeOk, Valid, WiresOk, Admit, Noted, IsNewest, Uncut;
    if reject.None? {
      var f := v.challenges.pending[m.socket].frame;
      CommittedIsOk(p, b, v, v.ledger, m, f, w, net, hist, now);
      CommittedIsOk(p, b, v, WithMark(v.ledger, FrameMark(f)), m, f, w, net, hist, now);
    } else {
      ClearedIsFewer(v, m.socket);
      FewerIsOk(p, b, v, v', w, net, hist);
      assert CutOff(v.sockets, v'.sockets, w.alive) == {};
    }
  }

  // ---------------------------------------------------------------- steps elsewhere

  /** What happened elsewhere neither binds, cuts off, serves nor opens anything at bridge `b`. */
  predicate SameAt(b: BridgeId, w: Wires, w': Wires, hist: History, hist': History) {
    && (forall k | k in hist'.boundSince && k.bridge == b :: k in hist.boundSince && (k in w'.alive ==> k in w.alive))
    && (forall k | k in hist.boundSince && k.bridge == b :: k in hist'.boundSince)
    && (forall c | c in hist'.contacts && c.bridge == b :: c in hist.contacts)
    && (forall e | e in hist.began :: e in hist'.began && hist'.began[e] == hist.began[e])
  }

  lemma BridgeStays(p: Params, b: BridgeId, v: BridgeState, w: Wires, w': Wires, net: Net, net': Net, hist: History, hist': History)
    requires BridgeOk(p, b, v, w, net, hist) && SameAt(b, w, w', hist, hist') && net'.proofs == net.proofs
    ensures BridgeOk(p, b, v, w', net', hist')
  {
    forall key | key in v.sockets.disconnectedAt && key.scope == p.scope
      ensures DisconnectOk(b, v.ledger.marks, hist', key, v.sockets.disconnectedAt[key])
    {
      assert DisconnectOk(b, v.ledger.marks, hist, key, v.sockets.disconnectedAt[key]);
    }
    hide DisconnectOk;
  }

  /** A host only answers on its newest socket. */
  lemma AnsweredStays(challenges: Challenges, w: Wires, net: Net, hist: History, m: ProofMsg)
    requires AnsweredOk(challenges, net, hist) && WiresOk(w, hist) && IsNewest(w, m.socket)
    ensures AnsweredOk(challenges, net.(proofs := net.proofs + {m}), hist)
  {
    hide Answers;
  }

  /** Serving a bound socket is no contact with a disconnected host. */
  lemma ServingKeepsDisconnects(p: Params, b: BridgeId, v: BridgeState, w: Wires, net: Net, net': Net, hist: History, k: Socket, now: int)
    requires BridgeOk(p, b, v, w, net, hist) && SocketsAgree(v.sockets) && BoundTo(p, v.sockets, k) && net'.proofs == net.proofs
    ensures BridgeOk(p, b, v, w, net', hist.(contacts := hist.contacts + {Contact(b, k.host, now)}))
  {
    var hist' := hist.(contacts := hist.contacts + {Contact(b, k.host, now)});
    forall key | key in v.sockets.disconnectedAt && key.scope == p.scope
      ensures DisconnectOk(b, v.ledger.marks, hist', key, v.sockets.disconnectedAt[key])
    {
      assert DisconnectOk(b, v.ledger.marks, hist, key, v.sockets.disconnectedAt[key]);
    }
    hide DisconnectOk, SocketsAgree;
  }
}
