/**
  * `registration-quorum.ts`: which bridges acknowledged the registration round now in force, which
  * of them are live, and the bounded write lease a strict live majority renews.
  *
  * `Acks` is the value of a `RegistrationAckQuorum` object and the functions on it say what each
  * method does; `Replay` is that value after a whole history of calls, and the lemmas below describe
  * it by what happened in the history alone.
  */
module RegistrationQuorum {
  import opened Community
  import opened Quorums

  datatype Binding = Binding(recordHash: RecordHash, epoch: nat, role: Role)

  datatype Acks<R> = Acks(
    active: Option<Binding>, acknowledged: set<BridgeId>, livenessRound: Option<R>, live: set<BridgeId>)

  function Empty<R>(): Acks<R> {
    Acks(None, {}, None, {})
  }

  datatype Call<R> =
    | Begin(binding: Binding)
    | Acknowledge(bridge: BridgeId, binding: Binding)
    | BeginLiveness(binding: Binding, round: R)
    | ConfirmLiveness(bridge: BridgeId, binding: Binding, round: R)
    | Clear
    | Remove(bridge: BridgeId)

  function Step<R(==)>(q: Acks<R>, bridges: set<BridgeId>, c: Call<R>): Acks<R> {
    match c
    case Begin(b) => if q.active == Some(b) then q else Acks(Some(b), {}, None, {})
    case Acknowledge(id, b) =>
      if id !in bridges || q.active != Some(b) then q
      else q.(acknowledged := q.acknowledged + {id}, live := q.live + {id})
    case BeginLiveness(b, r) =>
      if q.active != Some(b) then q else q.(livenessRound := Some(r), live := {})
    case ConfirmLiveness(id, b, r) =>
      if q.active != Some(b) || q.livenessRound != Some(r) || id !in q.acknowledged then q
      else q.(live := q.live + {id})
    case Clear => Empty()
    case Remove(id) => q.(acknowledged := q.acknowledged - {id}, live := q.live - {id})
  }

  predicate HasStrictQuorum<R(==)>(q: Acks<R>, bridges: set<BridgeId>, b: Binding) {
    q.active == Some(b) && |q.acknowledged| >= Threshold(|bridges|)
  }

  predicate HasStrictLiveQuorum<R(==)>(q: Acks<R>, bridges: set<BridgeId>, b: Binding) {
    q.active == Some(b) && |q.live| >= Threshold(|bridges|)
  }

  // ---------------------------------------------------------------- a call history

  function Replay<R(==)>(calls: seq<Call<R>>, bridges: set<BridgeId>): Acks<R> {
    if calls == [] then Empty()
    else Step(Replay(calls[..|calls| - 1], bridges), bridges, calls[|calls| - 1])
  }

  /** `c` neither replaces the round for `b` nor forgets the acknowledgement of `id`. */
  predicate Keeps<R>(c: Call<R>, id: BridgeId, b: Binding) {
    match c
    case Begin(other) => other == b
    case Clear => false
    case Remove(other) => other != id
    case _ => true
  }

  /** The round for `b` is in force: some call began it, and no later call began another or cleared it. */
  ghost predicate InForce<R(!new)>(calls: seq<Call<R>>, b: Binding) {
    exists i :: 0 <= i < |calls| && calls[i] == Begin(b) && KeepsRound(calls, i, b)
  }

  ghost predicate KeepsRound<R(!new)>(calls: seq<Call<R>>, from: nat, b: Binding) {
    forall j :: from < j < |calls| ==> !calls[j].Clear? && (calls[j].Begin? ==> calls[j].binding == b)
  }

  /** `id` acknowledged exactly `b` while `b` was in force, and nothing since then took that back. */
  ghost predicate Counts<R(!new)>(calls: seq<Call<R>>, bridges: set<BridgeId>, id: BridgeId, b: Binding) {
    exists i :: 0 <= i < |calls| && AcknowledgedAt(calls, bridges, i, id, b) && KeptSince(calls, i, id, b)
  }

  ghost predicate AcknowledgedAt<R(!new)>(calls: seq<Call<R>>, bridges: set<BridgeId>, i: nat, id: BridgeId, b: Binding)
    requires i < |calls|
  {
    id in bridges && calls[i] == Acknowledge(id, b) && InForce(calls[..i], b)
  }

  ghost predicate KeptSince<R(!new)>(calls: seq<Call<R>>, from: nat, id: BridgeId, b: Binding) {
    forall j :: from < j < |calls| ==> Keeps(calls[j], id, b)
  }

  /** `id` gave fresh evidence for `b`, and neither a new liveness round nor anything else wiped it since. */
  ghost predicate CountsLive<R(!new)>(calls: seq<Call<R>>, bridges: set<BridgeId>, id: BridgeId, b: Binding) {
    exists i :: 0 <= i < |calls| && EvidenceAt(calls, bridges, i, id, b) && KeptLiveSince(calls, i, id, b)
  }

  /** Fresh evidence is an acknowledgement, or a reply to the liveness round running at that moment. */
  ghost predicate EvidenceAt<R(!new)>(calls: seq<Call<R>>, bridges: set<BridgeId>, i: nat, id: BridgeId, b: Binding)
    requires i < |calls|
  {
    || AcknowledgedAt(calls, bridges, i, id, b)
    || (&& calls[i].ConfirmLiveness? && calls[i].bridge == id && calls[i].binding == b
        && Counts(calls[..i], bridges, id, b) && Running(calls[..i], b, calls[i].round))
  }

  /** Round `r` is the last one begun for `b` since the round for `b` came into force. */
  ghost predicate Running<R(!new)>(calls: seq<Call<R>>, b: Binding, r: R) {
    exists i :: 0 <= i < |calls| && calls[i] == BeginLiveness(b, r) && InForce(calls[..i], b) && NoRoundSince(calls, i, b)
  }

  predicate WipesLive<R>(c: Call<R>, b: Binding) {
    c.Clear? || (c.Begin? && c.binding != b) || (c.BeginLiveness? && c.binding == b)
  }

  ghost predicate NoRoundSince<R(!new)>(calls: seq<Call<R>>, from: nat, b: Binding) {
    forall j :: from < j < |calls| ==> !WipesLive(calls[j], b)
  }

  ghost predicate KeptLiveSince<R(!new)>(calls: seq<Call<R>>, from: nat, id: BridgeId, b: Binding) {
    forall j :: from < j < |calls| ==> !WipesLive(calls[j], b) && Keeps(calls[j], id, b)
  }

  lemma {:induction false} ActiveIsInForce<R(!new)>(calls: seq<Call<R>>, bridges: set<BridgeId>, b: Binding)
    ensures Replay(calls, bridges).active == Some(b) <==> InForce(calls, b)
  {
    if calls != [] {
      var n := |calls| - 1;
      var before, last := calls[..n], calls[n];
      ActiveIsInForce(before, bridges, b);
      if InForce(before, b) && !last.Clear? && (last.Begin? ==> last.binding == b) {
        var i :| 0 <= i < |before| && before[i] == Begin(b) && KeepsRound(before, i, b);
        assert calls[i] == Begin(b) && KeepsRound(calls, i, b);
      } else if last == Begin(b) {
        assert calls[n] == Begin(b) && KeepsRound(calls, n, b);
      } else if InForce(calls, b) {
        var i :| 0 <= i < |calls| && calls[i] == Begin(b) && KeepsRound(calls, i, b);
        assert before[i] == Begin(b) && KeepsRound(before, i, b);
      }
    }
  }

  lemma CountsUnfolds<R(!new)>(calls: seq<Call<R>>, bridges: set<BridgeId>, id: BridgeId, b: Binding)
    requires calls != []
    ensures var n := |calls| - 1;
      Counts(calls, bridges, id, b) <==>
        AcknowledgedAt(calls, bridges, n, id, b) || (Counts(calls[..n], bridges, id, b) && Keeps(calls[n], id, b))
  {
    var n := |calls| - 1;
    var before := calls[..n];
    if Counts(calls, bridges, id, b) {
      var i :| 0 <= i < |calls| && AcknowledgedAt(calls, bridges, i, id, b) && KeptSince(calls, i, id, b);
      if i < n {
        assert before[..i] == calls[..i];
        assert AcknowledgedAt(before, bridges, i, id, b) && KeptSince(before, i, id, b);
      }
    }
    if AcknowledgedAt(calls, bridges, n, id, b) {
      assert KeptSince(calls, n, id, b);
    }
    if Counts(before, bridges, id, b) && Keeps(calls[n], id, b) {
      var i :| 0 <= i < |before| && AcknowledgedAt(before, bridges, i, id, b) && KeptSince(before, i, id, b);
      assert before[..i] == calls[..i];
      assert AcknowledgedAt(calls, bridges, i, id, b) && KeptSince(calls, i, id, b);
    }
  }

  /** Acknowledgements refine the history: exactly the bridges that count for the round in force. */
  lemma {:induction false} AcknowledgedIffCounts<R(!new)>(calls: seq<Call<R>>, bridges: set<BridgeId>, id: BridgeId, b: Binding)
    ensures (Replay(calls, bridges).active == Some(b) && id in Replay(calls, bridges).acknowledged)
      <==> Counts(calls, bridges, id, b)
  {
    if calls != [] {
      var n := |calls| - 1;
      AcknowledgedIffCounts(calls[..n], bridges, id, b);
      ActiveIsInForce(calls[..n], bridges, b);
      CountsUnfolds(calls, bridges, id, b);
    }
  }

  lemma RunningUnfolds<R(!new)>(calls: seq<Call<R>>, b: Binding, r: R)
    requires calls != []
    ensures var n := |calls| - 1;
      Running(calls, b, r) <==>
        (calls[n] == BeginLiveness(b, r) && InForce(calls[..n], b)) || (Running(calls[..n], b, r) && !WipesLive(calls[n], b))
  {
    var n := |calls| - 1;
    var before := calls[..n];
    if Running(calls, b, r) {
      var i :| 0 <= i < |calls| && calls[i] == BeginLiveness(b, r) && InForce(calls[..i], b) && NoRoundSince(calls, i, b);
      if i < n {
        assert before[..i] == calls[..i] && before[i] == BeginLiveness(b, r) && NoRoundSince(before, i, b);
      }
    }
    if calls[n] == BeginLiveness(b, r) && InForce(before, b) {
      assert NoRoundSince(calls, n, b);
    }
    if Running(before, b, r) && !WipesLive(calls[n], b) {
      var i :| 0 <= i < |before| && before[i] == BeginLiveness(b, r) && InForce(before[..i], b) && NoRoundSince(before, i, b);
      assert before[..i] == calls[..i] && calls[i] == BeginLiveness(b, r) && NoRoundSince(calls, i, b);
    }
  }

  lemma {:induction false} LivenessRoundIsRunning<R(!new)>(calls: seq<Call<R>>, bridges: set<BridgeId>, b: Binding, r: R)
    ensures (Replay(calls, bridges).active == Some(b) && Replay(calls, bridges).livenessRound == Some(r))
      <==> Running(calls, b, r)
  {
    if calls != [] {
      var n := |calls| - 1;
      LivenessRoundIsRunning(calls[..n], bridges, b, r);
      ActiveIsInForce(calls[..n], bridges, b);
      RunningUnfolds(calls, b, r);
    }
  }

  lemma CountsLiveLater<R(!new)>(calls: seq<Call<R>>, bridges: set<BridgeId>, id: BridgeId, b: Binding)
    requires calls != [] && CountsLive(calls, bridges, id, b) && !EvidenceAt(calls, bridges, |calls| - 1, id, b)
    ensures var n := |calls| - 1;
      CountsLive(calls[..n], bridges, id, b) && !WipesLive(calls[n], b) && Keeps(calls[n], id, b)
  {
    var n := |calls| - 1;
    var i :| 0 <= i < |calls| && EvidenceAt(calls, bridges, i, id, b) && KeptLiveSince(calls, i, id, b);
    assert i < n;
    assert calls[..n][..i] == calls[..i];
    assert EvidenceAt(calls[..n], bridges, i, id, b);
  }

  lemma CountsLiveStays<R(!new)>(calls: seq<Call<R>>, bridges: set<BridgeId>, id: BridgeId, b: Binding)
    requires calls != [] && CountsLive(calls[..|calls| - 1], bridges, id, b)
    requires !WipesLive(calls[|calls| - 1], b) && Keeps(calls[|calls| - 1], id, b)
    ensures CountsLive(calls, bridges, id, b)
  {
    var n := |calls| - 1;
    var i :| 0 <= i < n && EvidenceAt(calls[..n], bridges, i, id, b) && KeptLiveSince(calls[..n], i, id, b);
    assert calls[..n][..i] == calls[..i];
    assert EvidenceAt(calls, bridges, i, id, b);
    assert KeptLiveSince(calls, i, id, b);
  }

  lemma CountsLiveUnfolds<R(!new)>(calls: seq<Call<R>>, bridges: set<BridgeId>, id: BridgeId, b: Binding)
    requires calls != []
    ensures var n := |calls| - 1;
      CountsLive(calls, bridges, id, b) <==>
        || EvidenceAt(calls, bridges, n, id, b)
        || (CountsLive(calls[..n], bridges, id, b) && !WipesLive(calls[n], b) && Keeps(calls[n], id, b))
  {
    var n := |calls| - 1;
    if EvidenceAt(calls, bridges, n, id, b) {
      assert KeptLiveSince(calls, n, id, b);
    } else if CountsLive(calls, bridges, id, b) {
      CountsLiveLater(calls, bridges, id, b);
    } else if CountsLive(calls[..n], bridges, id, b) && !WipesLive(calls[n], b) && Keeps(calls[n], id, b) {
      CountsLiveStays(calls, bridges, id, b);
    }
  }

  /** The live set refines the history in the same way, with every new liveness round as a reset. */
  lemma {:induction false} LiveIffCountsLive<R(!new)>(calls: seq<Call<R>>, bridges: set<BridgeId>, id: BridgeId, b: Binding)
    ensures (Replay(calls, bridges).active == Some(b) && id in Replay(calls, bridges).live)
      <==> CountsLive(calls, bridges, id, b)
  {
    if calls != [] {
      var n := |calls| - 1;
      LiveIffCountsLive(calls[..n], bridges, id, b);
      ActiveIsInForce(calls[..n], bridges, b);
      AcknowledgedIffCounts(calls[..n], bridges, id, b);
      if calls[n].ConfirmLiveness? {
        LivenessRoundIsRunning(calls[..n], bridges, b, calls[n].round);
      }
      CountsLiveUnfolds(calls, bridges, id, b);
    }
  }

  /** Live implies acknowledged implies configured, after every history. */
  lemma {:induction false} LiveWithinAcknowledgedWithinConfigured<R>(calls: seq<Call<R>>, bridges: set<BridgeId>)
    ensures Replay(calls, bridges).live <= Replay(calls, bridges).acknowledged <= bridges
  {
    if calls != [] {
      LiveWithinAcknowledgedWithinConfigured(calls[..|calls| - 1], bridges);
    }
  }
}
