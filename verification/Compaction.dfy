/**
  * `maybeCompactState`: the state file is replaced by one event for everything the ledger holds, the
  * revocations first. Whatever order each map is enumerated in, the checkpoint replays to the same
  * ledger.
  */
module Compaction {
  import opened Community
  import opened BridgeLedger
  import opened Bridge
  import opened StateFile

  /** The order in which each map happens to be enumerated. */
  datatype Order = Order(
    revocations: seq<GrantKey>, pairings: seq<string>, marks: seq<HostKey>, votes: seq<ElectionKey>, access: seq<AccessKey>)

  predicate Covers<K(==)>(ks: seq<K>, keys: set<K>) {
    Distinct(ks) && (forall i | 0 <= i < |ks| :: ks[i] in keys) && (forall k | k in keys :: k in ks)
  }

  predicate Enumerates(o: Order, l: Ledger, now: int) {
    && Covers(o.revocations, l.revocations.Keys) && Covers(o.pairings, l.pairings.Keys)
    && Covers(o.marks, l.marks.Keys) && Covers(o.votes, l.votes.Keys)
    && Covers(o.access, UnexpiredAccess(l.access, now).Keys)
  }

  function Only<K, V>(m: map<K, V>, ks: seq<K>): map<K, V> {
    map k | k in m && k in ks :: m[k]
  }

  function RevocationEvents(l: Ledger, ks: seq<GrantKey>): seq<Event>
    requires forall i | 0 <= i < |ks| :: ks[i] in l.revocations
  {
    seq(|ks|, i requires 0 <= i < |ks| => RevocationEvent(l.revocations[ks[i]]))
  }

  function PairingEvents(l: Ledger, ks: seq<string>): seq<Event>
    requires forall i | 0 <= i < |ks| :: ks[i] in l.pairings
  {
    seq(|ks|, i requires 0 <= i < |ks| => PairingEvent(l.pairings[ks[i]]))
  }

  function MarkEvents(l: Ledger, ks: seq<HostKey>): seq<Event>
    requires forall i | 0 <= i < |ks| :: ks[i] in l.marks
  {
    seq(|ks|, i requires 0 <= i < |ks| => MarkEvent(l.marks[ks[i]]))
  }

  function VoteEvents(l: Ledger, ks: seq<ElectionKey>): seq<Event>
    requires forall i | 0 <= i < |ks| :: ks[i] in l.votes
  {
    seq(|ks|, i requires 0 <= i < |ks| => VoteEvent(l.votes[ks[i]]))
  }

  function AccessEvents(l: Ledger, ks: seq<AccessKey>): seq<Event>
    requires forall i | 0 <= i < |ks| :: ks[i] in l.access
  {
    seq(|ks|, i requires 0 <= i < |ks| => AccessEvent(l.access[ks[i]]))
  }

  /** The events of a compacted file, in the order they are written. */
  function Checkpoint(l: Ledger, o: Order, now: int): seq<Event>
    requires Enumerates(o, l, now)
  {
    RevocationEvents(l, o.revocations) + PairingEvents(l, o.pairings) + MarkEvents(l, o.marks)
    + VoteEvents(l, o.votes) + AccessEvents(l, o.access)
  }

  // ---------------------------------------------------------------- replaying one kind of event

  lemma OnlyMore<K, V>(m: map<K, V>, ks: seq<K>, n: nat)
    requires Distinct(ks) && |ks| == n + 1 && ks[n] in m
    ensures ks[n] !in Only(m, ks[..n]) && Only(m, ks[..n])[ks[n] := m[ks[n]]] == Only(m, ks) && Distinct(ks[..n])
  {
    assert ks == ks[..n] + [ks[n]];
  }

  lemma OnlyNone<K, V>(m: map<K, V>)
    ensures Only(m, []) == map[]
  {
  }

  lemma LastEvent(l: Ledger, events: seq<Event>)
    requires events != []
    ensures ReplayFrom(l, events) ==
      match ReplayFrom(l, events[..|events| - 1]) case None => None case Some(mid) => Accept(mid, events[|events| - 1])
  {
    var n := |events| - 1;
    assert events == events[..n] + [events[n]];
    ReplayConcat(l, events[..n], [events[n]]);
    match ReplayFrom(l, events[..n]) { case None => case Some(mid) => ReplayOne(mid, events[n]); }
  }

  // What one event of a well-kept ledger does to a ledger that has nothing under its key yet.

  lemma RevocationGoesIn(l: Ledger, mid: Ledger, k: GrantKey)
    requires WellKept(l) && k in l.revocations && k !in mid.revocations && mid.marks == map[]
    ensures Accept(mid, RevocationEvent(l.revocations[k])) == Some(mid.(revocations := mid.revocations[k := l.revocations[k]]))
  {
    assert JudgeRevocation(mid, l.revocations[k]).Accepted?;
    assert WithRevocation(mid, l.revocations[k]).marks == map[];
  }

  lemma PairingGoesIn(l: Ledger, mid: Ledger, k: string)
    requires WellKept(l) && k in l.pairings
    ensures Accept(mid, PairingEvent(l.pairings[k])) == Some(mid.(pairings := mid.pairings[k := l.pairings[k]]))
  {
  }

  lemma MarkGoesIn(l: Ledger, mid: Ledger, k: HostKey)
    requires WellKept(l) && k in l.marks && k !in mid.marks
    ensures Accept(mid, MarkEvent(l.marks[k])) == Some(mid.(marks := mid.marks[k := l.marks[k]]))
  {
  }

  lemma VoteGoesIn(l: Ledger, mid: Ledger, k: ElectionKey)
    requires WellKept(l) && k in l.votes && k !in mid.votes
    ensures Accept(mid, VoteEvent(l.votes[k])) == Some(mid.(votes := mid.votes[k := l.votes[k]]))
  {
  }

  lemma AccessGoesIn(l: Ledger, mid: Ledger, k: AccessKey)
    requires WellKept(l) && k in l.access
    ensures Accept(mid, AccessEvent(l.access[k])) == Some(mid.(access := mid.access[k := l.access[k]]))
  {
  }

  /** On a ledger without marks revocations go in one by one, whatever their order. */
  lemma {:induction false} ReplayRevocations(l: Ledger, base: Ledger, ks: seq<GrantKey>)
    requires WellKept(l) && Distinct(ks) && forall i | 0 <= i < |ks| :: ks[i] in l.revocations
    requires base.revocations == map[] && base.marks == map[]
    ensures ReplayFrom(base, RevocationEvents(l, ks)) == Some(base.(revocations := Only(l.revocations, ks)))
    decreases |ks|
  {
    hide Only, Accept, WellKept;
    var n := |ks| - 1;
    if ks == [] {
      OnlyNone(l.revocations);
    } else {
      OnlyMore(l.revocations, ks, n);
      ReplayRevocations(l, base, ks[..n]);
      LastEvent(base, RevocationEvents(l, ks));
      assert RevocationEvents(l, ks)[..n] == RevocationEvents(l, ks[..n]);
      var mid, r := base.(revocations := Only(l.revocations, ks[..n])), l.revocations[ks[n]];
      RevocationGoesIn(l, mid, ks[n]);
    }
  }

  lemma {:induction false} ReplayPairings(l: Ledger, base: Ledger, ks: seq<string>)
    requires WellKept(l) && Distinct(ks) && forall i | 0 <= i < |ks| :: ks[i] in l.pairings
    requires base.pairings == map[]
    ensures ReplayFrom(base, PairingEvents(l, ks)) == Some(base.(pairings := Only(l.pairings, ks)))
    decreases |ks|
  {
    hide Only, Accept, WellKept;
    var n := |ks| - 1;
    if ks == [] {
      OnlyNone(l.pairings);
    } else {
      OnlyMore(l.pairings, ks, n);
      ReplayPairings(l, base, ks[..n]);
      LastEvent(base, PairingEvents(l, ks));
      assert PairingEvents(l, ks)[..n] == PairingEvents(l, ks[..n]);
      PairingGoesIn(l, base.(pairings := Only(l.pairings, ks[..n])), ks[n]);
    }
  }

  /** Every host's only mark is its first one, so none is refused, whatever its generation. */
  lemma {:induction false} ReplayMarks(l: Ledger, base: Ledger, ks: seq<HostKey>)
    requires WellKept(l) && Distinct(ks) && forall i | 0 <= i < |ks| :: ks[i] in l.marks
    requires base.marks == map[]
    ensures ReplayFrom(base, MarkEvents(l, ks)) == Some(base.(marks := Only(l.marks, ks)))
    decreases |ks|
  {
    hide Only, Accept, WellKept;
    var n := |ks| - 1;
    if ks == [] {
      OnlyNone(l.marks);
    } else {
      OnlyMore(l.marks, ks, n);
      ReplayMarks(l, base, ks[..n]);
      LastEvent(base, MarkEvents(l, ks));
      assert MarkEvents(l, ks)[..n] == MarkEvents(l, ks[..n]);
      MarkGoesIn(l, base.(marks := Only(l.marks, ks[..n])), ks[n]);
    }
  }

  lemma {:induction false} ReplayVotes(l: Ledger, base: Ledger, ks: seq<ElectionKey>)
    requires WellKept(l) && Distinct(ks) && forall i | 0 <= i < |ks| :: ks[i] in l.votes
    requires base.votes == map[]
    ensures ReplayFrom(base, VoteEvents(l, ks)) == Some(base.(votes := Only(l.votes, ks)))
    decreases |ks|
  {
    hide Only, Accept, WellKept;
    var n := |ks| - 1;
    if ks == [] {
      OnlyNone(l.votes);
    } else {
      OnlyMore(l.votes, ks, n);
      ReplayVotes(l, base, ks[..n]);
      LastEvent(base, VoteEvents(l, ks));
      assert VoteEvents(l, ks)[..n] == VoteEvents(l, ks[..n]);
      VoteGoesIn(l, base.(votes := Only(l.votes, ks[..n])), ks[n]);
    }
  }

  lemma {:induction false} ReplayAccess(l: Ledger, base: Ledger, ks: seq<AccessKey>)
    requires WellKept(l) && Distinct(ks) && forall i | 0 <= i < |ks| :: ks[i] in l.access
    requires base.access == map[]
    ensures ReplayFrom(base, AccessEvents(l, ks)) == Some(base.(access := Only(l.access, ks)))
    decreases |ks|
  {
    hide Only, Accept, WellKept;
    var n := |ks| - 1;
    if ks == [] {
      OnlyNone(l.access);
    } else {
      OnlyMore(l.access, ks, n);
      ReplayAccess(l, base, ks[..n]);
      LastEvent(base, AccessEvents(l, ks));
      assert AccessEvents(l, ks)[..n] == AccessEvents(l, ks[..n]);
      AccessGoesIn(l, base.(access := Only(l.access, ks[..n])), ks[n]);
    }
  }

  lemma OnlyAll<K, V>(m: map<K, V>, ks: seq<K>)
    requires forall k | k in m :: k in ks
    ensures Only(m, ks) == m
  {
  }

  // ---------------------------------------------------------------- the checkpoint

  function Unexpired(l: Ledger, now: int): Ledger {
    l.(access := UnexpiredAccess(l.access, now))
  }

  /** Compaction preserves meaning: the checkpoint replays to the ledger itself, less expired host access. */
  lemma CheckpointReplays(l: Ledger, o: Order, now: int)
    requires WellKept(l) && Enumerates(o, l, now)
    ensures Replay(Checkpoint(l, o, now)) == Some(Unexpired(l, now))
  {
    var a, b, c, d := RevocationEvents(l, o.revocations), PairingEvents(l, o.pairings), MarkEvents(l, o.marks), VoteEvents(l, o.votes);
    var e := AccessEvents(l, o.access);
    ReplayRevocations(l, EMPTY, o.revocations);
    OnlyAll(l.revocations, o.revocations);
    var afterA := EMPTY.(revocations := l.revocations);
    ReplayPairings(l, afterA, o.pairings);
    OnlyAll(l.pairings, o.pairings);
    var afterB := afterA.(pairings := l.pairings);
    ReplayMarks(l, afterB, o.marks);
    OnlyAll(l.marks, o.marks);
    var afterC := afterB.(marks := l.marks);
    ReplayVotes(l, afterC, o.votes);
    OnlyAll(l.votes, o.votes);
    var afterD := afterC.(votes := l.votes);
    ReplayAccess(l, afterD, o.access);
    assert Only(l.access, o.access) == UnexpiredAccess(l.access, now);
    ReplayConcat(EMPTY, a, b);
    ReplayConcat(EMPTY, a + b, c);
    ReplayConcat(EMPTY, a + b + c, d);
    ReplayConcat(EMPTY, a + b + c + d, e);
  }

  /** Some revocation that would come too late: a mark of its grant already stands at its generation. */
  predicate Outruns(m: Mark, r: Revocation) {
    m.key.scope == r.key.scope && m.grantId == r.key.grantId && m.generation >= r.generation
  }

  lemma FlooringSparesOthers(m: Mark, r: Revocation, other: Revocation)
    requires r.key != other.key
    ensures Outruns(Floored(m, r), other) <==> Outruns(m, other)
  {
  }

  predicate NoneOutruns(marks: map<HostKey, Mark>, r: Revocation) {
    forall k | k in marks :: !Outruns(marks[k], r)
  }

  predicate OwnKeys(marks: map<HostKey, Mark>) {
    forall k | k in marks :: marks[k].key == k
  }

  lemma RevocationOverMarks(base: Ledger, r: Revocation)
    requires r.generation >= 1 && r.key !in base.revocations && OwnKeys(base.marks)
    ensures Accept(base, RevocationEvent(r)) == if NoneOutruns(base.marks, r) then Some(WithRevocation(base, r)) else None
  {
    if !NoneOutruns(base.marks, r) {
      var k :| k in base.marks && Outruns(base.marks[k], r);
      assert JudgeRevocation(base, r).Stale?;
    } else {
      assert JudgeRevocation(base, r).Accepted?;
    }
  }

  lemma FlooringKeepsKeys(marks: map<HostKey, Mark>, r: Revocation)
    requires OwnKeys(marks)
    ensures OwnKeys(map k | k in marks :: Floored(marks[k], r))
  {
  }

  lemma FlooringSparesAll(marks: map<HostKey, Mark>, r: Revocation, other: Revocation)
    requires r.key != other.key
    ensures NoneOutruns(map k | k in marks :: Floored(marks[k], r), other) <==> NoneOutruns(marks, other)
  {
    hide Outruns, Floored;
    var floored := map k | k in marks :: Floored(marks[k], r);
    forall k | k in marks ensures Outruns(floored[k], other) <==> Outruns(marks[k], other) {
      FlooringSparesOthers(marks[k], r, other);
    }
  }

  /** Revocations replayed over marks go through exactly if no mark outruns one of them. */
  lemma {:induction false} RevocationsOverMarks(l: Ledger, base: Ledger, ks: seq<GrantKey>)
    requires WellKept(l) && Distinct(ks) && forall i | 0 <= i < |ks| :: ks[i] in l.revocations && ks[i] !in base.revocations
    requires OwnKeys(base.marks)
    ensures ReplayFrom(base, RevocationEvents(l, ks)).Some? <==>
      forall i | 0 <= i < |ks| :: NoneOutruns(base.marks, l.revocations[ks[i]])
    decreases |ks|
  {
    hide Accept, NoneOutruns, Floored;
    if ks != [] {
      var r, events := l.revocations[ks[0]], RevocationEvents(l, ks);
      assert events[0] == RevocationEvent(r) && events[1..] == RevocationEvents(l, ks[1..]);
      RevocationOverMarks(base, r);
      if NoneOutruns(base.marks, r) {
        var next := WithRevocation(base, r);
        FlooringKeepsKeys(base.marks, r);
        RevocationsOverMarks(l, next, ks[1..]);
        forall i | 1 <= i < |ks| ensures NoneOutruns(next.marks, l.revocations[ks[i]]) <==> NoneOutruns(base.marks, l.revocations[ks[i]]) {
          FlooringSparesAll(base.marks, r, l.revocations[ks[i]]);
        }
        assert forall i | 0 <= i < |ks[1..]| :: ks[1..][i] == ks[i + 1];
        assert forall i | 1 <= i < |ks| :: ks[i] == ks[1..][i - 1];
      }
    }
  }

  /** Writing the marks first loads exactly if no mark has reached the generation of a revocation of its grant. */
  lemma MarksFirstLoadsIff(l: Ledger, marks: seq<HostKey>, revocations: seq<GrantKey>)
    requires WellKept(l) && Covers(marks, l.marks.Keys) && Covers(revocations, l.revocations.Keys)
    ensures Replay(MarkEvents(l, marks) + RevocationEvents(l, revocations)).Some? <==>
      forall g | g in l.revocations :: NoneOutruns(l.marks, l.revocations[g])
  {
    hide NoneOutruns, Accept;
    ReplayMarks(l, EMPTY, marks);
    OnlyAll(l.marks, marks);
    ReplayConcat(EMPTY, MarkEvents(l, marks), RevocationEvents(l, revocations));
    RevocationsOverMarks(l, EMPTY.(marks := l.marks), revocations);
  }

  /** After a revocation every mark of the grant stands at least at its generation: marks first would never load again. */
  lemma RevokedMarksOutrun(l: Ledger, r: Revocation, k: HostKey)
    requires k in l.marks && l.marks[k].key.scope == r.key.scope && l.marks[k].grantId == r.key.grantId
    ensures Outruns(WithRevocation(l, r).marks[k], r)
  {
  }

  // ---------------------------------------------------------------- the compacted file

  /** Sequence number and hash after writing `events` one after another, and the ledger they leave. */
  function Written(log: Log, events: seq<Event>): Option<Log>
    decreases |events|
  {
    if events == [] then Some(log)
    else match Accept(log.ledger, events[0])
      case None => None
      case Some(next) => Written(Advanced(log, events[0], next), events[1..])
  }

  function WrittenText(log: Log, events: seq<Event>, widths: seq<nat>): Text
    requires |widths| == |events|
    decreases |events|
  {
    if events == [] then []
    else AppendedText(log, events[0], widths[0]) + WrittenText(Advanced(log, events[0], EMPTY), events[1..], widths[1..])
  }

  /** What is written depends on the chain, not on the ledger. */
  lemma {:induction false} TextIgnoresLedger(a: Log, b: Log, events: seq<Event>, widths: seq<nat>)
    requires |widths| == |events| && a.seq_ == b.seq_ && a.hash == b.hash
    ensures WrittenText(a, events, widths) == WrittenText(b, events, widths)
    decreases |events|
  {
  }

  lemma {:induction false} WrittenIsReplay(log: Log, events: seq<Event>)
    ensures Written(log, events).Some? <==> ReplayFrom(log.ledger, events).Some?
    ensures Written(log, events).Some? ==>
      Written(log, events).value.ledger == ReplayFrom(log.ledger, events).value && Written(log, events).value.seq_ == log.seq_ + |events|
    decreases |events|
  {
    if events != [] && Accept(log.ledger, events[0]).Some? {
      WrittenIsReplay(Advanced(log, events[0], Accept(log.ledger, events[0]).value), events[1..]);
    }
  }

  lemma {:induction false} WrittenTextLoads(text: Text, log: Log, events: seq<Event>, widths: seq<nat>)
    requires Clean(text) && Load(text) == Some(log) && |widths| == |events| && Written(log, events).Some?
    requires forall i | 0 <= i < |widths| :: widths[i] >= 1
    ensures Clean(text + WrittenText(log, events, widths)) && Load(text + WrittenText(log, events, widths)) == Written(log, events)
    decreases |events|
  {
    hide Load, Accept, AppendedText;
    if events == [] {
      assert text + WrittenText(log, events, widths) == text;
    } else {
      var e, next := events[0], Accept(log.ledger, events[0]).value;
      var first, rest := AppendedText(log, e, widths[0]), WrittenText(Advanced(log, e, next), events[1..], widths[1..]);
      AppendLoads(text, log, e, widths[0]);
      WrittenTextLoads(text + first, Advanced(log, e, next), events[1..], widths[1..]);
      TextIgnoresLedger(Advanced(log, e, next), Advanced(log, e, EMPTY), events[1..], widths[1..]);
      assert text + (first + rest) == (text + first) + rest;
    }
  }

  /** The file a compaction renames into place. */
  function CompactedText(l: Ledger, o: Order, widths: seq<nat>, now: int): Text
    requires Enumerates(o, l, now) && |widths| == |Checkpoint(l, o, now)|
  {
    WrittenText(BLANK, Checkpoint(l, o, now), widths)
  }

  function CompactedLog(l: Ledger, o: Order, now: int): Option<Log>
    requires Enumerates(o, l, now)
  {
    Written(BLANK, Checkpoint(l, o, now))
  }

  /** The compacted file loads without rejection, to the same ledger less expired access. */
  lemma CompactedFileLoads(l: Ledger, o: Order, widths: seq<nat>, now: int)
    requires WellKept(l) && Enumerates(o, l, now) && |widths| == |Checkpoint(l, o, now)|
    requires forall i | 0 <= i < |widths| :: widths[i] >= 1
    ensures var text := CompactedText(l, o, widths, now);
      Clean(text) && CompactedLog(l, o, now).Some? && Load(text) == CompactedLog(l, o, now)
      && CompactedLog(l, o, now).value.ledger == Unexpired(l, now)
      && CompactedLog(l, o, now).value.seq_ == |Checkpoint(l, o, now)|
  {
    var events := Checkpoint(l, o, now);
    CheckpointReplays(l, o, now);
    hide Checkpoint, Enumerates, Accept, Load;
    WrittenIsReplay(BLANK, events);
    assert Load([]) == Some(BLANK) by { LoadClean([]); assert FirstNewline([]) == 0; }
    WrittenTextLoads([], BLANK, events, widths);
    assert [] + WrittenText(BLANK, events, widths) == WrittenText(BLANK, events, widths);
  }
}
