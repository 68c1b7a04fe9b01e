/**
  * The witness-set floor of `apps/janjanode/src/server.service.ts`: every bridge set that some
  * replica may still use as an election configuration. Resuming as writer needs a strict majority of
  * each of them, so the floor may only grow.
  */
module WitnessFloor {
  import opened Community
  import opened Quorums

  /** A set read from configuration, a grant, or a database row that may not parse. */
  datatype Candidate = Malformed | Bridges(ids: set<BridgeId>)

  datatype Floor = Floor(sets: seq<set<BridgeId>>, complete: bool)

  const MAX_SETS := 64
  const MAX_BRIDGES := 3

  const NOTHING := Floor([], true)

  /** The local `add` of `writerWitnessState`. */
  function Add(f: Floor, c: Candidate): Floor {
    if c.Malformed? || |c.ids| > MAX_BRIDGES then f.(complete := false)
    else if |c.ids| < 2 || c.ids in f.sets then f
    else if |f.sets| >= MAX_SETS then f.(complete := false)
    else f.(sets := f.sets + [c.ids])
  }

  function AddAll(f: Floor, cs: seq<Candidate>): Floor
    decreases |cs|
  {
    if cs == [] then f else AddAll(Add(f, cs[0]), cs[1..])
  }

  function AsCandidates(sets: seq<set<BridgeId>>): seq<Candidate> {
    seq(|sets|, i requires 0 <= i < |sets| => Bridges(sets[i]))
  }

  /** `writerWitnessState`: start from the persisted sets, then add what is known now. */
  function Compute(persisted: Floor, known: seq<Candidate>): Floor {
    AddAll(Floor([], persisted.complete), AsCandidates(persisted.sets) + known)
  }

  predicate Normal(f: Floor) {
    && |f.sets| <= MAX_SETS
    && (forall i | 0 <= i < |f.sets| :: 2 <= |f.sets[i]| <= MAX_BRIDGES)
    && (forall i, j | 0 <= i < j < |f.sets| :: f.sets[i] != f.sets[j])
  }

  /** `later` lists every set of `earlier` first, in the same order, and never regains a lost history. */
  predicate Extends(later: Floor, earlier: Floor) {
    earlier.sets <= later.sets && (later.complete ==> earlier.complete)
  }

  lemma AddNormal(f: Floor, c: Candidate)
    requires Normal(f)
    ensures Normal(Add(f, c)) && Extends(Add(f, c), f)
  {
  }

  lemma {:induction false} AddAllExtends(f: Floor, cs: seq<Candidate>)
    requires Normal(f)
    ensures Normal(AddAll(f, cs)) && Extends(AddAll(f, cs), f)
    decreases |cs|
  {
    if cs != [] {
      AddNormal(f, cs[0]);
      AddAllExtends(Add(f, cs[0]), cs[1..]);
    }
  }

  lemma {:induction false} AddAllConcat(f: Floor, first: seq<Candidate>, second: seq<Candidate>)
    ensures AddAll(f, first + second) == AddAll(AddAll(f, first), second)
    decreases |first|
  {
    if first == [] {
      assert first + second == second;
    } else {
      assert (first + second)[0] == first[0] && (first + second)[1..] == first[1..] + second;
      AddAllConcat(Add(f, first[0]), first[1..], second);
    }
  }

  /** Reading a normal floor back through `add` drops nothing and adds nothing. */
  lemma {:induction false} RereadsExactly(f: Floor, n: nat)
    requires Normal(f) && n <= |f.sets|
    ensures AddAll(Floor([], f.complete), AsCandidates(f.sets)[..n]) == Floor(f.sets[..n], f.complete)
    decreases n
  {
    var cs := AsCandidates(f.sets);
    if n > 0 {
      RereadsExactly(f, n - 1);
      assert cs[..n] == cs[..n - 1] + [cs[n - 1]];
      AddAllConcat(Floor([], f.complete), cs[..n - 1], [cs[n - 1]]);
      var before := Floor(f.sets[..n - 1], f.complete);
      assert [cs[n - 1]][1..] == [];
      assert AddAll(Add(before, cs[n - 1]), []) == Add(before, cs[n - 1]);
      assert AddAll(before, [cs[n - 1]]) == Add(before, cs[n - 1]);
      assert f.sets[..n] == f.sets[..n - 1] + [f.sets[n - 1]];
    }
  }

  /** The recomputed floor extends the persisted one, whatever is configured, enrolled or malformed now. */
  lemma ComputeExtends(persisted: Floor, known: seq<Candidate>)
    requires Normal(persisted)
    ensures Normal(Compute(persisted, known)) && Extends(Compute(persisted, known), persisted)
  {
    var n := |persisted.sets|;
    var cs := AsCandidates(persisted.sets);
    RereadsExactly(persisted, n);
    assert cs[..n] == cs && persisted.sets[..n] == persisted.sets;
    AddAllConcat(Floor([], persisted.complete), cs, known);
    AddAllExtends(persisted, known);
  }

  /** A set that fits is in the floor for good; only overflow keeps it out, and then the history is incomplete. */
  lemma {:induction false} KnownSetIsKeptOrHistoryLost(f: Floor, cs: seq<Candidate>, i: nat)
    requires Normal(f) && i < |cs|
    ensures var g := AddAll(f, cs);
      g.complete ==> cs[i].Bridges? && |cs[i].ids| <= MAX_BRIDGES && (|cs[i].ids| >= 2 ==> cs[i].ids in g.sets)
    decreases |cs|
  {
    AddNormal(f, cs[0]);
    var next := Add(f, cs[0]);
    AddAllExtends(next, cs[1..]);
    if i > 0 {
      KnownSetIsKeptOrHistoryLost(next, cs[1..], i - 1);
    } else if next.complete && cs[0].Bridges? && |cs[0].ids| >= 2 {
      var j :| 0 <= j < |next.sets| && next.sets[j] == cs[0].ids;
      assert AddAll(next, cs[1..]).sets[j] == next.sets[j];
    }
  }

  /** Adding `c` to `f` changes no set of it. */
  predicate Absorbed(f: Floor, c: Candidate) {
    c.Bridges? && 2 <= |c.ids| <= MAX_BRIDGES ==> c.ids in f.sets || |f.sets| >= MAX_SETS
  }

  lemma {:induction false} AddAllAbsorbs(f: Floor, cs: seq<Candidate>, i: nat)
    requires Normal(f) && i < |cs|
    ensures Absorbed(AddAll(f, cs), cs[i])
    decreases |cs|
  {
    AddNormal(f, cs[0]);
    var next := Add(f, cs[0]);
    AddAllExtends(next, cs[1..]);
    if i > 0 {
      AddAllAbsorbs(next, cs[1..], i - 1);
    } else if cs[0].Bridges? && cs[0].ids in next.sets {
      var j :| 0 <= j < |next.sets| && next.sets[j] == cs[0].ids;
      assert AddAll(next, cs[1..]).sets[j] == next.sets[j];
    }
  }

  lemma {:induction false} AbsorbedAddsNothing(f: Floor, cs: seq<Candidate>)
    requires forall i | 0 <= i < |cs| :: Absorbed(f, cs[i])
    ensures AddAll(f, cs).sets == f.sets
    decreases |cs|
  {
    if cs != [] {
      var next := Add(f, cs[0]);
      assert Absorbed(f, cs[0]);
      forall i | 0 <= i < |cs[1..]| ensures Absorbed(next, cs[1..][i]) {
        assert Absorbed(f, cs[i + 1]);
      }
      AbsorbedAddsNothing(next, cs[1..]);
    }
  }

  /** Reading a longer normal floor on top of one of its prefixes gives the longer floor's sets. */
  lemma {:induction false} RereadsOnPrefix(f: Floor, complete: bool, m: nat, n: nat)
    requires Normal(f) && m <= n <= |f.sets|
    ensures AddAll(Floor(f.sets[..m], complete), AsCandidates(f.sets)[..n]) == Floor(f.sets[..n], complete)
    decreases n
  {
    var cs, prefix := AsCandidates(f.sets), Floor(f.sets[..m], complete);
    if n == m {
      forall i | 0 <= i < m ensures cs[..m][i].ids in prefix.sets {
        assert prefix.sets[i] == f.sets[i];
      }
      PresentAddsNothing(prefix, cs[..m]);
    } else {
      RereadsOnPrefix(f, complete, m, n - 1);
      assert cs[..n] == cs[..n - 1] + [cs[n - 1]];
      AddAllConcat(prefix, cs[..n - 1], [cs[n - 1]]);
      var before := Floor(f.sets[..n - 1], complete);
      assert [cs[n - 1]][1..] == [];
      assert AddAll(Add(before, cs[n - 1]), []) == Add(before, cs[n - 1]);
      assert AddAll(before, [cs[n - 1]]) == Add(before, cs[n - 1]);
      assert f.sets[..n] == f.sets[..n - 1] + [f.sets[n - 1]];
    }
  }

  lemma {:induction false} PresentAddsNothing(f: Floor, cs: seq<Candidate>)
    requires forall i | 0 <= i < |cs| :: cs[i].Bridges? && cs[i].ids in f.sets && |cs[i].ids| <= MAX_BRIDGES
    ensures AddAll(f, cs) == f
    decreases |cs|
  {
    if cs != [] {
      assert Add(f, cs[0]) == f;
      PresentAddsNothing(f, cs[1..]);
    }
  }

  /** Persisting a floor that was just computed stores exactly the sets that were computed. */
  lemma ComputingTwiceIsOnce(persisted: Floor, extra: seq<Candidate>, known: seq<Candidate>)
    requires Normal(persisted)
    ensures var f := Compute(persisted, extra + known); Compute(persisted, AsCandidates(f.sets) + known).sets == f.sets
  {
    var f := Compute(persisted, extra + known);
    ComputeExtends(persisted, extra + known);
    var own, start, again := AsCandidates(persisted.sets), Floor([], persisted.complete), AsCandidates(f.sets);
    var n, m := |f.sets|, |persisted.sets|;
    RereadsExactly(persisted, m);
    assert own[..m] == own && persisted.sets[..m] == persisted.sets;
    assert f.sets[..m] == persisted.sets && f.sets[..n] == f.sets && again[..n] == again;
    RereadsOnPrefix(f, persisted.complete, m, n);
    AddAllConcat(start, own, again + known);
    AddAllConcat(persisted, again, known);
    forall i | 0 <= i < |known| ensures Absorbed(Floor(f.sets, persisted.complete), known[i]) {
      var all := own + (extra + known);
      AddAllAbsorbs(start, all, |own| + |extra| + i);
      assert all[|own| + |extra| + i] == known[i];
    }
    AbsorbedAddsNothing(Floor(f.sets, persisted.complete), known);
  }

  /** The acknowledgements that allow a suspended writer to resume. */
  predicate Suffices(acked: set<BridgeId>, configured: set<BridgeId>, sets: seq<set<BridgeId>>) {
    && configured != {}
    && StrictMajority(acked, configured)
    && forall i | 0 <= i < |sets| :: |acked * sets[i]| >= Threshold(|sets[i]|)
  }

  /** Acknowledgements that suffice meet every election quorum of every set in the floor. */
  lemma SufficientAcksMeetEveryElection(acked: set<BridgeId>, configured: set<BridgeId>, sets: seq<set<BridgeId>>, i: nat, election: set<BridgeId>)
    returns (common: BridgeId)
    requires Suffices(acked, configured, sets) && i < |sets| && StrictMajority(election, sets[i])
    ensures common in acked && common in election
  {
    common := MajoritiesMeet(acked * sets[i], election, sets[i]);
  }
}
