/**
  * `selectHostRegistrations` (`packages/networking/src/index.ts`): what a client makes of the host
  * registrations its bridges hand it, in whatever order they come.
  *
  * `OutcomeOf` says of each input what becomes of it; the lemmas below say that this is a decision
  * about the set of inputs, not their order, and what it leaves behind.
  */
module HostSelection {
  import opened Community

  /** A registration whose signatures verified, or anything else. */
  datatype Input = Malformed | Presented(entry: Entry)

  datatype Entry = Entry(
    hostId: HostId, grantId: GrantId, generation: nat, epoch: nat, recordSeq: nat, recordHash: string, previousHash: string)

  datatype ClientMark = ClientMark(grantId: GrantId, generation: nat, epoch: nat, recordSeq: nat, recordHash: string)

  datatype Options = Options(
    scope: Scope, prior: map<HostKey, ClientMark>, revoked: set<GrantId>, floors: map<HostId, nat>)

  datatype Reason = IsInvalid | IsRevoked | IsDowngrade | IsConflict | IsReplay | IsAmbiguous

  datatype Rejection = Rejection(index: nat, reason: Reason)

  function KeyIn(o: Options, h: HostId): HostKey { HostKey(o.scope, h) }

  function MarkOf(e: Entry): ClientMark {
    ClientMark(e.grantId, e.generation, e.epoch, e.recordSeq, e.recordHash)
  }

  function Floor(o: Options, h: HostId): nat {
    if h in o.floors then o.floors[h] else 0
  }

  predicate BelowPrior(o: Options, e: Entry) {
    exists k | k in o.prior :: k.scope == o.scope && e.epoch < o.prior[k].epoch
  }

  /** The checks of one input against revocations and the marks kept so far; `None` is a candidate. */
  function Screen(o: Options, v: Input): Option<Reason> {
    if v.Malformed? then Some(IsInvalid)
    else
      var e, k := v.entry, KeyIn(o, v.entry.hostId);
      if e.grantId in o.revoked || e.generation <= Floor(o, e.hostId) then Some(IsRevoked)
      else if BelowPrior(o, e) then Some(IsDowngrade)
      else if k !in o.prior then None
      else ScreenAgainst(o.prior[k], e)
  }

  function ScreenAgainst(previous: ClientMark, e: Entry): Option<Reason> {
    if e.generation < previous.generation || e.epoch < previous.epoch || e.recordSeq < previous.recordSeq then Some(IsDowngrade)
    else if e.generation == previous.generation && e.grantId != previous.grantId then Some(IsConflict)
    else if e.recordSeq == previous.recordSeq then
      Some(if e.recordHash == previous.recordHash then IsReplay else IsConflict)
    else if e.recordSeq != previous.recordSeq + 1 || e.previousHash != previous.recordHash then Some(IsConflict)
    else None
  }

  predicate Dominates(a: Entry, b: Entry) {
    && a.generation >= b.generation && a.epoch >= b.epoch && a.recordSeq >= b.recordSeq
    && (a.generation > b.generation || a.epoch > b.epoch || a.recordSeq > b.recordSeq)
  }

  // ---------------------------------------------------------------- the fate of each input

  predicate IsCandidate(vs: seq<Input>, o: Options, i: nat) {
    i < |vs| && vs[i].Presented? && Screen(o, vs[i]).None?
  }

  /** The last candidate of its host with its record hash; earlier ones are replays of it. */
  predicate IsLast(vs: seq<Input>, o: Options, i: nat) {
    IsCandidate(vs, o, i) && forall j | i < j < |vs| ::
      !(IsCandidate(vs, o, j) && vs[j].entry.hostId == vs[i].entry.hostId && vs[j].entry.recordHash == vs[i].entry.recordHash)
  }

  predicate IsMaximal(vs: seq<Input>, o: Options, i: nat) {
    IsLast(vs, o, i) && forall j | 0 <= j < |vs| ::
      !(IsLast(vs, o, j) && vs[j].entry.hostId == vs[i].entry.hostId && Dominates(vs[j].entry, vs[i].entry))
  }

  /** The only maximal registration of its host. */
  predicate IsSole(vs: seq<Input>, o: Options, i: nat) {
    IsMaximal(vs, o, i) && forall j | 0 <= j < |vs| ::
      (IsMaximal(vs, o, j) && vs[j].entry.hostId == vs[i].entry.hostId ==> j == i)
  }

  /** ... and of the highest epoch among those. */
  predicate IsSelected(vs: seq<Input>, o: Options, i: nat) {
    IsSole(vs, o, i) && forall j | 0 <= j < |vs| :: (IsSole(vs, o, j) ==> vs[j].entry.epoch <= vs[i].entry.epoch)
  }

  predicate HasSole(vs: seq<Input>, o: Options, h: HostId) {
    exists j | 0 <= j < |vs| :: IsSole(vs, o, j) && vs[j].entry.hostId == h
  }

  /** `None` is a selected input. */
  function OutcomeOf(vs: seq<Input>, o: Options, i: nat): Option<Reason>
    requires i < |vs|
  {
    if vs[i].Malformed? || Screen(o, vs[i]).Some? then Screen(o, vs[i])
    else if !IsLast(vs, o, i) then Some(IsReplay)
    else if IsSelected(vs, o, i) then None
    else if HasSole(vs, o, vs[i].entry.hostId) then Some(IsDowngrade)
    else Some(IsAmbiguous)
  }

  // ---------------------------------------------------------------- dominance

  lemma DominatesTransitive(a: Entry, b: Entry, c: Entry)
    requires Dominates(a, b) && Dominates(b, c)
    ensures Dominates(a, c) && a != c
  {
  }

  function Above(s: set<Entry>, e: Entry): set<Entry> {
    set d | d in s && Dominates(d, e)
  }

  predicate MaximalIn(s: set<Entry>, e: Entry) {
    e in s && forall d | d in s :: !Dominates(d, e)
  }

  /** In a finite set whatever is not maximal itself is dominated by something maximal. */
  lemma {:induction false} SomeMaximalAbove(s: set<Entry>, e: Entry) returns (m: Entry)
    requires e in s
    ensures MaximalIn(s, m) && (m == e || Dominates(m, e))
    decreases |Above(s, e)|
  {
    if Above(s, e) == {} {
      assert forall d | d in s :: Dominates(d, e) ==> d in Above(s, e);
      m := e;
    } else {
      var d :| d in Above(s, e);
      forall x | x in Above(s, d) ensures x in Above(s, e) { DominatesTransitive(x, d, e); }
      assert d in Above(s, e) && d !in Above(s, d);
      assert Above(s, d) < Above(s, e);
      SmallerSet(Above(s, d), Above(s, e));
      m := SomeMaximalAbove(s, d);
      if m != d { DominatesTransitive(m, d, e); }
    }
  }

  lemma SmallerSet<T>(a: set<T>, b: set<T>)
    requires a < b
    ensures |a| < |b|
  {
    var rest := b - a;
    assert b == a + rest && a !! rest && rest != {};
  }

  /** The unique maximal element of a finite set is its greatest. */
  lemma SoleMaximalIsGreatest(s: set<Entry>, m: Entry, e: Entry)
    requires MaximalIn(s, m) && (forall x | MaximalIn(s, x) :: x == m) && e in s
    ensures e == m || Dominates(m, e)
  {
    var x := SomeMaximalAbove(s, e);
  }

  // ---------------------------------------------------------------- order does not matter

  /** The record hash determines the registration. */
  predicate HashDetermines(vs: seq<Input>) {
    forall i, j | 0 <= i < |vs| && 0 <= j < |vs| && vs[i].Presented? && vs[j].Presented? ::
      vs[i].entry.recordHash == vs[j].entry.recordHash ==> vs[i].entry == vs[j].entry
  }

  /** The candidates of one host, as a set. */
  function CandidatesOf(vs: set<Input>, o: Options, h: HostId): set<Entry> {
    set v | v in vs && v.Presented? && Screen(o, v).None? && v.entry.hostId == h :: v.entry
  }

  predicate SoleOf(vs: set<Input>, o: Options, e: Entry) {
    && MaximalIn(CandidatesOf(vs, o, e.hostId), e)
    && forall x | x in CandidatesOf(vs, o, e.hostId) :: MaximalIn(CandidatesOf(vs, o, e.hostId), x) ==> x == e
  }

  /** The selection, of the inputs as a set. */
  function Selection(vs: set<Input>, o: Options): set<Entry> {
    set v | v in vs && v.Presented? && SoleOf(vs, o, v.entry)
      && (forall w | w in vs && w.Presented? && SoleOf(vs, o, w.entry) :: w.entry.epoch <= v.entry.epoch) :: v.entry
  }

  function Inputs(vs: seq<Input>): set<Input> {
    set v | v in vs
  }

  /** Among equal inputs one is the last. */
  lemma {:induction false} LastCopy(vs: seq<Input>, o: Options, i: nat) returns (k: nat)
    requires IsCandidate(vs, o, i) && HashDetermines(vs)
    ensures IsLast(vs, o, k) && vs[k] == vs[i]
    decreases |vs| - i
  {
    if IsLast(vs, o, i) {
      k := i;
    } else {
      var j :| i < j < |vs| && IsCandidate(vs, o, j) && vs[j].entry.hostId == vs[i].entry.hostId
        && vs[j].entry.recordHash == vs[i].entry.recordHash;
      k := LastCopy(vs, o, j);
    }
  }

  lemma LastIsOnly(vs: seq<Input>, o: Options, i: nat, j: nat)
    requires IsLast(vs, o, i) && IsLast(vs, o, j) && vs[i] == vs[j]
    ensures i == j
  {
  }

  lemma CandidateEntries(vs: seq<Input>, o: Options, i: nat)
    requires i < |vs| && vs[i].Presented?
    ensures IsCandidate(vs, o, i) <==> vs[i].entry in CandidatesOf(Inputs(vs), o, vs[i].entry.hostId)
  {
    if vs[i].entry in CandidatesOf(Inputs(vs), o, vs[i].entry.hostId) {
      var v :| v in Inputs(vs) && v.Presented? && Screen(o, v).None? && v.entry == vs[i].entry;
      assert v == vs[i];
    }
  }

  lemma EntryIsThere(vs: seq<Input>, o: Options, h: HostId, e: Entry) returns (k: nat)
    requires e in CandidatesOf(Inputs(vs), o, h) && HashDetermines(vs)
    ensures IsLast(vs, o, k) && vs[k] == Presented(e) && e.hostId == h
  {
    var v :| v in Inputs(vs) && v.Presented? && Screen(o, v).None? && v.entry == e && v.entry.hostId == h;
    var i :| 0 <= i < |vs| && vs[i] == v;
    k := LastCopy(vs, o, i);
  }

  lemma MaximalMeansMaximal(vs: seq<Input>, o: Options, i: nat)
    requires HashDetermines(vs) && IsLast(vs, o, i)
    ensures IsMaximal(vs, o, i) <==> MaximalIn(CandidatesOf(Inputs(vs), o, vs[i].entry.hostId), vs[i].entry)
  {
    var h, s := vs[i].entry.hostId, CandidatesOf(Inputs(vs), o, vs[i].entry.hostId);
    CandidateEntries(vs, o, i);
    if IsMaximal(vs, o, i) {
      forall d | d in s ensures !Dominates(d, vs[i].entry) {
        var k := EntryIsThere(vs, o, h, d);
      }
    }
    if MaximalIn(s, vs[i].entry) {
      forall j | 0 <= j < |vs| && IsLast(vs, o, j) && vs[j].entry.hostId == h ensures !Dominates(vs[j].entry, vs[i].entry) {
        CandidateEntries(vs, o, j);
      }
    }
  }

  lemma SoleMeansSole(vs: seq<Input>, o: Options, i: nat)
    requires HashDetermines(vs) && IsLast(vs, o, i)
    ensures IsSole(vs, o, i) <==> SoleOf(Inputs(vs), o, vs[i].entry)
  {
    var h, s := vs[i].entry.hostId, CandidatesOf(Inputs(vs), o, vs[i].entry.hostId);
    MaximalMeansMaximal(vs, o, i);
    if IsSole(vs, o, i) {
      forall x | x in s && MaximalIn(s, x) ensures x == vs[i].entry {
        var k := EntryIsThere(vs, o, h, x);
        MaximalMeansMaximal(vs, o, k);
      }
    }
    if SoleOf(Inputs(vs), o, vs[i].entry) {
      forall j | 0 <= j < |vs| && IsMaximal(vs, o, j) && vs[j].entry.hostId == h ensures j == i {
        MaximalMeansMaximal(vs, o, j);
        CandidateEntries(vs, o, j);
        LastIsOnly(vs, o, i, j);
      }
    }
  }

  lemma SoleIsThere(vs: seq<Input>, o: Options, e: Entry) returns (k: nat)
    requires HashDetermines(vs) && SoleOf(Inputs(vs), o, e)
    ensures IsSole(vs, o, k) && vs[k].entry == e
  {
    k := EntryIsThere(vs, o, e.hostId, e);
    SoleMeansSole(vs, o, k);
  }

  /** What is selected is the selection of the inputs as a set. */
  lemma SelectedIsSelection(vs: seq<Input>, o: Options)
    requires HashDetermines(vs)
    ensures (set i: nat | i < |vs| && IsSelected(vs, o, i) :: vs[i].entry) == Selection(Inputs(vs), o)
  {
    var s := Inputs(vs);
    forall i: nat | i < |vs| && IsSelected(vs, o, i) ensures vs[i].entry in Selection(s, o) {
      SoleMeansSole(vs, o, i);
      forall w | w in s && w.Presented? && SoleOf(s, o, w.entry) ensures w.entry.epoch <= vs[i].entry.epoch {
        var k := SoleIsThere(vs, o, w.entry);
      }
      assert vs[i] in s;
    }
    forall e | e in Selection(s, o) ensures e in (set i: nat | i < |vs| && IsSelected(vs, o, i) :: vs[i].entry) {
      var k := SoleIsThere(vs, o, e);
      forall j | 0 <= j < |vs| && IsSole(vs, o, j) ensures vs[j].entry.epoch <= e.epoch {
        SoleMeansSole(vs, o, j);
        assert vs[j] in s;
      }
      assert IsSelected(vs, o, k);
    }
  }

  /** Bridges may answer in any order, and twice: the registrations selected are the same. */
  lemma OrderDoesNotMatter(vs: seq<Input>, ws: seq<Input>, o: Options)
    requires HashDetermines(vs) && HashDetermines(ws) && Inputs(vs) == Inputs(ws)
    ensures (set i: nat | i < |vs| && IsSelected(vs, o, i) :: vs[i].entry) == (set i: nat | i < |ws| && IsSelected(ws, o, i) :: ws[i].entry)
    ensures MarksAfter(vs, o) == MarksAfter(ws, o)
  {
    SelectedIsSelection(vs, o);
    SelectedIsSelection(ws, o);
    forall k ensures k in MarksAfter(vs, o) <==> k in MarksAfter(ws, o) { MarkFollowsSelection(vs, o, k); MarkFollowsSelection(ws, o, k); }
    forall k | k in MarksAfter(vs, o) ensures MarksAfter(vs, o)[k] == MarksAfter(ws, o)[k] { MarkFollowsSelection(vs, o, k); MarkFollowsSelection(ws, o, k); }
  }

  // ---------------------------------------------------------------- what is left behind

  predicate SelectsHost(vs: seq<Input>, o: Options, i: nat, k: HostKey) {
    IsSelected(vs, o, i) && KeyIn(o, vs[i].entry.hostId) == k
  }

  lemma OneSelectedPerHost(vs: seq<Input>, o: Options, i: nat, j: nat, k: HostKey)
    requires SelectsHost(vs, o, i, k) && SelectsHost(vs, o, j, k)
    ensures i == j
  {
  }

  function SelectedKeys(vs: seq<Input>, o: Options): set<HostKey> {
    set i: nat | i < |vs| && IsSelected(vs, o, i) && SelectsHost(vs, o, i, KeyIn(o, vs[i].entry.hostId)) :: KeyIn(o, vs[i].entry.hostId)
  }

  ghost function MarkChosen(vs: seq<Input>, o: Options, k: HostKey): ClientMark
    requires k in SelectedKeys(vs, o)
  {
    var i: nat :| i < |vs| && SelectsHost(vs, o, i, k);
    MarkOf(vs[i].entry)
  }

  /** The marks kept afterwards: those of the selected registrations over those kept before. */
  ghost function MarksAfter(vs: seq<Input>, o: Options): map<HostKey, ClientMark> {
    o.prior + map k | k in SelectedKeys(vs, o) :: MarkChosen(vs, o, k)
  }

  lemma MarkFollowsSelection(vs: seq<Input>, o: Options, k: HostKey)
    requires HashDetermines(vs)
    ensures k in MarksAfter(vs, o) <==> k in o.prior || exists e :: e in Selection(Inputs(vs), o) && KeyIn(o, e.hostId) == k
    ensures forall e | e in Selection(Inputs(vs), o) && KeyIn(o, e.hostId) == k :: k in MarksAfter(vs, o) && MarksAfter(vs, o)[k] == MarkOf(e)
    ensures k in o.prior && (forall e | e in Selection(Inputs(vs), o) :: KeyIn(o, e.hostId) != k) ==> MarksAfter(vs, o)[k] == o.prior[k]
  {
    SelectedIsSelection(vs, o);
    var chosen := set i: nat | i < |vs| && IsSelected(vs, o, i) :: vs[i].entry;
    forall e | e in chosen && KeyIn(o, e.hostId) == k ensures k in MarksAfter(vs, o) && MarksAfter(vs, o)[k] == MarkOf(e) {
      var i: nat :| i < |vs| && IsSelected(vs, o, i) && vs[i].entry == e;
      SelectedMark(vs, o, i);
    }
    if k in MarksAfter(vs, o) && k !in o.prior {
      var i: nat :| i < |vs| && IsSelected(vs, o, i) && KeyIn(o, vs[i].entry.hostId) == k;
      assert vs[i].entry in chosen;
    }
  }

  /** The mark kept for a selected registration's host is that registration's. */
  lemma SelectedMark(vs: seq<Input>, o: Options, i: nat)
    requires i < |vs| && IsSelected(vs, o, i)
    ensures KeyIn(o, vs[i].entry.hostId) in MarksAfter(vs, o)
    ensures MarksAfter(vs, o)[KeyIn(o, vs[i].entry.hostId)] == MarkOf(vs[i].entry)
  {
    var k := KeyIn(o, vs[i].entry.hostId);
    assert SelectsHost(vs, o, i, k);
    var j: nat :| j < |vs| && SelectsHost(vs, o, j, k) && MarkChosen(vs, o, k) == MarkOf(vs[j].entry);
    OneSelectedPerHost(vs, o, i, j, k);
  }

  /** All selected registrations are of one epoch, and no mark kept in the community is above it. */
  lemma OneEpoch(vs: seq<Input>, o: Options, i: nat, j: nat)
    requires IsSelected(vs, o, i) && IsSelected(vs, o, j)
    ensures vs[i].entry.epoch == vs[j].entry.epoch
    ensures forall k | k in MarksAfter(vs, o) && k.scope == o.scope :: MarksAfter(vs, o)[k].epoch <= vs[i].entry.epoch
  {
    forall k | k in MarksAfter(vs, o) && k.scope == o.scope ensures MarksAfter(vs, o)[k].epoch <= vs[i].entry.epoch {
      if m: nat :| m < |vs| && SelectsHost(vs, o, m, k) {
        SelectedMark(vs, o, m);
      } else {
        assert k in o.prior && !BelowPrior(o, vs[i].entry);
      }
    }
  }

  /** No mark ever loses generation, epoch or sequence, and none disappears. */
  lemma MarksNeverFall(vs: seq<Input>, o: Options, k: HostKey)
    requires k in o.prior
    ensures k in MarksAfter(vs, o)
    ensures var before, after := o.prior[k], MarksAfter(vs, o)[k];
      after.generation >= before.generation && after.epoch >= before.epoch && after.recordSeq >= before.recordSeq
  {
    if i: nat :| i < |vs| && SelectsHost(vs, o, i, k) {
      SelectedMark(vs, o, i);
      assert ScreenAgainst(o.prior[k], vs[i].entry).None?;
    }
  }

  /**
    * From run to run the marks of one host follow its chain record by record: a mark that changes is that of
    * the very next record, linked to the one before by its hash, under a grant that is not withdrawn.
    */
  lemma MarksFollowTheChain(vs: seq<Input>, o: Options, k: HostKey) returns (i: nat)
    requires k in MarksAfter(vs, o) && (k in o.prior ==> MarksAfter(vs, o)[k] != o.prior[k])
    ensures i < |vs| && IsSelected(vs, o, i) && KeyIn(o, vs[i].entry.hostId) == k && MarksAfter(vs, o)[k] == MarkOf(vs[i].entry)
    ensures NotWithdrawn(o, vs[i].entry) && (k in o.prior ==> Continues(o.prior[k], vs[i].entry))
  {
    hide Screen, IsSole, NotWithdrawn, Continues;
    assert k in SelectedKeys(vs, o);
    SelectedIsSole(vs, o);
    i :| i < |vs| && IsSelected(vs, o, i) && SelectsHost(vs, o, i, KeyIn(o, vs[i].entry.hostId)) && KeyIn(o, vs[i].entry.hostId) == k;
    SelectedMark(vs, o, i);
    SelectedIsScreened(vs, o, i);
  }

  lemma SelectedIsScreened(vs: seq<Input>, o: Options, i: nat)
    requires i < |vs| && IsSelected(vs, o, i)
    ensures vs[i].Presented? && NotWithdrawn(o, vs[i].entry)
    ensures var k := KeyIn(o, vs[i].entry.hostId); k in o.prior ==> Continues(o.prior[k], vs[i].entry)
  {
    assert IsCandidate(vs, o, i);
    hide IsLast, Dominates;
  }

  predicate NotWithdrawn(o: Options, e: Entry) {
    e.grantId !in o.revoked && e.generation > Floor(o, e.hostId)
  }

  predicate Continues(previous: ClientMark, e: Entry) {
    && e.recordSeq == previous.recordSeq + 1 && e.previousHash == previous.recordHash
    && e.epoch >= previous.epoch && e.generation >= previous.generation
    && (e.generation == previous.generation ==> e.grantId == previous.grantId)
  }

  /** On a second run every registration selected by the first is a replay. */
  lemma SecondRunRejectsAll(vs: seq<Input>, o: Options, i: nat)
    requires i < |vs| && IsSelected(vs, o, i)
    ensures Screen(o.(prior := MarksAfter(vs, o)), vs[i]) == Some(IsReplay)
  {
    var again := o.(prior := MarksAfter(vs, o));
    SelectedMark(vs, o, i);
    OneEpoch(vs, o, i, i);
    assert !BelowPrior(again, vs[i].entry);
  }

  // ---------------------------------------------------------------- the loops

  /** One rejection for every index of a set. */
  method RejectAll(rejected: seq<Rejection>, which: set<nat>, reason: Reason) returns (more: seq<Rejection>)
    requires Distinct(rejected) && forall i | i in which :: Rejection(i, reason) !in rejected
    ensures Distinct(more)
    ensures forall x :: x in more <==> x in rejected || (x.index in which && x.reason == reason)
  {
    more := rejected;
    var todo := which;
    while todo != {}
      invariant todo <= which && Distinct(more)
      invariant forall x :: x in more <==> x in rejected || (x.index in which && x.index !in todo && x.reason == reason)
    {
      var i :| i in todo;
      more := more + [Rejection(i, reason)];
      todo := todo - {i};
    }
  }

  /** What becomes of an input before epochs are compared across hosts. */
  function StageOf(vs: seq<Input>, o: Options, i: nat): Option<Reason>
    requires i < |vs|
  {
    if vs[i].Malformed? || Screen(o, vs[i]).Some? then Screen(o, vs[i])
    else if !IsLast(vs, o, i) then Some(IsReplay)
    else if IsSole(vs, o, i) then None
    else if HasSole(vs, o, vs[i].entry.hostId) then Some(IsDowngrade)
    else Some(IsAmbiguous)
  }

  function GroupOf(vs: seq<Input>, o: Options, h: HostId, n: nat): set<nat>
    requires n <= |vs|
  {
    set i: nat | i < n && IsCandidate(vs, o, i) && vs[i].entry.hostId == h
  }

  function LastsOf(vs: seq<Input>, o: Options, h: HostId): set<nat> {
    set i: nat | i < |vs| && IsLast(vs, o, i) && vs[i].entry.hostId == h
  }

  function MaximalsOf(vs: seq<Input>, o: Options, h: HostId): set<nat> {
    set i: nat | i < |vs| && IsMaximal(vs, o, i) && vs[i].entry.hostId == h
  }

  lemma SingleElement<T>(s: set<T>, x: T)
    requires |s| == 1 && x in s
    ensures s == {x}
  {
    var rest := s - {x};
    assert s == rest + {x};
    assert |rest| == 0;
  }

  /** A host has a sole maximal registration exactly if its set of maximal ones has one element. */
  lemma SoleIffSingle(vs: seq<Input>, o: Options, h: HostId)
    ensures forall i | i in MaximalsOf(vs, o, h) :: IsSole(vs, o, i) <==> MaximalsOf(vs, o, h) == {i}
    ensures HasSole(vs, o, h) <==> |MaximalsOf(vs, o, h)| == 1
  {
    hide Screen, Dominates;
    var m := MaximalsOf(vs, o, h);
    forall i | i in m ensures IsSole(vs, o, i) <==> m == {i} {
      SoleMeansAlone(vs, o, i);
    }
    if |m| == 1 {
      var i :| i in m;
      SingleElement(m, i);
      assert IsSole(vs, o, i);
    }
    if HasSole(vs, o, h) {
      var j :| 0 <= j < |vs| && IsSole(vs, o, j) && vs[j].entry.hostId == h;
      assert j in m;
    }
  }

  lemma SoleMeansAlone(vs: seq<Input>, o: Options, i: nat)
    requires i < |vs| && IsMaximal(vs, o, i)
    ensures IsSole(vs, o, i) <==> MaximalsOf(vs, o, vs[i].entry.hostId) == {i}
  {
    var m := MaximalsOf(vs, o, vs[i].entry.hostId);
    assert i in m;
    if m == {i} {
      forall j | 0 <= j < |vs| && IsMaximal(vs, o, j) && vs[j].entry.hostId == vs[i].entry.hostId ensures j == i { assert j in m; }
    }
    if IsSole(vs, o, i) {
      assert forall j | j in m :: j == i;
    }
  }

  /** The groups hold exactly the candidates among the first `n` inputs. */
  predicate Grouped(vs: seq<Input>, o: Options, groups: map<HostId, set<nat>>, n: nat)
    requires n <= |vs|
  {
    && (forall h | h in groups :: groups[h] == GroupOf(vs, o, h, n))
    && (forall j: nat | j < n && IsCandidate(vs, o, j) :: vs[j].entry.hostId in groups)
  }

  lemma NextGroup(vs: seq<Input>, o: Options, h: HostId, n: nat)
    requires n < |vs|
    ensures GroupOf(vs, o, h, n + 1) ==
      GroupOf(vs, o, h, n) + if IsCandidate(vs, o, n) && vs[n].entry.hostId == h then {n} else {}
  {
    hide IsCandidate;
  }

  lemma NewGroupIsEmpty(vs: seq<Input>, o: Options, groups: map<HostId, set<nat>>, n: nat, h: HostId)
    requires n <= |vs| && Grouped(vs, o, groups, n) && h !in groups
    ensures GroupOf(vs, o, h, n) == {}
  {
  }

  method ScreenAll(vs: seq<Input>, o: Options) returns (groups: map<HostId, set<nat>>, rejected: seq<Rejection>)
    ensures Grouped(vs, o, groups, |vs|) && Distinct(rejected)
    ensures forall x :: x in rejected <==> x.index < |vs| && Screen(o, vs[x.index]) == Some(x.reason)
  {
    groups, rejected := map[], [];
    for i := 0 to |vs|
      invariant Grouped(vs, o, groups, i) && Distinct(rejected)
      invariant forall x :: x in rejected <==> x.index < i && Screen(o, vs[x.index]) == Some(x.reason)
    {
      hide Screen;
      forall h ensures GroupOf(vs, o, h, i + 1) ==
        GroupOf(vs, o, h, i) + if IsCandidate(vs, o, i) && vs[i].entry.hostId == h then {i} else {} { NextGroup(vs, o, h, i); }
      match Screen(o, vs[i]) {
        case Some(reason) =>
          rejected := rejected + [Rejection(i, reason)];
        case None =>
          ScreenedIsPresented(o, vs[i]);
          var h := vs[i].entry.hostId;
          if h !in groups { NewGroupIsEmpty(vs, o, groups, i, h); }
          groups := groups[h := (if h in groups then groups[h] else {}) + {i}];
      }
    }
  }

  lemma ScreenedIsPresented(o: Options, v: Input)
    requires Screen(o, v).None?
    ensures v.Presented?
  {
  }

  /** The last candidate of each record hash. */
  function LastCopies(vs: seq<Input>, group: set<nat>): set<nat>
    requires forall i | i in group :: i < |vs| && vs[i].Presented?
  {
    set i | i in group && forall j | j in group :: i < j ==> vs[j].entry.recordHash != vs[i].entry.recordHash
  }

  function Undominated(vs: seq<Input>, unique: set<nat>): set<nat>
    requires forall i | i in unique :: i < |vs| && vs[i].Presented?
  {
    set i | i in unique && forall j | j in unique :: !Dominates(vs[j].entry, vs[i].entry)
  }

  lemma LastCopiesAreLast(vs: seq<Input>, o: Options, h: HostId)
    ensures LastCopies(vs, GroupOf(vs, o, h, |vs|)) == LastsOf(vs, o, h)
  {
    hide Screen;
    var g := GroupOf(vs, o, h, |vs|);
    forall i: nat ensures i in LastCopies(vs, g) <==> i in LastsOf(vs, o, h) {
      if i in LastCopies(vs, g) {
        forall j | i < j < |vs| && IsCandidate(vs, o, j) && vs[j].entry.hostId == h ensures vs[j].entry.recordHash != vs[i].entry.recordHash {
          assert j in g;
        }
      }
    }
  }

  lemma UndominatedAreMaximal(vs: seq<Input>, o: Options, h: HostId)
    ensures Undominated(vs, LastsOf(vs, o, h)) == MaximalsOf(vs, o, h)
  {
    hide Screen, Dominates;
    var u := LastsOf(vs, o, h);
    forall i: nat ensures i in Undominated(vs, u) <==> i in MaximalsOf(vs, o, h) {
      if i in Undominated(vs, u) {
        forall j | 0 <= j < |vs| && IsLast(vs, o, j) && vs[j].entry.hostId == h ensures !Dominates(vs[j].entry, vs[i].entry) {
          assert j in u;
        }
      }
    }
  }

  /** One host's group: its replays, then its sole maximal registration or none. */
  method SelectInGroup(vs: seq<Input>, o: Options, h: HostId, group: set<nat>, rejected: seq<Rejection>)
    returns (winner: Option<nat>, more: seq<Rejection>)
    requires group == GroupOf(vs, o, h, |vs|) && Distinct(rejected) && forall x | x in rejected :: x.index !in group
    ensures Distinct(more)
    ensures forall x :: x in more <==> x in rejected || (x.index in group && StageOf(vs, o, x.index) == Some(x.reason))
    ensures winner.Some? <==> HasSole(vs, o, h)
    ensures winner.Some? ==> winner.value in group && IsSole(vs, o, winner.value)
  {
    hide Screen, IsLast, IsMaximal, Dominates, IsSole, HasSole;
    LastCopiesAreLast(vs, o, h);
    UndominatedAreMaximal(vs, o, h);
    SoleIffSingle(vs, o, h);
    StagesOfGroup(vs, o, h);
    var unique := LastCopies(vs, group);
    more := RejectAll(rejected, group - unique, IsReplay);
    var maximal := Undominated(vs, unique);
    if |maximal| != 1 {
      winner := None;
      more := RejectAll(more, unique, IsAmbiguous);
    } else {
      var only :| only in maximal;
      SingleElement(maximal, only);
      winner := Some(only);
      more := RejectAll(more, unique - {only}, IsDowngrade);
    }
  }

  function StageIn(unique: set<nat>, maximal: set<nat>, i: nat): Option<Reason> {
    if i !in unique then Some(IsReplay)
    else if |maximal| != 1 then Some(IsAmbiguous)
    else if maximal == {i} then None
    else Some(IsDowngrade)
  }

  /** The stage of every candidate of one host, by its last copies and its maximal ones. */
  lemma StagesOfGroup(vs: seq<Input>, o: Options, h: HostId)
    ensures var group, unique, maximal := GroupOf(vs, o, h, |vs|), LastsOf(vs, o, h), MaximalsOf(vs, o, h);
      && maximal <= unique <= group
      && forall i | i in group :: StageOf(vs, o, i) == StageIn(unique, maximal, i)
  {
    SoleIffSingle(vs, o, h);
    forall i | i in GroupOf(vs, o, h, |vs|) && IsSole(vs, o, i) ensures MaximalsOf(vs, o, h) == {i} {
      SoleMeansAlone(vs, o, i);
    }
    assert MaximalsOf(vs, o, h) <= LastsOf(vs, o, h) <= GroupOf(vs, o, h, |vs|);
    hide Screen, IsLast, IsMaximal, Dominates, IsSole, HasSole;
  }

  /** The sole maximal registration of every host, and a rejection for every other input. */
  method SelectByHost(vs: seq<Input>, o: Options) returns (sole: seq<nat>, rejected: seq<Rejection>)
    ensures Distinct(rejected) && forall x :: x in rejected <==> x.index < |vs| && StageOf(vs, o, x.index) == Some(x.reason)
    ensures Distinct(sole) && forall i: nat :: i in sole <==> i < |vs| && IsSole(vs, o, i)
  {
    var groups, screened := ScreenAll(vs, o);
    hide Screen, IsLast, IsMaximal, Dominates, HasSole;
    rejected, sole := screened, [];
    var todo := groups.Keys;
    CandidatesAreNotScreened(vs, o);
    while todo != {}
      invariant todo <= groups.Keys && Distinct(rejected) && Distinct(sole)
      invariant forall x :: x in rejected <==> x in screened || (x.index < |vs| && HostDone(vs, o, groups, todo, x.index) && StageOf(vs, o, x.index) == Some(x.reason))
      invariant forall i: nat :: i in sole <==> i < |vs| && HostDone(vs, o, groups, todo, i) && IsSole(vs, o, i)
    {
      var h :| h in todo;
      SoleIsCandidate(vs, o);
      OneHostMore(vs, o, groups, todo, h);
      var winner;
      winner, rejected := SelectInGroup(vs, o, h, groups[h], rejected);
      if winner.Some? {
        SoleOfHost(vs, o, h, winner.value);
        sole := sole + [winner.value];
      } else {
        NoSoleOfHost(vs, o, h);
      }
      todo := todo - {h};
    }
    EveryoneIsDone(vs, o, groups);
    ScreenedStage(vs, o);
    SoleIsCandidate(vs, o);
  }

  predicate HostDone(vs: seq<Input>, o: Options, groups: map<HostId, set<nat>>, todo: set<HostId>, i: nat)
    requires i < |vs|
  {
    IsCandidate(vs, o, i) && vs[i].entry.hostId !in todo
  }

  lemma CandidatesAreNotScreened(vs: seq<Input>, o: Options)
    ensures forall i: nat | i < |vs| && IsCandidate(vs, o, i) :: Screen(o, vs[i]).None?
  {
  }

  lemma SoleIsCandidate(vs: seq<Input>, o: Options)
    ensures forall i: nat | i < |vs| && IsSole(vs, o, i) :: IsCandidate(vs, o, i)
  {
  }

  lemma OneHostMore(vs: seq<Input>, o: Options, groups: map<HostId, set<nat>>, todo: set<HostId>, h: HostId)
    requires Grouped(vs, o, groups, |vs|) && h in todo && todo <= groups.Keys
    ensures forall i: nat | i < |vs| :: HostDone(vs, o, groups, todo - {h}, i) <==> HostDone(vs, o, groups, todo, i) || i in groups[h]
    ensures forall i: nat | i < |vs| && HostDone(vs, o, groups, todo, i) :: i !in groups[h]
    ensures forall i | i in groups[h] :: i < |vs| && IsCandidate(vs, o, i)
  {
    hide Screen;
  }

  lemma SoleOfHost(vs: seq<Input>, o: Options, h: HostId, winner: nat)
    requires winner < |vs| && IsSole(vs, o, winner) && winner in GroupOf(vs, o, h, |vs|)
    ensures forall i: nat | i < |vs| && i in GroupOf(vs, o, h, |vs|) :: IsSole(vs, o, i) <==> i == winner
  {
    hide Screen, IsLast, Dominates;
  }

  lemma NoSoleOfHost(vs: seq<Input>, o: Options, h: HostId)
    requires !HasSole(vs, o, h)
    ensures forall i: nat | i < |vs| && i in GroupOf(vs, o, h, |vs|) :: !IsSole(vs, o, i)
  {
    hide Screen, IsLast, Dominates;
  }

  lemma EveryoneIsDone(vs: seq<Input>, o: Options, groups: map<HostId, set<nat>>)
    ensures forall i: nat | i < |vs| :: HostDone(vs, o, groups, {}, i) <==> IsCandidate(vs, o, i)
  {
    hide Screen;
  }

  lemma ScreenedStage(vs: seq<Input>, o: Options)
    ensures forall i: nat, r | i < |vs| :: StageOf(vs, o, i) == Some(r) <==>
      Screen(o, vs[i]) == Some(r) || (IsCandidate(vs, o, i) && StageOf(vs, o, i) == Some(r))
  {
    hide IsLast, IsSole, HasSole;
  }

  ghost predicate AllSole(vs: seq<Input>, o: Options, sole: seq<nat>) {
    && Distinct(sole) && (forall i: nat :: i in sole <==> i < |vs| && IsSole(vs, o, i))
    && forall j | 0 <= j < |sole| :: sole[j] < |vs| && vs[sole[j]].Presented?
  }

  method HighestEpoch(vs: seq<Input>, o: Options, sole: seq<nat>) returns (top: nat)
    requires AllSole(vs, o, sole)
    ensures forall i: nat | i in sole :: IsSelected(vs, o, i) <==> vs[i].entry.epoch >= top
  {
    hide IsSole, IsSelected;
    top := 0;
    for i := 0 to |sole|
      invariant forall j | 0 <= j < i :: vs[sole[j]].entry.epoch <= top
      invariant top == 0 || exists j | 0 <= j < i :: vs[sole[j]].entry.epoch == top
    {
      if vs[sole[i]].entry.epoch > top { top := vs[sole[i]].entry.epoch; }
    }
    SelectedIsSole(vs, o);
    TopDecides(vs, o, sole, top);
  }

  /** Registrations below the highest epoch are downgrades. */
  method KeepHighestEpoch(vs: seq<Input>, o: Options, sole: seq<nat>, rejected: seq<Rejection>)
    returns (selected: seq<nat>, more: seq<Rejection>)
    requires AllSole(vs, o, sole) && Distinct(rejected) && forall x | x in rejected :: x.index !in sole
    ensures Distinct(selected) && forall k: nat :: k in selected <==> k in sole && IsSelected(vs, o, k)
    ensures Distinct(more)
    ensures forall x :: x in more <==> x in rejected || (x.index in sole && !IsSelected(vs, o, x.index) && x.reason == IsDowngrade)
  {
    hide IsSole, IsSelected;
    var top := HighestEpoch(vs, o, sole);
    selected, more := [], rejected;
    for i := 0 to |sole|
      invariant Distinct(selected) && forall k: nat :: k in selected <==> k in sole[..i] && IsSelected(vs, o, k)
      invariant Distinct(more)
      invariant forall x :: x in more <==>
        x in rejected || (x.index in sole[..i] && !IsSelected(vs, o, x.index) && x.reason == IsDowngrade)
    {
      assert sole[i] in sole && sole[..i + 1] == sole[..i] + [sole[i]];
      if vs[sole[i]].entry.epoch >= top { selected := selected + [sole[i]]; } else { more := more + [Rejection(sole[i], IsDowngrade)]; }
    }
    assert sole[..|sole|] == sole;
  }

  method UpdateMarks(vs: seq<Input>, o: Options, selected: seq<nat>) returns (marks: map<HostKey, ClientMark>)
    requires forall i: nat :: i in selected <==> i < |vs| && IsSelected(vs, o, i)
    ensures marks == MarksAfter(vs, o)
  {
    hide IsSole, IsSelected, MarksAfter, SelectedKeys, MarkChosen;
    marks := o.prior;
    ghost var done: map<HostKey, ClientMark> := map[];
    SelectedIsSole(vs, o);
    forall j | 0 <= j < |selected| ensures selected[j] < |vs| && vs[selected[j]].Presented? { assert selected[j] in selected; }
    for i := 0 to |selected|
      invariant marks == o.prior + done
      invariant forall j | 0 <= j < i :: KeyIn(o, vs[selected[j]].entry.hostId) in done
      invariant forall k | k in done :: k in SelectedKeys(vs, o) && done[k] == MarkChosen(vs, o, k)
    {
      var k := selected[i];
      assert k in selected;
      ChosenMark(vs, o, k);
      marks := marks[KeyIn(o, vs[k].entry.hostId) := MarkOf(vs[k].entry)];
      done := done[KeyIn(o, vs[k].entry.hostId) := MarkOf(vs[k].entry)];
    }
    AllMarksSet(vs, o, selected, done);
  }

  lemma ChosenMark(vs: seq<Input>, o: Options, i: nat)
    requires i < |vs| && IsSelected(vs, o, i)
    ensures vs[i].Presented? && KeyIn(o, vs[i].entry.hostId) in SelectedKeys(vs, o)
    ensures MarkChosen(vs, o, KeyIn(o, vs[i].entry.hostId)) == MarkOf(vs[i].entry)
  {
    SelectedMark(vs, o, i);
  }

  lemma AllMarksSet(vs: seq<Input>, o: Options, selected: seq<nat>, done: map<HostKey, ClientMark>)
    requires forall i: nat :: i in selected <==> i < |vs| && IsSelected(vs, o, i)
    requires forall j | 0 <= j < |selected| :: selected[j] < |vs| && vs[selected[j]].Presented? && KeyIn(o, vs[selected[j]].entry.hostId) in done
    requires forall k | k in done :: k in SelectedKeys(vs, o) && done[k] == MarkChosen(vs, o, k)
    ensures o.prior + done == MarksAfter(vs, o)
  {
    forall k | k in SelectedKeys(vs, o) ensures k in done {
      var i: nat :| i < |vs| && IsSelected(vs, o, i) && KeyIn(o, vs[i].entry.hostId) == k;
      assert i in selected;
    }
    assert done == map k | k in SelectedKeys(vs, o) :: MarkChosen(vs, o, k);
  }

  /** `selectHostRegistrations`, up to the order of its three lists: every input is selected or rejected, exactly once. */
  method SelectHostRegistrations(vs: seq<Input>, o: Options)
    returns (selected: seq<nat>, marks: map<HostKey, ClientMark>, rejected: seq<Rejection>)
    ensures Distinct(selected) && forall i: nat :: i in selected <==> i < |vs| && OutcomeOf(vs, o, i).None?
    ensures Distinct(rejected) && forall x :: x in rejected <==> x.index < |vs| && OutcomeOf(vs, o, x.index) == Some(x.reason)
    ensures marks == MarksAfter(vs, o)
  {
    var sole;
    sole, rejected := SelectByHost(vs, o);
    SelectedIsSole(vs, o);
    StageThenEpoch(vs, o);
    hide IsSole, IsSelected, StageOf, OutcomeOf;
    forall j | 0 <= j < |sole| ensures sole[j] < |vs| && vs[sole[j]].Presented? { assert sole[j] in sole; }
    selected, rejected := KeepHighestEpoch(vs, o, sole, rejected);
    marks := UpdateMarks(vs, o, selected);
  }

  lemma SelectedIsSole(vs: seq<Input>, o: Options)
    ensures forall i: nat | i < |vs| && IsSelected(vs, o, i) :: IsSole(vs, o, i) && vs[i].Presented?
    ensures forall i: nat | i < |vs| && IsSole(vs, o, i) :: vs[i].Presented?
  {
  }

  /** Comparing with the highest epoch among the sole registrations is comparing with each of them. */
  lemma TopDecides(vs: seq<Input>, o: Options, sole: seq<nat>, top: nat)
    requires AllSole(vs, o, sole) && forall i: nat | i < |vs| && IsSole(vs, o, i) :: vs[i].Presented?
    requires forall j | 0 <= j < |sole| :: vs[sole[j]].entry.epoch <= top
    requires top == 0 || exists j | 0 <= j < |sole| :: vs[sole[j]].entry.epoch == top
    ensures forall i: nat | i in sole :: IsSelected(vs, o, i) <==> vs[i].entry.epoch >= top
  {
    hide IsSole;
  }

  lemma StageThenEpoch(vs: seq<Input>, o: Options)
    ensures forall i: nat | i < |vs| ::
      (OutcomeOf(vs, o, i) == if IsSole(vs, o, i) && !IsSelected(vs, o, i) then Some(IsDowngrade) else StageOf(vs, o, i))
    ensures forall i: nat | i < |vs| && IsSole(vs, o, i) :: StageOf(vs, o, i).None?
    ensures forall i: nat | i < |vs| && StageOf(vs, o, i).None? :: IsSole(vs, o, i)
  {
  }
}
