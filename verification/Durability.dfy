/**
  * A bridge process and its state file over a whole life: appends, failures at any symbol of one that
  * the process dies of or survives, expiry sweeps, compactions, crashes around their rename, and
  * restarts. The file loads to what is in memory up to expired access, exactly unless something was
  * appended behind a failure that had written part of its line.
  */
module Durability {
  import opened Community
  import opened BridgeLedger
  import opened Bridge
  import opened BridgeInvariants
  import opened StateFile
  import opened Compaction

  /** The file, the maps in memory, and `durableStateSeq`/`durableStateHash`. */
  datatype Machine = Machine(text: Text, memory: Ledger, seq_: nat, hash: LogHash)

  function Head(m: Machine): Log { Log(m.memory, m.seq_, m.hash) }

  datatype Turn =
    | Record(event: Event, width: nat)
    | DieRecording(event: Event, width: nat, written: nat)
    | SurviveFailing(event: Event, width: nat, written: nat)
    | Sweep
    | Compact(order: Order, widths: seq<nat>)
    | DieCompacting(order: Order, widths: seq<nat>, renamed: bool)
    | Reboot

  /** Reading the file back, after cutting a torn tail off. */
  function Reloaded(text: Text): Option<Machine> {
    match Load(text)
    case None => None
    case Some(log) => Some(Machine(Truncated(text), log.ledger, log.seq_, log.hash))
  }

  predicate CompactFits(m: Machine, o: Order, widths: seq<nat>, now: int) {
    && Enumerates(o, m.memory, now) && |widths| == |Checkpoint(m.memory, o, now)|
    && forall i | 0 <= i < |widths| :: widths[i] >= 1
  }

  /** A step is possible if its event was validated, and its text has some length. */
  predicate Possible(m: Machine, e: Turn, now: int) {
    match e
    case Record(event, width) => width >= 1 && Accept(m.memory, event).Some?
    case DieRecording(event, width, written) => width >= 1 && Accept(m.memory, event).Some? && written <= width + 1
    case SurviveFailing(event, width, written) => width >= 1 && Accept(m.memory, event).Some? && written <= width + 1
    case Sweep => true
    case Compact(o, widths) => CompactFits(m, o, widths, now)
    case DieCompacting(o, widths, _) => CompactFits(m, o, widths, now)
    case Reboot => true
  }

  function Compacted(m: Machine, o: Order, widths: seq<nat>, now: int): Option<Machine>
    requires CompactFits(m, o, widths, now)
  {
    match CompactedLog(m.memory, o, now)
    case None => None
    case Some(log) => Some(Machine(CompactedText(m.memory, o, widths, now), Unexpired(m.memory, now), log.seq_, log.hash))
  }

  /** `None` is a process that refuses to start. */
  function After(m: Machine, e: Turn, now: int): Option<Machine>
    requires Possible(m, e, now)
  {
    match e
    case Record(event, width) =>
      var log := Advanced(Head(m), event, Accept(m.memory, event).value);
      Some(Machine(m.text + AppendedText(Head(m), event, width), log.ledger, log.seq_, log.hash))
    case DieRecording(event, width, written) => Reloaded(m.text + AppendedText(Head(m), event, width)[..written])
    case SurviveFailing(event, width, written) => Some(m.(text := m.text + AppendedText(Head(m), event, width)[..written]))
    case Sweep => Some(m.(memory := Unexpired(m.memory, now)))
    case Compact(o, widths) => Compacted(m, o, widths, now)
    case DieCompacting(o, widths, renamed) =>
      if !renamed then Reloaded(m.text)
      else (match Compacted(m, o, widths, now) case None => None case Some(next) => Reloaded(next.text))
    case Reboot => Reloaded(m.text)
  }

  // ---------------------------------------------------------------- memory and file

  /** The same ledger, but for host access that has expired at `now`. */
  predicate Mirrors(a: Ledger, b: Ledger, now: int) {
    && a.revocations == b.revocations && a.pairings == b.pairings && a.marks == b.marks && a.votes == b.votes
    && UnexpiredAccess(a.access, now) == UnexpiredAccess(b.access, now)
  }

  lemma UnexpiredLater(access: map<AccessKey, Access>, now: int, later: int)
    requires now <= later
    ensures UnexpiredAccess(UnexpiredAccess(access, now), later) == UnexpiredAccess(access, later)
  {
  }

  lemma MirrorsLater(a: Ledger, b: Ledger, now: int, later: int)
    requires Mirrors(a, b, now) && now <= later
    ensures Mirrors(a, b, later)
  {
    UnexpiredLater(a.access, now, later);
    UnexpiredLater(b.access, now, later);
  }

  lemma SweepMirrors(a: Ledger, b: Ledger, now: int)
    requires Mirrors(a, b, now)
    ensures Mirrors(Unexpired(a, now), b, now)
  {
    UnexpiredLater(a.access, now, now);
  }

  lemma SameUnexpired(a: map<AccessKey, Access>, b: map<AccessKey, Access>, access: Access, now: int)
    requires UnexpiredAccess(a, now) == UnexpiredAccess(b, now)
    ensures UnexpiredAccess(a[access.key := access], now) == UnexpiredAccess(b[access.key := access], now)
  {
    forall j ensures j in a && a[j].expiresAt > now <==> j in b && b[j].expiresAt > now {
      assert j in UnexpiredAccess(a, now) <==> j in UnexpiredAccess(b, now);
    }
    forall j | j in a && a[j].expiresAt > now ensures a[j] == b[j] {
      assert UnexpiredAccess(a, now)[j] == UnexpiredAccess(b, now)[j];
    }
  }

  /** What memory accepts the file's reader accepts, to the same effect. */
  lemma MirrorsAccept(a: Ledger, b: Ledger, e: Event, now: int)
    requires Mirrors(a, b, now) && Accept(a, e).Some?
    ensures Accept(b, e).Some? && Mirrors(Accept(a, e).value, Accept(b, e).value, now)
  {
    hide UnexpiredAccess;
    if e.AccessEvent? {
      SameUnexpired(a.access, b.access, e.access, now);
    } else if e.RevocationEvent? {
      assert JudgeRevocation(a, e.revocation) == JudgeRevocation(b, e.revocation);
    }
  }

  // ---------------------------------------------------------------- what a survived failure leaves behind

  /**
    * How the file stands to memory: level with it, ahead of it by an event whose append failed after its
    * whole line was written, or spoiled. `torn` says that an incomplete line is at its end.
    */
  datatype Phase = Level(torn: bool) | Ahead(event: Event, torn: bool) | Spoiled

  const WHOLE := Level(false)

  function Restarted(p: Phase): Phase {
    if p.Spoiled? then Spoiled else WHOLE
  }

  function NextPhase(p: Phase, e: Turn): Phase {
    match e
    case Record(_, _) => if p == WHOLE then WHOLE else Spoiled
    case DieRecording(_, width, written) => if written > width && p != WHOLE then Spoiled else Restarted(p)
    case SurviveFailing(event, width, written) =>
      if written == 0 then p
      else if written > width then (if p == WHOLE then Ahead(event, false) else Spoiled)
      else (match p case Level(_) => Level(true) case Ahead(event, _) => Ahead(event, true) case Spoiled => Spoiled)
    case Sweep => p
    case Compact(_, _) => WHOLE
    case DieCompacting(_, _, renamed) => if renamed then WHOLE else Restarted(p)
    case Reboot => Restarted(p)
  }

  /** The ledger a restart brings back. */
  function Held(memory: Ledger, p: Phase): Ledger {
    if p.Ahead? && Accept(memory, p.event).Some? then Accept(memory, p.event).value else memory
  }

  /** What is true of file and memory in each phase. */
  predicate Agrees(m: Machine, p: Phase, now: int) {
    && WellKept(m.memory)
    && match p
       case Spoiled => Load(m.text) == None
       case Level(torn) =>
         && (torn <==> !Clean(m.text)) && Load(m.text).Some?
         && var log := Load(m.text).value;
         log.seq_ == m.seq_ && log.hash == m.hash && WellKept(log.ledger) && Mirrors(m.memory, log.ledger, now)
       case Ahead(event, torn) =>
         && (torn <==> !Clean(m.text)) && Load(m.text).Some? && Accept(m.memory, event).Some?
         && var log := Load(m.text).value;
         log.seq_ == m.seq_ + 1 && WellKept(log.ledger) && Mirrors(Accept(m.memory, event).value, log.ledger, now)
  }

  lemma UnexpiredWellKept(l: Ledger, now: int)
    requires WellKept(l)
    ensures WellKept(Unexpired(l, now))
  {
  }

  lemma MirrorsItself(l: Ledger, now: int)
    ensures Mirrors(l, l, now)
  {
  }

  lemma AgreesLater(m: Machine, p: Phase, now: int, later: int)
    requires Agrees(m, p, now) && now <= later
    ensures Agrees(m, p, later)
  {
    hide Load, WellKept, Mirrors, Accept;
    if !p.Spoiled? {
      MirrorsLater(Held(m.memory, p), Load(m.text).value.ledger, now, later);
    }
  }

  /** A restart brings back what the file holds, or refuses to start on a spoiled file. */
  lemma RestartAgrees(m: Machine, p: Phase, now: int)
    requires Agrees(m, p, now)
    ensures Reloaded(m.text).Some? <==> !p.Spoiled?
    ensures !p.Spoiled? ==> Agrees(Reloaded(m.text).value, WHOLE, now) && Mirrors(Held(m.memory, p), Reloaded(m.text).value.memory, now)
  {
    hide Load, Mirrors, WellKept, Accept;
    var tail := SplitAtTail(m.text);
    LoadClean(Truncated(m.text));
    if !p.Spoiled? { MirrorsItself(Load(m.text).value.ledger, now); }
  }

  lemma SameText(a: Log, b: Log, e: Event, width: nat)
    requires a.seq_ == b.seq_ && a.hash == b.hash
    ensures AppendedText(a, e, width) == AppendedText(b, e, width)
  {
  }

  lemma AppendedInWhole(m: Machine, e: Event, width: nat, now: int)
    requires Agrees(m, WHOLE, now) && Accept(m.memory, e).Some? && width >= 1
    ensures var text := m.text + AppendedText(Head(m), e, width);
      var log := Load(text);
      && Clean(text) && log.Some? && log.value.seq_ == m.seq_ + 1 && log.value.hash == NextEnvelope(Head(m), e).hash
      && WellKept(Accept(m.memory, e).value) && WellKept(log.value.ledger)
      && Mirrors(Accept(m.memory, e).value, log.value.ledger, now)
  {
    hide Load, Mirrors, WellKept, Accept, AppendedText;
    var log := Load(m.text).value;
    MirrorsAccept(m.memory, log.ledger, e, now);
    AppendLoads(m.text, log, e, width);
    AcceptKeepsWell(m.memory, e);
    AcceptKeepsWell(log.ledger, e);
    SameText(log, Head(m), e, width);
  }

  /** A whole line behind anything but a file that is level and clean spoils it. */
  lemma AppendedElsewhere(m: Machine, p: Phase, e: Event, width: nat, now: int)
    requires Agrees(m, p, now) && p != WHOLE && width >= 1
    ensures Load(m.text + AppendedText(Head(m), e, width)) == None
  {
    hide Load, Mirrors, WellKept, Accept, LineText;
    var env := NextEnvelope(Head(m), e);
    if p.Spoiled? {
      LostStaysLost(m.text, AppendedText(Head(m), e, width));
    } else if p.torn {
      GluedAppendIsFatal(m.text, env, width);
    } else {
      RepeatedAppendIsFatal(m.text, env, width);
    }
  }

  /** The part of a line a failed append leaves, its newline not included. */
  lemma PartlyWritten(m: Machine, p: Phase, e: Event, width: nat, written: nat, now: int)
    requires Agrees(m, p, now) && written <= width
    ensures var text := m.text + AppendedText(Head(m), e, width)[..written];
      Agrees(m.(text := text), if written == 0 || p.Spoiled? then p else p.(torn := true), now)
  {
    hide Load, Mirrors, WellKept, Accept;
    var part := AppendedText(Head(m), e, width)[..written];
    LineHasNoNewline(NextEnvelope(Head(m), e), width);
    if p.Spoiled? { LostStaysLost(m.text, part); } else { TailGrows(m.text, part); }
  }

  lemma WhollyWritten(m: Machine, p: Phase, e: Event, width: nat, now: int)
    requires Agrees(m, p, now) && Accept(m.memory, e).Some? && width >= 1
    ensures var text := m.text + AppendedText(Head(m), e, width);
      Agrees(m.(text := text), if p == WHOLE then Ahead(e, false) else Spoiled, now)
  {
    hide Load, Mirrors, WellKept, Accept, AppendedText;
    if p == WHOLE { AppendedInWhole(m, e, width, now); } else { AppendedElsewhere(m, p, e, width, now); }
  }

  lemma FullText(m: Machine, e: Event, width: nat)
    ensures AppendedText(Head(m), e, width)[..width + 1] == AppendedText(Head(m), e, width)
  {
  }

  lemma CompactedAgrees(m: Machine, o: Order, widths: seq<nat>, now: int)
    requires WellKept(m.memory) && CompactFits(m, o, widths, now)
    ensures Compacted(m, o, widths, now).Some? && Agrees(Compacted(m, o, widths, now).value, WHOLE, now)
    ensures Mirrors(m.memory, Compacted(m, o, widths, now).value.memory, now)
  {
    hide Load, WellKept, Checkpoint, Enumerates, CompactedText, CompactedLog;
    CompactedFileLoads(m.memory, o, widths, now);
    UnexpiredWellKept(m.memory, now);
    UnexpiredLater(m.memory.access, now, now);
  }

  lemma SweptAgrees(m: Machine, p: Phase, now: int)
    requires Agrees(m, p, now)
    ensures Agrees(m.(memory := Unexpired(m.memory, now)), p, now) && Mirrors(m.memory, Unexpired(m.memory, now), now)
  {
    hide Load, WellKept, Accept;
    UnexpiredWellKept(m.memory, now);
    UnexpiredLater(m.memory.access, now, now);
    if p.Level? {
      SweepMirrors(m.memory, Load(m.text).value.ledger, now);
    } else if p.Ahead? {
      MirrorsAccept(m.memory, Unexpired(m.memory, now), p.event, now);
    }
  }

  /** What a step is meant to leave in memory; a crash may also leave the state from before it. */
  predicate Expected(before: Ledger, p: Phase, e: Turn, after: Ledger, now: int) {
    match e
    case Record(event, _) => Accept(before, event).Some? && Mirrors(after, Accept(before, event).value, now)
    case DieRecording(event, width, written) =>
      Accept(before, event).Some? && Mirrors(if written <= width then Held(before, p) else Accept(before, event).value, after, now)
    case SurviveFailing(_, _, _) => after == before
    case Sweep => Mirrors(before, after, now)
    case Compact(_, _) => Mirrors(before, after, now)
    case DieCompacting(_, _, renamed) => Mirrors(if renamed then before else Held(before, p), after, now)
    case Reboot => Mirrors(Held(before, p), after, now)
  }

  /** A restart that reads the file as earlier turns left it, perhaps with one more append. */
  predicate Rereads(e: Turn) {
    e.Reboot? || e.DieRecording? || (e.DieCompacting? && !e.renamed)
  }

  predicate Rewrites(e: Turn) {
    e.Compact? || (e.DieCompacting? && e.renamed)
  }

  lemma CrashedAgrees(m: Machine, p: Phase, e: Event, width: nat, written: nat, now: int)
    requires Agrees(m, p, now) && Possible(m, DieRecording(e, width, written), now)
    ensures var turn := DieRecording(e, width, written);
      var back := After(m, turn, now);
      && (back.Some? <==> !NextPhase(p, turn).Spoiled?)
      && (back.Some? ==> Agrees(back.value, NextPhase(p, turn), now) && Expected(m.memory, p, turn, back.value.memory, now))
  {
    hide Load, Mirrors, WellKept, Accept, AppendedText;
    var at := m.(text := m.text + AppendedText(Head(m), e, width)[..written]);
    if written <= width {
      PartlyWritten(m, p, e, width, written, now);
      RestartAgrees(at, if written == 0 || p.Spoiled? then p else p.(torn := true), now);
    } else {
      FullText(m, e, width);
      WhollyWritten(m, p, e, width, now);
      RestartAgrees(at, if p == WHOLE then Ahead(e, false) else Spoiled, now);
    }
  }

  /** One turn: the process goes on, or comes back, exactly unless it has to read a spoiled file. */
  lemma StepAgrees(m: Machine, p: Phase, e: Turn, now: int)
    requires Agrees(m, p, now) && Possible(m, e, now)
    ensures var next := NextPhase(p, e);
      && (After(m, e, now).Some? <==> !(next.Spoiled? && Rereads(e)))
      && (After(m, e, now).Some? ==> Agrees(After(m, e, now).value, next, now)
                                     && Expected(m.memory, p, e, After(m, e, now).value.memory, now))
  {
    hide Load, WellKept, Checkpoint, Enumerates, CompactedText, CompactedLog, Accept, AppendedText, Compacted, CompactFits, Mirrors;
    match e {
      case Record(event, width) =>
        MirrorsItself(Accept(m.memory, event).value, now);
        AcceptKeepsWell(m.memory, event);
        if p == WHOLE { AppendedInWhole(m, event, width, now); } else { AppendedElsewhere(m, p, event, width, now); }
      case DieRecording(event, width, written) => CrashedAgrees(m, p, event, width, written, now);
      case SurviveFailing(event, width, written) =>
        if written <= width { PartlyWritten(m, p, event, width, written, now); }
        else { FullText(m, event, width); WhollyWritten(m, p, event, width, now); }
      case Sweep => SweptAgrees(m, p, now);
      case Compact(o, widths) => CompactedAgrees(m, o, widths, now);
      case DieCompacting(o, widths, renamed) =>
        if renamed {
          CompactedAgrees(m, o, widths, now);
          RestartAgrees(Compacted(m, o, widths, now).value, WHOLE, now);
          MirrorsTransitive(m, o, widths, now);
        } else { RestartAgrees(m, p, now); }
      case Reboot => RestartAgrees(m, p, now);
    }
  }

  lemma MirrorsTransitive(m: Machine, o: Order, widths: seq<nat>, now: int)
    requires CompactFits(m, o, widths, now) && Compacted(m, o, widths, now).Some?
    requires var next := Compacted(m, o, widths, now).value;
      Mirrors(m.memory, next.memory, now) && Reloaded(next.text).Some? && Mirrors(next.memory, Reloaded(next.text).value.memory, now)
    ensures Mirrors(m.memory, Reloaded(Compacted(m, o, widths, now).value.text).value.memory, now)
  {
    hide Load, Compacted, CompactFits;
  }

  // ---------------------------------------------------------------- whole lives

  datatype Stamped = Stamped(at: int, event: Turn)

  predicate InOrder(life: seq<Stamped>) {
    forall i, j | 0 <= i <= j < |life| :: life[i].at <= life[j].at
  }

  /** `ms` is the life of one bridge: every step was possible and led to the next state. */
  predicate IsLife(ms: seq<Machine>, life: seq<Stamped>) {
    && |ms| == |life| + 1 && InOrder(life)
    && forall i | 0 <= i < |life| :: Possible(ms[i], life[i].event, life[i].at) && After(ms[i], life[i].event, life[i].at) == Some(ms[i + 1])
  }

  const NEWBORN := Machine([], EMPTY, 0, Genesis)

  /** The phase after the first turns of a life. */
  function PhaseAfter(life: seq<Stamped>): Phase {
    if life == [] then WHOLE else NextPhase(PhaseAfter(life[..|life| - 1]), life[|life| - 1].event)
  }

  lemma NewbornAgrees(now: int)
    ensures Agrees(NEWBORN, WHOLE, now)
  {
    LoadClean([]);
    assert FirstNewline([]) == 0;
  }

  lemma {:induction false} LifeAgrees(ms: seq<Machine>, life: seq<Stamped>, i: nat, now: int)
    requires IsLife(ms, life) && ms[0] == NEWBORN && i < |ms|
    requires i > 0 ==> now >= life[i - 1].at
    ensures Agrees(ms[i], PhaseAfter(life[..i]), now)
    decreases i
  {
    hide Load, WellKept, Possible, After, Mirrors, NextPhase, Agrees, Expected;
    if i == 0 {
      NewbornAgrees(now);
    } else {
      var at := life[i - 1].at;
      LifeAgrees(ms, life, i - 1, at);
      assert life[..i][..i - 1] == life[..i - 1];
      StepAgrees(ms[i - 1], PhaseAfter(life[..i - 1]), life[i - 1].event, at);
      AgreesLater(ms[i], PhaseAfter(life[..i]), at, now);
    }
  }

  /** A survived failure of which part of the line, or all of it, is in the file. */
  predicate LeavesTrace(e: Turn) {
    e.SurviveFailing? && e.written > 0
  }

  /** A line whose newline reaches the file. */
  predicate CompletesLine(e: Turn) {
    e.Record? || ((e.DieRecording? || e.SurviveFailing?) && e.written > e.width)
  }

  /** Turn `i` left a trace that no restart has cut off or taken over and no compaction has replaced. */
  predicate TraceOf(life: seq<Stamped>, i: nat) {
    && i < |life| && LeavesTrace(life[i].event)
    && forall k | i < k < |life| :: !Rereads(life[k].event) && !Rewrites(life[k].event)
  }

  /** Turn `j` completed a line behind the trace of turn `i`, and no compaction has replaced the file since. */
  predicate SpoiledBy(life: seq<Stamped>, i: nat, j: nat) {
    && j < |life| && TraceOf(life[..j], i) && CompletesLine(life[j].event)
    && forall k | j < k < |life| :: !Rewrites(life[k].event)
  }

  lemma TraceGoesOn(life: seq<Stamped>, i: nat)
    requires life != [] && i < |life| - 1
    ensures var last := life[|life| - 1].event;
      TraceOf(life, i) <==> TraceOf(life[..|life| - 1], i) && !Rereads(last) && !Rewrites(last)
  {
    var front := life[..|life| - 1];
    assert forall k | 0 <= k < |front| :: front[k] == life[k];
  }

  lemma SpoiledGoesOn(life: seq<Stamped>, i: nat, j: nat)
    requires life != [] && j < |life| - 1
    ensures SpoiledBy(life, i, j) <==> SpoiledBy(life[..|life| - 1], i, j) && !Rewrites(life[|life| - 1].event)
  {
    var front := life[..|life| - 1];
    assert front[..j] == life[..j] && forall k | 0 <= k < |front| :: front[k] == life[k];
  }

  /** What the phase means, in terms of the turns alone. */
  lemma {:induction false} PhaseMeans(life: seq<Stamped>)
    ensures PhaseAfter(life).Spoiled? <==> exists i, j :: SpoiledBy(life, i, j)
    ensures !PhaseAfter(life).Spoiled? ==> (PhaseAfter(life) != WHOLE <==> exists i :: TraceOf(life, i))
  {
    if life != [] {
      var n := |life| - 1;
      var front, last := life[..n], life[n].event;
      PhaseMeans(front);
      hide TraceOf, SpoiledBy, PhaseAfter;
      forall i: nat | i < n ensures TraceOf(life, i) <==> TraceOf(front, i) && !Rereads(last) && !Rewrites(last) {
        TraceGoesOn(life, i);
      }
      forall i: nat, j: nat | j < n ensures SpoiledBy(life, i, j) <==> SpoiledBy(front, i, j) && !Rewrites(last) {
        SpoiledGoesOn(life, i, j);
      }
      LastTurn(life);
      PhaseFromTurns(life);
    }
  }

  lemma LastTurn(life: seq<Stamped>)
    requires life != []
    ensures var n := |life| - 1;
      && (TraceOf(life, n) <==> LeavesTrace(life[n].event))
      && (forall i: nat :: SpoiledBy(life, i, n) <==> TraceOf(life[..n], i) && CompletesLine(life[n].event))
      && (forall i: nat | TraceOf(life, i) :: i <= n) && (forall i: nat, j: nat | SpoiledBy(life, i, j) :: j <= n)
  {
  }

  lemma PhaseFromTurns(life: seq<Stamped>)
    requires life != []
    ensures PhaseAfter(life) == NextPhase(PhaseAfter(life[..|life| - 1]), life[|life| - 1].event)
  {
  }

  /**
    * At any moment of any life, however often appends failed and the process crashed or compacted, the
    * file loads exactly unless a line was completed behind the trace of a survived failure with no
    * restart between the two and no compaction since; and then to the very marks, revocations, votes and
    * pairings in memory and the same unexpired access, plus the event it is ahead by.
    */
  lemma FileLoadsIff(ms: seq<Machine>, life: seq<Stamped>, i: nat, now: int)
    requires IsLife(ms, life) && ms[0] == NEWBORN && i < |ms|
    requires i > 0 ==> now >= life[i - 1].at
    ensures Reloaded(ms[i].text).Some? <==> !exists j, k :: SpoiledBy(life[..i], j, k)
    ensures Reloaded(ms[i].text).Some? ==> Mirrors(Held(ms[i].memory, PhaseAfter(life[..i])), Reloaded(ms[i].text).value.memory, now)
  {
    LifeAgrees(ms, life, i, now);
    RestartAgrees(ms[i], PhaseAfter(life[..i]), now);
    PhaseMeans(life[..i]);
  }

  /** Where no failure that left a trace was survived, the file always mirrors memory. */
  lemma {:induction false} FileAlwaysMirrorsMemory(ms: seq<Machine>, life: seq<Stamped>, i: nat, now: int)
    requires IsLife(ms, life) && ms[0] == NEWBORN && i < |ms|
    requires i > 0 ==> now >= life[i - 1].at
    requires forall k | 0 <= k < i :: !LeavesTrace(life[k].event)
    ensures Reloaded(ms[i].text).Some? && Mirrors(ms[i].memory, Reloaded(ms[i].text).value.memory, now)
  {
    NoTraceStaysWhole(life[..i]);
    FileLoadsIff(ms, life, i, now);
  }

  lemma {:induction false} NoTraceStaysWhole(life: seq<Stamped>)
    requires forall k | 0 <= k < |life| :: !LeavesTrace(life[k].event)
    ensures PhaseAfter(life) == WHOLE
  {
    if life != [] { NoTraceStaysWhole(life[..|life| - 1]); }
  }

  /** Memory after a whole life is what it was meant to be after its last step, given what it was before. */
  lemma EveryStepDoesWhatItShould(ms: seq<Machine>, life: seq<Stamped>, i: nat)
    requires IsLife(ms, life) && ms[0] == NEWBORN && i < |life|
    ensures Expected(ms[i].memory, PhaseAfter(life[..i]), life[i].event, ms[i + 1].memory, life[i].at)
  {
    hide Load, WellKept, Possible, After, Mirrors, Expected, Agrees, NextPhase;
    if i > 0 { assert life[i - 1].at <= life[i].at; }
    LifeAgrees(ms, life, i, life[i].at);
    StepAgrees(ms[i], PhaseAfter(life[..i]), life[i].event, life[i].at);
  }

  lemma MirrorsRemembers(newer: Ledger, older: Ledger, now: int)
    requires Mirrors(older, newer, now)
    ensures Remembers(newer, older)
  {
  }

  lemma HeldRemembers(memory: Ledger, p: Phase)
    requires WellKept(memory)
    ensures Remembers(Held(memory, p), memory)
  {
    hide Accept, WellKept;
    MirrorsItself(memory, 0);
    MirrorsRemembers(memory, memory, 0);
    if p.Ahead? && Accept(memory, p.event).Some? { AcceptRemembers(memory, p.event); }
  }

  lemma ExpectedRemembers(before: Ledger, p: Phase, e: Turn, after: Ledger, now: int)
    requires WellKept(before) && Expected(before, p, e, after, now)
    ensures Remembers(after, before)
  {
    hide WellKept, Accept, Remembers, Held;
    HeldRemembers(before, p);
    MirrorsItself(before, now);
    MirrorsRemembers(before, before, now);
    var meant :=
      if e.Record? || (e.DieRecording? && e.written > e.width) then Accept(before, e.event).value
      else if Rereads(e) then Held(before, p) else before;
    if e.Record? || (e.DieRecording? && e.written > e.width) { AcceptRemembers(before, e.event); }
    assert Mirrors(meant, after, now);
    MirrorsRemembers(after, meant, now);
    RemembersTransitive(before, meant, after);
  }

  /** No failure, crash, restart or compaction ever takes back a vote, a burnt pairing token, a revocation or a mark. */
  lemma {:induction false} NothingDurableIsForgotten(ms: seq<Machine>, life: seq<Stamped>, i: nat, j: nat)
    requires IsLife(ms, life) && ms[0] == NEWBORN && i <= j < |ms|
    ensures Remembers(ms[j].memory, ms[i].memory)
    decreases j
  {
    hide Load, WellKept, Possible, After, Mirrors, Expected, Remembers, PhaseAfter, NextPhase;
    if i == j {
      MirrorsItself(ms[i].memory, 0);
      MirrorsRemembers(ms[i].memory, ms[i].memory, 0);
    } else {
      NothingDurableIsForgotten(ms, life, i, j - 1);
      if j - 1 > 0 { assert life[j - 2].at <= life[j - 1].at; }
      LifeAgrees(ms, life, j - 1, life[j - 1].at);
      EveryStepDoesWhatItShould(ms, life, j - 1);
      ExpectedRemembers(ms[j - 1].memory, PhaseAfter(life[..j - 1]), life[j - 1].event, ms[j].memory, life[j - 1].at);
      RemembersTransitive(ms[i].memory, ms[j - 1].memory, ms[j].memory);
    }
  }
}
