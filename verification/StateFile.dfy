/**
  * A bridge's append-only state file (`appendStateEvent`, `loadRendezvousState`): one hash-chained
  * envelope a line, a torn last line is cut off, anything else that does not fit is fatal.
  *
  * The file is a sequence of symbols. The JSON text of an envelope is modelled by `width` symbols that
  * name the envelope and their position in it, so that every proper part of a line, and every
  * concatenation of parts, is told apart from a whole line.
  */
module StateFile {
  import opened Community
  import opened BridgeLedger

  /** The SHA-256 over an envelope's body. */
  datatype LogHash = Genesis | BodyHash(seq_: nat, previous: LogHash, event: Event)

  datatype Envelope = Envelope(seq_: nat, previous: LogHash, event: Event, hash: LogHash)

  datatype Symbol = Newline | Part(of: Envelope, index: nat, width: nat)

  type Text = seq<Symbol>

  /** `durableStateSeq`, `durableStateHash` and what the ledger maps hold. */
  datatype Log = Log(ledger: Ledger, seq_: nat, hash: LogHash)

  const BLANK := Log(EMPTY, 0, Genesis)

  // ---------------------------------------------------------------- writing

  function NextEnvelope(log: Log, e: Event): Envelope {
    Envelope(log.seq_ + 1, log.hash, e, BodyHash(log.seq_ + 1, log.hash, e))
  }

  function LineText(env: Envelope, width: nat): (t: Text)
    ensures |t| == width && forall i | 0 <= i < width :: t[i] == Part(env, i, width)
  {
    seq(width, i requires 0 <= i < width => Part(env, i, width))
  }

  /** What `appendStateEvent` writes in one call. */
  function AppendedText(log: Log, e: Event, width: nat): (t: Text)
    ensures |t| == width + 1
  {
    LineText(NextEnvelope(log, e), width) + [Newline]
  }

  /** Sequence number and hash after a successful append; the ledger is the caller's business. */
  function Advanced(log: Log, e: Event, ledger: Ledger): Log {
    Log(ledger, log.seq_ + 1, NextEnvelope(log, e).hash)
  }

  // ---------------------------------------------------------------- reading

  /** The position after the last newline, `raw.lastIndexOf("\n") + 1`. */
  function CleanLength(text: Text): (n: nat)
    ensures n <= |text| && (n > 0 ==> text[n - 1] == Newline)
    ensures forall i | n <= i < |text| :: text[i] != Newline
  {
    if text == [] then 0
    else if text[|text| - 1] == Newline then |text|
    else CleanLength(text[..|text| - 1])
  }

  predicate Clean(text: Text) {
    text == [] || text[|text| - 1] == Newline
  }

  function FirstNewline(text: Text): (n: nat)
    ensures n <= |text| && (n < |text| ==> text[n] == Newline)
    ensures forall i | 0 <= i < n :: text[i] != Newline
  {
    if text == [] || text[0] == Newline then 0 else 1 + FirstNewline(text[1..])
  }

  /** `JSON.parse` of one line. */
  function Parse(line: Text): Option<Envelope> {
    if line != [] && line[0].Part? && line == LineText(line[0].of, line[0].width) then Some(line[0].of) else None
  }

  predicate Chained(log: Log, env: Envelope) {
    env.seq_ == log.seq_ + 1 && env.previous == log.hash && env.hash == BodyHash(env.seq_, env.previous, env.event)
  }

  /** One turn of the loading loop; `None` is the fatal corruption error. */
  function ReadLine(log: Log, line: Text): Option<Log> {
    if line == [] then Some(log)
    else match Parse(line)
      case None => None
      case Some(env) =>
        if !Chained(log, env) then None
        else match Accept(log.ledger, env.event)
          case None => None
          case Some(ledger) => Some(Log(ledger, env.seq_, env.hash))
  }

  /** Every complete line in turn. */
  function ReadFrom(log: Log, text: Text): Option<Log>
    decreases |text|
  {
    var n := FirstNewline(text);
    if n == |text| then Some(log)
    else match ReadLine(log, text[..n])
      case None => None
      case Some(next) => ReadFrom(next, text[n + 1..])
  }

  /** `loadRendezvousState`: what the file holds, up to its last newline. */
  function Load(text: Text): Option<Log> {
    ReadFrom(BLANK, text[..CleanLength(text)])
  }

  /** The file as `loadRendezvousState` leaves it. */
  function Truncated(text: Text): Text {
    text[..CleanLength(text)]
  }

  // ---------------------------------------------------------------- lines

  lemma {:induction false} FirstNewlineIs(text: Text, n: nat)
    requires n < |text| && text[n] == Newline && forall i | 0 <= i < n :: text[i] != Newline
    ensures FirstNewline(text) == n
  {
  }

  lemma {:induction false} CleanLengthAfter(text: Text, tail: Text)
    requires Clean(text) && forall i | 0 <= i < |tail| :: tail[i] != Newline
    ensures CleanLength(text + tail) == |text|
  {
    var all := text + tail;
    assert forall i | |text| <= i < |all| :: all[i] == tail[i - |text|];
    assert text != [] ==> all[|text| - 1] == Newline;
  }

  lemma {:induction false} ReadFromConcat(log: Log, text: Text, more: Text)
    requires Clean(text)
    ensures ReadFrom(log, text + more) == match ReadFrom(log, text) case None => None case Some(next) => ReadFrom(next, more)
    decreases |text|
  {
    if text == [] {
      assert text + more == more;
    } else {
      var n := FirstNewline(text);
      assert n < |text| by { assert text[|text| - 1] == Newline; }
      FirstNewlineIs(text + more, n);
      assert (text + more)[..n] == text[..n] && (text + more)[n + 1..] == text[n + 1..] + more;
      match ReadLine(log, text[..n]) {
        case None =>
        case Some(next) =>
          assert Clean(text[n + 1..]);
          ReadFromConcat(next, text[n + 1..], more);
      }
    }
  }

  lemma ParsesWholeLine(env: Envelope, width: nat)
    requires width >= 1
    ensures Parse(LineText(env, width)) == Some(env)
  {
    assert LineText(env, width)[0] == Part(env, 0, width);
  }

  /** One line appended to a clean file is read as one more event. */
  lemma ReadOneLine(log: Log, line: Text)
    requires forall i | 0 <= i < |line| :: line[i] != Newline
    ensures ReadFrom(log, line + [Newline]) == ReadLine(log, line)
  {
    var text := line + [Newline];
    FirstNewlineIs(text, |line|);
    assert text[..|line|] == line && text[|line| + 1..] == [];
    assert FirstNewline([]) == 0;
    match ReadLine(log, line) { case None => case Some(next) => assert ReadFrom(next, []) == Some(next); }
  }

  lemma LoadClean(text: Text)
    requires Clean(text)
    ensures CleanLength(text) == |text| && text[..CleanLength(text)] == text && Load(text) == ReadFrom(BLANK, text)
  {
    CleanLengthAfter(text, []);
    assert text + [] == text && text[..|text|] == text;
  }

  // ---------------------------------------------------------------- append, crash and recovery

  /** A successful append of an event the ledger accepts loads as exactly that event applied. */
  lemma AppendLoads(text: Text, log: Log, e: Event, width: nat)
    requires Clean(text) && Load(text) == Some(log) && Accept(log.ledger, e).Some? && width >= 1
    ensures var after := text + AppendedText(log, e, width);
      Clean(after) && Load(after) == Some(Advanced(log, e, Accept(log.ledger, e).value))
  {
    hide Accept, Load, LineText, Parse;
    var line := LineText(NextEnvelope(log, e), width);
    var after := text + AppendedText(log, e, width);
    LoadClean(text);
    LoadClean(after);
    ReadFromConcat(BLANK, text, line + [Newline]);
    ReadOneLine(log, line);
    ParsesWholeLine(NextEnvelope(log, e), width);
  }

  /** An append the ledger would refuse to replay makes the whole file unreadable. */
  lemma RefusedAppendIsFatal(text: Text, log: Log, e: Event, width: nat)
    requires Clean(text) && Load(text) == Some(log) && Accept(log.ledger, e).None? && width >= 1
    ensures Load(text + AppendedText(log, e, width)) == None
  {
    hide Accept, Load, LineText, Parse;
    var line := LineText(NextEnvelope(log, e), width);
    var after := text + AppendedText(log, e, width);
    LoadClean(text);
    LoadClean(after);
    ReadFromConcat(BLANK, text, line + [Newline]);
    ReadOneLine(log, line);
    ParsesWholeLine(NextEnvelope(log, e), width);
  }

  /** A crash part-way through an append: before the newline nothing happened, after it everything did. */
  lemma TornAppendRecovers(text: Text, log: Log, e: Event, width: nat, written: nat)
    requires Clean(text) && Load(text) == Some(log) && Accept(log.ledger, e).Some? && width >= 1 && written <= width + 1
    ensures var torn := text + AppendedText(log, e, width)[..written];
      && Clean(Truncated(torn)) && Load(Truncated(torn)) == Load(torn)
      && Load(torn) == Some(if written <= width then log else Advanced(log, e, Accept(log.ledger, e).value))
      && Truncated(torn) == if written <= width then text else torn
  {
    var full := AppendedText(log, e, width);
    var torn := text + full[..written];
    if written <= width {
      CleanLengthAfter(text, full[..written]);
      assert Truncated(torn) == text;
      LoadClean(text);
    } else {
      assert full[..written] == full;
      AppendLoads(text, log, e, width);
      LoadClean(torn);
    }
  }

  predicate NoNewline(text: Text) {
    forall i | 0 <= i < |text| :: text[i] != Newline
  }

  /** The file up to its last newline, and the incomplete line behind it. */
  lemma SplitAtTail(text: Text) returns (tail: Text)
    ensures text == Truncated(text) + tail && NoNewline(tail) && Clean(Truncated(text))
    ensures Load(text) == ReadFrom(BLANK, Truncated(text)) && (Clean(text) <==> tail == [])
  {
    tail := text[CleanLength(text)..];
  }

  /** More of an incomplete line changes nothing of what the file loads to. */
  lemma TailGrows(text: Text, more: Text)
    requires NoNewline(more)
    ensures Load(text + more) == Load(text) && Truncated(text + more) == Truncated(text)
    ensures Clean(text + more) <==> Clean(text) && more == []
  {
    var tail := SplitAtTail(text);
    CleanLengthAfter(Truncated(text), tail + more);
    assert text + more == Truncated(text) + (tail + more);
    assert more != [] ==> (text + more)[|text + more| - 1] == more[|more| - 1];
    assert more == [] ==> text + more == text;
  }

  /** The beginning of a line followed by another whole line is no envelope's text. */
  lemma GluedLineIsNoLine(tail: Text, next: Envelope, width: nat)
    requires tail != [] && width >= 1
    ensures Parse(tail + LineText(next, width)) == None
  {
    var glued := tail + LineText(next, width);
    assert glued[0] == tail[0] && glued[|tail|] == Part(next, 0, width);
  }

  /** An incomplete line swallows the next one, and neither can be read. */
  lemma GluedAppendIsFatal(text: Text, next: Envelope, width: nat)
    requires !Clean(text) && width >= 1
    ensures Load(text + (LineText(next, width) + [Newline])) == None
  {
    hide LineText, Parse, ReadFrom;
    var tail := SplitAtTail(text);
    var clean, glued := Truncated(text), tail + LineText(next, width);
    GluedLineIsNoLine(tail, next, width);
    assert text + (LineText(next, width) + [Newline]) == clean + (glued + [Newline]);
    LoadClean(clean + (glued + [Newline]));
    ReadFromConcat(BLANK, clean, glued + [Newline]);
    LineHasNoNewline(next, width);
    match ReadFrom(BLANK, clean) { case None => case Some(log) => ReadOneLine(log, glued); }
  }

  lemma LineHasNoNewline(env: Envelope, width: nat)
    ensures NoNewline(LineText(env, width))
  {
  }

  /** A line whose number is not the next one does not chain. */
  lemma RepeatedAppendIsFatal(text: Text, next: Envelope, width: nat)
    requires Clean(text) && Load(text).Some? && next.seq_ != Load(text).value.seq_ + 1 && width >= 1
    ensures Load(text + (LineText(next, width) + [Newline])) == None
  {
    hide Accept, Load, LineText, Parse, ReadFrom;
    var line := LineText(next, width);
    ParsesWholeLine(next, width);
    LineHasNoNewline(next, width);
    LoadClean(text);
    LoadClean(text + (line + [Newline]));
    ReadFromConcat(BLANK, text, line + [Newline]);
    ReadOneLine(Load(text).value, line);
  }

  lemma TruncatedGrows(text: Text, more: Text)
    ensures |Truncated(text + more)| >= |Truncated(text)| && Truncated(text + more)[..|Truncated(text)|] == Truncated(text)
  {
    var n := CleanLength(text);
    assert n > 0 ==> (text + more)[n - 1] == Newline;
  }

  /** Nothing written behind a line that cannot be read makes the file load again. */
  lemma LostStaysLost(text: Text, more: Text)
    requires Load(text) == None
    ensures Load(text + more) == None
  {
    hide ReadFrom, Truncated;
    var tail := SplitAtTail(text);
    var end := SplitAtTail(text + more);
    var all := Truncated(text + more);
    TruncatedGrows(text, more);
    var rest := all[|Truncated(text)|..];
    assert all == Truncated(text) + rest;
    ReadFromConcat(BLANK, Truncated(text), rest);
  }

  /**
    * A process that survives a failed append goes on with the old sequence number. The next append
    * then leaves a file that loads exactly if the failed one had written nothing at all.
    */
  lemma SurvivedFailureLoadsIff(text: Text, log: Log, e: Event, width: nat, written: nat, next: Event, nextWidth: nat)
    requires Clean(text) && Load(text) == Some(log) && width >= 1 && nextWidth >= 1 && written <= width + 1
    requires Accept(log.ledger, e).Some? && Accept(log.ledger, next).Some?
    ensures Load(text + AppendedText(log, e, width)[..written] + AppendedText(log, next, nextWidth)).Some? <==> written == 0
  {
    var full := AppendedText(log, e, width);
    hide Accept, Load, LineText;
    if written == 0 {
      assert text + full[..written] == text;
      AppendLoads(text, log, next, nextWidth);
    } else if written <= width {
      LineHasNoNewline(NextEnvelope(log, e), width);
      TailGrows(text, full[..written]);
      GluedAppendIsFatal(text + full[..written], NextEnvelope(log, next), nextWidth);
    } else {
      assert full[..written] == full;
      AppendLoads(text, log, e, width);
      RepeatedAppendIsFatal(text + full, NextEnvelope(log, next), nextWidth);
    }
  }
}
