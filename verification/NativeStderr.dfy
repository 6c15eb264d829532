/** The redacting stderr tail: arbitrary chunks in, a bounded tail of complete redacted lines out. */
module NativeStderr {
  import opened Text

  const MAX_LINE_BYTES := 65536

  /** The line-level regular expressions, left uninterpreted: control stripping, the positions of
      private-key begin and end markers (ascending), and the final redaction. */
  datatype Rules = Rules(
    strip: string -> string,
    begins: string -> seq<nat>,
    ends: string -> seq<nat>,
    redact: string -> string)

  datatype Entry = KeyMarker | OversizeMarker | UnverifiedMarker | Released(text: string)

  function EntryText(entry: Entry): string {
    match entry
    case KeyMarker => "[redacted private key]\n"
    case OversizeMarker => "[oversize stderr line withheld]\n"
    case UnverifiedMarker => "[stderr diagnostics suppressed: private key end not verified]\n"
    case Released(text) => text + "\n"
  }

  function LogBytes(log: seq<Entry>): seq<byte> {
    if log == [] then [] else LogBytes(log[..|log| - 1]) + Encode(EntryText(log[|log| - 1]))
  }

  /** `buffer.subarray(-limit)`: the last `limit` bytes, except that `-0` is `0` and keeps everything. */
  function Tail(bytes: seq<byte>, limit: nat): seq<byte> {
    if limit == 0 || |bytes| <= limit then bytes else bytes[|bytes| - limit..]
  }

  lemma TailAppend(a: seq<byte>, b: seq<byte>, limit: nat)
    ensures Tail(Tail(a, limit) + b, limit) == Tail(a + b, limit)
  {
  }

  /** The tail is bounded by its limit exactly when the limit is positive or little was logged. */
  lemma TailBounded(bytes: seq<byte>, limit: nat)
    ensures |Tail(bytes, limit)| <= limit <==> limit > 0 || bytes == []
    ensures exists dropped: nat | dropped <= |bytes| :: Tail(bytes, limit) == bytes[dropped..]
  {
    var dropped := if limit == 0 || |bytes| <= limit then 0 else |bytes| - limit;
    assert Tail(bytes, limit) == bytes[dropped..];
  }

  // ----- Specification: a fold over complete lines -----

  predicate Oversize(line: string) {
    Size(line) > MAX_LINE_BYTES
  }

  function Last(positions: seq<nat>): int {
    if positions == [] then -1 else positions[|positions| - 1]
  }

  /** The line leaves a key block possibly open: it was withheld, or it holds a begin marker. */
  predicate Opens(rules: Rules, line: string) {
    Oversize(line) || rules.begins(rules.strip(line)) != []
  }

  /** The line's last end marker follows its last begin marker. */
  predicate Closes(rules: Rules, line: string) {
    !Oversize(line) && Last(rules.ends(rules.strip(line))) > Last(rules.begins(rules.strip(line)))
  }

  datatype Scan = Scan(privateKey: bool, log: seq<Entry>)

  function ReadLine(rules: Rules, scan: Scan, raw: string): Scan {
    var line := rules.strip(raw);
    var begins, ends := rules.begins(line), rules.ends(line);
    var inBlock := scan.privateKey || begins != [];
    var log := if begins != [] then scan.log + [KeyMarker] else scan.log;
    if inBlock then Scan(!(ends != [] && Last(ends) > Last(begins)), log)
    else Scan(false, log + [Released(rules.redact(line))])
  }

  function FoldLine(rules: Rules, scan: Scan, raw: string): Scan {
    if Oversize(raw) then Scan(true, scan.log + [OversizeMarker]) else ReadLine(rules, scan, raw)
  }

  function FoldLines(rules: Rules, lines: seq<string>): Scan {
    if lines == [] then Scan(false, [])
    else FoldLine(rules, FoldLines(rules, lines[..|lines| - 1]), lines[|lines| - 1])
  }

  /** The whole stream, including the unterminated last line and what the character decoder still held. */
  function FoldStream(rules: Rules, text: string, held: string): Scan {
    var scan := FoldLines(rules, Lines(text));
    var rest := Rest(text);
    var last := if Oversize(rest) then Scan(true, scan.log + [OversizeMarker])
                else if rest != "" || held != "" then ReadLine(rules, scan, rest + held)
                else scan;
    if last.privateKey then last.(log := last.log + [UnverifiedMarker]) else last
  }

  // ----- Independent meaning of the suppression state -----

  /** A key block is open after `lines`: some line inBlock one and neither it nor a later line closed it. */
  ghost predicate Suppressed(rules: Rules, lines: seq<string>) {
    exists i | 0 <= i < |lines| ::
      Opens(rules, lines[i]) && forall k | i <= k < |lines| :: !Closes(rules, lines[k])
  }

  lemma SuppressedStep(rules: Rules, front: seq<string>, line: string)
    ensures Suppressed(rules, front + [line]) <==>
            !Closes(rules, line) && (Opens(rules, line) || Suppressed(rules, front))
  {
    var lines, n := front + [line], |front|;
    assert lines[n] == line && forall k | 0 <= k < n :: lines[k] == front[k];
    if Suppressed(rules, lines) {
      var i :| 0 <= i < |lines| && Opens(rules, lines[i]) && forall k | i <= k < |lines| :: !Closes(rules, lines[k]);
      assert !Closes(rules, lines[n]);
      if i < n {
        assert Opens(rules, front[i]) && forall k | i <= k < n :: !Closes(rules, front[k]);
      }
    }
    if !Closes(rules, line) && Opens(rules, line) {
      assert Opens(rules, lines[n]) && forall k | n <= k < |lines| :: !Closes(rules, lines[k]);
    }
    if !Closes(rules, line) && Suppressed(rules, front) {
      var i :| 0 <= i < n && Opens(rules, front[i]) && forall k | i <= k < n :: !Closes(rules, front[k]);
      assert Opens(rules, lines[i]) && forall k | i <= k < |lines| :: !Closes(rules, lines[k]);
    }
  }

  lemma FoldLineState(rules: Rules, scan: Scan, line: string)
    ensures FoldLine(rules, scan, line).privateKey <==>
            !Closes(rules, line) && (Opens(rules, line) || scan.privateKey)
    ensures forall text :: Released(text) in FoldLine(rules, scan, line).log <==>
            Released(text) in scan.log
            || (!scan.privateKey && !Opens(rules, line) && text == rules.redact(rules.strip(line)))
  {
  }

  lemma {:induction false} SuppressionIsExact(rules: Rules, lines: seq<string>)
    ensures FoldLines(rules, lines).privateKey <==> Suppressed(rules, lines)
  {
    if lines != [] {
      var front, line := lines[..|lines| - 1], lines[|lines| - 1];
      assert lines == front + [line];
      SuppressionIsExact(rules, front);
      SuppressedStep(rules, front, line);
      FoldLineState(rules, FoldLines(rules, front), line);
    }
  }

  /** Line `j` may be shown: no key block is open before it and it opens none. */
  ghost predicate Showable(rules: Rules, lines: seq<string>, j: nat)
    requires j < |lines|
  {
    !Suppressed(rules, lines[..j]) && !Opens(rules, lines[j])
  }

  ghost predicate Shows(rules: Rules, lines: seq<string>, text: string) {
    exists j | 0 <= j < |lines| :: Showable(rules, lines, j) && text == rules.redact(rules.strip(lines[j]))
  }

  lemma ShowsStep(rules: Rules, front: seq<string>, line: string, text: string)
    ensures Shows(rules, front + [line], text) <==>
            Shows(rules, front, text)
            || (!Suppressed(rules, front) && !Opens(rules, line) && text == rules.redact(rules.strip(line)))
  {
    var lines, n := front + [line], |front|;
    assert lines[n] == line && lines[..n] == front;
    forall j | 0 <= j < n
      ensures Showable(rules, lines, j) <==> Showable(rules, front, j)
      ensures lines[j] == front[j]
    {
      assert lines[..j] == front[..j];
    }
    assert Showable(rules, lines, n) <==> !Suppressed(rules, front) && !Opens(rules, line);
    if Shows(rules, front, text) {
      var j :| 0 <= j < n && Showable(rules, front, j) && text == rules.redact(rules.strip(front[j]));
      assert Showable(rules, lines, j) && text == rules.redact(rules.strip(lines[j]));
    }
  }

  /** Text reaches the log exactly from the showable lines; every other entry is a fixed marker. */
  lemma {:induction false} OnlyShowableLinesAreReleased(rules: Rules, lines: seq<string>, text: string)
    ensures Released(text) in FoldLines(rules, lines).log <==> Shows(rules, lines, text)
  {
    if lines != [] {
      var front, line := lines[..|lines| - 1], lines[|lines| - 1];
      assert lines == front + [line];
      OnlyShowableLinesAreReleased(rules, front, text);
      SuppressionIsExact(rules, front);
      ShowsStep(rules, front, line, text);
      FoldLineState(rules, FoldLines(rules, front), line);
    }
  }

  /** The unterminated last line is shown under the same rule, and an open key block is always reported. */
  lemma LastLineIsGuarded(rules: Rules, text: string, held: string, shown: string)
    ensures var line := rules.strip(Rest(text) + held);
            Released(shown) in FoldStream(rules, text, held).log <==>
            || Shows(rules, Lines(text), shown)
            || (&& !Suppressed(rules, Lines(text)) && !Oversize(Rest(text)) && Rest(text) + held != ""
                && rules.begins(line) == [] && shown == rules.redact(line))
    ensures var scan := FoldStream(rules, text, held);
            scan.privateKey ==> scan.log != [] && scan.log[|scan.log| - 1] == UnverifiedMarker
  {
    SuppressionIsExact(rules, Lines(text));
    OnlyShowableLinesAreReleased(rules, Lines(text), shown);
  }

  lemma FoldNewline(rules: Rules, text: string)
    ensures FoldLines(rules, Lines(text + "\n")) == FoldLine(rules, FoldLines(rules, Lines(text)), Rest(text))
  {
    AppendNewline(text);
    var lines := Lines(text + "\n");
    assert lines[..|lines| - 1] == Lines(text) && lines[|lines| - 1] == Rest(text);
  }

  // ----- The decoder -----

  datatype State = State(pending: string, bytes: nat, dropping: bool, privateKey: bool, tail: seq<byte>)

  /** What the decoder holds after receiving `text`, however it was cut into chunks. */
  ghost function Expected(rules: Rules, limit: nat, text: string): State {
    var scan, rest := FoldLines(rules, Lines(text)), Rest(text);
    var tail := Tail(LogBytes(scan.log), limit);
    if Oversize(rest) then State("", 0, true, true, tail)
    else State(rest, Size(rest), false, scan.privateKey, tail)
  }

  class NativeStderrTail {
    const rules: Rules
    const limit: nat
    var pending: string
    var bytes: nat
    var dropping: bool
    var privateKey: bool
    var tail: seq<byte>
    ghost var received: string

    /** The fields are exactly the fold of everything received so far. */
    ghost predicate Valid() reads this {
      View() == Expected(rules, limit, received)
    }

    /** The fields without the byte count of a line already being dropped. */
    ghost function View(): State reads this {
      State(pending, if dropping then 0 else bytes, dropping, privateKey, tail)
    }

    constructor (rules: Rules, limit: nat)
      ensures Valid() && received == ""
      ensures this.rules == rules && this.limit == limit
    {
      this.rules, this.limit := rules, limit;
      pending, bytes, dropping, privateKey, tail := "", 0, false, false, [];
      received := "";
    }

    method Push(text: string)
      requires Valid()
      modifies this
      ensures Valid() && received == old(received) + text
    {
      Feed(received, text);
      received := received + text;
    }

    /** A chunk, piece by piece. */
    method Feed(ghost seen: string, text: string)
      requires View() == Expected(rules, limit, seen)
      modifies this`pending, this`bytes, this`dropping, this`privateKey, this`tail
      ensures View() == Expected(rules, limit, seen + text)
    {
      var start := 0;
      ghost var before := seen;
      while true
        invariant start <= |text| && before == seen + text[..start] && View() == Expected(rules, limit, before)
        decreases |text| - start
      {
        var end := Piece(seen, before, text, start);
        if end == |text| {
          break;
        }
        start, before := end + 1, seen + text[..end + 1];
      }
    }

    /** One piece of a chunk: up to the next newline, which ends the line, or to the end of the chunk. */
    method Piece(ghost seen: string, ghost before: string, text: string, start: nat) returns (end: nat)
      requires start <= |text| && before == seen + text[..start] && View() == Expected(rules, limit, before)
      modifies this`pending, this`bytes, this`dropping, this`privateKey, this`tail
      ensures start <= end <= |text|
      ensures end == |text| ==> View() == Expected(rules, limit, seen + text)
      ensures end < |text| ==> View() == Expected(rules, limit, seen + text[..end + 1])
    {
      end := NextNewline(text, start);
      SliceJoin(seen, text, start, end);
      Absorb(before, text[start..end]);
      if end < |text| {
        SliceNewline(seen, text, end);
        EndLine(seen + text[..end]);
      }
    }

    /** One newline-free part of a chunk. */
    method Absorb(ghost seen: string, part: string)
      requires View() == Expected(rules, limit, seen) && '\n' !in part
      modifies this`pending, this`bytes, this`dropping, this`privateKey
      ensures View() == Expected(rules, limit, seen + part)
    {
      AppendPart(seen, part);
      EncodeConcat(Rest(seen), part);
      if !dropping {
        bytes := bytes + Size(part);
        if bytes > MAX_LINE_BYTES {
          privateKey := true;
          pending, dropping := "", true;
        } else {
          pending := pending + part;
        }
      }
    }

    /** The newline that completes the line collected so far. */
    method EndLine(ghost seen: string)
      requires View() == Expected(rules, limit, seen)
      modifies this`pending, this`bytes, this`dropping, this`privateKey, this`tail
      ensures View() == Expected(rules, limit, seen + "\n")
    {
      ghost var before := FoldLines(rules, Lines(seen));
      FoldNewline(rules, seen);
      AppendNewline(seen);
      if dropping {
        Keep(before.log, OversizeMarker);
      } else {
        Line(before, pending);
      }
      pending, bytes, dropping := "", 0, false;
    }

    /** `held` is what the character decoder still holds at the end. */
    method Finish(held: string) returns (output: seq<byte>)
      requires Valid()
      modifies this`pending, this`privateKey, this`tail
      ensures output == Tail(LogBytes(FoldStream(rules, received, held).log), limit)
    {
      ghost var scan := FoldLines(rules, Lines(received));
      if dropping {
        Keep(scan.log, OversizeMarker);
        scan := Scan(true, scan.log + [OversizeMarker]);
      } else if pending != "" || held != "" {
        Line(scan, pending + held);
        scan := ReadLine(rules, scan, Rest(received) + held);
      }
      if privateKey {
        Keep(scan.log, UnverifiedMarker);
      }
      pending := "";
      output := tail;
    }

    method Line(ghost scan: Scan, raw: string)
      requires privateKey == scan.privateKey && tail == Tail(LogBytes(scan.log), limit)
      modifies this`privateKey, this`tail
      ensures privateKey == ReadLine(rules, scan, raw).privateKey
      ensures tail == Tail(LogBytes(ReadLine(rules, scan, raw).log), limit)
    {
      var line := rules.strip(raw);
      var begins, ends := rules.begins(line), rules.ends(line);
      ghost var log := scan.log;
      if begins != [] {
        privateKey := true;
        Keep(log, KeyMarker);
        log := log + [KeyMarker];
      }
      if privateKey {
        if ends != [] && Last(ends) > Last(begins) {
          privateKey := false;
        }
        return;
      }
      Keep(log, Released(rules.redact(line)));
    }

    method Keep(ghost log: seq<Entry>, entry: Entry)
      requires tail == Tail(LogBytes(log), limit)
      modifies this`tail
      ensures tail == Tail(LogBytes(log + [entry]), limit)
    {
      assert (log + [entry])[..|log|] == log;
      TailAppend(LogBytes(log), Encode(EntryText(entry)), limit);
      tail := Tail(tail + Encode(EntryText(entry)), limit);
    }
  }

  /** Chunk independence: whatever the chunks, the output is a function of their concatenation. */
  method Drain(rules: Rules, limit: nat, chunks: seq<string>, held: string) returns (output: seq<byte>)
    ensures output == Tail(LogBytes(FoldStream(rules, Concat(chunks), held).log), limit)
  {
    var decoder := new NativeStderrTail(rules, limit);
    for i := 0 to |chunks|
      invariant fresh(decoder) && decoder.Valid() && decoder.rules == rules && decoder.limit == limit
      invariant decoder.received == Concat(chunks[..i])
    {
      decoder.Push(chunks[i]);
      ConcatStep(chunks, i);
    }
    assert chunks[..|chunks|] == chunks;
    output := decoder.Finish(held);
  }
}
