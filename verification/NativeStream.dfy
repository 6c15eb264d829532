/** The stdout frame decoder: bounded newline frames, content-free counters and a bounded item table. */
module NativeStream {
  import opened Basics
  import opened Text

  const MAX_ITEMS := 8192
  const MAX_BLOCKS := 1024
  const MAX_ID_LENGTH := 256
  const MAX_SAFE_INTEGER := 9007199254740991

  datatype Host = Claude | Codex
  datatype Failure = FrameLimit | ItemLimit | MultipleResults | NoResult | TurnFailure

  // ----- Parsed rows: the result of JSON parsing, which is not modelled -----

  /** An absent index is one that is not a safe integer. */
  datatype StreamEvent =
    | MessageBoundary
    | ThinkingStart(index: Option<int>)
    | ToolStart(index: Option<int>, id: Option<string>, structured: bool)
    | TextDelta(text: string)
    | ThinkingDelta(index: Option<int>, thinking: string, estimate: Option<int>)
    | JsonDelta(index: Option<int>, json: string)
    | BlockStop(index: Option<int>)
    | OtherEvent

  datatype ClaudeRow = ResultRow | EventRow(event: StreamEvent) | UserRow(results: seq<Option<string>>) | OtherRow

  datatype Phase = Started | Updated | Completed
  datatype ItemKind = AgentMessage | Reasoning | ToolKind | OtherKind
  datatype CodexRow =
    | ItemRow(phase: Phase, id: Option<string>, kind: ItemKind, text: Option<string>, output: Option<string>)
    | TurnFailedRow
    | OtherCodexRow

  /** A blank line, a line that is no JSON, or a row as each host reads it. */
  datatype Parsed = Blank | Malformed | Row(claude: ClaudeRow, codex: CodexRow)

  type Parser = string -> Parsed

  // ----- The decoded state -----

  datatype Item = Item(started: bool, completed: bool, bytes: nat, output: nat)
  datatype ToolEvent = StartOf(id: string) | ResultOf(id: string)
  datatype Counts = Counts(text: nat, reasoning: nat, structured: nat, tool: nat, toolStarts: nat, toolResults: nat,
                           estimated: nat, malformed: nat)
  datatype Decoded = Decoded(
    counts: Counts,
    finalValue: Option<string>,
    failure: Option<Failure>,
    structuredBlocks: set<int>,
    toolBlocks: set<int>,
    thinkingBlocks: set<int>,
    items: map<string, Item>,
    emitted: seq<ToolEvent>)

  const EMPTY := Decoded(Counts(0, 0, 0, 0, 0, 0, 0, 0), None, None, {}, {}, {}, map[], [])

  /** JavaScript string length: code units, two for a character outside the basic plane. */
  function CodeUnits(text: string): nat {
    if text == "" then 0 else (if text[0] as int > 0xFFFF then 2 else 1) + CodeUnits(text[1..])
  }

  predicate ValidId(id: Option<string>) {
    id.Some? && id.value != "" && CodeUnits(id.value) <= MAX_ID_LENGTH
  }

  /** Find or create the item; a full table records a failure instead. */
  function Touch(d: Decoded, id: Option<string>): Decoded {
    if !ValidId(id) || id.value in d.items then d
    else if |d.items| >= MAX_ITEMS then d.(failure := Some(ItemLimit))
    else d.(items := d.items[id.value := Item(false, false, 0, 0)])
  }

  predicate Known(d: Decoded, id: Option<string>) {
    ValidId(id) && id.value in d.items
  }

  function Tool(d: Decoded, id: Option<string>, completed: bool): Decoded {
    var d := Touch(d, id);
    if !Known(d, id) then d
    else
      var item := d.items[id.value];
      if item.completed || (!completed && item.started) then d
      else if completed then
        d.(items := d.items[id.value := item.(completed := true)],
           counts := d.counts.(toolResults := d.counts.toolResults + 1),
           emitted := d.emitted + [ResultOf(id.value)])
      else
        d.(items := d.items[id.value := item.(started := true)],
           counts := d.counts.(toolStarts := d.counts.toolStarts + 1),
           emitted := d.emitted + [StartOf(id.value)])
  }

  function Tools(d: Decoded, ids: seq<Option<string>>): Decoded {
    if ids == [] then d else Tool(Tools(d, ids[..|ids| - 1]), ids[|ids| - 1], true)
  }

  predicate In(index: Option<int>, blocks: set<int>) {
    index.Some? && index.value in blocks
  }

  function Without(blocks: set<int>, index: Option<int>): set<int> {
    if index.Some? then blocks - {index.value} else blocks
  }

  function FoldEvent(d: Decoded, event: StreamEvent): Decoded {
    match event
    case MessageBoundary => d.(structuredBlocks := {}, toolBlocks := {}, thinkingBlocks := {})
    case ThinkingStart(index) =>
      if index.Some? && index.value >= 0 && |d.thinkingBlocks| < MAX_BLOCKS
      then d.(thinkingBlocks := d.thinkingBlocks + {index.value}) else d
    case ToolStart(index, id, structured) =>
      if id.Some? && index.Some? && |d.toolBlocks| < MAX_BLOCKS then
        Tool(d.(toolBlocks := d.toolBlocks + {index.value},
                structuredBlocks := if structured then d.structuredBlocks + {index.value} else d.structuredBlocks),
             id, false)
      else d
    case TextDelta(text) => d.(counts := d.counts.(text := d.counts.text + Size(text)))
    case ThinkingDelta(index, thinking, estimate) =>
      var counts := d.counts.(reasoning := d.counts.reasoning + Size(thinking));
      if In(index, d.thinkingBlocks) && estimate.Some? && 0 < estimate.value
         && counts.estimated + estimate.value <= MAX_SAFE_INTEGER
      then d.(counts := counts.(estimated := counts.estimated + estimate.value))
      else d.(counts := counts)
    case JsonDelta(index, json) =>
      if In(index, d.structuredBlocks) then d.(counts := d.counts.(structured := d.counts.structured + Size(json)))
      else if In(index, d.toolBlocks) then d.(counts := d.counts.(tool := d.counts.tool + Size(json)))
      else d
    case BlockStop(index) =>
      d.(structuredBlocks := Without(d.structuredBlocks, index), toolBlocks := Without(d.toolBlocks, index),
         thinkingBlocks := Without(d.thinkingBlocks, index))
    case OtherEvent => d
  }

  function FoldClaude(d: Decoded, line: string, row: ClaudeRow): Decoded {
    match row
    case ResultRow =>
      if d.finalValue.Some? then d.(failure := Some(MultipleResults)) else d.(finalValue := Some(line))
    case EventRow(event) => FoldEvent(d, event)
    case UserRow(results) => Tools(d, results)
    case OtherRow => d
  }

  function Growth(before: nat, size: nat): nat {
    if size > before then size - before else 0
  }

  /** Item snapshots repeat their text: only growth past the largest snapshot seen is counted. */
  function GrowText(d: Decoded, id: string, kind: ItemKind, text: string): Decoded
    requires id in d.items
  {
    var item := d.items[id];
    var growth := Growth(item.bytes, Size(text));
    d.(items := d.items[id := item.(bytes := item.bytes + growth)],
       counts := if kind.Reasoning? then d.counts.(reasoning := d.counts.reasoning + growth)
                 else d.counts.(text := d.counts.text + growth))
  }

  function GrowOutput(d: Decoded, id: string, output: string): Decoded
    requires id in d.items
  {
    var item := d.items[id];
    var growth := Growth(item.output, Size(output));
    d.(items := d.items[id := item.(output := item.output + growth)],
       counts := d.counts.(tool := d.counts.tool + growth))
  }

  function FoldCodex(d: Decoded, row: CodexRow): Decoded {
    match row
    case ItemRow(phase, id, kind, text, output) =>
      var d := Touch(d, id);
      if !Known(d, id) then d
      else if (kind.AgentMessage? || kind.Reasoning?) && text.Some? then GrowText(d, id.value, kind, text.value)
      else if kind.ToolKind? then
        var d := if phase.Updated? then d else Tool(d, id, phase.Completed?);
        if output.Some? && id.value in d.items then GrowOutput(d, id.value, output.value) else d
      else d
    case TurnFailedRow => d.(failure := Some(TurnFailure))
    case OtherCodexRow => d
  }

  function FoldLine(host: Host, parse: Parser, d: Decoded, line: string): Decoded {
    match parse(line)
    case Blank => d
    case Malformed => d.(counts := d.counts.(malformed := d.counts.malformed + 1))
    case Row(claude, codex) => if host.Claude? then FoldClaude(d, line, claude) else FoldCodex(d, codex)
  }

  // ----- Specification: split on newline, drop frames over the limit, fold the rest -----

  function FoldFrame(host: Host, parse: Parser, limit: nat, d: Decoded, line: string): Decoded {
    if Size(line) > limit then d.(failure := Some(FrameLimit)) else FoldLine(host, parse, d, line)
  }

  function FoldFrames(host: Host, parse: Parser, limit: nat, lines: seq<string>): Decoded {
    if lines == [] then EMPTY
    else FoldFrame(host, parse, limit, FoldFrames(host, parse, limit, lines[..|lines| - 1]), lines[|lines| - 1])
  }

  /** The whole stream; `held` is what the character decoder still held at the end. */
  function FoldStream(host: Host, parse: Parser, limit: nat, text: string, held: string): Decoded {
    var d := FoldFrames(host, parse, limit, Lines(text));
    var rest := Rest(text);
    var last := if Size(rest) > limit then d.(failure := Some(FrameLimit)) else FoldLine(host, parse, d, rest + held);
    if host.Claude? && last.finalValue.None? && last.failure.None? then last.(failure := Some(NoResult)) else last
  }

  lemma FoldNewline(host: Host, parse: Parser, limit: nat, text: string)
    ensures FoldFrames(host, parse, limit, Lines(text + "\n"))
         == FoldFrame(host, parse, limit, FoldFrames(host, parse, limit, Lines(text)), Rest(text))
  {
    AppendNewline(text);
    var lines := Lines(text + "\n");
    assert lines[..|lines| - 1] == Lines(text) && lines[|lines| - 1] == Rest(text);
  }

  datatype State = State(pending: string, pendingBytes: nat, dropping: bool, decoded: Decoded)

  /** What the decoder holds after receiving `text`, however it was cut into chunks. */
  ghost function Expected(host: Host, parse: Parser, limit: nat, text: string): State {
    var d, rest := FoldFrames(host, parse, limit, Lines(text)), Rest(text);
    if Size(rest) > limit then State("", 0, true, d.(failure := Some(FrameLimit)))
    else State(rest, Size(rest), false, d)
  }

  /** Memory between chunks is bounded by the frame limit. */
  lemma PendingIsBounded(host: Host, parse: Parser, limit: nat, text: string)
    ensures Expected(host, parse, limit, text).pendingBytes <= limit
    ensures Expected(host, parse, limit, text).pendingBytes == Size(Expected(host, parse, limit, text).pending)
  {
  }

  // ----- The decoder -----

  class NativeStreamDecoder {
    const host: Host
    const parse: Parser
    const maxFrameBytes: nat
    var stdoutBytes: nat
    var pending: string
    var pendingBytes: nat
    var dropping: bool
    var counts: Counts
    var finalValue: Option<string>
    var failure: Option<Failure>
    var structuredBlocks: set<int>
    var toolBlocks: set<int>
    var thinkingBlocks: set<int>
    var items: map<string, Item>
    var emitted: seq<ToolEvent>
    ghost var received: string

    ghost function Now(): Decoded reads this {
      Decoded(counts, finalValue, failure, structuredBlocks, toolBlocks, thinkingBlocks, items, emitted)
    }

    ghost function View(): State reads this {
      State(pending, pendingBytes, dropping, Now())
    }

    ghost predicate Valid() reads this {
      View() == Expected(host, parse, maxFrameBytes, received)
    }

    constructor (host: Host, parse: Parser, maxFrameBytes: nat)
      ensures Valid() && received == "" && stdoutBytes == 0
      ensures this.host == host && this.parse == parse && this.maxFrameBytes == maxFrameBytes
    {
      this.host, this.parse, this.maxFrameBytes := host, parse, maxFrameBytes;
      stdoutBytes, pending, pendingBytes, dropping := 0, "", 0, false;
      counts, finalValue, failure := Counts(0, 0, 0, 0, 0, 0, 0, 0), None, None;
      structuredBlocks, toolBlocks, thinkingBlocks, items, emitted := {}, {}, {}, map[], [];
      received := "";
    }

    /** One chunk of `length` raw bytes, decoded to `text`. */
    method Stdout(length: nat, text: string)
      requires Valid()
      modifies this
      ensures Valid() && received == old(received) + text && stdoutBytes == old(stdoutBytes) + length
    {
      stdoutBytes := stdoutBytes + length;
      var start := 0;
      ghost var seen := received;
      while true
        invariant start <= |text| && seen == received + text[..start]
        invariant View() == Expected(host, parse, maxFrameBytes, seen)
        invariant received == old(received) && stdoutBytes == old(stdoutBytes) + length
        decreases |text| - start
      {
        var end := NextNewline(text, start);
        var part := text[start..end];
        SliceJoin(received, text, start, end);
        Absorb(seen, part);
        seen := seen + part;
        if end == |text| {
          break;
        }
        SliceNewline(received, text, end);
        EndFrame(seen);
        seen := seen + "\n";
        start := end + 1;
      }
      received := seen;
    }

    /** One newline-free part of a chunk. */
    method Absorb(ghost seen: string, part: string)
      requires View() == Expected(host, parse, maxFrameBytes, seen) && '\n' !in part
      modifies this`pending, this`pendingBytes, this`dropping, this`failure
      ensures View() == Expected(host, parse, maxFrameBytes, seen + part)
    {
      AppendPart(seen, part);
      EncodeConcat(Rest(seen), part);
      if !dropping {
        var bytes := Size(part);
        if pendingBytes + bytes > maxFrameBytes {
          pending, pendingBytes, dropping, failure := "", 0, true, Some(FrameLimit);
        } else {
          pending, pendingBytes := pending + part, pendingBytes + bytes;
        }
      }
    }

    /** The newline that completes the frame collected so far. */
    method EndFrame(ghost seen: string)
      requires View() == Expected(host, parse, maxFrameBytes, seen)
      modifies this`pending, this`pendingBytes, this`dropping, this`counts, this`finalValue, this`failure,
               this`structuredBlocks, this`toolBlocks, this`thinkingBlocks, this`items, this`emitted
      ensures View() == Expected(host, parse, maxFrameBytes, seen + "\n")
    {
      FoldNewline(host, parse, maxFrameBytes, seen);
      AppendNewline(seen);
      if !dropping {
        Line(pending);
      }
      pending, pendingBytes, dropping := "", 0, false;
    }

    method Finish(held: string)
      requires Valid()
      modifies this`pending, this`counts, this`finalValue, this`failure,
               this`structuredBlocks, this`toolBlocks, this`thinkingBlocks, this`items, this`emitted
      ensures Now() == FoldStream(host, parse, maxFrameBytes, received, held)
    {
      if !dropping {
        Line(pending + held);
      }
      pending := "";
      if host.Claude? && finalValue.None? && failure.None? {
        failure := Some(NoResult);
      }
    }

    method Line(line: string)
      modifies this`counts, this`finalValue, this`failure,
               this`structuredBlocks, this`toolBlocks, this`thinkingBlocks, this`items, this`emitted
      ensures Now() == FoldLine(host, parse, old(Now()), line)
    {
      match parse(line)
      case Blank =>
      case Malformed =>
        counts := counts.(malformed := counts.malformed + 1);
      case Row(claude, codex) =>
        if host.Claude? {
          ClaudeLine(line, claude);
        } else {
          CodexLine(codex);
        }
    }

    method ClaudeLine(line: string, row: ClaudeRow)
      modifies this`counts, this`finalValue, this`failure,
               this`structuredBlocks, this`toolBlocks, this`thinkingBlocks, this`items, this`emitted
      ensures Now() == FoldClaude(old(Now()), line, row)
    {
      match row
      case ResultRow =>
        if finalValue.Some? {
          failure := Some(MultipleResults);
        } else {
          finalValue := Some(line);
        }
      case EventRow(event) =>
        Event(event);
      case UserRow(results) =>
        ghost var before := Now();
        for i := 0 to |results|
          invariant Now() == Tools(before, results[..i])
        {
          assert results[..i + 1][..i] == results[..i];
          SeeTool(results[i], true);
        }
        assert results[..|results|] == results;
      case OtherRow =>
    }

    method Event(event: StreamEvent)
      modifies this`counts, this`failure,
               this`structuredBlocks, this`toolBlocks, this`thinkingBlocks, this`items, this`emitted
      ensures Now() == FoldEvent(old(Now()), event)
    {
      match event
      case MessageBoundary =>
        structuredBlocks, toolBlocks, thinkingBlocks := {}, {}, {};
      case ThinkingStart(index) =>
        if index.Some? && index.value >= 0 && |thinkingBlocks| < MAX_BLOCKS {
          thinkingBlocks := thinkingBlocks + {index.value};
        }
      case ToolStart(index, id, structured) =>
        if id.Some? && index.Some? && |toolBlocks| < MAX_BLOCKS {
          toolBlocks := toolBlocks + {index.value};
          if structured {
            structuredBlocks := structuredBlocks + {index.value};
          }
          SeeTool(id, false);
        }
      case TextDelta(text) =>
        counts := counts.(text := counts.text + Size(text));
      case ThinkingDelta(index, thinking, estimate) =>
        counts := counts.(reasoning := counts.reasoning + Size(thinking));
        if In(index, thinkingBlocks) && estimate.Some? && 0 < estimate.value
           && counts.estimated + estimate.value <= MAX_SAFE_INTEGER {
          counts := counts.(estimated := counts.estimated + estimate.value);
        }
      case JsonDelta(index, json) =>
        if In(index, structuredBlocks) {
          counts := counts.(structured := counts.structured + Size(json));
        } else if In(index, toolBlocks) {
          counts := counts.(tool := counts.tool + Size(json));
        }
      case BlockStop(index) =>
        structuredBlocks, toolBlocks := Without(structuredBlocks, index), Without(toolBlocks, index);
        thinkingBlocks := Without(thinkingBlocks, index);
      case OtherEvent =>
    }

    method CodexLine(row: CodexRow)
      modifies this`counts, this`failure, this`items, this`emitted
      ensures Now() == FoldCodex(old(Now()), row)
    {
      match row
      case ItemRow(phase, id, kind, text, output) =>
        var known := FindItem(id);
        if !known {
          return;
        }
        if (kind.AgentMessage? || kind.Reasoning?) && text.Some? {
          var item := items[id.value];
          var growth := Growth(item.bytes, Size(text.value));
          items := items[id.value := item.(bytes := item.bytes + growth)];
          if kind.Reasoning? {
            counts := counts.(reasoning := counts.reasoning + growth);
          } else {
            counts := counts.(text := counts.text + growth);
          }
        }
        if kind.ToolKind? {
          if !phase.Updated? {
            SeeTool(id, phase.Completed?);
          }
          if output.Some? && id.value in items {
            var item := items[id.value];
            var growth := Growth(item.output, Size(output.value));
            items := items[id.value := item.(output := item.output + growth)];
            counts := counts.(tool := counts.tool + growth);
          }
        }
      case TurnFailedRow =>
        failure := Some(TurnFailure);
      case OtherCodexRow =>
    }

    method FindItem(id: Option<string>) returns (known: bool)
      modifies this`failure, this`items
      ensures Now() == Touch(old(Now()), id) && known == Known(Now(), id)
    {
      if !ValidId(id) {
        return false;
      }
      if id.value !in items {
        if |items| >= MAX_ITEMS {
          failure := Some(ItemLimit);
          return false;
        }
        items := items[id.value := Item(false, false, 0, 0)];
      }
      return true;
    }

    method SeeTool(id: Option<string>, completed: bool)
      modifies this`counts, this`failure, this`items, this`emitted
      ensures Now() == Tool(old(Now()), id, completed)
    {
      var known := FindItem(id);
      if !known {
        return;
      }
      var item := items[id.value];
      if item.completed || (!completed && item.started) {
        return;
      }
      if completed {
        items := items[id.value := item.(completed := true)];
        counts := counts.(toolResults := counts.toolResults + 1);
        emitted := emitted + [ResultOf(id.value)];
      } else {
        items := items[id.value := item.(started := true)];
        counts := counts.(toolStarts := counts.toolStarts + 1);
        emitted := emitted + [StartOf(id.value)];
      }
    }
  }

  /** Chunk independence: counters, final value and failure depend only on the concatenated text. */
  method Drain(host: Host, parse: Parser, limit: nat, chunks: seq<string>, held: string)
    returns (counts: Counts, finalValue: Option<string>, failure: Option<Failure>)
    ensures counts == FoldStream(host, parse, limit, Concat(chunks), held).counts
    ensures finalValue == FoldStream(host, parse, limit, Concat(chunks), held).finalValue
    ensures failure == FoldStream(host, parse, limit, Concat(chunks), held).failure
  {
    var decoder := new NativeStreamDecoder(host, parse, limit);
    for i := 0 to |chunks|
      invariant fresh(decoder) && decoder.Valid()
      invariant decoder.host == host && decoder.parse == parse && decoder.maxFrameBytes == limit
      invariant decoder.received == Concat(chunks[..i])
    {
      decoder.Stdout(Size(chunks[i]), chunks[i]);
      ConcatStep(chunks, i);
    }
    assert chunks[..|chunks|] == chunks;
    decoder.Finish(held);
    assert decoder.Now() == FoldStream(host, parse, limit, Concat(chunks), held);
    return decoder.counts, decoder.finalValue, decoder.failure;
  }
}
