/** What every decoded stream keeps, for every line sequence: bounds, the item table and conservation. */
module NativeStreamLaws {
  import opened Basics
  import opened Text
  import opened NativeStream

  // ----- Bounded memory -----

  ghost predicate Bounded(d: Decoded) {
    && |d.items| <= MAX_ITEMS
    && |d.toolBlocks| <= MAX_BLOCKS && |d.thinkingBlocks| <= MAX_BLOCKS
    && d.structuredBlocks <= d.toolBlocks
    && d.counts.estimated <= MAX_SAFE_INTEGER
  }

  // ----- The item table agrees with the events that were emitted -----

  function StartedIds(items: map<string, Item>): set<string> {
    set id | id in items && items[id].started
  }

  function CompletedIds(items: map<string, Item>): set<string> {
    set id | id in items && items[id].completed
  }

  function StartEvents(events: seq<ToolEvent>): set<string> {
    set event | event in events && event.StartOf? :: event.id
  }

  function ResultEvents(events: seq<ToolEvent>): set<string> {
    set event | event in events && event.ResultOf? :: event.id
  }

  lemma AppendEvent(events: seq<ToolEvent>, event: ToolEvent)
    ensures StartEvents(events + [event]) ==
            if event.StartOf? then StartEvents(events) + {event.id} else StartEvents(events)
    ensures ResultEvents(events + [event]) ==
            if event.ResultOf? then ResultEvents(events) + {event.id} else ResultEvents(events)
    ensures event.StartOf? ==> (event in events <==> event.id in StartEvents(events))
    ensures ResultOf(event.id) in events <==> event.id in ResultEvents(events)
  {
  }

  /** No event repeats, and no start follows the result of the same tool. */
  ghost predicate Ordered(events: seq<ToolEvent>) {
    forall i, j | 0 <= i < j < |events| ::
      events[i] != events[j] && (events[i].ResultOf? ==> events[j] != StartOf(events[i].id))
  }

  ghost predicate Accounted(d: Decoded) {
    && StartEvents(d.emitted) == StartedIds(d.items)
    && ResultEvents(d.emitted) == CompletedIds(d.items)
    && Ordered(d.emitted)
    && d.counts.toolStarts == |StartedIds(d.items)|
    && d.counts.toolResults == |CompletedIds(d.items)|
  }

  // ----- Conservation: counters are the sums over the table -----

  ghost function Sum(sizes: map<string, nat>): nat {
    if sizes == map[] then 0
    else
      var id :| id in sizes;
      sizes[id] + Sum(sizes - {id})
  }

  lemma {:induction false} SumWithout(sizes: map<string, nat>, id: string)
    requires id in sizes
    ensures Sum(sizes) == sizes[id] + Sum(sizes - {id})
    decreases sizes.Keys
  {
    var first :| first in sizes && Sum(sizes) == sizes[first] + Sum(sizes - {first});
    if first != id {
      var rest := sizes - {first};
      SumWithout(rest, id);
      assert rest - {id} == sizes - {id} - {first};
      SumWithout(sizes - {id}, first);
    }
  }

  lemma SumUpdate(sizes: map<string, nat>, id: string, size: nat)
    ensures Sum(sizes[id := size]) == Sum(sizes - {id}) + size
  {
    SumWithout(sizes[id := size], id);
    assert sizes[id := size] - {id} == sizes - {id};
  }

  ghost function Bytes(items: map<string, Item>): map<string, nat> {
    map id | id in items :: items[id].bytes
  }

  ghost function Outputs(items: map<string, Item>): map<string, nat> {
    map id | id in items :: items[id].output
  }

  ghost predicate Conserved(d: Decoded) {
    && d.counts.text + d.counts.reasoning == Sum(Bytes(d.items))
    && d.counts.tool == Sum(Outputs(d.items))
  }

  // ----- Preservation, function by function -----

  ghost predicate Kept(host: Host, d: Decoded) {
    Bounded(d) && Accounted(d) && (host.Codex? ==> Conserved(d))
  }

  lemma SetItemSums(items: map<string, Item>, id: string, item: Item)
    ensures Sum(Bytes(items[id := item])) == Sum(Bytes(items) - {id}) + item.bytes
    ensures Sum(Outputs(items[id := item])) == Sum(Outputs(items) - {id}) + item.output
    ensures id in items ==> Sum(Bytes(items)) == Sum(Bytes(items) - {id}) + items[id].bytes
    ensures id in items ==> Sum(Outputs(items)) == Sum(Outputs(items) - {id}) + items[id].output
    ensures id !in items ==> Sum(Bytes(items)) == Sum(Bytes(items) - {id})
    ensures id !in items ==> Sum(Outputs(items)) == Sum(Outputs(items) - {id})
  {
    SumUpdate(Bytes(items), id, item.bytes);
    SumUpdate(Outputs(items), id, item.output);
    assert Bytes(items[id := item]) == Bytes(items)[id := item.bytes];
    assert Outputs(items[id := item]) == Outputs(items)[id := item.output];
    if id in items {
      SumWithout(Bytes(items), id);
      SumWithout(Outputs(items), id);
    } else {
      assert Bytes(items) - {id} == Bytes(items) && Outputs(items) - {id} == Outputs(items);
    }
  }

  lemma SetItemIds(items: map<string, Item>, id: string, item: Item)
    ensures StartedIds(items[id := item]) ==
            if item.started then StartedIds(items) + {id} else StartedIds(items) - {id}
    ensures CompletedIds(items[id := item]) ==
            if item.completed then CompletedIds(items) + {id} else CompletedIds(items) - {id}
    ensures id in StartedIds(items) <==> id in items && items[id].started
    ensures id in CompletedIds(items) <==> id in items && items[id].completed
  {
  }

  lemma SetItemSize(items: map<string, Item>, id: string, item: Item)
    ensures |items[id := item]| == |items| + (if id in items then 0 else 1)
  {
    assert items[id := item].Keys == items.Keys + {id};
  }

  lemma NewItemAccounted(d: Decoded, id: string)
    requires Accounted(d) && id !in d.items
    ensures Accounted(d.(items := d.items[id := Item(false, false, 0, 0)]))
  {
    var item := Item(false, false, 0, 0);
    SetItemIds(d.items, id, item);
    assert StartedIds(d.items[id := item]) == StartedIds(d.items);
    assert CompletedIds(d.items[id := item]) == CompletedIds(d.items);
  }

  lemma NewItemConserved(d: Decoded, id: string)
    requires Conserved(d) && id !in d.items
    ensures Conserved(d.(items := d.items[id := Item(false, false, 0, 0)]))
  {
    SetItemSums(d.items, id, Item(false, false, 0, 0));
  }

  lemma TouchKeeps(host: Host, d: Decoded, id: Option<string>)
    requires Kept(host, d)
    ensures Kept(host, Touch(d, id))
  {
    if ValidId(id) && id.value !in d.items && |d.items| < MAX_ITEMS {
      SetItemSize(d.items, id.value, Item(false, false, 0, 0));
      NewItemAccounted(d, id.value);
      if host.Codex? {
        NewItemConserved(d, id.value);
      }
    }
  }

  lemma OrderedAppend(events: seq<ToolEvent>, event: ToolEvent)
    requires Ordered(events) && event !in events
    requires event.StartOf? ==> ResultOf(event.id) !in events
    ensures Ordered(events + [event])
  {
  }

  /** Emitting a start event while setting its flag keeps the accounting. */
  lemma StartAccounted(t: Decoded, id: string)
    requires Accounted(t) && id in t.items && !t.items[id].completed && !t.items[id].started
    ensures Accounted(t.(items := t.items[id := t.items[id].(started := true)],
                         counts := t.counts.(toolStarts := t.counts.toolStarts + 1),
                         emitted := t.emitted + [StartOf(id)]))
  {
    var items := t.items[id := t.items[id].(started := true)];
    SetItemIds(t.items, id, items[id]);
    AppendEvent(t.emitted, StartOf(id));
    OrderedAppend(t.emitted, StartOf(id));
    assert CompletedIds(items) == CompletedIds(t.items);
    assert StartedIds(items) == StartedIds(t.items) + {id} && id !in StartedIds(t.items);
  }

  lemma ResultAccounted(t: Decoded, id: string)
    requires Accounted(t) && id in t.items && !t.items[id].completed
    ensures Accounted(t.(items := t.items[id := t.items[id].(completed := true)],
                         counts := t.counts.(toolResults := t.counts.toolResults + 1),
                         emitted := t.emitted + [ResultOf(id)]))
  {
    var items := t.items[id := t.items[id].(completed := true)];
    SetItemIds(t.items, id, items[id]);
    AppendEvent(t.emitted, ResultOf(id));
    OrderedAppend(t.emitted, ResultOf(id));
    assert StartedIds(items) == StartedIds(t.items);
    assert CompletedIds(items) == CompletedIds(t.items) + {id} && id !in CompletedIds(t.items);
  }

  /** Setting a flag leaves sizes as they are. */
  lemma FlagConserved(t: Decoded, id: string, item: Item)
    requires Conserved(t) && id in t.items && item.bytes == t.items[id].bytes && item.output == t.items[id].output
    ensures Sum(Bytes(t.items[id := item])) == Sum(Bytes(t.items))
            && Sum(Outputs(t.items[id := item])) == Sum(Outputs(t.items))
  {
    SetItemSums(t.items, id, item);
  }

  lemma FlagKeeps(host: Host, t: Decoded, id: string, completed: bool)
    requires Kept(host, t) && id in t.items && !t.items[id].completed && (completed || !t.items[id].started)
    ensures Kept(host, Tool(t, Some(id), completed))
  {
    var item := t.items[id];
    var changed := if completed then item.(completed := true) else item.(started := true);
    if completed {
      ResultAccounted(t, id);
    } else {
      StartAccounted(t, id);
    }
    SetItemSize(t.items, id, changed);
    if host.Codex? {
      FlagConserved(t, id, changed);
    }
  }

  lemma TouchAgain(d: Decoded, id: Option<string>)
    ensures Touch(Touch(d, id), id) == Touch(d, id)
  {
  }

  lemma ToolOfTouched(d: Decoded, id: Option<string>, completed: bool)
    ensures Tool(d, id, completed) == Tool(Touch(d, id), id, completed)
  {
    TouchAgain(d, id);
  }

  lemma ToolKeeps(host: Host, d: Decoded, id: Option<string>, completed: bool)
    requires Kept(host, d)
    ensures Kept(host, Tool(d, id, completed))
  {
    TouchKeeps(host, d, id);
    ToolOfTouched(d, id, completed);
    var t := Touch(d, id);
    if Known(t, id) && !t.items[id.value].completed && (completed || !t.items[id.value].started) {
      FlagKeeps(host, t, id.value, completed);
    }
  }

  lemma {:induction false} ToolsKeep(host: Host, d: Decoded, ids: seq<Option<string>>)
    requires Kept(host, d)
    ensures Kept(host, Tools(d, ids))
  {
    if ids != [] {
      ToolsKeep(host, d, ids[..|ids| - 1]);
      ToolKeeps(host, Tools(d, ids[..|ids| - 1]), ids[|ids| - 1], true);
    }
  }

  lemma ToolStartKeeps(d: Decoded, index: Option<int>, id: Option<string>, structured: bool)
    requires Kept(Claude, d)
    ensures Kept(Claude, FoldEvent(d, ToolStart(index, id, structured)))
  {
    if id.Some? && index.Some? && |d.toolBlocks| < MAX_BLOCKS {
      ToolKeeps(Claude,
                d.(toolBlocks := d.toolBlocks + {index.value},
                   structuredBlocks := if structured then d.structuredBlocks + {index.value} else d.structuredBlocks),
                id, false);
    }
  }

  lemma BlockStopKeeps(d: Decoded, index: Option<int>)
    requires Kept(Claude, d)
    ensures Kept(Claude, FoldEvent(d, BlockStop(index)))
  {
    if index.Some? {
      assert |d.toolBlocks - {index.value}| <= |d.toolBlocks|;
      assert |d.thinkingBlocks - {index.value}| <= |d.thinkingBlocks|;
    }
  }

  lemma DeltaKeeps(d: Decoded, event: StreamEvent)
    requires Kept(Claude, d) && !event.ToolStart? && !event.BlockStop?
    ensures Kept(Claude, FoldEvent(d, event))
  {
    SameItemsAccounted(d, FoldEvent(d, event));
    DeltaBounded(d, event);
  }

  lemma DeltaBounded(d: Decoded, event: StreamEvent)
    requires Bounded(d) && !event.ToolStart? && !event.BlockStop?
    ensures Bounded(FoldEvent(d, event))
  {
    if event.ThinkingStart? && event.index.Some? {
      assert |d.thinkingBlocks + {event.index.value}| <= |d.thinkingBlocks| + 1;
    }
  }

  lemma SameItemsAccounted(d: Decoded, now: Decoded)
    requires Accounted(d) && now.items == d.items && now.emitted == d.emitted
    requires now.counts.toolStarts == d.counts.toolStarts && now.counts.toolResults == d.counts.toolResults
    ensures Accounted(now)
  {
  }

  lemma FoldEventKeeps(d: Decoded, event: StreamEvent)
    requires Kept(Claude, d)
    ensures Kept(Claude, FoldEvent(d, event))
  {
    if event.ToolStart? {
      ToolStartKeeps(d, event.index, event.id, event.structured);
    } else if event.BlockStop? {
      BlockStopKeeps(d, event.index);
    } else {
      DeltaKeeps(d, event);
    }
  }

  lemma SameFlags(items: map<string, Item>, id: string, item: Item)
    requires id in items && item.started == items[id].started && item.completed == items[id].completed
    ensures StartedIds(items[id := item]) == StartedIds(items)
    ensures CompletedIds(items[id := item]) == CompletedIds(items)
    ensures |items[id := item]| == |items|
  {
    SetItemIds(items, id, item);
    SetItemSize(items, id, item);
  }

  /** Items whose flags are unchanged keep the accounting of the same events. */
  lemma FlagsAccounted(d: Decoded, id: string, item: Item, counts: Counts)
    requires Accounted(d) && id in d.items && item.started == d.items[id].started
             && item.completed == d.items[id].completed
    requires counts.toolStarts == d.counts.toolStarts && counts.toolResults == d.counts.toolResults
    ensures Accounted(d.(items := d.items[id := item], counts := counts))
  {
    SameFlags(d.items, id, item);
  }

  lemma TextConserved(d: Decoded, id: string, kind: ItemKind, text: string)
    requires Conserved(d) && id in d.items
    ensures Conserved(GrowText(d, id, kind, text))
  {
    SetItemSums(d.items, id, GrowText(d, id, kind, text).items[id]);
  }

  lemma OutputConserved(d: Decoded, id: string, output: string)
    requires Conserved(d) && id in d.items
    ensures Conserved(GrowOutput(d, id, output))
  {
    SetItemSums(d.items, id, GrowOutput(d, id, output).items[id]);
  }

  lemma GrowTextKeeps(d: Decoded, id: string, kind: ItemKind, text: string)
    requires Kept(Codex, d) && id in d.items
    ensures Kept(Codex, GrowText(d, id, kind, text))
  {
    var grown := GrowText(d, id, kind, text);
    TextConserved(d, id, kind, text);
    FlagsAccounted(d, id, grown.items[id], grown.counts);
    SetItemSize(d.items, id, grown.items[id]);
  }

  lemma GrowOutputKeeps(d: Decoded, id: string, output: string)
    requires Kept(Codex, d) && id in d.items
    ensures Kept(Codex, GrowOutput(d, id, output))
  {
    var grown := GrowOutput(d, id, output);
    OutputConserved(d, id, output);
    FlagsAccounted(d, id, grown.items[id], grown.counts);
    SetItemSize(d.items, id, grown.items[id]);
  }

  lemma FoldCodexKeeps(d: Decoded, row: CodexRow)
    requires Kept(Codex, d)
    ensures Kept(Codex, FoldCodex(d, row))
  {
    match row
    case ItemRow(phase, id, kind, text, output) =>
      TouchKeeps(Codex, d, id);
      var t := Touch(d, id);
      if Known(t, id) {
        if (kind.AgentMessage? || kind.Reasoning?) && text.Some? {
          GrowTextKeeps(t, id.value, kind, text.value);
        } else if kind.ToolKind? {
          ToolKeeps(Codex, t, id, phase.Completed?);
          var u := if phase.Updated? then t else Tool(t, id, phase.Completed?);
          if output.Some? && id.value in u.items {
            GrowOutputKeeps(u, id.value, output.value);
          }
        }
      }
    case _ =>
  }

  lemma FoldLineKeeps(host: Host, parse: Parser, d: Decoded, line: string)
    requires Kept(host, d)
    ensures Kept(host, FoldLine(host, parse, d, line))
  {
    match parse(line)
    case Row(claude, codex) =>
      if host.Codex? {
        FoldCodexKeeps(d, codex);
      } else {
        match claude
        case EventRow(event) => FoldEventKeeps(d, event);
        case UserRow(results) => ToolsKeep(host, d, results);
        case _ =>
      }
    case _ =>
  }

  lemma {:induction false} FoldFramesKeep(host: Host, parse: Parser, limit: nat, lines: seq<string>)
    ensures Kept(host, FoldFrames(host, parse, limit, lines))
  {
    if lines == [] {
      assert StartedIds(EMPTY.items) == {} && CompletedIds(EMPTY.items) == {};
    } else {
      var front, line := lines[..|lines| - 1], lines[|lines| - 1];
      FoldFramesKeep(host, parse, limit, front);
      FoldLineKeeps(host, parse, FoldFrames(host, parse, limit, front), line);
    }
  }

  /** Bounds, exact tool accounting and (for Codex) byte conservation hold of every decoded stream. */
  lemma EveryStreamIsAccounted(host: Host, parse: Parser, limit: nat, text: string, held: string)
    ensures Kept(host, FoldStream(host, parse, limit, text, held))
  {
    FoldFramesKeep(host, parse, limit, Lines(text));
    FoldLineKeeps(host, parse, FoldFrames(host, parse, limit, Lines(text)), Rest(text) + held);
  }

  // ----- The final value of a whole stream -----

  predicate IsResult(parse: Parser, line: string) {
    parse(line).Row? && parse(line).claude.ResultRow?
  }

  /** The result rows among the lines within the frame limit. */
  function Results(parse: Parser, limit: nat, lines: seq<string>): seq<string> {
    if lines == [] then []
    else
      var last := lines[|lines| - 1];
      Results(parse, limit, lines[..|lines| - 1]) + if Size(last) <= limit && IsResult(parse, last) then [last] else []
  }

  predicate Fits(limit: nat, lines: seq<string>) {
    forall i | 0 <= i < |lines| :: Size(lines[i]) <= limit
  }

  function First(lines: seq<string>): Option<string> {
    if lines == [] then None else Some(lines[0])
  }

  /** Nothing new is reported but a full item table. */
  predicate OnlyFull(d: Decoded, now: Decoded) {
    now.failure == d.failure || now.failure == Some(ItemLimit)
  }

  lemma {:induction false} ToolsKeepFinal(d: Decoded, ids: seq<Option<string>>)
    ensures Tools(d, ids).finalValue == d.finalValue && OnlyFull(d, Tools(d, ids))
  {
    if ids != [] {
      ToolsKeepFinal(d, ids[..|ids| - 1]);
    }
  }

  /** One line: only a result row touches the final value, and a second one is a failure. */
  lemma LineKeepsFinal(parse: Parser, d: Decoded, line: string)
    ensures var now := FoldLine(Claude, parse, d, line);
            && now.finalValue == (if IsResult(parse, line) && d.finalValue.None? then Some(line) else d.finalValue)
            && (if IsResult(parse, line) && d.finalValue.Some? then now.failure == Some(MultipleResults)
                else OnlyFull(d, now))
  {
    match parse(line)
    case Row(claude, _) =>
      match claude {
        case UserRow(results) => ToolsKeepFinal(d, results);
        case _ =>
      }
    case _ =>
  }

  /** The failure of a stream without its end: none means at most one result and no line dropped, and then
      nothing but a full item table can have been reported. */
  ghost predicate Judged(d: Decoded, results: seq<string>, fits: bool) {
    && d.finalValue == First(results)
    && (d.failure.None? ==> |results| <= 1 && fits)
    && (|results| <= 1 && fits ==> d.failure in [None, Some(ItemLimit)])
  }

  lemma {:induction false} FramesFinal(parse: Parser, limit: nat, lines: seq<string>)
    ensures Judged(FoldFrames(Claude, parse, limit, lines), Results(parse, limit, lines), Fits(limit, lines))
  {
    if lines != [] {
      var front, last := lines[..|lines| - 1], lines[|lines| - 1];
      FramesFinal(parse, limit, front);
      LineKeepsFinal(parse, FoldFrames(Claude, parse, limit, front), last);
      assert lines == front + [last];
    }
  }

  /** Over every whole Claude stream: the final value is the first result row; a stream without failure has
      exactly one and dropped no line over the limit; and such a stream fails only by a full item table. */
  lemma FirstResultWins(parse: Parser, limit: nat, text: string, held: string)
    ensures var d, rest := FoldStream(Claude, parse, limit, text, held), Rest(text);
            var dropped := Size(rest) > limit;
            var results := Results(parse, limit, Lines(text))
                           + if !dropped && IsResult(parse, rest + held) then [rest + held] else [];
            && d.finalValue == First(results)
            && (d.failure.None? ==> |results| == 1 && Fits(limit, Lines(text)) && !dropped)
            && (|results| == 1 && Fits(limit, Lines(text)) && !dropped ==> d.failure in [None, Some(ItemLimit)])
  {
    FramesFinal(parse, limit, Lines(text));
    LineKeepsFinal(parse, FoldFrames(Claude, parse, limit, Lines(text)), Rest(text) + held);
  }
}
