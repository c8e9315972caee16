/** The first phase of `AgentTeam.run_chat` (Agent.py:139-174): folding the
    team's event stream into the conversation log.  The functions state what
    the fold computes; the methods are the loops that compute it. */
module Aggregator {
  import opened Conversation

  /** The log before any event: the task as a text entry from the user. */
  function Seed(task: string): seq<LogEntry> {
    [Text(UserSource, task)]
  }

  /** The index of the last text entry from `s` among the first `n` entries. */
  function LastTextBefore(log: seq<LogEntry>, s: string, n: nat): (r: Option<nat>)
    requires n <= |log|
    ensures r.Some? ==> r.value < n && IsTextOf(log[r.value], s)
    ensures r.Some? ==> forall j :: r.value < j < n ==> !IsTextOf(log[j], s)
    ensures r.None? ==> forall j :: 0 <= j < n ==> !IsTextOf(log[j], s)
    decreases n
  {
    if n == 0 then None
    else if IsTextOf(log[n - 1], s) then Some(n - 1)
    else LastTextBefore(log, s, n - 1)
  }

  /** The entry a chunk from `s` is merged into: the most recent text entry
      from `s` anywhere in the log, if there is one. */
  function LastText(log: seq<LogEntry>, s: string): Option<nat> {
    LastTextBefore(log, s, |log|)
  }

  /** The text accumulated for `s` so far: the content of its merge target. */
  function TextOf(log: seq<LogEntry>, s: string): Option<string> {
    match LastText(log, s)
    case Some(i) => Some(log[i].content)
    case None => None
  }

  /** The entries that a tool-call request appends, one per call, in call order. */
  function RequestEntries(source: string, calls: seq<Call>): (es: seq<LogEntry>)
    ensures |es| == |calls|
    ensures forall k :: 0 <= k < |calls| ==>
      es[k] == ToolRequest(source, calls[k].name, calls[k].arguments)
    decreases |calls|
  {
    if |calls| == 0 then []
    else
      var call := calls[|calls| - 1];
      RequestEntries(source, calls[..|calls| - 1]) + [ToolRequest(source, call.name, call.arguments)]
  }

  /** The effect of one event on the log (one iteration of the `async for`). */
  function Step(log: seq<LogEntry>, e: Event): seq<LogEntry> {
    match e
    case ToolCallRequest(source, calls) => log + RequestEntries(source, calls)
    case ToolCallExecution(source) => log + [ToolExecution(source)]
    case StreamingChunk(source, text) =>
      (match LastText(log, source)
       case Some(i) => log[i := Text(source, log[i].content + text)]
       case None => log + [Text(source, text)])
    case Other(_, _) => log
  }

  /** The log after the events, in arrival order. */
  function Run(log: seq<LogEntry>, events: seq<Event>): seq<LogEntry>
    decreases |events|
  {
    if |events| == 0 then log
    else Step(Run(log, events[..|events| - 1]), events[|events| - 1])
  }

  /** The log `run_chat` builds for a task and the drained event stream. */
  function Aggregate(task: string, events: seq<Event>): seq<LogEntry> {
    Run(Seed(task), events)
  }

  // ---------------------------------------------------------------------------
  // Reference definitions over the event stream alone

  predicate IsChunkFrom(e: Event, s: string) {
    e.StreamingChunk? && e.source == s
  }

  /** The text a single event contributes to source `s`. */
  function ChunkText(e: Event, s: string): string {
    if IsChunkFrom(e, s) then e.text else ""
  }

  /** Every chunk from `s`, concatenated in arrival order. */
  function ChunksFrom(s: string, events: seq<Event>): string
    decreases |events|
  {
    if |events| == 0 then ""
    else ChunksFrom(s, events[..|events| - 1]) + ChunkText(events[|events| - 1], s)
  }

  predicate HasChunkFrom(s: string, events: seq<Event>) {
    exists k :: 0 <= k < |events| && IsChunkFrom(events[k], s)
  }

  /** The tool entries the events call for, in arrival order. */
  function ToolEntriesOf(events: seq<Event>): seq<LogEntry>
    decreases |events|
  {
    if |events| == 0 then []
    else
      var e := events[|events| - 1];
      ToolEntriesOf(events[..|events| - 1]) +
        match e
        case ToolCallRequest(source, calls) => RequestEntries(source, calls)
        case ToolCallExecution(source) => [ToolExecution(source)]
        case _ => []
  }

  /** At most one text entry per source. */
  predicate OneTextPerSource(log: seq<LogEntry>) {
    forall i, j :: 0 <= i < j < |log| && log[i].Text? && log[j].Text? ==> log[i].source != log[j].source
  }

  /** Entry `b` is entry `a`, or the same text entry with more text at its end. */
  predicate Grows(a: LogEntry, b: LogEntry) {
    a == b || (a.Text? && b.Text? && a.source == b.source && a.content <= b.content)
  }

  // ---------------------------------------------------------------------------
  // One event at a time

  /** Whatever the log, the merge target is the last text entry from `s`. */
  lemma LastTextIsLast(log: seq<LogEntry>, s: string, i: nat)
    requires i < |log| && IsTextOf(log[i], s)
    requires forall j :: i < j < |log| ==> !IsTextOf(log[j], s)
    ensures LastText(log, s) == Some(i)
  {
  }

  /** A tool-call request with k calls appends exactly k tool-request entries,
      in call order, each with its call's name and arguments and the event's
      source, and changes no earlier entry; a tool-call execution appends one
      tool-execution entry from the event's source; any other event that is
      not a chunk changes nothing. */
  lemma StepOnToolEvent(log: seq<LogEntry>, e: Event)
    requires !e.StreamingChunk?
    ensures var r := Step(log, e); |r| >= |log| && r[..|log|] == log
    ensures var r := Step(log, e); e.ToolCallRequest? ==>
      |r| == |log| + |e.calls| &&
      forall k :: 0 <= k < |e.calls| ==>
        r[|log| + k] == ToolRequest(e.source, e.calls[k].name, e.calls[k].arguments)
    ensures var r := Step(log, e); e.ToolCallExecution? ==>
      |r| == |log| + 1 && r[|log|] == ToolExecution(e.source)
    ensures e.Other? ==> Step(log, e) == log
  {
    var r := Step(log, e);
    if e.ToolCallRequest? {
      forall k | 0 <= k < |e.calls|
        ensures r[|log| + k] == ToolRequest(e.source, e.calls[k].name, e.calls[k].arguments)
      {
        assert r[|log| + k] == RequestEntries(e.source, e.calls)[k];
      }
    }
  }

  /** A chunk from `s` is appended to the most recent text entry from `s`
      wherever it is in the log, whatever entries follow it; only when the log
      has no text entry from `s` is a new text entry appended.  The log grows by
      at most one entry. */
  lemma StepOnChunk(log: seq<LogEntry>, s: string, text: string)
    ensures var r := Step(log, StreamingChunk(s, text)); |log| <= |r| <= |log| + 1
    ensures forall i ::
      (0 <= i < |log| && IsTextOf(log[i], s) && forall j :: i < j < |log| ==> !IsTextOf(log[j], s)) ==>
        Step(log, StreamingChunk(s, text)) == log[i := Text(s, log[i].content + text)]
    ensures (forall i :: 0 <= i < |log| ==> !IsTextOf(log[i], s)) ==>
      Step(log, StreamingChunk(s, text)) == log + [Text(s, text)]
  {
    forall i | 0 <= i < |log| && IsTextOf(log[i], s) && (forall j :: i < j < |log| ==> !IsTextOf(log[j], s))
      ensures Step(log, StreamingChunk(s, text)) == log[i := Text(s, log[i].content + text)]
    {
      LastTextIsLast(log, s, i);
    }
  }

  /** The user's seeded entry stays first; only a chunk from the user changes
      it, and only by appending that chunk's text. */
  lemma StepKeepsSeed(log: seq<LogEntry>, e: Event)
    requires |log| > 0 && IsTextOf(log[0], UserSource) && OneTextPerSource(log)
    ensures |Step(log, e)| > 0
    ensures Step(log, e)[0] == Text(UserSource, log[0].content + ChunkText(e, UserSource))
  {
    if e.StreamingChunk? {
      LastTextIsLast(log, UserSource, 0);
      if e.source != UserSource {
        match LastText(log, e.source)
        case Some(i) => assert i != 0;
        case None =>
      }
    } else {
      StepOnToolEvent(log, e);
      assert Step(log, e)[0] == Step(log, e)[..|log|][0];
    }
  }

  /** Every entry after the event is the entry that was there or a text entry
      grown at its end: nothing is removed, reordered or replaced. */
  lemma StepGrows(log: seq<LogEntry>, e: Event)
    ensures |Step(log, e)| >= |log|
    ensures forall i :: 0 <= i < |log| ==> Grows(log[i], Step(log, e)[i])
  {
    if !e.StreamingChunk? {
      StepOnToolEvent(log, e);
      var r := Step(log, e);
      forall i | 0 <= i < |log| ensures Grows(log[i], r[i]) {
        assert r[i] == r[..|log|][i];
      }
    }
  }

  /** Merging a chunk or appending tool entries keeps one text entry per source. */
  lemma StepPreservesOneText(log: seq<LogEntry>, e: Event)
    requires OneTextPerSource(log)
    ensures OneTextPerSource(Step(log, e))
  {
    var r := Step(log, e);
    match e
    case StreamingChunk(s, text) =>
      match LastText(log, s) {
        case Some(i) =>
          assert forall k :: 0 <= k < |log| ==> r[k].Text? == log[k].Text? && r[k].source == log[k].source;
        case None =>
          assert forall k :: 0 <= k < |log| ==> r[k] == log[k];
      }
    case ToolCallRequest(_, _) =>
      StepOnToolEvent(log, e);
      assert forall k :: 0 <= k < |log| ==> r[k] == r[..|log|][k];
    case ToolCallExecution(_) =>
      assert forall k :: 0 <= k < |log| ==> r[k] == log[k];
    case Other(_, _) =>
  }

  /** The text accumulated for `s` changes only by a chunk from `s`, which
      appends to it, or starts it when `s` had no text yet. */
  lemma StepText(log: seq<LogEntry>, e: Event, s: string)
    ensures TextOf(Step(log, e), s) ==
      match TextOf(log, s)
      case Some(c) => Some(c + ChunkText(e, s))
      case None => if IsChunkFrom(e, s) then Some(e.text) else None
  {
    var r := Step(log, e);
    if !e.StreamingChunk? {
      StepOnToolEvent(log, e);
      assert forall k :: 0 <= k < |log| ==> r[k] == r[..|log|][k];
      assert forall k :: |log| <= k < |r| ==> !r[k].Text?;
      SameLastText(log, r, s);
    } else if e.source == s {
      match LastText(log, s)
      case Some(i) => LastTextIsLast(r, s, i);
      case None => LastTextIsLast(r, s, |log|);
    } else {
      assert forall k :: 0 <= k < |log| ==> IsTextOf(r[k], s) == IsTextOf(log[k], s);
      assert forall k :: |log| <= k < |r| ==> !IsTextOf(r[k], s);
      SameLastText(log, r, s);
    }
    if !IsChunkFrom(e, s) && TextOf(log, s).Some? {
      assert TextOf(log, s).value + ChunkText(e, s) == TextOf(log, s).value;
    }
  }

  /** Two logs whose text entries from `s` sit at the same places, with
      nothing from `s` after the shorter one's end, have the same merge target. */
  lemma SameLastText(log: seq<LogEntry>, r: seq<LogEntry>, s: string)
    requires |log| <= |r|
    requires forall k :: 0 <= k < |log| ==> IsTextOf(r[k], s) == IsTextOf(log[k], s)
    requires forall k :: 0 <= k < |log| && IsTextOf(log[k], s) ==> r[k] == log[k]
    requires forall k :: |log| <= k < |r| ==> !IsTextOf(r[k], s)
    ensures LastText(r, s) == LastText(log, s)
    ensures TextOf(r, s) == TextOf(log, s)
  {
    match LastText(log, s)
    case Some(i) => LastTextIsLast(r, s, i);
    case None =>
  }

  // ---------------------------------------------------------------------------
  // The whole stream

  lemma {:induction false} RunGrows(log: seq<LogEntry>, events: seq<Event>)
    ensures |Run(log, events)| >= |log|
    ensures forall i :: 0 <= i < |log| ==> Grows(log[i], Run(log, events)[i])
    decreases |events|
  {
    if |events| > 0 {
      var pre := Run(log, events[..|events| - 1]);
      RunGrows(log, events[..|events| - 1]);
      StepGrows(pre, events[|events| - 1]);
      var r := Run(log, events);
      forall i | 0 <= i < |log| ensures Grows(log[i], r[i]) {
        assert Grows(log[i], pre[i]) && Grows(pre[i], r[i]);
        if log[i] != r[i] {
          assert log[i].content <= pre[i].content <= r[i].content;
        }
      }
    }
  }

  /** The log never shrinks, and every entry already in it stays at its place,
      as it was or, for a text entry, with more text at its end. */
  lemma AggregateGrows(task: string, events: seq<Event>, n: nat)
    requires n <= |events|
    ensures |Aggregate(task, events[..n])| <= |Aggregate(task, events)|
    ensures forall i :: 0 <= i < |Aggregate(task, events[..n])| ==>
      Grows(Aggregate(task, events[..n])[i], Aggregate(task, events)[i])
  {
    RunSplit(Seed(task), events, n);
    RunGrows(Aggregate(task, events[..n]), events[n..]);
  }

  lemma {:induction false} RunSplit(log: seq<LogEntry>, events: seq<Event>, n: nat)
    requires n <= |events|
    ensures Run(log, events) == Run(Run(log, events[..n]), events[n..])
    decreases |events|
  {
    if n < |events| {
      var pre := events[..|events| - 1];
      RunSplit(log, pre, n);
      assert pre[..n] == events[..n];
      assert events[n..][..|events[n..]| - 1] == pre[n..];
    } else {
      assert events[..n] == events;
    }
  }

  /** One more event is one more step. */
  lemma RunSnoc(log: seq<LogEntry>, events: seq<Event>, e: Event)
    ensures Run(log, events + [e]) == Step(Run(log, events), e)
  {
    assert (events + [e])[..|events|] == events;
  }

  lemma RunTwo(log: seq<LogEntry>, e0: Event, e1: Event)
    ensures Run(log, [e0, e1]) == Step(Step(log, e0), e1)
  {
    RunSnoc(log, [], e0);
    RunSnoc(log, [e0], e1);
    assert [e0] == [] + [e0] && [e0, e1] == [e0] + [e1];
  }

  lemma RunThree(log: seq<LogEntry>, e0: Event, e1: Event, e2: Event)
    ensures Run(log, [e0, e1, e2]) == Step(Step(Step(log, e0), e1), e2)
  {
    RunSnoc(log, [], e0);
    RunSnoc(log, [e0], e1);
    RunSnoc(log, [e0, e1], e2);
    assert [e0] == [] + [e0] && [e0, e1] == [e0] + [e1] && [e0, e1, e2] == [e0, e1] + [e2];
  }

  /** Processing two streams one after the other is processing their concatenation. */
  lemma RunConcat(log: seq<LogEntry>, a: seq<Event>, b: seq<Event>)
    ensures Run(log, a + b) == Run(Run(log, a), b)
  {
    RunSplit(log, a + b, |a|);
    assert (a + b)[..|a|] == a && (a + b)[|a|..] == b;
  }

  lemma {:induction false} AggregateOneText(task: string, events: seq<Event>)
    ensures OneTextPerSource(Aggregate(task, events))
    decreases |events|
  {
    if |events| > 0 {
      AggregateOneText(task, events[..|events| - 1]);
      StepPreservesOneText(Aggregate(task, events[..|events| - 1]), events[|events| - 1]);
    }
  }

  lemma {:induction false} NoChunksNoText(s: string, events: seq<Event>)
    requires !HasChunkFrom(s, events)
    ensures ChunksFrom(s, events) == ""
    decreases |events|
  {
    if |events| > 0 {
      var pre := events[..|events| - 1];
      HasChunkFromSplit(s, events);
      NoChunksNoText(s, pre);
    }
  }

  lemma HasChunkFromSplit(s: string, events: seq<Event>)
    requires |events| > 0
    ensures HasChunkFrom(s, events) <==>
      HasChunkFrom(s, events[..|events| - 1]) || IsChunkFrom(events[|events| - 1], s)
  {
    var pre := events[..|events| - 1];
    if HasChunkFrom(s, pre) {
      var k :| 0 <= k < |pre| && IsChunkFrom(pre[k], s);
      assert events[k] == pre[k];
    }
    if HasChunkFrom(s, events) && !IsChunkFrom(events[|events| - 1], s) {
      var k :| 0 <= k < |events| && IsChunkFrom(events[k], s);
      assert pre[k] == events[k];
    }
  }

  /** After the whole stream, the text accumulated for a source is every chunk
      from that source concatenated in arrival order, preceded by the task for
      the user, whatever tool entries or other sources' entries came between
      the chunks; a source other than the user has text exactly when at least
      one chunk came from it. */
  lemma {:induction false} AggregateText(task: string, events: seq<Event>, s: string)
    ensures TextOf(Aggregate(task, events), s) ==
      if s == UserSource then Some(task + ChunksFrom(s, events))
      else if HasChunkFrom(s, events) then Some(ChunksFrom(s, events))
      else None
    decreases |events|
  {
    if |events| == 0 {
      LastTextIsLast(Seed(task), UserSource, 0);
      assert task + "" == task;
    } else {
      var pre := events[..|events| - 1];
      var e := events[|events| - 1];
      AggregateText(task, pre, s);
      StepText(Aggregate(task, pre), e, s);
      HasChunkFromSplit(s, events);
      assert ChunksFrom(s, events) == ChunksFrom(s, pre) + ChunkText(e, s);
      if s == UserSource {
        assert task + ChunksFrom(s, pre) + ChunkText(e, s) == task + ChunksFrom(s, events);
      } else if !HasChunkFrom(s, pre) {
        NoChunksNoText(s, pre);
        assert ChunksFrom(s, events) == ChunkText(e, s);
      }
    }
  }

  /** The log holds at most one text entry per source, and that entry holds
      the source's accumulated text; the first entry is the user's, holding the
      task followed by every chunk from the user. */
  lemma AggregateEntries(task: string, events: seq<Event>, s: string)
    ensures OneTextPerSource(Aggregate(task, events))
    ensures forall i :: 0 <= i < |Aggregate(task, events)| && IsTextOf(Aggregate(task, events)[i], s) ==>
      Some(Aggregate(task, events)[i].content) == TextOf(Aggregate(task, events), s)
    ensures |Aggregate(task, events)| > 0 &&
      Aggregate(task, events)[0] == Text(UserSource, task + ChunksFrom(UserSource, events))
  {
    var log := Aggregate(task, events);
    AggregateOneText(task, events);
    forall i | 0 <= i < |log| && IsTextOf(log[i], s)
      ensures Some(log[i].content) == TextOf(log, s)
    {
      LastTextIsLast(log, s, i);
    }
    RunGrows(Seed(task), events);
    assert IsTextOf(log[0], UserSource);
    LastTextIsLast(log, UserSource, 0);
    AggregateText(task, events, UserSource);
  }

  /** The tool entries of the log are exactly the ones the tool events call
      for, each once, in arrival order. */
  lemma {:induction false} AggregateToolEntries(task: string, events: seq<Event>)
    ensures NonTextEntries(Aggregate(task, events)) == ToolEntriesOf(events)
    decreases |events|
  {
    if |events| == 0 {
      assert Seed(task)[..0] == [];
    } else {
      var pre := events[..|events| - 1];
      var e := events[|events| - 1];
      var log := Aggregate(task, pre);
      AggregateToolEntries(task, pre);
      match e
      case ToolCallRequest(source, calls) =>
        NonTextEntriesAppend(log, RequestEntries(source, calls));
        RequestEntriesAreTools(source, calls);
      case ToolCallExecution(source) =>
        NonTextEntriesAppend(log, [ToolExecution(source)]);
        assert [ToolExecution(source)][..0] == [];
      case StreamingChunk(source, text) =>
        match LastText(log, source) {
          case Some(i) => NonTextEntriesUpdateText(log, i, Text(source, log[i].content + text));
          case None => assert (log + [Text(source, text)])[..|log|] == log;
        }
      case Other(_, _) =>
    }
  }

  lemma {:induction false} RequestEntriesAreTools(source: string, calls: seq<Call>)
    ensures NonTextEntries(RequestEntries(source, calls)) == RequestEntries(source, calls)
    decreases |calls|
  {
    if |calls| > 0 {
      var call := calls[|calls| - 1];
      var pre := RequestEntries(source, calls[..|calls| - 1]);
      var last := ToolRequest(source, call.name, call.arguments);
      RequestEntriesAreTools(source, calls[..|calls| - 1]);
      assert (pre + [last])[..|pre|] == pre;
    }
  }

  // ---------------------------------------------------------------------------
  // The loops of run_chat

  /** The backward scan for the merge target and the in-place append
      (Agent.py:162-174). */
  method MergeChunk(flow: seq<LogEntry>, source: string, chunk: string) returns (flow': seq<LogEntry>)
    ensures flow' == Step(flow, StreamingChunk(source, chunk))
  {
    flow' := flow;
    var found := false;
    var i := |flow| - 1;
    while i >= 0
      invariant -1 <= i < |flow|
      invariant !found && flow' == flow
      invariant LastText(flow, source) == LastTextBefore(flow, source, i + 1)
      decreases i
    {
      if flow'[i].source == source && flow'[i].Text? {
        flow' := flow'[i := Text(source, flow'[i].content + chunk)];
        found := true;
        break;
      }
      i := i - 1;
    }
    if !found {
      flow' := flow' + [Text(source, chunk)];
    }
  }

  /** One tool-request entry per call, in call order (Agent.py:146-153). */
  method AppendToolCalls(flow: seq<LogEntry>, source: string, calls: seq<Call>) returns (flow': seq<LogEntry>)
    ensures flow' == Step(flow, ToolCallRequest(source, calls))
  {
    flow' := flow;
    for k := 0 to |calls|
      invariant flow' == flow + RequestEntries(source, calls[..k])
    {
      var call := calls[k];
      flow' := flow' + [ToolRequest(source, call.name, call.arguments)];
      assert calls[..k + 1][..k] == calls[..k];
    }
    assert calls[..|calls|] == calls;
  }

  /** The aggregation loop over the drained stream (Agent.py:139-174). */
  method AggregateEvents(task: string, events: seq<Event>) returns (flow: seq<LogEntry>)
    ensures flow == Aggregate(task, events)
  {
    flow := [Text(UserSource, task)];
    for n := 0 to |events|
      invariant flow == Run(Seed(task), events[..n])
    {
      assert events[..n + 1][..n] == events[..n];
      match events[n]
      case ToolCallRequest(source, calls) =>
        flow := AppendToolCalls(flow, source, calls);
      case ToolCallExecution(source) =>
        flow := flow + [ToolExecution(source)];
      case StreamingChunk(source, text) =>
        flow := MergeChunk(flow, source, text);
      case Other(_, _) =>
    }
    assert events[..|events|] == events;
  }
}
