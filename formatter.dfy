/** The second phase of `AgentTeam.run_chat` (Agent.py:176-197): rendering the
    conversation log as one Markdown transcript. */
module Formatter {
  import opened Conversation
  import opened PyText

  /** What the rendered blocks are joined with. */
  const Separator: string := "\n\n"

  /** The fixed line a tool execution renders to. */
  const ToolResultLine: string := "\U{2705} **Tool Result:** Data received successfully."

  /** The block of a tool request: who plans to call which tool, and the
      arguments in a fenced JSON code block. */
  function ToolCallBlock(source: string, toolName: string, arguments: string): string {
    ToolCallPrefix + (source + (ToolCallMiddle + (toolName + (ToolCallArguments + (arguments + ToolCallSuffix)))))
  }

  const ToolCallPrefix: string := "\U{1F6E0}\U{FE0F} **Tool Call:** `"
  const ToolCallMiddle: string := "` is planning to call `"
  const ToolCallArguments: string := "` with arguments:\n```json\n"
  const ToolCallSuffix: string := "\n```"

  predicate NoBacktick(s: string) {
    forall k :: 0 <= k < |s| ==> s[k] != '`'
  }

  /** Two ways of cutting one string in front of its first backtick agree. */
  lemma CutAtFirstBacktick(u1: string, v1: string, u2: string, v2: string)
    requires NoBacktick(u1) && NoBacktick(u2)
    requires v1 != [] && v2 != [] && v1[0] == '`' && v2[0] == '`'
    requires u1 + v1 == u2 + v2
    ensures u1 == u2 && v1 == v2
  {
    var x := u1 + v1;
    assert x[|u1|] == '`' && x[|u2|] == '`';
    assert forall k :: 0 <= k < |u1| ==> x[k] != '`' by {
      forall k | 0 <= k < |u1| ensures x[k] != '`' { assert x[k] == u1[k]; }
    }
    assert forall k :: 0 <= k < |u2| ==> x[k] != '`' by {
      forall k | 0 <= k < |u2| ensures x[k] != '`' { assert x[k] == u2[k]; }
    }
    assert |u1| == |u2|;
    assert u1 == x[..|u1|] && u2 == x[..|u2|];
    assert v1 == x[|u1|..] && v2 == x[|u2|..];
  }

  /** A tool-call block names its source, its tool and its arguments: as long
      as neither the source nor the tool name holds a backtick, the block
      determines all three. */
  lemma ToolCallBlockNamesCall(s1: string, n1: string, a1: string, s2: string, n2: string, a2: string)
    requires NoBacktick(s1) && NoBacktick(n1) && NoBacktick(s2) && NoBacktick(n2)
    requires ToolCallBlock(s1, n1, a1) == ToolCallBlock(s2, n2, a2)
    ensures s1 == s2 && n1 == n2 && a1 == a2
  {
    assert ToolCallMiddle[0] == '`' && ToolCallArguments[0] == '`';
    FieldsBetweenBackticks(ToolCallPrefix, ToolCallMiddle, ToolCallArguments, ToolCallSuffix, s1, n1, a1, s2, n2, a2);
  }

  lemma FieldsBetweenBackticks(p: string, m1: string, m2: string, q: string,
                               s1: string, n1: string, a1: string, s2: string, n2: string, a2: string)
    requires m1 != [] && m1[0] == '`' && m2 != [] && m2[0] == '`'
    requires NoBacktick(s1) && NoBacktick(n1) && NoBacktick(s2) && NoBacktick(n2)
    requires p + (s1 + (m1 + (n1 + (m2 + (a1 + q))))) == p + (s2 + (m1 + (n2 + (m2 + (a2 + q)))))
    ensures s1 == s2 && n1 == n2 && a1 == a2
  {
    DropPrefix(p, s1 + (m1 + (n1 + (m2 + (a1 + q)))), s2 + (m1 + (n2 + (m2 + (a2 + q)))));
    CutAtFirstBacktick(s1, m1 + (n1 + (m2 + (a1 + q))), s2, m1 + (n2 + (m2 + (a2 + q))));
    DropPrefix(m1, n1 + (m2 + (a1 + q)), n2 + (m2 + (a2 + q)));
    CutAtFirstBacktick(n1, m2 + (a1 + q), n2, m2 + (a2 + q));
    DropPrefix(m2, a1 + q, a2 + q);
    assert a1 == (a1 + q)[..|a1 + q| - |q|] && a2 == (a2 + q)[..|a2 + q| - |q|];
  }

  lemma DropPrefix(p: string, x: string, y: string)
    requires p + x == p + y
    ensures x == y
  {
    assert x == (p + x)[|p|..] && y == (p + y)[|p|..];
  }

  /** The labelled paragraph of a text entry whose stripped content is `body`. */
  function TextBlock(source: string, body: string): string {
    "**" + Title(source) + "**:\n\n" + body
  }

  /** The block one entry renders to; a text entry that is empty or all
      whitespace renders to none. */
  function Block(e: LogEntry): Option<string> {
    match e
    case Text(source, content) =>
      var body := Strip(content);
      if body == "" then None else Some(TextBlock(source, body))
    case ToolRequest(source, toolName, arguments) => Some(ToolCallBlock(source, toolName, arguments))
    case ToolExecution(_) => Some(ToolResultLine)
  }

  function BlockList(e: LogEntry): seq<string> {
    match Block(e)
    case Some(b) => [b]
    case None => []
  }

  /** `formatted_log`: the blocks of the entries, in log order. */
  function Blocks(log: seq<LogEntry>): seq<string>
    decreases |log|
  {
    if |log| == 0 then []
    else Blocks(log[..|log| - 1]) + BlockList(log[|log| - 1])
  }

  /** The transcript `run_chat` returns for a log. */
  function Render(log: seq<LogEntry>): string {
    Join(Blocks(log), Separator)
  }

  /** The number of text entries that are not empty or all whitespace. */
  function VisibleTextCount(log: seq<LogEntry>): nat
    decreases |log|
  {
    if |log| == 0 then 0
    else
      var last := log[|log| - 1];
      VisibleTextCount(log[..|log| - 1]) + (if last.Text? && !AllSpace(last.content) then 1 else 0)
  }

  /** A text entry renders to no block exactly when its content is empty or
      all whitespace; otherwise to its source, title-cased and in bold,
      followed by a blank line and the content without its surrounding
      whitespace, which is non-empty and neither starts nor ends with
      whitespace. */
  lemma BlockOfText(source: string, content: string)
    ensures Block(Text(source, content)).None? <==> AllSpace(content)
    ensures Block(Text(source, content)).Some? ==>
      var body := Strip(content);
      Block(Text(source, content)).value == TextBlock(source, body) &&
      body != "" && !IsSpace(body[0]) && !IsSpace(body[|body| - 1])
  {
  }

  /** A text entry with content `c` renders to the same block as one whose
      content is `c` padded with whitespace on either side. */
  lemma BlockIgnoresPadding(source: string, a: string, c: string, b: string)
    requires AllSpace(a) && AllSpace(b)
    ensures Block(Text(source, a + c + b)) == Block(Text(source, c))
  {
    StripIgnoresPadding(a, c, b);
  }

  lemma {:induction false} BlocksAppend(a: seq<LogEntry>, b: seq<LogEntry>)
    ensures Blocks(a + b) == Blocks(a) + Blocks(b)
    decreases |b|
  {
    if b == [] {
      assert a + b == a;
    } else {
      var b' := b[..|b| - 1];
      assert (a + b)[..|a + b| - 1] == a + b';
      BlocksAppend(a, b');
    }
  }

  /** The blocks appear in log order: the blocks of the entries before
      position `i` come first, then the block of entry `i`, if it has one. */
  lemma BlocksInOrder(log: seq<LogEntry>, i: nat)
    requires i < |log|
    ensures Blocks(log[..i]) + BlockList(log[i]) <= Blocks(log)
    ensures Block(log[i]).Some? ==>
      |Blocks(log[..i])| < |Blocks(log)| && Blocks(log)[|Blocks(log[..i])|] == Block(log[i]).value
  {
    assert log == log[..i + 1] + log[i + 1..];
    BlocksAppend(log[..i + 1], log[i + 1..]);
    assert log[..i + 1][..i] == log[..i];
  }

  /** There is one block per tool entry and one per text entry that is not
      empty or all whitespace. */
  lemma {:induction false} BlockCount(log: seq<LogEntry>)
    ensures |Blocks(log)| == |NonTextEntries(log)| + VisibleTextCount(log)
    decreases |log|
  {
    if |log| > 0 {
      BlockCount(log[..|log| - 1]);
      BlockOfText(log[|log| - 1].source, if log[|log| - 1].Text? then log[|log| - 1].content else "");
    }
  }

  /** When every entry has a block, nothing is dropped: one block per entry. */
  lemma {:induction false} EveryEntryRendered(log: seq<LogEntry>)
    requires forall k :: 0 <= k < |log| ==> Block(log[k]).Some?
    ensures |Blocks(log)| == |log|
    decreases |log|
  {
    if |log| > 0 {
      EveryEntryRendered(log[..|log| - 1]);
    }
  }

  /** A text entry that is empty or all whitespace leaves no trace in the
      transcript: the transcript is the one of the log without it. */
  lemma DroppedTextEntry(a: seq<LogEntry>, source: string, content: string, b: seq<LogEntry>)
    requires AllSpace(content)
    ensures Render(a + [Text(source, content)] + b) == Render(a + b)
  {
    DroppedTextBlocks(a, Text(source, content), b);
  }

  lemma DroppedTextBlocks(a: seq<LogEntry>, hidden: LogEntry, b: seq<LogEntry>)
    requires hidden.Text? && AllSpace(hidden.content)
    ensures Blocks(a + [hidden] + b) == Blocks(a + b)
  {
    BlockOfText(hidden.source, hidden.content);
    var one: seq<LogEntry> := [hidden];
    assert one[..0] == [];
    assert Blocks(one) == [];
    BlocksAppend(a + one, b);
    BlocksAppend(a, one);
    BlocksAppend(a, b);
    assert Blocks(a + one) == Blocks(a);
  }

  /** Rendering one more entry adds its block, if it has one, after a blank
      line. */
  lemma RenderAppend(log: seq<LogEntry>, e: LogEntry)
    ensures Render(log + [e]) ==
      match Block(e)
      case None => Render(log)
      case Some(b) => if Blocks(log) == [] then b else Render(log) + Separator + b
  {
    assert (log + [e])[..|log|] == log;
    var bs := Blocks(log + [e]);
    assert bs == Blocks(log) + BlockList(e);
    match Block(e)
    case None =>
      assert bs == Blocks(log);
    case Some(b) =>
      assert bs == Blocks(log) + [b];
      if Blocks(log) == [] {
        assert bs == [b];
      } else {
        JoinConcat(Blocks(log), [b], Separator);
      }
  }

  /** The formatting loop of run_chat (Agent.py:176-195). */
  method FormatLog(flow: seq<LogEntry>) returns (formatted: seq<string>)
    ensures formatted == Blocks(flow)
  {
    formatted := [];
    for n := 0 to |flow|
      invariant formatted == Blocks(flow[..n])
    {
      assert flow[..n + 1][..n] == flow[..n];
      var item := flow[n];
      match item
      case Text(source, content) =>
        var body := Strip(content);
        if body != "" {
          formatted := formatted + [TextBlock(source, body)];
        }
      case ToolRequest(source, toolName, arguments) =>
        formatted := formatted + [ToolCallBlock(source, toolName, arguments)];
      case ToolExecution(_) =>
        formatted := formatted + [ToolResultLine];
    }
    assert flow[..|flow|] == flow;
  }
}
