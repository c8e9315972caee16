/** The values that flow through `AgentTeam.run_chat`: the events the team's
    stream yields and the entries of the conversation log built from them. */
module Conversation {

  datatype Option<T> = None | Some(value: T)

  /** One requested tool call of a tool-call request event: the tool's name and
      its arguments as the model produced them (a JSON text). */
  datatype Call = Call(name: string, arguments: string)

  /** An event of the team's stream, already classified by its `type` attribute.
      An event without a `source` attribute is built with source "system", a
      request without `content` with no calls, a chunk without `content` with
      the empty text.  Every type other than the three the loop recognises
      ("ToolCallRequestEvent", "ToolCallExecutionEvent",
      "ModelClientStreamingChunkEvent", and "" for a missing type) is `Other`. */
  datatype Event =
    | ToolCallRequest(source: string, calls: seq<Call>)
    | ToolCallExecution(source: string)
    | StreamingChunk(source: string, text: string)
    | Other(kind: string, source: string)

  /** One dictionary of `conversation_flow`, by its "type" key:
      "text", "tool_request" or "tool_execution". */
  datatype LogEntry =
    | Text(source: string, content: string)
    | ToolRequest(source: string, toolName: string, arguments: string)
    | ToolExecution(source: string)

  /** The source of the entry that seeds the log with the task. */
  const UserSource: string := "User"

  predicate IsTextOf(e: LogEntry, s: string) {
    e.Text? && e.source == s
  }

  /** The tool entries of a log, in log order: every entry that is not text. */
  function NonTextEntries(log: seq<LogEntry>): (r: seq<LogEntry>)
    ensures |r| <= |log|
    ensures forall k :: 0 <= k < |r| ==> !r[k].Text?
    decreases |log|
  {
    if |log| == 0 then []
    else
      var last := log[|log| - 1];
      NonTextEntries(log[..|log| - 1]) + (if last.Text? then [] else [last])
  }

  lemma {:induction false} NonTextEntriesAppend(a: seq<LogEntry>, b: seq<LogEntry>)
    ensures NonTextEntries(a + b) == NonTextEntries(a) + NonTextEntries(b)
    decreases |b|
  {
    if b == [] {
      assert a + b == a;
    } else {
      var b' := b[..|b| - 1];
      assert (a + b)[..|a + b| - 1] == a + b';
      NonTextEntriesAppend(a, b');
    }
  }

  /** Rewriting a text entry as another text entry leaves the tool entries alone. */
  lemma {:induction false} NonTextEntriesUpdateText(log: seq<LogEntry>, i: nat, e: LogEntry)
    requires i < |log| && log[i].Text? && e.Text?
    ensures NonTextEntries(log[i := e]) == NonTextEntries(log)
    decreases |log|
  {
    var log' := log[i := e];
    if i < |log| - 1 {
      assert log'[..|log'| - 1] == log[..|log| - 1][i := e];
      NonTextEntriesUpdateText(log[..|log| - 1], i, e);
    } else {
      assert log'[..|log'| - 1] == log[..|log| - 1];
    }
  }
}
