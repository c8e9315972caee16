# The run_chat transcript builder, modelled in Dafny

`AgentTeam.run_chat` (Agent.py:132-197) drives a team of three agents: a
Researcher that may call an arXiv search tool, a Reviewer and a Writer. It does
two things with the events the team's stream yields:

1. **Aggregation** (Agent.py:139-174). The conversation log starts with a text
   entry holding the task from "User". Each event is handled in arrival order:
   - A tool-call request appends one tool-request entry per requested call, in
     call order.
   - A tool-call execution appends one tool-execution entry.
   - A streaming chunk is appended to the most recent text entry from the same
     source, found by a scan from the tail of the log back to its head. If
     there is no such entry, the chunk becomes a new text entry.
   - Every other event is ignored.
2. **Formatting** (Agent.py:176-197). Each log entry becomes at most one
   Markdown block, and the blocks are joined with a blank line.
   - A text entry becomes its title-cased source in bold followed by a colon,
     then a blank line, then its stripped content. It becomes no block when the stripped content
     is empty.
   - A tool request becomes the "Tool Call" block naming the source, the tool
     and the JSON arguments.
   - A tool execution becomes the fixed "Tool Result" line.

The project has five modules:

- `Conversation` (conversation.dfy): the event and log-entry datatypes.
- `PyText` (pytext.dfy): the three Python string operations the formatter
  uses (`str.strip()`, `str.title()` and `str.join`).
- `Aggregator` (aggregator.dfy): the aggregation loop.
- `Formatter` (formatter.dfy): the formatting loop.
- `AgentTeam` (run_chat.dfy): `run_chat` itself, plus worked runs.

Both loops are imperative, so each is a Dafny method with loops:

- `Aggregator.AggregateEvents` is the outer loop.
- `Aggregator.AppendToolCalls` is the loop over the requested calls.
- `Aggregator.MergeChunk` is the backward merge scan, with its `found` flag
  and its `break`.
- `Formatter.FormatLog` is the formatting loop.

Each method is proved equal to a specification function: `Aggregate`, `Step`
or `Blocks`. The properties are then proved as lemmas about those functions.
The log is a local list of `run_chat`, not a field of any object. The model
therefore keeps it in local `seq` variables, and the in-place `+=` on an entry
becomes a sequence update at the same index.

**The merge scan crosses other entries.** The loop at Agent.py:164-168 does
not stop at a tool entry or at another source's text entry. A chunk is
merged into the most recent text entry from its source anywhere in the log.
Two lemmas show what this means:

- `AgentTeam.MergeAcrossToolEntry`: chunks before and after a tool execution
  of the same agent end up in one entry, placed before the tool entry.
- `AgentTeam.MergeAcrossOtherSource`: an agent that speaks again after another
  agent keeps a single entry.

`Aggregator.AggregateText` states the general rule: each source's single text
entry holds all of its chunks, whatever came between them.

Formatting is a pure function of the log, so rendering the same log twice
gives the same transcript by construction.

## Model

| member | source | states |
|---|---|---|
| Aggregator.Seed | Agent.py:139 | No contract: the log before any event, one text entry from "User" holding the task. StepKeepsSeed and AggregateEntries state what becomes of it. |
| Aggregator.LastText | Agent.py:163-169 | No contract of its own: the backward scan's result over the whole log. LastTextBefore's contract and LastTextIsLast state it. |
| Aggregator.Step | Agent.py:142-174 | No contract: one event's effect. StepOnToolEvent and StepOnChunk state it per event type; StepGrows, StepPreservesOneText and StepText state what it keeps. |
| Aggregator.Run | Agent.py:141-174 | No contract: the steps in arrival order. RunGrows and RunConcat state its behaviour. |
| Aggregator.Aggregate | Agent.py:139-174 | No contract: Run from the seeded log. AggregateText, AggregateEntries, AggregateOneText, AggregateToolEntries and AggregateGrows state its behaviour. |
| Aggregator.LastTextBefore | Agent.py:164-168 | The merge target among the first n entries is a text entry from the source, and no later one among them is; with no target, none of them is. |
| Aggregator.LastTextIsLast | Agent.py:164-168 | Whatever entries follow, the last text entry from a source is its merge target. |
| Aggregator.RequestEntries | Agent.py:146-153 | A request with k calls yields k tool-request entries; entry k carries call k's name and arguments and the event's source. |
| Aggregator.StepOnToolEvent | Agent.py:145-159 | A tool-call request appends exactly one entry per call, in call order, and keeps every earlier entry. A tool-call execution appends one execution entry from its source. A non-chunk event of any other type leaves the log unchanged. |
| Aggregator.StepOnChunk | Agent.py:161-174 | A chunk extends the most recent text entry from its source, even with tool entries or other sources' entries after it. With no text entry from that source, it appends a new one. The log grows by at most one entry. |
| Aggregator.StepKeepsSeed | Agent.py:139-174 | The first entry stays the user's text entry. An event changes it only when it is a chunk from "User", and then only by appending that chunk's text. |
| Aggregator.StepGrows | Agent.py:141-174 | No event removes, reorders or replaces an entry. Every old entry stays at its index, either unchanged or as a text entry with more text at its end. |
| Aggregator.StepPreservesOneText | Agent.py:141-174 | If the log has at most one text entry per source, it still has after any event. |
| Aggregator.StepText | Agent.py:161-174 | A source's accumulated text changes only on a chunk from that source: the chunk's text is appended, or starts the text when there was none. |
| Aggregator.RunGrows | Agent.py:141-174 | Over any number of events the log never shrinks, and every entry only grows in place. |
| Aggregator.AggregateGrows | Agent.py:139-174 | Every log built from a prefix of the stream is kept, entry by entry, in the log built from the whole stream. |
| Aggregator.RunConcat | Agent.py:141 | Processing two streams one after the other is processing their concatenation. |
| Aggregator.AggregateOneText | Agent.py:139-174 | The final log holds at most one text entry per source. |
| Aggregator.AggregateText | Agent.py:139-174 | A source's text is all its chunks concatenated in arrival order, preceded by the task for "User", whatever came between the chunks. A source other than the user has text exactly when at least one chunk came from it. |
| Aggregator.AggregateEntries | Agent.py:139-174 | Every text entry holds its source's accumulated text. Entry 0 is the user's, holding the task followed by all of the user's chunks. |
| Aggregator.AggregateToolEntries | Agent.py:145-159 | The log's non-text entries are exactly the entries the tool events call for, each once, in arrival order. |
| Aggregator.MergeChunk | Agent.py:162-174 | The backward scan with its flag and break computes exactly one chunk step. |
| Aggregator.AppendToolCalls | Agent.py:146-153 | The loop over the calls computes exactly one tool-request step. |
| Aggregator.AggregateEvents | Agent.py:139-174 | The aggregation loop computes exactly the log the specification function gives for the task and the stream. |
| PyText.Strip | Agent.py:182 | The stripped text is empty exactly when the input is all whitespace; otherwise it neither starts nor ends with whitespace. |
| PyText.StripDecomposes | Agent.py:182 | Every string is a whitespace run, then its stripped text, then a whitespace run. |
| PyText.StripIsUniqueTrim | Agent.py:182 | A whitespace run, then a text with non-space ends, then a whitespace run strips to that text. |
| PyText.StripIgnoresPadding | Agent.py:182 | Adding whitespace on either side does not change the stripped text. |
| PyText.StripIdempotent | Agent.py:182 | Stripping twice is stripping once. |
| PyText.Title | Agent.py:184 | Each letter after a letter is lower-cased; every other letter is upper-cased; non-letters are kept. The length is unchanged. |
| PyText.TitleIdempotent | Agent.py:184 | Title-casing a title-cased name changes nothing. |
| PyText.Join | Agent.py:197 | No contract: `sep.join(parts)`. JoinConcat and JoinLength state its behaviour. |
| PyText.JoinConcat | Agent.py:197 | Joining two non-empty lists is joining each, with one separator between the results. |
| PyText.JoinLength | Agent.py:197 | A join is as long as all the parts plus one separator fewer than there are parts. |
| Formatter.ToolCallBlock | Agent.py:189-192 | No contract: the tool-call block. ToolCallBlockNamesCall states that it determines source, tool name and arguments. |
| Formatter.TextBlock | Agent.py:184 | No contract: the bold title-cased source with a colon, a blank line and the body. BlockOfText states when it is used. |
| Formatter.Block | Agent.py:177-195 | No contract: the block of one entry. BlockOfText and BlockIgnoresPadding state it for text entries. |
| Formatter.Blocks | Agent.py:176-195 | No contract: the blocks of the entries in log order. BlocksAppend, BlocksInOrder, BlockCount and EveryEntryRendered state its behaviour. |
| Formatter.Render | Agent.py:197 | No contract: the blocks joined by a blank line. RenderAppend and DroppedTextEntry state its behaviour. |
| Formatter.ToolCallBlockNamesCall | Agent.py:186-192 | If source and tool name hold no backtick, the tool-call block determines source, tool name and arguments. |
| Formatter.BlockOfText | Agent.py:181-184 | A text entry gives no block exactly when its content is empty or all whitespace. Otherwise the block is the title-cased source in bold followed by a colon, a blank line and the stripped content, which is non-empty and has non-space ends. |
| Formatter.BlockIgnoresPadding | Agent.py:181-184 | Whitespace around a text entry's content does not change its block. |
| Formatter.BlocksAppend | Agent.py:176-195 | The blocks of two logs one after the other are the blocks of each, in order. |
| Formatter.BlocksInOrder | Agent.py:177-195 | Blocks follow log order: those of the earlier entries come first, then entry i's block if it has one, at the position right after them. |
| Formatter.BlockCount | Agent.py:176-195 | The number of blocks is the number of tool entries plus the number of text entries that are not all whitespace. |
| Formatter.EveryEntryRendered | Agent.py:176-195 | When every entry has a block, there are exactly as many blocks as entries. |
| Formatter.DroppedTextEntry | Agent.py:181-197 | An empty or all-whitespace text entry leaves the transcript as it would be without that entry. |
| Formatter.RenderAppend | Agent.py:176-197 | One more entry adds its block to the transcript, after a blank line unless it is the first block; an entry without a block changes nothing. |
| Formatter.FormatLog | Agent.py:176-195 | The formatting loop computes exactly the blocks of the log, in log order. |
| AgentTeam.RunChat | Agent.py:132-197 | The returned transcript is the aggregated log's blocks joined by a blank line. |
| AgentTeam.MergeAcrossToolEntry | Agent.py:161-174 | Chunks from one agent before and after its tool execution merge into one text entry, placed before the tool entry. |
| AgentTeam.MergeAcrossOtherSource | Agent.py:161-174 | An agent that speaks, is followed by another agent, then speaks again, keeps one text entry with both contributions. |
| AgentTeam.DeployedAggregate | Agent.py:139-174 | An example stream shaped like the deployed three-agent team's gives six log entries in order. The stream is: a message of another type from the user; the Researcher's request for one search; its execution; two chunks from the Researcher; a message of another type from the Researcher; one chunk from the Reviewer; one chunk from the Writer. The entries are the user's, the tool request, the tool result, then one text entry each for the Researcher, the Reviewer and the Writer. |
| AgentTeam.DeployedBlockCount | Agent.py:176-195 | That log renders to six blocks when the task is not all whitespace. |
| AgentTeam.ThreeAgentRun | Agent.py:132-197 | For a task that is not all whitespace, that example stream gives the six-entry log and six blocks. |

## Left out

- `AgentTeam.__init__` (Agent.py:8-127) builds the model client, the three
  agents, the round-robin group chat and its turn limit. Agent scheduling,
  prompts and the model backend are external to the transcript builder.
- The asynchronous stream (Agent.py:137, 141) is left out. `run_stream` is
  modelled by its drained result, a finite sequence of events in arrival
  order. Cancellation and errors raised by the stream are not modelled, and
  nor are partial logs.
- `getattr` defaults (Agent.py:142-143, 146, 162) are folded into how events
  are built:
  - a missing type is an `Other` event;
  - a missing source is "system";
  - a missing request content is no calls;
  - a missing chunk content is the empty text.
- Call fields of non-string types are not modelled. The arguments are taken
  to be the JSON string the model produced.
- `PyText.Strip`: `str.strip()` is modelled on the ASCII range only. The
  characters are tab, line feed, vertical tab, form feed, carriage return,
  0x1C-0x1F and space. Unicode whitespace beyond ASCII is not stripped.
- `PyText.Title`: `str.title()` is modelled with ASCII letters as the only
  cased characters. Other Unicode letters, digraphs and titlecase mappings
  are not modelled.
- The arXiv tool (Tools.py) and the web front end (main.py) are not part of
  this model.
