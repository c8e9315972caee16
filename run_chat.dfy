/** `AgentTeam.run_chat` (Agent.py:132-197): the team's drained event stream
    folded into the conversation log, and the log rendered as the transcript. */
module AgentTeam {
  import opened Conversation
  import opened PyText
  import opened Aggregator
  import opened Formatter

  /** The transcript for a task, given the events the team's stream yields
      for it. */
  method RunChat(task: string, events: seq<Event>) returns (transcript: string)
    ensures transcript == Render(Aggregate(task, events))
  {
    var conversationFlow := AggregateEvents(task, events);
    var formattedLog := FormatLog(conversationFlow);
    transcript := Join(formattedLog, Separator);
  }

  /** A chunk is merged into its source's text entry even across a tool entry
      of that source: the chunks before and after a tool execution end up in
      one entry placed before the tool entry. */
  lemma MergeAcrossToolEntry(task: string, a: string, x: string, y: string)
    requires a != UserSource
    ensures Aggregate(task, [StreamingChunk(a, x), ToolCallExecution(a), StreamingChunk(a, y)])
      == [Text(UserSource, task), Text(a, x + y), ToolExecution(a)]
  {
    var events := [StreamingChunk(a, x), ToolCallExecution(a), StreamingChunk(a, y)];
    var log1 := [Text(UserSource, task), Text(a, x)];
    var log2 := log1 + [ToolExecution(a)];
    assert Aggregate(task, events[..1]) == log1 by {
      assert events[..1][..0] == [] && events[..1][0] == StreamingChunk(a, x);
      assert Run(Seed(task), []) == Seed(task);
      StepOnChunk(Seed(task), a, x);
    }
    assert events[..2] == events[..1] + [ToolCallExecution(a)];
    assert Aggregate(task, events[..2]) == log2;
    LastTextIsLast(log2, a, 1);
  }

  /** A chunk is merged into its source's text entry even across another
      source's text: when one agent speaks, then another, then the first
      again, the first agent's two contributions form one entry. */
  lemma MergeAcrossOtherSource(task: string, a: string, b: string, x: string, y: string, z: string)
    requires a != UserSource && b != UserSource && a != b
    ensures Aggregate(task, [StreamingChunk(a, x), StreamingChunk(b, y), StreamingChunk(a, z)])
      == [Text(UserSource, task), Text(a, x + z), Text(b, y)]
  {
    var events := [StreamingChunk(a, x), StreamingChunk(b, y), StreamingChunk(a, z)];
    var log1 := [Text(UserSource, task), Text(a, x)];
    var log2 := log1 + [Text(b, y)];
    assert Aggregate(task, events[..1]) == log1 by {
      assert events[..1][..0] == [] && events[..1][0] == StreamingChunk(a, x);
      assert Run(Seed(task), []) == Seed(task);
      StepOnChunk(Seed(task), a, x);
    }
    assert events[..2] == events[..1] + [StreamingChunk(b, y)];
    assert Aggregate(task, events[..2]) == log2 by {
      StepOnChunk(log1, b, y);
    }
    LastTextIsLast(log2, a, 1);
  }

  const SearchCall: Call :=
    Call("arxiv_search", "{\"query\": \"multi-agent customer service\", \"max_results\": 2}")

  /** An example stream shaped like the deployed three-agent team's: a
      message of another type from the user; the Researcher requests one
      search, has it executed, reports in two chunks and sends a message of
      another type; then the Reviewer and the Writer each speak once. */
  function DeployedEvents(): seq<Event> {
    ResearcherToolTurn() + ResearcherReport() + ReviewerAndWriter()
  }

  function ResearcherToolTurn(): seq<Event> {
    [Other("TextMessage", "user"), ToolCallRequest("Researcher", [SearchCall]), ToolCallExecution("Researcher")]
  }

  function ResearcherReport(): seq<Event> {
    [ StreamingChunk("Researcher", "Found 2 "),
      StreamingChunk("Researcher", "relevant papers."),
      Other("ToolCallSummaryMessage", "Researcher") ]
  }

  function ReviewerAndWriter(): seq<Event> {
    [StreamingChunk("Reviewer", "Both papers match."), StreamingChunk("Writer", "Review.")]
  }

  /** The log of that run: the user's entry, the two tool entries, then one
      text entry per agent in speaking order. */
  function DeployedLog(task: string): seq<LogEntry> {
    [ Text(UserSource, task),
      ToolRequest("Researcher", SearchCall.name, SearchCall.arguments),
      ToolExecution("Researcher"),
      Text("Researcher", "Found 2 relevant papers."),
      Text("Reviewer", "Both papers match."),
      Text("Writer", "Review.") ]
  }

  lemma DeployedAggregate(task: string)
    ensures Aggregate(task, DeployedEvents()) == DeployedLog(task)
  {
    var l2 := ResearcherToolEntries(task);
    var l4 := l2 + [Text("Researcher", "Found 2 relevant papers.")];
    RunConcat(Seed(task), ResearcherToolTurn() + ResearcherReport(), ReviewerAndWriter());
    RunConcat(Seed(task), ResearcherToolTurn(), ResearcherReport());
    ResearcherToolSteps(task);
    ResearcherTextSteps(task);
    FinalSteps(task);
  }

  function ResearcherToolEntries(task: string): seq<LogEntry> {
    Seed(task) + [ToolRequest("Researcher", SearchCall.name, SearchCall.arguments), ToolExecution("Researcher")]
  }

  lemma ResearcherToolSteps(task: string)
    ensures Run(Seed(task), ResearcherToolTurn()) == ResearcherToolEntries(task)
  {
    var e := ResearcherToolTurn();
    RunThree(Seed(task), e[0], e[1], e[2]);
    assert RequestEntries("Researcher", [SearchCall]) == [ToolRequest("Researcher", SearchCall.name, SearchCall.arguments)];
  }

  lemma ResearcherTextSteps(task: string)
    ensures Run(ResearcherToolEntries(task), ResearcherReport())
      == ResearcherToolEntries(task) + [Text("Researcher", "Found 2 relevant papers.")]
  {
    var e := ResearcherReport();
    var l2 := ResearcherToolEntries(task);
    RunThree(l2, e[0], e[1], e[2]);
    FirstChunk(task);
    SecondChunk(task);
  }

  lemma FirstChunk(task: string)
    ensures Step(ResearcherToolEntries(task), StreamingChunk("Researcher", "Found 2 "))
      == ResearcherToolEntries(task) + [Text("Researcher", "Found 2 ")]
  {
    StepOnChunk(ResearcherToolEntries(task), "Researcher", "Found 2 ");
  }

  lemma SecondChunk(task: string)
    ensures var l3 := ResearcherToolEntries(task) + [Text("Researcher", "Found 2 ")];
      Step(l3, StreamingChunk("Researcher", "relevant papers."))
        == ResearcherToolEntries(task) + [Text("Researcher", "Found 2 relevant papers.")]
  {
    var l2 := ResearcherToolEntries(task);
    var l3 := l2 + [Text("Researcher", "Found 2 ")];
    LastTextIsLast(l3, "Researcher", 3);
    assert "Found 2 " + "relevant papers." == "Found 2 relevant papers.";
    assert l3[3 := Text("Researcher", "Found 2 relevant papers.")] == l2 + [Text("Researcher", "Found 2 relevant papers.")];
  }

  lemma FinalSteps(task: string)
    ensures var l4 := ResearcherToolEntries(task) + [Text("Researcher", "Found 2 relevant papers.")];
      Run(l4, ReviewerAndWriter()) == l4 + [Text("Reviewer", "Both papers match."), Text("Writer", "Review.")]
  {
    var l4 := ResearcherToolEntries(task) + [Text("Researcher", "Found 2 relevant papers.")];
    var l5 := l4 + [Text("Reviewer", "Both papers match.")];
    assert forall k :: 0 <= k < |l4| ==> l4[k].source != "Reviewer" && l4[k].source != "Writer";
    StepOnChunk(l4, "Reviewer", "Both papers match.");
    StepOnChunk(l5, "Writer", "Review.");
    RunTwo(l4, StreamingChunk("Reviewer", "Both papers match."), StreamingChunk("Writer", "Review."));
  }

  lemma DeployedBlockCount(task: string)
    requires !AllSpace(task)
    ensures |Blocks(DeployedLog(task))| == 6
  {
    var log := DeployedLog(task);
    forall k | 0 <= k < |log| ensures Block(log[k]).Some? {
      if log[k].Text? {
        if k > 0 {
          assert !IsSpace(log[k].content[0]);
        }
        BlockOfText(log[k].source, log[k].content);
      }
    }
    EveryEntryRendered(log);
  }

  /** That example stream renders to six blocks: the task, the tool call, the
      tool result and one paragraph per agent. */
  lemma ThreeAgentRun(task: string)
    requires !AllSpace(task)
    ensures Aggregate(task, DeployedEvents()) == DeployedLog(task)
    ensures |Blocks(Aggregate(task, DeployedEvents()))| == 6
  {
    DeployedAggregate(task);
    DeployedBlockCount(task);
  }
}
