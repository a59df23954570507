/**
 * The agent of ai/app/modules/llm_engine.py: a bounded ReAct loop that asks the LLM for
 * a reply, runs every tool call of that reply through the MCP session and appends the
 * results, until a reply carries no tool call or ten replies have been asked for.
 *
 * The LLM (`llm_with_tools.ainvoke`) is an oracle from the bound tool definitions and
 * the conversation to a reply; `session.call_tool` is an oracle from the conversation so
 * far and the call to an outcome. Both may depend on everything said earlier in the same
 * request. `callTool` is one fixed function for the whole session, so two requests with
 * the same conversation get the same tool outcomes: device state that changes between
 * requests is not modelled. The LLM is a parameter of each request.
 */
module LlmEngine {

  const MaxIterations: nat := 10
  const NotConnectedAnswer: string := "시스템 오류: MCP 연결이 되어있지 않습니다."
  const FallbackAnswer: string := "완료했습니다."
  const ToolErrorPrefix: string := "Tool Error: "
  const McpServerScript: string := "mcp_server.py"

  /** The fixed operating-policy prompt; its wording is not part of the model. */
  const SystemPrompt: string

  datatype ArgValue = StringArg(text: string) | StringListArg(items: seq<string>)

  /** One entry of `response.tool_calls`. */
  datatype ToolCall = ToolCall(name: string, args: map<string, ArgValue>, id: string)

  datatype Message =
    | System(content: string)
    | Human(content: string)
    | Assistant(content: string, toolCalls: seq<ToolCall>)
    | ToolResult(content: string, toolCallId: string)

  /** `{"name", "description", "parameters"}`, built from one listed MCP tool. */
  datatype ToolDefinition = ToolDefinition(name: string, description: string, parameters: string)

  /** What the LLM answers: its text and the tool calls it asks for. */
  datatype Reply = Reply(content: string, toolCalls: seq<ToolCall>)

  /** One item of `result.content`: text content carries `.text`; any other kind (an image,
      an embedded resource) has no such attribute. */
  datatype Content = TextContent(text: string) | OtherContent(typeName: string)

  /** `call_tool` either returns (its content items and its printed form) or raises. */
  datatype ToolOutcome = Returned(content: seq<Content>, printed: string) | Raised(error: string)

  type Llm = (seq<ToolDefinition>, seq<Message>) -> Reply
  type ToolCaller = (seq<Message>, ToolCall) -> ToolOutcome

  /** The conversation, how many replies were asked for, and `final_answer`. */
  datatype Run = Run(messages: seq<Message>, rounds: nat, finalAnswer: string)

  /** An MCP client session; `callTool` is what `session.call_tool` answers. */
  class McpSession {
    const callTool: ToolCaller

    constructor (callTool: ToolCaller)
      ensures this.callTool == callTool
    {
      this.callTool := callTool;
    }
  }

  /** How `connect_mcp` ends: the subprocess or the session could not be created; the
      session was created but `initialize` or `list_tools` raised; or the tools were listed. */
  datatype Handshake =
    | SpawnFailed(error: string)
    | SessionFailed(session: McpSession, error: string)
    | Ready(session: McpSession, tools: seq<ToolDefinition>)

  // ------------------------------------------------------------------ specification

  function Seed(userText: string): seq<Message> {
    [System(SystemPrompt), Human(userText)]
  }

  /** The `try` block raises: inside `call_tool`, or when it reads `.text` of a first
      content item that has none. */
  predicate CallFailed(outcome: ToolOutcome) {
    outcome.Raised? || (outcome.content != [] && outcome.content[0].OtherContent?)
  }

  /** `str(e)` of what was raised; a missing attribute reads as Python's `AttributeError`. */
  function FailureMessage(outcome: ToolOutcome): string
    requires CallFailed(outcome)
  {
    if outcome.Raised? then outcome.error
    else "'" + outcome.content[0].typeName + "' object has no attribute 'text'"
  }

  /** The text folded into the conversation for one tool call: the first content item's
      text, the printed result when there is no content, or `Tool Error: ` and the message. */
  function ToolResultText(outcome: ToolOutcome): string {
    if CallFailed(outcome) then ToolErrorPrefix + FailureMessage(outcome)
    else if outcome.content != [] then outcome.content[0].text
    else outcome.printed
  }

  /** The conversation after the tool calls `calls` of one reply have been run in order. */
  function ResolveCalls(callTool: ToolCaller, messages: seq<Message>, calls: seq<ToolCall>): seq<Message>
    decreases |calls|
  {
    if calls == [] then messages
    else
      var before := ResolveCalls(callTool, messages, calls[..|calls| - 1]);
      var call := calls[|calls| - 1];
      before + [ToolResult(ToolResultText(callTool(before, call)), call.id)]
  }

  /** At most `budget` more rounds of the loop, starting from `messages`. */
  function Loop(defs: seq<ToolDefinition>, callTool: ToolCaller, llm: Llm, messages: seq<Message>, budget: nat): Run
    decreases budget
  {
    if budget == 0 then Run(messages, 0, "")
    else
      var reply := llm(defs, messages);
      var withReply := messages + [Assistant(reply.content, reply.toolCalls)];
      if reply.toolCalls == [] then Run(withReply, 1, reply.content)
      else
        var rest := Loop(defs, callTool, llm, ResolveCalls(callTool, withReply, reply.toolCalls), budget - 1);
        Run(rest.messages, rest.rounds + 1, rest.finalAnswer)
  }

  /** The run still to come after `round` rounds, counted from the start. */
  function Resume(defs: seq<ToolDefinition>, callTool: ToolCaller, llm: Llm, m: seq<Message>, budget: nat, round: nat): Run {
    var rest := Loop(defs, callTool, llm, m, budget);
    Run(rest.messages, round + rest.rounds, rest.finalAnswer)
  }

  /** A round whose reply asks for tool calls hands the rest of the budget to the
      conversation with that reply and its tool results appended. */
  lemma LoopRound(defs: seq<ToolDefinition>, callTool: ToolCaller, llm: Llm, m: seq<Message>, budget: nat,
                  round: nat, resolved: seq<Message>)
    requires budget > 0 && llm(defs, m).toolCalls != []
    requires resolved == ResolveCalls(callTool, m + [Assistant(llm(defs, m).content, llm(defs, m).toolCalls)],
                                      llm(defs, m).toolCalls)
    ensures Resume(defs, callTool, llm, m, budget, round) == Resume(defs, callTool, llm, resolved, budget - 1, round + 1)
  {
  }

  /** A round whose reply asks for no tool calls is the last one, and its text is the answer. */
  lemma LoopStops(defs: seq<ToolDefinition>, callTool: ToolCaller, llm: Llm, m: seq<Message>, budget: nat, round: nat)
    requires budget > 0 && llm(defs, m).toolCalls == []
    ensures Resume(defs, callTool, llm, m, budget, round)
      == Run(m + [Assistant(llm(defs, m).content, [])], round + 1, llm(defs, m).content)
  {
  }

  function React(defs: seq<ToolDefinition>, callTool: ToolCaller, llm: Llm, userText: string): Run {
    Loop(defs, callTool, llm, Seed(userText), MaxIterations)
  }

  /** `final_answer if final_answer else "완료했습니다."`. */
  function Answer(run: Run): string {
    if run.finalAnswer != "" then run.finalAnswer else FallbackAnswer
  }

  /** The messages after the seed split into rounds: each reply followed by one tool
      result per call, in call order and carrying the call's id; a reply without calls
      only as the very last message. `n` is the number of rounds. */
  ghost predicate WellFormedRounds(ms: seq<Message>, n: nat)
    decreases |ms|
  {
    if ms == [] then n == 0
    else
      ms[0].Assistant? && n > 0 &&
      1 + |ms[0].toolCalls| <= |ms| &&
      (ms[0].toolCalls == [] ==> |ms| == 1) &&
      AnswersCalls(ms[1..1 + |ms[0].toolCalls|], ms[0].toolCalls) &&
      WellFormedRounds(ms[1 + |ms[0].toolCalls|..], n - 1)
  }

  /** `results` are tool results answering `calls` one by one, in order. */
  ghost predicate AnswersCalls(results: seq<Message>, calls: seq<ToolCall>) {
    |results| == |calls| &&
    forall j :: 0 <= j < |calls| ==> results[j].ToolResult? && results[j].toolCallId == calls[j].id
  }

  /** The number of tool calls the replies in `ms` asked for. */
  function CallCount(ms: seq<Message>): nat
    decreases |ms|
  {
    if ms == [] then 0
    else (if ms[0].Assistant? then |ms[0].toolCalls| else 0) + CallCount(ms[1..])
  }

  /** The conversation grew past its first `from` messages and ends on a reply without
      tool calls. */
  predicate EndsWithAnswer(ms: seq<Message>, from: nat) {
    from < |ms| && ms[|ms| - 1].Assistant? && ms[|ms| - 1].toolCalls == []
  }

  // ------------------------------------------------------------------------ lemmas

  /** Running the calls of one reply appends exactly one tool result per call, in call
      order, each carrying its call's id and the text of that call's outcome. */
  lemma {:induction false} ResolveCallsShape(callTool: ToolCaller, messages: seq<Message>, calls: seq<ToolCall>)
    ensures var r := ResolveCalls(callTool, messages, calls);
      |r| == |messages| + |calls| && r[..|messages|] == messages &&
      forall j :: 0 <= j < |calls| ==>
        r[|messages| + j] == ToolResult(ToolResultText(callTool(r[..|messages| + j], calls[j])), calls[j].id)
    decreases |calls|
  {
    if calls != [] {
      var init := calls[..|calls| - 1];
      ResolveCallsShape(callTool, messages, init);
      var before := ResolveCalls(callTool, messages, init);
      var r := ResolveCalls(callTool, messages, calls);
      assert r[..|before|] == before;
      forall j | 0 <= j < |calls|
        ensures r[|messages| + j] == ToolResult(ToolResultText(callTool(r[..|messages| + j], calls[j])), calls[j].id)
      {
        if j < |init| {
          assert r[..|messages| + j] == before[..|messages| + j];
          assert calls[j] == init[j];
        }
      }
    }
  }

  /** A call that failed is folded in as `Tool Error: ` and its message, under the call's
      id, and the calls after it are still run. */
  lemma FailedCallRecorded(callTool: ToolCaller, messages: seq<Message>, calls: seq<ToolCall>, j: nat)
    requires j < |calls|
    requires var r := ResolveCalls(callTool, messages, calls);
      |messages| + j <= |r| && CallFailed(callTool(r[..|messages| + j], calls[j]))
    ensures var r := ResolveCalls(callTool, messages, calls);
      |r| == |messages| + |calls| &&
      r[|messages| + j] == ToolResult(ToolErrorPrefix + FailureMessage(callTool(r[..|messages| + j], calls[j])), calls[j].id)
  {
    ResolveCallsShape(callTool, messages, calls);
  }

  lemma WellFormedSingle(m: Message)
    requires m.Assistant? && m.toolCalls == []
    ensures WellFormedRounds([m], 1)
  {
    assert [m][1..] == [];
  }

  /** One round in front of well-formed rounds gives well-formed rounds. */
  lemma WellFormedCons(tail: seq<Message>, reply: Message, results: seq<Message>, rest: seq<Message>, n: nat)
    requires reply.Assistant? && reply.toolCalls != [] && |results| == |reply.toolCalls|
    requires AnswersCalls(results, reply.toolCalls)
    requires WellFormedRounds(rest, n)
    requires tail == [reply] + results + rest
    ensures WellFormedRounds(tail, n + 1)
  {
    assert tail[1 + |results|..] == rest;
    assert tail[1..1 + |results|] == results;
  }

  /** The loop only appends; it asks for at most `budget` replies; what it appends are
      well-formed rounds; it stops early only on a reply without tool calls, whose
      text is then `final_answer`; otherwise `final_answer` stays empty. */
  ghost predicate LoopFacts(m: seq<Message>, budget: nat, r: Run) {
    |m| <= |r.messages| && r.messages[..|m|] == m &&
    r.rounds <= budget &&
    WellFormedRounds(r.messages[|m|..], r.rounds) &&
    (EndsWithAnswer(r.messages, |m|) ==> r.finalAnswer == r.messages[|r.messages| - 1].content) &&
    (!EndsWithAnswer(r.messages, |m|) ==> r.finalAnswer == "" && r.rounds == budget)
  }

  lemma {:induction false} LoopShape(defs: seq<ToolDefinition>, callTool: ToolCaller, llm: Llm, m: seq<Message>, budget: nat)
    ensures LoopFacts(m, budget, Loop(defs, callTool, llm, m, budget))
    decreases budget
  {
    if budget == 0 {
      assert m[|m|..] == [];
    } else {
      var reply := llm(defs, m);
      var a := Assistant(reply.content, reply.toolCalls);
      var withReply := m + [a];
      if reply.toolCalls == [] {
        LastRound(m, a, budget);
      } else {
        var resolved := ResolveCalls(callTool, withReply, reply.toolCalls);
        LoopShape(defs, callTool, llm, resolved, budget - 1);
        ResolvedAnswersCalls(callTool, withReply, reply.toolCalls);
        LoopStep(m, a, resolved[|withReply|..], budget, Loop(defs, callTool, llm, resolved, budget - 1));
      }
    }
  }

  /** A round whose reply asks for no tools ends the loop with that reply's text. */
  lemma LastRound(m: seq<Message>, a: Message, budget: nat)
    requires a.Assistant? && a.toolCalls == [] && budget > 0
    ensures LoopFacts(m, budget, Run(m + [a], 1, a.content))
  {
    assert (m + [a])[|m|..] == [a];
    WellFormedSingle(a);
  }

  /** The messages a round's calls add are tool results answering those calls. */
  lemma ResolvedAnswersCalls(callTool: ToolCaller, withReply: seq<Message>, calls: seq<ToolCall>)
    ensures var resolved := ResolveCalls(callTool, withReply, calls);
      |withReply| <= |resolved| && resolved == withReply + resolved[|withReply|..] &&
      AnswersCalls(resolved[|withReply|..], calls)
  {
    ResolveCallsShape(callTool, withReply, calls);
    var resolved := ResolveCalls(callTool, withReply, calls);
    var results := resolved[|withReply|..];
    forall j | 0 <= j < |results| ensures results[j].ToolResult? && results[j].toolCallId == calls[j].id {
      assert results[j] == resolved[|withReply| + j];
      assert resolved[|withReply| + j]
        == ToolResult(ToolResultText(callTool(resolved[..|withReply| + j], calls[j])), calls[j].id);
    }
  }

  /** One round with tool calls in front of the rest of the loop. */
  lemma LoopStep(m: seq<Message>, a: Message, results: seq<Message>, budget: nat, next: Run)
    requires a.Assistant? && a.toolCalls != [] && budget > 0
    requires AnswersCalls(results, a.toolCalls)
    requires LoopFacts(m + [a] + results, budget - 1, next)
    ensures LoopFacts(m, budget, Run(next.messages, next.rounds + 1, next.finalAnswer))
  {
    var resolved := m + [a] + results;
    var ms := next.messages;
    assert |resolved| <= |ms| && ms[..|resolved|] == resolved;
    assert resolved[..|m|] == m;
    PrefixStep(m, resolved, ms);
    RoundsStep(m, a, results, ms, next.rounds);
    AnswerStep(m, a, results, ms);
    assert EndsWithAnswer(ms, |m|) ==> next.finalAnswer == ms[|ms| - 1].content;
    assert !EndsWithAnswer(ms, |m|) ==> next.finalAnswer == "" && next.rounds + 1 == budget;
  }

  lemma PrefixStep(m: seq<Message>, resolved: seq<Message>, ms: seq<Message>)
    requires |m| <= |resolved| <= |ms| && resolved[..|m|] == m && ms[..|resolved|] == resolved
    ensures ms[..|m|] == m
  {
    assert ms[..|m|] == ms[..|resolved|][..|m|];
  }

  /** A round with tool calls in front of well-formed rounds. */
  lemma RoundsStep(m: seq<Message>, a: Message, results: seq<Message>, ms: seq<Message>, n: nat)
    requires a.Assistant? && a.toolCalls != [] && AnswersCalls(results, a.toolCalls)
    requires |m + [a] + results| <= |ms| && ms[..|m + [a] + results|] == m + [a] + results
    requires WellFormedRounds(ms[|m + [a] + results|..], n)
    ensures WellFormedRounds(ms[|m|..], n + 1)
  {
    var resolved := m + [a] + results;
    var rest := ms[|resolved|..];
    assert ms == resolved + rest;
    assert ms[|m|..] == [a] + results + rest;
    WellFormedCons(ms[|m|..], a, results, rest, n);
  }

  /** The round's tool results are not a reply, so the conversation ends on a reply
      without calls past `m` exactly when it does past the round. */
  lemma AnswerStep(m: seq<Message>, a: Message, results: seq<Message>, ms: seq<Message>)
    requires a.Assistant? && a.toolCalls != [] && AnswersCalls(results, a.toolCalls)
    requires |m + [a] + results| <= |ms| && ms[..|m + [a] + results|] == m + [a] + results
    ensures EndsWithAnswer(ms, |m|) == EndsWithAnswer(ms, |m + [a] + results|)
  {
    var resolved := m + [a] + results;
    if |ms| == |resolved| {
      assert ms[|ms| - 1] == resolved[|resolved| - 1] == results[|results| - 1];
    }
  }

  /** Well-formed rounds hold one reply per round plus one tool result per call. */
  lemma {:induction false} WellFormedLength(ms: seq<Message>, n: nat)
    requires WellFormedRounds(ms, n)
    ensures |ms| == n + CallCount(ms)
    decreases |ms|
  {
    if ms != [] {
      var k := |ms[0].toolCalls|;
      WellFormedLength(ms[1 + k..], n - 1);
      ToolResultsCountNothing(ms[1..1 + k]);
      CallCountAppend(ms[1..1 + k], ms[1 + k..]);
      assert ms[1..] == ms[1..1 + k] + ms[1 + k..];
    }
  }

  lemma {:induction false} ToolResultsCountNothing(ms: seq<Message>)
    requires forall j :: 0 <= j < |ms| ==> ms[j].ToolResult?
    ensures CallCount(ms) == 0
    decreases |ms|
  {
    if ms != [] {
      ToolResultsCountNothing(ms[1..]);
    }
  }

  lemma {:induction false} CallCountAppend(a: seq<Message>, b: seq<Message>)
    ensures CallCount(a + b) == CallCount(a) + CallCount(b)
    decreases |a|
  {
    if a == [] {
      assert a + b == b;
    } else {
      assert (a + b)[1..] == a[1..] + b;
      CallCountAppend(a[1..], b);
    }
  }

  /** In well-formed rounds a reply without tool calls is the last message. */
  lemma {:induction false} NoCallReplyIsLast(ms: seq<Message>, n: nat, i: nat)
    requires WellFormedRounds(ms, n)
    requires i < |ms| && ms[i].Assistant? && ms[i].toolCalls == []
    ensures i == |ms| - 1
    decreases |ms|
  {
    var k := |ms[0].toolCalls|;
    if i > 0 {
      assert i > k;
      NoCallReplyIsLast(ms[1 + k..], n - 1, i - 1 - k);
    }
  }

  /** The conversation of one request: it starts with the system prompt and the user
      text; the LLM is asked at most ten times; after r replies carrying T tool calls
      in all it holds 2 + r + T messages; the first reply without tool calls is the
      last message and ends the loop. */
  lemma ReactConversation(defs: seq<ToolDefinition>, callTool: ToolCaller, llm: Llm, userText: string)
    ensures var run := React(defs, callTool, llm, userText);
      |run.messages| >= 2 &&
      run.messages[..2] == [System(SystemPrompt), Human(userText)] &&
      run.rounds <= MaxIterations &&
      WellFormedRounds(run.messages[2..], run.rounds) &&
      |run.messages| == 2 + run.rounds + CallCount(run.messages[2..]) &&
      forall i :: 2 <= i < |run.messages| && run.messages[i].Assistant? && run.messages[i].toolCalls == [] ==>
        i == |run.messages| - 1 && run.finalAnswer == run.messages[i].content
  {
    var run := React(defs, callTool, llm, userText);
    var seed := Seed(userText);
    LoopShape(defs, callTool, llm, seed, MaxIterations);
    assert |seed| == 2;
    WellFormedLength(run.messages[2..], run.rounds);
    forall i | 2 <= i < |run.messages| && run.messages[i].Assistant? && run.messages[i].toolCalls == []
      ensures i == |run.messages| - 1 && run.finalAnswer == run.messages[i].content
    {
      NoCallReplyEnds(seed, MaxIterations, run, i);
    }
  }

  /** Past the start of the loop, a reply without tool calls is the last message and its
      text is the final answer. */
  lemma NoCallReplyEnds(m: seq<Message>, budget: nat, r: Run, i: nat)
    requires LoopFacts(m, budget, r)
    requires |m| <= i < |r.messages| && r.messages[i].Assistant? && r.messages[i].toolCalls == []
    ensures i == |r.messages| - 1 && r.finalAnswer == r.messages[i].content
  {
    var tail := r.messages[|m|..];
    assert tail[i - |m|] == r.messages[i];
    NoCallReplyIsLast(tail, r.rounds, i - |m|);
    assert EndsWithAnswer(r.messages, |m|);
  }

  /** The answer: the text of the reply that ended the loop when there is one and it is
      not empty, and the fallback otherwise — in particular when all ten replies asked
      for tools. */
  lemma ReactAnswer(defs: seq<ToolDefinition>, callTool: ToolCaller, llm: Llm, userText: string)
    ensures |React(defs, callTool, llm, userText).messages| > 2
    ensures var run := React(defs, callTool, llm, userText);
      var last := run.messages[|run.messages| - 1];
      (last.Assistant? && last.toolCalls == [] && last.content != "" ==> Answer(run) == last.content) &&
      (last.Assistant? && last.toolCalls == [] && last.content == "" ==> Answer(run) == FallbackAnswer) &&
      (!(last.Assistant? && last.toolCalls == []) ==> Answer(run) == FallbackAnswer && run.rounds == MaxIterations) &&
      (Answer(run) != FallbackAnswer ==> last == Assistant(Answer(run), [])) &&
      (run.rounds < MaxIterations ==> last.Assistant? && last.toolCalls == [])
  {
    var run := React(defs, callTool, llm, userText);
    LoopShape(defs, callTool, llm, Seed(userText), MaxIterations);
  }

  /** A first reply without tool calls ends the loop in that round with its text. */
  lemma FirstReplyAnswers(defs: seq<ToolDefinition>, callTool: ToolCaller, llm: Llm, userText: string)
    requires llm(defs, Seed(userText)).toolCalls == []
    ensures var reply := llm(defs, Seed(userText));
      var run := React(defs, callTool, llm, userText);
      run.rounds == 1 &&
      run.messages == Seed(userText) + [Assistant(reply.content, [])] &&
      Answer(run) == (if reply.content != "" then reply.content else FallbackAnswer)
  {
  }

  // ------------------------------------------------------------------------ engine

  /** The inner loop of `process_text`: each call of one reply is run in order and its
      result, or `Tool Error: …` when it failed (`CallFailed`), is appended under the call's id. */
  method RunToolCalls(callTool: ToolCaller, withReply: seq<Message>, calls: seq<ToolCall>)
    returns (messages: seq<Message>)
    ensures messages == ResolveCalls(callTool, withReply, calls)
  {
    messages := withReply;
    for j := 0 to |calls|
      invariant messages == ResolveCalls(callTool, withReply, calls[..j])
    {
      assert calls[..j + 1][..j] == calls[..j];
      var toolCall := calls[j];
      var outcome := callTool(messages, toolCall);
      var resultText := ToolResultText(outcome);
      messages := messages + [ToolResult(resultText, toolCall.id)];
    }
    assert calls[..|calls|] == calls;
  }

  /** `LLMEngine`: the MCP session (null until connected) and the tool definitions
      listed through it. */
  class Engine {
    var session: McpSession?
    var toolDefinitions: seq<ToolDefinition>
    const mcpServerScript: string

    constructor ()
      ensures session == null && toolDefinitions == [] && mcpServerScript == McpServerScript
    {
      session := null;
      toolDefinitions := [];
      mcpServerScript := McpServerScript;
    }

    /** `connect_mcp`. The session is stored before the handshake, so a handshake that
        fails after the session was created leaves it in place. */
    method ConnectMcp(handshake: Handshake) returns (ok: bool)
      modifies this
      ensures ok <==> handshake.Ready?
      ensures handshake.SpawnFailed? ==> session == old(session) && toolDefinitions == old(toolDefinitions)
      ensures handshake.SessionFailed? ==> session == handshake.session && toolDefinitions == old(toolDefinitions)
      ensures handshake.Ready? ==> session == handshake.session && toolDefinitions == handshake.tools
    {
      match handshake
      case SpawnFailed(_) =>
        ok := false;
      case SessionFailed(s, _) =>
        session := s;
        ok := false;
      case Ready(s, tools) =>
        session := s;
        toolDefinitions := tools;
        ok := true;
    }

    /** `process_text`. With no session it answers the fixed error and asks nothing of the
        LLM or the tools; otherwise it runs the ReAct loop. `messages` is the conversation
        it built and `llmCalls` the number of replies it asked for. */
    method ProcessText(userText: string, llm: Llm) returns (answer: string, messages: seq<Message>, llmCalls: nat)
      ensures session == null ==> answer == NotConnectedAnswer && messages == [] && llmCalls == 0
      ensures session != null ==>
        var run := React(toolDefinitions, session.callTool, llm, userText);
        answer == Answer(run) && messages == run.messages && llmCalls == run.rounds
    {
      if session == null {
        return NotConnectedAnswer, [], 0;
      }
      var callTool := session.callTool;
      var defs := toolDefinitions;
      messages := Seed(userText);
      var finalAnswer := "";
      llmCalls := 0;
      ghost var run := Resume(defs, callTool, llm, messages, MaxIterations, 0);
      for round := 0 to MaxIterations
        invariant llmCalls == round && finalAnswer == ""
        invariant run == Resume(defs, callTool, llm, messages, MaxIterations - round, round)
      {
        ghost var before := messages;
        var response := llm(defs, messages);
        llmCalls := llmCalls + 1;
        var withReply := messages + [Assistant(response.content, response.toolCalls)];
        messages := withReply;
        if response.toolCalls == [] {
          LoopStops(defs, callTool, llm, before, MaxIterations - round, round);
          finalAnswer := response.content;
          break;
        }
        messages := RunToolCalls(callTool, withReply, response.toolCalls);
        LoopRound(defs, callTool, llm, before, MaxIterations - round, round, messages);
      }
      answer := if finalAnswer != "" then finalAnswer else FallbackAnswer;
    }
  }
}
