# iot-chat-bot core, modelled in Dafny

iot-chat-bot answers smart-home requests with a language model. The model can call tools
that look up Home Assistant entities and switch them on or off. This project models three
parts of the Python code and proves properties of them:

- **The agent loop** (`LLMEngine` in ai/app/modules/llm_engine.py), in `llm_engine.dfy`.
  `Engine` is a class holding the MCP session and the listed tool definitions.
  `ProcessText` is the bounded ReAct loop, written as Dafny `for` loops. It is proved equal
  to the specification function `React`, and the lemmas about `React` state the loop's
  promises:
  - the conversation starts with the system prompt and the user text, and is only ever
    appended to;
  - there are at most ten model calls;
  - each reply is followed by one tool result per call, in call order, carrying the call's id;
  - a failing tool call is folded in as `Tool Error: …` and does not stop the loop;
  - the message count is 2 + rounds + total calls;
  - the answer is the text of the first reply with no tool calls, or `완료했습니다.`.
- **The Home Assistant tools** (ai/app/mcp_server.py), in `mcp_server.dfy`.
  - `FindEntityByName` is the filtering loop of `find_entity_by_name`. It is proved equal to
    `FindResult`, which is built from the selection predicate `Selected` and the order-keeping
    filter `Matching`.
  - `TurnOnMultiple` and `TurnOffMultiple` share the loop `CallForEach`. Each produces one
    line per id and also returns the requests it made.
- **Emoji removal** (`remove_emojis` in ai/app/utils.py), in `emoji.dfy`. It is a recursive
  character filter, with lemmas for idempotence and "only those characters removed".

`text.dfy` gives Python's string operations the tools use:
- `"\n".join`;
- `str.split("\n")`, which the tools do not call; it is used only to read the joined answers
  back line by line, with the lemma that splitting undoes joining;
- the `in` substring test, with a lemma that characterises it by positions;
- `str.lower()`;
- `str.replace(" ", "")`.

`wrappers.dfy` holds `Option`.

Everything outside the program's own logic is an oracle passed in as a function:
- The language model (ChatOllama with the tools bound) is
  `(tool definitions, conversation) -> Reply`.
- `session.call_tool` is `(conversation so far, call) -> Returned | Raised`. It lives in a
  `McpSession` object, and a null session plays the part of `None`.
- `hass_api.make_request` is split in three:
  - `connected` says whether the client exists;
  - a `StatesReply` (the state list, or the failure's message) answers `GET states`;
  - a `PostOracle` answers the k-th `POST` of one tool call with `Done` or
    `ServiceFailed(message)`.
- How `connect_mcp` ends comes in as a `Handshake` value.

Three details of the code that the model keeps as written:
- Entity lines read `- ID: <id> (이름: <name>, 상태: <state>)`, with Korean labels and a leading
  `- `. A missing name or state prints as `None`.
- Spaces are removed from the friendly name and from the search term only. The entity id is
  lower-cased but keeps its spaces.
- `connect_mcp` stores the session before `initialize()` runs. A handshake that fails after
  the session was created therefore leaves the session set, and the tool list unchanged.

## Model

| member | source | states |
|---|---|---|
| Utils.RemoveEmojis | ai/app/utils.py:3-15 | empty input gives ""; the result is never longer than the input and holds no code point of the four ranges |
| Utils.RemoveEmojisIdentity | ai/app/utils.py:8-15 | the text comes back unchanged exactly when it holds no code point of the four ranges |
| Utils.RemoveEmojisIdempotent | ai/app/utils.py:15 | removing twice is removing once |
| Utils.RemoveEmojisMultiset | ai/app/utils.py:8-15 | every character outside the ranges keeps its number of occurrences; characters inside occur zero times |
| Utils.RemoveEmojisAppend | ai/app/utils.py:15 | the filter works character by character: it distributes over concatenation, so the kept characters stay in their order |
| Text.JoinLines | ai/app/mcp_server.py:32 | definition: `"\n".join`: "" for no lines, the lines separated by single line breaks otherwise |
| Text.IsSubstring | ai/app/mcp_server.py:27 | definition: `a in b`: `a` starts at position 0 of `b`, or it is in `b` without its first character |
| Text.IsSubstringIff | ai/app/mcp_server.py:27 | Python's `a in b` holds exactly when some position of `b` starts a copy of `a` |
| Text.SplitJoin | ai/app/mcp_server.py:32 | splitting a `"\n".join` of lines without line breaks gives back those lines |
| Text.ToLower | ai/app/mcp_server.py:15 | lower-casing keeps the length |
| Text.RemoveSpaces | ai/app/mcp_server.py:15 | the result holds no space and is never longer than the input |
| Text.RemoveSpacesAppend | ai/app/mcp_server.py:20 | space removal distributes over concatenation |
| McpServer.Domain | ai/app/mcp_server.py:23 | the domain is the prefix of the id before its first '.', or the whole id when it has none |
| McpServer.DomainBeforeDot | ai/app/mcp_server.py:23 | the domain of `d.rest` is `d` when `d` holds no '.' |
| McpServer.MatchesTerm | ai/app/mcp_server.py:15-27 | definition: the lower-cased, space-free term occurs in the lower-cased, space-free friendly name (`""` when absent) or in the lower-cased entity id |
| McpServer.Selected | ai/app/mcp_server.py:23-27 | definition: the domain is on the allow-list and `MatchesTerm` holds |
| McpServer.Matching | ai/app/mcp_server.py:18-29 | definition: the selected entities of the state list, in list order |
| McpServer.EntityLine | ai/app/mcp_server.py:28 | definition: `- ID: <id> (이름: <friendly_name>, 상태: <state>)`, an absent value printed as `None` |
| McpServer.FindResult | ai/app/mcp_server.py:12-34 | definition: not connected gives `Error: HA API not connected`; a failed fetch gives `Error: <message>`; no match gives `검색 결과가 없습니다.`; otherwise the lines of the first 15 matches joined by line breaks |
| McpServer.FindEntityByName | ai/app/mcp_server.py:10-34 | the loop returns `FindResult`: the not-connected error, `Error: <message>` for a failed fetch, the no-results text, or the first 15 matching lines joined by line breaks |
| McpServer.MatchingIff | ai/app/mcp_server.py:15-28 | an entity is listed exactly when it is in the state list, its domain is allowed, and the normalised term occurs in its normalised friendly name or its lower-cased id |
| McpServer.MatchingAppend | ai/app/mcp_server.py:18-28 | matches keep the order of the state list: filtering distributes over concatenation |
| McpServer.FindResultLines | ai/app/mcp_server.py:28-32 | a successful lookup splits into min(matches, 15) lines; line j is the line of the j-th match, and that entity is in the state list with an allowed domain |
| McpServer.NoResultsIff | ai/app/mcp_server.py:30-32 | the no-results text comes back exactly when nothing matched |
| McpServer.EmptyTermSelectsAllowed | ai/app/mcp_server.py:15-27 | an empty term selects exactly the entities of the allowed domains |
| McpServer.SensorExcluded | ai/app/mcp_server.py:23-25 | `sensor.living_room_temp` is outside the allowed domains |
| McpServer.NormalizeLivingRoomLamp | ai/app/mcp_server.py:20 | "Living Room Lamp" normalises to "livingroomlamp" |
| McpServer.LampSelected | ai/app/mcp_server.py:15-27 | `light.living_room_lamp` named "Living Room Lamp" is selected by "living room" |
| McpServer.NormalizeLivingRoomTemp | ai/app/mcp_server.py:20 | "Living Room Temp" normalises to "livingroomtemp" |
| McpServer.SensorMatchesTerm | ai/app/mcp_server.py:15-27 | the term "living room" matches an entity named "Living Room Temp", whatever its domain |
| McpServer.FindLivingRoomExample | ai/app/mcp_server.py:10-32 | of that lamp and `sensor.living_room_temp` named "Living Room Temp", which the term also matches, only the lamp is found, and the answer is its line |
| McpServer.ActionLine | ai/app/mcp_server.py:42-46 | definition: `success: <id> on` / `success: <id> off` when the request succeeded, `fail: <id> error: <message>` when it failed |
| McpServer.ActionLines | ai/app/mcp_server.py:40-46 | definition: the lines for the ids in input order, the k-th from the reply to the k-th request, which goes to the service's endpoint with that id |
| McpServer.ActionResult | ai/app/mcp_server.py:39-47 | definition: not connected gives `Error: HA API not connected`; otherwise the action lines joined by line breaks |
| McpServer.CallForEach | ai/app/mcp_server.py:39-47 | the batch loop returns `ActionResult` and, when connected, makes exactly one request per id, in input order, to the service's endpoint; not connected, it makes none |
| McpServer.TurnOnMultiple | ai/app/mcp_server.py:37-47 | as `CallForEach`, with `success: <id> on` lines and requests to `services/homeassistant/turn_on` |
| McpServer.TurnOffMultiple | ai/app/mcp_server.py:50-60 | as `CallForEach`, with `success: <id> off` lines and requests to `services/homeassistant/turn_off` |
| McpServer.ActionLinesAt | ai/app/mcp_server.py:40-46 | one line per id, in input order; the line for id k is success or `fail: <id> error: <e>` according to the reply to request k alone, so a failure skips no later id |
| McpServer.ActionResultLines | ai/app/mcp_server.py:40-47 | an empty id list gives ""; otherwise the answer splits back into exactly those lines |
| McpServer.TurnOnPartialFailureExample | ai/app/mcp_server.py:41-47 | for `light.a` accepted and `light.b` rejected, the answer is `success: light.a on`, a line break, then `fail: light.b error: <message>` |
| LlmEngine.ToolResultText | ai/app/modules/llm_engine.py:98-102 | definition: the `.text` of the first content item; the printed result when `content` is empty; `Tool Error: ` and the message when `call_tool` raised or the first item has no `.text` (then the message is Python's `'<type>' object has no attribute 'text'`) |
| LlmEngine.ResolveCalls | ai/app/modules/llm_engine.py:91-105 | definition: the calls of one reply are run in order, each seeing the conversation so far, and each appends `ToolResult(ToolResultText(outcome), call id)` |
| LlmEngine.Loop | ai/app/modules/llm_engine.py:83-105 | definition: with budget left, ask the model on the conversation, append its reply; stop with its text when it has no calls, else resolve the calls and go on with one round less; with no budget, stop with an empty final answer |
| LlmEngine.React | ai/app/modules/llm_engine.py:74-105 | definition: `Loop` from [system prompt, user text] with a budget of 10 |
| LlmEngine.Answer | ai/app/modules/llm_engine.py:107 | definition: the final answer when it is non-empty, otherwise `완료했습니다.` |
| LlmEngine.Engine.constructor | ai/app/modules/llm_engine.py:13-17 | a new engine has no session, no tool definitions, and the server script `mcp_server.py` |
| LlmEngine.Engine.ConnectMcp | ai/app/modules/llm_engine.py:19-52 | true exactly when the tools were listed, and then the session and the definitions are set; a failure after the session was created keeps the session; a failed spawn changes nothing |
| LlmEngine.Engine.ProcessText | ai/app/modules/llm_engine.py:54-107 | with no session: the fixed error text, and no model or tool call; otherwise the conversation, the number of model calls and the answer are those of `React` |
| LlmEngine.RunToolCalls | ai/app/modules/llm_engine.py:91-105 | the inner loop appends the results of a reply's calls as `ResolveCalls` describes |
| LlmEngine.ResolveCallsShape | ai/app/modules/llm_engine.py:91-105 | a reply with k calls gains exactly k tool results, in call order; result j carries call j's id and `ToolResultText` of call j's outcome |
| LlmEngine.FailedCallRecorded | ai/app/modules/llm_engine.py:98-105 | a call that failed (raised in `call_tool`, or its first content item has no `.text`) becomes `Tool Error: <message>` under its id, and every later call of the reply still gets its result |
| LlmEngine.LoopShape | ai/app/modules/llm_engine.py:83-105 | the loop only appends, asks at most `budget` times, and appends well-formed rounds; it stops early only on a reply without calls, whose text is then the final answer; otherwise the final answer stays empty |
| LlmEngine.ReactConversation | ai/app/modules/llm_engine.py:74-105 | the conversation starts with [system prompt, user text]; at most 10 rounds; after r rounds with T calls in all it holds 2 + r + T messages; a reply without calls is the last message and gives the final answer |
| LlmEngine.ReactAnswer | ai/app/modules/llm_engine.py:80-107 | the answer is the last reply's text when that reply has no calls and non-empty text, and `완료했습니다.` when that text is empty; if every allowed round asked for tools, the answer is `완료했습니다.` after 10 rounds; a non-fallback answer is the last message |
| LlmEngine.FirstReplyAnswers | ai/app/modules/llm_engine.py:84-89 | a first reply without calls ends the loop after one round with its text, or the fallback when it is empty |
| LlmEngine.WellFormedLength | ai/app/modules/llm_engine.py:83-105 | rounds of replies and results hold one message per reply plus one per tool call |
| LlmEngine.NoCallReplyIsLast | ai/app/modules/llm_engine.py:87-89 | in well-formed rounds a reply without calls can only be the last message |

## Left out

- ai/app/ha_api.py (the aiohttp client, its timeout and `raise_for_status`) is not part of this model. It appears only as the oracles above: the state list or a failure message for the fetch, and `Done` or a failure message for each service call.
- The Kafka handler, ai/app/main.py and ai/app/config.py (queue plumbing, polling, JSON decoding, environment loading, logging) are not modelled. They are transport and configuration, not logic of the core.
- `connect_mcp`'s subprocess spawn, stdio transport, MCP handshake and `cleanup`: process and I/O lifecycle. Only its outcome is modelled, as a `Handshake` value.
- ChatOllama inference and `bind_tools`: foreign library code. They are the `Llm` oracle, which sees the tool definitions and the conversation.
- An exception raised by the language model itself is not modelled. The oracle always answers.
- The system prompt's wording is not modelled; `SystemPrompt` is an unspecified constant.
- Async scheduling and logging are not modelled. Neither changes the values computed.
- LlmEngine.Engine.constructor: the source's chained assignment `self.session = Optional[ClientSession] = None` raises a `TypeError` as soon as an engine is constructed. The model gives the evident intent, a session that starts out absent, and does not reproduce the fault.
- Text.ToLower: lower-cases ASCII letters only, whereas Python's `str.lower()` follows full Unicode case mapping. The examples use ASCII names.
- MatchesTerm and EntityLine assume `friendly_name` is either absent or a string. A friendly name present but `null` makes the source's `.lower()` raise, which the fetch's error path would then report; that case is not modelled.
- Non-string tool arguments are reduced to strings and lists of strings (`ArgValue`). An MCP result is reduced to its content items (text, or another kind named by its type) and its printed form.
- LlmEngine.McpSession: `callTool` is one fixed function of the conversation and the call for the whole session, so two requests with the same conversation get the same tool outcomes; device state that changes between requests is not modelled.
- Utils.RemoveEmojis: Dafny's `char` excludes the surrogate code points U+D800–U+DFFF, which a Python `str` can hold. They lie outside all four ranges and would be kept, so nothing about the filter changes.
- Text.SplitJoin, McpServer.FindResultLines and McpServer.ActionResultLines: the line-by-line readings need ids, names, states and error messages without line breaks. With a line break inside a field the joined text is the same, but it no longer splits back one line per entity.
- `mcp.run()` and the FastMCP decorators: framework wiring.
