# Pocket AI core, modelled in Dafny

Pocket AI (ポケットAI) is an assistant that runs an Observe–Judge–Act–Evaluate
loop over a context dictionary. Each pass stamps the context with a time,
runs every registered observer, judge, actor and evaluator in registration
order (a callback that raises is logged, and the phase goes on with whatever
it wrote to the shared context before raising), records the context in
a memory trimmed to `memory_size`, and stops once `complete` is set or the iteration budget is
spent. The agent registers one callback per phase:

- the observer reads the page at `browser_url`;
- the judge asks the language model for a JSON action descriptor and parses it;
- the actor interprets the descriptor (`browse`, `click`, `type`,
  `execute_code`, `search_code`, `analyze_code`, `complete`);
- the evaluator records whether the action reported an error.

A dotted-key configuration tree supplies the defaults. A browser manager keeps
at most one browser session, creates it lazily and closes it at the end of
every `with` block.

The project has five modules:

- `Values` (`values.dfy`): Python values (`None`, bool, int, str, list, dict)
  and the built-ins the core uses on them: truthiness, `in`, `dict.get`,
  `str()` and the messages of `AttributeError` and `TypeError`.
- `Config` (`config.dfy`): the configuration tree as a nested value.
  `ConfigStore` is the module-level dictionary together with `get_config` and
  `update_config`.
- `Loop` (`agent_loop.dfy`): the engine. `AgentLoop` is a class with its
  callback lists and its memory as fields. Callbacks are functions from a
  context to a returned context, or to a raised error together with the
  context as the callback left it. A whole run is specified by
  `Trace`, the state after `k` passes.
- `Browser` (`browser_manager.dfy`): `BrowserManager` and the sessions it
  creates and closes.
- `Agent` (`agent.dfy`): the four agent callbacks and the `PocketAI` object.
  They are written over an `Env` that stands for the things outside the agent:
  the language model, `json.loads`, the browser backends, the subprocess that
  runs code, and the code search and analysis tools.

## Model

| member | source | states |
|---|---|---|
| Values.Contains | pocket_ai/agent/agent.py:227-231 | Python's `in`: defined exactly for dicts, strings and lists (anything else raises); on a dict it is the key test |
| Config.Split | pocket_ai/config.py:51 | `key.split(".")` gives at least one segment, none contains a dot, and joining them with dots gives the key back |
| Config.SplitJoin | pocket_ai/config.py:63 | splitting a dot-joined path of undotted segments gives back the path |
| Config.ResolveStopsAtMissing | pocket_ai/config.py:54-59 | once a dict along the walk lacks the next segment, `get_config` gives None whatever follows |
| Config.PutSucceedsIffOpen | pocket_ai/config.py:61-73 | `update_config` completes exactly when every existing node on the path before the last segment is a dict; otherwise it raises |
| Config.EmptyIsOpen | pocket_ai/config.py:67-69 | from an empty tree every path can be written: the missing intermediate dicts are created |
| Config.PutThenResolve | pocket_ai/config.py:46-73 | after a successful `update_config(key, v)`, `get_config(key)` returns `v` |
| Config.PutCreatesIntermediates | pocket_ai/config.py:67-69 | after an update, every proper prefix of the path resolves to a dict |
| Config.PutFrame | pocket_ai/config.py:61-73 | an update leaves every path that is neither a prefix nor an extension of the written path resolving as before |
| Config.PutIdempotent | pocket_ai/config.py:73 | writing the same value twice gives the same tree as writing it once |
| Config.DefaultConfig | pocket_ai/config.py:9-38 | the defaults: 10 iterations, memory of 100, the playwright backend, headless on, port 54656, the key from the environment |
| Config.ConfigStore.constructor | pocket_ai/config.py:41-44 | the merged configuration equals the defaults when there is no user configuration |
| Config.ConfigStore.GetConfig | pocket_ai/config.py:46-59 | no key gives the whole tree; a key gives the walk along its dotted segments, which stops at None on a missing segment and raises where `in` raises |
| Config.ConfigStore.UpdateConfig | pocket_ai/config.py:61-73 | raises exactly when the path is blocked and then leaves the tree unchanged; otherwise the new tree is the value written at the path |
| Config.ServerPortExample | pocket_ai/config.py:36-37 | writing 9000 to `server.port` in the default tree succeeds and reads back as 9000 |
| Loop.ApplyAllConcat | pocket_ai/core/agent_loop.py:60-66 | running two callback lists one after the other is running their concatenation |
| Loop.RaisedKeepsWrites | pocket_ai/core/agent_loop.py:60-64 | a callback that raises does not stop its phase: the rest run on the context with the writes it made before raising, which is the context it was given when it wrote nothing |
| Loop.PassIsOneOrderedSweep | pocket_ai/core/agent_loop.py:152-158 | one pass stamps the time and then runs all observers, judges, actors and evaluators in that order, as one list |
| Loop.ApplyAllKeepsReserved | pocket_ai/core/agent_loop.py:60-126 | callbacks that keep `iterations` and `timestamp` give a phase that keeps them |
| Loop.PassKeepsReserved | pocket_ai/core/agent_loop.py:152-162 | after a pass of such callbacks, `timestamp` is the pass's time and `iterations` is unchanged |
| Loop.SliceStart | pocket_ai/core/agent_loop.py:139 | where Python's `m[start:]` starts: a start within the list is kept, a negative start counts from the end, a start past the end gives the end and one before the beginning gives 0 |
| Loop.TrimMemoryKeeps | pocket_ai/core/agent_loop.py:135-139 | trimming after an append: a positive size keeps the newest min(len, size) entries in order, a size of 0 keeps everything, and a negative size drops the oldest -size entries |
| Loop.AddEntryBounded | pocket_ai/core/agent_loop.py:135-139 | with a positive size, memory within the bound stays within it, and the new entry is the newest one kept |
| Loop.StartContext | pocket_ai/core/agent_loop.py:183-186 | the run starts with `task` set, `iterations` 0, `complete` False and every other initial key kept |
| Loop.TraceIterations | pocket_ai/core/agent_loop.py:191-195 | after `k` passes, `iterations` is `k` |
| Loop.NextStateMemory | pocket_ai/core/agent_loop.py:160-165 | with a positive size, one pass keeps memory within the size, its own entry (time, task and context) is the newest, and the rest is a suffix of the old memory |
| Loop.TraceMemory | pocket_ai/core/agent_loop.py:160-165 | over a whole run with a positive size and a start memory within it, memory never exceeds the size, and after each pass it ends with that pass's entry |
| Loop.NoneCompleteAt | pocket_ai/core/agent_loop.py:191-200 | a run that reached state `k` passed no earlier state with `complete` set |
| Loop.AgentLoop.constructor | pocket_ai/core/agent_loop.py:19-30 | a new engine has the given limits, empty callback lists, empty memory and no current task |
| Loop.AgentLoop.RegisterObserver | pocket_ai/core/agent_loop.py:32-34 | appends to the observers and changes nothing else |
| Loop.AgentLoop.RegisterJudge | pocket_ai/core/agent_loop.py:36-38 | appends to the judges and changes nothing else |
| Loop.AgentLoop.RegisterActor | pocket_ai/core/agent_loop.py:40-42 | appends to the actors and changes nothing else |
| Loop.AgentLoop.RegisterEvaluator | pocket_ai/core/agent_loop.py:44-46 | appends to the evaluators and changes nothing else |
| Loop.AgentLoop.RunPhase | pocket_ai/core/agent_loop.py:60-66 | the phase loop computes the fold of its callbacks over the context; a callback that raises is logged and the loop goes on from the context it left |
| Loop.AgentLoop.Observe | pocket_ai/core/agent_loop.py:48-66 | runs the observers in order |
| Loop.AgentLoop.Judge | pocket_ai/core/agent_loop.py:68-86 | runs the judges in order |
| Loop.AgentLoop.Act | pocket_ai/core/agent_loop.py:88-106 | runs the actors in order |
| Loop.AgentLoop.Evaluate | pocket_ai/core/agent_loop.py:108-126 | runs the evaluators in order |
| Loop.AgentLoop.AddToMemory | pocket_ai/core/agent_loop.py:128-139 | the new memory is the old one with the entry appended, then trimmed |
| Loop.AgentLoop.RunOnce | pocket_ai/core/agent_loop.py:141-167 | returns one pass at the given time and records `{timestamp, task, context}` for it in memory |
| Loop.AgentLoop.Advance | pocket_ai/core/agent_loop.py:192-195 | one turn of the loop bumps `iterations` and runs one pass, reaching the next state of the trace with `iterations` one higher |
| Loop.AgentLoop.Iterate | pocket_ai/core/agent_loop.py:191-200 | the loop ends in the trace state after `iterations` passes, with no earlier state complete, within the budget, and either complete or with the budget spent |
| Loop.AgentLoop.Run | pocket_ai/core/agent_loop.py:169-205 | sets the current task, returns the state after exactly `iterations` passes, where no earlier pass set `complete`, the count is within the budget, and the run ends early only because `complete` was set |
| Browser.BrowserManager.constructor | pocket_ai/browser/browser_manager.py:307-317 | an empty or missing type falls back to the configured one, a missing headless flag (but not False) falls back to the configured one, and no session is held |
| Browser.BrowserManager.CreateBrowser | pocket_ai/browser/browser_manager.py:319-331 | a fresh session of the configured backend, or the backend's start-up error, or `Unsupported browser type: <type>` for any other type |
| Browser.BrowserManager.GetBrowser | pocket_ai/browser/browser_manager.py:333-343 | a held session is returned unchanged; otherwise a new one is created and held, and a failed creation leaves the slot empty |
| Browser.BrowserManager.CloseBrowser | pocket_ai/browser/browser_manager.py:345-349 | the held session, if any, is closed exactly once and the slot emptied |
| Browser.BrowserManager.Enter | pocket_ai/browser/browser_manager.py:351-353 | `__enter__` is `get_browser` |
| Browser.BrowserManager.Exit | pocket_ai/browser/browser_manager.py:355-357 | `__exit__` is `close_browser` |
| Browser.BrowserManager.Scoped | pocket_ai/browser/browser_manager.py:333-357 | after a `with` block the slot is empty; from an empty slot the block got a fresh session that was closed once; it fails exactly when creation fails |
| Browser.BrowserManager.ConsecutiveScopes | pocket_ai/browser/browser_manager.py:333-357 | two `with` blocks in a row get two different sessions |
| Agent.ObserveEnvironment | pocket_ai/agent/agent.py:51-85 | writes `observations` and no other key; it is empty without a truthy `browser_url`; otherwise it is exactly the block's error, or the page content, plus the screenshot path named after `iterations` when `take_screenshot` is set, or plus the `'iterations'` KeyError when that key is missing |
| Agent.JudgeNextAction | pocket_ai/agent/agent.py:87-115 | sets `next_action` to the model's text and `parsed_action` to its parse, or to an `unknown` action carrying the raw text; no other key changes |
| Agent.Lower | pocket_ai/agent/programming_tools.py:37 | each character `A`–`Z` becomes its lower-case letter and every other character is kept |
| Agent.ExecuteCode | pocket_ai/agent/programming_tools.py:18-95 | the result always has `success`, `output` and `error`; success holds exactly when a python or javascript run exited with 0, and then the output is its stdout; any other language gives `Unsupported language: <language>` |
| Agent.Dispatch | pocket_ai/agent/agent.py:133-201 | of the seven branches only `complete` sets `complete`, and only `browse` stores a URL, namely its `url` parameter |
| Agent.ExecuteAction | pocket_ai/agent/agent.py:117-210 | raises exactly when `parsed_action` is not a dict; otherwise writes a fresh `action_results`, changes `complete` only for `complete` and `browser_url` only for `browse`, and leaves every other key alone |
| Agent.BrowseAction | pocket_ai/agent/agent.py:134-145 | `browse` without a URL records its fixed error; with one, success records the content and sets `browser_url`, and failure records the error |
| Agent.ClickAction | pocket_ai/agent/agent.py:147-155 | `click` needs a selector and a `browser_url` and otherwise records its fixed error; when it runs it records the page content or the error, and the context is otherwise kept |
| Agent.TypeAction | pocket_ai/agent/agent.py:157-166 | `type` needs a selector, text and a `browser_url` and otherwise records its fixed error; when it runs it records the page content or the error |
| Agent.ExecuteCodeAction | pocket_ai/agent/agent.py:168-175 | `execute_code` needs `code`, defaults the language to python and records the tool's result dictionary |
| Agent.SearchCodeAction | pocket_ai/agent/agent.py:177-184 | `search_code` needs `query`, defaults the language to None, and records the search result or the error the search raised |
| Agent.AnalyzeCodeAction | pocket_ai/agent/agent.py:186-193 | `analyze_code` needs `code`, defaults the language to python and records the analysis |
| Agent.ParametersNotADict | pocket_ai/agent/agent.py:129-205 | for every action but `complete`, a `parameters` value that is not a dict is recorded as the AttributeError of `.get` |
| Agent.CompleteAction | pocket_ai/agent/agent.py:195-198 | `complete` sets `complete` to True and records its success message |
| Agent.UnknownActionName | pocket_ai/agent/agent.py:127-201 | any other name records `Unknown action: <name>`, and a missing `parsed_action` gives `Unknown action: unknown` |
| Agent.EvaluateResults | pocket_ai/agent/agent.py:212-239 | writes only `evaluation`; with a results dict, success is exactly the absence of an `error` key and the feedback quotes that error or names the action; a `parsed_action` that is not a dict raises |
| Agent.ExecuteCodeNeverSucceeds | pocket_ai/agent/programming_tools.py:30-34 | an `execute_code` action is always evaluated as a failure, because the tool's result always has an `error` key |
| Agent.ObserverKeepsReserved | pocket_ai/agent/agent.py:51-85 | the observer never changes `iterations` or `timestamp` |
| Agent.JudgeKeepsReserved | pocket_ai/agent/agent.py:87-115 | the judge never changes `iterations` or `timestamp` |
| Agent.ActorKeepsReserved | pocket_ai/agent/agent.py:117-210 | the actor never changes `iterations` or `timestamp` |
| Agent.EvaluatorKeepsReserved | pocket_ai/agent/agent.py:212-239 | the evaluator never changes `iterations` or `timestamp` |
| Agent.AgentKeepsReserved | pocket_ai/agent/agent.py:37-49 | none of the four agent callbacks changes `iterations` or `timestamp`, so the engine's run over them is well defined |
| Agent.CompleteEndsTheRun | pocket_ai/agent/agent.py:195-198 | when the judge parses a `complete` action, the pass ends with `complete` set, so the run stops |
| Agent.CompleteSurvivesEvaluation | pocket_ai/agent/agent.py:226-239 | acting on `complete` and then evaluating leaves `complete` set |
| Agent.PocketAI.constructor | pocket_ai/agent/agent.py:22-49 | builds a fresh engine and browser manager and registers exactly one callback per phase |
| Agent.PocketAI.Run | pocket_ai/agent/agent.py:241-252 | the engine's run over the agent's callbacks, with the outcome of `Loop.AgentLoop.Run`; afterwards the manager holds no session |
| Agent.PocketAI.Block | pocket_ai/agent/agent.py:69-77 | one `with` block on the manager from an empty slot yields exactly `BrowserBlock` (the start-up error, the step's error or the page content) and leaves the slot empty |

## Left out

- Loop.AgentLoop.Run: callbacks that write `iterations` or `timestamp` are excluded, and the iteration properties assume it. The source reads both keys back after the callbacks have run. The agent's own callbacks meet the requirement (`Agent.AgentKeepsReserved`).
- Loop.AgentLoop.RunOnce: requires the same of its callbacks, because the memory entry reads `timestamp` back.
- Loop.TrimMemory follows the code rather than the documented promise that memory never exceeds `memory_size`. When `memory_size` is 0, `m[-0:]` is the whole list, so nothing is ever trimmed. A negative size drops the oldest entries instead of keeping the newest ones. Only a positive size gives the bound (`Loop.AddEntryBounded`).
- Aliasing: the context dictionary is mutated in place in the source, and every memory entry holds a reference to it. Earlier entries therefore see later changes. Here contexts and memory entries are values, so each entry keeps the context as it was when recorded.
- `time.time()` is a float clock. Here it is an integer parameter: `now` for one pass, and `clock(n)` for pass `n` of a run.
- Floats are not modelled. That covers `llm.temperature` in the default configuration and any float in a parsed action.
- The text `str()` gives for a list or a dict depends on dict order. It is a parameter (`show`).
- Exception messages are literal where the core builds them: the agent's fixed errors, `Unsupported browser type`, `Unsupported language`, `Unknown action`, the `AttributeError` for a missing `.get` or `.lower`, and the `TypeError` of `in` and of indexing. Messages from foreign code are parameters. Those messages can reach the context.
- Agent.Lower: lower-cases ASCII only, where Python's `str.lower` covers all of Unicode.
- The language model, `json.loads`, the Playwright and Selenium backends, the subprocess behind `execute_code`, `search_code` and `analyze_code` are outside the model. They are parameters of `Env`. The model does capture what the agent sees of them: text, a parse or nothing, an error at start-up or at a step, and a process result or a spawn error. The backends' own logging, screenshots and swallowed close errors are left out, since none of these changes what the agent computes.
- Agent.Env: the outcomes of the browser and the code tools are fixed functions of their inputs. One launch outcome holds for the agent's whole life, so every `with` block of a run starts the backend or none does. Opening the same URL gives the same content or error in every block and every pass. Transient failures, and pages that change between blocks or passes, are not modelled.
- `LLMManager.generate` turns a missing client or an API error into a text reply, so `llm` never fails. Its prompt text is not modelled.
- Agent.BrowserBlock stands for one `with` block run from an empty slot. `Agent.PocketAI.Block` shows that running it on the manager gives the same result, and `Agent.PocketAI.Valid` keeps the slot empty between blocks. The callbacks themselves are functions and do not thread the manager's state through a run. Sessions opened and closed inside a run are therefore not objects of the model.
- Agent.ObserveEnvironment: `browser.screenshot` is assumed not to raise. Its file is not modelled.
- Loop.AgentLoop.constructor and Agent.PocketAI.constructor take the two limits and the browser settings as parameters, standing for the `get_config` reads. Their default values are stated by `Config.DefaultConfig`. A non-integer limit raises in the source's comparison; here the limits are integers.
- Browser.Session records only its backend, its headless flag and how often it was closed. Pages, navigation and the backend's state are not modelled.
- Config: `update_config` changes the dictionary in place. Here the tree is a value inside `ConfigStore` and each update rebuilds the path. A `TypeError` raised part-way is modelled as no change. That is exact, because the source raises before inserting anything.
- Config.ConfigStore.GetConfig: a walk that reaches a string or a list applies `in` to it as Python does, and then raises on indexing where `in` held. Both are the `Raised` outcome, without the message.
- The HTTP server, the command-line entry point, the logger and the static web assets are not part of this model.
- Concurrent requests on the shared `PocketAI` instance of the HTTP server, and the temporary files they share, are left out.
