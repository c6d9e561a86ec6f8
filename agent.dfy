/** The PocketAI agent: one callback per loop phase. The observer looks at
    the page the context points to, the judge asks the language model for
    the next action and parses it, the actor carries the action out, and
    the evaluator records whether it succeeded. The language model, the JSON
    decoder, the browser backends and the code tools are parameters (`Env`)
    that may fail; what remains is the agent's own logic over the context. */
module Agent {
  import opened Values
  import opened Loop
  import Browser

  // ---------------------------------------------------------------------------
  // The environment
  // ---------------------------------------------------------------------------

  /** What a browser session is asked to do inside one `with` block. */
  datatype BrowserStep = OpenUrl(url: Value) | ClickOn(selector: Value) | TypeInto(selector: Value, text: Value)

  /** One run of an interpreter on a temporary file: the exit status, the
      captured streams and the error raised while removing the file, if
      any; or the error raised before the process ran. */
  datatype ProcessRun =
    | Ran(returnCode: int, stdout: string, stderr: string, cleanupError: Option<string>)
    | SpawnFailed(error: string)

  /** A code tool returns a result dictionary or raises. */
  datatype ToolOutcome = ToolReturned(result: Dict) | ToolRaised(error: string)

  /** Everything outside the agent's own logic. */
  datatype Env = Env(
    // the text `LLMManager.get_next_action` stores as `next_action` (it never raises)
    llm: Context -> string,
    // `json.loads`: None when it raises
    parseJson: string -> Option<Value>,
    // the error raised while starting the configured backend, if any
    launchError: Option<string>,
    // the error `open`, `click` or `type` raises, if any
    stepError: BrowserStep -> Option<string>,
    // what `get_content` returns after the step (it never raises)
    pageContent: BrowserStep -> string,
    // the interpreter ("python" or "javascript") run on the code
    runCode: (string, Value) -> ProcessRun,
    // `ProgrammingTools.search_code(query, language)`
    searchCode: (Value, Value) -> ToolOutcome,
    // `ProgrammingTools.analyze_code(code, language)`, which never raises
    analyzeCode: (Value, Value) -> Dict,
    // `str()` of a list or dict
    show: Value -> string)

  /** One `with self.browser_manager as browser:` block that performs `step`
      and reads the page: the page content, or the message of the exception
      that left the block. The block starts from an empty slot and leaves it
      empty, so each block creates its own session; `PocketAI.Block` runs it
      on the manager. */
  function BrowserBlock(env: Env, browserType: Value, step: BrowserStep): Result<string> {
    var createError := Browser.CreateError(browserType, env.launchError, env.show);
    if createError.Some? then Failure(createError.value)
    else if env.stepError(step).Some? then Failure(env.stepError(step).value)
    else Success(env.pageContent(step))
  }

  // ---------------------------------------------------------------------------
  // Observe
  // ---------------------------------------------------------------------------

  function ScreenshotPath(iterations: Value, show: Value -> string): string {
    "/tmp/pocket_ai_screenshot_" + Format(iterations, show) + ".png"
  }

  /** The `observations` dictionary. A KeyError on a missing `iterations`
      while naming the screenshot leaves the block like any other error. */
  function Observations(env: Env, browserType: Value, ctx: Context): Dict {
    if !Truthy(GetOr(ctx, "browser_url", Null)) then map[]
    else
      match BrowserBlock(env, browserType, OpenUrl(ctx["browser_url"]))
      case Failure(e) => map["browser_error" := Str(e)]
      case Success(content) =>
        var seen := map["browser_content" := Str(content)];
        if !Truthy(GetOr(ctx, "take_screenshot", Bool(false))) then seen
        else if "iterations" in ctx then seen["screenshot_path" := Str(ScreenshotPath(ctx["iterations"], env.show))]
        else seen["browser_error" := Str("'iterations'")]
  }

  /** `_observe_environment`: sets `observations` and nothing else; with no
      `browser_url` there is nothing to observe. */
  function ObserveEnvironment(env: Env, browserType: Value, ctx: Context): (r: Context)
    ensures r.Keys == ctx.Keys + {"observations"}
    ensures forall k :: k in ctx && k != "observations" ==> r[k] == ctx[k]
    ensures r["observations"].Obj?
    ensures !Truthy(GetOr(ctx, "browser_url", Null)) ==> r["observations"] == Obj(map[])
    // with a truthy `browser_url`, the page at that URL is opened in one block
    ensures Truthy(GetOr(ctx, "browser_url", Null)) ==>
              var page := BrowserBlock(env, browserType, OpenUrl(ctx["browser_url"]));
              var shot := Truthy(GetOr(ctx, "take_screenshot", Bool(false)));
              // the block failed: only the error is observed
              && (page.Failure? ==> r["observations"] == Obj(map["browser_error" := Str(page.error)]))
              // the page content, and nothing more without a screenshot
              && (page.Success? && !shot ==> r["observations"] == Obj(map["browser_content" := Str(page.value)]))
              // the screenshot is named after the iteration
              && (page.Success? && shot && "iterations" in ctx ==>
                    r["observations"] == Obj(map["browser_content" := Str(page.value),
                                                 "screenshot_path" := Str(ScreenshotPath(ctx["iterations"], env.show))]))
              // naming it without `iterations` raises KeyError after the content was read
              && (page.Success? && shot && "iterations" !in ctx ==>
                    r["observations"] == Obj(map["browser_content" := Str(page.value),
                                                 "browser_error" := Str("'iterations'")]))
  {
    ctx["observations" := Obj(Observations(env, browserType, ctx))]
  }

  // ---------------------------------------------------------------------------
  // Judge
  // ---------------------------------------------------------------------------

  /** The action descriptor used when the model's text is not JSON. */
  function Unparsed(raw: string): Value {
    Obj(map["action" := Str("unknown"), "parameters" := Obj(map[]), "reasoning" := Str(raw)])
  }

  /** `_judge_next_action`: stores the model's text as `next_action` and its
      parse as `parsed_action`, falling back to an `unknown` action carrying
      the raw text when the text does not parse. */
  function JudgeNextAction(env: Env, ctx: Context): (r: Context)
    ensures r.Keys == ctx.Keys + {"next_action", "parsed_action"}
    ensures forall k :: k in ctx && k !in {"next_action", "parsed_action"} ==> r[k] == ctx[k]
    ensures r["next_action"] == Str(env.llm(ctx))
    ensures env.parseJson(env.llm(ctx)).Some? ==> r["parsed_action"] == env.parseJson(env.llm(ctx)).value
    ensures env.parseJson(env.llm(ctx)).None? ==>
              r["parsed_action"] == Obj(map["action" := Str("unknown"),
                                            "parameters" := Obj(map[]),
                                            "reasoning" := Str(env.llm(ctx))])
  {
    var response := env.llm(ctx);
    var asked := ctx["next_action" := Str(response)];
    var next := GetOr(asked, "next_action", Str(""));
    asked["parsed_action" := match env.parseJson(next.s)
                             case Some(v) => v
                             case None => Unparsed(next.s)]
  }

  // ---------------------------------------------------------------------------
  // Act
  // ---------------------------------------------------------------------------

  const NoUrlError := "No URL provided for browse action"
  const NoClickTargetError := "No selector or browser URL provided for click action"
  const NoTypeTargetError := "No selector, text, or browser URL provided for type action"
  const NoExecuteCodeError := "No code provided for execute_code action"
  const NoQueryError := "No query provided for search_code action"
  const NoAnalyzeCodeError := "No code provided for analyze_code action"
  const CompletedMessage := "Task completed successfully"

  /** ASCII lower-casing, standing for `str.lower()`. */
  function Lower(s: string): (r: string)
    ensures |r| == |s|
    ensures forall i :: 0 <= i < |s| ==> r[i] == (if 'A' <= s[i] <= 'Z' then (s[i] as int + 32) as char else s[i])
  {
    if s == [] then []
    else [if 'A' <= s[0] <= 'Z' then (s[0] as int + 32) as char else s[0]] + Lower(s[1..])
  }

  /** `ProgrammingTools.execute_code(code, language)`: the result dictionary
      always has the keys `success`, `output` and `error`; `error` is "" only
      when nothing went wrong. */
  function ExecuteCode(env: Env, code: Value, language: Value): (r: Dict)
    ensures r.Keys == {"success", "output", "error"}
    ensures r["success"].Bool? && r["output"].Str? && r["error"].Str?
    ensures r["success"] == Bool(true) <==>
              language.Str? && Lower(language.s) in {"python", "javascript"} &&
              env.runCode(Lower(language.s), code).Ran? && env.runCode(Lower(language.s), code).returnCode == 0
    ensures r["success"] == Bool(true) ==> r["output"] == Str(env.runCode(Lower(language.s), code).stdout)
    ensures language.Str? && Lower(language.s) !in {"python", "javascript"} ==>
              r == map["success" := Bool(false), "output" := Str(""),
                       "error" := Str("Unsupported language: " + language.s)]
  {
    var blank := map["success" := Bool(false), "output" := Str(""), "error" := Str("")];
    if !language.Str? then blank["error" := Str(NoAttribute(language, "lower"))]
    else
      var lang := Lower(language.s);
      if lang == "python" || lang == "javascript" then
        match env.runCode(lang, code)
        case SpawnFailed(e) => blank["error" := Str(e)]
        case Ran(returnCode, stdout, stderr, cleanupError) =>
          var done :=
            if returnCode == 0 then blank["success" := Bool(true)]["output" := Str(stdout)]
            else blank["error" := Str(stderr)];
          if cleanupError.Some? then done["error" := Str(cleanupError.value)] else done
      else blank["error" := Str("Unsupported language: " + language.s)]
  }

  /** What one branch of the dispatch chain leaves: the results dictionary,
      the URL a successful `browse` stored as `browser_url`, and whether
      `complete` was set. */
  datatype Outcome = Outcome(results: Dict, browsedTo: Option<Value>, completed: bool)

  function Report(results: Dict): Outcome {
    Outcome(results, None, false)
  }

  function Error(message: string): Dict {
    map["error" := Str(message)]
  }

  /** The results of a browser block: the page content or the error. */
  function PageOrError(page: Result<string>): Dict {
    match page
    case Success(content) => map["browser_content" := Str(content)]
    case Failure(e) => Error(e)
  }

  /** The `browse` branch. Reading a parameter from a `parameters` value that
      is not a dict raises an AttributeError, which the `try` records like any
      other error; the same holds in every branch below. */
  function Browse(env: Env, browserType: Value, parameters: Value): (r: Outcome)
    ensures !r.completed
    ensures r.browsedTo.Some? ==> parameters.Obj? && r.browsedTo.value == GetOr(parameters.fields, "url", Str(""))
  {
    if !parameters.Obj? then Report(Error(NoAttribute(parameters, "get")))
    else
      var url := GetOr(parameters.fields, "url", Str(""));
      if !Truthy(url) then Report(Error(NoUrlError))
      else
        var page := BrowserBlock(env, browserType, OpenUrl(url));
        Outcome(PageOrError(page), if page.Success? then Some(url) else None, false)
  }

  /** The `click` branch; `browserUrl` is `context.get("browser_url")`. */
  function Click(env: Env, browserType: Value, parameters: Value, browserUrl: Value): Dict {
    if !parameters.Obj? then Error(NoAttribute(parameters, "get"))
    else
      var selector := GetOr(parameters.fields, "selector", Str(""));
      if Truthy(selector) && Truthy(browserUrl) then PageOrError(BrowserBlock(env, browserType, ClickOn(selector)))
      else Error(NoClickTargetError)
  }

  /** The `type` branch. */
  function TypeText(env: Env, browserType: Value, parameters: Value, browserUrl: Value): Dict {
    if !parameters.Obj? then Error(NoAttribute(parameters, "get"))
    else
      var selector := GetOr(parameters.fields, "selector", Str(""));
      var text := GetOr(parameters.fields, "text", Str(""));
      if Truthy(selector) && Truthy(text) && Truthy(browserUrl) then
        PageOrError(BrowserBlock(env, browserType, TypeInto(selector, text)))
      else Error(NoTypeTargetError)
  }

  /** The `execute_code` branch. */
  function RunCode(env: Env, parameters: Value): Dict {
    if !parameters.Obj? then Error(NoAttribute(parameters, "get"))
    else
      var code := GetOr(parameters.fields, "code", Str(""));
      if Truthy(code) then ExecuteCode(env, code, GetOr(parameters.fields, "language", Str("python")))
      else Error(NoExecuteCodeError)
  }

  /** The `search_code` branch. */
  function SearchCode(env: Env, parameters: Value): Dict {
    if !parameters.Obj? then Error(NoAttribute(parameters, "get"))
    else
      var query := GetOr(parameters.fields, "query", Str(""));
      if !Truthy(query) then Error(NoQueryError)
      else
        match env.searchCode(query, GetOr(parameters.fields, "language", Null))
        case ToolReturned(found) => found
        case ToolRaised(e) => Error(e)
  }

  /** The `analyze_code` branch. */
  function AnalyzeCode(env: Env, parameters: Value): Dict {
    if !parameters.Obj? then Error(NoAttribute(parameters, "get"))
    else
      var code := GetOr(parameters.fields, "code", Str(""));
      if Truthy(code) then env.analyzeCode(code, GetOr(parameters.fields, "language", Str("python")))
      else Error(NoAnalyzeCodeError)
  }

  /** The `if`/`elif` chain of `_execute_action` inside its `try`. */
  function Dispatch(env: Env, browserType: Value, ctx: Context, action: Value, parameters: Value): (r: Outcome)
    ensures r.completed <==> action == Str("complete")
    ensures r.browsedTo.Some? ==>
              action == Str("browse") && parameters.Obj? && r.browsedTo.value == GetOr(parameters.fields, "url", Str(""))
  {
    if action == Str("browse") then Browse(env, browserType, parameters)
    else if action == Str("click") then Report(Click(env, browserType, parameters, GetOr(ctx, "browser_url", Null)))
    else if action == Str("type") then Report(TypeText(env, browserType, parameters, GetOr(ctx, "browser_url", Null)))
    else if action == Str("execute_code") then Report(RunCode(env, parameters))
    else if action == Str("search_code") then Report(SearchCode(env, parameters))
    else if action == Str("analyze_code") then Report(AnalyzeCode(env, parameters))
    else if action == Str("complete") then Outcome(map["message" := Str(CompletedMessage)], None, true)
    else Report(Error("Unknown action: " + Format(action, env.show)))
  }

  /** The context after a branch: `browser_url` and `complete` as the branch
      set them, and `action_results` replaced by its results. */
  function Record(ctx: Context, out: Outcome): Context {
    var browsed := if out.browsedTo.Some? then ctx["browser_url" := out.browsedTo.value] else ctx;
    var completed := if out.completed then browsed["complete" := Bool(true)] else browsed;
    completed["action_results" := Obj(out.results)]
  }

  /** `context.get("parsed_action", {})` */
  function ParsedAction(ctx: Context): Value {
    GetOr(ctx, "parsed_action", Obj(map[]))
  }

  /** `action_data.get("action", "unknown")` */
  function ActionOf(ctx: Context): Value
    requires ParsedAction(ctx).Obj?
  {
    GetOr(ParsedAction(ctx).fields, "action", Str("unknown"))
  }

  /** `action_data.get("parameters", {})` */
  function ParametersOf(ctx: Context): Value
    requires ParsedAction(ctx).Obj?
  {
    GetOr(ParsedAction(ctx).fields, "parameters", Obj(map[]))
  }

  /** The seven actions the actor knows. */
  predicate KnownAction(action: Value) {
    action in {Str("browse"), Str("click"), Str("type"), Str("execute_code"),
               Str("search_code"), Str("analyze_code"), Str("complete")}
  }

  /** `_execute_action`. It raises (outside its `try`) only when
      `parsed_action` is not a dict; otherwise it replaces `action_results`
      with a fresh dictionary, sets `complete` only for the `complete`
      action and `browser_url` only for a successful `browse`, and touches
      no other key. */
  function ExecuteAction(env: Env, browserType: Value, ctx: Context): (r: CallResult)
    ensures r.Raised? <==> !ParsedAction(ctx).Obj?
    // it raises before writing anything
    ensures r.Raised? ==> r.ctx == ctx
    ensures r.Returned? ==> r.ctx.Keys == ctx.Keys + {"action_results"} + (r.ctx.Keys * {"complete", "browser_url"})
    ensures r.Returned? ==> r.ctx["action_results"].Obj?
    ensures r.Returned? ==>
              forall k :: k in ctx && k !in {"action_results", "complete", "browser_url"} ==> r.ctx[k] == ctx[k]
    ensures r.Returned? && Lookup(r.ctx, "complete") != Lookup(ctx, "complete") ==>
              ActionOf(ctx) == Str("complete") && r.ctx["complete"] == Bool(true)
    ensures r.Returned? && Lookup(r.ctx, "browser_url") != Lookup(ctx, "browser_url") ==>
              ActionOf(ctx) == Str("browse") && ParametersOf(ctx).Obj? &&
              r.ctx["browser_url"] == GetOr(ParametersOf(ctx).fields, "url", Str(""))
  {
    var actionData := GetOr(ctx, "parsed_action", Obj(map[]));
    if !actionData.Obj? then Raised(ctx, NoAttribute(actionData, "get"))
    else
      var action := GetOr(actionData.fields, "action", Str("unknown"));
      var parameters := GetOr(actionData.fields, "parameters", Obj(map[]));
      Returned(Record(ctx, Dispatch(env, browserType, ctx, action, parameters)))
  }

  /** `browse` without a truthy `url` records its fixed error; with one, a
      successful block sets `browser_url` to it and records the page
      content, and a failed one records the error. */
  lemma BrowseAction(env: Env, browserType: Value, ctx: Context)
    requires ParsedAction(ctx).Obj? && ActionOf(ctx) == Str("browse") && ParametersOf(ctx).Obj?
    ensures var url := GetOr(ParametersOf(ctx).fields, "url", Str(""));
      var r := ExecuteAction(env, browserType, ctx);
      && (!Truthy(url) ==> r == Returned(ctx["action_results" := Obj(map["error" := Str(NoUrlError)])]))
      && (Truthy(url) && BrowserBlock(env, browserType, OpenUrl(url)).Success? ==>
            r == Returned(ctx["browser_url" := url]["action_results" :=
                   Obj(map["browser_content" := Str(BrowserBlock(env, browserType, OpenUrl(url)).value)])]))
      && (Truthy(url) && BrowserBlock(env, browserType, OpenUrl(url)).Failure? ==>
            r == Returned(ctx["action_results" :=
                   Obj(map["error" := Str(BrowserBlock(env, browserType, OpenUrl(url)).error)])]))
  {
  }

  /** `click` runs only with a truthy `selector` and a truthy `browser_url`,
      and then records the page content or the error; otherwise it records
      its fixed error. The context is left as it was. */
  lemma ClickAction(env: Env, browserType: Value, ctx: Context)
    requires ParsedAction(ctx).Obj? && ActionOf(ctx) == Str("click") && ParametersOf(ctx).Obj?
    ensures var selector := GetOr(ParametersOf(ctx).fields, "selector", Str(""));
      var r := ExecuteAction(env, browserType, ctx);
      && (!(Truthy(selector) && Truthy(GetOr(ctx, "browser_url", Null))) ==>
            r == Returned(ctx["action_results" := Obj(map["error" := Str(NoClickTargetError)])]))
      && (Truthy(selector) && Truthy(GetOr(ctx, "browser_url", Null)) ==>
            r == Returned(ctx["action_results" :=
                   Obj(match BrowserBlock(env, browserType, ClickOn(selector))
                       case Success(content) => map["browser_content" := Str(content)]
                       case Failure(e) => map["error" := Str(e)])]))
  {
  }

  /** `type` runs only with a truthy `selector`, a truthy `text` and a truthy
      `browser_url`; otherwise it records its fixed error. */
  lemma TypeAction(env: Env, browserType: Value, ctx: Context)
    requires ParsedAction(ctx).Obj? && ActionOf(ctx) == Str("type") && ParametersOf(ctx).Obj?
    ensures var p := ParametersOf(ctx).fields;
      var selector := GetOr(p, "selector", Str(""));
      var text := GetOr(p, "text", Str(""));
      var r := ExecuteAction(env, browserType, ctx);
      && (!(Truthy(selector) && Truthy(text) && Truthy(GetOr(ctx, "browser_url", Null))) ==>
            r == Returned(ctx["action_results" := Obj(map["error" := Str(NoTypeTargetError)])]))
      && (Truthy(selector) && Truthy(text) && Truthy(GetOr(ctx, "browser_url", Null)) ==>
            r == Returned(ctx["action_results" :=
                   Obj(match BrowserBlock(env, browserType, TypeInto(selector, text))
                       case Success(content) => map["browser_content" := Str(content)]
                       case Failure(e) => map["error" := Str(e)])]))
  {
  }

  /** `execute_code` needs a truthy `code`; the language defaults to "python",
      and the results are the tool's result dictionary. */
  lemma ExecuteCodeAction(env: Env, browserType: Value, ctx: Context)
    requires ParsedAction(ctx).Obj? && ActionOf(ctx) == Str("execute_code") && ParametersOf(ctx).Obj?
    ensures var p := ParametersOf(ctx).fields;
      var code := GetOr(p, "code", Str(""));
      ExecuteAction(env, browserType, ctx) ==
        Returned(ctx["action_results" := Obj(if Truthy(code) then ExecuteCode(env, code, GetOr(p, "language", Str("python")))
                                             else map["error" := Str(NoExecuteCodeError)])])
  {
  }

  /** `analyze_code` needs a truthy `code`; the language defaults to "python". */
  lemma AnalyzeCodeAction(env: Env, browserType: Value, ctx: Context)
    requires ParsedAction(ctx).Obj? && ActionOf(ctx) == Str("analyze_code") && ParametersOf(ctx).Obj?
    ensures var p := ParametersOf(ctx).fields;
      var code := GetOr(p, "code", Str(""));
      ExecuteAction(env, browserType, ctx) ==
        Returned(ctx["action_results" := Obj(if Truthy(code) then env.analyzeCode(code, GetOr(p, "language", Str("python")))
                                             else map["error" := Str(NoAnalyzeCodeError)])])
  {
  }

  /** `search_code` needs a truthy `query`; the language defaults to None,
      and a search that raises records its error. */
  lemma SearchCodeAction(env: Env, browserType: Value, ctx: Context)
    requires ParsedAction(ctx).Obj? && ActionOf(ctx) == Str("search_code") && ParametersOf(ctx).Obj?
    ensures var p := ParametersOf(ctx).fields;
      var query := GetOr(p, "query", Str(""));
      ExecuteAction(env, browserType, ctx) ==
        Returned(ctx["action_results" := Obj(if !Truthy(query) then map["error" := Str(NoQueryError)]
                                             else match env.searchCode(query, GetOr(p, "language", Null))
                                                  case ToolReturned(found) => found
                                                  case ToolRaised(e) => map["error" := Str(e)])])
  {
  }

  /** Any action but `complete` with a `parameters` value that is not a dict
      records the AttributeError of `.get`. */
  lemma ParametersNotADict(env: Env, browserType: Value, ctx: Context)
    requires ParsedAction(ctx).Obj? && !ParametersOf(ctx).Obj?
    requires KnownAction(ActionOf(ctx)) && ActionOf(ctx) != Str("complete")
    ensures ExecuteAction(env, browserType, ctx) ==
            Returned(ctx["action_results" := Obj(map["error" := Str(NoAttribute(ParametersOf(ctx), "get"))])])
  {
  }

  /** `complete` sets `complete` to True and records its success message. */
  lemma CompleteAction(env: Env, browserType: Value, ctx: Context)
    requires ParsedAction(ctx).Obj? && ActionOf(ctx) == Str("complete")
    ensures ExecuteAction(env, browserType, ctx) ==
            Returned(ctx["complete" := Bool(true)]["action_results" := Obj(map["message" := Str(CompletedMessage)])])
  {
  }

  /** A name outside the seven known actions, including the default
      "unknown" of a missing `parsed_action` or `action`, records
      "Unknown action: <name>". */
  lemma UnknownActionName(env: Env, browserType: Value, ctx: Context)
    requires ParsedAction(ctx).Obj?
    ensures !KnownAction(ActionOf(ctx)) ==>
              ExecuteAction(env, browserType, ctx) ==
              Returned(ctx["action_results" :=
                Obj(map["error" := Str("Unknown action: " + Format(ActionOf(ctx), env.show))])])
    ensures "parsed_action" !in ctx ==>
              ExecuteAction(env, browserType, ctx) ==
              Returned(ctx["action_results" := Obj(map["error" := Str("Unknown action: unknown")])])
  {
    if "parsed_action" !in ctx {
      assert ActionOf(ctx) == Str("unknown");
      assert !KnownAction(Str("unknown"));
      assert "Unknown action: " + Format(Str("unknown"), env.show) == "Unknown action: unknown";
    }
  }

  // ---------------------------------------------------------------------------
  // Evaluate
  // ---------------------------------------------------------------------------

  function Evaluation(success: bool, feedback: string): Value {
    Obj(map["success" := Bool(success), "feedback" := Str(feedback)])
  }

  /** `_evaluate_results`. */
  function EvaluateResults(env: Env, ctx: Context): (r: CallResult)
    ensures !ParsedAction(ctx).Obj? ==> r.Raised?
    // it raises before writing anything
    ensures r.Raised? ==> r.ctx == ctx
    ensures r.Returned? ==> r.ctx.Keys == ctx.Keys + {"evaluation"}
    ensures r.Returned? ==> forall k :: k in ctx && k != "evaluation" ==> r.ctx[k] == ctx[k]
    // with a results dictionary, success is exactly the absence of an "error" key
    ensures ParsedAction(ctx).Obj? && GetOr(ctx, "action_results", Obj(map[])).Obj? ==>
              var results := GetOr(ctx, "action_results", Obj(map[])).fields;
              r == Returned(ctx["evaluation" :=
                     if "error" in results then Evaluation(false, "Error: " + Format(results["error"], env.show))
                     else Evaluation(true, "Action " + Format(ActionOf(ctx), env.show) + " executed successfully")])
  {
    var actionData := GetOr(ctx, "parsed_action", Obj(map[]));
    if !actionData.Obj? then Raised(ctx, NoAttribute(actionData, "get"))
    else
      var action := GetOr(actionData.fields, "action", Str("unknown"));
      var results := GetOr(ctx, "action_results", Obj(map[]));
      match Contains(results, "error")
      case None => Raised(ctx, "argument of type '" + TypeName(results) + "' is not iterable")
      case Some(hasError) =>
        if !hasError then
          Returned(ctx["evaluation" := Evaluation(true, "Action " + Format(action, env.show) + " executed successfully")])
        else if results.Obj? then
          Returned(ctx["evaluation" := Evaluation(false, "Error: " + Format(results.fields["error"], env.show))])
        else
          Raised(ctx, if results.Str? then "string indices must be integers, not 'str'"
                 else "list indices must be integers or slices, not str")
  }

  /** A run of code is never judged a success: the tool's result always has
      an "error" key, even when that key is "". */
  lemma ExecuteCodeNeverSucceeds(env: Env, browserType: Value, ctx: Context)
    requires ParsedAction(ctx).Obj? && ActionOf(ctx) == Str("execute_code")
    ensures ExecuteAction(env, browserType, ctx).Returned?
    ensures var acted := ExecuteAction(env, browserType, ctx).ctx;
      EvaluateResults(env, acted).Returned? &&
      EvaluateResults(env, acted).ctx["evaluation"].fields["success"] == Bool(false)
  {
    var acted := ExecuteAction(env, browserType, ctx).ctx;
    assert ParsedAction(acted) == ParsedAction(ctx);
  }

  // ---------------------------------------------------------------------------
  // The agent's phases
  // ---------------------------------------------------------------------------

  function ObserveCallback(env: Env, browserType: Value): Callback {
    c => Returned(ObserveEnvironment(env, browserType, c))
  }

  function JudgeCallback(env: Env): Callback {
    c => Returned(JudgeNextAction(env, c))
  }

  function ActCallback(env: Env, browserType: Value): Callback {
    c => ExecuteAction(env, browserType, c)
  }

  function EvaluateCallback(env: Env): Callback {
    c => EvaluateResults(env, c)
  }

  /** What `_register_components` registers: one callback per phase. */
  function AgentPhases(env: Env, browserType: Value): Phases {
    Phases([ObserveCallback(env, browserType)], [JudgeCallback(env)],
           [ActCallback(env, browserType)], [EvaluateCallback(env)])
  }

  /** The observer writes only `observations`. */
  lemma ObserverKeepsReserved(env: Env, browserType: Value)
    ensures KeepsReserved(ObserveCallback(env, browserType))
  {
    forall c ensures Reserved(Step(ObserveCallback(env, browserType), c)) == Reserved(c) {
      var after := ObserveEnvironment(env, browserType, c);
      assert Step(ObserveCallback(env, browserType), c) == after;
      assert Lookup(after, "iterations") == Lookup(c, "iterations");
      assert Lookup(after, "timestamp") == Lookup(c, "timestamp");
    }
  }

  /** The judge writes only `next_action` and `parsed_action`. */
  lemma JudgeKeepsReserved(env: Env)
    ensures KeepsReserved(JudgeCallback(env))
  {
    forall c ensures Reserved(Step(JudgeCallback(env), c)) == Reserved(c) {
      var after := JudgeNextAction(env, c);
      assert Step(JudgeCallback(env), c) == after;
      assert Lookup(after, "iterations") == Lookup(c, "iterations");
      assert Lookup(after, "timestamp") == Lookup(c, "timestamp");
    }
  }

  /** The actor writes only `action_results`, `complete` and `browser_url`. */
  lemma ActorKeepsReserved(env: Env, browserType: Value)
    ensures KeepsReserved(ActCallback(env, browserType))
  {
    forall c ensures Reserved(Step(ActCallback(env, browserType), c)) == Reserved(c) {
      var r := ExecuteAction(env, browserType, c);
      assert Step(ActCallback(env, browserType), c) == r.ctx;
      assert Lookup(r.ctx, "iterations") == Lookup(c, "iterations");
      assert Lookup(r.ctx, "timestamp") == Lookup(c, "timestamp");
    }
  }

  /** The evaluator writes only `evaluation`. */
  lemma EvaluatorKeepsReserved(env: Env)
    ensures KeepsReserved(EvaluateCallback(env))
  {
    forall c ensures Reserved(Step(EvaluateCallback(env), c)) == Reserved(c) {
      var r := EvaluateResults(env, c);
      assert Step(EvaluateCallback(env), c) == r.ctx;
      assert Lookup(r.ctx, "iterations") == Lookup(c, "iterations");
      assert Lookup(r.ctx, "timestamp") == Lookup(c, "timestamp");
    }
  }

  /** None of the agent's callbacks writes `iterations` or `timestamp`, so
      the engine's run over them is well defined. */
  lemma AgentKeepsReserved(env: Env, browserType: Value)
    ensures PhasesKeepReserved(AgentPhases(env, browserType))
  {
    var p := AgentPhases(env, browserType);
    ObserverKeepsReserved(env, browserType);
    JudgeKeepsReserved(env);
    ActorKeepsReserved(env, browserType);
    EvaluatorKeepsReserved(env);
    assert KeepsReserved(p.observers[0]);
    assert KeepsReserved(p.judges[0]);
    assert KeepsReserved(p.actors[0]);
    assert KeepsReserved(p.evaluators[0]);
  }

  /** When the judge picks `complete`, the pass ends with `complete` set, so
      the run stops after this iteration. */
  lemma CompleteEndsTheRun(env: Env, browserType: Value, ctx: Context, now: int)
    requires var observed := ObserveEnvironment(env, browserType, ctx["timestamp" := Int(now)]);
      var parsed := env.parseJson(env.llm(observed));
      parsed.Some? && parsed.value.Obj? && GetOr(parsed.value.fields, "action", Str("unknown")) == Str("complete")
    ensures Complete(Pass(AgentPhases(env, browserType), ctx, now))
  {
    var p := AgentPhases(env, browserType);
    var stamped := ctx["timestamp" := Int(now)];
    var observed := ObserveEnvironment(env, browserType, stamped);
    SingleCallback(ObserveCallback(env, browserType), stamped);
    assert ApplyAll(p.observers, stamped) == observed;
    var judged := JudgeNextAction(env, observed);
    SingleCallback(JudgeCallback(env), observed);
    assert ApplyAll(p.judges, observed) == judged;
    CompleteSurvivesEvaluation(env, browserType, judged);
  }

  /** Acting on a `complete` action and then evaluating leaves `complete` set. */
  lemma CompleteSurvivesEvaluation(env: Env, browserType: Value, judged: Context)
    requires ParsedAction(judged).Obj? && ActionOf(judged) == Str("complete")
    ensures Complete(ApplyAll([EvaluateCallback(env)], ApplyAll([ActCallback(env, browserType)], judged)))
  {
    CompleteAction(env, browserType, judged);
    var acted := ExecuteAction(env, browserType, judged).ctx;
    SingleCallback(ActCallback(env, browserType), judged);
    assert ApplyAll([ActCallback(env, browserType)], judged) == acted;
    assert acted["complete"] == Bool(true);
    SingleCallback(EvaluateCallback(env), acted);
    var evaluated := EvaluateResults(env, acted);
    if evaluated.Returned? {
      assert evaluated.ctx["complete"] == acted["complete"];
    }
  }

  /** A phase with a single callback is one step of it. */
  lemma SingleCallback(cb: Callback, c: Context)
    ensures ApplyAll([cb], c) == Step(cb, c)
  {
    assert [cb][..0] == [];
  }

  // ---------------------------------------------------------------------------
  // The agent object
  // ---------------------------------------------------------------------------

  class PocketAI {
    const env: Env
    const agentLoop: AgentLoop
    const browserManager: Browser.BrowserManager

    /** The loop holds exactly the agent's four callbacks, and between `with`
        blocks the manager holds no session. */
    ghost predicate Valid()
      reads this, agentLoop, browserManager
    {
      && agentLoop.PhaseLists() == AgentPhases(env, browserManager.browserType)
      && browserManager.show == env.show
      && browserManager.browser == null
    }

    /** `PocketAI(api_key)`: a loop with the configured limits, a manager for
        the configured browser, and one callback registered per phase. */
    constructor (env: Env, maxIterations: int, memorySize: int,
                 configuredType: Value, configuredHeadless: Value)
      ensures Valid()
      ensures fresh(agentLoop) && fresh(browserManager)
      ensures agentLoop.maxIterations == maxIterations && agentLoop.memorySize == memorySize
      ensures agentLoop.memory == [] && agentLoop.currentTask == None
      ensures browserManager.browserType == configuredType && browserManager.browser == null
    {
      this.env := env;
      var loop := new AgentLoop(maxIterations, memorySize);
      var manager := new Browser.BrowserManager(None, None, configuredType, configuredHeadless, env.show);
      var browserType := manager.browserType;
      loop.RegisterObserver(ObserveCallback(env, browserType));
      loop.RegisterJudge(JudgeCallback(env));
      loop.RegisterActor(ActCallback(env, browserType));
      loop.RegisterEvaluator(EvaluateCallback(env));
      agentLoop := loop;
      browserManager := manager;
    }

    /** `run(task, initial_context)`: the engine's run over the agent's
        callbacks. It terminates within the budget, and afterwards the
        manager holds no session. */
    method Run(task: string, initialContext: Context, clock: nat -> int) returns (r: Context)
      requires Valid()
      modifies agentLoop`memory, agentLoop`currentTask
      ensures Valid()
      ensures browserManager.browser == null
      ensures "iterations" in r && r["iterations"].Int? && 0 <= r["iterations"].i
      ensures RunOutcome(AgentPhases(env, browserManager.browserType), agentLoop.memorySize, Some(task), clock,
                         State(Start(initialContext, task), old(agentLoop.memory)), agentLoop.maxIterations,
                         State(r, agentLoop.memory), r["iterations"].i)
    {
      AgentKeepsReserved(env, browserManager.browserType);
      r := agentLoop.Run(task, initialContext, clock);
    }

    /** One `with self.browser_manager as browser:` block on the manager
        itself: `__enter__` starts a session (or raises), the body performs
        `step` and reads the page, and `__exit__` closes the session whether
        or not the body raised. What the block yields is `BrowserBlock`, and
        the slot is empty again afterwards. */
    method Block(step: BrowserStep) returns (r: Result<string>)
      requires Valid()
      modifies browserManager
      ensures Valid()
      ensures r == BrowserBlock(env, browserManager.browserType, step)
    {
      var session := browserManager.Enter(env.launchError);
      if session.Failure? {
        // `__exit__` does not run when `__enter__` raises
        return Failure(session.error);
      }
      if env.stepError(step).Some? {
        r := Failure(env.stepError(step).value);
      } else {
        r := Success(env.pageContent(step));
      }
      browserManager.Exit();
    }
  }
}
