/** The browser manager: a slot that holds no session or one session, filled
    lazily from the configured backend and emptied on close or at the end
    of a `with` block. The backends themselves are foreign libraries; a
    session here records only what the manager decides about it. */
module Browser {
  import opened Values

  /** The two supported backends. */
  predicate Supported(browserType: Value) {
    browserType == Str("playwright") || browserType == Str("selenium")
  }

  /** The exception `create_browser` raises, if any: a ValueError naming an
      unsupported type, otherwise whatever the backend raised while starting
      (`launchError`). */
  function CreateError(browserType: Value, launchError: Option<string>, show: Value -> string): Option<string> {
    if Supported(browserType) then launchError
    else Some("Unsupported browser type: " + Format(browserType, show))
  }

  /** One started browser session of a backend. */
  class Session {
    const kind: string
    const headless: Value
    var closeCount: nat

    constructor (kind: string, headless: Value)
      ensures this.kind == kind && this.headless == headless && closeCount == 0
    {
      this.kind := kind;
      this.headless := headless;
      closeCount := 0;
    }

    /** `close()`; a backend failure while closing is logged and swallowed. */
    method Close()
      modifies this
      ensures closeCount == old(closeCount) + 1
    {
      closeCount := closeCount + 1;
    }
  }

  class BrowserManager {
    const browserType: Value
    const headless: Value
    /** `str()` of a non-scalar configured type, for the error message. */
    const show: Value -> string
    var browser: Session?

    /** `BrowserManager(browser_type, headless)`; `configuredType` and
        `configuredHeadless` are what `get_config` gives for "browser.type"
        and "browser.headless". An empty or missing type falls back to the
        configured one; `headless` falls back only when missing, so an
        explicit false is kept. No session is held yet. */
    constructor (browserType: Option<string>, headless: Option<bool>,
                 configuredType: Value, configuredHeadless: Value, show: Value -> string)
      ensures this.browserType ==
              (if browserType.Some? && browserType.value != "" then Str(browserType.value) else configuredType)
      ensures this.headless == (if headless.Some? then Bool(headless.value) else configuredHeadless)
      ensures this.show == show
      ensures browser == null
    {
      this.browserType :=
        if browserType.Some? && browserType.value != "" then Str(browserType.value) else configuredType;
      this.headless := if headless.Some? then Bool(headless.value) else configuredHeadless;
      this.show := show;
      browser := null;
    }

    /** `create_browser()`: a fresh session of the configured backend, or the
        exception it raises. The slot is not touched. */
    method CreateBrowser(launchError: Option<string>) returns (r: Result<Session>)
      ensures r.Failure? <==> CreateError(browserType, launchError, show).Some?
      ensures r.Failure? ==> r.error == CreateError(browserType, launchError, show).value
      ensures r.Success? ==> fresh(r.value) && Str(r.value.kind) == browserType &&
                             r.value.headless == headless && r.value.closeCount == 0
    {
      if browserType == Str("playwright") {
        if launchError.Some? {
          return Failure(launchError.value);
        }
        var s := new Session("playwright", headless);
        return Success(s);
      } else if browserType == Str("selenium") {
        if launchError.Some? {
          return Failure(launchError.value);
        }
        var s := new Session("selenium", headless);
        return Success(s);
      } else {
        return Failure("Unsupported browser type: " + Format(browserType, show));
      }
    }

    /** `get_browser()`: the held session, or a newly created one that is
        then held. A failed creation leaves the slot empty. */
    method GetBrowser(launchError: Option<string>) returns (r: Result<Session>)
      modifies this
      ensures old(browser) != null ==> r.Success? && r.value == old(browser) && browser == old(browser)
      ensures old(browser) == null && r.Success? ==>
                fresh(r.value) && browser == r.value && r.value.closeCount == 0
      ensures old(browser) == null ==>
                (r.Failure? <==> CreateError(browserType, launchError, show).Some?)
      ensures old(browser) == null && r.Failure? ==>
                browser == null && r.error == CreateError(browserType, launchError, show).value
    {
      if browser == null {
        var created := CreateBrowser(launchError);
        if created.Failure? {
          return created;
        }
        browser := created.value;
      }
      r := Success(browser);
    }

    /** `close_browser()`: nothing when the slot is empty; otherwise the held
        session is closed once and the slot emptied. */
    method CloseBrowser()
      modifies this, browser
      ensures browser == null
      ensures old(browser) != null ==> old(browser).closeCount == old(browser.closeCount) + 1
    {
      if browser != null {
        browser.Close();
        browser := null;
      }
    }

    /** `__enter__`. */
    method Enter(launchError: Option<string>) returns (r: Result<Session>)
      modifies this
      ensures old(browser) != null ==> r.Success? && r.value == old(browser) && browser == old(browser)
      ensures old(browser) == null && r.Success? ==>
                fresh(r.value) && browser == r.value && r.value.closeCount == 0
      ensures old(browser) == null ==>
                (r.Failure? <==> CreateError(browserType, launchError, show).Some?)
      ensures old(browser) == null && r.Failure? ==>
                browser == null && r.error == CreateError(browserType, launchError, show).value
    {
      r := GetBrowser(launchError);
    }

    /** `__exit__`. */
    method Exit()
      modifies this, browser
      ensures browser == null
      ensures old(browser) != null ==> old(browser).closeCount == old(browser.closeCount) + 1
    {
      CloseBrowser();
    }

    /** A `with manager as browser:` block around a body that does not touch
        the manager: afterwards the slot is empty. Starting from an empty
        slot, the body was handed a fresh session, closed exactly once. When
        `__enter__` raises, `__exit__` does not run and the slot stays empty. */
    method Scoped(launchError: Option<string>) returns (r: Result<Session>)
      modifies this, browser
      ensures browser == null
      ensures old(browser) == null && r.Success? ==> fresh(r.value) && r.value.closeCount == 1
      ensures old(browser) == null ==>
                (r.Failure? <==> CreateError(browserType, launchError, show).Some?)
      ensures old(browser) != null ==> r.Success? && r.value == old(browser) &&
                                       old(browser).closeCount == old(browser.closeCount) + 1
    {
      r := Enter(launchError);
      if r.Success? {
        // the body runs here
        Exit();
      }
    }

    /** Two `with` blocks in a row from an empty slot are handed two
        different sessions: every block starts a session of its own. */
    method ConsecutiveScopes(launchError: Option<string>) returns (first: Result<Session>, second: Result<Session>)
      requires browser == null
      modifies this
      ensures browser == null
      ensures first.Success? && second.Success? ==> first.value != second.value
      ensures first.Success? <==> CreateError(browserType, launchError, show).None?
      ensures second.Success? <==> CreateError(browserType, launchError, show).None?
    {
      first := Scoped(launchError);
      second := Scoped(launchError);
    }
  }
}
