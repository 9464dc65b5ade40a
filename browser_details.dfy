/**
 * The BrowserDetails Rack middleware: it composes a one-line description of
 * the client's browser and of whether the client ran JavaScript, logs that
 * line when it is non-empty, and hands the request on to the wrapped
 * application untouched.
 */
module BrowserDetails {
  import opened RubyText

  /** The five fields the middleware reads from a parsed User-Agent. */
  datatype Agent = Agent(
    browser: Option<string>,
    mobile: bool,
    version: Option<string>,
    platform: Option<string>,
    os: Option<string>)

  /**
   * What the middleware reads from a Rack request: the raw User-Agent header
   * (nil when the header is missing), the merged query and form parameters
   * (a key sent without `=`, as in `?utf8`, is stored with a nil value), and
   * whether the request declares itself an XMLHttpRequest.
   */
  datatype Request = Request(userAgent: Option<string>, params: map<string, Option<string>>, xhr: bool)

  /** `request[name]`: nil when the key was not sent or was sent without a value. */
  function Param(req: Request, name: string): Option<string>
  {
    if name in req.params then req.params[name] else None
  }

  /** The value Rails puts in its hidden `utf8` field: U+2713 CHECK MARK. */
  const Checkmark: string := "\U{2713}"
  const JsDisabled: string := "JS disabled"
  const JsEnabled: string := "JS enabled"
  const FragmentSeparator: string := ", "

  // ---------------------------------------------------------------------
  // Specification of the message, written as plain concatenation

  /** "browser [Mobile ]version (platform, os)", nil fields rendered empty. */
  function BrowserFragment(a: Agent): string
  {
    Text(a.browser) + (if a.mobile then " Mobile " else " ") + Text(a.version)
      + " (" + Text(a.platform) + ", " + Text(a.os) + ")"
  }

  /**
   * The scripting-status fragment: an unchanged checkmark means the form was
   * submitted without script; any other value, or an XHR, means script ran.
   */
  function ScriptingStatus(utf8: Option<string>, xhr: bool): Option<string>
  {
    if utf8 == Some(Checkmark) then Some(JsDisabled)
    else if utf8.Some? || xhr then Some(JsEnabled)
    else None
  }

  /** The whole message for the three inputs it depends on. */
  function Describe(userAgent: Option<string>, utf8: Option<string>, xhr: bool,
                    parse: string -> Agent): string
  {
    match (userAgent, ScriptingStatus(utf8, xhr))
    case (Some(ua), Some(s)) => BrowserFragment(parse(ua)) + FragmentSeparator + s
    case (Some(ua), None) => BrowserFragment(parse(ua))
    case (None, Some(s)) => s
    case (None, None) => ""
  }

  // ---------------------------------------------------------------------
  // Properties of the message

  /** The three scripting outcomes, each characterised by the inputs alone. */
  lemma ScriptingStatusPriority(utf8: Option<string>, xhr: bool)
    ensures ScriptingStatus(utf8, xhr) == Some(JsDisabled) <==> utf8 == Some(Checkmark)
    ensures ScriptingStatus(utf8, xhr) == Some(JsEnabled) <==>
      (utf8.Some? && utf8.value != Checkmark) || (utf8.None? && xhr)
    ensures ScriptingStatus(utf8, xhr) == None <==> utf8.None? && !xhr
  {
  }

  /** Nothing is described exactly when there is no header, no `utf8` and no XHR. */
  lemma EmptyMessageIff(userAgent: Option<string>, utf8: Option<string>, xhr: bool,
                        parse: string -> Agent)
    ensures Describe(userAgent, utf8, xhr, parse) == "" <==>
      userAgent.None? && utf8.None? && !xhr
  {
  }

  /**
   * With a header present the message opens with the browser fragment, and
   * the status fragment, if any, follows after a comma and a space. This is
   * the two header cases of `Describe` stated as one equation.
   */
  lemma BrowserFragmentLeads(userAgent: Option<string>, utf8: Option<string>, xhr: bool,
                             parse: string -> Agent)
    requires userAgent.Some?
    ensures var status := ScriptingStatus(utf8, xhr);
      Describe(userAgent, utf8, xhr, parse) ==
        BrowserFragment(parse(userAgent.value)) + (if status.Some? then FragmentSeparator + status.value else "")
  {
  }

  /** A status fragment, when there is one, is the last thing in the message. */
  lemma StatusFragmentTrails(userAgent: Option<string>, utf8: Option<string>, xhr: bool,
                             parse: string -> Agent)
    requires ScriptingStatus(utf8, xhr).Some?
    ensures var s := ScriptingStatus(utf8, xhr).value;
      var d := Describe(userAgent, utf8, xhr, parse);
      |s| <= |d| && d[|d| - |s|..] == s
  {
  }

  /**
   * Flagging the agent as mobile inserts " Mobile" right after the browser
   * name and changes nothing else.
   */
  lemma MobileFollowsBrowser(a: Agent)
    ensures var n := |Text(a.browser)|;
      var desktop := BrowserFragment(a.(mobile := false));
      n <= |desktop| &&
      BrowserFragment(a.(mobile := true)) == desktop[..n] + " Mobile" + desktop[n..]
  {
  }

  // ---------------------------------------------------------------------
  // The message builder, step by step as the middleware does it

  /** The agent's tokens joined by single spaces spell the browser fragment. */
  lemma AgentDetailsJoin(a: Agent, details: seq<string>)
    requires details == [Text(a.browser)] + (if a.mobile then ["Mobile"] else [])
      + [Text(a.version), "(" + Text(a.platform) + ", " + Text(a.os) + ")"]
    ensures Join(details, " ") == BrowserFragment(a)
  {
    var pair := "(" + Text(a.platform) + ", " + Text(a.os) + ")";
    var head := [Text(a.browser)] + (if a.mobile then ["Mobile"] else []);
    if a.mobile {
      JoinSnoc([Text(a.browser)], "Mobile", " ");
    }
    JoinSnoc(head, Text(a.version), " ");
    assert head + [Text(a.version)] + [pair] == details;
    JoinSnoc(head + [Text(a.version)], pair, " ");
  }

  /**
   * `BrowserDetails.message(request)`: collects the fragments in an array
   * and joins them. `parse` stands for `UserAgent.parse`.
   */
  method Message(req: Request, parse: string -> Agent) returns (m: string)
    ensures m == Describe(req.userAgent, Param(req, "utf8"), req.xhr, parse)
  {
    var message: seq<string> := [];

    if req.userAgent.Some? {
      var agent := parse(req.userAgent.value);

      var agentDetails: seq<string> := [Text(agent.browser)];
      if agent.mobile {
        agentDetails := agentDetails + ["Mobile"];
      }
      agentDetails := agentDetails + [Text(agent.version)];
      agentDetails := agentDetails + ["(" + Text(agent.platform) + ", " + Text(agent.os) + ")"];
      AgentDetailsJoin(agent, agentDetails);

      message := message + [Join(agentDetails, " ")];
    }
    ghost var browserPart := message;

    var utf8 := Param(req, "utf8");
    if utf8.Some? && utf8.value == Checkmark {
      message := message + [JsDisabled];
    } else if utf8.Some? || req.xhr {
      message := message + [JsEnabled];
    }

    if browserPart != [] && message != browserPart {
      JoinSnoc(browserPart, message[1], FragmentSeparator);
      assert message == browserPart + [message[1]];
    }
    m := Join(message, FragmentSeparator);
  }

  /**
   * Two runs of the message builder on the same request agree. This follows
   * from the contract of `Message`, which already makes the line a function
   * of the header, the `utf8` parameter and the XHR flag alone.
   */
  method MessageIsRepeatable(req: Request, parse: string -> Agent) returns (first: string, second: string)
    ensures first == second
  {
    first := Message(req, parse);
    second := Message(req, parse);
  }

  // ---------------------------------------------------------------------
  // The middleware object

  /**
   * One `BrowserDetails` instance wrapping `app`. `view` stands for
   * `Rack::Request.new`, `parse` for `UserAgent.parse`, and `log` is the
   * trace of every line handed to the logger.
   */
  class Middleware<Env, Response> {
    const app: Env -> Response
    const view: Env -> Request
    const parse: string -> Agent
    var log: seq<string>

    constructor (app: Env -> Response, view: Env -> Request, parse: string -> Agent)
      ensures this.app == app && this.view == view && this.parse == parse
      ensures log == []
    {
      this.app := app;
      this.view := view;
      this.parse := parse;
      log := [];
    }

    /** The line `Call` computes for `env`. */
    function MessageFor(env: Env): string
    {
      var req := view(env);
      Describe(req.userAgent, Param(req, "utf8"), req.xhr, parse)
    }

    /**
     * `call(env)`: log the message when it is non-empty, then return what
     * the wrapped application returns for the very same `env`.
     */
    method Call(env: Env) returns (r: Response)
      modifies this
      ensures r == app(env)
      ensures log == old(log) + (if MessageFor(env) == "" then [] else [MessageFor(env)])
      ensures |log| == |old(log)| + 1 <==> MessageFor(env) != ""
      ensures log != old(log) <==>
        var req := view(env); req.userAgent.Some? || Param(req, "utf8").Some? || req.xhr
    {
      var request := view(env);
      var message := Message(request, parse);
      EmptyMessageIff(request.userAgent, Param(request, "utf8"), request.xhr, parse);

      if message != "" {
        log := log + [message];
      }

      r := app(env);
    }
  }
}
