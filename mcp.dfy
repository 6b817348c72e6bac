/** The example Lighthouse tool server (backend/mcp_servers/example_lighthouse_mcp.py):
    a table of three tools filled at construction, its listing, and dispatch
    by name with the handler's failures turned into error responses. What
    the Lighthouse agent returns or raises inside a handler is an input. */
module Mcp {
  import opened Wrappers
  import opened Measurements

  /** One entry of a tool's `parameters` dictionary. */
  datatype Parameter = Parameter(
    name: string, kind: string, description: string, required: bool, choices: seq<string>, defaults: seq<string>)

  /** Which bound method a tool dispatches to. */
  datatype Handler = RunAudit | GetWebVitals | AnalyzePerformance

  datatype Tool = Tool(name: string, description: string, parameters: seq<Parameter>, handler: Handler)

  /** What `list_tools` shows of a tool. */
  datatype ToolInfo = ToolInfo(name: string, description: string, parameters: seq<Parameter>)

  const DefaultCategories: seq<string> := ["performance", "accessibility", "best-practices", "seo"]

  function UrlParameter(description: string): Parameter {
    Parameter("url", "string", description, true, [], [])
  }

  const AuditTool: Tool := Tool(
    "run_lighthouse_audit", "Run a comprehensive Lighthouse performance audit on a URL",
    [UrlParameter("The URL to audit"),
     Parameter("device", "string", "Device type for emulation", false, ["desktop", "mobile"], ["desktop"]),
     Parameter("categories", "array", "Lighthouse categories to test", false, [], DefaultCategories)],
    RunAudit)

  const VitalsTool: Tool := Tool(
    "get_web_vitals", "Extract Core Web Vitals metrics (FCP, LCP, CLS, etc.)",
    [UrlParameter("The URL to measure")], GetWebVitals)

  const AnalyzeTool: Tool := Tool(
    "analyze_performance", "Get AI-powered performance recommendations based on Lighthouse results",
    [UrlParameter("The URL to analyze")], AnalyzePerformance)

  /** One keyword argument: one of the three parameter names with its value,
      or a keyword under any other name. */
  datatype Keyword = Url(url: string) | Device(device: string) | Categories(categories: seq<string>) | Other(name: string)

  /** The keyword arguments `execute_tool` passes on, in the caller's order. */
  type Arguments = seq<Keyword>

  function KeywordName(k: Keyword): string {
    match k
    case Url(_) => "url"
    case Device(_) => "device"
    case Categories(_) => "categories"
    case Other(name) => name
  }

  /** The value of the first keyword of each kind; None when it is not passed. */
  function UrlArg(args: Arguments): Option<string>
    decreases |args|
  {
    if args == [] then None else if args[0].Url? then Some(args[0].url) else UrlArg(args[1..])
  }

  function DeviceArg(args: Arguments): Option<string>
    decreases |args|
  {
    if args == [] then None else if args[0].Device? then Some(args[0].device) else DeviceArg(args[1..])
  }

  /** The dictionaries `execute_tool` returns. */
  datatype Response =
    | Audit(url: string, device: string, result: ToolData)
    | WebVitals(url: string, fcp: Option<real>, lcp: Option<real>, cls: Option<real>, ttfb: Option<real>)
    | Recommendations(url: string, suggestions: seq<Suggestion>, scores: Metrics)
    | HandlerReported(tool: string, url: string, failure: Option<string>)
    | UnknownTool(error: string, availableTools: seq<string>)
    | HandlerRaised(error: string, tool: string)
    | CallRaised(error: string)  // `execute_tool`'s own call fails; nothing is returned

  /** The categories an audit runs with: the default four when omitted. */
  function EffectiveCategories(categories: Option<seq<string>>): (r: seq<string>)
    ensures categories.None? ==> r == ["performance", "accessibility", "best-practices", "seo"]
    ensures categories.Some? ==> r == categories.value
  {
    categories.GetOr(DefaultCategories)
  }

  /** `metrics.get(key)`: None for a missing key. */
  function Lookup(m: Metrics, key: string): (r: Option<real>)
    ensures r.Some? <==> key in m
    ensures r.Some? ==> r.value == m[key]
  {
    if key in m then Some(m[key]) else None
  }

  function MethodName(h: Handler): string {
    match h
    case RunAudit => "_run_lighthouse_audit"
    case GetWebVitals => "_get_web_vitals"
    case AnalyzePerformance => "_analyze_performance"
  }

  /** Why one keyword does not bind to the handler's parameters (`url`, and
      for the audit `device` and `categories`), or None when it does: any
      other name is unexpected. */
  function KeywordFault(h: Handler, k: Keyword): (r: Option<string>)
    ensures r.None? <==> k.Url? || (h == RunAudit && (k.Device? || k.Categories?))
  {
    match k
    case Url(_) => None
    case Other(name) => Some(Unexpected(name))
    case _ => if h == RunAudit then None else Some(Unexpected(KeywordName(k)))
  }

  /** The parts of the TypeError texts, after the method's qualified name. */
  function Unexpected(name: string): string {
    " got an unexpected keyword argument '" + name + "'"
  }

  function MultipleValues(name: string): string {
    " got multiple values for argument '" + name + "'"
  }

  const MissingUrl: string := " missing 1 required positional argument: 'url'"

  /** The qualified name with which a TypeError names the handler. */
  function Qualified(h: Handler): string {
    "LighthouseMCPServer." + MethodName(h) + "()"
  }

  /** The fault of the first keyword, in the caller's order, that does not bind. */
  function FirstFault(h: Handler, args: Arguments): Option<string>
    decreases |args|
  {
    if args == [] then None
    else if KeywordFault(h, args[0]).Some? then KeywordFault(h, args[0])
    else FirstFault(h, args[1..])
  }

  /** There is a fault exactly when some keyword does not bind, and it is
      that of the first such keyword. */
  lemma {:induction false} FirstFaultSpec(h: Handler, args: Arguments)
    ensures FirstFault(h, args).None? <==> forall i :: 0 <= i < |args| ==> KeywordFault(h, args[i]).None?
    ensures FirstFault(h, args).Some? ==>
      exists i :: 0 <= i < |args| && FirstFault(h, args) == KeywordFault(h, args[i]) &&
                  forall j :: 0 <= j < i ==> KeywordFault(h, args[j]).None?
    decreases |args|
  {
    if args != [] && KeywordFault(h, args[0]).None? {
      var r := FirstFault(h, args[1..]);
      FirstFaultSpec(h, args[1..]);
      assert forall i :: 1 <= i < |args| ==> args[i] == args[1..][i - 1];
      if r.Some? {
        var i :| 0 <= i < |args[1..]| && r == KeywordFault(h, args[1..][i]) &&
                 forall j :: 0 <= j < i ==> KeywordFault(h, args[1..][j]).None?;
        assert r == KeywordFault(h, args[i + 1]);
      }
    }
  }

  /** The TypeError raised when the arguments do not fit the handler: the
      first keyword that does not bind is reported, and only then a missing URL. */
  function BindingError(h: Handler, args: Arguments): (r: Option<string>)
    ensures r.None? <==> UrlArg(args).Some? && forall i :: 0 <= i < |args| ==> KeywordFault(h, args[i]).None?
    ensures FirstFault(h, args).Some? ==> r == Some(Qualified(h) + FirstFault(h, args).value)
  {
    FirstFaultSpec(h, args);
    match FirstFault(h, args)
    case Some(fault) => Some(Qualified(h) + fault)
    case None => if UrlArg(args).None? then Some(Qualified(h) + MissingUrl) else None
  }

  /** The first offending keyword is named, whichever it is: a web-vitals
      call given categories before device, or an unknown name before any
      other, reports that one; and a call whose keywords all bind but that
      gives no URL reports the missing URL. */
  lemma FirstUnexpectedNamed(url: string, device: string, categories: seq<string>)
    ensures BindingError(GetWebVitals, [Url(url), Categories(categories), Device(device)])
         == Some(Qualified(GetWebVitals) + Unexpected("categories"))
    ensures BindingError(RunAudit, [Device(device), Other("verbose"), Url(url)])
         == Some(Qualified(RunAudit) + Unexpected("verbose"))
    ensures BindingError(RunAudit, [Device(device), Categories(categories)]) == Some(Qualified(RunAudit) + MissingUrl)
  {
    var a := [Url(url), Categories(categories), Device(device)];
    assert FirstFault(GetWebVitals, a) == FirstFault(GetWebVitals, a[1..]);
    var b := [Device(device), Other("verbose"), Url(url)];
    assert FirstFault(RunAudit, b) == FirstFault(RunAudit, b[1..]);
    var c := [Device(device), Categories(categories)];
    assert c[1..][1..] == [];
    assert FirstFault(RunAudit, c) == FirstFault(RunAudit, c[1..]) == FirstFault(RunAudit, c[1..][1..]) == None;
    assert UrlArg(c) == UrlArg(c[1..]) == UrlArg(c[1..][1..]) == None;
  }

  /** The handler's answer once its arguments bound; `call` is what
      `LighthouseAgent.analyze` returned or raised. */
  function RunHandler(h: Handler, url: string, args: Arguments, call: CallOutcome<ToolData>, toolName: string): Response {
    match call
    case Raised(e) => HandlerRaised(e, toolName)
    case Returned(result) =>
      match h
      case RunAudit => Audit(url, DeviceArg(args).GetOr("desktop"), result)
      case GetWebVitals =>
        if result.success then
          WebVitals(url, Lookup(result.metrics, "fcp"), Lookup(result.metrics, "lcp"), Lookup(result.metrics, "cls"),
                    Lookup(result.metrics, "ttfb"))
        else HandlerReported("get_web_vitals", url, result.error)
      case AnalyzePerformance =>
        if result.success then Recommendations(url, result.suggestions, result.scores)
        else HandlerReported("analyze_performance", url, result.error)
  }

  function Names(tools: seq<Tool>): (r: seq<string>)
    ensures |r| == |tools| && forall i :: 0 <= i < |tools| ==> r[i] == tools[i].name
  {
    seq(|tools|, i requires 0 <= i < |tools| => tools[i].name)
  }

  /** The position of the first tool with that name. */
  function Find(tools: seq<Tool>, name: string): (r: Option<nat>)
    ensures r.None? <==> name !in Names(tools)
    ensures r.Some? ==> r.value < |tools| && tools[r.value].name == name &&
                        forall j :: 0 <= j < r.value ==> tools[j].name != name
    decreases |tools|
  {
    if tools == [] then None
    else if tools[0].name == name then Some(0)
    else
      var r := Find(tools[1..], name);
      assert Names(tools) == [tools[0].name] + Names(tools[1..]);
      if r.None? then None else Some(r.value + 1)
  }

  /** The names `execute_tool` binds itself: a keyword with one of them
      makes its own call fail before any tool is looked up. */
  predicate Reserved(k: Keyword) {
    k.Other? && (k.name == "self" || k.name == "tool_name")
  }

  /** The name of the first reserved keyword, in the caller's order. */
  function FirstReserved(args: Arguments): Option<string>
    decreases |args|
  {
    if args == [] then None
    else if Reserved(args[0]) then Some(args[0].name)
    else FirstReserved(args[1..])
  }

  /** There is a reserved keyword exactly when some keyword is reserved, and
      the one named is the first of them. */
  lemma {:induction false} FirstReservedSpec(args: Arguments)
    ensures FirstReserved(args).None? <==> forall i :: 0 <= i < |args| ==> !Reserved(args[i])
    ensures FirstReserved(args).Some? ==>
      exists i :: 0 <= i < |args| && Reserved(args[i]) && FirstReserved(args).value == args[i].name &&
                  forall j :: 0 <= j < i ==> !Reserved(args[j])
    decreases |args|
  {
    if args != [] && !Reserved(args[0]) {
      FirstReservedSpec(args[1..]);
      assert forall i :: 1 <= i < |args| ==> args[i] == args[1..][i - 1];
      if FirstReserved(args[1..]).Some? {
        var i :| 0 <= i < |args[1..]| && Reserved(args[1..][i]) && FirstReserved(args[1..]).value == args[1..][i].name &&
                 forall j :: 0 <= j < i ==> !Reserved(args[1..][j]);
        assert args[i + 1] == args[1..][i];
      }
    }
  }

  const ExecuteQualified: string := "LighthouseMCPServer.execute_tool()"

  /** `execute_tool` over a tool table: a reserved keyword makes the call
      itself raise; otherwise an unknown name is answered with the tool
      list, a failed binding or a raising handler with its text, and bound
      arguments with the first matching tool's answer. */
  function Execute(tools: seq<Tool>, name: string, args: Arguments, call: CallOutcome<ToolData>): (r: Response)
    ensures FirstReserved(args).Some? ==> r == CallRaised(ExecuteQualified + MultipleValues(FirstReserved(args).value))
    ensures FirstReserved(args).None? ==> (name !in Names(tools) <==> r.UnknownTool?)
    ensures r.UnknownTool? ==> r == UnknownTool("Tool '" + name + "' not found", Names(tools))
    ensures var i := Find(tools, name);
      FirstReserved(args).None? && i.Some? && BindingError(tools[i.value].handler, args).Some? ==>
        r == HandlerRaised(BindingError(tools[i.value].handler, args).value, name)
    ensures var i := Find(tools, name);
      FirstReserved(args).None? && i.Some? && BindingError(tools[i.value].handler, args).None? ==>
        r == RunHandler(tools[i.value].handler, UrlArg(args).value, args, call, name)
    ensures var i := Find(tools, name);
      FirstReserved(args).None? && i.Some? && BindingError(tools[i.value].handler, args).None? && call.Raised? ==>
        r == HandlerRaised(call.message, name)
  {
    if FirstReserved(args).Some? then CallRaised(ExecuteQualified + MultipleValues(FirstReserved(args).value))
    else
      match Find(tools, name)
      case None => UnknownTool("Tool '" + name + "' not found", Names(tools))
      case Some(i) =>
        var h := tools[i].handler;
        match BindingError(h, args)
        case Some(e) => HandlerRaised(e, name)
        case None => RunHandler(h, UrlArg(args).value, args, call, name)
  }

  /** A `self` or `tool_name` keyword makes the call itself fail, naming the
      first of them, whatever the tool; no error dictionary comes back. */
  lemma ReservedKeywordsRaise(url: string, call: CallOutcome<ToolData>)
    ensures Execute(Registered(), "analyze_performance", [Other("self"), Url(url)], call)
         == CallRaised(ExecuteQualified + MultipleValues("self"))
    ensures Execute(Registered(), "get_web_vitals", [Url(url), Other("tool_name"), Other("self")], call)
         == CallRaised(ExecuteQualified + MultipleValues("tool_name"))
    ensures Execute(Registered(), "no_such_tool", [Other("tool_name")], call)
         == CallRaised(ExecuteQualified + MultipleValues("tool_name"))
  {
    var b := [Url(url), Other("tool_name"), Other("self")];
    assert FirstReserved(b) == FirstReserved(b[1..]);
  }

  /** On a successful analysis the web-vitals tool answers with exactly the
      four metrics, each missing one as None; on a failed one, with the
      analysis error. */
  lemma WebVitalsProjection(tools: seq<Tool>, url: string, result: ToolData)
    requires tools == Registered()
    ensures var r := Execute(tools, "get_web_vitals", [Url(url)], Returned(result));
      (result.success ==> r == WebVitals(url, Lookup(result.metrics, "fcp"), Lookup(result.metrics, "lcp"),
                                         Lookup(result.metrics, "cls"), Lookup(result.metrics, "ttfb"))) &&
      (!result.success ==> r == HandlerReported("get_web_vitals", url, result.error))
  {
    assert FirstReserved([Url(url)]) == FirstReserved([]);
    assert Find(tools, "get_web_vitals") == Some(1);
  }

  /** On a successful analysis the analysis tool answers with its
      suggestions and scores; on a failed one, with the analysis error. */
  lemma AnalysisProjection(tools: seq<Tool>, url: string, result: ToolData)
    requires tools == Registered()
    ensures var r := Execute(tools, "analyze_performance", [Url(url)], Returned(result));
      (result.success ==> r == Recommendations(url, result.suggestions, result.scores)) &&
      (!result.success ==> r == HandlerReported("analyze_performance", url, result.error))
  {
    assert FirstReserved([Url(url)]) == FirstReserved([]);
    assert Find(tools, "analyze_performance") == Some(2);
  }

  /** The audit tool echoes the URL, the device (desktop when omitted) and
      the analysis result, whatever categories were asked for, as long as
      every keyword is one of its parameters. */
  lemma AuditEchoes(args: Arguments, result: ToolData)
    requires UrlArg(args).Some?
    requires forall k :: k in args ==> !k.Other?
    ensures Execute(Registered(), "run_lighthouse_audit", args, Returned(result))
         == Audit(UrlArg(args).value, DeviceArg(args).GetOr("desktop"), result)
  {
    assert BindingError(RunAudit, args).None? by {
      forall i | 0 <= i < |args|
        ensures KeywordFault(RunAudit, args[i]).None?
      {
        assert args[i] in args;
      }
      FirstFaultSpec(RunAudit, args);
    }
    assert FirstReserved(args).None? by {
      forall i | 0 <= i < |args|
        ensures !Reserved(args[i])
      {
        assert args[i] in args;
      }
      FirstReservedSpec(args);
    }
    RegisteredDispatch();
  }

  /** The table `_register_tools` builds. */
  function Registered(): (r: seq<Tool>)
    ensures Names(r) == ["run_lighthouse_audit", "get_web_vitals", "analyze_performance"]
  {
    [AuditTool, VitalsTool, AnalyzeTool]
  }

  /** Each registered name dispatches to its own handler. */
  lemma RegisteredDispatch()
    ensures Find(Registered(), "run_lighthouse_audit") == Some(0) && Registered()[0].handler == RunAudit
    ensures Find(Registered(), "get_web_vitals") == Some(1) && Registered()[1].handler == GetWebVitals
    ensures Find(Registered(), "analyze_performance") == Some(2) && Registered()[2].handler == AnalyzePerformance
  {
  }

  const DefaultHost: string := "localhost"
  const DefaultPort: int := 8001

  class LighthouseMcpServer {
    var host: string
    var port: int
    var tools: seq<Tool>

    constructor (host: string, port: int)
      ensures this.host == host && this.port == port && tools == Registered()
    {
      this.host := host;
      this.port := port;
      tools := [];
      new;
      RegisterTools();
    }

    /** `_register_tools`: appends the three tools in order. */
    method RegisterTools()
      modifies this
      ensures tools == old(tools) + Registered()
      ensures host == old(host) && port == old(port)
    {
      tools := tools + [AuditTool];
      tools := tools + [VitalsTool];
      tools := tools + [AnalyzeTool];
    }

    /** `list_tools`: every tool in registration order, without its handler. */
    function ListTools(): (r: seq<ToolInfo>)
      reads this
      ensures |r| == |tools|
      ensures forall i :: 0 <= i < |tools| ==>
        r[i] == ToolInfo(tools[i].name, tools[i].description, tools[i].parameters)
    {
      seq(|tools|, i reads this requires 0 <= i < |tools| => ToolInfo(tools[i].name, tools[i].description, tools[i].parameters))
    }

    function ExecuteTool(name: string, args: Arguments, call: CallOutcome<ToolData>): Response
      reads this
    {
      Execute(tools, name, args, call)
    }
  }
}
