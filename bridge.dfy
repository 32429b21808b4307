/**
 * The MCP-to-Gemini bridge object: it converts the tools that the MCP
 * client and the internal tool set list into Gemini function declarations,
 * keeps a registry from function names to tools, dispatches Gemini function
 * calls back to the tools and keeps a history of the calls it made.
 *
 * The collaborators are outside the model. A tool listing is passed in as
 * what the listing call returned (None when the collaborator lacks the
 * listing method or the call raised). The outcome of calling a tool is
 * passed in as `Returned(value)` or `Raised(message)`. The optional smart
 * parameter handler is an opaque function from (tool name, server,
 * arguments, tool schema) to the arguments actually sent.
 */
module Bridge {
  import opened Json
  import opened Names
  import opened Schemas

  /** The dictionary the conversion loop builds for each listed tool. */
  datatype ToolRecord = ToolRecord(name: string, description: Json, server: Json, parameters: Json)

  datatype FunctionDeclaration = FunctionDeclaration(name: string, description: Message, parameters: Schema)

  datatype GeminiTool = GeminiTool(declarations: seq<FunctionDeclaration>)

  /** A registry entry; only the entry stored under the cleaned name carries `clean_name`. */
  datatype ToolEntry = ToolEntry(server: Json, tool: ToolRecord, mcpName: string, cleanName: Option<string>)

  /** Either a value, or the message of the exception that was raised instead. */
  datatype Outcome<+T> = Returned(value: T) | Raised(message: string)

  datatype FunctionCall = FunctionCall(name: Option<string>, args: Option<map<string, Json>>)

  datatype ExecutionResult = ExecutionResult(toolName: string, success: bool, result: Json, error: Option<string>)

  datatype Route = Internal | External

  /** The tool call the bridge makes: where it goes, which tool, with which arguments. */
  datatype Invocation = Invocation(route: Route, tool: string, arguments: map<string, Json>)

  /** The argument shapes the parameter handler learns about. */
  datatype FormatType = Wrapped | FastMcp | Direct | Unknown

  /** A failure reported back to the parameter handler (`record_success(..., success=False)`). */
  datatype Feedback = Feedback(server: Json, tool: string, format: FormatType)

  type Formatter = (string, Json, map<string, Json>, Json) -> map<string, Json>

  /** Everything one dispatch decides. */
  datatype Dispatched = Dispatched(
    result: ExecutionResult,
    recorded: bool,
    invocation: Option<Invocation>,
    feedback: Option<Feedback>)

  const InternalServer: Json := Str("aura-internal")

  // ---------------------------------------------------------------- listing

  /** The record built for one listed tool; internal tools take `parameters`, external ones `input_schema`. */
  function RecordOf(name: string, info: map<string, Json>, internal: bool): ToolRecord {
    ToolRecord(
      name,
      Get(info, "description", Str("")),
      if internal then InternalServer else Get(info, "server", Str("unknown")),
      Get(info, if internal then "parameters" else "input_schema", Obj(map[])))
  }

  /**
   * The records built from one listing, in listing order. A listed value
   * that is not a dictionary raises inside the loop; the records built
   * before it are kept and the rest of that listing is skipped.
   */
  function Records(listing: seq<(string, Json)>, internal: bool): (r: seq<ToolRecord>)
    ensures |r| <= |listing|
    ensures forall i :: 0 <= i < |r| ==> listing[i].1.Obj? && r[i] == RecordOf(listing[i].0, listing[i].1.fields, internal)
    ensures |r| < |listing| ==> !listing[|r|].1.Obj?
  {
    if |listing| == 0 || !listing[0].1.Obj? then []
    else [RecordOf(listing[0].0, listing[0].1.fields, internal)] + Records(listing[1..], internal)
  }

  /** All tools offered for conversion: the external ones first, then the internal ones. */
  function AvailableTools(external: Option<seq<(string, Json)>>, internal: Option<seq<(string, Json)>>): seq<ToolRecord> {
    (if external.Some? then Records(external.value, false) else [])
    + (if internal.Some? then Records(internal.value, true) else [])
  }

  // ------------------------------------------------------------- conversion

  /** The Gemini tool for one MCP tool. */
  function ConvertTool(t: ToolRecord): (g: GeminiTool)
    ensures |g.declarations| == 1
    ensures g.declarations[0].name == CleanName(t.name) && IsFunctionName(g.declarations[0].name)
    ensures g.declarations[0].parameters.typ == OBJECT
  {
    GeminiTool([FunctionDeclaration(
      CleanName(t.name),
      [Show(t.description), Lit(" (MCP tool: " + t.name + ")")],
      ConvertParameters(t.parameters))])
  }

  /** The declaration carries the tool's converted parameter description, and its description names the MCP tool. */
  lemma ConvertToolParameters(t: ToolRecord)
    ensures ConvertTool(t).declarations[0].parameters == ConvertParameters(t.parameters)
    ensures ConvertTool(t).declarations[0].description == [Show(t.description), Lit(" (MCP tool: " + t.name + ")")]
  {
  }

  function ConvertAll(tools: seq<ToolRecord>): (r: seq<GeminiTool>)
    ensures |r| == |tools|
    ensures forall i :: 0 <= i < |tools| ==> r[i] == ConvertTool(tools[i])
  {
    if tools == [] then [] else ConvertAll(tools[..|tools| - 1]) + [ConvertTool(tools[|tools| - 1])]
  }

  function CleanEntry(t: ToolRecord): ToolEntry {
    ToolEntry(t.server, t, t.name, Some(CleanName(t.name)))
  }

  function RawEntry(t: ToolRecord): ToolEntry {
    ToolEntry(t.server, t, t.name, None)
  }

  /** The two registry writes for one converted tool: the cleaned name first, then the raw name. */
  function RegisterOne(m: map<string, ToolEntry>, t: ToolRecord): (r: map<string, ToolEntry>)
    ensures r.Keys == m.Keys + {t.name, CleanName(t.name)}
    ensures r[t.name].mcpName == t.name && r[t.name].server == t.server && r[t.name].tool == t
    ensures r[CleanName(t.name)].mcpName == t.name && r[CleanName(t.name)].server == t.server
    ensures forall k :: k in m && k != t.name && k != CleanName(t.name) ==> r[k] == m[k]
  {
    m[CleanName(t.name) := CleanEntry(t)][t.name := RawEntry(t)]
  }

  /** The registry after converting `tools` in order. */
  function Register(m: map<string, ToolEntry>, tools: seq<ToolRecord>): map<string, ToolEntry> {
    if tools == [] then m else RegisterOne(Register(m, tools[..|tools| - 1]), tools[|tools| - 1])
  }

  /** The raw and cleaned names of the tools. */
  function NamesOf(tools: seq<ToolRecord>): set<string> {
    if tools == [] then {} else NamesOf(tools[..|tools| - 1]) + {tools[|tools| - 1].name, CleanName(tools[|tools| - 1].name)}
  }

  lemma {:induction false} NamesOfMembers(tools: seq<ToolRecord>, k: string)
    ensures k in NamesOf(tools) <==> exists i :: 0 <= i < |tools| && (k == tools[i].name || k == CleanName(tools[i].name))
  {
    if tools != [] {
      var n := |tools| - 1;
      NamesOfMembers(tools[..n], k);
      if k in NamesOf(tools[..n]) {
        var i :| 0 <= i < n && (k == tools[..n][i].name || k == CleanName(tools[..n][i].name));
        assert tools[..n][i] == tools[i];
      }
      if exists i :: 0 <= i < |tools| && (k == tools[i].name || k == CleanName(tools[i].name)) {
        var i :| 0 <= i < |tools| && (k == tools[i].name || k == CleanName(tools[i].name));
        if i < n {
          assert tools[..n][i] == tools[i];
        }
      }
    }
  }

  /** Registering only adds keys: the raw and the cleaned name of every tool. */
  lemma {:induction false} RegisterKeys(m: map<string, ToolEntry>, tools: seq<ToolRecord>)
    ensures Register(m, tools).Keys == m.Keys + NamesOf(tools)
  {
    if tools != [] {
      RegisterKeys(m, tools[..|tools| - 1]);
    }
  }

  /** No tool writes `k`. */
  ghost predicate Untouched(tools: seq<ToolRecord>, k: string) {
    forall j :: 0 <= j < |tools| ==> k != tools[j].name && k != CleanName(tools[j].name)
  }

  /** Entry `e` under `k` is tool `i`'s, and no later tool writes `k`. */
  ghost predicate WrittenBy(tools: seq<ToolRecord>, k: string, e: ToolEntry, i: int) {
    0 <= i < |tools| && (k == tools[i].name || k == CleanName(tools[i].name))
    && e.mcpName == tools[i].name && e.server == tools[i].server && e.tool == tools[i]
    && Untouched(tools[i + 1..], k)
  }

  /** A key the last tool does not write keeps the entry the earlier tools left. */
  lemma RegisterSkips(m: map<string, ToolEntry>, tools: seq<ToolRecord>, k: string)
    requires tools != [] && k in Register(m, tools)
    requires k != tools[|tools| - 1].name && k != CleanName(tools[|tools| - 1].name)
    ensures k in Register(m, tools[..|tools| - 1])
    ensures Register(m, tools)[k] == Register(m, tools[..|tools| - 1])[k]
  {
  }

  lemma UntouchedExtend(tools: seq<ToolRecord>, k: string)
    requires tools != [] && Untouched(tools[..|tools| - 1], k)
    requires k != tools[|tools| - 1].name && k != CleanName(tools[|tools| - 1].name)
    ensures Untouched(tools, k)
  {
  }

  lemma WrittenByExtend(tools: seq<ToolRecord>, k: string, e: ToolEntry, i: int)
    requires tools != [] && WrittenBy(tools[..|tools| - 1], k, e, i)
    requires k != tools[|tools| - 1].name && k != CleanName(tools[|tools| - 1].name)
    ensures WrittenBy(tools, k, e, i)
  {
  }

  /** Either the old entry under a key no tool writes, or the entry of the last tool writing the key. */
  lemma {:induction false} RegisterWitness(m: map<string, ToolEntry>, tools: seq<ToolRecord>, k: string) returns (i: int)
    requires k in Register(m, tools)
    ensures i == -1 ==> k in m && Register(m, tools)[k] == m[k] && Untouched(tools, k)
    ensures i != -1 ==> WrittenBy(tools, k, Register(m, tools)[k], i)
  {
    if tools == [] {
      return -1;
    }
    var n := |tools| - 1;
    var t := tools[n];
    if k == t.name || k == CleanName(t.name) {
      assert tools[n + 1..] == [];
      return n;
    }
    RegisterSkips(m, tools, k);
    i := RegisterWitness(m, tools[..n], k);
    if i == -1 {
      UntouchedExtend(tools, k);
    } else {
      WrittenByExtend(tools, k, Register(m, tools)[k], i);
    }
  }

  /**
   * Every entry of the registry resolves to a tool that owns its key: it
   * is either an entry that was there before and no tool writes that key,
   * or it names the last tool whose raw or cleaned name is the key, with
   * that tool's server and record.
   */
  lemma RegisterResolves(m: map<string, ToolEntry>, tools: seq<ToolRecord>, k: string)
    requires k in Register(m, tools)
    ensures || (k in m && Register(m, tools)[k] == m[k] && Untouched(tools, k))
            || exists i :: WrittenBy(tools, k, Register(m, tools)[k], i)
  {
    var i := RegisterWitness(m, tools, k);
  }

  /**
   * Every function name declared to Gemini is a registry key, so the name
   * Gemini calls back with is found.
   */
  lemma DeclaredNamesRegistered(m: map<string, ToolEntry>, tools: seq<ToolRecord>)
    ensures forall i :: 0 <= i < |tools| ==> ConvertAll(tools)[i].declarations[0].name in Register(m, tools)
  {
    RegisterKeys(m, tools);
    forall i | 0 <= i < |tools| ensures ConvertAll(tools)[i].declarations[0].name in Register(m, tools) {
      NamesOfMembers(tools, CleanName(tools[i].name));
    }
  }

  // --------------------------------------------------------------- dispatch

  /** The tool declares a `user_id` parameter among its properties. */
  predicate DeclaresUserId(parameters: Json) {
    parameters.Obj? && PyContains(PropertiesEntry(parameters.fields), "user_id") == Some(true)
  }

  /**
   * Adding `user_id` to the call arguments. The tool's declaration is only
   * consulted when the caller did not supply `user_id`; reading it raises
   * when the parameters are not a dictionary, or when their `properties`
   * cannot be searched with `in`.
   */
  function InjectUserId(arguments: map<string, Json>, parameters: Json, userId: string): (r: Outcome<map<string, Json>>)
    ensures "user_id" in arguments ==> r == Returned(arguments)
    ensures r.Raised? <==>
      "user_id" !in arguments && (!parameters.Obj? || PyContains(PropertiesEntry(parameters.fields), "user_id").None?)
    ensures r.Returned? ==> r.value.Keys == arguments.Keys + (if DeclaresUserId(parameters) then {"user_id"} else {})
    ensures r.Returned? ==> forall k :: k in arguments ==> r.value[k] == arguments[k]
    ensures r.Returned? && "user_id" !in arguments && DeclaresUserId(parameters) ==> r.value["user_id"] == Str(userId)
  {
    if "user_id" in arguments then Returned(arguments)
    else if !parameters.Obj? then
      Raised("'" + PyTypeName(parameters) + "' object has no attribute 'get'")
    else
      var properties := PropertiesEntry(parameters.fields);
      match PyContains(properties, "user_id")
      case None => Raised("argument of type '" + PyTypeName(properties) + "' is not iterable")
      case Some(declared) => Returned(if declared then arguments["user_id" := Str(userId)] else arguments)
  }

  /** Where a call goes: internal tools only when the entry's server is the internal one and there are internal tools. */
  function RouteFor(server: Json, internalTools: bool, clientCallsTools: bool): Option<Route> {
    if server == InternalServer && internalTools then Some(Internal)
    else if clientCallsTools then Some(External)
    else None
  }

  /** The shape of the arguments that were sent, as the failure path classifies it. */
  function ClassifyFormat(arguments: map<string, Json>): FormatType {
    if "params" in arguments && |arguments| == 1 then
      (if arguments["params"].Obj? then Wrapped else FastMcp)
    else Direct
  }

  /**
   * The classification reads the arguments' shape: `params` alone and a
   * dict is wrapped, `params` alone and anything else is fastmcp, and any
   * other key set, `params` beside other keys included, is direct.
   */
  lemma ClassifyFormatShapes(arguments: map<string, Json>)
    ensures ClassifyFormat(arguments) == Wrapped <==> arguments.Keys == {"params"} && arguments["params"].Obj?
    ensures ClassifyFormat(arguments) == FastMcp <==> arguments.Keys == {"params"} && !arguments["params"].Obj?
    ensures ClassifyFormat(arguments) == Direct <==> arguments.Keys != {"params"}
  {
    if "params" in arguments && |arguments| == 1 {
      SingleKey(arguments, "params");
    }
  }

  function NotFoundMessage(name: Option<string>): string {
    "Function " + (if name.Some? then name.value else "None") + " not found in tool mapping"
  }

  function NotConfiguredMessage(tool: string): string {
    "Cannot execute external tool " + tool + ": MCP client not properly configured"
  }

  /** The name as a function name is found in the registry. */
  predicate Known(mapping: map<string, ToolEntry>, call: FunctionCall) {
    call.name.Some? && call.name.value in mapping
  }

  function ArgumentsOf(call: FunctionCall): map<string, Json> {
    if call.args.Some? then call.args.value else map[]
  }

  /** What happened after a successful lookup: the failure message, if any, the argument shape and the tool call made. */
  datatype Attempted = Attempted(failure: Option<string>, format: FormatType, invocation: Option<Invocation>)

  /**
   * The steps after the lookup: `user_id` injection, the handler's
   * formatting, routing and the call. The format stays Unknown when the
   * failure came before formatting.
   */
  function Attempt(
    entry: ToolEntry, arguments: map<string, Json>, userId: string,
    internalTools: bool, clientCallsTools: bool, handler: Option<Formatter>, outcome: Outcome<Json>): (a: Attempted)
    ensures a.failure.None? <==> a.invocation.Some? && outcome.Returned?
  {
    match InjectUserId(arguments, entry.tool.parameters, userId)
    case Raised(message) => Attempted(Some(message), Unknown, None)
    case Returned(injected) =>
      var formatted := Formatted(entry, handler, injected);
      match RouteFor(entry.server, internalTools, clientCallsTools)
      case None => Attempted(Some(NotConfiguredMessage(entry.mcpName)), ClassifyFormat(formatted), None)
      case Some(route) =>
        Attempted(
          if outcome.Raised? then Some(outcome.message) else None,
          ClassifyFormat(formatted),
          Some(Invocation(route, entry.mcpName, formatted)))
  }

  /** What `execute_function_call` decides, as a function of the registry, the call and the environment. */
  function Dispatch(
    mapping: map<string, ToolEntry>, call: FunctionCall, userId: string,
    internalTools: bool, clientCallsTools: bool, handler: Option<Formatter>, outcome: Outcome<Json>): (d: Dispatched)
  {
    if !Known(mapping, call) then
      Dispatched(
        ExecutionResult(if call.name.Some? then call.name.value else "", false, Null, Some(NotFoundMessage(call.name))),
        false, None, None)
    else
      var name := call.name.value;
      var entry := mapping[name];
      var a := Attempt(entry, ArgumentsOf(call), userId, internalTools, clientCallsTools, handler, outcome);
      if a.failure.None? then
        Dispatched(ExecutionResult(name, true, outcome.value, None), true, a.invocation, None)
      else
        Dispatched(ExecutionResult(name, false, Null, a.failure), true, a.invocation, FeedbackFor(entry, handler, a.format))
  }

  /** A name that is not registered fails with the fixed message and leaves no trace: nothing is recorded, called or reported. */
  lemma DispatchUnknownName(
    mapping: map<string, ToolEntry>, call: FunctionCall, userId: string,
    internalTools: bool, clientCallsTools: bool, handler: Option<Formatter>, outcome: Outcome<Json>)
    requires !Known(mapping, call)
    ensures var d := Dispatch(mapping, call, userId, internalTools, clientCallsTools, handler, outcome);
      && !d.recorded && d.invocation.None? && d.feedback.None?
      && d.result == ExecutionResult(if call.name.Some? then call.name.value else "", false, Null, Some(NotFoundMessage(call.name)))
  {
  }

  /**
   * A registered name is always recorded, under the name it was called by,
   * and it succeeds exactly when the tool was called and returned, with the
   * returned value as its result; every failure carries an error and no result.
   * A failure is reported to the handler exactly when there is one and the
   * tool's server and MCP name are truthy; the report carries Unknown when
   * `user_id` handling raised, and otherwise the shape of the arguments the
   * handler produced.
   */
  lemma DispatchKnownName(
    mapping: map<string, ToolEntry>, call: FunctionCall, userId: string,
    internalTools: bool, clientCallsTools: bool, handler: Option<Formatter>, outcome: Outcome<Json>)
    requires Known(mapping, call)
    ensures var d := Dispatch(mapping, call, userId, internalTools, clientCallsTools, handler, outcome);
      var entry := mapping[call.name.value];
      var injected := InjectUserId(ArgumentsOf(call), entry.tool.parameters, userId);
      && d.recorded && d.result.toolName == call.name.value
      && (d.result.success <==> d.invocation.Some? && outcome.Returned?)
      && (d.result.success ==> d.result.result == outcome.value && d.result.error.None? && d.feedback.None?)
      && (!d.result.success ==> d.result.result == Null && d.result.error.Some?)
      && (d.invocation.Some? && outcome.Raised? ==> d.result.error == Some(outcome.message))
      && (d.feedback.Some? <==> !d.result.success && handler.Some? && Truthy(entry.server) && entry.mcpName != "")
      && (d.feedback.Some? ==>
            d.feedback.value == Feedback(entry.server, entry.mcpName,
              if injected.Raised? then Unknown else ClassifyFormat(Formatted(entry, handler, injected.value))))
  {
  }

  /**
   * A tool is called only when `user_id` handling raised nothing and a route
   * exists; the call goes to the registered MCP name along that route, and
   * without a handler it carries the arguments after `user_id` injection.
   */
  lemma DispatchInvocation(
    mapping: map<string, ToolEntry>, call: FunctionCall, userId: string,
    internalTools: bool, clientCallsTools: bool, handler: Option<Formatter>, outcome: Outcome<Json>)
    requires Known(mapping, call)
    ensures var d := Dispatch(mapping, call, userId, internalTools, clientCallsTools, handler, outcome);
      var entry := mapping[call.name.value];
      var injected := InjectUserId(ArgumentsOf(call), entry.tool.parameters, userId);
      && (d.invocation.Some? <==> injected.Returned? && RouteFor(entry.server, internalTools, clientCallsTools).Some?)
      && (d.invocation.Some? ==>
            && d.invocation.value.tool == entry.mcpName
            && Some(d.invocation.value.route) == RouteFor(entry.server, internalTools, clientCallsTools)
            && d.invocation.value.arguments == Formatted(entry, handler, injected.value))
  {
  }

  /** The arguments actually sent: the handler's rewriting of them when there is a handler. */
  function Formatted(entry: ToolEntry, handler: Option<Formatter>, arguments: map<string, Json>): map<string, Json> {
    if handler.Some? then handler.value(entry.mcpName, entry.server, arguments, entry.tool.parameters)
    else arguments
  }

  /** The failure report sent to the handler: only when there is a handler and the tool's server and name are truthy. */
  function FeedbackFor(entry: ToolEntry, handler: Option<Formatter>, format: FormatType): Option<Feedback> {
    if handler.Some? && Truthy(entry.server) && entry.mcpName != "" then Some(Feedback(entry.server, entry.mcpName, format))
    else None
  }

  // ------------------------------------------------------------------ stats

  datatype RecentExecution = RecentExecution(toolName: string, success: bool, error: Option<string>)

  datatype ExecutionStats = ExecutionStats(
    totalFunctions: nat,
    totalExecutions: nat,
    successfulExecutions: nat,
    successRate: real,
    recentExecutions: seq<RecentExecution>)

  const RecentWindow: nat := 10

  function Min(a: nat, b: nat): nat {
    if a <= b then a else b
  }

  function SuccessCount(history: seq<ExecutionResult>): (n: nat)
    ensures n <= |history|
    ensures n == |history| <==> forall i :: 0 <= i < |history| ==> history[i].success
  {
    if history == [] then 0
    else SuccessCount(history[..|history| - 1]) + (if history[|history| - 1].success then 1 else 0)
  }

  function Summary(r: ExecutionResult): RecentExecution {
    RecentExecution(r.toolName, r.success, r.error)
  }

  /** The summaries of the last ten executions, oldest first (`history[-10:]`). */
  function Recent(history: seq<ExecutionResult>): (r: seq<RecentExecution>)
    ensures |r| == Min(RecentWindow, |history|)
    ensures forall i :: 0 <= i < |r| ==> r[i] == Summary(history[|history| - |r| + i])
  {
    var from := |history| - Min(RecentWindow, |history|);
    seq(|history| - from, i requires 0 <= i < |history| - from => Summary(history[from + i]))
  }

  /** The success rate `successes / total` of a non-empty history. */
  function Rate(successes: nat, total: nat): (rate: real)
    requires 0 < total && successes <= total
    ensures 0.0 <= rate <= 1.0
    ensures rate == 1.0 <==> successes == total
  {
    var rate := successes as real / total as real;
    assert rate * total as real == successes as real;
    rate
  }

  /** `get_execution_stats`, without the parameter handler's own statistics. */
  function Stats(history: seq<ExecutionResult>, totalFunctions: nat): (s: ExecutionStats)
    ensures s.totalFunctions == totalFunctions && s.totalExecutions == |history|
    ensures s.successfulExecutions == SuccessCount(history) && s.recentExecutions == Recent(history)
    ensures s.successfulExecutions <= s.totalExecutions
    ensures s.totalExecutions == 0 ==> s.successRate == 0.0
    ensures 0.0 <= s.successRate <= 1.0
    ensures s.totalExecutions > 0 ==> (s.successRate == 1.0 <==> forall i :: 0 <= i < |history| ==> history[i].success)
    ensures |s.recentExecutions| <= RecentWindow
  {
    var total := |history|;
    var successes := SuccessCount(history);
    ExecutionStats(
      totalFunctions, total, successes,
      if total > 0 then Rate(successes, total) else 0.0,
      Recent(history))
  }

  /** One more recorded execution adds one to the total, and one to the successes exactly when it succeeded. */
  lemma StatsAfterRecord(history: seq<ExecutionResult>, r: ExecutionResult, totalFunctions: nat)
    ensures Stats(history + [r], totalFunctions).totalExecutions == Stats(history, totalFunctions).totalExecutions + 1
    ensures Stats(history + [r], totalFunctions).successfulExecutions
         == Stats(history, totalFunctions).successfulExecutions + (if r.success then 1 else 0)
  {
  }

  /** The recent window slides: the new execution enters last, and the oldest leaves once ten are shown. */
  lemma RecentAfterRecord(history: seq<ExecutionResult>, r: ExecutionResult)
    ensures Recent(history + [r])
         == (if |history| >= RecentWindow then Recent(history)[1..] else Recent(history)) + [Summary(r)]
  {
  }

  // ----------------------------------------------------------------- object

  class McpGeminiBridge {
    /** The internal tool set is present (truthy). */
    const internalTools: bool
    /** The MCP client has a `call_tool` method. */
    const clientCallsTools: bool

    var geminiFunctions: seq<GeminiTool>
    var toolMapping: map<string, ToolEntry>
    var executionHistory: seq<ExecutionResult>

    constructor (internalTools: bool, clientCallsTools: bool)
      ensures this.internalTools == internalTools && this.clientCallsTools == clientCallsTools
      ensures geminiFunctions == [] && toolMapping == map[] && executionHistory == []
    {
      this.internalTools := internalTools;
      this.clientCallsTools := clientCallsTools;
      geminiFunctions := [];
      toolMapping := map[];
      executionHistory := [];
    }

    /** `_convert_single_tool`: builds the declaration and registers it under the cleaned name. */
    method ConvertSingleTool(tool: ToolRecord) returns (g: GeminiTool)
      modifies this`toolMapping
      ensures g == ConvertTool(tool)
      ensures toolMapping == old(toolMapping)[CleanName(tool.name) := CleanEntry(tool)]
    {
      var cleanName := Replace(Replace(tool.name, '.', '_'), '-', '_');
      cleanName := KeepAllowed(cleanName);
      var parameters := ConvertParameters(tool.parameters);
      var declaration := FunctionDeclaration(
        cleanName, [Show(tool.description), Lit(" (MCP tool: " + tool.name + ")")], parameters);
      toolMapping := toolMapping[cleanName := ToolEntry(tool.server, tool, tool.name, Some(cleanName))];
      g := GeminiTool([declaration]);
    }

    /**
     * `convert_mcp_tools_to_gemini_functions`: converts every available
     * tool in order and registers it under its cleaned and its raw name.
     * With no tools at all it returns at once and keeps the previous
     * function list.
     */
    method ConvertMcpToolsToGeminiFunctions(
      external: Option<seq<(string, Json)>>, internal: Option<seq<(string, Json)>>)
      returns (functions: seq<GeminiTool>)
      modifies this`toolMapping, this`geminiFunctions
      ensures var tools := AvailableTools(external, if internalTools then internal else None);
        && functions == ConvertAll(tools)
        && toolMapping == Register(old(toolMapping), tools)
        && geminiFunctions == (if tools == [] then old(geminiFunctions) else functions)
    {
      var tools := AvailableTools(external, if internalTools then internal else None);
      if tools == [] {
        return [];
      }
      functions := ConvertTools(tools);
      geminiFunctions := functions;
    }

    /** The conversion loop over the available tools. */
    method ConvertTools(tools: seq<ToolRecord>) returns (functions: seq<GeminiTool>)
      modifies this`toolMapping
      ensures functions == ConvertAll(tools)
      ensures toolMapping == Register(old(toolMapping), tools)
    {
      functions := [];
      var i := 0;
      while i < |tools|
        invariant 0 <= i <= |tools|
        invariant functions == ConvertAll(tools[..i])
        invariant toolMapping == Register(old(toolMapping), tools[..i])
      {
        var g := ConvertSingleTool(tools[i]);
        functions := functions + [g];
        toolMapping := toolMapping[tools[i].name := RawEntry(tools[i])];
        assert tools[..i + 1][..i] == tools[..i];
        i := i + 1;
      }
      assert tools[..i] == tools;
    }

    /**
     * `execute_function_call`: looks the name up, adds `user_id` where the
     * tool declares it, routes the call and records one history entry for
     * every call whose name was found.
     */
    method ExecuteFunctionCall(
      call: FunctionCall, userId: string, handler: Option<Formatter>, outcome: Outcome<Json>)
      returns (result: ExecutionResult, invocation: Option<Invocation>, feedback: Option<Feedback>)
      modifies this`executionHistory
      ensures var d := Dispatch(toolMapping, call, userId, internalTools, clientCallsTools, handler, outcome);
        && result == d.result && invocation == d.invocation && feedback == d.feedback
        && executionHistory == old(executionHistory) + (if d.recorded then [result] else [])
    {
      var arguments := if call.args.Some? then call.args.value else map[];
      if call.name.None? || call.name.value !in toolMapping {
        var shown := if call.name.Some? then call.name.value else "";
        return ExecutionResult(shown, false, Null, Some(NotFoundMessage(call.name))), None, None;
      }
      var name := call.name.value;
      var entry := toolMapping[name];
      var attempt := Attempt(entry, arguments, userId, internalTools, clientCallsTools, handler, outcome);
      invocation := attempt.invocation;
      if attempt.failure.None? {
        result, feedback := ExecutionResult(name, true, outcome.value, None), None;
      } else {
        result := ExecutionResult(name, false, Null, attempt.failure);
        feedback := FeedbackFor(entry, handler, attempt.format);
      }
      executionHistory := executionHistory + [result];
    }

    function GetExecutionStats(): ExecutionStats
      reads this
    {
      Stats(executionHistory, |geminiFunctions|)
    }
  }
}
