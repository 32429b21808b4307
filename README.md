# MCP-to-Gemini bridge, modelled in Dafny

This project models the bridge in `aura_backend/mcp_to_gemini_bridge.py`. The
bridge lets a Gemini model call tools served over the Model Context Protocol
(MCP). It has four jobs:

- **Conversion.** It turns every available MCP tool into a Gemini function
  declaration. The tool name is cleaned into a legal function name, and the
  JSON-Schema-like parameter description becomes a Gemini schema.
- **Registry.** It records each tool in a registry, under both its cleaned
  name and its raw name.
- **Dispatch.** It runs a function call from the model by looking the name up
  in the registry. It adds the caller's `user_id` when the tool declares
  one, lets an optional parameter handler rewrite the arguments, and routes
  the call to the internal tool set or to the external MCP client. Every
  found call is recorded in an execution history.
- **Reporting.** It summarises the history as statistics, and renders an
  execution result as text for the model. Brave web-search results get a
  listing of their own.

Modules, leaf first:

- `json.dfy` — `Json`: the untyped Python values the bridge handles, and
  the few Python operations it applies to them: `dict.get` with a default,
  truthiness, `in`, and the type names used in error messages. It also
  holds a text model: literal text, plus holes for `str()` and `json.dumps`
  of lists and dictionaries.
- `names.dfy` — `Names`: name cleaning, with a one-pass reference
  definition.
- `schemas.dfy` — `Schemas`: parameter and property schema translation, with
  an independent inverse for the round trips.
- `bridge.dfy` — `Bridge`: tool listing, conversion, the registry,
  dispatch, the statistics, and the class `McpGeminiBridge`. The class
  updates its function list, registry and history in place, as the Python
  object does.
- `formatting.dfy` — `Formatting`: the text reported to the model, and the
  Brave search listing.

The collaborators the bridge calls are inputs of the model:

- the two tool listings;
- the tool call's outcome (returned value or raised message);
- the optional parameter handler, as a function over the tool name, the
  server, the arguments and the schema;
- whether the internal tool set is present;
- whether the MCP client has a `call_tool` method.

Exceptions the source catches are modelled as values (`Option`, `Outcome`),
and the path each one takes is modelled.

## Model

| member | source | states |
|---|---|---|
| Json.NatToStringRoundTrip | aura_backend/mcp_to_gemini_bridge.py:574-586 | the decimal digits printed for a count read back as that count |
| Names.Replace | aura_backend/mcp_to_gemini_bridge.py:155 | same length; each occurrence of the character is replaced and every other character is kept |
| Names.KeepAllowed | aura_backend/mcp_to_gemini_bridge.py:156 | the result has only ASCII letters, digits and `_` and is no longer than the input; a name already made of those is kept whole, and a result as long as the input is the input |
| Names.KeepAllowedConcat | aura_backend/mcp_to_gemini_bridge.py:156 | the filter works character by character: it distributes over concatenation, so with its contract a single allowed character is kept and any other dropped |
| Names.CleanName | aura_backend/mcp_to_gemini_bridge.py:155-156 | the cleaned name is a legal function name, no longer than the raw one |
| Names.CleanNameIsPerChar | aura_backend/mcp_to_gemini_bridge.py:155-156 | the two passes equal one pass that maps `.` and `-` to `_`, keeps letters, digits and `_`, and drops the rest |
| Names.CleanNameConcat | aura_backend/mcp_to_gemini_bridge.py:155-156 | cleaning distributes over concatenation |
| Names.CleanNameFixesFunctionNames | aura_backend/mcp_to_gemini_bridge.py:155-156 | a name that is already legal is unchanged |
| Names.CleanNameIdempotent | aura_backend/mcp_to_gemini_bridge.py:155-156 | cleaning twice equals cleaning once |
| Names.CleanNameKeepsLength | aura_backend/mcp_to_gemini_bridge.py:155-156 | the length is kept iff every character is `.`, `-` or allowed |
| Names.CleanNameKeepsAlnums | aura_backend/mcp_to_gemini_bridge.py:155-156 | the letters and digits survive in order, and none are added |
| Names.CleanNameUnderscores | aura_backend/mcp_to_gemini_bridge.py:155-156 | the count of `_` in the result is the count of `.`, `-` and `_` in the input |
| Schemas.TypeName | aura_backend/mcp_to_gemini_bridge.py:236-245 | every Gemini type has an MCP type name that the table maps back to it |
| Schemas.TypeFor | aura_backend/mcp_to_gemini_bridge.py:236-245 | the type table; its properties are stated by TypeName and TypeForTable |
| Schemas.TypeForTable | aura_backend/mcp_to_gemini_bridge.py:236-245 | the table is exact on the six MCP type names; every other name becomes STRING |
| Schemas.ConvertProperty | aura_backend/mcp_to_gemini_bridge.py:221-266 | conversion succeeds iff the value is a dict with a hashable `type` and a string or None `description`; the result is a property schema at every nesting level; `enum` is copied as is; the description is the given string, `''` when missing, and absent when it is None |
| Schemas.ConvertPropertyType | aura_backend/mcp_to_gemini_bridge.py:232-245 | the result type is the one the MCP type name stands for; a missing or unknown type gives STRING |
| Schemas.ConvertPropertyItems | aura_backend/mcp_to_gemini_bridge.py:252-256 | `items` is set iff the type is `array`, `items` is present and it converts; it is then the converted `items` |
| Schemas.PropertyRoundTrip | aura_backend/mcp_to_gemini_bridge.py:221-266 | every producible property schema is recovered from its MCP form |
| Schemas.ConvertProperties | aura_backend/mcp_to_gemini_bridge.py:204-209 | a property is kept iff it converts, under its own name, with its converted schema |
| Schemas.ConvertParameters | aura_backend/mcp_to_gemini_bridge.py:184-219 | always an OBJECT schema; every failure gives the empty OBJECT; an accepted description gives the converted properties, so exactly the convertible ones; `required` is present iff accepted and truthy, never empty, and is then the given list unchanged |
| Schemas.EncodeStrings | aura_backend/mcp_to_gemini_bridge.py:201 | a list of strings written as a JSON list reads back as the same list |
| Schemas.PropertiesRoundTrip | aura_backend/mcp_to_gemini_bridge.py:204-209 | converting encoded property schemas gives them back |
| Schemas.ParametersRoundTrip | aura_backend/mcp_to_gemini_bridge.py:184-219 | converting an encoded parameter set gives back its properties; its required list comes back when non-empty and absent when empty |
| Bridge.Records | aura_backend/mcp_to_gemini_bridge.py:73-105 | one record per listed tool, in order, until the first value that is not a dict; the rest of that listing is skipped |
| Bridge.RecordOf | aura_backend/mcp_to_gemini_bridge.py:78-102 | the record built for one listed tool: an external tool's server and `input_schema`, or `aura-internal` and `parameters` for an internal one; used by Records |
| Bridge.AvailableTools | aura_backend/mcp_to_gemini_bridge.py:70-105 | the external records followed by the internal ones, each listing as Records states |
| Bridge.ConvertTool | aura_backend/mcp_to_gemini_bridge.py:139-178 | one declaration, named by the cleaned tool name (a legal function name), with an OBJECT parameter schema; ConvertToolParameters states that this schema is the converted parameter description |
| Bridge.ConvertToolParameters | aura_backend/mcp_to_gemini_bridge.py:151-166 | the declaration carries the converted parameter description and a description that names the MCP tool |
| Bridge.ConvertAll | aura_backend/mcp_to_gemini_bridge.py:111-117 | one Gemini tool per available tool, in order, each its tool's conversion |
| Bridge.RegisterOne | aura_backend/mcp_to_gemini_bridge.py:113-128 | the cleaned and the raw name are added, both pointing at the tool's MCP name and server, and every other key is unchanged |
| Bridge.Register | aura_backend/mcp_to_gemini_bridge.py:113-128 | the registry after the loop; its keys are stated by RegisterKeys and its entries by RegisterResolves |
| Bridge.NamesOfMembers | aura_backend/mcp_to_gemini_bridge.py:113-128 | a name is registered iff some tool has it as its raw or cleaned name |
| Bridge.RegisterKeys | aura_backend/mcp_to_gemini_bridge.py:113-128 | the registry only grows, by the raw and cleaned names of the converted tools |
| Bridge.RegisterWitness | aura_backend/mcp_to_gemini_bridge.py:113-128 | names the last tool that wrote a key, or shows that the key kept its old entry |
| Bridge.RegisterResolves | aura_backend/mcp_to_gemini_bridge.py:113-128 | each entry is either an earlier entry that no tool overwrote, or the entry of the last tool whose raw or cleaned name is the key |
| Bridge.DeclaredNamesRegistered | aura_backend/mcp_to_gemini_bridge.py:113-174 | every function name declared to Gemini is a registry key, so a call back under that name is found |
| Bridge.InjectUserId | aura_backend/mcp_to_gemini_bridge.py:309-315 | a caller's `user_id` is never overwritten; it is added iff the tool declares it; the other arguments are kept; it raises exactly when the parameters are not a dict or their properties do not support `in` |
| Bridge.ClassifyFormat | aura_backend/mcp_to_gemini_bridge.py:389-394 | the argument shape reported after a failure; stated by ClassifyFormatShapes |
| Bridge.ClassifyFormatShapes | aura_backend/mcp_to_gemini_bridge.py:389-394 | wrapped iff `params` is the only key and holds a dict; fastmcp iff `params` is the only key and holds anything else; direct iff the keys are anything other than `params` alone, `params` beside other keys included |
| Bridge.Attempt | aura_backend/mcp_to_gemini_bridge.py:309-343 | the steps after the lookup end without failure exactly when the tool was called and returned |
| Bridge.Dispatch | aura_backend/mcp_to_gemini_bridge.py:268-403 | what one function call decides; stated by DispatchUnknownName, DispatchKnownName (including when and with which argument shape a failure is reported to the handler) and DispatchInvocation |
| Bridge.DispatchUnknownName | aura_backend/mcp_to_gemini_bridge.py:293-302 | an unregistered name fails with the not-found message; nothing is recorded, called or reported |
| Bridge.DispatchKnownName | aura_backend/mcp_to_gemini_bridge.py:304-403 | a registered name is always recorded; it succeeds iff the tool was called and returned, with the returned value; every failure has an error and no result, and a raised call's message is the recorded error; a failure is reported to the handler iff there is one and the tool's server and MCP name are truthy, with `unknown` when `user_id` handling raised and otherwise the shape of the handler's formatted arguments |
| Bridge.DispatchInvocation | aura_backend/mcp_to_gemini_bridge.py:309-343 | a tool is called iff injection raised nothing and a route exists; the call goes to the MCP name with the handler's arguments |
| Bridge.SuccessCount | aura_backend/mcp_to_gemini_bridge.py:460 | no more successes than executions, and as many iff every execution succeeded |
| Bridge.Recent | aura_backend/mcp_to_gemini_bridge.py:467-475 | the summaries of the last ten executions, oldest first |
| Bridge.Rate | aura_backend/mcp_to_gemini_bridge.py:466 | the rate of a non-empty history lies between 0 and 1, and is 1 iff every execution succeeded |
| Bridge.Stats | aura_backend/mcp_to_gemini_bridge.py:452-476 | the successes are the history's successful executions and the recent entries its last ten; successes never exceed executions; the rate is 0 with no executions, lies between 0 and 1, and is 1 iff every execution succeeded |
| Bridge.StatsAfterRecord | aura_backend/mcp_to_gemini_bridge.py:354-382 | one more recorded execution adds one to the total, and one to the successes iff it succeeded |
| Bridge.RecentAfterRecord | aura_backend/mcp_to_gemini_bridge.py:467-475 | the recent window slides: the new execution enters last, and the oldest leaves once ten are shown |
| Bridge.McpGeminiBridge.constructor | aura_backend/mcp_to_gemini_bridge.py:56-61 | starts with no functions, an empty registry and an empty history |
| Bridge.McpGeminiBridge.ConvertSingleTool | aura_backend/mcp_to_gemini_bridge.py:139-178 | returns the tool's conversion and registers it under its cleaned name and nothing else |
| Bridge.McpGeminiBridge.ConvertMcpToolsToGeminiFunctions | aura_backend/mcp_to_gemini_bridge.py:63-133 | converts the external tools, then the internal ones when present; the registry is the ordered registration of them all; the function list is replaced unless there were no tools |
| Bridge.McpGeminiBridge.ConvertTools | aura_backend/mcp_to_gemini_bridge.py:111-130 | the loop yields every tool's conversion in order and registers each tool under its cleaned name, then its raw name |
| Bridge.McpGeminiBridge.ExecuteFunctionCall | aura_backend/mcp_to_gemini_bridge.py:268-403 | the result, the tool call and the handler report are those of the dispatch; the history grows by that result iff the name was registered |
| Formatting.UnwrapResult | aura_backend/mcp_to_gemini_bridge.py:503-507 | a dict whose only key is `result` gives that value; any other dict is itself; unwrapping loses nothing |
| Formatting.UnwrapWrapped | aura_backend/mcp_to_gemini_bridge.py:503-507 | wrapping a value under `result` and unwrapping gives the value back |
| Formatting.NumberedLines | aura_backend/mcp_to_gemini_bridge.py:576-583 | three lines per listed result; the title line of result j is numbered j+1 |
| Formatting.NumberedLinesItems | aura_backend/mcp_to_gemini_bridge.py:576-583 | result j occupies lines 3j to 3j+2: its numbered title, its URL and its description, each with its default |
| Formatting.WebListing | aura_backend/mcp_to_gemini_bridge.py:573-588 | the listing of web results; stated by WebListingShape |
| Formatting.WebListingShape | aura_backend/mcp_to_gemini_bridge.py:573-588 | a header, then at most five numbered results, then a "... and N more results" line iff there are more than five, with N the number not shown |
| Formatting.KindLines | aura_backend/mcp_to_gemini_bridge.py:595-598 | the count lines, in the order of the kinds, at most one per kind; their order and content are stated by KindLinesSnoc and OtherKindsLines |
| Formatting.KindLinesSnoc | aura_backend/mcp_to_gemini_bridge.py:595-598 | one more kind makes the list raise iff that kind raises, and otherwise appends that kind's count line, if it has one |
| Formatting.OtherKindsLines | aura_backend/mcp_to_gemini_bridge.py:595-598 | one "Kind: N items found" line for each of news, images and videos that has results, in that order; the list raises iff one of them raises |
| Formatting.KindLinesRaise | aura_backend/mcp_to_gemini_bridge.py:595-598 | once one kind raises, the whole list raises |
| Formatting.ListWebResults | aura_backend/mcp_to_gemini_bridge.py:571-588 | the loop gives the listing when the first five results are dicts, and the fallback dump of the whole result otherwise |
| Formatting.ListOtherKinds | aura_backend/mcp_to_gemini_bridge.py:591-600 | the loop gives one count line per news, images or videos kind with results, in that order, or the fallback dump when looking at one raises |
| Formatting.BraveSearchParts | aura_backend/mcp_to_gemini_bridge.py:550-615 | the search formatter's parts; stated by FormatBraveSearchResult, WebListingShape and BraveOpensWithTool |
| Formatting.FormatBraveSearchResult | aura_backend/mcp_to_gemini_bridge.py:550-615 | the parts built step by step are those of the search formatter's definition |
| Formatting.FormatResultForModel | aura_backend/mcp_to_gemini_bridge.py:484-548 | the text reported to the model; stated by FormatNamesTool, FormatUnwrapsResult and FormatFailure |
| Formatting.FormatUnwrapsResult | aura_backend/mcp_to_gemini_bridge.py:496-519 | a non-search tool whose result wraps one value under `result` is reported with that value |
| Formatting.FormatFailure | aura_backend/mcp_to_gemini_bridge.py:543-548 | a failure is reported as the tool's name and its error |
| Formatting.BraveOpensWithTool | aura_backend/mcp_to_gemini_bridge.py:550-615 | every search report opens with "Tool" and the tool's name |
| Formatting.FormatNamesTool | aura_backend/mcp_to_gemini_bridge.py:484-548 | every report, success or failure, opens with "Tool" and the tool's name |

## Left out

- Async I/O is not modelled: awaiting the MCP client and the internal tool set, and the listing and tool calls themselves. The listings and the call's outcome are inputs.
- The google.genai client classes are replaced by this model's own `Schema`, `FunctionDeclaration` and tool datatypes. The schema class is assumed to reject a non-string description and a `required` that is not a list of strings; that validation is outside the repository.
- Timing is not modelled (`datetime`, `execution_time`). The float success rate is an exact `real`.
- `json.dumps` and `str()` of lists and dictionaries stay holes in the text. Their exact text, and the `TypeError`/`ValueError` fallbacks around `json.dumps`, are not modelled; every modelled value is serialisable.
- Dictionaries are maps, so insertion order is lost. Only the rendering of a dictionary and the order in which a listing's tools arrive depend on it, and a listing is an ordered sequence here.
- Numbers are integers only; floats in tool results are not modelled.
- Logging is not modelled, and neither are the outer catch-all handlers, which cannot fire for modelled inputs.
- The parameter handler is a total function: the handler itself raising is not modelled.
- The handler's `record_success` after a success is guarded by a local that is never bound, so it never runs; it is not modelled. Its call after a failure is modelled as the returned feedback.
- `get_available_functions` and `_schema_to_dict` are not modelled: they are display helpers outside conversion and dispatch.
- The handler's `parameter_handling` statistics are not modelled; they come from a collaborator outside this model.
- `str.isalnum`, `str.lower` and `str.capitalize` are taken on ASCII letters and digits only. `str.isspace` uses Python's own list of whitespace characters.
- FormatFailure: the failure message is stated without its elapsed-time suffix; see FormatResultForModel below.
- FormatResultForModel: omits the " (after N.NNs)" suffix that follows a failure message once an execution time was measured, because time is not modelled.
- Bridge.McpGeminiBridge.GetExecutionStats: carries no contract of its own; it returns `Bridge.Stats` of the history and the function count.
