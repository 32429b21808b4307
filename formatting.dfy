/**
 * Rendering an execution result for the model conversation, including the
 * special listing of Brave search results. Texts are messages with holes
 * (see `Json.Piece`): fixed wording is literal, while `json.dumps` and
 * `str()` of lists and dictionaries stay holes.
 */
module Formatting {
  import opened Json
  import opened Bridge

  // ------------------------------------------------------------ characters

  function LowerChar(c: char): char {
    if 'A' <= c <= 'Z' then (c as int + 32) as char else c
  }

  function UpperChar(c: char): char {
    if 'a' <= c <= 'z' then (c as int - 32) as char else c
  }

  /** `str.lower()` on ASCII letters. */
  function Lower(s: string): string {
    if s == [] then [] else [LowerChar(s[0])] + Lower(s[1..])
  }

  /** `str.capitalize()` on ASCII letters. */
  function Capitalize(s: string): string {
    if s == [] then [] else [UpperChar(s[0])] + Lower(s[1..])
  }

  /** The characters Python's `str.isspace()` accepts. */
  predicate IsSpace(c: char) {
    var n := c as int;
    (9 <= n <= 13) || (28 <= n <= 32) || n == 0x85 || n == 0xA0 || n == 0x1680
    || (0x2000 <= n <= 0x200A) || n == 0x2028 || n == 0x2029 || n == 0x202F
    || n == 0x205F || n == 0x3000
  }

  /** `s.strip()` leaves something. */
  predicate HasText(s: string) {
    exists i :: 0 <= i < |s| && !IsSpace(s[i])
  }

  // ---------------------------------------------------------------- unwrap

  /** A result dictionary whose only key is `result` stands for that value. */
  function UnwrapResult(fields: map<string, Json>): (v: Json)
    ensures fields.Keys == {"result"} ==> v == fields["result"]
    ensures fields.Keys != {"result"} ==> v == Obj(fields)
    ensures v != Obj(fields) ==> fields == map["result" := v]
  {
    if "result" in fields && |fields| == 1 then
      SingleKey(fields, "result");
      fields["result"]
    else Obj(fields)
  }

  /** Unwrapping undoes the wrapping. */
  lemma UnwrapWrapped(v: Json)
    ensures UnwrapResult(map["result" := v]) == v
  {
  }

  // ----------------------------------------------------------------- brave

  const MaxListed: nat := 5

  /** The search data: the inner dictionary when the result wraps one under `result`. */
  function SearchData(result: map<string, Json>): map<string, Json> {
    if "result" in result && result["result"].Obj? then result["result"].fields else result
  }

  function Succeeded(name: string): string {
    "Tool " + name + " executed successfully:\n"
  }

  /** What is left when formatting raised: the whole result, dumped. */
  function Fallback(name: string, result: map<string, Json>): seq<Message> {
    [[Lit(Succeeded(name)), JsonDump(Obj(result))]]
  }

  /** The first `k` values are dictionaries. */
  predicate FirstObjects(items: seq<Json>, k: nat) {
    k <= |items| && forall i :: 0 <= i < k ==> items[i].Obj?
  }

  function TitleLine(n: nat, item: map<string, Json>): Message {
    [Lit(NatToString(n) + ". **"), Show(Get(item, "title", Str("No title"))), Lit("**")]
  }

  /** The three lines of the `n`-th listed result. */
  function ItemLines(n: nat, item: map<string, Json>): seq<Message> {
    [TitleLine(n, item),
     [Lit("   URL: "), Show(Get(item, "url", Str("No URL")))],
     [Lit("   "), Show(Get(item, "description", Str("No description"))), Lit("\n")]]
  }

  /** The lines of the first `k` results, numbered from 1. */
  function NumberedLines(items: seq<Json>, k: nat): (r: seq<Message>)
    requires FirstObjects(items, k)
    ensures |r| == 3 * k
    ensures forall j :: 0 <= j < k ==> r[3 * j] == TitleLine(j + 1, items[j].fields)
  {
    if k == 0 then [] else NumberedLines(items, k - 1) + ItemLines(k, items[k - 1].fields)
  }

  /** Result j occupies lines 3j to 3j+2: its title, its URL and its description. */
  lemma {:induction false} NumberedLinesItems(items: seq<Json>, k: nat)
    requires FirstObjects(items, k)
    ensures forall j :: 0 <= j < k ==> NumberedLines(items, k)[3 * j..3 * j + 3] == ItemLines(j + 1, items[j].fields)
  {
    if k > 0 {
      assert FirstObjects(items, k - 1);
      NumberedLinesItems(items, k - 1);
      var r := NumberedLines(items, k);
      var prev := NumberedLines(items, k - 1);
      forall j | 0 <= j < k ensures r[3 * j..3 * j + 3] == ItemLines(j + 1, items[j].fields) {
        if j < k - 1 {
          assert r[3 * j..3 * j + 3] == prev[3 * j..3 * j + 3];
        }
      }
    }
  }

  function Header(name: string, count: nat): Message {
    [Lit("Tool " + name + " found " + NatToString(count) + " results:\n")]
  }

  function MoreLine(extra: nat): Message {
    [Lit("... and " + NatToString(extra) + " more results")]
  }

  predicate IsMoreLine(m: Message) {
    |m| == 1 && m[0].Lit? && |m[0].text| >= 8 && m[0].text[..8] == "... and "
  }

  /** The listing of web results: a header, at most five numbered results and a count of the rest. */
  function WebListing(name: string, items: seq<Json>): seq<Message>
    requires FirstObjects(items, Min(MaxListed, |items|))
  {
    [Header(name, |items|)]
    + NumberedLines(items, Min(MaxListed, |items|))
    + (if |items| > MaxListed then [MoreLine(|items| - MaxListed)] else [])
  }

  /**
   * At most five results are listed, each numbered and titled; a final
   * "... and N more results" line, with N the number left out, appears
   * exactly when there are more than five.
   */
  lemma WebListingShape(name: string, items: seq<Json>)
    requires |items| > 0 && FirstObjects(items, Min(MaxListed, |items|))
    ensures var r := WebListing(name, items);
      var shown := Min(MaxListed, |items|);
      && |r| == 1 + 3 * shown + (if |items| > MaxListed then 1 else 0)
      && r[0] == Header(name, |items|)
      && (forall j :: 0 <= j < shown ==> r[1 + 3 * j] == TitleLine(j + 1, items[j].fields))
      && (IsMoreLine(r[|r| - 1]) <==> |items| > MaxListed)
      && (|items| > MaxListed ==> r[|r| - 1] == MoreLine(|items| - MaxListed))
  {
    var shown := Min(MaxListed, |items|);
    NumberedLinesItems(items, shown);
    var lines := NumberedLines(items, shown);
    assert lines[3 * (shown - 1)..3 * shown][2] == lines[3 * shown - 1];
  }

  /** `len()` of a value: None where it raises TypeError. */
  function PyLen(v: Json): Option<nat> {
    match v
    case Str(s) => Some(|s|)
    case Arr(a) => Some(|a|)
    case Obj(m) => Some(|m|)
    case _ => None
  }

  /**
   * The line for one other result kind: Some(None) when it is skipped,
   * None when looking at it raises.
   */
  function KindLine(data: map<string, Json>, key: string): Option<Option<Message>> {
    if key !in data then Some(None)
    else if !data[key].Obj? then None
    else
      var found := Get(data[key].fields, "results", Null);
      if !Truthy(found) then Some(None)
      else match PyLen(found)
        case None => None
        case Some(n) => Some(Some([Lit("\n" + Capitalize(key) + ": " + NatToString(n) + " items found")]))
  }

  const OtherKinds: seq<string> := ["news", "images", "videos"]

  /** The lines for the given kinds, in order; None when any of them raises. */
  function KindLines(data: map<string, Json>, keys: seq<string>): (r: Option<seq<Message>>)
    ensures r.Some? ==> |r.value| <= |keys|
  {
    if keys == [] then Some([])
    else match KindLines(data, keys[..|keys| - 1])
      case None => None
      case Some(lines) =>
        match KindLine(data, keys[|keys| - 1])
        case None => None
        case Some(line) => Some(if line.Some? then lines + [line.value] else lines)
  }

  /** Once one kind raises, the whole list raises. */
  lemma {:induction false} KindLinesRaise(data: map<string, Json>, keys: seq<string>, j: nat)
    requires j <= |keys| && KindLines(data, keys[..j]).None?
    ensures KindLines(data, keys).None?
    decreases |keys| - j
  {
    if j < |keys| {
      assert keys[..j + 1][..j] == keys[..j];
      KindLinesRaise(data, keys, j + 1);
    } else {
      assert keys[..j] == keys;
    }
  }

  /** The line a kind contributes when it does not raise: its count line, or nothing when it is skipped. */
  function LineOf(data: map<string, Json>, key: string): seq<Message> {
    match KindLine(data, key)
    case Some(Some(line)) => [line]
    case _ => []
  }

  /** One more kind: the list raises iff the shorter list or the new kind raises, and otherwise gains that kind's line at the end. */
  lemma KindLinesSnoc(data: map<string, Json>, keys: seq<string>, key: string)
    ensures KindLines(data, keys + [key]).Some? <==> KindLines(data, keys).Some? && KindLine(data, key).Some?
    ensures KindLines(data, keys + [key]).Some? ==>
      KindLines(data, keys + [key]).value == KindLines(data, keys).value + LineOf(data, key)
  {
  }

  /**
   * The other kinds give one count line each, for those that have results,
   * in the order news, images, videos; the list raises iff one of them raises.
   */
  lemma OtherKindsLines(data: map<string, Json>)
    ensures KindLines(data, OtherKinds).Some?
        <==> KindLine(data, "news").Some? && KindLine(data, "images").Some? && KindLine(data, "videos").Some?
    ensures KindLines(data, OtherKinds).Some? ==>
      KindLines(data, OtherKinds).value == LineOf(data, "news") + LineOf(data, "images") + LineOf(data, "videos")
  {
    KindLinesSnoc(data, [], "news");
    assert [] + ["news"] == ["news"];
    assert KindLines(data, []) == Some([]);
    KindLinesSnoc(data, ["news"], "images");
    assert ["news"] + ["images"] == ["news", "images"];
    KindLinesSnoc(data, ["news", "images"], "videos");
    assert ["news", "images"] + ["videos"] == OtherKinds;
    if KindLines(data, OtherKinds).Some? {
      assert [] + LineOf(data, "news") == LineOf(data, "news");
    }
  }

  /** `_format_brave_search_result`, as the list of parts it joins with newlines. */
  function BraveSearchParts(name: string, result: map<string, Json>): seq<Message> {
    var data := SearchData(result);
    var web := Get(data, "web", Obj(map[]));
    if !web.Obj? then Fallback(name, result)
    else
      var found := Get(web.fields, "results", Arr([]));
      if Truthy(found) then
        if found.Arr? && FirstObjects(found.elems, Min(MaxListed, |found.elems|)) then WebListing(name, found.elems)
        else Fallback(name, result)
      else if "news" in data || "images" in data || "videos" in data then
        match KindLines(data, OtherKinds)
        case None => Fallback(name, result)
        case Some(lines) => [[Lit("Tool " + name + " results:\n")]] + lines
      else [[Lit(Succeeded(name)), JsonDump(Obj(data))]]
  }

  /** The web-results branch: the listing, or the fallback when a listed result is not a dictionary. */
  method ListWebResults(name: string, result: map<string, Json>, items: seq<Json>) returns (parts: seq<Message>)
    ensures FirstObjects(items, Min(MaxListed, |items|)) ==> parts == WebListing(name, items)
    ensures !FirstObjects(items, Min(MaxListed, |items|)) ==> parts == Fallback(name, result)
  {
    var shown := Min(MaxListed, |items|);
    parts := [Header(name, |items|)];
    var i := 0;
    while i < shown
      invariant 0 <= i <= shown
      invariant FirstObjects(items, i)
      invariant parts == [Header(name, |items|)] + NumberedLines(items, i)
    {
      if !items[i].Obj? {
        return Fallback(name, result);
      }
      var item := items[i].fields;
      parts := parts + [TitleLine(i + 1, item)];
      parts := parts + [[Lit("   URL: "), Show(Get(item, "url", Str("No URL")))]];
      parts := parts + [[Lit("   "), Show(Get(item, "description", Str("No description"))), Lit("\n")]];
      i := i + 1;
    }
    if |items| > MaxListed {
      parts := parts + [MoreLine(|items| - MaxListed)];
    }
  }

  /** The other-kinds branch: a count line per kind with results, or the fallback when one raises. */
  method ListOtherKinds(name: string, result: map<string, Json>, data: map<string, Json>) returns (parts: seq<Message>)
    ensures KindLines(data, OtherKinds).None? ==> parts == Fallback(name, result)
    ensures KindLines(data, OtherKinds).Some? ==>
      parts == [[Lit("Tool " + name + " results:\n")]] + KindLines(data, OtherKinds).value
  {
    parts := [[Lit("Tool " + name + " results:\n")]];
    for k := 0 to |OtherKinds|
      invariant KindLines(data, OtherKinds[..k]).Some?
      invariant parts == [[Lit("Tool " + name + " results:\n")]] + KindLines(data, OtherKinds[..k]).value
    {
      var key := OtherKinds[k];
      assert OtherKinds[..k + 1][..k] == OtherKinds[..k];
      if key in data {
        if !data[key].Obj? {
          KindLinesRaise(data, OtherKinds, k + 1);
          return Fallback(name, result);
        }
        var kindResults := Get(data[key].fields, "results", Null);
        if Truthy(kindResults) {
          var n := PyLen(kindResults);
          if n.None? {
            KindLinesRaise(data, OtherKinds, k + 1);
            return Fallback(name, result);
          }
          parts := parts + [[Lit("\n" + Capitalize(key) + ": " + NatToString(n.value) + " items found")]];
        }
      }
    }
    assert OtherKinds[..|OtherKinds|] == OtherKinds;
  }

  /** `_format_brave_search_result`, building its list of parts step by step. */
  method FormatBraveSearchResult(name: string, result: map<string, Json>) returns (parts: seq<Message>)
    ensures parts == BraveSearchParts(name, result)
  {
    var data := SearchData(result);
    var web := Get(data, "web", Obj(map[]));
    if !web.Obj? {
      return Fallback(name, result);
    }
    var found := Get(web.fields, "results", Arr([]));
    if Truthy(found) {
      if !found.Arr? {
        return Fallback(name, result);
      }
      parts := ListWebResults(name, result, found.elems);
    } else if "news" in data || "images" in data || "videos" in data {
      parts := ListOtherKinds(name, result, data);
    } else {
      parts := [[Lit(Succeeded(name)), JsonDump(Obj(data))]];
    }
  }

  // ------------------------------------------------------------- the model

  /** `format_function_call_result_for_model`, without the elapsed-time suffix of failures. */
  function FormatResultForModel(r: ExecutionResult): Message {
    if !r.success then
      [Lit("Tool " + r.toolName + " failed: " + (if r.error.Some? then r.error.value else "None"))]
    else
      match r.result
      case Obj(fields) =>
        if IsSubstring("brave", Lower(r.toolName)) then
          Join(BraveSearchParts(r.toolName, fields), "\n")
        else
          var actual := UnwrapResult(fields);
          if (actual.Arr? || actual.Obj?) && Truthy(actual) then
            [Lit(Succeeded(r.toolName)), JsonDump(actual)]
          else
            [Lit("Tool " + r.toolName + " executed successfully: "), Show(actual)]
      case Str(s) =>
        if HasText(s) then [Lit(Succeeded(r.toolName) + s)]
        else [Lit("Tool " + r.toolName + " executed successfully (empty result)")]
      case Arr(a) =>
        if |a| > 0 then [Lit(Succeeded(r.toolName)), JsonDump(r.result)]
        else [Lit("Tool " + r.toolName + " executed successfully (empty list)")]
      case _ => [Lit(Succeeded(r.toolName)), Show(r.result)]
  }

  /**
   * A non-search tool whose dictionary result only wraps a value under
   * `result` is reported with that value, not with the wrapper.
   */
  lemma FormatUnwrapsResult(name: string, v: Json)
    requires !IsSubstring("brave", Lower(name))
    ensures var m := FormatResultForModel(ExecutionResult(name, true, Obj(map["result" := v]), None));
      && |m| == 2
      && m[1] == (if (v.Arr? || v.Obj?) && Truthy(v) then JsonDump(v) else Show(v))
  {
  }

  /** A failed execution is reported as the tool's name and its error. */
  lemma FormatFailure(r: ExecutionResult)
    requires !r.success && r.error.Some?
    ensures FormatResultForModel(r) == [Lit("Tool " + r.toolName + " failed: " + r.error.value)]
  {
  }

  /** The message starts with literal text beginning with `prefix`. */
  predicate OpensWith(m: Message, prefix: string) {
    |m| > 0 && m[0].Lit? && prefix <= m[0].text
  }

  lemma {:induction false} JoinOpensWith(parts: seq<Message>, sep: string, prefix: string)
    requires |parts| > 0 && OpensWith(parts[0], prefix)
    ensures OpensWith(Join(parts, sep), prefix)
  {
    if |parts| > 1 {
      JoinOpensWith(parts[..|parts| - 1], sep, prefix);
    }
  }

  /** Every part list of the search formatter opens with the tool's name. */
  lemma BraveOpensWithTool(name: string, result: map<string, Json>)
    ensures |BraveSearchParts(name, result)| > 0
    ensures OpensWith(BraveSearchParts(name, result)[0], "Tool " + name)
  {
  }

  /** Every report, success or failure, opens by naming the tool. */
  lemma FormatNamesTool(r: ExecutionResult)
    ensures OpensWith(FormatResultForModel(r), "Tool " + r.toolName)
  {
    var prefix := "Tool " + r.toolName;
    if r.success && r.result.Obj? && IsSubstring("brave", Lower(r.toolName)) {
      BraveOpensWithTool(r.toolName, r.result.fields);
      JoinOpensWith(BraveSearchParts(r.toolName, r.result.fields), "\n", prefix);
    }
  }
}
