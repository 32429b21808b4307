/**
 * The untyped values the bridge passes around: tool schemas, call
 * arguments and tool results arrive as Python dictionaries, lists and
 * scalars (JSON-shaped data). This module gives them one datatype, the
 * few Python operations the bridge applies to them (`dict.get` with a
 * default, truthiness, the `in` operator) and a small text model used
 * where the bridge renders a value with `str()` or `json.dumps`.
 */
module Json {

  datatype Json =
    | Null
    | Bool(b: bool)
    | Num(n: int)
    | Str(s: string)
    | Arr(elems: seq<Json>)
    | Obj(fields: map<string, Json>)

  /** `d.get(key, default)` on a dictionary. */
  function Get(d: map<string, Json>, key: string, default: Json): (v: Json)
    ensures key in d ==> v == d[key]
    ensures key !in d ==> v == default
  {
    if key in d then d[key] else default
  }

  /** Python truthiness: None, False, 0, and empty strings, lists and dicts are false. */
  predicate Truthy(j: Json) {
    match j
    case Null => false
    case Bool(b) => b
    case Num(n) => n != 0
    case Str(s) => |s| > 0
    case Arr(a) => |a| > 0
    case Obj(m) => |m| > 0
  }

  /** The name Python reports for the type of a value (used in its error messages). */
  function PyTypeName(j: Json): string {
    match j
    case Null => "NoneType"
    case Bool(_) => "bool"
    case Num(_) => "int"
    case Str(_) => "str"
    case Arr(_) => "list"
    case Obj(_) => "dict"
  }

  /** `needle` occurs in `s` as a contiguous block. */
  predicate IsSubstring(needle: string, s: string)
    decreases |s|
  {
    (|needle| <= |s| && s[..|needle|] == needle)
    || (|s| > 0 && IsSubstring(needle, s[1..]))
  }

  /**
   * Python's `key in container` for a string key: a dictionary tests its
   * keys, a list its elements, a string its substrings; any other value
   * raises TypeError, modelled as None.
   */
  function PyContains(container: Json, key: string): Option<bool> {
    match container
    case Obj(m) => Some(key in m)
    case Arr(a) => Some(Str(key) in a)
    case Str(s) => Some(IsSubstring(key, s))
    case _ => None
  }

  datatype Option<+T> = None | Some(value: T)

  /** `key in d and len(d) == 1`: the dictionary holds that key and nothing else. */
  lemma SingleKey<V>(d: map<string, V>, key: string)
    requires key in d && |d| == 1
    ensures d.Keys == {key}
    ensures d == map[key := d[key]]
  {
    var rest := d.Keys - {key};
    assert |d.Keys| == |rest| + 1;
    assert d.Keys == rest + {key};
  }

  /** Decimal digits of a natural number, as `str()` prints it. */
  function NatToString(n: nat): (s: string)
    ensures |s| > 0
    ensures forall i :: 0 <= i < |s| ==> '0' <= s[i] <= '9'
  {
    var d := ['0' + (n % 10) as char];
    if n < 10 then d else NatToString(n / 10) + d
  }

  /** Reads the decimal digits back; the partner of NatToString. */
  function DigitsValue(s: string): int {
    if s == [] then 0 else 10 * DigitsValue(s[..|s| - 1]) + (s[|s| - 1] as int - '0' as int)
  }

  lemma {:induction false} NatToStringRoundTrip(n: nat)
    ensures DigitsValue(NatToString(n)) == n
  {
    var s := NatToString(n);
    if n >= 10 {
      NatToStringRoundTrip(n / 10);
      assert s[..|s| - 1] == NatToString(n / 10);
    }
  }

  function IntToString(n: int): string {
    if n < 0 then "-" + NatToString(-n) else NatToString(n)
  }

  /**
   * A rendered message with holes: literal text, `str(v)` of a value whose
   * textual form is not modelled, and `json.dumps(v, indent=2)` of a value.
   */
  datatype Piece = Lit(text: string) | StrOf(value: Json) | JsonDump(value: Json)

  type Message = seq<Piece>

  /**
   * `str(v)` as a piece: strings, None, booleans and integers render as
   * Python prints them; lists and dictionaries stay a hole.
   */
  function Show(v: Json): (p: Piece)
    ensures v.Str? ==> p == Lit(v.s)
    ensures p.StrOf? <==> (v.Arr? || v.Obj?)
  {
    match v
    case Null => Lit("None")
    case Bool(b) => Lit(if b then "True" else "False")
    case Num(n) => Lit(IntToString(n))
    case Str(s) => Lit(s)
    case _ => StrOf(v)
  }

  /** `sep.join(parts)` on messages. */
  function Join(parts: seq<Message>, sep: string): (m: Message)
    ensures |parts| == 1 ==> m == parts[0]
  {
    if |parts| == 0 then []
    else if |parts| == 1 then parts[0]
    else Join(parts[..|parts| - 1], sep) + [Lit(sep)] + parts[|parts| - 1]
  }
}
