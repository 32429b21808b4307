/**
 * Translating an MCP tool's parameter description (a JSON-Schema-like
 * dictionary) into a Gemini function-calling schema.
 *
 * The Gemini side is this module's own `Schema` datatype. The schema class
 * of the Gemini client validates what it is constructed with: a description
 * must be a string or None and a `required` list must be a list of
 * strings, otherwise construction raises. Values assigned to a schema after
 * construction (`items`, `enum`) are stored as they are.
 */
module Schemas {
  import opened Json

  datatype SchemaType = STRING | INTEGER | NUMBER | BOOLEAN | ARRAY | OBJECT

  datatype Schema = Schema(
    typ: SchemaType,
    description: Option<string>,
    properties: Option<map<string, Schema>>,
    required: Option<seq<string>>,
    items: Option<Schema>,
    enumValues: Option<Json>)

  /** The schema of a tool with no parameters: an OBJECT with no properties. */
  const EmptyObject := Schema(OBJECT, None, Some(map[]), None, None, None)

  /**
   * The type table: `type_mapping.get(prop_type, STRING)`. Only a string
   * can match one of the six MCP type names; any other hashable value
   * falls back to STRING.
   */
  function TypeFor(t: Json): SchemaType {
    match t
    case Str(s) =>
      if s == "string" then STRING
      else if s == "integer" then INTEGER
      else if s == "number" then NUMBER
      else if s == "boolean" then BOOLEAN
      else if s == "array" then ARRAY
      else if s == "object" then OBJECT
      else STRING
    case _ => STRING
  }

  /** The MCP type name of a Gemini type; the table read backwards. */
  function TypeName(g: SchemaType): (s: string)
    ensures TypeFor(Str(s)) == g
  {
    match g
    case STRING => "string"
    case INTEGER => "integer"
    case NUMBER => "number"
    case BOOLEAN => "boolean"
    case ARRAY => "array"
    case OBJECT => "object"
  }

  const McpTypeNames: set<string> := {"string", "integer", "number", "boolean", "array", "object"}

  /** The table is exact on the six MCP type names and sends every other name to STRING. */
  lemma TypeForTable(s: string)
    ensures s in McpTypeNames <==> TypeName(TypeFor(Str(s))) == s
    ensures s !in McpTypeNames ==> TypeFor(Str(s)) == STRING
  {
  }

  /** A value Python can use as a dictionary key (lists and dictionaries cannot). */
  predicate Hashable(v: Json) {
    !(v.Arr? || v.Obj?)
  }

  /** The property's `type` entry, `string` when absent. */
  function TypeEntry(prop: map<string, Json>): Json {
    Get(prop, "type", Str("string"))
  }

  /** The property's `description` entry, the empty string when absent. */
  function DescriptionEntry(prop: map<string, Json>): Json {
    Get(prop, "description", Str(""))
  }

  /** The conditions under which converting one property raises nothing. */
  predicate PropertyConvertible(j: Json) {
    j.Obj? && Hashable(TypeEntry(j.fields))
    && (DescriptionEntry(j.fields).Str? || DescriptionEntry(j.fields).Null?)
  }

  /** What a converted property schema looks like at every level of `items`. */
  predicate IsPropertySchema(s: Schema) {
    s.properties.None? && s.required.None?
    && (s.items.Some? ==> s.typ == ARRAY && IsPropertySchema(s.items.value))
  }

  /** `_convert_property_schema`: None stands for the caught exception. */
  function ConvertProperty(j: Json): (r: Option<Schema>)
    ensures r.Some? <==> PropertyConvertible(j)
    ensures r.Some? ==> IsPropertySchema(r.value)
    ensures r.Some? ==> r.value.enumValues == (if "enum" in j.fields then Some(j.fields["enum"]) else None)
    ensures r.Some? ==> r.value.description == (if DescriptionEntry(j.fields).Str? then Some(DescriptionEntry(j.fields).s) else None)
  {
    if !PropertyConvertible(j) then None
    else
      var t := TypeEntry(j.fields);
      var d := DescriptionEntry(j.fields);
      var items :=
        if t == Str("array") && "items" in j.fields then ConvertProperty(j.fields["items"]) else None;
      Some(Schema(
        TypeFor(t),
        if d.Str? then Some(d.s) else None,
        None,
        None,
        items,
        if "enum" in j.fields then Some(j.fields["enum"]) else None))
  }

  /** How the type of a converted property relates to its MCP `type` entry. */
  lemma ConvertPropertyType(j: Json)
    requires PropertyConvertible(j)
    ensures var t := TypeEntry(j.fields);
      && (t.Str? && t.s in McpTypeNames ==> TypeName(ConvertProperty(j).value.typ) == t.s)
      && ("type" !in j.fields ==> ConvertProperty(j).value.typ == STRING)
      && (!(t.Str? && t.s in McpTypeNames) ==> ConvertProperty(j).value.typ == STRING)
  {
    var t := TypeEntry(j.fields);
    if t.Str? { TypeForTable(t.s); }
  }

  /** `items` is set exactly when the type is `array`, `items` is present and it converts. */
  lemma ConvertPropertyItems(j: Json)
    requires PropertyConvertible(j)
    ensures ConvertProperty(j).value.items.Some?
        <==> TypeEntry(j.fields) == Str("array") && "items" in j.fields && PropertyConvertible(j.fields["items"])
    ensures ConvertProperty(j).value.items.Some? ==> ConvertProperty(j).value.items == ConvertProperty(j.fields["items"])
  {
  }

  /** A property schema written back as an MCP property; an independent inverse of ConvertProperty. */
  function PropertyToJson(s: Schema): Json
    requires IsPropertySchema(s)
  {
    Obj(map["type" := Str(TypeName(s.typ)),
            "description" := (if s.description.Some? then Str(s.description.value) else Null)]
        + (if s.items.Some? then map["items" := PropertyToJson(s.items.value)] else map[])
        + (if s.enumValues.Some? then map["enum" := s.enumValues.value] else map[]))
  }

  /** Every property schema the converter can produce is recovered from its MCP form. */
  lemma {:induction false} PropertyRoundTrip(s: Schema)
    requires IsPropertySchema(s)
    ensures ConvertProperty(PropertyToJson(s)) == Some(s)
  {
    if s.items.Some? {
      PropertyRoundTrip(s.items.value);
    }
    var j := PropertyToJson(s);
    assert TypeEntry(j.fields) == Str(TypeName(s.typ));
  }

  predicate IsStringList(v: Json) {
    v.Arr? && forall i :: 0 <= i < |v.elems| ==> v.elems[i].Str?
  }

  function Strings(v: Json): (r: seq<string>)
    requires IsStringList(v)
    ensures |r| == |v.elems|
    ensures forall i :: 0 <= i < |r| ==> v.elems[i] == Str(r[i])
  {
    seq(|v.elems|, i requires 0 <= i < |v.elems| => v.elems[i].s)
  }

  /** The `properties` entry of a parameter description, `{}` when absent. */
  function PropertiesEntry(params: map<string, Json>): Json {
    Get(params, "properties", Obj(map[]))
  }

  /** The `required` entry of a parameter description, `[]` when absent. */
  function RequiredEntry(params: map<string, Json>): Json {
    Get(params, "required", Arr([]))
  }

  /**
   * A parameter description the converter handles without falling back:
   * a non-empty dictionary whose `properties` is a dictionary and whose
   * `required`, when truthy, is a list of strings.
   */
  predicate ParametersAccepted(j: Json) {
    j.Obj? && |j.fields| > 0
    && PropertiesEntry(j.fields).Obj?
    && (Truthy(RequiredEntry(j.fields)) ==> IsStringList(RequiredEntry(j.fields)))
  }

  /** The properties that convert, each under its own name. */
  function ConvertProperties(props: map<string, Json>): (r: map<string, Schema>)
    ensures forall k :: k in r <==> k in props && PropertyConvertible(props[k])
    ensures forall k :: k in r ==> Some(r[k]) == ConvertProperty(props[k])
  {
    map k | k in props && ConvertProperty(props[k]).Some? :: ConvertProperty(props[k]).value
  }

  /** `_convert_parameters_schema`: every failure path returns the empty OBJECT schema. */
  function ConvertParameters(j: Json): (r: Schema)
    ensures r.typ == OBJECT && r.description.None? && r.items.None? && r.enumValues.None?
    ensures r.properties.Some?
    ensures !ParametersAccepted(j) ==> r == EmptyObject
    ensures ParametersAccepted(j) ==>
      forall k :: k in r.properties.value <==>
        k in PropertiesEntry(j.fields).fields && PropertyConvertible(PropertiesEntry(j.fields).fields[k])
    ensures forall k :: k in r.properties.value ==> IsPropertySchema(r.properties.value[k])
    ensures r.required.Some? ==> |r.required.value| > 0
    ensures r.required.Some? <==> ParametersAccepted(j) && Truthy(RequiredEntry(j.fields))
    ensures ParametersAccepted(j) ==> r.properties == Some(ConvertProperties(PropertiesEntry(j.fields).fields))
    ensures r.required.Some? ==> r.required.value == Strings(RequiredEntry(j.fields))
  {
    if !ParametersAccepted(j) then EmptyObject
    else
      var req := RequiredEntry(j.fields);
      Schema(
        OBJECT,
        None,
        Some(ConvertProperties(PropertiesEntry(j.fields).fields)),
        if Truthy(req) then Some(Strings(req)) else None,
        None,
        None)
  }

  /** A tool's parameters written back as an MCP description; the partner of ConvertParameters. */
  function ParametersToJson(props: map<string, Schema>, required: seq<string>): Json
    requires forall k :: k in props ==> IsPropertySchema(props[k])
  {
    Obj(map[
      "type" := Str("object"),
      "properties" := Obj(EncodeProperties(props)),
      "required" := EncodeStrings(required)])
  }

  /** Each property schema written back in its MCP form, under its own name. */
  function EncodeProperties(props: map<string, Schema>): map<string, Json>
    requires forall k :: k in props ==> IsPropertySchema(props[k])
  {
    map k | k in props :: PropertyToJson(props[k])
  }

  function EncodeStrings(xs: seq<string>): (v: Json)
    ensures IsStringList(v) && Strings(v) == xs
  {
    Arr(seq(|xs|, i requires 0 <= i < |xs| => Str(xs[i])))
  }

  lemma PropertiesRoundTrip(props: map<string, Schema>)
    requires forall k :: k in props ==> IsPropertySchema(props[k])
    ensures ConvertProperties(EncodeProperties(props)) == props
  {
    var encoded := EncodeProperties(props);
    forall k | k in props ensures ConvertProperty(encoded[k]) == Some(props[k]) {
      PropertyRoundTrip(props[k]);
    }
  }

  /**
   * Converting the MCP form of a parameter set gives back the properties,
   * and the required list when it is non-empty (an empty list becomes absent).
   */
  lemma ParametersRoundTrip(props: map<string, Schema>, required: seq<string>)
    requires forall k :: k in props ==> IsPropertySchema(props[k])
    ensures ConvertParameters(ParametersToJson(props, required))
         == Schema(OBJECT, None, Some(props), if |required| > 0 then Some(required) else None, None, None)
  {
    var j := ParametersToJson(props, required);
    assert PropertiesEntry(j.fields) == Obj(EncodeProperties(props));
    assert RequiredEntry(j.fields) == EncodeStrings(required);
    PropertiesRoundTrip(props);
  }
}
