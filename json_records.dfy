/**
 * The decoded shape of a websocket frame, as far as the service looks at it,
 * and the two permissive field readers `asText` and `asBig`.
 */
module JsonRecords {
  import opened Wrappers

  /**
   * A JSON node present in a record: JSON null, or any other node, carried
   * as the text Jackson's `asText()` renders for it.
   */
  datatype JsonValue = JNull | JText(text: string)

  /** One execution record: its field names and the nodes under them. */
  type Record = map<string, JsonValue>

  /**
   * A decoded frame: its `topic` node, if any, and the elements of its
   * `data` node, if there is one.
   */
  datatype Message = Message(topic: Option<JsonValue>, data: Option<seq<Record>>)

  /** `new BigDecimal(s)`: the decimal it denotes, or `None` where it throws. */
  type DecimalParser = string -> Option<real>

  /** `JsonNode.asText()`: a JSON null node renders as "null". */
  function NodeText(v: JsonValue): (r: string)
    ensures v.JText? ==> r == v.text
    ensures v.JNull? ==> r == "null"
  {
    match v
    case JNull => "null"
    case JText(t) => t
  }

  /** `asText(node, field)`: `None` for a missing field or a JSON null. */
  function AsText(rec: Record, field: string): (r: Option<string>)
    ensures r.None? <==> field !in rec || rec[field] == JNull
    ensures r.Some? ==> rec[field] == JText(r.value)
  {
    if field in rec && !rec[field].JNull? then Some(NodeText(rec[field])) else None
  }

  /**
   * `asBig(node, field)`: the parsed decimal, or `None` when the field is
   * missing, JSON null, empty text, or text the parser rejects.
   */
  function AsBig(rec: Record, field: string, parse: DecimalParser): (r: Option<real>)
    ensures r.None? <==>
              field !in rec || rec[field] == JNull || rec[field] == JText("")
              || (rec[field].JText? && parse(rec[field].text).None?)
    ensures r.Some? ==> rec[field].JText? && parse(rec[field].text) == r
  {
    var s := AsText(rec, field);
    if s.None? || s.value == "" then None else parse(s.value)
  }
}
