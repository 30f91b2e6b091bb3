/**
 * JSON documents as the org.json library hands them to the connector,
 * already parsed, and the typed getters the connector calls on them.
 */
module Json {
  import opened Base
  import opened Numbers

  /** A JSON value; JNull is JSONObject.NULL. Floating-point numbers and nested objects are not modelled. */
  datatype JValue = JNull | JBool(b: bool) | JInt(n: int) | JStr(s: string) | JArr(items: seq<JValue>)

  /** A JSON object: keys to values. */
  type Doc = map<string, JValue>

  /** Why a JSONException was thrown. */
  datatype JsonError =
    | NotFound(key: string)
    | NotAString(key: string)
    | NotAnInt(key: string)
    | ElementNotAString(index: nat)
    | ElementNotAnInt(index: nat)
    | Unparseable(reason: string)

  /** The text of the JSONException. */
  function Message(e: JsonError): string {
    match e
    case NotFound(key) => "JSONObject[\"" + key + "\"] not found."
    case NotAString(key) => "JSONObject[\"" + key + "\"] not a string."
    case NotAnInt(key) => "JSONObject[\"" + key + "\"] is not an int."
    case ElementNotAString(i) => "JSONArray[" + IntToString(i) + "] not a string."
    case ElementNotAnInt(i) => "JSONArray[" + IntToString(i) + "] is not a number."
    case Unparseable(reason) => reason
  }

  /** The int a value yields: a number's low 32 bits, or a string read by Integer.parseInt. */
  function IntOf(v: JValue): (r: Option<int>)
    ensures r.Some? ==> InInt32(r.value)
  {
    match v
    case JInt(n) => Some(ToInt32(n))
    case JStr(s) => ParseInt(s)
    case _ => None
  }

  /** JSONObject.getString: only a string value is returned. */
  function GetString(doc: Doc, key: string): (r: Result<string, JsonError>)
    ensures r.Ok? <==> key in doc && doc[key].JStr?
    ensures r.Ok? ==> doc[key] == JStr(r.value)
  {
    if key !in doc then Err(NotFound(key))
    else match doc[key]
      case JStr(s) => Ok(s)
      case _ => Err(NotAString(key))
  }

  /** JSONObject.getInt. */
  function GetInt(doc: Doc, key: string): (r: Result<int, JsonError>)
    ensures r.Ok? <==> key in doc && IntOf(doc[key]).Some?
    ensures r.Ok? ==> Some(r.value) == IntOf(doc[key])
  {
    if key !in doc then Err(NotFound(key))
    else match IntOf(doc[key])
      case Some(n) => Ok(n)
      case None => Err(NotAnInt(key))
  }

  /** JSONArray.getString(i), given the index and the element found there. */
  function ElementString(element: (nat, JValue)): Result<string, JsonError> {
    match element.1
    case JStr(s) => Ok(s)
    case _ => Err(ElementNotAString(element.0))
  }

  /** JSONArray.getInt(i), given the index and the element found there. */
  function ElementInt(element: (nat, JValue)): Result<int, JsonError> {
    match IntOf(element.1)
    case Some(n) => Ok(n)
    case None => Err(ElementNotAnInt(element.0))
  }

  /** A JSON array of strings, as org.json writes a String[]. */
  function StringArray(ss: seq<string>): (r: JValue)
    ensures r.JArr? && |r.items| == |ss|
    ensures forall i :: 0 <= i < |ss| ==> r.items[i] == JStr(ss[i])
  {
    JArr(seq(|ss|, i requires 0 <= i < |ss| => JStr(ss[i])))
  }

  /** A JSON array of numbers, as org.json writes an Integer[]. */
  function IntArray(ns: seq<int>): (r: JValue)
    ensures r.JArr? && |r.items| == |ns|
    ensures forall i :: 0 <= i < |ns| ==> r.items[i] == JInt(ns[i])
  {
    JArr(seq(|ns|, i requires 0 <= i < |ns| => JInt(ns[i])))
  }
}
