/** The exceptions the connector lets escape, one constructor per kind. */
module Failures {
  import opened Base
  import opened Json

  datatype Failure =
    | AlreadyExists(message: string)          // AlreadyExistsException
    | InvalidAttributeValue(message: string)  // InvalidAttributeValueException
    | ConnectorIO(message: string)            // ConnectorIOException
    | UnsupportedOperation(message: string)   // UnsupportedOperationException
    | NumberFormat(input: string)             // NumberFormatException from Integer.parseInt
    | ClassCast(attrName: string)             // ClassCastException from casting a value to String
    | IndexOutOfBounds(index: nat)            // IndexOutOfBoundsException from List.get
    | JsonFailure(error: JsonError)           // JSONException from org.json
    | Rejected(status: int)                   // raised by the inherited generic response check

  /** A JSONException propagating unchanged. */
  function Lift<T>(r: Result<T, JsonError>): (l: Result<T, Failure>)
    ensures l.Ok? <==> r.Ok?
    ensures l.Ok? ==> l.value == r.value
    ensures l.Err? ==> l.error == JsonFailure(r.error)
  {
    match r
    case Ok(v) => Ok(v)
    case Err(e) => Err(JsonFailure(e))
  }
}
