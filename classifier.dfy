/**
 * processEduIdResponseErrors: the SCIM error responses the service answers
 * with (section 3.12 of RFC 7644) turned into the host's exceptions. A 409
 * whose scimType is "uniqueness" is a duplicate, a 400 whose scimType is
 * "invalidValue" is a bad attribute value, any other 409 or 400 is an I/O
 * failure, and every other status is left to the inherited generic check.
 */
module Classifier {
  import opened Base
  import opened Json
  import opened Failures

  /** What the error check decides: throw, or hand the response on to the inherited check. */
  datatype Verdict = Raise(failure: Failure) | Delegate

  const Conflict := 409
  const BadRequest := 400

  /** The `detail` and `scimType` of a SCIM error body, read in that order. */
  function ScimError(json: Result<Doc, JsonError>): (r: Result<(string, string), JsonError>)
    ensures r.Ok? <==> json.Ok? && GetString(json.value, "detail").Ok? && GetString(json.value, "scimType").Ok?
    ensures r.Ok? ==> json.value["detail"] == JStr(r.value.0) && json.value["scimType"] == JStr(r.value.1)
  {
    var doc :- json;
    var detail :- GetString(doc, "detail");
    var scimType :- GetString(doc, "scimType");
    Ok((detail, scimType))
  }

  /**
   * The decision for a response with this status, body text and parsed body
   * (Err when the text is not a JSON object).
   */
  function Classify(status: int, body: string, json: Result<Doc, JsonError>): (v: Verdict)
    ensures v.Delegate? <==> status != Conflict && status != BadRequest
    ensures v.Raise? && v.failure.AlreadyExists? <==>
      status == Conflict && ScimError(json).Ok? && ScimError(json).value.1 == "uniqueness"
    ensures v.Raise? && v.failure.InvalidAttributeValue? <==>
      status == BadRequest && ScimError(json).Ok? && ScimError(json).value.1 == "invalidValue"
    ensures v.Raise? && v.failure.AlreadyExists? ==> v.failure.message == "uniqueness: " + json.value["detail"].s
    ensures v.Raise? && v.failure.InvalidAttributeValue? ==> v.failure.message == "invalidValue: " + json.value["detail"].s
    ensures v.Raise? ==> v.failure.AlreadyExists? || v.failure.InvalidAttributeValue? || v.failure.ConnectorIO?
    ensures (status == Conflict || status == BadRequest) && ScimError(json).Err? ==>
      v == Raise(ConnectorIO(Message(ScimError(json).error) + " when parsing result: " + body))
    ensures ((status == Conflict || status == BadRequest) && ScimError(json).Ok?
             && !(status == Conflict && ScimError(json).value.1 == "uniqueness")
             && !(status == BadRequest && ScimError(json).value.1 == "invalidValue")) ==>
      v == Raise(ConnectorIO("Error when process response: " + body))
  {
    if status == Conflict || status == BadRequest then
      match ScimError(json)
      case Err(e) => Raise(ConnectorIO(Message(e) + " when parsing result: " + body))
      case Ok((detail, scimType)) =>
        if status == Conflict && scimType == "uniqueness" then Raise(AlreadyExists("uniqueness: " + detail))
        else if status == BadRequest && scimType == "invalidValue" then Raise(InvalidAttributeValue("invalidValue: " + detail))
        else Raise(ConnectorIO("Error when process response: " + body))
    else Delegate
  }

  /** A scimType that belongs to the other status is not recognised: a 409 "invalidValue" is an I/O failure. */
  lemma CrossedScimTypes(body: string, detail: string)
    ensures var json := Ok(map["detail" := JStr(detail), "scimType" := JStr("invalidValue")]);
      Classify(Conflict, body, json) == Raise(ConnectorIO("Error when process response: " + body))
    ensures var json := Ok(map["detail" := JStr(detail), "scimType" := JStr("uniqueness")]);
      Classify(BadRequest, body, json) == Raise(ConnectorIO("Error when process response: " + body))
  {
    var j1: Result<Doc, JsonError> := Ok(map["detail" := JStr(detail), "scimType" := JStr("invalidValue")]);
    assert ScimError(j1) == Ok((detail, "invalidValue"));
    var j2: Result<Doc, JsonError> := Ok(map["detail" := JStr(detail), "scimType" := JStr("uniqueness")]);
    assert ScimError(j2) == Ok((detail, "uniqueness"));
  }

  /** A SCIM error body missing its scimType is reported with the library's message and the body. */
  lemma MissingScimType(status: int, body: string, detail: string)
    requires status == Conflict || status == BadRequest
    ensures Classify(status, body, Ok(map["detail" := JStr(detail)]))
      == Raise(ConnectorIO(Message(NotFound("scimType")) + " when parsing result: " + body))
  {
    var json: Result<Doc, JsonError> := Ok(map["detail" := JStr(detail)]);
    assert ScimError(json) == Err(NotFound("scimType"));
  }

  /** An HTTP response whose body can be read once; closing is counted. */
  class Response {
    const status: int
    const body: string
    const json: Result<Doc, JsonError>
    ghost var closeCount: nat

    constructor (status: int, body: string, json: Result<Doc, JsonError>)
      ensures this.status == status && this.body == body && this.json == json && closeCount == 0
    {
      this.status := status;
      this.body := body;
      this.json := json;
      closeCount := 0;
    }

    method Close()
      modifies this
      ensures closeCount == old(closeCount) + 1
    {
      closeCount := closeCount + 1;
    }
  }

  /**
   * processEduIdResponseErrors as the connector runs it: every path that
   * throws closes the response exactly once, and a delegated response is
   * left open for the inherited check.
   */
  method ProcessEduIdResponseErrors(response: Response) returns (v: Verdict)
    modifies response
    ensures v == Classify(response.status, response.body, response.json)
    ensures response.closeCount == old(response.closeCount) + if v.Raise? then 1 else 0
  {
    var statusCode := response.status;
    if statusCode == Conflict || statusCode == BadRequest {
      var result := response.body;
      var parsed := ScimError(response.json);
      if parsed.Err? {
        response.Close();
        return Raise(ConnectorIO(Message(parsed.error) + " when parsing result: " + result));
      }
      var errDetail := parsed.value.0;
      var scimType := parsed.value.1;
      if statusCode == Conflict {
        if scimType == "uniqueness" {
          response.Close();
          return Raise(AlreadyExists("uniqueness: " + errDetail));
        } else {
          response.Close();
          return Raise(ConnectorIO("Error when process response: " + result));
        }
      } else {
        if scimType == "invalidValue" {
          response.Close();
          return Raise(InvalidAttributeValue("invalidValue: " + errDetail));
        } else {
          response.Close();
          return Raise(ConnectorIO("Error when process response: " + result));
        }
      }
    }
    v := Delegate;
  }
}
