/**
 * The connector's operations: create, update, delete and executeQuery on
 * the affiliation object class. The service is a function from a request to
 * its reply; each operation returns its outcome together with the requests
 * it sent, in order.
 */
module Connector {
  import opened Base
  import opened Json
  import opened Failures
  import opened Catalog
  import opened Attributes
  import opened Marshal
  import opened Unmarshal
  import opened Classifier
  import opened Filter

  /** An HTTP request: the resource path and, for POST and PUT, the JSON body. */
  datatype Request = Get(path: string) | Post(path: string, body: Doc) | Put(path: string, body: Doc) | Delete(path: string)

  /** An HTTP reply: status, body text, and the body parsed as a JSON object (Err when it is not one). */
  datatype Reply = Reply(status: int, body: string, json: Result<Doc, JsonError>)

  /** What an operation returned or threw, and the requests it sent. */
  datatype Outcome<T> = Outcome(result: Result<T, Failure>, sent: seq<Request>)

  function CollectionPath(address: string): string {
    address + Affiliations
  }

  function ItemPath(address: string, id: string): string {
    address + Affiliations + "/" + id
  }

  function Lower(c: char): char {
    if 'A' <= c <= 'Z' then (c as int + 32) as char else c
  }

  /** ObjectClass.is: the class name compared ignoring case. */
  predicate IsAffiliation(objectClass: string) {
    |objectClass| == |AffiliationObjectClass|
    && forall i :: 0 <= i < |objectClass| ==> Lower(objectClass[i]) == Lower(AffiliationObjectClass[i])
  }

  /** The class name is matched in any letter case, and no other name passes. */
  lemma AffiliationInAnyCase()
    ensures IsAffiliation("affiliation") && IsAffiliation("Affiliation") && IsAffiliation("AFFILIATION")
    ensures !IsAffiliation("account") && !IsAffiliation("affiliations") && !IsAffiliation("")
  {
    assert Lower('A') == 'a';
    assert Lower('F') == 'f' && Lower('I') == 'i' && Lower('L') == 'l';
    assert Lower('T') == 't' && Lower('O') == 'o' && Lower('N') == 'n';
    assert !IsAffiliation("account") by {
      assert Lower("account"[1]) != Lower(AffiliationObjectClass[1]);
    }
  }

  function UnsupportedObjectClass(objectClass: string): Failure {
    UnsupportedOperation("Unsupported object class " + objectClass)
  }

  const ListingUnsupported := UnsupportedOperation("Unsupported listing operation in SCIM API")

  /**
   * The error checks a reply passes before its body is used: the SCIM
   * classification, then the inherited check, which lets only 2xx through.
   */
  function Accepted(reply: Reply): (r: Result<(), Failure>)
    ensures r.Ok? <==> 200 <= reply.status < 300
    ensures Classify(reply.status, reply.body, reply.json).Raise? ==>
      r == Err(Classify(reply.status, reply.body, reply.json).failure)
  {
    match Classify(reply.status, reply.body, reply.json)
    case Raise(f) => Err(f)
    case Delegate => if 200 <= reply.status < 300 then Ok(()) else Err(Rejected(reply.status))
  }

  /** callRequest returning the parsed reply body. */
  function CallForDocument(server: Request -> Reply, request: Request): (r: Result<Doc, Failure>)
    ensures r.Ok? <==> Accepted(server(request)).Ok? && server(request).json.Ok?
    ensures r.Ok? ==> r.value == server(request).json.value
  {
    var accepted :- Accepted(server(request));
    Lift(server(request).json)
  }

  /** The Uid createOrUpdateAffiliation returns: the identifier the reply document carries. */
  function ReturnedUid(reply: Result<Doc, Failure>): (r: Result<Option<string>, Failure>)
    ensures r.Ok? <==> reply.Ok? && GetString(reply.value, UidAttribute).Ok?
    ensures r.Ok? ==> r.value.Some? && reply.value[UidAttribute] == JStr(r.value.value)
  {
    var doc :- reply;
    var newUid :- Lift(GetString(doc, UidAttribute));
    Ok(Some(newUid))
  }

  /**
   * createOrUpdateAffiliation: no Uid means create (mandatory check, POST
   * to the collection), a Uid means update (GET the record, overlay, PUT it
   * back). A null or empty attribute set sends nothing and returns the Uid
   * it was given.
   */
  function CreateOrUpdateAffiliation(server: Request -> Reply, address: string, uid: Option<string>,
                                     attributes: Option<AttributeSet>): (o: Outcome<Option<string>>)
    ensures attributes.None? || |attributes.value| == 0 ==> o == Outcome(Ok(uid), [])
    ensures attributes.Some? && |attributes.value| > 0 && uid.None? && CheckMandatory(attributes.value).Err? ==>
      o == Outcome(Err(CheckMandatory(attributes.value).error), [])
    ensures attributes.Some? && |attributes.value| > 0 && uid.None? ==>
      match Marshal.Marshal(None, attributes.value)
      case Err(f) => o == Outcome(Err(f), [])
      case Ok(doc) =>
        && o.sent == [Post(CollectionPath(address), doc)]
        && o.result == ReturnedUid(CallForDocument(server, o.sent[0]))
    ensures attributes.Some? && |attributes.value| > 0 && uid.Some? ==>
      var get := Get(ItemPath(address, uid.value));
      match CallForDocument(server, get)
      case Err(f) => o == Outcome(Err(f), [get])
      case Ok(fetched) =>
        match Marshal.Marshal(Some(fetched), attributes.value)
        case Err(f) => o == Outcome(Err(f), [get])
        case Ok(doc) =>
          && o.sent == [get, Put(ItemPath(address, uid.value), doc)]
          && o.result == ReturnedUid(CallForDocument(server, o.sent[1]))
    ensures attributes.Some? && |attributes.value| > 0 && o.result.Ok? ==>
      && o.result.value.Some? && |o.sent| > 0
      && var last := server(o.sent[|o.sent| - 1]);
      last.json.Ok? && UidAttribute in last.json.value && last.json.value[UidAttribute] == JStr(o.result.value.value)
  {
    if attributes.None? || |attributes.value| == 0 then Outcome(Ok(uid), [])
    else if uid.None? then
      match Marshal.Marshal(None, attributes.value)
      case Err(f) => Outcome(Err(f), [])
      case Ok(doc) =>
        var post := Post(CollectionPath(address), doc);
        Outcome(ReturnedUid(CallForDocument(server, post)), [post])
    else
      var get := Get(ItemPath(address, uid.value));
      match CallForDocument(server, get)
      case Err(f) => Outcome(Err(f), [get])
      case Ok(existing) =>
        match Marshal.Marshal(Some(existing), attributes.value)
        case Err(f) => Outcome(Err(f), [get])
        case Ok(doc) =>
          var put := Put(ItemPath(address, uid.value), doc);
          Outcome(ReturnedUid(CallForDocument(server, put)), [get, put])
  }

  /** create: affiliation objects only. */
  function Create(server: Request -> Reply, address: string, objectClass: string,
                  attributes: Option<AttributeSet>): (o: Outcome<Option<string>>)
    ensures !IsAffiliation(objectClass) ==> o == Outcome(Err(UnsupportedObjectClass(objectClass)), [])
    ensures IsAffiliation(objectClass) ==> o == CreateOrUpdateAffiliation(server, address, None, attributes)
  {
    if IsAffiliation(objectClass) then CreateOrUpdateAffiliation(server, address, None, attributes)
    else Outcome(Err(UnsupportedObjectClass(objectClass)), [])
  }

  /** update: affiliation objects only. */
  function Update(server: Request -> Reply, address: string, objectClass: string, uid: string,
                  attributes: Option<AttributeSet>): (o: Outcome<Option<string>>)
    ensures !IsAffiliation(objectClass) ==> o == Outcome(Err(UnsupportedObjectClass(objectClass)), [])
    ensures IsAffiliation(objectClass) ==> o == CreateOrUpdateAffiliation(server, address, Some(uid), attributes)
  {
    if IsAffiliation(objectClass) then CreateOrUpdateAffiliation(server, address, Some(uid), attributes)
    else Outcome(Err(UnsupportedObjectClass(objectClass)), [])
  }

  /** delete: one DELETE of the record, whose reply body is not read. */
  function DeleteAffiliation(server: Request -> Reply, address: string, objectClass: string, uid: string): (o: Outcome<()>)
    ensures !IsAffiliation(objectClass) ==> o == Outcome(Err(UnsupportedObjectClass(objectClass)), [])
    ensures IsAffiliation(objectClass) ==> o.sent == [Delete(ItemPath(address, uid))]
    ensures IsAffiliation(objectClass) ==> (o.result.Ok? <==> 200 <= server(Delete(ItemPath(address, uid))).status < 300)
    ensures IsAffiliation(objectClass) ==> o.result == Accepted(server(Delete(ItemPath(address, uid))))
  {
    if IsAffiliation(objectClass) then
      var request := Delete(ItemPath(address, uid));
      Outcome(Accepted(server(request)), [request])
    else Outcome(Err(UnsupportedObjectClass(objectClass)), [])
  }

  /**
   * executeQuery: only a query by identifier is supported; the record is
   * fetched, converted, and handed to the handler, once. The result is the
   * list of objects the handler received.
   */
  function ExecuteQuery(server: Request -> Reply, address: string, objectClass: string,
                        query: Option<EduIdFilter>): (o: Outcome<seq<ConnectorObject>>)
    ensures !IsAffiliation(objectClass) ==> o == Outcome(Err(UnsupportedObjectClass(objectClass)), [])
    ensures IsAffiliation(objectClass) && (query.None? || query.value.byUid.None?) ==>
      o == Outcome(Err(ListingUnsupported), [])
    ensures IsAffiliation(objectClass) && query.Some? && query.value.byUid.Some? ==>
      && o.sent == [Get(ItemPath(address, query.value.byUid.value))]
      && var d := CallForDocument(server, o.sent[0]);
      && (o.result.Ok? <==> d.Ok? && Convert(d.value).Ok?)
      && (d.Err? ==> o.result == Err(d.error))
      && (d.Ok? && Convert(d.value).Err? ==> o.result == Err(Convert(d.value).error))
    ensures o.result.Ok? ==>
      && |o.result.value| == 1 && |o.sent| == 1
      && CallForDocument(server, o.sent[0]).Ok?
      && Convert(CallForDocument(server, o.sent[0]).value) == Ok(o.result.value[0])
  {
    if !IsAffiliation(objectClass) then Outcome(Err(UnsupportedObjectClass(objectClass)), [])
    else if query.Some? && query.value.byUid.Some? then
      var request := Get(ItemPath(address, query.value.byUid.value));
      var found := CallForDocument(server, request);
      var result := (var doc :- found; var obj :- Convert(doc); Ok([obj]));
      Outcome(result, [request])
    else Outcome(Err(ListingUnsupported), [])
  }

  /**
   * The PUT of an update carries the fetched record with the supplied
   * attributes overlaid: a key whose put loop found a value holds that value,
   * and every other key keeps what the fetched record had.
   */
  lemma UpdateOverlaysFetchedRecord(server: Request -> Reply, address: string, uid: string,
                                    attributes: AttributeSet, body: Doc, k: string)
    requires |attributes| > 0
    requires Put(ItemPath(address, uid), body) in CreateOrUpdateAffiliation(server, address, Some(uid), Some(attributes)).sent
    ensures CallForDocument(server, Get(ItemPath(address, uid))).Ok?
    ensures var fetched := server(Get(ItemPath(address, uid))).json.value;
      && Marshal.Marshal(Some(fetched), attributes) == Ok(body)
      && (WriterOf(k).Some? && Lookup(WriterOf(k).value, attributes, k).Ok?
          && Lookup(WriterOf(k).value, attributes, k).value.Some? ==>
            k in body && body[k] == Lookup(WriterOf(k).value, attributes, k).value.value)
      && (WriterOf(k).None? || Lookup(WriterOf(k).value, attributes, k) == Ok(None) ==>
            (k in body <==> k in fetched) && (k in fetched ==> body[k] == fetched[k]))
  {
    var fetched := CallForDocument(server, Get(ItemPath(address, uid))).value;
    MarshalKey(Some(fetched), attributes, k);
  }

  /**
   * A Uid equality filter becomes a query that fetches exactly that record,
   * and a successful fetch hands the handler one object whose Uid is the
   * identifier the fetched record carries.
   */
  lemma UidFilterFetchesRecord(server: Request -> Reply, address: string, id: string)
    ensures CreateEqualsExpression(EqualsFilter(Attribute(UidName, Some([Some(Str(id))]))), false)
      == Ok(Some(EduIdFilter(Some(id))))
    ensures var o := ExecuteQuery(server, address, AffiliationObjectClass, Some(EduIdFilter(Some(id))));
      o.sent == [Get(ItemPath(address, id))]
      && (o.result.Ok? ==> server(Get(ItemPath(address, id))).json.value[UidAttribute] == JStr(o.result.value[0].uid))
  {
    assert IsAffiliation(AffiliationObjectClass);
  }
}
