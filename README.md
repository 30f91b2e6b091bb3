# eduID affiliation connector — a Dafny model

This project models the core of the Evolveum eduID connector. The connector is
an identity-connector plugin that provisions *affiliation* records into a SCIM
service. It models these parts of the connector:

- the attribute catalog: four name lists and the two mandatory lists, and the
  schema derived from them;
- the affiliation document a create or update sends. This covers the
  mandatory-attribute check, the fixed `schemas` seed on create, and the three
  "put if exists" loops over the fetched or seeded JSON object;
- the conversion of a fetched record back into a connector object. This covers
  the four "get if exists" loops, and Uid and Name taken from
  `swissEduPersonUniqueID`;
- the SCIM error classifier for 409 and 400 responses, including when it closes
  the response;
- the operations `create`, `update`, `delete` and `executeQuery`, over a service
  given as a function from request to reply. Each operation returns what it
  returned or threw, together with the requests it sent;
- the filter translator, which turns a Uid or Name equality into a fetch by
  identifier.

The code that works step by step is modelled as methods over classes: the put
and get loops, `getIntMultiValAttr`, the schema builder, and the response error
check. Each method is proved equal to a specification function:

| method | specification function |
|---|---|
| `PutAllIfExists` | `Overlay` |
| `GetAllIfExists` | `Gather` |
| `BuildAffiliationDocument` | `Marshal` |
| `ConvertAffiliationToConnectorObject` | `Convert` |
| `ProcessEduIdResponseErrors` | `Classify` |

The properties are then proved about those functions:

- the per-key overlay theorem for the request document (`MarshalKey`), and that
  an update keeps every field it was not given (`UpdateOverlaysFetchedRecord`);
- the create round trip: the sent document converts back into the supplied
  values (`CreatedRecordReadsBack`);
- exactly when the request document is built (`MarshalSucceeds`) and when a
  record converts (`ConvertSucceeds`), with a concrete create that succeeds
  (`SampleCreateSucceeds`);
- which mandatory attribute decides the exception;
- the SCIM classification table;
- the guards that reject any object class other than `affiliation`.

The model follows the code as written, including where a reader might expect
otherwise:

- On a 409 "uniqueness" response, the duplicate exception's message is
  `"uniqueness: " + detail`, not the bare detail.
- A reply body that is not JSON ends in the JSON library's exception
  (`JsonFailure`), not an I/O exception.
- An update whose fetch finds no record throws whatever the inherited response
  check throws for that status (`Rejected(status)`). The connector's own
  `jo == null` test can never fire, because the parsing `callRequest` always
  returns an object.
- The single-int attribute `swissEduPersonGender` is in the schema and is read
  back. However, no put loop ever writes it, so it does not survive a round
  trip. `CreatedRecordReadsBack` states this.

The code that `EduIdConnector` inherits from `AbstractRestConnector` is not part
of this model. This covers `getStringAttr`, `getMultiValAttr`,
`processResponseErrors`, `execute` and `closeResponse`. The first two are given
the usual bodies of that library:

- the lookup stops at the first attribute of the name;
- a null or empty value list gives null, or an empty array;
- a null element is refused;
- a non-String value fails its cast.

The inherited response check is modelled only as "every status outside 2xx
throws `Rejected(status)`".

## Model

Source paths are relative to the repository root.

| member | source | states |
|---|---|---|
| Numbers.ParseInt | src/main/java/com/evolveum/polygon/connector/eduid/EduIdConnector.java:400 | Integer.parseInt: any result comes from an optionally signed, non-empty digit string and is a 32-bit int; an unsigned digit string parses to its value, and a `-` or `+` followed by digits to the negated or plain value, exactly when that value fits in 32 bits |
| Numbers.ToInt32 | src/main/java/com/evolveum/polygon/connector/eduid/EduIdConnector.java:511 | Number.intValue: the result is in the 32-bit range, congruent to the input modulo 2^32, and equal to it when it already fits |
| Numbers.ParseIntToString | src/main/java/com/evolveum/polygon/connector/eduid/EduIdFilterTranslator.java:44 | String.valueOf of any 32-bit int (`IntToString`: a minus sign for negatives, then `NatToString`'s digits) parses back to the same int |
| Numbers.NatToStringValue | src/main/java/com/evolveum/polygon/connector/eduid/EduIdFilterTranslator.java:44 | the decimal digits String.valueOf prints for a natural number have exactly that number as their value |
| Numbers.NatToString | src/main/java/com/evolveum/polygon/connector/eduid/EduIdFilterTranslator.java:44 | the digits of a natural number are canonical, and start with `0` exactly for zero |
| Numbers.IntToString | src/main/java/com/evolveum/polygon/connector/eduid/EduIdFilterTranslator.java:44 | String.valueOf of an int: canonical digits, preceded by a minus sign exactly for negatives |
| Json.IntOf | src/main/java/com/evolveum/polygon/connector/eduid/EduIdConnector.java:511 | what getInt accepts: a number (low 32 bits) or a numeric string; any result is a 32-bit int |
| Json.GetString | src/main/java/com/evolveum/polygon/connector/eduid/EduIdConnector.java:477 | getString succeeds exactly on a present string value and returns it |
| Json.GetInt | src/main/java/com/evolveum/polygon/connector/eduid/EduIdConnector.java:511 | getInt succeeds exactly on a present key whose value yields an int, and returns that int |
| Json.StringArray | src/main/java/com/evolveum/polygon/connector/eduid/EduIdConnector.java:376 | a String[] put into a JSONObject becomes an array of the same strings, in order |
| Json.IntArray | src/main/java/com/evolveum/polygon/connector/eduid/EduIdConnector.java:382 | an Integer[] put into a JSONObject becomes an array of the same numbers, in order |
| Failures.Lift | src/main/java/com/evolveum/polygon/connector/eduid/EduIdConnector.java:477 | a JSONException escapes unchanged; a value passes through |
| Catalog.CatalogDistinct | src/main/java/com/evolveum/polygon/connector/eduid/EduIdConnector.java:66-74 | no list repeats a name and the four lists are pairwise disjoint |
| Catalog.AllAttributesDistinct | src/main/java/com/evolveum/polygon/connector/eduid/EduIdConnector.java:66-74 | the whole catalog, in schema order, names every attribute once |
| Catalog.RequiredListsInCatalog | src/main/java/com/evolveum/polygon/connector/eduid/EduIdConnector.java:75-77 | every mandatory single name is a single string name, every mandatory multi name a multi string name, and `schemas` is not mandatory |
| Catalog.ObjectClassInfoBuilder.constructor | src/main/java/com/evolveum/polygon/connector/eduid/EduIdConnector.java:116 | a new builder has the default type and no attributes |
| Catalog.ObjectClassInfoBuilder.SetType | src/main/java/com/evolveum/polygon/connector/eduid/EduIdConnector.java:117 | sets the type and leaves the attributes alone |
| Catalog.ObjectClassInfoBuilder.AddAttributeInfo | src/main/java/com/evolveum/polygon/connector/eduid/EduIdConnector.java:124 | appends one info; the builder's refusal of a repeated name is its precondition |
| Catalog.ObjectClassInfoBuilder.Build | src/main/java/com/evolveum/polygon/connector/eduid/EduIdConnector.java:151 | the built class holds the type and the infos in the order they were added |
| Catalog.Infos | src/main/java/com/evolveum/polygon/connector/eduid/EduIdConnector.java:119-149 | one loop's infos name the list in order, carry the loop's type and cardinality, and are required exactly when a mandatory list names them |
| Catalog.AddAttributeInfos | src/main/java/com/evolveum/polygon/connector/eduid/EduIdConnector.java:119-125 | one schema loop appends exactly that list's infos, and the builder's names grow by the list |
| Catalog.AddCatalog | src/main/java/com/evolveum/polygon/connector/eduid/EduIdConnector.java:119-149 | the four loops over any four disjoint lists name them in order, with type, cardinality and required flag decided by the list |
| Catalog.BuildAffiliationObjectClass | src/main/java/com/evolveum/polygon/connector/eduid/EduIdConnector.java:115-152 | the `affiliation` class lists every catalog name once, in order; required iff mandatory, multi-valued iff from a multi list, Integer iff from an int list |
| Attributes.Find | src/main/java/com/evolveum/polygon/connector/eduid/EduIdConnector.java:387-388 | the lookup stops at the first attribute of the name, or finds none |
| Attributes.Found | src/main/java/com/evolveum/polygon/connector/eduid/EduIdConnector.java:387-389 | the value list of the first attribute of the name, if any |
| Attributes.StringAttr | src/main/java/com/evolveum/polygon/connector/eduid/EduIdConnector.java:367 | null exactly for an absent name, a null or empty list or a single null; a string exactly when the list is that one String, and then that String; refused exactly when the list has more than one value or its one value is an Integer |
| Attributes.MultiValAttr | src/main/java/com/evolveum/polygon/connector/eduid/EduIdConnector.java:374 | absent name gives the default, a null list an empty array; otherwise succeeds iff every element is a non-null String, and then returns them in order |
| Attributes.IntMultiValAttr | src/main/java/com/evolveum/polygon/connector/eduid/EduIdConnector.java:386-408 | absent name gives the default, a null or empty list an empty array; otherwise succeeds iff every element is a numeric String, returning the parsed 32-bit ints in order |
| Attributes.IntMultiValAttrFirstBad | src/main/java/com/evolveum/polygon/connector/eduid/EduIdConnector.java:395-402 | the exception is the one of the first element that fails, in list order |
| Attributes.IntMultiValAttrNull | src/main/java/com/evolveum/polygon/connector/eduid/EduIdConnector.java:397-398 | a null element after convertible ones is refused with the "must be not null" message |
| Attributes.GetIntMultiValAttr | src/main/java/com/evolveum/polygon/connector/eduid/EduIdConnector.java:386-408 | the scan and index loop compute exactly IntMultiValAttr, including which exception |
| Marshal.SingleMandatory | src/main/java/com/evolveum/polygon/connector/eduid/EduIdConnector.java:317-322 | passes iff the single value is present and not blank (`IsBlank`, StringUtil.isBlank: null, or only characters up to the space); otherwise the missing-attribute message shows "null" or the blank value |
| Marshal.MultiMandatory | src/main/java/com/evolveum/polygon/connector/eduid/EduIdConnector.java:324-329 | passes iff the array is present and non-empty; the message distinguishes null from empty |
| Marshal.CheckMandatory | src/main/java/com/evolveum/polygon/connector/eduid/EduIdConnector.java:315-330 | passes iff every mandatory single and multi check passes |
| Marshal.Seed | src/main/java/com/evolveum/polygon/connector/eduid/EduIdConnector.java:301-333 | update starts from the fetched record; create starts from only the schema URN, and only once the mandatory check passes |
| Marshal.WriterOf | src/main/java/com/evolveum/polygon/connector/eduid/EduIdConnector.java:335-343 | the put loop that writes a key is the one whose list holds it |
| Marshal.OverlayKey | src/main/java/com/evolveum/polygon/connector/eduid/EduIdConnector.java:335-337 | `Overlay`, one put loop as a function of the attributes (`Lookup` is what one helper writes for a name): after it a listed key holds the value found for it, if any, and every other key is unchanged |
| Marshal.MarshalKey | src/main/java/com/evolveum/polygon/connector/eduid/EduIdConnector.java:301-343 | `Marshal`, the request document as a function of the fetched record and the attributes: in it a key holds what its put loop found, and otherwise exactly what the seed had |
| Marshal.OverlaySucceeds | src/main/java/com/evolveum/polygon/connector/eduid/EduIdConnector.java:335-337 | a put loop completes iff every lookup of its list succeeds, whatever the document it starts from |
| Marshal.LookupsOkByList | src/main/java/com/evolveum/polygon/connector/eduid/EduIdConnector.java:335-343 | every name with a put helper looks up without failure iff each of the three put lists does |
| Marshal.MarshalByList | src/main/java/com/evolveum/polygon/connector/eduid/EduIdConnector.java:301-343 | the document is built iff the seed is and each of the three put loops completes |
| Marshal.MarshalSucceeds | src/main/java/com/evolveum/polygon/connector/eduid/EduIdConnector.java:301-343 | the document is built iff, on create, the mandatory check passes, and every put helper's lookup succeeds; the fetched record never makes an update's build fail |
| Marshal.MandatorySingleFirst | src/main/java/com/evolveum/polygon/connector/eduid/EduIdConnector.java:317-322 | on create, the first failing mandatory single name decides the exception |
| Marshal.MandatoryMultiFirst | src/main/java/com/evolveum/polygon/connector/eduid/EduIdConnector.java:324-329 | with all singles present, the first failing mandatory multi name decides the exception |
| Marshal.JsonObject.constructor | src/main/java/com/evolveum/polygon/connector/eduid/EduIdConnector.java:302 | the object starts with the given entries |
| Marshal.JsonObject.Put | src/main/java/com/evolveum/polygon/connector/eduid/EduIdConnector.java:369 | put replaces the key's value and changes nothing else |
| Marshal.PutStringIfExists | src/main/java/com/evolveum/polygon/connector/eduid/EduIdConnector.java:366-371 | puts the single string exactly when one is supplied, else leaves the object alone or throws what the lookup throws |
| Marshal.PutStringArrayIfExists | src/main/java/com/evolveum/polygon/connector/eduid/EduIdConnector.java:373-378 | puts the string array exactly when the name is supplied |
| Marshal.PutIntArrayIfExists | src/main/java/com/evolveum/polygon/connector/eduid/EduIdConnector.java:379-384 | puts the parsed int array exactly when the name is supplied |
| Marshal.PutIfExists | src/main/java/com/evolveum/polygon/connector/eduid/EduIdConnector.java:335-343 | one loop pass does what its helper's lookup says |
| Marshal.PutAllIfExists | src/main/java/com/evolveum/polygon/connector/eduid/EduIdConnector.java:335-337 | a put loop leaves the object equal to Overlay of the old one, or throws the first lookup's exception |
| Marshal.CheckRequiredSingles | src/main/java/com/evolveum/polygon/connector/eduid/EduIdConnector.java:317-322 | the loop throws the first failing check's exception, or passes when all pass |
| Marshal.CheckRequiredMultis | src/main/java/com/evolveum/polygon/connector/eduid/EduIdConnector.java:324-329 | as above, for the multi names |
| Marshal.CheckMandatoryAttributes | src/main/java/com/evolveum/polygon/connector/eduid/EduIdConnector.java:315-330 | the two loops compute CheckMandatory |
| Marshal.BuildAffiliationDocument | src/main/java/com/evolveum/polygon/connector/eduid/EduIdConnector.java:301-343 | the imperative construction yields exactly Marshal's document or exception |
| Unmarshal.Read | src/main/java/com/evolveum/polygon/connector/eduid/EduIdConnector.java:500-554 | per helper: absent or JSON-null adds nothing; strings need a string, ints a number or numeric string; a multi key reads an array element-wise, keeps a bare string as one String, and refuses anything else with the unsupported-value exception (`UnsupportedValue`) |
| Unmarshal.Convert | src/main/java/com/evolveum/polygon/connector/eduid/EduIdConnector.java:472-498 | a missing or non-string identifier fails with the JSON exception; on success Uid and Name are both the record's identifier and the class is `affiliation` |
| Unmarshal.ReaderOf | src/main/java/com/evolveum/polygon/connector/eduid/EduIdConnector.java:481-492 | the get loop that reads a key is the one whose list holds it; none for names outside the catalog |
| Unmarshal.ConvertKey | src/main/java/com/evolveum/polygon/connector/eduid/EduIdConnector.java:481-492 | the object has an attribute for a key iff it is a catalog key present and non-null in the record, and its values are what that key's helper reads |
| Unmarshal.GatherSucceeds | src/main/java/com/evolveum/polygon/connector/eduid/EduIdConnector.java:481-483 | a get loop completes iff every read of its list succeeds, whatever was gathered before |
| Unmarshal.ReadsOkByList | src/main/java/com/evolveum/polygon/connector/eduid/EduIdConnector.java:481-492 | every catalog key reads without failure iff each of the four get lists does |
| Unmarshal.ConvertByList | src/main/java/com/evolveum/polygon/connector/eduid/EduIdConnector.java:472-498 | a record converts iff its identifier is a string and each of the four get loops completes |
| Unmarshal.ConvertSucceeds | src/main/java/com/evolveum/polygon/connector/eduid/EduIdConnector.java:472-498 | a record converts iff its identifier is a string and every catalog key it holds reads without failure; keys outside the catalog, such as server metadata, never make it fail |
| Unmarshal.ConnectorObjectBuilder.constructor | src/main/java/com/evolveum/polygon/connector/eduid/EduIdConnector.java:473 | a new builder has the default class, no Uid, no Name, no attributes |
| Unmarshal.ConnectorObjectBuilder.SetObjectClass | src/main/java/com/evolveum/polygon/connector/eduid/EduIdConnector.java:475 | sets the class only |
| Unmarshal.ConnectorObjectBuilder.SetUid | src/main/java/com/evolveum/polygon/connector/eduid/EduIdConnector.java:478 | sets the Uid only |
| Unmarshal.ConnectorObjectBuilder.SetName | src/main/java/com/evolveum/polygon/connector/eduid/EduIdConnector.java:479 | sets the Name only |
| Unmarshal.ConnectorObjectBuilder.AddAttribute | src/main/java/com/evolveum/polygon/connector/eduid/EduIdConnector.java:526 | a later attribute of a name replaces an earlier one; nothing else changes |
| Unmarshal.ConnectorObjectBuilder.Build | src/main/java/com/evolveum/polygon/connector/eduid/EduIdConnector.java:494 | the object carries exactly the builder's class, Uid, Name and attributes |
| Unmarshal.GetStringIfExists | src/main/java/com/evolveum/polygon/connector/eduid/EduIdConnector.java:500-506 | adds the string exactly as Read says, or throws what getString throws |
| Unmarshal.GetIntIfExists | src/main/java/com/evolveum/polygon/connector/eduid/EduIdConnector.java:508-514 | adds the int exactly as Read says, or throws what getInt throws |
| Unmarshal.GetMultiStringIfExists | src/main/java/com/evolveum/polygon/connector/eduid/EduIdConnector.java:516-534 | the element loop adds exactly Read's values, or throws the first bad element's exception or the unsupported-value exception |
| Unmarshal.GetMultiIntIfExists | src/main/java/com/evolveum/polygon/connector/eduid/EduIdConnector.java:536-554 | as above, for ints |
| Unmarshal.GetIfExists | src/main/java/com/evolveum/polygon/connector/eduid/EduIdConnector.java:481-492 | one loop pass does what its reader's Read says |
| Unmarshal.GetAllIfExists | src/main/java/com/evolveum/polygon/connector/eduid/EduIdConnector.java:481-483 | a get loop leaves the builder's attributes equal to `Gather` (the loop as a function: each name of the list read in order and put, stopping at the first failure), or throws the first failure |
| Unmarshal.ConvertAffiliationToConnectorObject | src/main/java/com/evolveum/polygon/connector/eduid/EduIdConnector.java:472-498 | the imperative conversion yields exactly Convert's object or exception |
| Classifier.ScimError | src/main/java/com/evolveum/polygon/connector/eduid/EduIdConnector.java:250-253 | succeeds iff the body is an object with string `detail` and `scimType`, and returns them |
| Classifier.Classify | src/main/java/com/evolveum/polygon/connector/eduid/EduIdConnector.java:239-293 | only 409 and 400 throw here; duplicate iff 409 with "uniqueness", bad value iff 400 with "invalidValue", each with "type: detail"; any other scimType on a 409/400 is an I/O failure with the message "Error when process response: " and the body; a body without the fields reports the parse message and the body |
| Classifier.CrossedScimTypes | src/main/java/com/evolveum/polygon/connector/eduid/EduIdConnector.java:259-264 | a scimType meant for the other status is an I/O failure, not the specific exception |
| Classifier.MissingScimType | src/main/java/com/evolveum/polygon/connector/eduid/EduIdConnector.java:250-257 | a 409/400 body without scimType reports the library's not-found message followed by the body |
| Classifier.Response.constructor | src/main/java/com/evolveum/polygon/connector/eduid/EduIdConnector.java:240 | a response starts unclosed |
| Classifier.Response.Close | src/main/java/com/evolveum/polygon/connector/eduid/EduIdConnector.java:255 | closing is counted |
| Classifier.ProcessEduIdResponseErrors | src/main/java/com/evolveum/polygon/connector/eduid/EduIdConnector.java:239-293 | decides exactly Classify, and closes the response once on every throwing path and never otherwise |
| Filter.ValueOf | src/main/java/com/evolveum/polygon/connector/eduid/EduIdFilterTranslator.java:44 | String.valueOf keeps a string and renders an int in canonical decimal form: digits with no leading zero (a lone `0` for zero), and a minus sign before them exactly for negatives |
| Filter.ValueOfIntParses | src/main/java/com/evolveum/polygon/connector/eduid/EduIdFilterTranslator.java:44 | an Integer identifier rendered by String.valueOf parses back to itself |
| Filter.CreateEqualsExpression | src/main/java/com/evolveum/polygon/connector/eduid/EduIdFilterTranslator.java:32-50 | a query exists iff the filter is not negated, is on Uid or Name, and has a non-null first value, and it fetches that value; an empty value list fails reading element 0; everything else is unsupported |
| Filter.LaterValuesIgnored | src/main/java/com/evolveum/polygon/connector/eduid/EduIdFilterTranslator.java:42-44 | values after the first never change the translation |
| Connector.Accepted | src/main/java/com/evolveum/polygon/connector/eduid/EduIdConnector.java:292 | a reply gets through iff its status is 2xx; a SCIM-classified failure is thrown as classified |
| Connector.CallForDocument | src/main/java/com/evolveum/polygon/connector/eduid/EduIdConnector.java:183-201 | the parsed body is returned iff the reply is accepted and is a JSON object |
| Connector.ReturnedUid | src/main/java/com/evolveum/polygon/connector/eduid/EduIdConnector.java:355-359 | the returned Uid is the identifier string the reply carries; without one the JSON exception escapes |
| Connector.CreateOrUpdateAffiliation | src/main/java/com/evolveum/polygon/connector/eduid/EduIdConnector.java:295-363 | no or empty attributes send nothing and return the given Uid; create throws the first mandatory or lookup exception and sends nothing, and otherwise sends exactly one POST to the collection carrying `Marshal`'s document and returns the identifier of that reply (or its failure); update sends a GET of the record and throws its failure, else builds the document from the fetched record, throwing any lookup exception, and otherwise sends exactly one PUT of it to the record and returns the identifier of that reply (or its failure); any success returns the identifier the last reply carries |
| Connector.Create | src/main/java/com/evolveum/polygon/connector/eduid/EduIdConnector.java:154-162 | another object class (`IsAffiliation`: the name compared ignoring case) is unsupported and sends nothing, with the message `UnsupportedObjectClass` builds; `affiliation` (any case) is a createOrUpdate without Uid |
| Connector.AffiliationInAnyCase | src/main/java/com/evolveum/polygon/connector/eduid/EduIdConnector.java:156 | ObjectClass.is accepts `affiliation` in any letter case and refuses other names, longer ones included |
| Connector.Update | src/main/java/com/evolveum/polygon/connector/eduid/EduIdConnector.java:430-437 | another object class is unsupported and sends nothing; `affiliation` is a createOrUpdate with the Uid |
| Connector.DeleteAffiliation | src/main/java/com/evolveum/polygon/connector/eduid/EduIdConnector.java:414-428 | another object class is unsupported; `affiliation` sends one DELETE of the record, succeeds iff the reply is 2xx, and otherwise throws exactly what the reply check throws: the classified SCIM exception for a 409 or 400, else the inherited check's |
| Connector.ExecuteQuery | src/main/java/com/evolveum/polygon/connector/eduid/EduIdConnector.java:445-470 | another object class, or a query without identifier, is unsupported and sends nothing; a query by identifier sends one GET of that record and succeeds iff the fetch and the conversion both succeed, handing the handler exactly one object, the conversion of the reply; otherwise it throws the fetch's failure, or else the conversion's |
| Connector.UpdateOverlaysFetchedRecord | src/main/java/com/evolveum/polygon/connector/eduid/EduIdConnector.java:303-343 | the PUT of an update carries the fetched record with the supplied fields overlaid: a field with a value found holds it, every other key keeps the fetched value |
| Connector.UidFilterFetchesRecord | src/main/java/com/evolveum/polygon/connector/eduid/EduIdConnector.java:449-451 | a Uid equality filter becomes a query that fetches exactly that record, and the object handed on has the identifier the record carries |
| RoundTrip.SchemasIsMultiString | src/main/java/com/evolveum/polygon/connector/eduid/EduIdConnector.java:71 | `schemas` is written and read as a string array |
| RoundTrip.IntArrayReadsBack | src/main/java/com/evolveum/polygon/connector/eduid/EduIdConnector.java:541-546 | an array of 32-bit numbers reads back as the same Integer values |
| RoundTrip.StringArrayReadsBack | src/main/java/com/evolveum/polygon/connector/eduid/EduIdConnector.java:521-526 | an array of strings reads back as the same String values |
| RoundTrip.CreatedWritten | src/main/java/com/evolveum/polygon/connector/eduid/EduIdConnector.java:331-343 | every key of a create's document holds what its put loop found, or else what the schema seed has |
| RoundTrip.StringKeyReadsBack | src/main/java/com/evolveum/polygon/connector/eduid/EduIdConnector.java:500-506 | a single string key of a created document reads back as the supplied string |
| RoundTrip.IntKeyReadsBack | src/main/java/com/evolveum/polygon/connector/eduid/EduIdConnector.java:508-514 | the single int key of a created document reads back as nothing |
| RoundTrip.MultiStringKeyReadsBack | src/main/java/com/evolveum/polygon/connector/eduid/EduIdConnector.java:516-534 | a multi string key reads back as the supplied strings, or the schema URN for an unsupplied `schemas` |
| RoundTrip.MultiIntKeyReadsBack | src/main/java/com/evolveum/polygon/connector/eduid/EduIdConnector.java:536-554 | a multi int key reads back as the parsed values |
| RoundTrip.WrittenKeyReadsBack | src/main/java/com/evolveum/polygon/connector/eduid/EduIdConnector.java:481-492 | every catalog key of a created document reads back as Echo says |
| RoundTrip.GatherWritten | src/main/java/com/evolveum/polygon/connector/eduid/EduIdConnector.java:481-492 | every get loop over a created document completes |
| RoundTrip.LoopReaders | src/main/java/com/evolveum/polygon/connector/eduid/EduIdConnector.java:481-492 | each get loop's names are read by that loop's helper |
| RoundTrip.WrittenConverts | src/main/java/com/evolveum/polygon/connector/eduid/EduIdConnector.java:472-498 | a created document that carries an identifier converts without failure |
| RoundTrip.CreatedIdentifier | src/main/java/com/evolveum/polygon/connector/eduid/EduIdConnector.java:477 | the identifier a create must supply is the string the document carries under the Uid key |
| RoundTrip.CreatedConverts | src/main/java/com/evolveum/polygon/connector/eduid/EduIdConnector.java:472-498 | a create's document always converts |
| RoundTrip.SampleMandatory | src/main/java/com/evolveum/polygon/connector/eduid/EduIdConnector.java:315-330 | a create supplying a non-blank string for every mandatory single name and a one-string array for every mandatory multi name passes the mandatory check |
| RoundTrip.SampleLookups | src/main/java/com/evolveum/polygon/connector/eduid/EduIdConnector.java:335-343 | every put helper's lookup succeeds on that create, which holds no int array name |
| RoundTrip.SampleCreateSucceeds | src/main/java/com/evolveum/polygon/connector/eduid/EduIdConnector.java:301-343 | that create's document is built, so a create can succeed and the round-trip lemmas describe real creates |
| RoundTrip.CreatedRecordReadsBack | src/main/java/com/evolveum/polygon/connector/eduid/EduIdConnector.java:331-343 | create round trip: the sent document converts, its Uid is the supplied identifier, each catalog key comes back with exactly the supplied values, and the single-int gender never comes back |

## Left out

- HTTP plumbing is not modelled: the request headers, `authHeader` and Basic credentials, the `Content-Type`, the entity encoding, logging, and reading and closing the body beyond the count kept by `ProcessEduIdResponseErrors`.
- `test`, `checkAlive`, `init`, `dispose` and `schema()`'s SchemaBuilder wrapper are not modelled. The JSONArray-returning `callRequest` is never called by the operations.
- I/O failures (`IOException` turned into `ConnectorIOException`) are not modelled: the service is a total function, so transport failures do not occur.
- The service's state is not modelled: each reply depends only on the request. A later GET is not required to reflect an earlier PUT.
- JSON text parsing is not modelled: a reply carries its parsed object, or an error that stands for the parse exception. Nested objects and floating-point numbers are not modelled.
- The `jo == null` / `affiliation == null` tests leading to `UnknownUidException` are not modelled. The parsing `callRequest` never returns null, so they are unreachable.
- A null `Uid` passed to `update` or `delete`, and a null attribute name, are not modelled.
- The classes inherited from the REST base class and the framework are not part of this model. Their bodies are assumed as described above: `getStringAttr`, `getMultiValAttr`, `addAttr`, `processResponseErrors`, `ObjectClassInfoBuilder`, `ConnectorObjectBuilder`.
- `src/test/java/com/evolveum/polygon/connector/eduid/TestClient.java` is a manual client and is not modelled.
- Connector.UnsupportedObjectClass: the message shows the class name, not the framework's `ObjectClass.toString` rendering.
- Connector.ExecuteQuery: the listing-unsupported message leaves out the rendering of the operation options.
- Connector.IsAffiliation: case is folded for ASCII letters only. Java's `equalsIgnoreCase` also folds other letters.
- Unmarshal.Read: the unsupported-value message leaves out the renderings of the value and of the whole document.
- Marshal.MultiMandatory: the message for an empty array shows the array type prefix but not the identity hash Java prints after it.
- Json.GetString, Json.GetInt, Json.IntOf: the org.json version is not fixed by any file of the connector, so the model assumes the current library. There `getString` refuses a value that is not a string, instead of returning its `toString()` as older versions do, and `getInt` takes a number's `intValue()` or parses a string with `Integer.parseInt`. `Connector.ReturnedUid`, `Unmarshal.Read` and `Unmarshal.Convert` inherit this choice.
- Numbers.ParseInt: only ASCII digits are accepted, whereas `Integer.parseInt` also accepts other Unicode decimal digits.
- Filter.CreateEqualsExpression: the compound filters (AND, OR and the rest) that the framework's base translator combines are not modelled. They give no query here.
