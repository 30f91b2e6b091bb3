/**
 * convertAffiliationToConnectorObject: the record document read back into
 * the host's connector object, with Uid and Name both taken from the
 * record's identifier and one attribute per catalog key the document
 * carries with a non-null value.
 */
module Unmarshal {
  import opened Base
  import opened Json
  import opened Failures
  import opened Catalog
  import opened Attributes

  /**
   * The object handed to the host. Its attributes are keyed by name, as the
   * framework's object builder keeps them.
   */
  datatype ConnectorObject = ConnectorObject(objectClass: string, uid: string, name: string, fields: map<string, seq<Value>>)

  /** The four get helpers: getStringIfExists, getIntIfExists, getMultiStringIfExists, getMultiIntIfExists. */
  datatype Reader = StringReader | IntReader | MultiStringReader | MultiIntReader

  /** A get helper looks at a key only when the document has it with a value other than JSON null. */
  predicate Present(doc: Doc, key: string) {
    key in doc && doc[key] != JNull
  }

  /** The refusal of a multi-valued key that holds neither an array nor a string. */
  function UnsupportedValue(attrName: string): Failure {
    InvalidAttributeValue("Unsupported value for attribute name '" + attrName + "'")
  }

  function Strs(ss: seq<string>): (vs: seq<Value>)
    ensures |vs| == |ss| && forall i :: 0 <= i < |ss| ==> vs[i] == Str(ss[i])
  {
    seq(|ss|, i requires 0 <= i < |ss| => Str(ss[i]))
  }

  function Ints(ns: seq<int>): (vs: seq<Value>)
    ensures |vs| == |ns| && forall i :: 0 <= i < |ns| ==> vs[i] == Int(ns[i])
  {
    seq(|ns|, i requires 0 <= i < |ns| => Int(ns[i]))
  }

  /**
   * What a get helper adds for a key (None: nothing), or why it throws.
   * A string key needs a JSON string and an int key a number or numeric
   * string; a multi-valued key takes an array element by element, or a bare
   * string as a single String value, and refuses anything else.
   */
  function Read(reader: Reader, doc: Doc, name: string): (r: Result<Option<seq<Value>>, Failure>)
    ensures !Present(doc, name) ==> r == Ok(None)
    ensures Present(doc, name) && r.Ok? ==> r.value.Some?
    ensures Present(doc, name) && reader == StringReader ==>
      (r.Ok? <==> doc[name].JStr?) && (r.Ok? ==> r.value.value == [Str(doc[name].s)])
    ensures Present(doc, name) && reader == IntReader ==>
      (r.Ok? <==> IntOf(doc[name]).Some?) && (r.Ok? ==> r.value.value == [Int(IntOf(doc[name]).value)])
    ensures Present(doc, name) && (reader == MultiStringReader || reader == MultiIntReader) ==>
      match doc[name]
      case JArr(items) => r.Ok? ==> |r.value.value| == |items|
      case JStr(s) => r == Ok(Some([Str(s)]))
      case _ => r == Err(UnsupportedValue(name))
    ensures Present(doc, name) && reader == MultiStringReader && doc[name].JArr? ==>
      var items := doc[name].items;
      (r.Ok? <==> forall i :: 0 <= i < |items| ==> items[i].JStr?)
      && (r.Ok? ==> forall i :: 0 <= i < |items| ==> r.value.value[i] == Str(items[i].s))
    ensures Present(doc, name) && reader == MultiIntReader && doc[name].JArr? ==>
      var items := doc[name].items;
      (r.Ok? <==> forall i :: 0 <= i < |items| ==> IntOf(items[i]).Some?)
      && (r.Ok? ==> forall i :: 0 <= i < |items| ==> r.value.value[i] == Int(IntOf(items[i]).value))
  {
    if !Present(doc, name) then Ok(None)
    else match reader
      case StringReader =>
        var s :- Lift(GetString(doc, name));
        Ok(Some([Str(s)]))
      case IntReader =>
        var n :- Lift(GetInt(doc, name));
        Ok(Some([Int(n)]))
      case MultiStringReader =>
        (match doc[name]
         case JArr(items) =>
           var ss :- Lift(MapAll(Indexed(items), ElementString));
           Ok(Some(Strs(ss)))
         case JStr(s) => Ok(Some([Str(s)]))
         case _ => Err(UnsupportedValue(name)))
      case MultiIntReader =>
        match doc[name]
        case JArr(items) =>
          var ns :- Lift(MapAll(Indexed(items), ElementInt));
          Ok(Some(Ints(ns)))
        case JStr(s) => Ok(Some([Str(s)]))
        case _ => Err(UnsupportedValue(name))
  }

  /** One of the get loops: every name of the list in order, stopping at the first failure. */
  function Gather(fields: map<string, seq<Value>>, doc: Doc, reader: Reader, names: seq<string>): Result<map<string, seq<Value>>, Failure> {
    var vs :- MapAll(names, n => Read(reader, doc, n));
    Ok(PutAll(fields, names, vs))
  }

  /**
   * The connector object convertAffiliationToConnectorObject builds, or the
   * exception it throws first. Uid and Name are both the record's identifier
   * string; without one the conversion fails.
   */
  function Convert(doc: Doc): (r: Result<ConnectorObject, Failure>)
    ensures GetString(doc, UidAttribute).Err? ==> r == Err(JsonFailure(GetString(doc, UidAttribute).error))
    ensures r.Ok? ==>
      && UidAttribute in doc && doc[UidAttribute] == JStr(r.value.uid)
      && r.value.name == r.value.uid
      && r.value.objectClass == AffiliationObjectClass
  {
    var uid :- Lift(GetString(doc, UidAttribute));
    var f1 :- Gather(map[], doc, StringReader, SingleStringAttributes);
    var f2 :- Gather(f1, doc, IntReader, SingleIntAttributes);
    var f3 :- Gather(f2, doc, MultiStringReader, MultiStringAttributes);
    var f4 :- Gather(f3, doc, MultiIntReader, MultiIntAttributes);
    Ok(ConnectorObject(AffiliationObjectClass, uid, uid, f4))
  }

  /** The get loop, if any, that reads a key: non-catalog keys have none. */
  function ReaderOf(k: string): (r: Option<Reader>)
    ensures r == Some(StringReader) <==> k in SingleStringAttributes
    ensures r == Some(IntReader) <==> k in SingleIntAttributes
    ensures r == Some(MultiStringReader) <==> k in MultiStringAttributes
    ensures r == Some(MultiIntReader) <==> k in MultiIntAttributes
    ensures r.None? <==> k !in AllAttributes
  {
    CatalogDistinct();
    if k in SingleStringAttributes then Some(StringReader)
    else if k in SingleIntAttributes then Some(IntReader)
    else if k in MultiStringAttributes then Some(MultiStringReader)
    else if k in MultiIntAttributes then Some(MultiIntReader)
    else None
  }

  /**
   * The attribute a key yields: a catalog key that the document carries
   * with a non-null value yields exactly what its get helper reads, and any
   * other key (absent, null, or outside the catalog) yields no attribute.
   */
  lemma ConvertKey(doc: Doc, k: string)
    requires Convert(doc).Ok?
    ensures ReaderOf(k).Some? ==> Read(ReaderOf(k).value, doc, k).Ok?
    ensures k in Convert(doc).value.fields <==> ReaderOf(k).Some? && Present(doc, k)
    ensures k in Convert(doc).value.fields ==>
      Convert(doc).value.fields[k] == Read(ReaderOf(k).value, doc, k).value.value
  {
    CatalogDistinct();
    var f1 := Gather(map[], doc, StringReader, SingleStringAttributes).value;
    var f2 := Gather(f1, doc, IntReader, SingleIntAttributes).value;
    var f3 := Gather(f2, doc, MultiStringReader, MultiStringAttributes).value;
    OverlayAt(map[], SingleStringAttributes, n => Read(StringReader, doc, n), k);
    OverlayAt(f1, SingleIntAttributes, n => Read(IntReader, doc, n), k);
    OverlayAt(f2, MultiStringAttributes, n => Read(MultiStringReader, doc, n), k);
    OverlayAt(f3, MultiIntAttributes, n => Read(MultiIntReader, doc, n), k);
  }

  /** Every read of one list succeeds. */
  predicate ListReadsOk(doc: Doc, reader: Reader, names: seq<string>) {
    forall i :: 0 <= i < |names| ==> Read(reader, doc, names[i]).Ok?
  }

  /** Every catalog key is read without failure; keys outside the catalog are never read. */
  ghost predicate ReadsOk(doc: Doc) {
    forall k :: ReaderOf(k).Some? ==> Read(ReaderOf(k).value, doc, k).Ok?
  }

  /** The per-key condition is the per-list condition of the four get loops. */
  lemma ReadsOkByList(doc: Doc)
    ensures ReadsOk(doc) <==>
      && ListReadsOk(doc, StringReader, SingleStringAttributes)
      && ListReadsOk(doc, IntReader, SingleIntAttributes)
      && ListReadsOk(doc, MultiStringReader, MultiStringAttributes)
      && ListReadsOk(doc, MultiIntReader, MultiIntAttributes)
  {
    if ReadsOk(doc) {
      forall i | 0 <= i < |SingleStringAttributes|
        ensures Read(StringReader, doc, SingleStringAttributes[i]).Ok?
      {
        assert ReaderOf(SingleStringAttributes[i]) == Some(StringReader);
      }
      forall i | 0 <= i < |SingleIntAttributes|
        ensures Read(IntReader, doc, SingleIntAttributes[i]).Ok?
      {
        assert ReaderOf(SingleIntAttributes[i]) == Some(IntReader);
      }
      forall i | 0 <= i < |MultiStringAttributes|
        ensures Read(MultiStringReader, doc, MultiStringAttributes[i]).Ok?
      {
        assert ReaderOf(MultiStringAttributes[i]) == Some(MultiStringReader);
      }
      forall i | 0 <= i < |MultiIntAttributes|
        ensures Read(MultiIntReader, doc, MultiIntAttributes[i]).Ok?
      {
        assert ReaderOf(MultiIntAttributes[i]) == Some(MultiIntReader);
      }
    }
    if && ListReadsOk(doc, StringReader, SingleStringAttributes)
       && ListReadsOk(doc, IntReader, SingleIntAttributes)
       && ListReadsOk(doc, MultiStringReader, MultiStringAttributes)
       && ListReadsOk(doc, MultiIntReader, MultiIntAttributes)
    {
      forall k | ReaderOf(k).Some?
        ensures Read(ReaderOf(k).value, doc, k).Ok?
      {
        match ReaderOf(k).value
        case StringReader =>
          var i :| 0 <= i < |SingleStringAttributes| && SingleStringAttributes[i] == k;
        case IntReader =>
          var i :| 0 <= i < |SingleIntAttributes| && SingleIntAttributes[i] == k;
        case MultiStringReader =>
          var i :| 0 <= i < |MultiStringAttributes| && MultiStringAttributes[i] == k;
        case MultiIntReader =>
          var i :| 0 <= i < |MultiIntAttributes| && MultiIntAttributes[i] == k;
      }
    }
  }

  /** One get loop completes iff every read of its list succeeds, whatever it has gathered so far. */
  lemma GatherSucceeds(fields: map<string, seq<Value>>, doc: Doc, reader: Reader, names: seq<string>)
    ensures Gather(fields, doc, reader, names).Ok? <==> ListReadsOk(doc, reader, names)
  {
  }

  /** The conversion completes iff the identifier is a string and each of the four get loops completes. */
  lemma ConvertByList(doc: Doc)
    ensures Convert(doc).Ok? <==>
      && GetString(doc, UidAttribute).Ok?
      && ListReadsOk(doc, StringReader, SingleStringAttributes)
      && ListReadsOk(doc, IntReader, SingleIntAttributes)
      && ListReadsOk(doc, MultiStringReader, MultiStringAttributes)
      && ListReadsOk(doc, MultiIntReader, MultiIntAttributes)
  {
    GatherSucceeds(map[], doc, StringReader, SingleStringAttributes);
    if Gather(map[], doc, StringReader, SingleStringAttributes).Ok? {
      var f1 := Gather(map[], doc, StringReader, SingleStringAttributes).value;
      GatherSucceeds(f1, doc, IntReader, SingleIntAttributes);
      if Gather(f1, doc, IntReader, SingleIntAttributes).Ok? {
        var f2 := Gather(f1, doc, IntReader, SingleIntAttributes).value;
        GatherSucceeds(f2, doc, MultiStringReader, MultiStringAttributes);
        if Gather(f2, doc, MultiStringReader, MultiStringAttributes).Ok? {
          var f3 := Gather(f2, doc, MultiStringReader, MultiStringAttributes).value;
          GatherSucceeds(f3, doc, MultiIntReader, MultiIntAttributes);
        }
      }
    }
  }

  /**
   * When a record converts: it carries a string identifier and every
   * catalog key it holds reads without failure. Keys outside the catalog,
   * such as the server's own metadata, play no part.
   */
  lemma ConvertSucceeds(doc: Doc)
    ensures Convert(doc).Ok? <==> GetString(doc, UidAttribute).Ok? && ReadsOk(doc)
  {
    ReadsOkByList(doc);
    ConvertByList(doc);
  }

  // ------------------------------------------------------------------
  // The imperative conversion

  /** The framework's ConnectorObjectBuilder: attributes keyed by name, a later one replacing an earlier. */
  class ConnectorObjectBuilder {
    var objectClass: string
    var uid: Option<string>
    var name: Option<string>
    var attributes: map<string, seq<Value>>

    constructor ()
      ensures objectClass == "__ACCOUNT__" && uid.None? && name.None? && attributes == map[]
    {
      objectClass := "__ACCOUNT__";
      uid := None;
      name := None;
      attributes := map[];
    }

    method SetObjectClass(objectClass: string)
      modifies this
      ensures this.objectClass == objectClass && uid == old(uid) && name == old(name) && attributes == old(attributes)
    {
      this.objectClass := objectClass;
    }

    method SetUid(uid: string)
      modifies this
      ensures this.uid == Some(uid) && objectClass == old(objectClass) && name == old(name) && attributes == old(attributes)
    {
      this.uid := Some(uid);
    }

    method SetName(name: string)
      modifies this
      ensures this.name == Some(name) && objectClass == old(objectClass) && uid == old(uid) && attributes == old(attributes)
    {
      this.name := Some(name);
    }

    method AddAttribute(attrName: string, values: seq<Value>)
      modifies this
      ensures attributes == old(attributes)[attrName := values]
      ensures objectClass == old(objectClass) && uid == old(uid) && name == old(name)
    {
      attributes := attributes[attrName := values];
    }

    method Build() returns (obj: ConnectorObject)
      requires uid.Some? && name.Some?
      ensures obj == ConnectorObject(objectClass, uid.value, name.value, attributes)
    {
      obj := ConnectorObject(objectClass, uid.value, name.value, attributes);
    }
  }

  /** getStringIfExists. */
  method GetStringIfExists(doc: Doc, attrName: string, builder: ConnectorObjectBuilder) returns (r: Result<(), Failure>)
    modifies builder
    ensures PutStep(old(builder.attributes), builder.attributes, attrName, Read(StringReader, doc, attrName), r)
    ensures builder.objectClass == old(builder.objectClass) && builder.uid == old(builder.uid) && builder.name == old(builder.name)
  {
    if attrName in doc && doc[attrName] != JNull {
      var s := GetString(doc, attrName);
      if s.Err? {
        return Err(JsonFailure(s.error));
      }
      builder.AddAttribute(attrName, [Str(s.value)]);
    }
    r := Ok(());
  }

  /** getIntIfExists. */
  method GetIntIfExists(doc: Doc, attrName: string, builder: ConnectorObjectBuilder) returns (r: Result<(), Failure>)
    modifies builder
    ensures PutStep(old(builder.attributes), builder.attributes, attrName, Read(IntReader, doc, attrName), r)
    ensures builder.objectClass == old(builder.objectClass) && builder.uid == old(builder.uid) && builder.name == old(builder.name)
  {
    if attrName in doc && doc[attrName] != JNull {
      var n := GetInt(doc, attrName);
      if n.Err? {
        return Err(JsonFailure(n.error));
      }
      builder.AddAttribute(attrName, [Int(n.value)]);
    }
    r := Ok(());
  }

  /** getMultiStringIfExists: an array is copied element by element into a list. */
  method GetMultiStringIfExists(doc: Doc, attrName: string, builder: ConnectorObjectBuilder) returns (r: Result<(), Failure>)
    modifies builder
    ensures PutStep(old(builder.attributes), builder.attributes, attrName, Read(MultiStringReader, doc, attrName), r)
    ensures builder.objectClass == old(builder.objectClass) && builder.uid == old(builder.uid) && builder.name == old(builder.name)
  {
    if attrName in doc && doc[attrName] != JNull {
      var valueObject := doc[attrName];
      if valueObject.JArr? {
        var objectArray := valueObject.items;
        var values: seq<Value> := [];
        for i := 0 to |objectArray|
          invariant |values| == i
          invariant forall j :: 0 <= j < i ==> objectArray[j].JStr? && values[j] == Str(objectArray[j].s)
        {
          var element := ElementString((i, objectArray[i]));
          if element.Err? {
            MapAllFirstError(Indexed(objectArray), ElementString, i);
            assert Read(MultiStringReader, doc, attrName) == Err(JsonFailure(element.error));
            return Err(JsonFailure(element.error));
          }
          values := values + [Str(element.value)];
        }
        assert values == Strs(MapAll(Indexed(objectArray), ElementString).value);
        assert Read(MultiStringReader, doc, attrName) == Ok(Some(values));
        builder.AddAttribute(attrName, values);
      } else if valueObject.JStr? {
        builder.AddAttribute(attrName, [Str(valueObject.s)]);
      } else {
        return Err(UnsupportedValue(attrName));
      }
    }
    r := Ok(());
  }

  /** getMultiIntIfExists: an array is read element by element; a bare string stays a string. */
  method GetMultiIntIfExists(doc: Doc, attrName: string, builder: ConnectorObjectBuilder) returns (r: Result<(), Failure>)
    modifies builder
    ensures PutStep(old(builder.attributes), builder.attributes, attrName, Read(MultiIntReader, doc, attrName), r)
    ensures builder.objectClass == old(builder.objectClass) && builder.uid == old(builder.uid) && builder.name == old(builder.name)
  {
    if attrName in doc && doc[attrName] != JNull {
      var valueObject := doc[attrName];
      if valueObject.JArr? {
        var objectArray := valueObject.items;
        var values: seq<Value> := [];
        for i := 0 to |objectArray|
          invariant |values| == i
          invariant forall j :: 0 <= j < i ==> IntOf(objectArray[j]).Some? && values[j] == Int(IntOf(objectArray[j]).value)
        {
          var element := ElementInt((i, objectArray[i]));
          if element.Err? {
            MapAllFirstError(Indexed(objectArray), ElementInt, i);
            return Err(JsonFailure(element.error));
          }
          values := values + [Int(element.value)];
        }
        assert values == Ints(MapAll(Indexed(objectArray), ElementInt).value);
        builder.AddAttribute(attrName, values);
      } else if valueObject.JStr? {
        builder.AddAttribute(attrName, [Str(valueObject.s)]);
      } else {
        return Err(UnsupportedValue(attrName));
      }
    }
    r := Ok(());
  }

  /** One pass of a get loop, by the helper the loop calls. */
  method GetIfExists(doc: Doc, reader: Reader, attrName: string, builder: ConnectorObjectBuilder) returns (r: Result<(), Failure>)
    modifies builder
    ensures PutStep(old(builder.attributes), builder.attributes, attrName, Read(reader, doc, attrName), r)
    ensures builder.objectClass == old(builder.objectClass) && builder.uid == old(builder.uid) && builder.name == old(builder.name)
  {
    match reader
    case StringReader => r := GetStringIfExists(doc, attrName, builder);
    case IntReader => r := GetIntIfExists(doc, attrName, builder);
    case MultiStringReader => r := GetMultiStringIfExists(doc, attrName, builder);
    case MultiIntReader => r := GetMultiIntIfExists(doc, attrName, builder);
  }

  /** A get loop over a list of names; the first exception ends it. */
  method GetAllIfExists(doc: Doc, reader: Reader, names: seq<string>, builder: ConnectorObjectBuilder) returns (r: Result<(), Failure>)
    modifies builder
    ensures Gather(old(builder.attributes), doc, reader, names) == if r.Ok? then Ok(builder.attributes) else Err(r.error)
    ensures builder.objectClass == old(builder.objectClass) && builder.uid == old(builder.uid) && builder.name == old(builder.name)
  {
    ghost var f := n => Read(reader, doc, n);
    ghost var vs: seq<Option<seq<Value>>> := [];
    PutLoopStart(old(builder.attributes), names, f);
    for i := 0 to |names|
      invariant PutLoopAt(old(builder.attributes), names, f, i, vs, builder.attributes)
      invariant builder.objectClass == old(builder.objectClass) && builder.uid == old(builder.uid) && builder.name == old(builder.name)
    {
      ghost var before := builder.attributes;
      var step := GetIfExists(doc, reader, names[i], builder);
      assert f(names[i]) == Read(reader, doc, names[i]);
      if step.Err? {
        PutLoopFail(old(builder.attributes), names, f, i, vs, before, builder.attributes, step);
        return step;
      }
      PutLoopNext(old(builder.attributes), names, f, i, vs, before, builder.attributes, step);
      vs := vs + [f(names[i]).value];
    }
    PutLoopEnd(old(builder.attributes), names, f, vs, builder.attributes);
    r := Ok(());
  }

  /**
   * convertAffiliationToConnectorObject: object class, Uid and Name, then
   * the single string, single int, multi string and multi int get loops.
   */
  method ConvertAffiliationToConnectorObject(affiliation: Doc) returns (r: Result<ConnectorObject, Failure>)
    ensures r == Convert(affiliation)
  {
    var builder := new ConnectorObjectBuilder();
    builder.SetObjectClass(AffiliationObjectClass);
    var uid := GetString(affiliation, UidAttribute);
    if uid.Err? {
      return Err(JsonFailure(uid.error));
    }
    builder.SetUid(uid.value);
    builder.SetName(uid.value);
    var step := GetAllIfExists(affiliation, StringReader, SingleStringAttributes, builder);
    if step.Err? {
      return Err(step.error);
    }
    step := GetAllIfExists(affiliation, IntReader, SingleIntAttributes, builder);
    if step.Err? {
      return Err(step.error);
    }
    step := GetAllIfExists(affiliation, MultiStringReader, MultiStringAttributes, builder);
    if step.Err? {
      return Err(step.error);
    }
    step := GetAllIfExists(affiliation, MultiIntReader, MultiIntAttributes, builder);
    if step.Err? {
      return Err(step.error);
    }
    var obj := builder.Build();
    r := Ok(obj);
  }
}
