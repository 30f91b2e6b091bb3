/**
 * Writing and reading back: the document a create sends, once stored as it
 * is, converts back into a connector object that carries the identifier and
 * every value the create supplied, in the form the get helpers produce.
 */
module RoundTrip {
  import opened Base
  import opened Numbers
  import opened Json
  import opened Failures
  import opened Catalog
  import opened Attributes
  import opened Marshal
  import opened Unmarshal

  /**
   * The values a created record yields for a key when read back: the
   * supplied string, string array or int array (an int array comes back as
   * Integer values), the fixed schema when no schemas attribute was supplied,
   * and nothing for the single-int key or any key outside the catalog.
   */
  function Echo(attributes: AttributeSet, k: string): Option<seq<Value>> {
    match ReaderOf(k)
    case Some(StringReader) =>
      (match StringAttr(attributes, k)
       case Ok(Some(s)) => Some([Str(s)])
       case _ => None)
    case Some(MultiStringReader) =>
      (match MultiValAttr(attributes, k, None)
       case Ok(Some(ss)) => Some(Strs(ss))
       case _ => if k == Schemas then Some([Str(SchemasValue)]) else None)
    case Some(MultiIntReader) =>
      (match IntMultiValAttr(attributes, k, None)
       case Ok(Some(ns)) => Some(Ints(ns))
       case _ => None)
    case _ => None
  }

  /** The schemas key is written and read as a string array. */
  lemma SchemasIsMultiString()
    ensures ReaderOf(Schemas) == Some(MultiStringReader) && WriterOf(Schemas) == Some(StringArrayWriter)
  {
    assert MultiStringAttributes[0] == Schemas;
  }

  /** An int array written from parsed values reads back as the same Integer values. */
  lemma IntArrayReadsBack(doc: Doc, k: string, ns: seq<int>)
    requires k in doc && doc[k] == IntArray(ns)
    requires forall i :: 0 <= i < |ns| ==> InInt32(ns[i])
    ensures Read(MultiIntReader, doc, k) == Ok(Some(Ints(ns)))
  {
    var r := Read(MultiIntReader, doc, k);
    assert Present(doc, k);
    forall i | 0 <= i < |ns|
      ensures IntOf(doc[k].items[i]) == Some(ns[i])
    {
      assert doc[k].items[i] == JInt(ns[i]);
    }
    assert r.value.value == Ints(ns);
  }

  /** A string array reads back as the same String values. */
  lemma StringArrayReadsBack(doc: Doc, k: string, ss: seq<string>)
    requires k in doc && doc[k] == StringArray(ss)
    ensures Read(MultiStringReader, doc, k) == Ok(Some(Strs(ss)))
  {
    var r := Read(MultiStringReader, doc, k);
    assert Present(doc, k);
    assert r.value.value == Strs(ss);
  }

  /**
   * How a create leaves one key of its document: the value its put loop
   * found, or else the key as the seed (holding only the schema) has it.
   */
  predicate Written(attributes: AttributeSet, doc: Doc, k: string) {
    && (WriterOf(k).Some? ==> Lookup(WriterOf(k).value, attributes, k).Ok?)
    && if WriterOf(k).Some? && Lookup(WriterOf(k).value, attributes, k).value.Some? then
         k in doc && doc[k] == Lookup(WriterOf(k).value, attributes, k).value.value
       else
         (k in doc <==> k in CreateSeed) && (k in CreateSeed ==> doc[k] == CreateSeed[k])
  }

  lemma CreatedWritten(attributes: AttributeSet, doc: Doc, k: string)
    requires Marshal.Marshal(None, attributes) == Ok(doc)
    ensures Written(attributes, doc, k)
  {
    MarshalKey(None, attributes, k);
  }

  /** A single string key reads back as the supplied string, if any. */
  lemma StringKeyReadsBack(attributes: AttributeSet, doc: Doc, k: string)
    requires Written(attributes, doc, k) && ReaderOf(k) == Some(StringReader)
    ensures Read(StringReader, doc, k) == Ok(Echo(attributes, k))
  {
    SchemasIsMultiString();
    assert WriterOf(k) == Some(StringWriter);
  }

  /** The single int key is never written on create, so nothing reads back. */
  lemma IntKeyReadsBack(attributes: AttributeSet, doc: Doc, k: string)
    requires Written(attributes, doc, k) && ReaderOf(k) == Some(IntReader)
    ensures Read(IntReader, doc, k) == Ok(Echo(attributes, k))
  {
    SchemasIsMultiString();
    assert WriterOf(k).None?;
  }

  /** A multi string key reads back as the supplied array, or the fixed schema for schemas. */
  lemma MultiStringKeyReadsBack(attributes: AttributeSet, doc: Doc, k: string)
    requires Written(attributes, doc, k) && ReaderOf(k) == Some(MultiStringReader)
    ensures Read(MultiStringReader, doc, k) == Ok(Echo(attributes, k))
  {
    assert WriterOf(k) == Some(StringArrayWriter);
    if MultiValAttr(attributes, k, None).value.Some? {
      StringArrayReadsBack(doc, k, MultiValAttr(attributes, k, None).value.value);
    } else if k == Schemas {
      StringArrayReadsBack(doc, k, [SchemasValue]);
      assert Strs([SchemasValue]) == [Str(SchemasValue)];
    }
  }

  /** A multi int key reads back as the parsed Integer values, if any. */
  lemma MultiIntKeyReadsBack(attributes: AttributeSet, doc: Doc, k: string)
    requires Written(attributes, doc, k) && ReaderOf(k) == Some(MultiIntReader)
    ensures Read(MultiIntReader, doc, k) == Ok(Echo(attributes, k))
  {
    SchemasIsMultiString();
    assert WriterOf(k) == Some(IntArrayWriter);
    var ns := IntMultiValAttr(attributes, k, None).value;
    if ns.Some? {
      IntArrayReadsBack(doc, k, ns.value);
    }
  }

  /** Each catalog key of a document written this way reads back as Echo says. */
  lemma WrittenKeyReadsBack(attributes: AttributeSet, doc: Doc, k: string)
    requires Written(attributes, doc, k) && ReaderOf(k).Some?
    ensures Read(ReaderOf(k).value, doc, k) == Ok(Echo(attributes, k))
  {
    match ReaderOf(k).value
    case StringReader => StringKeyReadsBack(attributes, doc, k);
    case IntReader => IntKeyReadsBack(attributes, doc, k);
    case MultiStringReader => MultiStringKeyReadsBack(attributes, doc, k);
    case MultiIntReader => MultiIntKeyReadsBack(attributes, doc, k);
  }

  /** Every name of one get loop reads back without failure, so the loop completes. */
  lemma GatherWritten(attributes: AttributeSet, doc: Doc, fields: map<string, seq<Value>>, reader: Reader, names: seq<string>)
    requires forall n :: Written(attributes, doc, n)
    requires forall i :: 0 <= i < |names| ==> ReaderOf(names[i]) == Some(reader)
    ensures Gather(fields, doc, reader, names).Ok?
  {
    forall i | 0 <= i < |names|
      ensures Read(reader, doc, names[i]).Ok?
    {
      WrittenKeyReadsBack(attributes, doc, names[i]);
    }
  }

  /** Each get loop runs over names its reader is chosen for. */
  lemma LoopReaders()
    ensures forall i :: 0 <= i < |SingleStringAttributes| ==> ReaderOf(SingleStringAttributes[i]) == Some(StringReader)
    ensures forall i :: 0 <= i < |SingleIntAttributes| ==> ReaderOf(SingleIntAttributes[i]) == Some(IntReader)
    ensures forall i :: 0 <= i < |MultiStringAttributes| ==> ReaderOf(MultiStringAttributes[i]) == Some(MultiStringReader)
    ensures forall i :: 0 <= i < |MultiIntAttributes| ==> ReaderOf(MultiIntAttributes[i]) == Some(MultiIntReader)
  {
  }

  /** A document written this way, carrying an identifier, converts without failure. */
  lemma WrittenConverts(attributes: AttributeSet, doc: Doc)
    requires forall n :: Written(attributes, doc, n)
    requires GetString(doc, UidAttribute).Ok?
    ensures Convert(doc).Ok?
  {
    LoopReaders();
    GatherWritten(attributes, doc, map[], StringReader, SingleStringAttributes);
    var f1 := Gather(map[], doc, StringReader, SingleStringAttributes).value;
    GatherWritten(attributes, doc, f1, IntReader, SingleIntAttributes);
    var f2 := Gather(f1, doc, IntReader, SingleIntAttributes).value;
    GatherWritten(attributes, doc, f2, MultiStringReader, MultiStringAttributes);
    var f3 := Gather(f2, doc, MultiStringReader, MultiStringAttributes).value;
    GatherWritten(attributes, doc, f3, MultiIntReader, MultiIntAttributes);
  }

  /** The identifier a create must supply is the one the document carries. */
  lemma CreatedIdentifier(attributes: AttributeSet, doc: Doc)
    requires Marshal.Marshal(None, attributes) == Ok(doc)
    ensures StringAttr(attributes, UidAttribute).Ok? && StringAttr(attributes, UidAttribute).value.Some?
    ensures GetString(doc, UidAttribute) == Ok(StringAttr(attributes, UidAttribute).value.value)
  {
    assert SingleMandatory(attributes, RequiredSingleAttributes[6]).Ok?;
    MarshalKey(None, attributes, UidAttribute);
  }

  /** Every get loop completes on a created document, so the conversion succeeds. */
  lemma CreatedConverts(attributes: AttributeSet, doc: Doc)
    requires Marshal.Marshal(None, attributes) == Ok(doc)
    ensures Convert(doc).Ok?
  {
    CreatedIdentifier(attributes, doc);
    forall n
      ensures Written(attributes, doc, n)
    {
      CreatedWritten(attributes, doc, n);
    }
    WrittenConverts(attributes, doc);
  }

  /** A create that supplies "x" for every mandatory name and nothing else. */
  function SampleCreate(): (a: AttributeSet)
    ensures |a| == |RequiredSingleAttributes| + |RequiredMultiAttributes|
    ensures forall i :: 0 <= i < |a| ==>
      a[i].values == Some([Some(Str("x"))]) && a[i].name in RequiredSingleAttributes + RequiredMultiAttributes
  {
    var names := RequiredSingleAttributes + RequiredMultiAttributes;
    seq(|names|, i requires 0 <= i < |names| => Attribute(names[i], Some([Some(Str("x"))])))
  }

  /** Every lookup in the sample finds nothing, or the single value "x" of a mandatory name. */
  lemma SampleFound(k: string)
    ensures Found(SampleCreate(), k).None?
      || (Found(SampleCreate(), k) == Some(Some([Some(Str("x"))])) && k in RequiredSingleAttributes + RequiredMultiAttributes)
  {
  }

  /** A name the sample holds is read as the single string "x", or the array ["x"]. */
  lemma SampleValues(k: string)
    ensures Found(SampleCreate(), k).Some? ==>
      StringAttr(SampleCreate(), k) == Ok(Some("x")) && MultiValAttr(SampleCreate(), k, None) == Ok(Some(["x"]))
  {
    SampleFound(k);
    if Found(SampleCreate(), k).Some? {
      var vals := [Some(Str("x"))];
      assert Found(SampleCreate(), k).value == Some(vals);
      assert vals[0].Some? && vals[0].value.Str?;
      var r := MultiValAttr(SampleCreate(), k, None);
      assert r.Ok?;
      assert r.value.value[0] == "x";
      assert r.value.value == ["x"];
    }
  }

  /** The sample holds every mandatory name. */
  lemma SampleHolds(k: string)
    requires k in RequiredSingleAttributes + RequiredMultiAttributes
    ensures Found(SampleCreate(), k).Some?
  {
    var names := RequiredSingleAttributes + RequiredMultiAttributes;
    var i :| 0 <= i < |names| && names[i] == k;
    assert SampleCreate()[i].name == k;
  }

  /** No mandatory name is an int array name. */
  lemma MandatoryNotIntArray(k: string)
    requires k in RequiredSingleAttributes + RequiredMultiAttributes
    ensures k !in MultiIntAttributes
  {
    RequiredListsInCatalog();
    CatalogDistinct();
    assert k in SingleStringAttributes || k in MultiStringAttributes;
  }

  /** The sample passes the mandatory check of a create. */
  lemma SampleMandatory()
    ensures CheckMandatory(SampleCreate()).Ok?
  {
    var a := SampleCreate();
    forall i | 0 <= i < |RequiredSingleAttributes|
      ensures SingleMandatory(a, RequiredSingleAttributes[i]).Ok?
    {
      SampleHolds(RequiredSingleAttributes[i]);
      SampleValues(RequiredSingleAttributes[i]);
      assert "x"[0] == 'x';
      assert !IsBlank(Some("x"));
    }
    forall i | 0 <= i < |RequiredMultiAttributes|
      ensures MultiMandatory(a, RequiredMultiAttributes[i]).Ok?
    {
      SampleHolds(RequiredMultiAttributes[i]);
      SampleValues(RequiredMultiAttributes[i]);
    }
  }

  /** Every put helper's lookup on the sample succeeds: it holds no int array name. */
  lemma SampleLookups()
    ensures LookupsOk(SampleCreate())
  {
    var a := SampleCreate();
    forall k | WriterOf(k).Some?
      ensures Lookup(WriterOf(k).value, a, k).Ok?
    {
      SampleFound(k);
      SampleValues(k);
      if Found(a, k).Some? {
        MandatoryNotIntArray(k);
      }
    }
  }

  /**
   * A create can succeed: the sample's document is built, so the round-trip
   * lemmas below apply to at least one create.
   */
  lemma SampleCreateSucceeds()
    ensures Marshal.Marshal(None, SampleCreate()).Ok?
  {
    SampleMandatory();
    SampleLookups();
    MarshalSucceeds(None, SampleCreate());
  }

  /**
   * The create round trip: the request document converts without failure,
   * its Uid and Name are the identifier the create supplied, and each key
   * carries exactly the values Echo gives it; in particular the single-int
   * gender is never written and so never read back.
   */
  lemma CreatedRecordReadsBack(attributes: AttributeSet, doc: Doc, k: string)
    requires Marshal.Marshal(None, attributes) == Ok(doc)
    ensures Convert(doc).Ok?
    ensures StringAttr(attributes, UidAttribute).Ok? && StringAttr(attributes, UidAttribute).value.Some?
    ensures Convert(doc).value.uid == StringAttr(attributes, UidAttribute).value.value
    ensures k in Convert(doc).value.fields <==> Echo(attributes, k).Some?
    ensures k in Convert(doc).value.fields ==> Convert(doc).value.fields[k] == Echo(attributes, k).value
    ensures k in SingleIntAttributes ==> k !in Convert(doc).value.fields
  {
    CreatedIdentifier(attributes, doc);
    CreatedConverts(attributes, doc);
    ConvertKey(doc, k);
    if ReaderOf(k).Some? {
      CreatedWritten(attributes, doc, k);
      WrittenKeyReadsBack(attributes, doc, k);
    }
  }
}
