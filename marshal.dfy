/**
 * The request document of createOrUpdateAffiliation: the mandatory-attribute
 * check of a create, the seed document (a fresh one carrying `schemas` on
 * create, the fetched record on update) and the three "put if exists" loops
 * that overlay the incoming attributes on it.
 */
module Marshal {
  import opened Base
  import opened Json
  import opened Failures
  import opened Catalog
  import opened Attributes

  /** StringUtil.isBlank: null, or nothing left once characters up to the space are trimmed. */
  predicate IsBlank(s: Option<string>) {
    s.None? || forall i :: 0 <= i < |s.value| ==> s.value[i] <= ' '
  }

  /** How Java renders an empty String[] in the message; the identity hash that follows is not modelled. */
  const EmptyArrayText := "[Ljava.lang.String;@"

  function MissingMandatory(name: string, shown: string): Failure {
    InvalidAttributeValue("Missing mandatory attribute " + name + " ,value: " + shown)
  }

  /** One pass of the first mandatory loop: the single value must not be blank. */
  function SingleMandatory(attributes: AttributeSet, name: string): (r: Result<(), Failure>)
    ensures r.Ok? <==> StringAttr(attributes, name).Ok? && !IsBlank(StringAttr(attributes, name).value)
    ensures StringAttr(attributes, name) == Ok(None) ==> r == Err(MissingMandatory(name, "null"))
    ensures StringAttr(attributes, name).Ok? && StringAttr(attributes, name).value.Some? && r.Err? ==>
      r == Err(MissingMandatory(name, StringAttr(attributes, name).value.value))
  {
    var value :- StringAttr(attributes, name);
    if IsBlank(value) then Err(MissingMandatory(name, if value.None? then "null" else value.value))
    else Ok(())
  }

  /** One pass of the second mandatory loop: the value array must exist and be non-empty. */
  function MultiMandatory(attributes: AttributeSet, name: string): (r: Result<(), Failure>)
    ensures r.Ok? <==>
      && MultiValAttr(attributes, name, None).Ok?
      && MultiValAttr(attributes, name, None).value.Some?
      && |MultiValAttr(attributes, name, None).value.value| > 0
    ensures MultiValAttr(attributes, name, None) == Ok(None) ==> r == Err(MissingMandatory(name, "null"))
    ensures MultiValAttr(attributes, name, None) == Ok(Some([])) ==> r == Err(MissingMandatory(name, EmptyArrayText))
  {
    var values :- MultiValAttr(attributes, name, None);
    if values.None? then Err(MissingMandatory(name, "null"))
    else if |values.value| == 0 then Err(MissingMandatory(name, EmptyArrayText))
    else Ok(())
  }

  /** The mandatory check of a create: every required single name, then every required multi name. */
  function CheckMandatory(attributes: AttributeSet): (r: Result<(), Failure>)
    ensures r.Ok? <==>
      (forall i :: 0 <= i < |RequiredSingleAttributes| ==> SingleMandatory(attributes, RequiredSingleAttributes[i]).Ok?)
      && (forall i :: 0 <= i < |RequiredMultiAttributes| ==> MultiMandatory(attributes, RequiredMultiAttributes[i]).Ok?)
  {
    var singles :- MapAll(RequiredSingleAttributes, n => SingleMandatory(attributes, n));
    var multis :- MapAll(RequiredMultiAttributes, n => MultiMandatory(attributes, n));
    Ok(())
  }

  /** The document a create starts from: only the fixed schema URN. */
  const CreateSeed: Doc := map[Schemas := StringArray([SchemasValue])]

  /** The starting document: checked and seeded on create, the fetched record on update. */
  function Seed(existing: Option<Doc>, attributes: AttributeSet): (r: Result<Doc, Failure>)
    ensures existing.Some? ==> r == Ok(existing.value)
    ensures existing.None? ==> (r.Ok? <==> CheckMandatory(attributes).Ok?)
    ensures existing.None? && r.Ok? ==> r.value == CreateSeed
    ensures existing.None? && r.Err? ==> r == Err(CheckMandatory(attributes).error)
  {
    if existing.Some? then Ok(existing.value)
    else
      var checked :- CheckMandatory(attributes);
      Ok(CreateSeed)
  }

  /** The three put helpers: putStringIfExists, putStringArrayIfExists, putIntArrayIfExists. */
  datatype Writer = StringWriter | StringArrayWriter | IntArrayWriter

  /** What a put helper writes for a name (None: the key is left alone), or why it throws. */
  function Lookup(w: Writer, attributes: AttributeSet, name: string): Result<Option<JValue>, Failure> {
    match w
    case StringWriter =>
      var value :- StringAttr(attributes, name);
      Ok(if value.Some? then Some(JStr(value.value)) else None)
    case StringArrayWriter =>
      var values :- MultiValAttr(attributes, name, None);
      Ok(if values.Some? then Some(StringArray(values.value)) else None)
    case IntArrayWriter =>
      var values :- IntMultiValAttr(attributes, name, None);
      Ok(if values.Some? then Some(IntArray(values.value)) else None)
  }

  /** One of the put loops: every name of the list in order, stopping at the first failure. */
  function Overlay(doc: Doc, attributes: AttributeSet, w: Writer, names: seq<string>): Result<Doc, Failure> {
    var vs :- MapAll(names, n => Lookup(w, attributes, n));
    Ok(PutAll(doc, names, vs))
  }

  /** The request document createOrUpdateAffiliation sends, or the exception it throws first. */
  function Marshal(existing: Option<Doc>, attributes: AttributeSet): Result<Doc, Failure> {
    var seed :- Seed(existing, attributes);
    var d1 :- Overlay(seed, attributes, StringWriter, SingleStringAttributes);
    var d2 :- Overlay(d1, attributes, StringArrayWriter, MultiStringAttributes);
    Overlay(d2, attributes, IntArrayWriter, MultiIntAttributes)
  }

  /** The put loop, if any, that writes a key: single-int and non-catalog names have none. */
  function WriterOf(k: string): (w: Option<Writer>)
    ensures w == Some(StringWriter) <==> k in SingleStringAttributes
    ensures w == Some(StringArrayWriter) <==> k in MultiStringAttributes
    ensures w == Some(IntArrayWriter) <==> k in MultiIntAttributes
  {
    CatalogDistinct();
    if k in SingleStringAttributes then Some(StringWriter)
    else if k in MultiStringAttributes then Some(StringArrayWriter)
    else if k in MultiIntAttributes then Some(IntArrayWriter)
    else None
  }

  /** Every lookup of one list succeeds. */
  predicate ListLookupsOk(attributes: AttributeSet, w: Writer, names: seq<string>) {
    forall i :: 0 <= i < |names| ==> Lookup(w, attributes, names[i]).Ok?
  }

  /** Every catalog name that a put loop writes is looked up without failure. */
  ghost predicate LookupsOk(attributes: AttributeSet) {
    forall k :: WriterOf(k).Some? ==> Lookup(WriterOf(k).value, attributes, k).Ok?
  }

  /** The per-name condition is the per-list condition of the three put loops. */
  lemma LookupsOkByList(attributes: AttributeSet)
    ensures LookupsOk(attributes) <==>
      && ListLookupsOk(attributes, StringWriter, SingleStringAttributes)
      && ListLookupsOk(attributes, StringArrayWriter, MultiStringAttributes)
      && ListLookupsOk(attributes, IntArrayWriter, MultiIntAttributes)
  {
    if LookupsOk(attributes) {
      forall i | 0 <= i < |SingleStringAttributes|
        ensures Lookup(StringWriter, attributes, SingleStringAttributes[i]).Ok?
      {
        assert WriterOf(SingleStringAttributes[i]) == Some(StringWriter);
      }
      forall i | 0 <= i < |MultiStringAttributes|
        ensures Lookup(StringArrayWriter, attributes, MultiStringAttributes[i]).Ok?
      {
        assert WriterOf(MultiStringAttributes[i]) == Some(StringArrayWriter);
      }
      forall i | 0 <= i < |MultiIntAttributes|
        ensures Lookup(IntArrayWriter, attributes, MultiIntAttributes[i]).Ok?
      {
        assert WriterOf(MultiIntAttributes[i]) == Some(IntArrayWriter);
      }
    }
    if && ListLookupsOk(attributes, StringWriter, SingleStringAttributes)
       && ListLookupsOk(attributes, StringArrayWriter, MultiStringAttributes)
       && ListLookupsOk(attributes, IntArrayWriter, MultiIntAttributes)
    {
      forall k | WriterOf(k).Some?
        ensures Lookup(WriterOf(k).value, attributes, k).Ok?
      {
        match WriterOf(k).value
        case StringWriter =>
          var i :| 0 <= i < |SingleStringAttributes| && SingleStringAttributes[i] == k;
        case StringArrayWriter =>
          var i :| 0 <= i < |MultiStringAttributes| && MultiStringAttributes[i] == k;
        case IntArrayWriter =>
          var i :| 0 <= i < |MultiIntAttributes| && MultiIntAttributes[i] == k;
      }
    }
  }

  /** One put loop completes iff every lookup of its list succeeds, whatever document it starts from. */
  lemma OverlaySucceeds(doc: Doc, attributes: AttributeSet, w: Writer, names: seq<string>)
    ensures Overlay(doc, attributes, w, names).Ok? <==> ListLookupsOk(attributes, w, names)
  {
  }

  /** The build completes iff the seed does and each of the three put loops does. */
  lemma MarshalByList(existing: Option<Doc>, attributes: AttributeSet)
    ensures Marshal(existing, attributes).Ok? <==>
      && Seed(existing, attributes).Ok?
      && ListLookupsOk(attributes, StringWriter, SingleStringAttributes)
      && ListLookupsOk(attributes, StringArrayWriter, MultiStringAttributes)
      && ListLookupsOk(attributes, IntArrayWriter, MultiIntAttributes)
  {
    if Seed(existing, attributes).Ok? {
      var seed := Seed(existing, attributes).value;
      OverlaySucceeds(seed, attributes, StringWriter, SingleStringAttributes);
      if Overlay(seed, attributes, StringWriter, SingleStringAttributes).Ok? {
        var d1 := Overlay(seed, attributes, StringWriter, SingleStringAttributes).value;
        OverlaySucceeds(d1, attributes, StringArrayWriter, MultiStringAttributes);
        if Overlay(d1, attributes, StringArrayWriter, MultiStringAttributes).Ok? {
          var d2 := Overlay(d1, attributes, StringArrayWriter, MultiStringAttributes).value;
          OverlaySucceeds(d2, attributes, IntArrayWriter, MultiIntAttributes);
        }
      }
    }
  }

  /**
   * When the request document can be built: on create the mandatory check
   * must pass, and in both cases every put helper's lookup must succeed;
   * the fetched record itself never makes the build fail.
   */
  lemma MarshalSucceeds(existing: Option<Doc>, attributes: AttributeSet)
    ensures Marshal(existing, attributes).Ok? <==>
      (existing.None? ==> CheckMandatory(attributes).Ok?) && LookupsOk(attributes)
  {
    LookupsOkByList(attributes);
    MarshalByList(existing, attributes);
  }

  /** The per-key effect of one put loop over duplicate-free names. */
  lemma OverlayKey(doc: Doc, attributes: AttributeSet, w: Writer, names: seq<string>, k: string)
    requires NoDuplicates(names) && Overlay(doc, attributes, w, names).Ok?
    ensures var out := Overlay(doc, attributes, w, names).value;
      if k in names && Lookup(w, attributes, k).value.Some? then
        k in out && out[k] == Lookup(w, attributes, k).value.value
      else
        (k in out <==> k in doc) && (k in doc ==> out[k] == doc[k])
    ensures k in names ==> Lookup(w, attributes, k).Ok?
  {
    OverlayAt(doc, names, n => Lookup(w, attributes, n), k);
  }

  /**
   * The overlay property of the request document: a key is overwritten
   * exactly when its put loop found a value for it, and every other key
   * (single-int, non-catalog, or absent from the incoming set) keeps the
   * seed's value.
   */
  lemma MarshalKey(existing: Option<Doc>, attributes: AttributeSet, k: string)
    requires Marshal(existing, attributes).Ok?
    ensures Seed(existing, attributes).Ok?
    ensures WriterOf(k).Some? ==> Lookup(WriterOf(k).value, attributes, k).Ok?
    ensures var out := Marshal(existing, attributes).value;
      var seed := Seed(existing, attributes).value;
      if WriterOf(k).Some? && Lookup(WriterOf(k).value, attributes, k).value.Some? then
        k in out && out[k] == Lookup(WriterOf(k).value, attributes, k).value.value
      else
        (k in out <==> k in seed) && (k in seed ==> out[k] == seed[k])
  {
    CatalogDistinct();
    var seed := Seed(existing, attributes).value;
    var d1 := Overlay(seed, attributes, StringWriter, SingleStringAttributes).value;
    var d2 := Overlay(d1, attributes, StringArrayWriter, MultiStringAttributes).value;
    OverlayKey(seed, attributes, StringWriter, SingleStringAttributes, k);
    OverlayKey(d1, attributes, StringArrayWriter, MultiStringAttributes, k);
    OverlayKey(d2, attributes, IntArrayWriter, MultiIntAttributes, k);
  }

  /**
   * On create, the first required single name (in declared order) whose
   * check fails decides the exception, and nothing is put.
   */
  lemma MandatorySingleFirst(attributes: AttributeSet, k: nat)
    requires k < |RequiredSingleAttributes| && SingleMandatory(attributes, RequiredSingleAttributes[k]).Err?
    requires forall j :: 0 <= j < k ==> SingleMandatory(attributes, RequiredSingleAttributes[j]).Ok?
    ensures Marshal(None, attributes) == Err(SingleMandatory(attributes, RequiredSingleAttributes[k]).error)
  {
    MapAllFirstError(RequiredSingleAttributes, n => SingleMandatory(attributes, n), k);
  }

  /** With every single check passed, the first failing required multi name decides the exception. */
  lemma MandatoryMultiFirst(attributes: AttributeSet, k: nat)
    requires forall j :: 0 <= j < |RequiredSingleAttributes| ==> SingleMandatory(attributes, RequiredSingleAttributes[j]).Ok?
    requires k < |RequiredMultiAttributes| && MultiMandatory(attributes, RequiredMultiAttributes[k]).Err?
    requires forall j :: 0 <= j < k ==> MultiMandatory(attributes, RequiredMultiAttributes[j]).Ok?
    ensures Marshal(None, attributes) == Err(MultiMandatory(attributes, RequiredMultiAttributes[k]).error)
  {
    MapAllFirstError(RequiredMultiAttributes, n => MultiMandatory(attributes, n), k);
  }

  // ------------------------------------------------------------------
  // The imperative construction of the request document

  /** A JSONObject under construction. */
  class JsonObject {
    var entries: Doc

    constructor (entries: Doc)
      ensures this.entries == entries
    {
      this.entries := entries;
    }

    /** JSONObject.put: sets the key, replacing any earlier value. */
    method Put(key: string, value: JValue)
      modifies this
      ensures entries == old(entries)[key := value]
    {
      entries := entries[key := value];
    }
  }

  /** putStringIfExists: puts the single string when the set carries one. */
  method PutStringIfExists(attributes: AttributeSet, fieldName: string, jo: JsonObject) returns (r: Result<(), Failure>)
    modifies jo
    ensures PutStep(old(jo.entries), jo.entries, fieldName, Lookup(StringWriter, attributes, fieldName), r)
  {
    var fieldValue := StringAttr(attributes, fieldName);
    if fieldValue.Err? {
      return Err(fieldValue.error);
    }
    if fieldValue.value.Some? {
      jo.Put(fieldName, JStr(fieldValue.value.value));
    }
    r := Ok(());
  }

  /** putStringArrayIfExists: puts the string array when the name is in the set. */
  method PutStringArrayIfExists(attributes: AttributeSet, attributeName: string, jo: JsonObject) returns (r: Result<(), Failure>)
    modifies jo
    ensures PutStep(old(jo.entries), jo.entries, attributeName, Lookup(StringArrayWriter, attributes, attributeName), r)
  {
    var values := MultiValAttr(attributes, attributeName, None);
    if values.Err? {
      return Err(values.error);
    }
    if values.value.Some? {
      jo.Put(attributeName, StringArray(values.value.value));
    }
    r := Ok(());
  }

  /** putIntArrayIfExists: puts the parsed int array when the name is in the set. */
  method PutIntArrayIfExists(attributes: AttributeSet, attributeName: string, jo: JsonObject) returns (r: Result<(), Failure>)
    modifies jo
    ensures PutStep(old(jo.entries), jo.entries, attributeName, Lookup(IntArrayWriter, attributes, attributeName), r)
  {
    var values := GetIntMultiValAttr(attributes, attributeName, None);
    if values.Err? {
      return Err(values.error);
    }
    if values.value.Some? {
      jo.Put(attributeName, IntArray(values.value.value));
    }
    r := Ok(());
  }

  /** One pass of a put loop, by the helper the loop calls. */
  method PutIfExists(attributes: AttributeSet, w: Writer, name: string, jo: JsonObject) returns (r: Result<(), Failure>)
    modifies jo
    ensures PutStep(old(jo.entries), jo.entries, name, Lookup(w, attributes, name), r)
  {
    match w
    case StringWriter => r := PutStringIfExists(attributes, name, jo);
    case StringArrayWriter => r := PutStringArrayIfExists(attributes, name, jo);
    case IntArrayWriter => r := PutIntArrayIfExists(attributes, name, jo);
  }

  /** A put loop over a list of names; the first exception ends it. */
  method PutAllIfExists(attributes: AttributeSet, w: Writer, names: seq<string>, jo: JsonObject) returns (r: Result<(), Failure>)
    modifies jo
    ensures Overlay(old(jo.entries), attributes, w, names) == if r.Ok? then Ok(jo.entries) else Err(r.error)
  {
    ghost var f := n => Lookup(w, attributes, n);
    ghost var vs: seq<Option<JValue>> := [];
    PutLoopStart(old(jo.entries), names, f);
    for i := 0 to |names|
      invariant PutLoopAt(old(jo.entries), names, f, i, vs, jo.entries)
    {
      ghost var before := jo.entries;
      var step := PutIfExists(attributes, w, names[i], jo);
      assert f(names[i]) == Lookup(w, attributes, names[i]);
      if step.Err? {
        PutLoopFail(old(jo.entries), names, f, i, vs, before, jo.entries, step);
        return step;
      }
      PutLoopNext(old(jo.entries), names, f, i, vs, before, jo.entries, step);
      vs := vs + [f(names[i]).value];
    }
    PutLoopEnd(old(jo.entries), names, f, vs, jo.entries);
    r := Ok(());
  }

  /** The first mandatory loop, over the given required single names. */
  method CheckRequiredSingles(attributes: AttributeSet, names: seq<string>) returns (r: Result<(), Failure>)
    ensures var all := MapAll(names, n => SingleMandatory(attributes, n));
      r == if all.Ok? then Ok(()) else Err(all.error)
  {
    for i := 0 to |names|
      invariant forall j :: 0 <= j < i ==> SingleMandatory(attributes, names[j]).Ok?
    {
      var required := names[i];
      var value := StringAttr(attributes, required);
      if value.Err? || IsBlank(value.value) {
        MapAllFirstError(names, n => SingleMandatory(attributes, n), i);
        return Err(SingleMandatory(attributes, required).error);
      }
    }
    r := Ok(());
  }

  /** The second mandatory loop, over the given required multi names. */
  method CheckRequiredMultis(attributes: AttributeSet, names: seq<string>) returns (r: Result<(), Failure>)
    ensures var all := MapAll(names, n => MultiMandatory(attributes, n));
      r == if all.Ok? then Ok(()) else Err(all.error)
  {
    for i := 0 to |names|
      invariant forall j :: 0 <= j < i ==> MultiMandatory(attributes, names[j]).Ok?
    {
      var required := names[i];
      var values := MultiValAttr(attributes, required, None);
      if values.Err? || values.value.None? || |values.value.value| == 0 {
        MapAllFirstError(names, n => MultiMandatory(attributes, n), i);
        return Err(MultiMandatory(attributes, required).error);
      }
    }
    r := Ok(());
  }

  /** The two mandatory loops of a create; the first offender is reported. */
  method CheckMandatoryAttributes(attributes: AttributeSet) returns (r: Result<(), Failure>)
    ensures r == CheckMandatory(attributes)
  {
    ghost var singles := MapAll(RequiredSingleAttributes, n => SingleMandatory(attributes, n));
    ghost var multis := MapAll(RequiredMultiAttributes, n => MultiMandatory(attributes, n));
    assert CheckMandatory(attributes) ==
      if singles.Err? then Err(singles.error) else if multis.Err? then Err(multis.error) else Ok(());
    r := CheckRequiredSingles(attributes, RequiredSingleAttributes);
    if r.Ok? {
      r := CheckRequiredMultis(attributes, RequiredMultiAttributes);
    }
  }

  /**
   * The document-building part of createOrUpdateAffiliation: the mandatory
   * loops and the seed on create (the fetched record is the seed on update),
   * then the single string, multi string and multi int put loops.
   */
  method BuildAffiliationDocument(existing: Option<Doc>, attributes: AttributeSet) returns (r: Result<Doc, Failure>)
    ensures r == Marshal(existing, attributes)
  {
    var jo: JsonObject;
    if existing.Some? {
      jo := new JsonObject(existing.value);
    } else {
      var checked := CheckMandatoryAttributes(attributes);
      if checked.Err? {
        return Err(checked.error);
      }
      jo := new JsonObject(map[]);
      jo.Put(Schemas, StringArray([SchemasValue]));
      assert jo.entries == CreateSeed;
    }
    var step := PutAllIfExists(attributes, StringWriter, SingleStringAttributes, jo);
    if step.Err? {
      return Err(step.error);
    }
    step := PutAllIfExists(attributes, StringArrayWriter, MultiStringAttributes, jo);
    if step.Err? {
      return Err(step.error);
    }
    step := PutAllIfExists(attributes, IntArrayWriter, MultiIntAttributes, jo);
    if step.Err? {
      return Err(step.error);
    }
    r := Ok(jo.entries);
  }
}
