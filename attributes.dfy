/**
 * The attribute set the host hands to create and update, and the three
 * lookups the connector performs on it: a single string, a string array and
 * an int array. A lookup stops at the first attribute of the requested name.
 */
module Attributes {
  import opened Base
  import opened Numbers
  import opened Failures

  /** An attribute value as the host sends it: a String or an Integer. */
  datatype Value = Str(s: string) | Int(i: int)

  /** One attribute: a name and its value list, which may be null and may hold nulls. */
  datatype Attribute = Attribute(name: string, values: Option<seq<Option<Value>>>)

  /** The host's attribute set, in the order the connector iterates over it. */
  type AttributeSet = seq<Attribute>

  /** The position at which a lookup loop stops for `name`, if any. */
  function Find(attributes: AttributeSet, name: string): (r: Option<nat>)
    ensures r.None? <==> forall k :: 0 <= k < |attributes| ==> attributes[k].name != name
    ensures r.Some? ==> r.value < |attributes| && attributes[r.value].name == name
    ensures r.Some? ==> forall k :: 0 <= k < r.value ==> attributes[k].name != name
    decreases |attributes|
  {
    if |attributes| == 0 then None
    else if attributes[0].name == name then Some(0)
    else match Find(attributes[1..], name)
      case None => None
      case Some(k) => Some(k + 1)
  }

  /** The value list of the first attribute named `name`; None when there is none. */
  function Found(attributes: AttributeSet, name: string): (r: Option<Option<seq<Option<Value>>>>)
    ensures r.None? <==> Find(attributes, name).None?
    ensures r.Some? ==> r.value == attributes[Find(attributes, name).value].values
  {
    match Find(attributes, name)
    case None => None
    case Some(k) => Some(attributes[k].values)
  }

  /**
   * getStringAttr, inherited: absent name, null or empty list, or a null
   * single value give null; more than one value, or a value that is not a
   * String, is refused.
   */
  function StringAttr(attributes: AttributeSet, name: string): (r: Result<Option<string>, Failure>)
    ensures Found(attributes, name).None? ==> r == Ok(None)
    ensures r == Ok(None) <==>
      match Found(attributes, name)
      case None => true
      case Some(vals) => vals.None? || |vals.value| == 0 || (|vals.value| == 1 && vals.value[0].None?)
    ensures r.Ok? && r.value.Some? ==>
      Found(attributes, name) == Some(Some([Some(Str(r.value.value))]))
    ensures var f := Found(attributes, name);
      f.Some? && f.value.Some? && |f.value.value| == 1 && f.value.value[0].Some? && f.value.value[0].value.Str? ==>
        r == Ok(Some(f.value.value[0].value.s))
    ensures var f := Found(attributes, name);
      r.Err? <==> f.Some? && f.value.Some?
                  && (|f.value.value| > 1 || (|f.value.value| == 1 && f.value.value[0].Some? && f.value.value[0].value.Int?))
  {
    match Found(attributes, name)
    case None => Ok(None)
    case Some(vals) =>
      if vals.None? || |vals.value| == 0 then Ok(None)
      else if |vals.value| > 1 then Err(InvalidAttributeValue("More than one value for attribute " + name))
      else match vals.value[0]
        case None => Ok(None)
        case Some(Str(s)) => assert vals.value == [vals.value[0]]; Ok(Some(s))
        case Some(Int(_)) => Err(InvalidAttributeValue("Unsupported type for attribute " + name))
  }

  /** The refusal of a null element in a multi-valued attribute. */
  function NullElement(attrName: string): Failure {
    InvalidAttributeValue("Value null must be not null for attribute " + attrName)
  }

  /** One element of getMultiValAttr's loop: a null is refused, a non-String fails its cast. */
  function StringElement(attrName: string, v: Option<Value>): Result<string, Failure> {
    match v
    case None => Err(NullElement(attrName))
    case Some(Str(s)) => Ok(s)
    case Some(Int(_)) => Err(ClassCast(attrName))
  }

  /** One element of getIntMultiValAttr's loop: null refused, cast to String, then Integer.parseInt. */
  function IntElement(attrName: string, v: Option<Value>): Result<int, Failure> {
    match v
    case None => Err(NullElement(attrName))
    case Some(Int(_)) => Err(ClassCast(attrName))
    case Some(Str(s)) =>
      match ParseInt(s)
      case None => Err(NumberFormat(s))
      case Some(n) => Ok(n)
  }

  /**
   * getMultiValAttr, inherited: absent name gives the default; a null or
   * empty list gives an empty array; otherwise every element is converted,
   * in order, and the first bad one is refused.
   */
  function MultiValAttr(attributes: AttributeSet, name: string, defaultVal: Option<seq<string>>): (r: Result<Option<seq<string>>, Failure>)
    ensures Found(attributes, name).None? ==> r == Ok(defaultVal)
    ensures Found(attributes, name).Some? ==> match Found(attributes, name).value
      case None => r == Ok(Some([]))
      case Some(vals) =>
        && (r.Ok? <==> forall i :: 0 <= i < |vals| ==> vals[i].Some? && vals[i].value.Str?)
        && (r.Ok? ==>
              r.value.Some? && |r.value.value| == |vals|
              && forall i :: 0 <= i < |vals| ==> vals[i] == Some(Str(r.value.value[i])))
  {
    match Found(attributes, name)
    case None => Ok(defaultVal)
    case Some(vals) =>
      if vals.None? || |vals.value| == 0 then Ok(Some([]))
      else
        var ss :- MapAll(vals.value, v => StringElement(name, v));
        Ok(Some(ss))
  }

  /**
   * getIntMultiValAttr: as getMultiValAttr, but each element is cast to
   * String and read by Integer.parseInt, so an Integer value fails its cast
   * and a non-numeric string fails to parse.
   */
  function IntMultiValAttr(attributes: AttributeSet, name: string, defaultVal: Option<seq<int>>): (r: Result<Option<seq<int>>, Failure>)
    ensures Found(attributes, name).None? ==> r == Ok(defaultVal)
    ensures Found(attributes, name).Some? ==> match Found(attributes, name).value
      case None => r == Ok(Some([]))
      case Some(vals) =>
        && (r.Ok? <==> forall i :: 0 <= i < |vals| ==>
              vals[i].Some? && vals[i].value.Str? && ParseInt(vals[i].value.s).Some?)
        && (r.Ok? ==>
              r.value.Some? && |r.value.value| == |vals|
              && forall i :: 0 <= i < |vals| ==> ParseInt(vals[i].value.s) == Some(r.value.value[i]))
    ensures Found(attributes, name).Some? && r.Ok? ==>
      r.value.Some? && forall i :: 0 <= i < |r.value.value| ==> InInt32(r.value.value[i])
  {
    match Found(attributes, name)
    case None => Ok(defaultVal)
    case Some(vals) =>
      if vals.None? || |vals.value| == 0 then Ok(Some([]))
      else
        var ns :- MapAll(vals.value, v => IntElement(name, v));
        Ok(Some(ns))
  }

  /** Which failure a non-empty value list meets first, element by element. */
  lemma IntMultiValAttrFirstBad(attributes: AttributeSet, name: string, defaultVal: Option<seq<int>>, k: nat)
    requires Found(attributes, name).Some? && Found(attributes, name).value.Some?
    requires var vals := Found(attributes, name).value.value;
      k < |vals| && IntElement(name, vals[k]).Err?
      && forall j :: 0 <= j < k ==> IntElement(name, vals[j]).Ok?
    ensures IntMultiValAttr(attributes, name, defaultVal)
      == Err(IntElement(name, Found(attributes, name).value.value[k]).error)
  {
    var vals := Found(attributes, name).value.value;
    MapAllFirstError(vals, v => IntElement(name, v), k);
  }

  /** A null element is refused when every element before it converts. */
  lemma IntMultiValAttrNull(attributes: AttributeSet, name: string, k: nat)
    requires Found(attributes, name).Some? && Found(attributes, name).value.Some?
    requires var vals := Found(attributes, name).value.value;
      k < |vals| && vals[k].None? && forall j :: 0 <= j < k ==> IntElement(name, vals[j]).Ok?
    ensures IntMultiValAttr(attributes, name, None) == Err(NullElement(name))
  {
    IntMultiValAttrFirstBad(attributes, name, None, k);
  }

  /**
   * getIntMultiValAttr as the connector runs it: a scan for the first
   * attribute of the name, then an index loop filling an Integer array.
   */
  method GetIntMultiValAttr(attributes: AttributeSet, attrName: string, defaultVal: Option<seq<int>>)
    returns (r: Result<Option<seq<int>>, Failure>)
    ensures r == IntMultiValAttr(attributes, attrName, defaultVal)
  {
    for j := 0 to |attributes|
      invariant forall k :: 0 <= k < j ==> attributes[k].name != attrName
    {
      var attr := attributes[j];
      if attrName == attr.name {
        assert Find(attributes, attrName) == Some(j);
        var vals := attr.values;
        if vals.None? || |vals.value| == 0 {
          return Ok(Some([]));
        }
        var items := vals.value;
        ghost var f := v => IntElement(attrName, v);
        var ret := new int[|items|];
        for i := 0 to |items|
          invariant forall k :: 0 <= k < i ==> f(items[k]) == Ok(ret[k])
        {
          var valAsObject := items[i];
          if valAsObject.None? {
            MapAllFirstError(items, f, i);
            return Err(NullElement(attrName));
          }
          if valAsObject.value.Int? {
            MapAllFirstError(items, f, i);
            return Err(ClassCast(attrName));
          }
          var s := valAsObject.value.s;
          var val := ParseInt(s);
          if val.None? {
            MapAllFirstError(items, f, i);
            return Err(NumberFormat(s));
          }
          ret[i] := val.value;
        }
        var ns := MapAll(items, f);
        assert ns.value == ret[..];
        return Ok(Some(ret[..]));
      }
    }
    return Ok(defaultVal);
  }
}
