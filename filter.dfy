/**
 * EduIdFilterTranslator.createEqualsExpression: the only filter the
 * connector understands is an equality on the object's Uid or Name, which
 * becomes a fetch by identifier; everything else is "not supported" (null).
 */
module Filter {
  import opened Base
  import opened Numbers
  import opened Failures
  import opened Attributes

  /** The framework's names for the Uid and Name attributes. */
  const UidName := "__UID__"
  const NameName := "__NAME__"

  /** The connector's query: the identifier to fetch, or none. */
  datatype EduIdFilter = EduIdFilter(byUid: Option<string>)

  /** An equality filter: the attribute whose values are compared. */
  datatype EqualsFilter = EqualsFilter(attribute: Attribute)

  /** String.valueOf on an attribute value. */
  function ValueOf(v: Value): (s: string)
    ensures v.Str? ==> s == v.s
    ensures v.Int? && v.i >= 0 ==> Canonical(s)
    ensures v.Int? && v.i < 0 ==> |s| > 1 && s[0] == '-' && Canonical(s[1..]) && s[1] != '0'
  {
    match v
    case Str(s) => s
    case Int(i) => IntToString(i)
  }

  /** An Integer value survives String.valueOf and a later Integer.parseInt. */
  lemma ValueOfIntParses(i: int)
    requires InInt32(i)
    ensures ParseInt(ValueOf(Int(i))) == Some(i)
  {
    ParseIntToString(i);
  }

  /**
   * createEqualsExpression. A negated equality is not supported. An
   * equality on Uid or Name whose value list is non-null and whose first
   * value is non-null fetches by that value's string form; an empty value
   * list fails on reading its first element; anything else is not supported.
   */
  function CreateEqualsExpression(filter: EqualsFilter, not: bool): (r: Result<Option<EduIdFilter>, Failure>)
    ensures not ==> r == Ok(None)
    ensures r.Ok? && r.value.Some? <==>
      && !not
      && (filter.attribute.name == UidName || filter.attribute.name == NameName)
      && filter.attribute.values.Some? && |filter.attribute.values.value| > 0
      && filter.attribute.values.value[0].Some?
    ensures r.Ok? && r.value.Some? ==>
      r.value.value.byUid == Some(ValueOf(filter.attribute.values.value[0].value))
    ensures r.Err? <==>
      && !not
      && (filter.attribute.name == UidName || filter.attribute.name == NameName)
      && filter.attribute.values == Some([])
    ensures r.Err? ==> r.error == IndexOutOfBounds(0)
  {
    if not then Ok(None)
    else
      var attr := filter.attribute;
      if attr.name == UidName || attr.name == NameName then
        if attr.values.None? then Ok(None)
        else if |attr.values.value| == 0 then Err(IndexOutOfBounds(0))
        else match attr.values.value[0]
          case None => Ok(None)
          case Some(first) => Ok(Some(EduIdFilter(Some(ValueOf(first)))))
      else Ok(None)
  }

  /** Only the first value matters: values after it never change the translation. */
  lemma LaterValuesIgnored(name: string, first: Option<Value>, rest: seq<Option<Value>>, not: bool)
    ensures CreateEqualsExpression(EqualsFilter(Attribute(name, Some([first] + rest))), not)
      == CreateEqualsExpression(EqualsFilter(Attribute(name, Some([first]))), not)
  {
    assert ([first] + rest)[0] == first;
  }
}
