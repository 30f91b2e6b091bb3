/**
 * The attribute catalog of the affiliation record: four disjoint name lists
 * (single string, single integer, multi string, multi integer), the two lists
 * of names that a create must supply, and the schema the connector derives
 * from them for the host.
 */
module Catalog {
  import opened Base

  const SchemasValue := "urn:mace:switch.ch:eduid:scim:1.0:affiliation"

  const Schemas := "schemas"
  const Id := "id"
  const ExternalId := "externalId"
  const GivenName := "givenName"
  const Surname := "surname"
  const SwissEduIdAffiliationStatus := "swissEduIDAffiliationStatus"
  const SwissEduIdAffiliationPeriodBegin := "swissEduIDAffiliationPeriodBegin"
  const SwissEduPersonUniqueId := "swissEduPersonUniqueID"
  const SwissEduId := "swissEduID"
  const EduPersonAffiliation := "eduPersonAffiliation"
  const Email := "email"
  const SwissEduPersonGender := "swissEduPersonGender"

  /** The object class the connector serves. */
  const AffiliationObjectClass := "affiliation"
  /** The collection segment of the resource URLs. */
  const Affiliations := "Affiliations"
  /** The document key that carries the record's identifier, used as Uid and Name. */
  const UidAttribute := SwissEduPersonUniqueId

  // SingleStringAttributes is the connector's one list of single string
  // names, in its order. It is declared here in three pieces only so that the
  // solver compares short literal lists; the pieces are not in the connector.
  const SingleStringPart1: seq<string> := [
    Id, ExternalId, GivenName, Surname, SwissEduIdAffiliationStatus, SwissEduIdAffiliationPeriodBegin,
    SwissEduPersonUniqueId, SwissEduId]
  const SingleStringPart2: seq<string> := [
    "swissEduPersonHomeOrganization", "swissEduPersonHomeOrganizationType", "displayName", "eduPersonUniqueId",
    "eduPersonPrincipalName", "schacHomeOrganization", "swissEduPersonDateOfBirth", "swissEduPersonMatriculationNumber"]
  const SingleStringPart3: seq<string> := [
    "employeeNumber", "eduPersonOrgDN", "preferredLanguage", "eduPersonPrimaryAffiliation",
    "eduPersonPrimaryOrgUnitDN", "uid", "fschImapPW"]

  const SingleStringAttributes: seq<string> := SingleStringPart1 + SingleStringPart2 + SingleStringPart3

  const SingleIntAttributes: seq<string> := [SwissEduPersonGender]

  const MultiStringAttributes: seq<string> := [
    Schemas, EduPersonAffiliation, Email, "eduPersonScopedAffiliation", "commonName",
    "schacHomeOrganizationType", "swissEduPersonCardUID", "swissEduPersonStudyLevel",
    "swissLibraryPersonAffiliation", "swissLibraryPersonResidence", "eduPersonAssurance", "telephoneNumber",
    "postalAddress", "eduPersonEntitlement", "homePostalAddress", "isMemberOf", "mobile", "eduPersonNickname",
    "ou", "eduPersonOrgUnitDN", "homePhone", "eduPersonTargetedID"]

  const MultiIntAttributes: seq<string> := [
    "swissEduPersonStaffCategory", "swissEduPersonStudyBranch1", "swissEduPersonStudyBranch2",
    "swissEduPersonStudyBranch3"]

  const RequiredSingleAttributes: seq<string> := [
    Id, ExternalId, GivenName, Surname, SwissEduIdAffiliationStatus, SwissEduIdAffiliationPeriodBegin,
    SwissEduPersonUniqueId, SwissEduId]

  const RequiredMultiAttributes: seq<string> := [EduPersonAffiliation, Email]

  /** Every catalog name, in the order the schema lists them. */
  const AllAttributes: seq<string> :=
    SingleStringAttributes + SingleIntAttributes + MultiStringAttributes + MultiIntAttributes

  // The literal comparisons are split in pieces small enough for the solver.

  lemma SingleStringPiecesDistinct()
    ensures NoDuplicates(SingleStringPart1) && NoDuplicates(SingleStringPart2) && NoDuplicates(SingleStringPart3)
  {
  }

  lemma SingleStringPiecesApart()
    ensures Disjoint(SingleStringPart1, SingleStringPart2) && Disjoint(SingleStringPart1, SingleStringPart3)
    ensures Disjoint(SingleStringPart2, SingleStringPart3)
  {
  }

  lemma MultiStringDistinct()
    ensures NoDuplicates(MultiStringAttributes)
  {
  }

  lemma MultiIntDistinct()
    ensures NoDuplicates(MultiIntAttributes)
  {
  }

  lemma SingleStringPart1ApartFromMultiString()
    ensures Disjoint(SingleStringPart1, MultiStringAttributes)
  {
  }

  lemma SingleStringPart2ApartFromMultiString()
    ensures Disjoint(SingleStringPart2, MultiStringAttributes)
  {
  }

  lemma SingleStringPart3ApartFromMultiString()
    ensures Disjoint(SingleStringPart3, MultiStringAttributes)
  {
  }

  lemma SingleIntApart()
    ensures Disjoint(SingleStringAttributes, SingleIntAttributes)
    ensures Disjoint(SingleIntAttributes, MultiStringAttributes)
    ensures Disjoint(SingleIntAttributes, MultiIntAttributes)
  {
  }

  lemma MultiIntApart()
    ensures Disjoint(SingleStringAttributes, MultiIntAttributes)
    ensures Disjoint(MultiStringAttributes, MultiIntAttributes)
  {
  }

  /** No name is listed twice, and the four lists are pairwise disjoint. */
  lemma CatalogDistinct()
    ensures NoDuplicates(SingleStringAttributes) && NoDuplicates(SingleIntAttributes)
    ensures NoDuplicates(MultiStringAttributes) && NoDuplicates(MultiIntAttributes)
    ensures Disjoint(SingleStringAttributes, SingleIntAttributes)
    ensures Disjoint(SingleStringAttributes, MultiStringAttributes)
    ensures Disjoint(SingleStringAttributes, MultiIntAttributes)
    ensures Disjoint(SingleIntAttributes, MultiStringAttributes)
    ensures Disjoint(SingleIntAttributes, MultiIntAttributes)
    ensures Disjoint(MultiStringAttributes, MultiIntAttributes)
  {
    var p1, p2, p3 := SingleStringPart1, SingleStringPart2, SingleStringPart3;
    SingleStringPiecesDistinct();
    SingleStringPiecesApart();
    ConcatDistinct(p1, p2, p3, []);
    assert p1 + p2 + p3 + [] == SingleStringAttributes;
    MultiStringDistinct();
    MultiIntDistinct();
    SingleIntApart();
    MultiIntApart();
    SingleStringPart1ApartFromMultiString();
    SingleStringPart2ApartFromMultiString();
    SingleStringPart3ApartFromMultiString();
    DisjointConcat(p1, p2, MultiStringAttributes);
    DisjointConcat(p1 + p2, p3, MultiStringAttributes);
  }

  /** Four duplicate-free, pairwise disjoint lists concatenate without duplicates. */
  lemma ConcatDistinct(a: seq<string>, b: seq<string>, c: seq<string>, d: seq<string>)
    requires NoDuplicates(a) && NoDuplicates(b) && NoDuplicates(c) && NoDuplicates(d)
    requires Disjoint(a, b) && Disjoint(a, c) && Disjoint(a, d)
    requires Disjoint(b, c) && Disjoint(b, d) && Disjoint(c, d)
    ensures NoDuplicates(a + b + c + d)
  {
    var all := a + b + c + d;
    forall i, j | 0 <= i < j < |all|
      ensures all[i] != all[j]
    {
      var n1, n2, n3 := |a|, |a| + |b|, |a| + |b| + |c|;
      if j < n1 {
        assert all[i] == a[i] && all[j] == a[j];
      } else if j < n2 {
        assert all[j] == b[j - n1];
        if i < n1 { assert all[i] == a[i]; } else { assert all[i] == b[i - n1]; }
      } else if j < n3 {
        assert all[j] == c[j - n2];
        if i < n1 { assert all[i] == a[i]; }
        else if i < n2 { assert all[i] == b[i - n1]; }
        else { assert all[i] == c[i - n2]; }
      } else {
        assert all[j] == d[j - n3];
        if i < n1 { assert all[i] == a[i]; }
        else if i < n2 { assert all[i] == b[i - n1]; }
        else if i < n3 { assert all[i] == c[i - n2]; }
        else { assert all[i] == d[i - n3]; }
      }
    }
  }

  /** The whole catalog lists every name once. */
  lemma AllAttributesDistinct()
    ensures NoDuplicates(AllAttributes)
  {
    CatalogDistinct();
    ConcatDistinct(SingleStringAttributes, SingleIntAttributes, MultiStringAttributes, MultiIntAttributes);
  }

  /**
   * The mandatory names are catalog names of the right cardinality, and the
   * seeded `schemas` key is not mandatory.
   */
  lemma RequiredListsInCatalog()
    ensures forall n :: n in RequiredSingleAttributes ==> n in SingleStringAttributes
    ensures forall n :: n in RequiredMultiAttributes ==> n in MultiStringAttributes
    ensures Schemas !in RequiredSingleAttributes && Schemas !in RequiredMultiAttributes
  {
    assert forall i :: 0 <= i < |RequiredSingleAttributes| ==> RequiredSingleAttributes[i] == SingleStringAttributes[i];
  }

  // ------------------------------------------------------------------
  // The schema handed to the host

  datatype ValueType = StringType | IntegerType

  /** What the host learns about one attribute. */
  datatype AttributeInfo = AttributeInfo(name: string, valueType: ValueType, multiValued: bool, required: bool)

  datatype ObjectClassInfo = ObjectClassInfo(objectClassType: string, attributeInfos: seq<AttributeInfo>)

  /** The names of a list of attribute infos, in order. */
  function NamesOf(infos: seq<AttributeInfo>): (names: seq<string>)
    ensures |names| == |infos| && forall k :: 0 <= k < |infos| ==> names[k] == infos[k].name
  {
    seq(|infos|, k requires 0 <= k < |infos| => infos[k].name)
  }

  /** The framework's ObjectClassInfoBuilder: a type and the attribute infos added so far. */
  class ObjectClassInfoBuilder {
    var objectClassType: string
    var attributeInfos: seq<AttributeInfo>

    constructor ()
      ensures objectClassType == "__ACCOUNT__" && attributeInfos == []
    {
      objectClassType := "__ACCOUNT__";
      attributeInfos := [];
    }

    method SetType(objectClassType: string)
      modifies this
      ensures this.objectClassType == objectClassType && attributeInfos == old(attributeInfos)
    {
      this.objectClassType := objectClassType;
    }

    /** The builder refuses a second attribute of the same name. */
    method AddAttributeInfo(info: AttributeInfo)
      requires info.name !in NamesOf(attributeInfos)
      modifies this
      ensures attributeInfos == old(attributeInfos) + [info] && objectClassType == old(objectClassType)
    {
      attributeInfos := attributeInfos + [info];
    }

    method Build() returns (info: ObjectClassInfo)
      ensures info == ObjectClassInfo(objectClassType, attributeInfos)
    {
      info := ObjectClassInfo(objectClassType, attributeInfos);
    }
  }

  /** ArrayUtils.contains on either mandatory list. */
  predicate IsRequired(name: string) {
    name in RequiredSingleAttributes || name in RequiredMultiAttributes
  }

  /** The infos one of the four loops adds for its list. */
  function Infos(names: seq<string>, valueType: ValueType, multiValued: bool): (infos: seq<AttributeInfo>)
    ensures NamesOf(infos) == names
    ensures forall info :: info in infos ==>
      info.name in names && info.valueType == valueType && info.multiValued == multiValued
      && (info.required <==> IsRequired(info.name))
  {
    seq(|names|, k requires 0 <= k < |names| => AttributeInfo(names[k], valueType, multiValued, IsRequired(names[k])))
  }

  /** One loop of buildAffiliationObjectClass: an info per name of the list, in order. */
  method AddAttributeInfos(builder: ObjectClassInfoBuilder, names: seq<string>, valueType: ValueType, multiValued: bool)
    requires NoDuplicates(names) && Disjoint(NamesOf(builder.attributeInfos), names)
    modifies builder
    ensures builder.attributeInfos == old(builder.attributeInfos) + Infos(names, valueType, multiValued)
    ensures NamesOf(builder.attributeInfos) == NamesOf(old(builder.attributeInfos)) + names
    ensures builder.objectClassType == old(builder.objectClassType)
  {
    ghost var added := Infos(names, valueType, multiValued);
    for i := 0 to |names|
      invariant builder.attributeInfos == old(builder.attributeInfos) + added[..i]
      invariant builder.objectClassType == old(builder.objectClassType)
    {
      var name := names[i];
      NamesOfConcat(old(builder.attributeInfos), added[..i]);
      assert name !in NamesOf(added[..i]);
      var info := AttributeInfo(name, valueType, multiValued, IsRequired(name));
      builder.AddAttributeInfo(info);
      assert added[..i + 1] == added[..i] + [info];
    }
    assert added[..|names|] == added;
    NamesOfConcat(old(builder.attributeInfos), Infos(names, valueType, multiValued));
  }

  /**
   * buildAffiliationObjectClass: one attribute per catalog name, in list order.
   * An attribute is required exactly when a mandatory list names it,
   * multi-valued exactly when it comes from a multi list, and Integer-typed
   * exactly when it comes from an int list; no name reaches the builder twice.
   */
  method BuildAffiliationObjectClass() returns (oc: ObjectClassInfo)
    ensures oc.objectClassType == AffiliationObjectClass
    ensures NamesOf(oc.attributeInfos) == AllAttributes
    ensures forall info :: info in oc.attributeInfos ==> (info.required <==> IsRequired(info.name))
    ensures forall info :: info in oc.attributeInfos ==>
      (info.multiValued <==> info.name in MultiStringAttributes || info.name in MultiIntAttributes)
    ensures forall info :: info in oc.attributeInfos ==>
      (info.valueType == IntegerType <==> info.name in SingleIntAttributes || info.name in MultiIntAttributes)
  {
    CatalogDistinct();
    var builder := new ObjectClassInfoBuilder();
    builder.SetType(AffiliationObjectClass);
    AddCatalog(builder, SingleStringAttributes, SingleIntAttributes, MultiStringAttributes, MultiIntAttributes);
    oc := builder.Build();
  }

  /**
   * The four loops of buildAffiliationObjectClass over any four duplicate-free,
   * pairwise disjoint lists, starting from a builder with no attributes.
   */
  method AddCatalog(builder: ObjectClassInfoBuilder, a: seq<string>, b: seq<string>, c: seq<string>, d: seq<string>)
    requires builder.attributeInfos == []
    requires NoDuplicates(a) && NoDuplicates(b) && NoDuplicates(c) && NoDuplicates(d)
    requires Disjoint(a, b) && Disjoint(a, c) && Disjoint(a, d)
    requires Disjoint(b, c) && Disjoint(b, d) && Disjoint(c, d)
    modifies builder
    ensures builder.objectClassType == old(builder.objectClassType)
    ensures NamesOf(builder.attributeInfos) == a + b + c + d
    ensures forall info :: info in builder.attributeInfos ==> (info.required <==> IsRequired(info.name))
    ensures forall info :: info in builder.attributeInfos ==> (info.multiValued <==> info.name in c || info.name in d)
    ensures forall info :: info in builder.attributeInfos ==> (info.valueType == IntegerType <==> info.name in b || info.name in d)
  {
    ghost var ia, ib, ic, id := Infos(a, StringType, false), Infos(b, IntegerType, false),
      Infos(c, StringType, true), Infos(d, IntegerType, true);
    AddAttributeInfos(builder, a, StringType, false);
    assert builder.attributeInfos == ia;
    AddAttributeInfos(builder, b, IntegerType, false);
    DisjointConcat(a, b, c);
    AddAttributeInfos(builder, c, StringType, true);
    DisjointConcat(a, b, d);
    DisjointConcat(a + b, c, d);
    AddAttributeInfos(builder, d, IntegerType, true);
    InfosLayout(a, b, c, d);
  }

  lemma NamesOfConcat(x: seq<AttributeInfo>, y: seq<AttributeInfo>)
    ensures NamesOf(x + y) == NamesOf(x) + NamesOf(y)
  {
  }

  lemma DisjointConcat(a: seq<string>, b: seq<string>, c: seq<string>)
    requires Disjoint(a, c) && Disjoint(b, c)
    ensures Disjoint(a + b, c)
  {
    forall i, j | 0 <= i < |a + b| && 0 <= j < |c|
      ensures (a + b)[i] != c[j]
    {
      if i < |a| { assert (a + b)[i] == a[i]; } else { assert (a + b)[i] == b[i - |a|]; }
    }
  }

  /** The concatenated infos of four disjoint lists carry each list's type and cardinality. */
  lemma InfosLayout(a: seq<string>, b: seq<string>, c: seq<string>, d: seq<string>)
    requires Disjoint(a, b) && Disjoint(a, c) && Disjoint(a, d)
    requires Disjoint(b, c) && Disjoint(b, d) && Disjoint(c, d)
    ensures var infos := Infos(a, StringType, false) + Infos(b, IntegerType, false)
      + Infos(c, StringType, true) + Infos(d, IntegerType, true);
      && NamesOf(infos) == a + b + c + d
      && (forall info :: info in infos ==> (info.required <==> IsRequired(info.name)))
      && (forall info :: info in infos ==> (info.multiValued <==> info.name in c || info.name in d))
      && (forall info :: info in infos ==> (info.valueType == IntegerType <==> info.name in b || info.name in d))
  {
    var ia, ib, ic, id := Infos(a, StringType, false), Infos(b, IntegerType, false),
      Infos(c, StringType, true), Infos(d, IntegerType, true);
    var infos := ia + ib + ic + id;
    assert NamesOf(infos) == NamesOf(ia) + NamesOf(ib) + NamesOf(ic) + NamesOf(id);
    forall info | info in infos
      ensures info.multiValued <==> info.name in c || info.name in d
      ensures info.valueType == IntegerType <==> info.name in b || info.name in d
    {
      if info in ia {
        assert info.name !in b && info.name !in c && info.name !in d;
      } else if info in ib {
        assert info.name !in a && info.name !in c && info.name !in d;
      } else if info in ic {
        assert info.name !in a && info.name !in b && info.name !in d;
      } else {
        assert info in id;
        assert info.name !in a && info.name !in b && info.name !in c;
      }
    }
  }
}
