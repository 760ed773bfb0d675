/** `FamilyDynamic`: the document of a partnership page, its start date and page title. */
module FamilyDynamics {
  import opened Wrappers
  import opened Strings
  import opened Bridge
  import FamilyTreeUtils

  /** The attributes the indexer may not write. */
  const RequiredAttributes: set<string> := {"id", "familyDynamicStartDate", "pageTitle"}

  /** The `FamilyDynamicStartDate` getter reads a string at this key. */
  predicate HasStartDate(document: Document) {
    "familyDynamicStartDate" in document && document["familyDynamicStartDate"].Str?
  }

  predicate HasPageTitle(document: Document) {
    "pageTitle" in document && document["pageTitle"].Str?
  }

  /** The page title of a partnership: "This is the family of M." or "This is the family of M and I.". */
  function PageTitleOf(member: string, inLaw: Option<string>): string {
    "This is the family of " + member + (if inLaw.Some? then " and " + inLaw.value else "") + "."
  }

  /**
   * The `FamilyDynamicStartDate` getter: `KeyNotFoundException` without the
   * key, `InvalidOperationException` when the value is not a string.
   */
  function StartDateOf(document: Document): (r: Result<Date>)
    ensures r.Ok? <==> HasStartDate(document)
    ensures r.Ok? ==> Str(r.value.text) == document["familyDynamicStartDate"]
    ensures "familyDynamicStartDate" !in document ==> r == Err(KeyNotFound("familyDynamicStartDate"))
  {
    if "familyDynamicStartDate" !in document then Err(KeyNotFound("familyDynamicStartDate"))
    else
      var start :- AsString(document["familyDynamicStartDate"]);
      Ok(Date(start))
  }

  /** The values `GetHashCode` combines: the start date and the page title. */
  datatype DynamicHash = DynamicHash(startDate: Date, pageTitle: string)

  /** `GetHashCode`; its getters throw for a missing key, the start date's first. */
  function HashKeyOf(document: Document): (r: Result<DynamicHash>)
    ensures r.Ok? <==> HasStartDate(document) && HasPageTitle(document)
  {
    var start :- StartDateOf(document);
    if "pageTitle" !in document then Err(KeyNotFound("pageTitle"))
    else
      var title :- AsString(document["pageTitle"]);
      Ok(DynamicHash(start, title))
  }

  /** The hash does not depend on the id, nor on any attribute but the start date and the title. */
  lemma HashKeyIgnoresOthers(document: Document, key: string, value: BridgeInstance)
    requires key != "familyDynamicStartDate" && key != "pageTitle"
    ensures HashKeyOf(document[key := value]) == HashKeyOf(document)
  {
  }

  /** Two documents with a start date and a title hash alike exactly when both agree. */
  lemma HashKeyDeterminesDateAndTitle(x: Document, y: Document)
    requires HasStartDate(x) && HasPageTitle(x) && HasStartDate(y) && HasPageTitle(y)
    ensures HashKeyOf(x) == HashKeyOf(y)
      <==> x["familyDynamicStartDate"] == y["familyDynamicStartDate"] && x["pageTitle"] == y["pageTitle"]
  {
  }

  class FamilyDynamic {
    var document: Document

    constructor FromDocument(document: Document)
      ensures this.document == document
    {
      this.document := document;
    }

    /**
     * `new FamilyDynamic(obj, needToGenerateId)`: throws when the object has no
     * "id" and none may be generated; otherwise keeps the object and adds the
     * generated id only if it has none.
     */
    static method Create(obj: Document, needToGenerateId: bool, generatedId: string) returns (r: Result<FamilyDynamic>)
      ensures r.Err? <==> "id" !in obj && !needToGenerateId
      ensures r.Err? ==> r.error == UniqueIdentifierNotExists
      ensures r.Ok? ==> fresh(r.value) && r.value.document == WithId(obj, generatedId)
    {
      if "id" !in obj && !needToGenerateId {
        return Err(UniqueIdentifierNotExists);
      }
      var d := new FamilyDynamic.FromDocument(obj);
      if "id" !in d.document {
        d.document := d.document["id" := Str(generatedId)];
      }
      return Ok(d);
    }

    /** `Copy`: a new family dynamic over the same document. */
    method Copy() returns (c: FamilyDynamic)
      requires "id" in document
      ensures fresh(c) && c.document == document
    {
      var r := Create(document, false, "");
      c := r.value;
    }

    function StartDate(): Date
      reads this
      requires HasStartDate(document)
    {
      Date(document["familyDynamicStartDate"].text)
    }

    function PageTitle(): string
      reads this
      requires HasPageTitle(document)
    {
      document["pageTitle"].text
    }

    /** The indexer getter. */
    function Get(attribute: string): BridgeInstance
      reads this
      requires attribute in document
    {
      document[attribute]
    }

    /** The indexer setter: refuses the required attributes in any case, otherwise writes that one key. */
    method Set(attribute: string, value: BridgeInstance, equalsIgnoreCase: FamilyTreeUtils.IgnoreCaseEquality)
      returns (r: Outcome)
      modifies this
      ensures r == FamilyTreeUtils.ValidateExtendedAttributeAccessibility(RequiredAttributes, attribute, equalsIgnoreCase)
      ensures r.Pass? ==> document == old(document)[attribute := value]
      ensures r.Fail? ==> document == old(document)
    {
      r := FamilyTreeUtils.ValidateExtendedAttributeAccessibility(RequiredAttributes, attribute, equalsIgnoreCase);
      if r.Pass? {
        document := document[attribute := value];
      }
    }

    /**
     * `CompareTo(FamilyDynamic?)`: after null; otherwise by start date, this
     * one's getter read first, either getter throwing.
     */
    function CompareTo(p: FamilyDynamic?, compareDates: (Date, Date) -> int): (r: Result<int>)
      reads this, p
      ensures p == null ==> r == Ok(1)
      ensures p != null ==> (r.Ok? <==> HasStartDate(document) && HasStartDate(p.document))
      ensures p != null && HasStartDate(document) && HasStartDate(p.document)
              ==> r == Ok(compareDates(StartDate(), p.StartDate()))
      ensures p != null && !HasStartDate(document) ==> r == Err(StartDateOf(document).error)
      ensures p != null && HasStartDate(document) && !HasStartDate(p.document)
              ==> r == Err(StartDateOf(p.document).error)
    {
      if p == null then Ok(1)
      else
        var mine :- StartDateOf(document);
        var theirs :- StartDateOf(p.document);
        Ok(compareDates(mine, theirs))
    }

    function HashKey(): Result<DynamicHash>
      reads this
    {
      HashKeyOf(document)
    }

    /** `ToString`: the start date's text. */
    function ToString(): string
      reads this
      requires HasStartDate(document)
    {
      StartDate().text
    }
  }

  function Sign(i: int): int {
    if i < 0 then -1 else if i > 0 then 1 else 0
  }

  /**
   * A family dynamic compares after null; two compare without throwing each
   * way round or neither does, and then in opposite directions when the date
   * comparison does; and the text is the start date exactly as stored.
   */
  lemma CompareToAntisymmetric(a: FamilyDynamic, b: FamilyDynamic, compareDates: (Date, Date) -> int)
    requires forall x, y :: Sign(compareDates(x, y)) == -Sign(compareDates(y, x))
    ensures a.CompareTo(null, compareDates) == Ok(1)
    ensures a.CompareTo(b, compareDates).Ok? <==> b.CompareTo(a, compareDates).Ok?
    ensures a.CompareTo(b, compareDates).Ok?
            ==> Sign(a.CompareTo(b, compareDates).value) == -Sign(b.CompareTo(a, compareDates).value)
    ensures HasStartDate(a.document) ==> Str(a.ToString()) == a.document["familyDynamicStartDate"]
  {
  }
}
