/** `Person`: a person document with typed accessors, ordering, hashing and its text form. */
module Persons {
  import opened Wrappers
  import opened Strings
  import opened Bridge
  import FamilyTreeUtils

  /** The attributes the indexer may not write. */
  const RequiredAttributes: set<string> := {"id", "birthName", "birthDate", "deceasedDate"}

  /** The attributes every accessor of `BirthName`, `BirthDate` and `DeceasedDate` reads. */
  predicate Hashable(document: Document) {
    && "birthDate" in document && "deceasedDate" in document
    && "birthName" in document && document["birthName"].Str?
  }

  /** What a person's order, hash and text depend on. */
  datatype PersonFields = PersonFields(name: string, birthDate: Option<Date>, deceasedDate: Option<Date>)

  function Fields(document: Document): PersonFields
    requires Hashable(document)
  {
    PersonFields(document["birthName"].text, DateOf(document["birthDate"]), DateOf(document["deceasedDate"]))
  }

  /** The three shapes `GetHashCode` combines: the name alone, name and birth date, or all three. */
  datatype PersonHash =
    | OfName(name: string)
    | OfNameAndBirthDate(name: string, birthDate: Date)
    | OfAll(name: string, maybeBirthDate: Option<Date>, deceasedDate: Date)

  /**
   * `GetHashCode`, a hash code being represented by the values it combines.
   * The getters it calls throw `KeyNotFoundException` for a missing key, in the
   * order birth date, deceased date, birth name.
   */
  function HashKeyOf(document: Document): (r: Result<PersonHash>)
    ensures r.Ok? <==> Hashable(document)
    ensures r.Ok? ==> r.value.name == Fields(document).name
    ensures r.Ok? ==> (r.value.OfName? <==> Fields(document).birthDate.None? && Fields(document).deceasedDate.None?)
  {
    if "birthDate" !in document then Err(KeyNotFound("birthDate"))
    else if "deceasedDate" !in document then Err(KeyNotFound("deceasedDate"))
    else if "birthName" !in document then Err(KeyNotFound("birthName"))
    else
      var name :- AsString(document["birthName"]);
      var birth := DateOf(document["birthDate"]);
      var deceased := DateOf(document["deceasedDate"]);
      if birth.None? && deceased.None? then Ok(OfName(name))
      else if birth.Some? && deceased.None? then Ok(OfNameAndBirthDate(name, birth.value))
      else Ok(OfAll(name, birth, deceased.value))
  }

  /** The exception `GetHashCode` throws, without the hash it computes otherwise. */
  function HashFailure(document: Document): Option<Error> {
    if "birthDate" !in document then Some(KeyNotFound("birthDate"))
    else if "deceasedDate" !in document then Some(KeyNotFound("deceasedDate"))
    else if "birthName" !in document then Some(KeyNotFound("birthName"))
    else if !document["birthName"].Str? then Some(InvalidOperation("AsString"))
    else None
  }

  /** The hash throws exactly the exception `HashFailure` names. */
  lemma HashFailureOf(document: Document)
    ensures HashFailure(document).None? <==> HashKeyOf(document).Ok?
    ensures HashFailure(document).Some? ==> HashKeyOf(document) == Err(HashFailure(document).value)
  {
  }

  /** Two hashable documents hash alike exactly when their name and both dates agree. */
  lemma HashKeyDeterminesFields(x: Document, y: Document)
    requires Hashable(x) && Hashable(y)
    ensures HashKeyOf(x) == HashKeyOf(y) <==> Fields(x) == Fields(y)
  {
  }

  /** The `BirthDate` or `DeceasedDate` getter: the date stored under `key`, which must be there. */
  function DateAt(document: Document, key: string): Result<Option<Date>> {
    if key !in document then Err(KeyNotFound(key)) else Ok(DateOf(document[key]))
  }

  /** The `BirthName` getter. */
  function NameAt(document: Document): Result<string> {
    if "birthName" !in document then Err(KeyNotFound("birthName")) else AsString(document["birthName"])
  }

  /** `CompareTo(Person)` on two non-null persons: birth date, then deceased date, then birth name. */
  function CompareFields(x: PersonFields, y: PersonFields, less: (Option<Date>, Option<Date>) -> bool,
                         compareNames: (string, string) -> int): int
  {
    if less(x.birthDate, y.birthDate) then -1
    else if less(y.birthDate, x.birthDate) then 1
    else if less(x.deceasedDate, y.deceasedDate) then -1
    else if less(y.deceasedDate, x.deceasedDate) then 1
    else compareNames(x.name, y.name)
  }

  function Sign(i: int): int {
    if i < 0 then -1 else if i > 0 then 1 else 0
  }

  ghost predicate Asymmetric(less: (Option<Date>, Option<Date>) -> bool) {
    forall a, b :: less(a, b) ==> !less(b, a)
  }

  ghost predicate Total(less: (Option<Date>, Option<Date>) -> bool) {
    forall a, b :: a != b ==> less(a, b) || less(b, a)
  }

  ghost predicate AntisymmetricComparison<T(!new)>(compare: (T, T) -> int) {
    forall a, b :: Sign(compare(a, b)) == -Sign(compare(b, a))
  }

  /** Swapping the operands negates the comparison. */
  lemma CompareFieldsAntisymmetric(x: PersonFields, y: PersonFields, less: (Option<Date>, Option<Date>) -> bool,
                                   compareNames: (string, string) -> int)
    requires Asymmetric(less) && AntisymmetricComparison(compareNames)
    ensures Sign(CompareFields(x, y, less, compareNames)) == -Sign(CompareFields(y, x, less, compareNames))
  {
  }

  /**
   * With a total order on dates and a name comparison that is zero only for
   * equal names, two persons compare equal exactly when their names and both
   * dates agree.
   */
  lemma CompareFieldsZero(x: PersonFields, y: PersonFields, less: (Option<Date>, Option<Date>) -> bool,
                          compareNames: (string, string) -> int)
    requires Asymmetric(less) && Total(less)
    requires forall a, b :: compareNames(a, b) == 0 <==> a == b
    ensures CompareFields(x, y, less, compareNames) == 0 <==> x == y
  {
    if x == y {
      assert !less(x.birthDate, x.birthDate);
      assert !less(x.deceasedDate, x.deceasedDate);
    }
  }

  function DateText(d: Option<Date>): string {
    if d.Some? then d.value.text else ""
  }

  /** `ToString`: "Name (–)", "Name (B – Present)" or "Name (B – D)". */
  function RenderFields(f: PersonFields): string {
    f.name + " " +
    if f.birthDate.None? && f.deceasedDate.None? then "(" + [EnDash] + ")"
    else if f.deceasedDate.None? then "(" + DateText(f.birthDate) + " " + [EnDash] + " Present)"
    else "(" + DateText(f.birthDate) + " " + [EnDash] + " " + f.deceasedDate.value.text + ")"
  }

  class Person {
    var document: Document

    constructor FromDocument(document: Document)
      ensures this.document == document
    {
      this.document := document;
    }

    /**
     * `new Person(instance, needToGenerateId)`: throws when the instance has no
     * "id" and none may be generated; otherwise keeps the instance and adds the
     * generated id only if it has none.
     */
    static method Create(instance: Document, needToGenerateId: bool, generatedId: string) returns (r: Result<Person>)
      ensures r.Err? <==> "id" !in instance && !needToGenerateId
      ensures r.Err? ==> r.error == UniqueIdentifierNotExists
      ensures r.Ok? ==> fresh(r.value) && r.value.document == WithId(instance, generatedId)
    {
      if "id" !in instance && !needToGenerateId {
        return Err(UniqueIdentifierNotExists);
      }
      var p := new Person.FromDocument(instance);
      if "id" !in p.document {
        p.document := p.document["id" := Str(generatedId)];
      }
      return Ok(p);
    }

    /** `Copy`: a new person over the same document. */
    method Copy() returns (c: Person)
      requires "id" in document
      ensures fresh(c) && c.document == document
    {
      var r := Create(document, false, "");
      c := r.value;
    }

    function BirthName(): string
      reads this
      requires "birthName" in document && document["birthName"].Str?
    {
      document["birthName"].text
    }

    function BirthDate(): Option<Date>
      reads this
      requires "birthDate" in document
    {
      DateOf(document["birthDate"])
    }

    function DeceasedDate(): Option<Date>
      reads this
      requires "deceasedDate" in document
    {
      DateOf(document["deceasedDate"])
    }

    /** The `BirthDate` setter: null is stored as an empty instance. */
    method SetBirthDate(value: Option<Date>)
      modifies this
      ensures document == old(document)["birthDate" := InstanceOf(value)]
      ensures BirthDate() == value
    {
      document := document["birthDate" := InstanceOf(value)];
      DateOfInstanceOf(value);
    }

    /** The `DeceasedDate` setter: null is stored as an empty instance. */
    method SetDeceasedDate(value: Option<Date>)
      modifies this
      ensures document == old(document)["deceasedDate" := InstanceOf(value)]
      ensures DeceasedDate() == value
    {
      document := document["deceasedDate" := InstanceOf(value)];
      DateOfInstanceOf(value);
    }

    /** The indexer getter. */
    function Get(attribute: string): BridgeInstance
      reads this
      requires attribute in document
    {
      document[attribute]
    }

    /** The indexer setter: refuses the required attributes in any case, otherwise writes that one key. */
    method Set(attribute: string, value: BridgeInstance, equalsIgnoreCase: FamilyTreeUtils.IgnoreCaseEquality)
      returns (r: Outcome)
      modifies this
      ensures r == FamilyTreeUtils.ValidateExtendedAttributeAccessibility(RequiredAttributes, attribute, equalsIgnoreCase)
      ensures r.Pass? ==> document == old(document)[attribute := value]
      ensures r.Fail? ==> document == old(document)
    {
      r := FamilyTreeUtils.ValidateExtendedAttributeAccessibility(RequiredAttributes, attribute, equalsIgnoreCase);
      if r.Pass? {
        document := document[attribute := value];
      }
    }

    /**
     * `CompareTo(Person?)`: every person follows null; otherwise the birth
     * dates decide, then the deceased dates, then the birth names. Each getter
     * throws for a missing key, and a later pair is read only on a tie.
     */
    function CompareTo(p: Person?, less: (Option<Date>, Option<Date>) -> bool, compareNames: (string, string) -> int)
      : (r: Result<int>)
      reads this, p
      ensures p == null ==> r == Ok(1)
      ensures p != null && Hashable(document) && Hashable(p.document)
              ==> r == Ok(CompareFields(Fields(document), Fields(p.document), less, compareNames))
      ensures (p != null && "birthDate" in document && "birthDate" in p.document
               && less(DateOf(document["birthDate"]), DateOf(p.document["birthDate"]))) ==> r == Ok(-1)
      ensures p != null && "birthDate" !in document ==> r == Err(KeyNotFound("birthDate"))
    {
      if p == null then Ok(1)
      else
        var birth :- DateAt(document, "birthDate");
        var otherBirth :- DateAt(p.document, "birthDate");
        if less(birth, otherBirth) then Ok(-1)
        else if less(otherBirth, birth) then Ok(1)
        else
          var deceased :- DateAt(document, "deceasedDate");
          var otherDeceased :- DateAt(p.document, "deceasedDate");
          if less(deceased, otherDeceased) then Ok(-1)
          else if less(otherDeceased, deceased) then Ok(1)
          else
            var name :- NameAt(document);
            var otherName :- NameAt(p.document);
            Ok(compareNames(name, otherName))
    }

    function HashKey(): Result<PersonHash>
      reads this
    {
      HashKeyOf(document)
    }

    function ToString(): string
      reads this
      requires Hashable(document)
    {
      RenderFields(Fields(document))
    }
  }

  /** A person compares after null, and two persons compare in opposite directions each way round. */
  lemma CompareToAntisymmetric(a: Person, b: Person, less: (Option<Date>, Option<Date>) -> bool,
                               compareNames: (string, string) -> int)
    requires Hashable(a.document) && Hashable(b.document)
    requires Asymmetric(less) && AntisymmetricComparison(compareNames)
    ensures a.CompareTo(null, less, compareNames) == Ok(1)
    ensures a.CompareTo(b, less, compareNames).Ok? && b.CompareTo(a, less, compareNames).Ok?
    ensures Sign(a.CompareTo(b, less, compareNames).value) == -Sign(b.CompareTo(a, less, compareNames).value)
  {
    CompareFieldsAntisymmetric(Fields(a.document), Fields(b.document), less, compareNames);
  }

  /** Rewriting an attribute other than the required ones leaves the hash, order and text alone. */
  lemma ExtendedAttributeKeepsFields(document: Document, attribute: string, value: BridgeInstance,
                                     equalsIgnoreCase: FamilyTreeUtils.IgnoreCaseEquality)
    requires Hashable(document) && FamilyTreeUtils.Reflexive(equalsIgnoreCase)
    requires FamilyTreeUtils.ValidateExtendedAttributeAccessibility(RequiredAttributes, attribute, equalsIgnoreCase).Pass?
    ensures Hashable(document[attribute := value])
    ensures Fields(document[attribute := value]) == Fields(document)
    ensures HashKeyOf(document[attribute := value]) == HashKeyOf(document)
  {
    FamilyTreeUtils.AcceptedIsNotRequired(RequiredAttributes, attribute, equalsIgnoreCase);
  }
}
