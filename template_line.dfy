/**
 * `TemplateLine`: one header of a template, its coordinate, member, family
 * dynamic and optional in-law, with its equality and its text form.
 */
module TemplateLines {
  import opened Wrappers
  import opened Strings
  import opened Bridge
  import Coordinates
  import opened Persons
  import opened FamilyDynamics

  /** The dynamic is optional because the reader leaves it out of lines without a start date. */
  datatype TemplateLine = TemplateLine(coordinate: Coordinates.Coordinate, member: Person,
                                       familyDynamic: FamilyDynamic?, inLaw: Person?)

  /** The persons of a line: its member, then its in-law when it has one. */
  function PersonsOf(member: Person, inLaw: Person?): seq<Person?> {
    [member] + if inLaw == null then [] else [inLaw]
  }

  /**
   * The `==` of persons and of family dynamics, which the models inherit from
   * a base class that is not part of this model: relations over documents.
   */
  datatype Equalities = Equalities(person: (Document, Document) -> bool, dynamic: (Document, Document) -> bool)

  ghost predicate Equivalence<T(!new)>(r: (T, T) -> bool) {
    && (forall a :: r(a, a))
    && (forall a, b :: r(a, b) ==> r(b, a))
    && (forall a, b, c :: r(a, b) && r(b, c) ==> r(a, c))
  }

  predicate PersonEquals(a: Person?, b: Person?, eq: Equalities)
    reads a, b
  {
    (a == null && b == null) || (a != null && b != null && eq.person(a.document, b.document))
  }

  predicate DynamicEquals(a: FamilyDynamic?, b: FamilyDynamic?, eq: Equalities)
    reads a, b
  {
    (a == null && b == null) || (a != null && b != null && eq.dynamic(a.document, b.document))
  }

  /** `Equals(TemplateLine)`: coordinate, member, in-law and family dynamic all `==`. */
  predicate Equals(a: TemplateLine, b: TemplateLine, eq: Equalities)
    reads a.member, a.inLaw, a.familyDynamic, b.member, b.inLaw, b.familyDynamic
  {
    && a.coordinate == b.coordinate
    && PersonEquals(a.member, b.member, eq)
    && PersonEquals(a.inLaw, b.inLaw, eq)
    && DynamicEquals(a.familyDynamic, b.familyDynamic, eq)
  }

  /** `operator ==(TemplateLine?, TemplateLine?)`. */
  predicate Eq(a: Option<TemplateLine>, b: Option<TemplateLine>, eq: Equalities)
    reads if a.Some? then {a.value.member, a.value.inLaw, a.value.familyDynamic} else {}
    reads if b.Some? then {b.value.member, b.value.inLaw, b.value.familyDynamic} else {}
  {
    if a.None? && b.None? then true
    else if a.None? && b.Some? then false
    else if a.Some? && b.None? then false
    else Equals(a.value, b.value, eq)
  }

  /** `operator !=(TemplateLine?, TemplateLine?)`, written out branch by branch as the source does. */
  predicate Ne(a: Option<TemplateLine>, b: Option<TemplateLine>, eq: Equalities)
    reads if a.Some? then {a.value.member, a.value.inLaw, a.value.familyDynamic} else {}
    reads if b.Some? then {b.value.member, b.value.inLaw, b.value.familyDynamic} else {}
  {
    if a.None? && b.None? then false
    else if a.None? && b.Some? then true
    else if a.Some? && b.None? then true
    else !Equals(a.value, b.value, eq)
  }

  /** `!=` is the negation of `==` on every pair, and two nulls are `==`. */
  lemma NeIsNotEq(a: Option<TemplateLine>, b: Option<TemplateLine>, eq: Equalities)
    ensures Ne(a, b, eq) <==> !Eq(a, b, eq)
    ensures Eq(None, None, eq)
    ensures a.Some? ==> !Eq(a, None, eq) && !Eq(None, a, eq)
  {
  }

  /** With equivalences for persons and dynamics, line equality is an equivalence. */
  lemma EqualsEquivalence(a: TemplateLine, b: TemplateLine, c: TemplateLine, eq: Equalities)
    requires Equivalence(eq.person) && Equivalence(eq.dynamic)
    ensures Equals(a, a, eq)
    ensures Equals(a, b, eq) ==> Equals(b, a, eq)
    ensures Equals(a, b, eq) && Equals(b, c, eq) ==> Equals(a, c, eq)
  {
  }

  /** `Copy`: the same four parts. */
  function Copy(l: TemplateLine): (r: TemplateLine)
    ensures r == l
  {
    TemplateLine(l.coordinate, l.member, l.familyDynamic, l.inLaw)
  }

  /** A copy is `==` to the original when the part equalities are reflexive. */
  lemma CopyEquals(l: TemplateLine, eq: Equalities)
    requires forall d :: eq.person(d, d)
    requires forall d :: eq.dynamic(d, d)
    ensures Eq(Some(Copy(l)), Some(l), eq)
  {
  }

  /** The persons' getters that `ToString` calls find their attributes. */
  predicate Renderable(l: TemplateLine)
    reads l.member, l.inLaw
  {
    Hashable(l.member.document) && (l.inLaw != null ==> Hashable(l.inLaw.document))
  }

  /** "{coordinate} {member}", then " & {inLaw}" when there is an in-law. */
  function RenderPeople(l: TemplateLine): string
    reads l.member, l.inLaw
    requires Renderable(l)
  {
    Coordinates.Render(l.coordinate) + " " + l.member.ToString()
    + if l.inLaw != null then " & " + l.inLaw.ToString() else ""
  }

  /**
   * `ToString` as written. A line without a family dynamic throws
   * `NullReferenceException`; the `FamilyDynamicStartDate` getter indexes the
   * start-date key, so a dynamic without one throws `KeyNotFoundException`;
   * the null test after it is then always true.
   */
  function RenderAsWritten(l: TemplateLine): (r: Result<string>)
    reads l.member, l.inLaw, l.familyDynamic
    requires Renderable(l)
  {
    if l.familyDynamic == null then Err(NullReference)
    else
      var dynamicDocument := l.familyDynamic.document;
      if "familyDynamicStartDate" !in dynamicDocument then Err(KeyNotFound("familyDynamicStartDate"))
      else
        var start :- AsString(dynamicDocument["familyDynamicStartDate"]);
        Ok(RenderPeople(l) + ": " + start)
  }

  /** Whether the line has a family dynamic with a start date. */
  predicate HasStart(l: TemplateLine)
    reads l.familyDynamic
  {
    l.familyDynamic != null && HasStartDate(l.familyDynamic.document)
  }

  /** `ToString` corrected: the ": {dynamic}" suffix exactly when the start date is there. */
  function Render(l: TemplateLine): string
    reads l.member, l.inLaw, l.familyDynamic
    requires Renderable(l)
  {
    RenderPeople(l) + if HasStart(l) then ": " + l.familyDynamic.ToString() else ""
  }

  /**
   * The as-written text fails exactly on a line without a start date, with the
   * exception of the step that fails, and otherwise agrees with `Render`.
   */
  lemma RenderAsWrittenAgrees(l: TemplateLine)
    requires Renderable(l)
    ensures RenderAsWritten(l).Ok? <==> HasStart(l)
    ensures RenderAsWritten(l).Ok? ==> RenderAsWritten(l).value == Render(l)
    ensures l.familyDynamic == null ==> RenderAsWritten(l) == Err(NullReference)
    ensures l.familyDynamic != null && "familyDynamicStartDate" !in l.familyDynamic.document
      ==> RenderAsWritten(l) == Err(KeyNotFound("familyDynamicStartDate"))
    ensures l.familyDynamic != null && "familyDynamicStartDate" in l.familyDynamic.document && !HasStart(l)
      ==> RenderAsWritten(l) == Err(InvalidOperation("AsString"))
  {
  }
}
