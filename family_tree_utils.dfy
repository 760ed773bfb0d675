/** The attribute guard the models' indexers share. */
module FamilyTreeUtils {
  import opened Wrappers

  /**
   * `string.Equals(a, b, StringComparison.CurrentCultureIgnoreCase)`. Which
   * texts are equal up to case is decided by the current culture, so the
   * comparison is a parameter.
   */
  type IgnoreCaseEquality = (string, string) -> bool

  /** Every culture's comparison finds a text equal to itself. */
  ghost predicate Reflexive(equalsIgnoreCase: IgnoreCaseEquality) {
    forall s :: equalsIgnoreCase(s, s)
  }

  /**
   * Throws `InvalidAttributeException` when `attribute` equals a required
   * attribute under the culture's case-insensitive comparison; otherwise has
   * no effect.
   */
  function ValidateExtendedAttributeAccessibility(requiredAttributes: set<string>, attribute: string,
                                                  equalsIgnoreCase: IgnoreCaseEquality): (r: Outcome)
    ensures r.Fail? <==> exists a :: a in requiredAttributes && equalsIgnoreCase(a, attribute)
    ensures r.Fail? ==> r.error == InvalidAttribute(attribute)
  {
    if exists a :: a in requiredAttributes && equalsIgnoreCase(a, attribute) then Fail(InvalidAttribute(attribute)) else Pass
  }

  /** A required attribute is refused in every casing the culture equates with it. */
  lemma RequiredRefusedInAnyCase(requiredAttributes: set<string>, a: string, attribute: string,
                                 equalsIgnoreCase: IgnoreCaseEquality)
    requires a in requiredAttributes && equalsIgnoreCase(a, attribute)
    ensures ValidateExtendedAttributeAccessibility(requiredAttributes, attribute, equalsIgnoreCase)
            == Fail(InvalidAttribute(attribute))
  {
  }

  /** Whatever the culture, an attribute that passes the guard is none of the required ones. */
  lemma AcceptedIsNotRequired(requiredAttributes: set<string>, attribute: string, equalsIgnoreCase: IgnoreCaseEquality)
    requires Reflexive(equalsIgnoreCase)
    requires ValidateExtendedAttributeAccessibility(requiredAttributes, attribute, equalsIgnoreCase).Pass?
    ensures attribute !in requiredAttributes
  {
  }
}
