/** The required-attribute validators of the data layer. */
module DataUtils {
  import opened Wrappers

  /** Throws `MissingRequiredAttributeException` unless `requiredAttribute` is one of `attributes`. */
  function ValidateRequiredAttribute(attributes: set<string>, requiredAttribute: string): (r: Outcome)
    ensures r.Pass? <==> requiredAttribute in attributes
    ensures r.Fail? ==> r.error == MissingRequiredAttribute({requiredAttribute})
  {
    if requiredAttribute !in attributes then Fail(MissingRequiredAttribute({requiredAttribute})) else Pass
  }

  /** Throws `MissingRequiredAttributeException` naming every required attribute that is missing. */
  function ValidateRequiredAttributes(requiredAttributes: set<string>, attributes: set<string>): (r: Outcome)
    ensures r.Pass? <==> requiredAttributes <= attributes
    ensures r.Fail? ==> r.error.MissingRequiredAttribute? && r.error.attributes != {}
    ensures r.Fail? ==> forall a :: a in r.error.attributes <==> a in requiredAttributes && a !in attributes
  {
    var missing := requiredAttributes - attributes;
    if missing != {} then Fail(MissingRequiredAttribute(missing))
    else
      assert forall a :: a in requiredAttributes ==> a in attributes by {
        forall a | a in requiredAttributes ensures a in attributes {
          assert a !in missing;
        }
      }
      Pass
  }

  /** Nothing is missing from an empty requirement. */
  lemma NoRequirementsPass(attributes: set<string>)
    ensures ValidateRequiredAttributes({}, attributes) == Pass
  {
  }

  /** The whole-set check passes exactly when every single-attribute check passes. */
  lemma RequiredAttributesEach(requiredAttributes: set<string>, attributes: set<string>)
    ensures ValidateRequiredAttributes(requiredAttributes, attributes).Pass?
      <==> forall a :: a in requiredAttributes ==> ValidateRequiredAttribute(attributes, a).Pass?
  {
  }
}
