/** `Content`: a header line and the text under it that holds its descendants. */
module Contents {
  import opened Wrappers
  import opened TemplateLines

  /**
   * A page section: its header line and the text under it. The source types
   * the header as `Line`; the model holds the `TemplateLine` it is built
   * from and reads `Line.ToString` as `TemplateLine.ToString`.
   */
  datatype Content = Content(header: TemplateLine, subContent: string)

  /** `Equals(Content)`: the headers are `==` and the sub-contents are the same text. */
  predicate Equals(a: Content, b: Content, eq: Equalities)
    reads a.header.member, a.header.inLaw, a.header.familyDynamic
    reads b.header.member, b.header.inLaw, b.header.familyDynamic
  {
    Eq(Some(a.header), Some(b.header), eq) && a.subContent == b.subContent
  }

  /** `operator ==`. */
  predicate EqOp(a: Content, b: Content, eq: Equalities)
    reads a.header.member, a.header.inLaw, a.header.familyDynamic
    reads b.header.member, b.header.inLaw, b.header.familyDynamic
  {
    Equals(a, b, eq)
  }

  /** `operator !=`. */
  predicate NeOp(a: Content, b: Content, eq: Equalities)
    reads a.header.member, a.header.inLaw, a.header.familyDynamic
    reads b.header.member, b.header.inLaw, b.header.familyDynamic
  {
    !Equals(a, b, eq)
  }

  /** `Copy`: the same header and sub-content. */
  function Copy(c: Content): (r: Content)
    ensures r == c
  {
    Content(c.header, c.subContent)
  }

  /**
   * Content equality is header equality plus text equality, so it is an
   * equivalence when line equality is; `!=` negates `==`; a copy is `==`
   * to the original.
   */
  lemma EqualsProperties(a: Content, b: Content, eq: Equalities)
    requires Equivalence(eq.person) && Equivalence(eq.dynamic)
    ensures NeOp(a, b, eq) <==> !EqOp(a, b, eq)
    ensures EqOp(Copy(a), a, eq)
    ensures EqOp(a, b, eq) <==> TemplateLines.Equals(a.header, b.header, eq) && a.subContent == b.subContent
    ensures EqOp(a, b, eq) ==> EqOp(b, a, eq)
  {
    EqualsEquivalence(a.header, b.header, a.header, eq);
  }

  /**
   * `ToString`: "Header: {h}\nSubContent:\n{s}"; a header whose text throws
   * makes it throw (the header's text as `TemplateLine.ToString` writes it).
   */
  function ToString(c: Content): (r: Result<string>)
    reads c.header.member, c.header.inLaw, c.header.familyDynamic
    requires Renderable(c.header)
  {
    var header :- RenderAsWritten(c.header);
    Ok("Header: " + header + "\nSubContent:\n" + c.subContent)
  }

  /**
   * The text exists exactly when the header has a start date; it then starts
   * with the header's text and ends with the sub-content, and otherwise the
   * header's exception propagates.
   */
  lemma ToStringParts(c: Content)
    requires Renderable(c.header)
    ensures ToString(c).Ok? <==> HasStart(c.header)
    ensures ToString(c).Ok? ==> (var s := ToString(c).value;
      && |s| >= |c.subContent| && s[|s| - |c.subContent|..] == c.subContent
      && s[..8 + |Render(c.header)|] == "Header: " + Render(c.header))
    ensures ToString(c).Err? ==> ToString(c).error == RenderAsWritten(c.header).error
  {
    RenderAsWrittenAgrees(c.header);
    if HasStart(c.header) {
      var s := ToString(c).value;
      assert s == ("Header: " + Render(c.header)) + "\nSubContent:\n" + c.subContent;
    }
  }

  /** The objects the contents' headers refer to. */
  function Footprint(cs: seq<Content>): set<object>
  {
    (set c | c in cs :: c.header.member as object)
    + (set c | c in cs && c.header.inLaw != null :: c.header.inLaw as object)
    + (set c | c in cs && c.header.familyDynamic != null :: c.header.familyDynamic as object)
  }

  /** Every content's header can be formatted as far as its persons go. */
  predicate AllRenderable(cs: seq<Content>)
    reads Footprint(cs)
  {
    forall k :: 0 <= k < |cs| ==> Renderable(cs[k].header)
  }

  /**
   * `string.Join('\n', contents)`: each content's text in order, separated
   * by newlines. The contents are formatted one by one, so the first text
   * that throws makes the whole join throw.
   */
  function Join(cs: seq<Content>): (r: Result<string>)
    reads Footprint(cs)
    requires AllRenderable(cs)
    decreases |cs|
  {
    if cs == [] then Ok("")
    else
      assert Footprint(cs[1..]) <= Footprint(cs);
      var head :- ToString(cs[0]);
      if |cs| == 1 then Ok(head)
      else
        var tail :- Join(cs[1..]);
        Ok(head + "\n" + tail)
  }

  /** The join succeeds exactly when every header has a start date. */
  lemma {:induction false} JoinAsWritten(cs: seq<Content>)
    requires AllRenderable(cs)
    ensures Join(cs).Ok? <==> forall k :: 0 <= k < |cs| ==> HasStart(cs[k].header)
    decreases |cs|
  {
    if cs != [] {
      ToStringParts(cs[0]);
      JoinAsWritten(cs[1..]);
      assert forall k :: 0 < k < |cs| ==> cs[k] == cs[1..][k - 1];
    }
  }

  /** The join throws the exception of the first header without a start date. */
  lemma {:induction false} JoinFirstFailure(cs: seq<Content>, k: nat)
    requires AllRenderable(cs)
    requires k < |cs| && !HasStart(cs[k].header)
    requires forall j :: 0 <= j < k ==> HasStart(cs[j].header)
    ensures Join(cs) == Err(RenderAsWritten(cs[k].header).error)
    decreases k
  {
    ToStringParts(cs[0]);
    if k > 0 {
      var rest := cs[1..];
      forall j | 0 <= j < k - 1
        ensures HasStart(rest[j].header)
      {
        assert rest[j] == cs[j + 1];
      }
      assert rest[k - 1] == cs[k];
      JoinFirstFailure(rest, k - 1);
    }
  }
}
