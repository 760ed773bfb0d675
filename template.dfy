/** `Template`: the lines of one family and the family's name. */
module Templates {
  import opened Wrappers
  import opened Strings
  import opened TemplateLines
  import InheritedFamilyNames

  datatype Template = Template(family: seq<TemplateLine>, familyName: InheritedFamilyNames.InheritedFamilyName)

  /** The persons and dynamics the lines refer to. */
  function Footprint(lines: seq<TemplateLine>): set<object>
  {
    (set l | l in lines :: l.member as object)
    + (set l | l in lines && l.inLaw != null :: l.inLaw as object)
    + (set l | l in lines && l.familyDynamic != null :: l.familyDynamic as object)
  }

  predicate AllRenderable(lines: seq<TemplateLine>)
    reads Footprint(lines)
  {
    forall i :: 0 <= i < |lines| ==> Renderable(lines[i])
  }

  /** The text of every line, in order. */
  function RenderLines(lines: seq<TemplateLine>): (r: seq<string>)
    reads Footprint(lines)
    requires AllRenderable(lines)
    ensures |r| == |lines|
    ensures forall i :: 0 <= i < |lines| ==> r[i] == Render(lines[i])
    decreases |lines|
  {
    if lines == [] then []
    else
      assert Footprint(lines[1..]) <= Footprint(lines);
      [Render(lines[0])] + RenderLines(lines[1..])
  }

  /** Every line has a family dynamic with a start date. */
  predicate AllHaveStart(lines: seq<TemplateLine>)
    reads Footprint(lines)
  {
    forall i :: 0 <= i < |lines| ==> HasStart(lines[i])
  }

  /**
   * The as-written `ToString` of every line, in order, as `string.Join`
   * enumerates the lazy `Select`: the first line whose text throws ends it.
   */
  function RenderAllAsWritten(lines: seq<TemplateLine>): (r: Result<seq<string>>)
    reads Footprint(lines)
    requires AllRenderable(lines)
    ensures r.Ok? ==> |r.value| == |lines|
    decreases |lines|
  {
    if lines == [] then Ok([])
    else
      assert Footprint(lines[1..]) <= Footprint(lines);
      var head :- RenderAsWritten(lines[0]);
      var tail :- RenderAllAsWritten(lines[1..]);
      Ok([head] + tail)
  }

  /** The lines all render exactly when they all have a start date, and then as `RenderLines`. */
  lemma {:induction false} RenderAllAsWrittenAgrees(lines: seq<TemplateLine>)
    requires AllRenderable(lines)
    ensures RenderAllAsWritten(lines).Ok? <==> AllHaveStart(lines)
    ensures RenderAllAsWritten(lines).Ok? ==> RenderAllAsWritten(lines).value == RenderLines(lines)
    decreases |lines|
  {
    if lines != [] {
      RenderAsWrittenAgrees(lines[0]);
      RenderAllAsWrittenAgrees(lines[1..]);
      assert AllHaveStart(lines) <==> HasStart(lines[0]) && AllHaveStart(lines[1..]) by {
        assert forall i :: 0 < i < |lines| ==> lines[i] == lines[1..][i - 1];
      }
    }
  }

  /** Lines whose texts are each rendered give those texts, in order. */
  lemma {:induction false} RenderAllAsWrittenEach(lines: seq<TemplateLine>, texts: seq<string>)
    requires AllRenderable(lines) && |texts| == |lines|
    requires forall j :: 0 <= j < |lines| ==> RenderAsWritten(lines[j]) == Ok(texts[j])
    ensures RenderAllAsWritten(lines) == Ok(texts)
    decreases |lines|
  {
    if lines != [] {
      var rest := lines[1..];
      forall j | 0 <= j < |rest|
        ensures RenderAsWritten(rest[j]) == Ok(texts[1..][j])
      {
        assert rest[j] == lines[j + 1];
      }
      RenderAllAsWrittenEach(rest, texts[1..]);
      assert [texts[0]] + texts[1..] == texts;
    }
  }

  /** One more rendered line extends the texts rendered so far. */
  lemma RenderedStep(lines: seq<TemplateLine>, texts: seq<string>, t: string)
    requires AllRenderable(lines) && |texts| < |lines|
    requires forall j :: 0 <= j < |texts| ==> RenderAsWritten(lines[j]) == Ok(texts[j])
    requires RenderAsWritten(lines[|texts|]) == Ok(t)
    ensures forall j :: 0 <= j < |texts + [t]| ==> RenderAsWritten(lines[j]) == Ok((texts + [t])[j])
  {
    forall j | 0 <= j < |texts + [t]|
      ensures RenderAsWritten(lines[j]) == Ok((texts + [t])[j])
    {
      if j < |texts| {
        assert (texts + [t])[j] == texts[j];
      }
    }
  }

  /** The exception is that of the first line whose text throws. */
  lemma {:induction false} RenderAllAsWrittenFirstError(lines: seq<TemplateLine>, k: nat)
    requires AllRenderable(lines)
    requires k < |lines| && RenderAsWritten(lines[k]).Err?
    requires forall j :: 0 <= j < k ==> RenderAsWritten(lines[j]).Ok?
    ensures RenderAllAsWritten(lines) == Err(RenderAsWritten(lines[k]).error)
    decreases k
  {
    var rest := lines[1..];
    if k > 0 {
      forall j | 0 <= j < k - 1
        ensures RenderAsWritten(rest[j]).Ok?
      {
        assert rest[j] == lines[j + 1];
      }
      assert rest[k - 1] == lines[k];
      RenderAllAsWrittenFirstError(rest, k - 1);
    }
  }

  /** The exception is that of the first line without a start date. */
  lemma RenderAllAsWrittenFirstFailure(lines: seq<TemplateLine>, k: nat)
    requires AllRenderable(lines)
    requires k < |lines| && !HasStart(lines[k])
    requires forall j :: 0 <= j < k ==> HasStart(lines[j])
    ensures RenderAllAsWritten(lines) == Err(RenderAsWritten(lines[k]).error)
  {
    forall j | 0 <= j <= k {
      RenderAsWrittenAgrees(lines[j]);
    }
    RenderAllAsWrittenFirstError(lines, k);
  }

  const Heading: string := "Inherited Family Name: "

  /**
   * `ToString` as written: the heading and family name, a newline, then the
   * lines' texts joined by newlines; a line whose text throws makes it throw.
   */
  function ToString(t: Template): (r: Result<string>)
    reads Footprint(t.family)
    requires AllRenderable(t.family)
  {
    var texts :- RenderAllAsWritten(t.family);
    Ok(Heading + InheritedFamilyNames.Text(t.familyName) + "\n" + Join(texts, "\n"))
  }

  /** `ToString` corrected: each line without a start date is written without its dynamic. */
  function CorrectedText(t: Template): string
    reads Footprint(t.family)
    requires AllRenderable(t.family)
  {
    Heading + InheritedFamilyNames.Text(t.familyName) + "\n" + Join(RenderLines(t.family), "\n")
  }

  /**
   * The as-written text exists exactly when every line has a start date, and
   * is then the corrected one; otherwise it is the first such line's exception.
   */
  lemma ToStringAgrees(t: Template)
    requires AllRenderable(t.family)
    ensures ToString(t).Ok? <==> AllHaveStart(t.family)
    ensures ToString(t).Ok? ==> ToString(t).value == CorrectedText(t)
    ensures forall k :: (0 <= k < |t.family| && !HasStart(t.family[k]) && (forall j :: 0 <= j < k ==> HasStart(t.family[j]))
                         ==> ToString(t) == Err(RenderAsWritten(t.family[k]).error))
  {
    RenderAllAsWrittenAgrees(t.family);
    forall k | 0 <= k < |t.family| && !HasStart(t.family[k]) && (forall j :: 0 <= j < k ==> HasStart(t.family[j]))
      ensures ToString(t) == Err(RenderAsWritten(t.family[k]).error)
    {
      RenderAllAsWrittenFirstFailure(t.family, k);
    }
  }

  /** An empty family renders as the heading line and a newline only. */
  lemma EmptyFamily(name: InheritedFamilyNames.InheritedFamilyName)
    ensures ToString(Template([], name)) == Ok(Heading + InheritedFamilyNames.Text(name) + "\n")
    ensures CorrectedText(Template([], name)) == Heading + InheritedFamilyNames.Text(name) + "\n"
  {
    var t := Template([], name);
    assert RenderAllAsWritten(t.family) == Ok([]);
    var heading := Heading + InheritedFamilyNames.Text(name) + "\n";
    assert ToString(t).value == heading + [] == heading;
  }

  /** The corrected text of a non-empty family with one more line: a newline and that line's text appended. */
  lemma CorrectedAppend(t: Template, l: TemplateLine)
    requires t.family != []
    requires AllRenderable(t.family) && Renderable(l)
    ensures AllRenderable(t.family + [l])
    ensures CorrectedText(Template(t.family + [l], t.familyName)) == CorrectedText(t) + "\n" + Render(l)
  {
    var lines := t.family + [l];
    assert forall i :: 0 <= i < |t.family| ==> lines[i] == t.family[i];
    assert lines[|t.family|] == l;
    SnocOf(RenderLines(lines), RenderLines(t.family), Render(l));
    JoinSnoc(RenderLines(t.family), Render(l), "\n");
    Associate(Heading + InheritedFamilyNames.Text(t.familyName) + "\n", Join(RenderLines(t.family), "\n"), "\n");
    Associate(Heading + InheritedFamilyNames.Text(t.familyName) + "\n", Join(RenderLines(t.family), "\n") + "\n", Render(l));
  }

  /**
   * Adding a line to a non-empty family appends a newline and that line's
   * text; as written, a line without a start date makes the text throw.
   */
  lemma AppendLine(t: Template, l: TemplateLine)
    requires t.family != []
    requires AllRenderable(t.family) && Renderable(l)
    ensures AllRenderable(t.family + [l])
    ensures CorrectedText(Template(t.family + [l], t.familyName)) == CorrectedText(t) + "\n" + Render(l)
    ensures ToString(Template(t.family + [l], t.familyName)).Ok?
      <==> ToString(t).Ok? && HasStart(l)
    ensures ToString(Template(t.family + [l], t.familyName)).Ok?
      ==> ToString(Template(t.family + [l], t.familyName)).value == ToString(t).value + "\n" + Render(l)
  {
    var lines := t.family + [l];
    CorrectedAppend(t, l);
    ToStringAgrees(t);
    ToStringAgrees(Template(lines, t.familyName));
    if AllHaveStart(lines) {
      assert HasStart(lines[|t.family|]);
      forall i | 0 <= i < |t.family|
        ensures HasStart(t.family[i])
      {
        assert lines[i] == t.family[i];
      }
    }
    if AllHaveStart(t.family) && HasStart(l) {
      forall i | 0 <= i < |lines|
        ensures HasStart(lines[i])
      {
        if i < |t.family| {
          assert lines[i] == t.family[i];
        }
      }
    }
  }

  /** A one-line family renders as the heading line followed by that line's text, or throws as the line does. */
  lemma SingleLine(l: TemplateLine, name: InheritedFamilyNames.InheritedFamilyName)
    requires Renderable(l)
    ensures CorrectedText(Template([l], name)) == Heading + InheritedFamilyNames.Text(name) + "\n" + Render(l)
    ensures HasStart(l) ==> ToString(Template([l], name)) == Ok(Heading + InheritedFamilyNames.Text(name) + "\n" + Render(l))
    ensures !HasStart(l) ==> ToString(Template([l], name)) == Err(RenderAsWritten(l).error)
  {
    RenderAsWrittenAgrees(l);
    assert [l][1..] == [];
    assert RenderAllAsWritten([]) == Ok([]);
    var heading := Heading + InheritedFamilyNames.Text(name) + "\n";
    if HasStart(l) {
      assert RenderAllAsWritten([l]) == Ok([Render(l)] + []);
      assert [Render(l)] + [] == [Render(l)];
      assert ToString(Template([l], name)).value == heading + Render(l);
    }
  }
}
