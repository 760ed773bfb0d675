/**
 * The page layout of `WriteTemplate`: every line is a paragraph of height
 * 36, and a page break comes first whenever the paragraph would not fit on
 * the current page. Heights are whole points here.
 */
module Pagination {
  import opened Wrappers
  import opened TemplateLines
  import Templates

  /** The height of one written line. */
  const RepresentationHeight: int := 36

  /** What the writer adds to the document. */
  datatype Event = PageBreak | Paragraph(text: string)

  /** The height used on the current page after `n` lines. */
  function HeightAfter(n: nat, pageHeight: int): int
    decreases n
  {
    if n == 0 then 0
    else
      var h := HeightAfter(n - 1, pageHeight);
      (if BreaksAt(h, pageHeight) then 0 else h) + RepresentationHeight
  }

  /** A line written at height `h` goes to a new page. */
  predicate BreaksAt(h: int, pageHeight: int) {
    h + RepresentationHeight > pageHeight
  }

  /** Whether line `i` (from 0) is preceded by a page break. */
  predicate BreaksBefore(i: nat, pageHeight: int) {
    BreaksAt(HeightAfter(i, pageHeight), pageHeight)
  }

  /** The events for the lines `texts`, in order. */
  function Layout(texts: seq<string>, pageHeight: int): seq<Event>
    decreases |texts|
  {
    if texts == [] then []
    else
      var i := |texts| - 1;
      Layout(texts[..i], pageHeight) + (if BreaksBefore(i, pageHeight) then [PageBreak] else []) + [Paragraph(texts[i])]
  }

  /**
   * One more line `t` after `texts`, from the events and height after them: a
   * break when the line would overflow the page, which resets the height,
   * then its paragraph, which adds one line's height.
   */
  lemma LayoutStep(texts: seq<string>, t: string, pageHeight: int, events: seq<Event>, height: int)
    requires events == Layout(texts, pageHeight) && height == HeightAfter(|texts|, pageHeight)
    ensures Layout(texts + [t], pageHeight)
      == (if height + RepresentationHeight > pageHeight then events + [PageBreak] else events) + [Paragraph(t)]
    ensures HeightAfter(|texts| + 1, pageHeight)
      == (if height + RepresentationHeight > pageHeight then 0 else height) + RepresentationHeight
  {
    assert (texts + [t])[..|texts|] == texts;
  }

  /**
   * The loop of `WriteTemplate`: for each line, a page break first whenever
   * the line would overflow the page, then the line's text as a paragraph; a
   * line whose text throws ends the writing with that exception.
   */
  method WriteLines(lines: seq<TemplateLine>, pageHeight: int) returns (r: Result<seq<Event>>)
    requires Templates.AllRenderable(lines)
    ensures Templates.RenderAllAsWritten(lines).Ok? ==> r == Ok(Layout(Templates.RenderAllAsWritten(lines).value, pageHeight))
    ensures Templates.RenderAllAsWritten(lines).Err? ==> r == Err(Templates.RenderAllAsWritten(lines).error)
  {
    var events: seq<Event> := [];
    var currentHeight := 0;
    ghost var texts: seq<string> := [];
    for i := 0 to |lines|
      invariant |texts| == i
      invariant forall j :: 0 <= j < |texts| ==> RenderAsWritten(lines[j]) == Ok(texts[j])
      invariant currentHeight == HeightAfter(i, pageHeight)
      invariant events == Layout(texts, pageHeight)
    {
      var text := RenderAsWritten(lines[i]);
      if text.Err? {
        Templates.RenderAllAsWrittenFirstError(lines, i);
        return Err(text.error);
      }
      LayoutStep(texts, text.value, pageHeight, events, currentHeight);
      if currentHeight + RepresentationHeight > pageHeight {
        events := events + [PageBreak];
        currentHeight := 0;
      }
      events := events + [Paragraph(text.value)];
      currentHeight := currentHeight + RepresentationHeight;
      Templates.RenderedStep(lines, texts, text.value);
      texts := texts + [text.value];
    }
    Templates.RenderAllAsWrittenEach(lines, texts);
    r := Ok(events);
  }

  /** The texts of the paragraphs among `events`, in order. */
  function Paragraphs(events: seq<Event>): seq<string>
    decreases |events|
  {
    if events == [] then []
    else
      var rest := Paragraphs(events[..|events| - 1]);
      match events[|events| - 1]
      case PageBreak => rest
      case Paragraph(t) => rest + [t]
  }

  lemma {:induction false} ParagraphsAppend(a: seq<Event>, b: seq<Event>)
    ensures Paragraphs(a + b) == Paragraphs(a) + Paragraphs(b)
    decreases |b|
  {
    if b == [] {
      assert a + b == a;
    } else {
      assert (a + b)[..|a + b| - 1] == a + b[..|b| - 1];
      ParagraphsAppend(a, b[..|b| - 1]);
    }
  }

  /** Every line is written once, as a paragraph, in order. */
  lemma {:induction false} LayoutWritesEveryLine(texts: seq<string>, pageHeight: int)
    ensures Paragraphs(Layout(texts, pageHeight)) == texts
    decreases |texts|
  {
    if texts != [] {
      var i := |texts| - 1;
      var breaks: seq<Event> := if BreaksBefore(i, pageHeight) then [PageBreak] else [];
      LayoutWritesEveryLine(texts[..i], pageHeight);
      ParagraphsAppend(Layout(texts[..i], pageHeight), breaks);
      ParagraphsAppend(Layout(texts[..i], pageHeight) + breaks, [Paragraph(texts[i])]);
      assert Paragraphs(breaks) == [];
      assert texts[..i] + [texts[i]] == texts;
    }
  }

  /**
   * After each line the height is a positive multiple of 36; it never
   * exceeds a page that holds at least one line; and a break resets it to
   * the height of the one line just written.
   */
  lemma {:induction false} HeightBounds(n: nat, pageHeight: int)
    requires n > 0
    ensures HeightAfter(n, pageHeight) > 0 && HeightAfter(n, pageHeight) % RepresentationHeight == 0
    ensures pageHeight >= RepresentationHeight ==> HeightAfter(n, pageHeight) <= pageHeight
    ensures BreaksBefore(n - 1, pageHeight) ==> HeightAfter(n, pageHeight) == RepresentationHeight
    decreases n
  {
    if n > 1 {
      HeightBounds(n - 1, pageHeight);
    }
  }

  /** The first line goes to a new page only when the page cannot hold one line. */
  lemma FirstLineBreaks(pageHeight: int)
    ensures BreaksBefore(0, pageHeight) <==> pageHeight < RepresentationHeight
  {
  }
}
