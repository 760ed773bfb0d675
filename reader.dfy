/**
 * `TemplateReader`: reads the text of template pages back into template
 * lines. A page is normalised and cut into records at every '['; a record is
 * split on seven punctuation characters into positional slots, validated,
 * and turned into a member, an optional in-law and an optional family
 * dynamic; every person is made canonical through the reader's person pool.
 */
module Reader {
  import opened Wrappers
  import opened Strings
  import opened Bridge
  import Coordinates
  import opened Persons
  import opened FamilyDynamics
  import TemplateLines
  import Templates
  import InheritedFamilyNames
  import PersonPools
  import Guids

  // ---------------------------------------------------------------------
  // Normalisation of a page
  // ---------------------------------------------------------------------

  /** The characters `[-–—]` accepts. */
  predicate IsDash(c: char) {
    c == '-' || c == EnDash || c == EmDash
  }

  /** The first position from `i` on that is not white space, or the end. */
  function SkipWhiteSpace(s: string, i: nat): (j: nat)
    requires i <= |s|
    ensures i <= j <= |s| && (j == |s| || !IsWhiteSpace(s[j]))
    ensures forall k :: i <= k < j ==> IsWhiteSpace(s[k])
    decreases |s| - i
  {
    if i < |s| && IsWhiteSpace(s[i]) then SkipWhiteSpace(s, i + 1) else i
  }

  /**
   * `s[..n]` is an empty lifespan `\(\s*[-–—]\s*\)` whose dash is at `p`:
   * a parenthesis, white space, the dash, white space, a parenthesis.
   */
  predicate LifespanSpan(s: string, p: nat, n: nat) {
    && 0 < p < n - 1 && n <= |s|
    && s[0] == '(' && IsDash(s[p]) && s[n - 1] == ')'
    && (forall k :: 1 <= k < p ==> IsWhiteSpace(s[k]))
    && (forall k :: p < k < n - 1 ==> IsWhiteSpace(s[k]))
  }

  /** The length of the empty lifespan at the start of `s`, if one is there; there is at most one. */
  function EmptyLifespanAt(s: string): (r: Option<nat>)
    ensures r.Some? ==> |s| > 0 && LifespanSpan(s, SkipWhiteSpace(s, 1), r.value)
    ensures r.None? ==> forall p: nat, n: nat :: !LifespanSpan(s, p, n)
  {
    if s == [] || s[0] != '(' then None
    else
      var p := SkipWhiteSpace(s, 1);
      if p == |s| || !IsDash(s[p]) then
        None
      else
        var e := SkipWhiteSpace(s, p + 1);
        if e == |s| || s[e] != ')' then
          None
        else
          Some(e + 1)
  }

  /** The canonical empty lifespan, as `Person.ToString` writes it. */
  const EmptyLifespan: string := "(" + [EnDash] + ")"

  /**
   * `Regex.Replace(text, @"\(\s*[-–—]\s*\)", "(–)")`: scanning from the left,
   * every empty lifespan becomes the canonical one.
   */
  function RewriteEmptyLifespans(s: string): string
    decreases |s|
  {
    if s == [] then []
    else match EmptyLifespanAt(s)
      case Some(n) => EmptyLifespan + RewriteEmptyLifespans(s[n..])
      case None => [s[0]] + RewriteEmptyLifespans(s[1..])
  }

  /** An empty lifespan holds no opening bracket. */
  lemma LifespanHasNoBracket(s: string, p: nat, n: nat)
    requires LifespanSpan(s, p, n)
    ensures CountIn(s[..n], {'['}) == 0
  {
    assert NoneIn(s[..n], {'['}) by {
      forall k | 0 <= k < n ensures s[..n][k] != '[' {
        if 0 < k < p || p < k < n - 1 {
          assert IsWhiteSpace(s[k]);
        }
      }
    }
    CountInNone(s[..n], {'['});
  }

  /** Rewriting empty lifespans keeps every opening bracket, so it keeps the records of a page. */
  lemma {:induction false} RewriteKeepsBrackets(s: string)
    ensures CountIn(RewriteEmptyLifespans(s), {'['}) == CountIn(s, {'['})
    decreases |s|
  {
    if s != [] {
      match EmptyLifespanAt(s)
      case Some(n) =>
        RewriteKeepsBrackets(s[n..]);
        CountInAppend(EmptyLifespan, RewriteEmptyLifespans(s[n..]), {'['});
        assert s == s[..n] + s[n..];
        CountInAppend(s[..n], s[n..], {'['});
        LifespanHasNoBracket(s, SkipWhiteSpace(s, 1), n);
        assert NoneIn(EmptyLifespan, {'['});
        CountInNone(EmptyLifespan, {'['});
      case None =>
        RewriteKeepsBrackets(s[1..]);
        CountInAppend([s[0]], RewriteEmptyLifespans(s[1..]), {'['});
    }
  }

  /** A text without parentheses has no empty lifespan to rewrite. */
  lemma {:induction false} RewriteWithoutParentheses(s: string)
    requires NoneIn(s, {'('})
    ensures RewriteEmptyLifespans(s) == s
    decreases |s|
  {
    if s != [] {
      RewriteWithoutParentheses(s[1..]);
      assert [s[0]] + s[1..] == s;
    }
  }

  /**
   * The text `GetPageLines` cuts into records: white space collapsed and
   * trimmed, dashes between dates cleaned, empty lifespans rewritten. The
   * dash cleaning, a regular expression with look-behind over date forms,
   * is given as `cleanDashes`.
   */
  function NormalizedPage(pageText: string, cleanDashes: string -> string): string {
    RewriteEmptyLifespans(cleanDashes(NormalizeSpace(pageText)))
  }

  /** When the dash cleaning keeps the brackets, so does the whole normalisation. */
  lemma NormalizedPageKeepsBrackets(pageText: string, cleanDashes: string -> string)
    requires CountIn(cleanDashes(NormalizeSpace(pageText)), {'['}) == CountIn(NormalizeSpace(pageText), {'['})
    ensures CountIn(NormalizedPage(pageText, cleanDashes), {'['}) == CountIn(pageText, {'['})
  {
    NormalizeKeepsCount(pageText, {'['});
    RewriteKeepsBrackets(cleanDashes(NormalizeSpace(pageText)));
  }

  // ---------------------------------------------------------------------
  // Records of a page
  // ---------------------------------------------------------------------

  /** The positions of the opening brackets of `s`, in increasing order (all of them: `OpeningsComplete`). */
  function Openings(s: string): (r: seq<nat>)
    ensures |r| == CountIn(s, {'['})
    ensures forall k :: 0 <= k < |r| ==> r[k] < |s| && s[r[k]] == '['
    ensures forall j, k :: 0 <= j < k < |r| ==> r[j] < r[k]
    decreases |s|
  {
    if s == [] then []
    else
      var i := |s| - 1;
      var front := s[..i];
      assert s == front + [s[i]];
      CountInAppend(front, [s[i]], {'['});
      Openings(front) + if s[i] == '[' then [i] else []
  }

  /** Every opening bracket of `s` is among its openings. */
  lemma {:induction false} OpeningsComplete(s: string, at: nat)
    requires at < |s|
    ensures s[at] == '[' ==> at in Openings(s)
    decreases |s|
  {
    var i := |s| - 1;
    var front := s[..i];
    if at < i {
      OpeningsComplete(front, at);
      assert front[at] == s[at];
    }
  }

  /** The end of record `k`: the next opening bracket, or the end of the text. */
  function RecordEnd(s: string, starts: seq<nat>, k: nat): nat
    requires k < |starts|
  {
    if k + 1 < |starts| then starts[k + 1] else |s|
  }

  /** Record `k` of a normalised page: from its opening bracket up to the next or the end, trimmed. */
  function Record(s: string, k: nat): string
    requires k < |Openings(s)|
  {
    var starts := Openings(s);
    Trim(s[starts[k]..RecordEnd(s, starts, k)])
  }

  /** The records of a normalised page, one per opening bracket. */
  function Records(s: string): (r: seq<string>)
    ensures |r| == CountIn(s, {'['})
    ensures forall k :: 0 <= k < |r| ==> r[k] == Record(s, k)
  {
    seq(|Openings(s)|, k requires 0 <= k < |Openings(s)| => Record(s, k))
  }

  /** No opening bracket lies strictly between two consecutive openings, nor after the last. */
  lemma BetweenOpenings(s: string, k: nat, at: nat)
    requires k < |Openings(s)|
    requires Openings(s)[k] < at < RecordEnd(s, Openings(s), k)
    ensures s[at] != '['
  {
    var starts := Openings(s);
    forall j | 0 <= j < |starts| ensures starts[j] != at {
      if j < k {
        assert starts[j] < starts[k];
      } else if j == k + 1 {
        assert starts[j] == RecordEnd(s, starts, k);
      } else if k + 1 < j {
        assert starts[k + 1] < starts[j];
        assert starts[k + 1] == RecordEnd(s, starts, k);
      }
    }
    assert at !in starts;
    OpeningsComplete(s, at);
  }

  /** The text from an opening bracket up to the next holds no other. */
  lemma SegmentTail(s: string, k: nat)
    requires k < |Openings(s)|
    ensures var starts := Openings(s); var segment := s[starts[k]..RecordEnd(s, starts, k)];
      segment != [] && segment[0] == '[' && NoneIn(segment[1..], {'['})
  {
    var starts := Openings(s);
    var segment := s[starts[k]..RecordEnd(s, starts, k)];
    forall i | 0 <= i < |segment| - 1 ensures segment[1..][i] != '[' {
      BetweenOpenings(s, k, starts[k] + 1 + i);
    }
  }

  /** Every record starts with its opening bracket, holds no other, and is trimmed. */
  lemma RecordShape(s: string, k: nat)
    requires k < |Openings(s)|
    ensures var r := Record(s, k); r != [] && r[0] == '[' && NoneIn(r[1..], {'['}) && IsTrimmed(r)
  {
    SegmentTail(s, k);
    var starts := Openings(s);
    TrimmedRecord(s[starts[k]..RecordEnd(s, starts, k)]);
  }

  /** Trimming a text that opens with its only bracket keeps the bracket first. */
  lemma TrimmedRecord(segment: string)
    requires segment != [] && segment[0] == '[' && NoneIn(segment[1..], {'['})
    ensures var r := Trim(segment); r != [] && r[0] == '[' && NoneIn(r[1..], {'['}) && IsTrimmed(r)
  {
    TrimStartOf([], segment);
    assert [] + segment == segment;
    var r := TrimEnd(segment);
    assert AllWhiteSpace(segment[|r|..]) && segment[0] == '[';
    assert r[0] == segment[0];
    DropOfPrefix(segment, r);
    NoneInPrefix(segment[1..], |r| - 1, {'['});
  }

  lemma DropOfPrefix<T>(s: seq<T>, r: seq<T>)
    requires 1 <= |r| <= |s| && r == s[..|r|]
    ensures r[1..] == s[1..][..|r| - 1]
  {
  }

  lemma NoneInPrefix(x: string, n: nat, separators: set<char>)
    requires n <= |x| && NoneIn(x, separators)
    ensures NoneIn(x[..n], separators)
  {
  }

  /** The text before the first opening bracket holds none: dropping it loses no record. */
  lemma BeforeFirstRecord(s: string)
    requires |Openings(s)| > 0
    ensures NoneIn(s[..Openings(s)[0]], {'['})
  {
    var starts := Openings(s);
    forall i | 0 <= i < starts[0] ensures s[..starts[0]][i] != '[' {
      OpeningsComplete(s, i);
      assert forall j :: 0 < j < |starts| ==> starts[0] < starts[j];
    }
  }

  /** One more character: one more opening when it is a bracket. */
  lemma OpeningsStep(s: string, i: nat)
    requires i < |s|
    ensures Openings(s[..i + 1]) == Openings(s[..i]) + if s[i] == '[' then [i] else []
  {
    assert s[..i + 1][..i] == s[..i];
  }

  /** The first loop of `GetPageLines`: the position of every opening bracket, in order. */
  method QueueOpenings(text: string) returns (indices: seq<nat>)
    ensures indices == Openings(text)
  {
    indices := [];
    for i := 0 to |text|
      invariant indices == Openings(text[..i])
    {
      OpeningsStep(text, i);
      if text[i] == '[' {
        indices := indices + [i];
      }
    }
    assert text[..|text|] == text;
  }

  /**
   * The second loop of `GetPageLines`: dequeues each position and fills its
   * record, from it up to the next queued position or the end, trimmed.
   */
  method FillRecords(text: string, indices: seq<nat>) returns (results: seq<string>)
    requires indices == Openings(text)
    ensures results == Records(text)
  {
    var queue := indices;
    var count := |queue|;
    var records := new string[count];
    var index := 0;
    while |queue| > 0
      invariant index <= count && queue == indices[index..]
      invariant forall k :: 0 <= k < index ==> records[k] == Record(text, k)
      decreases |queue|
    {
      var start := queue[0];
      queue := queue[1..];
      var end := if |queue| > 0 then queue[0] else |text|;
      assert start == indices[index] && end == RecordEnd(text, indices, index);
      records[index] := Trim(text[start..end]);
      index := index + 1;
    }
    results := records[..];
    assert |results| == |Records(text)|;
  }

  /** `GetPageLines`: normalises the page and cuts it into records. */
  method GetPageLines(pageText: string, cleanDashes: string -> string) returns (results: seq<string>)
    ensures results == Records(NormalizedPage(pageText, cleanDashes))
  {
    var spaceNormalization := NormalizeSpace(pageText);
    var enDashNormalization := cleanDashes(spaceNormalization);
    var text := RewriteEmptyLifespans(enDashNormalization);
    var indices := QueueOpenings(text);
    results := FillRecords(text, indices);
  }

  // ---------------------------------------------------------------------
  // Slots of a record
  // ---------------------------------------------------------------------

  /** The characters a record is split on: `[ ] ( ) – & :`. */
  const SplitChars: set<char> := {'[', ']', '(', ')', EnDash, '&', ':'}

  /** `text.Split(splitArgs).Skip(1).Select(segment => segment.Trim())`: the slots of a record. */
  function Segments(text: string): (r: seq<string>)
    ensures |r| == CountIn(text, SplitChars)
    ensures forall i :: 0 <= i < |r| ==> IsTrimmed(r[i])
  {
    var pieces := Split(text, SplitChars);
    seq(|pieces| - 1, i requires 0 <= i < |pieces| - 1 => Trim(pieces[i + 1]))
  }

  /** Every piece trimmed. */
  function TrimEach(pieces: seq<string>): (r: seq<string>)
    ensures |r| == |pieces| && forall i :: 0 <= i < |r| ==> r[i] == Trim(pieces[i])
  {
    seq(|pieces|, i requires 0 <= i < |pieces| => Trim(pieces[i]))
  }

  /** The slots are the pieces after the first, trimmed. */
  lemma SegmentsTrimPieces(text: string)
    ensures Segments(text) == TrimEach(Split(text, SplitChars)[1..])
  {
  }

  lemma TrimEachAppend(a: seq<string>, b: seq<string>)
    ensures TrimEach(a + b) == TrimEach(a) + TrimEach(b)
  {
    assert forall i :: 0 <= i < |b| ==> (a + b)[|a| + i] == b[i];
  }

  /** A birth-date or start-date slot: its text, or an empty instance when it is empty. */
  function DateSlot(segment: string): BridgeInstance {
    if |segment| > 0 then Str(segment) else Null
  }

  /** What a person's text shows for a deceased date that is not there. */
  const Present: string := "Present"

  /** A deceased-date slot: its text, or an empty instance when it is empty or "Present". */
  function DeceasedSlot(segment: string): BridgeInstance {
    if |segment| > 0 && segment != Present then Str(segment) else Null
  }

  /**
   * The person document the slots `first`, `first + 1` and `first + 2` write,
   * as far as the first `n` slots reach: name, birth date, deceased date.
   */
  function PersonSlots(segments: seq<string>, n: nat, first: nat): Document
    requires n <= |segments|
  {
    var named: Document := if first < n then map["birthName" := Str(segments[first])] else map[];
    var born := if first + 1 < n then named["birthDate" := DateSlot(segments[first + 1])] else named;
    if first + 2 < n then born["deceasedDate" := DeceasedSlot(segments[first + 2])] else born
  }

  /** The family-dynamic document slot 9 writes, as far as the first `n` slots reach. */
  function DynamicSlots(segments: seq<string>, n: nat): Document
    requires n <= |segments|
  {
    if 9 < n then map["familyDynamicStartDate" := DateSlot(segments[9])] else map[]
  }

  /** What `GetLine` makes of a record before drawing identifiers: the coordinate and three documents. */
  datatype LineParts = LineParts(coordinate: Coordinates.Coordinate, member: Document,
                                 inLaw: Option<Document>, familyDynamic: Option<Document>)

  /**
   * What `GetLine` reads from a record, or the exception it throws: slot 0
   * is the coordinate, slots 1 to 3 the member, 5 to 7 the in-law and 9 the
   * start of the family dynamic, whose page title names the member and the
   * in-law; slots 4, 8 and from 10 on are ignored.
   */
  function ParseSlots(segments: seq<string>): (r: Result<LineParts>)
    ensures r.Ok? <==> |segments| >= 2 && Coordinates.Parse(segments[0]).Ok? && (|segments| > 9 ==> segments[9] != [])
    ensures |segments| == 0 ==> r == Err(InvalidData("The coordinate is missing."))
    ensures |segments| > 0 && Coordinates.Parse(segments[0]).Err? ==> r == Err(Coordinates.Parse(segments[0]).error)
    ensures |segments| == 1 && Coordinates.Parse(segments[0]).Ok? ==> r == Err(InvalidData("The Member Birth Name is missing"))
    ensures r.Ok? ==>
      && Coordinates.Parse(segments[0]) == Ok(r.value.coordinate)
      && "birthName" in r.value.member && r.value.member["birthName"] == Str(segments[1])
      && (r.value.inLaw.Some? <==> |segments| > 5)
      && (r.value.familyDynamic.Some? <==> |segments| > 9)
      && (r.value.familyDynamic.Some? ==>
            && HasStartDate(r.value.familyDynamic.value) && HasPageTitle(r.value.familyDynamic.value)
            && r.value.familyDynamic.value["familyDynamicStartDate"] == Str(segments[9])
            && r.value.familyDynamic.value["pageTitle"] == Str(PageTitleOf(segments[1], Some(segments[5]))))
  {
    if |segments| == 0 then Err(InvalidData("The coordinate is missing."))
    else
      var coordinate :- Coordinates.Parse(segments[0]);
      if |segments| < 2 then Err(InvalidData("The Member Birth Name is missing"))
      else
        var n := |segments|;
        var member := PersonSlots(segments, n, 1);
        var inLaw := if n > 5 then Some(PersonSlots(segments, n, 5)) else None;
        if n > 9 then
          if segments[9] == [] then Err(InvalidData("The Family Dynamic Start Date is missing."))
          else
            var title := PageTitleOf(segments[1], Some(segments[5]));
            Ok(LineParts(coordinate, member, inLaw, Some(DynamicSlots(segments, n)["pageTitle" := Str(title)])))
        else
          Ok(LineParts(coordinate, member, inLaw, None))
  }

  /** What `GetLine` reads from the slots of `text`. */
  function ParseLine(text: string): Result<LineParts> {
    ParseSlots(Segments(text))
  }

  /** A document a constructor built from `parts`, adding a drawn "id" it did not have. */
  predicate IdentifiedAs(document: Document, parts: Document) {
    "id" in document && "id" !in parts && document - {"id"} == parts
  }

  /** The line `GetLine` returns holds what the record reads as, each document with an id added. */
  predicate ReadAs(l: TemplateLines.TemplateLine, parts: LineParts)
    reads l.member, l.inLaw, l.familyDynamic
  {
    && l.coordinate == parts.coordinate
    && IdentifiedAs(l.member.document, parts.member)
    && (l.inLaw == null <==> parts.inLaw.None?)
    && (l.inLaw != null ==> IdentifiedAs(l.inLaw.document, parts.inLaw.value))
    && (l.familyDynamic == null <==> parts.familyDynamic.None?)
    && (l.familyDynamic != null ==> IdentifiedAs(l.familyDynamic.document, parts.familyDynamic.value))
  }

  /** A person or dynamic constructor adds the drawn id to a document without one. */
  lemma WithIdIdentifies(parts: Document, id: string)
    requires "id" !in parts
    ensures IdentifiedAs(WithId(parts, id), parts)
  {
    assert WithId(parts, id) - {"id"} == parts;
  }

  /**
   * The loop of `GetLine`: walks the slots in order, parsing the coordinate
   * at slot 0 (a failed label parse throws there) and writing the person
   * and dynamic attributes of slots 1 to 3, 5 to 7 and 9.
   */
  method FillSlots(segments: seq<string>)
    returns (r: Result<Coordinates.Coordinate>, memberObj: Document, inLawObj: Document, familyDynamicObj: Document)
    ensures |segments| == 0 ==> r == Ok([])
    ensures |segments| > 0 ==> r == Coordinates.Parse(segments[0])
    ensures r.Ok? ==>
      && memberObj == PersonSlots(segments, |segments|, 1)
      && inLawObj == PersonSlots(segments, |segments|, 5)
      && familyDynamicObj == DynamicSlots(segments, |segments|)
  {
    var coordinate: Coordinates.Coordinate := [];
    memberObj, inLawObj, familyDynamicObj := map[], map[], map[];
    for i := 0 to |segments|
      invariant i == 0 ==> coordinate == []
      invariant i > 0 ==> Coordinates.Parse(segments[0]) == Ok(coordinate)
      invariant memberObj == PersonSlots(segments, i, 1)
      invariant inLawObj == PersonSlots(segments, i, 5)
      invariant familyDynamicObj == DynamicSlots(segments, i)
    {
      match i {
        case 0 =>
          var parsed := Coordinates.Parse(segments[i]);
          if parsed.Err? {
            return Err(parsed.error), memberObj, inLawObj, familyDynamicObj;
          }
          coordinate := parsed.value;
        case 1 => memberObj := memberObj["birthName" := Str(segments[i])];
        case 2 => memberObj := memberObj["birthDate" := DateSlot(segments[i])];
        case 3 => memberObj := memberObj["deceasedDate" := DeceasedSlot(segments[i])];
        case 5 => inLawObj := inLawObj["birthName" := Str(segments[i])];
        case 6 => inLawObj := inLawObj["birthDate" := DateSlot(segments[i])];
        case 7 => inLawObj := inLawObj["deceasedDate" := DeceasedSlot(segments[i])];
        case 9 => familyDynamicObj := familyDynamicObj["familyDynamicStartDate" := DateSlot(segments[i])];
        case _ =>
      }
    }
    r := Ok(coordinate);
  }

  /** A coordinate parsed from a slot has at least one label, so it is never the empty coordinate. */
  lemma ParsedCoordinateNotEmpty(text: string)
    requires Coordinates.Parse(text).Ok?
    ensures Coordinates.Parse(text).value != []
  {
  }

  /** `new Person(obj, true)`: a person over the document with a drawn id. */
  method NewPerson(obj: Document, guids: Guids.GuidSource) returns (p: Person)
    requires "id" !in obj
    modifies guids
    ensures fresh(p) && IdentifiedAs(p.document, obj)
  {
    var id := guids.NewGuid();
    var created := Person.Create(obj, true, id);
    p := created.value;
    WithIdIdentifies(obj, id);
  }

  /**
   * The checks of `GetLine` on the start of the family dynamic, and the
   * dynamic itself: a slot 9 without a date throws; with one, the page
   * title names the member and the in-law and the dynamic gets a drawn id;
   * without slot 9 there is no dynamic.
   */
  method NewDynamic(familyDynamicObj: Document, member: Person, inLaw: Person?, guids: Guids.GuidSource)
    returns (r: Result<FamilyDynamic?>)
    requires "id" !in familyDynamicObj && "pageTitle" !in familyDynamicObj
    requires "familyDynamicStartDate" in familyDynamicObj ==> inLaw != null
    requires "birthName" in member.document && member.document["birthName"].Str?
    requires inLaw != null ==> "birthName" in inLaw.document && inLaw.document["birthName"].Str?
    modifies guids
    ensures r.Err? <==> "familyDynamicStartDate" in familyDynamicObj && !familyDynamicObj["familyDynamicStartDate"].Str?
    ensures r.Err? ==> r.error == InvalidData("The Family Dynamic Start Date is missing.")
    ensures r.Ok? ==> (r.value == null <==> "familyDynamicStartDate" !in familyDynamicObj)
    ensures r.Ok? && r.value != null ==>
      && fresh(r.value) && inLaw != null
      && IdentifiedAs(r.value.document, familyDynamicObj["pageTitle" := Str(PageTitleOf(member.BirthName(), Some(inLaw.BirthName())))])
  {
    var obj := familyDynamicObj;
    if "familyDynamicStartDate" in obj {
      if !obj["familyDynamicStartDate"].Str? {
        return Err(InvalidData("The Family Dynamic Start Date is missing."));
      }
      // Slot 9 comes after slot 5, so the in-law exists and the `InvalidOperationException` is never thrown.
      assert inLaw != null;
      obj := obj["pageTitle" := Str(PageTitleOf(member.BirthName(), Some(inLaw.BirthName())))];
    }
    var familyDynamic: FamilyDynamic? := null;
    if "familyDynamicStartDate" in obj && obj["familyDynamicStartDate"].Str? {
      var id := guids.NewGuid();
      var created := FamilyDynamic.Create(obj, true, id);
      familyDynamic := created.value;
      WithIdIdentifies(obj, id);
    }
    r := Ok(familyDynamic);
  }

  /**
   * `GetLine`: fills the documents from the slots, then checks them in the
   * source's order: the coordinate, the member's name, the start of the
   * family dynamic. The member, the in-law when slot 5 exists and the
   * family dynamic when slot 9 holds a date are created with drawn ids.
   */
  method GetLine(text: string, guids: Guids.GuidSource) returns (r: Result<TemplateLines.TemplateLine>)
    modifies guids
    ensures r.Ok? <==> ParseLine(text).Ok?
    ensures r.Err? ==> r.error == ParseLine(text).error
    ensures r.Ok? ==> ReadAs(r.value, ParseLine(text).value)
    ensures r.Ok? ==>
      && fresh(r.value.member)
      && (r.value.inLaw != null ==> fresh(r.value.inLaw))
      && (r.value.familyDynamic != null ==> fresh(r.value.familyDynamic))
  {
    r := GetSlotsLine(Segments(text), guids);
  }

  /** `GetLine` once the text is cut into its slots. */
  method GetSlotsLine(segments: seq<string>, guids: Guids.GuidSource) returns (r: Result<TemplateLines.TemplateLine>)
    modifies guids
    ensures r.Ok? <==> ParseSlots(segments).Ok?
    ensures r.Err? ==> r.error == ParseSlots(segments).error
    ensures r.Ok? ==> ReadAs(r.value, ParseSlots(segments).value)
    ensures r.Ok? ==>
      && fresh(r.value.member)
      && (r.value.inLaw != null ==> fresh(r.value.inLaw))
      && (r.value.familyDynamic != null ==> fresh(r.value.familyDynamic))
  {
    var coordinate, memberObj, inLawObj, familyDynamicObj := FillSlots(segments);
    if coordinate.Err? {
      return Err(coordinate.error);
    }
    if coordinate.value == [] {
      return Err(InvalidData("The coordinate is missing."));
    }
    ParsedCoordinateNotEmpty(segments[0]);
    if !("birthName" in memberObj && memberObj["birthName"].Str?) {
      return Err(InvalidData("The Member Birth Name is missing"));
    }
    SlotsAssembled(segments, coordinate.value);
    r := NewLine(coordinate.value, memberObj, inLawObj, familyDynamicObj, guids);
  }

  /**
   * What the documents filled from the slots make: the in-law when its name
   * slot was written, and the dynamic when its start slot was, titled after
   * the member and the in-law.
   */
  function Assemble(coordinate: Coordinates.Coordinate, memberObj: Document, inLawObj: Document,
                    familyDynamicObj: Document): LineParts
    requires "birthName" in memberObj && memberObj["birthName"].Str?
    requires "familyDynamicStartDate" in familyDynamicObj ==> "birthName" in inLawObj && inLawObj["birthName"].Str?
  {
    LineParts(coordinate, memberObj,
              if "birthName" in inLawObj then Some(inLawObj) else None,
              if "familyDynamicStartDate" in familyDynamicObj
              then Some(familyDynamicObj["pageTitle" := Str(PageTitleOf(memberObj["birthName"].text,
                                                                         Some(inLawObj["birthName"].text)))])
              else None)
  }

  /** A record that reads is what its filled documents make. */
  lemma SlotsAssembled(segments: seq<string>, coordinate: Coordinates.Coordinate)
    requires |segments| >= 2 && Coordinates.Parse(segments[0]) == Ok(coordinate)
    ensures var n := |segments|;
      && "id" !in PersonSlots(segments, n, 1) && "id" !in PersonSlots(segments, n, 5)
      && "id" !in DynamicSlots(segments, n) && "pageTitle" !in DynamicSlots(segments, n)
      && "birthName" in PersonSlots(segments, n, 1) && PersonSlots(segments, n, 1)["birthName"].Str?
      && ("birthName" in PersonSlots(segments, n, 5) ==> PersonSlots(segments, n, 5)["birthName"].Str?)
      && ("familyDynamicStartDate" in DynamicSlots(segments, n) ==>
            "birthName" in PersonSlots(segments, n, 5) && PersonSlots(segments, n, 5)["birthName"].Str?)
      && (ParseSlots(segments).Ok? <==>
            !("familyDynamicStartDate" in DynamicSlots(segments, n) && !DynamicSlots(segments, n)["familyDynamicStartDate"].Str?))
      && (ParseSlots(segments).Err? ==> ParseSlots(segments).error == InvalidData("The Family Dynamic Start Date is missing."))
      && (ParseSlots(segments).Ok? ==>
            ParseSlots(segments).value
              == Assemble(coordinate, PersonSlots(segments, n, 1), PersonSlots(segments, n, 5), DynamicSlots(segments, n)))
  {
  }

  /**
   * The objects `GetLine` creates from the filled documents: the member;
   * the in-law when its name was written (slot 5 always holds a string, so
   * "The InLaw Birth Name is missing." is never thrown); and the family
   * dynamic, or the exception for a start slot without a date.
   */
  method NewLine(coordinate: Coordinates.Coordinate, memberObj: Document, inLawObj: Document,
                 familyDynamicObj: Document, guids: Guids.GuidSource)
    returns (r: Result<TemplateLines.TemplateLine>)
    requires "id" !in memberObj && "birthName" in memberObj && memberObj["birthName"].Str?
    requires "id" !in inLawObj && ("birthName" in inLawObj ==> inLawObj["birthName"].Str?)
    requires "id" !in familyDynamicObj && "pageTitle" !in familyDynamicObj
    requires "familyDynamicStartDate" in familyDynamicObj ==> "birthName" in inLawObj
    modifies guids
    ensures r.Err? <==> "familyDynamicStartDate" in familyDynamicObj && !familyDynamicObj["familyDynamicStartDate"].Str?
    ensures r.Err? ==> r.error == InvalidData("The Family Dynamic Start Date is missing.")
    ensures r.Ok? ==> ReadAs(r.value, Assemble(coordinate, memberObj, inLawObj, familyDynamicObj))
    ensures r.Ok? ==>
      && fresh(r.value.member)
      && (r.value.inLaw != null ==> fresh(r.value.inLaw))
      && (r.value.familyDynamic != null ==> fresh(r.value.familyDynamic))
  {
    var member := NewPerson(memberObj, guids);
    var inLaw: Person? := null;
    if "birthName" in inLawObj && inLawObj["birthName"].Str? {
      inLaw := NewPerson(inLawObj, guids);
    }
    var familyDynamic := NewDynamic(familyDynamicObj, member, inLaw, guids);
    if familyDynamic.Err? {
      return Err(familyDynamic.error);
    }
    r := Ok(TemplateLines.TemplateLine(coordinate, member, familyDynamic.value, inLaw));
  }

  // ---------------------------------------------------------------------
  // Reading a written line back
  // ---------------------------------------------------------------------

  /** A text the reader gets back from its slot: trimmed and free of the split characters. */
  predicate ReadableText(t: string) {
    IsTrimmed(t) && NoneIn(t, SplitChars)
  }

  predicate ReadableDate(d: Option<Date>) {
    d.Some? ==> d.value.text != [] && ReadableText(d.value.text)
  }

  /** Person fields the text form keeps: a deceased date that reads "Present" would read as none. */
  predicate Readable(f: PersonFields) {
    && ReadableText(f.name) && ReadableDate(f.birthDate) && ReadableDate(f.deceasedDate)
    && (f.deceasedDate.Some? ==> f.deceasedDate.value.text != Present)
  }

  /** The text of a lifespan between the parenthesis and the dash. */
  function BeforeDash(f: PersonFields): string {
    if f.birthDate.None? && f.deceasedDate.None? then "" else DateText(f.birthDate) + " "
  }

  /** The text of a lifespan between the dash and the parenthesis. */
  function AfterDash(f: PersonFields): string {
    if f.birthDate.None? && f.deceasedDate.None? then ""
    else if f.deceasedDate.None? then " " + Present
    else " " + f.deceasedDate.value.text
  }

  /** A person's text, cut at its split characters. */
  lemma RenderFieldsChunks(f: PersonFields)
    ensures RenderFields(f) == f.name + " " + "(" + BeforeDash(f) + [EnDash] + AfterDash(f) + ")"
  {
    if f.birthDate.None? && f.deceasedDate.None? {
    } else if f.deceasedDate.None? {
      assert " Present)" == " " + Present + ")";
    }
  }

  lemma NoneInAppend(a: string, b: string, separators: set<char>)
    requires NoneIn(a, separators) && NoneIn(b, separators)
    ensures NoneIn(a + b, separators)
  {
  }

  /** The halves of a readable lifespan hold no split character. */
  lemma LifespanChunksPlain(f: PersonFields)
    requires Readable(f)
    ensures NoneIn(BeforeDash(f), SplitChars) && NoneIn(AfterDash(f), SplitChars)
  {
    if f.birthDate.Some? || f.deceasedDate.Some? {
      NoneInAppend(DateText(f.birthDate), " ", SplitChars);
      if f.deceasedDate.None? {
        NoneInAppend(" ", Present, SplitChars);
      } else {
        NoneInAppend(" ", f.deceasedDate.value.text, SplitChars);
      }
    }
  }

  /** Splitting the text of a person gives the name with its spaces and the two halves of the lifespan. */
  lemma SplitPersonText(f: PersonFields, rest: string)
    requires Readable(f)
    ensures Split(" " + RenderFields(f) + rest, SplitChars)
      == [" " + f.name + " ", BeforeDash(f), AfterDash(f)] + Split(rest, SplitChars)
  {
    var lead := " " + f.name + " ";
    var x := BeforeDash(f);
    var y := AfterDash(f);
    RenderFieldsChunks(f);
    Regroup(" ", f.name, " ", '(', x, EnDash, y, ')', rest);
    NoneInAppend(" ", f.name, SplitChars);
    NoneInAppend(" " + f.name, " ", SplitChars);
    LifespanChunksPlain(f);
    SplitAfterChunk(lead, '(', x + [EnDash] + (y + [')'] + rest), SplitChars);
    SplitAfterChunk(x, EnDash, y + [')'] + rest, SplitChars);
    SplitAfterChunk(y, ')', rest, SplitChars);
    ThreeThen(lead, x, y, Split(rest, SplitChars));
  }

  /** A person's text, regrouped at its three split characters: sequence algebra for the split proofs, modelling nothing of its own. */
  lemma Regroup<T>(p: seq<T>, n: seq<T>, q: seq<T>, o: T, x: seq<T>, e: T, y: seq<T>, c: T, rest: seq<T>)
    ensures p + (n + q + [o] + x + [e] + y + [c]) + rest == (p + n + q) + [o] + (x + [e] + (y + [c] + rest))
  {
  }

  /** Sequence algebra for the split proofs: three singletons before a tail. */
  lemma ThreeThen<T>(a: T, b: T, c: T, s: seq<T>)
    ensures [a] + ([b] + ([c] + s)) == [a, b, c] + s
  {
  }

  /** The name slot of a person's text reads back as the name. */
  lemma NameSlotRead(f: PersonFields)
    requires Readable(f)
    ensures Trim(" " + f.name + " ") == f.name
  {
    TrimAround(" ", f.name, " ");
  }

  /** The text of the birth-date slot of a person's text. */
  function BirthText(f: PersonFields): string {
    DateText(f.birthDate)
  }

  /** The text of the deceased-date slot of a person's text. */
  function DeceasedText(f: PersonFields): string {
    if f.birthDate.None? && f.deceasedDate.None? then ""
    else if f.deceasedDate.None? then Present
    else f.deceasedDate.value.text
  }

  /** The birth-date slot of a person's text reads back as the birth date. */
  lemma BirthSlotRead(f: PersonFields)
    requires Readable(f)
    ensures Trim(BeforeDash(f)) == BirthText(f) && DateSlot(BirthText(f)) == InstanceOf(f.birthDate)
  {
    if f.birthDate.None? && f.deceasedDate.None? {
      TrimTrimmed([]);
    } else {
      var b := DateText(f.birthDate);
      TrimAround([], b, " ");
      assert [] + b + " " == BeforeDash(f);
    }
  }

  /** The deceased-date slot of a person's text reads back as the deceased date. */
  lemma DeceasedSlotRead(f: PersonFields)
    requires Readable(f)
    ensures Trim(AfterDash(f)) == DeceasedText(f) && DeceasedSlot(DeceasedText(f)) == InstanceOf(f.deceasedDate)
  {
    if f.birthDate.None? && f.deceasedDate.None? {
      TrimTrimmed([]);
    } else {
      var d := if f.deceasedDate.None? then Present else f.deceasedDate.value.text;
      TrimAround(" ", d, []);
      assert " " + d + [] == AfterDash(f);
    }
  }

  /** The in-law part of a line's text: " & " and the in-law, when there is one. */
  function InLawText(inLaw: Option<PersonFields>): string {
    if inLaw.Some? then " & " + RenderFields(inLaw.value) else ""
  }

  /** The dynamic part of a line's text: ": " and the start date, when there is one. */
  function StartText(start: Option<string>): string {
    if start.Some? then ": " + start.value else ""
  }

  /** The text `TemplateLine.ToString` writes, from the values it shows. */
  function LineText(coordinate: Coordinates.Coordinate, member: PersonFields, inLaw: Option<PersonFields>,
                    start: Option<string>): string
  {
    Coordinates.Render(coordinate) + " " + RenderFields(member) + InLawText(inLaw) + StartText(start)
  }

  /** The pieces of the dynamic part. */
  function StartPieces(start: Option<string>): seq<string> {
    if start.Some? then ["", " " + start.value] else [""]
  }

  /** The pieces of the text after the member's lifespan. */
  function TailPieces(inLaw: Option<PersonFields>, start: Option<string>): seq<string>
  {
    (if inLaw.Some? then [" ", " " + inLaw.value.name + " ", BeforeDash(inLaw.value), AfterDash(inLaw.value)] else [])
    + StartPieces(start)
  }

  lemma SplitStart(start: Option<string>)
    requires start.Some? ==> ReadableText(start.value)
    ensures Split(StartText(start), SplitChars) == StartPieces(start)
  {
    if start.Some? {
      assert StartText(start) == [] + [':'] + (" " + start.value);
      SplitAfterChunk([], ':', " " + start.value, SplitChars);
      NoneInAppend(" ", start.value, SplitChars);
      SplitPlain(" " + start.value, SplitChars);
    }
  }

  /** Splitting what follows the member's lifespan. */
  lemma SplitTail(inLaw: Option<PersonFields>, start: Option<string>)
    requires inLaw.Some? ==> Readable(inLaw.value)
    requires start.Some? ==> ReadableText(start.value)
    ensures Split(InLawText(inLaw) + StartText(start), SplitChars) == TailPieces(inLaw, start)
  {
    var last := StartText(start);
    SplitStart(start);
    if inLaw.Some? {
      var i := inLaw.value;
      RegroupInLaw(' ', '&', ' ', RenderFields(i), last);
      SplitAfterChunk(" ", '&', " " + RenderFields(i) + last, SplitChars);
      SplitPersonText(i, last);
      OneThenThree(" ", " " + i.name + " ", BeforeDash(i), AfterDash(i), Split(last, SplitChars));
    } else {
      assert InLawText(inLaw) + last == last;
    }
  }

  lemma RegroupInLaw<T>(a: T, b: T, c: T, x: seq<T>, y: seq<T>)
    ensures [a, b, c] + x + y == [a] + [b] + ([c] + x + y)
  {
  }

  lemma OneThenThree<T>(a: T, b: T, c: T, d: T, s: seq<T>)
    ensures [a] + ([b, c, d] + s) == [a, b, c, d] + s
  {
  }

  /** A dotted coordinate holds no split character and no white space at its ends. */
  lemma DottedPlain(c: Coordinates.Coordinate)
    ensures NoneIn(Coordinates.Dotted(c), SplitChars) && IsTrimmed(Coordinates.Dotted(c))
  {
    Coordinates.DottedIsNumeric(c);
    var d := Coordinates.Dotted(c);
    forall i | 0 <= i < |d| ensures d[i] !in SplitChars && !IsWhiteSpace(d[i]) {
      DottedCharPlain(d[i]);
    }
  }

  /** A digit, a minus sign or a dot is neither a split character nor white space. */
  lemma DottedCharPlain(ch: char)
    requires ch in Coordinates.DottedChars
    ensures ch !in SplitChars && !IsWhiteSpace(ch)
  {
  }

  /** The pieces of a coordinate and a member's text, followed by any `tail`. */
  lemma SplitLinePrefix(c: Coordinates.Coordinate, m: PersonFields, tail: string)
    requires Readable(m)
    ensures Split(Coordinates.Render(c) + " " + RenderFields(m) + tail, SplitChars)
      == ["", Coordinates.Dotted(c), " " + m.name + " ", BeforeDash(m), AfterDash(m)] + Split(tail, SplitChars)
  {
    var d := Coordinates.Dotted(c);
    RegroupCoordinate('[', d, ']', " ", RenderFields(m), tail);
    DottedPlain(c);
    SplitAfterChunk([], '[', d + [']'] + (" " + RenderFields(m) + tail), SplitChars);
    SplitAfterChunk(d, ']', " " + RenderFields(m) + tail, SplitChars);
    SplitPersonText(m, tail);
    TwoThenThree("", d, " " + m.name + " ", BeforeDash(m), AfterDash(m), Split(tail, SplitChars));
  }

  lemma RegroupCoordinate<T>(o: T, d: seq<T>, c: T, sp: seq<T>, p: seq<T>, tail: seq<T>)
    ensures [o] + d + [c] + sp + p + tail == [] + [o] + (d + [c] + (sp + p + tail))
  {
  }

  lemma TwoThenThree<T>(a: T, b: T, c: T, d: T, e: T, s: seq<T>)
    ensures [a] + ([b] + ([c, d, e] + s)) == [a, b, c, d, e] + s
  {
  }

  lemma AppendTail<T>(a: seq<T>, b: seq<T>, c: seq<T>, d: seq<T>, e: seq<T>)
    ensures a + b + c + d + e == a + b + c + (d + e)
  {
  }

  /** The pieces of a line's text, split on the split characters. */
  lemma SplitLineText(c: Coordinates.Coordinate, m: PersonFields, inLaw: Option<PersonFields>, start: Option<string>)
    requires Readable(m) && (inLaw.Some? ==> Readable(inLaw.value))
    requires start.Some? ==> ReadableText(start.value)
    ensures Split(LineText(c, m, inLaw, start), SplitChars)
      == ["", Coordinates.Dotted(c), " " + m.name + " ", BeforeDash(m), AfterDash(m)] + TailPieces(inLaw, start)
  {
    var tail := InLawText(inLaw) + StartText(start);
    AppendTail(Coordinates.Render(c), " ", RenderFields(m), InLawText(inLaw), StartText(start));
    SplitLinePrefix(c, m, tail);
    SplitTail(inLaw, start);
  }

  /**
   * The slots the reader finds in a line's text: the coordinate, the
   * member's three, an empty slot, the in-law's three and another empty
   * slot when there is an in-law, and the start date last.
   */
  function LineSlots(c: Coordinates.Coordinate, m: PersonFields, inLaw: Option<PersonFields>,
                     start: Option<string>): seq<string>
  {
    var d, x, y := Coordinates.Dotted(c), BirthText(m), DeceasedText(m);
    if inLaw.Some? then
      var i := inLaw.value;
      if start.Some? then [d, m.name, x, y, "", i.name, BirthText(i), DeceasedText(i), "", start.value]
      else [d, m.name, x, y, "", i.name, BirthText(i), DeceasedText(i), ""]
    else if start.Some? then [d, m.name, x, y, "", start.value]
    else [d, m.name, x, y, ""]
  }

  /** Slot by slot. */
  lemma LineSlotsAt(c: Coordinates.Coordinate, m: PersonFields, inLaw: Option<PersonFields>, start: Option<string>)
    ensures var s := LineSlots(c, m, inLaw, start);
      && |s| == 5 + (if inLaw.Some? then 4 else 0) + (if start.Some? then 1 else 0)
      && s[0] == Coordinates.Dotted(c) && s[1] == m.name && s[2] == BirthText(m) && s[3] == DeceasedText(m) && s[4] == ""
      && (inLaw.Some? ==> s[5] == inLaw.value.name && s[6] == BirthText(inLaw.value)
                          && s[7] == DeceasedText(inLaw.value) && s[8] == "")
      && (start.Some? ==> s[|s| - 1] == start.value)
  {
  }

  /** The member's slots, then the rest. */
  lemma LineSlotsSplit(c: Coordinates.Coordinate, m: PersonFields, inLaw: Option<PersonFields>, start: Option<string>)
    ensures LineSlots(c, m, inLaw, start)
      == [Coordinates.Dotted(c), m.name, BirthText(m), DeceasedText(m)] + TailSlots(inLaw, start)
  {
    var d, x, y := Coordinates.Dotted(c), BirthText(m), DeceasedText(m);
    var head := [d, m.name, x, y];
    if inLaw.Some? {
      var i := inLaw.value;
      var law := ["", i.name, BirthText(i), DeceasedText(i)];
      if start.Some? {
        assert head + (law + [""] + [start.value]) == [d, m.name, x, y, "", i.name, law[2], law[3], "", start.value];
      } else {
        assert head + (law + [""] + []) == [d, m.name, x, y, "", i.name, law[2], law[3], ""];
      }
    } else if start.Some? {
      assert head + ([] + [""] + [start.value]) == [d, m.name, x, y, "", start.value];
    } else {
      assert head + ([] + [""] + []) == [d, m.name, x, y, ""];
    }
  }

  /** The slots after the member's: the in-law's, behind an empty slot, then an empty slot and the start date. */
  function TailSlots(inLaw: Option<PersonFields>, start: Option<string>): seq<string> {
    (if inLaw.Some? then ["", inLaw.value.name, BirthText(inLaw.value), DeceasedText(inLaw.value)] else [])
    + [""]
    + (if start.Some? then [start.value] else [])
  }

  /** The pieces of the in-law's part of a line, when there is one. */
  function InLawPieces(inLaw: Option<PersonFields>): seq<string> {
    if inLaw.Some? then [" ", " " + inLaw.value.name + " ", BeforeDash(inLaw.value), AfterDash(inLaw.value)] else []
  }

  lemma DropFirstPiece(a: string, b: string, c: string, d: string, e: string, rest: seq<string>)
    ensures ([a, b, c, d, e] + rest)[1..] == [b, c, d, e] + rest
  {
  }

  /** Trimming four pieces, one by one. */
  lemma TrimEachFour(a: string, b: string, c: string, d: string)
    ensures TrimEach([a, b, c, d]) == [Trim(a), Trim(b), Trim(c), Trim(d)]
  {
    var pieces := [a, b, c, d];
    FourElements(TrimEach(pieces), Trim(pieces[0]), Trim(pieces[1]), Trim(pieces[2]), Trim(pieces[3]));
  }

  lemma FourElements<T>(t: seq<T>, a: T, b: T, c: T, d: T)
    requires |t| == 4 && t[0] == a && t[1] == b && t[2] == c && t[3] == d
    ensures t == [a, b, c, d]
  {
  }

  lemma TrimInLawPieces(inLaw: Option<PersonFields>)
    requires inLaw.Some? ==> Readable(inLaw.value)
    ensures TrimEach(InLawPieces(inLaw))
      == if inLaw.Some? then ["", inLaw.value.name, BirthText(inLaw.value), DeceasedText(inLaw.value)] else []
  {
    if inLaw.Some? {
      var i := inLaw.value;
      TrimEachFour(" ", " " + i.name + " ", BeforeDash(i), AfterDash(i));
      BirthSlotRead(i);
      DeceasedSlotRead(i);
      TrimAround(" ", [], []);
      assert " " + [] + [] == " ";
      NameSlotRead(inLaw.value);
    }
  }

  lemma TrimStartPieces(start: Option<string>)
    requires start.Some? ==> ReadableText(start.value)
    ensures TrimEach(StartPieces(start)) == [""] + if start.Some? then [start.value] else []
  {
    TrimTrimmed([]);
    if start.Some? {
      TrimAround(" ", start.value, []);
      assert " " + start.value + [] == " " + start.value;
    }
  }

  /** The slots of the in-law's pieces and of the start date's. */
  lemma TrimTailPieces(inLaw: Option<PersonFields>, start: Option<string>)
    requires inLaw.Some? ==> Readable(inLaw.value)
    requires start.Some? ==> ReadableText(start.value)
    ensures TrimEach(TailPieces(inLaw, start)) == TailSlots(inLaw, start)
  {
    assert TailPieces(inLaw, start) == InLawPieces(inLaw) + StartPieces(start);
    TrimEachAppend(InLawPieces(inLaw), StartPieces(start));
    TrimInLawPieces(inLaw);
    TrimStartPieces(start);
  }

  /** The slots of a line's text are the trimmed pieces between its split characters. */
  lemma SegmentsOfLineText(c: Coordinates.Coordinate, m: PersonFields, inLaw: Option<PersonFields>, start: Option<string>)
    requires Readable(m) && (inLaw.Some? ==> Readable(inLaw.value))
    requires start.Some? ==> ReadableText(start.value)
    ensures Segments(LineText(c, m, inLaw, start)) == LineSlots(c, m, inLaw, start)
  {
    var d := Coordinates.Dotted(c);
    var head := [d, " " + m.name + " ", BeforeDash(m), AfterDash(m)];
    SegmentsTrimPieces(LineText(c, m, inLaw, start));
    SplitLineText(c, m, inLaw, start);
    DropFirstPiece("", d, " " + m.name + " ", BeforeDash(m), AfterDash(m), TailPieces(inLaw, start));
    TrimEachAppend(head, TailPieces(inLaw, start));
    DottedPlain(c);
    TrimTrimmed(d);
    NameSlotRead(m);
    TrimEachFour(d, " " + m.name + " ", BeforeDash(m), AfterDash(m));
    BirthSlotRead(m);
    DeceasedSlotRead(m);
    TrimTailPieces(inLaw, start);
    assert Segments(LineText(c, m, inLaw, start)) == TrimEach(head) + TrimEach(TailPieces(inLaw, start));
    LineSlotsSplit(c, m, inLaw, start);
  }

  /** The documents of a parsed line are the ones its slots fill. */
  lemma ParseLineSlots(text: string)
    requires ParseLine(text).Ok?
    ensures var segments, parts := Segments(text), ParseLine(text).value;
      && parts.member == PersonSlots(segments, |segments|, 1)
      && (parts.inLaw.Some? ==> parts.inLaw.value == PersonSlots(segments, |segments|, 5))
  {
  }

  /** Three slots from `first` on fill a whole person document. */
  lemma PersonSlotsFields(segments: seq<string>, n: nat, first: nat)
    requires first + 2 < n <= |segments|
    ensures Hashable(PersonSlots(segments, n, first))
    ensures Fields(PersonSlots(segments, n, first))
      == PersonFields(segments[first], DateOf(DateSlot(segments[first + 1])), DateOf(DeceasedSlot(segments[first + 2])))
  {
  }

  /** The three slots of a person's text read back as that person. */
  lemma PersonSlotsRead(f: PersonFields, segments: seq<string>, n: nat, first: nat)
    requires Readable(f) && first + 2 < n <= |segments|
    requires segments[first] == f.name
    requires segments[first + 1] == BirthText(f) && segments[first + 2] == DeceasedText(f)
    ensures Hashable(PersonSlots(segments, n, first)) && Fields(PersonSlots(segments, n, first)) == f
  {
    PersonSlotsFields(segments, n, first);
    BirthSlotRead(f);
    DeceasedSlotRead(f);
    DateOfInstanceOf(f.birthDate);
    DateOfInstanceOf(f.deceasedDate);
  }

  /**
   * Reading back the text `ToString` writes for a line with a non-empty
   * coordinate, persons whose texts hold no split character, and a start
   * date only beside an in-law: the coordinate, the member and the in-law
   * come back with the same name and dates, and the start date comes back
   * exactly when it was written.
   */
  lemma ReadLineText(c: Coordinates.Coordinate, m: PersonFields, inLaw: Option<PersonFields>, start: Option<string>)
    requires |c| > 0 && Coordinates.FitsInt32(c)
    requires Readable(m) && (inLaw.Some? ==> Readable(inLaw.value))
    requires start.Some? ==> inLaw.Some? && start.value != [] && ReadableText(start.value)
    ensures ParseLine(LineText(c, m, inLaw, start)).Ok?
    ensures var parts := ParseLine(LineText(c, m, inLaw, start)).value;
      && parts.coordinate == c
      && Hashable(parts.member) && Fields(parts.member) == m
      && (parts.inLaw.Some? <==> inLaw.Some?)
      && (inLaw.Some? ==> Hashable(parts.inLaw.value) && Fields(parts.inLaw.value) == inLaw.value)
      && (parts.familyDynamic.Some? <==> start.Some?)
      && (start.Some? ==> parts.familyDynamic.value["familyDynamicStartDate"] == Str(start.value))
  {
    SegmentsOfLineText(c, m, inLaw, start);
    ReadSlots(LineText(c, m, inLaw, start), c, m, inLaw, start);
  }

  /** Reading a record whose slots are those of a line's text. */
  lemma ReadSlots(text: string, c: Coordinates.Coordinate, m: PersonFields, inLaw: Option<PersonFields>, start: Option<string>)
    requires |c| > 0 && Coordinates.FitsInt32(c)
    requires Readable(m) && (inLaw.Some? ==> Readable(inLaw.value))
    requires start.Some? ==> inLaw.Some? && start.value != []
    requires Segments(text) == LineSlots(c, m, inLaw, start)
    ensures ParseLine(text).Ok?
    ensures var parts := ParseLine(text).value;
      && parts.coordinate == c
      && Hashable(parts.member) && Fields(parts.member) == m
      && (parts.inLaw.Some? <==> inLaw.Some?)
      && (inLaw.Some? ==> Hashable(parts.inLaw.value) && Fields(parts.inLaw.value) == inLaw.value)
      && (parts.familyDynamic.Some? <==> start.Some?)
      && (start.Some? ==> parts.familyDynamic.value["familyDynamicStartDate"] == Str(start.value))
  {
    var segments := Segments(text);
    LineSlotsAt(c, m, inLaw, start);
    Coordinates.ParseDotted(c);
    ParseLineSlots(text);
    var n := |segments|;
    PersonSlotsRead(m, segments, n, 1);
    if inLaw.Some? {
      PersonSlotsRead(inLaw.value, segments, n, 5);
    }
  }

  /**
   * A line with a start date but no in-law, as `ToString` writes for a
   * member with all three dates and no in-law, does not read back: the
   * start date fills slot 5 and is read as the name of an in-law who has no
   * dates, so the line has no family dynamic and its in-law cannot be
   * hashed.
   */
  lemma StartWithoutInLawReadsAsInLaw(c: Coordinates.Coordinate, m: PersonFields, start: string)
    requires |c| > 0 && Coordinates.FitsInt32(c)
    requires Readable(m) && ReadableText(start)
    ensures ParseLine(LineText(c, m, None, Some(start))).Ok?
    ensures var parts := ParseLine(LineText(c, m, None, Some(start))).value;
      && parts.familyDynamic.None?
      && parts.inLaw == Some(map["birthName" := Str(start)])
      && !Hashable(parts.inLaw.value)
  {
    StartWithoutInLawHasNoDynamic(c, m, start);
    StartWithoutInLawInLaw(c, m, start);
  }

  /** Helper of `StartWithoutInLawReadsAsInLaw`: the line reads, without a family dynamic. */
  lemma StartWithoutInLawHasNoDynamic(c: Coordinates.Coordinate, m: PersonFields, start: string)
    requires |c| > 0 && Coordinates.FitsInt32(c)
    requires Readable(m) && ReadableText(start)
    ensures ParseLine(LineText(c, m, None, Some(start))).Ok?
    ensures ParseLine(LineText(c, m, None, Some(start))).value.familyDynamic.None?
  {
    SegmentsOfLineText(c, m, None, Some(start));
    Coordinates.ParseDotted(c);
  }

  /** Helper of `StartWithoutInLawReadsAsInLaw`: the start date is read as an in-law's name. */
  lemma StartWithoutInLawInLaw(c: Coordinates.Coordinate, m: PersonFields, start: string)
    requires |c| > 0 && Coordinates.FitsInt32(c)
    requires Readable(m) && ReadableText(start)
    requires ParseLine(LineText(c, m, None, Some(start))).Ok?
    ensures ParseLine(LineText(c, m, None, Some(start))).value.inLaw == Some(map["birthName" := Str(start)])
  {
    SegmentsOfLineText(c, m, None, Some(start));
    Coordinates.ParseDotted(c);
  }

  /** The start date a line's text shows, if any. */
  function ShownStart(l: TemplateLines.TemplateLine): Option<string>
    reads l.familyDynamic
  {
    if TemplateLines.HasStart(l) then Some(l.familyDynamic.document["familyDynamicStartDate"].text) else None
  }

  /** The corrected text of a line is the text built from the values it shows. */
  lemma RenderIsLineText(l: TemplateLines.TemplateLine)
    requires TemplateLines.Renderable(l)
    ensures TemplateLines.Render(l)
      == LineText(l.coordinate, Fields(l.member.document),
                  if l.inLaw != null then Some(Fields(l.inLaw.document)) else None, ShownStart(l))
  {
  }

  /**
   * The corrected text of a line reads back: the coordinate, and the member
   * and the in-law with their names and dates; a family dynamic exactly when
   * the line shows a start date, holding that date.
   */
  lemma RenderReadsBack(l: TemplateLines.TemplateLine)
    requires TemplateLines.Renderable(l)
    requires |l.coordinate| > 0 && Coordinates.FitsInt32(l.coordinate)
    requires Readable(Fields(l.member.document))
    requires l.inLaw != null ==> Readable(Fields(l.inLaw.document))
    requires ShownStart(l).Some? ==> l.inLaw != null && ShownStart(l).value != [] && ReadableText(ShownStart(l).value)
    ensures ParseLine(TemplateLines.Render(l)).Ok?
    ensures var parts := ParseLine(TemplateLines.Render(l)).value;
      && parts.coordinate == l.coordinate
      && Hashable(parts.member) && Fields(parts.member) == Fields(l.member.document)
      && (parts.inLaw.Some? <==> l.inLaw != null)
      && (l.inLaw != null ==> Hashable(parts.inLaw.value) && Fields(parts.inLaw.value) == Fields(l.inLaw.document))
      && (parts.familyDynamic.Some? <==> TemplateLines.HasStart(l))
      && (TemplateLines.HasStart(l) ==>
            parts.familyDynamic.value["familyDynamicStartDate"] == l.familyDynamic.document["familyDynamicStartDate"])
  {
    var inLaw := if l.inLaw != null then Some(Fields(l.inLaw.document)) else None;
    RenderIsLineText(l);
    ReadLineText(l.coordinate, Fields(l.member.document), inLaw, ShownStart(l));
  }

  // ---------------------------------------------------------------------
  // Reading a template
  // ---------------------------------------------------------------------

  /** `blobUri.Split('/')[^2]`: the name of the container the blob sits in; a URI without '/' throws. */
  function ContainerName(blobUri: string): (r: Result<string>)
    ensures r.Ok? <==> CountIn(blobUri, {'/'}) > 0
    ensures r.Err? ==> r.error == IndexOutOfRange
    ensures r.Ok? ==> NoneIn(r.value, {'/'})
  {
    var pieces := Split(blobUri, {'/'});
    if |pieces| < 2 then Err(IndexOutOfRange) else Ok(pieces[|pieces| - 2])
  }

  /** The container name of a path ".../container/blob" is "container". */
  lemma ContainerNameOfPath(parts: seq<string>)
    requires |parts| >= 2
    requires forall i :: 0 <= i < |parts| ==> NoneIn(parts[i], {'/'})
    ensures ContainerName(Join(parts, "/")) == Ok(parts[|parts| - 2])
  {
    SplitJoin(parts, '/');
    var pieces := Split(Join(parts, "/"), {'/'});
    assert pieces == parts;
    assert |pieces| >= 2 && pieces[|pieces| - 2] == parts[|parts| - 2];
  }

  /** The records of every page, page after page. */
  function AllRecords(pages: seq<string>, cleanDashes: string -> string): seq<string>
    decreases |pages|
  {
    if pages == [] then []
    else AllRecords(pages[..|pages| - 1], cleanDashes) + Records(NormalizedPage(pages[|pages| - 1], cleanDashes))
  }

  /** One page more. */
  lemma AllRecordsStep(pages: seq<string>, p: nat, cleanDashes: string -> string)
    requires p < |pages|
    ensures AllRecords(pages[..p + 1], cleanDashes)
      == AllRecords(pages[..p], cleanDashes) + Records(NormalizedPage(pages[p], cleanDashes))
  {
    assert pages[..p + 1][..p] == pages[..p];
  }

  /**
   * The exception reading one record throws, if any, in the source's order:
   * the line's own checks, the family name parsed from `instance`, then the
   * hash of the member and of the in-law, which `GetPerson` computes.
   */
  function RecordError(record: string, instance: BridgeInstance): Option<Error> {
    SlotsError(Segments(record), instance)
  }

  /** `RecordError` over the slots of the record. */
  function SlotsError(segments: seq<string>, instance: BridgeInstance): Option<Error> {
    var n := |segments|;
    if n == 0 then Some(InvalidData("The coordinate is missing."))
    else if Coordinates.Parse(segments[0]).Err? then Some(Coordinates.Parse(segments[0]).error)
    else if n < 2 then Some(InvalidData("The Member Birth Name is missing"))
    else if n > 9 && segments[9] == [] then Some(InvalidData("The Family Dynamic Start Date is missing."))
    else if InheritedFamilyNames.Parse(instance).Err? then Some(InheritedFamilyNames.Parse(instance).error)
    else SlotsHashError(n)
  }

  /**
   * The outer loop of `ReadTemplate` without the reading of the records:
   * `GetPageLines` of every page, page after page. `GetPageLines` neither
   * throws nor changes anything, so reading the records after gathering
   * them all keeps the order of every effect.
   */
  method GetAllRecords(pages: seq<string>, cleanDashes: string -> string) returns (records: seq<string>)
    ensures records == AllRecords(pages, cleanDashes)
  {
    records := [];
    for p := 0 to |pages|
      invariant records == AllRecords(pages[..p], cleanDashes)
    {
      var pageRecords := GetPageLines(pages[p], cleanDashes);
      AllRecordsStep(pages, p, cleanDashes);
      records := records + pageRecords;
    }
    assert pages[..|pages|] == pages;
  }

  /** The exception of a record is the one `ParseLine` throws, else the family name's, else the hash's. */
  lemma RecordErrorOfParse(record: string, instance: BridgeInstance)
    ensures ParseLine(record).Err? ==> RecordError(record, instance) == Some(ParseLine(record).error)
    ensures ParseLine(record).Ok? && InheritedFamilyNames.Parse(instance).Err? ==>
      RecordError(record, instance) == Some(InheritedFamilyNames.Parse(instance).error)
    ensures ParseLine(record).Ok? && InheritedFamilyNames.Parse(instance).Ok? ==>
      RecordError(record, instance) == HashError(ParseLine(record).value)
  {
    if ParseLine(record).Ok? {
      HashErrorOfRecord(record);
    }
  }

  /**
   * The exception hashing the persons of a line of `n` slots throws: a
   * person whose date slots the line does not reach lacks those keys.
   */
  function SlotsHashError(n: nat): Option<Error> {
    if SlotsFailure(n, 1).Some? then SlotsFailure(n, 1)
    else if n > 5 then SlotsFailure(n, 5)
    else None
  }

  /** The missing key of the person the slots from `first` on write, if any. */
  function SlotsFailure(n: nat, first: nat): Option<Error> {
    if first + 1 >= n then Some(KeyNotFound("birthDate"))
    else if first + 2 >= n then Some(KeyNotFound("deceasedDate"))
    else None
  }

  /** A person written from slots hashes unless the line stops before its dates. */
  lemma PersonSlotsHash(segments: seq<string>, n: nat, first: nat)
    requires first < n <= |segments|
    ensures HashFailure(PersonSlots(segments, n, first)) == SlotsFailure(n, first)
  {
  }

  /** The exception hashing the persons of a parsed record is the one its slot count predicts. */
  lemma HashErrorOfRecord(record: string)
    requires ParseLine(record).Ok?
    ensures HashError(ParseLine(record).value) == SlotsHashError(|Segments(record)|)
  {
    var segments := Segments(record);
    var n := |segments|;
    PersonSlotsHash(segments, n, 1);
    if n > 5 {
      PersonSlotsHash(segments, n, 5);
    }
  }

  /** The exception hashing the member, then the in-law, throws, if any. */
  function HashError(parts: LineParts): Option<Error> {
    if HashFailure(parts.member).Some? then HashFailure(parts.member)
    else if parts.inLaw.Some? then HashFailure(parts.inLaw.value)
    else None
  }

  /** Every record reads without an exception. */
  predicate AllRead(records: seq<string>, instance: BridgeInstance) {
    forall k :: 0 <= k < |records| ==> RecordError(records[k], instance).None?
  }

  /** Record `j` is the first that throws, and it throws `e`. */
  predicate FirstThrowsAt(records: seq<string>, j: nat, instance: BridgeInstance, e: Error) {
    && j < |records| && RecordError(records[j], instance) == Some(e)
    && forall k :: 0 <= k < j ==> RecordError(records[k], instance).None?
  }

  /** One record more that reads. */
  lemma AllReadNext(records: seq<string>, j: nat, instance: BridgeInstance)
    requires j < |records| && AllRead(records[..j], instance) && RecordError(records[j], instance).None?
    ensures AllRead(records[..j + 1], instance)
  {
    var prefix := records[..j + 1];
    forall k | 0 <= k < |prefix| ensures RecordError(prefix[k], instance).None? {
      if k < j {
        assert prefix[k] == records[..j][k];
      } else {
        assert prefix[k] == records[j];
      }
    }
  }

  /** After records that read, one that throws is the first to. */
  lemma FirstThrowsNext(records: seq<string>, j: nat, instance: BridgeInstance, e: Error)
    requires j < |records| && AllRead(records[..j], instance) && RecordError(records[j], instance) == Some(e)
    ensures FirstThrowsAt(records, j, instance, e)
  {
    assert forall k :: 0 <= k < j ==> records[..j][k] == records[k];
  }

  /** At most one record is the first to throw. */
  lemma FirstThrowsUnique(records: seq<string>, i: nat, j: nat, instance: BridgeInstance, d: Error, e: Error)
    requires FirstThrowsAt(records, i, instance, d) && FirstThrowsAt(records, j, instance, e)
    ensures i == j && d == e
  {
  }

  /** Records that all read, followed by records that all read. */
  lemma AllReadAppend(a: seq<string>, b: seq<string>, instance: BridgeInstance)
    requires AllRead(a, instance) && AllRead(b, instance)
    ensures AllRead(a + b, instance)
  {
    forall k | 0 <= k < |a + b| ensures RecordError((a + b)[k], instance).None? {
      if k < |a| {
        assert (a + b)[k] == a[k];
      } else {
        assert (a + b)[k] == b[k - |a|];
      }
    }
  }

  /** A document with an id added hashes as the document did. */
  lemma IdentifiedHash(document: Document, parts: Document)
    requires IdentifiedAs(document, parts)
    ensures Persons.HashKeyOf(document) == Persons.HashKeyOf(parts)
    ensures Hashable(document) <==> Hashable(parts)
    ensures Hashable(parts) ==> Fields(document) == Fields(parts)
  {
    assert forall k :: k in parts ==> k in document && document[k] == parts[k];
  }

  /**
   * A template line read from `record`: the record's coordinate, a member
   * and an in-law with the names and dates its slots give, and its family
   * dynamic with a drawn id.
   */
  predicate ReadFrom(l: TemplateLines.TemplateLine, record: string)
    reads l.member, l.inLaw, l.familyDynamic
  {
    ParseLine(record).Ok? && PartsRead(l, ParseLine(record).value)
  }

  /** The line holds `parts`: the coordinate, persons with the same names and dates, the dynamic with an id. */
  predicate PartsRead(l: TemplateLines.TemplateLine, parts: LineParts)
    reads l.member, l.inLaw, l.familyDynamic
  {
    && l.coordinate == parts.coordinate
    && Hashable(parts.member) && Hashable(l.member.document) && Fields(l.member.document) == Fields(parts.member)
    && (l.inLaw == null <==> parts.inLaw.None?)
    && (l.inLaw != null ==>
          Hashable(parts.inLaw.value) && Hashable(l.inLaw.document) && Fields(l.inLaw.document) == Fields(parts.inLaw.value))
    && (l.familyDynamic == null <==> parts.familyDynamic.None?)
    && (l.familyDynamic != null ==> IdentifiedAs(l.familyDynamic.document, parts.familyDynamic.value))
  }

  /** The line's member and in-law are pooled persons. */
  predicate Pooled(l: TemplateLines.TemplateLine, pool: seq<Person>) {
    l.member in pool && (l.inLaw != null ==> l.inLaw in pool)
  }

  /** `b` is `a` with persons added at the end. */
  predicate Extends(a: seq<Person>, b: seq<Person>) {
    |a| <= |b| && b[..|a|] == a
  }

  /** Every line's persons are pooled. */
  predicate AllPooled(lines: seq<TemplateLines.TemplateLine>, pool: seq<Person>) {
    forall k :: 0 <= k < |lines| ==> Pooled(lines[k], pool)
  }

  /** The persons of `lines`, line by line. */
  function AllPersons(lines: seq<TemplateLines.TemplateLine>): seq<Person?> {
    if lines == [] then []
    else AllPersons(lines[..|lines| - 1]) + TemplateLines.PersonsOf(lines[|lines| - 1].member, lines[|lines| - 1].inLaw)
  }

  /** `created` is empty, or holds one person, read as the member of `record`. */
  predicate MemberRead(created: seq<Person>, record: string)
    reads set p | p in created
  {
    |created| <= 1 && (created != [] ==> ParseLine(record).Ok? && IdentifiedAs(created[0].document, ParseLine(record).value.member))
  }

  /** Persons pooled stay pooled as the pool grows. */
  lemma PooledExtends(lines: seq<TemplateLines.TemplateLine>, a: seq<Person>, b: seq<Person>)
    requires Extends(a, b) && AllPooled(lines, a)
    ensures AllPooled(lines, b)
  {
    assert forall x :: x in a ==> x in b[..|a|];
  }

  /** A pool that grew by the persons of one more pooled line still pools all the lines. */
  lemma PooledNext(lines: seq<TemplateLines.TemplateLine>, line: TemplateLines.TemplateLine,
                   start: seq<Person>, pooled: seq<Person>, after: seq<Person>)
    requires PersonPools.GrewBy(start, pooled, AllPersons(lines)) && AllPooled(lines, pooled)
    requires PersonPools.GrewBy(pooled, after, TemplateLines.PersonsOf(line.member, line.inLaw)) && Pooled(line, after)
    ensures PersonPools.GrewBy(start, after, AllPersons(lines + [line])) && AllPooled(lines + [line], after)
  {
    PersonPools.GrewByThen(start, pooled, after, AllPersons(lines), TemplateLines.PersonsOf(line.member, line.inLaw));
    assert (lines + [line])[..|lines|] == lines;
    PooledExtends(lines, pooled, after);
  }

  /** Every line was read from the record at its position. */
  predicate AllReadFrom(lines: seq<TemplateLines.TemplateLine>, records: seq<string>)
    reads Templates.Footprint(lines)
  {
    |lines| == |records| && forall k :: 0 <= k < |lines| ==> ReadFrom(lines[k], records[k])
  }

  lemma AllReadFromAppend(a: seq<TemplateLines.TemplateLine>, b: seq<TemplateLines.TemplateLine>,
                          ra: seq<string>, rb: seq<string>)
    requires AllReadFrom(a, ra) && AllReadFrom(b, rb)
    ensures AllReadFrom(a + b, ra + rb)
  {
    forall k | 0 <= k < |a + b| ensures ReadFrom((a + b)[k], (ra + rb)[k]) {
      if k >= |a| {
        assert (a + b)[k] == b[k - |a|] && (ra + rb)[k] == rb[k - |a|];
      }
    }
  }

  /** The pooled person equal to a person read from slots has the slots' name and dates. */
  lemma CanonicalFields(pooled: Document, given: Document, parts: Document, same: (Document, Document) -> bool)
    requires IdentifiedAs(given, parts) && PersonPools.Matches(pooled, given, same)
    ensures Hashable(parts) && Hashable(pooled) && Fields(pooled) == Fields(parts)
  {
    IdentifiedHash(given, parts);
    Persons.HashKeyDeterminesFields(pooled, given);
  }

  /** One more record read into one more line, its persons pooled. */
  lemma ReadStep(lines: seq<TemplateLines.TemplateLine>, line: TemplateLines.TemplateLine, records: seq<string>, j: nat,
                 instance: BridgeInstance)
    requires j < |records| && AllRead(records[..j], instance) && RecordError(records[j], instance).None?
    requires AllReadFrom(lines, records[..j]) && ReadFrom(line, records[j])
    ensures AllRead(records[..j + 1], instance)
    ensures AllReadFrom(lines + [line], records[..j + 1])
  {
    AllReadNext(records, j, instance);
    AllReadFromAppend(lines, [line], records[..j], [records[j]]);
    SnocSlice(records, j);
  }

  /** The pool and the id source are neither persons nor dynamics of the lines. */
  lemma OutsideFootprint(lines: seq<TemplateLines.TemplateLine>, pool: PersonPools.PersonPool, guids: Guids.GuidSource)
    ensures pool !in Templates.Footprint(lines) && guids !in Templates.Footprint(lines)
  {
  }

  /** Sequence algebra for `ReadStep`: a prefix grown by its next element. */
  lemma SnocSlice<T>(s: seq<T>, j: nat)
    requires j < |s|
    ensures s[..j] + [s[j]] == s[..j + 1]
  {
  }

  /**
   * `TemplateReader`: reads the templates `TemplateGenerator` writes back
   * into template lines, keeping one pool of the persons it has met across
   * the templates it reads.
   */
  class TemplateReader {
    const people: PersonPools.PersonPool

    /** A reader with an empty pool over the persons' `Equals`. */
    constructor(same: (Document, Document) -> bool)
      requires PersonPools.Reflexive(same)
      ensures fresh(people) && people.people == [] && people.same == same && people.Valid()
    {
      people := new PersonPools.PersonPool(same);
    }

    /**
     * `ReadTemplate`: the container name, the second-to-last piece of the
     * URI; then every record of every page read into a template line, its
     * persons made canonical in the pool; then the family name parsed from
     * the container name. The first exception in that order is thrown.
     * `pages` are the texts of the PDF's pages and `cleanDashes` the
     * dash-normalising regular expression.
     */
    method ReadTemplate(blobUri: string, pages: seq<string>, cleanDashes: string -> string, guids: Guids.GuidSource)
      returns (r: Result<Templates.Template>, ghost read: seq<TemplateLines.TemplateLine>, ghost created: seq<Person>)
      requires people.Valid()
      modifies people, guids
      ensures people.Valid() && Extends(old(people.people), people.people)
      ensures PersonPools.GrewBy(old(people.people), people.people, AllPersons(read) + created)
      ensures |created| <= 1 && forall i :: 0 <= i < |created| ==> fresh(created[i])
      ensures r.Ok? ==> read == r.value.family && created == []
      ensures ContainerName(blobUri).Err? ==> r == Err(ContainerName(blobUri).error) && read == [] && created == []
      ensures ContainerName(blobUri).Ok? ==>
        var instance := Str(ContainerName(blobUri).value);
        var records := AllRecords(pages, cleanDashes);
        && |read| <= |records| && AllReadFrom(read, records[..|read|])
        && (r.Ok? ==>
              && AllRead(records, instance) && InheritedFamilyNames.Parse(instance).Ok?
              && r.value.familyName == InheritedFamilyNames.Parse(instance).value
              && AllReadFrom(r.value.family, records) && AllPooled(r.value.family, people.people))
        && (r.Err? ==>
              || (|read| < |records| && FirstThrowsAt(records, |read|, instance, r.error)
                  && MemberRead(created, records[|read|]))
              || (|read| == |records| && created == [] && AllRead(records, instance)
                  && InheritedFamilyNames.Parse(instance) == Err(r.error)))
    {
      read, created := [], [];
      var containerName := ContainerName(blobUri);
      if containerName.Err? {
        return Err(containerName.error), read, created;
      }
      var instance := Str(containerName.value);
      var records := GetAllRecords(pages, cleanDashes);
      var family;
      family, read, created := ReadRecords(records, instance, guids);
      if family.Err? {
        return Err(family.error), read, created;
      }
      var familyName := InheritedFamilyNames.Parse(instance);
      if familyName.Err? {
        return Err(familyName.error), read, created;
      }
      r := Ok(Templates.Template(family.value, familyName.value));
    }

    /** The inner loop of `ReadTemplate`: the records of one page, in order, until one throws. */
    method ReadRecords(records: seq<string>, instance: BridgeInstance, guids: Guids.GuidSource)
      returns (r: Result<seq<TemplateLines.TemplateLine>>, ghost read: seq<TemplateLines.TemplateLine>, ghost created: seq<Person>)
      requires people.Valid()
      modifies people, guids
      ensures people.Valid() && Extends(old(people.people), people.people)
      ensures PersonPools.GrewBy(old(people.people), people.people, AllPersons(read) + created)
      ensures |created| <= 1 && forall i :: 0 <= i < |created| ==> fresh(created[i])
      ensures |read| <= |records| && AllReadFrom(read, records[..|read|])
      ensures r.Ok? ==> read == r.value && created == []
      ensures r.Ok? ==> AllRead(records, instance) && AllReadFrom(r.value, records) && AllPooled(r.value, people.people)
      ensures r.Err? ==> |read| < |records| && FirstThrowsAt(records, |read|, instance, r.error)
      ensures r.Err? ==> MemberRead(created, records[|read|])
    {
      var lines: seq<TemplateLines.TemplateLine> := [];
      created := [];
      for j := 0 to |records|
        invariant people.Valid() && PersonPools.GrewBy(old(people.people), people.people, AllPersons(lines))
        invariant created == [] && AllRead(records[..j], instance)
        invariant AllReadFrom(lines, records[..j]) && AllPooled(lines, people.people)
      {
        var line;
        line, created := ReadNext(records[j], lines, instance, guids, old(people.people), records[..j]);
        if line.Err? {
          FirstThrowsNext(records, j, instance, line.error);
          return Err(line.error), lines, created;
        }
        ReadStep(lines, line.value, records, j, instance);
        lines := lines + [line.value];
      }
      assert records[..|records|] == records;
      r, read := Ok(lines), lines;
    }

    /**
     * One turn of the loop of `ReadRecords`: `ReadRecord` on the next record,
     * the pool growing by the persons of its line; or, when it throws, by at
     * most one new person.
     */
    method ReadNext(record: string, lines: seq<TemplateLines.TemplateLine>, instance: BridgeInstance,
                    guids: Guids.GuidSource, ghost start: seq<Person>, ghost prefix: seq<string>)
      returns (r: Result<TemplateLines.TemplateLine>, ghost created: seq<Person>)
      requires people.Valid() && AllPooled(lines, people.people) && AllReadFrom(lines, prefix)
      requires PersonPools.GrewBy(start, people.people, AllPersons(lines))
      modifies people, guids
      ensures people.Valid() && AllReadFrom(lines, prefix)
      ensures |created| <= 1 && forall i :: 0 <= i < |created| ==> fresh(created[i])
      ensures r.Err? <==> RecordError(record, instance).Some?
      ensures r.Err? ==> r.error == RecordError(record, instance).value
      ensures r.Ok? ==> created == [] && ReadFrom(r.value, record) && AllPooled(lines + [r.value], people.people)
      ensures r.Ok? ==> PersonPools.GrewBy(start, people.people, AllPersons(lines + [r.value]))
      ensures r.Err? ==> PersonPools.GrewBy(start, people.people, AllPersons(lines) + created)
      ensures MemberRead(created, record)
    {
      ghost var pooled := people.people;
      r, created := ReadRecord(record, instance, guids);
      forall k | 0 <= k < |lines| ensures ReadFrom(lines[k], prefix[k]) {
        assert old(ReadFrom(lines[k], prefix[k]));
      }
      if r.Err? {
        PersonPools.GrewByThen(start, pooled, people.people, AllPersons(lines), created);
        return;
      }
      PooledNext(lines, r.value, start, pooled, people.people);
    }

    /**
     * The body of the inner loop of `ReadTemplate` for one record: its line,
     * the family name (parsed again for every line), and the canonical
     * member and in-law from the pool.
     */
    method ReadRecord(record: string, instance: BridgeInstance, guids: Guids.GuidSource)
      returns (r: Result<TemplateLines.TemplateLine>, ghost created: seq<Person>)
      requires people.Valid()
      modifies people, guids
      ensures people.Valid() && Extends(old(people.people), people.people)
      ensures r.Ok? ==> created == [] && PersonPools.GrewBy(old(people.people), people.people, TemplateLines.PersonsOf(r.value.member, r.value.inLaw))
      ensures r.Err? ==> PersonPools.GrewBy(old(people.people), people.people, created)
      ensures |created| <= 1 && forall i :: 0 <= i < |created| ==> fresh(created[i])
      ensures MemberRead(created, record)
      ensures r.Err? <==> RecordError(record, instance).Some?
      ensures r.Err? ==> r.error == RecordError(record, instance).value
      ensures r.Ok? ==> ReadFrom(r.value, record) && Pooled(r.value, people.people)
    {
      created := [];
      RecordErrorOfParse(record, instance);
      var line := GetLine(record, guids);
      if line.Err? {
        return Err(line.error), created;
      }
      var familyName := InheritedFamilyNames.Parse(instance);
      if familyName.Err? {
        return Err(familyName.error), created;
      }
      r := PoolPersons(line.value, ParseLine(record).value);
      if r.Err? {
        created := [line.value.member];
      }
    }

    /**
     * `FamilyTreeUtils.GetPerson` on the member, then on the in-law: each is
     * replaced by the pooled person equal to it, or pooled; a person without
     * the attributes its hash reads throws.
     */
    method PoolPersons(line: TemplateLines.TemplateLine, parts: LineParts) returns (r: Result<TemplateLines.TemplateLine>)
      requires people.Valid() && ReadAs(line, parts)
      modifies people
      ensures people.Valid() && Extends(old(people.people), people.people)
      ensures r.Ok? ==> PersonPools.GrewBy(old(people.people), people.people, TemplateLines.PersonsOf(r.value.member, r.value.inLaw))
      ensures r.Err? ==> PersonPools.GrewBy(old(people.people), people.people, [line.member])
      ensures r.Err? && HashFailure(parts.member).Some? ==> people.people == old(people.people)
      ensures r.Err? <==> HashError(parts).Some?
      ensures r.Err? ==> r.error == HashError(parts).value
      ensures r.Ok? ==> PartsRead(r.value, parts) && Pooled(r.value, people.people)
    {
      var member := Canonical(line.member, parts.member);
      if member.Err? {
        return Err(member.error);
      }
      var inLaw: Person? := null;
      if line.inLaw != null {
        var pooledBefore := people.people;
        var found := Canonical(line.inLaw, parts.inLaw.value);
        if found.Err? {
          return Err(found.error);
        }
        assert member.value in pooledBefore;
        inLaw := found.value;
      }
      r := Ok(TemplateLines.TemplateLine(line.coordinate, member.value, line.familyDynamic, inLaw));
    }

    /**
     * `FamilyTreeUtils.GetPerson` on a person read from the slots `parts`:
     * the pooled person equal to it, with the slots' name and dates; or the
     * exception its hash throws.
     */
    method Canonical(p: Person, ghost parts: Document) returns (r: Result<Person>)
      requires people.Valid() && IdentifiedAs(p.document, parts)
      modifies people
      ensures people.Valid() && Extends(old(people.people), people.people)
      ensures PersonPools.GrewBy(old(people.people), people.people, [p])
      ensures r.Ok? ==> PersonPools.GrewBy(old(people.people), people.people, [r.value])
      ensures r.Err? ==> people.people == old(people.people)
      ensures r.Err? <==> HashFailure(parts).Some?
      ensures r.Err? ==> r.error == HashFailure(parts).value
      ensures r.Ok? ==>
        && r.value in people.people
        && Hashable(parts) && Hashable(r.value.document) && Fields(r.value.document) == Fields(parts)
    {
      IdentifiedHash(p.document, parts);
      HashFailureOf(parts);
      r := people.GetPerson(p);
      if r.Ok? {
        CanonicalFields(r.value.document, p.document, parts, people.same);
      }
    }
  }
}
