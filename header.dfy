/**
 * How the template generator turns one header match into a template line:
 * the label shapes of each generation, the decomposition of the named
 * captures into member, in-law and family-dynamic slots (`GetHeaderDecomposition`),
 * and `BuildHeader`.
 */
module Headers {
  import opened Wrappers
  import opened Strings
  import opened Bridge
  import opened Persons
  import opened FamilyDynamics
  import Coordinates
  import TemplateLines
  import PersonPools
  import Guids

  /** The groups of a header pattern: the seven named ones, and any other by its name. */
  datatype Group =
    | MemberBirthName | MemberBirthDate | FamilyDynamicStartDate | MemberDeceasedDate
    | InLawBirthName | InLawBirthDate | InLawDeceasedDate
    | Unnamed(name: string)

  function GroupName(g: Group): string {
    match g
    case MemberBirthName => "memberBirthName"
    case MemberBirthDate => "memberBirthDate"
    case FamilyDynamicStartDate => "familyDynamicStartDate"
    case MemberDeceasedDate => "memberDeceasedDate"
    case InLawBirthName => "inLawBirthName"
    case InLawBirthDate => "inLawBirthDate"
    case InLawDeceasedDate => "inLawDeceasedDate"
    case Unnamed(name) => name
  }

  /** A regular-expression match: where it starts, its length, and the value of every group. */
  datatype Match = Match(index: nat, length: nat, captures: map<Group, string>)

  // The label tokens that open a header, one shape per generation.

  predicate IsRomanUpper(c: char) { c in "IVXLCDM" }
  predicate IsRomanLower(c: char) { c in "ivxlcdm" }
  predicate IsUpperLetter(c: char) { 'A' <= c <= 'Z' }
  predicate IsLowerLetter(c: char) { 'a' <= c <= 'z' }

  /** One or more characters of a class, then `terminator`, then one white-space character. */
  predicate Token(s: string, inClass: char -> bool, terminator: char) {
    && |s| >= 3
    && (forall i :: 0 <= i < |s| - 2 ==> inClass(s[i]))
    && s[|s| - 2] == terminator && IsWhiteSpace(s[|s| - 1])
  }

  /**
   * The label of a header of `generation`: "IV: ", "B. ", "12. ", "c. ",
   * "(3) ", "ii) ". Later generations have no label.
   */
  predicate Label(generation: int, s: string) {
    match generation
    case 1 => Token(s, IsRomanUpper, ':')
    case 2 => Token(s, IsUpperLetter, '.')
    case 3 => Token(s, IsDigit, '.')
    case 4 => Token(s, IsLowerLetter, '.')
    case 5 => |s| >= 1 && s[0] == '(' && Token(s[1..], IsDigit, ')')
    case 6 => Token(s, IsRomanLower, ')')
    case _ => false
  }

  /** No text is the label of two generations: a label tells its generation. */
  lemma LabelDeterminesGeneration(g: int, h: int, s: string)
    requires Label(g, s) && Label(h, s)
    ensures g == h && 1 <= g <= 6
  {
  }

  /** The captures of the seven named groups, the empty ones removed. */
  function Cleaned(captures: map<Group, string>): map<Group, string> {
    map k | k in captures && !k.Unnamed? && captures[k] != "" :: captures[k]
  }

  /** An in-law name remains that holds both an upper-case and a lower-case ASCII letter. */
  predicate HasInLaw(final: map<Group, string>) {
    InLawBirthName in final && HasAsciiUpper(final[InLawBirthName]) && HasAsciiLower(final[InLawBirthName])
  }

  /** Which of the birth, start and deceased dates are there: none, birth, birth and start, or all three. */
  predicate Arrangement(b: bool, d: bool, x: bool) {
    (b && d && !x) || (b && !d && !x) || (!b && !d && !x) || (b && d && x)
  }

  /** Which of the three date slots hold a date, in a cleaned decomposition. */
  predicate ValidArrangement(final: map<Group, string>) {
    Arrangement(MemberBirthDate in final, FamilyDynamicStartDate in final, MemberDeceasedDate in final)
  }

  /** A named group captured a non-empty text: it survives the cleaning. */
  predicate Present(captures: map<Group, string>, g: Group) {
    g in captures && captures[g] != ""
  }

  /** The captures of a header that decomposes: a member name and a valid date arrangement. */
  predicate WellFormedHeader(captures: map<Group, string>) {
    && Present(captures, MemberBirthName)
    && Arrangement(Present(captures, MemberBirthDate), Present(captures, FamilyDynamicStartDate),
                   Present(captures, MemberDeceasedDate))
  }

  /**
   * `GetHeaderDecomposition`, given the birth and deceased dates of the
   * first pooled person with the member's name (`pooled`).
   */
  function Decompose(captures: map<Group, string>, pooled: Option<PersonFields>): Result<map<Group, string>> {
    var final := Cleaned(captures);
    var b, d, x := MemberBirthDate in final, FamilyDynamicStartDate in final, MemberDeceasedDate in final;
    var hasInLaw := HasInLaw(final);
    if MemberBirthName !in final then Err(KeyNotFound(GroupName(MemberBirthName)))
    else if b && d && !x then
      var missingStartDate := pooled.Some? && pooled.value.deceasedDate == Some(Date(final[FamilyDynamicStartDate])) && hasInLaw;
      if missingStartDate || !hasInLaw then
        Ok(final[MemberDeceasedDate := final[FamilyDynamicStartDate]] - {FamilyDynamicStartDate, InLawBirthName, InLawBirthDate, InLawDeceasedDate})
      else Ok(final)
    else if b && !d && !x then
      var missingStartDate := pooled.Some? && pooled.value.birthDate == Some(Date(final[MemberBirthDate])) && hasInLaw;
      if !missingStartDate && hasInLaw then Ok(final[FamilyDynamicStartDate := final[MemberBirthDate]] - {MemberBirthDate})
      else Ok(final)
    else if !b && !d && !x then Ok(final)
    else if b && d && x then Ok(final)
    else Err(InvalidData("Invalid Date Arrangement!!!"))
  }

  /**
   * The decomposition fails exactly for a header that is not well formed:
   * without a member name with `KeyNotFoundException`, otherwise with
   * `InvalidDataException`; the pool never decides whether it fails.
   */
  lemma DecomposeFails(captures: map<Group, string>, pooled: Option<PersonFields>)
    ensures Decompose(captures, pooled).Err? <==> !WellFormedHeader(captures)
    ensures MemberBirthName !in Cleaned(captures) ==> Decompose(captures, pooled) == Err(KeyNotFound(GroupName(MemberBirthName)))
    ensures MemberBirthName in Cleaned(captures) && !ValidArrangement(Cleaned(captures)) ==>
      Decompose(captures, pooled) == Err(InvalidData("Invalid Date Arrangement!!!"))
  {
  }

  /** A match without named groups, as every match beyond the sixth generation, does not decompose. */
  lemma NoNamedGroupsFail(captures: map<Group, string>, pooled: Option<PersonFields>)
    requires forall k :: k in captures ==> k.Unnamed?
    ensures Decompose(captures, pooled) == Err(KeyNotFound(GroupName(MemberBirthName)))
  {
    assert MemberBirthName !in Cleaned(captures);
  }

  /**
   * What a decomposition keeps: only named, non-empty slots; the member name
   * as captured; a deceased date only beside a birth date; and a start date
   * only beside an in-law or with all three dates.
   */
  lemma DecomposeShape(captures: map<Group, string>, pooled: Option<PersonFields>)
    requires Decompose(captures, pooled).Ok?
    ensures var r := Decompose(captures, pooled).value;
      && (forall k :: k in r ==> !k.Unnamed?)
      && (forall k :: k in r ==> r[k] != "")
      && MemberBirthName in r && r[MemberBirthName] == captures[MemberBirthName]
      && (MemberDeceasedDate in r ==> MemberBirthDate in r)
      && (FamilyDynamicStartDate in r ==> HasInLaw(r) || (MemberBirthDate in r && MemberDeceasedDate in r))
      && (InLawBirthName in r ==> r[InLawBirthName] == captures[InLawBirthName])
  {
  }

  /**
   * Birth and start dates without a deceased date: with no in-law, or when
   * the pooled person of that name died on the start date, the second date
   * is the member's deceased date and the in-law slots go; otherwise the
   * slots stay as captured.
   */
  lemma DecomposeTwoDates(captures: map<Group, string>, pooled: Option<PersonFields>)
    requires var final := Cleaned(captures);
      MemberBirthName in final && MemberBirthDate in final && FamilyDynamicStartDate in final && MemberDeceasedDate !in final
    ensures var final := Cleaned(captures);
      var r := Decompose(captures, pooled);
      var moved := !HasInLaw(final) || (pooled.Some? && pooled.value.deceasedDate == Some(Date(final[FamilyDynamicStartDate])));
      && r.Ok?
      && (moved ==>
           && r.value.Keys == final.Keys - {FamilyDynamicStartDate, InLawBirthName, InLawBirthDate, InLawDeceasedDate} + {MemberDeceasedDate}
           && r.value[MemberDeceasedDate] == final[FamilyDynamicStartDate]
           && r.value[MemberBirthDate] == final[MemberBirthDate])
      && (!moved ==> r.value == final)
  {
  }

  /**
   * One date: with an in-law it is the start date, unless the pooled person
   * of that name was born on it; without an in-law it stays the birth date.
   */
  lemma DecomposeOneDate(captures: map<Group, string>, pooled: Option<PersonFields>)
    requires var final := Cleaned(captures);
      MemberBirthName in final && MemberBirthDate in final && FamilyDynamicStartDate !in final && MemberDeceasedDate !in final
    ensures var final := Cleaned(captures);
      var r := Decompose(captures, pooled);
      var moved := HasInLaw(final) && !(pooled.Some? && pooled.value.birthDate == Some(Date(final[MemberBirthDate])));
      && r.Ok?
      && (moved ==>
           && r.value.Keys == final.Keys - {MemberBirthDate} + {FamilyDynamicStartDate}
           && r.value[FamilyDynamicStartDate] == final[MemberBirthDate])
      && (!moved ==> r.value == final)
  {
  }

  /** No date, or all three: the slots stay as captured. */
  lemma DecomposeNoneOrAll(captures: map<Group, string>, pooled: Option<PersonFields>)
    requires var final := Cleaned(captures);
      && MemberBirthName in final
      && (MemberBirthDate in final <==> FamilyDynamicStartDate in final)
      && (MemberBirthDate in final <==> MemberDeceasedDate in final)
    ensures Decompose(captures, pooled) == Ok(Cleaned(captures))
  {
  }

  /** Without an in-law the pool plays no part in the decomposition. */
  lemma PoolOnlyMattersWithInLaw(captures: map<Group, string>, p: Option<PersonFields>, q: Option<PersonFields>)
    requires !HasInLaw(Cleaned(captures))
    ensures Decompose(captures, p) == Decompose(captures, q)
  {
  }

  /**
   * The header "I: John Smith 1900" captures a name and one date, so its
   * decomposition has no start date, whatever the pool holds.
   */
  lemma OneDateNoInLawHasNoStart(pooled: Option<PersonFields>)
    ensures var captures := map[MemberBirthName := "John Smith", MemberBirthDate := "1900", FamilyDynamicStartDate := "",
                                MemberDeceasedDate := "", InLawBirthName := "", InLawBirthDate := "", InLawDeceasedDate := ""];
      && Decompose(captures, pooled) == Ok(map[MemberBirthName := "John Smith", MemberBirthDate := "1900"])
      && WellFormedHeader(captures)
  {
    var captures := map[MemberBirthName := "John Smith", MemberBirthDate := "1900", FamilyDynamicStartDate := "",
                        MemberDeceasedDate := "", InLawBirthName := "", InLawBirthDate := "", InLawDeceasedDate := ""];
    assert Cleaned(captures) == map[MemberBirthName := "John Smith", MemberBirthDate := "1900"];
  }

  /** The dates of the first pooled person named as the header's member, when there is one. */
  function PooledFields(pool: PersonPools.PersonPool, captures: map<Group, string>): Option<PersonFields>
    reads pool, set p | p in pool.people
    requires pool.Valid()
  {
    var final := Cleaned(captures);
    if MemberBirthName !in final then None
    else
      match pool.FirstByName(final[MemberBirthName])
      case None => None
      case Some(p) =>
        var i :| 0 <= i < |pool.people| && pool.people[i] == p;
        assert pool.Documents()[i] == p.document;
        Some(Fields(p.document))
  }

  /**
   * `GetHeaderDecomposition`: keeps the named groups, removes the empty ones
   * one by one, then rewrites the date slots.
   */
  method GetHeaderDecomposition(pool: PersonPools.PersonPool, m: Match) returns (r: Result<map<Group, string>>)
    requires pool.Valid()
    ensures r == Decompose(m.captures, PooledFields(pool, m.captures))
  {
    var initial := map k | k in m.captures && !k.Unnamed? :: m.captures[k];
    var final := initial;
    var pending := initial.Keys;
    while pending != {}
      invariant pending <= initial.Keys
      invariant final == map k | k in initial && (k in pending || initial[k] != "") :: initial[k]
      decreases pending
    {
      var name :| name in pending;
      if |initial[name]| == 0 {
        final := final - {name};
      }
      pending := pending - {name};
    }
    assert final == Cleaned(m.captures);
    var hasBirth, hasStart, hasDeceased := MemberBirthDate in final, FamilyDynamicStartDate in final, MemberDeceasedDate in final;
    var hasInLaw := InLawBirthName in final && HasAsciiUpper(final[InLawBirthName]) && HasAsciiLower(final[InLawBirthName]);
    if MemberBirthName !in final {
      return Err(KeyNotFound(GroupName(MemberBirthName)));
    }
    var pooled := PooledFields(pool, m.captures);
    if hasBirth && hasStart && !hasDeceased {
      var missingStartDate := pooled.Some? && pooled.value.deceasedDate == Some(Date(final[FamilyDynamicStartDate])) && hasInLaw;
      if missingStartDate || !hasInLaw {
        final := final[MemberDeceasedDate := final[FamilyDynamicStartDate]]
                 - {FamilyDynamicStartDate, InLawBirthName, InLawBirthDate, InLawDeceasedDate};
      }
    } else if hasBirth && !hasStart && !hasDeceased {
      var missingStartDate := pooled.Some? && pooled.value.birthDate == Some(Date(final[MemberBirthDate])) && hasInLaw;
      if !missingStartDate && hasInLaw {
        final := final[FamilyDynamicStartDate := final[MemberBirthDate]] - {MemberBirthDate};
      }
    } else if !hasBirth && !hasStart && !hasDeceased {
    } else if hasBirth && hasStart && hasDeceased {
    } else {
      return Err(InvalidData("Invalid Date Arrangement!!!"));
    }
    return Ok(final);
  }

  /** The value `BuildHeader` writes for a decomposed slot: the text, or an empty instance. */
  function Slot(dec: map<Group, string>, key: Group): BridgeInstance {
    if key in dec then Str(dec[key]) else Null
  }

  /** A `DefaultPerson` document with the three slots of one person written in. */
  function PersonDocument(dec: map<Group, string>, name: Group, birth: Group, deceased: Group): Document {
    map["birthName" := Slot(dec, name), "birthDate" := Slot(dec, birth), "deceasedDate" := Slot(dec, deceased)]
  }

  /** `obj` is the person document of three decomposed slots, attribute by attribute. */
  predicate FilledPerson(obj: Document, dec: map<Group, string>, name: Group, birth: Group, deceased: Group) {
    && obj.Keys == {"birthName", "birthDate", "deceasedDate"}
    && obj["birthName"] == Slot(dec, name)
    && obj["birthDate"] == Slot(dec, birth)
    && obj["deceasedDate"] == Slot(dec, deceased)
  }

  lemma FilledPersonIs(obj: Document, dec: map<Group, string>, name: Group, birth: Group, deceased: Group)
    requires FilledPerson(obj, dec, name, birth, deceased)
    ensures obj == PersonDocument(dec, name, birth, deceased)
  {
  }

  /** The family-dynamic document before its page title: the start date when one was decomposed. */
  function DynamicDocument(dec: map<Group, string>): Document {
    if FamilyDynamicStartDate in dec then map["familyDynamicStartDate" := Str(dec[FamilyDynamicStartDate])] else map[]
  }

  /** A person's fields as three decomposed slots give them. */
  function FieldsIn(dec: map<Group, string>, name: Group, birth: Group, deceased: Group): PersonFields
    requires name in dec
  {
    PersonFields(dec[name], DateOf(Slot(dec, birth)), DateOf(Slot(dec, deceased)))
  }

  /**
   * The line `BuildHeader` promises for a decomposition: at the given
   * coordinate, a member with the decomposed name and dates, an in-law
   * exactly when an in-law name was decomposed, and a family dynamic with a
   * start date exactly when one was decomposed and with the page title.
   */
  predicate HeaderLine(l: TemplateLines.TemplateLine, coordinate: Coordinates.Coordinate, dec: map<Group, string>)
    reads l.member, l.inLaw, l.familyDynamic
  {
    && l.coordinate == coordinate
    && TemplateLines.Renderable(l)
    && MemberBirthName in dec
    && Fields(l.member.document) == FieldsIn(dec, MemberBirthName, MemberBirthDate, MemberDeceasedDate)
    && (l.inLaw != null <==> InLawBirthName in dec)
    && (l.inLaw != null ==> Fields(l.inLaw.document) == FieldsIn(dec, InLawBirthName, InLawBirthDate, InLawDeceasedDate))
    && l.familyDynamic != null
    && (HasStartDate(l.familyDynamic.document) <==> FamilyDynamicStartDate in dec)
    && (FamilyDynamicStartDate in dec ==> l.familyDynamic.document["familyDynamicStartDate"] == Str(dec[FamilyDynamicStartDate]))
    && HasPageTitle(l.familyDynamic.document)
    && l.familyDynamic.document["pageTitle"].text
       == PageTitleOf(dec[MemberBirthName], if InLawBirthName in dec then Some(dec[InLawBirthName]) else None)
  }

  /**
   * What a built line keeps of its match whatever the pool held: it is the
   * line of the match's decomposition for some pooled namesake (which one
   * depends on the pool when the header is reached), so in particular it has
   * the coordinate, a member named as captured, and a family dynamic.
   */
  ghost predicate Built(l: TemplateLines.TemplateLine, coordinate: Coordinates.Coordinate, header: Match)
    reads l.member, l.inLaw, l.familyDynamic
  {
    && l.coordinate == coordinate
    && TemplateLines.Renderable(l)
    && l.familyDynamic != null
    && MemberBirthName in header.captures
    && Fields(l.member.document).name == header.captures[MemberBirthName]
    && DecomposedSomehow(l, coordinate, header.captures)
  }

  /**
   * The line holds the decomposition of the captures for the namesake its
   * dynamic shows: none when it has a start date, otherwise one whose dates
   * match the captured ones. By `DecomposeRecovered` that is the decomposition
   * for whatever namesake was pooled.
   */
  ghost predicate DecomposedSomehow(l: TemplateLines.TemplateLine, coordinate: Coordinates.Coordinate, captures: map<Group, string>)
    reads l.member, l.inLaw, l.familyDynamic
  {
    && l.familyDynamic != null
    && var pooled := if HasStartDate(l.familyDynamic.document) then None else MatchingNamesake(captures);
       Decompose(captures, pooled).Ok? && HeaderLine(l, coordinate, Decompose(captures, pooled).value)
  }

  /** A built line is the line of its header's decomposition for some pooled namesake. */
  lemma BuiltIsDecomposition(l: TemplateLines.TemplateLine, coordinate: Coordinates.Coordinate, header: Match)
    requires Built(l, coordinate, header)
    ensures exists pooled :: Decompose(header.captures, pooled).Ok?
                             && HeaderLine(l, coordinate, Decompose(header.captures, pooled).value)
  {
    var pooled := if HasStartDate(l.familyDynamic.document) then None else MatchingNamesake(header.captures);
    assert HeaderLine(l, coordinate, Decompose(header.captures, pooled).value);
  }

  /** A pooled namesake born on the captured birth date and dead on the captured start date. */
  function MatchingNamesake(captures: map<Group, string>): Option<PersonFields> {
    var final := Cleaned(captures);
    Some(PersonFields(
      if MemberBirthName in final then final[MemberBirthName] else "",
      if MemberBirthDate in final then Some(Date(final[MemberBirthDate])) else None,
      if FamilyDynamicStartDate in final then Some(Date(final[FamilyDynamicStartDate])) else None))
  }

  /**
   * The namesake only ever decides whether a start date is kept, and the
   * decomposition shows which way it went: without a start date it is the
   * one for a namesake whose dates match, with one the one for no namesake.
   */
  lemma {:induction false} DecomposeRecovered(captures: map<Group, string>, pooled: Option<PersonFields>)
    requires Decompose(captures, pooled).Ok?
    ensures var chosen := if FamilyDynamicStartDate in Decompose(captures, pooled).value then None
                          else MatchingNamesake(captures);
            Decompose(captures, chosen) == Decompose(captures, pooled)
  {
  }

  /**
   * The header decomposes with a start date whatever namesake is pooled:
   * even the namesake that could take the start date away leaves it.
   */
  predicate KeepsStart(captures: map<Group, string>) {
    && WellFormedHeader(captures)
    && var dec := Decompose(captures, MatchingNamesake(captures));
       dec.Ok? && FamilyDynamicStartDate in dec.value
  }

  /** The header decomposes with a start date when no namesake is pooled. */
  predicate ShowsStart(captures: map<Group, string>) {
    var dec := Decompose(captures, None);
    dec.Ok? && FamilyDynamicStartDate in dec.value
  }

  /** A header that keeps its start date has one for every pooled namesake, and so when none is pooled. */
  lemma {:induction false} KeepsStartForAny(captures: map<Group, string>, pooled: Option<PersonFields>)
    requires KeepsStart(captures)
    ensures Decompose(captures, pooled).Ok? && FamilyDynamicStartDate in Decompose(captures, pooled).value
    ensures ShowsStart(captures)
  {
    DecomposeFails(captures, pooled);
    if FamilyDynamicStartDate !in Decompose(captures, pooled).value {
      DecomposeRecovered(captures, pooled);
    }
    DecomposeFails(captures, None);
    if FamilyDynamicStartDate !in Decompose(captures, None).value {
      DecomposeRecovered(captures, None);
    }
  }

  /** A built line without a start date comes from a header that does not keep its start date. */
  lemma LineWithoutStart(l: TemplateLines.TemplateLine, coordinate: Coordinates.Coordinate, header: Match)
    requires Built(l, coordinate, header) && !TemplateLines.HasStart(l)
    ensures !KeepsStart(header.captures)
  {
  }

  /** A built line with a start date comes from a header that shows one when no namesake is pooled. */
  lemma LineWithStart(l: TemplateLines.TemplateLine, coordinate: Coordinates.Coordinate, header: Match)
    requires Built(l, coordinate, header) && TemplateLines.HasStart(l)
    ensures ShowsStart(header.captures)
  {
  }

  /** The documents `BuildHeader` fills from a decomposition, one slot at a time. */
  method FillDocuments(dec: map<Group, string>) returns (memberObj: Document, inLawObj: Document, familyDynamicObj: Document)
    ensures memberObj == PersonDocument(dec, MemberBirthName, MemberBirthDate, MemberDeceasedDate)
    ensures inLawObj == PersonDocument(dec, InLawBirthName, InLawBirthDate, InLawDeceasedDate)
    ensures familyDynamicObj == DynamicDocument(dec)
  {
    memberObj := map["birthName" := Null, "birthDate" := Null, "deceasedDate" := Null];
    inLawObj := map["birthName" := Null, "birthDate" := Null, "deceasedDate" := Null];
    familyDynamicObj := map[];
    var pending := dec.Keys;
    ghost var done: map<Group, string> := map[];
    while pending != {}
      invariant pending <= dec.Keys && done.Keys == dec.Keys - pending
      invariant forall k :: k in done ==> done[k] == dec[k]
      invariant FilledPerson(memberObj, done, MemberBirthName, MemberBirthDate, MemberDeceasedDate)
      invariant FilledPerson(inLawObj, done, InLawBirthName, InLawBirthDate, InLawDeceasedDate)
      invariant familyDynamicObj == DynamicDocument(done)
      decreases pending
    {
      var key :| key in pending;
      match key {
        case MemberBirthName => memberObj := memberObj["birthName" := Str(dec[key])];
        case MemberBirthDate => memberObj := memberObj["birthDate" := Str(dec[key])];
        case FamilyDynamicStartDate => familyDynamicObj := familyDynamicObj["familyDynamicStartDate" := Str(dec[key])];
        case MemberDeceasedDate => memberObj := memberObj["deceasedDate" := Str(dec[key])];
        case InLawBirthName => inLawObj := inLawObj["birthName" := Str(dec[key])];
        case InLawBirthDate => inLawObj := inLawObj["birthDate" := Str(dec[key])];
        case InLawDeceasedDate => inLawObj := inLawObj["deceasedDate" := Str(dec[key])];
        case Unnamed(_) =>
      }
      done := done[key := dec[key]];
      pending := pending - {key};
    }
    assert done == dec;
    FilledPersonIs(memberObj, dec, MemberBirthName, MemberBirthDate, MemberDeceasedDate);
    FilledPersonIs(inLawObj, dec, InLawBirthName, InLawBirthDate, InLawDeceasedDate);
  }

  /** A person document filled from a decomposed name has the decomposed fields. */
  lemma PersonDocumentFields(dec: map<Group, string>, name: Group, birth: Group, deceased: Group)
    requires name in dec
    ensures Hashable(PersonDocument(dec, name, birth, deceased))
    ensures Fields(PersonDocument(dec, name, birth, deceased)) == FieldsIn(dec, name, birth, deceased)
  {
  }

  /** The family-dynamic document `BuildHeader` creates: the start date when one was decomposed, and the title. */
  lemma DynamicDocumentFacts(dec: map<Group, string>, title: string, id: string)
    ensures var d := WithId(DynamicDocument(dec)["pageTitle" := Str(title)], id);
      && (HasStartDate(d) <==> FamilyDynamicStartDate in dec)
      && (FamilyDynamicStartDate in dec ==> d["familyDynamicStartDate"] == Str(dec[FamilyDynamicStartDate]))
      && HasPageTitle(d) && d["pageTitle"].text == title
  {
    assert "pageTitle" != "familyDynamicStartDate" by { assert "pageTitle"[0] != "familyDynamicStartDate"[0]; }
    assert "id" != "familyDynamicStartDate" by { assert "id"[0] != "familyDynamicStartDate"[0]; }
    assert "id" != "pageTitle" by { assert "id"[0] != "pageTitle"[0]; }
  }

  /** `GetPerson(people, new(obj, true))`: a person with a drawn id, made canonical through the pool. */
  method CanonicalPerson(pool: PersonPools.PersonPool, guids: Guids.GuidSource, obj: Document) returns (p: Person)
    requires pool.Valid() && Hashable(obj)
    modifies pool, guids
    ensures pool.Valid() && old(pool.people) <= pool.people
    ensures PersonPools.GrewBy(old(pool.people), pool.people, [p])
    ensures p in pool.people && Hashable(p.document) && Fields(p.document) == Fields(obj)
  {
    var id := guids.NewGuid();
    var created := Person.Create(obj, true, id);
    var pooled := pool.GetPerson(created.value);
    p := pooled.value;
    HashKeyDeterminesFields(p.document, created.value.document);
  }

  /** The member and, when a name was decomposed for one, the in-law of a line, both canonical. */
  method PeopleOf(pool: PersonPools.PersonPool, guids: Guids.GuidSource, dec: map<Group, string>,
                  memberObj: Document, inLawObj: Document)
    returns (member: Person, inLaw: Person?)
    requires pool.Valid() && MemberBirthName in dec
    requires memberObj == PersonDocument(dec, MemberBirthName, MemberBirthDate, MemberDeceasedDate)
    requires inLawObj == PersonDocument(dec, InLawBirthName, InLawBirthDate, InLawDeceasedDate)
    modifies pool, guids
    ensures pool.Valid() && old(pool.people) <= pool.people
    ensures PersonPools.GrewBy(old(pool.people), pool.people, TemplateLines.PersonsOf(member, inLaw))
    ensures member in pool.people && Hashable(member.document)
    ensures Fields(member.document) == FieldsIn(dec, MemberBirthName, MemberBirthDate, MemberDeceasedDate)
    ensures inLaw != null <==> InLawBirthName in dec
    ensures inLaw != null ==> inLaw in pool.people && Hashable(inLaw.document)
    ensures inLaw != null ==> Fields(inLaw.document) == FieldsIn(dec, InLawBirthName, InLawBirthDate, InLawDeceasedDate)
  {
    // The check for a missing member name never fails: the decomposition has one.
    assert memberObj["birthName"].Str?;
    PersonDocumentFields(dec, MemberBirthName, MemberBirthDate, MemberDeceasedDate);
    member := CanonicalPerson(pool, guids, memberObj);
    inLaw := null;
    if inLawObj["birthName"].Str? {
      PersonDocumentFields(dec, InLawBirthName, InLawBirthDate, InLawDeceasedDate);
      inLaw := CanonicalPerson(pool, guids, inLawObj);
    }
  }

  /** The family dynamic of a line: the page title named after the member and the in-law, and a drawn id. */
  method DynamicOf(guids: Guids.GuidSource, dec: map<Group, string>, familyDynamicObj: Document, member: Person, inLaw: Person?)
    returns (familyDynamic: FamilyDynamic)
    requires familyDynamicObj == DynamicDocument(dec)
    requires Hashable(member.document) && (inLaw != null ==> Hashable(inLaw.document))
    modifies guids
    ensures fresh(familyDynamic)
    ensures HasStartDate(familyDynamic.document) <==> FamilyDynamicStartDate in dec
    ensures FamilyDynamicStartDate in dec ==> familyDynamic.document["familyDynamicStartDate"] == Str(dec[FamilyDynamicStartDate])
    ensures HasPageTitle(familyDynamic.document)
    ensures familyDynamic.document["pageTitle"].text
            == PageTitleOf(Fields(member.document).name, if inLaw == null then None else Some(Fields(inLaw.document).name))
  {
    var title := PageTitleOf(member.BirthName(), if inLaw == null then None else Some(inLaw.BirthName()));
    var titled := familyDynamicObj["pageTitle" := Str(title)];
    var dynamicId := guids.NewGuid();
    DynamicDocumentFacts(dec, title, dynamicId);
    var created := FamilyDynamic.Create(titled, true, dynamicId);
    familyDynamic := created.value;
  }

  /**
   * The part of `BuildHeader` after the decomposition: the member and the
   * in-law made canonical through the pool, and the family dynamic with its
   * page title.
   */
  method LineOf(pool: PersonPools.PersonPool, guids: Guids.GuidSource, dec: map<Group, string>, coordinate: Coordinates.Coordinate)
    returns (l: TemplateLines.TemplateLine)
    requires pool.Valid() && MemberBirthName in dec
    modifies pool, guids
    ensures pool.Valid() && old(pool.people) <= pool.people
    ensures PersonPools.GrewBy(old(pool.people), pool.people, TemplateLines.PersonsOf(l.member, l.inLaw))
    ensures HeaderLine(l, coordinate, dec)
    ensures l.member in pool.people && (l.inLaw != null ==> l.inLaw in pool.people)
    ensures fresh(l.familyDynamic)
  {
    var memberObj, inLawObj, familyDynamicObj := FillDocuments(dec);
    var member, inLaw := PeopleOf(pool, guids, dec, memberObj, inLawObj);
    var familyDynamic := DynamicOf(guids, dec, familyDynamicObj, member, inLaw);
    l := TemplateLines.TemplateLine(coordinate, member, familyDynamic, inLaw);
  }

  /**
   * `BuildHeader`: decomposes the match and builds the line of the
   * decomposition. It fails exactly when the decomposition does.
   */
  method BuildHeader(pool: PersonPools.PersonPool, guids: Guids.GuidSource, header: Match, coordinate: Coordinates.Coordinate)
    returns (r: Result<TemplateLines.TemplateLine>)
    requires pool.Valid()
    modifies pool, guids
    ensures pool.Valid() && old(pool.people) <= pool.people
    ensures r.Ok? ==> PersonPools.GrewBy(old(pool.people), pool.people, TemplateLines.PersonsOf(r.value.member, r.value.inLaw))
    ensures r.Err? ==> pool.people == old(pool.people)
    ensures r.Ok? <==> WellFormedHeader(header.captures)
    ensures r.Err? ==> r == Err(Decompose(header.captures, old(PooledFields(pool, header.captures))).error)
    ensures r.Ok? ==>
      && HeaderLine(r.value, coordinate, Decompose(header.captures, old(PooledFields(pool, header.captures))).value)
      && r.value.member in pool.people
      && (r.value.inLaw != null ==> r.value.inLaw in pool.people)
      && fresh(r.value.familyDynamic)
    ensures r.Ok? ==> Built(r.value, coordinate, header)
  {
    ghost var pooled := PooledFields(pool, header.captures);
    DecomposeFails(header.captures, pooled);
    var decomposition := GetHeaderDecomposition(pool, header);
    if decomposition.Err? {
      return Err(decomposition.error);
    }
    DecomposeShape(header.captures, pooled);
    DecomposeRecovered(header.captures, pooled);
    var line := LineOf(pool, guids, decomposition.value, coordinate);
    r := Ok(line);
  }
}
