/** `InheritedFamilyName`: a family name and a number, stored as the text "Name-Id". */
module InheritedFamilyNames {
  import opened Wrappers
  import opened Strings
  import opened Bridge

  datatype InheritedFamilyName = InheritedFamilyName(name: string, id: int)

  /** `Text`: the name, a hyphen and the decimal id. */
  function Text(n: InheritedFamilyName): string {
    n.name + "-" + IntToString(n.id)
  }

  /** `Instance`: the text as a string instance. */
  function Instance(n: InheritedFamilyName): BridgeInstance {
    Str(Text(n))
  }

  /**
   * The parsing constructor as written: the name is the piece before the first
   * hyphen and the id the integer parse of the second piece; an index past the
   * pieces throws `IndexOutOfRangeException`.
   */
  function ParseAsWritten(instance: BridgeInstance): (r: Result<InheritedFamilyName>)
    ensures r.Ok? ==> 0 <= r.value.id <= Int32Max && NoneIn(r.value.name, {'-'})
  {
    var text :- AsString(instance);
    var segments := Split(text, {'-'});
    if |segments| < 2 then Err(IndexOutOfRange)
    else
      var id :- ParseInt32(segments[1]);
      ParseWithoutMinus(segments[1]);
      Ok(InheritedFamilyName(segments[0], id))
  }

  /** The position of the last occurrence of `c` in `s`. */
  function LastIndexOf(s: string, c: char): (r: Option<nat>)
    ensures r.Some? ==> r.value < |s| && s[r.value] == c && NoneIn(s[r.value + 1..], {c})
    ensures r.None? ==> NoneIn(s, {c})
    decreases |s|
  {
    if s == [] then None
    else if s[|s| - 1] == c then Some(|s| - 1)
    else
      var r := LastIndexOf(s[..|s| - 1], c);
      assert r.Some? ==> s[r.value + 1..] == s[..|s| - 1][r.value + 1..] + [s[|s| - 1]];
      r
  }

  /**
   * The parsing constructor corrected: the id is the text after the last
   * hyphen and the name everything before it, so a hyphenated family name
   * survives.
   */
  function Parse(instance: BridgeInstance): (r: Result<InheritedFamilyName>)
    ensures r.Ok? ==> r.value.id >= 0
  {
    var text :- AsString(instance);
    match LastIndexOf(text, '-')
    case None => Err(IndexOutOfRange)
    case Some(i) =>
      var id :- ParseInt32(text[i + 1..]);
      ParseWithoutMinus(text[i + 1..]);
      Ok(InheritedFamilyName(text[..i], id))
  }

  lemma NatToStringHasNoHyphen(n: nat)
    ensures NoneIn(NatToString(n), {'-'})
  {
    assert AllDigits(NatToString(n));
  }

  /** Parsing the instance of a name whose id fits and is not negative gives the name back, whatever its text. */
  lemma ParseInstance(n: InheritedFamilyName)
    requires 0 <= n.id <= Int32Max
    ensures Parse(Instance(n)) == Ok(n)
  {
    var digits := NatToString(n.id);
    var text := Text(n);
    assert text == n.name + "-" + digits;
    NatToStringHasNoHyphen(n.id);
    LastIndexAfter(n.name, digits);
    assert text[..|n.name|] == n.name;
    assert text[|n.name| + 1..] == digits;
    ParseNatToString(n.id);
  }

  lemma {:induction false} LastIndexAfter(x: string, y: string)
    requires NoneIn(y, {'-'})
    ensures LastIndexOf(x + "-" + y, '-') == Some(|x|)
    decreases |y|
  {
    var s := x + "-" + y;
    if y != [] {
      assert s[..|s| - 1] == x + "-" + y[..|y| - 1];
      LastIndexAfter(x, y[..|y| - 1]);
    }
  }

  /** The as-written parse round-trips for a name without a hyphen. */
  lemma ParseAsWrittenInstance(n: InheritedFamilyName)
    requires 0 <= n.id <= Int32Max && NoneIn(n.name, {'-'})
    ensures ParseAsWritten(Instance(n)) == Ok(n)
  {
    var digits := NatToString(n.id);
    NatToStringHasNoHyphen(n.id);
    SplitAfterChunk(n.name, '-', digits, {'-'});
    assert Text(n) == n.name + ['-'] + digits;
    SplitPlain(digits, {'-'});
    ParseNatToString(n.id);
  }

  /** A hyphen-free name, a hyphen and digits: the as-written parse reads them apart. */
  lemma ParseAsWrittenDigits(name: string, digits: string)
    requires NoneIn(name, {'-'}) && digits != [] && AllDigits(digits) && DigitsValue(digits) <= Int32Max
    ensures ParseAsWritten(Str(name + "-" + digits)) == Ok(InheritedFamilyName(name, DigitsValue(digits)))
  {
    assert NoneIn(digits, {'-'});
    SplitAfterChunk(name, '-', digits, {'-'});
    assert name + "-" + digits == name + ['-'] + digits;
    SplitPlain(digits, {'-'});
    ParseDigitsOnly(digits);
  }

  lemma SplitTwoHyphens(x: string, y: string, z: string)
    requires NoneIn(x, {'-'}) && NoneIn(y, {'-'}) && NoneIn(z, {'-'})
    ensures Split(x + "-" + y + "-" + z, {'-'}) == [x, y, z]
  {
    assert x + "-" + y + "-" + z == x + ['-'] + (y + ['-'] + z);
    SplitAfterChunk(x, '-', y + ['-'] + z, {'-'});
    SplitAfterChunk(y, '-', z, {'-'});
    SplitPlain(z, {'-'});
  }

  /** A hyphenated family name does not survive the as-written parse. */
  lemma ParseAsWrittenLosesHyphenatedName()
    ensures ParseAsWritten(Instance(InheritedFamilyName("Smith-Jones", 7))) == Err(FormatError)
  {
    var seven := NatToString(7);
    assert seven == "7";
    assert Text(InheritedFamilyName("Smith-Jones", 7)) == "Smith" + "-" + "Jones" + "-" + seven;
    SplitTwoHyphens("Smith", "Jones", seven);
    ParseWordFails("Jones");
  }

  /** A word that starts with a letter is no number. */
  lemma ParseWordFails(word: string)
    requires word != [] && 'A' <= word[0] <= 'Z' && 'a' <= word[|word| - 1] <= 'z'
    ensures ParseInt32(word) == Err(FormatError)
  {
    TrimNumberWhiteStart([], word);
    assert [] + word == word;
    assert !IsDigit(word[0]);
  }

  /** `Equals` and `==`: the texts agree. */
  predicate Equals(a: InheritedFamilyName, b: InheritedFamilyName) {
    Text(a) == Text(b)
  }

  /** `!=`. */
  predicate NotEquals(a: InheritedFamilyName, b: InheritedFamilyName) {
    !Equals(a, b)
  }

  /** For ids that fit and are not negative, equal texts mean equal names and ids. */
  lemma EqualsIsFieldEquality(a: InheritedFamilyName, b: InheritedFamilyName)
    requires 0 <= a.id <= Int32Max && 0 <= b.id <= Int32Max
    ensures Equals(a, b) <==> a == b
    ensures NotEquals(a, b) <==> a != b
  {
    ParseInstance(a);
    ParseInstance(b);
  }

  /** With a negative id, two different names share one text. */
  lemma NegativeIdsCollide()
    ensures Equals(InheritedFamilyName("a-", 1), InheritedFamilyName("a", -1))
  {
    assert NatToString(1) == "1";
  }
}
