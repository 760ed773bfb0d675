/**
 * The .NET string operations the core relies on: white space, `Trim`, `Split`,
 * `string.Join`, decimal formatting and `Convert.ToInt32`, the `\s+` collapse
 * and the ASCII letter tests of the header patterns.
 */
module Strings {
  import opened Wrappers

  const EnDash: char := '\U{2013}'
  const EmDash: char := '\U{2014}'
  const Int32Max: int := 2147483647
  const Int32Min: int := -2147483648

  /** The characters that both `\s` and `char.IsWhiteSpace` accept. */
  predicate IsWhiteSpace(c: char) {
    || c == ' ' || ('\t' <= c <= '\r') || c == '\U{85}' || c == '\U{A0}' || c == '\U{1680}'
    || ('\U{2000}' <= c <= '\U{200A}') || c == '\U{2028}' || c == '\U{2029}'
    || c == '\U{202F}' || c == '\U{205F}' || c == '\U{3000}'
  }

  predicate AllWhiteSpace(s: string) {
    forall i :: 0 <= i < |s| ==> IsWhiteSpace(s[i])
  }

  /** Neither the first nor the last character is white space. */
  predicate IsTrimmed(s: string) {
    s == [] || (!IsWhiteSpace(s[0]) && !IsWhiteSpace(s[|s| - 1]))
  }

  /** `TrimStart()`: the suffix left after the leading white space. */
  function TrimStart(s: string): (r: string)
    ensures |r| <= |s| && r == s[|s| - |r|..]
    ensures r == [] || !IsWhiteSpace(r[0])
    ensures AllWhiteSpace(s[..|s| - |r|])
    decreases |s|
  {
    if s != [] && IsWhiteSpace(s[0]) then
      var r := TrimStart(s[1..]);
      assert s[..|s| - |r|] == [s[0]] + s[1..][..|s| - 1 - |r|];
      r
    else
      s
  }

  /** `TrimEnd()`: the prefix left before the trailing white space. */
  function TrimEnd(s: string): (r: string)
    ensures |r| <= |s| && r == s[..|r|]
    ensures r == [] || !IsWhiteSpace(r[|r| - 1])
    ensures AllWhiteSpace(s[|r|..])
    decreases |s|
  {
    if s != [] && IsWhiteSpace(s[|s| - 1]) then
      var r := TrimEnd(s[..|s| - 1]);
      assert s[|r|..] == s[..|s| - 1][|r|..] + [s[|s| - 1]];
      r
    else
      s
  }

  /** `Trim()`. */
  function Trim(s: string): (r: string)
    ensures IsTrimmed(r)
    ensures |r| <= |s|
  {
    TrimEnd(TrimStart(s))
  }

  lemma {:induction false} TrimStartOf(w: string, t: string)
    requires AllWhiteSpace(w)
    requires t == [] || !IsWhiteSpace(t[0])
    ensures TrimStart(w + t) == t
    decreases |w|
  {
    if w != [] {
      assert (w + t)[1..] == w[1..] + t;
      TrimStartOf(w[1..], t);
    }
  }

  lemma {:induction false} TrimEndOf(t: string, w: string)
    requires AllWhiteSpace(w)
    requires t == [] || !IsWhiteSpace(t[|t| - 1])
    ensures TrimEnd(t + w) == t
    decreases |w|
  {
    if w != [] {
      assert (t + w)[..|t + w| - 1] == t + w[..|w| - 1];
      TrimEndOf(t, w[..|w| - 1]);
    }
  }

  /** Trimming a trimmed text padded with white space gives the text back. */
  lemma {:induction false} TrimAround(pre: string, m: string, post: string)
    requires AllWhiteSpace(pre) && AllWhiteSpace(post) && IsTrimmed(m)
    ensures Trim(pre + m + post) == m
  {
    if m == [] {
      assert pre + m + post == (pre + post) + [];
      TrimStartOf(pre + post, []);
    } else {
      assert pre + m + post == pre + (m + post);
      TrimStartOf(pre, m + post);
      TrimEndOf(m, post);
    }
  }

  lemma TrimTrimmed(m: string)
    requires IsTrimmed(m)
    ensures Trim(m) == m
  {
    TrimAround([], m, []);
    assert [] + m + [] == m;
  }

  predicate NoneIn(s: string, separators: set<char>) {
    forall i :: 0 <= i < |s| ==> s[i] !in separators
  }

  function CountIn(s: string, separators: set<char>): nat
    decreases |s|
  {
    if s == [] then 0 else (if s[0] in separators then 1 else 0) + CountIn(s[1..], separators)
  }

  /** `s.Split(separators)`: the pieces between separator characters, empty pieces kept. */
  function Split(s: string, separators: set<char>): (r: seq<string>)
    ensures |r| == CountIn(s, separators) + 1
    ensures forall i :: 0 <= i < |r| ==> NoneIn(r[i], separators)
    decreases |s|
  {
    if s == [] then [[]]
    else
      var rest := Split(s[1..], separators);
      if s[0] in separators then [[]] + rest
      else [[s[0]] + rest[0]] + rest[1..]
  }

  lemma {:induction false} SplitPlain(x: string, separators: set<char>)
    requires NoneIn(x, separators)
    ensures Split(x, separators) == [x]
    decreases |x|
  {
    if x != [] {
      SplitPlain(x[1..], separators);
      assert x == [x[0]] + x[1..];
    }
  }

  lemma {:induction false} SplitAfterChunk(x: string, c: char, y: string, separators: set<char>)
    requires NoneIn(x, separators) && c in separators
    ensures Split(x + [c] + y, separators) == [x] + Split(y, separators)
    decreases |x|
  {
    if x == [] {
      assert x + [c] + y == [c] + y;
      assert ([c] + y)[1..] == y;
    } else {
      assert (x + [c] + y)[1..] == x[1..] + [c] + y;
      SplitAfterChunk(x[1..], c, y, separators);
      assert [x[0]] + x[1..] == x;
    }
  }

  /** chunks[0] + [cs[0]] + chunks[1] + ... + [cs[n-1]] + chunks[n]. */
  function Weave(chunks: seq<string>, cs: seq<char>): string
    requires |chunks| == |cs| + 1
    decreases |cs|
  {
    if cs == [] then chunks[0] else chunks[0] + [cs[0]] + Weave(chunks[1..], cs[1..])
  }

  /** Splitting separator-free chunks woven with separators gives the chunks back. */
  lemma {:induction false} SplitWeave(chunks: seq<string>, cs: seq<char>, separators: set<char>)
    requires |chunks| == |cs| + 1
    requires forall i :: 0 <= i < |chunks| ==> NoneIn(chunks[i], separators)
    requires forall i :: 0 <= i < |cs| ==> cs[i] in separators
    ensures Split(Weave(chunks, cs), separators) == chunks
    decreases |cs|
  {
    if cs == [] {
      SplitPlain(chunks[0], separators);
    } else {
      SplitWeave(chunks[1..], cs[1..], separators);
      SplitAfterChunk(chunks[0], cs[0], Weave(chunks[1..], cs[1..]), separators);
      assert [chunks[0]] + chunks[1..] == chunks;
    }
  }

  /** `string.Join(separator, parts)`. */
  function Join(parts: seq<string>, separator: string): string
    decreases |parts|
  {
    if parts == [] then [] else if |parts| == 1 then parts[0] else parts[0] + separator + Join(parts[1..], separator)
  }

  /** Joining one more part appends the separator and that part. */
  lemma {:induction false} JoinSnoc(parts: seq<string>, x: string, separator: string)
    requires parts != []
    ensures Join(parts + [x], separator) == Join(parts, separator) + separator + x
    decreases |parts|
  {
    if |parts| == 1 {
      assert (parts + [x])[1..] == [x];
    } else {
      assert (parts + [x])[1..] == parts[1..] + [x];
      JoinSnoc(parts[1..], x, separator);
    }
  }

  /** Joining on one character is weaving with that character between every two parts. */
  lemma {:induction false} JoinIsWeave(parts: seq<string>, c: char)
    requires parts != []
    ensures Join(parts, [c]) == Weave(parts, seq(|parts| - 1, _ => c))
    decreases |parts|
  {
    if |parts| > 1 {
      JoinIsWeave(parts[1..], c);
      assert seq(|parts| - 1, _ => c)[1..] == seq(|parts[1..]| - 1, _ => c);
    }
  }

  /** Splitting a join on its separator gives the parts back. */
  lemma SplitJoin(parts: seq<string>, c: char)
    requires parts != []
    requires forall i :: 0 <= i < |parts| ==> NoneIn(parts[i], {c})
    ensures Split(Join(parts, [c]), {c}) == parts
  {
    JoinIsWeave(parts, c);
    SplitWeave(parts, seq(|parts| - 1, _ => c), {c});
  }

  predicate IsDigit(c: char) { '0' <= c <= '9' }

  predicate AllDigits(s: string) {
    forall i :: 0 <= i < |s| ==> IsDigit(s[i])
  }

  function DigitsValue(s: string): nat
    requires AllDigits(s)
    decreases |s|
  {
    if s == [] then 0 else DigitsValue(s[..|s| - 1]) * 10 + (s[|s| - 1] as int - '0' as int)
  }

  /** The decimal text of `n`, as `int.ToString()` writes a non-negative value. */
  function NatToString(n: nat): (r: string)
    ensures r != [] && AllDigits(r)
    ensures DigitsValue(r) == n
    decreases n
  {
    var d := ('0' as int + n % 10) as char;
    if n < 10 then
      assert [d][..0] == [];
      [d]
    else
      var r := NatToString(n / 10) + [d];
      assert r[..|r| - 1] == NatToString(n / 10);
      r
  }

  /** `int.ToString()`. */
  function IntToString(i: int): string {
    if i < 0 then "-" + NatToString(-i) else NatToString(i)
  }

  /** The white space `Convert.ToInt32` skips around a number: tab to carriage return, and the space. */
  predicate IsNumberWhite(c: char) {
    '\t' <= c <= '\r' || c == ' '
  }

  predicate AllNumberWhite(s: string) {
    forall i :: 0 <= i < |s| ==> IsNumberWhite(s[i])
  }

  /** The text left once the number white space at both ends is dropped. */
  function TrimNumberWhite(s: string): (r: string)
    ensures r == [] || (!IsNumberWhite(r[0]) && !IsNumberWhite(r[|r| - 1]))
    decreases |s|
  {
    if s != [] && IsNumberWhite(s[0]) then TrimNumberWhite(s[1..])
    else if s != [] && IsNumberWhite(s[|s| - 1]) then TrimNumberWhite(s[..|s| - 1])
    else s
  }

  /** Trimming keeps only characters of the text. */
  lemma {:induction false} TrimNumberWhiteChars(s: string, c: char)
    requires c in TrimNumberWhite(s)
    ensures c in s
    decreases |s|
  {
    if s != [] && IsNumberWhite(s[0]) {
      TrimNumberWhiteChars(s[1..], c);
    } else if s != [] && IsNumberWhite(s[|s| - 1]) {
      TrimNumberWhiteChars(s[..|s| - 1], c);
    }
  }

  /** The sign and digits `Convert.ToInt32` reads once the white space around them is gone. */
  function ParseSignedDigits(t: string): (r: Result<int>)
    ensures r.Ok? ==> Int32Min <= r.value <= Int32Max
    ensures r.Ok? && r.value < 0 ==> t != [] && t[0] == '-'
  {
    var signed := t != [] && (t[0] == '+' || t[0] == '-');
    var digits := if signed then t[1..] else t;
    if digits == [] || !AllDigits(digits) then Err(FormatError)
    else
      var magnitude: int := DigitsValue(digits);
      var value := if signed && t[0] == '-' then -magnitude else magnitude;
      if value < Int32Min || value > Int32Max then Err(OverflowError) else Ok(value)
  }

  /**
   * `Convert.ToInt32(s)`, which reads `NumberStyles.Integer`: number white
   * space at either end, an optional '+' or '-', then at least one decimal
   * digit. Any other text throws `FormatException`; a value outside the
   * 32-bit range throws `OverflowException`.
   */
  function ParseInt32(s: string): (r: Result<int>)
    ensures r.Ok? ==> Int32Min <= r.value <= Int32Max
    ensures r.Err? ==> r.error == FormatError || r.error == OverflowError
  {
    ParseSignedDigits(TrimNumberWhite(s))
  }

  /** Only a text with a minus sign parses to a negative value. */
  lemma ParseWithoutMinus(s: string)
    requires NoneIn(s, {'-'})
    ensures ParseInt32(s).Ok? ==> ParseInt32(s).value >= 0
  {
    var t := TrimNumberWhite(s);
    if ParseInt32(s).Ok? && ParseInt32(s).value < 0 {
      TrimNumberWhiteChars(s, t[0]);
      assert false;
    }
  }

  lemma {:induction false} TrimNumberWhiteStart(w: string, m: string)
    requires AllNumberWhite(w)
    requires m == [] || (!IsNumberWhite(m[0]) && !IsNumberWhite(m[|m| - 1]))
    ensures TrimNumberWhite(w + m) == m
    decreases |w|
  {
    if w != [] {
      assert (w + m)[1..] == w[1..] + m;
      TrimNumberWhiteStart(w[1..], m);
    } else {
      assert w + m == m;
    }
  }

  lemma {:induction false} TrimNumberWhiteAround(pre: string, m: string, post: string)
    requires AllNumberWhite(pre) && AllNumberWhite(post)
    requires m != [] && !IsNumberWhite(m[0]) && !IsNumberWhite(m[|m| - 1])
    ensures TrimNumberWhite(pre + m + post) == m
    decreases |pre|, |post|
  {
    if pre != [] {
      assert (pre + m + post)[1..] == pre[1..] + m + post;
      TrimNumberWhiteAround(pre[1..], m, post);
    } else if post != [] {
      assert pre + m + post == m + post;
      assert (m + post)[..|m + post| - 1] == pre + m + post[..|post| - 1];
      TrimNumberWhiteAround(pre, m, post[..|post| - 1]);
    } else {
      TrimNumberWhiteStart([], m);
      assert pre + m + post == [] + m;
    }
  }

  /** Parsing the decimal text of a 32-bit value gives the value back. */
  lemma ParseNatToString(n: nat)
    requires n <= Int32Max
    ensures ParseInt32(NatToString(n)) == Ok(n)
  {
    ParseDigitsOnly(NatToString(n));
  }

  /** A run of decimal digits parses to its value, leading zeros included. */
  lemma ParseDigitsOnly(t: string)
    requires t != [] && AllDigits(t) && DigitsValue(t) <= Int32Max
    ensures ParseInt32(t) == Ok(DigitsValue(t))
  {
    assert !IsNumberWhite(t[0]) && !IsNumberWhite(t[|t| - 1]);
    assert TrimNumberWhite(t) == t;
    assert !(t[0] == '+' || t[0] == '-');
  }

  /** Parsing `int.ToString()` of any 32-bit value gives the value back. */
  lemma ParseIntToString(i: int)
    requires Int32Min <= i <= Int32Max
    ensures ParseInt32(IntToString(i)) == Ok(i)
  {
    if i >= 0 {
      ParseNatToString(i);
    } else {
      var t := IntToString(i);
      assert t == "-" + NatToString(-i);
      TrimNumberWhiteStart([], t);
      assert [] + t == t;
      assert t[1..] == NatToString(-i);
    }
  }

  /** The parse reads only what is left between the number white space. */
  lemma ParseWhiteAround(pre: string, m: string, post: string)
    requires AllNumberWhite(pre) && AllNumberWhite(post)
    requires m != [] && !IsNumberWhite(m[0]) && !IsNumberWhite(m[|m| - 1])
    ensures ParseInt32(pre + m + post) == ParseInt32(m)
  {
    TrimNumberWhiteAround(pre, m, post);
    TrimNumberWhiteStart([], m);
    assert [] + m == m;
  }

  /** An explicit '+' before the digits does not change the value. */
  lemma ParsePlus(n: nat)
    requires n <= Int32Max
    ensures ParseInt32("+" + NatToString(n)) == Ok(n)
  {
    var plus := "+" + NatToString(n);
    TrimNumberWhiteStart([], plus);
    assert [] + plus == plus;
    assert plus[1..] == NatToString(n);
  }

  /**
   * A number may carry white space around it and an explicit '+': both are
   * accepted and do not change the value.
   */
  lemma ParseInt32Padded(pre: string, n: nat, post: string)
    requires AllNumberWhite(pre) && AllNumberWhite(post) && n <= Int32Max
    ensures ParseInt32(pre + NatToString(n) + post) == Ok(n)
    ensures ParseInt32(pre + "+" + NatToString(n) + post) == Ok(n)
  {
    ParsePaddedDigits(pre, NatToString(n), post);
    ParseNatToString(n);
    ParsePaddedPlus(pre, NatToString(n), post);
    ParsePlus(n);
  }

  lemma ParsePaddedDigits(pre: string, t: string, post: string)
    requires AllNumberWhite(pre) && AllNumberWhite(post) && t != [] && AllDigits(t)
    ensures ParseInt32(pre + t + post) == ParseInt32(t)
  {
    ParseWhiteAround(pre, t, post);
  }

  lemma ParsePaddedPlus(pre: string, t: string, post: string)
    requires AllNumberWhite(pre) && AllNumberWhite(post) && t != [] && AllDigits(t)
    ensures ParseInt32(pre + "+" + t + post) == ParseInt32("+" + t)
  {
    var plus := "+" + t;
    assert plus[|plus| - 1] == t[|t| - 1];
    ParseWhiteAround(pre, plus, post);
    assert pre + "+" + t + post == pre + plus + post;
  }

  /** Every white-space character is a space and none follows another. */
  predicate IsCollapsed(s: string) {
    forall i :: 0 <= i < |s| && IsWhiteSpace(s[i]) ==> s[i] == ' ' && (i + 1 < |s| ==> !IsWhiteSpace(s[i + 1]))
  }

  /** `Regex.Replace(s, @"\s+", " ")`: every run of white space becomes one space. */
  function CollapseWhiteSpace(s: string): (r: string)
    ensures IsCollapsed(r)
    ensures r == [] <==> s == []
    ensures s != [] && !IsWhiteSpace(s[0]) ==> r[0] == s[0]
    ensures s != [] && IsWhiteSpace(s[0]) ==> r[0] == ' '
    decreases |s|
  {
    if s == [] then []
    else if IsWhiteSpace(s[0]) then
      var t := TrimStart(s);
      " " + CollapseWhiteSpace(t)
    else
      [s[0]] + CollapseWhiteSpace(s[1..])
  }

  /** A collapsed text is left as it is: collapsing is idempotent. */
  lemma {:induction false} CollapseCollapsed(s: string)
    requires IsCollapsed(s)
    ensures CollapseWhiteSpace(s) == s
    decreases |s|
  {
    if s != [] {
      assert IsCollapsed(s[1..]) by {
        forall i | 0 <= i < |s[1..]| && IsWhiteSpace(s[1..][i])
          ensures s[1..][i] == ' ' && (i + 1 < |s[1..]| ==> !IsWhiteSpace(s[1..][i + 1]))
        {
          assert s[1..][i] == s[i + 1];
        }
      }
      CollapseCollapsed(s[1..]);
      HeadAndTail(s);
      if IsWhiteSpace(s[0]) {
        TrimStartOf([s[0]], s[1..]);
      }
    }
  }

  /** The text with every white-space character taken out, in order. */
  function NonWhite(s: string): (r: string)
    ensures |r| <= |s|
    ensures forall i :: 0 <= i < |r| ==> !IsWhiteSpace(r[i])
    decreases |s|
  {
    if s == [] then [] else (if IsWhiteSpace(s[0]) then [] else [s[0]]) + NonWhite(s[1..])
  }

  lemma {:induction false} NonWhiteAppend(a: string, b: string)
    ensures NonWhite(a + b) == NonWhite(a) + NonWhite(b)
    decreases |a|
  {
    if a != [] {
      assert (a + b)[0] == a[0] && (a + b)[1..] == a[1..] + b;
      NonWhiteAppend(a[1..], b);
    } else {
      assert a + b == b;
    }
  }

  lemma {:induction false} NonWhiteOfWhite(w: string)
    requires AllWhiteSpace(w)
    ensures NonWhite(w) == []
    decreases |w|
  {
    if w != [] {
      NonWhiteOfWhite(w[1..]);
    }
  }

  /** `TrimStart()` and `TrimEnd()` take out white space only: the other characters stay, in order. */
  lemma TrimKeepsText(s: string)
    ensures NonWhite(TrimStart(s)) == NonWhite(s)
    ensures NonWhite(TrimEnd(s)) == NonWhite(s)
  {
    TrimStartKeepsText(s);
    TrimEndKeepsText(s);
  }

  lemma TrimStartKeepsText(s: string)
    ensures NonWhite(TrimStart(s)) == NonWhite(s)
  {
    var t := TrimStart(s);
    var w := s[..|s| - |t|];
    assert s == w + t;
    NonWhiteAppend(w, t);
    NonWhiteOfWhite(w);
  }

  lemma TrimEndKeepsText(s: string)
    ensures NonWhite(TrimEnd(s)) == NonWhite(s)
  {
    var e := TrimEnd(s);
    var w := s[|e|..];
    assert s == e + w;
    NonWhiteAppend(e, w);
    NonWhiteOfWhite(w);
  }

  /** Collapsing changes only the white space: the other characters stay, in order. */
  lemma {:induction false} CollapseKeepsText(s: string)
    ensures NonWhite(CollapseWhiteSpace(s)) == NonWhite(s)
    decreases |s|
  {
    if s != [] {
      if IsWhiteSpace(s[0]) {
        var t := TrimStart(s);
        CollapseKeepsText(t);
        TrimKeepsText(s);
        assert (" " + CollapseWhiteSpace(t))[1..] == CollapseWhiteSpace(t);
      } else {
        CollapseKeepsText(s[1..]);
        assert ([s[0]] + CollapseWhiteSpace(s[1..]))[1..] == CollapseWhiteSpace(s[1..]);
      }
    }
  }

  // Sequence facts stated over an element type the solver cannot look into.

  lemma HeadAndTail<T>(s: seq<T>)
    requires s != []
    ensures [s[0]] + s[1..] == s
  {
  }

  lemma Associate<T>(a: seq<T>, b: seq<T>, c: seq<T>)
    ensures a + (b + c) == a + b + c
  {
  }

  /** A sequence one longer than `a`, agreeing with it, and ending in `x`. */
  lemma SnocOf<T>(r: seq<T>, a: seq<T>, x: T)
    requires |r| == |a| + 1 && r[|a|] == x
    requires forall i :: 0 <= i < |a| ==> r[i] == a[i]
    ensures r == a + [x]
  {
  }

  /** Every slice of a collapsed text is collapsed. */
  lemma CollapsedSlice(s: string, i: nat, j: nat)
    requires IsCollapsed(s) && i <= j <= |s|
    ensures IsCollapsed(s[i..j])
  {
    forall k | 0 <= k < |s[i..j]| && IsWhiteSpace(s[i..j][k])
      ensures s[i..j][k] == ' ' && (k + 1 < |s[i..j]| ==> !IsWhiteSpace(s[i..j][k + 1]))
    {
      assert s[i..j][k] == s[i + k];
      if k + 1 < |s[i..j]| { assert s[i..j][k + 1] == s[i + k + 1]; }
    }
  }

  /** The white-space normalisation of a page: collapse the runs, then `Trim()`. */
  function NormalizeSpace(s: string): (r: string)
    ensures IsCollapsed(r) && IsTrimmed(r)
  {
    NormalizedShape(CollapseWhiteSpace(s));
    TrimEnd(TrimStart(CollapseWhiteSpace(s)))
  }

  /** Normalising changes only the white space: the other characters stay, in order. */
  lemma NormalizeKeepsText(s: string)
    ensures NonWhite(NormalizeSpace(s)) == NonWhite(s)
  {
    var c := CollapseWhiteSpace(s);
    CollapseKeepsText(s);
    TrimKeepsText(c);
    TrimKeepsText(TrimStart(c));
  }

  /** Trimming both ends of a collapsed text keeps it collapsed and leaves it trimmed. */
  lemma NormalizedShape(c: string)
    requires IsCollapsed(c)
    ensures IsCollapsed(TrimEnd(TrimStart(c))) && IsTrimmed(TrimEnd(TrimStart(c)))
  {
    var t := TrimStart(c);
    CollapsedSlice(c, |c| - |t|, |c|);
    CollapsedSlice(t, 0, |TrimEnd(t)|);
    TrimEndKeepsStart(t);
  }

  /** Trimming the end of a text that starts with no white space leaves it trimmed at both ends. */
  lemma TrimEndKeepsStart(t: string)
    requires t == [] || !IsWhiteSpace(t[0])
    ensures IsTrimmed(TrimEnd(t))
  {
    var r := TrimEnd(t);
    if r != [] {
      assert r[0] == t[0];
    }
  }

  predicate HasAsciiUpper(s: string) {
    exists i :: 0 <= i < |s| && 'A' <= s[i] <= 'Z'
  }

  predicate HasAsciiLower(s: string) {
    exists i :: 0 <= i < |s| && 'a' <= s[i] <= 'z'
  }

  /** Counting separators distributes over concatenation. */
  lemma {:induction false} CountInAppend(a: string, b: string, separators: set<char>)
    ensures CountIn(a + b, separators) == CountIn(a, separators) + CountIn(b, separators)
    decreases |a|
  {
    if a == [] {
      assert a + b == b;
    } else {
      assert (a + b)[0] == a[0] && (a + b)[1..] == a[1..] + b;
      CountInAppend(a[1..], b, separators);
    }
  }

  /** A text without separators counts none. */
  lemma {:induction false} CountInNone(s: string, separators: set<char>)
    requires NoneIn(s, separators)
    ensures CountIn(s, separators) == 0
    decreases |s|
  {
    if s != [] {
      CountInNone(s[1..], separators);
    }
  }

  /** White space holds no character that is not white space. */
  lemma WhiteSpaceHasNone(s: string, separators: set<char>)
    requires AllWhiteSpace(s) && forall c :: c in separators ==> !IsWhiteSpace(c)
    ensures CountIn(s, separators) == 0
  {
    CountInNone(s, separators);
  }

  /** Collapsing white space keeps every character that is not white space, so it keeps their count. */
  lemma {:induction false} CollapseKeepsCount(s: string, separators: set<char>)
    requires forall c :: c in separators ==> !IsWhiteSpace(c)
    ensures CountIn(CollapseWhiteSpace(s), separators) == CountIn(s, separators)
    decreases |s|
  {
    if s != [] {
      if IsWhiteSpace(s[0]) {
        var t := TrimStart(s);
        CollapseKeepsCount(t, separators);
        CountInAppend(" ", CollapseWhiteSpace(t), separators);
        TrimStartKeepsCount(s, separators);
      } else {
        CollapseKeepsCount(s[1..], separators);
        CountInAppend([s[0]], CollapseWhiteSpace(s[1..]), separators);
      }
    }
  }

  /** Trimming the start removes white space only, so it keeps the count of characters that are not white space. */
  lemma TrimStartKeepsCount(s: string, separators: set<char>)
    requires forall c :: c in separators ==> !IsWhiteSpace(c)
    ensures CountIn(TrimStart(s), separators) == CountIn(s, separators)
  {
    var t := TrimStart(s);
    var w := s[..|s| - |t|];
    assert s == w + t;
    CountInAppend(w, t, separators);
    WhiteSpaceHasNone(w, separators);
  }

  /** The same for trimming the end. */
  lemma TrimEndKeepsCount(s: string, separators: set<char>)
    requires forall c :: c in separators ==> !IsWhiteSpace(c)
    ensures CountIn(TrimEnd(s), separators) == CountIn(s, separators)
  {
    var e := TrimEnd(s);
    var w := s[|e|..];
    assert s == e + w;
    CountInAppend(e, w, separators);
    WhiteSpaceHasNone(w, separators);
  }

  /** `NormalizeSpace` keeps every character that is not white space in count. */
  lemma NormalizeKeepsCount(s: string, separators: set<char>)
    requires forall c :: c in separators ==> !IsWhiteSpace(c)
    ensures CountIn(NormalizeSpace(s), separators) == CountIn(s, separators)
  {
    var c := CollapseWhiteSpace(s);
    CollapseKeepsCount(s, separators);
    TrimStartKeepsCount(c, separators);
    TrimEndKeepsCount(TrimStart(c), separators);
  }

  /** Every character of `s` is one of `allowed`. */
  predicate CharsIn(s: string, allowed: set<char>) {
    forall i :: 0 <= i < |s| ==> s[i] in allowed
  }

  /** Joining parts made of allowed characters with an allowed separator gives allowed characters only. */
  lemma {:induction false} JoinCharsIn(parts: seq<string>, separator: string, allowed: set<char>)
    requires forall k :: 0 <= k < |parts| ==> CharsIn(parts[k], allowed)
    requires CharsIn(separator, allowed)
    ensures CharsIn(Join(parts, separator), allowed)
    decreases |parts|
  {
    if |parts| > 1 {
      JoinCharsIn(parts[1..], separator, allowed);
    }
  }
}
