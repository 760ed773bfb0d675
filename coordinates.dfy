/**
 * `HierarchialCoordinate`: the position of a header in the family tree, one
 * sibling index per generation, 1-based as the engine numbers them. Only `Child`, `Sibling` and the text
 * form `[1.2.1]` are used by the template engine.
 */
module Coordinates {
  import opened Wrappers
  import opened Strings

  type Coordinate = seq<int>

  /** The coordinate of the first header of the first generation. */
  const Root: Coordinate := [1]

  /** `Child`: the first child of the node at `c`. */
  function Child(c: Coordinate): (r: Coordinate)
    ensures |r| == |c| + 1 && r[..|c|] == c && r[|c|] == 1
  {
    c + [1]
  }

  /** `Sibling`: the next node of the same generation under the same parent. */
  function Sibling(c: Coordinate): (r: Coordinate)
    requires |c| > 0
    ensures |r| == |c| && r[..|c| - 1] == c[..|c| - 1] && r[|c| - 1] == c[|c| - 1] + 1
  {
    c[..|c| - 1] + [c[|c| - 1] + 1]
  }

  /** `Sibling` applied `k` times. */
  function SiblingN(c: Coordinate, k: nat): Coordinate
    requires |c| > 0
    decreases k
  {
    if k == 0 then c else Sibling(SiblingN(c, k - 1))
  }

  /** The k-th sibling keeps the parent's path and adds k to the last index. */
  lemma {:induction false} SiblingNShape(c: Coordinate, k: nat)
    requires |c| > 0
    ensures |SiblingN(c, k)| == |c|
    ensures SiblingN(c, k) == c[..|c| - 1] + [c[|c| - 1] + k]
    decreases k
  {
    if k == 0 {
      assert c == c[..|c| - 1] + [c[|c| - 1]];
    } else {
      SiblingNShape(c, k - 1);
    }
  }

  /** The children of the node at `c` are numbered 1, 2, ... below `c`. */
  lemma ChildSiblings(c: Coordinate, k: nat)
    ensures SiblingN(Child(c), k) == c + [1 + k]
  {
    SiblingNShape(Child(c), k);
    assert Child(c)[..|c|] == c;
  }

  /** The decimal labels of a coordinate. */
  function Labels(c: Coordinate): (r: seq<string>)
    ensures |r| == |c|
    ensures forall i :: 0 <= i < |r| ==> r[i] == IntToString(c[i])
  {
    seq(|c|, i requires 0 <= i < |c| => IntToString(c[i]))
  }

  /** The dotted form between the brackets, as in "1.2.1". */
  function Dotted(c: Coordinate): string {
    Join(Labels(c), ".")
  }

  /** The text of a coordinate, "[1.2.1]". The form is assumed: the type's own `ToString` is not part of this model. */
  function Render(c: Coordinate): string {
    "[" + Dotted(c) + "]"
  }

  /** `Convert.ToInt32` of every label, the first failure winning. */
  function ParseLabels(labels: seq<string>): (r: Result<Coordinate>)
    ensures r.Ok? ==> |r.value| == |labels|
    decreases |labels|
  {
    if labels == [] then Ok([])
    else
      var head :- ParseInt32(labels[0]);
      var tail :- ParseLabels(labels[1..]);
      Ok([head] + tail)
  }

  /** The parse succeeds exactly when every label parses, and then holds each label's value. */
  lemma {:induction false} ParseLabelsEach(labels: seq<string>)
    ensures ParseLabels(labels).Ok? <==> forall i :: 0 <= i < |labels| ==> ParseInt32(labels[i]).Ok?
    ensures ParseLabels(labels).Ok? ==> forall i :: 0 <= i < |labels| ==> ParseInt32(labels[i]) == Ok(ParseLabels(labels).value[i])
    decreases |labels|
  {
    if labels != [] {
      ParseLabelsEach(labels[1..]);
      forall i | 0 < i < |labels| ensures labels[i] == labels[1..][i - 1] {
      }
    }
  }

  /** A failing parse throws the exception of the first label that does not parse. */
  lemma {:induction false} ParseLabelsFirstFailure(labels: seq<string>)
    requires ParseLabels(labels).Err?
    ensures exists i :: 0 <= i < |labels| && ParseInt32(labels[i]) == Err(ParseLabels(labels).error)
                        && forall j :: 0 <= j < i ==> ParseInt32(labels[j]).Ok?
    decreases |labels|
  {
    if ParseInt32(labels[0]).Ok? {
      ParseLabelsFirstFailure(labels[1..]);
      var i :| 0 <= i < |labels[1..]| && ParseInt32(labels[1..][i]) == Err(ParseLabels(labels[1..]).error)
               && forall j :: 0 <= j < i ==> ParseInt32(labels[1..][j]).Ok?;
      assert ParseInt32(labels[i + 1]) == Err(ParseLabels(labels).error);
      assert forall j :: 0 <= j < i + 1 ==> ParseInt32(labels[j]).Ok? by {
        forall j | 0 <= j < i + 1 ensures ParseInt32(labels[j]).Ok? {
          if j > 0 {
            assert labels[j] == labels[1..][j - 1];
          }
        }
      }
    }
  }

  /** `text.Split('.').Select(label => Convert.ToInt32(label))`. */
  function Parse(text: string): Result<Coordinate> {
    ParseLabels(Split(text, {'.'}))
  }

  predicate FitsInt32(c: Coordinate) {
    forall i :: 0 <= i < |c| ==> Int32Min <= c[i] <= Int32Max
  }

  lemma {:induction false} ParseLabelsOfLabels(c: Coordinate)
    requires FitsInt32(c)
    ensures ParseLabels(Labels(c)) == Ok(c)
    decreases |c|
  {
    if c != [] {
      ParseIntToString(c[0]);
      assert Labels(c)[1..] == Labels(c[1..]);
      ParseLabelsOfLabels(c[1..]);
      assert [c[0]] + c[1..] == c;
    }
  }

  /** Parsing the dotted form of a non-empty coordinate gives the coordinate back. */
  lemma ParseDotted(c: Coordinate)
    requires |c| > 0 && FitsInt32(c)
    ensures Parse(Dotted(c)) == Ok(c)
  {
    var labels := Labels(c);
    forall i | 0 <= i < |labels| ensures NoneIn(labels[i], {'.'}) {
      IntToStringChars(c[i]);
    }
    SplitJoin(labels, '.');
    ParseLabelsOfLabels(c);
  }

  /** The characters of a dotted coordinate. */
  const DottedChars: set<char> := {'0', '1', '2', '3', '4', '5', '6', '7', '8', '9', '-', '.'}

  /** The text of an integer is digits after an optional minus sign. */
  lemma IntToStringChars(i: int)
    ensures CharsIn(IntToString(i), DottedChars - {'.'})
  {
    var t := IntToString(i);
    if i < 0 {
      assert t == "-" + NatToString(-i);
      assert AllDigits(NatToString(-i));
    } else {
      assert AllDigits(t);
    }
  }

  /** A dotted coordinate is made of digits, minus signs and dots only. */
  lemma DottedIsNumeric(c: Coordinate)
    ensures CharsIn(Dotted(c), DottedChars)
  {
    var labels := Labels(c);
    forall k | 0 <= k < |labels| ensures CharsIn(labels[k], DottedChars) {
      IntToStringChars(c[k]);
    }
    JoinCharsIn(labels, ".", DottedChars);
  }
}
