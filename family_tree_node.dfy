/**
 * `FamilyTreeNode`: the graph vertex joining a member, an optional in-law and
 * a family dynamic, with the family names the node belongs to. Guids are kept
 * as their text.
 */
module FamilyTreeNodes {
  import opened Wrappers
  import opened Strings
  import opened Bridge
  import DataUtils
  import InheritedFamilyNames

  /** A vertex value: a string, the list of family-name texts, or anything else. */
  datatype NodeValue = Text(text: string) | Names(names: seq<string>) | Other

  type Vertex = map<string, NodeValue>

  /** The attributes the map constructor demands. */
  const ExistingAttributes: set<string> := {"id", "inheritedFamilyNames", "memberId", "dynamicId"}

  /** The attributes a vertex keeps. */
  const Schema: set<string> := ExistingAttributes + {"inLawId"}

  /** The entries of `obj` whose key is in `keys`. */
  function Restrict(obj: Vertex, keys: set<string>): (r: Vertex)
    ensures r.Keys == obj.Keys * keys
    ensures forall k :: k in r ==> r[k] == obj[k]
  {
    map k | k in obj && k in keys :: obj[k]
  }

  /** `ListInheritedFamilyNames`: the text of every name, in the given order. */
  function ListInheritedFamilyNames(names: seq<InheritedFamilyNames.InheritedFamilyName>): (r: seq<string>)
    ensures |r| == |names|
    ensures forall i :: 0 <= i < |r| ==> r[i] == InheritedFamilyNames.Text(names[i])
  {
    seq(|names|, i requires 0 <= i < |names| => InheritedFamilyNames.Text(names[i]))
  }

  /** The vertex the typed constructors build. */
  function TypedVertex(id: string, names: seq<InheritedFamilyNames.InheritedFamilyName>, memberId: string,
                       dynamicId: string, inLawId: Option<string>): (r: Vertex)
    ensures r.Keys == ExistingAttributes + (if inLawId.Some? then {"inLawId"} else {})
    ensures r["id"] == Text(id) && r["memberId"] == Text(memberId) && r["dynamicId"] == Text(dynamicId)
    ensures r["inheritedFamilyNames"] == Names(ListInheritedFamilyNames(names))
    ensures inLawId.Some? ==> r["inLawId"] == Text(inLawId.value)
  {
    var v := map["id" := Text(id), "inheritedFamilyNames" := Names(ListInheritedFamilyNames(names)),
                 "memberId" := Text(memberId), "dynamicId" := Text(dynamicId)];
    if inLawId.Some? then v["inLawId" := Text(inLawId.value)] else v
  }

  /** `order` lists every name of `s` once. */
  predicate Enumerates(order: seq<InheritedFamilyNames.InheritedFamilyName>, s: set<InheritedFamilyNames.InheritedFamilyName>) {
    |order| == |s| && (forall x :: x in order ==> x in s) && (forall x :: x in s ==> x in order)
  }

  /** The string attributes `Equals`, `GetHashCode` and `ToString` read. */
  predicate Readable(v: Vertex) {
    && "id" in v && v["id"].Text?
    && "memberId" in v && v["memberId"].Text?
    && "dynamicId" in v && v["dynamicId"].Text?
    && "inheritedFamilyNames" in v && v["inheritedFamilyNames"].Names?
    && ("inLawId" in v ==> v["inLawId"].Text?)
  }

  function InLawIdOf(v: Vertex): Option<string>
    requires "inLawId" in v ==> v["inLawId"].Text?
  {
    if "inLawId" in v then Some(v["inLawId"].text) else None
  }

  /**
   * `InheritedFamilyNames`: every stored text parsed by the constructor as
   * written and gathered by `ToHashSet`; the first text that does not parse
   * throws. Parsed ids are never negative, so `Equals` on them is equality of
   * name and id and the hash set is a set of values.
   */
  function ParseNames(texts: seq<string>): (r: Result<set<InheritedFamilyNames.InheritedFamilyName>>)
    ensures r.Ok? ==> |r.value| <= |texts|
    ensures r.Ok? ==> forall n :: n in r.value ==> 0 <= n.id <= Int32Max && NoneIn(n.name, {'-'})
    decreases |texts|
  {
    if texts == [] then Ok({})
    else
      var head :- InheritedFamilyNames.ParseAsWritten(Str(texts[0]));
      var tail :- ParseNames(texts[1..]);
      Ok({head} + tail)
  }

  /** One step of the getter: a parsed head joins the parsed rest. */
  lemma ParseNamesCons(texts: seq<string>, head: InheritedFamilyNames.InheritedFamilyName,
                       tail: set<InheritedFamilyNames.InheritedFamilyName>)
    requires texts != [] && InheritedFamilyNames.ParseAsWritten(Str(texts[0])) == Ok(head)
    requires ParseNames(texts[1..]) == Ok(tail)
    ensures ParseNames(texts) == Ok({head} + tail)
  {
  }

  /** Names without a hyphen and with non-negative 32-bit ids, listed and parsed back, give the set of the names. */
  lemma {:induction false} ParseListedNames(names: seq<InheritedFamilyNames.InheritedFamilyName>)
    requires forall i :: 0 <= i < |names| ==> 0 <= names[i].id <= Int32Max && NoneIn(names[i].name, {'-'})
    ensures ParseNames(ListInheritedFamilyNames(names)) == Ok(set n | n in names)
    decreases |names|
  {
    var texts := ListInheritedFamilyNames(names);
    if names == [] {
      assert texts == [];
      assert (set n | n in names) == {};
    } else {
      InheritedFamilyNames.ParseAsWrittenInstance(names[0]);
      assert Str(texts[0]) == InheritedFamilyNames.Instance(names[0]);
      assert texts[1..] == ListInheritedFamilyNames(names[1..]);
      ParseListedNames(names[1..]);
      ParseNamesCons(texts, names[0], set n | n in names[1..]);
      SetOfCons(names);
    }
  }

  /** The names of a non-empty list are its first name and the names of the rest. */
  lemma SetOfCons(names: seq<InheritedFamilyNames.InheritedFamilyName>)
    requires names != []
    ensures (set n | n in names) == {names[0]} + (set n | n in names[1..])
  {
    var whole := set n | n in names;
    var parts := {names[0]} + (set n | n in names[1..]);
    forall n | n in whole
      ensures n in parts
    {
      var i :| 0 <= i < |names| && names[i] == n;
      if i > 0 {
        assert names[1..][i - 1] == n;
      }
    }
    forall n | n in parts
      ensures n in whole
    {
      if n != names[0] {
        var i :| 0 <= i < |names| - 1 && names[1..][i] == n;
        assert names[i + 1] == n;
      }
    }
  }

  /** A hyphenated family name never reads back: the getter throws, or returns other names. */
  lemma ListedHyphenatedNameLost(names: seq<InheritedFamilyNames.InheritedFamilyName>, i: nat)
    requires i < |names| && !NoneIn(names[i].name, {'-'})
    ensures ParseNames(ListInheritedFamilyNames(names)) != Ok(set n | n in names)
  {
    assert names[i] in (set n | n in names);
  }

  /** Two texts that parse to the same name give a one-name set. */
  lemma ParseTwoAlike(a: string, b: string, n: InheritedFamilyNames.InheritedFamilyName)
    requires InheritedFamilyNames.ParseAsWritten(Str(a)) == Ok(n)
    requires InheritedFamilyNames.ParseAsWritten(Str(b)) == Ok(n)
    ensures ParseNames([a, b]) == Ok({n})
  {
    var texts := [a, b];
    assert texts[1..] == [b] && [b][1..] == [];
    ParseNamesCons([b], n, {});
    ParseNamesCons(texts, n, {n});
    assert {n} + {n} == {n};
  }

  /** "Smith-" followed by `digits` reads as Smith with the digits' value. */
  lemma ParseSmith(digits: string, id: int)
    requires digits != [] && AllDigits(digits) && DigitsValue(digits) == id && id <= Int32Max
    ensures InheritedFamilyNames.ParseAsWritten(Str("Smith-" + digits)) == Ok(InheritedFamilyNames.InheritedFamilyName("Smith", id))
  {
    InheritedFamilyNames.ParseAsWrittenDigits("Smith", digits);
    assert "Smith" + "-" + digits == "Smith-" + digits;
  }

  /** Texts that differ may read back as one name, and the hash set keeps it once. */
  lemma EqualNamesCollapse()
    ensures ParseNames(["Smith-7", "Smith-07"]) == Ok({InheritedFamilyNames.InheritedFamilyName("Smith", 7)})
  {
    ParseSmith("7", 7);
    ParseSmith("07", 7);
    assert "Smith-" + "7" == "Smith-7" && "Smith-" + "07" == "Smith-07";
    ParseTwoAlike("Smith-7", "Smith-07", InheritedFamilyNames.InheritedFamilyName("Smith", 7));
  }

  /** `s.TrimEnd(c)`. */
  function TrimEndChar(s: string, c: char): (r: string)
    ensures r <= s && (r == [] || r[|r| - 1] != c)
    ensures forall i :: |r| <= i < |s| ==> s[i] == c
    decreases |s|
  {
    if s != [] && s[|s| - 1] == c then TrimEndChar(s[..|s| - 1], c) else s
  }

  /** The text `ToString` builds from the parts a vertex holds. */
  function RenderParts(id: string, names: seq<string>, memberId: string, inLawId: Option<string>, dynamicId: string): string {
    var representation := id + " -> Inherited Family Names: " + "{" + Join(names, ",") + "}; " + "Member Id: " + memberId + ";";
    var withInLaw := if inLawId.Some? then representation + " In-Law Id: " + inLawId.value + ";" else representation;
    TrimEndChar(withInLaw + " Dynamic Id: " + dynamicId, ';')
  }

  /**
   * The in-law part is present in the text exactly when an in-law id is:
   * with one, the text is the text without it with " In-Law Id: I;" put
   * after the member part.
   */
  lemma RenderInLawPart(id: string, names: seq<string>, memberId: string, inLawId: string, dynamicId: string)
    requires dynamicId != [] && dynamicId[|dynamicId| - 1] != ';'
    ensures var head := id + " -> Inherited Family Names: " + "{" + Join(names, ",") + "}; " + "Member Id: " + memberId + ";";
      && RenderParts(id, names, memberId, None, dynamicId) == head + " Dynamic Id: " + dynamicId
      && RenderParts(id, names, memberId, Some(inLawId), dynamicId)
         == head + " In-Law Id: " + inLawId + ";" + " Dynamic Id: " + dynamicId
  {
  }

  class FamilyTreeNode {
    var vertex: Vertex

    constructor FromVertex(vertex: Vertex)
      ensures this.vertex == vertex
    {
      this.vertex := vertex;
    }

    /**
     * The map constructor: throws `MissingRequiredAttributeException` naming
     * the missing required attributes, otherwise keeps exactly the schema's
     * entries.
     */
    static method Create(nodeObj: Vertex) returns (r: Result<FamilyTreeNode>)
      ensures r.Err? <==> !(ExistingAttributes <= nodeObj.Keys)
      ensures r.Err? ==> r.error == MissingRequiredAttribute(ExistingAttributes - nodeObj.Keys)
      ensures r.Ok? ==> fresh(r.value) && r.value.vertex == Restrict(nodeObj, Schema)
    {
      var validation := DataUtils.ValidateRequiredAttributes(ExistingAttributes, nodeObj.Keys);
      if validation.Fail? {
        return Err(validation.error);
      }
      var node := new FamilyTreeNode.FromVertex(Restrict(nodeObj, Schema));
      return Ok(node);
    }

    /** The typed constructors, the id `Guid.NewGuid()` would draw given as `id`. */
    constructor Typed(id: string, names: seq<InheritedFamilyNames.InheritedFamilyName>, memberId: string,
                      dynamicId: string, inLawId: Option<string>)
      ensures vertex == TypedVertex(id, names, memberId, dynamicId, inLawId)
    {
      vertex := TypedVertex(id, names, memberId, dynamicId, inLawId);
    }

    /** `Copy`: the map constructor over the same vertex. */
    method Copy() returns (c: Result<FamilyTreeNode>)
      ensures c.Ok? <==> ExistingAttributes <= vertex.Keys
      ensures c.Ok? ==> fresh(c.value) && c.value.vertex == Restrict(vertex, Schema)
    {
      c := Create(vertex);
    }

    function Id(): string
      reads this
      requires "id" in vertex && vertex["id"].Text?
    {
      vertex["id"].text
    }

    function MemberId(): string
      reads this
      requires "memberId" in vertex && vertex["memberId"].Text?
    {
      vertex["memberId"].text
    }

    function DynamicId(): string
      reads this
      requires "dynamicId" in vertex && vertex["dynamicId"].Text?
    {
      vertex["dynamicId"].text
    }

    /** The `InLawId` getter: null when the key is absent. */
    function InLawId(): Option<string>
      reads this
      requires "inLawId" in vertex ==> vertex["inLawId"].Text?
    {
      InLawIdOf(vertex)
    }

    /** The `InLawId` setter: writes the key for a value, removes it for null. */
    method SetInLawId(value: Option<string>)
      modifies this
      ensures value.Some? ==> vertex == old(vertex)["inLawId" := Text(value.value)]
      ensures value.None? ==> vertex == old(vertex) - {"inLawId"}
      ensures InLawId() == value
    {
      if value.Some? {
        vertex := vertex["inLawId" := Text(value.value)];
      } else {
        vertex := vertex - {"inLawId"};
      }
    }

    /** The `InheritedFamilyNames` getter. */
    function InheritedFamilyNames(): Result<set<InheritedFamilyNames.InheritedFamilyName>>
      reads this
      requires "inheritedFamilyNames" in vertex && vertex["inheritedFamilyNames"].Names?
    {
      ParseNames(vertex["inheritedFamilyNames"].names)
    }

    /**
     * The `InheritedFamilyNames` setter; `value` is the given set in its
     * enumeration order. The getter reads the names back only when none has
     * a hyphen and every id is a non-negative 32-bit value.
     */
    method SetInheritedFamilyNames(value: seq<InheritedFamilyNames.InheritedFamilyName>)
      modifies this
      ensures vertex == old(vertex)["inheritedFamilyNames" := Names(ListInheritedFamilyNames(value))]
      ensures (forall i :: 0 <= i < |value| ==> 0 <= value[i].id <= Int32Max && NoneIn(value[i].name, {'-'}))
              ==> InheritedFamilyNames() == Ok(set n | n in value)
      ensures (exists i :: 0 <= i < |value| && !NoneIn(value[i].name, {'-'}))
              ==> InheritedFamilyNames() != Ok(set n | n in value)
    {
      vertex := vertex["inheritedFamilyNames" := Names(ListInheritedFamilyNames(value))];
      if forall i :: 0 <= i < |value| ==> 0 <= value[i].id <= Int32Max && NoneIn(value[i].name, {'-'}) {
        ParseListedNames(value);
      }
      if i :| 0 <= i < |value| && !NoneIn(value[i].name, {'-'}) {
        ListedHyphenatedNameLost(value, i);
      }
    }

    /** `Equals(FamilyTreeNode?)`: member, in-law and dynamic ids agree. */
    predicate Equals(other: FamilyTreeNode?)
      reads this, other
      requires Readable(vertex) && (other != null ==> Readable(other.vertex))
    {
      other != null && MemberId() == other.MemberId() && InLawId() == other.InLawId() && DynamicId() == other.DynamicId()
    }

    /**
     * `ToString`. The family names are read through the getter, so a text
     * that does not parse throws; the hash set is then listed in its
     * enumeration order, which is unspecified and given as `order`.
     */
    function ToString(order: seq<InheritedFamilyNames.InheritedFamilyName>): (r: Result<string>)
      reads this
      requires Readable(vertex)
      requires InheritedFamilyNames().Ok? ==> Enumerates(order, InheritedFamilyNames().value)
      ensures r.Ok? <==> InheritedFamilyNames().Ok?
    {
      if InheritedFamilyNames().Err? then Err(InheritedFamilyNames().error)
      else Ok(RenderParts(Id(), ListInheritedFamilyNames(order), MemberId(), InLawId(), DynamicId()))
    }
  }

  /** The two vertices agree on every schema attribute outside `ignored`. */
  predicate SameOutside(v: Vertex, w: Vertex, ignored: set<string>) {
    forall k :: k in Schema && k !in ignored ==> (k in v <==> k in w) && (k in v ==> v[k] == w[k])
  }

  /**
   * Node equality is an equivalence on non-null nodes, is false against null,
   * and ignores the node id and the family names.
   */
  lemma EqualsEquivalence(a: FamilyTreeNode, b: FamilyTreeNode, c: FamilyTreeNode)
    requires Readable(a.vertex) && Readable(b.vertex) && Readable(c.vertex)
    ensures a.Equals(a) && !a.Equals(null)
    ensures a.Equals(b) ==> b.Equals(a)
    ensures a.Equals(b) && b.Equals(c) ==> a.Equals(c)
    ensures SameOutside(a.vertex, b.vertex, {"id", "inheritedFamilyNames"}) ==> a.Equals(b)
  {
  }
}
