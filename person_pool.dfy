/**
 * The set of persons a generator or reader has met, and `GetPerson`, which
 * makes every person it is given canonical: an equal person already pooled is
 * returned instead of the new one. The set is a `HashSet`: a person is found
 * when its hash and `Equals` agree with a pooled one.
 */
module PersonPools {
  import opened Wrappers
  import opened Bridge
  import opened Persons
  import TemplateLines

  /** `HashSet.Add` finds `y` pooled as `x`: same hash, and `Equals`, given as `same`. */
  predicate Matches(x: Document, y: Document, same: (Document, Document) -> bool) {
    HashKeyOf(x).Ok? && HashKeyOf(x) == HashKeyOf(y) && same(x, y)
  }

  /** The position of the first pooled document `d` matches, if any. */
  function FindIndex(documents: seq<Document>, d: Document, same: (Document, Document) -> bool): (r: Option<nat>)
    ensures r.Some? ==> r.value < |documents| && Matches(documents[r.value], d, same)
    ensures r.Some? ==> forall j :: 0 <= j < r.value ==> !Matches(documents[j], d, same)
    ensures r.None? ==> forall j :: 0 <= j < |documents| ==> !Matches(documents[j], d, same)
    decreases |documents|
  {
    if documents == [] then None
    else if Matches(documents[0], d, same) then Some(0)
    else
      var r := FindIndex(documents[1..], d, same);
      if r.Some? then Some(r.value + 1) else None
  }

  /** Every person `Equals` itself, which is all `GetPerson` needs of `Equals`. */
  ghost predicate Reflexive(same: (Document, Document) -> bool) {
    forall d :: same(d, d)
  }

  /** No two pooled documents match each other, and every one of them hashes. */
  predicate Distinct(documents: seq<Document>, same: (Document, Document) -> bool) {
    && (forall i :: 0 <= i < |documents| ==> Hashable(documents[i]))
    && (forall i, j :: 0 <= i < j < |documents| ==> !Matches(documents[i], documents[j], same))
  }

  /**
   * What `GetPerson` does to a pool of documents: the hash of the new
   * person fails, or the position of the canonical person after the call
   * and the pool after the call.
   */
  function Resolve(documents: seq<Document>, d: Document, same: (Document, Document) -> bool): Result<(nat, seq<Document>)>
  {
    var _ :- HashKeyOf(d);
    match FindIndex(documents, d, same)
    case Some(i) => Ok((i, documents))
    case None => Ok((|documents|, documents + [d]))
  }

  /**
   * After a successful call the canonical person is pooled, matches the
   * given one, the pool grew by at most that person, and it is still
   * distinct.
   */
  lemma {:induction false} ResolveKeepsDistinct(documents: seq<Document>, d: Document, same: (Document, Document) -> bool)
    requires Reflexive(same) && Distinct(documents, same)
    requires Resolve(documents, d, same).Ok?
    ensures var (i, after) := Resolve(documents, d, same).value;
      && i < |after| && Matches(after[i], d, same)
      && after[..|documents|] == documents && |after| <= |documents| + 1
      && Distinct(after, same)
  {
    var (i, after) := Resolve(documents, d, same).value;
    if FindIndex(documents, d, same).None? {
      assert after[|documents|] == d;
      forall j, k | 0 <= j < k < |after| ensures !Matches(after[j], after[k], same) {
        if k == |documents| {
          assert after[j] == documents[j];
        }
      }
    }
  }

  /**
   * Resolving a second person equal to the first changes nothing more and
   * gives the same canonical person.
   */
  lemma {:induction false} ResolveIdempotent(documents: seq<Document>, d: Document, e: Document,
                                             same: (Document, Document) -> bool)
    requires TemplateLines.Equivalence(same) && Distinct(documents, same)
    requires Resolve(documents, d, same).Ok?
    requires Matches(d, e, same)
    ensures var (i, after) := Resolve(documents, d, same).value;
      Resolve(after, e, same) == Ok((i, after))
  {
    var (i, after) := Resolve(documents, d, same).value;
    ResolveKeepsDistinct(documents, d, same);
    assert Matches(after[i], e, same);
    var found := FindIndex(after, e, same);
    assert found.Some?;
  }

  class PersonPool {
    var people: seq<Person>
    /** The documents of `people`, position by position. */
    ghost var documents: seq<Document>
    /** The `Equals` of persons, over their documents. */
    const same: (Document, Document) -> bool

    /** `new HashSet<Person>()` over the given `Equals`. */
    constructor(same: (Document, Document) -> bool)
      requires Reflexive(same)
      ensures people == [] && this.same == same && Valid()
    {
      this.people := [];
      this.documents := [];
      this.same := same;
    }

    function Documents(): (r: seq<Document>)
      reads this, set p | p in people
      ensures |r| == |people| && forall i :: 0 <= i < |people| ==> r[i] == people[i].document
    {
      DocumentsOf(people)
    }

    /** Every pooled person hashes, and no two pooled persons match: the set holds no duplicates. */
    ghost predicate Valid()
      reads this, set p | p in people
    {
      && |documents| == |people|
      && (forall i :: 0 <= i < |people| ==> people[i].document == documents[i])
      && Reflexive(same)
      && Distinct(documents, same)
    }

    /**
     * `FamilyTreeUtils.GetPerson`: adds `p` when no equal person is pooled and
     * returns it, otherwise returns the pooled person and leaves the pool
     * alone; the hash of `p` throws for a missing attribute.
     */
    method GetPerson(p: Person) returns (r: Result<Person>)
      requires Valid()
      modifies this
      ensures Valid()
      ensures Resolve(old(Documents()), p.document, same).Err? ==>
        r == Err(Resolve(old(Documents()), p.document, same).error) && people == old(people)
      ensures Resolve(old(Documents()), p.document, same).Ok? ==>
        var (i, after) := Resolve(old(Documents()), p.document, same).value;
        && r.Ok? && i < |people| && r.value == people[i]
        && (i < |old(people)| ==> people == old(people))
        && (i == |old(people)| ==> people == old(people) + [p] && r.value == p)
      ensures r.Ok? ==> Matches(r.value.document, p.document, same)
      ensures GrewBy(old(people), people, [p])
      ensures r.Ok? ==> GrewBy(old(people), people, [r.value])
    {
      var documents := Documents();
      assert documents == this.documents;
      var hash := HashKeyOf(p.document);
      if hash.Err? {
        return Err(hash.error);
      }
      ResolveKeepsDistinct(documents, p.document, same);
      var found := FindIndex(documents, p.document, same);
      if found.Some? {
        r := Ok(people[found.value]);
      } else {
        people := people + [p];
        this.documents := documents + [p.document];
        assert Documents() == documents + [p.document];
        r := Ok(p);
      }
    }

    /**
     * `people.FirstOrDefault(person => person.BirthName == name)`, enumerating
     * the pool in the order its persons were added.
     */
    function FirstByName(name: string): (r: Option<Person>)
      reads this, set p | p in people
      requires Valid()
      ensures r.Some? ==> r.value in people && Fields(r.value.document).name == name
      ensures r.Some? ==> exists i :: 0 <= i < |people| && people[i] == r.value && NoneNamedBefore(people, i, name)
      ensures r.None? ==> forall i :: 0 <= i < |people| ==> Fields(people[i].document).name != name
    {
      FirstByNameIn(people, name)
    }
  }

  /**
   * `after` is `before` with persons added at the end, each one of `added`
   * and no more of them than `added` lists: how a pool grows.
   */
  predicate GrewBy(before: seq<Person>, after: seq<Person>, added: seq<Person?>) {
    && |before| <= |after| <= |before| + |added|
    && after[..|before|] == before
    && forall i :: |before| <= i < |after| ==> after[i] in added
  }

  /** Growing by `xs` and then by `ys` is growing by `xs + ys`. */
  lemma GrewByThen(a: seq<Person>, b: seq<Person>, c: seq<Person>, xs: seq<Person?>, ys: seq<Person?>)
    requires GrewBy(a, b, xs) && GrewBy(b, c, ys)
    ensures GrewBy(a, c, xs + ys)
  {
    assert c[..|a|] == c[..|b|][..|a|];
    forall i | |a| <= i < |c| ensures c[i] in xs + ys {
      if i < |b| {
        assert c[i] == c[..|b|][i] == b[i];
      }
    }
  }

  /** The documents of `people`, in order. */
  function DocumentsOf(people: seq<Person>): (r: seq<Document>)
    reads set p | p in people
    ensures |r| == |people| && forall i :: 0 <= i < |people| ==> r[i] == people[i].document
    decreases |people|
  {
    if people == [] then [] else [people[0].document] + DocumentsOf(people[1..])
  }

  /** No person before position `i` of `people` has the birth name `name`. */
  ghost predicate NoneNamedBefore(people: seq<Person>, i: int, name: string)
    reads set p | p in people
    requires 0 <= i <= |people|
    requires forall j :: 0 <= j < |people| ==> Hashable(people[j].document)
  {
    forall j :: 0 <= j < i ==> Fields(people[j].document).name != name
  }

  /** The first person of `people`, in order, with the birth name `name`. */
  function FirstByNameIn(people: seq<Person>, name: string): (r: Option<Person>)
    reads set p | p in people
    requires forall i :: 0 <= i < |people| ==> Hashable(people[i].document)
    ensures r.Some? ==> r.value in people && Fields(r.value.document).name == name
    ensures r.Some? ==> exists i :: 0 <= i < |people| && people[i] == r.value && NoneNamedBefore(people, i, name)
    ensures r.None? ==> forall i :: 0 <= i < |people| ==> Fields(people[i].document).name != name
    decreases |people|
  {
    if people == [] then None
    else if Fields(people[0].document).name == name then
      assert NoneNamedBefore(people, 0, name);
      Some(people[0])
    else
      var r := FirstByNameIn(people[1..], name);
      assert r.Some? ==> exists i :: 0 <= i < |people| && people[i] == r.value && NoneNamedBefore(people, i, name) by {
        if r.Some? {
          var i :| 0 <= i < |people[1..]| && people[1..][i] == r.value && NoneNamedBefore(people[1..], i, name);
          assert NoneNamedBefore(people, i + 1, name);
        }
      }
      r
  }
}
