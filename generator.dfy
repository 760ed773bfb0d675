/**
 * `TemplateGenerator`: reads a template text whose headers are labelled by
 * generation and produces its template lines in pre-order. Each
 * generation's headers are found by a regular expression; here the matches
 * are given by a `matcher`, of which only well-formedness is assumed.
 */
module Generator {
  import opened Wrappers
  import opened Strings
  import opened Persons
  import opened Coordinates
  import opened TemplateLines
  import opened Contents
  import Templates
  import InheritedFamilyNames
  import PersonPools
  import Guids
  import Bridge
  import Pagination
  import opened Headers

  /** The matches of one pattern in `whole`: non-empty, inside the text, in order and not overlapping. */
  predicate WellFormedMatches(ms: seq<Match>, whole: string) {
    && (forall k :: 0 <= k < |ms| ==> ms[k].length > 0 && ms[k].index + ms[k].length <= |whole|)
    && (forall i, j :: 0 <= i < j < |ms| ==> ms[i].index + ms[i].length <= ms[j].index)
  }

  /** `GetRegexOfGeneration(generation).Matches(text)`. */
  type Matcher = (string, nat) -> seq<Match>

  ghost predicate WellFormedMatcher(matcher: Matcher) {
    forall text, generation :: WellFormedMatches(matcher(text, generation), text)
  }

  /**
   * The sub-content of the k-th header: from one past the character after
   * the match up to the character before the next match (exclusive), or to
   * the end; empty when that range is empty.
   */
  function SubContent(whole: string, ms: seq<Match>, k: nat): (r: string)
    requires WellFormedMatches(ms, whole) && k < |ms|
    ensures |r| + ms[k].index + ms[k].length + 1 <= (if k + 1 < |ms| then ms[k + 1].index else |whole|)
            || r == []
  {
    var startIndex := ms[k].index + ms[k].length + 1;
    var endIndex := if k + 1 < |ms| then ms[k + 1].index - 1 else |whole|;
    if startIndex < endIndex then whole[startIndex..endIndex] else ""
  }

  /** A header to build: its coordinate, its match and the text of its descendants. */
  datatype Node = Node(coordinate: Coordinate, header: Match, subContent: string)

  /** The queue `GetContents` fills: one node per match, at the successive siblings of `start`. */
  function NodesOf(whole: string, ms: seq<Match>, start: Coordinate): (r: seq<Node>)
    requires WellFormedMatches(ms, whole) && |start| > 0
    ensures |r| == |ms|
    ensures forall k {:trigger r[k]} :: 0 <= k < |ms| ==>
      r[k] == Node(SiblingN(start, k), ms[k], SubContent(whole, ms, k))
  {
    seq(|ms|, k requires 0 <= k < |ms| => Node(SiblingN(start, k), ms[k], SubContent(whole, ms, k)))
  }

  /** The pending work a queue stands for: one per node plus the length of its sub-content. */
  function Size(q: seq<Node>): nat
    decreases |q|
  {
    if q == [] then 0 else |q[0].subContent| + 1 + Size(q[1..])
  }

  lemma {:induction false} SizeOfTail(whole: string, ms: seq<Match>, start: Coordinate, k: nat)
    requires WellFormedMatches(ms, whole) && |start| > 0 && k < |ms|
    ensures Size(NodesOf(whole, ms, start)[k..]) + ms[k].index <= |whole|
    decreases |ms| - k
  {
    var q := NodesOf(whole, ms, start)[k..];
    assert q[1..] == NodesOf(whole, ms, start)[k + 1..];
    if k + 1 < |ms| {
      SizeOfTail(whole, ms, start, k + 1);
    } else {
      assert q[1..] == [];
    }
  }

  /**
   * The sub-contents of one text's headers, one more for each header, fit
   * in the text: the measure that makes the traversal terminate.
   */
  lemma SizeOfNodes(whole: string, ms: seq<Match>, start: Coordinate)
    requires WellFormedMatches(ms, whole) && |start| > 0
    ensures Size(NodesOf(whole, ms, start)) <= |whole|
  {
    if ms != [] {
      SizeOfTail(whole, ms, start, 0);
      assert NodesOf(whole, ms, start)[0..] == NodesOf(whole, ms, start);
    }
  }

  /**
   * The headers of `whole` at `generation` and below, in pre-order: each
   * header, then the headers of its sub-content one generation down, then
   * its next sibling.
   */
  ghost function Forest(whole: string, generation: nat, start: Coordinate, matcher: Matcher): seq<Node>
    requires WellFormedMatcher(matcher) && |start| > 0
    decreases |whole| + 1, 1
  {
    var ms := matcher(whole, generation);
    SizeOfNodes(whole, ms, start);
    Expand(NodesOf(whole, ms, start), generation, matcher)
  }

  /** The nodes of a queue at `generation`, each followed by its descendants. */
  ghost function Expand(q: seq<Node>, generation: nat, matcher: Matcher): seq<Node>
    requires WellFormedMatcher(matcher)
    decreases Size(q), 2
  {
    if q == [] then []
    else
      [q[0]] + Forest(q[0].subContent, generation + 1, Child(q[0].coordinate), matcher) + Expand(q[1..], generation, matcher)
  }

  /** Every node of a queue is among its expansion. */
  lemma {:induction false} ExpandContains(q: seq<Node>, generation: nat, matcher: Matcher, k: nat)
    requires WellFormedMatcher(matcher) && k < |q|
    ensures q[k] in Expand(q, generation, matcher)
    decreases |q|
  {
    if k > 0 {
      ExpandContains(q[1..], generation, matcher, k - 1);
    }
  }

  /** The nodes still to be emitted from a stack of queues, the top queue first. */
  ghost function Pending(stack: seq<seq<Node>>, matcher: Matcher): seq<Node>
    requires WellFormedMatcher(matcher)
    decreases |stack|
  {
    if stack == [] then []
    else Expand(stack[|stack| - 1], |stack|, matcher) + Pending(stack[..|stack| - 1], matcher)
  }

  function StackSize(stack: seq<seq<Node>>): nat
    decreases |stack|
  {
    if stack == [] then 0 else Size(stack[|stack| - 1]) + StackSize(stack[..|stack| - 1])
  }

  /** A content was built from a node: same sub-content, and a line built from its match at its coordinate. */
  ghost predicate ContentBuilt(c: Content, n: Node)
    reads c.header.member, c.header.inLaw, c.header.familyDynamic
  {
    c.subContent == n.subContent && Built(c.header, n.coordinate, n.header)
  }

  /**
   * `GetContents`: builds a line for every match of `generation` in
   * `whole`, at the successive siblings of `start`, each with the text up to
   * the next match. It fails at the first header that does not decompose.
   */
  method GetContents(pool: PersonPools.PersonPool, guids: Guids.GuidSource, matcher: Matcher,
                     whole: string, generation: nat, start: Coordinate) returns (r: Result<seq<Content>>)
    requires pool.Valid() && WellFormedMatcher(matcher) && |start| > 0
    modifies pool, guids
    ensures pool.Valid()
    ensures r.Ok? <==> forall k :: 0 <= k < |matcher(whole, generation)| ==> WellFormedHeader(matcher(whole, generation)[k].captures)
    ensures r.Ok? ==> |r.value| == |matcher(whole, generation)|
    ensures r.Ok? ==> forall k :: 0 <= k < |r.value| ==> ContentBuilt(r.value[k], NodesOf(whole, matcher(whole, generation), start)[k])
  {
    var ms := matcher(whole, generation);
    assert WellFormedMatches(ms, whole);
    ghost var nodes := NodesOf(whole, ms, start);
    var headers := ms;
    var contents: seq<Content> := [];
    var currentCoordinate := start;
    while headers != []
      invariant |contents| + |headers| == |ms| && headers == ms[|contents|..]
      invariant |currentCoordinate| == |start| && currentCoordinate == SiblingN(start, |contents|)
      invariant pool.Valid()
      invariant forall k :: 0 <= k < |contents| ==> WellFormedHeader(ms[k].captures)
      invariant forall k :: 0 <= k < |contents| ==> ContentBuilt(contents[k], nodes[k])
      decreases |headers|
    {
      var h1 := headers[0];
      headers := headers[1..];
      assert nodes[|contents|] == Node(currentCoordinate, ms[|contents|], SubContent(whole, ms, |contents|));
      var next := AppendContent(pool, guids, whole, h1, headers, currentCoordinate, ms, contents, nodes);
      if next.Err? {
        return Err(next.error);
      }
      assert Sibling(currentCoordinate) == SiblingN(start, |contents| + 1);
      contents := next.value;
      currentCoordinate := Sibling(currentCoordinate);
    }
    return Ok(contents);
  }

  /** One more content built from the next node extends the contents built so far. */
  lemma BuiltExtends(contents: seq<Content>, c: Content, nodes: seq<Node>)
    requires |contents| < |nodes|
    requires forall k :: 0 <= k < |contents| ==> ContentBuilt(contents[k], nodes[k])
    requires ContentBuilt(c, nodes[|contents|])
    ensures forall k :: 0 <= k < |contents| + 1 ==> ContentBuilt((contents + [c])[k], nodes[k])
  {
  }

  /** One turn of `GetContents`: the contents built so far, and the next one, built from the next node. */
  method AppendContent(pool: PersonPools.PersonPool, guids: Guids.GuidSource, whole: string, h1: Match,
                       headers: seq<Match>, coordinate: Coordinate, ghost ms: seq<Match>, contents: seq<Content>,
                       ghost nodes: seq<Node>)
    returns (r: Result<seq<Content>>)
    requires pool.Valid() && WellFormedMatches(ms, whole) && |coordinate| > 0
    requires |contents| < |ms| && h1 == ms[|contents|] && headers == ms[|contents| + 1..]
    requires |contents| < |nodes| && nodes[|contents|] == Node(coordinate, ms[|contents|], SubContent(whole, ms, |contents|))
    requires forall k :: 0 <= k < |contents| ==> ContentBuilt(contents[k], nodes[k])
    modifies pool, guids
    ensures pool.Valid()
    ensures r.Ok? <==> WellFormedHeader(ms[|contents|].captures)
    ensures r.Ok? ==> |r.value| == |contents| + 1 && r.value[..|contents|] == contents
    ensures r.Ok? ==> forall k :: 0 <= k < |r.value| ==> ContentBuilt(r.value[k], nodes[k])
  {
    label Before:
    var content := NextContent(pool, guids, whole, h1, headers, coordinate, ms, |contents|);
    if content.Err? {
      return Err(content.error);
    }
    forall k | 0 <= k < |contents| ensures ContentBuilt(contents[k], nodes[k]) {
      assert old@Before(ContentBuilt(contents[k], nodes[k]));
    }
    BuiltExtends(contents, content.value, nodes);
    r := Ok(contents + [content.value]);
  }

  /**
   * One turn of `GetContents`: the line of the dequeued match `h1` at
   * `coordinate`, and its sub-content, which ends before the next match
   * still queued in `headers`.
   */
  method NextContent(pool: PersonPools.PersonPool, guids: Guids.GuidSource, whole: string, h1: Match,
                     headers: seq<Match>, coordinate: Coordinate, ghost ms: seq<Match>, ghost k: nat)
    returns (r: Result<Content>)
    requires pool.Valid() && WellFormedMatches(ms, whole) && |coordinate| > 0
    requires k < |ms| && h1 == ms[k] && headers == ms[k + 1..]
    modifies pool, guids
    ensures pool.Valid() && old(pool.people) <= pool.people
    ensures r.Ok? <==> WellFormedHeader(ms[k].captures)
    ensures r.Ok? ==> ContentBuilt(r.value, Node(coordinate, ms[k], SubContent(whole, ms, k)))
  {
    var header := BuildHeader(pool, guids, h1, coordinate);
    if header.Err? {
      return Err(header.error);
    }
    var startIndex := h1.index + h1.length + 1;
    var endIndex := if headers != [] then headers[0].index - 1 else |whole|;
    var subContent := if startIndex < endIndex then whole[startIndex..endIndex] else "";
    SubContentQueued(whole, ms, k, headers);
    r := Ok(Content(header.value, subContent));
    assert r.value.header == header.value && Built(header.value, coordinate, ms[k]);
  }

  /** The sub-content of the `k`th match, computed from the matches still queued after it. */
  lemma SubContentQueued(whole: string, ms: seq<Match>, k: nat, headers: seq<Match>)
    requires WellFormedMatches(ms, whole) && k < |ms| && headers == ms[k + 1..]
    ensures var startIndex := ms[k].index + ms[k].length + 1;
            var endIndex := if headers != [] then headers[0].index - 1 else |whole|;
            SubContent(whole, ms, k) == (if startIndex < endIndex then whole[startIndex..endIndex] else "")
  {
    assert headers != [] ==> headers[0] == ms[k + 1];
  }

  /**
   * The lines written so far were built from the emitted nodes, one by one,
   * those decomposed, and every line has a start date (it was formatted
   * when its queue was logged).
   */
  ghost predicate LinesBuilt(lines: seq<TemplateLine>, emitted: seq<Node>)
    reads set k | 0 <= k < |lines| :: lines[k].member
    reads set k | 0 <= k < |lines| :: lines[k].inLaw
    reads set k | 0 <= k < |lines| :: lines[k].familyDynamic
  {
    && |lines| == |emitted|
    && forall k :: 0 <= k < |lines| ==>
         && Built(lines[k], emitted[k].coordinate, emitted[k].header) && WellFormedHeader(emitted[k].header.captures)
         && HasStart(lines[k])
  }

  /** Every stacked content was built from the node at its place in the stack of queues, and that decomposed. */
  ghost predicate StackBuilt(contents: seq<seq<Content>>, nodes: seq<seq<Node>>)
    reads set i, k | 0 <= i < |contents| && 0 <= k < |contents[i]| :: contents[i][k].header.member
    reads set i, k | 0 <= i < |contents| && 0 <= k < |contents[i]| :: contents[i][k].header.inLaw
    reads set i, k | 0 <= i < |contents| && 0 <= k < |contents[i]| :: contents[i][k].header.familyDynamic
  {
    && |contents| == |nodes|
    && (forall i :: 0 <= i < |contents| ==> |contents[i]| == |nodes[i]|)
    && forall i, k :: 0 <= i < |contents| && 0 <= k < |contents[i]| ==>
         ContentBuilt(contents[i][k], nodes[i][k]) && WellFormedHeader(nodes[i][k].header.captures)
  }

  /**
   * `GetFamily`: a stack of queues walked in pre-order. The top queue's
   * head is emitted, the rest of that queue goes back on the stack, and the
   * head's own children are pushed above it, matched one generation down;
   * empty queues are dropped. Each popped queue is formatted for the log
   * first, which throws at a header without a start date. The lines are
   * exactly the headers of the text in pre-order, each with a start date.
   * The walk fails when a header does not decompose or its line has no
   * start date: so it succeeds when every header keeps a start date whatever
   * namesake is pooled, and only when every header shows one with none
   * pooled.
   */
  method GetFamily(pool: PersonPools.PersonPool, guids: Guids.GuidSource, matcher: Matcher, templateText: string)
    returns (r: Result<seq<TemplateLine>>)
    requires pool.Valid() && WellFormedMatcher(matcher)
    modifies pool, guids
    ensures pool.Valid()
    ensures (forall n :: n in Forest(templateText, 1, Root, matcher) ==> KeepsStart(n.header.captures)) ==> r.Ok?
    ensures r.Ok? ==> forall n :: n in Forest(templateText, 1, Root, matcher) ==>
      WellFormedHeader(n.header.captures) && ShowsStart(n.header.captures)
    ensures r.Ok? ==> |r.value| == |Forest(templateText, 1, Root, matcher)|
    ensures r.Ok? ==> forall k :: 0 <= k < |r.value| ==>
      var n := Forest(templateText, 1, Root, matcher)[k];
      Built(r.value[k], n.coordinate, n.header) && HasStart(r.value[k])
  {
    ghost var forest := Forest(templateText, 1, Root, matcher);
    var first := GetContents(pool, guids, matcher, templateText, 1, Root);
    ghost var firstNodes := NodesOf(templateText, matcher(templateText, 1), Root);
    assert forest == Expand(firstNodes, 1, matcher);
    if first.Err? {
      FirstInForest(templateText, matcher);
      ChildFailureIsInForest(templateText, 1, Root, matcher, forest);
      return Err(first.error);
    }
    PendingPush([], firstNodes, matcher);
    assert [] + [firstNodes] == [firstNodes];
    FirstStacked(templateText, matcher(templateText, 1), Root, first.value);
    r := Walk(pool, guids, matcher, forest, first.value, firstNodes);
    if r.Ok? {
      WrittenInOrder(r.value, forest);
    }
  }

  /** The contents of the first generation, built from its nodes, start the stack. */
  lemma FirstStacked(whole: string, ms: seq<Match>, start: Coordinate, first: seq<Content>)
    requires WellFormedMatches(ms, whole) && |start| > 0 && |first| == |ms|
    requires forall k :: 0 <= k < |ms| ==> WellFormedHeader(ms[k].captures)
    requires forall k :: 0 <= k < |first| ==> ContentBuilt(first[k], NodesOf(whole, ms, start)[k])
    ensures StackBuilt([first], [NodesOf(whole, ms, start)])
  {
  }

  /**
   * Lines built from every node of the pre-order, in order: each decomposed
   * and showed a start date, and the line at each place is built from the
   * node there and has a start date.
   */
  lemma WrittenInOrder(lines: seq<TemplateLine>, forest: seq<Node>)
    requires LinesBuilt(lines, forest)
    ensures forall n :: n in forest ==> WellFormedHeader(n.header.captures) && ShowsStart(n.header.captures)
    ensures |lines| == |forest|
    ensures forall k :: 0 <= k < |lines| ==> Built(lines[k], forest[k].coordinate, forest[k].header) && HasStart(lines[k])
  {
    forall n | n in forest ensures ShowsStart(n.header.captures) {
      var k :| 0 <= k < |forest| && forest[k] == n;
      LineWithStart(lines[k], n.coordinate, n.header);
    }
  }

  /**
   * The loop of `GetFamily`, from the stack holding the first generation's
   * contents: it writes the nodes of `forest` in order, or fails when one of
   * them does not decompose or has a line without a start date.
   */
  method Walk(pool: PersonPools.PersonPool, guids: Guids.GuidSource, matcher: Matcher, ghost forest: seq<Node>,
              first: seq<Content>, ghost firstNodes: seq<Node>)
    returns (r: Result<seq<TemplateLine>>)
    requires pool.Valid() && WellFormedMatcher(matcher)
    requires Pending([firstNodes], matcher) == forest
    requires StackBuilt([first], [firstNodes])
    modifies pool, guids
    ensures pool.Valid()
    ensures r.Err? ==> !forall n :: n in forest ==> KeepsStart(n.header.captures)
    ensures r.Ok? ==> LinesBuilt(r.value, forest)
  {
    var lines: seq<TemplateLine> := [];
    var contents: seq<seq<Content>> := [first];
    ghost var emitted: seq<Node> := [];
    ghost var nodes: seq<seq<Node>> := [firstNodes];
    while contents != []
      invariant pool.Valid()
      invariant emitted + Pending(nodes, matcher) == forest
      invariant LinesBuilt(lines, emitted) && StackBuilt(contents, nodes)
      decreases StackSize(nodes), |contents|
    {
      var step, emittedAfter, nodesAfter := Visit(pool, guids, matcher, forest, lines, emitted, contents, nodes);
      if step.Err? {
        return Err(step.error);
      }
      lines, contents := step.value.0, step.value.1;
      emitted, nodes := emittedAfter, nodesAfter;
    }
    assert emitted == forest;
    return Ok(lines);
  }

  /**
   * One turn of `GetFamily`'s loop: pops the top queue and formats all its
   * contents for the log, which throws at the first header without a start
   * date; then drops the queue when it is empty, and otherwise writes its
   * head, pushes back the rest and then the head's children.
   */
  method Visit(pool: PersonPools.PersonPool, guids: Guids.GuidSource, matcher: Matcher, ghost forest: seq<Node>,
               lines: seq<TemplateLine>, ghost emitted: seq<Node>, contents: seq<seq<Content>>, ghost nodes: seq<seq<Node>>)
    returns (r: Result<(seq<TemplateLine>, seq<seq<Content>>)>, ghost emittedAfter: seq<Node>, ghost nodesAfter: seq<seq<Node>>)
    requires pool.Valid() && WellFormedMatcher(matcher) && contents != []
    requires emitted + Pending(nodes, matcher) == forest
    requires LinesBuilt(lines, emitted) && StackBuilt(contents, nodes)
    modifies pool, guids
    ensures pool.Valid()
    ensures r.Err? ==> !forall n :: n in forest ==> KeepsStart(n.header.captures)
    ensures r.Ok? ==>
      && emittedAfter + Pending(nodesAfter, matcher) == forest
      && LinesBuilt(r.value.0, emittedAfter) && StackBuilt(r.value.1, nodesAfter)
      && (StackSize(nodesAfter) < StackSize(nodes)
          || (StackSize(nodesAfter) == StackSize(nodes) && |r.value.1| < |contents|))
  {
    var collection := contents[|contents| - 1];
    ghost var queue := nodes[|nodes| - 1];
    ghost var below := nodes[..|nodes| - 1];
    assert below + [queue] == nodes;
    PopFacts(contents, nodes);
    var rest := contents[..|contents| - 1];
    var logged := Contents.Join(collection);
    Contents.JoinAsWritten(collection);
    if logged.Err? {
      UnkeptQueued(emitted, below, queue, matcher, forest, collection);
      return Err(logged.error), emitted, nodes;
    }
    if collection == [] {
      assert queue == [];
      WalkDrop(emitted, below, matcher, forest);
      StackSizeDrop(below);
      return Ok((lines, rest)), emitted, below;
    }
    r, emittedAfter, nodesAfter := WriteHead(pool, guids, matcher, forest, lines, emitted, rest, below, collection, queue);
  }

  /**
   * The non-empty case of `Visit`: the head of the popped queue is written,
   * the rest of the queue goes back on the stack, and then the head's children.
   */
  method WriteHead(pool: PersonPools.PersonPool, guids: Guids.GuidSource, matcher: Matcher, ghost forest: seq<Node>,
                   lines: seq<TemplateLine>, ghost emitted: seq<Node>, rest: seq<seq<Content>>, ghost below: seq<seq<Node>>,
                   collection: seq<Content>, ghost queue: seq<Node>)
    returns (r: Result<(seq<TemplateLine>, seq<seq<Content>>)>, ghost emittedAfter: seq<Node>, ghost nodesAfter: seq<seq<Node>>)
    requires pool.Valid() && WellFormedMatcher(matcher) && collection != []
    requires emitted + Pending(below + [queue], matcher) == forest
    requires LinesBuilt(lines, emitted) && StackBuilt(rest, below)
    requires |collection| == |queue| && HasStart(collection[0].header)
    requires forall k :: 0 <= k < |collection| ==>
      ContentBuilt(collection[k], queue[k]) && WellFormedHeader(queue[k].header.captures)
    modifies pool, guids
    ensures pool.Valid()
    ensures r.Err? ==> !forall n :: n in forest ==> KeepsStart(n.header.captures)
    ensures r.Ok? ==>
      && emittedAfter + Pending(nodesAfter, matcher) == forest
      && LinesBuilt(r.value.0, emittedAfter) && StackBuilt(r.value.1, nodesAfter)
      && StackSize(nodesAfter) < StackSize(below + [queue])
  {
    var current := collection[0];
    var content := Contents.Copy(current);
    assert content.subContent == queue[0].subContent && content.header.coordinate == queue[0].coordinate;
    HeadWritten(emitted, below, queue, matcher, forest, lines, rest, collection, content.header);
    ghost var childNodes := NodesOf(queue[0].subContent, matcher(queue[0].subContent, |below| + 2),
                                    Child(queue[0].coordinate));
    var written := lines + [content.header];
    emittedAfter := emitted + [queue[0]];
    var stacked := rest + [collection[1..]];
    nodesAfter := below + [queue[1..]];
    assert |stacked| + 1 == |below| + 2;
    var children := GetChildren(pool, guids, matcher, content, |stacked| + 1, forest, written, emittedAfter, stacked, nodesAfter);
    if children.Err? {
      return Err(children.error), emittedAfter, nodesAfter;
    }
    r := Ok((written, stacked + [children.value]));
    nodesAfter := nodesAfter + [childNodes];
  }

  /**
   * Writing the head of the top queue: the lines and the stack keep what
   * they were built from, the walk stays on the pre-order with the head's
   * children pending first, and less work is left.
   */
  lemma HeadWritten(emitted: seq<Node>, below: seq<seq<Node>>, queue: seq<Node>, matcher: Matcher, forest: seq<Node>,
                    lines: seq<TemplateLine>, rest: seq<seq<Content>>, collection: seq<Content>, head: TemplateLine)
    requires WellFormedMatcher(matcher) && collection != [] && |collection| == |queue|
    requires emitted + Pending(below + [queue], matcher) == forest
    requires LinesBuilt(lines, emitted) && StackBuilt(rest, below)
    requires forall k :: 0 <= k < |collection| ==>
      ContentBuilt(collection[k], queue[k]) && WellFormedHeader(queue[k].header.captures)
    requires head == collection[0].header && HasStart(head)
    ensures var childNodes := NodesOf(queue[0].subContent, matcher(queue[0].subContent, |below| + 2),
                                      Child(queue[0].coordinate));
      && WellFormedMatches(matcher(queue[0].subContent, |below| + 2), queue[0].subContent)
      && LinesBuilt(lines + [head], emitted + [queue[0]])
      && StackBuilt(rest + [collection[1..]], below + [queue[1..]])
      && (forall n :: n in childNodes ==> n in forest)
      && emitted + [queue[0]] + Pending(below + [queue[1..]] + [childNodes], matcher) == forest
      && StackSize(below + [queue[1..]] + [childNodes]) < StackSize(below + [queue])
      && |rest| == |below|
  {
    WalkStep(emitted, below, queue, matcher, forest);
    ghost var childNodes := NodesOf(queue[0].subContent, matcher(queue[0].subContent, |below| + 2),
                                    Child(queue[0].coordinate));
    QueueInForest(childNodes, |below| + 2, matcher, forest, emitted + [queue[0]], Pending(below + [queue[1..]], matcher));
    LinesExtend(lines, emitted, head, queue[0]);
    RestStacked(rest, below, collection, queue);
    PopShrinks(below, queue, matcher);
  }

  /**
   * The `GetContents` call of `GetFamily` for the children of `content`,
   * whose nodes are among `forest`: they go on the stack with the nodes they
   * were built from, or a header of `forest` does not decompose. The lines
   * already written and the contents still stacked keep what they were built
   * from, as none of their persons changes.
   */
  method GetChildren(pool: PersonPools.PersonPool, guids: Guids.GuidSource, matcher: Matcher, content: Content,
                     generation: nat, ghost forest: seq<Node>, ghost lines: seq<TemplateLine>, ghost emitted: seq<Node>,
                     contents: seq<seq<Content>>, ghost nodes: seq<seq<Node>>)
    returns (r: Result<seq<Content>>)
    requires pool.Valid() && WellFormedMatcher(matcher)
    requires LinesBuilt(lines, emitted) && StackBuilt(contents, nodes)
    requires var ms := matcher(content.subContent, generation);
      forall n :: n in NodesOf(content.subContent, ms, Child(content.header.coordinate)) ==> n in forest
    modifies pool, guids
    ensures pool.Valid() && LinesBuilt(lines, emitted)
    ensures r.Err? ==> !forall n :: n in forest ==> KeepsStart(n.header.captures)
    ensures var ms := matcher(content.subContent, generation);
      r.Ok? ==> StackBuilt(contents + [r.value], nodes + [NodesOf(content.subContent, ms, Child(content.header.coordinate))])
  {
    var ms := matcher(content.subContent, generation);
    assert WellFormedMatches(ms, content.subContent);
    r := GetContents(pool, guids, matcher, content.subContent, generation, Child(content.header.coordinate));
    forall k | 0 <= k < |lines| ensures Built(lines[k], emitted[k].coordinate, emitted[k].header) && HasStart(lines[k]) {
      assert old(Built(lines[k], emitted[k].coordinate, emitted[k].header) && HasStart(lines[k]));
    }
    forall i, k | 0 <= i < |contents| && 0 <= k < |contents[i]| ensures ContentBuilt(contents[i][k], nodes[i][k]) {
      assert old(ContentBuilt(contents[i][k], nodes[i][k]));
    }
    if r.Err? {
      ChildFailureIsInForest(content.subContent, generation, Child(content.header.coordinate), matcher, forest);
    } else {
      ChildrenStacked(contents, nodes, r.value, content.subContent, ms, Child(content.header.coordinate));
    }
  }

  /** A header without a start date in the top queue comes from a header of the pre-order that does not keep one. */
  lemma UnkeptQueued(emitted: seq<Node>, below: seq<seq<Node>>, queue: seq<Node>, matcher: Matcher, forest: seq<Node>,
                     collection: seq<Content>)
    requires WellFormedMatcher(matcher)
    requires emitted + Pending(below + [queue], matcher) == forest
    requires |collection| == |queue| && forall k :: 0 <= k < |collection| ==> ContentBuilt(collection[k], queue[k])
    requires !forall k :: 0 <= k < |collection| ==> HasStart(collection[k].header)
    ensures !forall n :: n in forest ==> KeepsStart(n.header.captures)
  {
    var k :| 0 <= k < |collection| && !HasStart(collection[k].header);
    PendingPush(below, queue, matcher);
    Associate(emitted, Expand(queue, |below| + 1, matcher), Pending(below, matcher));
    QueueInForest(queue, |below| + 1, matcher, forest, emitted, Pending(below, matcher));
    LineWithoutStart(collection[k].header, queue[k].coordinate, queue[k].header);
    assert queue[k] in forest;
  }

  /** Pushing a queue on a stack puts its expansion, one generation deeper, before the rest. */
  lemma PendingPush(stack: seq<seq<Node>>, q: seq<Node>, matcher: Matcher)
    requires WellFormedMatcher(matcher)
    ensures Pending(stack + [q], matcher) == Expand(q, |stack| + 1, matcher) + Pending(stack, matcher)
  {
    assert (stack + [q])[..|stack|] == stack;
  }

  /** An empty queue adds nothing to the work pending. */
  lemma StackSizeDrop(stack: seq<seq<Node>>)
    ensures StackSize(stack + [[]]) == StackSize(stack)
  {
    assert (stack + [[]])[..|stack|] == stack;
  }

  /** The facts the stack keeps hold for its top queue and for the stack below it. */
  lemma PopFacts(contents: seq<seq<Content>>, nodes: seq<seq<Node>>)
    requires contents != [] && StackBuilt(contents, nodes)
    ensures var n := |contents| - 1;
      && |contents[n]| == |nodes[n]|
      && (forall k :: 0 <= k < |contents[n]| ==>
            ContentBuilt(contents[n][k], nodes[n][k]) && WellFormedHeader(nodes[n][k].header.captures))
      && StackBuilt(contents[..n], nodes[..n])
  {
  }

  /** They still hold after pushing a queue that keeps them. */
  lemma PushFacts(contents: seq<seq<Content>>, nodes: seq<seq<Node>>, cs: seq<Content>, ns: seq<Node>)
    requires StackBuilt(contents, nodes) && |cs| == |ns|
    requires forall k :: 0 <= k < |cs| ==> ContentBuilt(cs[k], ns[k]) && WellFormedHeader(ns[k].header.captures)
    ensures StackBuilt(contents + [cs], nodes + [ns])
  {
  }

  /** The rest of a popped queue goes back on the stack with what it was built from. */
  lemma RestStacked(contents: seq<seq<Content>>, nodes: seq<seq<Node>>, collection: seq<Content>, queue: seq<Node>)
    requires StackBuilt(contents, nodes) && collection != [] && |collection| == |queue|
    requires forall k :: 0 <= k < |collection| ==>
      ContentBuilt(collection[k], queue[k]) && WellFormedHeader(queue[k].header.captures)
    ensures StackBuilt(contents + [collection[1..]], nodes + [queue[1..]])
  {
    PushFacts(contents, nodes, collection[1..], queue[1..]);
  }

  /** The children of a written head go on the stack with the nodes they were built from. */
  lemma ChildrenStacked(contents: seq<seq<Content>>, nodes: seq<seq<Node>>, children: seq<Content>,
                        whole: string, ms: seq<Match>, start: Coordinate)
    requires StackBuilt(contents, nodes) && WellFormedMatches(ms, whole) && |start| > 0 && |children| == |ms|
    requires forall k :: 0 <= k < |ms| ==> WellFormedHeader(ms[k].captures)
    requires forall k :: 0 <= k < |children| ==> ContentBuilt(children[k], NodesOf(whole, ms, start)[k])
    ensures StackBuilt(contents + [children], nodes + [NodesOf(whole, ms, start)])
  {
    PushFacts(contents, nodes, children, NodesOf(whole, ms, start));
  }

  /** A line built from a node that decomposed extends the lines written. */
  lemma LinesExtend(lines: seq<TemplateLine>, emitted: seq<Node>, l: TemplateLine, n: Node)
    requires LinesBuilt(lines, emitted)
    requires Built(l, n.coordinate, n.header) && WellFormedHeader(n.header.captures) && HasStart(l)
    ensures LinesBuilt(lines + [l], emitted + [n])
  {
  }

  /** A non-empty queue expands to its head, the head's descendants, then the rest of the queue. */
  lemma ExpandHead(q: seq<Node>, generation: nat, matcher: Matcher)
    requires WellFormedMatcher(matcher) && q != []
    ensures Expand(q, generation, matcher)
      == [q[0]] + Expand(NodesOf(q[0].subContent, matcher(q[0].subContent, generation + 1), Child(q[0].coordinate)),
                         generation + 1, matcher)
         + Expand(q[1..], generation, matcher)
  {
    var whole := q[0].subContent;
    var ms := matcher(whole, generation + 1);
    assert WellFormedMatches(ms, whole);
    assert Forest(whole, generation + 1, Child(q[0].coordinate), matcher)
        == Expand(NodesOf(whole, ms, Child(q[0].coordinate)), generation + 1, matcher);
  }

  /**
   * Popping the head of the top queue and pushing the rest and the head's
   * children leaves the same pre-order to go after the head.
   */
  lemma PopStep(below: seq<seq<Node>>, queue: seq<Node>, matcher: Matcher)
    requires WellFormedMatcher(matcher) && queue != []
    ensures var head := queue[0];
      var childNodes := NodesOf(head.subContent, matcher(head.subContent, |below| + 2), Child(head.coordinate));
      Pending(below + [queue], matcher) == [head] + Pending(below + [queue[1..]] + [childNodes], matcher)
  {
    var head := queue[0];
    var g := |below| + 1;
    assert WellFormedMatches(matcher(head.subContent, g + 1), head.subContent);
    var childNodes := NodesOf(head.subContent, matcher(head.subContent, g + 1), Child(head.coordinate));
    var children := Expand(childNodes, g + 1, matcher);
    var rest := Expand(queue[1..], g, matcher);
    var lower := Pending(below, matcher);
    PendingPush(below, queue, matcher);
    PendingPush(below, queue[1..], matcher);
    PendingPush(below + [queue[1..]], childNodes, matcher);
    ExpandHead(queue, g, matcher);
    assert Pending(below + [queue], matcher) == [head] + children + rest + lower;
    assert Pending(below + [queue[1..]] + [childNodes], matcher) == children + (rest + lower);
    Regroup([head], children, rest, lower);
  }

  /** Sequence algebra for `PopStep`: concatenation regrouped to the right. It models nothing of its own. */
  lemma Regroup<T>(a: seq<T>, b: seq<T>, c: seq<T>, d: seq<T>)
    ensures a + b + c + d == a + (b + (c + d))
  {
  }

  /** Dropping an empty queue from the top of the stack leaves the same nodes pending. */
  lemma WalkDrop(emitted: seq<Node>, below: seq<seq<Node>>, matcher: Matcher, forest: seq<Node>)
    requires WellFormedMatcher(matcher)
    requires emitted + Pending(below + [[]], matcher) == forest
    ensures emitted + Pending(below, matcher) == forest
  {
    PendingPush(below, [], matcher);
  }

  /** Emitting the head of the top queue and pushing its rest and its children keeps the walk on the pre-order. */
  lemma WalkStep(emitted: seq<Node>, below: seq<seq<Node>>, queue: seq<Node>, matcher: Matcher, forest: seq<Node>)
    requires WellFormedMatcher(matcher) && queue != []
    requires emitted + Pending(below + [queue], matcher) == forest
    ensures var head := queue[0];
      var childNodes := NodesOf(head.subContent, matcher(head.subContent, |below| + 2), Child(head.coordinate));
      && emitted + [head] + Pending(below + [queue[1..]] + [childNodes], matcher) == forest
      && emitted + [head] + Expand(childNodes, |below| + 2, matcher) + Pending(below + [queue[1..]], matcher) == forest
  {
    var head := queue[0];
    assert WellFormedMatches(matcher(head.subContent, |below| + 2), head.subContent);
    var childNodes := NodesOf(head.subContent, matcher(head.subContent, |below| + 2), Child(head.coordinate));
    var after := Pending(below + [queue[1..]] + [childNodes], matcher);
    var children := Expand(childNodes, |below| + 2, matcher);
    PopStep(below, queue, matcher);
    PendingPush(below + [queue[1..]], childNodes, matcher);
    assert after == children + Pending(below + [queue[1..]], matcher);
    Associate(emitted, [head], after);
    Associate(emitted + [head], children, Pending(below + [queue[1..]], matcher));
  }


  /** Emitting the head of the top queue and pushing its rest and its children leaves less work pending. */
  lemma PopShrinks(below: seq<seq<Node>>, queue: seq<Node>, matcher: Matcher)
    requires WellFormedMatcher(matcher) && queue != []
    ensures var head := queue[0];
      var childNodes := NodesOf(head.subContent, matcher(head.subContent, |below| + 2), Child(head.coordinate));
      StackSize(below + [queue[1..]] + [childNodes]) < StackSize(below + [queue])
  {
    var head := queue[0];
    assert WellFormedMatches(matcher(head.subContent, |below| + 2), head.subContent);
    var childNodes := NodesOf(head.subContent, matcher(head.subContent, |below| + 2), Child(head.coordinate));
    SizeOfNodes(head.subContent, matcher(head.subContent, |below| + 2), Child(head.coordinate));
    var rest := below + [queue[1..]];
    var after := rest + [childNodes];
    assert after[..|after| - 1] == rest;
    assert rest[..|rest| - 1] == below;
    assert (below + [queue])[..|below|] == below;
  }

  /** A queue whose expansion is pending after the emitted nodes is part of the pre-order. */
  lemma QueueInForest(q: seq<Node>, generation: nat, matcher: Matcher, forest: seq<Node>, emitted: seq<Node>, rest: seq<Node>)
    requires WellFormedMatcher(matcher)
    requires emitted + Expand(q, generation, matcher) + rest == forest
    ensures forall n :: n in q ==> n in forest
  {
    forall n | n in q ensures n in forest {
      var k :| 0 <= k < |q| && q[k] == n;
      ExpandContains(q, generation, matcher, k);
    }
  }

  /** The first generation's nodes are part of the pre-order. */
  lemma FirstInForest(templateText: string, matcher: Matcher)
    requires WellFormedMatcher(matcher)
    ensures var ms := matcher(templateText, 1);
      WellFormedMatches(ms, templateText)
      && forall n :: n in NodesOf(templateText, ms, Root) ==> n in Forest(templateText, 1, Root, matcher)
  {
    var firstNodes := NodesOf(templateText, matcher(templateText, 1), Root);
    var forest := Forest(templateText, 1, Root, matcher);
    assert [] + Expand(firstNodes, 1, matcher) + [] == forest;
    QueueInForest(firstNodes, 1, matcher, forest, [], []);
  }

  /** When a header of a queue of the pre-order does not decompose, a header of the pre-order does not. */
  lemma ChildFailureIsInForest(whole: string, generation: nat, start: Coordinate, matcher: Matcher, forest: seq<Node>)
    requires WellFormedMatcher(matcher) && |start| > 0
    requires var ms := matcher(whole, generation);
      forall n :: n in NodesOf(whole, ms, start) ==> n in forest
    requires var ms := matcher(whole, generation);
      !forall k :: 0 <= k < |ms| ==> WellFormedHeader(ms[k].captures)
    ensures !forall n :: n in forest ==> WellFormedHeader(n.header.captures)
    ensures !forall n :: n in forest ==> KeepsStart(n.header.captures)
  {
    var ms := matcher(whole, generation);
    var k :| 0 <= k < |ms| && !WellFormedHeader(ms[k].captures);
    assert NodesOf(whole, ms, start)[k] in forest;
  }

  /**
   * A template generator: the family name, the pool of persons met, and the
   * lines of the template text in pre-order, read once when it is made.
   */
  class TemplateGenerator {
    const inheritedFamilyName: InheritedFamilyNames.InheritedFamilyName
    const people: PersonPools.PersonPool
    const lines: seq<TemplateLine>

    constructor(inheritedFamilyName: InheritedFamilyNames.InheritedFamilyName, people: PersonPools.PersonPool,
                lines: seq<TemplateLine>)
      ensures this.inheritedFamilyName == inheritedFamilyName && this.people == people && this.lines == lines
    {
      this.inheritedFamilyName := inheritedFamilyName;
      this.people := people;
      this.lines := lines;
    }

    /**
     * The constructors: the family name with its id (drawn at random by the
     * one-argument constructor, given here), a new pool that finds a person
     * by its hash and `Equals` as the one-argument constructor's `HashSet`
     * does (the two-id constructor's `SortedSet` gets the same pool), and the
     * lines of the file text once its white space is collapsed. A
     * header that does not decompose, or whose line has no start date when
     * its queue is logged, makes the constructor throw.
     */
    static method Create(name: string, id: int, fileText: string, matcher: Matcher,
                         same: (Bridge.Document, Bridge.Document) -> bool, guids: Guids.GuidSource)
      returns (r: Result<TemplateGenerator>)
      requires WellFormedMatcher(matcher) && PersonPools.Reflexive(same)
      modifies guids
      ensures var forest := Forest(CollapseWhiteSpace(fileText), 1, Root, matcher);
        && ((forall n :: n in forest ==> KeepsStart(n.header.captures)) ==> r.Ok?)
        && (r.Ok? ==> forall n :: n in forest ==> WellFormedHeader(n.header.captures) && ShowsStart(n.header.captures))
        && (r.Ok? ==>
              && fresh(r.value) && fresh(r.value.people)
              && r.value.inheritedFamilyName == InheritedFamilyNames.InheritedFamilyName(name, id)
              && r.value.people.Valid()
              && |r.value.lines| == |forest|
              && Templates.AllHaveStart(r.value.lines)
              && forall k :: 0 <= k < |r.value.lines| ==> Built(r.value.lines[k], forest[k].coordinate, forest[k].header))
    {
      var templateText := CollapseWhiteSpace(fileText);
      var pool := new PersonPools.PersonPool(same);
      var family := GetFamily(pool, guids, matcher, templateText);
      if family.Err? {
        return Err(family.error);
      }
      var generator := new TemplateGenerator(InheritedFamilyNames.InheritedFamilyName(name, id), pool, family.value);
      return Ok(generator);
    }

    /** `WriteTemplate`: the lines written in order, as `Pagination.WriteLines` lays them out. */
    method WriteTemplate(pageHeight: int) returns (r: Result<seq<Pagination.Event>>)
      requires Templates.AllRenderable(lines)
      ensures r.Ok? <==> Templates.AllHaveStart(lines)
      ensures r.Ok? ==> r.value == Pagination.Layout(Templates.RenderLines(lines), pageHeight)
      ensures r.Err? ==> Templates.RenderAllAsWritten(lines) == Err(r.error)
    {
      r := Pagination.WriteLines(lines, pageHeight);
      Templates.RenderAllAsWrittenAgrees(lines);
    }
  }
}
