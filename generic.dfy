/**
 * The schema-agnostic XML tree builder of src/xml/generic.rs.
 *
 * The tokenizer is not modelled: the document reaches the builder as the
 * sequence of events the reader would deliver before its end-of-input event,
 * with tag names and attribute values already decoded.
 */
module Generic {
  import opened Outcomes

  type Attributes = map<string, string>

  /** One element of the tree: local name, attributes, children in source order. */
  datatype XmlItem = XmlItem(name: string, attributes: Attributes, children: seq<XmlItem>)

  /** A start or self-closing tag as the reader delivers it: local name and attributes in document order. */
  datatype Tag = Tag(localName: string, attributes: seq<(string, string)>)

  /**
   * A reader event. `Other` stands for every event the builder ignores (text,
   * comments, declarations, ...); `Malformed` for a reader error, on which
   * `read_event().unwrap()` panics.
   */
  datatype Event = Start(tag: Tag) | End | Empty(tag: Tag) | Other | Malformed

  /** The ways `parse_xml` gives up (each is a panic in the source). */
  datatype ParseError =
    | UnexpectedEndTag            // pop on an empty stack
    | MalformedDocument           // the reader reported an error
    | IncompleteDocument(height: nat)  // the stack does not hold exactly one node at end of input

  // ---------------------------------------------------------------------------
  // parse_tag
  // ---------------------------------------------------------------------------

  /** The attribute map of a tag: one entry per distinct key, a repeated key keeping its last value. */
  function CollectAttributes(pairs: seq<(string, string)>): (m: Attributes)
    ensures m.Keys == set i | 0 <= i < |pairs| :: pairs[i].0
  {
    if pairs == [] then map[]
    else
      var last := pairs[|pairs| - 1];
      CollectAttributes(pairs[..|pairs| - 1])[last.0 := last.1]
  }

  /** A key's value in the collected map is the value of the last pair carrying that key. */
  lemma {:induction false} CollectAttributesLastWins(pairs: seq<(string, string)>, i: nat)
    requires i < |pairs|
    requires forall j :: i < j < |pairs| ==> pairs[j].0 != pairs[i].0
    ensures pairs[i].0 in CollectAttributes(pairs) && CollectAttributes(pairs)[pairs[i].0] == pairs[i].1
  {
    if i < |pairs| - 1 {
      CollectAttributesLastWins(pairs[..|pairs| - 1], i);
    }
  }

  /** The node built from a tag: its name and attributes, and no children yet. */
  function ParseTag(tag: Tag): (node: XmlItem)
    ensures node.name == tag.localName && node.children == []
    ensures node.attributes.Keys == set i | 0 <= i < |tag.attributes| :: tag.attributes[i].0
  {
    XmlItem(tag.localName, CollectAttributes(tag.attributes), [])
  }

  // ---------------------------------------------------------------------------
  // parse_xml, as a function of the event sequence
  // ---------------------------------------------------------------------------

  /** `parent` with `child` appended as its last child. */
  function Adopt(parent: XmlItem, child: XmlItem): XmlItem {
    parent.(children := parent.children + [child])
  }

  /** The stack after its top node has been popped and attached to the new top (or pushed back if none). */
  function Close(stack: seq<XmlItem>): (r: seq<XmlItem>)
    requires |stack| > 0
  {
    var child := stack[|stack| - 1];
    var rest := stack[..|stack| - 1];
    if rest == [] then [child]
    else rest[..|rest| - 1] + [Adopt(rest[|rest| - 1], child)]
  }

  /** One turn of the event loop. */
  function Step(stack: seq<XmlItem>, e: Event): Result<seq<XmlItem>, ParseError> {
    match e
    case Start(tag) => Ok(stack + [ParseTag(tag)])
    case End => if stack == [] then Err(UnexpectedEndTag) else Ok(Close(stack))
    case Empty(tag) =>
      if stack == [] then Ok(stack)
      else Ok(stack[..|stack| - 1] + [Adopt(stack[|stack| - 1], ParseTag(tag))])
    case Other => Ok(stack)
    case Malformed => Err(MalformedDocument)
  }

  /** The stack after the whole event sequence, or the first error. */
  function Run(stack: seq<XmlItem>, events: seq<Event>): Result<seq<XmlItem>, ParseError>
    decreases |events|
  {
    if events == [] then Ok(stack)
    else
      match Step(stack, events[0])
      case Err(e) => Err(e)
      case Ok(next) => Run(next, events[1..])
  }

  /** The end-of-input check: exactly one node left, which is the result. */
  function Finish(stack: seq<XmlItem>): Result<XmlItem, ParseError> {
    if |stack| == 1 then Ok(stack[0]) else Err(IncompleteDocument(|stack|))
  }

  function Parse(events: seq<Event>): Result<XmlItem, ParseError> {
    match Run([], events)
    case Err(e) => Err(e)
    case Ok(stack) => Finish(stack)
  }

  /** The event loop of parse_xml over an explicit stack. */
  method ParseXml(events: seq<Event>) returns (r: Result<XmlItem, ParseError>)
    ensures r == Parse(events)
  {
    var stack: seq<XmlItem> := [];
    var i := 0;
    while i < |events|
      invariant 0 <= i <= |events|
      invariant Run(stack, events[i..]) == Run([], events)
    {
      assert events[i..][0] == events[i] && events[i..][1..] == events[i + 1..];
      ghost var before := stack;
      match events[i] {
        case Start(tag) =>
          var node := ParseTag(tag);
          stack := stack + [node];
        case End =>
          if stack == [] {
            return Err(UnexpectedEndTag);
          }
          var child := stack[|stack| - 1];
          stack := stack[..|stack| - 1];
          if stack != [] {
            var parent := stack[|stack| - 1];
            stack := stack[..|stack| - 1] + [parent.(children := parent.children + [child])];
          } else {
            stack := stack + [child];
          }
          assert stack == Close(before);
        case Empty(tag) =>
          var node := ParseTag(tag);
          if stack != [] {
            var parent := stack[|stack| - 1];
            stack := stack[..|stack| - 1] + [parent.(children := parent.children + [node])];
          }
        case Other =>
        case Malformed =>
          return Err(MalformedDocument);
      }
      assert Step(before, events[i]) == Ok(stack);
      i := i + 1;
    }
    if |stack| != 1 {
      return Err(IncompleteDocument(|stack|));
    }
    r := Ok(stack[0]);
  }

  // ---------------------------------------------------------------------------
  // What one event does to the stack
  // ---------------------------------------------------------------------------

  /** A start tag pushes exactly one fresh node carrying the tag's name and attributes and no children. */
  lemma StartPushesNode(stack: seq<XmlItem>, tag: Tag)
    ensures Step(stack, Start(tag)).Ok?
    ensures var next := Step(stack, Start(tag)).value;
      && |next| == |stack| + 1 && next[..|stack|] == stack
      && next[|stack|].name == tag.localName
      && next[|stack|].attributes == CollectAttributes(tag.attributes)
      && next[|stack|].children == []
  {
  }

  /** An end tag with nothing open is fatal. */
  lemma EndOnEmptyStackFails()
    ensures Step([], End) == Err(UnexpectedEndTag)
  {
  }

  /**
   * An end tag pops the top node and appends it as the last child of the node
   * below, leaving the rest of the stack alone; with nothing below, the popped
   * node goes back on the stack as the sole root.
   */
  lemma EndAttachesTop(below: seq<XmlItem>, parent: XmlItem, child: XmlItem)
    ensures Step(below + [parent, child], End) ==
      Ok(below + [parent.(children := parent.children + [child])])
    ensures Step([child], End) == Ok([child])
  {
    var stack := below + [parent, child];
    assert stack[..|stack| - 1] == below + [parent];
    assert (below + [parent])[..|below|] == below;
  }

  /**
   * A self-closing tag appends a childless node to the top's children and keeps
   * the height; with an empty stack the node is dropped.
   */
  lemma EmptyAttachesLeaf(below: seq<XmlItem>, parent: XmlItem, tag: Tag)
    ensures Step(below + [parent], Empty(tag)) ==
      Ok(below + [parent.(children := parent.children + [XmlItem(tag.localName, CollectAttributes(tag.attributes), [])])])
    ensures Step([], Empty(tag)) == Ok([])
  {
    assert (below + [parent])[..|below|] == below;
  }

  // ---------------------------------------------------------------------------
  // Stack height
  // ---------------------------------------------------------------------------

  /**
   * The stack height as a counter alone: a start adds one, an end removes one
   * except at height one, where the root is popped and pushed back.
   */
  function Height(h: nat, events: seq<Event>): Result<nat, ParseError>
    decreases |events|
  {
    if events == [] then Ok(h)
    else
      match events[0]
      case Start(_) => Height(h + 1, events[1..])
      case End => if h == 0 then Err(UnexpectedEndTag) else Height(if h == 1 then 1 else h - 1, events[1..])
      case Empty(_) => Height(h, events[1..])
      case Other => Height(h, events[1..])
      case Malformed => Err(MalformedDocument)
  }

  /** The builder fails exactly when the counter does, with the same error, and otherwise ends at the counted height. */
  lemma {:induction false} RunHeight(stack: seq<XmlItem>, events: seq<Event>)
    ensures Run(stack, events).Ok? <==> Height(|stack|, events).Ok?
    ensures Run(stack, events).Ok? ==> |Run(stack, events).value| == Height(|stack|, events).value
    ensures Run(stack, events).Err? ==> Run(stack, events).error == Height(|stack|, events).error
    decreases |events|
  {
    if events != [] {
      match Step(stack, events[0])
      case Err(_) =>
      case Ok(next) =>
        RunHeight(next, events[1..]);
    }
  }

  /**
   * Parsing succeeds exactly when no end tag meets an empty stack, the reader
   * reports no error, and the height at end of input is one.
   */
  lemma ParseSucceedsIff(events: seq<Event>)
    ensures Parse(events).Ok? <==> Height(0, events) == Ok(1)
    ensures Parse(events).Ok? ==> Run([], events) == Ok([Parse(events).value])
  {
    RunHeight([], events);
    if Parse(events).Ok? {
      var stack := Run([], events).value;
      assert stack == [stack[0]];
    }
  }

  /** Two or more tags left open at end of input make the parse fail. */
  lemma UnclosedInnerTagFails(events: seq<Event>, h: nat)
    requires Height(0, events) == Ok(h) && h != 1
    ensures Parse(events) == Err(IncompleteDocument(h))
  {
    RunHeight([], events);
  }

  // ---------------------------------------------------------------------------
  // Appending events
  // ---------------------------------------------------------------------------

  lemma {:induction false} RunAppend(stack: seq<XmlItem>, a: seq<Event>, b: seq<Event>)
    ensures Run(stack, a + b) == (match Run(stack, a) case Err(e) => Err(e) case Ok(mid) => Run(mid, b))
    decreases |a|
  {
    if a != [] {
      assert (a + b)[0] == a[0] && (a + b)[1..] == a[1..] + b;
      match Step(stack, a[0])
      case Err(_) =>
      case Ok(next) =>
        RunAppend(next, a[1..], b);
    } else {
      assert a + b == b;
    }
  }

  /**
   * Once the outermost element has closed, a further top-level element is not
   * rejected: it becomes the last child of the root.
   */
  lemma TopLevelSiblingNestsUnderRoot(events: seq<Event>, root: XmlItem, tag: Tag)
    requires Run([], events) == Ok([root])
    ensures Parse(events + [Start(tag), End]) == Ok(root.(children := root.children + [ParseTag(tag)]))
  {
    RunAppend([], events, [Start(tag), End]);
    var two := [root, ParseTag(tag)];
    assert [root] + [ParseTag(tag)] == two;
    assert Run([root], [Start(tag), End]) == Run(two, [End]);
    assert two[..1] == [root];
    assert Close(two) == [Adopt(root, ParseTag(tag))];
  }

  /** Once the outermost element has closed, a stray end tag changes nothing. */
  lemma StrayEndAfterRootIgnored(events: seq<Event>, root: XmlItem)
    requires Run([], events) == Ok([root])
    ensures Parse(events + [End]) == Ok(root)
  {
    RunAppend([], events, [End]);
  }

  /** An outermost element that is never closed is still returned as the root. */
  lemma UnclosedRootAccepted(tag: Tag, events: seq<Event>, root: XmlItem)
    requires Run([ParseTag(tag)], events) == Ok([root])
    ensures Parse([Start(tag)] + events) == Ok(root)
  {
    assert ([Start(tag)] + events)[1..] == events;
    assert [] + [ParseTag(tag)] == [ParseTag(tag)];
  }

  // ---------------------------------------------------------------------------
  // Nodes and their order
  // ---------------------------------------------------------------------------

  /** A node stripped of its children. */
  function Bare(t: XmlItem): XmlItem {
    XmlItem(t.name, t.attributes, [])
  }

  /** The nodes of a sequence of trees in document (pre-)order, each without its children. */
  function Forest(ts: seq<XmlItem>): seq<XmlItem>
    decreases ts
  {
    if ts == [] then []
    else [Bare(ts[0])] + Forest(ts[0].children) + Forest(ts[1..])
  }

  /** The nodes of one tree in document order; its length is the number of nodes. */
  function Preorder(root: XmlItem): seq<XmlItem> {
    Forest([root])
  }

  /** The node an event creates, if any. */
  function TagNode(e: Event): seq<XmlItem> {
    match e
    case Start(tag) => [ParseTag(tag)]
    case Empty(tag) => [ParseTag(tag)]
    case _ => []
  }

  /** The node of every start and self-closing tag, in event order. */
  function Tags(events: seq<Event>): seq<XmlItem> {
    if events == [] then [] else TagNode(events[0]) + Tags(events[1..])
  }

  /** The nodes that reach the tree: self-closing tags before the first start tag have no parent and are dropped. */
  function Kept(events: seq<Event>): seq<XmlItem> {
    if events == [] then []
    else
      match events[0]
      case Start(tag) => [ParseTag(tag)] + Tags(events[1..])
      case _ => Kept(events[1..])
  }

  lemma {:induction false} ForestAppend(a: seq<XmlItem>, b: seq<XmlItem>)
    ensures Forest(a + b) == Forest(a) + Forest(b)
    decreases a
  {
    if a == [] {
      assert a + b == b;
    } else {
      assert (a + b)[0] == a[0] && (a + b)[1..] == a[1..] + b;
      ForestAppend(a[1..], b);
    }
  }

  lemma ForestSingle(t: XmlItem)
    ensures Forest([t]) == [Bare(t)] + Forest(t.children)
  {
    assert [t][1..] == [];
  }

  /** Attaching a child as the last one puts its nodes right after the parent's. */
  lemma ForestAdopt(below: seq<XmlItem>, parent: XmlItem, child: XmlItem)
    ensures Forest(below + [Adopt(parent, child)]) == Forest(below + [parent, child])
  {
    calc {
      Forest(below + [Adopt(parent, child)]);
    == { ForestAppend(below, [Adopt(parent, child)]); }
      Forest(below) + Forest([Adopt(parent, child)]);
    == { ForestSingle(Adopt(parent, child)); }
      Forest(below) + ([Bare(parent)] + Forest(parent.children + [child]));
    == { ForestAppend(parent.children, [child]); }
      Forest(below) + ([Bare(parent)] + Forest(parent.children) + Forest([child]));
    == { ForestSingle(parent); }
      Forest(below) + (Forest([parent]) + Forest([child]));
    == { ForestAppend([parent], [child]); assert [parent] + [child] == [parent, child]; }
      Forest(below) + Forest([parent, child]);
    == { ForestAppend(below, [parent, child]); }
      Forest(below + [parent, child]);
    }
  }

  /** One event on a non-empty stack adds the event's node, if any, at the end of the document order. */
  lemma StepPreorder(stack: seq<XmlItem>, e: Event)
    requires stack != [] && Step(stack, e).Ok?
    ensures Step(stack, e).value != []
    ensures Forest(Step(stack, e).value) == Forest(stack) + TagNode(e)
  {
    match e
    case Start(tag) =>
      ForestAppend(stack, [ParseTag(tag)]);
      ForestSingle(ParseTag(tag));
    case End =>
      if |stack| > 1 {
        var below := stack[..|stack| - 2];
        assert stack == below + [stack[|stack| - 2], stack[|stack| - 1]];
        assert stack[..|stack| - 1][..|stack| - 2] == below;
        ForestAdopt(below, stack[|stack| - 2], stack[|stack| - 1]);
      }
    case Empty(tag) =>
      var below := stack[..|stack| - 1];
      assert stack == below + [stack[|stack| - 1]];
      ForestAdopt(below, stack[|stack| - 1], ParseTag(tag));
      ForestAppend(below, [stack[|stack| - 1], ParseTag(tag)]);
      ForestAppend(below, [stack[|stack| - 1]]);
      ForestAppend([stack[|stack| - 1]], [ParseTag(tag)]);
      ForestSingle(ParseTag(tag));
      assert [stack[|stack| - 1]] + [ParseTag(tag)] == [stack[|stack| - 1], ParseTag(tag)];
    case Other =>
    case Malformed =>
  }

  /**
   * Running the builder keeps the nodes in event order: the stack's nodes
   * afterwards are those before, followed by one node per start tag and per
   * self-closing tag that had a parent.
   */
  lemma {:induction false} RunPreorder(stack: seq<XmlItem>, events: seq<Event>)
    requires Run(stack, events).Ok?
    ensures Forest(Run(stack, events).value) == Forest(stack) + (if stack == [] then Kept(events) else Tags(events))
    decreases |events|
  {
    if events == [] {
      return;
    }
    var rest := events[1..];
    var next := Step(stack, events[0]).value;
    RunPreorder(next, rest);
    if stack == [] {
      match events[0]
      case Start(tag) =>
        ForestSingle(ParseTag(tag));
        assert next == [ParseTag(tag)];
      case _ =>
    } else {
      StepPreorder(stack, events[0]);
    }
  }

  /**
   * The tree holds exactly one node per start tag and per self-closing tag
   * that had a parent, and lists them in document order: every attachment
   * appends at the end of the parent's children.
   */
  lemma ParsePreorder(events: seq<Event>)
    requires Parse(events).Ok?
    ensures Preorder(Parse(events).value) == Kept(events)
    ensures |Preorder(Parse(events).value)| == |Kept(events)|
  {
    ParseSucceedsIff(events);
    RunPreorder([], events);
  }
}
