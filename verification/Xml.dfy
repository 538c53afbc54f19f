/** Building an XML element tree from the events of a pull parser, with an explicit stack. */
module Xml {
  import opened Options

  datatype Element = Element(name: string, attrs: seq<(string, string)>, children: seq<Element>, text: string)

  /** A well-formed attribute as written; its value is absent when its escapes are malformed. */
  datatype Attribute = Attribute(key: string, value: Option<string>)

  /** The tokenizer's events, their bytes decoded. A text is absent when its escapes are malformed; `Broken` is a
      tokenizer error. */
  datatype Event =
    | Start(name: string, attrs: seq<Attribute>)
    | Empty(name: string, attrs: seq<Attribute>)
    | End
    | Text(text: Option<string>)
    | CData(raw: string)
    | Other
    | Broken

  datatype Failure = Unbalanced | NoRoot | BadText | BadToken

  datatype Result = Ok(root: Element) | Err(failure: Failure)

  /** A name without its namespace prefix: what follows the last colon. */
  function LocalName(s: string): (r: string)
    ensures ':' !in r && |r| <= |s| && r == s[|s| - |r|..]
    ensures |r| < |s| ==> s[|s| - |r| - 1] == ':'
  {
    if s == "" || s[|s| - 1] == ':' then "" else LocalName(s[..|s| - 1]) + [s[|s| - 1]]
  }

  function Attr(a: Attribute): (string, string) {
    (LocalName(a.key), if a.value.Some? then a.value.value else "")
  }

  function Attrs(attrs: seq<Attribute>): seq<(string, string)> {
    seq(|attrs|, i requires 0 <= i < |attrs| => Attr(attrs[i]))
  }

  // ---- The stack machine ----

  datatype State = Running(stack: seq<Element>, root: Option<Element>) | Stopped(failure: Failure)

  const START := Running([], None)

  /** A finished element goes to the element around it, or becomes the root. */
  function Close(stack: seq<Element>, root: Option<Element>, e: Element): State {
    if stack == [] then Running([], Some(e))
    else
      var top := stack[|stack| - 1];
      Running(stack[..|stack| - 1] + [top.(children := top.children + [e])], root)
  }

  function Write(stack: seq<Element>, root: Option<Element>, text: string): State {
    if stack == [] then Running(stack, root)
    else
      var top := stack[|stack| - 1];
      Running(stack[..|stack| - 1] + [top.(text := top.text + text)], root)
  }

  function Step(stack: seq<Element>, root: Option<Element>, e: Event): State {
    match e
    case Start(name, attrs) => Running(stack + [Element(LocalName(name), Attrs(attrs), [], "")], root)
    case Empty(name, _) => Close(stack, root, Element(LocalName(name), [], [], ""))
    case End => if stack == [] then Stopped(Unbalanced) else Close(stack[..|stack| - 1], root, stack[|stack| - 1])
    case Text(text) =>
      if stack != [] && text.None? then Stopped(BadText)
      else Write(stack, root, if text.Some? then text.value else "")
    case CData(raw) => Write(stack, root, raw)
    case Other => Running(stack, root)
    case Broken => Stopped(BadToken)
  }

  function Run(st: State, es: seq<Event>): State
    decreases |es|
  {
    if st.Stopped? || es == [] then st else Run(Step(st.stack, st.root, es[0]), es[1..])
  }

  function Outcome(st: State): Result {
    if st.Stopped? then Err(st.failure) else if st.root.Some? then Ok(st.root.value) else Err(NoRoot)
  }

  function ParseEvents(es: seq<Event>): Result { Outcome(Run(START, es)) }

  /** `parse`: the loop over the tokenizer's events. */
  method Parse(events: seq<Event>) returns (r: Result)
    ensures r == ParseEvents(events)
  {
    hide LocalName;
    hide Attrs;
    var stack: seq<Element> := [];
    var root: Option<Element> := None;
    var i := 0;
    while i < |events|
      invariant 0 <= i <= |events|
      invariant ParseEvents(events) == Outcome(Run(Running(stack, root), events[i..]))
    {
      assert events[i..][0] == events[i] && events[i..][1..] == events[i + 1..];
      match events[i] {
        case Start(name, attrs) => stack := stack + [Element(LocalName(name), Attrs(attrs), [], "")];
        case Empty(name, _) => stack, root := Finish(stack, root, Element(LocalName(name), [], [], ""));
        case End =>
          if stack == [] {
            return Err(Unbalanced);
          }
          var e := stack[|stack| - 1];
          stack := stack[..|stack| - 1];
          stack, root := Finish(stack, root, e);
        case Text(text) =>
          if stack != [] {
            if text.None? {
              return Err(BadText);
            }
            stack := AddText(stack, text.value);
          }
        case CData(raw) =>
          if stack != [] {
            stack := AddText(stack, raw);
          }
        case Other =>
        case Broken => return Err(BadToken);
      }
      i := i + 1;
    }
    r := if root.Some? then Ok(root.value) else Err(NoRoot);
  }

  method Finish(stack: seq<Element>, root: Option<Element>, e: Element)
    returns (stack': seq<Element>, root': Option<Element>)
    ensures Running(stack', root') == Close(stack, root, e)
  {
    stack', root' := stack, root;
    if stack == [] {
      root' := Some(e);
    } else {
      var top := stack[|stack| - 1];
      stack' := stack[..|stack| - 1] + [top.(children := top.children + [e])];
    }
  }

  method AddText(stack: seq<Element>, text: string) returns (stack': seq<Element>)
    requires stack != []
    ensures forall root :: Running(stack', root) == Write(stack, root, text)
  {
    var top := stack[|stack| - 1];
    stack' := stack[..|stack| - 1] + [top.(text := top.text + text)];
  }

  // ---- Composition ----

  lemma {:induction false} RunConcat(st: State, es: seq<Event>, es': seq<Event>)
    ensures Run(st, es + es') == Run(Run(st, es), es')
    decreases |es|
  {
    hide Step;
    if es == [] {
      assert es + es' == es';
    } else if st.Running? {
      assert (es + es')[1..] == es[1..] + es';
      RunConcat(Step(st.stack, st.root, es[0]), es[1..], es');
    }
  }

  lemma {:induction false} RunSnoc(st: State, es: seq<Event>, e: Event)
    ensures var s := Run(st, es); Run(st, es + [e]) == if s.Stopped? then s else Step(s.stack, s.root, e)
  {
    hide Step;
    RunConcat(st, es, [e]);
    var s := Run(st, es);
    if s.Running? {
      assert Run(Step(s.stack, s.root, e), [e][1..]) == Step(s.stack, s.root, e);
    }
  }

  // ---- Documents ----

  /** An element as written: its name, attributes and contents, or an empty-element tag. */
  datatype Doc = Tagged(name: string, attrs: seq<Attribute>, body: seq<Item>) | Bare(name: string, attrs: seq<Attribute>)

  datatype Item = Child(doc: Doc) | Words(text: string) | Raw(raw: string) | Comment

  function Events(d: Doc): seq<Event> {
    match d
    case Tagged(name, attrs, body) => [Start(name, attrs)] + BodyEvents(body) + [End]
    case Bare(name, attrs) => [Empty(name, attrs)]
  }

  function BodyEvents(body: seq<Item>): seq<Event> {
    if body == [] then [] else ItemEvents(body[0]) + BodyEvents(body[1..])
  }

  function ItemEvents(i: Item): seq<Event> {
    match i
    case Child(d) => Events(d)
    case Words(text) => [Text(Some(text))]
    case Raw(raw) => [CData(raw)]
    case Comment => [Other]
  }

  /** The element a document describes: local names, attributes of tagged elements, children in order,
      and the text between them run together. */
  function Tree(d: Doc): Element {
    match d
    case Tagged(name, attrs, body) => Element(LocalName(name), Attrs(attrs), Children(body), TextOf(body))
    case Bare(name, _) => Element(LocalName(name), [], [], "")
  }

  function Children(body: seq<Item>): seq<Element> {
    if body == [] then [] else ItemChild(body[0]) + Children(body[1..])
  }

  function ItemChild(i: Item): seq<Element> {
    match i
    case Child(d) => [Tree(d)]
    case _ => []
  }

  function ItemText(i: Item): string {
    match i
    case Words(text) => text
    case Raw(raw) => raw
    case _ => ""
  }

  function TextOf(body: seq<Item>): string {
    if body == [] then ""
    else ItemText(body[0]) + TextOf(body[1..])
  }
}
