/** What the XML tree builder promises, for every document and for every stream of events. */
module XmlTheorems {
  import opened Options
  import opened Sequences
  import opened Xml

  // ---- Every document is rebuilt ----

  /** The innermost open element after some contents: their children and text added behind its own. */
  function Filled(top: Element, body: seq<Item>): Element {
    top.(children := top.children + Children(body), text := top.text + TextOf(body))
  }

  /** In any context, an element's events leave the stack as it was and hand on the element's tree. */
  lemma {:induction false} DocRuns(d: Doc, stack: seq<Element>, root: Option<Element>)
    ensures Run(Running(stack, root), Events(d)) == Close(stack, root, Tree(d))
    decreases d
  {
    hide LocalName;
    hide Attrs;
    match d
    case Bare(name, attrs) => RunOne(Running(stack, root), Empty(name, attrs));
    case Tagged(name, attrs, body) =>
      TaggedRuns(Start(name, attrs), Element(LocalName(name), Attrs(attrs), [], ""), body, stack, root);
  }

  lemma {:induction false} TaggedRuns(start: Event, top: Element, body: seq<Item>, stack: seq<Element>,
                                      root: Option<Element>)
    requires Step(stack, root, start) == Running(stack + [top], root) && top.children == [] && top.text == ""
    ensures Run(Running(stack, root), [start] + BodyEvents(body) + [End])
         == Close(stack, root, top.(children := Children(body), text := TextOf(body)))
    decreases body, 1
  {
    hide Step;
    var st := Running(stack, root);
    RunOne(st, start);
    RunConcat(st, [start], BodyEvents(body));
    BodyRuns(body, stack, top, root);
    RunSnoc(st, [start] + BodyEvents(body), End);
    EndCloses(stack, root, Filled(top, body));
    assert Filled(top, body) == top.(children := Children(body), text := TextOf(body));
  }

  lemma {:induction false} RunOne(st: State, e: Event)
    requires st.Running?
    ensures Run(st, [e]) == Step(st.stack, st.root, e)
  {
    hide Step;
    assert [] + [e] == [e];
    RunSnoc(st, [], e);
  }

  lemma {:induction false} EndCloses(stack: seq<Element>, root: Option<Element>, top: Element)
    ensures Step(stack + [top], root, End) == Close(stack, root, top)
  {
    assert (stack + [top])[..|stack|] == stack;
  }

  /** The stack below the open element is untouched while its contents are read. */
  lemma {:induction false} BodyRuns(body: seq<Item>, stack: seq<Element>, top: Element, root: Option<Element>)
    ensures Run(Running(stack + [top], root), BodyEvents(body)) == Running(stack + [Filled(top, body)], root)
    decreases body, 0
  {
    hide Step;
    hide Tree;
    if body == [] {
      assert Filled(top, body) == top;
    } else {
      ItemRuns(body[0], stack, top, root);
      var top' := top.(children := top.children + ItemChild(body[0]), text := top.text + ItemText(body[0]));
      RunConcat(Running(stack + [top], root), ItemEvents(body[0]), BodyEvents(body[1..]));
      BodyRuns(body[1..], stack, top', root);
      assert Filled(top', body[1..]) == Filled(top, body) by { Regroup(top, body); }
    }
  }

  lemma {:induction false} Regroup(top: Element, body: seq<Item>)
    requires body != []
    ensures top.children + ItemChild(body[0]) + Children(body[1..]) == top.children + Children(body)
    ensures top.text + ItemText(body[0]) + TextOf(body[1..]) == top.text + TextOf(body)
  {
    hide ItemChild;
    hide ItemText;
    Glue(top.children, ItemChild(body[0]), Children(body[1..]));
    Glue(top.text, ItemText(body[0]), TextOf(body[1..]));
  }

  lemma {:induction false} ItemRuns(i: Item, stack: seq<Element>, top: Element, root: Option<Element>)
    ensures Run(Running(stack + [top], root), ItemEvents(i))
         == Running(stack + [top.(children := top.children + ItemChild(i), text := top.text + ItemText(i))], root)
    decreases i
  {
    hide Tree;
    var st := Running(stack + [top], root);
    assert (stack + [top])[..|stack|] == stack;
    assert top.children + [] == top.children && top.text + "" == top.text;
    match i
    case Child(d) => DocRuns(d, stack + [top], root);
    case Words(text) => RunOne(st, Text(Some(text)));
    case Raw(raw) => RunOne(st, CData(raw));
    case Comment => RunOne(st, Other);
  }

  /** What may stand around the root element: declarations, comments, white space. */
  predicate Around(e: Event) { e.Text? || e.CData? || e.Other? }

  lemma {:induction false} AroundRuns(es: seq<Event>, root: Option<Element>)
    requires forall i :: 0 <= i < |es| ==> Around(es[i])
    ensures Run(Running([], root), es) == Running([], root)
    decreases |es|
  {
    if es != [] {
      assert Step([], root, es[0]) == Running([], root);
      AroundRuns(es[1..], root);
    }
  }

  /** REBUILD. Every document, with anything but elements around its root, is parsed to its tree. */
  lemma {:induction false} DocumentRebuilt(before: seq<Event>, d: Doc, after: seq<Event>)
    requires forall i :: 0 <= i < |before| ==> Around(before[i])
    requires forall i :: 0 <= i < |after| ==> Around(after[i])
    ensures ParseEvents(before + Events(d) + after) == Ok(Tree(d))
  {
    hide Events;
    hide Tree;
    RunConcat(START, before + Events(d), after);
    RunConcat(START, before, Events(d));
    AroundRuns(before, None);
    DocRuns(d, [], None);
    AroundRuns(after, Some(Tree(d)));
  }

  // ---- Attributes of empty-element tags ----

  /** The tree with every attribute that was written, on empty-element tags too. A value whose escapes are malformed
      is read as the empty text, here as there. */
  function FullTree(d: Doc): Element {
    match d
    case Tagged(name, attrs, body) => Element(LocalName(name), Attrs(attrs), FullChildren(body), TextOf(body))
    case Bare(name, attrs) => Element(LocalName(name), Attrs(attrs), [], "")
  }

  function FullChildren(body: seq<Item>): seq<Element> {
    if body == [] then [] else FullChild(body[0]) + FullChildren(body[1..])
  }

  function FullChild(i: Item): seq<Element> {
    match i
    case Child(d) => [FullTree(d)]
    case _ => []
  }

  /** No empty-element tag in the document has attributes. */
  predicate Kept(d: Doc) {
    match d
    case Tagged(_, _, body) => KeptBody(body)
    case Bare(_, attrs) => attrs == []
  }

  predicate KeptBody(body: seq<Item>) {
    body == [] || (KeptItem(body[0]) && KeptBody(body[1..]))
  }

  predicate KeptItem(i: Item) {
    match i
    case Child(d) => Kept(d)
    case _ => true
  }

  lemma {:induction false} TreeFull(d: Doc)
    ensures Tree(d) == FullTree(d) <==> Kept(d)
    decreases d
  {
    hide LocalName;
    hide Attr;
    hide Children;
    hide FullChildren;
    hide KeptBody;
    if d.Tagged? {
      ChildrenFull(d.body);
    } else {
      assert |Attrs(d.attrs)| == |d.attrs|;
    }
  }

  lemma {:induction false} ChildrenFull(body: seq<Item>)
    ensures Children(body) == FullChildren(body) <==> KeptBody(body)
    decreases body
  {
    if body != [] {
      ChildFull(body[0]);
      ChildrenFull(body[1..]);
      Aligned(ItemChild(body[0]), FullChild(body[0]), Children(body[1..]), FullChildren(body[1..]));
    }
  }

  lemma {:induction false} ChildFull(i: Item)
    ensures |ItemChild(i)| == |FullChild(i)|
    ensures ItemChild(i) == FullChild(i) <==> KeptItem(i)
    decreases i
  {
    if i.Child? {
      TreeFull(i.doc);
      assert [Tree(i.doc)][0] == Tree(i.doc) && [FullTree(i.doc)][0] == FullTree(i.doc);
    }
  }

  lemma {:induction false} Aligned<T>(a: seq<T>, b: seq<T>, x: seq<T>, y: seq<T>)
    requires |a| == |b|
    ensures a + x == b + y <==> a == b && x == y
  {
    if a + x == b + y {
      assert a == (a + x)[..|a|] && b == (b + y)[..|a|];
      assert x == (a + x)[|a|..] && y == (b + y)[|a|..];
    }
  }

  /** ATTRIBUTES. A document is rebuilt with all the attributes of its tags, each with the value the reader gives it,
      exactly when no empty-element tag in it has any. */
  lemma {:induction false} AttributesKept(before: seq<Event>, d: Doc, after: seq<Event>)
    requires forall i :: 0 <= i < |before| ==> Around(before[i])
    requires forall i :: 0 <= i < |after| ==> Around(after[i])
    ensures ParseEvents(before + Events(d) + after) == Ok(FullTree(d)) <==> Kept(d)
  {
    DocumentRebuilt(before, d, after);
    TreeFull(d);
  }

  /** The loss at one input: the only attribute of an empty-element tag is gone. */
  lemma {:induction false} AttributeLost()
    ensures var d := Bare("a", [Attribute("b", Some("c"))]);
            && FullTree(d) == Element("a", [("b", "c")], [], "")
            && ParseEvents(Events(d)) == Ok(Element("a", [], [], ""))
  {
    BareLoses("a", "b", "c");
  }

  lemma {:induction false} BareLoses(name: string, key: string, value: string)
    requires ':' !in name && ':' !in key
    ensures var d := Bare(name, [Attribute(key, Some(value))]);
            && FullTree(d) == Element(name, [(key, value)], [], "")
            && ParseEvents(Events(d)) == Ok(Element(name, [], [], ""))
  {
    hide ParseEvents;
    hide LocalName;
    var d := Bare(name, [Attribute(key, Some(value))]);
    DocumentRebuilt([], d, []);
    assert [] + Events(d) + [] == Events(d);
    NoColon(name);
    NoColon(key);
    assert Attrs(d.attrs) == [(key, value)];
  }

  lemma {:induction false} NoColon(s: string)
    requires ':' !in s
    ensures LocalName(s) == s
  {
    if s != "" {
      NoColon(s[..|s| - 1]);
    }
  }

  // ---- Every stream of events ----

  /** Open elements after some events, counting tags only; negative once there were more ends than starts. */
  function Depth(es: seq<Event>): int {
    if es == [] then 0
    else Depth(es[..|es| - 1]) + Delta(es[|es| - 1])
  }

  function Delta(e: Event): int {
    match e
    case Start(_, _) => 1
    case End => -1
    case _ => 0
  }

  /** The tokenizer reported no error, and no text has malformed escapes. */
  predicate Clean(es: seq<Event>) {
    forall i :: 0 <= i < |es| ==> !es[i].Broken? && (es[i].Text? ==> es[i].text.Some?)
  }

  ghost predicate Dips(es: seq<Event>) {
    exists n :: 0 <= n <= |es| && Depth(es[..n]) < 0
  }

  /** The `n`-th event completes an element that no other encloses. */
  predicate Completes(es: seq<Event>, n: nat)
    requires n < |es|
  {
    (es[n].End? && Depth(es[..n + 1]) == 0) || (es[n].Empty? && Depth(es[..n]) == 0)
  }

  ghost predicate HasRoot(es: seq<Event>) {
    exists n :: 0 <= n < |es| && Completes(es, n)
  }

  /** The stack is as deep as the tags say, and a root is known once one was completed. */
  ghost predicate Tracks(es: seq<Event>, st: State) {
    if Dips(es) then st == Stopped(Unbalanced)
    else st.Running? && |st.stack| == Depth(es) && (st.root.Some? <==> HasRoot(es))
  }

  lemma {:induction false} DipsSnoc(es: seq<Event>, e: Event)
    ensures Dips(es + [e]) <==> Dips(es) || Depth(es + [e]) < 0
  {
    var es' := es + [e];
    assert es'[..|es'|] == es';
    if Dips(es') {
      var n :| 0 <= n <= |es'| && Depth(es'[..n]) < 0;
      if n <= |es| {
        assert es'[..n] == es[..n];
      }
    }
    if Dips(es) {
      var n :| 0 <= n <= |es| && Depth(es[..n]) < 0;
      assert es'[..n] == es[..n];
    }
  }

  lemma {:induction false} HasRootSnoc(es: seq<Event>, e: Event)
    ensures HasRoot(es + [e]) <==> HasRoot(es) || (e.End? && Depth(es + [e]) == 0) || (e.Empty? && Depth(es) == 0)
  {
    var es' := es + [e];
    assert es'[..|es'|] == es' && es'[..|es|] == es;
    forall n | 0 <= n < |es|
      ensures Completes(es', n) <==> Completes(es, n)
    {
      assert es'[..n] == es[..n] && es'[..n + 1] == es[..n + 1];
    }
    assert Completes(es', |es|) <==> (e.End? && Depth(es') == 0) || (e.Empty? && Depth(es) == 0);
  }

  lemma {:induction false} StepDepth(stack: seq<Element>, root: Option<Element>, e: Event)
    requires !e.Broken? && (e.Text? ==> e.text.Some?)
    ensures var st := Step(stack, root, e);
            if e.End? && stack == [] then st == Stopped(Unbalanced)
            else
              && st.Running? && |st.stack| == |stack| + Delta(e)
              && (st.root.Some? <==> root.Some? || (e.End? && |stack| == 1) || (e.Empty? && stack == []))
  {
    hide LocalName;
    hide Attrs;
  }

  lemma {:induction false} TracksStep(es: seq<Event>, e: Event, st: State)
    requires Clean(es + [e]) && Tracks(es, st)
    ensures Tracks(es + [e], if st.Stopped? then st else Step(st.stack, st.root, e))
  {
    hide Step;
    var es' := es + [e];
    DipsSnoc(es, e);
    HasRootSnoc(es, e);
    assert es'[..|es|] == es;
    assert es'[|es|] == e;
    if !Dips(es) {
      StepDepth(st.stack, st.root, e);
    }
  }

  lemma {:induction false} RunTracks(es: seq<Event>)
    requires Clean(es)
    ensures Tracks(es, Run(START, es))
    decreases |es|
  {
    hide Step;
    if es == [] {
      assert es[..0] == [];
    } else {
      var front, e := es[..|es| - 1], es[|es| - 1];
      assert es == front + [e];
      RunTracks(front);
      TracksStep(front, e, Run(START, front));
      RunSnoc(START, front, e);
    }
  }

  /** VERDICT. For every stream of clean events: the document is refused as unbalanced exactly when at some point
      more elements were ended than started, and otherwise accepted exactly when some outermost element was
      completed. */
  lemma {:induction false} Verdict(es: seq<Event>)
    requires Clean(es)
    ensures ParseEvents(es) == Err(Unbalanced) <==> Dips(es)
    ensures ParseEvents(es).Ok? <==> !Dips(es) && HasRoot(es)
    ensures ParseEvents(es) == Err(NoRoot) <==> !Dips(es) && !HasRoot(es)
  {
    RunTracks(es);
  }

  // ---- Documents cut short ----

  lemma {:induction false} DepthConcat(es: seq<Event>, es': seq<Event>)
    ensures Depth(es + es') == Depth(es) + Depth(es')
    decreases |es'|
  {
    if es' == [] {
      assert es + es' == es;
    } else {
      var front := es'[..|es'| - 1];
      DepthConcat(es, front);
      assert (es + es')[..|es + es'| - 1] == es + front;
    }
  }

  /** Ends where it began, and never dips below on the way. */
  ghost predicate Level(es: seq<Event>) {
    Depth(es) == 0 && forall n :: 0 <= n <= |es| ==> Depth(es[..n]) >= 0
  }

  lemma {:induction false} LevelConcat(es: seq<Event>, es': seq<Event>)
    requires Level(es) && Level(es')
    ensures Level(es + es')
  {
    DepthConcat(es, es');
    forall n | 0 <= n <= |es + es'|
      ensures Depth((es + es')[..n]) >= 0
    {
      if n <= |es| {
        assert (es + es')[..n] == es[..n];
      } else {
        assert (es + es')[..n] == es + es'[..n - |es|];
        DepthConcat(es, es'[..n - |es|]);
      }
    }
  }

  /** A tagged element keeps itself open until its last event. */
  lemma {:induction false} TagsOpen(d: Doc, n: nat)
    requires d.Tagged? && Level(BodyEvents(d.body)) && 0 < n < |Events(d)|
    ensures Depth(Events(d)[..n]) >= 1 && Depth(Events(d)) == 0
  {
    var start, body := [Start(d.name, d.attrs)], BodyEvents(d.body);
    assert Events(d)[..n] == start + body[..n - 1];
    DepthConcat(start, body[..n - 1]);
    DepthConcat(start + body, [End]);
    DepthConcat(start, body);
    assert start[..0] == [] && [End][..0] == [];
    assert Depth(start) == 1 && Depth([End]) == -1;
  }

  lemma {:induction false} DocLevel(d: Doc)
    ensures Level(Events(d))
    decreases d
  {
    if d.Tagged? {
      BodyLevel(d.body);
      forall n | 0 < n < |Events(d)|
        ensures Depth(Events(d)[..n]) >= 0
      {
        TagsOpen(d, n);
      }
      TagsOpen(d, 1);
      assert Events(d)[..|Events(d)|] == Events(d);
    } else {
      assert Events(d)[..1] == Events(d) && Events(d)[..0] == [];
    }
  }

  lemma {:induction false} BodyLevel(body: seq<Item>)
    ensures Level(BodyEvents(body))
    decreases body
  {
    if body != [] {
      ItemLevel(body[0]);
      BodyLevel(body[1..]);
      LevelConcat(ItemEvents(body[0]), BodyEvents(body[1..]));
    }
  }

  lemma {:induction false} ItemLevel(i: Item)
    ensures Level(ItemEvents(i))
    decreases i
  {
    if i.Child? {
      DocLevel(i.doc);
    } else {
      assert ItemEvents(i)[..0] == [] && ItemEvents(i)[..1] == ItemEvents(i);
    }
  }

  lemma {:induction false} DocClean(d: Doc)
    ensures Clean(Events(d))
    decreases d
  {
    if d.Tagged? {
      BodyClean(d.body);
    }
  }

  lemma {:induction false} BodyClean(body: seq<Item>)
    ensures Clean(BodyEvents(body))
    decreases body
  {
    if body != [] {
      ItemClean(body[0]);
      BodyClean(body[1..]);
    }
  }

  lemma {:induction false} ItemClean(i: Item)
    ensures Clean(ItemEvents(i))
    decreases i
  {
    if i.Child? {
      DocClean(i.doc);
    }
  }

  /** TRUNCATION. A document cut off before its last event, at any event, is refused for want of a root. */
  lemma {:induction false} CutShort(d: Doc, n: nat)
    requires n < |Events(d)|
    ensures ParseEvents(Events(d)[..n]) == Err(NoRoot)
  {
    var es := Events(d)[..n];
    DocClean(d);
    DocLevel(d);
    forall m | 0 <= m <= n
      ensures Depth(es[..m]) >= 0
    {
      assert es[..m] == Events(d)[..m];
    }
    forall m | 0 <= m < n
      ensures !Completes(es, m)
    {
      CutOpen(d, n, m);
    }
    Verdict(es);
  }

  lemma {:induction false} CutOpen(d: Doc, n: nat, m: nat)
    requires m < n < |Events(d)|
    ensures !Completes(Events(d)[..n], m)
  {
    var es := Events(d)[..n];
    BodyLevel(d.body);
    assert es[..m] == Events(d)[..m] && es[..m + 1] == Events(d)[..m + 1];
    TagsOpen(d, m + 1);
    if m > 0 {
      TagsOpen(d, m);
    }
  }
}
