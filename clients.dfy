/** Client code for the builder: the documented examples, stated for every
    choice of argument strings and then instantiated with the documentation's
    own strings, and the behaviours of the facade that follow from its cached
    selectors and its single `combo`. */
module CssClients {
  import opened CssParts
  import opened CssBuilder

  /** `builder.id(i).class(c1).class(c2).stringify()`. */
  method IdClassClass(builder: Builder, i: string, c1: string, c2: string) returns (text: string)
    ensures text == ("#" + i) + ("." + c1 + "." + c2)
  {
    var s := builder.Id(i);
    ghost var m0 := s.Model();
    var r := s.Class(c1);
    assert r == Ok(s) && s.Model() == Put(m0, Slot.Class, "." + c1);
    ghost var m1 := s.Model();
    r := r.value.Class(c2);
    assert r == Ok(s) && s.Model() == Put(m1, Slot.Class, "." + c1 + "." + c2);
    RenderRewriteNew(m0, m1, s.Model(), Slot.Class, "." + c1, "." + c1 + "." + c2);
    text := r.value.Stringify();
  }

  method DocIdClasses() returns (text: string)
    ensures text == "#main.container.editable"
  {
    var builder := new Builder();
    text := IdClassClass(builder, "main", "container", "editable");
  }

  /** `builder.element(e).attr(a).pseudoClass(pc).stringify()`. */
  method ElementAttrPseudoClass(builder: Builder, e: string, a: string, pc: string) returns (text: string)
    ensures text == e + ("[" + a + "]") + (":" + pc)
  {
    var s := builder.Element(e);
    ghost var m0 := s.Model();
    var r := s.Attr(a);
    assert r == Ok(s) && s.Model() == Put(m0, Slot.Attr, "[" + a + "]");
    RenderNewPart(m0, s.Model(), Slot.Attr, "[" + a + "]");
    ghost var m1 := s.Model();
    r := r.value.PseudoClass(pc);
    assert r == Ok(s) && s.Model() == Put(m1, Slot.PseudoClass, ":" + pc);
    RenderNewPart(m1, s.Model(), Slot.PseudoClass, ":" + pc);
    text := r.value.Stringify();
  }

  method DocElementAttrPseudoClass() returns (text: string)
    ensures text == "a[href$=\".png\"]:focus"
  {
    var builder := new Builder();
    text := ElementAttrPseudoClass(builder, "a", "href$=\".png\"", "focus");
  }

  /** `builder.element(e).id(i).class(c1).class(c2)`. */
  method ElementIdClassClass(builder: Builder, e: string, i: string, c1: string, c2: string)
    returns (s: Selector)
    ensures fresh(s) && s.Stringify() == e + ("#" + i) + ("." + c1 + "." + c2)
  {
    s := builder.Element(e);
    ghost var m0 := s.Model();
    var r := s.Id(i);
    assert r == Ok(s) && s.Model() == Put(m0, Slot.Id, "#" + i);
    RenderNewPart(m0, s.Model(), Slot.Id, "#" + i);
    ghost var m1 := s.Model();
    r := r.value.Class(c1);
    assert r == Ok(s) && s.Model() == Put(m1, Slot.Class, "." + c1);
    ghost var m2 := s.Model();
    r := r.value.Class(c2);
    assert r == Ok(s) && s.Model() == Put(m2, Slot.Class, "." + c1 + "." + c2);
    RenderRewriteNew(m1, m2, s.Model(), Slot.Class, "." + c1, "." + c1 + "." + c2);
  }

  /** `builder.element(e).id(i)`. */
  method ElementId(builder: Builder, e: string, i: string) returns (s: Selector)
    ensures fresh(s) && s.Stringify() == e + ("#" + i)
  {
    s := builder.Element(e);
    ghost var m0 := s.Model();
    var r := s.Id(i);
    assert r == Ok(s) && s.Model() == Put(m0, Slot.Id, "#" + i);
    RenderNewPart(m0, s.Model(), Slot.Id, "#" + i);
  }

  /** `builder.element(e).pseudoClass(pc)`. */
  method ElementPseudoClass(builder: Builder, e: string, pc: string) returns (s: Selector)
    ensures fresh(s) && s.Stringify() == e + (":" + pc)
  {
    s := builder.Element(e);
    ghost var m0 := s.Model();
    var r := s.PseudoClass(pc);
    assert r == Ok(s) && s.Model() == Put(m0, Slot.PseudoClass, ":" + pc);
    RenderNewPart(m0, s.Model(), Slot.PseudoClass, ":" + pc);
  }

  /** `builder.combine(a, "+", builder.combine(b, "~", builder.combine(c, " ", d)))`.
      Each argument is evaluated before the call it belongs to, so every inner
      `combine` has written `combo` before the outer one reads it through the
      facade. */
  method NestedCombine(builder: Builder, a: Selector, b: Selector, c: Selector, d: Selector)
    returns (text: Option<string>)
    modifies builder
    ensures text == Some(a.Stringify() + " + " + (b.Stringify() + " ~ "
                         + (c.Stringify() + "   " + d.Stringify())))
  {
    ghost var ta, tb, tc, td := a.Stringify(), b.Stringify(), c.Stringify(), d.Stringify();
    var inner := builder.Combine(Sel(c), " ", Sel(d));
    ghost var t1 := tc + "   " + td;
    assert builder.combo == Some(t1) by { Spaced(tc, " ", td); assert " " + " " + " " == "   "; }
    var middle := inner.Combine(Sel(b), "~", Facade);
    ghost var t2 := tb + " ~ " + t1;
    assert builder.combo == Some(t2) by { Spaced(tb, "~", t1); assert " " + "~" + " " == " ~ "; }
    var outer := middle.Combine(Sel(a), "+", Facade);
    assert builder.combo == Some(ta + " + " + t2) by { Spaced(ta, "+", t2); assert " " + "+" + " " == " + "; }
    text := outer.Stringify();
  }

  /** The nested `combine` of the documentation, with its own strings. */
  method DocNestedCombine() returns (text: Option<string>)
    ensures text == Some("div#main.container.draggable" + " + " + ("table#data" + " ~ "
                         + ("tr:nth-of-type(even)" + "   " + "td:nth-of-type(even)")))
  {
    var builder := new Builder();
    var div := ElementIdClassClass(builder, "div", "main", "container", "draggable");
    var table := ElementId(builder, "table", "data");
    var tr := ElementPseudoClass(builder, "tr", "nth-of-type(even)");
    var td := ElementPseudoClass(builder, "td", "nth-of-type(even)");
    DocDivText();
    DocTableText();
    DocCellTexts();
    text := NestedCombine(builder, div, table, tr, td);
  }

  /** The texts of the selectors of the nested example, part by part. */
  lemma DocDivText()
    ensures "div" + ("#" + "main") + ("." + "container" + "." + "draggable") == "div#main.container.draggable"
  {
  }

  lemma DocTableText()
    ensures "table" + ("#" + "data") == "table#data"
  {
  }

  lemma DocCellTexts()
    ensures "tr" + (":" + "nth-of-type(even)") == "tr:nth-of-type(even)"
    ensures "td" + (":" + "nth-of-type(even)") == "td:nth-of-type(even)"
  {
  }

  /** Every `combine` returns the facade itself: keeping two of its results and
      combining them prints the later one twice. */
  method CombineResultsAlias(builder: Builder, a: Selector, b: Selector, c: Selector, d: Selector)
    returns (text: Option<string>)
    modifies builder
    ensures text == Some((c.Stringify() + " ~ " + d.Stringify()) + "   "
                         + (c.Stringify() + " ~ " + d.Stringify()))
  {
    ghost var tc, td := c.Stringify(), d.Stringify();
    var x := builder.Combine(Sel(a), "+", Sel(b));
    var y := builder.Combine(Sel(c), "~", Sel(d));
    ghost var t := tc + " ~ " + td;
    assert builder.combo == Some(t) by { Spaced(tc, "~", td); assert " " + "~" + " " == " ~ "; }
    assert x == y == builder;
    var z := x.Combine(Facade, " ", Facade);
    assert builder.combo == Some(t + "   " + t) by { Spaced(t, " ", t); assert " " + " " + " " == "   "; }
    text := z.Stringify();
  }

  /** `x + " " + op + " " + y`, the text `combine` writes, with the spaced
      combinator as one piece. */
  lemma Spaced(x: string, op: string, y: string)
    ensures x + " " + op + " " + y == x + (" " + op + " ") + y
  {
  }

  /** A second `id` on one selector is a duplicate part. */
  method SecondId(a: string, b: string) returns (r: Result<Selector>)
    ensures r == Err(DuplicatePart)
  {
    var builder := new Builder();
    var s := builder.Id(a);
    r := s.Id(b);
  }

  /** An `id` after a `class` is out of order, and the selector is unchanged. */
  method IdAfterClass(a: string, b: string) returns (r: Result<Selector>, text: string)
    ensures r == Err(OutOfOrder) && text == "." + a
  {
    var builder := new Builder();
    var s := builder.Class(a);
    r := s.Id(b);
    text := s.Stringify();
  }

  /** `element` looks only at the id: an element after a pseudo-class is
      accepted, and stringify follows creation order. */
  method ElementAfterPseudoClass(pc: string, e: string) returns (text: string)
    ensures text == ":" + pc + e
  {
    var builder := new Builder();
    var s := builder.PseudoClass(pc);
    ghost var m0 := s.Model();
    var r := s.Element(e);
    assert r == Ok(s);
    RenderNewPart(m0, s.Model(), Slot.Element, e);
    text := r.value.Stringify();
  }

  /** A second `attr` replaces the first attribute instead of adding one. */
  method SecondAttr(e: string, x: string, y: string) returns (text: string)
    ensures text == e + "[" + y + "]"
  {
    var builder := new Builder();
    var s := builder.Element(e);
    ghost var m0 := s.Model();
    var r := s.Attr(x);
    assert r == Ok(s) && s.Model() == Put(m0, Slot.Attr, "[" + x + "]");
    ghost var m1 := s.Model();
    r := r.value.Attr(y);
    assert r == Ok(s) && s.Model() == Put(m1, Slot.Attr, "[" + y + "]");
    RenderRewriteNew(m0, m1, s.Model(), Slot.Attr, "[" + x + "]", "[" + y + "]");
    text := r.value.Stringify();
  }

  /** A second `builder.attr` ignores its argument and returns the first
      selector, which now holds `[undefined]`. */
  method CachedAttr(builder: Builder, x: string, y: string) returns (first: string, second: string)
    requires builder.Valid() && builder.attr1 == null
    modifies builder
    ensures first == "[" + x + "]" && second == "[" + Undefined + "]"
  {
    var r := builder.Attr(x);
    var s := r.value;
    first := s.Stringify();
    ghost var m0 := s.Model();
    var r2 := builder.Attr(y);
    assert r2 == Ok(s) && s.Model() == Put(m0, Slot.Attr, "[" + Undefined + "]");
    RenderRewriteNew(Empty, m0, s.Model(), Slot.Attr, "[" + x + "]", "[" + Undefined + "]");
    second := s.Stringify();
  }

  /** Once the cached selector has a pseudo-class, `builder.attr` throws. */
  method CachedAttrAfterPseudoClass(builder: Builder, x: string, pc: string, z: string)
    returns (r: Result<Selector>)
    requires builder.Valid() && builder.attr1 == null
    modifies builder
    ensures r == Err(OutOfOrder)
  {
    var r1 := builder.Attr(x);
    var s := r1.value;
    var r2 := s.PseudoClass(pc);
    assert s.pseudoClass1 != "";
    r := builder.Attr(z);
  }

  /** A second `builder.pseudoElement` returns the first selector as it is. */
  method CachedPseudoElement(a: string, b: string) returns (same: bool, text: string)
    ensures same && text == "::" + a
  {
    var builder := new Builder();
    var s := builder.PseudoElement(a);
    var t := builder.PseudoElement(b);
    same := s == t;
    text := t.Stringify();
  }
}
