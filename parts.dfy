/** The value-level model of one CSS simple selector as the builder accumulates it.
    A selector object has six string properties (element1, id1, class1, attr1,
    pseudoClass1, pseudoElement1). A property that was never written reads as
    the empty string here, which is also the only falsy string, so "" stands for
    "unset" exactly where the JavaScript truthiness checks look at it. The
    property creation order is kept in `keys`, because stringifying the object
    concatenates its property values in that order. */
module CssParts {

  /** The six parts of a simple selector, in canonical order. */
  datatype Slot = Element | Id | Class | Attr | PseudoClass | PseudoElement

  /** The two kinds of exception the setters throw. */
  datatype SelectorError =
    | DuplicatePart   // "should not occur more then one time"
    | OutOfOrder      // "should be arranged in the following order"

  datatype Result<+T> = Ok(value: T) | Err(error: SelectorError)

  datatype Option<+T> = None | Some(value: T)

  /** What a template literal prints for an absent argument. */
  const Undefined: string := "undefined"

  /** Position of a slot in `element#id.class[attr]:pseudoClass::pseudoElement`. */
  function Rank(s: Slot): (n: nat)
    ensures n < 6
  {
    match s
    case Element => 0
    case Id => 1
    case Class => 2
    case Attr => 3
    case PseudoClass => 4
    case PseudoElement => 5
  }

  function SlotAt(n: nat): (s: Slot)
    requires n < 6
    ensures Rank(s) == n
  {
    if n == 0 then Element
    else if n == 1 then Id
    else if n == 2 then Class
    else if n == 3 then Attr
    else if n == 4 then PseudoClass
    else PseudoElement
  }

  /** The state of one selector object: its six slots and the order in which
      their properties were first created. */
  datatype Parts = Parts(
    element: string, id: string, cls: string, attr: string,
    pseudoClass: string, pseudoElement: string,
    keys: seq<Slot>)

  /** A freshly constructed selector: no own properties at all. */
  const Empty: Parts := Parts("", "", "", "", "", "", [])

  function Get(p: Parts, s: Slot): (r: string)
  {
    match s
    case Element => p.element
    case Id => p.id
    case Class => p.cls
    case Attr => p.attr
    case PseudoClass => p.pseudoClass
    case PseudoElement => p.pseudoElement
  }

  /** Assigning a property creates it at the end of the key order the first
      time, and leaves its position alone afterwards. */
  function Touch(keys: seq<Slot>, s: Slot): (r: seq<Slot>)
    ensures s in r
    ensures forall t :: t in r <==> t in keys || t == s
    ensures s in keys ==> r == keys
    ensures s !in keys ==> r == keys + [s]
  {
    if s in keys then keys else keys + [s]
  }

  /** `q` is `p` after the assignment `this.<s> = v`: slot `s` holds `v`, every
      other slot is as before, and the key order records the assignment. */
  ghost predicate Written(p: Parts, q: Parts, s: Slot, v: string)
  {
    && Get(q, s) == v
    && (forall t :: t != s ==> Get(q, t) == Get(p, t))
    && q.keys == Touch(p.keys, s)
  }

  function Put(p: Parts, s: Slot, v: string): (q: Parts)
    ensures Written(p, q, s, v)
  {
    var keys := Touch(p.keys, s);
    match s
    case Element => p.(element := v, keys := keys)
    case Id => p.(id := v, keys := keys)
    case Class => p.(cls := v, keys := keys)
    case Attr => p.(attr := v, keys := keys)
    case PseudoClass => p.(pseudoClass := v, keys := keys)
    case PseudoElement => p.(pseudoElement := v, keys := keys)
  }

  /** A selector with only slot `s` set, to `v`. */
  function Only(s: Slot, v: string): (p: Parts)
    ensures Written(Empty, p, s, v)
    ensures p.keys == [s]
  {
    Put(Empty, s, v)
  }

  /** Every key is created once; every set slot has its key; every key other
      than `element` (the one slot written without a prefix) holds a non-empty
      value. */
  ghost predicate Wf(p: Parts)
  {
    && (forall i, j :: 0 <= i < j < |p.keys| ==> p.keys[i] != p.keys[j])
    && (forall s :: Get(p, s) != "" ==> s in p.keys)
    && (forall s :: s in p.keys && s != Element ==> Get(p, s) != "")
  }

  /** The key order is the canonical order. */
  ghost predicate Ordered(keys: seq<Slot>)
  {
    forall i, j :: 0 <= i < j < |keys| ==> Rank(keys[i]) < Rank(keys[j])
  }

  lemma WrittenKeepsWf(p: Parts, q: Parts, s: Slot, v: string)
    requires Written(p, q, s, v)
    requires s != Element ==> v != ""
    ensures Wf(p) ==> Wf(q)
  {
    if Wf(p) {
      forall i, j | 0 <= i < j < |q.keys| ensures q.keys[i] != q.keys[j] {
        if s !in p.keys && j == |p.keys| {
          assert q.keys[i] == p.keys[i];
        }
      }
    }
  }

  // ---------------------------------------------------------------------------
  // The six setters of class Selector, as functions of the state before the call.
  // ---------------------------------------------------------------------------

  /** `element(v)`: rejects a second element, and any element once an id is set. */
  function SetElement(p: Parts, v: string): (r: Result<Parts>)
    ensures r == Err(DuplicatePart) <==> p.element != ""
    ensures r == Err(OutOfOrder) <==> p.element == "" && p.id != ""
    ensures r.Ok? ==> Written(p, r.value, Element, v)
  {
    if p.element != "" then Err(DuplicatePart)
    else if p.id != "" then Err(OutOfOrder)
    else
      Ok(Put(p, Element, v))
  }

  /** `id(v)`: rejects a second id, and an id after a class or a pseudo-element;
      an attribute or a pseudo-class already set does not stop it. */
  function SetId(p: Parts, v: string): (r: Result<Parts>)
    ensures r == Err(DuplicatePart) <==> p.id != ""
    ensures r == Err(OutOfOrder) <==> p.id == "" && (p.cls != "" || p.pseudoElement != "")
    ensures r.Ok? ==> Written(p, r.value, Id, "#" + v)
  {
    if p.id != "" then Err(DuplicatePart)
    else if p.cls != "" || p.pseudoElement != "" then Err(OutOfOrder)
    else
      Ok(Put(p, Id, "#" + v))
  }

  /** `class(v)`: rejects a class after an attribute; otherwise appends `.v`. */
  function SetClass(p: Parts, v: string): (r: Result<Parts>)
    ensures r != Err(DuplicatePart)
    ensures r == Err(OutOfOrder) <==> p.attr != ""
    ensures r.Ok? ==> Written(p, r.value, Class, p.cls + "." + v)
  {
    if p.attr != "" then Err(OutOfOrder)
    else
      var c := if p.cls == "" then "." + v else p.cls + "." + v;
      assert c == p.cls + "." + v;
      Ok(Put(p, Class, c))
  }

  /** `attr(v)`: rejects an attribute after a pseudo-class; otherwise REPLACES
      the attribute slot with `[v]` (a second attribute does not accumulate). */
  function SetAttr(p: Parts, v: string): (r: Result<Parts>)
    ensures r != Err(DuplicatePart)
    ensures r == Err(OutOfOrder) <==> p.pseudoClass != ""
    ensures r.Ok? ==> Written(p, r.value, Attr, "[" + v + "]")
  {
    if p.pseudoClass != "" then Err(OutOfOrder)
    else
      Ok(Put(p, Attr, "[" + v + "]"))
  }

  /** `pseudoClass(v)`: rejects a pseudo-class after a pseudo-element; otherwise
      appends `:v`. */
  function SetPseudoClass(p: Parts, v: string): (r: Result<Parts>)
    ensures r != Err(DuplicatePart)
    ensures r == Err(OutOfOrder) <==> p.pseudoElement != ""
    ensures r.Ok? ==> Written(p, r.value, PseudoClass, p.pseudoClass + ":" + v)
  {
    if p.pseudoElement != "" then Err(OutOfOrder)
    else
      var c := if p.pseudoClass == "" then ":" + v else p.pseudoClass + ":" + v;
      assert c == p.pseudoClass + ":" + v;
      Ok(Put(p, PseudoClass, c))
  }

  /** `pseudoElement(v)`: rejects a second pseudo-element; nothing else. */
  function SetPseudoElement(p: Parts, v: string): (r: Result<Parts>)
    ensures r == Err(DuplicatePart) <==> p.pseudoElement != ""
    ensures r != Err(OutOfOrder)
    ensures r.Ok? ==> Written(p, r.value, PseudoElement, "::" + v)
  {
    if p.pseudoElement != "" then Err(DuplicatePart)
    else
      Ok(Put(p, PseudoElement, "::" + v))
  }

  // ---------------------------------------------------------------------------
  // stringify
  // ---------------------------------------------------------------------------

  /** The values of the listed properties, concatenated in list order
      (`Object.values(...).join('')`). */
  function Join(p: Parts, ks: seq<Slot>): (r: string)
  {
    if ks == [] then "" else Get(p, ks[0]) + Join(p, ks[1..])
  }

  /** What `stringify` returns: the property values in creation order. */
  function Render(p: Parts): (r: string)
  {
    Join(p, p.keys)
  }

  lemma {:induction false} JoinAppend(p: Parts, ks: seq<Slot>, s: Slot)
    ensures Join(p, ks + [s]) == Join(p, ks) + Get(p, s)
    decreases |ks|
  {
    if ks == [] {
      assert [s][1..] == [];
    } else {
      assert (ks + [s])[1..] == ks[1..] + [s];
      JoinAppend(p, ks[1..], s);
      Associative(Get(p, ks[0]), Join(p, ks[1..]), Get(p, s));
    }
  }

  lemma {:induction false} JoinSameParts(p: Parts, q: Parts, ks: seq<Slot>)
    requires forall i :: 0 <= i < |ks| ==> Get(q, ks[i]) == Get(p, ks[i])
    ensures Join(q, ks) == Join(p, ks)
    decreases |ks|
  {
    if ks != [] {
      JoinSameParts(p, q, ks[1..]);
    }
  }

  /** Creating a property appends its value to what stringify returns: the
      output follows creation order, not the canonical order. */
  lemma RenderNewPart(p: Parts, q: Parts, s: Slot, v: string)
    requires s !in p.keys && Written(p, q, s, v)
    ensures Render(q) == Render(p) + v
  {
    JoinAppend(q, p.keys, s);
    JoinSameParts(p, q, p.keys);
  }

  /** Creating a property and then rewriting it before any other property is
      created leaves only the second value at the end of what stringify returns. */
  lemma RenderRewriteNew(p: Parts, q: Parts, r: Parts, s: Slot, v: string, w: string)
    requires s !in p.keys && Written(p, q, s, v) && Written(q, r, s, w)
    ensures Render(r) == Render(p) + w
  {
    assert r.keys == p.keys + [s];
    JoinAppend(r, p.keys, s);
    forall i | 0 <= i < |p.keys| ensures Get(r, p.keys[i]) == Get(p, p.keys[i]) {
      assert p.keys[i] != s;
    }
    JoinSameParts(p, r, p.keys);
  }

  /** The slots of rank `k` and above, concatenated in canonical order. */
  function CanonFrom(p: Parts, k: nat): (r: string)
    requires k <= 6
    decreases 6 - k
  {
    if k == 6 then "" else Get(p, SlotAt(k)) + CanonFrom(p, k + 1)
  }

  /** `element#id.class[attr]:pseudoClass::pseudoElement`, with unset parts empty. */
  function Canon(p: Parts): (r: string)
  {
    p.element + p.id + p.cls + p.attr + p.pseudoClass + p.pseudoElement
  }

  lemma {:induction false} JoinOrderedFrom(p: Parts, ks: seq<Slot>, k: nat)
    requires k <= 6
    requires Ordered(ks)
    requires forall i :: 0 <= i < |ks| ==> Rank(ks[i]) >= k
    requires forall s :: Rank(s) >= k && Get(p, s) != "" ==> s in ks
    ensures Join(p, ks) == CanonFrom(p, k)
    decreases 6 - k
  {
    if k == 6 {
    } else if ks != [] && ks[0] == SlotAt(k) {
      forall i | 0 <= i < |ks[1..]| ensures Rank(ks[1..][i]) >= k + 1 {
        assert Rank(ks[0]) < Rank(ks[i + 1]);
      }
      forall s | Rank(s) >= k + 1 && Get(p, s) != "" ensures s in ks[1..] {
        assert s in ks && s != ks[0];
      }
      JoinOrderedFrom(p, ks[1..], k + 1);
    } else {
      var s := SlotAt(k);
      assert s !in ks;
      forall i | 0 <= i < |ks| ensures Rank(ks[i]) >= k + 1 {
        assert ks[i] != s;
      }
      JoinOrderedFrom(p, ks, k + 1);
    }
  }

  /** When the properties were created in canonical order, stringify produces
      the canonical `element#id.class[attr]:pseudoClass::pseudoElement` form. */
  lemma RenderOrdered(p: Parts)
    requires Wf(p) && Ordered(p.keys)
    ensures Render(p) == Canon(p)
  {
    forall i | 0 <= i < |p.keys| ensures Rank(p.keys[i]) >= 0 { }
    JoinOrderedFrom(p, p.keys, 0);
    CanonFromStart(p);
  }

  lemma CanonFromStart(p: Parts)
    ensures CanonFrom(p, 0) == Canon(p)
  {
    var e, i, c, a, pc, pe := p.element, p.id, p.cls, p.attr, p.pseudoClass, p.pseudoElement;
    assert CanonFrom(p, 5) == pe + "" == pe;
    assert CanonFrom(p, 4) == pc + pe;
    assert CanonFrom(p, 3) == a + (pc + pe);
    assert CanonFrom(p, 2) == c + (a + (pc + pe));
    assert CanonFrom(p, 1) == i + (c + (a + (pc + pe)));
    assert CanonFrom(p, 0) == e + (i + (c + (a + (pc + pe))));
    Associative(e, i, c + (a + (pc + pe)));
    Associative(e + i, c, a + (pc + pe));
    Associative(e + i + c, a, pc + pe);
    Associative(e + i + c + a, pc, pe);
  }

  // ---------------------------------------------------------------------------
  // Fluent chains: `s.m1(v1).m2(v2)...`, which stops at the first throw.
  // ---------------------------------------------------------------------------

  datatype Call = Call(slot: Slot, value: string)

  /** One setter call, dispatched on the slot it names. */
  function Apply(p: Parts, c: Call): (r: Result<Parts>)
  {
    match c.slot
    case Element => SetElement(p, c.value)
    case Id => SetId(p, c.value)
    case Class => SetClass(p, c.value)
    case Attr => SetAttr(p, c.value)
    case PseudoClass => SetPseudoClass(p, c.value)
    case PseudoElement => SetPseudoElement(p, c.value)
  }

  /** Every accepted call keeps the selector well formed. */
  lemma ApplyKeepsWf(p: Parts, c: Call)
    requires Wf(p) && Apply(p, c).Ok?
    ensures Wf(Apply(p, c).value)
  {
    var q := Apply(p, c).value;
    WrittenKeepsWf(p, q, c.slot, Get(q, c.slot));
  }

  /** The calls applied left to right; the first error is the chain's error. */
  function Chain(p: Parts, calls: seq<Call>): (r: Result<Parts>)
    decreases |calls|
  {
    if calls == [] then Ok(p)
    else
      match Apply(p, calls[0])
      case Err(e) => Err(e)
      case Ok(q) => Chain(q, calls[1..])
  }

  /** A chain that succeeds leaves a well-formed selector well formed. */
  lemma {:induction false} ChainKeepsWf(p: Parts, calls: seq<Call>)
    requires Wf(p) && Chain(p, calls).Ok?
    ensures Wf(Chain(p, calls).value)
    decreases |calls|
  {
    if calls != [] {
      ApplyKeepsWf(p, calls[0]);
      ChainKeepsWf(Apply(p, calls[0]).value, calls[1..]);
    }
  }

  /** The text a call contributes to the canonical form. */
  function CallText(c: Call): (r: string)
  {
    match c.slot
    case Element => c.value
    case Id => "#" + c.value
    case Class => "." + c.value
    case Attr => "[" + c.value + "]"
    case PseudoClass => ":" + c.value
    case PseudoElement => "::" + c.value
  }

  function Texts(calls: seq<Call>): (r: string)
  {
    if calls == [] then "" else CallText(calls[0]) + Texts(calls[1..])
  }

  /** Class and pseudo-class accumulate; the other four slots are set once. */
  predicate Repeatable(s: Slot)
  {
    s == Class || s == PseudoClass
  }

  /** Call `d` may come right after call `c` in canonical order: a later slot,
      or the same slot again when that slot accumulates. */
  predicate Follows(c: Call, d: Call)
  {
    Rank(c.slot) < Rank(d.slot) || (c.slot == d.slot && Repeatable(d.slot))
  }

  /** Calls in canonical order, where only class and pseudo-class repeat. This
      is the order the documentation describes; attribute is not repeatable
      here because a second attribute replaces the first. */
  predicate Canonical(calls: seq<Call>)
    decreases |calls|
  {
    |calls| <= 1 || (Follows(calls[0], calls[1]) && Canonical(calls[1..]))
  }

  /** `p` can take call `c` and land on the canonical form: nothing after `c`'s
      slot is set yet, and a set-once slot is still empty. */
  ghost predicate Ready(p: Parts, c: Call)
  {
    && (forall s :: Rank(s) > Rank(c.slot) ==> Get(p, s) == "")
    && (!Repeatable(c.slot) ==> Get(p, c.slot) == "")
  }

  /** When nothing after slot `s` is set, creating or extending `s` keeps the
      key order canonical. */
  lemma TouchOrdered(p: Parts, s: Slot)
    requires Wf(p) && Ordered(p.keys)
    requires forall t :: Rank(t) > Rank(s) ==> Get(p, t) == ""
    ensures Ordered(Touch(p.keys, s))
  {
    if s !in p.keys {
      forall i | 0 <= i < |p.keys| ensures Rank(p.keys[i]) < Rank(s) {
        assert p.keys[i] != s;
      }
    }
  }

  /** Appending text `t` to slot `s`, when nothing after `s` is set, appends `t`
      to the canonical form. */
  lemma CanonAppend(p: Parts, q: Parts, s: Slot, t: string)
    requires forall u :: Rank(u) > Rank(s) ==> Get(p, u) == ""
    requires Written(p, q, s, Get(p, s) + t)
    ensures Canon(q) == Canon(p) + t
  {
    assert Get(q, Element) == if s == Element then p.element + t else p.element;
    assert Get(q, Id) == if s == Id then p.id + t else p.id;
    assert Get(q, Class) == if s == Class then p.cls + t else p.cls;
    assert Get(q, Attr) == if s == Attr then p.attr + t else p.attr;
    assert Get(q, PseudoClass) == if s == PseudoClass then p.pseudoClass + t else p.pseudoClass;
    assert Get(q, PseudoElement) == if s == PseudoElement then p.pseudoElement + t else p.pseudoElement;
    match s
    case Element =>
      assert Get(p, Id) == "" && Get(p, Class) == "" && Get(p, Attr) == "";
      assert Get(p, PseudoClass) == "" && Get(p, PseudoElement) == "";
    case Id =>
      assert Get(p, Class) == "" && Get(p, Attr) == "";
      assert Get(p, PseudoClass) == "" && Get(p, PseudoElement) == "";
    case Class =>
      assert Get(p, Attr) == "" && Get(p, PseudoClass) == "" && Get(p, PseudoElement) == "";
    case Attr =>
      assert Get(p, PseudoClass) == "" && Get(p, PseudoElement) == "";
    case PseudoClass =>
      assert Get(p, PseudoElement) == "";
    case PseudoElement =>
  }

  lemma ApplyReady(p: Parts, c: Call)
    requires Wf(p) && Ordered(p.keys) && Ready(p, c)
    ensures Apply(p, c).Ok?
    ensures Written(p, Apply(p, c).value, c.slot, Get(p, c.slot) + CallText(c))
    ensures Canon(Apply(p, c).value) == Canon(p) + CallText(c)
    ensures Ordered(Apply(p, c).value.keys)
  {
    assert Apply(p, c).Ok? by {
      match c.slot
      case Element => assert Get(p, Id) == "";
      case Id => assert Get(p, Class) == "" && Get(p, PseudoElement) == "";
      case Class => assert Get(p, Attr) == "";
      case Attr => assert Get(p, PseudoClass) == "";
      case PseudoClass => assert Get(p, PseudoElement) == "";
      case PseudoElement =>
    }
    var q := Apply(p, c).value;
    CanonAppend(p, q, c.slot, CallText(c));
    TouchOrdered(p, c.slot);
  }

  /** After a call, the next canonical call is still ready. */
  lemma ReadyNext(p: Parts, q: Parts, c: Call, d: Call)
    requires Ready(p, c) && Written(p, q, c.slot, Get(p, c.slot) + CallText(c))
    requires Follows(c, d)
    ensures Ready(q, d)
  {
    forall s | Rank(s) > Rank(d.slot) ensures Get(q, s) == "" {
      assert s != c.slot;
    }
    if !Repeatable(d.slot) {
      assert d.slot != c.slot;
    }
  }

  lemma Associative(a: string, b: string, c: string)
    ensures a + (b + c) == (a + b) + c
  {
  }

  lemma {:induction false} ChainCanonicalFrom(p: Parts, calls: seq<Call>)
    requires Wf(p) && Ordered(p.keys)
    requires Canonical(calls)
    requires calls != [] ==> Ready(p, calls[0])
    ensures Chain(p, calls).Ok?
    ensures Ordered(Chain(p, calls).value.keys)
    ensures Canon(Chain(p, calls).value) == Canon(p) + Texts(calls)
    decreases |calls|
  {
    if calls != [] {
      var c := calls[0];
      ApplyReady(p, c);
      ApplyKeepsWf(p, c);
      var q := Apply(p, c).value;
      var rest := calls[1..];
      if rest != [] {
        assert rest[0] == calls[1];
        ReadyNext(p, q, c, rest[0]);
      }
      ChainCanonicalFrom(q, rest);
      assert Chain(p, calls) == Chain(q, rest);
      assert Texts(calls) == CallText(c) + Texts(rest);
      Associative(Canon(p), CallText(c), Texts(rest));
    }
  }

  /** A fluent chain on a fresh selector whose calls follow the canonical order
      succeeds, and stringify returns the concatenation of the parts in call
      order (`element#id.class[attr]:pseudoClass::pseudoElement`). */
  lemma ChainCanonical(calls: seq<Call>)
    requires Canonical(calls)
    ensures Chain(Empty, calls).Ok?
    ensures Render(Chain(Empty, calls).value) == Texts(calls)
  {
    ChainCanonicalFrom(Empty, calls);
    ChainKeepsWf(Empty, calls);
    RenderOrdered(Chain(Empty, calls).value);
  }

  /** A call rejected anywhere in a chain makes the whole chain fail with that
      error, whatever follows it. */
  lemma {:induction false} ChainStopsAtError(p: Parts, pre: seq<Call>, c: Call, post: seq<Call>)
    requires Chain(p, pre).Ok? && Apply(Chain(p, pre).value, c).Err?
    ensures Chain(p, pre + [c] + post) == Err(Apply(Chain(p, pre).value, c).error)
    decreases |pre|
  {
    if pre == [] {
      assert pre + [c] + post == [c] + post;
    } else {
      var q := Apply(p, pre[0]).value;
      assert (pre + [c] + post)[1..] == pre[1..] + [c] + post;
      ChainStopsAtError(q, pre[1..], c, post);
    }
  }
}
