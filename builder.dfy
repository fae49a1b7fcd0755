/** The objects of the selector builder: class `Selector`, whose six setters
    update its fields in place and return the object itself, and the facade
    `cssSelectorBuilder`, modelled as class `Builder`, which keeps the last
    selector it made for four of its entry points and the text of the last
    `combine`. Both are proved against the value-level model in `CssParts`. */
module CssBuilder {
  import opened CssParts

  /** The outcome of a setter call on `self` that the model predicts as `step`:
      on success the call returns `self` and the fields hold the new parts; on a
      throw it reports that error and no field has changed. */
  ghost predicate Performed(r: Result<Selector>, self: Selector, step: Result<Parts>,
                            before: Parts, after: Parts)
  {
    match step
    case Ok(q) => r == Ok(self) && after == q
    case Err(e) => r == Err(e) && after == before
  }

  class Selector {
    var element1: string
    var id1: string
    var class1: string
    var attr1: string
    var pseudoClass1: string
    var pseudoElement1: string
    /** The order in which the properties above were created on the object. */
    var keys: seq<Slot>

    /** The state of this object as a value. */
    function Model(): (r: Parts)
      reads this
    {
      Parts(element1, id1, class1, attr1, pseudoClass1, pseudoElement1, keys)
    }

    /** The states the object can reach: see `Wf`. */
    ghost predicate Valid()
      reads this
    {
      Wf(Model())
    }

    constructor ()
      ensures Model() == Empty && Valid()
    {
      element1, id1, class1, attr1, pseudoClass1, pseudoElement1 := "", "", "", "", "", "";
      keys := [];
    }

    method Element(value: string) returns (r: Result<Selector>)
      requires Valid()
      modifies this
      ensures Performed(r, this, SetElement(old(Model()), value), old(Model()), Model())
      ensures Valid()
    {
      ghost var before := Model();
      if element1 != "" {
        return Err(DuplicatePart);
      }
      if id1 != "" {
        return Err(OutOfOrder);
      }
      element1 := value;
      keys := Touch(keys, Slot.Element);
      ApplyKeepsWf(before, Call(Slot.Element, value));
      return Ok(this);
    }

    method Id(value: string) returns (r: Result<Selector>)
      requires Valid()
      modifies this
      ensures Performed(r, this, SetId(old(Model()), value), old(Model()), Model())
      ensures Valid()
    {
      ghost var before := Model();
      if id1 != "" {
        return Err(DuplicatePart);
      }
      if class1 != "" || pseudoElement1 != "" {
        return Err(OutOfOrder);
      }
      id1 := "#" + value;
      keys := Touch(keys, Slot.Id);
      ApplyKeepsWf(before, Call(Slot.Id, value));
      return Ok(this);
    }

    method Class(value: string) returns (r: Result<Selector>)
      requires Valid()
      modifies this
      ensures Performed(r, this, SetClass(old(Model()), value), old(Model()), Model())
      ensures Valid()
    {
      ghost var before := Model();
      if attr1 != "" {
        return Err(OutOfOrder);
      }
      if class1 == "" {
        class1 := "." + value;
      } else {
        class1 := class1 + "." + value;
      }
      keys := Touch(keys, Slot.Class);
      ApplyKeepsWf(before, Call(Slot.Class, value));
      return Ok(this);
    }

    method Attr(value: string) returns (r: Result<Selector>)
      requires Valid()
      modifies this
      ensures Performed(r, this, SetAttr(old(Model()), value), old(Model()), Model())
      ensures Valid()
    {
      ghost var before := Model();
      if pseudoClass1 != "" {
        return Err(OutOfOrder);
      }
      attr1 := "[" + value + "]";
      keys := Touch(keys, Slot.Attr);
      ApplyKeepsWf(before, Call(Slot.Attr, value));
      return Ok(this);
    }

    method PseudoClass(value: string) returns (r: Result<Selector>)
      requires Valid()
      modifies this
      ensures Performed(r, this, SetPseudoClass(old(Model()), value), old(Model()), Model())
      ensures Valid()
    {
      ghost var before := Model();
      if pseudoElement1 != "" {
        return Err(OutOfOrder);
      }
      if pseudoClass1 == "" {
        pseudoClass1 := ":" + value;
      } else {
        pseudoClass1 := pseudoClass1 + ":" + value;
      }
      keys := Touch(keys, Slot.PseudoClass);
      ApplyKeepsWf(before, Call(Slot.PseudoClass, value));
      return Ok(this);
    }

    method PseudoElement(value: string) returns (r: Result<Selector>)
      requires Valid()
      modifies this
      ensures Performed(r, this, SetPseudoElement(old(Model()), value), old(Model()), Model())
      ensures Valid()
    {
      ghost var before := Model();
      if pseudoElement1 != "" {
        return Err(DuplicatePart);
      }
      pseudoElement1 := "::" + value;
      keys := Touch(keys, Slot.PseudoElement);
      ApplyKeepsWf(before, Call(Slot.PseudoElement, value));
      return Ok(this);
    }

    /** The property values in creation order. When the parts were created in
        canonical order this is `element#id.class[attr]:pseudoClass::pseudoElement`. */
    function Stringify(): (r: string)
      reads this
      ensures Valid() && Ordered(keys) ==> r == Canon(Model())
    {
      assert Valid() && Ordered(keys) ==> Render(Model()) == Canon(Model()) by {
        if Valid() && Ordered(keys) {
          RenderOrdered(Model());
        }
      }
      Render(Model())
    }
  }

  /** An argument of `combine`: a selector object, or the facade itself (what
      an earlier `combine` returned). */
  datatype Operand = Sel(sel: Selector) | Facade

  class Builder {
    /** The last selector made by `class`, `attr`, `pseudoClass`, `pseudoElement`. */
    var class1: Selector?
    var attr1: Selector?
    var pseudoClass1: Selector?
    var pseudoElement1: Selector?
    /** The text of the last `combine`; None while no `combine` has run. */
    var combo: Option<string>

    /** Every cached selector is in a reachable state. */
    ghost predicate Valid()
      reads this, class1, attr1, pseudoClass1, pseudoElement1
    {
      && (class1 != null ==> class1.Valid())
      && (attr1 != null ==> attr1.Valid())
      && (pseudoClass1 != null ==> pseudoClass1.Valid())
      && (pseudoElement1 != null ==> pseudoElement1.Valid())
    }

    constructor ()
      ensures class1 == null && attr1 == null && pseudoClass1 == null
      ensures pseudoElement1 == null && combo == None
      ensures Valid()
    {
      class1, attr1, pseudoClass1, pseudoElement1 := null, null, null, null;
      combo := None;
    }

    /** `stringify` of the facade: the last combination, if any. */
    function Stringify(): (r: Option<string>)
      reads this
    {
      combo
    }

    /** The text an operand contributes to `combine`; the facade before any
        `combine` prints as `undefined`. */
    function Text(o: Operand): (r: string)
      reads this, if o.Sel? then {o.sel} else {}
    {
      match o
      case Sel(s) => s.Stringify()
      case Facade => match combo case Some(t) => t case None => Undefined
    }

    method Element(value: string) returns (s: Selector)
      ensures fresh(s) && s.Model() == Only(Slot.Element, value)
      ensures s.Stringify() == value && s.Valid()
    {
      s := new Selector();
      var r := s.Element(value);
      RenderNewPart(Empty, s.Model(), Slot.Element, value);
    }

    method Id(value: string) returns (s: Selector)
      ensures fresh(s) && s.Model() == Only(Slot.Id, "#" + value)
      ensures s.Stringify() == "#" + value && s.Valid()
    {
      s := new Selector();
      var r := s.Id(value);
      RenderNewPart(Empty, s.Model(), Slot.Id, "#" + value);
    }

    method Class(value: string) returns (s: Selector)
      requires Valid()
      modifies this
      ensures fresh(s) && s.Model() == Only(Slot.Class, "." + value)
      ensures s.Stringify() == "." + value && s.Valid() && Valid()
      ensures class1 == s
      ensures attr1 == old(attr1) && pseudoClass1 == old(pseudoClass1)
      ensures pseudoElement1 == old(pseudoElement1) && combo == old(combo)
    {
      s := new Selector();
      var r := s.Class(value);
      RenderNewPart(Empty, s.Model(), Slot.Class, "." + value);
      class1 := s;
    }

    /** The first call makes a selector and caches it; every later call ignores
        its argument and calls `attr()` with no value on the cached selector,
        which then holds `[undefined]` or throws when it has a pseudo-class. */
    method Attr(value: string) returns (r: Result<Selector>)
      requires Valid()
      modifies this, attr1
      ensures old(attr1) == null ==>
        r.Ok? && fresh(r.value) && r.value.Model() == Only(Slot.Attr, "[" + value + "]")
        && r.value.Stringify() == "[" + value + "]" && attr1 == r.value
      ensures old(attr1) != null ==>
        attr1 == old(attr1)
        && Performed(r, attr1, SetAttr(old(attr1.Model()), Undefined), old(attr1.Model()), attr1.Model())
      ensures class1 == old(class1) && pseudoClass1 == old(pseudoClass1)
      ensures pseudoElement1 == old(pseudoElement1) && combo == old(combo)
      ensures Valid() && attr1 != null
    {
      if attr1 == null {
        var s := new Selector();
        var _ := s.Attr(value);
        RenderNewPart(Empty, s.Model(), Slot.Attr, "[" + value + "]");
        attr1 := s;
        return Ok(s);
      }
      r := attr1.Attr(Undefined);
    }

    method PseudoClass(value: string) returns (s: Selector)
      requires Valid()
      modifies this
      ensures fresh(s) && s.Model() == Only(Slot.PseudoClass, ":" + value)
      ensures s.Stringify() == ":" + value && s.Valid() && Valid()
      ensures pseudoClass1 == s
      ensures class1 == old(class1) && attr1 == old(attr1)
      ensures pseudoElement1 == old(pseudoElement1) && combo == old(combo)
    {
      s := new Selector();
      var r := s.PseudoClass(value);
      RenderNewPart(Empty, s.Model(), Slot.PseudoClass, ":" + value);
      pseudoClass1 := s;
    }

    /** The first call makes a selector and caches it; every later call returns
        the cached selector untouched, whatever its argument. */
    method PseudoElement(value: string) returns (s: Selector)
      requires Valid()
      modifies this
      ensures old(pseudoElement1) == null ==>
        fresh(s) && s.Model() == Only(Slot.PseudoElement, "::" + value)
        && s.Stringify() == "::" + value
      ensures old(pseudoElement1) != null ==> s == old(pseudoElement1)
      ensures pseudoElement1 == s
      ensures class1 == old(class1) && attr1 == old(attr1)
      ensures pseudoClass1 == old(pseudoClass1) && combo == old(combo)
      ensures s.Valid() && Valid()
    {
      if pseudoElement1 == null {
        s := new Selector();
        var r := s.PseudoElement(value);
        RenderNewPart(Empty, s.Model(), Slot.PseudoElement, "::" + value);
        pseudoElement1 := s;
        return;
      }
      s := pseudoElement1;
    }

    /** Both operands are printed before `combo` is written, so the facade may
        appear as an operand of its own `combine`. */
    method Combine(left: Operand, combinator: string, right: Operand) returns (b: Builder)
      modifies this
      ensures b == this
      ensures combo == Some(old(Text(left)) + " " + combinator + " " + old(Text(right)))
      ensures class1 == old(class1) && attr1 == old(attr1)
      ensures pseudoClass1 == old(pseudoClass1) && pseudoElement1 == old(pseudoElement1)
    {
      var l := Text(left);
      var t := Text(right);
      combo := Some(l + " " + combinator + " " + t);
      return this;
    }
  }
}
