# CSS selector builder

A Dafny model of the CSS selector builder in `src/05-objects-tasks.js`. It has
two parts:

- **class `Selector`.** The object has six string properties: `element1`, `id1`,
  `class1`, `attr1`, `pseudoClass1` and `pseudoElement1`.
  - Each setter checks a few of the other properties and throws one of two
    errors: a duplicate part, or a part out of order.
  - Only after those checks does it write its own property and return the
    object itself.
  - `stringify` concatenates the property values in the order the properties
    were first created on the object.
- **the `cssSelectorBuilder` facade.** It is an object with state of its own.
  - `element`, `id`, `class` and `pseudoClass` always make a fresh selector;
    `attr` and `pseudoElement` make one only on their first call and return
    the cached one after that.
  - It keeps the last selector made by `class`, `attr`, `pseudoClass` and
    `pseudoElement`.
  - It keeps the text of the last `combine` in `combo`.

The model has three modules:

- `CssParts` (`parts.dfy`) is the value-level model:
  - a selector state `Parts`: six slots plus `keys`, the property creation order;
  - one step function per setter, returning `Result<Parts>`;
  - `Render`, the creation-order concatenation that `stringify` computes;
  - `Canon`, the canonical `element#id.class[attr]:pseudoClass::pseudoElement`;
  - lemmas relating the two, and fluent chains of calls.
- `CssBuilder` (`builder.dfy`) holds the two classes:
  - `Selector` has the six fields and `keys`. Its setter methods are proved
    against the step functions.
  - `Builder` is the facade, with its four cached selectors and `combo`.
    `Builder.Stringify` returns `combo` as it is.
  - `combine` takes an `Operand`, which is either a selector or the facade
    itself (what an earlier `combine` returned).
- `CssClients` (`clients.dfy`) states the documented examples for any argument
  strings, then with the documentation's own strings. It also covers the
  behaviours that follow from the facade's caches and its single `combo`.

How JavaScript values are represented:

- An unset property reads as `""`. The empty string is the only falsy string,
  so `""` stands for "unset" exactly where the code tests a property's
  truthiness.
- `element('')` still creates its property, with value `""`.
- The facade's `combo` is `Option<string>`. `None` prints as `undefined` when
  the facade is an operand of `combine`.
- A cached `attr` calls `attr()` with no argument. The template literal then
  prints `[undefined]`.

The model follows the code where it differs from the design the builder
documents: the doc comment at `src/05-objects-tasks.js:68-93`, and the
intended behaviour that the selector error messages name.

- **Ordering checks.** The intended rule is that each setter rejects every
  canonically later part. The code checks only:
  - `element` looks at the id;
  - `id` looks at the class and the pseudo-element;
  - `class` looks at the attribute;
  - `attr` looks at the pseudo-class;
  - `pseudoClass` looks at the pseudo-element;
  - `pseudoElement` checks only for a duplicate.
- **Attributes.** The doc comment lets attributes occur several times. The
  code's `attr` replaces the attribute.
- **Stringify order.** The intended output is the canonical order. The code
  emits creation order. The two agree when the calls come in canonical order
  (`RenderOrdered`, `ChainCanonical`).
- **Fresh selectors.** The facade is meant to start an independent selector at
  every entry point. The code's `attr` and `pseudoElement` reuse a cached one.
- **Shared combination.** Combinations are meant to nest as values. The code's
  `combine` stores its text in the facade's one `combo` and returns the facade
  itself, so every `combine` result prints the latest combination:
  `combine(combine(a, '+', b), '~', combine(c, '>', d))` prints `c > d ~ c > d`.
  `CombineResultsAlias` proves this for two saved `combine` results. A `combine` nested only as the right operand, as in
  the documented example, still prints as intended (`NestedCombine`).

## Model

| member | source | states |
|---|---|---|
| CssParts.SetElement | src/05-objects-tasks.js:123-132 | fails with a duplicate exactly when an element is set; fails out of order exactly when no element but an id is set; otherwise writes `v` to the element slot only, creating its key at the end of the creation order the first time |
| CssParts.SetId | src/05-objects-tasks.js:134-143 | duplicate exactly when an id is set; out of order exactly when no id but a class or a pseudo-element is set (attribute and pseudo-class are not looked at); otherwise writes `#v` to the id slot only |
| CssParts.SetClass | src/05-objects-tasks.js:145-155 | never a duplicate; out of order exactly when an attribute is set; otherwise the class slot becomes its old text followed by `.v`, nothing else changes |
| CssParts.SetAttr | src/05-objects-tasks.js:157-163 | never a duplicate; out of order exactly when a pseudo-class is set; otherwise the attribute slot is replaced by `[v]` |
| CssParts.SetPseudoClass | src/05-objects-tasks.js:165-175 | never a duplicate; out of order exactly when a pseudo-element is set; otherwise the pseudo-class slot becomes its old text followed by `:v` |
| CssParts.SetPseudoElement | src/05-objects-tasks.js:177-183 | duplicate exactly when a pseudo-element is set; never out of order; otherwise writes `::v` to the pseudo-element slot only |
| CssParts.WrittenKeepsWf | src/05-objects-tasks.js:123-183 | writing a slot keeps the selector well formed: every key created once, every set slot has its key, every key other than the element holds a non-empty value |
| CssParts.ApplyKeepsWf | src/05-objects-tasks.js:123-183 | every accepted setter call keeps the selector well formed |
| CssParts.ChainKeepsWf | src/05-objects-tasks.js:123-183 | a fluent chain that succeeds leaves a well-formed selector well formed |
| CssParts.ChainStopsAtError | src/05-objects-tasks.js:123-183 | a call rejected anywhere in a fluent chain makes the whole chain throw that error, whatever calls follow it |
| CssParts.RenderNewPart | src/05-objects-tasks.js:185-188 | creating a property appends its value to the stringified text, whatever its canonical position |
| CssParts.RenderRewriteNew | src/05-objects-tasks.js:185-188 | creating a property and rewriting it before any other is created leaves only the second value at the end of the stringified text |
| CssParts.TouchOrdered | src/05-objects-tasks.js:123-183 | writing a slot when nothing after it is set keeps the creation order canonical |
| CssParts.CanonAppend | src/05-objects-tasks.js:149-153 | appending text to a slot when nothing after it is set appends that text to the canonical form |
| CssParts.ApplyReady | src/05-objects-tasks.js:123-183 | a call whose later slots are empty (and whose slot is empty unless it accumulates) is accepted, extends its slot by its text, extends the canonical form by that text and keeps the creation order canonical |
| CssParts.ReadyNext | src/05-objects-tasks.js:123-183 | after such a call, a call for a later slot, or for the same accumulating slot, is ready in turn |
| CssParts.ChainCanonicalFrom | src/05-objects-tasks.js:123-183 | from a well-formed, canonically ordered state, calls in canonical order all succeed, keep the order canonical and append their texts to the canonical form |
| CssParts.RenderOrdered | src/05-objects-tasks.js:185-188 | when the properties were created in canonical order, stringify returns `element#id.class[attr]:pseudoClass::pseudoElement` |
| CssParts.ChainCanonical | src/05-objects-tasks.js:74-76 | a chain on a fresh selector whose calls follow the canonical order (only class and pseudo-class repeat) succeeds, and stringify returns the parts' texts in call order |
| CssBuilder.Selector.constructor | src/05-objects-tasks.js:122 | a new selector has no properties and an empty creation order, and is `Valid` |
| CssBuilder.Selector.Element | src/05-objects-tasks.js:123-132 | the call follows `SetElement`: on success it returns the object itself and the fields hold the new state; on a throw nothing changed |
| CssBuilder.Selector.Id | src/05-objects-tasks.js:134-143 | the call follows `SetId`, returning the object itself or the error with every field unchanged |
| CssBuilder.Selector.Class | src/05-objects-tasks.js:145-155 | the call follows `SetClass`, returning the object itself or the error with every field unchanged |
| CssBuilder.Selector.Attr | src/05-objects-tasks.js:157-163 | the call follows `SetAttr`, returning the object itself or the error with every field unchanged |
| CssBuilder.Selector.PseudoClass | src/05-objects-tasks.js:165-175 | the call follows `SetPseudoClass`, returning the object itself or the error with every field unchanged |
| CssBuilder.Selector.PseudoElement | src/05-objects-tasks.js:177-183 | the call follows `SetPseudoElement`, returning the object itself or the error with every field unchanged |
| CssBuilder.Selector.Stringify | src/05-objects-tasks.js:185-188 | the property values in creation order; for a well-formed selector whose parts were created in canonical order, exactly the canonical form |
| CssBuilder.Builder.constructor | src/05-objects-tasks.js:191 | the facade starts with no cached selectors and no combination |
| CssBuilder.Builder.Element | src/05-objects-tasks.js:192-196 | returns a fresh selector with only the element set to `v`, which stringifies to `v`; the facade keeps nothing |
| CssBuilder.Builder.Id | src/05-objects-tasks.js:198-202 | returns a fresh selector with only the id `#v`, which stringifies to `#v` |
| CssBuilder.Builder.Class | src/05-objects-tasks.js:203-208 | returns a fresh selector with only the class `.v` and caches it; the other facade fields are unchanged |
| CssBuilder.Builder.Attr | src/05-objects-tasks.js:209-217 | the first call returns and caches a fresh selector holding `[v]`; every later call ignores `v` and calls the cached selector's `attr` with `undefined`, so it returns that selector, now `[undefined]`, or throws out of order when it has a pseudo-class |
| CssBuilder.Builder.PseudoClass | src/05-objects-tasks.js:219-224 | returns a fresh selector with only the pseudo-class `:v` and caches it |
| CssBuilder.Builder.PseudoElement | src/05-objects-tasks.js:226-234 | the first call returns and caches a fresh selector holding `::v`; every later call returns the cached selector as it is |
| CssBuilder.Builder.Text | src/05-objects-tasks.js:237 | definition of what the template literal prints for each operand: a selector its `stringify()`, the facade its `combo`, or `undefined` before any `combine`; the property is stated by `CssBuilder.Builder.Combine`'s ensures, `CssClients.NestedCombine` and `CssClients.CombineResultsAlias` |
| CssBuilder.Builder.Stringify | src/05-objects-tasks.js:240-242 | returns `combo` as it is: `None` before any `combine`, then the text that `CssBuilder.Builder.Combine` ensures; `CssClients.NestedCombine` and `CssClients.CombineResultsAlias` state what it returns after a sequence of combines |
| CssBuilder.Builder.Combine | src/05-objects-tasks.js:236-239 | `combo` becomes the left operand's text, a space, the combinator, a space and the right operand's text, both read before the write; returns the facade itself; the caches are unchanged |
| CssClients.IdClassClass | src/05-objects-tasks.js:98-99 | `id(i).class(c1).class(c2).stringify()` is `#i.c1.c2` |
| CssClients.DocIdClasses | src/05-objects-tasks.js:98-99 | the documented `'#main.container.editable'` |
| CssClients.ElementAttrPseudoClass | src/05-objects-tasks.js:101-102 | `element(e).attr(a).pseudoClass(pc).stringify()` is `e[a]:pc` |
| CssClients.DocElementAttrPseudoClass | src/05-objects-tasks.js:101-102 | the documented `'a[href$=".png"]:focus'` |
| CssClients.ElementIdClassClass | src/05-objects-tasks.js:105 | `element(e).id(i).class(c1).class(c2)` is a fresh selector printing `e#i.c1.c2` |
| CssClients.ElementId | src/05-objects-tasks.js:108 | `element(e).id(i)` is a fresh selector printing `e#i` |
| CssClients.ElementPseudoClass | src/05-objects-tasks.js:111-113 | `element(e).pseudoClass(pc)` is a fresh selector printing `e:pc` |
| CssClients.NestedCombine | src/05-objects-tasks.js:104-117 | the nested `combine` prints `a + b ~ c   d` from the four selectors' texts, because each inner `combine` writes `combo` before the outer one reads the facade |
| CssClients.DocNestedCombine | src/05-objects-tasks.js:104-117 | the documented `'div#main.container.draggable + table#data ~ tr:nth-of-type(even)   td:nth-of-type(even)'` |
| CssClients.CombineResultsAlias | src/05-objects-tasks.js:236-239 | two saved `combine` results are the same facade, so combining them prints the later combination twice |
| CssClients.SecondId | src/05-objects-tasks.js:135-137 | a second `id` on one selector throws a duplicate part |
| CssClients.IdAfterClass | src/05-objects-tasks.js:138-140 | `id` after `class` throws out of order and leaves the selector printing `.a` |
| CssClients.ElementAfterPseudoClass | src/05-objects-tasks.js:123-131 | `element` after `pseudoClass` is accepted and prints after it, `:pc` then `e` |
| CssClients.SecondAttr | src/05-objects-tasks.js:157-163 | a second `attr` replaces the first: `e[y]` |
| CssClients.CachedAttr | src/05-objects-tasks.js:209-217 | a second `builder.attr(y)` returns the first selector, which now prints `[undefined]` |
| CssClients.CachedAttrAfterPseudoClass | src/05-objects-tasks.js:209-217 | once the cached selector has a pseudo-class, `builder.attr` throws out of order |
| CssClients.CachedPseudoElement | src/05-objects-tasks.js:226-234 | a second `builder.pseudoElement(b)` returns the first selector, still printing `::a` |

## Left out

- `Rectangle` (`src/05-objects-tasks.js:23-32`): it multiplies two JavaScript numbers, which are floating point.
- `getJSON` and `fromJSON` (`src/05-objects-tasks.js:45-65`): they only call the built-in JSON functions and `Object.setPrototypeOf`, and swapping prototypes at run time has no counterpart here.
- The JSON round trip inside `Selector.stringify`: only its effect is modelled, the property values joined in creation order.
- Arguments that are not strings, and JavaScript truthiness in general: every argument is a string, and `""` means unset. The `undefined` argument of the cached `attr` call is the literal text `undefined`.
- Exact error messages: the two messages are the two error kinds `DuplicatePart` and `OutOfOrder`.
- The global state of the facade: `cssSelectorBuilder` is one shared object. The model makes it a class, and a client works on one instance of it.
- CssBuilder.Selector.Stringify: its contract states only the well-formed, canonically ordered case. The general creation-order result is its body, `Render`, and the `Render…` lemmas describe it.
