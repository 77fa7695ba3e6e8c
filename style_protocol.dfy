/**
 * `StyleProtocol` (Source/TextStyle/StyleProtocol.swift) and the value kinds
 * that conform to it. A `Style` carries its own description; an attributed
 * string used as a style keeps the protocol's default, empty description.
 */
module StyleProtocol {
  import opened Wrappers
  import opened Platform
  import opened Attributed
  import opened Features
  import StyleDescriptions
  import opened Styles

  /**
   * A value used as a style: a `Style`, or an attributed string, which is
   * a `StyleProtocol` too. The parsers tell the mutable subclass apart.
   */
  datatype Entry =
    | StyleEntry(style: Style)
    | MutableLiteral(text: AttributedString)
    | ImmutableLiteral(text: AttributedString)

  predicate IsAttributedString(e: Entry) {
    e.MutableLiteral? || e.ImmutableLiteral?
  }

  /** `styleDescription`: a style's own, and the protocol default, empty, for everything else. */
  function DescriptionOf(e: Entry): (d: StyleDescriptions.StyleDescription)
    ensures IsAttributedString(e) ==> d == StyleDescriptions.Empty
    ensures e.StyleEntry? ==> d == e.style.description
  {
    match e
    case StyleEntry(s) => s.description
    case _ => StyleDescriptions.Empty
  }

  /** `StyleProtocol.combine`: a `Style` around the combined descriptions. */
  function Combine(parent: Entry, child: Entry): (s: Style)
    ensures s.description == StyleDescriptions.Combine(DescriptionOf(parent), DescriptionOf(child))
  {
    Style(StyleDescriptions.Combine(DescriptionOf(parent), DescriptionOf(child)))
  }

  /** The attributes a style writes: its description's `constructAttributes()`. */
  function StyleAttributes(e: Entry, env: Environment): Attributes {
    StyleDescriptions.Encoded(DescriptionOf(e), env)
  }

  /** An attributed string used as a style writes the system font and nothing else. */
  lemma LiteralWritesOnlyFont(e: Entry, env: Environment)
    requires IsAttributedString(e)
    ensures StyleAttributes(e, env) == map[FontKey := FontValue(MakeFont(env.systemFont.descriptor, env.systemFont.pointSize))]
  {
    StyleDescriptions.EncodedEmpty(env);
  }

  /**
   * `set(to: String, range:)`: a fresh string whose units in the range carry
   * the style's attributes. With no range the length is `source.count`, the
   * number of characters (grapheme clusters) of the string, given here as
   * `characters`: each character holds at least one scalar, and a non-empty
   * string has at least one character. The UTF-16 length can exceed it.
   */
  function SetToString(e: Entry, source: string, characters: nat, range: Option<Range>, env: Environment): (r: AttributedString)
    requires characters <= |source| && (|source| > 0 ==> characters > 0)
    requires range.Some? ==> InBounds(range.value, |Utf16(source)|)
    ensures Codes(r) == Utf16(source)
    ensures var rg := range.GetOr(Range(0, characters));
      forall i :: 0 <= i < |r| ==>
        r[i].attributes == if InRange(i, rg) then StyleAttributes(e, env) else map[]
  {
    Utf16Length(source);
    var rg := range.GetOr(Range(0, characters));
    var a := FromString(source, map[]);
    var b := AddAttributes(a, StyleAttributes(e, env), rg);
    assert forall i :: 0 <= i < |b| && InRange(i, rg) ==> b[i].attributes == StyleAttributes(e, env) by {
      forall i | 0 <= i < |b| && InRange(i, rg) ensures b[i].attributes == StyleAttributes(e, env) {
        assert map[] + StyleAttributes(e, env) == StyleAttributes(e, env);
      }
    }
    b
  }

  /**
   * With no range, a string with a character outside the Basic Multilingual
   * Plane leaves its last UTF-16 unit without the style.
   */
  lemma DefaultRangeMissesTail(e: Entry, source: string, characters: nat, env: Environment)
    requires characters <= |source| && (|source| > 0 ==> characters > 0)
    requires !InBasicPlane(source)
    ensures var r := SetToString(e, source, characters, None, env);
      |r| > characters && r[|r| - 1].attributes == map[]
  {
    Utf16Length(source);
  }

  /**
   * With no range, every unit carries the style exactly when the string has
   * as many characters as UTF-16 units: Basic Multilingual Plane text in
   * which every scalar is a character of its own. A combining mark or a
   * `"\r\n"` pair leaves the last units unstyled.
   */
  lemma DefaultRangeCoversExactly(e: Entry, source: string, characters: nat, env: Environment)
    requires characters <= |source| && (|source| > 0 ==> characters > 0)
    ensures var r := SetToString(e, source, characters, None, env);
      (forall i :: 0 <= i < |r| ==> r[i].attributes == StyleAttributes(e, env)) <==>
      (InBasicPlane(source) && characters == |source|)
  {
    Utf16Length(source);
    var r := SetToString(e, source, characters, None, env);
    assert |r| == |Utf16(source)|;
    if !(InBasicPlane(source) && characters == |source|) {
      assert characters < |r|;
      StyleDescriptions.EncodedHasFont(DescriptionOf(e), env);
      assert r[characters].attributes == map[];
      assert r[characters].attributes != StyleAttributes(e, env);
    }
  }

  /** `NSAttributedString.applying(style:)` for these styles: a copy with the style's attributes over the whole copy. */
  function Applying(a: AttributedString, e: Entry, env: Environment): (r: AttributedString)
    ensures |r| == |a| && Codes(r) == Codes(a)
    ensures forall i :: 0 <= i < |a| ==>
      r[i].attributes.Keys == a[i].attributes.Keys + StyleAttributes(e, env).Keys &&
      forall k :: k in r[i].attributes ==>
        r[i].attributes[k] == if k in StyleAttributes(e, env) then StyleAttributes(e, env)[k] else a[i].attributes[k]
  {
    AddAttributes(a, StyleAttributes(e, env), Whole(a))
  }

  /**
   * `set(to: AttributedString, range:)`: adds the attributes in place and
   * returns the same string.
   */
  method SetToAttributed(e: Entry, source: MutableAttributedString, range: Option<Range>, env: Environment)
      returns (r: MutableAttributedString)
    requires range.Some? ==> InBounds(range.value, |source.units|)
    modifies source
    ensures r == source
    ensures source.units == AddAttributes(old(source.units), StyleAttributes(e, env), range.GetOr(Range(0, |old(source.units)|)))
  {
    var rg := range.GetOr(Range(0, |source.units|));
    source.AddAttributesInPlace(StyleAttributes(e, env), rg);
    r := source;
  }

  /** The string with every key of `keys` removed inside the range. */
  function RemoveKeys(a: AttributedString, keys: set<Key>, r: Range): (b: AttributedString)
    requires InBounds(r, |a|)
    ensures |b| == |a|
    ensures forall i :: 0 <= i < |a| ==> b[i].code == a[i].code
    ensures forall i :: 0 <= i < |a| && InRange(i, r) ==>
      b[i].attributes.Keys == a[i].attributes.Keys - keys &&
      (forall k :: k in b[i].attributes ==> b[i].attributes[k] == a[i].attributes[k])
    ensures forall i :: 0 <= i < |a| && !InRange(i, r) ==> b[i] == a[i]
  {
    seq(|a|, i requires 0 <= i < |a| =>
      if InRange(i, r) then Unit(a[i].code, a[i].attributes - keys) else a[i])
  }

  lemma RemoveKeysStep(a: AttributedString, removed: set<Key>, k: Key, r: Range)
    requires InBounds(r, |a|)
    ensures RemoveAttribute(RemoveKeys(a, removed, r), k, r) == RemoveKeys(a, removed + {k}, r)
  {
    var left, right := RemoveAttribute(RemoveKeys(a, removed, r), k, r), RemoveKeys(a, removed + {k}, r);
    forall i | 0 <= i < |a| ensures left[i] == right[i] {
      if InRange(i, r) {
        assert left[i].attributes == right[i].attributes;
      }
    }
  }

  lemma RemoveNoKeys(a: AttributedString, r: Range)
    requires InBounds(r, |a|)
    ensures RemoveKeys(a, {}, r) == a
  {
    var b := RemoveKeys(a, {}, r);
    forall i | 0 <= i < |a| ensures b[i] == a[i] {
      if InRange(i, r) {
        assert b[i].attributes == a[i].attributes;
      }
    }
  }

  /**
   * `remove(from:range:)`: removes, key by key, every key the style's
   * `constructAttributes()` produces, inside the range, in place.
   */
  method Remove(e: Entry, source: MutableAttributedString, range: Option<Range>, env: Environment)
      returns (r: MutableAttributedString)
    requires range.Some? ==> InBounds(range.value, |source.units|)
    modifies source
    ensures r == source
    ensures source.units == RemoveKeys(old(source.units), StyleAttributes(e, env).Keys, range.GetOr(Range(0, |old(source.units)|)))
  {
    var rg := range.GetOr(Range(0, |source.units|));
    RemoveEach(source, StyleAttributes(e, env).Keys, rg);
    r := source;
  }

  /** The `forEach` loop of `remove`: `removeAttribute` once per key, in any order. */
  method RemoveEach(source: MutableAttributedString, keys: set<Key>, rg: Range)
    requires InBounds(rg, |source.units|)
    modifies source
    ensures source.units == RemoveKeys(old(source.units), keys, rg)
  {
    ghost var original := source.units;
    RemoveNoKeys(original, rg);
    var pending := keys;
    assert keys - pending == {};
    while pending != {}
      invariant pending <= keys
      invariant |source.units| == |original|
      invariant source.units == RemoveKeys(original, keys - pending, rg)
      decreases |pending|
    {
      var k :| k in pending;
      RemoveKeysStep(original, keys - pending, k, rg);
      source.RemoveAttributeInPlace(k, rg);
      assert keys - (pending - {k}) == (keys - pending) + {k};
      pending := pending - {k};
    }
    assert keys - {} == keys;
  }

  /** Removing a style always removes the font key inside the range, and touches nothing outside it. */
  lemma RemoveDropsFont(e: Entry, a: AttributedString, r: Range, env: Environment)
    requires InBounds(r, |a|)
    ensures var b := RemoveKeys(a, StyleAttributes(e, env).Keys, r);
      (forall i :: 0 <= i < |a| && InRange(i, r) ==> FontKey !in b[i].attributes) &&
      (forall i :: 0 <= i < |a| && !InRange(i, r) ==> b[i] == a[i])
  {
    StyleDescriptions.EncodedHasFont(DescriptionOf(e), env);
  }

  /** Setting a style and then removing it leaves none of its keys in the range. */
  lemma RemoveAfterSet(e: Entry, a: AttributedString, r: Range, env: Environment)
    requires InBounds(r, |a|)
    ensures var b := RemoveKeys(AddAttributes(a, StyleAttributes(e, env), r), StyleAttributes(e, env).Keys, r);
      forall i, k :: 0 <= i < |a| && InRange(i, r) && k in StyleAttributes(e, env) ==> k !in b[i].attributes
  {
  }
}
