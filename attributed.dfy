/**
 * Attributed strings as the style code sees them: a sequence of UTF-16 code
 * units, each carrying its own attribute dictionary. Foundation's NSRange
 * positions and lengths count UTF-16 code units, so ranges here do too.
 */
module Attributed {
  import opened Wrappers
  import opened Platform

  /** `NSAttributedString.Key`: the keys the style code writes, and any other key. */
  datatype Key =
    | FontKey
    | ForegroundColorKey
    | BackgroundColorKey
    | UnderlineStyleKey
    | UnderlineColorKey
    | StrokeColorKey
    | StrokeWidthKey
    | StrikethroughStyleKey
    | StrikethroughColorKey
    | BaselineOffsetKey
    | ParagraphStyleKey
    | ShadowKey
    | LinkKey
    | LigatureKey
    | KernKey
    | AttachmentKey
    | OtherKey(name: string)

  /**
   * An attribute value (`Any` in the source). Colours, shadows, URLs and
   * attachments are opaque platform objects, identified by a handle.
   */
  datatype Value =
    | FontValue(font: Font)
    | ColorValue(color: nat)
    | ShadowValue(shadow: nat)
    | UrlValue(url: nat)
    | IntValue(integer: int)
    | NumberValue(number: real)
    | ParagraphValue(paragraph: Paragraph)
    | AttachmentValue(attachment: nat)
    | OtherValue(handle: nat)

  type Attributes = map<Key, Value>

  /** One UTF-16 code unit and the attributes in effect on it. */
  datatype Unit = Unit(code: int, attributes: Attributes)

  type AttributedString = seq<Unit>

  /** `NSRange`, in UTF-16 code units. */
  datatype Range = Range(location: int, length: int)

  predicate InBounds(r: Range, n: nat) {
    0 <= r.location && 0 <= r.length && r.location + r.length <= n
  }

  predicate InRange(i: int, r: Range) {
    r.location <= i < r.location + r.length
  }

  /** The whole string as a range. */
  function Whole(s: AttributedString): (r: Range)
    ensures InBounds(r, |s|)
    ensures forall i :: 0 <= i < |s| <==> InRange(i, r)
  {
    Range(0, |s|)
  }

  // ----- UTF-16 -----

  /** The UTF-16 encoding of one Unicode scalar: one unit in the Basic Multilingual Plane, a surrogate pair above it. */
  function Utf16Of(c: char): (units: seq<int>)
    ensures |units| == 1 <==> (c as int) < 0x1_0000
    ensures |units| == 1 || |units| == 2
    ensures |units| == 1 ==> units[0] == c as int
  {
    var n := c as int;
    if n < 0x1_0000 then [n]
    else [0xD800 + (n - 0x1_0000) / 0x400, 0xDC00 + (n - 0x1_0000) % 0x400]
  }

  /** The UTF-16 encoding of a string of scalars. */
  function Utf16(s: string): seq<int> {
    if s == [] then [] else Utf16Of(s[0]) + Utf16(s[1..])
  }

  predicate InBasicPlane(s: string) {
    forall i :: 0 <= i < |s| ==> (s[i] as int) < 0x1_0000
  }

  /**
   * A string has at least as many UTF-16 units as scalars, and exactly as
   * many only when every scalar lies in the Basic Multilingual Plane.
   */
  lemma {:induction false} Utf16Length(s: string)
    ensures |Utf16(s)| >= |s|
    ensures |Utf16(s)| == |s| <==> InBasicPlane(s)
  {
    if s != [] {
      Utf16Length(s[1..]);
      if InBasicPlane(s[1..]) && (s[0] as int) < 0x1_0000 {
        forall i | 0 <= i < |s| ensures (s[i] as int) < 0x1_0000 {
          if i > 0 {
            assert s[i] == s[1..][i - 1];
          }
        }
      }
      if InBasicPlane(s) {
        forall i | 0 <= i < |s[1..]| ensures (s[1..][i] as int) < 0x1_0000 {
          assert s[1..][i] == s[i + 1];
        }
      }
    }
  }

  lemma {:induction false} Utf16Append(a: string, b: string)
    ensures Utf16(a + b) == Utf16(a) + Utf16(b)
  {
    if a == [] {
      assert a + b == b;
    } else {
      assert (a + b)[1..] == a[1..] + b;
      Utf16Append(a[1..], b);
    }
  }

  /** `NSAttributedString(string:attributes:)`: every unit carries the same attributes. */
  function FromString(s: string, attrs: Attributes): (a: AttributedString)
    ensures |a| == |Utf16(s)|
    ensures forall i :: 0 <= i < |a| ==> a[i] == Unit(Utf16(s)[i], attrs)
  {
    var codes := Utf16(s);
    seq(|codes|, i requires 0 <= i < |codes| => Unit(codes[i], attrs))
  }

  /** The text of an attributed string: its code units without attributes. */
  function Codes(a: AttributedString): (codes: seq<int>)
    ensures |codes| == |a|
    ensures forall i :: 0 <= i < |a| ==> codes[i] == a[i].code
  {
    seq(|a|, i requires 0 <= i < |a| => a[i].code)
  }

  lemma FromStringCodes(s: string, attrs: Attributes)
    ensures Codes(FromString(s, attrs)) == Utf16(s)
  {
  }

  // ----- Attribute edits -----

  /** `addAttributes(_:range:)`: inside the range the given attributes overwrite, key by key. */
  function AddAttributes(a: AttributedString, attrs: Attributes, r: Range): (b: AttributedString)
    requires InBounds(r, |a|)
    ensures |b| == |a|
    ensures forall i :: 0 <= i < |a| ==> b[i].code == a[i].code
    ensures forall i :: 0 <= i < |a| && InRange(i, r) ==>
      b[i].attributes.Keys == a[i].attributes.Keys + attrs.Keys &&
      (forall k :: k in attrs ==> b[i].attributes[k] == attrs[k]) &&
      (forall k :: k in a[i].attributes && k !in attrs ==> b[i].attributes[k] == a[i].attributes[k])
    ensures forall i :: 0 <= i < |a| && !InRange(i, r) ==> b[i] == a[i]
  {
    seq(|a|, i requires 0 <= i < |a| =>
      if InRange(i, r) then Unit(a[i].code, a[i].attributes + attrs) else a[i])
  }

  /** `removeAttribute(_:range:)`: inside the range the key is gone; everything else stays. */
  function RemoveAttribute(a: AttributedString, key: Key, r: Range): (b: AttributedString)
    requires InBounds(r, |a|)
    ensures |b| == |a|
    ensures forall i :: 0 <= i < |a| ==> b[i].code == a[i].code
    ensures forall i :: 0 <= i < |a| && InRange(i, r) ==>
      b[i].attributes.Keys == a[i].attributes.Keys - {key} &&
      (forall k :: k in b[i].attributes ==> b[i].attributes[k] == a[i].attributes[k])
    ensures forall i :: 0 <= i < |a| && !InRange(i, r) ==> b[i] == a[i]
  {
    seq(|a|, i requires 0 <= i < |a| =>
      if InRange(i, r) then Unit(a[i].code, a[i].attributes - {key}) else a[i])
  }

  /** Adding the same attributes twice is the same as adding them once. */
  lemma AddAttributesIdempotent(a: AttributedString, attrs: Attributes, r: Range)
    requires InBounds(r, |a|)
    ensures AddAttributes(AddAttributes(a, attrs, r), attrs, r) == AddAttributes(a, attrs, r)
  {
    var once := AddAttributes(a, attrs, r);
    var twice := AddAttributes(once, attrs, r);
    forall i | 0 <= i < |a| ensures twice[i] == once[i] {
      if InRange(i, r) {
        assert twice[i].attributes == once[i].attributes;
      }
    }
  }

  /** Adding no attributes changes nothing. */
  lemma AddNothing(a: AttributedString, r: Range)
    requires InBounds(r, |a|)
    ensures AddAttributes(a, map[], r) == a
  {
    var b := AddAttributes(a, map[], r);
    forall i | 0 <= i < |a| ensures b[i] == a[i] {
      if InRange(i, r) {
        assert b[i].attributes == a[i].attributes;
      }
    }
  }

  /** Removing a key after adding it leaves no trace of that key in the range, and the units outside it as they were. */
  lemma RemoveAfterAdd(a: AttributedString, attrs: Attributes, key: Key, r: Range)
    requires InBounds(r, |a|)
    ensures var b := RemoveAttribute(AddAttributes(a, attrs, r), key, r);
      |b| == |a| && Codes(b) == Codes(a)
    ensures var b := RemoveAttribute(AddAttributes(a, attrs, r), key, r);
      forall i :: 0 <= i < |a| && InRange(i, r) ==> key !in b[i].attributes
    ensures var b := RemoveAttribute(AddAttributes(a, attrs, r), key, r);
      forall i :: 0 <= i < |a| && !InRange(i, r) ==> b[i] == a[i]
  {
  }

  /** An `NSMutableAttributedString`: a reference whose units are edited in place. */
  class MutableAttributedString {
    var units: AttributedString

    constructor (initial: AttributedString)
      ensures units == initial
    {
      units := initial;
    }

    /** `addAttributes(_:range:)` in place; a range past the end raises NSRangeException, which callers must avoid. */
    method AddAttributesInPlace(attrs: Attributes, r: Range)
      requires InBounds(r, |units|)
      modifies this
      ensures units == AddAttributes(old(units), attrs, r)
    {
      units := AddAttributes(units, attrs, r);
    }

    /** `removeAttribute(_:range:)` in place. */
    method RemoveAttributeInPlace(key: Key, r: Range)
      requires InBounds(r, |units|)
      modifies this
      ensures units == RemoveAttribute(old(units), key, r)
    {
      units := RemoveAttribute(units, key, r);
    }

    /** `append(_:)`. */
    method Append(tail: AttributedString)
      modifies this
      ensures units == old(units) + tail
    {
      units := units + tail;
    }
  }
}
