/**
 * `AttributedStringBuilder` (Source/Attributes/AttributedStringBuilder.swift):
 * the result-builder rules that turn a block of strings, attributed strings
 * and images into one attributed string.
 */
module Builder {
  import opened Wrappers
  import opened Attributed

  /** The object replacement character that stands for an attachment. */
  const AttachmentCharacter: int := 0xFFFC

  /** The segments one after another. */
  function Concat(segments: seq<AttributedString>): AttributedString
    decreases |segments|
  {
    if segments == [] then [] else Concat(segments[..|segments| - 1]) + segments[|segments| - 1]
  }

  /** Where segment `j` starts in the concatenation. */
  function Offset(segments: seq<AttributedString>, j: nat): nat
    requires j <= |segments|
  {
    |Concat(segments[..j])|
  }

  /** `buildBlock(_ segments...)`: a fresh mutable string, each segment appended in order. */
  method BuildBlock(segments: seq<AttributedString>) returns (r: AttributedString)
    ensures r == Concat(segments)
  {
    var built := new MutableAttributedString([]);
    for i := 0 to |segments|
      invariant built.units == Concat(segments[..i])
    {
      assert segments[..i + 1][..i] == segments[..i];
      built.Append(segments[i]);
    }
    assert segments[..|segments|] == segments;
    r := built.units;
  }

  /** `buildBlock()`: the empty string. */
  function BuildEmptyBlock(): (r: AttributedString)
    ensures |r| == 0
  {
    []
  }

  /** `buildExpression(_ text: String)`: the text, with no attributes. */
  function BuildText(text: string): (r: AttributedString)
    ensures Codes(r) == Utf16(text)
    ensures forall i :: 0 <= i < |r| ==> r[i].attributes == map[]
  {
    FromString(text, map[])
  }

  /** `buildExpression(_ attr: NSAttributedString)`: the argument itself. */
  function BuildAttributed(attr: AttributedString): (r: AttributedString)
    ensures r == attr
  {
    attr
  }

  /** `buildExpression(_ image:)`: one attachment character carrying a fresh attachment that holds the image. */
  function BuildImage(attachment: nat): (r: AttributedString)
    ensures |r| == 1 && r[0].code == AttachmentCharacter
    ensures r[0].attributes == map[AttachmentKey := AttachmentValue(attachment)]
  {
    [Unit(AttachmentCharacter, map[AttachmentKey := AttachmentValue(attachment)])]
  }

  /** `buildOptional` and `buildIf`: nil becomes the empty string, anything else passes through. */
  function BuildOptional(attr: Option<AttributedString>): (r: AttributedString)
    ensures attr.None? ==> r == []
    ensures attr.Some? ==> r == attr.value
  {
    attr.GetOr([])
  }

  /**
   * `buildEither(first:)` and `buildEither(second:)`, one member for both:
   * the chosen branch, passed through as `buildExpression` passes its argument.
   */
  function BuildEither(branch: AttributedString): (r: AttributedString)
    ensures r == branch
  {
    BuildAttributed(branch)
  }

  // ----- properties of the concatenation -----

  /** Concatenating two blocks of segments concatenates their results. */
  lemma {:induction false} ConcatAppend(a: seq<AttributedString>, b: seq<AttributedString>)
    ensures Concat(a + b) == Concat(a) + Concat(b)
    decreases |b|
  {
    if b == [] {
      assert a + b == a;
    } else {
      var n := |b| - 1;
      assert (a + b)[..|a + b| - 1] == a + b[..n];
      ConcatAppend(a, b[..n]);
    }
  }

  /** Prefixes of the segments give prefixes of the result. */
  lemma {:induction false} ConcatPrefix(segments: seq<AttributedString>, j: nat)
    requires j < |segments|
    ensures Concat(segments[..j + 1]) == Concat(segments[..j]) + segments[j]
  {
    assert segments[..j + 1][..j] == segments[..j];
  }

  /** The length of the result is the sum of the segments' lengths, one prefix at a time. */
  lemma {:induction false} OffsetsGrow(segments: seq<AttributedString>, j: nat)
    requires j < |segments|
    ensures Offset(segments, j + 1) == Offset(segments, j) + |segments[j]|
  {
    ConcatPrefix(segments, j);
  }

  /** The result holds each segment, unit for unit and with its attributes, at that segment's offset. */
  lemma {:induction false} BlockPreservesSegments(segments: seq<AttributedString>, j: nat, i: nat)
    requires j < |segments| && i < |segments[j]|
    ensures Offset(segments, j) + i < |Concat(segments)|
    ensures Concat(segments)[Offset(segments, j) + i] == segments[j][i]
  {
    ConcatPrefix(segments, j);
    assert segments == segments[..j + 1] + segments[j + 1..];
    ConcatAppend(segments[..j + 1], segments[j + 1..]);
  }

  /** Nil branches in a block contribute nothing. */
  lemma EmptySegmentsVanish(a: seq<AttributedString>, b: seq<AttributedString>)
    ensures Concat(a + [BuildOptional(None)] + b) == Concat(a + b)
  {
    ConcatAppend(a + [BuildOptional(None)], b);
    ConcatAppend(a, [BuildOptional(None)]);
    assert [BuildOptional(None)][..0] == [];
    ConcatAppend(a, b);
  }
}
