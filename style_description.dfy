/**
 * `StyleDescription` (Source/TextStyle/StyleDescription.swift): the record
 * behind every style. It holds a flat attribute dictionary, a set of
 * independently optional typed fields, and two set-valued fields. It has a
 * cascade rule, `combine`, and an encoder, `constructAttributes`, that turns
 * the record into the attribute dictionary a text run carries.
 */
module StyleDescriptions {
  import opened Wrappers
  import opened Platform
  import opened Attributed
  import opened Features

  datatype StyleDescription = StyleDescription(
    attributes: Attributes,
    dynamicText: Option<DynamicText>,
    lineSpacing: Option<real>,
    paragraphSpacingBefore: Option<real>,
    paragraphSpacing: Option<real>,
    alignment: Option<TextAlignment>,
    firstLineHeadIndent: Option<real>,
    headIndent: Option<real>,
    tailIndent: Option<real>,
    lineBreakMode: Option<LineBreakMode>,
    minimumLineHeight: Option<real>,
    maximumLineHeight: Option<real>,
    lineHeightMultiple: Option<real>,
    hyphenationFactor: Option<real>,
    baseWritingDirection: Option<WritingDirection>,
    tracking: Option<Tracking>,
    numberCase: Option<NumberCase>,
    numberSpacing: Option<NumberSpacing>,
    fractions: Option<Fractions>,
    superscript: Option<bool>,
    subscript: Option<bool>,
    ordinals: Option<bool>,
    scientificInferiors: Option<bool>,
    smallCaps: Option<set<SmallCaps>>,
    emphasizeStyle: Option<set<Emphasis>>,
    // Written by the `Style` setters for contextual and stylistic
    // alternates; neither `combine` nor `constructAttributes` reads them.
    contextualAlternates: Option<set<ContextualAlternate>>,
    stylisticAlternatives: Option<set<nat>>)

  /** The typed fields, everything but the attribute dictionary, are all unset. */
  predicate NoTypedFields(d: StyleDescription) {
    d.dynamicText.None? && d.lineSpacing.None? && d.paragraphSpacingBefore.None? && d.paragraphSpacing.None? &&
    d.alignment.None? && d.firstLineHeadIndent.None? && d.headIndent.None? && d.tailIndent.None? &&
    d.lineBreakMode.None? && d.minimumLineHeight.None? && d.maximumLineHeight.None? &&
    d.lineHeightMultiple.None? && d.hyphenationFactor.None? && d.baseWritingDirection.None? &&
    d.tracking.None? && d.numberCase.None? && d.numberSpacing.None? && d.fractions.None? &&
    d.superscript.None? && d.subscript.None? && d.ordinals.None? && d.scientificInferiors.None? &&
    d.smallCaps.None? && d.emphasizeStyle.None? && d.contextualAlternates.None? && d.stylisticAlternatives.None?
  }

  /** `init(attributes:)`: only the dictionary is set. */
  function Init(attributes: Attributes): (d: StyleDescription)
    ensures d.attributes == attributes
    ensures NoTypedFields(d)
  {
    StyleDescription(attributes, None, None, None, None, None, None, None, None, None, None, None, None, None, None,
      None, None, None, None, None, None, None, None, None, None, None, None)
  }

  /** The description with nothing set. */
  const Empty: StyleDescription := Init(map[])

  // ----- set / get -----

  /** `set(value:forKey:)`: nil removes the key, a value stores it; no other key or field changes. */
  function Set(d: StyleDescription, key: Key, value: Option<Value>): (r: StyleDescription)
    ensures key in r.attributes <==> value.Some?
    ensures value.Some? ==> r.attributes[key] == value.value
    ensures forall k :: k != key ==> (k in r.attributes <==> k in d.attributes)
    ensures forall k :: k != key && k in d.attributes ==> r.attributes[k] == d.attributes[k]
    ensures r.(attributes := d.attributes) == d
  {
    match value
    case None => d.(attributes := d.attributes - {key})
    case Some(v) => d.(attributes := d.attributes[key := v])
  }

  /** `get(attributeForKey:)` read as `Any`: the stored value, if any. */
  function Get(d: StyleDescription, key: Key): Option<Value> {
    if key in d.attributes then Some(d.attributes[key]) else None
  }

  /** `get(attributeForKey:)` read as a font: a value of another type reads as nil. */
  function GetFont(d: StyleDescription): (f: Option<Font>)
    ensures f.Some? <==> FontKey in d.attributes && d.attributes[FontKey].FontValue?
  {
    if FontKey in d.attributes && d.attributes[FontKey].FontValue? then Some(d.attributes[FontKey].font) else None
  }

  /** Reading a key back after setting it gives what was set; every other key reads as before. */
  lemma SetGet(d: StyleDescription, key: Key, value: Option<Value>, other: Key)
    ensures Get(Set(d, key, value), key) == value
    ensures other != key ==> Get(Set(d, key, value), other) == Get(d, other)
  {
  }

  /** Setting a key to what it already holds changes nothing. */
  lemma SetSame(d: StyleDescription, key: Key)
    ensures Set(d, key, Get(d, key)) == d
  {
    if key !in d.attributes {
      assert d.attributes - {key} == d.attributes;
    }
  }

  // ----- combine -----

  /** Swift's `child ?? parent`: the child's value when it has one, otherwise the parent's. */
  ghost predicate Inherits<T>(r: Option<T>, parent: Option<T>, child: Option<T>) {
    (child.Some? ==> r == child) && (child.None? ==> r == parent)
  }

  /** `parent?.union(child ?? []) ?? child`. */
  function UnionOptional<T>(parent: Option<set<T>>, child: Option<set<T>>): (r: Option<set<T>>)
    ensures r.None? <==> parent.None? && child.None?
    ensures r.Some? ==> r.value == parent.GetOr({}) + child.GetOr({})
  {
    match parent
    case Some(p) => Some(p + child.GetOr({}))
    case None => child
  }

  /**
   * `combine(parent, child)`: the cascade rule. The dictionaries merge with the
   * child winning on shared keys, every optional field takes the child's value
   * if set and the parent's otherwise, and the two sets are united. The result
   * is built from `init(attributes:)`, so fields `combine` does not copy are unset.
   */
  function Combine(parent: StyleDescription, child: StyleDescription): StyleDescription
  {
    Init(parent.attributes + child.attributes).(
      dynamicText := child.dynamicText.OrElse(parent.dynamicText),
      lineSpacing := child.lineSpacing.OrElse(parent.lineSpacing),
      paragraphSpacingBefore := child.paragraphSpacingBefore.OrElse(parent.paragraphSpacingBefore),
      paragraphSpacing := child.paragraphSpacing.OrElse(parent.paragraphSpacing),
      alignment := child.alignment.OrElse(parent.alignment),
      firstLineHeadIndent := child.firstLineHeadIndent.OrElse(parent.firstLineHeadIndent),
      headIndent := child.headIndent.OrElse(parent.headIndent),
      tailIndent := child.tailIndent.OrElse(parent.tailIndent),
      lineBreakMode := child.lineBreakMode.OrElse(parent.lineBreakMode),
      minimumLineHeight := child.minimumLineHeight.OrElse(parent.minimumLineHeight),
      maximumLineHeight := child.maximumLineHeight.OrElse(parent.maximumLineHeight),
      lineHeightMultiple := child.lineHeightMultiple.OrElse(parent.lineHeightMultiple),
      hyphenationFactor := child.hyphenationFactor.OrElse(parent.hyphenationFactor),
      baseWritingDirection := child.baseWritingDirection.OrElse(parent.baseWritingDirection),
      tracking := child.tracking.OrElse(parent.tracking),
      numberCase := child.numberCase.OrElse(parent.numberCase),
      numberSpacing := child.numberSpacing.OrElse(parent.numberSpacing),
      fractions := child.fractions.OrElse(parent.fractions),
      superscript := child.superscript.OrElse(parent.superscript),
      subscript := child.subscript.OrElse(parent.subscript),
      ordinals := child.ordinals.OrElse(parent.ordinals),
      scientificInferiors := child.scientificInferiors.OrElse(parent.scientificInferiors),
      smallCaps := UnionOptional(parent.smallCaps, child.smallCaps),
      emphasizeStyle := UnionOptional(parent.emphasizeStyle, child.emphasizeStyle))
  }

  /**
   * What `combine` promises, field by field: the child's keys win, every
   * optional field takes the child's value if set and the parent's otherwise,
   * the two sets are united, and the alternates fields are not carried over.
   */
  lemma CombineCascade(parent: StyleDescription, child: StyleDescription)
    ensures Combine(parent, child).attributes.Keys == parent.attributes.Keys + child.attributes.Keys
    ensures forall k :: k in child.attributes ==> Combine(parent, child).attributes[k] == child.attributes[k]
    ensures forall k :: k in parent.attributes && k !in child.attributes ==> Combine(parent, child).attributes[k] == parent.attributes[k]
    ensures Inherits(Combine(parent, child).dynamicText, parent.dynamicText, child.dynamicText)
    ensures Inherits(Combine(parent, child).lineSpacing, parent.lineSpacing, child.lineSpacing)
    ensures Inherits(Combine(parent, child).paragraphSpacingBefore, parent.paragraphSpacingBefore, child.paragraphSpacingBefore)
    ensures Inherits(Combine(parent, child).paragraphSpacing, parent.paragraphSpacing, child.paragraphSpacing)
    ensures Inherits(Combine(parent, child).alignment, parent.alignment, child.alignment)
    ensures Inherits(Combine(parent, child).firstLineHeadIndent, parent.firstLineHeadIndent, child.firstLineHeadIndent)
    ensures Inherits(Combine(parent, child).headIndent, parent.headIndent, child.headIndent)
    ensures Inherits(Combine(parent, child).tailIndent, parent.tailIndent, child.tailIndent)
    ensures Inherits(Combine(parent, child).lineBreakMode, parent.lineBreakMode, child.lineBreakMode)
    ensures Inherits(Combine(parent, child).minimumLineHeight, parent.minimumLineHeight, child.minimumLineHeight)
    ensures Inherits(Combine(parent, child).maximumLineHeight, parent.maximumLineHeight, child.maximumLineHeight)
    ensures Inherits(Combine(parent, child).lineHeightMultiple, parent.lineHeightMultiple, child.lineHeightMultiple)
    ensures Inherits(Combine(parent, child).hyphenationFactor, parent.hyphenationFactor, child.hyphenationFactor)
    ensures Inherits(Combine(parent, child).baseWritingDirection, parent.baseWritingDirection, child.baseWritingDirection)
    ensures Inherits(Combine(parent, child).tracking, parent.tracking, child.tracking)
    ensures Inherits(Combine(parent, child).numberCase, parent.numberCase, child.numberCase)
    ensures Inherits(Combine(parent, child).numberSpacing, parent.numberSpacing, child.numberSpacing)
    ensures Inherits(Combine(parent, child).fractions, parent.fractions, child.fractions)
    ensures Inherits(Combine(parent, child).superscript, parent.superscript, child.superscript)
    ensures Inherits(Combine(parent, child).subscript, parent.subscript, child.subscript)
    ensures Inherits(Combine(parent, child).ordinals, parent.ordinals, child.ordinals)
    ensures Inherits(Combine(parent, child).scientificInferiors, parent.scientificInferiors, child.scientificInferiors)
    ensures Combine(parent, child).smallCaps.None? <==> parent.smallCaps.None? && child.smallCaps.None?
    ensures Combine(parent, child).smallCaps.Some? ==> Combine(parent, child).smallCaps.value == parent.smallCaps.GetOr({}) + child.smallCaps.GetOr({})
    ensures Combine(parent, child).emphasizeStyle.None? <==> parent.emphasizeStyle.None? && child.emphasizeStyle.None?
    ensures Combine(parent, child).emphasizeStyle.Some? ==> Combine(parent, child).emphasizeStyle.value == parent.emphasizeStyle.GetOr({}) + child.emphasizeStyle.GetOr({})
    ensures Combine(parent, child).contextualAlternates.None? && Combine(parent, child).stylisticAlternatives.None?
  {
  }

  /** What survives `combine`: the description with its alternates fields cleared. */
  function Combinable(d: StyleDescription): StyleDescription {
    d.(contextualAlternates := None, stylisticAlternatives := None)
  }

  lemma OrElseAssociative<T>(x: Option<T>, y: Option<T>, z: Option<T>)
    ensures x.OrElse(y.OrElse(z)) == x.OrElse(y).OrElse(z)
  {
  }

  lemma UnionOptionalRightIdentity<T>(p: Option<set<T>>)
    ensures UnionOptional(p, None) == p
  {
    if p.Some? {
      assert p.value + {} == p.value;
    }
  }

  lemma UnionOptionalIdempotent<T>(p: Option<set<T>>)
    ensures UnionOptional(p, p) == p
  {
    if p.Some? {
      assert p.value + p.value == p.value;
    }
  }

  lemma UnionOptionalAssociative<T>(a: Option<set<T>>, b: Option<set<T>>, c: Option<set<T>>)
    ensures UnionOptional(UnionOptional(a, b), c) == UnionOptional(a, UnionOptional(b, c))
  {
    var x, y, z := a.GetOr({}), b.GetOr({}), c.GetOr({});
    assert (x + y) + z == x + (y + z);
    assert x + {} == x && y + {} == y;
  }

  /** The empty description is a left identity of `combine`, up to the alternates fields `combine` never copies. */
  lemma CombineLeftIdentity(d: StyleDescription)
    ensures Combine(Empty, d) == Combinable(d)
  {
    assert Empty.attributes + d.attributes == d.attributes;
  }

  /** The empty description is a right identity of `combine`, up to the alternates fields. */
  lemma CombineRightIdentity(d: StyleDescription)
    ensures Combine(d, Empty) == Combinable(d)
  {
    assert d.attributes + Empty.attributes == d.attributes;
    UnionOptionalRightIdentity(d.smallCaps);
    UnionOptionalRightIdentity(d.emphasizeStyle);
  }

  /** Combining a description with itself gives it back, up to the alternates fields. */
  lemma CombineIdempotent(d: StyleDescription)
    ensures Combine(d, d) == Combinable(d)
  {
    assert d.attributes + d.attributes == d.attributes;
    UnionOptionalIdempotent(d.smallCaps);
    UnionOptionalIdempotent(d.emphasizeStyle);
  }

  /** Cascading through three levels does not depend on how the levels are grouped. */
  lemma CombineAssociative(a: StyleDescription, b: StyleDescription, c: StyleDescription)
    ensures Combine(Combine(a, b), c) == Combine(a, Combine(b, c))
  {
    var left, right := Combine(Combine(a, b), c), Combine(a, Combine(b, c));
    OrElseAssociative(c.dynamicText, b.dynamicText, a.dynamicText);
    OrElseAssociative(c.lineSpacing, b.lineSpacing, a.lineSpacing);
    OrElseAssociative(c.paragraphSpacingBefore, b.paragraphSpacingBefore, a.paragraphSpacingBefore);
    OrElseAssociative(c.paragraphSpacing, b.paragraphSpacing, a.paragraphSpacing);
    OrElseAssociative(c.alignment, b.alignment, a.alignment);
    OrElseAssociative(c.firstLineHeadIndent, b.firstLineHeadIndent, a.firstLineHeadIndent);
    OrElseAssociative(c.headIndent, b.headIndent, a.headIndent);
    OrElseAssociative(c.tailIndent, b.tailIndent, a.tailIndent);
    OrElseAssociative(c.lineBreakMode, b.lineBreakMode, a.lineBreakMode);
    OrElseAssociative(c.minimumLineHeight, b.minimumLineHeight, a.minimumLineHeight);
    OrElseAssociative(c.maximumLineHeight, b.maximumLineHeight, a.maximumLineHeight);
    OrElseAssociative(c.lineHeightMultiple, b.lineHeightMultiple, a.lineHeightMultiple);
    OrElseAssociative(c.hyphenationFactor, b.hyphenationFactor, a.hyphenationFactor);
    OrElseAssociative(c.baseWritingDirection, b.baseWritingDirection, a.baseWritingDirection);
    OrElseAssociative(c.tracking, b.tracking, a.tracking);
    OrElseAssociative(c.numberCase, b.numberCase, a.numberCase);
    OrElseAssociative(c.numberSpacing, b.numberSpacing, a.numberSpacing);
    OrElseAssociative(c.fractions, b.fractions, a.fractions);
    OrElseAssociative(c.superscript, b.superscript, a.superscript);
    OrElseAssociative(c.subscript, b.subscript, a.subscript);
    OrElseAssociative(c.ordinals, b.ordinals, a.ordinals);
    OrElseAssociative(c.scientificInferiors, b.scientificInferiors, a.scientificInferiors);
    assert left.attributes == right.attributes by {
      assert (a.attributes + b.attributes) + c.attributes == a.attributes + (b.attributes + c.attributes);
    }
    assert left.smallCaps == right.smallCaps by {
      UnionOptionalAssociative(a.smallCaps, b.smallCaps, c.smallCaps);
    }
    assert left.emphasizeStyle == right.emphasizeStyle by {
      UnionOptionalAssociative(a.emphasizeStyle, b.emphasizeStyle, c.emphasizeStyle);
    }
  }

  /** Once a parent has set a flag of a set-valued field, no child can remove it. */
  lemma CombineKeepsParentFlags(parent: StyleDescription, child: StyleDescription)
    ensures parent.smallCaps.Some? ==>
      Combine(parent, child).smallCaps.Some? && parent.smallCaps.value <= Combine(parent, child).smallCaps.value
    ensures parent.emphasizeStyle.Some? ==>
      Combine(parent, child).emphasizeStyle.Some? && parent.emphasizeStyle.value <= Combine(parent, child).emphasizeStyle.value
  {
  }

  // ----- constructAttributes: specification -----

  /** The paragraph style `constructAttributes` builds: each unset field takes the default paragraph's value. */
  function ParagraphOf(d: StyleDescription): (p: Paragraph)
    ensures p.lineSpacing == d.lineSpacing.GetOr(DefaultParagraph.lineSpacing)
    ensures p.paragraphSpacingBefore == d.paragraphSpacingBefore.GetOr(DefaultParagraph.paragraphSpacingBefore)
    ensures p.paragraphSpacing == d.paragraphSpacing.GetOr(DefaultParagraph.paragraphSpacing)
    ensures p.alignment == d.alignment.GetOr(DefaultParagraph.alignment)
    ensures p.firstLineHeadIndent == d.firstLineHeadIndent.GetOr(DefaultParagraph.firstLineHeadIndent)
    ensures p.headIndent == d.headIndent.GetOr(DefaultParagraph.headIndent)
    ensures p.tailIndent == d.tailIndent.GetOr(DefaultParagraph.tailIndent)
    ensures p.lineBreakMode == d.lineBreakMode.GetOr(DefaultParagraph.lineBreakMode)
    ensures p.minimumLineHeight == d.minimumLineHeight.GetOr(DefaultParagraph.minimumLineHeight)
    ensures p.maximumLineHeight == d.maximumLineHeight.GetOr(DefaultParagraph.maximumLineHeight)
    ensures p.lineHeightMultiple == d.lineHeightMultiple.GetOr(DefaultParagraph.lineHeightMultiple)
    ensures p.hyphenationFactor == d.hyphenationFactor.GetOr(DefaultParagraph.hyphenationFactor)
    ensures p.baseWritingDirection == d.baseWritingDirection.GetOr(DefaultParagraph.baseWritingDirection)
  {
    Paragraph(
      d.lineSpacing.GetOr(0.0),
      d.paragraphSpacingBefore.GetOr(0.0),
      d.paragraphSpacing.GetOr(0.0),
      d.alignment.GetOr(Natural),
      d.firstLineHeadIndent.GetOr(0.0),
      d.headIndent.GetOr(0.0),
      d.tailIndent.GetOr(0.0),
      d.lineBreakMode.GetOr(ByWordWrapping),
      d.minimumLineHeight.GetOr(0.0),
      d.maximumLineHeight.GetOr(0.0),
      d.lineHeightMultiple.GetOr(0.0),
      d.hyphenationFactor.GetOr(0.0),
      d.baseWritingDirection.GetOr(NaturalDirection))
  }

  /** No paragraph field set: the built paragraph is the default one. */
  lemma ParagraphOfUnset(d: StyleDescription)
    requires d.lineSpacing.None? && d.paragraphSpacingBefore.None? && d.paragraphSpacing.None? &&
      d.alignment.None? && d.firstLineHeadIndent.None? && d.headIndent.None? && d.tailIndent.None? &&
      d.lineBreakMode.None? && d.minimumLineHeight.None? && d.maximumLineHeight.None? &&
      d.lineHeightMultiple.None? && d.hyphenationFactor.None? && d.baseWritingDirection.None?
    ensures ParagraphOf(d) == DefaultParagraph
  {
  }

  /** `[flag].compactMap { $0 }.map { $0 ? position : .normal }`. */
  function PositionConstructors(flag: Option<bool>, position: VerticalPosition): (cs: seq<FeatureConstructor>)
    ensures flag.None? <==> cs == []
    ensures flag == Some(true) ==> cs == [VerticalPositionConstructor(position)]
    ensures flag == Some(false) ==> cs == [VerticalPositionConstructor(NormalPosition)]
  {
    match flag
    case None => []
    case Some(b) => [VerticalPositionConstructor(if b then position else NormalPosition)]
  }

  /**
   * `smallCaps?.map { $0 } ?? []`. A Swift `Set` iterates in an unspecified
   * order; the model fixes one: disabled, fromUppercase, fromLowercase.
   */
  function SmallCapsConstructors(s: Option<set<SmallCaps>>): (cs: seq<FeatureConstructor>)
    ensures forall c :: c in cs <==> c.SmallCapsConstructor? && s.Some? && c.smallCaps in s.value
    ensures s.None? ==> cs == []
    ensures s.Some? ==> |cs| == |s.value|
  {
    match s
    case None => []
    case Some(caps) =>
      SmallCapsCount(caps);
      SmallCapsMembership(caps);
      SmallCapsInOrder(caps)
  }

  /** The members of `caps` in the fixed order. */
  function SmallCapsInOrder(caps: set<SmallCaps>): seq<FeatureConstructor> {
    (if SmallCapsDisabled in caps then [SmallCapsConstructor(SmallCapsDisabled)] else []) +
    (if FromUppercase in caps then [SmallCapsConstructor(FromUppercase)] else []) +
    (if FromLowercase in caps then [SmallCapsConstructor(FromLowercase)] else [])
  }

  lemma SmallCapsMembership(caps: set<SmallCaps>)
    ensures forall c :: c in SmallCapsInOrder(caps) <==> c.SmallCapsConstructor? && c.smallCaps in caps
  {
    forall c ensures c in SmallCapsInOrder(caps) <==> c.SmallCapsConstructor? && c.smallCaps in caps {
      if c.SmallCapsConstructor? {
        match c.smallCaps
        case SmallCapsDisabled =>
        case FromUppercase =>
        case FromLowercase =>
      }
    }
  }

  lemma CardinalityWithout<T>(s: set<T>, x: T)
    ensures |s| == |s - {x}| + (if x in s then 1 else 0)
  {
    if x in s {
      assert s == (s - {x}) + {x};
    } else {
      assert s - {x} == s;
    }
  }

  lemma SmallCapsCount(caps: set<SmallCaps>)
    ensures |caps| == |SmallCapsInOrder(caps)|
  {
    var rest1 := caps - {SmallCapsDisabled};
    var rest2 := rest1 - {FromUppercase};
    CardinalityWithout(caps, SmallCapsDisabled);
    CardinalityWithout(rest1, FromUppercase);
    CardinalityWithout(rest2, FromLowercase);
    assert rest2 - {FromLowercase} == {} by {
      forall x | x in rest2 - {FromLowercase} ensures false {
        match x
        case SmallCapsDisabled =>
        case FromUppercase =>
        case FromLowercase =>
      }
    }
  }

  /** `[numberCase].compactMap { $0 }`. */
  function NumberCaseConstructors(n: Option<NumberCase>): seq<FeatureConstructor> {
    match n
    case Some(v) => [NumberCaseConstructor(v)]
    case None => []
  }

  /** `[numberSpacing].compactMap { $0 }`. */
  function NumberSpacingConstructors(n: Option<NumberSpacing>): seq<FeatureConstructor> {
    match n
    case Some(v) => [NumberSpacingConstructor(v)]
    case None => []
  }

  /** `[fractions].compactMap { $0 }`. */
  function FractionsConstructors(f: Option<Fractions>): seq<FeatureConstructor> {
    match f
    case Some(v) => [FractionsConstructor(v)]
    case None => []
  }

  /** The feature constructors of `constructAttributes`, in the order it lists them. */
  function FeatureConstructors(d: StyleDescription): seq<FeatureConstructor> {
    [] +
    NumberCaseConstructors(d.numberCase) +
    NumberSpacingConstructors(d.numberSpacing) +
    FractionsConstructors(d.fractions) +
    PositionConstructors(d.superscript, Superscript) +
    PositionConstructors(d.subscript, Subscript) +
    PositionConstructors(d.ordinals, Ordinals) +
    PositionConstructors(d.scientificInferiors, ScientificInferiors) +
    SmallCapsConstructors(d.smallCaps)
  }

  /** 1 for a set optional field, 0 for an unset one. */
  function Present<T>(o: Option<T>): nat {
    if o.Some? then 1 else 0
  }

  /** The number of optional feature fields that are set. */
  function SetFeatureFieldCount(d: StyleDescription): nat {
    Present(d.numberCase) + Present(d.numberSpacing) + Present(d.fractions) +
    Present(d.superscript) + Present(d.subscript) + Present(d.ordinals) + Present(d.scientificInferiors)
  }

  /** One constructor per set feature field, plus one per small-caps member; none exactly when nothing is set. */
  lemma FeatureConstructorsCount(d: StyleDescription)
    ensures |FeatureConstructors(d)| == SetFeatureFieldCount(d) + (if d.smallCaps.Some? then |d.smallCaps.value| else 0)
    ensures FeatureConstructors(d) == [] <==>
      SetFeatureFieldCount(d) == 0 && (d.smallCaps.None? || d.smallCaps.value == {})
  {
    var n1, n2, n3 := NumberCaseConstructors(d.numberCase), NumberSpacingConstructors(d.numberSpacing), FractionsConstructors(d.fractions);
    var p1, p2 := PositionConstructors(d.superscript, Superscript), PositionConstructors(d.subscript, Subscript);
    var p3, p4 := PositionConstructors(d.ordinals, Ordinals), PositionConstructors(d.scientificInferiors, ScientificInferiors);
    var caps := SmallCapsConstructors(d.smallCaps);
    assert |FeatureConstructors(d)| == |n1| + |n2| + |n3| + |p1| + |p2| + |p3| + |p4| + |caps|;
    assert |n1| == Present(d.numberCase) && |n2| == Present(d.numberSpacing) && |n3| == Present(d.fractions);
    assert |p1| == Present(d.superscript) && |p2| == Present(d.subscript);
    assert |p3| == Present(d.ordinals) && |p4| == Present(d.scientificInferiors);
  }

  /**
   * With every feature field set, the constructors come in the order numberCase,
   * numberSpacing, fractions, superscript, subscript, ordinals,
   * scientificInferiors, then the small caps; a false flag encodes as the
   * normal vertical position.
   */
  lemma FeatureConstructorsOrder(d: StyleDescription)
    requires d.numberCase.Some? && d.numberSpacing.Some? && d.fractions.Some?
    requires d.superscript.Some? && d.subscript.Some? && d.ordinals.Some? && d.scientificInferiors.Some?
    ensures var cs := FeatureConstructors(d);
      |cs| >= 7 &&
      cs[0] == NumberCaseConstructor(d.numberCase.value) &&
      cs[1] == NumberSpacingConstructor(d.numberSpacing.value) &&
      cs[2] == FractionsConstructor(d.fractions.value) &&
      cs[3] == VerticalPositionConstructor(if d.superscript.value then Superscript else NormalPosition) &&
      cs[4] == VerticalPositionConstructor(if d.subscript.value then Subscript else NormalPosition) &&
      cs[5] == VerticalPositionConstructor(if d.ordinals.value then Ordinals else NormalPosition) &&
      cs[6] == VerticalPositionConstructor(if d.scientificInferiors.value then ScientificInferiors else NormalPosition) &&
      cs[7..] == SmallCapsConstructors(d.smallCaps)
  {
  }

  /** The font `constructAttributes` starts from: the dictionary's font, or the system font. */
  function BaseFont(d: StyleDescription, env: Environment): Font {
    GetFont(d).GetOr(env.systemFont)
  }

  /** The descriptor after the feature step: feature settings are attached only when there are some. */
  function FeaturedDescriptor(d: StyleDescription, env: Environment): FontDescriptor {
    var base := BaseFont(d, env).descriptor;
    var settings := FlatAttributes(FeatureConstructors(d));
    if settings == [] then base else AddingFeatureSettings(base, settings)
  }

  /** The descriptor after the trait step: nil when the platform cannot apply the requested traits. */
  function TraitedDescriptor(d: StyleDescription, env: Environment): Option<FontDescriptor> {
    var featured := FeaturedDescriptor(d, env);
    match d.emphasizeStyle
    case None => Some(featured)
    case Some(e) => WithSymbolicTraits(env, featured, featured.symbolicTraits + TraitsOf(e))
  }

  /** The font before Dynamic Type scaling: rebuilt from the descriptor if there is one, otherwise the base font. */
  function ResolvedFont(d: StyleDescription, env: Environment): Font {
    var base := BaseFont(d, env);
    match TraitedDescriptor(d, env)
    case Some(desc) => MakeFont(desc, base.pointSize)
    case None => base
  }

  /** The value stored under the font key: the resolved font, scaled when Dynamic Type is set. */
  function FontAttribute(d: StyleDescription, env: Environment): Font {
    var font := ResolvedFont(d, env);
    match d.dynamicText
    case Some(dt) => Scaled(font, dt)
    case None => font
  }

  /** The dictionary after the paragraph step: the paragraph key is written only for a non-default paragraph. */
  function WithParagraph(d: StyleDescription): Attributes {
    if ParagraphOf(d) != DefaultParagraph then d.attributes[ParagraphStyleKey := ParagraphValue(ParagraphOf(d))] else d.attributes
  }

  /** The attributes `constructAttributes` returns. */
  function Encoded(d: StyleDescription, env: Environment): Attributes {
    var withFont := WithParagraph(d)[FontKey := FontValue(FontAttribute(d, env))];
    match d.tracking
    case Some(t) => withFont[KernKey := NumberValue(Kerning(t, Some(ResolvedFont(d, env))))]
    case None => withFont
  }

  // ----- constructAttributes: properties -----

  /** The font key is always present, whatever the description. */
  lemma EncodedHasFont(d: StyleDescription, env: Environment)
    ensures FontKey in Encoded(d, env)
    ensures Encoded(d, env)[FontKey] == FontValue(FontAttribute(d, env))
  {
  }

  /** The kern key is present exactly when tracking is set or the dictionary already had one; tracking wins. */
  lemma EncodedKern(d: StyleDescription, env: Environment)
    ensures KernKey in Encoded(d, env) <==> d.tracking.Some? || KernKey in d.attributes
    ensures d.tracking.Some? ==>
      Encoded(d, env)[KernKey] == NumberValue(Kerning(d.tracking.value, Some(ResolvedFont(d, env))))
  {
  }

  /** The paragraph key is written only when the built paragraph differs from the default one. */
  lemma EncodedParagraph(d: StyleDescription, env: Environment)
    ensures ParagraphStyleKey in Encoded(d, env) <==> ParagraphOf(d) != DefaultParagraph || ParagraphStyleKey in d.attributes
    ensures ParagraphOf(d) != DefaultParagraph ==> Encoded(d, env)[ParagraphStyleKey] == ParagraphValue(ParagraphOf(d))
    ensures ParagraphOf(d) == DefaultParagraph && ParagraphStyleKey in d.attributes ==>
      Encoded(d, env)[ParagraphStyleKey] == d.attributes[ParagraphStyleKey]
  {
  }

  /** Every other key of the dictionary passes through unchanged, and no other key is added. */
  lemma EncodedKeepsOtherKeys(d: StyleDescription, env: Environment)
    ensures forall k :: k != FontKey && k != KernKey && k != ParagraphStyleKey ==>
      (k in Encoded(d, env) <==> k in d.attributes)
    ensures forall k :: k != FontKey && k != KernKey && k != ParagraphStyleKey && k in d.attributes ==>
      Encoded(d, env)[k] == d.attributes[k]
  {
  }

  /** With no feature fields, the descriptor keeps the base font's own feature settings. */
  lemma FeatureSettingsOnlyWhenPresent(d: StyleDescription, env: Environment)
    ensures FeatureConstructors(d) == [] ==> FeaturedDescriptor(d, env) == BaseFont(d, env).descriptor
    ensures FeatureConstructors(d) != [] ==>
      FeaturedDescriptor(d, env).featureSettings == FlatAttributes(FeatureConstructors(d)) &&
      FeaturedDescriptor(d, env).featureSettings != []
  {
    FlatAttributesEmpty(FeatureConstructors(d));
  }

  /**
   * Emphasis traits are added to the traits the descriptor already has. When
   * the platform rejects the combination, the font falls back to the base font,
   * losing the feature settings as well.
   */
  lemma EmphasisAddsTraits(d: StyleDescription, env: Environment)
    requires d.emphasizeStyle.Some?
    ensures var featured := FeaturedDescriptor(d, env);
      var wanted := featured.symbolicTraits + TraitsOf(d.emphasizeStyle.value);
      (SupportsTraits(env, featured, wanted) ==>
        ResolvedFont(d, env).descriptor.symbolicTraits == wanted &&
        BaseFont(d, env).descriptor.symbolicTraits <= ResolvedFont(d, env).descriptor.symbolicTraits) &&
      (!SupportsTraits(env, featured, wanted) ==> ResolvedFont(d, env) == BaseFont(d, env))
  {
  }

  /** Without emphasis the rebuilt font carries the featured descriptor at the base font's size. */
  lemma NoEmphasisKeepsDescriptor(d: StyleDescription, env: Environment)
    requires d.emphasizeStyle.None?
    ensures ResolvedFont(d, env) == MakeFont(FeaturedDescriptor(d, env), BaseFont(d, env).pointSize)
  {
  }

  /** An empty description encodes to the system font and nothing else. */
  lemma EncodedEmpty(env: Environment)
    ensures Encoded(Empty, env) == map[FontKey := FontValue(MakeFont(env.systemFont.descriptor, env.systemFont.pointSize))]
  {
    ParagraphOfUnset(Empty);
  }

  // ----- constructAttributes: the procedure -----

  /** The paragraph-style block of `constructAttributes`: a fresh style, then each field or its default. */
  method BuildParagraphStyle(d: StyleDescription) returns (paragraphStyle: Paragraph)
    ensures paragraphStyle == ParagraphOf(d)
  {
    paragraphStyle := DefaultParagraph;
    paragraphStyle := paragraphStyle.(lineSpacing := d.lineSpacing.GetOr(0.0));
    paragraphStyle := paragraphStyle.(paragraphSpacingBefore := d.paragraphSpacingBefore.GetOr(0.0));
    paragraphStyle := paragraphStyle.(paragraphSpacing := d.paragraphSpacing.GetOr(0.0));
    paragraphStyle := paragraphStyle.(alignment := d.alignment.GetOr(Natural));
    paragraphStyle := paragraphStyle.(firstLineHeadIndent := d.firstLineHeadIndent.GetOr(0.0));
    paragraphStyle := paragraphStyle.(headIndent := d.headIndent.GetOr(0.0));
    paragraphStyle := paragraphStyle.(tailIndent := d.tailIndent.GetOr(0.0));
    paragraphStyle := paragraphStyle.(lineBreakMode := d.lineBreakMode.GetOr(ByWordWrapping));
    paragraphStyle := paragraphStyle.(minimumLineHeight := d.minimumLineHeight.GetOr(0.0));
    paragraphStyle := paragraphStyle.(maximumLineHeight := d.maximumLineHeight.GetOr(0.0));
    paragraphStyle := paragraphStyle.(lineHeightMultiple := d.lineHeightMultiple.GetOr(0.0));
    paragraphStyle := paragraphStyle.(hyphenationFactor := d.hyphenationFactor.GetOr(0.0));
    paragraphStyle := paragraphStyle.(baseWritingDirection := d.baseWritingDirection.GetOr(NaturalDirection));
  }

  /** The feature block of `constructAttributes`: the constructor list grown field by field. */
  method BuildFeatureConstructors(d: StyleDescription) returns (fontFeatureConstructors: seq<FeatureConstructor>)
    ensures fontFeatureConstructors == FeatureConstructors(d)
  {
    fontFeatureConstructors := [];
    fontFeatureConstructors := fontFeatureConstructors + NumberCaseConstructors(d.numberCase);
    fontFeatureConstructors := fontFeatureConstructors + NumberSpacingConstructors(d.numberSpacing);
    fontFeatureConstructors := fontFeatureConstructors + FractionsConstructors(d.fractions);
    fontFeatureConstructors := fontFeatureConstructors + PositionConstructors(d.superscript, Superscript);
    fontFeatureConstructors := fontFeatureConstructors + PositionConstructors(d.subscript, Subscript);
    fontFeatureConstructors := fontFeatureConstructors + PositionConstructors(d.ordinals, Ordinals);
    fontFeatureConstructors := fontFeatureConstructors + PositionConstructors(d.scientificInferiors, ScientificInferiors);
    fontFeatureConstructors := fontFeatureConstructors + SmallCapsConstructors(d.smallCaps);
  }

  /**
   * The descriptor block of `constructAttributes`: feature settings when there
   * are any, then the emphasis traits united with the descriptor's own.
   */
  method BuildDescriptor(d: StyleDescription, env: Environment, font: Font) returns (descriptor: Option<FontDescriptor>)
    requires font == BaseFont(d, env)
    ensures descriptor == TraitedDescriptor(d, env)
  {
    var fontFeatureConstructors := BuildFeatureConstructors(d);
    var fontFeatures := FlatAttributes(fontFeatureConstructors);
    descriptor := Some(font.descriptor);
    if fontFeatures != [] {
      descriptor := Some(AddingFeatureSettings(font.descriptor, fontFeatures));
    }
    assert descriptor == Some(FeaturedDescriptor(d, env));

    if d.emphasizeStyle.Some? {
      var emphasisTraits := SymbolicTraits(d.emphasizeStyle.value);
      if descriptor.Some? {
        descriptor := WithSymbolicTraits(env, descriptor.value, descriptor.value.symbolicTraits + emphasisTraits);
      }
    }
  }

  /** The font block of `constructAttributes`: the base font, rebuilt from the descriptor when there is one. */
  method BuildFont(d: StyleDescription, env: Environment) returns (font: Font)
    ensures font == ResolvedFont(d, env)
  {
    font := if FontKey in d.attributes && d.attributes[FontKey].FontValue? then d.attributes[FontKey].font else env.systemFont;
    var descriptor := BuildDescriptor(d, env, font);
    if descriptor.Some? {
      font := MakeFont(descriptor.value, font.pointSize);
    }
  }

  /** `constructAttributes()`, step by step over its locals. */
  method ConstructAttributes(d: StyleDescription, env: Environment) returns (attributes: Attributes)
    ensures attributes == Encoded(d, env)
  {
    attributes := d.attributes;
    var paragraphStyle := BuildParagraphStyle(d);
    if paragraphStyle != DefaultParagraph {
      attributes := attributes[ParagraphStyleKey := ParagraphValue(paragraphStyle)];
    }
    var font := BuildFont(d, env);
    if d.dynamicText.Some? {
      attributes := attributes[FontKey := FontValue(Scaled(font, d.dynamicText.value))];
    } else {
      attributes := attributes[FontKey := FontValue(font)];
    }
    if d.tracking.Some? {
      attributes := attributes[KernKey := NumberValue(Kerning(d.tracking.value, Some(font)))];
    }
  }
}
