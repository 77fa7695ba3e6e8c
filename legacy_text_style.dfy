/**
 * The mutable `TextStyle` of the older tree (EasyTextKit/TextStyle/TextStyle.swift).
 * Its dictionary-backed properties live in `innerAttributes`; the paragraph
 * properties write into a paragraph object stored there, created on first
 * read; the font features are fields. `merge` builds a new style from a child
 * (the receiver) and a parent.
 *
 * `LegacyState` is the value of a style's fields; the functions over it
 * specify the class's methods and carry the properties.
 */
module LegacyTextStyles {
  import opened Wrappers
  import opened Platform
  import opened Attributed
  import opened Features
  import StyleDescriptions
  import opened LegacyAttributes

  datatype LegacyState = LegacyState(
    innerAttributes: Attributes,
    dynamicText: Option<DynamicText>,
    tracking: Option<Tracking>,
    numberCase: Option<NumberCase>,
    numberSpacing: Option<NumberSpacing>,
    fractions: Option<Fractions>,
    superscript: Option<bool>,
    subscript: Option<bool>,
    ordinals: Option<bool>,
    scientificInferiors: Option<bool>,
    smallCaps: set<SmallCaps>,
    emphasizeStyle: Option<set<Emphasis>>)

  /** A new style over a dictionary: every field at its initial value. */
  function Blank(attributes: Attributes): (s: LegacyState)
    ensures s.innerAttributes == attributes && s.smallCaps == {} && s.emphasizeStyle.None?
    ensures s.dynamicText.None? && s.tracking.None?
  {
    LegacyState(attributes, None, None, None, None, None, None, None, None, None, {}, None)
  }

  // ----- the dictionary -----

  /** The Swift types `get<T>` casts to. */
  datatype ValueKind = FontKind | ColorKind | IntKind | NumberKind | ShadowKind | UrlKind | ParagraphKind

  predicate OfKind(v: Value, kind: ValueKind) {
    match kind
    case FontKind => v.FontValue?
    case ColorKind => v.ColorValue?
    case IntKind => v.IntValue?
    case NumberKind => v.NumberValue?
    case ShadowKind => v.ShadowValue?
    case UrlKind => v.UrlValue?
    case ParagraphKind => v.ParagraphValue?
  }

  /** `get(attributeForKey:)`: the stored value when it has the expected type, nil otherwise. */
  function Typed(inner: Attributes, key: Key, kind: ValueKind): (r: Option<Value>)
    ensures r.Some? <==> key in inner && OfKind(inner[key], kind)
    ensures r.Some? ==> r.value == inner[key]
  {
    if key in inner && OfKind(inner[key], kind) then Some(inner[key]) else None
  }

  /** `set(value:forKey:)`: nil removes the key, a value is stored under it; no other key changes. */
  function Put(inner: Attributes, key: Key, value: Option<Value>): (r: Attributes)
    ensures key in r <==> value.Some?
    ensures value.Some? ==> r[key] == value.value
    ensures forall k :: k != key ==> (k in r <==> k in inner)
    ensures forall k :: k != key && k in inner ==> r[k] == inner[k]
  {
    match value
    case Some(v) => inner[key := v]
    case None => inner - {key}
  }

  /** Reading a key back after `set` gives what was set, if it has the type asked for. */
  lemma PutThenTyped(inner: Attributes, key: Key, value: Value, kind: ValueKind)
    requires OfKind(value, kind)
    ensures Typed(Put(inner, key, Some(value)), key, kind) == Some(value)
    ensures Typed(Put(inner, key, None), key, kind).None?
  {
  }

  /** The `Int` stored under a line-style key, 0 when there is none: the getters of `underline` and `strikethroughStyle`. */
  function LineStyleRaw(inner: Attributes, key: Key): int {
    match Typed(inner, key, IntKind)
    case Some(IntValue(n)) => n
    case _ => 0
  }

  /** The `ligature` getter. */
  function StoredLigature(inner: Attributes): (l: Option<Ligature>)
    ensures l.Some? ==> LigatureKey in inner && inner[LigatureKey] == IntValue(LigatureRawValue(l.value))
  {
    match Typed(inner, LigatureKey, IntKind)
    case Some(IntValue(n)) => LigatureFromRaw(n)
    case _ => None
  }

  function LigatureEntry(l: Option<Ligature>): Option<Value> {
    match l
    case Some(v) => Some(IntValue(LigatureRawValue(v)))
    case None => None
  }

  // ----- the lazy paragraph -----

  /** What the `paragraph` getter returns: the stored paragraph, or a new default one. */
  function LazyParagraph(inner: Attributes): (p: Paragraph)
    ensures ParagraphStyleKey in inner && inner[ParagraphStyleKey].ParagraphValue? ==> p == inner[ParagraphStyleKey].paragraph
    ensures !(ParagraphStyleKey in inner && inner[ParagraphStyleKey].ParagraphValue?) ==> p == DefaultParagraph
  {
    match Typed(inner, ParagraphStyleKey, ParagraphKind)
    case Some(ParagraphValue(p)) => p
    case _ => DefaultParagraph
  }

  /** The dictionary after the `paragraph` getter ran: the paragraph it returned is stored. */
  function WithLazyParagraph(inner: Attributes): (r: Attributes)
    ensures r == inner[ParagraphStyleKey := ParagraphValue(LazyParagraph(inner))]
  {
    inner[ParagraphStyleKey := ParagraphValue(LazyParagraph(inner))]
  }

  /** Reading the paragraph twice stores nothing new the second time. */
  lemma LazyParagraphStable(inner: Attributes)
    ensures WithLazyParagraph(WithLazyParagraph(inner)) == WithLazyParagraph(inner)
    ensures LazyParagraph(WithLazyParagraph(inner)) == LazyParagraph(inner)
  {
  }

  /** One paragraph property setter and its argument. */
  datatype ParagraphSetting =
    | LineSpacing(Option<real>)
    | ParagraphSpacingBefore(Option<real>)
    | ParagraphSpacing(Option<real>)
    | Alignment(Option<TextAlignment>)
    | FirstLineHeadIndent(Option<real>)
    | HeadIndent(Option<real>)
    | TailIndent(Option<real>)
    | LineBreak(Option<LineBreakMode>)
    | MinimumLineHeight(Option<real>)
    | MaximumLineHeight(Option<real>)
    | LineHeightMultiple(Option<real>)
    | HyphenationSetting(Option<Hyphenation>)
    | BaseWritingDirection(Option<WritingDirection>)

  /** The paragraph after one setter: its own property, nil mapped to 0, natural or word wrapping. */
  function Updated(p: Paragraph, s: ParagraphSetting): Paragraph {
    match s
    case LineSpacing(v) => p.(lineSpacing := v.GetOr(0.0))
    case ParagraphSpacingBefore(v) => p.(paragraphSpacingBefore := v.GetOr(0.0))
    case ParagraphSpacing(v) => p.(paragraphSpacing := v.GetOr(0.0))
    case Alignment(v) => p.(alignment := v.GetOr(Natural))
    case FirstLineHeadIndent(v) => p.(firstLineHeadIndent := v.GetOr(0.0))
    case HeadIndent(v) => p.(headIndent := v.GetOr(0.0))
    case TailIndent(v) => p.(tailIndent := v.GetOr(0.0))
    case LineBreak(v) => p.(lineBreakMode := v.GetOr(ByWordWrapping))
    case MinimumLineHeight(v) => p.(minimumLineHeight := v.GetOr(0.0))
    case MaximumLineHeight(v) => p.(maximumLineHeight := v.GetOr(0.0))
    case LineHeightMultiple(v) => p.(lineHeightMultiple := v.GetOr(0.0))
    case HyphenationSetting(v) => p.(hyphenationFactor := match v case Some(h) => HyphenationRawValue(h) case None => 0.0)
    case BaseWritingDirection(v) => p.(baseWritingDirection := v.GetOr(NaturalDirection))
  }

  /** The setting that resets the same property to nil. */
  function Cleared(s: ParagraphSetting): ParagraphSetting {
    match s
    case LineSpacing(_) => LineSpacing(None)
    case ParagraphSpacingBefore(_) => ParagraphSpacingBefore(None)
    case ParagraphSpacing(_) => ParagraphSpacing(None)
    case Alignment(_) => Alignment(None)
    case FirstLineHeadIndent(_) => FirstLineHeadIndent(None)
    case HeadIndent(_) => HeadIndent(None)
    case TailIndent(_) => TailIndent(None)
    case LineBreak(_) => LineBreak(None)
    case MinimumLineHeight(_) => MinimumLineHeight(None)
    case MaximumLineHeight(_) => MaximumLineHeight(None)
    case LineHeightMultiple(_) => LineHeightMultiple(None)
    case HyphenationSetting(_) => HyphenationSetting(None)
    case BaseWritingDirection(_) => BaseWritingDirection(None)
  }

  /**
   * Setting a paragraph property to nil gives it the value a new paragraph
   * has: on a new paragraph, a nil setter changes nothing.
   */
  lemma NilSettersGiveDefaults(s: ParagraphSetting)
    ensures Updated(DefaultParagraph, Cleared(s)) == DefaultParagraph
  {
  }

  /** A setter overwrites only its own property: setting it again replaces the first value. */
  lemma SetterLastWriteWins(p: Paragraph, s: ParagraphSetting, t: ParagraphSetting)
    requires Cleared(s) == Cleared(t)
    ensures Updated(Updated(p, s), t) == Updated(p, t)
  {
  }

  // ----- merge -----

  /**
   * The paragraph of a merged style: the child's properties, read through the
   * getters, which never return nil; the head and tail indents are both taken
   * from the first-line head indent; the hyphenation factor is read as on/off.
   */
  function MergedParagraph(child: Paragraph): (p: Paragraph)
    ensures p.headIndent == child.firstLineHeadIndent && p.tailIndent == child.firstLineHeadIndent
    ensures p.firstLineHeadIndent == child.firstLineHeadIndent
    ensures p.hyphenationFactor == HyphenationRawValue(HyphenationOf(child.hyphenationFactor))
    ensures p.(headIndent := child.headIndent, tailIndent := child.tailIndent, hyphenationFactor := child.hyphenationFactor) == child
  {
    Paragraph(
      child.lineSpacing, child.paragraphSpacingBefore, child.paragraphSpacing, child.alignment,
      child.firstLineHeadIndent, child.firstLineHeadIndent, child.firstLineHeadIndent,
      child.lineBreakMode, child.minimumLineHeight, child.maximumLineHeight, child.lineHeightMultiple,
      HyphenationRawValue(HyphenationOf(child.hyphenationFactor)), child.baseWritingDirection)
  }

  /** A plain property of a merged style: the child's value when it has the right type, else the parent's. */
  function ChildElseParent(child: Attributes, parent: Attributes, key: Key, kind: ValueKind): Option<Value> {
    Typed(child, key, kind).OrElse(Typed(parent, key, kind))
  }

  /**
   * What `merge` writes under one key: child-else-parent for the plain
   * properties; the child's alone for the line-style tuples and the paragraph,
   * whose getters never return nil; nothing for any other key.
   */
  function MergedEntry(child: Attributes, parent: Attributes, key: Key): Option<Value> {
    match key
    case FontKey => ChildElseParent(child, parent, key, FontKind)
    case ForegroundColorKey => ChildElseParent(child, parent, key, ColorKind)
    case BackgroundColorKey => ChildElseParent(child, parent, key, ColorKind)
    case UnderlineStyleKey => Some(IntValue(LineStyleRaw(child, key)))
    case UnderlineColorKey => Typed(child, key, ColorKind)
    case StrokeColorKey => Typed(child, key, ColorKind)
    case StrokeWidthKey => Typed(child, key, NumberKind)
    case StrikethroughStyleKey => Some(IntValue(LineStyleRaw(child, key)))
    case StrikethroughColorKey => Typed(child, key, ColorKind)
    case BaselineOffsetKey => ChildElseParent(child, parent, key, NumberKind)
    case ShadowKey => ChildElseParent(child, parent, key, ShadowKind)
    case LinkKey => ChildElseParent(child, parent, key, UrlKind)
    case LigatureKey => LigatureEntry(StoredLigature(child).OrElse(StoredLigature(parent)))
    case ParagraphStyleKey => Some(ParagraphValue(MergedParagraph(LazyParagraph(child))))
    case _ => None
  }

  /** The keys `merge` can write. */
  const MergedKeys: set<Key> := {
    FontKey, ForegroundColorKey, BackgroundColorKey, UnderlineStyleKey, UnderlineColorKey,
    StrokeColorKey, StrokeWidthKey, StrikethroughStyleKey, StrikethroughColorKey, BaselineOffsetKey,
    ShadowKey, LinkKey, LigatureKey, ParagraphStyleKey}

  /**
   * The dictionary of a merged style. `merge` writes the properties one by one
   * into an empty style; each writes its own keys, so the result is the
   * per-key entry.
   */
  function MergedAttributes(child: Attributes, parent: Attributes): Attributes {
    map k | k in MergedKeys && MergedEntry(child, parent, k).Some? :: MergedEntry(child, parent, k).value
  }

  /** A key is in the merged dictionary exactly when `merge` writes a value for it, and holds that value. */
  lemma MergedAttributesLookup(child: Attributes, parent: Attributes)
    ensures var m := MergedAttributes(child, parent);
      (forall k :: k in m <==> k in MergedKeys && MergedEntry(child, parent, k).Some?) &&
      (forall k :: k in m ==> m[k] == MergedEntry(child, parent, k).value)
  {
  }

  /** `merge(_ parent:)` with the receiver as the child. */
  function MergeSpec(child: LegacyState, parent: LegacyState): LegacyState {
    LegacyState(
      MergedAttributes(child.innerAttributes, parent.innerAttributes),
      None,
      child.tracking.OrElse(parent.tracking),
      child.numberCase.OrElse(parent.numberCase),
      child.numberSpacing.OrElse(parent.numberSpacing),
      child.fractions.OrElse(parent.fractions),
      child.superscript.OrElse(parent.superscript),
      child.subscript.OrElse(parent.subscript),
      child.ordinals.OrElse(parent.ordinals),
      child.scientificInferiors.OrElse(parent.scientificInferiors),
      child.smallCaps + parent.smallCaps,
      match child.emphasizeStyle
      case Some(e) => Some(e + parent.emphasizeStyle.GetOr({}))
      case None => None)
  }

  /** Tracking and the eight typed feature fields are child-else-parent; the small caps are the union. */
  lemma MergeTypedFields(child: LegacyState, parent: LegacyState)
    ensures var m := MergeSpec(child, parent);
      (child.tracking.Some? ==> m.tracking == child.tracking) &&
      (child.tracking.None? ==> m.tracking == parent.tracking) &&
      (child.numberCase.Some? ==> m.numberCase == child.numberCase) &&
      (child.numberCase.None? ==> m.numberCase == parent.numberCase) &&
      (child.numberSpacing.Some? ==> m.numberSpacing == child.numberSpacing) &&
      (child.numberSpacing.None? ==> m.numberSpacing == parent.numberSpacing) &&
      (child.fractions.Some? ==> m.fractions == child.fractions) &&
      (child.fractions.None? ==> m.fractions == parent.fractions) &&
      (child.superscript.Some? ==> m.superscript == child.superscript) &&
      (child.superscript.None? ==> m.superscript == parent.superscript) &&
      (child.subscript.Some? ==> m.subscript == child.subscript) &&
      (child.subscript.None? ==> m.subscript == parent.subscript) &&
      (child.ordinals.Some? ==> m.ordinals == child.ordinals) &&
      (child.ordinals.None? ==> m.ordinals == parent.ordinals) &&
      (child.scientificInferiors.Some? ==> m.scientificInferiors == child.scientificInferiors) &&
      (child.scientificInferiors.None? ==> m.scientificInferiors == parent.scientificInferiors) &&
      m.smallCaps == child.smallCaps + parent.smallCaps
  {
  }

  /** The emphasis is nil whenever the child's is, however much the parent sets; otherwise it is the union. */
  lemma MergeEmphasis(child: LegacyState, parent: LegacyState)
    ensures child.emphasizeStyle.None? ==> MergeSpec(child, parent).emphasizeStyle.None?
    ensures child.emphasizeStyle.Some? ==>
      MergeSpec(child, parent).emphasizeStyle == Some(child.emphasizeStyle.value + parent.emphasizeStyle.GetOr({}))
  {
  }

  /** A merged style never has Dynamic Type, whatever either side had. */
  lemma MergeDropsDynamicText(child: LegacyState, parent: LegacyState)
    ensures MergeSpec(child, parent).dynamicText.None?
  {
  }

  /** Only the known keys survive a merge: any other key of either side is dropped. */
  lemma MergeDropsOtherKeys(child: LegacyState, parent: LegacyState)
    ensures MergeSpec(child, parent).innerAttributes.Keys <= MergedKeys
    ensures ParagraphStyleKey in MergeSpec(child, parent).innerAttributes
    ensures UnderlineStyleKey in MergeSpec(child, parent).innerAttributes
    ensures StrikethroughStyleKey in MergeSpec(child, parent).innerAttributes
  {
    MergedAttributesLookup(child.innerAttributes, parent.innerAttributes);
  }

  /** The font, colours, offset, shadow and link are the child's when it has one of the right type, the parent's otherwise. */
  lemma MergeChildElseParent(child: LegacyState, parent: LegacyState, key: Key, kind: ValueKind)
    requires (key, kind) in {(FontKey, FontKind), (ForegroundColorKey, ColorKind), (BackgroundColorKey, ColorKind),
      (BaselineOffsetKey, NumberKind), (ShadowKey, ShadowKind), (LinkKey, UrlKind)}
    ensures var m := MergeSpec(child, parent).innerAttributes;
      var c := Typed(child.innerAttributes, key, kind);
      var p := Typed(parent.innerAttributes, key, kind);
      (c.Some? ==> key in m && m[key] == c.value) &&
      (c.None? && p.Some? ==> key in m && m[key] == p.value) &&
      (c.None? && p.None? ==> key !in m)
  {
    MergedAttributesLookup(child.innerAttributes, parent.innerAttributes);
    assert key in MergedKeys;
    assert MergedEntry(child.innerAttributes, parent.innerAttributes, key) ==
      ChildElseParent(child.innerAttributes, parent.innerAttributes, key, kind);
  }

  /**
   * The ligature is the child's stored ligature when it has one, the parent's
   * otherwise, and the key is written only when one of them has it.
   */
  lemma MergeLigature(child: LegacyState, parent: LegacyState)
    ensures var m := MergeSpec(child, parent).innerAttributes;
      var c := StoredLigature(child.innerAttributes);
      var p := StoredLigature(parent.innerAttributes);
      (LigatureKey in m <==> c.Some? || p.Some?) &&
      (c.Some? ==> StoredLigature(m) == c) &&
      (c.None? ==> StoredLigature(m) == p)
  {
    var c, p := child.innerAttributes, parent.innerAttributes;
    var m := MergedAttributes(c, p);
    var l := StoredLigature(c).OrElse(StoredLigature(p));
    LigatureEntryMerged(c, p);
    assert LigatureKey in MergedKeys;
    if l.Some? {
      assert m[LigatureKey] == IntValue(LigatureRawValue(l.value));
      LigatureRoundTrip(l.value);
    }
  }

  /** The ligature entry `merge` writes, on the dictionaries alone. */
  lemma LigatureEntryMerged(child: Attributes, parent: Attributes)
    ensures MergedEntry(child, parent, LigatureKey) == LigatureEntry(StoredLigature(child).OrElse(StoredLigature(parent)))
  {
  }

  /**
   * The paragraph, the underline, the stroke and the strikethrough of a merged
   * style depend on the child only: the parent's are never read.
   */
  lemma MergeIgnoresParentParagraphAndLines(child: LegacyState, parent1: LegacyState, parent2: LegacyState, k: Key)
    requires k in {ParagraphStyleKey, UnderlineStyleKey, UnderlineColorKey, StrokeColorKey, StrokeWidthKey,
      StrikethroughStyleKey, StrikethroughColorKey}
    ensures var m1 := MergeSpec(child, parent1).innerAttributes;
      var m2 := MergeSpec(child, parent2).innerAttributes;
      (k in m1 <==> k in m2) && (k in m1 ==> m1[k] == m2[k])
  {
    var c := child.innerAttributes;
    EntryIgnoresParent(c, parent1.innerAttributes, parent2.innerAttributes, k);
    assert k in MergedKeys;
  }

  /** The entries behind `MergeIgnoresParentParagraphAndLines`, key by key. */
  lemma EntryIgnoresParent(child: Attributes, parent1: Attributes, parent2: Attributes, k: Key)
    requires k in {ParagraphStyleKey, UnderlineStyleKey, UnderlineColorKey, StrokeColorKey, StrokeWidthKey,
      StrikethroughStyleKey, StrikethroughColorKey}
    ensures MergedEntry(child, parent1, k) == MergedEntry(child, parent2, k)
  {
  }

  /** The merged head and tail indents both come from the child's first-line head indent. */
  lemma MergeIndentsFromFirstLine(child: LegacyState, parent: LegacyState)
    ensures var m := MergeSpec(child, parent).innerAttributes;
      var p := LazyParagraph(child.innerAttributes);
      ParagraphStyleKey in m &&
      m[ParagraphStyleKey] == ParagraphValue(MergedParagraph(p)) &&
      m[ParagraphStyleKey].paragraph.headIndent == p.firstLineHeadIndent &&
      m[ParagraphStyleKey].paragraph.tailIndent == p.firstLineHeadIndent
  {
    MergedAttributesLookup(child.innerAttributes, parent.innerAttributes);
  }

  /** An instance of `MergeDropsDynamicText`: merging a style with Dynamic Type into itself does not give it back. */
  lemma MergeNotIdempotent(s: LegacyState)
    requires s.dynamicText.Some?
    ensures MergeSpec(s, s) != s
  {
  }

  // ----- constructAttributes -----

  /** The font read from the dictionary, or the system font. */
  function LegacyBaseFont(s: LegacyState, env: Environment): Font {
    match Typed(s.innerAttributes, FontKey, FontKind)
    case Some(FontValue(f)) => f
    case _ => env.systemFont
  }

  /** The feature constructors, in the same order as in the newer tree. */
  function LegacyFeatureConstructors(s: LegacyState): seq<FeatureConstructor> {
    [] +
    StyleDescriptions.NumberCaseConstructors(s.numberCase) +
    StyleDescriptions.NumberSpacingConstructors(s.numberSpacing) +
    StyleDescriptions.FractionsConstructors(s.fractions) +
    StyleDescriptions.PositionConstructors(s.superscript, Superscript) +
    StyleDescriptions.PositionConstructors(s.subscript, Subscript) +
    StyleDescriptions.PositionConstructors(s.ordinals, Ordinals) +
    StyleDescriptions.PositionConstructors(s.scientificInferiors, ScientificInferiors) +
    StyleDescriptions.SmallCapsConstructors(Some(s.smallCaps))
  }

  /** The font after the feature step: rebuilt only when there are feature settings. */
  function FeaturedFont(s: LegacyState, env: Environment): Font {
    var base := LegacyBaseFont(s, env);
    var settings := FlatAttributes(LegacyFeatureConstructors(s));
    if settings == [] then base else MakeFont(AddingFeatureSettings(base.descriptor, settings), base.pointSize)
  }

  /** The font after the trait step: rebuilt with the added traits, or left as it was when they cannot be applied. */
  function TraitedFont(s: LegacyState, env: Environment): Font {
    var f := FeaturedFont(s, env);
    match s.emphasizeStyle
    case None => f
    case Some(e) =>
      match WithSymbolicTraits(env, f.descriptor, f.descriptor.symbolicTraits + TraitsOf(e))
      case Some(d) => MakeFont(d, f.pointSize)
      case None => f
  }

  /** The attributes `constructAttributes` builds: the font, scaled under Dynamic Type, and the kern when tracking is set. */
  function ExtraAttributes(s: LegacyState, env: Environment): Attributes {
    var font := TraitedFont(s, env);
    var fontValue := match s.dynamicText case Some(dt) => Scaled(font, dt) case None => font;
    var extra := map[FontKey := FontValue(fontValue)];
    match s.tracking
    case Some(t) => extra[KernKey := NumberValue(Kerning(t, Some(font)))]
    case None => extra
  }

  /** `attributes`: the dictionary overwritten by the constructed keys. */
  function AttributesOf(s: LegacyState, env: Environment): Attributes {
    s.innerAttributes + ExtraAttributes(s, env)
  }

  /** The font key is always written, the kern key exactly when tracking is set, and nothing else. */
  lemma ExtraKeys(s: LegacyState, env: Environment)
    ensures FontKey in ExtraAttributes(s, env)
    ensures KernKey in ExtraAttributes(s, env) <==> s.tracking.Some?
    ensures ExtraAttributes(s, env).Keys <= {FontKey, KernKey}
  {
  }

  /** `attributes` keeps every other key of the dictionary, the paragraph included, and always holds a font. */
  lemma AttributesKeepInner(s: LegacyState, env: Environment)
    ensures FontKey in AttributesOf(s, env)
    ensures forall k :: k in s.innerAttributes && k != FontKey && k != KernKey ==>
      k in AttributesOf(s, env) && AttributesOf(s, env)[k] == s.innerAttributes[k]
    ensures forall k :: k in AttributesOf(s, env) ==> k in s.innerAttributes || k == FontKey || k == KernKey
  {
  }

  /**
   * When the traits cannot be applied the font keeps its feature settings
   * (the newer tree falls back to the undecorated base font instead).
   */
  lemma TraitFailureKeepsFeatures(s: LegacyState, env: Environment)
    requires s.emphasizeStyle.Some?
    requires var f := FeaturedFont(s, env);
      !SupportsTraits(env, f.descriptor, f.descriptor.symbolicTraits + TraitsOf(s.emphasizeStyle.value))
    ensures TraitedFont(s, env) == FeaturedFont(s, env)
  {
  }

  /** Feature settings reach the font exactly when some feature field is set or the small caps are not empty. */
  lemma FeaturesOnlyWhenPresent(s: LegacyState, env: Environment)
    ensures LegacyFeatureConstructors(s) == [] ==> FeaturedFont(s, env) == LegacyBaseFont(s, env)
    ensures LegacyFeatureConstructors(s) != [] ==>
      FeaturedFont(s, env).descriptor.featureSettings == FlatAttributes(LegacyFeatureConstructors(s)) &&
      FeaturedFont(s, env).descriptor.featureSettings != []
  {
    FlatAttributesEmpty(LegacyFeatureConstructors(s));
  }

  // ----- the class -----

  /** The stroke tuple: a colour and a width, either possibly absent. */
  datatype Stroke = Stroke(color: Option<Value>, width: Option<Value>)

  /** The underline and strikethrough tuples: a raw line style and a colour. */
  datatype Line = Line(style: Option<int>, color: Option<Value>)

  class TextStyle {
    var innerAttributes: Attributes
    var dynamicText: Option<DynamicText>
    var tracking: Option<Tracking>
    var numberCase: Option<NumberCase>
    var numberSpacing: Option<NumberSpacing>
    var fractions: Option<Fractions>
    var superscript: Option<bool>
    var subscript: Option<bool>
    var ordinals: Option<bool>
    var scientificInferiors: Option<bool>
    var smallCaps: set<SmallCaps>
    var emphasizeStyle: Option<set<Emphasis>>

    function State(): LegacyState
      reads this
    {
      LegacyState(innerAttributes, dynamicText, tracking, numberCase, numberSpacing, fractions,
        superscript, subscript, ordinals, scientificInferiors, smallCaps, emphasizeStyle)
    }

    /** `init(_ handler:)` with no handler. */
    constructor ()
      ensures State() == Blank(map[])
    {
      innerAttributes := map[];
      dynamicText, tracking, numberCase, numberSpacing, fractions := None, None, None, None, None;
      superscript, subscript, ordinals, scientificInferiors := None, None, None, None;
      smallCaps, emphasizeStyle := {}, None;
    }

    /** `init(attributes:)`. */
    constructor WithAttributes(attributes: Attributes)
      ensures State() == Blank(attributes)
    {
      innerAttributes := attributes;
      dynamicText, tracking, numberCase, numberSpacing, fractions := None, None, None, None, None;
      superscript, subscript, ordinals, scientificInferiors := None, None, None, None;
      smallCaps, emphasizeStyle := {}, None;
    }

    /** `init(style:)`: only the dictionary is copied. */
    constructor Copying(style: TextStyle)
      ensures State() == Blank(style.innerAttributes)
    {
      innerAttributes := style.innerAttributes;
      dynamicText, tracking, numberCase, numberSpacing, fractions := None, None, None, None, None;
      superscript, subscript, ordinals, scientificInferiors := None, None, None, None;
      smallCaps, emphasizeStyle := {}, None;
    }

    /** A style whose fields are those of `s`, as `merge` fills in a fresh `TextStyle()` field by field. */
    constructor Holding(s: LegacyState)
      ensures State() == s
    {
      innerAttributes, dynamicText, tracking := s.innerAttributes, s.dynamicText, s.tracking;
      numberCase, numberSpacing, fractions := s.numberCase, s.numberSpacing, s.fractions;
      superscript, subscript, ordinals, scientificInferiors := s.superscript, s.subscript, s.ordinals, s.scientificInferiors;
      smallCaps, emphasizeStyle := s.smallCaps, s.emphasizeStyle;
    }

    /** `set(value:forKey:)`. */
    method Set(value: Option<Value>, key: Key)
      modifies this
      ensures State() == old(State()).(innerAttributes := Put(old(innerAttributes), key, value))
    {
      match value {
        case None => innerAttributes := innerAttributes - {key};
        case Some(v) => innerAttributes := innerAttributes[key := v];
      }
    }

    /** `get(attributeForKey:)`. */
    function Get(key: Key, kind: ValueKind): Option<Value>
      reads this
    {
      Typed(innerAttributes, key, kind)
    }

    /** The `underline` setter: the raw line style and the colour, each removed when nil. */
    method SetUnderline(line: Option<Line>)
      modifies this
      ensures State() == old(State()).(innerAttributes :=
        Put(Put(old(innerAttributes), UnderlineStyleKey, LineStyleEntry(line)), UnderlineColorKey, LineColor(line)))
    {
      Set(LineStyleEntry(line), UnderlineStyleKey);
      Set(LineColor(line), UnderlineColorKey);
    }

    /** The `underline` getter: never nil, the style read as 0 when absent. */
    function Underline(): (line: Line)
      reads this
      ensures line.style == Some(LineStyleRaw(innerAttributes, UnderlineStyleKey))
      ensures line.color == Typed(innerAttributes, UnderlineColorKey, ColorKind)
    {
      Line(Some(LineStyleRaw(innerAttributes, UnderlineStyleKey)), Get(UnderlineColorKey, ColorKind))
    }

    /** The `strikethroughStyle` setter. */
    method SetStrikethrough(line: Option<Line>)
      modifies this
      ensures State() == old(State()).(innerAttributes :=
        Put(Put(old(innerAttributes), StrikethroughStyleKey, LineStyleEntry(line)), StrikethroughColorKey, LineColor(line)))
    {
      Set(LineStyleEntry(line), StrikethroughStyleKey);
      Set(LineColor(line), StrikethroughColorKey);
    }

    /** The `stroke` setter. */
    method SetStroke(stroke: Option<Stroke>)
      modifies this
      ensures State() == old(State()).(innerAttributes :=
        Put(Put(old(innerAttributes), StrokeColorKey, StrokeColor(stroke)), StrokeWidthKey, StrokeWidth(stroke)))
    {
      Set(StrokeColor(stroke), StrokeColorKey);
      Set(StrokeWidth(stroke), StrokeWidthKey);
    }

    /** The `ligature` setter: the raw value, or no key for nil. */
    method SetLigature(ligature: Option<Ligature>)
      modifies this
      ensures State() == old(State()).(innerAttributes := Put(old(innerAttributes), LigatureKey, LigatureEntry(ligature)))
    {
      Set(LigatureEntry(ligature), LigatureKey);
    }

    /** The `paragraph` getter: the stored paragraph, or a new one that is stored before it is returned. */
    method Paragraph() returns (p: Paragraph)
      modifies this
      ensures p == LazyParagraph(old(innerAttributes))
      ensures State() == old(State()).(innerAttributes := WithLazyParagraph(old(innerAttributes)))
    {
      var stored := Get(ParagraphStyleKey, ParagraphKind);
      if stored.Some? {
        p := stored.value.paragraph;
        assert innerAttributes[ParagraphStyleKey := ParagraphValue(p)] == innerAttributes;
      } else {
        p := DefaultParagraph;
        Set(Some(ParagraphValue(p)), ParagraphStyleKey);
      }
    }

    /** A paragraph property setter: updates the (lazily created) stored paragraph. */
    method SetParagraphProperty(setting: ParagraphSetting)
      modifies this
      ensures State() == old(State()).(innerAttributes :=
        old(innerAttributes)[ParagraphStyleKey := ParagraphValue(Updated(LazyParagraph(old(innerAttributes)), setting))])
    {
      var p := Paragraph();
      Set(Some(ParagraphValue(Updated(p, setting))), ParagraphStyleKey);
    }

    /**
     * `adding(_:)` with a handler that changes nothing: a style over a copy of
     * the dictionary holding a copy of the receiver's paragraph, which the
     * receiver now stores too.
     */
    method Adding() returns (style: TextStyle)
      modifies this
      ensures fresh(style)
      ensures style.State() == Blank(WithLazyParagraph(old(innerAttributes)))
      ensures State() == old(State()).(innerAttributes := WithLazyParagraph(old(innerAttributes)))
    {
      style := new TextStyle.Copying(this);
      var p := Paragraph();
      style.Set(Some(ParagraphValue(p)), ParagraphStyleKey);
    }

    /**
     * `merge(_ parent:)`: a new style; reading the receiver's paragraph
     * properties stores a paragraph in the receiver.
     */
    method Merge(parent: TextStyle) returns (style: TextStyle)
      modifies this
      ensures fresh(style)
      ensures style.State() == MergeSpec(old(State()), old(parent.State()))
      ensures State() == old(State()).(innerAttributes := WithLazyParagraph(old(innerAttributes)))
    {
      var child, parentState := State(), parent.State();
      var p := Paragraph();
      style := new TextStyle.Holding(MergeSpec(child, parentState));
    }

    /** `constructAttributes()`: the font and kern built step by step. */
    method ConstructAttributes(env: Environment) returns (extra: Attributes)
      ensures extra == ExtraAttributes(State(), env)
    {
      var stored := Get(FontKey, FontKind);
      var originalFont := if stored.Some? then stored.value.font else env.systemFont;
      var constructors := LegacyFeatureConstructors(State());
      var features := FlatAttributes(constructors);
      if features != [] {
        var descriptor := AddingFeatureSettings(originalFont.descriptor, features);
        originalFont := MakeFont(descriptor, originalFont.pointSize);
      }
      assert originalFont == FeaturedFont(State(), env);
      if emphasizeStyle.Some? {
        var descriptor := originalFont.descriptor;
        var newTraits := descriptor.symbolicTraits + TraitsOf(emphasizeStyle.value);
        var newDescriptor := WithSymbolicTraits(env, descriptor, newTraits);
        if newDescriptor.Some? {
          originalFont := MakeFont(newDescriptor.value, originalFont.pointSize);
        }
      }
      assert originalFont == TraitedFont(State(), env);
      extra := map[];
      if dynamicText.Some? {
        extra := extra[FontKey := FontValue(Scaled(originalFont, dynamicText.value))];
      } else {
        extra := extra[FontKey := FontValue(originalFont)];
      }
      if tracking.Some? {
        extra := extra[KernKey := NumberValue(Kerning(tracking.value, Some(originalFont)))];
      }
    }

    /** `attributes`. */
    method Attributes(env: Environment) returns (attributes: Attributes)
      ensures attributes == AttributesOf(State(), env)
    {
      var extra := ConstructAttributes(env);
      attributes := innerAttributes + extra;
    }
  }

  function LineStyleEntry(line: Option<Line>): Option<Value> {
    match line
    case Some(Line(Some(n), _)) => Some(IntValue(n))
    case _ => None
  }

  function LineColor(line: Option<Line>): Option<Value> {
    match line
    case Some(l) => l.color
    case None => None
  }

  function StrokeColor(stroke: Option<Stroke>): Option<Value> {
    match stroke
    case Some(s) => s.color
    case None => None
  }

  function StrokeWidth(stroke: Option<Stroke>): Option<Value> {
    match stroke
    case Some(s) => s.width
    case None => None
  }

  /**
   * Writing the underline a style reads back changes nothing but the style
   * key, which is now always present: reading never gives nil, so a merged
   * style always stores the child's underline.
   */
  lemma UnderlineReadWrite(inner: Attributes)
    ensures var line := Line(Some(LineStyleRaw(inner, UnderlineStyleKey)), Typed(inner, UnderlineColorKey, ColorKind));
      var r := Put(Put(inner, UnderlineStyleKey, LineStyleEntry(Some(line))), UnderlineColorKey, LineColor(Some(line)));
      UnderlineStyleKey in r && r[UnderlineStyleKey] == IntValue(LineStyleRaw(inner, UnderlineStyleKey))
  {
  }
}
