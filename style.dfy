/**
 * The fluent `Style` value (Source/TextStyle/Style.swift). Every setter
 * copies the description, changes one field or one or two dictionary keys,
 * and returns a new style; the receiver is a value and stays as it was.
 */
module Styles {
  import opened Wrappers
  import opened Platform
  import opened Attributed
  import opened Features
  import opened StyleDescriptions

  datatype Style = Style(description: StyleDescription)

  /** `NSUnderlineStyle`, an option set stored in the dictionary as its raw `Int`. */
  datatype UnderlineStyle = UnderlineStyle(rawValue: int)

  /** `init(_ attributes:)`: only the dictionary is set. */
  function FromAttributes(attributes: Attributes): (s: Style)
    ensures s.description.attributes == attributes
    ensures NoTypedFields(s.description)
  {
    Style(Init(attributes))
  }

  // ----- what a setter may change -----

  /** The typed fields of `r` are those of `s`: only the dictionary may differ. */
  predicate SameTypedFields(s: Style, r: Style) {
    r.description.(attributes := s.description.attributes) == s.description
  }

  /** Every key outside `changed` is present, and holds the same value, in both dictionaries. */
  ghost predicate SameKeysExcept(s: Style, r: Style, changed: set<Key>) {
    (forall k :: k !in changed ==> (k in r.description.attributes <==> k in s.description.attributes)) &&
    (forall k :: k !in changed && k in s.description.attributes ==> r.description.attributes[k] == s.description.attributes[k])
  }

  /** The dictionary of `r` holds `value` under `key`, or lacks the key when `value` is nil. */
  predicate Stores(r: Style, key: Key, value: Option<Value>) {
    (key in r.description.attributes <==> value.Some?) &&
    (value.Some? ==> r.description.attributes[key] == value.value)
  }

  /** `description.set(value:forKey:)` on a copy. */
  function SetKey(s: Style, key: Key, value: Option<Value>): (r: Style)
    ensures Stores(r, key, value)
    ensures SameKeysExcept(s, r, {key})
    ensures SameTypedFields(s, r)
  {
    Style(Set(s.description, key, value))
  }

  function FontOption(font: Option<Font>): Option<Value> {
    match font
    case Some(f) => Some(FontValue(f))
    case None => None
  }

  function ColorOption(color: Option<nat>): Option<Value> {
    match color
    case Some(c) => Some(ColorValue(c))
    case None => None
  }

  function NumberOption(x: Option<real>): Option<Value> {
    match x
    case Some(v) => Some(NumberValue(v))
    case None => None
  }

  function RawValueOption(style: Option<UnderlineStyle>): Option<Value> {
    match style
    case Some(u) => Some(IntValue(u.rawValue))
    case None => None
  }

  // ----- dictionary-backed setters -----

  /** `font(_:)`: nil removes the font key. */
  function WithFont(s: Style, font: Option<Font>): (r: Style)
    ensures Stores(r, FontKey, FontOption(font))
    ensures font.None? ==> FontKey !in r.description.attributes
    ensures SameKeysExcept(s, r, {FontKey}) && SameTypedFields(s, r)
  {
    SetKey(s, FontKey, FontOption(font))
  }

  /** `foregroundColor(_:)`. */
  function WithForegroundColor(s: Style, color: Option<nat>): (r: Style)
    ensures Stores(r, ForegroundColorKey, ColorOption(color))
    ensures SameKeysExcept(s, r, {ForegroundColorKey}) && SameTypedFields(s, r)
  {
    SetKey(s, ForegroundColorKey, ColorOption(color))
  }

  /** `backgroundColor(_:)`. */
  function WithBackgroundColor(s: Style, color: Option<nat>): (r: Style)
    ensures Stores(r, BackgroundColorKey, ColorOption(color))
    ensures SameKeysExcept(s, r, {BackgroundColorKey}) && SameTypedFields(s, r)
  {
    SetKey(s, BackgroundColorKey, ColorOption(color))
  }

  /** `underline(_:color:)`: two keys, the line style as its raw value. */
  function WithUnderline(s: Style, style: Option<UnderlineStyle>, color: Option<nat>): (r: Style)
    ensures Stores(r, UnderlineStyleKey, RawValueOption(style))
    ensures Stores(r, UnderlineColorKey, ColorOption(color))
    ensures style.Some? ==> r.description.attributes[UnderlineStyleKey] == IntValue(style.value.rawValue)
    ensures SameKeysExcept(s, r, {UnderlineStyleKey, UnderlineColorKey}) && SameTypedFields(s, r)
  {
    SetKey(SetKey(s, UnderlineStyleKey, RawValueOption(style)), UnderlineColorKey, ColorOption(color))
  }

  /** `stroke(_:width:)`: the colour and the width. */
  function WithStroke(s: Style, color: Option<nat>, width: Option<real>): (r: Style)
    ensures Stores(r, StrokeColorKey, ColorOption(color))
    ensures Stores(r, StrokeWidthKey, NumberOption(width))
    ensures SameKeysExcept(s, r, {StrokeColorKey, StrokeWidthKey}) && SameTypedFields(s, r)
  {
    SetKey(SetKey(s, StrokeColorKey, ColorOption(color)), StrokeWidthKey, NumberOption(width))
  }

  /** `strikethroughStyle(_:color:)`: two keys, the line style as its raw value. */
  function WithStrikethrough(s: Style, style: Option<UnderlineStyle>, color: Option<nat>): (r: Style)
    ensures Stores(r, StrikethroughStyleKey, RawValueOption(style))
    ensures Stores(r, StrikethroughColorKey, ColorOption(color))
    ensures style.Some? ==> r.description.attributes[StrikethroughStyleKey] == IntValue(style.value.rawValue)
    ensures SameKeysExcept(s, r, {StrikethroughStyleKey, StrikethroughColorKey}) && SameTypedFields(s, r)
  {
    SetKey(SetKey(s, StrikethroughStyleKey, RawValueOption(style)), StrikethroughColorKey, ColorOption(color))
  }

  /** `baselineOffset(_:)`. */
  function WithBaselineOffset(s: Style, offset: Option<real>): (r: Style)
    ensures Stores(r, BaselineOffsetKey, NumberOption(offset))
    ensures SameKeysExcept(s, r, {BaselineOffsetKey}) && SameTypedFields(s, r)
  {
    SetKey(s, BaselineOffsetKey, NumberOption(offset))
  }

  /** `shadow(_:)`. */
  function WithShadow(s: Style, shadow: Option<nat>): (r: Style)
    ensures Stores(r, ShadowKey, if shadow.Some? then Some(ShadowValue(shadow.value)) else None)
    ensures SameKeysExcept(s, r, {ShadowKey}) && SameTypedFields(s, r)
  {
    SetKey(s, ShadowKey, match shadow case Some(h) => Some(ShadowValue(h)) case None => None)
  }

  /** `linkURL(_:)`. */
  function WithLinkUrl(s: Style, url: Option<nat>): (r: Style)
    ensures Stores(r, LinkKey, if url.Some? then Some(UrlValue(url.value)) else None)
    ensures SameKeysExcept(s, r, {LinkKey}) && SameTypedFields(s, r)
  {
    SetKey(s, LinkKey, match url case Some(u) => Some(UrlValue(u)) case None => None)
  }

  /** `ligature(_:)`: nil is stored as the disabled raw value 0 rather than removing the key. */
  function WithLigature(s: Style, ligature: Option<Ligature>): (r: Style)
    ensures LigatureKey in r.description.attributes
    ensures ligature.None? ==> r.description.attributes[LigatureKey] == IntValue(0)
    ensures ligature == Some(LigatureDefault) ==> r.description.attributes[LigatureKey] == IntValue(1)
    ensures ligature == Some(LigatureDisabled) ==> r.description.attributes[LigatureKey] == IntValue(0)
    ensures SameKeysExcept(s, r, {LigatureKey}) && SameTypedFields(s, r)
  {
    SetKey(s, LigatureKey, Some(IntValue(LigatureRawValue(ligature.GetOr(LigatureDisabled)))))
  }

  // ----- typed setters -----

  /** `dynamicText(_:)`: sets the field, nil included, and nothing else. */
  function WithDynamicText(s: Style, value: Option<DynamicText>): (r: Style)
    ensures r.description.dynamicText == value
    ensures r.description.(dynamicText := s.description.dynamicText) == s.description
  {
    Style(s.description.(dynamicText := value))
  }

  /** `lineSpacing(_:)`: sets the field, nil included, and nothing else. */
  function WithLineSpacing(s: Style, value: Option<real>): (r: Style)
    ensures r.description.lineSpacing == value
    ensures r.description.(lineSpacing := s.description.lineSpacing) == s.description
  {
    Style(s.description.(lineSpacing := value))
  }

  /** `paragraphSpacingBefore(_:)`: sets the field, nil included, and nothing else. */
  function WithParagraphSpacingBefore(s: Style, value: Option<real>): (r: Style)
    ensures r.description.paragraphSpacingBefore == value
    ensures r.description.(paragraphSpacingBefore := s.description.paragraphSpacingBefore) == s.description
  {
    Style(s.description.(paragraphSpacingBefore := value))
  }

  /** `paragraphSpacingAfter(_:)`: sets the field, nil included, and nothing else. */
  function WithParagraphSpacingAfter(s: Style, value: Option<real>): (r: Style)
    ensures r.description.paragraphSpacing == value
    ensures r.description.(paragraphSpacing := s.description.paragraphSpacing) == s.description
  {
    Style(s.description.(paragraphSpacing := value))
  }

  /** `alignment(_:)`: sets the field, nil included, and nothing else. */
  function WithAlignment(s: Style, value: Option<TextAlignment>): (r: Style)
    ensures r.description.alignment == value
    ensures r.description.(alignment := s.description.alignment) == s.description
  {
    Style(s.description.(alignment := value))
  }

  /** `firstLineHeadIndent(_:)`: sets the field, nil included, and nothing else. */
  function WithFirstLineHeadIndent(s: Style, value: Option<real>): (r: Style)
    ensures r.description.firstLineHeadIndent == value
    ensures r.description.(firstLineHeadIndent := s.description.firstLineHeadIndent) == s.description
  {
    Style(s.description.(firstLineHeadIndent := value))
  }

  /** `headIndent(_:)`: sets the field, nil included, and nothing else. */
  function WithHeadIndent(s: Style, value: Option<real>): (r: Style)
    ensures r.description.headIndent == value
    ensures r.description.(headIndent := s.description.headIndent) == s.description
  {
    Style(s.description.(headIndent := value))
  }

  /** `tailIndent(_:)`: sets the field, nil included, and nothing else. */
  function WithTailIndent(s: Style, value: Option<real>): (r: Style)
    ensures r.description.tailIndent == value
    ensures r.description.(tailIndent := s.description.tailIndent) == s.description
  {
    Style(s.description.(tailIndent := value))
  }

  /** `lineBreakMode(_:)`: sets the field, nil included, and nothing else. */
  function WithLineBreakMode(s: Style, value: Option<LineBreakMode>): (r: Style)
    ensures r.description.lineBreakMode == value
    ensures r.description.(lineBreakMode := s.description.lineBreakMode) == s.description
  {
    Style(s.description.(lineBreakMode := value))
  }

  /** `minimumLineHeight(_:)`: sets the field, nil included, and nothing else. */
  function WithMinimumLineHeight(s: Style, value: Option<real>): (r: Style)
    ensures r.description.minimumLineHeight == value
    ensures r.description.(minimumLineHeight := s.description.minimumLineHeight) == s.description
  {
    Style(s.description.(minimumLineHeight := value))
  }

  /** `maximumLineHeight(_:)`: sets the field, nil included, and nothing else. */
  function WithMaximumLineHeight(s: Style, value: Option<real>): (r: Style)
    ensures r.description.maximumLineHeight == value
    ensures r.description.(maximumLineHeight := s.description.maximumLineHeight) == s.description
  {
    Style(s.description.(maximumLineHeight := value))
  }

  /** `lineHeightMultiple(_:)`: sets the field, nil included, and nothing else. */
  function WithLineHeightMultiple(s: Style, value: Option<real>): (r: Style)
    ensures r.description.lineHeightMultiple == value
    ensures r.description.(lineHeightMultiple := s.description.lineHeightMultiple) == s.description
  {
    Style(s.description.(lineHeightMultiple := value))
  }

  /** `hyphenationFactor(_:)`: sets the field, nil included, and nothing else. */
  function WithHyphenationFactor(s: Style, value: Option<real>): (r: Style)
    ensures r.description.hyphenationFactor == value
    ensures r.description.(hyphenationFactor := s.description.hyphenationFactor) == s.description
  {
    Style(s.description.(hyphenationFactor := value))
  }

  /** `baseWritingDirection(_:)`: sets the field, nil included, and nothing else. */
  function WithBaseWritingDirection(s: Style, value: Option<WritingDirection>): (r: Style)
    ensures r.description.baseWritingDirection == value
    ensures r.description.(baseWritingDirection := s.description.baseWritingDirection) == s.description
  {
    Style(s.description.(baseWritingDirection := value))
  }

  /** `tracking(_:)`: sets the field, nil included, and nothing else. */
  function WithTracking(s: Style, value: Option<Tracking>): (r: Style)
    ensures r.description.tracking == value
    ensures r.description.(tracking := s.description.tracking) == s.description
  {
    Style(s.description.(tracking := value))
  }

  /** `numberCase(_:)`: sets the field, nil included, and nothing else. */
  function WithNumberCase(s: Style, value: Option<NumberCase>): (r: Style)
    ensures r.description.numberCase == value
    ensures r.description.(numberCase := s.description.numberCase) == s.description
  {
    Style(s.description.(numberCase := value))
  }

  /** `numberSpacing(_:)`: sets the field, nil included, and nothing else. */
  function WithNumberSpacing(s: Style, value: Option<NumberSpacing>): (r: Style)
    ensures r.description.numberSpacing == value
    ensures r.description.(numberSpacing := s.description.numberSpacing) == s.description
  {
    Style(s.description.(numberSpacing := value))
  }

  /** `fractions(_:)`: sets the field, nil included, and nothing else. */
  function WithFractions(s: Style, value: Option<Fractions>): (r: Style)
    ensures r.description.fractions == value
    ensures r.description.(fractions := s.description.fractions) == s.description
  {
    Style(s.description.(fractions := value))
  }

  /** `superscript(isOn:)`: sets the field, nil included, and nothing else. */
  function WithSuperscript(s: Style, value: Option<bool>): (r: Style)
    ensures r.description.superscript == value
    ensures r.description.(superscript := s.description.superscript) == s.description
  {
    Style(s.description.(superscript := value))
  }

  /** `subscript(isOn:)`: sets the field, nil included, and nothing else. */
  function WithSubscript(s: Style, value: Option<bool>): (r: Style)
    ensures r.description.subscript == value
    ensures r.description.(subscript := s.description.subscript) == s.description
  {
    Style(s.description.(subscript := value))
  }

  /** `ordinals(isOn:)`: sets the field, nil included, and nothing else. */
  function WithOrdinals(s: Style, value: Option<bool>): (r: Style)
    ensures r.description.ordinals == value
    ensures r.description.(ordinals := s.description.ordinals) == s.description
  {
    Style(s.description.(ordinals := value))
  }

  /** `scientificInferiors(isOn:)`: sets the field, nil included, and nothing else. */
  function WithScientificInferiors(s: Style, value: Option<bool>): (r: Style)
    ensures r.description.scientificInferiors == value
    ensures r.description.(scientificInferiors := s.description.scientificInferiors) == s.description
  {
    Style(s.description.(scientificInferiors := value))
  }

  /** `smallCaps(_:)`: sets the field, nil included, and nothing else. */
  function WithSmallCaps(s: Style, value: Option<set<SmallCaps>>): (r: Style)
    ensures r.description.smallCaps == value
    ensures r.description.(smallCaps := s.description.smallCaps) == s.description
  {
    Style(s.description.(smallCaps := value))
  }

  /** `contextualAlternates(_:)`: sets the field, nil included, and nothing else. */
  function WithContextualAlternates(s: Style, value: Option<set<ContextualAlternate>>): (r: Style)
    ensures r.description.contextualAlternates == value
    ensures r.description.(contextualAlternates := s.description.contextualAlternates) == s.description
  {
    Style(s.description.(contextualAlternates := value))
  }

  /** `stylisticAlternatives(_:)`: sets the field, nil included, and nothing else. */
  function WithStylisticAlternatives(s: Style, value: Option<set<nat>>): (r: Style)
    ensures r.description.stylisticAlternatives == value
    ensures r.description.(stylisticAlternatives := s.description.stylisticAlternatives) == s.description
  {
    Style(s.description.(stylisticAlternatives := value))
  }

  /**
   * `emphasizeStyle(_:)`: a value is inserted into the existing set, or
   * becomes the set when there is none; nil clears the field.
   */
  function WithEmphasizeStyle(s: Style, emphasis: Option<set<Emphasis>>): (r: Style)
    ensures emphasis.None? ==> r.description.emphasizeStyle.None?
    ensures emphasis.Some? ==> r.description.emphasizeStyle == Some(s.description.emphasizeStyle.GetOr({}) + emphasis.value)
    ensures r.description.(emphasizeStyle := s.description.emphasizeStyle) == s.description
  {
    var description := s.description;
    match emphasis
    case Some(e) =>
      if description.emphasizeStyle.None? then
        assert {} + e == e;
        Style(description.(emphasizeStyle := Some(e)))
      else Style(description.(emphasizeStyle := Some(description.emphasizeStyle.value + e)))
    case None => Style(description.(emphasizeStyle := None))
  }

  // ----- properties -----

  /** Setting a dictionary-backed property again replaces the earlier value: the last write wins. */
  lemma SetKeyLastWriteWins(s: Style, key: Key, a: Option<Value>, b: Option<Value>)
    ensures SetKey(SetKey(s, key, a), key, b) == SetKey(s, key, b)
  {
    var once := SetKey(s, key, b).description.attributes;
    var twice := SetKey(SetKey(s, key, a), key, b).description.attributes;
    assert once == twice;
  }

  /** A typed setter replaces the whole value, so a second call overrides the first entirely. */
  lemma ReplacingSettersOverwrite(s: Style, a: Option<set<SmallCaps>>, b: Option<set<SmallCaps>>,
                                  c: Option<set<ContextualAlternate>>, d: Option<set<ContextualAlternate>>,
                                  x: Option<set<nat>>, y: Option<set<nat>>)
    ensures WithSmallCaps(WithSmallCaps(s, a), b) == WithSmallCaps(s, b)
    ensures WithContextualAlternates(WithContextualAlternates(s, c), d) == WithContextualAlternates(s, d)
    ensures WithStylisticAlternatives(WithStylisticAlternatives(s, x), y) == WithStylisticAlternatives(s, y)
  {
  }

  /** `emphasizeStyle` accumulates: two calls give the union of both with whatever was there. */
  lemma EmphasizeStyleAccumulates(s: Style, a: set<Emphasis>, b: set<Emphasis>)
    ensures WithEmphasizeStyle(WithEmphasizeStyle(s, Some(a)), Some(b)).description.emphasizeStyle ==
      Some(s.description.emphasizeStyle.GetOr({}) + a + b)
  {
  }

  /** An instance of `EmphasizeStyleAccumulates`: bold, then italic, on a fresh style keeps both flags. */
  lemma BoldThenItalic()
    ensures WithEmphasizeStyle(WithEmphasizeStyle(FromAttributes(map[]), Some({Bold})), Some({Italic})).description.emphasizeStyle ==
      Some({Bold, Italic})
  {
    assert {} + {Bold} + {Italic} == {Bold, Italic};
  }

  /** A dictionary-backed setter and a typed setter touch disjoint state, so their order does not matter. */
  lemma IndependentSettersCommute(s: Style, font: Option<Font>, spacing: Option<real>)
    ensures WithLineSpacing(WithFont(s, font), spacing) == WithFont(WithLineSpacing(s, spacing), font)
  {
  }

  /** A style's cascade through `combine` sees a setter's field: the child's value wins. */
  lemma SetterWinsInCombine(parent: Style, child: Style, spacing: real)
    ensures Combine(parent.description, WithLineSpacing(child, Some(spacing)).description).lineSpacing == Some(spacing)
  {
  }
}
