# EasyTextKit style cascade, in Dafny

EasyTextKit builds attributed strings for UIKit from tagged text such as
`<a>X<b>Y</b>Z</a>` and a table that maps tag names to styles. This project
models the parts that decide which attributes each run of text gets.

**The newer `Source/` tree**
- `StyleDescription`: a record of an attribute dictionary, about twenty
  optional typed fields and two set-valued fields. It provides `set`/`get`,
  the cascade rule `combine(parent, child)`, and `constructAttributes`, which
  encodes a description as the font, kern and paragraph keys.
- The font-feature encoders of `CommonsAttributes.swift`: feature constructors
  give `(type, selector)` pairs with Apple's Font Feature Registry constants.
  Emphasis flags map to symbolic font traits.
- The value-type `Style` with its one-field setters. `StyleProtocol` adds the
  default description, `set(to:range:)`, `remove(from:range:)` and `combine`.
- The `Parser` delegate. It keeps a stack of styles, a text buffer and the
  output, and reacts to start-tag, end-tag and character events. `XMLStyle` is
  its entry point, with a fallback when a parse error is thrown.
- The `AttributedStringBuilder` result-builder rules.

**The older `EasyTextKit/` tree**
- The mutable `TextStyle` class. Its paragraph object is created lazily and
  stored on first read. Its `merge(parent)` is a cascade rule that differs from
  `combine`.
- The `Parser` that merges text styles at every level.
- The feature encoders of `EasyTextKit/Attributes/CommonsAttributes.swift`.
  They have the same cases, constants and order as the newer ones, so the
  members of module `Features` model both files. `LegacyAttributes` adds
  `Hyphenation` and reads a stored ligature back.

**How the platform appears**
- An attributed string is a sequence of UTF-16 code units, each with its
  attribute dictionary. `NSRange` arithmetic is therefore exact. Swift's
  `String.count` counts characters (grapheme clusters), not units; where the
  source takes a default range from it, the character count is a parameter, so
  a range it yields can fall short of the units it is meant to cover.
- Fonts, descriptors, colours, shadows, URLs and attachments are opaque values
  (module `Platform`).
- Whether the platform can apply a set of symbolic traits to a descriptor is a
  parameter, and so is the system font (`Environment`).
- The XML tokenizer (`XMLParser`) is a function parameter. It takes the UTF-16
  units of the XML and returns the events it delivers and how it ended.
- `fatalError`, `removeLast()` on an empty array and a force unwrap of nil stop
  the process. The model reports them as a `Trapped` outcome, which no caller
  can catch.

The modules follow the source files:

| module | file | source |
|---|---|---|
| `Wrappers` | wrappers.dfy | Swift optionals |
| `Platform` | platform.dfy | opaque platform values |
| `Attributed` | attributed.dfy | attributed strings |
| `Features` | features.dfy | both `CommonsAttributes.swift` files |
| `StyleDescriptions` | style_description.dfy | `StyleDescription.swift` |
| `Styles` | style.dfy | `Style.swift` |
| `StyleProtocol` | style_protocol.dfy | `StyleProtocol.swift` and `AttributedString+Extension.swift` |
| `Parsers` | parser.dfy | `Source/Parser/Parser.swift` |
| `XmlStyles` | xml_style.dfy | `XMLStyle.swift` |
| `Builder` | builder.dfy | `AttributedStringBuilder.swift` |
| `LegacyAttributes` | legacy_attributes.dfy | the legacy `CommonsAttributes.swift` |
| `LegacyTextStyles` | legacy_text_style.dfy | `EasyTextKit/TextStyle/TextStyle.swift` |
| `LegacyParsers` | legacy_parser.dfy | `EasyTextKit/Support/Parser.swift` |

**Code that changes state is modelled as classes and methods**
- `MutableAttributedString`, the two `Parser` classes and the legacy
  `TextStyle` are classes.
- Each method is proved against a specification function over a value of the
  class's state. The lemmas about those functions carry the properties.
- The step-by-step computations are methods with loops: `symbolicTraits`, the
  stylistic alternatives encoder, `remove` over the keys, `buildBlock`, and
  the frame loops of both `foundNewString`s. The contextual alternates encoder
  is a method with three consecutive appends, as in the source. Both
  `constructAttributes` are methods without a loop; the `flatMap` over their
  feature constructors is the recursive function `Features.FlatAttributes`.

## Model

| member | source | states |
|---|---|---|
| Attributed.Whole | Source/TextStyle/StyleProtocol.swift:54 | the whole-string range is in bounds and contains exactly the string's units |
| Attributed.Utf16Of | Source/TextStyle/StyleProtocol.swift:47 | a scalar takes one UTF-16 unit, itself, below U+10000 and two above |
| Attributed.Utf16Length | Source/TextStyle/StyleProtocol.swift:47 | a string's UTF-16 length is at least its character count, and equal to it exactly when every character is in the Basic Multilingual Plane |
| Attributed.Utf16Append | Source/TextStyle/StyleProtocol.swift:47 | UTF-16 encoding distributes over concatenation |
| Attributed.FromString | Source/TextStyle/StyleProtocol.swift:48 | `NSAttributedString(string:attributes:)` has one unit per UTF-16 unit of the text, each with the given attributes |
| Attributed.Codes | Source/TextStyle/XMLStyle.swift:67 | the plain text of an attributed string is its units without attributes |
| Attributed.FromStringCodes | Source/TextStyle/XMLStyle.swift:67 | the plain text of a string built from text is that text's UTF-16 |
| Attributed.AddAttributes | Source/TextStyle/StyleProtocol.swift:55 | `addAttributes(_:range:)` overwrites the given keys inside the range, keeps the other keys there, changes nothing outside the range and keeps the text |
| Attributed.RemoveAttribute | Source/TextStyle/StyleProtocol.swift:62-64 | `removeAttribute(_:range:)` deletes the key inside the range only and keeps the text |
| Attributed.AddAttributesIdempotent | Source/TextStyle/StyleProtocol.swift:55 | adding the same attributes twice equals adding them once |
| Attributed.AddNothing | EasyTextKit/Support/Parser.swift:178-179 | adding an empty dictionary changes nothing |
| Attributed.RemoveAfterAdd | Source/TextStyle/StyleProtocol.swift:60-66 | removing a key after adding it leaves no trace of that key in the range and keeps the units outside it |
| Attributed.MutableAttributedString.constructor | Source/Attributes/AttributedStringBuilder.swift:18 | the mutable string starts with the given units |
| Attributed.MutableAttributedString.AddAttributesInPlace | Source/TextStyle/StyleProtocol.swift:55 | the in-place edit leaves exactly `AddAttributes` of the old units |
| Attributed.MutableAttributedString.RemoveAttributeInPlace | Source/TextStyle/StyleProtocol.swift:63 | the in-place edit leaves exactly `RemoveAttribute` of the old units |
| Attributed.MutableAttributedString.Append | Source/Attributes/AttributedStringBuilder.swift:19 | `append` leaves the old units followed by the tail |
| Features.Kerning | Source/Attributes/CommonsAttributes.swift:56-67 | `.point(k)` gives k whatever the font; `.adobe` with a nil font gives 0, and with a value of 0 it also gives 0; the legacy `kerning(for:)` at EasyTextKit/Attributes/CommonsAttributes.swift:17-28 is the same |
| Features.LigatureRawValue | Source/Attributes/CommonsAttributes.swift:78-84 | raw value 0 is exactly `disabled` and 1 is exactly `default` |
| Features.NumberCaseFeature | Source/Attributes/CommonsAttributes.swift:120-128 | one pair of type kNumberCaseType; upper-case numbers give exactly the upper selector and lower-case numbers exactly the lower one |
| Features.NumberSpacingFeature | Source/Attributes/CommonsAttributes.swift:148-156 | one pair of type kNumberSpacingType; monospaced and proportional each give exactly their own selector |
| Features.FractionsFeature | Source/Attributes/CommonsAttributes.swift:176-184 | one pair of type kFractionsType with kNoFractionsSelector, kDiagonalFractionsSelector or kVerticalFractionsSelector exactly for none, diagonal and vertical |
| Features.FractionsSelectorsDistinct | EasyTextKit/Attributes/CommonsAttributes.swift:123-131 | two fraction settings have the same selector exactly when they are equal |
| Features.VerticalPositionFeature | Source/Attributes/CommonsAttributes.swift:210-220 | one pair of type kVerticalPositionType with kNormalPositionSelector, kSuperiorsSelector, kInferiorsSelector, kOrdinalsSelector or kScientificInferiorsSelector exactly for normal, superscript, subscript, ordinals and scientific inferiors |
| Features.VerticalPositionSelectorsDistinct | EasyTextKit/Attributes/CommonsAttributes.swift:153-163 | two vertical positions have the same selector exactly when they are equal |
| Features.SmallCapsFeature | Source/Attributes/CommonsAttributes.swift:239-249 | `disabled` gives two pairs, lower-case default then upper-case default; `fromUppercase` and `fromLowercase` give exactly one pair each, of their own type and selector |
| Features.FeatureConstruct | EasyTextKit/Attributes/CommonsAttributes.swift:76-188 | every constructor gives one pair, except small caps, which gives one or two |
| Features.SettingsOf | Source/Attributes/CommonsAttributes.swift:93-101 | `attributes()` gives one dictionary per pair, in order; each has exactly the keys `featureIdentifier` and `typeIdentifier`, and the pair can be read back from it |
| Features.SettingsRoundTrip | EasyTextKit/Attributes/CommonsAttributes.swift:50-60 | reading the dictionaries back gives the pairs, count and order preserved |
| Features.FlatAttributesEmpty | Source/TextStyle/StyleDescription.swift:117-123 | the flattened settings are empty exactly when there is no constructor, and are never fewer than the constructors |
| Features.FlatAttributesAppend | Source/TextStyle/StyleDescription.swift:117 | `flatMap { $0.attributes() }` distributes over concatenation |
| Features.ContextualAlternatesFeature | Source/Attributes/CommonsAttributes.swift:379-394 | always 3 pairs of type kContextualAlternatesType; pair i holds the On selector of flag i exactly when flag i is in the set, and the Off selector otherwise |
| Features.StylisticAlternativesFeature | Source/Attributes/CommonsAttributes.swift:432-457 | always 20 pairs of type kStylisticAlternativesType; pair i is alternative i+1 On exactly when that bit is set, and Off otherwise |
| Features.TraitOfRoundTrip | Source/Attributes/CommonsAttributes.swift:256-291 | each emphasis flag names a trait that maps back to that flag, so the flag-to-trait map is one-to-one |
| Features.TraitsOf | Source/Attributes/CommonsAttributes.swift:297-357 | the symbolic traits of a flag set, one trait per flag; its properties are TraitsOfMembership, TraitsOfAdd, TraitsOfUnion and TraitsOfCardinality, and the loop of SymbolicTraits computes it |
| Features.SymbolicTraits | Source/Attributes/CommonsAttributes.swift:297-357 | the loop's trait set is exactly the image of the flag set |
| Features.EmphasisOrderComplete | Source/Attributes/CommonsAttributes.swift:300-326 | the order the loop visits covers every emphasis flag |
| Features.TraitsOfAdd | Source/Attributes/CommonsAttributes.swift:300-326 | adding one flag adds exactly its trait |
| Features.TraitsOfMembership | Source/Attributes/CommonsAttributes.swift:297-357 | a flag is in the set exactly when its trait is in the result, and every trait produced comes from a flag in the set |
| Features.TraitsOfEmpty | EasyTextKit/Attributes/CommonsAttributes.swift:235-265 | the empty flag set gives the empty trait set |
| Features.TraitsOfUnion | Source/Attributes/CommonsAttributes.swift:297-357 | `symbolicTraits` distributes over union |
| Features.TraitsOfCardinality | EasyTextKit/Attributes/CommonsAttributes.swift:235-265 | exactly one trait per flag: the trait set is as large as the flag set |
| LegacyAttributes.HyphenationRawValue | EasyTextKit/Attributes/CommonsAttributes.swift:39-42 | raw value 0.0 is exactly `disabled` and 1.0 is exactly `default` |
| LegacyAttributes.HyphenationOf | EasyTextKit/TextStyle/TextStyle.swift:174-177 | the getter reads a factor of exactly 1 as `default`, anything else as `disabled` |
| LegacyAttributes.HyphenationRoundTrip | EasyTextKit/TextStyle/TextStyle.swift:172-178 | writing a hyphenation value and reading it back gives the same value |
| LegacyAttributes.HyphenationNormalises | EasyTextKit/TextStyle/TextStyle.swift:172-178 | reading then writing turns any factor into 0 or 1 |
| LegacyAttributes.LigatureFromRaw | EasyTextKit/Attributes/CommonsAttributes.swift:33-36 | `Ligature(rawValue:)` names a case exactly for 0 and 1, and the case has that raw value |
| LegacyAttributes.LigatureRoundTrip | EasyTextKit/TextStyle/TextStyle.swift:202-210 | storing a ligature's raw value and reading it back gives the ligature |
| StyleDescriptions.Init | Source/TextStyle/StyleDescription.swift:52-56 | `init(attributes:)` sets only the dictionary; every typed field is nil |
| StyleDescriptions.Set | Source/TextStyle/StyleDescription.swift:58-64 | nil removes the key and a value is stored under it; no other key and no typed field changes |
| StyleDescriptions.GetFont | Source/TextStyle/StyleDescription.swift:66-68 | reading the font gives a value exactly when the key holds a font; another type reads as nil |
| StyleDescriptions.SetGet | Source/TextStyle/StyleDescription.swift:58-68 | reading a key after setting it gives what was set; any other key reads as before |
| StyleDescriptions.SetSame | Source/TextStyle/StyleDescription.swift:58-68 | setting a key to what it already holds changes nothing |
| StyleDescriptions.UnionOptional | Source/TextStyle/StyleDescription.swift:218-220 | `parent?.union(child ?? []) ?? child` is nil exactly when both are nil, and is otherwise the union |
| StyleDescriptions.Combine | Source/TextStyle/StyleDescription.swift:184-223 | `combine(_:_:)` of two descriptions; what it promises is stated by CombineCascade, CombineAssociative, the identity and idempotence lemmas and CombineKeepsParentFlags |
| StyleDescriptions.CombineCascade | Source/TextStyle/StyleDescription.swift:184-223 | child-wins per key over the union of both key sets; every optional field is child-else-parent; smallCaps and emphasis are unions, nil only when both are nil; the alternates fields are dropped |
| StyleDescriptions.OrElseAssociative | Source/TextStyle/StyleDescription.swift:192-217 | Swift's `??` is associative |
| StyleDescriptions.UnionOptionalRightIdentity | Source/TextStyle/StyleDescription.swift:218-220 | a nil child leaves the parent's set as it is |
| StyleDescriptions.UnionOptionalIdempotent | Source/TextStyle/StyleDescription.swift:218-220 | combining a set field with itself gives it back |
| StyleDescriptions.UnionOptionalAssociative | Source/TextStyle/StyleDescription.swift:218-220 | the set-field rule is associative |
| StyleDescriptions.CombineLeftIdentity | Source/TextStyle/StyleDescription.swift:184-223 | the empty description is a left identity of `combine`, up to the alternates fields `combine` never copies |
| StyleDescriptions.CombineRightIdentity | Source/TextStyle/StyleDescription.swift:184-223 | the empty description is a right identity, up to the alternates fields |
| StyleDescriptions.CombineIdempotent | Source/TextStyle/StyleDescription.swift:184-223 | combining a description with itself gives it back, up to the alternates fields |
| StyleDescriptions.CombineAssociative | Source/TextStyle/StyleDescription.swift:184-223 | cascading through three levels does not depend on how they are grouped |
| StyleDescriptions.CombineKeepsParentFlags | Source/TextStyle/StyleDescription.swift:218-220 | every smallCaps and emphasis flag the parent sets survives in the result |
| StyleDescriptions.CardinalityWithout | Source/TextStyle/StyleDescription.swift:117-123 | removing an element from a set lowers its size by one exactly when it was there; this counts the small-caps constructors |
| StyleDescriptions.ParagraphOf | Source/TextStyle/StyleDescription.swift:74-90 | each paragraph field is the description's value or the default paragraph's (0, natural, byWordWrapping) |
| StyleDescriptions.ParagraphOfUnset | Source/TextStyle/StyleDescription.swift:74-90 | with no paragraph field set, the built paragraph is the default one |
| StyleDescriptions.PositionConstructors | Source/TextStyle/StyleDescription.swift:108-113 | a nil flag gives no constructor, true gives the position, and false gives `.normal` |
| StyleDescriptions.SmallCapsConstructors | Source/TextStyle/StyleDescription.swift:114 | one small-caps constructor per member of the set, none when it is nil |
| StyleDescriptions.SmallCapsMembership | Source/TextStyle/StyleDescription.swift:114 | the fixed-order listing holds exactly the set's members |
| StyleDescriptions.SmallCapsCount | Source/TextStyle/StyleDescription.swift:114 | the fixed-order listing has as many constructors as the set has members |
| StyleDescriptions.FeatureConstructors | Source/TextStyle/StyleDescription.swift:103-115 | the feature constructors `constructAttributes` collects; their number, order and the small-caps members are stated by FeatureConstructorsCount, FeatureConstructorsOrder and SmallCapsMembership, and BuildFeatureConstructors computes them |
| StyleDescriptions.FeatureConstructorsCount | Source/TextStyle/StyleDescription.swift:103-115 | one constructor per set feature field plus one per small-caps member; none exactly when nothing is set |
| StyleDescriptions.FeatureConstructorsOrder | Source/TextStyle/StyleDescription.swift:103-115 | the list's order is numberCase, numberSpacing, fractions, superscript, subscript, ordinals, scientificInferiors, then small caps |
| StyleDescriptions.Encoded | Source/TextStyle/StyleDescription.swift:70-157 | the dictionary `constructAttributes` returns; its font, kern, paragraph and pass-through keys are stated by the Encoded lemmas below, and ConstructAttributes computes it |
| StyleDescriptions.EncodedHasFont | Source/TextStyle/StyleDescription.swift:141-149 | the font key is always present, holding the resolved font |
| StyleDescriptions.EncodedKern | Source/TextStyle/StyleDescription.swift:151-154 | the kern key is present exactly when tracking is set or the dictionary had one; tracking's kerning wins |
| StyleDescriptions.EncodedParagraph | Source/TextStyle/StyleDescription.swift:74-90 | the paragraph key is written exactly when the built paragraph differs from the default one; otherwise a stored one passes through |
| StyleDescriptions.EncodedKeepsOtherKeys | Source/TextStyle/StyleDescription.swift:70-157 | every other key of the dictionary passes through unchanged, and no other key is added |
| StyleDescriptions.FeatureSettingsOnlyWhenPresent | Source/TextStyle/StyleDescription.swift:117-123 | with no constructor the descriptor is the base font's own; otherwise it gets the flattened settings |
| StyleDescriptions.EmphasisAddsTraits | Source/TextStyle/StyleDescription.swift:125-131 | emphasis traits are added to the descriptor's existing traits, and an unsupported combination gives no descriptor |
| StyleDescriptions.NoEmphasisKeepsDescriptor | Source/TextStyle/StyleDescription.swift:133-139 | without emphasis the font is rebuilt from the featured descriptor at the base size |
| StyleDescriptions.EncodedEmpty | Source/TextStyle/StyleDescription.swift:70-157 | an empty description encodes to the system font and nothing else |
| StyleDescriptions.BuildParagraphStyle | Source/TextStyle/StyleDescription.swift:74-90 | the paragraph block builds exactly `ParagraphOf` |
| StyleDescriptions.BuildFeatureConstructors | Source/TextStyle/StyleDescription.swift:103-115 | the constructor list grown field by field is exactly `FeatureConstructors` |
| StyleDescriptions.BuildDescriptor | Source/TextStyle/StyleDescription.swift:117-131 | the descriptor after the feature and trait steps is `TraitedDescriptor` |
| StyleDescriptions.BuildFont | Source/TextStyle/StyleDescription.swift:99-139 | the base font, rebuilt when a descriptor survives, is `ResolvedFont` |
| StyleDescriptions.ConstructAttributes | Source/TextStyle/StyleDescription.swift:70-157 | the method's dictionary is exactly `Encoded`, whose properties are the lemmas above |
| Styles.FromAttributes | Source/TextStyle/Style.swift:26-28 | `Style(attributes)` sets only the dictionary; every typed field is nil |
| Styles.SetKey | Source/TextStyle/Style.swift:51-55 | a dictionary setter stores the value or removes the key, keeps every other key, and keeps the typed fields |
| Styles.WithFont | Source/TextStyle/Style.swift:51-55 | the font is stored, or the key removed for nil; nothing else changes |
| Styles.WithForegroundColor | Source/TextStyle/Style.swift:61-65 | the colour is stored, or the key removed for nil; nothing else changes |
| Styles.WithBackgroundColor | Source/TextStyle/Style.swift:71-75 | the colour is stored, or the key removed for nil; nothing else changes |
| Styles.WithUnderline | Source/TextStyle/Style.swift:83-88 | writes exactly the style key, as the raw `Int`, and the colour key |
| Styles.WithStroke | Source/TextStyle/Style.swift:99-104 | writes exactly the stroke colour and stroke width keys |
| Styles.WithStrikethrough | Source/TextStyle/Style.swift:112-117 | writes exactly the style key, as the raw `Int`, and the colour key |
| Styles.WithBaselineOffset | Source/TextStyle/Style.swift:123-127 | the offset is stored, or the key removed for nil; nothing else changes |
| Styles.WithShadow | Source/TextStyle/Style.swift:299-303 | the shadow is stored, or the key removed for nil; nothing else changes |
| Styles.WithLinkUrl | Source/TextStyle/Style.swift:309-313 | the URL is stored, or the key removed for nil; nothing else changes |
| Styles.WithLigature | Source/TextStyle/Style.swift:320-324 | the key is always present; nil stores 0, like `disabled`, and `default` stores 1 |
| Styles.WithDynamicText | Source/TextStyle/Style.swift:40-44 | only `dynamicText` changes, to the argument |
| Styles.WithLineSpacing | Source/TextStyle/Style.swift:131-135 | only `lineSpacing` changes, to the argument, nil included |
| Styles.WithParagraphSpacingBefore | Source/TextStyle/Style.swift:144-148 | only `paragraphSpacingBefore` changes |
| Styles.WithParagraphSpacingAfter | Source/TextStyle/Style.swift:160-164 | only `paragraphSpacing` changes |
| Styles.WithAlignment | Source/TextStyle/Style.swift:170-174 | only `alignment` changes |
| Styles.WithFirstLineHeadIndent | Source/TextStyle/Style.swift:183-187 | only `firstLineHeadIndent` changes |
| Styles.WithHeadIndent | Source/TextStyle/Style.swift:196-200 | only `headIndent` changes |
| Styles.WithTailIndent | Source/TextStyle/Style.swift:211-215 | only `tailIndent` changes |
| Styles.WithLineBreakMode | Source/TextStyle/Style.swift:221-225 | only `lineBreakMode` changes |
| Styles.WithMinimumLineHeight | Source/TextStyle/Style.swift:235-239 | only `minimumLineHeight` changes |
| Styles.WithMaximumLineHeight | Source/TextStyle/Style.swift:252-256 | only `maximumLineHeight` changes |
| Styles.WithLineHeightMultiple | Source/TextStyle/Style.swift:264-268 | only `lineHeightMultiple` changes |
| Styles.WithHyphenationFactor | Source/TextStyle/Style.swift:278-282 | only `hyphenationFactor` changes |
| Styles.WithBaseWritingDirection | Source/TextStyle/Style.swift:289-293 | only `baseWritingDirection` changes |
| Styles.WithTracking | Source/TextStyle/Style.swift:330-334 | only `tracking` changes |
| Styles.WithNumberCase | Source/TextStyle/Style.swift:338-342 | only `numberCase` changes |
| Styles.WithNumberSpacing | Source/TextStyle/Style.swift:346-350 | only `numberSpacing` changes |
| Styles.WithFractions | Source/TextStyle/Style.swift:354-358 | only `fractions` changes |
| Styles.WithSuperscript | Source/TextStyle/Style.swift:362-366 | only `superscript` changes |
| Styles.WithSubscript | Source/TextStyle/Style.swift:370-374 | only `subscript` changes |
| Styles.WithOrdinals | Source/TextStyle/Style.swift:378-382 | only `ordinals` changes |
| Styles.WithScientificInferiors | Source/TextStyle/Style.swift:386-390 | only `scientificInferiors` changes |
| Styles.WithSmallCaps | Source/TextStyle/Style.swift:395-399 | only `smallCaps` changes, replaced whole |
| Styles.WithContextualAlternates | Source/TextStyle/Style.swift:405-413 | only the contextual alternates change, replaced whole |
| Styles.WithStylisticAlternatives | Source/TextStyle/Style.swift:417-425 | only the stylistic alternatives change, replaced whole |
| Styles.WithEmphasizeStyle | Source/TextStyle/Style.swift:429-441 | nil clears the emphasis; a set is unioned into whatever was there; nothing else changes |
| Styles.SetKeyLastWriteWins | Source/TextStyle/Style.swift:51-55 | the second write of a key replaces the first |
| Styles.ReplacingSettersOverwrite | Source/TextStyle/Style.swift:395-425 | `smallCaps`, `contextualAlternates` and `stylisticAlternatives` replace: a second call overrides the first entirely |
| Styles.EmphasizeStyleAccumulates | Source/TextStyle/Style.swift:429-441 | two emphasis calls give the union of both with what was there |
| Styles.BoldThenItalic | Source/TextStyle/Style.swift:429-441 | an instance of EmphasizeStyleAccumulates: bold then italic on a fresh style gives {bold, italic} |
| Styles.IndependentSettersCommute | Source/TextStyle/Style.swift:131-135 | a dictionary setter and a typed setter commute |
| Styles.SetterWinsInCombine | Source/TextStyle/StyleProtocol.swift:68-71 | a field a child's setter gives a value wins in `combine` |
| StyleProtocol.DescriptionOf | Source/TextStyle/StyleProtocol.swift:44 | an attributed string used as a style has the empty description; a `Style` has its own |
| StyleProtocol.Combine | Source/TextStyle/StyleProtocol.swift:68-71 | `combine` is a `Style` around `StyleDescription.combine` of the two descriptions |
| StyleProtocol.LiteralWritesOnlyFont | Source/Extensions/AttributedString+Extension.swift:55 | an attributed string used as a style writes the system font and nothing else |
| StyleProtocol.SetToString | Source/TextStyle/StyleProtocol.swift:46-51 | the result has the text's UTF-16; inside the range, given or `[0, source.count)` with `source.count` the string's character count, the style's attributes are set; outside it there are none |
| StyleProtocol.DefaultRangeMissesTail | Source/TextStyle/StyleProtocol.swift:47 | with a character outside the Basic Multilingual Plane and no range, the last unit gets no attributes, whatever the character count |
| StyleProtocol.DefaultRangeCoversExactly | Source/TextStyle/StyleProtocol.swift:47 | with no range, every unit carries the style exactly when every scalar lies in the Basic Multilingual Plane and is a character of its own; a combining mark or `\r\n` leaves the tail unstyled |
| StyleProtocol.Applying | Source/Extensions/AttributedString+Extension.swift:20-23 | `applying(style:)` gives a copy with the same text and the style's attributes over all of it |
| StyleProtocol.SetToAttributed | Source/TextStyle/StyleProtocol.swift:53-57 | the argument is edited in place and returned: the style's attributes added inside the range, the whole string when none is given |
| StyleProtocol.RemoveKeys | Source/TextStyle/StyleProtocol.swift:60-66 | inside the range each unit loses exactly the given keys; units outside it and the text are unchanged |
| StyleProtocol.RemoveKeysStep | Source/TextStyle/StyleProtocol.swift:62-64 | one more `removeAttribute` extends the removed key set by one |
| StyleProtocol.RemoveNoKeys | Source/TextStyle/StyleProtocol.swift:60-66 | removing no keys changes nothing |
| StyleProtocol.Remove | Source/TextStyle/StyleProtocol.swift:60-66 | the loop over the constructed keys leaves exactly `RemoveKeys` of those keys, and returns the argument |
| StyleProtocol.RemoveEach | Source/TextStyle/StyleProtocol.swift:62-64 | removing the keys one at a time, in any order, leaves exactly `RemoveKeys` of all of them |
| StyleProtocol.RemoveDropsFont | Source/TextStyle/StyleProtocol.swift:60-66 | removing a style always removes the font key inside the range and touches nothing outside it |
| StyleProtocol.RemoveAfterSet | Source/TextStyle/StyleProtocol.swift:53-66 | after setting a style and removing it, none of its keys remain in the range |
| Parsers.WrappedXml | Source/Parser/Parser.swift:70-71 | the text is wrapped in `<source>…</source>` unless `doNotWrapXML` is given |
| Parsers.InitialState | Source/Parser/Parser.swift:79-86 | one base frame under the top tag when there is a base, none otherwise; empty buffer and output |
| Parsers.Flush | Source/Parser/Parser.swift:177-189 | `foundNewString` appends one run, empties the buffer and keeps the stack |
| Parsers.ApplyFrame | Source/Parser/Parser.swift:179-186 | one pass of the frame loop: a mutable attributed string replaces the run, any other style is applied over it; TopLiteralReplaces and TopStyleWins state its effect on the run |
| Parsers.ApplyFrames | Source/Parser/Parser.swift:178-186 | the frames applied from the bottom of the stack to the top; RunKeepsText states that without literal frames the run keeps the buffered text |
| Parsers.StepEvent | Source/Parser/Parser.swift:114-141 | the three delegate callbacks: a start tag flushes then enters, an end tag flushes then exits unless it is the top tag, characters extend the buffer; stated by StartIsFlushThenEnter, StartAndEndFlush, TopTagKeepsStack, StartEndRestoresDepth and CharactersConcatenate |
| Parsers.RunEvents | Source/Parser/Parser.swift:96-97 | the tokenizer's events delivered in order, a trap ending the run; RunEventsHaltPersists states that nothing follows a trap |
| Parsers.ParseSpec | Source/Parser/Parser.swift:96-110 | `parse()` on a tokenizer run: the output, a thrown error at the shifted position, the empty string when no error object exists, or a trap; stated by FailureReporting, and Parser.Parse computes it |
| Parsers.EnterStep | Source/Parser/Parser.swift:145-171 | `source` is ignored; an unknown tag traps; a literal or a tag at depth one is pushed verbatim; deeper tags push `combine(top, entry)`; a style with no frame traps |
| Parsers.ExitStep | Source/Parser/Parser.swift:173-175 | the top frame is popped whatever its tag; an empty stack traps |
| Parsers.ReportedColumn | Source/Parser/Parser.swift:98-101 | the column is shifted back by 8 on line 1 of wrapped input, and unchanged otherwise |
| Parsers.Parser.constructor | Source/Parser/Parser.swift:67-94 | the parser holds the wrapped XML and the initial state |
| Parsers.Parser.FoundNewString | Source/Parser/Parser.swift:177-189 | the frame loop leaves exactly the state `Flush` gives |
| Parsers.Parser.Enter | Source/Parser/Parser.swift:145-171 | the method's new state, or its trap, is `EnterStep` |
| Parsers.Parser.Exit | Source/Parser/Parser.swift:173-175 | the method's new state, or its trap, is `ExitStep` |
| Parsers.Parser.HandleEvent | Source/Parser/Parser.swift:115-141 | each delegate callback's new state, or its trap, is `StepEvent` |
| Parsers.Parser.Parse | Source/Parser/Parser.swift:96-110 | `parse()` returns exactly what `ParseSpec` gives for the tokenizer's run |
| Parsers.RunEventsHaltPersists | Source/Parser/Parser.swift:148-150 | once a run has trapped, no later event resumes it |
| Parsers.CharactersConcatenate | Source/Parser/Parser.swift:139-141 | two character chunks are concatenated into the buffer; nothing else changes |
| Parsers.StartAndEndFlush | Source/Parser/Parser.swift:122 | every start and end event first appends exactly one run and empties the buffer |
| Parsers.TopTagKeepsStack | Source/Parser/Parser.swift:134 | the `source` tag never pushes or pops a frame |
| Parsers.StartEndRestoresDepth | Source/Parser/Parser.swift:173-175 | a start tag and any end tag after it restore the depth |
| Parsers.UnknownTagTraps | Source/Parser/Parser.swift:148-150 | an unknown tag is a fatal error |
| Parsers.NoBaseStyleTagTraps | Source/Parser/Parser.swift:166-168 | a style tag opened without a base is a fatal error |
| Parsers.FirstLevelIsVerbatim | Source/Parser/Parser.swift:154-159 | with a base, a first-level tag pushes its entry verbatim, not combined with the base |
| Parsers.StartIsFlushThenEnter | Source/Parser/Parser.swift:121-124 | a start tag runs `foundNewString()` and then `enter`, and the flush keeps the stack |
| Parsers.DeeperTagsCombine | Source/Parser/Parser.swift:160-170 | with two or more frames, `enter` of a style tag pushes `combine(top, entry)` and changes nothing else |
| Parsers.TopLiteralReplaces | Source/Parser/Parser.swift:179-186 | with a mutable attributed string on top, the run is exactly that string |
| Parsers.TopStyleWins | Source/Parser/Parser.swift:179-186 | with a style on top, every key it writes holds the top style's value in every unit of the run |
| Parsers.RunKeepsText | Source/Parser/Parser.swift:177-189 | without literal frames, a run has the buffered text's units |
| Parsers.FirstLevelFontIgnoresBase | Source/Parser/Parser.swift:154-159 | under a first-level style the run's font comes from that style alone: the base's typed fields do not reach it |
| Parsers.FailureReporting | Source/Parser/Parser.swift:96-110 | a failure without an error object gives the empty result; with one, it is thrown with the shifted column and the same line |
| XmlStyles.Init | Source/TextStyle/XMLStyle.swift:33-42 | the table, base and options are stored as given; the description is empty |
| XmlStyles.ApplySpec | Source/TextStyle/XMLStyle.swift:65-73 | `apply(to:range:)`: the parsed text, the input when the parser throws, or a trap; stated by TokenizerSeesText, ThrownKeepsInput, SilentFailureEmpties and NoEventsNoText |
| XmlStyles.Apply | Source/TextStyle/XMLStyle.swift:65-73 | `apply` gives the parsed text, the input itself when the parser throws, and traps when it traps |
| XmlStyles.SetToString | Source/TextStyle/XMLStyle.swift:50-53 | `set(to: String)` applies to the plain string and ignores the range |
| XmlStyles.SetToAttributed | Source/TextStyle/XMLStyle.swift:61-63 | `set(to: AttributedString)` applies to the argument and ignores the range |
| XmlStyles.TokenizerSeesText | Source/TextStyle/XMLStyle.swift:67 | two inputs with the same text give the same result when the parse succeeds: the input's attributes never matter |
| XmlStyles.ThrownKeepsInput | Source/TextStyle/XMLStyle.swift:68-72 | a parse that throws hands back the input unchanged |
| XmlStyles.SilentFailureEmpties | Source/Parser/Parser.swift:103-105 | a parse that fails without an error object gives the empty string, and the input is lost |
| XmlStyles.NoEventsNoText | Source/TextStyle/XMLStyle.swift:65-73 | a successful parse with no events gives the empty string |
| Builder.BuildBlock | Source/Attributes/AttributedStringBuilder.swift:17-21 | the loop's result is the segments concatenated in order |
| Builder.BuildEmptyBlock | Source/Attributes/AttributedStringBuilder.swift:23-25 | `buildBlock()` is empty |
| Builder.BuildText | Source/Attributes/AttributedStringBuilder.swift:27-29 | the text's units, with no attributes |
| Builder.BuildAttributed | Source/Attributes/AttributedStringBuilder.swift:31-33 | the argument itself |
| Builder.BuildImage | Source/Attributes/AttributedStringBuilder.swift:36-40 | one attachment character carrying the attachment |
| Builder.BuildOptional | Source/Attributes/AttributedStringBuilder.swift:43-49 | nil becomes the empty string, anything else passes through |
| Builder.BuildEither | Source/Attributes/AttributedStringBuilder.swift:51-57 | the chosen branch |
| Builder.ConcatAppend | Source/Attributes/AttributedStringBuilder.swift:17-21 | concatenating two blocks of segments concatenates their results |
| Builder.ConcatPrefix | Source/Attributes/AttributedStringBuilder.swift:19 | each loop step appends the next segment to the prefix built so far |
| Builder.OffsetsGrow | Source/Attributes/AttributedStringBuilder.swift:17-21 | each segment moves the next offset on by its length |
| Builder.BlockPreservesSegments | Source/Attributes/AttributedStringBuilder.swift:17-21 | the result holds each segment, unit and attributes, at that segment's offset |
| Builder.EmptySegmentsVanish | Source/Attributes/AttributedStringBuilder.swift:43-49 | nil branches in a block contribute nothing |
| LegacyTextStyles.Blank | EasyTextKit/TextStyle/TextStyle.swift:247-257 | a new style holds the dictionary and no typed value |
| LegacyTextStyles.Typed | EasyTextKit/TextStyle/TextStyle.swift:316-318 | `get` gives the stored value exactly when it has the expected type, nil otherwise |
| LegacyTextStyles.Put | EasyTextKit/TextStyle/TextStyle.swift:308-314 | nil removes the key and a value is stored; no other key changes |
| LegacyTextStyles.PutThenTyped | EasyTextKit/TextStyle/TextStyle.swift:308-318 | reading back after `set` gives what was set, or nil after setting nil |
| LegacyTextStyles.StoredLigature | EasyTextKit/TextStyle/TextStyle.swift:202-210 | a ligature is read only from a stored raw value that names it |
| LegacyTextStyles.LazyParagraph | EasyTextKit/TextStyle/TextStyle.swift:90-100 | the getter gives the stored paragraph, or a default one when none is stored |
| LegacyTextStyles.WithLazyParagraph | EasyTextKit/TextStyle/TextStyle.swift:96-98 | after the getter the paragraph it returned is stored |
| LegacyTextStyles.LazyParagraphStable | EasyTextKit/TextStyle/TextStyle.swift:90-100 | reading the paragraph twice stores nothing new the second time |
| LegacyTextStyles.NilSettersGiveDefaults | EasyTextKit/TextStyle/TextStyle.swift:103-186 | a nil paragraph setter writes the default paragraph's value (0, natural, byWordWrapping) |
| LegacyTextStyles.SetterLastWriteWins | EasyTextKit/TextStyle/TextStyle.swift:103-186 | a paragraph setter overwrites only its own property, so a second call replaces the first |
| LegacyTextStyles.MergedParagraph | EasyTextKit/TextStyle/TextStyle.swift:288-300 | the merged paragraph is the child's, except that head and tail indent both take the first-line head indent and hyphenation becomes 0 or 1 |
| LegacyTextStyles.MergedEntry | EasyTextKit/TextStyle/TextStyle.swift:268-300 | the value `merge` writes under one key; stated by MergedAttributesLookup, MergeChildElseParent, MergeLigature and MergeIgnoresParentParagraphAndLines |
| LegacyTextStyles.MergedAttributesLookup | EasyTextKit/TextStyle/TextStyle.swift:266-302 | a key is in the merged dictionary exactly when `merge` writes a value for it, and holds that value |
| LegacyTextStyles.MergeSpec | EasyTextKit/TextStyle/TextStyle.swift:266-302 | `merge(_:)` with the receiver as the child; stated field by field by MergeTypedFields, MergeEmphasis, MergeDropsDynamicText, MergeDropsOtherKeys and the key lemmas, and TextStyle.Merge computes it |
| LegacyTextStyles.MergeTypedFields | EasyTextKit/TextStyle/TextStyle.swift:278-287 | tracking, numberCase, numberSpacing, fractions, superscript, subscript, ordinals and scientificInferiors are each the child's when set, the parent's otherwise; the small caps are the union |
| LegacyTextStyles.MergeEmphasis | EasyTextKit/TextStyle/TextStyle.swift:286 | the emphasis is nil whenever the child's is, otherwise the union |
| LegacyTextStyles.MergeDropsDynamicText | EasyTextKit/TextStyle/TextStyle.swift:267 | a merged style never has Dynamic Type |
| LegacyTextStyles.MergeDropsOtherKeys | EasyTextKit/TextStyle/TextStyle.swift:266-302 | only the keys `merge` knows survive; the paragraph, underline and strikethrough keys are always present |
| LegacyTextStyles.MergeChildElseParent | EasyTextKit/TextStyle/TextStyle.swift:268-276 | the font, colours, offset, shadow and link are the child's when it has one of the right type, the parent's otherwise, and absent when neither has one |
| LegacyTextStyles.MergeLigature | EasyTextKit/TextStyle/TextStyle.swift:277 | the stored ligature is the child's when it has one, the parent's otherwise; the key is written exactly when either has one |
| LegacyTextStyles.MergeIgnoresParentParagraphAndLines | EasyTextKit/TextStyle/TextStyle.swift:271-300 | the merged paragraph, underline, stroke and strikethrough keys do not depend on the parent |
| LegacyTextStyles.MergeIndentsFromFirstLine | EasyTextKit/TextStyle/TextStyle.swift:292-294 | the merged head and tail indents both come from the child's first-line head indent |
| LegacyTextStyles.MergeNotIdempotent | EasyTextKit/TextStyle/TextStyle.swift:266-302 | an instance of MergeDropsDynamicText: merging a style that has Dynamic Type with itself does not give it back |
| LegacyTextStyles.ExtraAttributes | EasyTextKit/TextStyle/TextStyle.swift:320-376 | the dictionary the private `constructAttributes` returns; stated by ExtraKeys, TraitFailureKeepsFeatures and FeaturesOnlyWhenPresent, and TextStyle.ConstructAttributes computes it |
| LegacyTextStyles.AttributesOf | EasyTextKit/TextStyle/TextStyle.swift:13-19 | `attributes`: the inner dictionary with the constructed keys written over it; stated by AttributesKeepInner |
| LegacyTextStyles.ExtraKeys | EasyTextKit/TextStyle/TextStyle.swift:364-373 | `constructAttributes` always writes the font, writes kern exactly when tracking is set, and nothing else |
| LegacyTextStyles.AttributesKeepInner | EasyTextKit/TextStyle/TextStyle.swift:13-19 | `attributes` keeps every other stored key and always holds a font |
| LegacyTextStyles.TraitFailureKeepsFeatures | EasyTextKit/TextStyle/TextStyle.swift:353-362 | when the traits cannot be applied, the featured font is kept |
| LegacyTextStyles.FeaturesOnlyWhenPresent | EasyTextKit/TextStyle/TextStyle.swift:328-350 | feature settings reach the font exactly when there is a constructor |
| LegacyTextStyles.TextStyle.constructor | EasyTextKit/TextStyle/TextStyle.swift:247-249 | `init()` gives a blank style over an empty dictionary |
| LegacyTextStyles.TextStyle.WithAttributes | EasyTextKit/TextStyle/TextStyle.swift:251-253 | `init(attributes:)` gives a blank style over the dictionary |
| LegacyTextStyles.TextStyle.Copying | EasyTextKit/TextStyle/TextStyle.swift:255-257 | `init(style:)` copies only the dictionary |
| LegacyTextStyles.TextStyle.Holding | EasyTextKit/TextStyle/TextStyle.swift:267-300 | the fresh style `merge` fills in holds exactly the given fields |
| LegacyTextStyles.TextStyle.Set | EasyTextKit/TextStyle/TextStyle.swift:308-314 | the dictionary becomes `Put` of the old one; nothing else changes |
| LegacyTextStyles.TextStyle.SetUnderline | EasyTextKit/TextStyle/TextStyle.swift:44-47 | writes the raw style and the colour, each removed when nil |
| LegacyTextStyles.TextStyle.Underline | EasyTextKit/TextStyle/TextStyle.swift:48-52 | the getter never gives nil: the style reads as 0 when absent |
| LegacyTextStyles.TextStyle.SetStrikethrough | EasyTextKit/TextStyle/TextStyle.swift:71-81 | writes the raw style and the colour, each removed when nil |
| LegacyTextStyles.TextStyle.SetStroke | EasyTextKit/TextStyle/TextStyle.swift:58-68 | writes the stroke colour and width, each removed when nil |
| LegacyTextStyles.TextStyle.SetLigature | EasyTextKit/TextStyle/TextStyle.swift:202-203 | stores the raw value, or removes the key for nil |
| LegacyTextStyles.TextStyle.Paragraph | EasyTextKit/TextStyle/TextStyle.swift:90-100 | returns `LazyParagraph` of the dictionary and leaves it stored |
| LegacyTextStyles.TextStyle.SetParagraphProperty | EasyTextKit/TextStyle/TextStyle.swift:103-186 | updates the lazily created stored paragraph by one setter |
| LegacyTextStyles.TextStyle.Adding | EasyTextKit/TextStyle/TextStyle.swift:259-264 | the new style holds the dictionary with a copy of the paragraph, and no typed value; the receiver gains its lazy paragraph |
| LegacyTextStyles.TextStyle.Merge | EasyTextKit/TextStyle/TextStyle.swift:266-302 | the new style is `MergeSpec(child, parent)`; reading the child's paragraph stores it in the child |
| LegacyTextStyles.TextStyle.ConstructAttributes | EasyTextKit/TextStyle/TextStyle.swift:320-376 | the font and kern built step by step are exactly `ExtraAttributes` |
| LegacyTextStyles.TextStyle.Attributes | EasyTextKit/TextStyle/TextStyle.swift:13-19 | `attributes` is the dictionary overwritten by the constructed keys |
| LegacyTextStyles.UnderlineReadWrite | EasyTextKit/TextStyle/TextStyle.swift:43-53 | writing back what the underline getter read leaves the style key set, 0 when it was absent |
| LegacyParsers.InitialState | EasyTextKit/Support/Parser.swift:73-80 | the table, and one base frame under the top tag when there is a base |
| LegacyParsers.LegacyFlush | EasyTextKit/Support/Parser.swift:170-184 | appends one run, empties the buffer, keeps the stack and table |
| LegacyParsers.ApplyLegacyFrame | EasyTextKit/Support/Parser.swift:173-180 | one pass of the legacy frame loop, by the casts in source order; stated by TopReplacingFrameDecides, OtherFramesKeepContent and TextStyleFrameAddsAttributes |
| LegacyParsers.LegacyEnterStep | EasyTextKit/Support/Parser.swift:138-164 | `enter(element:attributes:)`: the top tag is ignored, an unknown tag traps, a text style over a text style is merged, anything else is pushed as it is; stated by LegacyUnknownTagTraps, KnownTagNeverTraps, FirstLevelMerges, VerbatimSharesTableEntry and MergeStoresParagraphInTable |
| LegacyParsers.LegacyStepEvent | EasyTextKit/Support/Parser.swift:107-134 | the three delegate callbacks, as in the newer parser; stated by LegacyTopTagKeepsStack, LegacyStartEndRestoresDepth and StepKeepsFramesShared |
| LegacyParsers.LegacyRunEvents | EasyTextKit/Support/Parser.swift:90-91 | the events delivered in order, a trap ending the run; stated by LegacyHaltPersists and RunKeepsFramesShared |
| LegacyParsers.LegacyParseSpec | EasyTextKit/Support/Parser.swift:90-103 | `parse()` on a tokenizer run, where a failure without an error object traps on the force unwrap; stated by LegacyNilErrorTraps and LegacyFailureReporting, and LegacyParser.Parse computes it |
| LegacyParsers.Retarget | EasyTextKit/Support/Parser.swift:153 | every frame holding table entry `name` sees its new value; other frames are unchanged |
| LegacyParsers.LegacyExitStep | EasyTextKit/Support/Parser.swift:166-168 | the top frame is popped whatever its tag; an empty stack traps |
| LegacyParsers.LegacyParser.constructor | EasyTextKit/Support/Parser.swift:62-88 | the parser holds the wrapped XML, the table and the initial state |
| LegacyParsers.LegacyParser.FoundNewString | EasyTextKit/Support/Parser.swift:170-184 | the frame loop leaves exactly the state `LegacyFlush` gives |
| LegacyParsers.LegacyParser.Enter | EasyTextKit/Support/Parser.swift:138-164 | the method's new state, or its trap, is `LegacyEnterStep` |
| LegacyParsers.LegacyParser.Exit | EasyTextKit/Support/Parser.swift:166-168 | the method's new state, or its trap, is `LegacyExitStep` |
| LegacyParsers.LegacyParser.HandleEvent | EasyTextKit/Support/Parser.swift:108-134 | each delegate callback's new state, or its trap, is `LegacyStepEvent` |
| LegacyParsers.LegacyParser.Parse | EasyTextKit/Support/Parser.swift:90-103 | `parse()` returns exactly what `LegacyParseSpec` gives for the tokenizer's run |
| LegacyParsers.LegacyHaltPersists | EasyTextKit/Support/Parser.swift:141-143 | once a run has trapped, no later event resumes it |
| LegacyParsers.LegacyUnknownTagTraps | EasyTextKit/Support/Parser.swift:141-143 | an unknown tag is a fatal error |
| LegacyParsers.LegacyTopTagKeepsStack | EasyTextKit/Support/Parser.swift:127 | the `source` tag never pushes or pops a frame and never touches the table |
| LegacyParsers.KnownTagNeverTraps | EasyTextKit/Support/Parser.swift:147-162 | a known tag never traps on entry, even with no frame |
| LegacyParsers.LegacyStartEndRestoresDepth | EasyTextKit/Support/Parser.swift:166-168 | a start tag and any end tag after it restore the depth |
| LegacyParsers.FirstLevelMerges | EasyTextKit/Support/Parser.swift:147-162 | with a text-style base, a first-level text style is merged with the base |
| LegacyParsers.MergeStoresParagraphInTable | EasyTextKit/Support/Parser.swift:153 | merging reads the table entry's paragraph, which stores it in the table entry itself |
| LegacyParsers.VerbatimSharesTableEntry | EasyTextKit/Support/Parser.swift:158-161 | a tag that does not merge is pushed as the table object itself, marked with its name |
| LegacyParsers.InitialFramesShareTable | EasyTextKit/Support/Parser.swift:73-80 | at the start every frame taken from the table holds that table entry |
| LegacyParsers.StepKeepsFramesShared | EasyTextKit/Support/Parser.swift:108-168 | each event keeps the frames in step with the table, and keeps the table's names |
| LegacyParsers.RunKeepsFramesShared | EasyTextKit/Support/Parser.swift:90-103 | a whole run of events keeps the frames in step with the table |
| LegacyParsers.TopReplacingFrameDecides | EasyTextKit/Support/Parser.swift:174-177 | with an attributed string or an image on top of the stack, the run is that string or the image's attachment, whatever the text and the frames below |
| LegacyParsers.OtherFramesKeepContent | EasyTextKit/Support/Parser.swift:171-182 | frames that no cast matches leave the content as it is |
| LegacyParsers.TextStyleFrameAddsAttributes | EasyTextKit/Support/Parser.swift:178-179 | a text-style frame adds exactly its `attributes` to every unit of the run |
| LegacyParsers.LegacyNilErrorTraps | EasyTextKit/Support/Parser.swift:97-99 | a failure without an error object traps on the force unwrap |
| LegacyParsers.LegacyFailureReporting | EasyTextKit/Support/Parser.swift:92-99 | a failure with an error throws it, with the column shifted back by 8 only on line 1 of wrapped input |

## Left out

- The XML tokenizer, `XMLParser`, is a function parameter from the UTF-16 units of the XML to the events it delivers and how it ended. The model does not constrain the tokenizer itself. The conversion of the XML to UTF-8 data is not modelled: it never fails for Swift strings.
- Floating point: `CGFloat` and `Float` are `real`. The Adobe tracking value `pointSize * value / 1000` is computed over the reals, without rounding.
- Only the UIKit branches for iOS are modelled. The AppKit, tvOS and watchOS branches of the encoders and of `symbolicTraits` are left out, and so is AppKit's `Ligature.all`.
- Fonts, descriptors, colours, shadows, URLs, attachments and `UIFontMetrics` scaling are opaque values. `Platform.Scaled` only records the `DynamicText` a font was scaled for. `withSymbolicTraits` is a parameter that says which trait requests a descriptor supports.
- `Features.SymbolicTraits`: the source tests the nine emphasis flags in nine consecutive `if` statements. The model visits the same flags in the same order in a loop.
- `Features.StylisticAlternativesFeature`: the source makes twenty consecutive `append` calls, one per alternative from one to twenty. The model visits the same twenty alternatives in the same order in a loop.
- The raw bit values of `EmphasizeStyle` and the `rawValue` it carries are not modelled. It is a set of flags, and only the flag-to-trait map is modelled.
- Swift `Set` iteration order is unspecified. The small-caps constructors are listed in the fixed order disabled, fromUppercase, fromLowercase, so only their membership and number are the source's.
- `StyleDescriptions.CombineLeftIdentity`, `StyleDescriptions.CombineRightIdentity`, `StyleDescriptions.CombineIdempotent`: these hold only up to the contextual and stylistic alternates. `Style.swift` assigns those two fields at lines 408 and 422. `StyleDescription.swift` does not declare them, so `combine` and `constructAttributes` never read them. The model declares them as optional fields that `combine` drops and the encoder ignores.
- `NSMutableParagraphStyle` is a reference type in the source. The model gives paragraphs value semantics. The one sharing the source depends on is modelled: the legacy lazy getter stores the paragraph it creates. Two styles that hold the same paragraph object are not modelled.
- `LegacyParsers`: a table object can be shared under several names, or used as the base. The model tracks sharing only by table name. A `merge` that stores a paragraph in one table entry is seen by every frame pushed from that name, but not by another name or the base frame holding the same object.
- The `handler` closures of the legacy `init(_:)` and `adding(_:)` are not modelled. They run arbitrary client code, so the model gives the state just before the handler runs.
- The `remove(attributes:)` of `AttributedString+Extension.swift` (lines 32-36) edits a copy it then discards. It returns its receiver unchanged, so it is not a separate operation here.
- Nested `XMLStyle` entries in the newer parser's table are not modelled. Its entries are styles and attributed strings. In the legacy parser a nested `XMLTextStyle` is `GroupEntry`, whose `attributes` are empty.
- The legacy parser calls `set(style:)` on an attributed string and `generateAttachment()` on an image, and neither is declared in the repository. The model applies `set(style:)` as adding the style's `attributes` over the whole string. An image becomes one U+FFFC unit carrying an attachment.
- `LegacyParsers.LegacyConfig.base` accepts any legacy entry. The legacy initialiser takes the base from an `XMLTextStyle`'s `base` property, whose declared type `XMLTextStyle.swift` constrains only loosely. The flush treats each entry by the same casts whatever its position.
- The legacy parse's `assert` before the force unwrap is not modelled separately: in debug and release builds alike, a failure without an error object stops the process.
- The rest of the legacy tree (`Style.swift`, `StyleDescription.swift`, `StyleProtocol.swift`, `TextStyleProtocol.swift`, `XMLStyle.swift`, `XMLTextStyle.swift`, `CommonsTextStyle.swift`, `DynamicText.swift`, the builder and the extensions) is not part of this model. It is half-migrated: it declares `StyleProtocol` twice and assigns fields its `StyleDescription` does not declare.
- `debugPrint` calls and image tinting and rendering are left out.
- `StyleProtocol.Applying` has no `range` parameter: `applying(style:range:)` is called only by the frame loop of `Source/Parser/Parser.swift`, without one, so the model applies the style over the whole copy, the nil default.
- Grapheme-cluster segmentation, which Swift's `String.count` performs, is not modelled. `StyleProtocol.SetToString` takes the character count as a parameter, constrained only to be at most the scalar count and positive for a non-empty string.
- A range past the end of a string raises `NSRangeException` in Foundation. `set(to:range:)` and `remove(from:range:)` take in-bounds ranges as a precondition, as Foundation demands of its callers.
