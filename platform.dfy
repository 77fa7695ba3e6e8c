/**
 * The UIKit objects the style code hands values to and reads values back
 * from: fonts and font descriptors, paragraph styles, Dynamic Type settings.
 * They belong to the platform, so they are kept as plain records here; the
 * one platform decision the style code depends on, whether a font supports a
 * combination of symbolic traits, is a parameter of the environment.
 */
module Platform {
  import opened Wrappers

  /** `UIFontDescriptor.SymbolicTraits`: the nine bits the emphasis flags map to, and any other bit a font may carry. */
  datatype SymbolicTrait =
    | TraitItalic
    | TraitBold
    | TraitExpanded
    | TraitCondensed
    | TraitMonoSpace
    | TraitVertical
    | TraitUIOptimized
    | TraitTightLeading
    | TraitLooseLeading
    | OtherTrait(bit: nat)

  /** `UIFontDescriptor.FeatureKey`. */
  datatype FeatureKey = FeatureIdentifier | TypeIdentifier | SelectorIdentifier

  /** One entry of a descriptor's feature-settings array: a dictionary from feature key to integer. */
  type FeatureSetting = map<FeatureKey, int>

  datatype Face = SystemFace | NamedFace(name: string)

  datatype FontDescriptor = FontDescriptor(face: Face, featureSettings: seq<FeatureSetting>, symbolicTraits: set<SymbolicTrait>)

  /** `DynamicText`: text style, maximum point size and trait collection handed to `UIFontMetrics`. */
  datatype DynamicText = DynamicText(textStyle: Option<string>, maximumPointSize: real, traitCollection: Option<nat>)

  /** A font; `scaledFor` records that `UIFontMetrics` produced it from a Dynamic Type setting. */
  datatype Font = Font(descriptor: FontDescriptor, pointSize: real, scaledFor: Option<DynamicText>)

  datatype TextAlignment = Left | Center | Right | Justified | Natural

  datatype LineBreakMode = ByWordWrapping | ByCharWrapping | ByClipping | ByTruncatingHead | ByTruncatingTail | ByTruncatingMiddle

  datatype WritingDirection = NaturalDirection | LeftToRight | RightToLeft

  /** The properties of `NSParagraphStyle` the style code sets. */
  datatype Paragraph = Paragraph(
    lineSpacing: real,
    paragraphSpacingBefore: real,
    paragraphSpacing: real,
    alignment: TextAlignment,
    firstLineHeadIndent: real,
    headIndent: real,
    tailIndent: real,
    lineBreakMode: LineBreakMode,
    minimumLineHeight: real,
    maximumLineHeight: real,
    lineHeightMultiple: real,
    hyphenationFactor: real,
    baseWritingDirection: WritingDirection)

  /** `NSParagraphStyle.default`, which is also what `NSMutableParagraphStyle()` starts as. */
  const DefaultParagraph := Paragraph(0.0, 0.0, 0.0, Natural, 0.0, 0.0, 0.0, ByWordWrapping, 0.0, 0.0, 0.0, 0.0, NaturalDirection)

  /**
   * What the running platform decides: the system font at the system font
   * size, and the descriptor and trait combinations `withSymbolicTraits`
   * cannot build (it returns nil for those).
   */
  datatype Environment = Environment(systemFont: Font, unsupportedTraits: iset<(FontDescriptor, set<SymbolicTrait>)>)

  predicate SupportsTraits(env: Environment, d: FontDescriptor, traits: set<SymbolicTrait>) {
    (d, traits) !in env.unsupportedTraits
  }

  /** `descriptor.addingAttributes([.featureSettings: settings])`. */
  function AddingFeatureSettings(d: FontDescriptor, settings: seq<FeatureSetting>): FontDescriptor {
    d.(featureSettings := settings)
  }

  /** `descriptor.withSymbolicTraits(traits)`, which replaces the descriptor's traits or fails. */
  function WithSymbolicTraits(env: Environment, d: FontDescriptor, traits: set<SymbolicTrait>): Option<FontDescriptor> {
    if SupportsTraits(env, d, traits) then Some(d.(symbolicTraits := traits)) else None
  }

  /** `UIFont(descriptor:size:)`. */
  function MakeFont(d: FontDescriptor, size: real): Font {
    Font(d, size, None)
  }

  /** `UIFontMetrics.scaledFont(for:maximumPointSize:compatibleWith:)`. */
  function Scaled(f: Font, dynamicText: DynamicText): Font {
    f.(scaledFor := Some(dynamicText))
  }
}
