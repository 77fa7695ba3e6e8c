/**
 * Tracking, ligatures, emphasis flags and the font-feature encoders of
 * Source/Attributes/CommonsAttributes.swift.
 *
 * Each encoder turns a typed feature request into an ordered list of
 * (feature type, selector) pairs of Apple's Font Feature Registry (TrueType
 * Reference Manual, Appendix F); the constants below carry the registry's
 * numbers as the SDK header SFNTLayoutTypes.h defines them.
 */
module Features {
  import opened Wrappers
  import opened Platform

  // Feature type 6, Number Spacing.
  const kNumberSpacingType := 6
  const kMonospacedNumbersSelector := 0
  const kProportionalNumbersSelector := 1
  // Feature type 10, Vertical Position.
  const kVerticalPositionType := 10
  const kNormalPositionSelector := 0
  const kSuperiorsSelector := 1
  const kInferiorsSelector := 2
  const kOrdinalsSelector := 3
  const kScientificInferiorsSelector := 4
  // Feature type 11, Fractions.
  const kFractionsType := 11
  const kNoFractionsSelector := 0
  const kVerticalFractionsSelector := 1
  const kDiagonalFractionsSelector := 2
  // Feature type 21, Number Case.
  const kNumberCaseType := 21
  const kLowerCaseNumbersSelector := 0
  const kUpperCaseNumbersSelector := 1
  // Feature type 35, Stylistic Alternatives: alternative n (1..20) is on with selector 2n, off with 2n+1.
  const kStylisticAlternativesType := 35
  // Feature type 36, Contextual Alternates.
  const kContextualAlternatesType := 36
  const kContextualAlternatesOnSelector := 0
  const kContextualAlternatesOffSelector := 1
  const kSwashAlternatesOnSelector := 2
  const kSwashAlternatesOffSelector := 3
  const kContextualSwashAlternatesOnSelector := 4
  const kContextualSwashAlternatesOffSelector := 5
  // Feature types 37 and 38, Lower Case and Upper Case.
  const kLowerCaseType := 37
  const kDefaultLowerCaseSelector := 0
  const kLowerCaseSmallCapsSelector := 1
  const kUpperCaseType := 38
  const kDefaultUpperCaseSelector := 0
  const kUpperCaseSmallCapsSelector := 1

  /** kStylisticAltOneOnSelector .. kStylisticAltTwentyOnSelector. */
  function StylisticAltOnSelector(n: nat): int
    requires 1 <= n <= 20
  {
    2 * n
  }

  /** kStylisticAltOneOffSelector .. kStylisticAltTwentyOffSelector. */
  function StylisticAltOffSelector(n: nat): int
    requires 1 <= n <= 20
  {
    2 * n + 1
  }

  /** One `(type: Int, selector: Int)` tuple. */
  datatype FeaturePair = FeaturePair(featureType: int, selector: int)

  // ----- Tracking -----

  /** Tracking in points, or in thousandths of an em as Adobe's type panel gives it. */
  datatype Tracking = Point(kern: real) | Adobe(value: real)

  /** `Tracking.kerning(for:)`: the kern value for a font, 0 when an Adobe value has no font to scale by. */
  function Kerning(t: Tracking, font: Option<Font>): (k: real)
    ensures t.Point? ==> k == t.kern
    ensures t.Adobe? && font.None? ==> k == 0.0
    ensures t.Adobe? && font.Some? && t.value == 0.0 ==> k == 0.0
  {
    match t
    case Point(kern) => kern
    case Adobe(value) =>
      if font.None? then 0.0 else font.value.pointSize * (value / 1000.0)
  }

  // ----- Ligature -----

  /** `Ligature` on UIKit (the AppKit-only `all` case is not part of this model). */
  datatype Ligature = LigatureDisabled | LigatureDefault

  function LigatureRawValue(l: Ligature): (raw: int)
    ensures raw == 0 <==> l == LigatureDisabled
    ensures raw == 1 <==> l == LigatureDefault
  {
    match l
    case LigatureDisabled => 0
    case LigatureDefault => 1
  }

  // ----- Enumerated features -----

  datatype NumberCase = UpperNumbers | LowerNumbers

  function NumberCaseFeature(c: NumberCase): (pairs: seq<FeaturePair>)
    ensures |pairs| == 1 && pairs[0].featureType == kNumberCaseType
    ensures pairs[0].selector == kUpperCaseNumbersSelector <==> c == UpperNumbers
    ensures pairs[0].selector == kLowerCaseNumbersSelector <==> c == LowerNumbers
  {
    match c
    case UpperNumbers => [FeaturePair(kNumberCaseType, kUpperCaseNumbersSelector)]
    case LowerNumbers => [FeaturePair(kNumberCaseType, kLowerCaseNumbersSelector)]
  }

  datatype NumberSpacing = Monospaced | Proportional

  function NumberSpacingFeature(s: NumberSpacing): (pairs: seq<FeaturePair>)
    ensures |pairs| == 1 && pairs[0].featureType == kNumberSpacingType
    ensures pairs[0].selector == kMonospacedNumbersSelector <==> s == Monospaced
    ensures pairs[0].selector == kProportionalNumbersSelector <==> s == Proportional
  {
    match s
    case Monospaced => [FeaturePair(kNumberSpacingType, kMonospacedNumbersSelector)]
    case Proportional => [FeaturePair(kNumberSpacingType, kProportionalNumbersSelector)]
  }

  datatype Fractions = NoFractions | DiagonalFractions | VerticalFractions

  function FractionsFeature(f: Fractions): (pairs: seq<FeaturePair>)
    ensures |pairs| == 1 && pairs[0].featureType == kFractionsType
    ensures pairs[0].selector == kNoFractionsSelector <==> f == NoFractions
    ensures pairs[0].selector == kDiagonalFractionsSelector <==> f == DiagonalFractions
    ensures pairs[0].selector == kVerticalFractionsSelector <==> f == VerticalFractions
  {
    var selector :=
      match f
      case NoFractions => kNoFractionsSelector
      case DiagonalFractions => kDiagonalFractionsSelector
      case VerticalFractions => kVerticalFractionsSelector;
    [FeaturePair(kFractionsType, selector)]
  }

  /** Distinct fraction settings select distinct selectors, so the selector identifies the case. */
  lemma FractionsSelectorsDistinct(f: Fractions, g: Fractions)
    ensures FractionsFeature(f)[0].selector == FractionsFeature(g)[0].selector <==> f == g
  {
  }

  datatype VerticalPosition = NormalPosition | Superscript | Subscript | Ordinals | ScientificInferiors

  function VerticalPositionFeature(v: VerticalPosition): (pairs: seq<FeaturePair>)
    ensures |pairs| == 1 && pairs[0].featureType == kVerticalPositionType
    ensures pairs[0].selector == kNormalPositionSelector <==> v == NormalPosition
    ensures pairs[0].selector == kSuperiorsSelector <==> v == Superscript
    ensures pairs[0].selector == kInferiorsSelector <==> v == Subscript
    ensures pairs[0].selector == kOrdinalsSelector <==> v == Ordinals
    ensures pairs[0].selector == kScientificInferiorsSelector <==> v == ScientificInferiors
  {
    var selector :=
      match v
      case NormalPosition => kNormalPositionSelector
      case Superscript => kSuperiorsSelector
      case Subscript => kInferiorsSelector
      case Ordinals => kOrdinalsSelector
      case ScientificInferiors => kScientificInferiorsSelector;
    [FeaturePair(kVerticalPositionType, selector)]
  }

  /** Distinct vertical positions select distinct selectors. */
  lemma VerticalPositionSelectorsDistinct(v: VerticalPosition, w: VerticalPosition)
    ensures VerticalPositionFeature(v)[0].selector == VerticalPositionFeature(w)[0].selector <==> v == w
  {
  }

  datatype SmallCaps = SmallCapsDisabled | FromUppercase | FromLowercase

  function SmallCapsFeature(s: SmallCaps): (pairs: seq<FeaturePair>)
    ensures s == SmallCapsDisabled <==> |pairs| == 2
    ensures s != SmallCapsDisabled <==> |pairs| == 1
    ensures s == SmallCapsDisabled ==>
      pairs == [FeaturePair(kLowerCaseType, kDefaultLowerCaseSelector), FeaturePair(kUpperCaseType, kDefaultUpperCaseSelector)]
    ensures s == FromUppercase ==> pairs == [FeaturePair(kUpperCaseType, kUpperCaseSmallCapsSelector)]
    ensures s == FromLowercase ==> pairs == [FeaturePair(kLowerCaseType, kLowerCaseSmallCapsSelector)]
  {
    match s
    case SmallCapsDisabled =>
      [FeaturePair(kLowerCaseType, kDefaultLowerCaseSelector), FeaturePair(kUpperCaseType, kDefaultUpperCaseSelector)]
    case FromUppercase => [FeaturePair(kUpperCaseType, kUpperCaseSmallCapsSelector)]
    case FromLowercase => [FeaturePair(kLowerCaseType, kLowerCaseSmallCapsSelector)]
  }

  /** The `FontFeatureConstructor` values a style description can hold. */
  datatype FeatureConstructor =
    | NumberCaseConstructor(numberCase: NumberCase)
    | NumberSpacingConstructor(numberSpacing: NumberSpacing)
    | FractionsConstructor(fractions: Fractions)
    | VerticalPositionConstructor(position: VerticalPosition)
    | SmallCapsConstructor(smallCaps: SmallCaps)

  /** `featureConstruct()`, dispatched on the constructor's type. */
  function FeatureConstruct(c: FeatureConstructor): (pairs: seq<FeaturePair>)
    ensures !c.SmallCapsConstructor? ==> |pairs| == 1
    ensures 1 <= |pairs| <= 2
  {
    match c
    case NumberCaseConstructor(n) => NumberCaseFeature(n)
    case NumberSpacingConstructor(n) => NumberSpacingFeature(n)
    case FractionsConstructor(f) => FractionsFeature(f)
    case VerticalPositionConstructor(v) => VerticalPositionFeature(v)
    case SmallCapsConstructor(s) => SmallCapsFeature(s)
  }

  // ----- attributes(): pairs as feature-setting dictionaries -----

  /**
   * One pair as the dictionary `attributes()` builds. On UIKit the source's
   * FontFeatureTypeIdentifierKey is `.featureIdentifier` and its
   * FontFeatureSelectorIdentifierKey is `.typeIdentifier`.
   */
  function SettingOf(p: FeaturePair): FeatureSetting {
    map[FeatureIdentifier := p.featureType, TypeIdentifier := p.selector]
  }

  /** Reads a pair back out of a feature-setting dictionary, if it has both keys. */
  function PairOf(s: FeatureSetting): Option<FeaturePair> {
    if FeatureIdentifier in s && TypeIdentifier in s then Some(FeaturePair(s[FeatureIdentifier], s[TypeIdentifier])) else None
  }

  /** `attributes()` on a list of constructed pairs: one dictionary per pair. */
  function SettingsOf(pairs: seq<FeaturePair>): (settings: seq<FeatureSetting>)
    ensures |settings| == |pairs|
    ensures forall i :: 0 <= i < |pairs| ==> settings[i].Keys == {FeatureIdentifier, TypeIdentifier}
    ensures forall i :: 0 <= i < |pairs| ==> PairOf(settings[i]) == Some(pairs[i])
  {
    seq(|pairs|, i requires 0 <= i < |pairs| => SettingOf(pairs[i]))
  }

  /** Decoding the dictionaries gives back the pairs, in order. */
  function PairsOf(settings: seq<FeatureSetting>): seq<Option<FeaturePair>> {
    seq(|settings|, i requires 0 <= i < |settings| => PairOf(settings[i]))
  }

  lemma SettingsRoundTrip(pairs: seq<FeaturePair>)
    ensures PairsOf(SettingsOf(pairs)) == seq(|pairs|, i requires 0 <= i < |pairs| => Some(pairs[i]))
  {
  }

  /** `FontFeatureConstructor.attributes()`. */
  function Attributes(c: FeatureConstructor): seq<FeatureSetting> {
    SettingsOf(FeatureConstruct(c))
  }

  /** Concatenation of the settings of a list of constructors (`flatMap { $0.attributes() }`). */
  function FlatAttributes(cs: seq<FeatureConstructor>): seq<FeatureSetting> {
    if cs == [] then [] else Attributes(cs[0]) + FlatAttributes(cs[1..])
  }

  /** The settings list is empty exactly when there is no constructor, since each constructor yields at least one pair. */
  lemma {:induction false} FlatAttributesEmpty(cs: seq<FeatureConstructor>)
    ensures FlatAttributes(cs) == [] <==> cs == []
    ensures |FlatAttributes(cs)| >= |cs|
  {
    if cs != [] {
      FlatAttributesEmpty(cs[1..]);
    }
  }

  lemma {:induction false} FlatAttributesAppend(a: seq<FeatureConstructor>, b: seq<FeatureConstructor>)
    ensures FlatAttributes(a + b) == FlatAttributes(a) + FlatAttributes(b)
  {
    if a == [] {
      assert a + b == b;
    } else {
      assert (a + b)[1..] == a[1..] + b;
      FlatAttributesAppend(a[1..], b);
    }
  }

  // ----- Contextual and stylistic alternates -----

  datatype ContextualAlternate = ContextualAlternates | SwashAlternates | ContextualSwashAlternates

  /** The three flags in the order the encoder visits them. */
  const ContextualOrder: seq<ContextualAlternate> := [ContextualAlternates, SwashAlternates, ContextualSwashAlternates]

  function ContextualOnSelector(a: ContextualAlternate): int {
    match a
    case ContextualAlternates => kContextualAlternatesOnSelector
    case SwashAlternates => kSwashAlternatesOnSelector
    case ContextualSwashAlternates => kContextualSwashAlternatesOnSelector
  }

  function ContextualOffSelector(a: ContextualAlternate): int {
    match a
    case ContextualAlternates => kContextualAlternatesOffSelector
    case SwashAlternates => kSwashAlternatesOffSelector
    case ContextualSwashAlternates => kContextualSwashAlternatesOffSelector
  }

  /**
   * `ContextualAlternates.featureConstruct()`: one on-or-off selector per flag,
   * always three pairs, the i-th on exactly when the i-th flag is in the set.
   */
  method ContextualAlternatesFeature(flags: set<ContextualAlternate>) returns (pairs: seq<FeaturePair>)
    ensures |pairs| == 3
    ensures forall i :: 0 <= i < 3 ==> pairs[i].featureType == kContextualAlternatesType
    ensures forall i :: 0 <= i < 3 ==>
      (pairs[i].selector == ContextualOnSelector(ContextualOrder[i]) <==> ContextualOrder[i] in flags)
    ensures forall i :: 0 <= i < 3 ==>
      (pairs[i].selector == ContextualOffSelector(ContextualOrder[i]) <==> ContextualOrder[i] !in flags)
  {
    var selector: seq<int> := [];
    selector := selector + [if ContextualAlternates in flags then kContextualAlternatesOnSelector else kContextualAlternatesOffSelector];
    selector := selector + [if SwashAlternates in flags then kSwashAlternatesOnSelector else kSwashAlternatesOffSelector];
    selector := selector + [if ContextualSwashAlternates in flags then kContextualSwashAlternatesOnSelector else kContextualSwashAlternatesOffSelector];
    pairs := seq(|selector|, i requires 0 <= i < |selector| => FeaturePair(kContextualAlternatesType, selector[i]));
  }

  /**
   * `StylisticAlternatives.featureConstruct()`: the option set is the set of
   * its raw value's bit positions; alternatives one..twenty are bits 0..19,
   * visited in that order, one pair each. The source writes the twenty appends
   * out one after another; here they are one loop.
   */
  method StylisticAlternativesFeature(bits: set<nat>) returns (pairs: seq<FeaturePair>)
    ensures |pairs| == 20
    ensures forall i :: 0 <= i < 20 ==> pairs[i].featureType == kStylisticAlternativesType
    ensures forall i :: 0 <= i < 20 ==>
      (pairs[i].selector == StylisticAltOnSelector(i + 1) <==> i in bits)
    ensures forall i :: 0 <= i < 20 ==>
      (pairs[i].selector == StylisticAltOffSelector(i + 1) <==> i !in bits)
  {
    var selector: seq<int> := [];
    for n := 1 to 21
      invariant |selector| == n - 1
      invariant forall i :: 0 <= i < n - 1 ==>
        selector[i] == if i in bits then StylisticAltOnSelector(i + 1) else StylisticAltOffSelector(i + 1)
    {
      selector := selector + [if n - 1 in bits then StylisticAltOnSelector(n) else StylisticAltOffSelector(n)];
    }
    pairs := seq(|selector|, i requires 0 <= i < |selector| => FeaturePair(kStylisticAlternativesType, selector[i]));
  }

  // ----- Emphasis flags and symbolic traits -----

  datatype Emphasis = Italic | Bold | Expanded | Condensed | MonoSpace | Vertical | UIOptimized | TightLeading | LooseLeading

  /** The trait bit each emphasis flag stands for. */
  function TraitOf(e: Emphasis): SymbolicTrait {
    match e
    case Italic => TraitItalic
    case Bold => TraitBold
    case Expanded => TraitExpanded
    case Condensed => TraitCondensed
    case MonoSpace => TraitMonoSpace
    case Vertical => TraitVertical
    case UIOptimized => TraitUIOptimized
    case TightLeading => TraitTightLeading
    case LooseLeading => TraitLooseLeading
  }

  /** The inverse reading: which flag, if any, a trait bit comes from. */
  function EmphasisOf(t: SymbolicTrait): Option<Emphasis> {
    match t
    case TraitItalic => Some(Italic)
    case TraitBold => Some(Bold)
    case TraitExpanded => Some(Expanded)
    case TraitCondensed => Some(Condensed)
    case TraitMonoSpace => Some(MonoSpace)
    case TraitVertical => Some(Vertical)
    case TraitUIOptimized => Some(UIOptimized)
    case TraitTightLeading => Some(TightLeading)
    case TraitLooseLeading => Some(LooseLeading)
    case OtherTrait(_) => None
  }

  lemma TraitOfRoundTrip(e: Emphasis)
    ensures EmphasisOf(TraitOf(e)) == Some(e)
  {
  }

  /** The image of a flag set under TraitOf: the specification of `symbolicTraits`. */
  function TraitsOf(flags: set<Emphasis>): set<SymbolicTrait> {
    set e | e in flags :: TraitOf(e)
  }

  /**
   * `EmphasizeStyle.symbolicTraits`: starts from the empty trait set and
   * inserts one trait for each flag the style contains.
   */
  method SymbolicTraits(flags: set<Emphasis>) returns (traits: set<SymbolicTrait>)
    ensures traits == TraitsOf(flags)
  {
    traits := {};
    for i := 0 to |EmphasisOrder|
      invariant traits == TraitsOf(set e | e in flags && e in EmphasisOrder[..i])
    {
      ghost var tested := set e | e in flags && e in EmphasisOrder[..i];
      assert EmphasisOrder[..i + 1] == EmphasisOrder[..i] + [EmphasisOrder[i]];
      if EmphasisOrder[i] in flags {
        assert (set e | e in flags && e in EmphasisOrder[..i + 1]) == tested + {EmphasisOrder[i]};
        traits := traits + {TraitOf(EmphasisOrder[i])};
      } else {
        assert (set e | e in flags && e in EmphasisOrder[..i + 1]) == tested;
      }
    }
    assert EmphasisOrder[..|EmphasisOrder|] == EmphasisOrder;
    forall e | e in flags ensures e in EmphasisOrder {
      EmphasisOrderComplete(e);
    }
    assert (set e | e in flags && e in EmphasisOrder) == flags;
  }

  /** The nine flags in the order `symbolicTraits` tests them. */
  const EmphasisOrder: seq<Emphasis> := [Italic, Bold, Expanded, Condensed, MonoSpace, Vertical, UIOptimized, TightLeading, LooseLeading]

  lemma EmphasisOrderComplete(e: Emphasis)
    ensures e in EmphasisOrder
  {
  }

  /** Adding one flag adds exactly its trait. */
  lemma TraitsOfAdd(s: set<Emphasis>, e: Emphasis)
    ensures TraitsOf(s + {e}) == TraitsOf(s) + {TraitOf(e)}
  {
  }

  /** A flag is in the set exactly when its trait is in the image; no other-bit trait is ever produced. */
  lemma TraitsOfMembership(flags: set<Emphasis>)
    ensures forall e :: e in flags <==> TraitOf(e) in TraitsOf(flags)
    ensures forall t :: t in TraitsOf(flags) ==> EmphasisOf(t).Some? && EmphasisOf(t).value in flags
  {
    forall e | TraitOf(e) in TraitsOf(flags) ensures e in flags {
      var e' :| e' in flags && TraitOf(e') == TraitOf(e);
      TraitOfRoundTrip(e);
      TraitOfRoundTrip(e');
    }
  }

  lemma TraitsOfEmpty()
    ensures TraitsOf({}) == {}
  {
  }

  /** `symbolicTraits` distributes over union. */
  lemma TraitsOfUnion(a: set<Emphasis>, b: set<Emphasis>)
    ensures TraitsOf(a + b) == TraitsOf(a) + TraitsOf(b)
  {
  }

  /** Exactly one trait per flag: the trait set is as large as the flag set. */
  lemma {:induction false} TraitsOfCardinality(flags: set<Emphasis>)
    ensures |TraitsOf(flags)| == |flags|
    decreases |flags|
  {
    if flags != {} {
      var e :| e in flags;
      var rest := flags - {e};
      TraitsOfCardinality(rest);
      TraitsOfMembership(rest);
      assert TraitOf(e) !in TraitsOf(rest);
      TraitsOfUnion(rest, {e});
      assert rest + {e} == flags;
      assert TraitsOf({e}) == {TraitOf(e)};
    }
  }
}
