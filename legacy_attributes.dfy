/**
 * What EasyTextKit/Attributes/CommonsAttributes.swift adds to the encoders it
 * shares with the newer tree: the `Hyphenation` factor and reading a stored
 * ligature back. Its `Tracking`, `Ligature`, feature enumerations,
 * `attributes()` and `symbolicTraits` have the same cases, constants and
 * order as the newer ones and are the members of module `Features`.
 */
module LegacyAttributes {
  import opened Wrappers
  import opened Features

  /** `Hyphenation`, a `Float` raw-valued enumeration. */
  datatype Hyphenation = HyphenationDisabled | HyphenationDefault

  function HyphenationRawValue(h: Hyphenation): (factor: real)
    ensures factor == 0.0 <==> h == HyphenationDisabled
    ensures factor == 1.0 <==> h == HyphenationDefault
  {
    match h
    case HyphenationDisabled => 0.0
    case HyphenationDefault => 1.0
  }

  /** How `TextStyle.hyphenation` reads a paragraph's factor: exactly 1 is on, anything else is off. */
  function HyphenationOf(factor: real): (h: Hyphenation)
    ensures h == HyphenationDefault <==> factor == 1.0
  {
    if factor == 1.0 then HyphenationDefault else HyphenationDisabled
  }

  /** Writing a hyphenation value and reading it back gives the same value. */
  lemma HyphenationRoundTrip(h: Hyphenation)
    ensures HyphenationOf(HyphenationRawValue(h)) == h
  {
  }

  /** Reading then writing normalises any factor to 0 or 1. */
  lemma HyphenationNormalises(factor: real)
    ensures HyphenationRawValue(HyphenationOf(factor)) == (if factor == 1.0 then 1.0 else 0.0)
  {
  }

  /** `Ligature(rawValue:)`: only 0 and 1 name a case. */
  function LigatureFromRaw(raw: int): (l: Option<Ligature>)
    ensures l.Some? <==> raw == 0 || raw == 1
    ensures l.Some? ==> LigatureRawValue(l.value) == raw
  {
    if raw == 0 then Some(LigatureDisabled)
    else if raw == 1 then Some(LigatureDefault)
    else None
  }

  /** Storing a ligature's raw value and reading it back gives the ligature. */
  lemma LigatureRoundTrip(l: Ligature)
    ensures LigatureFromRaw(LigatureRawValue(l)) == Some(l)
  {
  }
}
