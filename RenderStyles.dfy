/** Star glyphs and colours: the lookup tables of internal/render/stars.go
    and the style builders of internal/render/styles.go. */
module RenderStyles {
  import opened Wrappers
  import opened GoMath
  import opened RenderCanvas

  /** `magnitudeChars`: glyph by rounded magnitude. */
  const MagnitudeChars: map<int, char> := map[
    -2 := '★', -1 := '✦', 0 := '●', 1 := '◉', 2 := '○', 3 := '◦', 4 := '·', 5 := '⋅', 6 := '·']

  /** The glyph used when the rounded magnitude is not in the table. */
  const FaintChar: char := '·'

  /** `getCharForMagnitude(mag)`. */
  function CharForMagnitude(mag: real): (r: char)
    ensures Round(mag) in MagnitudeChars ==> r == MagnitudeChars[Round(mag)]
    ensures Round(mag) !in MagnitudeChars ==> r == FaintChar
  {
    var k := Round(mag);
    if k in MagnitudeChars then MagnitudeChars[k] else FaintChar
  }

  /** The table covers exactly the rounded magnitudes -2 through 6. */
  lemma MagnitudeTableDomain()
    ensures forall k :: k in MagnitudeChars <==> -2 <= k <= 6
  {
  }

  /** Glyphs for the documented magnitudes, and the rounding at the table's
      edges: halves go away from zero, so -2.5 falls outside the table. */
  lemma CharForMagnitudeExamples()
    ensures CharForMagnitude(-1.46) == '✦'
    ensures CharForMagnitude(0.5) == '◉'
    ensures CharForMagnitude(-0.5) == '✦'
    ensures CharForMagnitude(6.49) == '·'
    ensures CharForMagnitude(-2.5) == FaintChar
    ensures CharForMagnitude(6.5) == FaintChar
  {
    assert Round(-1.46) == -1;
    assert Round(0.5) == 1;
    assert Round(-0.5) == -1;
    assert Round(6.49) == 6;
    assert Round(-2.5) == -3;
    assert Round(6.5) == 7;
  }

  /** `spectralColors`. */
  const SpectralColors: map<char, string> := map[
    'O' := "27", 'B' := "75", 'A' := "231", 'F' := "230", 'G' := "229", 'K' := "214", 'M' := "196"]

  /** The colour used for a spectral type not in the table. */
  const DefaultStarColor: string := "231"

  /** `getColorForSpectralType(t)`. */
  function SpectralColor(t: char): (r: string)
    ensures t in SpectralColors ==> r == SpectralColors[t]
    ensures t !in SpectralColors ==> r == DefaultStarColor
  {
    if t in SpectralColors then SpectralColors[t] else DefaultStarColor
  }

  /** The seven Harvard classes and nothing else have their own colour. */
  lemma SpectralColorTable(t: char)
    ensures t in SpectralColors <==> t in "OBAFGKM"
    ensures SpectralColor('O') == "27" && SpectralColor('B') == "75" && SpectralColor('A') == "231"
    ensures SpectralColor('F') == "230" && SpectralColor('G') == "229" && SpectralColor('K') == "214"
    ensures SpectralColor('M') == "196"
    ensures t !in "OBAFGKM" ==> SpectralColor(t) == "231"
  {
  }

  /** `GetStarStyle(magnitude, spectralType, colorByType)`. */
  function StarStyle(magnitude: real, spectralType: char, colorByType: bool): (r: Style)
    ensures r.bold <==> magnitude < 0.5
    ensures r.foreground == Some(if colorByType then SpectralColor(spectralType) else DefaultStarColor)
    ensures !r.faint
  {
    var s := Foreground(if colorByType then SpectralColor(spectralType) else DefaultStarColor);
    if magnitude < 0.5 then s.(bold := true) else s
  }

  /** Without colouring by type the style does not depend on the type. */
  lemma StarStyleUncoloured(magnitude: real, t: char, u: char)
    ensures StarStyle(magnitude, t, false) == StarStyle(magnitude, u, false)
  {
  }

  /** `GetStarChar(magnitude)` delegates to `getCharForMagnitude`: always
      a glyph of the table, the one of the rounded magnitude from -2 to 6. */
  function StarChar(magnitude: real): (r: char)
    ensures r in MagnitudeChars.Values
    ensures -2 <= Round(magnitude) <= 6 ==> r == MagnitudeChars[Round(magnitude)]
  {
    assert FaintChar == MagnitudeChars[4];
    CharForMagnitude(magnitude)
  }
}
