/**
 * The selection logic of `src/font/mod.rs`: the style classes read from a
 * font's OS/2 table, the style vector used to compare fonts, the nearest
 * match within a family, the family lookup in the font cache, and the size
 * conversions.
 *
 * `find_best_match` compares Euclidean distances; the model compares squared
 * distances, which order fonts the same way because the square root is
 * strictly increasing on non-negative values. The font cache is a map given
 * as a parameter, and a font is its path and style.
 */
module Fonts {
  import opened Wrappers

  /** `FT_UShort`, the type of the OS/2 weight and width classes. */
  newtype u16 = x: int | 0 <= x < 0x1_0000

  // ---------------------------------------------------------------------------
  // Sizes
  // ---------------------------------------------------------------------------

  const PtPerEm: real := 12.0
  const RenderSizeEm: real := 8.0
  const RenderSizePt: real := RenderSizeEm * PtPerEm

  /** A font size, stored in em. */
  datatype FontSize = FontSize(sizeEm: real)

  function AsPt(f: FontSize): real { f.sizeEm * PtPerEm }
  function AsEm(f: FontSize): real { f.sizeEm }

  /** `FontSize::pt`. */
  function Pt(pt: real): (f: FontSize)
    ensures AsPt(f) == pt
  {
    FontSize(pt / PtPerEm)
  }

  /** `FontSize::em`. */
  function Em(em: real): (f: FontSize)
    ensures AsEm(f) == em
  {
    FontSize(em)
  }

  /** `calculate_font_scale`: the factor from the render size to the requested size. */
  function CalculateFontScale(size: FontSize): (scale: real)
    ensures scale * RenderSizeEm == AsEm(size)
  {
    AsEm(size) / RenderSizeEm
  }

  /** Twelve points make one em, and glyphs rendered at the render size need no scaling. */
  lemma SizeConversions(p: real)
    ensures Pt(PtPerEm) == Em(1.0)
    ensures AsEm(Pt(p)) * PtPerEm == p
    ensures AsPt(Em(AsEm(Pt(p)))) == p
    ensures CalculateFontScale(Pt(RenderSizePt)) == 1.0
    ensures CalculateFontScale(Em(2.0 * RenderSizeEm)) == 2.0
  {
  }

  // ---------------------------------------------------------------------------
  // Buffer alignment
  // ---------------------------------------------------------------------------

  /** `align_size`: `size` rounded up to a multiple of `alignment`. */
  function AlignSize(size: nat, alignment: nat): (r: nat)
    requires alignment > 0
    ensures r % alignment == 0
    ensures size <= r < size + alignment
    ensures size % alignment == 0 ==> r == size
  {
    if size % alignment == 0 then size
    else
      var q := size / alignment;
      assert size == q * alignment + size % alignment;
      DivModUnique(q * alignment + alignment, alignment, q + 1, 0);
      q * alignment + alignment
  }

  /** Euclidean division has one quotient and one remainder. */
  lemma DivModUnique(x: int, a: int, q: int, m: int)
    requires a > 0 && 0 <= m < a && x == q * a + m
    ensures x % a == m
  {
    var q', m' := x / a, x % a;
    assert x == q' * a + m';
    var d := q - q';
    assert d * a == m' - m;
    MulAwayFromZero(d, a);
  }

  /** A non-zero multiple of `a` is at least `a` away from zero. */
  lemma MulAwayFromZero(d: int, a: int)
    requires a > 0
    ensures d == 0 || d * a >= a || d * a <= -a
  {
    if d > 0 {
      MulNonNegative(d - 1, a);
      assert d * a == (d - 1) * a + a;
    } else if d < 0 {
      MulNonNegative(-d - 1, a);
      assert d * a == -((-d - 1) * a + a);
    }
  }

  lemma {:induction false} MulNonNegative(x: int, y: int)
    requires x >= 0 && y >= 0
    ensures x * y >= 0
    decreases x
  {
    if x > 0 {
      MulNonNegative(x - 1, y);
      assert x * y == (x - 1) * y + y;
    }
  }

  /** Aligning an aligned size changes nothing. */
  lemma AlignSizeIdempotent(size: nat, alignment: nat)
    requires alignment > 0
    ensures AlignSize(AlignSize(size, alignment), alignment) == AlignSize(size, alignment)
  {
  }

  // ---------------------------------------------------------------------------
  // Style classes
  // ---------------------------------------------------------------------------

  datatype FontWeight =
    | Thin | ExtraLight | Light | NormalWeight | Medium | SemiBold | Bold | ExtraBold | Black | ExtraBlack

  /** The `repr(u16)` discriminant of a weight. */
  function WeightValue(w: FontWeight): int
  {
    match w
    case Thin => 100
    case ExtraLight => 200
    case Light => 300
    case NormalWeight => 400
    case Medium => 500
    case SemiBold => 600
    case Bold => 700
    case ExtraBold => 800
    case Black => 900
    case ExtraBlack => 1000
  }

  datatype FontWidth =
    | UltraCondensed | ExtraCondensed | Condensed | SemiCondensed | NormalWidth
    | SemiExpanded | Expanded | ExtraExpanded | UltraExpanded

  /** The `repr(u16)` discriminant of a width. */
  function WidthValue(w: FontWidth): int
  {
    match w
    case UltraCondensed => 1
    case ExtraCondensed => 2
    case Condensed => 3
    case SemiCondensed => 4
    case NormalWidth => 5
    case SemiExpanded => 6
    case Expanded => 7
    case ExtraExpanded => 8
    case UltraExpanded => 9
  }

  datatype FontType = NormalType | Italic | Oblique

  /** The `repr(u8)` discriminant of a type. */
  function TypeValue(t: FontType): int
  {
    match t
    case NormalType => 0
    case Italic => 1
    case Oblique => 2
  }

  /**
   * `From<FT_UShort> for FontWeight`: the weight class goes to the nearest
   * hundred, halves rounding up, with everything below 150 thin and
   * everything from 850 black. `ExtraBlack` is never produced.
   */
  function WeightFromClass(value: u16): (w: FontWeight)
    ensures w != ExtraBlack
    ensures value <= 149 ==> w == Thin
    ensures value >= 850 ==> w == Black
    ensures 150 <= value <= 849 ==> WeightValue(w) - 50 <= value as int <= WeightValue(w) + 49
  {
    if value <= 149 then Thin
    else if value <= 249 then ExtraLight
    else if value <= 349 then Light
    else if value <= 449 then NormalWeight
    else if value <= 549 then Medium
    else if value <= 649 then SemiBold
    else if value <= 749 then Bold
    else if value <= 849 then ExtraBold
    else Black
  }

  /** A heavier weight class never maps to a lighter weight. */
  lemma WeightFromClassMonotone(a: u16, b: u16)
    requires a <= b
    ensures WeightValue(WeightFromClass(a)) <= WeightValue(WeightFromClass(b))
  {
  }

  /** Every weight but `ExtraBlack` is read back from its own discriminant. */
  lemma WeightRoundTrip(w: FontWeight)
    requires w != ExtraBlack
    ensures WeightFromClass(WeightValue(w) as u16) == w
  {
  }

  /** `From<FT_UShort> for FontWidth`: the width class clamped to 1..9. */
  function WidthFromClass(value: u16): (w: FontWidth)
    ensures WidthValue(w) == if value < 1 then 1 else if value > 9 then 9 else value as int
  {
    if value <= 1 then UltraCondensed
    else if value == 2 then ExtraCondensed
    else if value == 3 then Condensed
    else if value == 4 then SemiCondensed
    else if value == 5 then NormalWidth
    else if value == 6 then SemiExpanded
    else if value == 7 then Expanded
    else if value == 8 then ExtraExpanded
    else UltraExpanded
  }

  /** Every width is read back from its own discriminant. */
  lemma WidthRoundTrip(w: FontWidth)
    ensures WidthFromClass(WidthValue(w) as u16) == w
  {
  }

  // ---------------------------------------------------------------------------
  // Style distance
  // ---------------------------------------------------------------------------

  datatype FontStyle = FontStyle(weight: FontWeight, width: FontWidth, fontType: FontType)

  /** The derived `Default`: normal weight, width and type. */
  function FontStyleDefault(): FontStyle { FontStyle(NormalWeight, NormalWidth, NormalType) }

  /**
   * A point of the style space. Every component `vectorize` computes is a
   * whole number (weights are multiples of 100), so the model keeps them in
   * integers; `VectorizeAgreesWithFloatFormula` relates them to the source's
   * floating-point expression.
   */
  datatype Vec3 = Vec3(x: int, y: int, z: int)

  /** `FontStyle::vectorize`. */
  function Vectorize(s: FontStyle): Vec3
  {
    Vec3((WidthValue(s.width) - WidthValue(NormalWidth)) * 11,
         TypeValue(s.fontType) * 7,
         (WeightValue(s.weight) - WeightValue(NormalWeight)) / 100 * 5)
  }

  /** The integer components are the source's `as f32` arithmetic, evaluated exactly. */
  lemma VectorizeAgreesWithFloatFormula(s: FontStyle)
    ensures Vectorize(s).x as real == (WidthValue(s.width) - WidthValue(NormalWidth)) as real * 11.0
    ensures Vectorize(s).y as real == TypeValue(s.fontType) as real * 7.0
    ensures Vectorize(s).z as real == (WeightValue(s.weight) - WeightValue(NormalWeight)) as real / 100.0 * 5.0
  {
  }

  function SquaredDistance(a: Vec3, b: Vec3): (d: int)
    ensures d >= 0
  {
    (a.x - b.x) * (a.x - b.x) + (a.y - b.y) * (a.y - b.y) + (a.z - b.z) * (a.z - b.z)
  }

  /** How far a font's style is from the query, squared. */
  function StyleDistance(query: FontStyle, style: FontStyle): int
  {
    SquaredDistance(Vectorize(query), Vectorize(style))
  }

  /** The default style sits at the origin of the style space. */
  lemma DefaultStyleIsOrigin()
    ensures Vectorize(FontStyleDefault()) == Vec3(0, 0, 0)
  {
  }

  /** Distinct styles have distinct vectors, so only the query's own style is at distance zero. */
  lemma DistanceZeroIffSameStyle(query: FontStyle, style: FontStyle)
    ensures StyleDistance(query, style) == 0 <==> query == style
  {
    var a, b := Vectorize(query), Vectorize(style);
    SquaredDistanceZero(a, b);
    if a == b {
      VectorizeInjective(query, style);
    }
  }

  /** Two style vectors are at distance zero exactly when they are equal. */
  lemma SquaredDistanceZero(a: Vec3, b: Vec3)
    ensures SquaredDistance(a, b) == 0 <==> a == b
  {
    SquareCases(a.x - b.x);
    SquareCases(a.y - b.y);
    SquareCases(a.z - b.z);
  }

  lemma VectorizeInjective(s: FontStyle, t: FontStyle)
    requires Vectorize(s) == Vectorize(t)
    ensures s == t
  {
    assert WidthValue(s.width) == WidthValue(t.width);
    assert WeightValue(s.weight) == WeightValue(t.weight);
    assert TypeValue(s.fontType) == TypeValue(t.fontType);
    DiscriminantsInjective(s, t);
  }

  lemma DiscriminantsInjective(s: FontStyle, t: FontStyle)
    requires WidthValue(s.width) == WidthValue(t.width)
    requires WeightValue(s.weight) == WeightValue(t.weight)
    requires TypeValue(s.fontType) == TypeValue(t.fontType)
    ensures s == t
  {
  }

  /** A square is zero at zero and positive elsewhere. */
  lemma SquareCases(x: int)
    ensures x * x >= 0
    ensures x != 0 ==> x * x > 0
  {
  }

  // ---------------------------------------------------------------------------
  // Choosing a font
  // ---------------------------------------------------------------------------

  datatype Font = Font(path: string, style: FontStyle)
  datatype FontFamily = FontFamily(name: string, fonts: seq<Font>)
  datatype FontError = NotFound

  /**
   * Font `k` is the one `find_best_match` settles on: nothing is nearer the
   * query, and every font before it is strictly farther.
   */
  predicate IsBestMatch(fonts: seq<Font>, query: FontStyle, k: int)
  {
    0 <= k < |fonts| &&
    (forall j :: 0 <= j < |fonts| ==> StyleDistance(query, fonts[k].style) <= StyleDistance(query, fonts[j].style)) &&
    (forall j :: 0 <= j < k ==> StyleDistance(query, fonts[j].style) > StyleDistance(query, fonts[k].style))
  }

  /** At most one font is the best match, so the choice is determined by the family's order. */
  lemma BestMatchUnique(fonts: seq<Font>, query: FontStyle, k1: int, k2: int)
    requires IsBestMatch(fonts, query, k1) && IsBestMatch(fonts, query, k2)
    ensures k1 == k2
  {
    var d1, d2 := StyleDistance(query, fonts[k1].style), StyleDistance(query, fonts[k2].style);
    assert d1 <= d2 && d2 <= d1;
  }

  /** When the family has the queried style, the best match has exactly that style. */
  lemma ExactStyleWins(fonts: seq<Font>, query: FontStyle, k: int, e: int)
    requires IsBestMatch(fonts, query, k)
    requires 0 <= e < |fonts| && fonts[e].style == query
    ensures fonts[k].style == query
    ensures k <= e
  {
    DistanceZeroIffSameStyle(query, fonts[e].style);
    DistanceZeroIffSameStyle(query, fonts[k].style);
  }

  /**
   * `FontFamily::find_best_match`: a single pass that keeps the first font
   * and afterwards replaces it only by a strictly nearer one.
   */
  method FindBestMatch(family: FontFamily, query: FontStyle) returns (r: Result<Font, FontError>)
    ensures r.Err? <==> |family.fonts| == 0
    ensures r.Ok? ==> exists k :: IsBestMatch(family.fonts, query, k) && family.fonts[k] == r.value
  {
    var fonts := family.fonts;
    var queryVector := Vectorize(query);
    var bestFont: Option<Font> := None;
    var bestDistance := 0;
    ghost var bestIndex := 0;
    for i := 0 to |fonts|
      invariant bestFont.None? <==> i == 0
      invariant bestFont.Some? ==>
        bestIndex < i && bestFont.value == fonts[bestIndex] &&
        bestDistance == StyleDistance(query, fonts[bestIndex].style) &&
        (forall j :: 0 <= j < i ==> bestDistance <= StyleDistance(query, fonts[j].style)) &&
        (forall j :: 0 <= j < bestIndex ==> StyleDistance(query, fonts[j].style) > bestDistance)
    {
      var delta := SquaredDistance(queryVector, Vectorize(fonts[i].style));
      if bestFont.Some? {
        if delta < bestDistance {
          bestFont, bestDistance, bestIndex := Some(fonts[i]), delta, i;
        }
      } else {
        bestFont, bestDistance, bestIndex := Some(fonts[i]), delta, i;
      }
    }
    match bestFont
    case Some(font) =>
      assert IsBestMatch(fonts, query, bestIndex);
      r := Ok(font);
    case None =>
      r := Err(NotFound);
  }

  function RegularFont(): Font { Font("regular.ttf", FontStyle(NormalWeight, NormalWidth, NormalType)) }
  function BoldFont(): Font { Font("bold.ttf", FontStyle(Bold, NormalWidth, NormalType)) }
  function LightFont(): Font { Font("light.ttf", FontStyle(Light, NormalWidth, NormalType)) }
  function MediumFont(): Font { Font("medium.ttf", FontStyle(Medium, NormalWidth, NormalType)) }

  /** In a family of two, the first font is the best match unless the second is strictly nearer. */
  lemma BestOfTwo(fonts: seq<Font>, query: FontStyle)
    requires |fonts| == 2
    requires StyleDistance(query, fonts[0].style) <= StyleDistance(query, fonts[1].style)
    ensures IsBestMatch(fonts, query, 0)
  {
  }

  /** Whatever `find_best_match` returns for a family of two where the first font is not farther. */
  lemma FirstOfTwoChosen(fonts: seq<Font>, query: FontStyle, f: Font)
    requires |fonts| == 2
    requires StyleDistance(query, fonts[0].style) <= StyleDistance(query, fonts[1].style)
    requires exists k :: IsBestMatch(fonts, query, k) && fonts[k] == f
    ensures f == fonts[0]
  {
    BestOfTwo(fonts, query);
    var k :| IsBestMatch(fonts, query, k) && fonts[k] == f;
    BestMatchUnique(fonts, query, k, 0);
  }

  /** A medium (500) query between a regular (400) and a bold (700) font picks the regular one. */
  method MediumPrefersRegularOverBold() returns (r: Result<Font, FontError>)
    ensures r == Ok(RegularFont())
  {
    var fonts := [RegularFont(), BoldFont()];
    var query := FontStyle(Medium, NormalWidth, NormalType);
    assert Vectorize(query) == Vec3(0, 0, 5);
    assert Vectorize(RegularFont().style) == Vec3(0, 0, 0) && Vectorize(BoldFont().style) == Vec3(0, 0, 15);
    r := FindBestMatch(FontFamily("Sans", fonts), query);
    FirstOfTwoChosen(fonts, query, r.value);
  }

  /**
   * A regular (400) query between a medium (500) and a light (300) font is a
   * tie, and the font listed first wins.
   */
  method TieGoesToFirstListed() returns (r: Result<Font, FontError>)
    ensures r == Ok(MediumFont())
  {
    var fonts := [MediumFont(), LightFont()];
    var query := FontStyleDefault();
    assert Vectorize(query) == Vec3(0, 0, 0);
    assert Vectorize(MediumFont().style) == Vec3(0, 0, 5) && Vectorize(LightFont().style) == Vec3(0, 0, -5);
    r := FindBestMatch(FontFamily("Sans", fonts), query);
    FirstOfTwoChosen(fonts, query, r.value);
  }

  // ---------------------------------------------------------------------------
  // The font cache
  // ---------------------------------------------------------------------------

  /** ASCII lowercasing of one character. */
  function LowerChar(c: char): char
  {
    if 'A' <= c <= 'Z' then (c as int + 32) as char else c
  }

  /** `to_lowercase`, restricted to ASCII letters. */
  function Lowercase(s: string): string
  {
    seq(|s|, i requires 0 <= i < |s| => LowerChar(s[i]))
  }

  /** Lowercasing twice is lowercasing once, and it never changes the length. */
  lemma LowercaseIdempotent(s: string)
    ensures |Lowercase(s)| == |s|
    ensures Lowercase(Lowercase(s)) == Lowercase(s)
  {
  }

  /** The names `cache_fonts` files families under are lowercased. */
  predicate KeysLowercase(cache: map<string, FontFamily>)
  {
    forall key :: key in cache ==> Lowercase(key) == key
  }

  /** The family `find_best_font` consults for a `FamilyName` query. */
  function FamilyFor(cache: map<string, FontFamily>, familyName: string): Option<FontFamily>
  {
    var key := Lowercase(familyName);
    if key in cache then Some(cache[key]) else None
  }

  /**
   * The lookup ignores ASCII case: names that lowercase alike find the same
   * family, and every cached family is found under its own key.
   */
  lemma FamilyForIgnoresCase(cache: map<string, FontFamily>, a: string, b: string)
    requires KeysLowercase(cache)
    ensures Lowercase(a) == Lowercase(b) ==> FamilyFor(cache, a) == FamilyFor(cache, b)
    ensures a in cache ==> FamilyFor(cache, a) == Some(cache[a])
    ensures FamilyFor(cache, a).Some? <==> exists key :: key in cache && Lowercase(key) == Lowercase(a)
  {
    if exists key :: key in cache && Lowercase(key) == Lowercase(a) {
      var key :| key in cache && Lowercase(key) == Lowercase(a);
      assert Lowercase(a) == key;
    }
  }

  /**
   * `find_best_font` for a `FamilyName` query: the nearest font of the family
   * filed under the lowercased name; an unknown family or an empty one is an
   * error.
   */
  method FindBestFont(cache: map<string, FontFamily>, familyName: string, style: FontStyle)
    returns (r: Result<Font, FontError>)
    ensures r.Ok? <==> FamilyFor(cache, familyName).Some? && |FamilyFor(cache, familyName).value.fonts| > 0
    ensures r.Ok? ==> exists k :: IsBestMatch(FamilyFor(cache, familyName).value.fonts, style, k) &&
                                  FamilyFor(cache, familyName).value.fonts[k] == r.value
  {
    var key := Lowercase(familyName);
    var bestFont: Option<Font> := None;
    if key in cache {
      var found := FindBestMatch(cache[key], style);
      match found
      case Err(e) =>
        return Err(e);
      case Ok(font) =>
        bestFont := Some(font);
    }
    match bestFont
    case Some(font) =>
      r := Ok(font);
    case None =>
      r := Err(NotFound);
  }
}
