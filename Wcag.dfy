/**
 * Colour arithmetic of src/utils.js: clamping, the WCAG 2.x contrast ratio
 * (section "contrast ratio" of the WCAG 2.1 glossary, used by Success
 * Criterion 1.4.3) and its inverse, and the rejection loop that draws a
 * random colour with enough contrast headroom.
 *
 * Everything is stated over exact reals. A colour is reduced to what the
 * contrast math reads of it: its WCAG relative luminance `wl` in [0, 1].
 */
module Wcag {
  import opened Wrappers

  /** An HSWL colour: hue in degrees, saturation and WCAG relative luminance. */
  datatype Hswl = Hswl(h: real, s: real, wl: real)

  /** A JavaScript number as `attr || 0` sees it: `undefined`, `NaN`, or a value. */
  datatype JsNum = Undefined | NaN | Num(value: real)

  /** Luminances of pure black and pure white. */
  const Black: real := 0.0
  const White: real := 1.0

  /** The cut-off below which the lighter contrast candidate is preferred. */
  const Midpoint: real := 0.1791104

  /** The contrast floor that `randomColor` demands of its result. */
  const MinRandomContrast: real := 7.0

  function Min(a: real, b: real): real { if a <= b then a else b }
  function Max(a: real, b: real): real { if a >= b then a else b }

  /**
   * `normalize01`: clamp into [0, 1]; the falsy inputs (undefined, NaN and 0)
   * all give 0.
   */
  function Normalize01(attr: JsNum): (r: real)
    ensures 0.0 <= r <= 1.0
    ensures attr.Num? && 0.0 <= attr.value <= 1.0 ==> r == attr.value
    ensures attr.Num? && attr.value < 0.0 ==> r == 0.0
    ensures attr.Num? && attr.value > 1.0 ==> r == 1.0
    ensures !attr.Num? ==> r == 0.0
  {
    var x := if attr.Num? then attr.value else 0.0;
    Max(0.0, Min(x, 1.0))
  }

  /** Clamping is idempotent: a normalised value normalises to itself. */
  lemma Normalize01Idempotent(attr: JsNum)
    ensures Normalize01(Num(Normalize01(attr))) == Normalize01(attr)
  {
  }

  predicate IsLuminance(x: real) { 0.0 <= x <= 1.0 }

  /**
   * WCAG contrast ratio of two relative luminances, (L1 + 0.05) / (L2 + 0.05)
   * with L1 the lighter one; this is what tinycolor's `readability` computes.
   */
  function ContrastRatio(a: real, b: real): (r: real)
    requires IsLuminance(a) && IsLuminance(b)
    ensures 1.0 <= r <= 21.0
    ensures r == 1.0 <==> a == b
  {
    var hi, lo := Max(a, b), Min(a, b);
    RatioBounds(hi, lo);
    (hi + 0.05) / (lo + 0.05)
  }

  lemma RatioBounds(hi: real, lo: real)
    requires 0.0 <= lo <= hi <= 1.0
    ensures 1.0 <= (hi + 0.05) / (lo + 0.05) <= 21.0
    ensures (hi + 0.05) / (lo + 0.05) == 1.0 <==> hi == lo
  {
    DivCompare(hi + 0.05, lo + 0.05, 1.0);
    DivCompare(hi + 0.05, lo + 0.05, 21.0);
  }

  /** The contrast ratio does not depend on the order of its arguments. */
  lemma ContrastRatioSymmetric(a: real, b: real)
    requires IsLuminance(a) && IsLuminance(b)
    ensures ContrastRatio(a, b) == ContrastRatio(b, a)
  {
  }

  /** Comparing a quotient with a value, for a positive divisor. */
  lemma DivCompare(a: real, b: real, c: real)
    requires b > 0.0
    ensures a / b < c <==> a < c * b
    ensures a / b <= c <==> a <= c * b
    ensures a / b == c <==> a == c * b
    ensures c < a / b <==> c * b < a
    ensures c <= a / b <==> c * b <= a
  {
    var q := a / b;
    assert q * b == a;
    assert q * b - c * b == (q - c) * b;
  }

  /** Multiplying by a non-negative factor keeps an inequality. */
  lemma MulLe(a: real, b: real, k: real)
    requires 0.0 <= k && a <= b
    ensures a * k <= b * k
  {
    assert b * k - a * k == (b - a) * k;
  }

  /** `maxContrast`: the larger of the ratios against black and against white. */
  function MaxContrast(wl: real): (r: real)
    requires IsLuminance(wl)
    ensures 1.0 <= r <= 21.0
    ensures r >= ContrastRatio(wl, Black) && r >= ContrastRatio(wl, White)
    ensures r == ContrastRatio(wl, Black) || r == ContrastRatio(wl, White)
  {
    Max(ContrastRatio(wl, Black), ContrastRatio(wl, White))
  }

  /**
   * No luminance is poor in both directions: the product of the two ratios is
   * always 21, so the better of them is at least the square root of 21.
   */
  lemma MaxContrastAtLeastRoot21(wl: real)
    requires IsLuminance(wl)
    ensures MaxContrast(wl) * MaxContrast(wl) >= 21.0
  {
    var x := wl + 0.05;
    var toBlack, toWhite := ContrastRatio(wl, Black), ContrastRatio(wl, White);
    assert toBlack == x / 0.05;
    assert toWhite == 1.05 / x;
    assert toBlack * toWhite == 21.0;
    var m := MaxContrast(wl);
    if m == toBlack {
      assert m * m >= m * toWhite;
    } else {
      assert m * m >= toBlack * m;
    }
  }

  /** The three luminances `getContrastLuminance` returns. */
  datatype ContrastLuminances = ContrastLuminances(light: real, dark: real, best: real)

  /** The lighter candidate before clamping: c * (wl + 0.05) - 0.05. */
  function LightTarget(wl: real, contrast: real): real
  {
    contrast * (wl + 0.05) - 0.05
  }

  /** The darker candidate before clamping: (wl + 0.05) / c - 0.05. */
  function DarkTarget(wl: real, contrast: real): real
    requires contrast != 0.0
  {
    (wl + 0.05) / contrast - 0.05
  }

  /**
   * `getContrastLuminance`, given the base colour's luminance `wl`.
   * A contrast of 0 divides by zero; JavaScript then yields +Infinity, which
   * clamps to 1.
   */
  function GetContrastLuminance(wl: real, contrast: real): (out: ContrastLuminances)
    requires IsLuminance(wl)
    ensures IsLuminance(out.light) && IsLuminance(out.dark)
    ensures wl < Midpoint ==> out.best == out.light
    ensures wl >= Midpoint ==> out.best == out.dark
  {
    var light := Normalize01(Num(LightTarget(wl, contrast)));
    var dark := if contrast == 0.0 then 1.0 else Normalize01(Num(DarkTarget(wl, contrast)));
    ContrastLuminances(light, dark, if wl < Midpoint then light else dark)
  }

  /**
   * For a ratio of at least 1 the candidates bracket the base luminance,
   * and a ratio of exactly 1 returns the base luminance three times.
   */
  lemma LightDarkBracket(wl: real, contrast: real)
    requires IsLuminance(wl) && contrast >= 1.0
    ensures var out := GetContrastLuminance(wl, contrast);
      out.dark <= wl <= out.light
    ensures contrast == 1.0 ==> GetContrastLuminance(wl, contrast) == ContrastLuminances(wl, wl, wl)
  {
    var x := wl + 0.05;
    MulLe(1.0, contrast, x);
    assert LightTarget(wl, contrast) >= wl;
    DivCompare(x, contrast, x);
    assert contrast != 0.0 && DarkTarget(wl, contrast) <= wl;
  }

  /**
   * The lighter candidate reaches the requested ratio when it needs no
   * clamping, i.e. when c * (wl + 0.05) <= 1.05; otherwise it is white and
   * falls short of c.
   */
  lemma LightAchieves(wl: real, contrast: real)
    requires IsLuminance(wl) && contrast >= 1.0
    ensures var light := GetContrastLuminance(wl, contrast).light;
      IsLuminance(light) &&
      (if LightTarget(wl, contrast) <= 1.0
       then ContrastRatio(light, wl) == contrast
       else light == White && ContrastRatio(light, wl) < contrast)
  {
    LightDarkBracket(wl, contrast);
    var x := wl + 0.05;
    var light := GetContrastLuminance(wl, contrast).light;
    if LightTarget(wl, contrast) <= 1.0 {
      assert light + 0.05 == contrast * x;
      DivCompare(contrast * x, x, contrast);
    } else {
      DivCompare(1.05, x, contrast);
    }
  }

  /**
   * The darker candidate reaches the requested ratio when it needs no
   * clamping, i.e. when c <= (wl + 0.05) / 0.05; otherwise it is black and
   * falls short of c.
   */
  lemma DarkAchieves(wl: real, contrast: real)
    requires IsLuminance(wl) && contrast >= 1.0
    ensures var dark := GetContrastLuminance(wl, contrast).dark;
      IsLuminance(dark) &&
      (if DarkTarget(wl, contrast) >= 0.0
       then ContrastRatio(wl, dark) == contrast
       else dark == Black && ContrastRatio(wl, dark) < contrast)
  {
    LightDarkBracket(wl, contrast);
    var x := wl + 0.05;
    var q := x / contrast;
    DivCompare(x, contrast, q);
    DivCompare(x, contrast, 0.05);
    if q >= 0.05 {
      DivCompare(x, q, contrast);
    }
  }

  /**
   * The ratio that the `best` candidate's own direction can reach at most:
   * against white below the midpoint, against black from it on.
   */
  function Headroom(wl: real): (r: real)
    requires IsLuminance(wl)
    ensures r <= MaxContrast(wl)
  {
    if wl < Midpoint then ContrastRatio(White, wl) else ContrastRatio(wl, Black)
  }

  /**
   * The `best` luminance achieves the requested ratio, capped at the headroom
   * of its direction: callers may rely on a lower bound, never on more.
   */
  lemma BestAchieves(wl: real, contrast: real)
    requires IsLuminance(wl) && contrast >= 1.0
    ensures var best := GetContrastLuminance(wl, contrast).best;
      IsLuminance(best) && ContrastRatio(wl, best) == Min(contrast, Headroom(wl))
  {
    var x := wl + 0.05;
    var out := GetContrastLuminance(wl, contrast);
    if wl < Midpoint {
      assert out.best == out.light;
      LightAchieves(wl, contrast);
      ContrastRatioSymmetric(wl, out.light);
      assert Headroom(wl) == 1.05 / x;
      DivCompare(1.05, x, contrast);
    } else {
      assert out.best == out.dark;
      DarkAchieves(wl, contrast);
      assert Headroom(wl) == x / 0.05;
      DivCompare(x, contrast, 0.05);
    }
  }

  /** Below the midpoint white is the better partner, so the headroom is the maximum. */
  lemma HeadroomBelowMidpoint(wl: real)
    requires IsLuminance(wl) && wl < Midpoint
    ensures Headroom(wl) == MaxContrast(wl)
  {
    var x := wl + 0.05;
    MulLe(x, 0.2291104, x);
    assert x * x < 0.0525;
    DivCompare(1.05, x, 20.0 * x);
  }

  /**
   * From the true crossover on, where (wl + 0.05)^2 = 0.0525 at about
   * 0.1791288 (slightly above `Midpoint`), black is the better partner, so
   * the headroom is again the maximum.
   */
  lemma HeadroomAboveCrossover(wl: real)
    requires IsLuminance(wl) && (wl + 0.05) * (wl + 0.05) >= 0.0525
    ensures Headroom(wl) == MaxContrast(wl)
  {
    var x := wl + 0.05;
    if wl < Midpoint {
      MulLe(x, 0.2291104, x);
      assert false;
    }
    DivCompare(1.05, x, 20.0 * x);
  }

  /**
   * In the sliver from `Midpoint` up to the true crossover, `best` heads
   * toward black although white allows more contrast, so the headroom of
   * `best`'s direction falls short of the maximum.
   */
  lemma MidpointSliver(wl: real)
    requires IsLuminance(wl) && Midpoint <= wl && (wl + 0.05) * (wl + 0.05) < 0.0525
    ensures GetContrastLuminance(wl, 21.0).best == GetContrastLuminance(wl, 21.0).dark
    ensures ContrastRatio(wl, Black) < ContrastRatio(wl, White)
    ensures Headroom(wl) < MaxContrast(wl)
  {
    var x := wl + 0.05;
    assert ContrastRatio(wl, Black) == x / 0.05;
    assert ContrastRatio(wl, White) == 1.05 / x;
    DivCompare(1.05, x, 20.0 * x);
  }

  /**
   * `randomColor`: draw colours until one reaches a maximum contrast of 7.
   * `draws` stands for the successive results of tinycolor's random source;
   * `None` means the given draws ran out before one passed.
   */
  method RandomColor(draws: seq<Hswl>) returns (color: Option<Hswl>)
    requires forall i :: 0 <= i < |draws| ==> IsLuminance(draws[i].wl)
    ensures color.Some? ==>
      exists k :: (0 <= k < |draws| && color.value == draws[k] &&
                   MaxContrast(draws[k].wl) >= MinRandomContrast &&
                   forall j :: 0 <= j < k ==> MaxContrast(draws[j].wl) < MinRandomContrast)
    ensures color.None? <==> forall i :: 0 <= i < |draws| ==> MaxContrast(draws[i].wl) < MinRandomContrast
  {
    var i := 0;
    while i < |draws|
      invariant 0 <= i <= |draws|
      invariant forall j :: 0 <= j < i ==> MaxContrast(draws[j].wl) < MinRandomContrast
    {
      var candidate := draws[i];
      if MaxContrast(candidate.wl) >= MinRandomContrast {
        return Some(candidate);
      }
      i := i + 1;
    }
    return None;
  }
}
