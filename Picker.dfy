/**
 * The pure parts of src/PaletteColorPicker.js: the gradient-stop loop, the
 * slider settings of each channel, the action each control dispatches, the
 * 0..100 display scale, and the choice of controls for a swatch.
 *
 * `toHex`, `derive` and `lerp` are imported from utils.js, but the version
 * of utils.js modelled here does not define them, so they are parameters:
 * `toHex` turns an HSWL colour into a display colour of some type `C`, and
 * `deriveContrast(c, k)` stands for `derive(c, { contrast: k })`. `lerp` is
 * taken to be a + (b - a) * t.
 */
module Picker {
  import opened Wrappers
  import opened Wcag
  import Palette

  /** The attribute a gradient varies: 'h', 's', 'wl' or 'con' (contrast with the parent). */
  datatype Attr = H | S | WL | Con

  /** An interpolation range. */
  datatype Range = Range(begin: real, end: real)

  /** The number of stops every gradient of the picker uses. */
  const DefaultNumStops: nat := 16

  /** `rangeDefaults`: the default interpolation range of each attribute. */
  function RangeDefault(attr: Attr): (r: Range)
    ensures 0.0 <= r.begin < r.end
    ensures attr == H ==> r == Range(0.0, 360.0)
    ensures attr == S || attr == WL ==> IsLuminance(r.begin) && IsLuminance(r.end) && r.end - r.begin == 1.0
    ensures attr == Con ==> r.begin == 1.0 && r.end == 21.0
  {
    match attr
    case H => Range(0.0, 360.0)
    case S => Range(0.0, 1.0)
    case WL => Range(0.0, 1.0)
    case Con => Range(1.0, 21.0)
  }

  /** `begin ?? default` and `end ?? default`: an explicit bound overrides the default. */
  function ResolveRange(attr: Attr, begin: Option<real>, end: Option<real>): (r: Range)
    ensures begin.Some? ==> r.begin == begin.value
    ensures end.Some? ==> r.end == end.value
    ensures begin.None? ==> r.begin == RangeDefault(attr).begin
    ensures end.None? ==> r.end == RangeDefault(attr).end
  {
    Range(if begin.Some? then begin.value else RangeDefault(attr).begin,
          if end.Some? then end.value else RangeDefault(attr).end)
  }

  /** Linear interpolation, assumed to be a + (b - a) * t. */
  function Lerp(a: real, b: real, t: real): real
  {
    a + (b - a) * t
  }

  /** The value of a colour attribute other than contrast. */
  function Field(c: Hswl, attr: Attr): real
    requires attr != Con
  {
    match attr
    case H => c.h
    case S => c.s
    case WL => c.wl
  }

  /** `{ ...hswl, [attr]: v }`: the colour with one attribute replaced. */
  function WithAttr(c: Hswl, attr: Attr, v: real): (r: Hswl)
    requires attr != Con
    ensures Field(r, attr) == v
    ensures forall a :: a != Con && a != attr ==> Field(r, a) == Field(c, a)
  {
    match attr
    case H => c.(h := v)
    case S => c.(s := v)
    case WL => c.(wl := v)
  }

  /** One gradient stop: a display colour at a position in percent. */
  datatype Stop<C> = Stop(color: C, position: real)

  /** `i / (numStops - 1)`. */
  function Progress(i: nat, numStops: nat): real
    requires numStops >= 2
  {
    i as real / (numStops - 1) as real
  }

  /** The interpolated attribute value of stop `i`. */
  function StopValue(range: Range, numStops: nat, i: nat): real
    requires numStops >= 2
  {
    Lerp(range.begin, range.end, Progress(i, numStops))
  }

  /** The display colour of a stop whose attribute has value `v`. */
  function StopColor<C>(hswl: Hswl, attr: Attr, v: real, toHex: Hswl -> C,
                        deriveContrast: (Hswl, real) -> Hswl): C
  {
    if attr == Con then toHex(deriveContrast(hswl, v)) else toHex(WithAttr(hswl, attr, v))
  }

  /** Stop `i` of a gradient over `range`. */
  function GradientStop<C>(hswl: Hswl, attr: Attr, range: Range, numStops: nat, i: nat,
                           toHex: Hswl -> C, deriveContrast: (Hswl, real) -> Hswl): Stop<C>
    requires numStops >= 2
  {
    Stop(StopColor(hswl, attr, StopValue(range, numStops, i), toHex, deriveContrast),
         Progress(i, numStops) * 100.0)
  }

  /** The stops `getGradient` produces, in loop order. */
  function Gradient<C>(hswl: Hswl, attr: Attr, begin: Option<real>, end: Option<real>, numStops: nat,
                       toHex: Hswl -> C, deriveContrast: (Hswl, real) -> Hswl): seq<Stop<C>>
    requires numStops != 1
  {
    var range := ResolveRange(attr, begin, end);
    seq(numStops, i requires 0 <= i < numStops =>
      GradientStop(hswl, attr, range, numStops, i, toHex, deriveContrast))
  }

  /**
   * `getGradient`: one stop per loop iteration, pushed in order. The CSS text
   * of the stops is not modelled; a stop keeps its colour and position.
   */
  method GetGradient<C>(hswl: Hswl, attr: Attr, begin: Option<real>, end: Option<real>, numStops: nat,
                        toHex: Hswl -> C, deriveContrast: (Hswl, real) -> Hswl)
    returns (stops: seq<Stop<C>>)
    requires numStops != 1
    ensures stops == Gradient(hswl, attr, begin, end, numStops, toHex, deriveContrast)
  {
    var range := ResolveRange(attr, begin, end);
    stops := [];
    for i := 0 to numStops
      invariant |stops| == i
      invariant forall j :: 0 <= j < i ==>
        stops[j] == GradientStop(hswl, attr, range, numStops, j, toHex, deriveContrast)
    {
      var progress := i as real / (numStops - 1) as real;
      var newAttr := Lerp(range.begin, range.end, progress);
      var colorStop := if attr == Con then toHex(deriveContrast(hswl, newAttr))
                       else toHex(WithAttr(hswl, attr, newAttr));
      stops := stops + [Stop(colorStop, progress * 100.0)];
    }
  }

  /**
   * A gradient has exactly `numStops` stops; their positions start at 0%,
   * end at 100% and strictly increase.
   */
  lemma GradientPositions<C>(hswl: Hswl, attr: Attr, begin: Option<real>, end: Option<real>, numStops: nat,
                             toHex: Hswl -> C, deriveContrast: (Hswl, real) -> Hswl)
    requires numStops >= 2
    ensures var g := Gradient(hswl, attr, begin, end, numStops, toHex, deriveContrast);
      |g| == numStops && g[0].position == 0.0 && g[numStops - 1].position == 100.0 &&
      forall i, j :: 0 <= i < j < numStops ==> g[i].position < g[j].position
  {
    var g := Gradient(hswl, attr, begin, end, numStops, toHex, deriveContrast);
    ProgressEnds(numStops);
    forall i, j | 0 <= i < j < numStops
      ensures g[i].position < g[j].position
    {
      ProgressMonotone(i, j, numStops);
    }
  }

  /** Progress runs from 0 at the first stop to 1 at the last. */
  lemma ProgressEnds(numStops: nat)
    requires numStops >= 2
    ensures Progress(0, numStops) == 0.0 && Progress(numStops - 1, numStops) == 1.0
  {
  }

  /** Progress strictly increases with the stop index. */
  lemma ProgressMonotone(i: nat, j: nat, numStops: nat)
    requires i < j && numStops >= 2
    ensures Progress(i, numStops) < Progress(j, numStops)
  {
    var d := (numStops - 1) as real;
    var pj := Progress(j, numStops);
    DivCompare(j as real, d, pj);
    DivCompare(i as real, d, pj);
  }

  /** The first stop shows the range's begin value and the last its end value. */
  lemma GradientEndpoints<C>(hswl: Hswl, attr: Attr, begin: Option<real>, end: Option<real>, numStops: nat,
                             toHex: Hswl -> C, deriveContrast: (Hswl, real) -> Hswl)
    requires numStops >= 2
    ensures var g := Gradient(hswl, attr, begin, end, numStops, toHex, deriveContrast);
      var range := ResolveRange(attr, begin, end);
      g[0].color == StopColor(hswl, attr, range.begin, toHex, deriveContrast) &&
      g[numStops - 1].color == StopColor(hswl, attr, range.end, toHex, deriveContrast)
  {
    var range := ResolveRange(attr, begin, end);
    ProgressEnds(numStops);
    assert StopValue(range, numStops, 0) == range.begin;
    assert StopValue(range, numStops, numStops - 1) == range.end;
  }

  /** Over a range with begin <= end the stop values never decrease along the gradient. */
  lemma StopValuesMonotone(range: Range, numStops: nat, i: nat, j: nat)
    requires numStops >= 2 && i <= j && range.begin <= range.end
    ensures StopValue(range, numStops, i) <= StopValue(range, numStops, j)
  {
    if i < j {
      ProgressMonotone(i, j, numStops);
      MulLe(Progress(i, numStops), Progress(j, numStops), range.end - range.begin);
    }
  }

  /**
   * A gradient over hue, saturation or luminance keeps every other attribute
   * of the colour: stop `i` is the colour with only that attribute replaced.
   */
  lemma GradientVariesOneAttribute<C>(hswl: Hswl, attr: Attr, begin: Option<real>, end: Option<real>,
                                      numStops: nat, i: nat,
                                      toHex: Hswl -> C, deriveContrast: (Hswl, real) -> Hswl)
    requires numStops >= 2 && i < numStops && attr != Con
    ensures var g := Gradient(hswl, attr, begin, end, numStops, toHex, deriveContrast);
      exists c: Hswl :: g[i].color == toHex(c) &&
        Field(c, attr) == StopValue(ResolveRange(attr, begin, end), numStops, i) &&
        forall a :: a != Con && a != attr ==> Field(c, a) == Field(hswl, a)
  {
    var c := WithAttr(hswl, attr, StopValue(ResolveRange(attr, begin, end), numStops, i));
    assert Gradient(hswl, attr, begin, end, numStops, toHex, deriveContrast)[i].color == toHex(c);
  }

  /** `x100Scale`: `Math.round(value * 100)`, where halves round upward. */
  function X100Scale(value: real): (r: int)
    ensures r as real - 0.5 <= value * 100.0 < r as real + 0.5
    ensures 0.0 <= value <= 1.0 ==> 0 <= r <= 100
  {
    (value * 100.0 + 0.5).Floor
  }

  /** The display scale of a slider: x100Scale, hueScale or the identity. */
  datatype Scale = Percent | Degrees | Identity

  /** The action types the picker dispatches. */
  datatype ActionType =
    | ChangedHue | ChangedAdjustHue | ChangedFixHue
    | ChangedSat | ChangedAdjustSat | ChangedFixSat
    | ChangedLum | ChangedContrast | ChangedAdjustLum | ChangedFixLum
    | ChangedHueToggle | ChangedSatToggle | ChangedLumToggle

  /** The `type` string of each action. */
  function TypeName(t: ActionType): (name: string)
    ensures |name| > 8 && name[..8] == "changed_"
    ensures t in {ChangedHueToggle, ChangedSatToggle, ChangedLumToggle} <==>
      |name| > 15 && name[|name| - 7..] == "_toggle"
  {
    match t
    case ChangedHue => "changed_hue"
    case ChangedAdjustHue => "changed_adjust_hue"
    case ChangedFixHue => "changed_fix_hue"
    case ChangedSat => "changed_sat"
    case ChangedAdjustSat => "changed_adjust_sat"
    case ChangedFixSat => "changed_fix_sat"
    case ChangedLum => "changed_lum"
    case ChangedContrast => "changed_contrast"
    case ChangedAdjustLum => "changed_adjust_lum"
    case ChangedFixLum => "changed_fix_lum"
    case ChangedHueToggle => "changed_hue_toggle"
    case ChangedSatToggle => "changed_sat_toggle"
    case ChangedLumToggle => "changed_lum_toggle"
  }

  /** Distinct action types carry distinct `type` strings. */
  lemma TypeNameInjective(t: ActionType, u: ActionType)
    requires TypeName(t) == TypeName(u)
    ensures t == u
  {
  }

  /** A channel of the colour, and the mode a swatch's toggle selects for it. */
  datatype Channel = Hue | Sat | Lum
  datatype Mode = Contrast | Adjust | Fix

  /** The keys of a channel's slider settings: `parent` or one of the modes. */
  datatype SliderKey = Parent | Of(mode: Mode)

  datatype ToggleOpts = ToggleOpts(h: Mode, s: Mode, wl: Mode)

  /** A swatch as the picker reads it. */
  datatype Swatch = Swatch(hswl: Hswl, adjustHswl: Hswl, fixHswl: Hswl, contrast: real,
                           toggleOpts: ToggleOpts, parentId: Option<Palette.SwatchId>)

  /** Only luminance has a contrast slider; every channel has the other three. */
  predicate Offers(ch: Channel, key: SliderKey)
  {
    key != Of(Contrast) || ch == Lum
  }

  /** The action type each slider dispatches. */
  function SliderAction(ch: Channel, key: SliderKey): (t: ActionType)
    requires Offers(ch, key)
    ensures t !in {ChangedHueToggle, ChangedSatToggle, ChangedLumToggle}
    ensures key == Parent <==> t in {ChangedHue, ChangedSat, ChangedLum}
    ensures key == Of(Contrast) <==> t == ChangedContrast
  {
    match (ch, key)
    case (Hue, Parent) => ChangedHue
    case (Hue, Of(Adjust)) => ChangedAdjustHue
    case (Hue, Of(Fix)) => ChangedFixHue
    case (Sat, Parent) => ChangedSat
    case (Sat, Of(Adjust)) => ChangedAdjustSat
    case (Sat, Of(Fix)) => ChangedFixSat
    case (Lum, Parent) => ChangedLum
    case (Lum, Of(Contrast)) => ChangedContrast
    case (Lum, Of(Adjust)) => ChangedAdjustLum
    case (Lum, Of(Fix)) => ChangedFixLum
  }

  /** The action type each channel's mode toggle dispatches. */
  function ToggleAction(ch: Channel): (t: ActionType)
    ensures t in {ChangedHueToggle, ChangedSatToggle, ChangedLumToggle}
  {
    match ch
    case Hue => ChangedHueToggle
    case Sat => ChangedSatToggle
    case Lum => ChangedLumToggle
  }

  /**
   * Every control dispatches its own action type: no two sliders share one,
   * no two toggles share one, and no toggle shares one with a slider.
   */
  lemma ActionTypesDistinct(ch: Channel, key: SliderKey, ch': Channel, key': SliderKey)
    requires Offers(ch, key) && Offers(ch', key')
    ensures SliderAction(ch, key) == SliderAction(ch', key') ==> ch == ch' && key == key'
    ensures ToggleAction(ch) == ToggleAction(ch') ==> ch == ch'
    ensures SliderAction(ch, key) != ToggleAction(ch')
  {
  }

  /** The swatch value a slider shows. */
  function SettingValue(swatch: Swatch, ch: Channel, key: SliderKey): real
  {
    match key
    case Parent => Field(swatch.hswl, AttrOf(ch))
    case Of(Adjust) => Field(swatch.adjustHswl, AttrOf(ch))
    case Of(Fix) => Field(swatch.fixHswl, AttrOf(ch))
    case Of(Contrast) => swatch.contrast
  }

  function AttrOf(ch: Channel): (a: Attr)
    ensures a != Con
  {
    match ch
    case Hue => H
    case Sat => S
    case Lum => WL
  }

  /** The props of one gradient slider (label, range, value, action and gradient). */
  datatype Slider<C> = Slider(labelText: string, min: real, max: real, step: real, scale: Scale,
                              color: C, value: real, action: ActionType, id: Palette.SwatchId,
                              gradient: seq<Stop<C>>)

  /** A channel's sliders; only luminance has a `contrast` entry. */
  datatype ChannelSliders<C> = ChannelSliders(parent: Slider<C>, contrast: Option<Slider<C>>,
                                              adjust: Slider<C>, fix: Slider<C>)

  datatype SliderSettings<C> = SliderSettings(hue: ChannelSliders<C>, sat: ChannelSliders<C>,
                                              lum: ChannelSliders<C>)

  function SlidersOf<C>(settings: SliderSettings<C>, ch: Channel): ChannelSliders<C>
  {
    match ch
    case Hue => settings.hue
    case Sat => settings.sat
    case Lum => settings.lum
  }

  /** `sliderSettings[channel][key]`; `None` where the object has no such key. */
  function SliderFor<C>(settings: SliderSettings<C>, ch: Channel, key: SliderKey): Option<Slider<C>>
  {
    var sliders := SlidersOf(settings, ch);
    match key
    case Parent => Some(sliders.parent)
    case Of(Contrast) => sliders.contrast
    case Of(Adjust) => Some(sliders.adjust)
    case Of(Fix) => Some(sliders.fix)
  }

  /**
   * `getSliderSettings`. Every slider dispatches its channel-and-key action
   * for this swatch's id and shows the matching swatch value; the adjust
   * sliders of saturation and luminance span [-p, 1 - p] for the parent's
   * value p, the adjust-hue slider spans [-180, 180] with a gradient over
   * the parent's hue +/- 180, and the contrast slider spans [1, 21].
   */
  function GetSliderSettings<C>(swatch: Swatch, id: Palette.SwatchId, parentHswl: Hswl,
                                toHex: Hswl -> C, deriveContrast: (Hswl, real) -> Hswl)
    : (r: SliderSettings<C>)
    ensures forall ch, key :: SliderFor(r, ch, key).Some? <==> Offers(ch, key)
    ensures forall ch, key :: Offers(ch, key) ==>
      var s := SliderFor(r, ch, key).value;
      s.action == SliderAction(ch, key) && s.id == id && s.color == toHex(swatch.hswl) &&
      s.value == SettingValue(swatch, ch, key)
    ensures r.hue.parent.min == 0.0 && r.hue.parent.max == 360.0
    ensures r.hue.fix.min == 0.0 && r.hue.fix.max == 360.0
    ensures r.sat.parent.min == 0.0 && r.sat.parent.max == 1.0
    ensures r.sat.fix.min == 0.0 && r.sat.fix.max == 1.0
    ensures r.lum.parent.min == 0.0 && r.lum.parent.max == 1.0
    ensures r.lum.fix.min == 0.0 && r.lum.fix.max == 1.0
    ensures forall ch, key :: Offers(ch, key) && key != Of(Contrast) && !(ch == Hue && key == Of(Adjust)) ==>
      SliderFor(r, ch, key).value.gradient ==
        Gradient(swatch.hswl, AttrOf(ch), None, None, DefaultNumStops, toHex, deriveContrast)
    ensures r.sat.adjust.min == -parentHswl.s && r.sat.adjust.max == 1.0 - parentHswl.s
    ensures r.lum.adjust.min == -parentHswl.wl && r.lum.adjust.max == 1.0 - parentHswl.wl
    ensures r.hue.adjust.min == -180.0 && r.hue.adjust.max == 180.0
    ensures r.hue.adjust.gradient ==
      Gradient(swatch.hswl, H, Some(parentHswl.h - 180.0), Some(parentHswl.h + 180.0), DefaultNumStops,
               toHex, deriveContrast)
    ensures r.lum.contrast.Some? && r.lum.contrast.value.min == 1.0 && r.lum.contrast.value.max == 21.0
    ensures r.lum.contrast.value.gradient ==
      Gradient(swatch.hswl.(wl := parentHswl.wl), Con, None, None, DefaultNumStops, toHex, deriveContrast)
  {
    var swatchColor := toHex(swatch.hswl);
    var hueGradient := Gradient(swatch.hswl, H, None, None, DefaultNumStops, toHex, deriveContrast);
    var satGradient := Gradient(swatch.hswl, S, None, None, DefaultNumStops, toHex, deriveContrast);
    var lumGradient := Gradient(swatch.hswl, WL, None, None, DefaultNumStops, toHex, deriveContrast);
    // defaultSliderSettings: min 0, max 1, step 0.01, x100Scale, the swatch's colour
    var default := Slider("", 0.0, 1.0, 0.01, Percent, swatchColor, 0.0, ChangedHue, id, []);
    SliderSettings(
      ChannelSliders(
        default.(labelText := "Hue", max := 360.0, step := 1.0, scale := Degrees,
                 value := swatch.hswl.h, action := ChangedHue, gradient := hueGradient),
        None,
        default.(labelText := "Adjust Hue", min := -180.0, max := 180.0, step := 1.0, scale := Degrees,
                 value := swatch.adjustHswl.h, action := ChangedAdjustHue,
                 gradient := Gradient(swatch.hswl, H, Some(parentHswl.h - 180.0), Some(parentHswl.h + 180.0),
                                      DefaultNumStops, toHex, deriveContrast)),
        default.(labelText := "Fix Hue", min := 0.0, max := 360.0, step := 1.0, scale := Degrees,
                 value := swatch.fixHswl.h, action := ChangedFixHue, gradient := hueGradient)),
      ChannelSliders(
        default.(labelText := "Saturation", value := swatch.hswl.s, action := ChangedSat, gradient := satGradient),
        None,
        default.(labelText := "Adjust Saturation", min := -parentHswl.s, max := 1.0 - parentHswl.s,
                 value := swatch.adjustHswl.s, action := ChangedAdjustSat, gradient := satGradient),
        default.(labelText := "Fix Saturation", value := swatch.fixHswl.s, action := ChangedFixSat,
                 gradient := satGradient)),
      ChannelSliders(
        default.(labelText := "Luminance", value := swatch.hswl.wl, action := ChangedLum, gradient := lumGradient),
        Some(default.(labelText := "Contrast Ratio", min := 1.0, max := 21.0, step := 0.1, scale := Identity,
                      value := swatch.contrast, action := ChangedContrast,
                      gradient := Gradient(swatch.hswl.(wl := parentHswl.wl), Con, None, None,
                                           DefaultNumStops, toHex, deriveContrast))),
        default.(labelText := "Adjust Luminance", min := -parentHswl.wl, max := 1.0 - parentHswl.wl,
                 value := swatch.adjustHswl.wl, action := ChangedAdjustLum, gradient := lumGradient),
        default.(labelText := "Fix Luminance", value := swatch.fixHswl.wl, action := ChangedFixLum,
                 gradient := lumGradient)))
  }

  /**
   * Any value an adjust-saturation or adjust-luminance slider can take keeps
   * the parent's value plus the adjustment inside [0, 1].
   */
  lemma AdjustStaysInRange<C>(swatch: Swatch, id: Palette.SwatchId, parentHswl: Hswl,
                              toHex: Hswl -> C, deriveContrast: (Hswl, real) -> Hswl,
                              ch: Channel, v: real)
    requires ch != Hue
    requires var s := SliderFor(GetSliderSettings(swatch, id, parentHswl, toHex, deriveContrast), ch, Of(Adjust)).value;
      s.min <= v <= s.max
    ensures 0.0 <= Field(parentHswl, AttrOf(ch)) + v <= 1.0
  {
  }

  /** A mode toggle: its current value, the modes it offers and its action. */
  datatype Control<C> =
    | Toggle(channel: Channel, value: Mode, options: seq<Mode>, action: ActionType, id: Palette.SwatchId)
    | SliderControl(slider: Option<Slider<C>>)

  /** Luminance offers contrast, adjust and fix; hue and saturation only adjust and fix. */
  function ToggleOptions(ch: Channel): (r: seq<Mode>)
    ensures Adjust in r && Fix in r
    ensures Contrast in r <==> ch == Lum
    ensures forall i, j :: 0 <= i < j < |r| ==> r[i] != r[j]
  {
    if ch == Lum then [Contrast, Adjust, Fix] else [Adjust, Fix]
  }

  /** A toggle offers a mode exactly when its channel has a slider for that mode. */
  lemma ToggleOptionsOffered(ch: Channel, m: Mode)
    ensures m in ToggleOptions(ch) <==> Offers(ch, Of(m))
  {
    match m
    case Contrast =>
    case Adjust =>
    case Fix =>
  }

  function ModeOf(t: ToggleOpts, ch: Channel): Mode
  {
    match ch
    case Hue => t.h
    case Sat => t.s
    case Lum => t.wl
  }

  /** The toggle and the slider `PaletteColorPicker` renders for one channel of a child swatch. */
  function ChannelControls<C>(swatch: Swatch, swatchId: Palette.SwatchId, settings: SliderSettings<C>, ch: Channel)
    : seq<Control<C>>
  {
    var mode := ModeOf(swatch.toggleOpts, ch);
    [Toggle(ch, mode, ToggleOptions(ch), ToggleAction(ch), swatchId),
     SliderControl(SliderFor(settings, ch, Of(mode)))]
  }

  /**
   * `PaletteColorPicker`: a swatch with a parent gets, per channel, a mode
   * toggle and the slider its mode selects; a root gets the three `parent`
   * sliders only.
   */
  function Controls<C>(swatch: Swatch, swatchId: Palette.SwatchId, settings: SliderSettings<C>): (r: seq<Control<C>>)
    ensures |r| == if swatch.parentId.Some? then 6 else 3
    ensures forall k :: 0 <= k < |r| && r[k].Toggle? ==> swatch.parentId.Some? && r[k].id == swatchId
    ensures swatch.parentId.None? ==>
      r == [SliderControl(SliderFor(settings, Hue, Parent)), SliderControl(SliderFor(settings, Sat, Parent)),
            SliderControl(SliderFor(settings, Lum, Parent))]
  {
    if swatch.parentId.Some? then
      ChannelControls(swatch, swatchId, settings, Hue) +
      ChannelControls(swatch, swatchId, settings, Sat) +
      ChannelControls(swatch, swatchId, settings, Lum)
    else
      [SliderControl(Some(settings.hue.parent)), SliderControl(Some(settings.sat.parent)),
       SliderControl(Some(settings.lum.parent))]
  }

  const Channels: seq<Channel> := [Hue, Sat, Lum]

  /**
   * For a child swatch each channel shows a toggle over its modes that
   * dispatches the channel's toggle action, and the slider for the selected
   * mode; that slider exists exactly when the channel offers the mode, and
   * then dispatches the mode's action for this swatch. A root shows only the
   * three `parent` sliders, dispatching changed_hue, changed_sat and
   * changed_lum.
   */
  lemma ControlsMatchModes<C>(swatch: Swatch, swatchId: Palette.SwatchId, parentHswl: Hswl,
                              toHex: Hswl -> C, deriveContrast: (Hswl, real) -> Hswl)
    ensures var settings := GetSliderSettings(swatch, swatchId, parentHswl, toHex, deriveContrast);
      var r := Controls(swatch, swatchId, settings);
      if swatch.parentId.Some? then
        |r| == 6 &&
        forall k :: 0 <= k < 3 ==>
          var ch, mode := Channels[k], ModeOf(swatch.toggleOpts, Channels[k]);
          r[2 * k] == Toggle(ch, mode, ToggleOptions(ch), ToggleAction(ch), swatchId) &&
          r[2 * k + 1].SliderControl? &&
          (r[2 * k + 1].slider.Some? <==> Offers(ch, Of(mode))) &&
          (r[2 * k + 1].slider.Some? ==>
             r[2 * k + 1].slider.value.action == SliderAction(ch, Of(mode)) &&
             r[2 * k + 1].slider.value.id == swatchId)
      else
        |r| == 3 &&
        forall k :: 0 <= k < 3 ==>
          r[k].SliderControl? && r[k].slider.Some? &&
          r[k].slider.value.action == SliderAction(Channels[k], Parent) &&
          r[k].slider.value.id == swatchId
  {
    var settings := GetSliderSettings(swatch, swatchId, parentHswl, toHex, deriveContrast);
    if swatch.parentId.Some? {
      var r := Controls(swatch, swatchId, settings);
      forall k | 0 <= k < 3
        ensures r[2 * k] == ChannelControls(swatch, swatchId, settings, Channels[k])[0]
        ensures r[2 * k + 1] == ChannelControls(swatch, swatchId, settings, Channels[k])[1]
      {
      }
    }
  }
}
