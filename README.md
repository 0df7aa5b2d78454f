# Instint palette core in Dafny

A verified model of the colour arithmetic and palette bookkeeping of the
Instint palette-design tool, a React app that builds a colour palette around
accessibility contrast.

- `Wcag.dfy` (src/utils.js): `normalize01`, the WCAG 2.x contrast ratio of
  two relative luminances (what tinycolor's `readability` computes), its
  inverse `getContrastLuminance`, `maxContrast`, and the `randomColor`
  rejection loop. All arithmetic is over exact reals. A colour is reduced to
  its WCAG relative luminance `wl`.
- `Picker.dfy` (src/PaletteColorPicker.js): the `getGradient` stop loop, the
  slider settings built by `getSliderSettings`, the action type each control
  dispatches, `x100Scale`, and the controls `PaletteColorPicker` renders for a
  child swatch or a root swatch.
- `Palette.dfy` (src/App.js): the id-keyed swatch map with its `nextId`
  counter as a class, the "Add Swatch" and click handlers as methods, and
  `computeColor`.
- `Wrappers.dfy`: the `Option` type used for `null`/`undefined`.

`derive`, `toHex` and `lerp` are imported from src/utils.js, but the version
of src/utils.js modelled here does not define them. `derive` and `toHex` are
therefore parameters. `toHex` is a
function `Hswl -> C` into some display-colour type, and
`deriveContrast(c, k)` stands for `derive(c, { contrast: k })`. `lerp(a, b, t)`
is taken to be `a + (b - a) * t`. That is an assumption, because its body is
not available. Random draws are parameters too: the colour list
for `randomColor`, and the new colour for a click.

The threshold 0.1791104 that picks the lighter or the darker candidate sits
slightly below the luminance where contrast against black equals contrast
against white, which is about 0.1791288, where (wl + 0.05)^2 = 0.0525. For
every luminance below 0.1791104, and from the crossover on, the headroom of
`best`'s direction equals `maxContrast` (`HeadroomBelowMidpoint`,
`HeadroomAboveCrossover`). From 0.1791104 up to the crossover, `best` heads
toward black although white allows more contrast, so its headroom falls short
of `maxContrast` (`MidpointSliver`). Together the three lemmas cover every
luminance.

## Model

| member | source | states |
|---|---|---|
| `Wcag.Normalize01` | src/utils.js:40-43 | The result lies in [0, 1]. It is the input itself on [0, 1], 0 below, 1 above, and 0 for undefined or NaN. |
| `Wcag.Normalize01Idempotent` | src/utils.js:41-43 | Normalising a normalised value changes nothing. |
| `Wcag.ContrastRatio` | src/utils.js:5 | The readability ratio of two luminances lies in [1, 21]. It is 1 exactly when the luminances are equal. |
| `Wcag.ContrastRatioSymmetric` | src/utils.js:5 | The readability ratio does not depend on argument order. |
| `Wcag.MaxContrast` | src/utils.js:3-6 | The result lies in [1, 21]. It is one of the ratios against black and white, and at least each of them. |
| `Wcag.MaxContrastAtLeastRoot21` | src/utils.js:3-6 | The square of the maximum contrast is at least 21, so no colour is poor against both black and white. |
| `Wcag.GetContrastLuminance` | src/utils.js:17-38 | `light` and `dark` lie in [0, 1]. `best` is `light` exactly when `wl < 0.1791104` and `dark` otherwise. |
| `Wcag.LightDarkBracket` | src/utils.js:28-29 | For ratio c >= 1, `dark <= wl <= light`. For c = 1 all three results equal `wl`. |
| `Wcag.LightAchieves` | src/utils.js:17-28 | An unclamped `light` gives exactly ratio c against `wl`. A clamped one is white and gives less than c. |
| `Wcag.DarkAchieves` | src/utils.js:17-29 | An unclamped `dark` gives exactly ratio c against `wl`. A clamped one is black and gives less than c. |
| `Wcag.Headroom` | src/utils.js:30-36 | The most contrast the chosen direction can reach is at most `maxContrast`. |
| `Wcag.BestAchieves` | src/utils.js:17-36 | `best` achieves the minimum of c and the headroom of its direction, never more. |
| `Wcag.HeadroomBelowMidpoint` | src/utils.js:30-34 | Below the threshold, the lighter direction's headroom equals `maxContrast`. |
| `Wcag.HeadroomAboveCrossover` | src/utils.js:30-36 | From the crossover on, where (wl + 0.05)^2 >= 0.0525 (about 0.1791288), the darker direction's headroom equals `maxContrast`. |
| `Wcag.MidpointSliver` | src/utils.js:30-36 | For every luminance from 0.1791104 up to the crossover, `best` is `dark` although white gives more contrast than black, so the headroom is below `maxContrast`. |
| `Wcag.RandomColor` | src/utils.js:8-15 | The returned colour is the first draw with `maxContrast >= 7`, and every earlier draw is below 7. Nothing is returned exactly when no draw passes. |
| `Picker.RangeDefault` | src/PaletteColorPicker.js:195-200 | Each default range is non-empty and starts at 0 or above. Hue spans [0, 360], saturation and luminance span [0, 1], and contrast spans [1, 21]. |
| `Picker.ResolveRange` | src/PaletteColorPicker.js:194-204 | A given bound overrides the attribute's default range: h 0..360, s and wl 0..1, con 1..21. A missing bound takes the default. |
| `Picker.WithAttr` | src/PaletteColorPicker.js:219 | The varied attribute takes the new value. Every other attribute keeps its value. |
| `Picker.GetGradient` | src/PaletteColorPicker.js:187-225 | The loop pushes exactly the stops of `Gradient`, in order: stop i is at progress i/(numStops-1), with the interpolated attribute's colour. |
| `Picker.GradientPositions` | src/PaletteColorPicker.js:208-221 | With numStops >= 2 there are numStops stops. Positions start at 0%, end at 100% and strictly increase. |
| `Picker.ProgressMonotone` | src/PaletteColorPicker.js:209-210 | The progress i/(numStops-1) strictly increases with i. |
| `Picker.GradientEndpoints` | src/PaletteColorPicker.js:203-219 | The first stop shows the range's begin value and the last stop its end value. |
| `Picker.StopValuesMonotone` | src/PaletteColorPicker.js:209-212 | Over a range with begin <= end, the stop values never decrease. |
| `Picker.GradientVariesOneAttribute` | src/PaletteColorPicker.js:214-219 | A non-contrast gradient's stop is the input colour with only the varied attribute changed, to the stop's value. |
| `Picker.X100Scale` | src/PaletteColorPicker.js:162-166 | The result is the integer within one half of value*100, rounding halves up. It lies in 0..100 for values in [0, 1]. |
| `Picker.TypeName` | src/PaletteColorPicker.js:35-270 | Every action `type` string starts with "changed_". It ends with "_toggle" exactly for the three toggle actions. |
| `Picker.SliderAction` | src/PaletteColorPicker.js:35-153 | A slider never dispatches a toggle action. The parent sliders dispatch exactly changed_hue, changed_sat and changed_lum, and only the contrast slider dispatches changed_contrast. |
| `Picker.ToggleAction` | src/PaletteColorPicker.js:242-274 | Each channel's mode toggle dispatches one of the three toggle actions. |
| `Picker.TypeNameInjective` | src/PaletteColorPicker.js:35-270 | Distinct action types carry distinct `type` strings. |
| `Picker.ActionTypesDistinct` | src/PaletteColorPicker.js:25-274 | Each (channel, slider) pair and each channel toggle dispatches its own action type. No two controls share one. |
| `Picker.GetSliderSettings` | src/PaletteColorPicker.js:11-158 | A slider exists for each channel/key pair offered: contrast only on luminance. Each slider dispatches its pair's action with the swatch id and shows the matching swatch value. Hue parent and fix sliders span [0, 360]; saturation and luminance parent and fix sliders span [0, 1]. Those sliders, and the saturation and luminance adjust sliders, show the attribute's default-range gradient. Adjust ranges are [-p, 1-p] for saturation and luminance, and [-180, 180] for hue with gradient over parent hue ±180. Contrast spans [1, 21] with a contrast gradient from the parent's luminance. |
| `Picker.AdjustStaysInRange` | src/PaletteColorPicker.js:85-144 | Any value in an adjust-saturation or adjust-luminance slider's range keeps parent value plus adjustment inside [0, 1]. |
| `Picker.ToggleOptions` | src/PaletteColorPicker.js:284-302 | Every toggle offers adjust and fix, with no mode listed twice. Only the luminance toggle offers contrast. |
| `Picker.ToggleOptionsOffered` | src/PaletteColorPicker.js:284-302 | A channel's toggle offers a mode exactly when that channel has a slider for it. Luminance offers contrast/adjust/fix, hue and saturation adjust/fix. |
| `Picker.Controls` | src/PaletteColorPicker.js:276-316 | A swatch with a parent gets six controls, and a root gets three. Only a swatch with a parent gets toggles, and each carries the swatch's id. A root's controls are exactly its hue, saturation and luminance parent sliders. |
| `Picker.ControlsMatchModes` | src/PaletteColorPicker.js:242-316 | A child swatch gets, per channel, a toggle dispatching that channel's toggle action and the slider its mode selects. That slider is present exactly when the mode is offered, and dispatches the mode's action with the swatch id. A root gets only the three parent sliders. |
| `Palette.WellFormedParentsResolve` | src/App.js:13-17 | In a well-formed map every parent reference resolves, and key `nextId` is unused. |
| `Palette.ComputeColor` | src/App.js:80-82 | The displayed colour is the colour of some entry in the map: the swatch's own or another. |
| `Palette.ComputeColorOneLevel` | src/App.js:80-82 | The displayed colour depends only on the swatch's entry and its parent's entry. |
| `Palette.DisplayedColors` | src/App.js:76-82 | The root shows its own colour. Every other swatch shows the root's colour, or its own when the root's colour is empty. |
| `Palette.AddSwatchPreserves` | src/App.js:52-58 | Adding keeps the map well formed with `nextId + 1`. It adds exactly key `nextId` and leaves every existing entry unchanged. |
| `Palette.RecolorPreserves` | src/App.js:23-35 | A click keeps the map well formed with the same keys. It changes only the clicked swatch's colour and keeps its parent. |
| `Palette.RootColorShownEverywhere` | src/App.js:23-82 | A click recolouring the root changes every swatch's display to the new colour. A newly added swatch displays the root's colour, not its own hard-coded "#00ff00", while the root's colour is non-empty. |
| `Palette.App.constructor` | src/App.js:13-21 | The map starts with key 0 only, with no parent. `nextId` starts at the key count, 1, and `lastColor` at "#000000". The invariant holds. |
| `Palette.App.AddSwatch` | src/App.js:52-58 | Inserts key `nextId` (previously absent) with colour "#00ff00" and parent 0, then increments `nextId`. `lastColor` is unchanged and the invariant is kept. |
| `Palette.App.HandleSwatchClick` | src/App.js:23-35 | Sets the clicked swatch's colour and `lastColor` to the new colour. Nothing else changes, and the invariant is kept. |

## Left out

- Rendering: JSX, MUI components, the toggle button captions, `GradientSlider` and the other presentation files carry no logic.
- tinycolor internals are foreign code: `random`, `toHswl`, `getOriginalInput`, `readability`, `toHexString`. A colour's luminance is an input, and readability is the WCAG ratio formula.
- Floating point: all constants and formulas are exact reals. IEEE rounding, Infinity and NaN are not modelled, except for the two cases below.
- `Wcag.Normalize01`: only undefined, NaN and numbers are represented. `null`, `false` and `""` behave like undefined in the source.
- `Wcag.GetContrastLuminance`: a contrast of 0 is modelled as JavaScript's +Infinity clamping to 1. The base luminance is assumed to be in [0, 1], as tinycolor's `toHswl` guarantees.
- `Wcag.RandomColor`: the random source is a finite list of draws, and the result is `None` when no draw passes. The source would keep drawing, and its termination is not modelled.
- `Picker.GetGradient`: requires `numStops != 1`. With one stop the source divides 0 by 0, and every position is NaN. Every caller uses the default of 16.
- `getGradient` with an attribute other than h, s, wl or con is not representable. If `begin` or `end` is null, the source throws a TypeError on the default-range lookup. With both bounds given, the lookup is skipped, and each stop's colour gains a new key through `{ ...hswl, [attr]: newAttr }`.
- The CSS text of a gradient (`linear-gradient(...)`, the `%` suffix) and `hueScale`'s degree label are string formatting. A stop is a (colour, position) pair instead.
- `onChange` closures: a slider or toggle is modelled by the action type and id it dispatches. The event value it forwards is not modelled.
- The bodies of `derive`, `toHex` and `lerp` are not part of this model. The first two are parameters, and `lerp` is assumed linear.
- src/Swatch.js applies `toHex` to its `hswl` prop, and `derive` with constant options to that prop. It holds no logic of its own.
- `Palette.App.HandleSwatchClick`: requires the id to be a key of the map. Clicks come only from swatches rendered from `Object.keys(swatches)`. A click on an absent key would add a parentless entry in the source.
- React state semantics are not modelled: asynchronous `setState`, batching and stale closures. Each event is applied to the current state.
- JavaScript object keys are strings, and the model uses natural numbers for ids.
- Palette module: the module-level `nextId` of src/App.js is a field of the `App` class here.
