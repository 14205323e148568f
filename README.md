# shared_theme density scaler, modelled in Dafny

`lib/scale/scale.js` defines one object, `SharedThemeDart`. At page load it
reads the device pixel ratio and writes two CSS custom properties on the
document root's inline style so that stylesheets can convert logical units
into device pixels:

- `--px-per-dp`: device pixels per density-independent pixel,
  `ratio * 96 / dpPerInch` with `dpPerInch = 160`, i.e. three fifths of the ratio;
- `--px-per-sp`: device pixels per scale-independent (text) pixel,
  `ratio * 96 / spPerInch` with `spPerInch = 96`, i.e. the ratio itself.

All writes go through `setRootCssVar`, which adds the `--` prefix to a
name that lacks it before calling `setProperty`.

`scale.dfy` holds three modules:

- `CssName`: the prefix rule `Normalize`, with `startsWith('--')` as the
  sequence-prefix test `"--" <= name`, and its properties (always prefixed,
  prefixed names unchanged, prefix added exactly once, idempotent, never
  doubled, the exact set of names that map to a given stored name).
- `Density`: the constants `dpPerInch` and `spPerInch` and the two scale
  factors over `real`, with their exact rational values, their fixed
  proportion, positivity, monotonicity and the three worked ratios 1, 2 and 1.5.
- `Theme`: the property names `cssVarDp` and `cssVarSp`; the root style as a
  `map<string, real>`; the pure update `SetVar` that `setProperty` performs on
  it; `ApplyWrites`, the style after any sequence of `setRootCssVar` calls
  (the method is public, so clients may call it any number of times), with
  lemmas on which value each key ends up holding; `AfterLoad`, the style after
  the two load-time writes; and the class
  `SharedThemeDart`, whose field `rootStyle` is the root element's style and
  whose methods `SetRootCssVar`, `SetPxPerDp`, `SetPxPerSp` and
  `SetupDefaultScales` (the calls at lines 40-41) update it in place.

The device pixel ratio, which the source reads from `window` at each call, is
a parameter of `SetPxPerDp` and `SetPxPerSp`. `SetupDefaultScales`,
`AfterLoad` and `LoadTrace` take two ratios, the one the dp call reads and
the one the sp call reads, so nothing assumes the two reads agree.

## Model

| member | source | states |
|---|---|---|
| CssName.HasPrefix | lib/scale/scale.js:34 | `startsWith('--')`: true exactly when the first two characters are both `-` |
| CssName.Normalize | lib/scale/scale.js:34 | the stored name always starts with `--` and is at most two characters longer than the given name |
| CssName.NormalizePrefixed | lib/scale/scale.js:30-34 | a name already starting with `--` is stored unchanged |
| CssName.NormalizeUnprefixed | lib/scale/scale.js:30-34 | a name without the prefix is stored as `--` followed by the name, the prefix added once |
| CssName.NormalizeEndsWithName | lib/scale/scale.js:34 | the stored name ends with the given name, nothing of it is dropped |
| CssName.NormalizeIdempotent | lib/scale/scale.js:34 | normalising an already normalised name changes nothing |
| CssName.NormalizeNeverDoubles | lib/scale/scale.js:30-34 | the stored name starts with `----` only if the given name did, so `--x` never becomes `----x` |
| CssName.NormalizePreimage | lib/scale/scale.js:34 | a name is stored under `t` exactly when `t` is prefixed and the name is `t` itself or an unprefixed name that `--` turns into `t` |
| Density.PxPerDp | lib/scale/scale.js:14-16 | the dp factor is three fifths of the ratio, i.e. factor times 160 equals ratio times 96 |
| Density.PxPerSp | lib/scale/scale.js:23-25 | the sp factor equals the ratio, i.e. factor times 96 equals ratio times 96 |
| Density.DpSpProportion | lib/scale/scale.js:5-6 | the factors are inversely proportional to the reference densities: dp factor × dpPerInch equals sp factor × spPerInch, so five dp factors equal three sp factors |
| Density.FactorsPositive | lib/scale/scale.js:14-25 | for a positive ratio both factors are positive and the dp factor is below the sp factor |
| Density.FactorsMonotonic | lib/scale/scale.js:14-25 | both factors grow strictly with the ratio |
| Density.Scenarios | lib/scale/scale.js:14-25 | ratio 1 gives 0.6 and 1, ratio 2 gives 1.2 and 2, ratio 1.5 gives 0.9 and 1.5 |
| Theme.SetVar | lib/scale/scale.js:33-35 | after a write the normalised name holds the value, the key set gains only that name, and every other key keeps its value |
| Theme.SetVarIdempotent | lib/scale/scale.js:33-35 | writing the same value under the same name twice equals writing it once |
| Theme.SetVarLastWins | lib/scale/scale.js:33-35 | of two writes whose names normalise to the same key, the later one alone decides the result |
| Theme.SetVarCommutes | lib/scale/scale.js:33-35 | writes under names with different normalised keys commute |
| Theme.SetVarPrefixScenario | lib/scale/scale.js:30-35 | `px-test` with 3.14 is stored under `--px-test`; `--px-test2` with 2.71 is stored under `--px-test2` |
| Theme.CssVarsNormalized | lib/scale/scale.js:7-8 | `--px-per-dp` and `--px-per-sp` are already prefixed, so they are stored as written |
| Theme.CssVarsDistinct | lib/scale/scale.js:7-8 | the two property names differ |
| Theme.AfterLoad | lib/scale/scale.js:40-41 | after the dp write and then the sp write, `--px-per-dp` holds three fifths of the dp call's ratio, `--px-per-sp` holds the sp call's ratio, only those keys are added and all other keys keep their values |
| Theme.LoadOrderIrrelevant | lib/scale/scale.js:40-41 | doing the sp write before the dp write gives the same map (declaration order is not modelled) |
| Theme.AfterLoadIdempotent | lib/scale/scale.js:40-41 | repeating the load sequence with the same ratios changes nothing |
| Theme.Key | lib/scale/scale.js:33-34 | the property one call writes to carries the prefix and is its name, or its unprefixed name with `--` added once |
| Theme.ApplyWrites | lib/scale/scale.js:28-36 | after any sequence of `setRootCssVar` calls no property has been removed, and the last call's key holds the last call's value |
| Theme.ApplyWritesKeys | lib/scale/scale.js:28-36 | after any sequence of `setRootCssVar` calls the style's keys are the old keys plus the normalised names written (values are numbers, so no call removes a property) |
| Theme.ApplyWritesLastWins | lib/scale/scale.js:28-36 | after any sequence of calls a key holds the value of the last call whose name normalises to it |
| Theme.ApplyWritesUntouched | lib/scale/scale.js:28-36 | a key no call writes to keeps its old value, or stays absent |
| Theme.ApplyWritesAppend | lib/scale/scale.js:28-36 | making two sequences of calls one after the other equals making their concatenation |
| Theme.LoadTrace | lib/scale/scale.js:40-41 | the load makes two calls, first to `--px-per-dp` with three fifths of its ratio, then to the distinct `--px-per-sp` with its ratio |
| Theme.AfterLoadIsTrace | lib/scale/scale.js:40-41 | the load-time style is the result of the two-call sequence dp write, sp write |
| Theme.SharedThemeDart.SetRootCssVar | lib/scale/scale.js:33-36 | the root style gains the value under the normalised name and no other key changes or appears |
| Theme.SharedThemeDart.SetPxPerDp | lib/scale/scale.js:14-17 | the root style is the old one with `--px-per-dp` set to three fifths of the ratio |
| Theme.SharedThemeDart.SetPxPerSp | lib/scale/scale.js:23-26 | the root style is the old one with `--px-per-sp` set to the ratio |
| Theme.SharedThemeDart.SetupDefaultScales | lib/scale/scale.js:40-41 | after both load-time calls, each with the ratio it read, both keys hold their factors and every other key is unchanged |

## Left out

- `document.documentElement.style.setProperty` is a browser API; it is modelled only as a map update. How the style declaration turns a number into its string form, and whether it validates or rejects a name or value, is not modelled.
- `window.devicePixelRatio` is a parameter, not an ambient read; a missing or non-numeric ratio is not modelled, since the source does not define that behaviour.
- Values are exact `real` numbers: the IEEE-754 rounding of the product and quotient in the source is not modelled, so `0.6` here is the exact rational, not the nearest double.
- In the source, `dpPerInch`, `spPerInch`, `cssVarDp`, `cssVarSp` and `setRootCssVar` are writable properties of the shared namespace object, looked up through `this` on every call, so a client that reassigns one of them changes what later calls do. The model fixes them as module constants and statically dispatched methods; the class `SharedThemeDart` holds only `rootStyle`. That the two setup calls run automatically when the script loads is represented only as the method `SetupDefaultScales`, which makes them in order.
- Names are strings only. A non-string name, which the documentation comment of `setRootCssVar` allows (a number, `null` or `undefined`), makes `name.startsWith` throw a TypeError before `setProperty` is reached; that error path is not modelled.
- The style is a map, so it does not record the order of its declarations. A style declaration appends a new property and updates an existing one in place, so swapping the two load-time writes can change `cssText`, `item(i)` and the serialised `style` attribute (whenever neither property is declared yet); `SetVarCommutes` and `LoadOrderIrrelevant` hold for the map only.
- Values are numbers only. `setRootCssVar` accepts a value of any type; a string value, and the empty string or `null` (with which `setProperty` removes the property), are not modelled.
- Failures of the host (no document element, a rejected property) propagate uncaught in the source and are not modelled.
