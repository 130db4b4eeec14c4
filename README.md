# nite-putter core, modelled in Dafny

nite-putter is a React Native app. It controls Bluetooth drinking cups with
lights ("Nite" cups) and has a small shop. This project models the logic
beneath its views and proves properties of that model:

- the colour wheel component (`ColorWheel`, `ColorWheelController`):
  - validating and parsing `#rrggbb`;
  - RGB to hue and saturation, and from there to a selector position;
  - HSV to an `rgb(r, g, b)` string, and that string to lower-case `#rrggbb`;
  - a touch position to a colour;
  - the touch handler and the debounced delivery of colour changes;
- the cup-control store (`NiteControlStore`): cups, the selection for bulk
  actions, colour presets, and the current colour, mode and brightness;
- the shop store (`ShopStore`): cart operations and checkout pricing;
- the screens that hold logic of their own:
  - the multi-cup control screen, with selection, bulk actions, connect-all
    progress, rename, the 18-cup limit and the card tap block;
  - the colour wheel screen, with its colour and brightness fallbacks and
    brightness and colour-temperature sliders;
  - the sign-up, log-in and password-reset forms;
  - the shop list and the product page;
  - the QR-code add screen;
  - the main cup screen;
  - the home dashboard.

Shared helpers live in `Common` (`Option`, a JavaScript number that may be
non-finite, `Math.round`, min, max and clamp, and JavaScript's `%`), `Text`
(`trim`, ASCII case mapping, `includes`, `slice(-n)`, decimal and hexadecimal
digit strings) and `Seqs` (`filter`, `find`, conditional `map`,
duplicate-freedom).

How the code is modelled:

- The colour wheel's initial-colour effect (`ColorWheel.tsx:150-156`) lists
  `springConfig` among its dependencies. That object is created anew on every
  render, so the effect runs after every render, not only when
  `initialColor` changes. The wheel class follows the code as written: each
  update to a new colour causes a render. That render resets the shown
  colour, the last delivered colour and the selector to `initialColor`.
  "## Findings" records the consequence.

- Numbers are Dafny `real`s, money included. `Math.round(x)` is
  `(x + 0.5).Floor`. JavaScript's `%` is a remainder truncated towards zero.
- The stores and every screen with state are classes. Their fields are the
  store fields or the React state. Each action is a method whose `ensures`
  gives the whole new state in terms of pure functions over the old state.
  The properties are proved about those functions.
- A JavaScript `Set` of ids is a duplicate-free `seq`, kept in insertion
  order.
- Helpers the code calls but that are not part of this model are
  function-typed parameters or `const` fields: `validateEmail`,
  `validatePassword`, `isLikelyValidPromo`, `kelvinToHex`, and `Math.sqrt`,
  `Math.atan2`, `Math.cos`, `Math.sin` (the `Trig` datatype).
- Calls into code that is not part of this model are recorded in a log field,
  one entry per call, with its arguments: `addCup`, `removeCup`,
  `setCupBrightness`, `login`, `signup`, `resetPassword`, and the alerts shown.
- `Date.now()`, the hour of `new Date()` and the user's answer to a
  confirmation dialog are parameters.

## Model

| member | source | states |
|---|---|---|
| Common.MinR | src/components/ui/ColorWheel.tsx:292 | `Math.min` of two numbers: below both and equal to one of them |
| Common.MaxR | src/components/ui/ColorWheel.tsx:91 | `Math.max` of two numbers: above both and equal to one of them |
| Common.AbsR | src/components/ui/ColorWheel.tsx:175 | `Math.abs`: non-negative and equal to the number or its negation |
| Common.ClampR | src/components/ui/ColorWheel.tsx:170-172 | `Math.max(lo, Math.min(hi, x))` lies in `[lo, hi]`, is `x` inside the range and the nearer bound outside it |
| Common.Round | src/features/shop/ProductDetailScreen.tsx:98 | `Math.round` gives the integer within half a unit, halves rounded up |
| Common.RoundMonotone | src/features/niteControl/ColorWheelScreen.tsx:75 | rounding never reverses the order of two numbers |
| Common.Trunc | src/components/ui/ColorWheel.tsx:98 | truncation towards zero is the integer part, for either sign |
| Common.JsRem | src/components/ui/ColorWheel.tsx:105 | JavaScript's `x % m` for `m > 0` takes the sign of `x`, is below `m` in size, and is `x` itself when `x` is already inside `(-m, m)` |
| Seqs.Filter | src/store/shopStore.ts:176 | `filter` keeps the elements that pass the test, each as many times as it occurs, in their order, and never adds one |
| Seqs.FilterKeepsAllIff | src/features/home/HomeScreen.tsx:87 | the filter keeps the whole list exactly when every element passes the test |
| Seqs.FilterKeepsAll | src/features/shop/ShopScreen.tsx:69-74 | when every element passes the test, filtering returns the list unchanged |
| Seqs.FilterAppend | src/features/home/HomeScreen.tsx:87-88 | filtering a concatenation is the concatenation of the filtered parts |
| Seqs.FilterNoDup | src/store/niteControlStore.ts:176 | filtering a duplicate-free list leaves it duplicate-free |
| Seqs.Without | src/store/niteControlStore.ts:176 | `filter(e => e !== x)` contains no `x`, keeps every other element as many times as it occurs and in order, and changes nothing when `x` is absent |
| Seqs.WithoutAfterFilter | src/features/niteControl/MultiCupControlScreen.tsx:416-421 | removing `x` after removing the elements of `xs` is removing the elements of `xs + [x]` |
| Seqs.WithoutNext | src/features/niteControl/MultiCupControlScreen.tsx:416-421 | removing `xs[i]` after `xs[..i]` removes `xs[..i + 1]` |
| Seqs.FilterNotInExcludes | src/features/niteControl/MultiCupControlScreen.tsx:416-421 | none of the removed elements is left |
| Seqs.FilterNotInNothing | src/features/niteControl/MultiCupControlScreen.tsx:416-421 | removing the elements of the empty list keeps the list |
| Seqs.WithoutAppended | src/features/niteControl/MultiCupControlScreen.tsx:362-368 | removing an id that was just appended to a list without it gives the list back |
| Seqs.MapWhere | src/store/niteControlStore.ts:153-157 | `map(e => p(e) ? f(e) : e)` keeps the length, rewrites exactly the elements that pass the test, and leaves the others alone |
| Seqs.Find | src/features/niteControl/NiteControlScreen.tsx:45 | `find` returns nothing exactly when no element passes the test; otherwise it returns the first element that passes |
| Seqs.Dedup | src/features/niteControl/MultiCupControlScreen.tsx:376 | `Array.from(new Set(xs))` holds each element of the list exactly once, in the order of first occurrences, and equals the list when the list has no duplicates |
| Text.TrimStartSpec | src/features/auth/LoginScreen.tsx:66 | the start of `trim` removes a white-space prefix, and what is left starts with a character that is not white space |
| Text.TrimEndSpec | src/features/auth/LoginScreen.tsx:66 | the end of `trim` removes a white-space suffix, and what is left ends with a character that is not white space |
| Text.TrimSpec | src/features/auth/SignupScreen.tsx:108-111 | `trim` is the infix left once white space is removed from both ends, and starts and ends with a character that is not white space |
| Text.TrimEmptyIffBlank | src/features/auth/ResetPasswordScreen.tsx:71 | `!s.trim()` holds exactly when the string is all white space |
| Text.TrimOfNonBlank | src/features/niteControl/MultiCupControlScreen.tsx:344-345 | a string with no white space at either end trims to itself |
| Text.ToLower | src/features/shop/ShopScreen.tsx:70-71 | `toLowerCase` lower-cases each letter and keeps the length and every other character |
| Text.ToUpper | src/store/shopStore.ts:234 | `toUpperCase` upper-cases each letter and keeps the length and every other character |
| Text.Includes | src/features/shop/ShopScreen.tsx:70-71 | `includes` holds exactly when the needle occurs at some position of the string |
| Text.EmptyIncluded | src/features/shop/ShopScreen.tsx:70 | every string includes the empty query |
| Text.CodeUnits | src/features/auth/LoginScreen.tsx:78 | a character takes one UTF-16 code unit exactly when it lies in the Basic Multilingual Plane, otherwise two |
| Text.JsLength | src/features/auth/LoginScreen.tsx:78 | `length` counts UTF-16 code units, between the number of characters and twice it |
| Text.JsLengthIsSizeIff | src/features/auth/LoginScreen.tsx:78 | `length` equals the number of characters exactly when every character is in the Basic Multilingual Plane |
| Text.LastN | src/features/niteControl/QrScanScreen.tsx:34 | `slice(-n)` is the last `n` characters (Unicode scalar values), or the whole of a shorter string |
| Text.LastNInBmp | src/features/niteControl/QrScanScreen.tsx:34 | for a string inside the Basic Multilingual Plane, `LastN` has the code-unit length `slice(-n)` has |
| Text.DecimalString | src/features/niteControl/QrScanScreen.tsx:33 | `toString()` of a non-negative integer is a non-empty digit string with no leading zero |
| Text.DecimalRoundTrip | src/components/ui/ColorWheel.tsx:220-222 | `parseInt(n.toString(), 10)` gives `n` back |
| Text.LowerHexChar | src/components/ui/ColorWheel.tsx:236 | the digit `toString(16)` writes is a lower-case hex digit with that value |
| Text.ToBase16 | src/components/ui/ColorWheel.tsx:236 | `toString(16)` is a non-empty string of lower-case hex digits |
| Text.ToBase16Step | src/components/ui/ColorWheel.tsx:236 | appending a base-16 digit to a number appends its digit to the string |
| Text.HexPair | src/components/ui/ColorWheel.tsx:236 | a byte is written as two lower-case hex digits, high digit first, that parse back to the byte |
| ColorWheel.FirstIndex | src/components/ui/ColorWheel.tsx:72 | the position of the first occurrence of a character |
| ColorWheel.RemoveFirst | src/components/ui/ColorWheel.tsx:72 | `replace('#', '')` removes one character when there is a `#` and none otherwise |
| ColorWheel.HexAcceptedIff | src/components/ui/ColorWheel.tsx:66-76 | the hex test accepts exactly six hex digits, or seven characters holding one `#` anywhere beside six hex digits |
| ColorWheel.SampleHexAccepted | src/components/ui/ColorWheel.tsx:72-73 | `#00FF88`, `00ff88` and `00f#f88` are accepted |
| ColorWheel.SampleHexRejected | src/components/ui/ColorWheel.tsx:66-76 | `##00ff88`, the empty string and `#00ff8` are rejected |
| ColorWheel.ParsePair | src/components/ui/ColorWheel.tsx:79-81 | two hex digits parse to a value below 256 |
| ColorWheel.ParseHex | src/components/ui/ColorWheel.tsx:79-81 | six hex digits parse to three channels in `[0, 255]` |
| ColorWheel.Max3 | src/components/ui/ColorWheel.tsx:91 | `Math.max(r, g, b)` is above all three and equals one of them |
| ColorWheel.Min3 | src/components/ui/ColorWheel.tsx:92 | `Math.min(r, g, b)` is below all three and equals one of them |
| ColorWheel.Hue | src/components/ui/ColorWheel.tsx:95-105 | the hue of any three channels lies in `[0, 360)` |
| ColorWheel.HueSectorBound | src/components/ui/ColorWheel.tsx:96-104 | when green or blue is the largest of distinct channels, the ratio `(b - r) / diff` or `(r - g) / diff` is at least -1, so those sector values are at least 1 and 3 |
| ColorWheel.Saturation | src/components/ui/ColorWheel.tsx:113 | saturation is 0 when the maximum is 0 and `diff / max` otherwise, and lies in `[0, 1]` |
| ColorWheel.PolarOf | src/components/ui/ColorWheel.tsx:63-131 | a polar position exists exactly when the hex is accepted; its angle lies in `[0, 2π)` and its distance in `[0, radius]` |
| ColorWheel.PolarOfRgb | src/components/ui/ColorWheel.tsx:91-125 | the angle of parsed channels lies in `[0, 2π)` and their distance in `[0, radius]` |
| ColorWheel.DistanceBound | src/components/ui/ColorWheel.tsx:125 | `saturation * radius` lies in `[0, radius]` |
| ColorWheel.PositionFromColor | src/components/ui/ColorWheel.tsx:63-147 | a rejected colour gives the origin; an accepted one gives the point at `cos(angle) * distance`, `-sin(angle) * distance` of its polar position |
| ColorWheel.GreyAtCentre | src/components/ui/ColorWheel.tsx:91-134 | a grey (three equal channels) has distance 0, so its selector sits at the origin |
| ColorWheel.Channel | src/components/ui/ColorWheel.tsx:194-196 | one round-and-clamp channel is an integer in `[0, 255]`: within half a unit of the value inside the range, 0 below it and 255 above it |
| ColorWheel.HueFactor | src/components/ui/ColorWheel.tsx:175 | `1 - abs((h / 60) % 2 - 1)` lies in `[0, 1]` for a non-negative hue |
| ColorWheel.Channels | src/components/ui/ColorWheel.tsx:178-196 | the six-sector table followed by round-and-clamp always gives in-range channels |
| ColorWheel.HsvChannels | src/components/ui/ColorWheel.tsx:170-196 | HSV to RGB after the clamps gives in-range channels |
| ColorWheel.HsvClamped | src/components/ui/ColorWheel.tsx:174-196 | HSV to RGB with `c = v * s`, `x = c * factor`, `m = v - c` gives in-range channels |
| ColorWheel.HsvToRgb | src/components/ui/ColorWheel.tsx:159-203 | any non-finite input gives `rgb(255, 0, 0)`; finite input gives the string of the in-range channels of the clamped inputs |
| ColorWheel.RedString | src/components/ui/ColorWheel.tsx:166 | the channels (255, 0, 0) print as `rgb(255, 0, 0)` |
| ColorWheel.HueFactorAtPrimaries | src/components/ui/ColorWheel.tsx:175 | the hue factor is 0 at hues 0, 120, 240 and 360 |
| ColorWheel.HsvChannelsUnclamped | src/components/ui/ColorWheel.tsx:170-172 | inside the clamp ranges the clamps change nothing |
| ColorWheel.PureChannels | src/components/ui/ColorWheel.tsx:178-196 | `c = 1`, `x = m = 0` gives pure red, green or blue in the matching sector, and black at 360 or above, where no sector matches |
| ColorWheel.PrimaryHues | src/components/ui/ColorWheel.tsx:174-196 | hues 0, 120 and 240 at full saturation and value give (255, 0, 0), (0, 255, 0) and (0, 0, 255) |
| ColorWheel.HueThreeSixty | src/components/ui/ColorWheel.tsx:170-196 | hue 360 survives the clamp but matches no sector, so (360, 1, 1) gives black |
| ColorWheel.NoSaturationIsGrey | src/components/ui/ColorWheel.tsx:174-196 | with no saturation all three channels equal the rounded `v * 255` |
| ColorWheel.FullySaturated | src/components/ui/ColorWheel.tsx:174-196 | at full saturation and value every hue in `[0, 360)` has one channel at 255 and one at 0 |
| ColorWheel.SegmentColor | src/components/ui/ColorWheel.tsx:504-529 | the fill of segment `i` is `hsvToRgb(i * 10, 1, 1)` |
| ColorWheel.SegmentTable | src/components/ui/ColorWheel.tsx:504-529 | every segment of the wheel is fully saturated, and segments 0, 12 and 24 are pure red, green and blue |
| ColorWheel.DigitRunEnd | src/components/ui/ColorWheel.tsx:214 | the greedy `\d+` ends at a non-digit or at the end of the string |
| ColorWheel.MatchAt | src/components/ui/ColorWheel.tsx:214 | a match anchored at a position has three non-empty digit groups |
| ColorWheel.FindRgb | src/components/ui/ColorWheel.tsx:214 | the leftmost match of the pattern has three groups of digits |
| ColorWheel.HexBody | src/components/ui/ColorWheel.tsx:236 | the body produced after dropping the leading `1` is made of lower-case hex digits |
| ColorWheel.RgbToHex | src/components/ui/ColorWheel.tsx:206-249 | the result is always `#` and six lower-case hex digits; an empty string, a string without a match, or a matched channel above 255 gives `#000000` |
| ColorWheel.MatchOfRgbString | src/components/ui/ColorWheel.tsx:198-214 | the pattern matches the component's own `rgb(r, g, b)` string at its start, with the three decimal strings as groups |
| ColorWheel.HexDigits | src/components/ui/ColorWheel.tsx:236 | `(1 << 24) + (r << 16) + (g << 8) + b` in base 16 is `1` followed by the three hex pairs |
| ColorWheel.RgbToHexOfRgbString | src/components/ui/ColorWheel.tsx:198-244 | for in-range channels, serialising as `rgb(r, g, b)` and converting gives `#` and the three lower-case hex pairs |
| ColorWheel.RgbToHexOutOfRange | src/components/ui/ColorWheel.tsx:225-229 | a channel above 255 in the string makes the conversion fall back to `#000000` |
| ColorWheel.HexRoundTrip | src/components/ui/ColorWheel.tsx:72-81 | the hex produced for in-range channels passes the position code's test, and parsing it gives the channels back |
| ColorWheel.OutsideIffBeyondRadius | src/components/ui/ColorWheel.tsx:262-270 | with an exact square root, the squared-distance test says `Math.sqrt(dx * dx + dy * dy) > radius` |
| ColorWheel.ColorAt | src/components/ui/ColorWheel.tsx:301-302 | `rgbToHex(hsvToRgb(hue, saturation, 1))` is a lower-case `#rrggbb` |
| ColorWheel.ColorFromPosition | src/components/ui/ColorWheel.tsx:252-315 | a non-finite coordinate, a point outside the wheel or a zero radius gives the current colour; every other result is a lower-case `#rrggbb` |
| ColorWheel.ColorOfOffset | src/components/ui/ColorWheel.tsx:260-310 | outside the wheel the result is the current colour; inside, it is the colour of the point's hue and of `min(distance / radius, 1)` at full value |
| ColorWheel.WheelHue | src/components/ui/ColorWheel.tsx:281-284 | the hue of an angle lies in `[0, 360)` |
| ColorWheel.WhiteChannels | src/components/ui/ColorWheel.tsx:174-196 | no saturation at full value gives (255, 255, 255) |
| ColorWheel.WhiteHex | src/components/ui/ColorWheel.tsx:236 | white serialises to `#ffffff` |
| ColorWheel.NoSaturationWhite | src/components/ui/ColorWheel.tsx:301-302 | saturation 0 at full value is `#ffffff` for every hue |
| ColorWheel.CentreIsWhite | src/components/ui/ColorWheel.tsx:252-310 | a touch at the exact centre of a wheel of positive radius is white |
| ColorWheel.FinitePosition | src/components/ui/ColorWheel.tsx:255-262 | for finite coordinates the colour is that of the offset from the centre |
| ColorWheelController.Step | src/components/ui/ColorWheel.tsx:334-345 | a change replaces the pending timer; a firing delivers the pending colour only when it differs from the last delivered one, then records it; unmount drops the timer; the initial-colour effect sets the last colour |
| ColorWheelController.Changes | src/components/ui/ColorWheel.tsx:349 | a burst of debounced changes is one change event per colour, in order |
| ColorWheelController.RunAppend | src/components/ui/ColorWheel.tsx:334-345 | running two event sequences one after the other is running their concatenation |
| ColorWheelController.ChangesLeaveLastPending | src/components/ui/ColorWheel.tsx:335-339 | any burst of debounced changes delivers nothing and leaves only the last colour pending |
| ColorWheelController.IntendedBurstDeliversLast | src/components/ui/ColorWheel.tsx:334-345 | the debounce callback on its own: a burst and one firing deliver at most one colour, the last one, and only when it differs from the last delivered colour |
| ColorWheelController.IntendedDragDeliversOnce | src/components/ui/ColorWheel.tsx:334-345 | with the effect running only on a new `initialColor`, two drags to the same colour deliver it at most once |
| ColorWheelController.Update | src/components/ui/ColorWheel.tsx:347-349 | `updateColor` while the wheel shows `initialColor`: the colour becomes pending, nothing is delivered, and the last colour is reset to `initialColor` exactly when the colour differs from it, because the render that `setCurrentColor` causes re-runs the effect of lines 150-156 |
| ColorWheelController.LeavesShownStep | src/components/ui/ColorWheel.tsx:347-349 | a drag leaves the colour shown when its shorter prefix does or its last colour differs from it |
| ColorWheelController.UpdatesSnoc | src/components/ui/ColorWheel.tsx:347-349 | a drag one colour longer is the shorter drag followed by one more update |
| ColorWheelController.UpdatesLeaveLastPending | src/components/ui/ColorWheel.tsx:334-349 | after a drag only its last colour is pending and nothing is delivered; the last colour is `initialColor` once any update left it, and unchanged otherwise |
| ColorWheelController.BurstDeliversLast | src/components/ui/ColorWheel.tsx:334-349 | a drag and one firing deliver at most one colour, the last one; it is compared with `initialColor`, not with the last delivered colour, whenever some update of the drag differed from `initialColor` |
| ColorWheelController.RepeatedDragRedelivers | src/components/ui/ColorWheel.tsx:150-156 | as written, two drags to the same colour, each followed by the timer, deliver that colour twice when it differs from `initialColor` |
| ColorWheelController.UnmountDropsBurst | src/components/ui/ColorWheel.tsx:359-365 | unmounting after a burst means the timer delivers nothing |
| ColorWheelController.ResetSuppresses | src/components/ui/ColorWheel.tsx:150-156 | after the effect runs with colour `c`, a change to `c` delivers nothing |
| ColorWheelController.RunDeliversAtMostOnePerFire | src/components/ui/ColorWheel.tsx:339-344 | the delivered colours only grow, and by no more than the number of timer firings |
| ColorWheelController.TouchTarget | src/components/ui/ColorWheel.tsx:370-392 | a touch has no target exactly when a coordinate is not finite or the point lies outside the wheel |
| ColorWheelController.AcceptedTouchKeepsOffset | src/components/ui/ColorWheel.tsx:384-392 | the selector is never pulled onto the rim: the constrained offset `handleTouch` writes for an accepted touch is the touch's own offset from the centre |
| ColorWheelController.Wheel.constructor | src/components/ui/ColorWheel.tsx:35-46 | centre and radius come from the size; the selector starts where the initial colour puts it; the shown and last colour are the initial one, nothing is pending, and the shown colour is the prop |
| ColorWheelController.Wheel.InitialColorEffect | src/components/ui/ColorWheel.tsx:150-156 | the effect puts the selector at `initialColor`'s position and makes `initialColor` the shown and the last colour |
| ColorWheelController.Wheel.Render | src/components/ui/ColorWheel.tsx:150-156 | any render by the parent, with the same or a new `initialColor`, is followed by the effect, because `springConfig` (lines 53-57) is a new object on every render |
| ColorWheelController.Wheel.DebouncedColorChange | src/components/ui/ColorWheel.tsx:334-345 | the new timer replaces any pending one |
| ColorWheelController.Wheel.FireTimer | src/components/ui/ColorWheel.tsx:339-344 | the timer firing is one debounce step |
| ColorWheelController.Wheel.Unmount | src/components/ui/ColorWheel.tsx:359-365 | unmounting clears the pending timer |
| ColorWheelController.Wheel.UpdateColor | src/components/ui/ColorWheel.tsx:347-356 | the colour is handed to the debounce as `Update` says; a colour other than `initialColor` causes a render whose effect moves the selector back to `initialColor`, so the shown colour stays the prop |
| ColorWheelController.Wheel.HandleTouch | src/components/ui/ColorWheel.tsx:367-417 | nothing changes while disabled or without a target; otherwise the selector moves to the target and a colour there that starts with `#` is updated; when that colour is not `initialColor` the selector ends at `initialColor`'s position, otherwise at the target |
| ColorWheelController.Wheel.MoveSelector | src/components/ui/ColorWheel.tsx:394-416 | the selector goes to the target; a colour there starting with `#` is updated, and the selector ends at `initialColor`'s position when that colour differs from it |
| ColorWheelController.Wheel.UpdatesThenFire | src/components/ui/ColorWheel.tsx:339-356 | a drag of several updates followed by the timer leaves the debounce state of `BurstDeliversLast`, the shown colour at the prop, and the selector at `initialColor`'s position once any update differed from it |
| NiteControlStore.Ids | src/store/niteControlStore.ts:5-23 | the ids of the cups, in order |
| NiteControlStore.Reconnect | src/store/niteControlStore.ts:152-175 | `isConnected` becomes `on` exactly on the chosen cups; nothing else of any cup changes |
| NiteControlStore.Rename | src/store/niteControlStore.ts:183-189 | only the name of the chosen cups changes |
| NiteControlStore.Recolor | src/store/niteControlStore.ts:218-249 | only the colour of the chosen cups changes |
| NiteControlStore.Remode | src/store/niteControlStore.ts:251-267 | only the mode of the chosen cups changes |
| NiteControlStore.Rebright | src/store/niteControlStore.ts:269-285 | only the brightness of the chosen cups changes |
| NiteControlStore.UpdateKeepsIds | src/store/niteControlStore.ts:152-157 | connecting or disconnecting keeps the cup ids, in order |
| NiteControlStore.Select | src/store/niteControlStore.ts:191-197 | `selectCup` adds the id at the end unless it is already there, never adds a duplicate, and changes nothing for a selected id |
| NiteControlStore.SelectIdempotent | src/store/niteControlStore.ts:191-197 | selecting twice is selecting once |
| NiteControlStore.Deselect | src/store/niteControlStore.ts:199-203 | `deselectCup` removes every occurrence of the id and keeps the rest in order |
| NiteControlStore.DeselectUndoesSelect | src/store/niteControlStore.ts:191-203 | deselecting undoes selecting an id that was not selected |
| NiteControlStore.ConnectedIds | src/store/niteControlStore.ts:205-212 | the connected cups' ids, all of them and no other ids, in cup order, without duplicates when the cup ids have none |
| NiteControlStore.DeselectEachStep | src/store/niteControlStore.ts:176 | deselecting one more id extends the sequence of deselects by that id |
| NiteControlStore.DeselectEachIsFilter | src/store/niteControlStore.ts:176 | deselecting ids one after another keeps exactly the selected ids that are not among them, each as often as before, in order |
| NiteControlStore.DeselectEachExcludes | src/store/niteControlStore.ts:176 | after deselecting ids one by one none of them is selected |
| NiteControlStore.DeletePreset | src/store/niteControlStore.ts:302-306 | every preset with the id goes; the rest stay, each as often as before and in order |
| NiteControlStore.FindPreset | src/store/niteControlStore.ts:310 | the first preset with the id, or nothing exactly when no preset has it |
| NiteControlStore.DeletedPresetNotFound | src/store/niteControlStore.ts:302-310 | a deleted preset can no longer be found, so applying it does nothing |
| NiteControlStore.KeepsIds | src/store/niteControlStore.ts:183-285 | an update that changes attributes other than the id keeps the cup ids |
| NiteControlStore.Store.constructor | src/store/niteControlStore.ts:93-123 | the mock cups, no selection, the default presets, `#00FF88`, static mode and brightness 80 |
| NiteControlStore.Store.ScanForCups | src/store/niteControlStore.ts:126-143 | the mock scan ends with the scanning flag off and no error |
| NiteControlStore.Store.ConnectToCup | src/store/niteControlStore.ts:145-165 | exactly the cups with that id become connected; the connecting flag is off and no error remains |
| NiteControlStore.Store.DisconnectFromCup | src/store/niteControlStore.ts:167-181 | the cup is disconnected and its id leaves the selection |
| NiteControlStore.Store.RenameCup | src/store/niteControlStore.ts:183-189 | only the named cup's name changes |
| NiteControlStore.Store.SelectCup | src/store/niteControlStore.ts:191-197 | the selection after `Select`; the persisted state is unchanged |
| NiteControlStore.Store.DeselectCup | src/store/niteControlStore.ts:199-203 | the selection after `Deselect`; the persisted state is unchanged |
| NiteControlStore.Store.SelectAllCups | src/store/niteControlStore.ts:205-212 | the selection becomes the connected cups' ids |
| NiteControlStore.Store.DeselectAllCups | src/store/niteControlStore.ts:214-216 | the selection becomes empty |
| NiteControlStore.Store.SetColor | src/store/niteControlStore.ts:218-234 | the current colour, and the colour of exactly the cups selected when the call began |
| NiteControlStore.Store.SetCupColor | src/store/niteControlStore.ts:236-249 | the colour of the named cup only |
| NiteControlStore.Store.SetMode | src/store/niteControlStore.ts:251-267 | the current mode, and the mode of exactly the cups selected when the call began |
| NiteControlStore.Store.SetBrightness | src/store/niteControlStore.ts:269-285 | the current brightness, and the brightness of exactly the cups selected when the call began |
| NiteControlStore.Store.SavePreset | src/store/niteControlStore.ts:287-300 | one preset appended, with the id `Date.now().toString()`, copying the current colour, mode and brightness |
| NiteControlStore.Store.DeletePresetById | src/store/niteControlStore.ts:302-306 | the presets after `DeletePreset` |
| NiteControlStore.Store.ApplyPreset | src/store/niteControlStore.ts:308-324 | an unknown id changes nothing; otherwise the current settings and those of every selected cup become the preset's |
| NiteControlStore.Store.ClearError | src/store/niteControlStore.ts:326-328 | no error remains; the persisted state is unchanged |
| ShopStore.ProductIds | src/store/shopStore.ts:6-60 | the product id of each cart item, in order |
| ShopStore.AddQuantity | src/store/shopStore.ts:157-163 | the quantity grows by `quantity` on the items for the product, and nothing else changes |
| ShopStore.CartAfterAdd | src/store/shopStore.ts:154-171 | an existing product gets the quantity added; a new one is appended; product ids stay unique |
| ShopStore.CartAfterRemove | src/store/shopStore.ts:173-178 | every item for the product goes, the rest stay in order; an absent product changes nothing |
| ShopStore.CartAfterUpdate | src/store/shopStore.ts:180-194 | a quantity of 0 or less is exactly `removeFromCart`; otherwise only the product's quantity is set, and an absent product changes nothing |
| ShopStore.CountAddQuantity | src/store/shopStore.ts:157-163 | adding to the items for a product raises the count once per such item |
| ShopStore.SingleOccurrence | src/store/shopStore.ts:154-171 | with unique product ids, a product present in the cart has exactly one item |
| ShopStore.AddToCartCount | src/store/shopStore.ts:154-171 | adding `quantity` raises the item count by exactly `quantity` |
| ShopStore.SubtotalAppend | src/store/shopStore.ts:208 | the subtotal of two carts together is the sum of their subtotals |
| ShopStore.SubtotalNonNegative | src/store/shopStore.ts:208 | a cart of non-negative prices and quantities has a non-negative subtotal |
| ShopStore.Price | src/store/shopStore.ts:208-215 | the subtotal; 10% off only with a promo; a floor at 0; free shipping exactly above 50, else 9.99; 8% tax; the total of the three |
| ShopStore.PromoTakesTenPercent | src/store/shopStore.ts:210-212 | for non-negative lines the floor never bites: a promo takes exactly 10% off, and both totals are non-negative |
| ShopStore.PromoSavesWithSameShipping | src/store/shopStore.ts:210-215 | when the shipping is the same either way, the promo never raises the total |
| ShopStore.PromoCanRaiseTotal | src/store/shopStore.ts:212-213 | a 55.00 cart costs more with the promo, because 49.50 no longer ships free |
| ShopStore.MakeOrder | src/store/shopStore.ts:218-235 | the order's items mirror the cart, its amounts are the checkout arithmetic, it is pending, and it has a discount and the trimmed, upper-cased code exactly when a promo applies |
| ShopStore.Store.constructor | src/store/shopStore.ts:126-131 | no products, an empty cart, no orders, not loading and no error |
| ShopStore.Store.FetchProducts | src/store/shopStore.ts:134-152 | the products become the mock list, loading is off, no error remains, and the persisted cart and orders are unchanged |
| ShopStore.Store.AddToCart | src/store/shopStore.ts:154-171 | the cart after `CartAfterAdd`, with the count raised by the quantity (1 by default) |
| ShopStore.Store.RemoveFromCart | src/store/shopStore.ts:173-178 | the cart after `CartAfterRemove` |
| ShopStore.Store.UpdateCartQuantity | src/store/shopStore.ts:180-194 | the cart after `CartAfterUpdate` |
| ShopStore.Store.ClearCart | src/store/shopStore.ts:196-198 | the cart becomes empty and nothing else changes |
| ShopStore.Store.Checkout | src/store/shopStore.ts:200-249 | one new order at the front, built from the cart; the cart is empty, loading is off and there is no error |
| ShopStore.Store.FetchOrders | src/store/shopStore.ts:251-269 | loading is off and no error remains; the persisted cart and orders are kept |
| ShopStore.Store.SetSelectedProduct | src/store/shopStore.ts:271-273 | the selected product is set and the persisted cart and orders are unchanged |
| ShopStore.Store.ClearError | src/store/shopStore.ts:275-277 | no error remains and the persisted cart and orders are unchanged |
| MultiCupControlScreen.Toggle | src/features/niteControl/MultiCupControlScreen.tsx:360-370 | the membership of exactly that id flips, and the set stays duplicate-free |
| MultiCupControlScreen.ToggleTwice | src/features/niteControl/MultiCupControlScreen.tsx:360-370 | toggling twice restores the original members, and the exact list for an id that was not selected |
| MultiCupControlScreen.SelectAllChoice | src/features/niteControl/MultiCupControlScreen.tsx:372-378 | a selection as large as the cup list clears; any other selects every cup id |
| MultiCupControlScreen.SelectAllTwice | src/features/niteControl/MultiCupControlScreen.tsx:372-378 | from an empty selection, select-all selects every cup, and pressing it again clears |
| MultiCupControlScreen.Progress | src/features/niteControl/MultiCupControlScreen.tsx:406 | the progress after cup `i` lies in `[0, 100]` |
| MultiCupControlScreen.ProgressMonotone | src/features/niteControl/MultiCupControlScreen.tsx:399-407 | progress never goes back, and is 100 after the last cup |
| MultiCupControlScreen.RenameTo | src/features/niteControl/MultiCupControlScreen.tsx:343-351 | a blank name is refused; any other is stored trimmed and non-empty |
| MultiCupControlScreen.CanAddCup | src/features/niteControl/MultiCupControlScreen.tsx:522-529 | adding is allowed exactly below 18 cups |
| MultiCupControlScreen.CardTapAccepted | src/features/niteControl/MultiCupControlScreen.tsx:103-106 | a card tap is handled exactly when no button is held and the block has run out |
| MultiCupControlScreen.BlockAfterChildPress | src/features/niteControl/MultiCupControlScreen.tsx:103-121 | after a button press at `t`, exactly the card taps before `t + 600` are ignored |
| MultiCupControlScreen.CupCard.constructor | src/features/niteControl/MultiCupControlScreen.tsx:52-55 | no button held, no block and no taps yet |
| MultiCupControlScreen.CupCard.ChildPressIn | src/features/niteControl/MultiCupControlScreen.tsx:116 | a button is held |
| MultiCupControlScreen.CupCard.ChildPressOut | src/features/niteControl/MultiCupControlScreen.tsx:117 | no button is held |
| MultiCupControlScreen.CupCard.ChildPress | src/features/niteControl/MultiCupControlScreen.tsx:118-119 | the block runs until 600 ms after the press |
| MultiCupControlScreen.CupCard.CardTap | src/features/niteControl/MultiCupControlScreen.tsx:103-106 | the tap is handled exactly when `CardTapAccepted`, and only then counted |
| MultiCupControlScreen.SwitchStep | src/features/niteControl/MultiCupControlScreen.tsx:400-405 | one more connect or disconnect call extends the cups switched by one id |
| MultiCupControlScreen.SwitchedAll | src/features/niteControl/MultiCupControlScreen.tsx:416-421 | once every id is done, every cup is switched |
| MultiCupControlScreen.Screen.constructor | src/features/niteControl/MultiCupControlScreen.tsx:252-263 | the initial state: nothing selected, no modal, not connecting, progress 0 |
| MultiCupControlScreen.Screen.HandleCupSelect | src/features/niteControl/MultiCupControlScreen.tsx:360-370 | the selection after `Toggle` |
| MultiCupControlScreen.Screen.HandleSelectAll | src/features/niteControl/MultiCupControlScreen.tsx:372-378 | the selection after `SelectAllChoice` over the cup ids |
| MultiCupControlScreen.Screen.HandleRename | src/features/niteControl/MultiCupControlScreen.tsx:336-341 | the cup becomes the rename target, its name is the draft, and the modal is open |
| MultiCupControlScreen.Screen.HandleSaveRename | src/features/niteControl/MultiCupControlScreen.tsx:343-351 | with a target and a name that is not blank, the cup is renamed to the trimmed name and the modal state is reset; otherwise nothing changes |
| MultiCupControlScreen.Screen.HandleCancelRename | src/features/niteControl/MultiCupControlScreen.tsx:353-357 | the modal state is reset without renaming |
| MultiCupControlScreen.Screen.HandleConnectAll | src/features/niteControl/MultiCupControlScreen.tsx:392-414 | nothing while already connecting; otherwise every cup is connected, progress ends at 100 (0 with no cups) and the flag is off; the store ends not connecting and without an error once a cup was connected, and its flag and error are untouched otherwise |
| MultiCupControlScreen.Screen.HandleDisconnectAll | src/features/niteControl/MultiCupControlScreen.tsx:416-421 | every cup is disconnected; the store's selection is the old one with each cup id deselected in turn, so no cup id remains and ids of no cup stay |
| MultiCupControlScreen.Screen.HandleBulkConnect | src/features/niteControl/MultiCupControlScreen.tsx:423-430 | exactly the selected cups are connected, then the selection is cleared; the store ends not connecting and without an error when something was selected, and its flag and error are untouched otherwise |
| MultiCupControlScreen.Screen.HandleBulkDisconnect | src/features/niteControl/MultiCupControlScreen.tsx:432-439 | exactly the selected cups are disconnected, the store's selection is `DeselectEach` of the selected ids so none of them is left in it, and the screen's selection is cleared |
| MultiCupControlScreen.Screen.HandleDelete | src/features/niteControl/MultiCupControlScreen.tsx:441-462 | on Remove, the cup is removed and leaves the selection; otherwise nothing changes |
| MultiCupControlScreen.Screen.HandleBulkDelete | src/features/niteControl/MultiCupControlScreen.tsx:464-483 | nothing for an empty selection or without Remove; otherwise every selected id is removed, in order, and the selection is cleared |
| MultiCupControlScreen.Screen.HandleAddPress | src/features/niteControl/MultiCupControlScreen.tsx:522-529 | refused at 18 cups or more; otherwise the add options open |
| ColorWheelScreen.InitialColor | src/features/niteControl/ColorWheelScreen.tsx:29-31 | the route colour exactly when it starts with `#` and has a length of 7 or 9 UTF-16 code units, otherwise `#00FF88` |
| ColorWheelScreen.AstralColorKept | src/features/niteControl/ColorWheelScreen.tsx:29-31 | `#` and three characters outside the Basic Multilingual Plane is length 7, so it is kept |
| ColorWheelScreen.InitialBrightness | src/features/niteControl/ColorWheelScreen.tsx:32-33 | the brightness of the cup with the route's id, or 22 when there is no such cup |
| ColorWheelScreen.BrightnessAt | src/features/niteControl/ColorWheelScreen.tsx:72-77 | nothing without a track; otherwise a value in `[0, 100]`, 0 at or left of the track and 100 at or right of its end |
| ColorWheelScreen.RatioEnds | src/features/niteControl/ColorWheelScreen.tsx:74 | the clamped ratio is 0 left of the track and 1 right of it |
| ColorWheelScreen.BrightnessMonotone | src/features/niteControl/ColorWheelScreen.tsx:72-77 | dragging further right never lowers the brightness |
| ColorWheelScreen.KelvinAt | src/features/niteControl/ColorWheelScreen.tsx:81-84 | nothing without a track; otherwise a temperature in `[1000, 6500]`, 1000 at the left end and 6500 at the right |
| ColorWheelScreen.ThumbLeft | src/features/niteControl/ColorWheelScreen.tsx:242-250 | a thumb's left edge is never negative, is 0 without a track, and keeps the thumb inside a track at least 26 wide |
| ColorWheelScreen.FillWidth | src/features/niteControl/ColorWheelScreen.tsx:235 | the fill is `brightness / 100` of the track, 0 without a track, and inside the track for 0..100 |
| ColorWheelScreen.Screen.constructor | src/features/niteControl/ColorWheelScreen.tsx:29-39 | the colour and brightness start from their fallbacks; 4000 K; not applying; no track measured |
| ColorWheelScreen.Screen.HandleColorChange | src/features/niteControl/ColorWheelScreen.tsx:61-68 | the wheel's colour becomes the selected colour |
| ColorWheelScreen.Screen.LayoutBrightnessTrack | src/features/niteControl/ColorWheelScreen.tsx:227 | the brightness track's measured width is kept |
| ColorWheelScreen.Screen.LayoutTemperatureTrack | src/features/niteControl/ColorWheelScreen.tsx:165 | the temperature track's measured width is kept |
| ColorWheelScreen.Screen.UpdateBrightnessByX | src/features/niteControl/ColorWheelScreen.tsx:72-77 | the brightness becomes `BrightnessAt`, or stays without a track |
| ColorWheelScreen.Screen.UpdateKelvinByX | src/features/niteControl/ColorWheelScreen.tsx:81-93 | the temperature becomes `KelvinAt` and the colour `kelvinToHex` of it, or both stay without a track |
| ColorWheelScreen.Screen.PickKelvin | src/features/niteControl/ColorWheelScreen.tsx:204-214 | a swatch sets the temperature and its colour |
| ColorWheelScreen.Screen.HandleConfirm | src/features/niteControl/ColorWheelScreen.tsx:95-109 | ignored while applying (the button is disabled); otherwise the cup's colour is set and its brightness sent, the screen goes back only when both succeed, and the flag is off at the end either way |
| AuthValidation.EmailError | src/features/auth/LoginScreen.tsx:66-72 | a blank address is "required"; otherwise `validateEmail` on the untrimmed address decides; no message exactly when both pass |
| SignupScreen.With | src/features/auth/SignupScreen.tsx:72-95 | setting one field changes that field only |
| SignupScreen.NameError | src/features/auth/SignupScreen.tsx:108-123 | blank is "required", ahead of the minimum length 2 on the trimmed name; no message exactly when the trimmed name is 2 UTF-16 code units or more |
| SignupScreen.PasswordError | src/features/auth/SignupScreen.tsx:135-141 | only the empty raw password is "required"; otherwise `validatePassword` decides |
| SignupScreen.ConfirmError | src/features/auth/SignupScreen.tsx:144-150 | empty is "please confirm"; otherwise it must equal the password |
| SignupScreen.FormErrors | src/features/auth/SignupScreen.tsx:97-154 | each field's message, and all of them empty exactly when the form is acceptable |
| SignupScreen.Screen.constructor | src/features/auth/SignupScreen.tsx:22-38 | empty fields and messages, terms not accepted, no calls and no alerts |
| SignupScreen.Screen.Change | src/features/auth/SignupScreen.tsx:72-95 | a change handler sets its own field and clears its own message only |
| SignupScreen.Screen.SetAcceptTerms | src/features/auth/SignupScreen.tsx:320 | the terms switch sets the flag |
| SignupScreen.Screen.ValidateForm | src/features/auth/SignupScreen.tsx:97-154 | the messages become `FormErrors`, and the result is true exactly when the form is acceptable |
| SignupScreen.Screen.HandleSignup | src/features/auth/SignupScreen.tsx:156-170 | `signup` is called, with the trimmed e-mail and names and the raw password, exactly when the form is acceptable and the terms are accepted; an acceptable form without the terms alerts instead |
| LoginScreen.PasswordError | src/features/auth/LoginScreen.tsx:75-81 | a blank password is "required"; otherwise a raw length below 6 UTF-16 code units is "too short" |
| LoginScreen.AstralPasswordLongEnough | src/features/auth/LoginScreen.tsx:75-81 | three characters outside the Basic Multilingual Plane are six code units and pass |
| LoginScreen.SpacesAreNoPassword | src/features/auth/LoginScreen.tsx:75-81 | six spaces are long enough but still count as no password |
| LoginScreen.Screen.constructor | src/features/auth/LoginScreen.tsx:22-25 | empty fields, no messages and no calls |
| LoginScreen.Screen.SetEmail | src/features/auth/LoginScreen.tsx:166 | typing sets the e-mail |
| LoginScreen.Screen.SetPassword | src/features/auth/LoginScreen.tsx:178 | typing sets the password |
| LoginScreen.Screen.ValidateForm | src/features/auth/LoginScreen.tsx:58-84 | both messages are computed independently, and the result is true exactly when both checks pass |
| LoginScreen.Screen.HandleLogin | src/features/auth/LoginScreen.tsx:86-95 | `login(email.trim(), password)` is called exactly when the form is valid |
| ResetPasswordScreen.Screen.constructor | src/features/auth/ResetPasswordScreen.tsx:22-24 | empty e-mail, no message, not sent, no calls and no alerts |
| ResetPasswordScreen.Screen.SetEmail | src/features/auth/ResetPasswordScreen.tsx:225 | typing sets the e-mail |
| ResetPasswordScreen.Screen.ValidateForm | src/features/auth/ResetPasswordScreen.tsx:68-82 | blank is "required"; otherwise `validateEmail` decides; true exactly when both pass |
| ResetPasswordScreen.Screen.HandleResetPassword | src/features/auth/ResetPasswordScreen.tsx:84-93 | the trimmed e-mail is sent only after validation passes, and the sent flag is set only when the call resolves |
| ResetPasswordScreen.Screen.HandleResendEmail | src/features/auth/ResetPasswordScreen.tsx:103-112 | the same gate; a resolved call shows the "Email Sent" alert |
| ShopScreen.FilteredProducts | src/features/shop/ShopScreen.tsx:69-74 | exactly the products whose name or description contains the query (case-insensitively) and whose category is "all" or equal, each as often as in the list, in their original order |
| ShopScreen.NoFilterKeepsAll | src/features/shop/ShopScreen.tsx:69-74 | an empty query with "all" keeps every product |
| ShopScreen.CategoryIsExact | src/features/shop/ShopScreen.tsx:72-73 | a category other than "all" keeps only products of exactly that category |
| ShopScreen.UnusedCategoryListsNothing | src/features/shop/ShopScreen.tsx:72-73 | a category that no product carries lists nothing |
| ShopScreen.MockCategories | src/store/shopStore.ts:93-115 | the store's products are in the categories "Putters", "Balls" and "Accessories" |
| ShopScreen.CategoryTabsListNothing | src/features/shop/ShopScreen.tsx:62-73 | each of the tabs `cups`, `accessories`, `apparel` and `equipment` lists no product of the store, whatever the query |
| ShopScreen.ProductCategoryTabs | src/features/shop/ShopScreen.tsx:62-67 | tabs taken from the products' own categories: each category once, and only categories some product carries |
| ShopScreen.ProductTabsListSomething | src/features/shop/ShopScreen.tsx:62-73 | with those tabs and no query, every tab lists at least one product |
| ShopScreen.ItemCountIsCartCount | src/features/shop/ShopScreen.tsx:87-89 | the screen's item count equals the sum of the cart's quantities |
| ShopScreen.BadgeIffNonEmpty | src/features/shop/ShopScreen.tsx:181 | with positive quantities the badge shows exactly for a non-empty cart, and the count is at least the number of items |
| ProductDetailScreen.StepDown | src/features/shop/ProductDetailScreen.tsx:158 | the minus button is one less, but never below 1 |
| ProductDetailScreen.StepDownUndoesUp | src/features/shop/ProductDetailScreen.tsx:158-165 | minus after plus returns to any quantity of 1 or more |
| ProductDetailScreen.TotalPrice | src/features/shop/ProductDetailScreen.tsx:199 | the total is at least the unit price for quantities of 1 or more, and is the price for 1 |
| ProductDetailScreen.TotalStep | src/features/shop/ProductDetailScreen.tsx:165-199 | each plus adds the unit price once to the total |
| ProductDetailScreen.ImageIndex | src/features/shop/ProductDetailScreen.tsx:97-100 | `round(offsetX / width)` is never negative for a non-negative offset |
| ProductDetailScreen.ImageIndexAtMost | src/features/shop/ProductDetailScreen.tsx:98 | an offset no further than page `k` gives an index of at most `k` |
| ProductDetailScreen.PageIndex | src/features/shop/ProductDetailScreen.tsx:98 | resting exactly on page `k` gives index `k` |
| ProductDetailScreen.Screen.constructor | src/features/shop/ProductDetailScreen.tsx:17-22 | quantity 1 and image 0 |
| ProductDetailScreen.Screen.Decrement | src/features/shop/ProductDetailScreen.tsx:158 | the quantity after `StepDown`, still 1 or more |
| ProductDetailScreen.Screen.Increment | src/features/shop/ProductDetailScreen.tsx:165 | the quantity grows by exactly 1 |
| ProductDetailScreen.Screen.ScrollEnded | src/features/shop/ProductDetailScreen.tsx:97-100 | the selected image becomes `ImageIndex` of the offset |
| ProductDetailScreen.Screen.HandleAddToCart | src/features/shop/ProductDetailScreen.tsx:41-47 | with a product selected, it is added in the chosen quantity and the screen goes back; otherwise nothing changes |
| QrScanScreen.CupId | src/features/niteControl/QrScanScreen.tsx:33-39 | the trimmed code unless it is missing or blank, otherwise `qr-` and the time; never empty |
| QrScanScreen.CupName | src/features/niteControl/QrScanScreen.tsx:34-40 | "Cup " and then the last four characters (Unicode scalar values) of the id, or all of a shorter id |
| QrScanScreen.NewCupFor | src/features/niteControl/QrScanScreen.tsx:33-41 | the added cup has the derived id and name and is not connected |
| QrScanScreen.FallbackNameIsDigits | src/features/niteControl/QrScanScreen.tsx:33-34 | without a usable code, and with a timestamp of four digits or more, the name ends in four digits of the time |
| QrScanScreen.Screen.constructor | src/features/niteControl/QrScanScreen.tsx:15-17 | no code, not scanned, nothing added |
| QrScanScreen.Screen.SetCode | src/features/niteControl/QrScanScreen.tsx:15 | typing sets the code |
| QrScanScreen.Screen.HandleBarCodeScanned | src/features/niteControl/QrScanScreen.tsx:30-36 | the first scan adds one cup and navigates; every later scan does nothing |
| QrScanScreen.Screen.OnAdd | src/features/niteControl/QrScanScreen.tsx:38-42 | the typed code (or a timestamp id when it is blank) is added and the screen navigates |
| NiteControlScreen.ConnectedCup | src/features/niteControl/NiteControlScreen.tsx:45 | the first connected cup, or nothing exactly when none is connected |
| NiteControlScreen.BatteryLevel | src/features/niteControl/NiteControlScreen.tsx:47 | the connected cup's battery level, or 0 without one |
| NiteControlScreen.AvailableCup | src/features/niteControl/NiteControlScreen.tsx:99 | the first cup that is not connected, or nothing exactly when all are |
| NiteControlScreen.ConnectFirstAvailable | src/features/niteControl/NiteControlScreen.tsx:99-103 | with distinct ids, connecting the first available cup changes only that cup, and afterwards a cup is connected |
| NiteControlScreen.ReconnectOnly | src/store/niteControlStore.ts:152-157 | with distinct ids, switching a cup by its id changes that cup's connection only |
| NiteControlScreen.PreviewOpacity | src/features/niteControl/NiteControlScreen.tsx:431 | `brightness / 100` when the light is on and a cup is connected, otherwise 0.3; within `[0, 1]` for brightness 0..100 |
| NiteControlScreen.Screen.constructor | src/features/niteControl/NiteControlScreen.tsx:54-58 | not scanning, light on, ambient off, scrolling on, no alerts |
| NiteControlScreen.Screen.IsConnected | src/features/niteControl/NiteControlScreen.tsx:45-46 | a cup is connected exactly when some cup of the store is |
| NiteControlScreen.Screen.HandleConnect | src/features/niteControl/NiteControlScreen.tsx:93-112 | the first cup that is not connected is connected, or "No Cups Available" is alerted; scanning is off at the end |
| NiteControlScreen.Screen.HandleDisconnect | src/features/niteControl/NiteControlScreen.tsx:114-132 | once confirmed, the reported cup is disconnected and leaves the selection; otherwise nothing changes |
| NiteControlScreen.Screen.PressConnectionButton | src/features/niteControl/NiteControlScreen.tsx:184 | with a cup connected: a confirmed press disconnects it and deselects it, an unconfirmed one changes nothing, and no alert or connecting state changes; with none: the first available cup connects with the store not connecting and without an error, or the "No Cups Available" alert is added and the cups, flag and error stay; the selection is kept |
| NiteControlScreen.Screen.HandleColorSelect | src/features/niteControl/NiteControlScreen.tsx:134-137 | `setColor` on the store: the current colour and the selected cups' colour |
| NiteControlScreen.Screen.ToggleLight | src/features/niteControl/NiteControlScreen.tsx:141-144 | the light flag flips |
| NiteControlScreen.Screen.ToggleAmbientMode | src/features/niteControl/NiteControlScreen.tsx:146-149 | the ambient flag flips |
| NiteControlScreen.Screen.PressColor | src/features/niteControl/NiteControlScreen.tsx:200-208 | a colour swatch or quick button does nothing while no cup is connected, and is `setColor` otherwise |
| NiteControlScreen.Screen.SwitchLight | src/features/niteControl/NiteControlScreen.tsx:245-249 | the light switch flips the flag only while a cup is connected |
| NiteControlScreen.Screen.SwitchAmbient | src/features/niteControl/NiteControlScreen.tsx:289-293 | the ambient switch flips the flag only while a cup is connected |
| NiteControlScreen.Screen.MountWheel | src/features/niteControl/NiteControlScreen.tsx:349-359 | the wheel is 180 wide, shows the current colour, and is disabled exactly when nothing is connected |
| NiteControlScreen.Screen.WheelInteractionStart | src/features/niteControl/NiteControlScreen.tsx:357 | touching the wheel turns scrolling off |
| NiteControlScreen.Screen.WheelInteractionEnd | src/features/niteControl/NiteControlScreen.tsx:358 | releasing the wheel turns scrolling back on |
| NiteControlScreen.Screen.Opacity | src/features/niteControl/NiteControlScreen.tsx:431 | the preview opacity for the screen's state |
| HomeScreen.Greeting | src/features/home/HomeScreen.tsx:80-85 | morning before 12, afternoon from 12 to before 18, evening from 18 on, each exactly |
| HomeScreen.UnreadAnnouncements | src/features/home/HomeScreen.tsx:87 | exactly the unread announcements, each as often as in the list, in order |
| HomeScreen.UnwatchedVideos | src/features/home/HomeScreen.tsx:88 | exactly the unwatched videos, each as often as in the list, in order |
| HomeScreen.AllUnreadIffNoneRead | src/features/home/HomeScreen.tsx:87 | the unread list is the whole list exactly when nothing has been read |
| HomeScreen.BadgeIffSomethingUnread | src/features/home/HomeScreen.tsx:172 | the badge shows exactly when some announcement is unread |
| HomeScreen.FirstN | src/features/home/HomeScreen.tsx:179 | `slice(0, n)` is the first `n` elements, or all of a shorter list |
| HomeScreen.ShownAnnouncements | src/features/home/HomeScreen.tsx:179 | at most three announcements are listed, as a prefix, and exactly three when there are that many |
| HomeScreen.ShownPhotos | src/features/home/HomeScreen.tsx:269 | at most six photos are shown, as a prefix, and exactly six when there are that many |
| HomeScreen.PhotoTap | src/features/home/HomeScreen.tsx:72-78 | a tap unlikes a liked photo and likes any other, for that photo's id |

## Findings

| source | as written | input that shows it | evidently intended | confidence | as-written member | corrected member |
|---|---|---|---|---|---|---|
| src/components/ui/ColorWheel.tsx:150-156 | the effect depends on `springConfig`, a new object on every render. It therefore runs after the render that each `updateColor` to a new colour causes, and resets `lastColorRef` to `initialColor` before the timer fires | `initialColor` "#ff0000" and a parent that does not pass the delivered colour back. Drag to "#00ff00" and let the timer fire, then drag to "#00ff00" again and let it fire: "#00ff00" is delivered twice, and after each drag the selector springs back to red | the effect runs only when `initialColor` changes, so the debounce compares each colour with the one delivered last and never delivers the same colour twice in a row | not executed | ColorWheelController.RepeatedDragRedelivers | ColorWheelController.IntendedDragDeliversOnce |
| src/features/shop/ShopScreen.tsx:62-67 | the category tab ids are `cups`, `accessories`, `apparel` and `equipment`, and the filter compares them exactly with `product.category` | the store's products, whose categories are "Putters", "Balls" and "Accessories", with any tab but "All" selected: the list is empty | tabs whose ids are the categories the products carry, so that each tab lists its products | not executed | ShopScreen.CategoryTabsListNothing | ShopScreen.ProductTabsListSomething |

## Left out

- Floating point: every number is an exact `real`. IEEE-754 rounding in money, slider and colour arithmetic is not modelled, and `Math.PI` is its decimal expansion.
- `Math.sqrt`, `Math.atan2`, `Math.cos` and `Math.sin` are uninterpreted functions. Properties that need them to be exact say so in their requires (`SqrtSound`, `PolarSound`). The inside-the-wheel test uses squared distances.
- The guards for values that cannot be NaN or infinite once the inputs are finite (hue, saturation, angle, position) and the `try`/`catch` fallbacks for exceptions that cannot happen are collapsed into the checks that can fail. NaN and the infinities are one `NonFinite` case.
- The wheel's angle is `atan2` of the touch, so `ColorOfOffset` states its result only when the square root is not negative. That is the only case the code can reach.
- Animations, springs, haptics, gesture configuration, SVG drawing and styles are not modelled; a spring is taken to reach its target at once. This includes the selector's `colorOpacity` pulse and the segment path coordinates.
- The debounce delays (16 ms and 20 ms) and the mock network delays of both stores are not modelled. A timer firing is an explicit event, and each store action is one sequential transition. `ColorWheelController.Update` and `Wheel.UpdateColor` take the render and the effect that `setCurrentColor` causes to run before the 16 ms timer fires, so `lastColorRef` is reset in the same step as the update; the finding about the effect relies on this ordering. State changes made before an `await` and seen by other handlers mid-call are not modelled.
- QrScanScreen.Screen.HandleBarCodeScanned: the `scanned` guard is React state, which a handler sees only after the next render, so two scan events delivered before that render would both add a cup; the model's guard takes effect at once and handles scans one at a time.
- Persistence: the choice of persisted fields (`partialize`) is modelled for both stores (`NiteControlStore.Store.Partialize`, `ShopStore.Store.Partialize`), and the actions that must not touch persisted state say so; the storage middleware and rehydration are not modelled.
- Calls into code that is not part of this model are recorded, not executed:
  - `addCup`, `removeCup` and `setCupBrightness`, which the screens call but the cup-control store does not define. As written each such call throws a `TypeError`; the model assumes the action exists, so `QrScanScreen.Screen.OnAdd` and `HandleBarCodeScanned` still navigate and `ColorWheelScreen.Screen.HandleConfirm` goes back when `applyOk` holds, whereas the source's `handleConfirm` always takes its failure path;
  - the auth store's `login`, `signup` and `resetPassword`, and its `isLoading` flag;
  - the home store's `likePhoto` and `unlikePhoto`, which are modelled as the action a tap dispatches.
- Confirmation dialogs (Remove, Disconnect) are a `confirmed` parameter. Whether an awaited call resolves is a `resolves` or `applyOk` parameter. `Date.now()` and the hour of the day are parameters as well.
- Navigation, the camera and its permission flow, the image picker and pull-to-refresh are device or framework I/O.
- `validateEmail`, `validatePassword`, `isLikelyValidPromo`, `kelvinToHex` and `formatRelativeTime` are not part of this model. The first four are parameters; the last is unused by the core.
- `toLowerCase` and `toUpperCase` map ASCII letters only.
- Strings are sequences of Unicode scalar values, so a lone UTF-16 surrogate cannot occur. `length` is modelled in code units (`Text.JsLength`); slicing is not.
- Text.LastN: counts Unicode scalar values, while `slice(-n)` counts UTF-16 code units, so the two differ when the tail holds a character outside the Basic Multilingual Plane, and a code-unit slice that splits such a character cannot be represented; `Text.LastNInBmp` proves they agree inside the plane.
- QrScanScreen.CupName: the last four characters of the id are counted as in `LastN`, not in UTF-16 code units, for the same reason.
- The shop screen's `handleAddToCart` is `addToCart(product)` with the default quantity 1, so it is `ShopStore.Store.AddToCart`. Its haptic feedback is left out.
- NiteControlScreen.BatteryLevel: the `|| 0` fallback for a battery level that is NaN is not modelled; levels are exact reals.
- ColorWheelScreen.InitialBrightness: the `typeof cup?.brightness === 'number'` test is always true for a found cup, because brightness is typed as a number.
- ColorWheelScreen.KelvinAt: the `clamp` helper of the temperature slider is not part of this model and is taken to be the usual `max(lo, min(hi, x))`.
- Window and track widths: the product page's window width is taken to be positive. Track widths of 0 or less are the "no track" case.
- ProfileScreen, WelcomeScreen, TabNavigator, Switch and the build configuration contain presentation or wiring only, and are not part of this model.
