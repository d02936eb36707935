# Mandala generator, modelled in Dafny

This project models the `Mandala.Mandala` generator of `mandala.js`. The
generator draws a random set of cubic Bezier curves into an SVG group. It then
places rotated and mirrored copies of that group around a centre. It can also
animate the curves, giving each one a fresh path and stroke colour on every
round.

The model is one class, `Mandala.Mandala`, with these fields:

- `animating`: the animation flag.
- `group`: the curves of `this.group`, or `None` before the first `init`.
- `surface`: the `use` placements added to the drawing surface.
- `cursor`: the position of the next random draw.
- `params`: a `ParamStore` object. All generators share it, because `params`
  lives on the prototype, not on each instance.

Randomness is injected. `source` is a supply of raw values by position.
`randomIntBetween(lo, hi)` maps one raw value `u` to `lo + u % (hi - lo + 1)`.
Each `randomFloatBetween(0, 1)` is a `Coord` token that records its own
position. Every value the generator computes is therefore a function of the
supply and of the position where the computation started:

- `ColourAt`: the colour text `randomColour()` writes.
- `CurveText`: the path text `makeCurvePath()` writes.
- `CurveAt`: the curve `createCurve()` makes.
- `GroupOf`: the group `init` builds.
- `Scene`: the placements `init` adds.
- `Round`: the `animate` requests one `doAnimation()` issues.

Each method is proved equal to its function. Lemmas then prove what the
generator promises about those functions.

Modules:

| module | contents |
|---|---|
| `Wrappers` | `Option` |
| `JsText` | the JavaScript built-ins used: loop pass counts, `substring`, `toString(16)`, `parseInt(s, 16)` |
| `Random` | the injected supply, `randomIntBetween`, `zeroPad` |
| `Params` | the parameter record, `$.extend`, the values `init` draws |
| `Colour` | the colour text and the hex-parse step of `contrastingColour` |
| `CurvePath` | path text, a reader for it, and the text `makeCurvePath` writes |
| `Group` | curves, their fill, and the group `init` builds |
| `Surface` | the rotated and mirrored placements |
| `Animation` | the requests of one animation round |
| `Mandala` | the generator class and its shared parameter object |

Two behaviours are worth knowing before reading the model:

- The comment at mandala.js:19-24 describes the picture as radial
  repetitions of a shape made of two reflected copies of the lines. The loop
  of `init` (mandala.js:55-66), however, runs `i < radialRepetitionCount * 2`
  and adds a plain and a mirrored `use` on each pass. So it adds `4 *
  radialRepetitionCount` placements, not `2 * radialRepetitionCount`, and its
  angles `i * 360 / radialRepetitionCount` go twice around the circle: every
  direction carries two plain and two mirrored copies
  (`Surface.SceneMultiplicity`). The model follows the loop.
- `startAnimation` (mandala.js:153-156) sets the flag and calls `doAnimation`
  without checking whether it was already set. Called while animating, it
  issues a fresh round of requests, whose child 0 request carries its own
  callback.

## Model

| member | source | states |
|---|---|---|
| Mandala.ParamStore.constructor | mandala.js:26-28 | the prototype's `params` holds `doFill: false` and nothing else |
| Params.Merge | mandala.js:29-31 | `$.extend` is key by key: the keys are the union, the update's values win, every other key keeps its value |
| Mandala.Mandala.Param | mandala.js:29-31 | `param` replaces the shared record by its merge with the update |
| Mandala.ParamIsShared | mandala.js:25-31 | `param` on one generator changes the record another generator on the same prototype reads |
| Mandala.Mandala.constructor | mandala.js:14-17 | a new generator is not animating, has no group and leaves the surface as it was |
| Random.IntBetween | mandala.js:36-46 | a draw of `randomIntBetween(lo, hi)` lies in [lo, hi] |
| Random.IntBetweenReaches | mandala.js:36-46 | every integer of [lo, hi] is the draw of some raw value |
| Mandala.Mandala.RandomIntBetween | mandala.js:36-46 | the result is in [lo, hi], is the draw of the raw value at the cursor, and consumes one draw |
| Params.InitUpdate | mandala.js:34-48 | `init` merges exactly `animationTime`, `curvePoints`, `radialRepetitionCount` and `lineCount`: the time is 10000 and each count lies within its min/max bounds |
| Params.InitKeepsOtherKeys | mandala.js:34-48 | after the merge every other key keeps its value, so `doFill` and the six bounds are unchanged and `init` can run again |
| Mandala.Mandala.DrawCounts | mandala.js:34-48 | the record becomes its merge with the time and the three counts drawn in order, consuming three draws |
| Mandala.Mandala.Init | mandala.js:32-66 | `init` merges the four values, clears the surface and builds a group of exactly `lineCount` curves from the following draws; the surface is then exactly the placements of `Scene`; the animation flag is unchanged |
| Mandala.Mandala.BuildGroup | mandala.js:49-53 | the group holds `max(0, lineCount)` curves, the i-th being `createCurve()` on the i-th block of draws |
| Group.GroupOf | mandala.js:51-53 | a group built by m passes has m curves |
| Group.GroupBlocks | mandala.js:51-53 | the group is the run i -> the curve from the i-th block of draws |
| Group.GroupElement | mandala.js:51-53 | curve i of the group is `createCurve()` on the i-th block of draws |
| Group.CurveStartNext | mandala.js:51-53 | each curve's draws begin where the previous curve's end |
| Mandala.Mandala.PlaceCopies | mandala.js:55-66 | the surface gains exactly the placements of `Scene(radialRepetitionCount)` |
| Surface.SceneUpTo | mandala.js:55-66 | m passes add 2m placements; placement j is mirrored exactly when j is odd and has rotation step j / 2 |
| Surface.Scene | mandala.js:55-66 | `init` adds `4 * max(0, radialRepetitionCount)` placements |
| Surface.DirectionOfStep | mandala.js:56 | a step of the second turn points where the step `radialRepetitionCount` earlier does |
| Surface.FacingUpTo | mandala.js:55-66 | the number of placements facing a direction after m passes, plain or mirrored |
| Surface.SceneMultiplicity | mandala.js:55-66 | each of the `radialRepetitionCount` directions carries exactly two plain and two mirrored placements |
| Mandala.Mandala.RandomFloat | mandala.js:69 | a float draw is the token of the current position, and consumes one draw |
| Mandala.Mandala.RandomPoint | mandala.js:68-70 | a point is x then y, drawn from two consecutive positions |
| Random.ZeroPadShape | mandala.js:73-75 | `zeroPad` leaves a long enough string alone; otherwise it prefixes '0's up to the width |
| JsText.ToHex | mandala.js:73-75 | `toString(16)` writes lower-case hex digits with no leading zero: one digit below 16, at most two below 256 |
| JsText.ToHexValue | mandala.js:73-75 | the digits `toString(16)` writes denote the number |
| Colour.Channel | mandala.js:73-75 | `randomIntBetween(0, 255)` is below 256 |
| Colour.ChannelIsDraw | mandala.js:73-75 | a channel is exactly the draw `randomIntBetween(0, 255)` makes of its raw value |
| Random.ZeroPad | mandala.js:73-75 | `zeroPad(s, width)`; `ZeroPadShape` and `HexBytePadded` state what it writes |
| Colour.RgbHex | mandala.js:71-77 | the colour text of three channels; `RgbHexFormat` states its format and `ChannelsRoundTrip` that it parses back |
| Colour.ColourAt | mandala.js:71-77 | the colour `randomColour()` writes from the draws at a position; `ColourAtChannels` ties it to `RgbHex` |
| Colour.HexBytePadded | mandala.js:73-75 | `zeroPad(n.toString(16), 2)` is the two hex digits of n, high digit first |
| Colour.HexByteShape | mandala.js:73-75 | a channel is written as exactly two lower-case hex digits |
| Colour.RgbHexFormat | mandala.js:71-77 | a colour is 7 characters: '#' and six lower-case hex digits |
| Colour.ColourAtChannels | mandala.js:71-77 | the colour drawn at a position is written from the channels of the next three draws |
| Mandala.Mandala.RandomColour | mandala.js:71-77 | `randomColour()` returns the colour of the three draws at the cursor, and consumes three draws |
| JsText.Substring | mandala.js:80-82 | `substring(a, b)` is the slice [a, b) when the ends are in range, and never longer than the string |
| JsText.LeadingDigits | mandala.js:80-82 | `parseInt` reads the longest prefix of hex digits |
| JsText.ZeroPrefixValue | mandala.js:80-82 | leading zeros do not change the value `parseInt` reads |
| JsText.ParseInt16 | mandala.js:80-82 | `parseInt(s, 16)` is NaN on the empty string and negative only when `s` starts with '-'; `ParseInt16OfDigits` gives its value on a run of digits |
| JsText.ParseInt16OfDigits | mandala.js:80-82 | `parseInt(s, 16)` of a non-empty run of lower-case hex digits is its value |
| Group.ContrastingColour | mandala.js:78-86 | the fill `contrastingColour(stroke)` gives, kept as the three channels it parses from the stroke; `FillFollowsDoFill` states what they are |
| Colour.ParseChannels | mandala.js:78-83 | `contrastingColour` reads characters [1,3), [3,5), [5,7) as hex; a string too short for a channel makes it NaN |
| Colour.PaddedHexParses | mandala.js:80-82 | a zero-padded run of hex digits parses to the run's value |
| Colour.HexByteParses | mandala.js:80-82 | a written channel parses back to its value |
| Colour.ChannelsOfJoin | mandala.js:80-82 | on '#' and three two-character runs, the three substrings parsed are those runs |
| Colour.ChannelsRoundTrip | mandala.js:71-83 | parsing a colour `randomColour` wrote gives back exactly its three channels |
| CurvePath.SepText | mandala.js:94-107 | the characters of each separator `makeCurvePath` writes; `CurveSkeleton` states where they fall |
| CurvePath.SkeletonAppend | mandala.js:105-107 | text appended by `str +=` keeps its separators after those already written |
| CurvePath.SegmentSkeleton | mandala.js:94-107 | an `M` command writes "M ", a `C` command " C ", ", ", ", " and an `S` command " S ", ", " around its numbers |
| CurvePath.CurveSkeleton | mandala.js:87-110 | whatever the numbers, the separators of the path read "M ", " C ", ", ", ", ", then " S ", ", " exactly max(0, n - 2) times |
| CurvePath.CurveText | mandala.js:87-110 | the path text `makeCurvePath()` builds from the draws at a position; `CurvePathShape` and `CurveSkeleton` state its shape |
| CurvePath.ReadSegment | mandala.js:94-107 | the path reader consumes at least one and at most all remaining pieces |
| CurvePath.PathTextAppend | mandala.js:105-107 | appending a command appends its text |
| CurvePath.ReadSegmentText | mandala.js:94-107 | the reader reads back any single written command |
| CurvePath.ParsePathText | mandala.js:94-107 | the reader reads back any written list of commands |
| CurvePath.CurveSegmentsShape | mandala.js:87-110 | the commands are one `M`, one `C`, then max(0, n - 2) `S`; the three draws of the unused colour sit between the `C` points and the first `S` |
| CurvePath.CurveTextStep | mandala.js:102-108 | each pass of the loop, from i = 2, appends one `S` command |
| CurvePath.CurveTextSegments | mandala.js:87-110 | the path text is the text of those commands |
| CurvePath.CurvePathShape | mandala.js:87-110 | the path reads back as one `M`, one `C` and max(0, n - 2) `S` commands |
| Mandala.Mandala.MakeCurvePath | mandala.js:87-110 | `makeCurvePath()` returns the path text of the draws at the cursor; this includes the colour at line 99, which is drawn but never used |
| Mandala.Mandala.AddSmoothSegments | mandala.js:102-108 | the loop appends the `S` commands for `i = 2 .. curvePoints - 1` and consumes four draws per pass |
| Mandala.Mandala.CreateCurve | mandala.js:111-124 | `createCurve()` draws the stroke, then the path; the width is "1%"; the fill is 'none' or the contrast of the stroke |
| Group.CurveAt | mandala.js:111-124 | the curve `createCurve()` makes from the draws at a position; `FillFollowsDoFill` and `CurvePathCommands` state its fill and path |
| Params.Truthy | mandala.js:116 | `if (this.params.doFill)`: `undefined`, `false` and 0 are false, every other value true |
| Params.LoopBound | mandala.js:102 | the bound a loop `i < this.params.key` compares with (here and at lines 51 and 55): `undefined` stops the loop at once, a boolean counts as 0 or 1 |
| Group.FillFollowsDoFill | mandala.js:111-124 | the fill is 'none' exactly when `doFill` is false; otherwise it is computed from the channels the stroke was drawn with |
| Group.GroupFill | mandala.js:111-124 | every curve of the group is filled 'none' exactly when `doFill` is false |
| Group.CurvePathCommands | mandala.js:121 | each curve's path reads back as one `M`, one `C` and max(0, n - 2) `S` commands |
| Group.GroupPaths | mandala.js:51-53 | so does the path of every curve of the group |
| Mandala.Mandala.AnimateRequest | mandala.js:133-150 | the request for a child carries a fresh path, then a fresh stroke, the animation time, and a callback only for child 0 |
| Animation.Round | mandala.js:133-151 | one round has one request per child |
| Animation.RoundBlocks | mandala.js:143-151 | the round is the run i -> the request from the i-th block of draws |
| Animation.RoundElement | mandala.js:143-151 | request i is for child i, drawn from the i-th block |
| Animation.RoundNext | mandala.js:143-151 | each pass of the loop appends the request for the next child |
| Animation.OneContinuation | mandala.js:139-141 | a round where only child 0 carries the callback schedules exactly one continuation |
| Animation.RoundSchedule | mandala.js:133-151 | request i of a round is for child i, only child 0's carries the callback, and a non-empty round schedules exactly one continuation |
| Mandala.Mandala.AnimateChildren | mandala.js:133-151 | the loop issues the round of requests and consumes one curve's worth of draws per child |
| Animation.AnimationRoundShape | mandala.js:128-152 | with the flag off, nothing is issued or drawn; with no child 0, the call throws before drawing; otherwise there is one request per child and exactly one continuation |
| Mandala.Mandala.IsAnimating | mandala.js:125-127 | `isAnimating()` reports the flag; `StartAnimation`, `StopAnimation` and `ToggleTwice` state what it reads after each operation |
| Animation.AnimationRound | mandala.js:128-152 | the outcome, requests and draw position of one `doAnimation()`; `AnimationRoundShape` states their shape |
| Mandala.Mandala.DoAnimation | mandala.js:128-152 | `doAnimation()` returns the outcome, the requests and the draw position of `AnimationRound` |
| Mandala.Mandala.StartAnimation | mandala.js:153-156 | the flag is set and a fresh round is issued, whatever the flag was |
| Mandala.Mandala.StopAnimation | mandala.js:157-160 | the flag is cleared; nothing is issued and nothing is drawn |
| Mandala.Mandala.ToggleAnimation | mandala.js:161-164 | the flag is flipped and the round for the new flag runs |
| Mandala.ToggleTwice | mandala.js:161-164 | toggling twice restores the flag, the group and the surface |

## Left out

- Rendering through Snap.svg: `snap.clear()`, `snap.group()`, `snap.path()`, `attr`, `use`, `transform` and `toDefs` become the model's own `surface`, `group` and `Curve` values. Where the group sits in the SVG (`toDefs`) is not modelled.
- The page wiring (mandala.js:167-272): sliders, buttons, the download helper and DOM events.
- The HSB step of `contrastingColour` (`Snap.rgb2hsb`, the half-turn of hue, `Snap.hsb2rgb`). It is floating point inside Snap.svg, which is not part of this model. The model keeps the parsed channels the conversion starts from (`Fill.ContrastOf`).
- Random.IntBetween, Random.ZeroPad: `randomIntBetween`, `randomFloatBetween` and `zeroPad` are defined outside mandala.js and are not part of this model. The model uses `lo + u % (hi - lo + 1)` on an injected raw value and the padding the helpers' names promise. A draw is only read at positions; a position the supply does not list reads as its own index.
- Mandala.Mandala.RandomFloat: a float draw is a token naming its position, not a number. Printing floats into the path text is not modelled: a `Num` token stands for "x y" of one point.
- JsText.ParseInt16: `parseInt` skipping leading whitespace is not modelled. The strings parsed here have none.
- Mandala.Mandala.AnimateRequest: `animate` itself, its timing and the later run of the callback are left to the browser. The model records the requests issued, and whether each carries the callback.
- Mandala.Mandala.Init: the body of `init` is split into `DrawCounts`, `BuildGroup` and `PlaceCopies`, one per step. `BuildGroup` collects the curves in a local list and then sets the group, rather than adding to the group curve by curve. No one else can observe the group between the two.
- Mandala.Mandala.MakeCurvePath: the loop lives in `AddSmoothSegments`. `bezierPoints` is a three-element sequence that the loop reassigns, not an array updated in place. Nothing reads its third point after line 97.
- Mandala.Mandala.DoAnimation: the request to child 0 and the loop over children 1 and up are one loop over all children in `AnimateChildren`. Child 0's request is the only one with the callback, and the requests are issued in the same order with the same draws. The child count is `|group|`, which stands for `group.node.childNodes.length`.
- Params.Merge: parameter names are an enumeration of the eleven names the generator uses, plus `Other(name)` for any other name, not free strings. Values are integers or booleans.
- Params.InitUpdate: when a min/max pair is missing or not integers, what `randomIntBetween` does with `undefined` is not modelled. `Init` requires the three ranges to be set.
- Mandala.Mandala.constructor: each generator gets its own supply and draw position, and it is handed the shared `ParamStore`. Dafny has no module-level mutable object, so sharing `params` is the caller's obligation. The model therefore also admits generators with separate `params`, which the prototype rules out. It also admits separate random streams, where the program draws from one global stream.
- Mandala.ParamIsShared: it holds for generators built on the same `ParamStore` (its `requires a.params == b.params`); that all generators share one is not enforced by the model, as above.
