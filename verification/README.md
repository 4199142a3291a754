# Neon GenAI Sculptor — a Dafny model of its core

Neon GenAI Sculptor is a single-page app. It shows a library of parametric
3D shapes, each a *model* with a name, a type tag, a parameter map and a
thumbnail. A chat box asks a generation service to create or change a model.
This project models three parts of it:

- **The viewer** (`viewer.dfy`, `generators.dfy`). This covers:
  - how each shape reads its parameters: `Number(v) || default` and `v || default`;
  - the `renderShape` dispatcher, including its fallback for unknown tags;
  - the sample loops of the six point-generating shapes: heart, flower, star,
    cube cloud, double helix and wave.
- **The seed catalog** (`constants.dfy`): `INITIAL_MODELS` and what holds of it.
- **The application state** (`app.dfy`): the page's six state fields and the
  handlers that change them.
  - Selecting a model and editing a parameter are single steps.
  - Sending a message awaits the service, so it is modelled as two steps:
    `BeginSend` up to the `await` and `CompleteSend` after it.
  - `SendMessage` composes the two steps, with the service passed in as a function.

JavaScript's runtime sits in `js.dfy`:

- `Number(v)` is modelled as a finite real or `NaN`; ±Infinity is left out (see below).
- `Math.sin`, `Math.cos` and `Math.pow`, string-to-number and number-to-string
  conversion are fields of a `Host` record that every caller passes in. The
  proofs therefore hold whatever those functions compute.
- `Math.random()` is a function `rand: nat -> real`. `rand(k)` is the k-th draw
  of one generator run. Where a bound needs it, `UnitDraws(rand)` assumes every
  draw lies in [0, 1).
- `String.prototype.trim` is modelled exactly, using ECMAScript's white-space set.

Because `0` is falsy, `Number(0) || d` gives `d`. So a heart with
`particles: 0` gets 1500 points, a star with `points: 0` gets five points,
and a flower with `k: 0` gets `k = 4`. The star's point count is not
clamped: one point gives a two-vertex outline.

A parameter edit from the sliders changes only the selected model, not its
library entry. When the service then fails and returns the model it was
sent, the send writes that edited model over the library entry of the same
name, so a failed send saves the slider edits into the library
(`App.FallbackSavesEdit`).

`shapes.dfy` joins the two halves of the heart, star and cube-cloud
generators: it reads the settings from the parameters and runs the sample
loop on them.

## Model

| member | source | states |
|---|---|---|
| Js.TrimStart | App.tsx:41 | the result is a suffix of the input that starts with a non-space; everything dropped is white space |
| Js.TrimEnd | App.tsx:41 | the result is a prefix of the input that ends with a non-space; everything dropped is white space |
| Js.TrimEmptyIffBlank | App.tsx:41 | `s.trim()` is empty exactly when every character of `s` is white space |
| Viewer.NumberOr | components/Viewer.tsx:69-70 | the coerced number is the default exactly when `Number(v)` is 0 or NaN, otherwise it is `Number(v)`; with a non-zero default the result is never 0 |
| Viewer.NumberParamCases | components/Viewer.tsx:69-70 | reading a parameter gives the default when it is missing or 0, or when it is a string that converts to 0 or NaN; otherwise it gives the number (converted from the string if it is one) |
| Viewer.ValueOr | components/Viewer.tsx:71 | the `v or default` coercion keeps a truthy value and replaces a falsy one (missing, 0, "") by the default; a truthy default gives a truthy result |
| Viewer.NumberParam | components/Viewer.tsx:69 | reading a number parameter gives either the default or a non-zero value stored under that key; with a non-zero default the result is never 0 |
| Viewer.HeartSettingsOf | components/Viewer.tsx:69-71 | the heart's count and scale are never 0 and its colour is truthy |
| Viewer.SaturnSettingsOf | components/Viewer.tsx:108-111 | the planet scale, ring distance and ring width are never 0, and the colour is truthy |
| Viewer.TorusKnotSettingsOf | components/Viewer.tsx:131-135 | p, q, radius and tube are never 0, and the colour is truthy |
| Viewer.FlowerSettingsOf | components/Viewer.tsx:146-148 | k and the radius are never 0, and the colour is truthy |
| Viewer.SphereSettingsOf | components/Viewer.tsx:189-190 | the radius is never 0 and the colour is truthy |
| Viewer.StarSettingsOf | components/Viewer.tsx:201-205 | outer, inner, the point count and the depth are never 0, and the colour is truthy |
| Viewer.CubeCloudSettingsOf | components/Viewer.tsx:228-230 | the size and count are never 0, and the colour is truthy |
| Viewer.HelixSettingsOf | components/Viewer.tsx:257-260 | the radius, height and turns are never 0, and the colour is truthy |
| Viewer.WaveSettingsOf | components/Viewer.tsx:293-297 | the width, depth, amplitude and frequency are never 0, and the colour is truthy |
| Viewer.TextSettingsOf | components/Viewer.tsx:327-329 | a non-empty string `text` is shown as is; a falsy `text` shows "HELLO"; the size is never 0 |
| Viewer.SaturnShape | components/Viewer.tsx:107-128 | the planet is a sphere of half the planet scale, the ring a torus of half the ring distance and a tenth of the ring width, tilted by π/2.5; the sparkles span six planet radii; no radius is 0 and the colour is the model's or the default |
| Viewer.TorusKnotShape | components/Viewer.tsx:130-143 | the knot has half the radius, a fifth of the tube radius, windings p and q (never 0) and 128 × 16 segments, in the model's colour or the default |
| Viewer.SphereShape | components/Viewer.tsx:188-198 | the sphere has half the radius (never 0) and 48 × 48 segments, in the model's colour or the default |
| Viewer.TextShape | components/Viewer.tsx:326-346 | a non-empty string `text` is shown as is and a falsy one as "HELLO"; the font size is the `size` parameter or 3, never 0 |
| Viewer.EmptyParamsUseDefaults | components/Viewer.tsx:69-329 | with no parameters, each of the ten shapes takes exactly its own defaults, colours included |
| Viewer.ZeroCountsTakeDefaults | components/Viewer.tsx:69-229 | a particle, cube or point count of 0 and a `k` of 0 fall back to their defaults (1500, 100, 5, 4); an empty colour falls back too |
| Viewer.PrimitiveArguments | components/Viewer.tsx:107-194 | Saturn's planet and ring radii are half their parameters and the ring tube a tenth of its parameter; the knot's radius is half and its tube a fifth of their parameters; the sphere's radius is half its parameter; no radius, p or q is 0 |
| Viewer.KindOf | components/Viewer.tsx:360-370 | a tag is recognised exactly when it is one of the ten known tags, and it then maps to the generator bearing that tag |
| Viewer.TagRoundTrip | components/Viewer.tsx:360-370 | the ten tags are distinct, and each tag is recognised as its own generator |
| Viewer.RenderShape | components/Viewer.tsx:359-372 | a known tag runs its own generator on the unchanged parameters; an unknown tag runs the sphere with `radius` set to 4 and every other key (colour included) kept |
| Viewer.UnknownTagRendersAsSphere | components/Viewer.tsx:365-371 | an unknown tag renders exactly what a "sphere" model with radius 4 and the same parameters renders |
| Viewer.UnknownTagSphereRadius | components/Viewer.tsx:188-194 | an unknown tag draws a sphere of radius 2 in the model's own colour, whatever radius the model asked for |
| Generators.PutPoint | components/Viewer.tsx:85-87 | writes the three coordinates of point slot k and leaves every other buffer entry unchanged |
| Generators.HeartPositions | components/Viewer.tsx:73-90 | the buffer holds 3·count numbers, and sample i sits at positions 3i..3i+2 and is computed from the draws 3i, 3i+1 and 3i+2 |
| Generators.HeartDrawRanges | components/Viewer.tsx:76-87 | for draws in [0,1), heart sample i is taken at an angle in [0, 2π); its z is its thickness offset, which lies in [−2, 2), times scale·r·0.1 |
| Generators.WavePositions | components/Viewer.tsx:299-314 | the buffer holds 2700 numbers, and all 900 point slots are written: grid point (i, j) sits at offset 3(30i + j) |
| Generators.GridCoordBounds | components/Viewer.tsx:305-306 | grid coordinates start at −extent/2, strictly increase with the index, and stay below extent/2 |
| Generators.FlowerPoints | components/Viewer.tsx:151-162 | the rose curve has 501 points, and point i is the rose at angle (i/500)·2π |
| Generators.FlowerSweep | components/Viewer.tsx:153-159 | all 501 flower points (samples 0 to 500) have z = 0; the angles start at 0, strictly increase, and end at exactly 2π |
| Generators.FlowerClosed | components/Viewer.tsx:154-159 | for an integer k and 2π-periodic sine and cosine, the last flower point equals the first |
| Generators.LoopCount | components/Viewer.tsx:210 | a loop `i < bound` over a JavaScript number runs the least natural number of times not below the bound |
| Generators.LoopCountCases | components/Viewer.tsx:234 | a whole bound runs the loop that many times, a fractional one rounds up, and a bound of 0 or less runs it not at all |
| Generators.StarOutline | components/Viewer.tsx:207-217 | the outline is closed and has one vertex per loop turn over 2·points (none for a negative count); vertex i is at angle i·π/points, at radius outer·0.5 when i is even and inner·0.5 when i is odd |
| Generators.StarSymmetry | components/Viewer.tsx:209-212 | for a whole count the outline has 2·points vertices; consecutive vertices are π/points apart, so they make one full turn; outer and inner radii alternate |
| Generators.CubeInstances | components/Viewer.tsx:232-241 | there is one cube per loop turn over `count` (exactly `count` for a whole count, none for a negative one), and cube i is computed from the draws 5i..5i+4 |
| Generators.CubeInBox | components/Viewer.tsx:235-238 | for draws in [0,1), each cube lies in [−size/2, size/2)³, its x and y rotations lie in [0, π), and its z rotation is 0 |
| Generators.HelixStrand | components/Viewer.tsx:262-272 | the strand has 101 points, and point i is the helix at t = i/100 |
| Generators.Mirror | components/Viewer.tsx:275 | the second strand has as many points as the first, and point i is point i of the first with x and z negated |
| Generators.MirrorInvolution | components/Viewer.tsx:274-276 | the second strand has as many points as the first, and mirroring twice gives back the first strand |
| Generators.HelixRises | components/Viewer.tsx:266-268 | when the height is positive, the strand starts at y = −h/2, ends at y = h/2, and y strictly increases along it |
| Generators.Rungs | components/Viewer.tsx:282-287 | a strand of n samples gets ⌈n/5⌉ rungs, and rung k is the rung drawn at sample 5k |
| Generators.RungLayout | components/Viewer.tsx:282-287 | a 101-point strand has 21 rungs; rung n stands at point 5n, on the axis at that point's height, turned by that point's angle |
| Generators.DoubleHelix | components/Viewer.tsx:262-287 | it builds both strands and the rungs: the second strand's point i is (−x, y, −z) of the first's, and the 21 rungs are as above |
| Shapes.HeartShape | components/Viewer.tsx:68-90 | the heart's buffer holds one sample per particle read from the parameters, at the scale read from them; a missing or zero particle count gives 1500 samples |
| Shapes.StarShape | components/Viewer.tsx:200-221 | the star's outline is built from the radii and point count read from the parameters and extruded to half the depth; a missing or zero point count gives ten vertices |
| Shapes.CubeCloudShape | components/Viewer.tsx:227-241 | the cube cloud has one cube per loop turn over the count read from the parameters, in a box of the size read from them; a missing or zero count gives 100 cubes |
| Constants.INITIAL_MODELS | constants.ts:3-114 | the ten seed models, with their names, tags, parameters and thumbnails; what holds of them is stated by the lemmas below |
| Constants.SeedTags | constants.ts:3-114 | there are ten seeds, and seed i carries the tag of the i-th generator in the dispatcher's order |
| Constants.SeedTagsCoverDispatcher | constants.ts:3-114 | the seed tags are pairwise distinct and all known, and every known tag belongs to some seed |
| Constants.SeedsRenderOwnGenerator | constants.ts:3-114 | every seed renders through its own generator with its own parameters, never through the fallback |
| Constants.SeedNamesDistinct | constants.ts:3-114 | the seed names are pairwise distinct |
| Constants.SeedColors | constants.ts:3-114 | every seed has a non-empty string `color` |
| Constants.SeedNumbersPositive | constants.ts:3-114 | every numeric seed parameter is positive, so reading it gives the seed's own value whatever the default |
| Constants.FirstSeedIsHeart | constants.ts:4-13 | the first seed is "Love Heart"; it renders as the heart with 2000 particles, scale 1 and colour #ff5f9f |
| App.ServiceFallback | services/geminiService.ts:120-126 | the service's failure result resolves with the very model it was sent and the fixed service error message |
| App.WithParam | App.tsx:30-38 | the edited model keeps its name, type and thumbnail; its parameters are the old ones with `key` set to `value` |
| App.WithParamLastWins | App.tsx:30-38 | of two edits to one key the later wins, and edits to different keys commute |
| App.WithParamRestores | App.tsx:30-38 | writing back a key's current value leaves the model unchanged |
| App.FindIndex | App.tsx:56 | the result is the first position holding the name, or −1 exactly when no entry has it |
| App.Upsert | App.tsx:55-63 | if an entry has the model's name, the first such entry is replaced, the length stays the same and every other position is untouched; otherwise the model is appended |
| App.UpsertNames | App.tsx:55-63 | after an upsert the list contains the model, and its names are the old names plus the model's |
| App.UpsertKeepsNamesDistinct | App.tsx:55-63 | an upsert keeps the names of a list pairwise distinct |
| App.UpsertIdempotent | App.tsx:55-63 | upserting the same model twice is the same as upserting it once |
| App.UpsertPresent | App.tsx:55-63 | in a list with distinct names, upserting a model that is already in it changes nothing |
| App.FallbackStoresSentModel | services/geminiService.ts:120-126 | when the service falls back, it returns the model it was sent with the fixed message; the send writes that model over the first library entry of its name, or appends it; only a library that already held that very model is unchanged |
| App.FallbackSavesEdit | App.tsx:30-63 | a library entry edited as the selected model is replaced by the edited model when the send falls back |
| App.Sculptor.constructor | App.tsx:9-16 | the library is the seed catalog and the heart seed is selected; the sidebar is open, the input is empty, nothing is in flight, and the history holds only the welcome message |
| App.Sculptor.SelectModel | App.tsx:24-28 | selects the model; closes the sidebar on a narrow viewport and leaves it alone otherwise; nothing else changes |
| App.Sculptor.ChangeParam | App.tsx:30-38 | only the selected model's parameter changes; the library entry of the same name is not touched |
| App.Sculptor.EditInput | App.tsx:199 | sets the chat input and changes nothing else |
| App.Sculptor.ToggleSidebar | App.tsx:79 | flips the sidebar and changes nothing else |
| App.Sculptor.BeginSend | App.tsx:40-49 | nothing happens exactly when the input is blank or a request is in flight; otherwise the input is cleared, one user message is appended, the flag is set, and the request carries the selected model, the text and the library |
| App.Sculptor.CompleteSend | App.tsx:49-70 | success selects the returned model, upserts it and appends its message; failure keeps the selection and the library and appends the fixed error text; either way the flag is cleared and the history only grows |
| App.Sculptor.SendMessage | App.tsx:40-71 | a blocked send changes nothing; otherwise the history grows by exactly the user's text and the reply (the service's message, or the fixed error text), the input ends empty, nothing is left in flight, and the library and selection follow the outcome; the sidebar is never touched |

## Left out

- Rendering is not modelled: three.js and react-three-fiber, materials, blending, lights, post-processing, `Float`, `Stars` and `Sparkles`. The model stops at the numbers each generator hands to the renderer.
- Generators.DoubleHelix: both strands are drawn with the `Line` helper, which renders a `lineLoop` (components/Viewer.tsx:178-186). Each strand on screen is therefore closed, with a chord from sample 100 back to sample 0 across the helix. The model returns open strands and does not show this chord.
- Generators.FlowerPoints: the rose is drawn with the same `lineLoop`. For a whole `k`, with 2π-periodic sine and cosine, the last point equals the first (`FlowerClosed`), so the closing segment has length 0. For a fractional `k` it draws a chord that the model does not show.
- The per-frame rotation of the scene group is left out, because it depends on the frame clock.
- The chat's scroll-into-view effect is left out, because it is DOM behaviour.
- Values of `Math.sin`, `Math.cos`, `Math.pow` and `Math.random` are left open. They are parameters, so nothing is proved that depends on their numeric values. The one exception is the flower's closure, which assumes 2π-periodic sine and cosine.
- Floating point is not modelled. Arithmetic is on exact reals, `Math.PI` is its printed decimal, and `Float32Array` stores values without rounding.
- JavaScript's string-to-number conversion is a host function. Its parsing rules are not modelled.
- A stored `NaN` parameter is not modelled. A range input's value is always a valid number, so the slider's `parseFloat` never yields `NaN`, and JSON has no `NaN`. Parameter values in the model are therefore finite reals or strings.
- Infinite numbers are not modelled. `Number("Infinity")` or `Number("1e400")` gives Infinity, and so does a service reply whose JSON holds `1e400`. The model's `Num` holds only finite reals or `NaN`.
- Generators.StarOutline: an infinite `points` makes the source's loop `i < 2 * pointsCount` run forever; the model has no such input.
- Generators.CubeInstances: an infinite `count` makes the source's loop `i < count` run forever; the model has no such input.
- Generators.HeartPositions: an infinite `particles` makes `new Float32Array(count * 3)` throw a RangeError; the model has no such input.
- Generators.HeartPositions: takes a natural count. A fractional `particles` is not modelled: `new Float32Array` truncates the length 3·count, so the last sample's writes past the end are dropped. A count whose triple is −1 or less, which makes `new Float32Array` throw, is not modelled either.
- Shapes.HeartShape: requires a whole, non-negative particle count, for the reasons given for `HeartPositions`.
- Generators.StarOutline: the coercion rules out 0, so the method requires a non-zero count.
- Generators.StarOutline: three.js `Shape` internals are not modelled. The outline is the list of `lineTo` targets plus a closed flag. A `Shape` with no `moveTo` starts at its current point, the origin, so the path drawn is the origin, v0, …, v(2n−1), closed back to the origin. The extruded star therefore has an extra vertex at the origin and lacks the wedge between the last vertex and the first; the model does not show this.
- Generators.MirrorInvolution: states the strand relation only as a coordinate mirror. That it equals a half-turn phase shift of the helix needs trigonometric identities, which the host functions do not provide.
- App.Sculptor.SelectModel: the `window.innerWidth < 768` test is a boolean parameter, because the viewport is outside the model.
- The input box's and send button's `disabled` attributes (App.tsx:203, 207) are not modelled separately. The handler's own guard, modelled in `BeginSend`, blocks the same sends.
- The generation service is not modelled beyond its fallback result: its prompt, its schema and its network call. `SendMessage` takes the service as a function from request to outcome. `ServiceFallback` models the service's own catch branch.
- React's batching of state updates is not modelled. `CompleteSend` applies the updates in the order the handler issues them, to the state current at that moment.
