# Sakura petal emitter, modelled in Dafny

This project models `Sakura`, a decorative emitter that keeps spawning
"petal" elements inside a container element. Each petal has randomised
size, colour and drift/sway/fall animations. The emitter records each petal
in a map keyed by its creation timestamp and appends it to the container.
Petals are removed in three ways: when an animation boundary fires while the
petal is off-screen, when a one-second lifetime sweep finds them expired, or
when a non-graceful `stop` purges them all.

Modules, one per concern of `src/sakura.js`:

- `Wrappers` (wrappers.dfy): `Option`, `Result`, `Outcome`.
- `Options` (options.dfy): the default option object, the shallow merge
  `extend` (a method with a loop, specified by the function `Merge`), and the
  typed `Settings` the emitter reads.
- `Random` (random.dfy): `randomInt` and `randomArrayElem`. The value
  `Math.random()` returned is an explicit real `u` with `0 <= u < 1`.
- `Viewport` (viewport.dfy): `elementInViewport`, proved equivalent to a
  point-wise reference definition, and the window-size fallback it measures
  against.
- `Petals` (petals.dfy): the pure part of `createPetal`. It holds the
  animation-name tables, the durations, the height/width/border-radius/margin
  geometry and the colour pick, with the errors thrown for a class name
  `classList.add` rejects and for an empty `colors` list.
- `Elements` (elements.dfy): the container's children as a sequence of
  petal identities; element removal is `Without`.
- `Lifetime` (lifetime.dfy): what one lifetime tick keeps and drops from the
  timestamp map.
- `Sakura` (sakura.dfy): the class `Emitter`, whose fields are the run-state
  marker, the timestamp map, the container's children, the next element
  identity and the count of scheduled purges. Its methods are the bodies of
  `start`, `stop`, the stop purge, the lifetime tick, `createPetal` and the
  animation handlers. `Create` is the constructor, with its selector guard.
- `Scenarios` (scenarios.dfy): client methods that show what a caller can
  conclude from the contracts alone: the default and configured settings, a
  refused second `start`, graceful versus non-graceful stop, and expiry with
  `lifeTime = 500` or none with `lifeTime = 0`.

The host supplies time (`Date.now()`), frame handles (`requestAnimationFrame`),
random draws, bounding boxes, the window and document sizes and the outcome
of `document.querySelector` as parameters. Each timer or frame callback is
one method call made by the caller.

## Model

| member | source | states |
|---|---|---|
| `Options.Extend` | src/sakura.js:27-36 | the result has exactly the defaults' keys; each key holds the override's value when the override object exists and owns that key, else the default; equals `Merge` |
| `Options.MergeIgnoresUnknownKeys` | src/sakura.js:28-33 | a key only the overrides have never appears in the merged options |
| `Options.MergeWithoutOverrides` | src/sakura.js:29 | a missing (falsy) override object leaves the defaults unchanged |
| `Options.MergeIdempotent` | src/sakura.js:27-36 | merging the same overrides twice gives the same options as once |
| `Options.MergeKeepsKinds` | src/sakura.js:9-38 | overrides whose known keys hold values of the defaults' kinds merge into a complete option object |
| `Options.DefaultSettings` | src/sakura.js:9-24 | the defaults are complete, and without overrides the emitter reads className `sakura`, fallSpeed 1, maxSize 14, minSize 10, delay 300, one colour and lifeTime 0 |
| `Options.SettingsFromOverrides` | src/sakura.js:27-38 | each setting the emitter reads is the override's value when the override object owns that key, and the documented default otherwise |
| `Random.RandomInt` | src/sakura.js:72-74 | for `min <= max` the result is in `[min, max]`; for reversed bounds it is in `(max, min]` |
| `Random.RandomIntReaches` | src/sakura.js:72-74 | every integer in `[min, max]` is produced by some `Math.random()` value |
| `Random.RandomIndex` | src/sakura.js:68 | the index read is in `[0, length)` for a non-empty array, 0 for an empty one |
| `Random.RandomArrayElem` | src/sakura.js:67-69 | the result is undefined exactly for an empty array, otherwise an element of the array |
| `Random.RandomArrayElemReaches` | src/sakura.js:67-69 | every element of a non-empty array is picked by some `Math.random()` value |
| `Random.ScaledFloor` | src/sakura.js:68-73 | `Math.floor(u * n)` is in `[0, n)` for positive `n` and in `[n, 0]` otherwise |
| `Viewport.InViewportIffAllPointsVisible` | src/sakura.js:91-101 | for a box with ordered edges, the four edge comparisons hold iff every point of the box is within the view |
| `Petals.Width` | src/sakura.js:153 | for `minSize >= 0` the width is in `[height - floor(minSize/3), height]`; for `minSize < 0` it is at least the height |
| `Petals.RadiusX` | src/sakura.js:161-163 | the first border radius is in `[maxSize, maxSize + 9]` |
| `Petals.RadiusY` | src/sakura.js:164 | the second border radius is in `[1, floor(width/4)]`, or in `(floor(width/4), 1]` when `floor(width/4) < 1` |
| `Petals.MarginTop` | src/sakura.js:168 | the top margin is in `[-34, -15]` |
| `Petals.Build` | src/sakura.js:131-169 | fails exactly when `classList.add` rejects the class name or `colors` is empty: an empty class name gives the empty-token error, one containing ASCII whitespace the invalid-character error, and otherwise an empty `colors` list the undefined-colour error. On success the petal has the configured class, known blow/sway names, a configured colour, blow duration in `[max(fallTime,30) - 20, max(fallTime,30)]` and at least 10, sway duration in `[2, 4]`, and the height/width/radius/margin bounds above |
| `Petals.DefaultClassNameAccepted` | src/sakura.js:10 | the default class name `sakura` is a token `classList.add` accepts |
| `Petals.TwoClassNamesRejected` | src/sakura.js:151 | with the class name `sakura petal`, every petal creation throws the invalid-character error |
| `Petals.FixedSize` | src/sakura.js:152 | with `minSize == maxSize` every petal has exactly that height |
| `Petals.EveryHeightOccurs` | src/sakura.js:152 | every height in `[minSize, maxSize]` occurs for some draws |
| `Elements.Without` | src/sakura.js:174 | after detaching, an element is a child iff it was one and was not detached; no child is duplicated and none is added |
| `Elements.WithoutTwice` | src/sakura.js:51-56 | detaching petals one tick-entry at a time equals detaching them all at once |
| `Elements.WithoutAbsent` | src/sakura.js:54 | removing an element that is not attached changes nothing |
| `Elements.WithoutFirst` | src/sakura.js:223-225 | removing the first child drops exactly that child |
| `Elements.AppendFresh` | src/sakura.js:189 | appending a newly created petal keeps the children free of repeats |
| `Lifetime.DeleteExpired` | src/sakura.js:58-60 | deleting the collected keys leaves exactly the entries with `key + lifeTime >= now`, values unchanged |
| `Lifetime.SweepPartitions` | src/sakura.js:51-60 | every entry is either kept or expired, never both, and the counts add up to the map's size |
| `Lifetime.SurvivorsNotRemoved` | src/sakura.js:51-56 | no surviving entry's petal is among the petals the tick removes |
| `Lifetime.LaterSweepSubsumes` | src/sakura.js:44-61 | a tick at `now` followed by one at a later time keeps what the later tick alone keeps |
| `Lifetime.SetGrowsByAtMostOne` | src/sakura.js:186 | `Map.set` under a timestamp that is already a key keeps the size; otherwise it adds one entry |
| `Sakura.Emitter.constructor` | src/sakura.js:192-195 | the merged settings, an empty timestamp map, no petals, and the first frame's handle as the run marker |
| `Sakura.Emitter.Detach` | src/sakura.js:174 | `remove()` detaches the petal if attached and touches nothing else |
| `Sakura.Emitter.Start` | src/sakura.js:198-208 | when stopped it records the new handle and passes; when running it fails with "already running" and keeps the old handle |
| `Sakura.Emitter.Stop` | src/sakura.js:210-227 | it cancels exactly the recorded handle, if any, and the emitter is stopped afterwards; a second call cancels nothing; only a non-graceful stop schedules a purge; petals are untouched |
| `Sakura.Emitter.FirePurge` | src/sakura.js:221-226 | the scheduled purge leaves the container with no petals |
| `Sakura.Emitter.Sweep` | src/sakura.js:44-61 | with `lifeTime` 0 nothing changes; otherwise the map keeps exactly the entries with `key + lifeTime >= now`, the expired petals are detached, and every surviving entry's petal keeps its attachment |
| `Sakura.Emitter.DetachExpired` | src/sakura.js:48-56 | the first loop collects exactly the expired timestamps and detaches exactly their petals |
| `Sakura.Emitter.DeleteKeys` | src/sakura.js:58-60 | the second loop deletes exactly the collected timestamps from the map |
| `Sakura.Emitter.CreatePetal` | src/sakura.js:103-190 | re-arms iff running; the petal's style or error is `Build`'s; on success it records the new petal under `now`, replacing any same-timestamp entry, and appends exactly that new element; when it throws (rejected class name, no colours) it changes neither map nor container |
| `Sakura.Emitter.OnAnimationBoundary` | src/sakura.js:172-183 | the petal is detached iff its box is not within the viewport, measured by the window's size or, where that is 0, the document element's; otherwise nothing changes |
| `Sakura.Create` | src/sakura.js:1-41 | without a selector, or with one `querySelector` rejects as invalid syntax, it fails before anything is merged or scheduled; with an unmatched selector it fails with a null-element error; otherwise it returns a fresh, valid, running emitter holding the merged settings (read per key as `Options.SettingsFromOverrides` states) and no petals |

## Left out

- Timers and frame scheduling (`setInterval`, `setTimeout`, `requestAnimationFrame`, `cancelAnimationFrame`): each callback body is one method, and the interleaving and timing of callbacks are not modelled. As a consequence, the model does not capture this case: `stop` followed by `start` within `delay` leaves the old `setTimeout` chain alive next to the new frame, so two spawn loops run. `Stop` cancels only the handle stored on the container, as the source does.
- Floating point: the fall time (`clientHeight * 0.007 + Math.round(Math.random() * 5)` times `fallSpeed`) is an input of `CreatePetal`, and the horizontal `left` offset is not modelled. `Math.random()` values are exact reals in `[0, 1)`, not IEEE doubles.
- CSS text: the animation, gradient and border-radius strings, `overflowX = 'hidden'`, and their match with the external stylesheet. The model keeps the numbers and names these strings are built from.
- `PrefixedEvent` (src/sakura.js:77-88): the vendor-prefixed listener registration is a host call. Both handlers are modelled as one method, because their bodies are identical.
- Sakura.Create: requires that every override of a known key holds a value of the default's kind (number, string or colour list). The source does not check this, and with other kinds it renders `NaN` geometry or concatenated strings, which are not modelled. Numbers are integers, so a fractional `fallSpeed` is not representable.
- Sakura.Create: with an unmatched selector the source has already scheduled the lifetime interval when it throws; that orphan interval is not modelled.
- Sakura.Emitter.Start: the model assumes one emitter per container element. The source keeps the run-state marker as the `data-sakura-anim-id` attribute of the element, so two emitters built on the same element share it: a `stop` of one also stops the other's `createPetal` re-arming and lets the other `start` again, and a non-graceful stop purges both emitters' petals. The model gives each `Emitter` its own marker and container, so `Start`, `Stop`, `CreatePetal` and `FirePurge` do not capture that sharing.
- Sakura.Emitter.FirePurge: `getElementsByClassName` searches the whole document, so the source also removes elements with the class outside this container, including other emitters' petals. The model empties this container only.
- Sakura.Emitter.Sweep: its first loop (`Sakura.Emitter.DetachExpired`) visits the map's keys in an arbitrary order rather than insertion order. The result does not depend on the order.
- dist/sakura.js (a generated build of an older version) and gulpfile.js (build tooling) are not part of this model.
- A petal in the timestamp map need not be attached, and an attached petal need not be in the map: the animation handlers detach petals without deleting their map entries, and `Map.set` on a repeated timestamp drops the older entry while its petal stays attached. So `Emitter.Valid` states only distinct children, fresh identities and distinct petals per timestamp.
