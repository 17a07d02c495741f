/**
 * The pure part of `createPetal`: the animation names it picks, the
 * durations and geometry it derives from `Math.random()` draws, and the
 * colour it reads from the options.
 */
module Petals {
  import opened Wrappers
  import opened Options
  import opened Random

  /** The horizontal-drift animations; the names match the stylesheet's keyframes. */
  const BlowAnimations: seq<string> := ["blow-soft-left", "blow-medium-left", "blow-soft-right", "blow-medium-right"]

  /** The wobble animations; the names match the stylesheet's keyframes. */
  const SwayAnimations: seq<string> :=
    ["sway-0", "sway-1", "sway-2", "sway-3", "sway-4", "sway-5", "sway-6", "sway-7", "sway-8"]

  /** Errors `createPetal` throws while styling a petal. */
  datatype PetalError =
    | EmptyToken      // `classList.add` was given an empty class name
    | SpaceInToken    // `classList.add` was given a class name containing whitespace
    | NoColor         // `colors` is empty, so the picked colour is undefined

  /**
   * The `Math.random()` values `createPetal` consumes, in the order it draws
   * them (the draws for the fall time and the horizontal offset feed only
   * floating-point values and are not listed).
   */
  datatype Draws = Draws(
    blow: real,          // randomArrayElem(blowAnimations)
    sway: real,          // randomArrayElem(swayAnimations)
    blowTime: real,      // randomInt(0, 20) in the blow duration
    swayTime: real,      // randomInt(2, 4), the sway duration
    height: real,        // randomInt(minSize, maxSize)
    shrink: real,        // randomInt(0, minSize), subtracted from the width
    color: real,         // randomArrayElem(colors)
    radiusSpread: real,  // Math.random() * 10 in the first border radius
    radiusX: real,       // randomInt(maxSize, maxSize + spread)
    radiusY: real,       // randomInt(1, floor(width / 4))
    margin: real)        // Math.random() * 20 in the top margin

  predicate ValidDraws(d: Draws)
  {
    && Unit(d.blow) && Unit(d.sway) && Unit(d.blowTime) && Unit(d.swayTime)
    && Unit(d.height) && Unit(d.shrink) && Unit(d.color) && Unit(d.radiusSpread)
    && Unit(d.radiusX) && Unit(d.radiusY) && Unit(d.margin)
  }

  /** The style of one petal element. */
  datatype Petal = Petal(
    className: string,
    blow: string,
    sway: string,
    fallSeconds: real,
    blowSeconds: real,
    swaySeconds: int,
    height: int,
    width: int,
    color: Color,
    radiusX: int,
    radiusY: int,
    marginTop: int)

  /** `fallTime > 30 ? fallTime : 30` */
  function AtLeast30(fallTime: real): real
  {
    if fallTime > 30.0 then fallTime else 30.0
  }

  /** `Math.floor(k / 3)` for a draw `k` of `randomInt(0, minSize)`. */
  lemma ThirdBounds(k: int, minSize: int)
    ensures 0 <= k <= minSize ==> 0 <= k / 3 <= minSize / 3
    ensures minSize < k <= 0 ==> k / 3 <= 0
  {
  }

  /** `height - Math.floor(randomInt(0, minSize) / 3)` */
  function Width(height: int, minSize: int, u: real): (w: int)
    requires Unit(u)
    ensures minSize >= 0 ==> height - minSize / 3 <= w <= height
    ensures minSize < 0 ==> height <= w
  {
    var k := RandomInt(0, minSize, u);
    ThirdBounds(k, minSize);
    height - k / 3
  }

  /** `randomInt(1, Math.floor(width / 4))`, the second border radius. */
  function RadiusY(width: int, u: real): (ry: int)
    requires Unit(u)
    ensures width / 4 >= 1 ==> 1 <= ry <= width / 4
    ensures width / 4 < 1 ==> width / 4 < ry <= 1
  {
    RandomInt(1, width / 4, u)
  }

  /** `randomInt(maxSize, maxSize + Math.floor(Math.random() * 10))`, the first border radius. */
  function RadiusX(maxSize: int, spread: real, u: real): (rx: int)
    requires Unit(spread) && Unit(u)
    ensures maxSize <= rx <= maxSize + 9
  {
    ScaledFloor(spread, 10);
    RandomInt(maxSize, maxSize + (spread * 10.0).Floor, u)
  }

  /** `-(Math.floor(Math.random() * 20) + 15)`, the top margin. */
  function MarginTop(u: real): (m: int)
    requires Unit(u)
    ensures -34 <= m <= -15
  {
    ScaledFloor(u, 20);
    -((u * 20.0).Floor + 15)
  }

  /** What `createPetal` promises about each petal it styles. */
  predicate WellShaped(s: Settings, fallTime: real, p: Petal)
  {
    && p.className == s.className
    && p.blow in BlowAnimations
    && p.sway in SwayAnimations
    && p.color in s.colors
    && p.fallSeconds == fallTime
    && AtLeast30(fallTime) - 20.0 <= p.blowSeconds <= AtLeast30(fallTime)
    && 10.0 <= p.blowSeconds
    && 2 <= p.swaySeconds <= 4
    && (s.minSize <= s.maxSize ==> s.minSize <= p.height <= s.maxSize)
    && (s.minSize >= 0 ==> p.height - s.minSize / 3 <= p.width <= p.height)
    && (s.minSize < 0 ==> p.height <= p.width)
    && s.maxSize <= p.radiusX <= s.maxSize + 9
    && (p.width / 4 >= 1 ==> 1 <= p.radiusY <= p.width / 4)
    && (p.width / 4 < 1 ==> p.width / 4 < p.radiusY <= 1)
    && -34 <= p.marginTop <= -15
  }

  /** The ASCII whitespace of the DOM: tab, line feed, form feed, carriage return and space. */
  predicate AsciiWhitespace(c: char)
  {
    c == '\t' || c == '\n' || c == '\U{000C}' || c == '\r' || c == ' '
  }

  /** A class name `classList.add` accepts: non-empty and free of ASCII whitespace. */
  predicate ValidToken(token: string)
  {
    |token| > 0 && forall i :: 0 <= i < |token| ==> !AsciiWhitespace(token[i])
  }

  /**
   * The petal `createPetal` styles from the settings, the fall time and the
   * random draws. It throws when `classList.add` rejects the class name
   * (an empty token, or one containing whitespace), and otherwise when
   * `colors` is empty.
   */
  function Build(s: Settings, fallTime: real, d: Draws): (r: Result<Petal, PetalError>)
    requires ValidDraws(d)
    ensures r.Failure? <==> !ValidToken(s.className) || |s.colors| == 0
    ensures s.className == "" ==> r == Failure(EmptyToken)
    ensures s.className != "" && !ValidToken(s.className) ==> r == Failure(SpaceInToken)
    ensures ValidToken(s.className) && |s.colors| == 0 ==> r == Failure(NoColor)
    ensures r.Success? ==> WellShaped(s, fallTime, r.value)
  {
    if s.className == "" then Failure(EmptyToken)
    else if !ValidToken(s.className) then Failure(SpaceInToken)
    else
    var blow := RandomArrayElem(BlowAnimations, d.blow).value;
    var sway := RandomArrayElem(SwayAnimations, d.sway).value;
    var blowSeconds := AtLeast30(fallTime) - 20.0 + RandomInt(0, 20, d.blowTime) as real;
    var swaySeconds := RandomInt(2, 4, d.swayTime);
    var height := RandomInt(s.minSize, s.maxSize, d.height);
    var width := Width(height, s.minSize, d.shrink);
    var color := RandomArrayElem(s.colors, d.color);
    if color.None? then Failure(NoColor)
    else
      var radiusX := RadiusX(s.maxSize, d.radiusSpread, d.radiusX);
      var radiusY := RadiusY(width, d.radiusY);
      var marginTop := MarginTop(d.margin);
      Success(Petal(s.className, blow, sway, fallTime, blowSeconds, swaySeconds,
                    height, width, color.value, radiusX, radiusY, marginTop))
  }

  /** With `minSize == maxSize` every petal has exactly that height. */
  lemma FixedSize(s: Settings, fallTime: real, d: Draws)
    requires ValidDraws(d) && ValidToken(s.className) && |s.colors| > 0 && s.minSize == s.maxSize
    ensures Build(s, fallTime, d).value.height == s.minSize
  {
  }

  /** Every height in [minSize, maxSize] occurs for some draws. */
  lemma EveryHeightOccurs(s: Settings, fallTime: real, h: int)
    requires ValidToken(s.className) && |s.colors| > 0 && s.minSize <= h <= s.maxSize
    ensures exists d :: ValidDraws(d) && Build(s, fallTime, d).value.height == h
  {
    RandomIntReaches(s.minSize, s.maxSize, h);
    var u :| Unit(u) && RandomInt(s.minSize, s.maxSize, u) == h;
    var d := Draws(0.0, 0.0, 0.0, 0.0, u, 0.0, 0.0, 0.0, 0.0, 0.0, 0.0);
    assert ValidDraws(d);
    assert Build(s, fallTime, d).value.height == h;
  }

  /** The default class name is a single valid token. */
  lemma DefaultClassNameAccepted()
    ensures ValidToken("sakura")
  {
  }

  /** A class name holding two classes makes every petal creation throw. */
  lemma TwoClassNamesRejected(s: Settings, fallTime: real, d: Draws)
    requires ValidDraws(d) && s.className == "sakura petal"
    ensures Build(s, fallTime, d) == Failure(SpaceInToken)
  {
    assert AsciiWhitespace(s.className[6]);
  }
}
