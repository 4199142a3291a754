/**
 * The viewer's parameter handling: how every shape generator reads its
 * parameters (`Number(params.k) || default`, `params.color || default`),
 * the mesh arguments of the four shapes that hand a primitive to the
 * renderer (saturn, torus knot, sphere, text), and the `renderShape`
 * dispatcher that picks a generator from a model's type tag.
 */
module Viewer {
  import opened Types
  import opened Js

  // ---------------------------------------------------------------------
  // Coercion
  // ---------------------------------------------------------------------

  function Lookup(params: Params, key: string): Option<ParamValue>
  {
    if key in params then Some(params[key]) else None
  }

  /** `Number(v)`: a number passes through, a string is parsed, a missing value is NaN. */
  function ToNumber(host: Host, v: Option<ParamValue>): Num
  {
    match v
    case None => NaN
    case Some(Num(r)) => Finite(r)
    case Some(Str(s)) => host.parseNumber(s)
  }

  /** A number is falsy when it is 0 or NaN. */
  predicate FalsyNum(n: Num)
  {
    n.NaN? || n.value == 0.0
  }

  /** `n || fallback` on a number: falsy numbers give way to the fallback. */
  function NumberOr(n: Num, fallback: real): (r: real)
    ensures FalsyNum(n) ==> r == fallback
    ensures !FalsyNum(n) ==> r == n.value
    ensures fallback != 0.0 ==> r != 0.0
  {
    if FalsyNum(n) then fallback else n.value
  }

  /** `Number(params[key]) || fallback`, the rule every generator reads a number with. */
  function NumberParam(host: Host, params: Params, key: string, fallback: real): (r: real)
    ensures r == fallback || (key in params && r != 0.0)
    ensures fallback != 0.0 ==> r != 0.0
  {
    NumberOr(ToNumber(host, Lookup(params, key)), fallback)
  }

  /**
   * A numeric parameter takes its default when it is missing, zero or does
   * not parse, and passes through unchanged otherwise.
   */
  lemma NumberParamCases(host: Host, params: Params, key: string, fallback: real)
    ensures key !in params ==> NumberParam(host, params, key, fallback) == fallback
    ensures key in params && params[key] == Num(0.0) ==> NumberParam(host, params, key, fallback) == fallback
    ensures key in params && params[key].Num? && params[key].n != 0.0
            ==> NumberParam(host, params, key, fallback) == params[key].n
    ensures key in params && params[key].Str? && FalsyNum(host.parseNumber(params[key].s))
            ==> NumberParam(host, params, key, fallback) == fallback
    ensures key in params && params[key].Str? && !FalsyNum(host.parseNumber(params[key].s))
            ==> NumberParam(host, params, key, fallback) == host.parseNumber(params[key].s).value
  {
  }

  /** JavaScript truthiness of a parameter value (a missing one is `undefined`). */
  predicate Truthy(v: Option<ParamValue>)
  {
    match v
    case None => false
    case Some(Num(r)) => r != 0.0
    case Some(Str(s)) => s != ""
  }

  /** `v || fallback` on a parameter value, the rule the colour and the text are read with. */
  function ValueOr(v: Option<ParamValue>, fallback: ParamValue): (r: ParamValue)
    ensures Truthy(v) ==> Some(r) == v
    ensures !Truthy(v) ==> r == fallback
    ensures Truthy(Some(fallback)) ==> Truthy(Some(r))
  {
    if Truthy(v) then v.value else fallback
  }

  /** `params.color || fallback`: the colour handed to the material. */
  function ColorParam(params: Params, fallback: string): ParamValue
  {
    ValueOr(Lookup(params, "color"), Str(fallback))
  }

  // ---------------------------------------------------------------------
  // What each generator reads from its parameters
  // ---------------------------------------------------------------------

  datatype HeartSettings = HeartSettings(count: real, scale: real, color: ParamValue)
  datatype SaturnSettings = SaturnSettings(planetScale: real, ringDist: real, ringWidth: real, color: ParamValue)
  datatype TorusKnotSettings = TorusKnotSettings(p: real, q: real, radius: real, tube: real, color: ParamValue)
  datatype FlowerSettings = FlowerSettings(k: real, radius: real, color: ParamValue)
  datatype SphereSettings = SphereSettings(radius: real, color: ParamValue)
  datatype StarSettings = StarSettings(outer: real, inner: real, points: real, depth: real, color: ParamValue)
  datatype CubeCloudSettings = CubeCloudSettings(size: real, count: real, color: ParamValue)
  datatype HelixSettings = HelixSettings(radius: real, height: real, turns: real, color: ParamValue)
  datatype WaveSettings = WaveSettings(width: real, depth: real, amplitude: real, frequency: real, color: ParamValue)
  datatype TextSettings = TextSettings(text: string, size: real, color: ParamValue)

  /** Heart: particles (1500), scale (1), colour. No number it reads is ever 0. */
  function HeartSettingsOf(host: Host, params: Params): (s: HeartSettings)
    ensures s.count != 0.0 && s.scale != 0.0 && Truthy(Some(s.color))
  {
    HeartSettings(
      NumberParam(host, params, "particles", 1500.0),
      NumberParam(host, params, "scale", 1.0),
      ColorParam(params, "#ff5f9f"))
  }

  /** Saturn: planetScale (4), ringDist (8), ringWidth (2), colour. */
  function SaturnSettingsOf(host: Host, params: Params): (s: SaturnSettings)
    ensures s.planetScale != 0.0 && s.ringDist != 0.0 && s.ringWidth != 0.0 && Truthy(Some(s.color))
  {
    SaturnSettings(
      NumberParam(host, params, "planetScale", 4.0),
      NumberParam(host, params, "ringDist", 8.0),
      NumberParam(host, params, "ringWidth", 2.0),
      ColorParam(params, "#f2c94c"))
  }

  /** Torus knot: p (2), q (3), radius (5), tubeRadius (1.5), colour. */
  function TorusKnotSettingsOf(host: Host, params: Params): (s: TorusKnotSettings)
    ensures s.p != 0.0 && s.q != 0.0 && s.radius != 0.0 && s.tube != 0.0 && Truthy(Some(s.color))
  {
    TorusKnotSettings(
      NumberParam(host, params, "p", 2.0),
      NumberParam(host, params, "q", 3.0),
      NumberParam(host, params, "radius", 5.0),
      NumberParam(host, params, "tubeRadius", 1.5),
      ColorParam(params, "#9b7bff"))
  }

  /** Flower: k (4), radius (8), colour; so k is never 0 and the rose never collapses. */
  function FlowerSettingsOf(host: Host, params: Params): (s: FlowerSettings)
    ensures s.k != 0.0 && s.radius != 0.0 && Truthy(Some(s.color))
  {
    FlowerSettings(
      NumberParam(host, params, "k", 4.0),
      NumberParam(host, params, "radius", 8.0),
      ColorParam(params, "#ff6bd6"))
  }

  /** Sphere: radius (5), colour. */
  function SphereSettingsOf(host: Host, params: Params): (s: SphereSettings)
    ensures s.radius != 0.0 && Truthy(Some(s.color))
  {
    SphereSettings(NumberParam(host, params, "radius", 5.0), ColorParam(params, "#5edfff"))
  }

  /** Star: outerRadius (8), innerRadius (4), points (5), depth (2), colour; points is never 0. */
  function StarSettingsOf(host: Host, params: Params): (s: StarSettings)
    ensures s.outer != 0.0 && s.inner != 0.0 && s.points != 0.0 && s.depth != 0.0 && Truthy(Some(s.color))
  {
    StarSettings(
      NumberParam(host, params, "outerRadius", 8.0),
      NumberParam(host, params, "innerRadius", 4.0),
      NumberParam(host, params, "points", 5.0),
      NumberParam(host, params, "depth", 2.0),
      ColorParam(params, "#ffd166"))
  }

  /** Cube cloud: size (10), count (100), colour. */
  function CubeCloudSettingsOf(host: Host, params: Params): (s: CubeCloudSettings)
    ensures s.size != 0.0 && s.count != 0.0 && Truthy(Some(s.color))
  {
    CubeCloudSettings(
      NumberParam(host, params, "size", 10.0),
      NumberParam(host, params, "count", 100.0),
      ColorParam(params, "#7de1ff"))
  }

  /** Double helix: radius (4), height (10), turns (3), colour. */
  function HelixSettingsOf(host: Host, params: Params): (s: HelixSettings)
    ensures s.radius != 0.0 && s.height != 0.0 && s.turns != 0.0 && Truthy(Some(s.color))
  {
    HelixSettings(
      NumberParam(host, params, "radius", 4.0),
      NumberParam(host, params, "height", 10.0),
      NumberParam(host, params, "turns", 3.0),
      ColorParam(params, "#ff9f6e"))
  }

  /** Wave: width (10), depth (10), amplitude (2), frequency (1), colour. */
  function WaveSettingsOf(host: Host, params: Params): (s: WaveSettings)
    ensures s.width != 0.0 && s.depth != 0.0 && s.amplitude != 0.0 && s.frequency != 0.0
    ensures Truthy(Some(s.color))
  {
    WaveSettings(
      NumberParam(host, params, "width", 10.0),
      NumberParam(host, params, "depth", 10.0),
      NumberParam(host, params, "amplitude", 2.0),
      NumberParam(host, params, "frequency", 1.0),
      ColorParam(params, "#00ffff"))
  }

  /** Text: `String(params.text || "HELLO")`, size (3), colour. */
  function TextSettingsOf(host: Host, params: Params): (s: TextSettings)
    ensures s.size != 0.0 && Truthy(Some(s.color))
    ensures "text" in params && params["text"].Str? && params["text"].s != "" ==> s.text == params["text"].s
    ensures !Truthy(Lookup(params, "text")) ==> s.text == "HELLO"
  {
    var text := match ValueOr(Lookup(params, "text"), Str("HELLO"))
                case Str(t) => t
                case Num(r) => host.formatNumber(r);
    TextSettings(text, NumberParam(host, params, "size", 3.0), ColorParam(params, "#ffffff"))
  }

  /** With no parameters at all, every generator runs on its documented defaults. */
  lemma EmptyParamsUseDefaults(host: Host)
    ensures HeartSettingsOf(host, map[]) == HeartSettings(1500.0, 1.0, Str("#ff5f9f"))
    ensures SaturnSettingsOf(host, map[]) == SaturnSettings(4.0, 8.0, 2.0, Str("#f2c94c"))
    ensures TorusKnotSettingsOf(host, map[]) == TorusKnotSettings(2.0, 3.0, 5.0, 1.5, Str("#9b7bff"))
    ensures FlowerSettingsOf(host, map[]) == FlowerSettings(4.0, 8.0, Str("#ff6bd6"))
    ensures SphereSettingsOf(host, map[]) == SphereSettings(5.0, Str("#5edfff"))
    ensures StarSettingsOf(host, map[]) == StarSettings(8.0, 4.0, 5.0, 2.0, Str("#ffd166"))
    ensures CubeCloudSettingsOf(host, map[]) == CubeCloudSettings(10.0, 100.0, Str("#7de1ff"))
    ensures HelixSettingsOf(host, map[]) == HelixSettings(4.0, 10.0, 3.0, Str("#ff9f6e"))
    ensures WaveSettingsOf(host, map[]) == WaveSettings(10.0, 10.0, 2.0, 1.0, Str("#00ffff"))
    ensures TextSettingsOf(host, map[]) == TextSettings("HELLO", 3.0, Str("#ffffff"))
  {
  }

  /**
   * A zero count is not an empty shape: `particles = 0`, `count = 0`,
   * `points = 0` and `k = 0` all fall back to their defaults.
   */
  lemma ZeroCountsTakeDefaults(host: Host, color: ParamValue)
    ensures HeartSettingsOf(host, map["particles" := Num(0.0)]).count == 1500.0
    ensures CubeCloudSettingsOf(host, map["count" := Num(0.0)]).count == 100.0
    ensures StarSettingsOf(host, map["points" := Num(0.0)]).points == 5.0
    ensures FlowerSettingsOf(host, map["k" := Num(0.0)]).k == 4.0
    ensures SphereSettingsOf(host, map["color" := Str("")]).color == Str("#5edfff")
  {
  }

  // ---------------------------------------------------------------------
  // Shapes that hand a primitive to the renderer: only their arguments
  // ---------------------------------------------------------------------

  /** A three.js primitive with the arguments the generator passes it. */
  datatype Primitive =
    | SphereGeometry(radius: real, widthSegments: nat, heightSegments: nat)
    | TorusGeometry(radius: real, tube: real, radialSegments: nat, tubularSegments: nat)
    | TorusKnotGeometry(radius: real, tube: real, tubularSegments: nat, radialSegments: nat, p: real, q: real)

  /** A planet sphere, a ring torus tilted about x, decorative sparkles around them. */
  datatype SaturnScene = SaturnScene(planet: Primitive, ring: Primitive, ringTiltX: real, sparkleScale: real, color: ParamValue)

  /**
   * Saturn: a sphere of half the planet scale, a torus of half the ring
   * distance and a tenth of the ring width tilted by π/2.5, and sparkles
   * over six planet radii.
   */
  function SaturnShape(host: Host, params: Params): (g: SaturnScene)
    ensures g.planet.SphereGeometry? && g.ring.TorusGeometry?
    ensures g.planet.radius * 2.0 == NumberParam(host, params, "planetScale", 4.0) && g.planet.radius != 0.0
    ensures g.ring.radius * 2.0 == NumberParam(host, params, "ringDist", 8.0) && g.ring.radius != 0.0
    ensures g.ring.tube * 10.0 == NumberParam(host, params, "ringWidth", 2.0) && g.ring.tube != 0.0
    ensures g.ringTiltX == PI / 2.5 && g.sparkleScale == 6.0 * g.planet.radius
    ensures g.color == ColorParam(params, "#f2c94c") && Truthy(Some(g.color))
  {
    var s := SaturnSettingsOf(host, params);
    SaturnScene(
      SphereGeometry(s.planetScale * 0.5, 32, 32),
      TorusGeometry(s.ringDist * 0.5, s.ringWidth * 0.1, 2, 64),
      PI / 2.5,
      s.planetScale * 3.0,
      s.color)
  }

  /** The torus knot: half the radius, a fifth of the tube radius, windings p and q. */
  function TorusKnotShape(host: Host, params: Params): (r: (Primitive, ParamValue))
    ensures r.0.TorusKnotGeometry? && r.0.tubularSegments == 128 && r.0.radialSegments == 16
    ensures r.0.radius * 2.0 == NumberParam(host, params, "radius", 5.0) && r.0.radius != 0.0
    ensures r.0.tube * 5.0 == NumberParam(host, params, "tubeRadius", 1.5) && r.0.tube != 0.0
    ensures r.0.p == NumberParam(host, params, "p", 2.0) && r.0.q == NumberParam(host, params, "q", 3.0)
    ensures r.0.p != 0.0 && r.0.q != 0.0
    ensures r.1 == ColorParam(params, "#9b7bff") && Truthy(Some(r.1))
  {
    var s := TorusKnotSettingsOf(host, params);
    (TorusKnotGeometry(s.radius * 0.5, s.tube * 0.2, 128, 16, s.p, s.q), s.color)
  }

  /** The sphere is drawn as the vertices of a sphere geometry of half the radius. */
  function SphereShape(host: Host, params: Params): (r: (Primitive, ParamValue))
    ensures r.0.SphereGeometry? && r.0.widthSegments == 48 && r.0.heightSegments == 48
    ensures r.0.radius * 2.0 == NumberParam(host, params, "radius", 5.0) && r.0.radius != 0.0
    ensures r.1 == ColorParam(params, "#5edfff") && Truthy(Some(r.1))
  {
    var s := SphereSettingsOf(host, params);
    (SphereGeometry(s.radius * 0.5, 48, 48), s.color)
  }

  /** The text label: its string and its font size. */
  function TextShape(host: Host, params: Params): (r: (string, real, ParamValue))
    ensures "text" in params && params["text"].Str? && params["text"].s != "" ==> r.0 == params["text"].s
    ensures !Truthy(Lookup(params, "text")) ==> r.0 == "HELLO"
    ensures r.1 == NumberParam(host, params, "size", 3.0) && r.1 != 0.0
    ensures r.2 == ColorParam(params, "#ffffff") && Truthy(Some(r.2))
  {
    var s := TextSettingsOf(host, params);
    (s.text, s.size, s.color)
  }

  /** The mesh arguments of the four primitive shapes are half (or a fixed fraction of) their parameters. */
  lemma PrimitiveArguments(host: Host, params: Params)
    ensures var g := SaturnShape(host, params);
            && g.planet.radius * 2.0 == NumberParam(host, params, "planetScale", 4.0)
            && g.ring.radius * 2.0 == NumberParam(host, params, "ringDist", 8.0)
            && g.ring.tube * 10.0 == NumberParam(host, params, "ringWidth", 2.0)
            && g.ring.radius != 0.0 && g.planet.radius != 0.0
    ensures var (k, _) := TorusKnotShape(host, params);
            && k.radius * 2.0 == NumberParam(host, params, "radius", 5.0)
            && k.tube * 5.0 == NumberParam(host, params, "tubeRadius", 1.5)
            && k.p != 0.0 && k.q != 0.0
    ensures SphereShape(host, params).0.radius * 2.0 == NumberParam(host, params, "radius", 5.0)
    ensures TextShape(host, params).1 != 0.0
  {
  }

  // ---------------------------------------------------------------------
  // Dispatcher
  // ---------------------------------------------------------------------

  datatype ShapeKind = Heart | Saturn | TorusKnot | Flower | Sphere | Star | CubeCloud | DoubleHelix | Wave | Text

  /** The type tag each generator is selected by. */
  function Tag(kind: ShapeKind): string
  {
    match kind
    case Heart => "heart"
    case Saturn => "saturn"
    case TorusKnot => "torusKnot"
    case Flower => "flower"
    case Sphere => "sphere"
    case Star => "star"
    case CubeCloud => "cubeCloud"
    case DoubleHelix => "doubleHelix"
    case Wave => "wave"
    case Text => "text"
  }

  const KnownTags: set<string> :=
    {"heart", "saturn", "torusKnot", "flower", "sphere", "star", "cubeCloud", "doubleHelix", "wave", "text"}

  /** The generator a tag selects, if it has one of its own. */
  function KindOf(tag: string): (r: Option<ShapeKind>)
    ensures r.Some? <==> tag in KnownTags
    ensures r.Some? ==> Tag(r.value) == tag
  {
    match tag
    case "heart" => Some(Heart)
    case "saturn" => Some(Saturn)
    case "torusKnot" => Some(TorusKnot)
    case "flower" => Some(Flower)
    case "sphere" => Some(Sphere)
    case "star" => Some(Star)
    case "cubeCloud" => Some(CubeCloud)
    case "doubleHelix" => Some(DoubleHelix)
    case "wave" => Some(Wave)
    case "text" => Some(Text)
    case _ => None
  }

  /** Tags and generators are in one-to-one correspondence. */
  lemma TagRoundTrip(a: ShapeKind, b: ShapeKind)
    ensures KindOf(Tag(a)) == Some(a)
    ensures Tag(a) == Tag(b) ==> a == b
    ensures Tag(a) in KnownTags
  {
  }

  /** `<XShape params={…} />`: the generator chosen and the parameters it is given. */
  datatype Element = Element(kind: ShapeKind, params: Params)

  /**
   * `renderShape`: a known tag runs its own generator on the model's
   * parameters; any other tag runs the sphere generator on the same
   * parameters with `radius` forced to 4 (every other key, colour
   * included, is kept).
   */
  function RenderShape(model: ModelDef): (e: Element)
    ensures model.typeTag in KnownTags ==> Tag(e.kind) == model.typeTag && e.params == model.params
    ensures model.typeTag !in KnownTags ==> e.kind == Sphere
    ensures model.typeTag !in KnownTags ==> e.params.Keys == model.params.Keys + {"radius"}
    ensures model.typeTag !in KnownTags ==> e.params["radius"] == Num(4.0)
    ensures model.typeTag !in KnownTags ==>
              forall k :: k in model.params && k != "radius" ==> e.params[k] == model.params[k]
  {
    match KindOf(model.typeTag)
    case Some(kind) => Element(kind, model.params)
    case None => Element(Sphere, model.params["radius" := Num(4.0)])
  }

  /**
   * An unknown tag renders exactly what the tag "sphere" renders once the
   * radius is set to 4, whatever name and thumbnail either model has.
   */
  lemma UnknownTagRendersAsSphere(model: ModelDef, name: string, thumbnail: string)
    requires model.typeTag !in KnownTags
    ensures RenderShape(model)
            == RenderShape(ModelDef(name, "sphere", model.params["radius" := Num(4.0)], thumbnail))
  {
  }

  /** Whatever radius an unknown-tag model asks for, its sphere has radius 2 and keeps its colour. */
  lemma UnknownTagSphereRadius(host: Host, model: ModelDef)
    requires model.typeTag !in KnownTags
    ensures RenderShape(model).kind == Sphere
    ensures SphereShape(host, RenderShape(model).params).0.radius == 2.0
    ensures SphereShape(host, RenderShape(model).params).1 == ColorParam(model.params, "#5edfff")
  {
    var e := RenderShape(model);
    assert Lookup(e.params, "radius") == Some(Num(4.0));
    assert Lookup(e.params, "color") == Lookup(model.params, "color");
  }
}
