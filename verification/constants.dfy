/**
 * The seed catalog: the ten shape models the application starts with, and
 * what holds of them with respect to the dispatcher and the parameter
 * coercion.
 */
module Constants {
  import opened Types
  import opened Js
  import opened Viewer

  /** `INITIAL_MODELS`, in order. */
  const INITIAL_MODELS: seq<ModelDef> := [
    ModelDef("Love Heart", "heart",
      map["scale" := Num(1.0), "color" := Str("#ff5f9f"), "particles" := Num(2000.0)],
      HeartThumbnail),
    ModelDef("Saturn Ring", "saturn",
      map["ringDist" := Num(12.0), "ringWidth" := Num(4.0), "planetScale" := Num(4.0), "color" := Str("#f2c94c")],
      SaturnThumbnail),
    ModelDef("Mystic Knot", "torusKnot",
      map["p" := Num(2.0), "q" := Num(3.0), "radius" := Num(5.0), "tubeRadius" := Num(1.5), "color" := Str("#9b7bff")],
      KnotThumbnail),
    ModelDef("Neon Flower", "flower",
      map["k" := Num(4.0), "radius" := Num(8.0), "zRange" := Num(2.0), "color" := Str("#ff6bd6")],
      FlowerThumbnail),
    ModelDef("Fireworks Ball", "sphere",
      map["radius" := Num(8.0), "color" := Str("#5edfff"), "particles" := Num(1500.0)],
      FireworksThumbnail),
    ModelDef("Star Shine", "star",
      map["outerRadius" := Num(8.0), "innerRadius" := Num(4.0), "points" := Num(5.0), "depth" := Num(2.0), "color" := Str("#ffd166")],
      StarThumbnail),
    ModelDef("Cyber Cloud", "cubeCloud",
      map["size" := Num(10.0), "count" := Num(500.0), "color" := Str("#7de1ff")],
      CloudThumbnail),
    ModelDef("DNA Helix", "doubleHelix",
      map["radius" := Num(4.0), "height" := Num(15.0), "turns" := Num(3.0), "color" := Str("#ff9f6e")],
      HelixThumbnail),
    ModelDef("Audio Wave", "wave",
      map["amplitude" := Num(3.0), "frequency" := Num(0.5), "width" := Num(15.0), "depth" := Num(15.0), "color" := Str("#00ffff")],
      WaveThumbnail),
    ModelDef("3D Text", "text",
      map["text" := Str("GEMINI"), "size" := Num(4.0), "thickness" := Num(1.0), "color" := Str("#ffffff")],
      TextThumbnail)
  ]

  // The seeds' SVG thumbnails.
  const HeartThumbnail: string :=
    "<path fill=\"#ff5f9f\" d=\"M12 21s-7.5-4.35-9.5-9.14C1.1 9.1 2.2 5.5 5.4 4.4c2.1-.7 4.1.4 5.1 2.2 1-1.8 3-2.9 5.1-2.2 3.2 1.1 4.3 4.7 2.9 7.46C19.5 16.65 12 21 12 21z\"/>"
  const SaturnThumbnail: string :=
    "<circle cx=\"12\" cy=\"12\" r=\"4.5\" fill=\"#f2c94c\"/><ellipse cx=\"12\" cy=\"12.5\" rx=\"8\" ry=\"2.8\" fill=\"none\" stroke=\"#8bc5ff\" stroke-width=\"1.4\"/>"
  const KnotThumbnail: string :=
    "<path fill=\"none\" stroke=\"#9b7bff\" stroke-width=\"1.6\" d=\"M6 12c0-4 3-7 6-7s6 3 6 7-3 7-6 7-6-3-6-7z\"/><path fill=\"none\" stroke=\"#9b7bff\" stroke-width=\"1.6\" d=\"M4 9c2 2 14 2 16 0\"/>"
  const FlowerThumbnail: string :=
    "<circle cx=\"12\" cy=\"12\" r=\"3\" fill=\"#ff9a3c\"/><path fill=\"#ff6bd6\" d=\"M12 4l1.5 3.5L17 9l-3.5 1.5L12 14l-1.5-3.5L7 9l3.5-1.5z\"/>"
  const FireworksThumbnail: string :=
    "<circle cx=\"12\" cy=\"12\" r=\"3\" fill=\"#5edfff\"/><path stroke=\"#5edfff\" stroke-width=\"1.4\" stroke-linecap=\"round\" d=\"M12 3v4M12 17v4M3 12h4M17 12h4M5 5l3 3M16 16l3 3M19 5l-3 3M8 16l-3 3\"/>"
  const StarThumbnail: string :=
    "<path fill=\"#ffd166\" d=\"M12 2.5l2.2 6.1 6.3.2-5 3.9 1.8 6.1L12 15.5l-5.3 3.3 1.8-6.1-5-3.9 6.3-.2z\"/>"
  const CloudThumbnail: string :=
    "<rect x=\"6\" y=\"6\" width=\"12\" height=\"12\" fill=\"none\" stroke=\"#7de1ff\" stroke-width=\"1.4\"/><rect x=\"9\" y=\"4\" width=\"11\" height=\"11\" fill=\"none\" stroke=\"#7de1ff\" stroke-width=\"1.2\" opacity=\"0.7\"/>"
  const HelixThumbnail: string :=
    "<path fill=\"none\" stroke=\"#ff9f6e\" stroke-width=\"1.6\" d=\"M8 4c0 4 8 4 8 8s-8 4-8 8\"/><path fill=\"none\" stroke=\"#5edfff\" stroke-width=\"1.6\" d=\"M16 4c0 4-8 4-8 8s8 4 8 8\"/>"
  const WaveThumbnail: string :=
    "<path fill=\"none\" stroke=\"#00ffff\" stroke-width=\"1.6\" d=\"M3 12c4-2 8-2 12 0s8 2 12 0\"/>"
  const TextThumbnail: string :=
    "<text x=\"12\" y=\"16\" font-size=\"14\" fill=\"#00ffff\" text-anchor=\"middle\" font-weight=\"bold\">T</text>"

  /** The generator each seed is meant for, in catalog order. */
  const SeedKinds: seq<ShapeKind> :=
    [Heart, Saturn, TorusKnot, Flower, Sphere, Star, CubeCloud, DoubleHelix, Wave, Text]

  /** The position of a generator's seed in the catalog. */
  function SeedIndex(kind: ShapeKind): (i: nat)
    ensures i < |SeedKinds| && SeedKinds[i] == kind
  {
    match kind
    case Heart => 0
    case Saturn => 1
    case TorusKnot => 2
    case Flower => 3
    case Sphere => 4
    case Star => 5
    case CubeCloud => 6
    case DoubleHelix => 7
    case Wave => 8
    case Text => 9
  }

  /** There are ten seeds, and seed i carries the tag of generator i, in the dispatcher's order. */
  lemma SeedTags()
    ensures |INITIAL_MODELS| == |SeedKinds| == 10
    ensures forall i :: 0 <= i < |INITIAL_MODELS| ==> INITIAL_MODELS[i].typeTag == Tag(SeedKinds[i])
  {
  }

  /**
   * One seed per generator: the seed tags are pairwise distinct, all known
   * to the dispatcher, and every tag the dispatcher knows is a seed's tag.
   */
  lemma SeedTagsCoverDispatcher()
    ensures forall i, j :: 0 <= i < j < |INITIAL_MODELS| ==> INITIAL_MODELS[i].typeTag != INITIAL_MODELS[j].typeTag
    ensures forall i :: 0 <= i < |INITIAL_MODELS| ==> INITIAL_MODELS[i].typeTag in KnownTags
    ensures forall t :: t in KnownTags ==> exists i :: 0 <= i < |INITIAL_MODELS| && INITIAL_MODELS[i].typeTag == t
  {
    SeedTags();
    forall i, j | 0 <= i < j < |INITIAL_MODELS|
      ensures INITIAL_MODELS[i].typeTag != INITIAL_MODELS[j].typeTag
    {
      TagRoundTrip(SeedKinds[i], SeedKinds[j]);
    }
    forall i | 0 <= i < |INITIAL_MODELS|
      ensures INITIAL_MODELS[i].typeTag in KnownTags
    {
      TagRoundTrip(SeedKinds[i], SeedKinds[i]);
    }
    forall t | t in KnownTags
      ensures exists i :: 0 <= i < |INITIAL_MODELS| && INITIAL_MODELS[i].typeTag == t
    {
      var i := SeedIndex(KindOf(t).value);
      assert INITIAL_MODELS[i].typeTag == t;
    }
  }

  /** No seed renders through the unknown-tag fallback: each runs its own generator. */
  lemma SeedsRenderOwnGenerator(i: nat)
    requires i < |INITIAL_MODELS|
    ensures Tag(RenderShape(INITIAL_MODELS[i]).kind) == INITIAL_MODELS[i].typeTag
    ensures RenderShape(INITIAL_MODELS[i]).params == INITIAL_MODELS[i].params
  {
    SeedTags();
    SeedTagsCoverDispatcher();
  }

  /** The seed names are pairwise distinct, so upserting by name never merges two seeds. */
  lemma SeedNamesDistinct()
    ensures NamesDistinct(INITIAL_MODELS)
  {
    var names := seq(|INITIAL_MODELS|, i requires 0 <= i < |INITIAL_MODELS| => INITIAL_MODELS[i].name);
    assert names == ["Love Heart", "Saturn Ring", "Mystic Knot", "Neon Flower", "Fireworks Ball",
                     "Star Shine", "Cyber Cloud", "DNA Helix", "Audio Wave", "3D Text"];
  }

  /** Every seed has a `color` parameter, and it is a non-empty string. */
  lemma SeedColors(i: nat)
    requires i < |INITIAL_MODELS|
    ensures "color" in INITIAL_MODELS[i].params
    ensures INITIAL_MODELS[i].params["color"].Str? && INITIAL_MODELS[i].params["color"].s != ""
  {
  }

  /**
   * Every numeric seed parameter is strictly positive, so reading it with
   * `Number(v) || default` yields the seed's own value whatever the default.
   */
  lemma SeedNumbersPositive(host: Host, i: nat, key: string, fallback: real)
    requires i < |INITIAL_MODELS|
    requires key in INITIAL_MODELS[i].params && INITIAL_MODELS[i].params[key].Num?
    ensures INITIAL_MODELS[i].params[key].n > 0.0
    ensures NumberParam(host, INITIAL_MODELS[i].params, key, fallback) == INITIAL_MODELS[i].params[key].n
  {
    NumberParamCases(host, INITIAL_MODELS[i].params, key, fallback);
  }

  /** The first seed is the heart model, the one selected at start-up. */
  lemma FirstSeedIsHeart(host: Host)
    ensures INITIAL_MODELS[0].name == "Love Heart"
    ensures RenderShape(INITIAL_MODELS[0]).kind == Heart
    ensures HeartSettingsOf(host, INITIAL_MODELS[0].params) == HeartSettings(2000.0, 1.0, Str("#ff5f9f"))
  {
    var params := INITIAL_MODELS[0].params;
    assert Lookup(params, "particles") == Some(Num(2000.0));
    assert Lookup(params, "scale") == Some(Num(1.0));
    assert Lookup(params, "color") == Some(Str("#ff5f9f"));
  }
}
