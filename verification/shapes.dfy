/**
 * The point-generating shapes end to end: each reads its settings from the
 * model's parameters with the viewer's coercion, then runs its sample loop
 * on them.
 */
module Shapes {
  import opened Types
  import opened Js
  import opened Viewer
  import opened Generators

  /**
   * `HeartShape`: the buffer holds one sample per particle, with the scale
   * read from the parameters; a missing or zero particle count gives the
   * default 1500 samples.
   */
  method HeartShape(host: Host, rand: nat -> real, params: Params) returns (pos: array<real>, color: ParamValue)
    requires HeartSettingsOf(host, params).count >= 0.0
    requires HeartSettingsOf(host, params).count.Floor as real == HeartSettingsOf(host, params).count
    ensures var s := HeartSettingsOf(host, params);
            && pos.Length == 3 * s.count.Floor
            && color == s.color
            && forall i :: 0 <= i < s.count.Floor ==> HoldsPoint(pos, i, HeartPoint(host, rand, s.scale, i))
    ensures "particles" !in params || params["particles"] == Num(0.0) ==> pos.Length == 4500
  {
    NumberParamCases(host, params, "particles", 1500.0);
    var s := HeartSettingsOf(host, params);
    pos := HeartPositions(host, rand, s.count.Floor, s.scale);
    color := s.color;
  }

  /**
   * `StarShape`: the outline for the point count read from the parameters,
   * extruded to half the depth; a missing or zero count gives the default
   * five-pointed star of ten vertices.
   */
  method StarShape(host: Host, params: Params) returns (shape: Outline, depth: real, color: ParamValue)
    ensures var s := StarSettingsOf(host, params);
            && shape.closed
            && |shape.vertices| == LoopCount(2.0 * s.points)
            && (forall i :: 0 <= i < |shape.vertices| ==>
                  shape.vertices[i] == StarVertex(host, s.outer, s.inner, s.points, i))
            && depth == s.depth * 0.5
            && color == s.color
    ensures "points" !in params || params["points"] == Num(0.0) ==> |shape.vertices| == 10
  {
    NumberParamCases(host, params, "points", 5.0);
    var s := StarSettingsOf(host, params);
    shape := StarOutline(host, s.outer, s.inner, s.points);
    depth := s.depth * 0.5;
    color := s.color;
  }

  /**
   * `CubeCloudShape`: one cube per loop turn over the count read from the
   * parameters, in a box of the size read from them; a missing or zero
   * count gives the default 100 cubes.
   */
  method CubeCloudShape(host: Host, rand: nat -> real, params: Params) returns (cubes: seq<Instance>, color: ParamValue)
    ensures var s := CubeCloudSettingsOf(host, params);
            && |cubes| == LoopCount(s.count)
            && (forall i :: 0 <= i < |cubes| ==> cubes[i] == CubeInstance(rand, s.size, i))
            && color == s.color
    ensures "count" !in params || params["count"] == Num(0.0) ==> |cubes| == 100
  {
    NumberParamCases(host, params, "count", 100.0);
    var s := CubeCloudSettingsOf(host, params);
    cubes := CubeInstances(rand, s.size, s.count);
    color := s.color;
  }
}
