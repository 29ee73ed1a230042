/** The grassland: hill control points generated once per initialisation, one layer per table entry. */
module Grassland {
  import opened SkyConfig

  datatype HillPoint = HillPoint(x: real, y: real)

  datatype Layer = Layer(color: string, hills: seq<HillPoint>)

  /** Horizontal distance between neighbouring hill points of `layer`: the hills span 1.2 widths. */
  function Spacing(layer: GrassLayer, width: nat): real
    requires WellFormedGrassLayer(layer)
  {
    width as real * 1.2 / (layer.points - 1) as real
  }

  /** The hill points of one layer: `points` of them, evenly spaced from a tenth of the width left
      of the canvas to a tenth right of it, each at most `amplitude` above the layer's baseline. */
  predicate HillsFit(hills: seq<HillPoint>, layer: GrassLayer, width: nat, height: nat)
    requires WellFormedGrassLayer(layer)
  {
    && |hills| == layer.points
    && hills[0].x == -0.1 * width as real
    && hills[|hills| - 1].x == 1.1 * width as real
    && (forall i :: 0 < i < |hills| ==> hills[i].x - hills[i - 1].x == Spacing(layer, width))
    && (forall i :: 0 <= i < |hills| ==>
          height as real * layer.y - layer.amplitude < hills[i].y <= height as real * layer.y)
  }

  /** The hills of one layer, one draw per point for its height. */
  method CreateHills(layer: GrassLayer, width: nat, height: nat, rand: Stream, k: nat)
    returns (hills: seq<HillPoint>, next: nat)
    requires WellFormedGrassLayer(layer) && Uniform(rand)
    ensures HillsFit(hills, layer, width, height)
    ensures next == k + |hills|
  {
    var hillWidth := width as real * 1.2;
    var segmentWidth := hillWidth / (layer.points - 1) as real;
    hills := [];
    next := k;
    for i := 0 to layer.points
      invariant |hills| == i && next == k + i
      invariant forall j :: 0 <= j < i ==> hills[j].x == j as real * segmentWidth - width as real * 0.1
      invariant forall j :: 0 <= j < i ==>
                  height as real * layer.y - layer.amplitude < hills[j].y <= height as real * layer.y
    {
      ScaledDraw(rand(next), 0.0, layer.amplitude);
      hills := hills + [HillPoint(i as real * segmentWidth - width as real * 0.1,
                                  height as real * layer.y - rand(next) * layer.amplitude)];
      next := next + 1;
    }
    assert segmentWidth * (layer.points - 1) as real == hillWidth;
    EvenlySpaced(hills, segmentWidth, width);
  }

  /** Points at x = j·step - 0.1·width for j = 0 .. n-1, with (n-1)·step = 1.2·width, run from
      a tenth of the width left of the canvas to a tenth right of it, one step apart. */
  lemma EvenlySpaced(hills: seq<HillPoint>, step: real, width: nat)
    requires |hills| >= 2
    requires step * (|hills| - 1) as real == width as real * 1.2
    requires forall j :: 0 <= j < |hills| ==> hills[j].x == j as real * step - width as real * 0.1
    ensures hills[0].x == -0.1 * width as real
    ensures hills[|hills| - 1].x == 1.1 * width as real
    ensures forall i :: 0 < i < |hills| ==> hills[i].x - hills[i - 1].x == step
  {
    forall i | 0 < i < |hills| ensures hills[i].x - hills[i - 1].x == step {
      assert i as real * step - (i - 1) as real * step == step;
    }
  }

  /** Number of draws the hills of these layers take: one per hill point. */
  function HillDraws(layers: seq<GrassLayer>): nat
  {
    if layers == [] then 0 else HillDraws(layers[..|layers| - 1]) + layers[|layers| - 1].points
  }

  /** One grassland layer per table entry, in table order, each with its colour and its hills;
      the 5 + 7 + 10 hill points take 22 draws. */
  method CreateGrassland(width: nat, height: nat, rand: Stream, k: nat) returns (layers: seq<Layer>, next: nat)
    requires Uniform(rand)
    ensures |layers| == |GrassLayers|
    ensures forall i :: 0 <= i < |layers| ==>
              && layers[i].color == GrassLayers[i].color
              && HillsFit(layers[i].hills, GrassLayers[i], width, height)
    ensures next == k + 22
  {
    layers := [];
    next := k;
    for i := 0 to |GrassLayers|
      invariant |layers| == i && next == k + HillDraws(GrassLayers[..i])
      invariant forall j :: 0 <= j < i ==>
                  && layers[j].color == GrassLayers[j].color
                  && HillsFit(layers[j].hills, GrassLayers[j], width, height)
    {
      var config := GrassLayers[i];
      var hills;
      hills, next := CreateHills(config, width, height, rand, next);
      layers := layers + [Layer(config.color, hills)];
      assert GrassLayers[..i + 1][..i] == GrassLayers[..i];
    }
    var gs := GrassLayers;
    assert gs[..1][..0] == [] && gs[..2][..1] == gs[..1] && gs[..3][..2] == gs[..2] && gs[..3] == gs;
    assert HillDraws(gs[..1]) == 5;
    assert HillDraws(gs[..2]) == 12;
  }
}
