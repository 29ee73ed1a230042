/** Constants of the cloudy-sky background and the random-draw stream it consumes. */
module SkyConfig {

  /** One entry of the cloud layer table: how many clouds at the reference width, how fast, how large. */
  datatype CloudLayer = CloudLayer(count: nat, speed: real, baseSize: real)

  /** One entry of the grassland table: fill colour, baseline as a fraction of the height,
      how far a hill may rise above the baseline, and how many hill points the layer has. */
  datatype GrassLayer = GrassLayer(color: string, y: real, amplitude: real, points: nat)

  const CloudLayers: seq<CloudLayer> := [
    CloudLayer(12, 0.1, 150.0),  // distant, small, slow
    CloudLayer(8, 0.2, 250.0),   // mid-ground
    CloudLayer(5, 0.35, 400.0)   // foreground, large, fast
  ]

  const GrassLayers: seq<GrassLayer> := [
    GrassLayer("rgba(34, 197, 94, 0.4)", 0.85, 80.0, 5),   // farthest
    GrassLayer("rgba(22, 163, 74, 0.6)", 0.9, 100.0, 7),   // middle
    GrassLayer("rgba(21, 128, 61, 0.8)", 0.95, 120.0, 10)  // closest
  ]

  /** The width at which every cloud layer has exactly its configured count. */
  const ReferenceWidth: nat := 1920

  const SpawnChance: real := 0.001
  const PlaneSpeed: real := 3.0
  const PlaneSize: real := 25.0
  const TrailLength: nat := 150

  /** The values successive calls of the platform's random generator return: `rand(k)` is the k-th draw. */
  type Stream = nat -> real

  ghost predicate Uniform(rand: Stream) {
    forall k: nat :: 0.0 <= rand(k) < 1.0
  }

  /** `v` lies in the half-open range [lo, hi); when the range is empty (lo == hi) it is lo itself. */
  predicate Within(v: real, lo: real, hi: real) {
    lo <= v <= hi && (lo < hi ==> v < hi)
  }

  predicate WellFormedCloudLayer(layer: CloudLayer) {
    layer.speed > 0.0 && layer.baseSize > 0.0
  }

  predicate WellFormedGrassLayer(layer: GrassLayer) {
    layer.points >= 2 && layer.amplitude > 0.0
  }

  lemma ProductSigns(a: real, b: real)
    requires a >= 0.0 && b >= 0.0
    ensures a * b >= 0.0
    ensures a > 0.0 && b > 0.0 ==> a * b > 0.0
  {
  }

  /** A draw r in [0, 1) scaled onto [lo, hi) stays there. */
  lemma ScaledDraw(r: real, lo: real, hi: real)
    requires 0.0 <= r < 1.0 && lo <= hi
    ensures Within(r * (hi - lo) + lo, lo, hi)
  {
    var d := hi - lo;
    ProductSigns(r, d);
    ProductSigns(1.0 - r, d);
    assert (1.0 - r) * d == d - r * d;
  }
}
