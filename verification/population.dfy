/** How many clouds each layer gets at a given canvas width, and the order they sit in the pool. */
module Population {
  import opened SkyConfig
  import opened Clouds

  /** Clouds of `layer` at this width: the configured count scaled by width / 1920, rounded down,
      and never fewer than two. */
  function LayerCount(layer: CloudLayer, width: nat): (n: nat)
    ensures n >= 2
    ensures n >= layer.count * width / ReferenceWidth
    ensures n == 2 || n == layer.count * width / ReferenceWidth
  {
    var scaled := layer.count * width / ReferenceWidth;
    if scaled > 2 then scaled else 2
  }

  /** A wider canvas never gets fewer clouds in a layer. */
  lemma LayerCountMonotone(layer: CloudLayer, w1: nat, w2: nat)
    requires w1 <= w2
    ensures LayerCount(layer, w1) <= LayerCount(layer, w2)
  {
  }

  /** Total number of clouds of the given layers at this width. */
  function TotalCount(layers: seq<CloudLayer>, width: nat): (n: nat)
    ensures n >= 2 * |layers|
  {
    if layers == [] then 0
    else TotalCount(layers[..|layers| - 1], width) + LayerCount(layers[|layers| - 1], width)
  }

  /** The layer each pool slot belongs to: the clouds of the first layer, then those of the second,
      and so on, LayerCount of each. */
  function Layout(layers: seq<CloudLayer>, width: nat): (slots: seq<CloudLayer>)
    ensures |slots| == TotalCount(layers, width)
    ensures forall s :: s in slots ==> s in layers
  {
    if layers == [] then []
    else
      var last := layers[|layers| - 1];
      Layout(layers[..|layers| - 1], width) + seq(LayerCount(last, width), _ => last)
  }

  /** Layer i occupies exactly the LayerCount(layers[i]) slots after those of the layers before it. */
  lemma {:induction false} LayoutSegment(layers: seq<CloudLayer>, width: nat, i: nat, j: nat)
    requires i < |layers| && j < LayerCount(layers[i], width)
    ensures TotalCount(layers[..i], width) + j < |Layout(layers, width)|
    ensures Layout(layers, width)[TotalCount(layers[..i], width) + j] == layers[i]
  {
    var init := layers[..|layers| - 1];
    if i == |layers| - 1 {
      assert layers[..i] == init;
    } else {
      assert init[..i] == layers[..i];
      LayoutSegment(init, width, i, j);
    }
  }

  /** At the reference width the pool holds 12 + 8 + 5 clouds; at half of it, 6 + 4 + 2. */
  lemma ReferenceCounts()
    ensures LayerCount(CloudLayers[0], 1920) == 12
    ensures LayerCount(CloudLayers[1], 1920) == 8
    ensures LayerCount(CloudLayers[2], 1920) == 5
    ensures TotalCount(CloudLayers, 1920) == 25
    ensures LayerCount(CloudLayers[0], 960) == 6
    ensures LayerCount(CloudLayers[1], 960) == 4
    ensures LayerCount(CloudLayers[2], 960) == 2
    ensures TotalCount(CloudLayers, 960) == 12
  {
    PoolIsSumOfLayers(1920);
    PoolIsSumOfLayers(960);
  }

  /** The pool is the three layers' counts added up. */
  lemma PoolIsSumOfLayers(width: nat)
    ensures TotalCount(CloudLayers, width)
         == LayerCount(CloudLayers[0], width) + LayerCount(CloudLayers[1], width) + LayerCount(CloudLayers[2], width)
  {
    var ls := CloudLayers;
    assert ls[..1][..0] == [];
    assert ls[..2][..1] == ls[..1];
    assert ls[..3][..2] == ls[..2];
    assert ls[..3] == ls;
    assert TotalCount(ls[..1], width) == LayerCount(ls[0], width);
    assert TotalCount(ls[..2], width) == LayerCount(ls[0], width) + LayerCount(ls[1], width);
  }

  /** However narrow the canvas, the pool holds at least two clouds per layer. */
  lemma PoolAtLeastSix(width: nat)
    ensures |Layout(CloudLayers, width)| >= 6
  {
  }

  /** The pool holds, in layer order, LayerCount clouds of each layer for this width. */
  ghost predicate LaidOut(pool: seq<Cloud>, width: nat) {
    var slots := Layout(CloudLayers, width);
    && |pool| == |slots|
    && forall i :: 0 <= i < |pool| ==> FromLayer(pool[i], slots[i])
  }

  /** The cloud pass, cloud by cloud in pool order: each drifts right by its speed and, once past
      the right edge, goes back to two sizes left of the canvas at a height from the next draw. */
  method DriftPool(pool: seq<Cloud>, width: nat, height: nat, rand: Stream, k: nat) returns (cs: seq<Cloud>, next: nat)
    ensures (cs, next) == StepPool(pool, width, height, rand, k)
    ensures LaidOut(pool, width) ==> LaidOut(cs, width)
  {
    cs := pool;
    next := k;
    for i := 0 to |cs|
      invariant |cs| == |pool| && forall j :: i <= j < |pool| ==> cs[j] == pool[j]
      invariant cs[..i] == StepPool(pool[..i], width, height, rand, k).0
      invariant next == StepPool(pool[..i], width, height, rand, k).1
    {
      StepPoolPush(pool, width, height, rand, k, i);
      ghost var drawn := next;
      var cloud := cs[i];
      cloud := cloud.(x := cloud.x + cloud.speed);
      if cloud.x - cloud.size > width as real {
        cloud := cloud.(x := -cloud.size * 2.0, y := rand(next) * height as real * 0.55);
        next := next + 1;
      }
      assert cloud == StepCloud(pool[i], width, height, rand(drawn));
      cs := cs[i := cloud];
      assert cs[..i + 1] == cs[..i] + [cloud];
    }
    assert cs[..|cs|] == cs && pool[..|pool|] == pool;
    if LaidOut(pool, width) {
      StepPoolKeepsLayers(pool, Layout(CloudLayers, width), width, height, rand, k);
    }
  }

  /** A new cloud pool for this canvas: layer after layer, LayerCount new clouds of each. */
  method CreatePool(width: nat, height: nat, rand: Stream, k: nat) returns (pool: seq<Cloud>, next: nat)
    requires Uniform(rand)
    ensures |pool| == |Layout(CloudLayers, width)|
    ensures forall i :: 0 <= i < |pool| ==> FromLayer(pool[i], Layout(CloudLayers, width)[i])
    ensures forall c :: c in pool ==> Placed(c, width, height)
    ensures next == k + CreationDraws(pool)
  {
    pool := [];
    next := k;
    ghost var slots: seq<CloudLayer> := [];
    for li := 0 to |CloudLayers|
      invariant slots == Layout(CloudLayers[..li], width) && |pool| == |slots|
      invariant next == k + CreationDraws(pool)
      invariant forall j :: 0 <= j < |pool| ==> FromLayer(pool[j], slots[j]) && Placed(pool[j], width, height)
    {
      var layer := CloudLayers[li];
      var responsiveCount := LayerCount(layer, width);
      var created;
      created, next := CreateLayerClouds(layer, responsiveCount, width, height, rand, next);
      CreationDrawsAppend(pool, created);
      ghost var before := pool;
      pool := pool + created;
      slots := slots + seq(responsiveCount, _ => layer);
      forall j | 0 <= j < |pool| ensures FromLayer(pool[j], slots[j]) && Placed(pool[j], width, height) {
        if j >= |before| {
          assert pool[j] == created[j - |before|];
        }
      }
      assert CloudLayers[..li + 1][..li] == CloudLayers[..li];
    }
    assert CloudLayers[..|CloudLayers|] == CloudLayers;
  }
}
