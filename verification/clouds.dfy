/** Clouds: how one is created from random draws, and how it drifts and wraps each frame. */
module Clouds {
  import opened SkyConfig

  /** A puff is a circle drawn at an offset from the cloud's centre. */
  datatype Puff = Puff(dx: real, dy: real, r: real)

  datatype Cloud = Cloud(x: real, y: real, size: real, speed: real, puffs: seq<Puff>)

  /** Number of puffs of a cloud of the given size: floor(size / 30) + 6. */
  function PuffCount(size: real): (n: nat)
    requires size >= 0.0
    ensures n >= 6
    ensures (n - 6) as real * 30.0 <= size < (n - 5) as real * 30.0
  {
    (size / 30.0).Floor + 6
  }

  /** A puff stays inside the box the cloud's size allows: horizontal offset within 0.45 size,
      vertical offset within 0.175 size, radius between size/6 and size/4 + size/6. */
  predicate PuffFits(p: Puff, size: real) {
    && Within(p.dx, -0.45 * size, 0.45 * size)
    && Within(p.dy, -0.175 * size, 0.175 * size)
    && Within(p.r, size / 6.0, size / 4.0 + size / 6.0)
  }

  /** The puff built from the three draws starting at index k (dx, dy, r in that order). */
  function DrawPuff(size: real, rand: Stream, k: nat): (p: Puff)
    requires size >= 0.0 && Uniform(rand)
    ensures PuffFits(p, size)
  {
    ScaledDraw(rand(k), -0.45 * size, 0.45 * size);
    ScaledDraw(rand(k + 1), -0.175 * size, 0.175 * size);
    ScaledDraw(rand(k + 2), size / 6.0, size / 4.0 + size / 6.0);
    Puff((rand(k) - 0.5) * size * 0.9, (rand(k + 1) - 0.5) * size * 0.35, rand(k + 2) * (size / 4.0) + size / 6.0)
  }

  /** The puffs of a new cloud: PuffCount(size) of them, each from the next three draws. */
  method CreateCloudPuffs(size: real, rand: Stream, k: nat) returns (puffs: seq<Puff>, next: nat)
    requires size >= 0.0 && Uniform(rand)
    ensures |puffs| == PuffCount(size) && next == k + 3 * |puffs|
    ensures forall i :: 0 <= i < |puffs| ==> puffs[i] == DrawPuff(size, rand, k + 3 * i)
    ensures forall p :: p in puffs ==> PuffFits(p, size)
  {
    puffs := [];
    next := k;
    var puffCount := PuffCount(size);
    for i := 0 to puffCount
      invariant |puffs| == i && next == k + 3 * i
      invariant forall j :: 0 <= j < i ==> puffs[j] == DrawPuff(size, rand, k + 3 * j)
    {
      puffs := puffs + [DrawPuff(size, rand, next)];
      next := next + 3;
    }
  }

  /** What a cloud keeps from its layer for its whole life: size and speed within a quarter of the
      layer's, and the puff set that matches its size. */
  predicate FromLayer(c: Cloud, layer: CloudLayer) {
    && c.size > 0.0
    && Within(c.size, 0.75 * layer.baseSize, 1.25 * layer.baseSize)
    && Within(c.speed, 0.75 * layer.speed, 1.25 * layer.speed)
    && |c.puffs| == PuffCount(c.size)
    && forall p :: p in c.puffs ==> PuffFits(p, c.size)
  }

  /** The band a cloud never leaves: from two sizes left of the canvas to one size right of it,
      and in the upper 55% of the canvas. */
  predicate InSky(c: Cloud, width: nat, height: nat) {
    && -2.0 * c.size <= c.x <= width as real + c.size
    && Within(c.y, 0.0, 0.55 * height as real)
  }

  /** Where a new cloud is put: horizontally anywhere from one size left of the canvas to one size
      right of it, vertically in the upper 55% of the canvas. */
  predicate Placed(c: Cloud, width: nat, height: nat) {
    && Within(c.x, -c.size, width as real + c.size)
    && Within(c.y, 0.0, 0.55 * height as real)
  }

  /** The cloud of `layer` with this size and puffs, placed and paced by the draws r1 (x), r2 (y)
      and r3 (speed). */
  function CloudFrom(layer: CloudLayer, width: nat, height: nat, size: real, r1: real, r2: real, r3: real,
                     puffs: seq<Puff>): (c: Cloud)
    requires WellFormedCloudLayer(layer) && Within(size, 0.75 * layer.baseSize, 1.25 * layer.baseSize)
    requires 0.0 <= r1 < 1.0 && 0.0 <= r2 < 1.0 && 0.0 <= r3 < 1.0
    requires |puffs| == PuffCount(size) && forall p :: p in puffs ==> PuffFits(p, size)
    ensures c.size == size && c.puffs == puffs
    ensures FromLayer(c, layer) && Placed(c, width, height) && InSky(c, width, height)
  {
    ScaledDraw(r1, -size, width as real + size);
    assert r1 * (width as real + size * 2.0) - size == r1 * (width as real + size - -size) + -size;
    ScaledDraw(r2, 0.0, 0.55 * height as real);
    assert r2 * height as real * 0.55 == r2 * (0.55 * height as real - 0.0) + 0.0;
    ScaledDraw(r3, 0.75 * layer.speed, 1.25 * layer.speed);
    assert layer.speed * (r3 * 0.5 + 0.75) == r3 * (1.25 * layer.speed - 0.75 * layer.speed) + 0.75 * layer.speed;
    Cloud(r1 * (width as real + size * 2.0) - size, r2 * height as real * 0.55, size,
          layer.speed * (r3 * 0.5 + 0.75), puffs)
  }

  /** A new cloud of `layer`, from draws k (size), k+1 (x), k+2 (y), k+3 (speed) and then the puffs. */
  method CreateCloud(layer: CloudLayer, width: nat, height: nat, rand: Stream, k: nat) returns (c: Cloud, next: nat)
    requires WellFormedCloudLayer(layer) && Uniform(rand)
    ensures FromLayer(c, layer)
    ensures Placed(c, width, height) && InSky(c, width, height)
    ensures next == k + 4 + 3 * |c.puffs|
  {
    var size := layer.baseSize * (rand(k) * 0.5 + 0.75);
    ScaledDraw(rand(k), 0.75 * layer.baseSize, 1.25 * layer.baseSize);
    assert size == rand(k) * (1.25 * layer.baseSize - 0.75 * layer.baseSize) + 0.75 * layer.baseSize;
    var puffs;
    puffs, next := CreateCloudPuffs(size, rand, k + 4);
    c := CloudFrom(layer, width, height, size, rand(k + 1), rand(k + 2), rand(k + 3), puffs);
  }

  /** Number of draws the creation of these clouds took: four for each cloud and three per puff. */
  function CreationDraws(pool: seq<Cloud>): nat
  {
    if pool == [] then 0
    else CreationDraws(pool[..|pool| - 1]) + 4 + 3 * |pool[|pool| - 1].puffs|
  }

  /** Clouds created after the others add their own draws to theirs. */
  lemma {:induction false} CreationDrawsAppend(pool: seq<Cloud>, more: seq<Cloud>)
    ensures CreationDraws(pool + more) == CreationDraws(pool) + CreationDraws(more)
  {
    if more == [] {
      assert pool + more == pool;
    } else {
      var init := more[..|more| - 1];
      assert (pool + more)[..|pool + more| - 1] == pool + init;
      assert (pool + more)[|pool + more| - 1] == more[|more| - 1];
      CreationDrawsAppend(pool, init);
    }
  }

  /** The clouds of one layer: `count` new clouds, created one after another. */
  method CreateLayerClouds(layer: CloudLayer, count: nat, width: nat, height: nat, rand: Stream, k: nat)
    returns (cs: seq<Cloud>, next: nat)
    requires WellFormedCloudLayer(layer) && Uniform(rand)
    ensures |cs| == count && next == k + CreationDraws(cs)
    ensures forall c :: c in cs ==> FromLayer(c, layer) && Placed(c, width, height)
  {
    cs := [];
    next := k;
    for i := 0 to count
      invariant |cs| == i && next == k + CreationDraws(cs)
      invariant forall c :: c in cs ==> FromLayer(c, layer) && Placed(c, width, height)
    {
      var c;
      c, next := CreateCloud(layer, width, height, rand, next);
      assert (cs + [c])[..|cs|] == cs;
      cs := cs + [c];
    }
  }

  /** The cloud has drifted entirely past the right edge of the canvas. */
  predicate PastRightEdge(c: Cloud, width: nat) {
    c.x - c.size > width as real
  }

  /** One frame of drift: move right by the cloud's own speed; once past the right edge, go back
      to two sizes left of the canvas at a new height taken from the draw `r`. */
  function StepCloud(c: Cloud, width: nat, height: nat, r: real): (d: Cloud)
    ensures d.size == c.size && d.speed == c.speed && d.puffs == c.puffs
    ensures PastRightEdge(c.(x := c.x + c.speed), width) ==> d.x == -2.0 * c.size
    ensures !PastRightEdge(c.(x := c.x + c.speed), width) ==> d == c.(x := c.x + c.speed)
  {
    var moved := c.(x := c.x + c.speed);
    if PastRightEdge(moved, width) then moved.(x := -2.0 * c.size, y := r * height as real * 0.55)
    else moved
  }

  /** A drifting cloud never leaves its band, whatever draw a wrap uses. */
  lemma StepCloudStaysInSky(c: Cloud, width: nat, height: nat, r: real)
    requires c.size > 0.0 && c.speed >= 0.0 && 0.0 <= r < 1.0
    requires InSky(c, width, height)
    ensures InSky(StepCloud(c, width, height, r), width, height)
  {
  }

  /** Number of clouds in the pool that wrap during the next frame; each of them uses one draw. */
  function WrapCount(pool: seq<Cloud>, width: nat): (n: nat)
    ensures n <= |pool|
  {
    if pool == [] then 0
    else
      var last := pool[|pool| - 1];
      WrapCount(pool[..|pool| - 1], width) + (if PastRightEdge(last.(x := last.x + last.speed), width) then 1 else 0)
  }

  /** The cloud pass of one frame over the pool, in pool order, with the next unused draw. */
  function StepPool(pool: seq<Cloud>, width: nat, height: nat, rand: Stream, k: nat): (res: (seq<Cloud>, nat))
    ensures |res.0| == |pool|
    ensures res.1 == k + WrapCount(pool, width)
  {
    if pool == [] then ([], k)
    else
      var (front, j) := StepPool(pool[..|pool| - 1], width, height, rand, k);
      var last := pool[|pool| - 1];
      var wraps := PastRightEdge(last.(x := last.x + last.speed), width);
      (front + [StepCloud(last, width, height, rand(j))], if wraps then j + 1 else j)
  }

  /** The pass over the first i + 1 clouds is the pass over the first i, then cloud i stepped with
      the next unused draw, which it uses only if it wraps. */
  lemma StepPoolPush(pool: seq<Cloud>, width: nat, height: nat, rand: Stream, k: nat, i: nat)
    requires i < |pool|
    ensures var (front, j) := StepPool(pool[..i], width, height, rand, k);
            var c := pool[i];
            StepPool(pool[..i + 1], width, height, rand, k)
              == (front + [StepCloud(c, width, height, rand(j))],
                  if PastRightEdge(c.(x := c.x + c.speed), width) then j + 1 else j)
  {
    assert pool[..i + 1][..i] == pool[..i];
  }

  /** Cloud i of the pass is cloud i of the pool stepped with the draw that follows those the
      earlier wrapping clouds used. */
  lemma {:induction false} StepPoolAt(pool: seq<Cloud>, width: nat, height: nat, rand: Stream, k: nat, i: nat)
    requires i < |pool|
    ensures StepPool(pool, width, height, rand, k).0[i]
         == StepCloud(pool[i], width, height, rand(k + WrapCount(pool[..i], width)))
  {
    var init := pool[..|pool| - 1];
    if i == |pool| - 1 {
      assert pool[..i] == init;
    } else {
      assert init[..i] == pool[..i];
      StepPoolAt(init, width, height, rand, k, i);
    }
  }

  /** The pass keeps every cloud's size, speed and puffs, and every cloud in its band. */
  lemma StepPoolKeepsClouds(pool: seq<Cloud>, width: nat, height: nat, rand: Stream, k: nat)
    requires Uniform(rand)
    requires forall c :: c in pool ==> c.size > 0.0 && c.speed >= 0.0 && InSky(c, width, height)
    ensures forall i :: 0 <= i < |pool| ==>
              var d := StepPool(pool, width, height, rand, k).0[i];
              d.size == pool[i].size && d.speed == pool[i].speed && d.puffs == pool[i].puffs
    ensures forall c :: c in StepPool(pool, width, height, rand, k).0 ==>
              c.size > 0.0 && c.speed >= 0.0 && InSky(c, width, height)
  {
    var res := StepPool(pool, width, height, rand, k).0;
    forall i | 0 <= i < |pool|
      ensures res[i].size == pool[i].size && res[i].speed == pool[i].speed && res[i].puffs == pool[i].puffs
      ensures InSky(res[i], width, height)
    {
      var r := rand(k + WrapCount(pool[..i], width));
      StepPoolAt(pool, width, height, rand, k, i);
      StepCloudStaysInSky(pool[i], width, height, r);
    }
  }

  /** The pass keeps every cloud a member of the layer it was created from. */
  lemma StepPoolKeepsLayers(pool: seq<Cloud>, slots: seq<CloudLayer>, width: nat, height: nat, rand: Stream, k: nat)
    requires |slots| == |pool|
    requires forall i :: 0 <= i < |pool| ==> FromLayer(pool[i], slots[i])
    ensures forall i :: 0 <= i < |pool| ==> FromLayer(StepPool(pool, width, height, rand, k).0[i], slots[i])
  {
    forall i | 0 <= i < |pool|
      ensures FromLayer(StepPool(pool, width, height, rand, k).0[i], slots[i])
    {
      StepPoolAt(pool, width, height, rand, k, i);
    }
  }
}
