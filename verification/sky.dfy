/** The state of the cloudy-sky background: the canvas size, the cloud pool, the grassland layers
    and the aeroplane, with the initialisation run on mount and on resize and the state update of
    one animation frame. */
module Sky {
  import opened SkyConfig
  import opened Clouds
  import opened Population
  import opened Aeroplane
  import Grassland

  class CloudySky {
    var width: nat
    var height: nat
    var clouds: seq<Cloud>
    var grassland: seq<Grassland.Layer>
    var plane: Plane

    /** Every cloud has a positive size, moves rightwards and stays in its band; the plane's trail
        follows it and a plane in the air is within its flight bounds. */
    ghost predicate Valid()
      reads this
    {
      && (forall c :: c in clouds ==> c.size > 0.0 && c.speed >= 0.0 && InSky(c, width, height))
      && TrailFollows(plane)
      && InFlight(plane, width, height)
    }

    /** The pool holds, in layer order, LayerCount clouds of each layer for the current width. */
    ghost predicate Populated()
      reads this
    {
      LaidOut(clouds, width)
    }

    /** The state before the first initialisation: empty pools and a parked plane. */
    constructor ()
      ensures Valid()
      ensures width == 0 && height == 0 && clouds == [] && grassland == [] && plane == Parked
    {
      width, height := 0, 0;
      clouds, grassland := [], [];
      plane := Parked;
    }

    /** Re-creates the scene for a w × h canvas: a new cloud pool, layer by layer, then new grassland;
        the plane is grounded but otherwise left as it was. Returns the next unused draw. */
    method Init(w: nat, h: nat, rand: Stream, k: nat) returns (next: nat)
      requires Valid() && Uniform(rand)
      modifies this
      ensures Valid() && Populated()
      ensures width == w && height == h
      ensures forall c :: c in clouds ==> Placed(c, w, h)
      ensures |grassland| == |GrassLayers|
      ensures forall i :: 0 <= i < |grassland| ==>
                && grassland[i].color == GrassLayers[i].color
                && Grassland.HillsFit(grassland[i].hills, GrassLayers[i], w, h)
      ensures plane == old(plane).(active := false)
      ensures next == k + CreationDraws(clouds) + 22
    {
      width, height := w, h;
      clouds, next := CreatePool(w, h, rand, k);
      var g;
      g, next := Grassland.CreateGrassland(w, h, rand, next);
      grassland := g;
      plane := plane.(active := false);
    }

    /** The cloud pass of a frame: each cloud in turn drifts and, past the right edge, wraps round
        with a new height from the next draw. The object invariant and the per-layer population are
        kept. */
    method StepClouds(rand: Stream, k: nat) returns (next: nat)
      requires Valid() && Uniform(rand)
      modifies this`clouds
      ensures Valid()
      ensures old(Populated()) ==> Populated()
      ensures clouds == StepPool(old(clouds), width, height, rand, k).0
      ensures next == k + WrapCount(old(clouds), width)
      ensures width == old(width) && height == old(height)
      ensures grassland == old(grassland) && plane == old(plane)
    {
      StepPoolKeepsClouds(clouds, width, height, rand, k);
      clouds, next := DriftPool(clouds, width, height, rand, k);
    }

    /** Puts a new plane in the air unless one is already flying; only then is a draw used. */
    method SpawnAeroplane(rand: Stream, k: nat) returns (next: nat)
      requires Valid() && Uniform(rand)
      modifies this`plane
      ensures Valid()
      ensures plane == Spawn(old(plane), height, rand(k))
      ensures next == if old(plane).active then k else k + 1
      ensures width == old(width) && height == old(height)
      ensures clouds == old(clouds) && grassland == old(grassland)
    {
      SpawnKeepsInFlight(plane, width, height, rand(k));
      if plane.active {
        return k;
      }
      plane := Plane(true, -PlaneSize, rand(k) * height as real * 0.2 + height as real * 0.05, []);
      next := k + 1;
    }

    /** The plane's part of a frame: a flying plane moves, pushes its position onto the trail,
        drops the oldest trail point when the trail is over length, and lands past the line. */
    method MoveAeroplane()
      requires Valid()
      modifies this`plane
      ensures Valid()
      ensures plane == Advance(old(plane), width)
      ensures width == old(width) && height == old(height)
      ensures clouds == old(clouds) && grassland == old(grassland)
    {
      AdvanceKeepsInFlight(plane, width, height);
      if plane.active {
        plane := plane.(x := plane.x + PlaneSpeed);
        plane := plane.(trail := plane.trail + [Point(plane.x, plane.y)]);
        if |plane.trail| > TrailLength {
          plane := plane.(trail := plane.trail[1..]);
        }
        if plane.x > width as real + TrailLength as real {
          plane := plane.(active := false);
        }
      }
    }

    /** The plane's part of a frame: one draw decides whether a spawn is attempted, then the plane
        moves. */
    method PlaneFrame(rand: Stream, k: nat) returns (next: nat)
      requires Valid() && Uniform(rand)
      modifies this`plane
      ensures Valid()
      ensures width == old(width) && height == old(height)
      ensures clouds == old(clouds) && grassland == old(grassland)
      ensures plane == FrameStep(old(plane), width, height, rand(k), rand(k + 1))
      ensures next == k + FrameDraws(old(plane), rand(k))
    {
      next := k + 1;
      if rand(k) < SpawnChance {
        next := SpawnAeroplane(rand, next);
      }
      MoveAeroplane();
    }

    /** The state update of one animation frame: the cloud pass, then the plane's part. Returns the
        next unused draw. */
    method Frame(rand: Stream, k: nat) returns (next: nat)
      requires Valid() && Uniform(rand)
      modifies this`clouds, this`plane
      ensures Valid()
      ensures old(Populated()) ==> Populated()
      ensures width == old(width) && height == old(height) && grassland == old(grassland)
      ensures clouds == StepPool(old(clouds), width, height, rand, k).0
      ensures var j := k + WrapCount(old(clouds), width);
              && plane == FrameStep(old(plane), width, height, rand(j), rand(j + 1))
              && next == j + FrameDraws(old(plane), rand(j))
    {
      ghost var before := plane;
      ghost var wraps := WrapCount(clouds, width);
      var j := StepClouds(rand, k);
      assert j == k + wraps;
      next := PlaneFrame(rand, j);
      assert plane == FrameStep(before, width, height, rand(j), rand(j + 1));
    }
  }
}
