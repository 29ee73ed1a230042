/** The aeroplane: a single plane that is either parked or crossing the sky, trailing a bounded
    first-in first-out buffer of its recent positions. */
module Aeroplane {
  import opened SkyConfig

  datatype Point = Point(x: real, y: real)

  datatype Plane = Plane(active: bool, x: real, y: real, trail: seq<Point>)

  /** The plane before anything has happened: inactive, at the origin, with no trail. */
  const Parked: Plane := Plane(false, 0.0, 0.0, [])

  /** A spawn attempt with draw `r`: nothing happens to a plane already in the air; otherwise a new
      plane starts one plane length left of the canvas, at a height in the band from 5% to 25% of
      the canvas height, with an empty trail. */
  function Spawn(p: Plane, height: nat, r: real): (q: Plane)
    requires 0.0 <= r < 1.0
    ensures p.active ==> q == p
    ensures !p.active ==> q.active && q.x == -PlaneSize && q.trail == []
    ensures !p.active ==> Within(q.y, 0.05 * height as real, 0.25 * height as real)
  {
    if p.active then p
    else
      ScaledDraw(r, 0.05 * height as real, 0.25 * height as real);
      Plane(true, -PlaneSize, r * height as real * 0.2 + height as real * 0.05, [])
  }

  /** Appends `pt` to the trail and, if the trail then holds more than TrailLength points, drops
      the oldest one. */
  function PushTrail(trail: seq<Point>, pt: Point): (t: seq<Point>)
    ensures |t| == if |trail| < TrailLength then |trail| + 1 else |trail|
    ensures |t| > 0 && t[|t| - 1] == pt
    ensures forall i :: 0 <= i < |t| - 1 ==> t[i] == trail[|trail| + 1 - |t| + i]
  {
    var pushed := trail + [pt];
    if |pushed| > TrailLength then pushed[1..] else pushed
  }

  /** One frame of an active plane: it moves right by PlaneSpeed, records its new position at the
      back of its trail, and lands once it is further right than the canvas width plus TrailLength.
      A parked plane does not move. */
  function Advance(p: Plane, width: nat): (q: Plane)
    ensures !p.active ==> q == p
    ensures p.active ==> q.x == p.x + PlaneSpeed && q.y == p.y
    ensures p.active ==> q.trail == PushTrail(p.trail, Point(q.x, q.y))
    ensures p.active ==> (q.active <==> q.x <= width as real + TrailLength as real)
  {
    if !p.active then p
    else
      var x := p.x + PlaneSpeed;
      var moved := p.(x := x, trail := PushTrail(p.trail, Point(x, p.y)));
      if moved.x > width as real + TrailLength as real then moved.(active := false) else moved
  }

  /** The plane's part of one frame, given the spawn roll and the draw a spawn would use: a spawn
      is attempted when the roll is below SpawnChance, then the plane advances. */
  function FrameStep(p: Plane, width: nat, height: nat, roll: real, r: real): Plane
    requires 0.0 <= r < 1.0
  {
    Advance(if roll < SpawnChance then Spawn(p, height, r) else p, width)
  }

  /** Draws the plane's part of a frame uses: the roll, and one more if a spawn really happens. */
  function FrameDraws(p: Plane, roll: real): nat
  {
    if roll < SpawnChance && !p.active then 2 else 1
  }

  /** The trail is at most TrailLength points long and holds the plane's latest positions, oldest
      first and newest last, one step of PlaneSpeed apart and all at the plane's height. */
  ghost predicate TrailFollows(p: Plane) {
    && |p.trail| <= TrailLength
    && forall i :: 0 <= i < |p.trail| ==>
         p.trail[i] == Point(p.x - PlaneSpeed * (|p.trail| - 1 - i) as real, p.y)
  }

  /** A plane in the air flies inside its height band, has not yet passed the landing line, and its
      trail holds no point from before its spawn. */
  ghost predicate InFlight(p: Plane, width: nat, height: nat) {
    p.active ==>
      && Within(p.y, 0.05 * height as real, 0.25 * height as real)
      && -PlaneSize <= p.x <= width as real + TrailLength as real
      && PlaneSpeed * |p.trail| as real <= p.x + PlaneSize
  }

  /** A frame keeps the trail bounded and in order, and its newest point is where the plane now is. */
  lemma AdvanceKeepsTrail(p: Plane, width: nat)
    requires TrailFollows(p)
    ensures TrailFollows(Advance(p, width))
    ensures p.active ==> Advance(p, width).trail[|Advance(p, width).trail| - 1]
                         == Point(Advance(p, width).x, Advance(p, width).y)
  {
    if p.active {
      var q := Advance(p, width);
      var pushed := p.trail + [Point(q.x, q.y)];
      var off := |pushed| - |q.trail|;
      forall i | 0 <= i < |q.trail|
        ensures q.trail[i] == Point(q.x - PlaneSpeed * (|q.trail| - 1 - i) as real, q.y)
      {
        assert q.trail[i] == pushed[i + off];
        if i + off < |p.trail| {
          assert (|q.trail| - 1 - i) as real == (|p.trail| - 1 - (i + off)) as real + 1.0;
        }
      }
    }
  }

  /** A spawn attempt keeps the plane's invariants: a plane in the air is left alone, and a new one
      starts inside its bounds with an empty trail. */
  lemma SpawnKeepsInFlight(p: Plane, width: nat, height: nat, r: real)
    requires 0.0 <= r < 1.0
    requires TrailFollows(p) && InFlight(p, width, height)
    ensures TrailFollows(Spawn(p, height, r)) && InFlight(Spawn(p, height, r), width, height)
  {
  }

  /** A frame of flight keeps the plane's invariants: it stays in its band, lands before it passes
      the landing line, and its trail never reaches back before its spawn. */
  lemma AdvanceKeepsInFlight(p: Plane, width: nat, height: nat)
    requires TrailFollows(p) && InFlight(p, width, height)
    ensures TrailFollows(Advance(p, width)) && InFlight(Advance(p, width), width, height)
  {
    AdvanceKeepsTrail(p, width);
    if p.active {
      var q := Advance(p, width);
      assert |q.trail| <= |p.trail| + 1;
      assert PlaneSpeed * |q.trail| as real <= PlaneSpeed * |p.trail| as real + PlaneSpeed;
    }
  }

  /** The plane after n frames. */
  function Fly(p: Plane, width: nat, n: nat): Plane
  {
    if n == 0 then p else Advance(Fly(p, width, n - 1), width)
  }

  /** Number of frames a freshly spawned plane stays in the air: the first n at which
      -PlaneSize + n * PlaneSpeed is past width + TrailLength. */
  function FlightSteps(width: nat): (n: nat)
    ensures n >= 1
    ensures -PlaneSize + PlaneSpeed * n as real > width as real + TrailLength as real
    ensures -PlaneSize + PlaneSpeed * (n - 1) as real <= width as real + TrailLength as real
  {
    (width + TrailLength + PlaneSize.Floor) / PlaneSpeed.Floor + 1
  }

  /** A spawned plane flies for exactly FlightSteps(width) frames: after n of them it is n steps to
      the right of its start at the same height, its trail holds its last min(n, TrailLength)
      positions, and it is in the air exactly while n < FlightSteps(width). */
  lemma {:induction false} SpawnedFlight(p: Plane, width: nat, height: nat, r: real, n: nat)
    requires !p.active && 0.0 <= r < 1.0 && n <= FlightSteps(width)
    ensures var q := Fly(Spawn(p, height, r), width, n);
            && q.x == -PlaneSize + PlaneSpeed * n as real
            && q.y == Spawn(p, height, r).y
            && (q.active <==> n < FlightSteps(width))
            && |q.trail| == (if n < TrailLength then n else TrailLength)
            && TrailFollows(q)
  {
    if n > 0 {
      var start := Spawn(p, height, r);
      var before := Fly(start, width, n - 1);
      SpawnedFlight(p, width, height, r, n - 1);
      assert before.active;
      AdvanceKeepsTrail(before, width);
      var q := Advance(before, width);
      assert q == Fly(start, width, n);
      assert q.x == -PlaneSize + PlaneSpeed * n as real;
      assert q.active <==> n < FlightSteps(width);
    }
  }
}
