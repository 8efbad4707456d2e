/**
 * The lab section's flight origins (src/components/sections/Section1Lab.tsx):
 * one module-level generator seeded 55555 and, for each lab app in order, the
 * offset, rotation and scale its card flies in from. Seven draws per app.
 */
module LabFlight {
  import opened Mulberry32
  import AppsData

  datatype FlightOrigin = FlightOrigin(x: real, y: real, rotX: real, rotY: real, rotZ: real, scale: real)

  /** The seed of the module-level generator. */
  const Seed: int := 55555

  /** Draws made for each origin: edge, x, y, rotX, rotY, rotZ, scale. */
  const DrawsPerOrigin: nat := 7

  /** Whether every value in `rs` is a draw, in [0, 1). */
  predicate Draws(rs: seq<real>)
  {
    forall k :: 0 <= k < |rs| ==> 0.0 <= rs[k] < 1.0
  }

  /** `Math.floor(seededRandom(rng, 0, 4))`: the side of the card the flight starts from. */
  function Edge(r: real): (e: int)
    ensures 0.0 <= r < 1.0 ==> 0 <= e <= 3
  {
    SeededRandom(r, 0.0, 4.0).Floor
  }

  /**
   * The origin built from seven draws in source order. Each edge places the
   * start in its own band: above (0), right (1), below (2) or left (3).
   */
  function OriginOf(rs: seq<real>): (o: FlightOrigin)
    requires |rs| == DrawsPerOrigin && Draws(rs)
    ensures Edge(rs[0]) == 0 ==> -40.0 <= o.x < 40.0 && -120.0 <= o.y < -80.0
    ensures Edge(rs[0]) == 1 ==> 80.0 <= o.x < 130.0 && -40.0 <= o.y < 40.0
    ensures Edge(rs[0]) == 2 ==> -40.0 <= o.x < 40.0 && 80.0 <= o.y < 120.0
    ensures Edge(rs[0]) == 3 ==> -130.0 <= o.x < -80.0 && -40.0 <= o.y < 40.0
    ensures -60.0 <= o.rotX < 60.0 && -60.0 <= o.rotY < 60.0 && -30.0 <= o.rotZ < 30.0
    ensures 0.3 <= o.scale < 0.6
  {
    var edge := Edge(rs[0]);
    var x :=
      if edge == 0 then SeededRandom(rs[1], -40.0, 40.0)
      else if edge == 1 then SeededRandom(rs[1], 80.0, 130.0)
      else if edge == 2 then SeededRandom(rs[1], -40.0, 40.0)
      else if edge == 3 then SeededRandom(rs[1], -130.0, -80.0)
      else 0.0;
    var y :=
      if edge == 0 then SeededRandom(rs[2], -120.0, -80.0)
      else if edge == 1 then SeededRandom(rs[2], -40.0, 40.0)
      else if edge == 2 then SeededRandom(rs[2], 80.0, 120.0)
      else if edge == 3 then SeededRandom(rs[2], -40.0, 40.0)
      else 0.0;
    FlightOrigin(x, y,
                 SeededRandom(rs[3], -60.0, 60.0),
                 SeededRandom(rs[4], -60.0, 60.0),
                 SeededRandom(rs[5], -30.0, 30.0),
                 SeededRandom(rs[6], 0.3, 0.6))
  }

  /** Whether a start point lies outside the 160 x 160 square around the card's resting place. */
  predicate OffCard(o: FlightOrigin)
  {
    o.x < -80.0 || 80.0 <= o.x || o.y < -80.0 || 80.0 <= o.y
  }

  /** Whatever the edge, a card starts its flight outside the square around where it lands. */
  lemma StartsOffCard(rs: seq<real>)
    requires |rs| == DrawsPerOrigin && Draws(rs)
    ensures OffCard(OriginOf(rs))
  {
    var o := OriginOf(rs);
    var e := Edge(rs[0]);
    assert e == 0 || e == 1 || e == 2 || e == 3;
  }

  /** The origin built from a generator whose seed is `s`. */
  function OriginFrom(s: int): FlightOrigin
  {
    OriginOf([Draw(s, 0), Draw(s, 1), Draw(s, 2), Draw(s, 3), Draw(s, 4), Draw(s, 5), Draw(s, 6)])
  }

  /** The seed of the generator just before origin `i` draws. */
  function SeedBefore(i: nat): int
  {
    Seed + DrawsPerOrigin * i * Increment
  }

  /** `FLIGHT_ORIGINS`: one origin per lab app, in the apps' order. */
  function FlightOrigins(n: nat): (os: seq<FlightOrigin>)
    ensures |os| == n && forall i :: 0 <= i < n ==> os[i] == OriginFrom(SeedBefore(i))
  {
    seq(n, i requires 0 <= i => OriginFrom(SeedBefore(i)))
  }

  /** One call of `map`'s callback: seven draws from the shared generator. */
  method NextOrigin(rng: Rng) returns (o: FlightOrigin)
    modifies rng
    ensures rng.seed == old(rng.seed) + DrawsPerOrigin * Increment
    ensures o == OriginFrom(old(rng.seed))
  {
    var r0 := rng.Next();
    var r1 := rng.Next();
    var r2 := rng.Next();
    var r3 := rng.Next();
    var r4 := rng.Next();
    var r5 := rng.Next();
    var r6 := rng.Next();
    o := OriginOf([r0, r1, r2, r3, r4, r5, r6]);
  }

  /** The module's initialisation: a fresh generator mapped over the lab apps, one origin per app. */
  method BuildOrigins(apps: seq<AppsData.LabApp>) returns (os: seq<FlightOrigin>)
    ensures os == FlightOrigins(|apps|)
  {
    var rng := new Rng(Seed);
    os := [];
    var i := 0;
    while i < |apps|
      invariant 0 <= i <= |apps| && os == FlightOrigins(i)
      invariant rng.seed == SeedBefore(i)
    {
      var o := NextOrigin(rng);
      OriginsSnoc(i);
      os := os + [o];
      i := i + 1;
    }
  }

  /** The table for one more app is the table so far plus the next origin, whose seed is seven increments on. */
  lemma OriginsSnoc(i: nat)
    ensures FlightOrigins(i + 1) == FlightOrigins(i) + [OriginFrom(SeedBefore(i))]
    ensures SeedBefore(i + 1) == SeedBefore(i) + DrawsPerOrigin * Increment
  {
    assert DrawsPerOrigin * (i + 1) * Increment == DrawsPerOrigin * i * Increment + DrawsPerOrigin * Increment;
  }

  /** The origin drawn from any seed starts off the card's landing square. */
  lemma OriginFromOffCard(s: int)
    ensures OffCard(OriginFrom(s))
  {
    StartsOffCard([Draw(s, 0), Draw(s, 1), Draw(s, 2), Draw(s, 3), Draw(s, 4), Draw(s, 5), Draw(s, 6)]);
  }

  /** Every card of the table starts its flight off its landing square. */
  lemma TableOffCard(n: nat)
    ensures forall i :: 0 <= i < n ==> OffCard(FlightOrigins(n)[i])
  {
    forall i | 0 <= i < n
      ensures OffCard(FlightOrigins(n)[i])
    {
      OriginFromOffCard(SeedBefore(i));
    }
  }
}
