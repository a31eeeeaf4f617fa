/** The collectible toys, their boxes, and what one collision pass over
    them leaves behind. */
module Toys {
  import opened Geometry

  /** A 24-bit RGB colour as the material reports it. */
  type Hex = c: int | 0 <= c <= 0xFF_FFFF

  /** A toy: a 2 x 2 x 2 box standing at a fixed position, with a colour. */
  datatype Toy = Toy(position: Vec3, colour: Hex)

  /** How many toys a session spawns. */
  const NumToys: nat := 10
  /** The height at which toys are placed. */
  const ToyHeight: real := 0.5
  /** Half the edge length of a toy's cube. */
  const ToyHalfEdge: real := 1.0

  /** The world box of an unrotated, unscaled toy cube. */
  function ToyBox(t: Toy): Box {
    var p := t.position;
    Box(Vec3(p.x - ToyHalfEdge, p.y - ToyHalfEdge, p.z - ToyHalfEdge),
        Vec3(p.x + ToyHalfEdge, p.y + ToyHalfEdge, p.z + ToyHalfEdge))
  }

  /** The ball's box touches the toy's box. */
  predicate Hit(ballBox: Box, t: Toy) {
    Intersects(ballBox, ToyBox(t))
  }

  /** A ball box that contains a toy's centre always hits that toy. */
  lemma HitWhenCentreInside(ballBox: Box, t: Toy)
    requires ballBox.min.x <= t.position.x <= ballBox.max.x
    requires ballBox.min.y <= t.position.y <= ballBox.max.y
    requires ballBox.min.z <= t.position.z <= ballBox.max.z
    ensures Hit(ballBox, t)
  {
  }

  /** The toys a collision pass keeps: those the ball does not touch, in
      their original order. */
  function Survivors(ts: seq<Toy>, ballBox: Box): seq<Toy> {
    if ts == [] then []
    else (if Hit(ballBox, ts[0]) then [] else [ts[0]]) + Survivors(ts[1..], ballBox)
  }

  /** How many of the toys the ball touches. */
  function HitCount(ts: seq<Toy>, ballBox: Box): nat {
    if ts == [] then 0
    else (if Hit(ballBox, ts[0]) then 1 else 0) + HitCount(ts[1..], ballBox)
  }

  /** The ball's appearance: the materials of the loaded asset, or the
      single colour of the last toy it collected. */
  datatype BallColour = AssetColours | Tinted(hex: Hex)

  /** The colour after one pass: that of the first toy in list order the
      ball touches, or the colour it had when it touches none. */
  function ColourAfter(c: BallColour, ts: seq<Toy>, ballBox: Box): BallColour {
    if ts == [] then c
    else if Hit(ballBox, ts[0]) then Tinted(ts[0].colour)
    else ColourAfter(c, ts[1..], ballBox)
  }

  /** One step of the reverse walk, which visits index `i` after every index
      above it: with the toys above `i` already filtered, removing toy `i`
      exactly when it is touched leaves the toys from `i` on filtered, and the
      colour becomes that of the first touched toy from `i` on. */
  lemma ReverseWalkStep(ts: seq<Toy>, cur: seq<Toy>, i: nat, ballBox: Box, c: BallColour)
    requires i < |ts| && cur == ts[..i + 1] + Survivors(ts[i + 1..], ballBox)
    ensures i < |cur| && cur[i] == ts[i]
    ensures (if Hit(ballBox, ts[i]) then cur[..i] + cur[i + 1..] else cur) == ts[..i] + Survivors(ts[i..], ballBox)
    ensures ColourAfter(c, ts[i..], ballBox) ==
      if Hit(ballBox, ts[i]) then Tinted(ts[i].colour) else ColourAfter(c, ts[i + 1..], ballBox)
  {
    var rest := Survivors(ts[i + 1..], ballBox);
    assert ts[i..][0] == ts[i] && ts[i..][1..] == ts[i + 1..];
    if Hit(ballBox, ts[i]) {
      assert cur[..i] == ts[..i];
      assert cur[i + 1..] == rest;
    } else {
      assert ts[..i + 1] == ts[..i] + [ts[i]];
    }
  }

  /** Filtering distributes over concatenation, which is what keeping the
      relative order of the remaining toys means. */
  lemma {:induction false} SurvivorsAppend(a: seq<Toy>, b: seq<Toy>, ballBox: Box)
    ensures Survivors(a + b, ballBox) == Survivors(a, ballBox) + Survivors(b, ballBox)
  {
    if a == [] {
      assert a + b == b;
    } else {
      assert (a + b)[0] == a[0];
      assert (a + b)[1..] == a[1..] + b;
      SurvivorsAppend(a[1..], b, ballBox);
    }
  }

  /** A toy remains exactly when it was there and the ball does not touch it. */
  lemma {:induction false} SurvivorsMembership(ts: seq<Toy>, ballBox: Box, t: Toy)
    ensures t in Survivors(ts, ballBox) <==> t in ts && !Hit(ballBox, t)
  {
    if ts != [] {
      SurvivorsMembership(ts[1..], ballBox, t);
      assert t in ts <==> t == ts[0] || t in ts[1..];
    }
  }

  /** One toy goes per intersection, so the list never grows. */
  lemma {:induction false} SurvivorsCount(ts: seq<Toy>, ballBox: Box)
    ensures |Survivors(ts, ballBox)| == |ts| - HitCount(ts, ballBox)
    ensures HitCount(ts, ballBox) <= |ts|
  {
    if ts != [] {
      SurvivorsCount(ts[1..], ballBox);
    }
  }

  /** No toy is touched exactly when the count of hits is zero. */
  lemma {:induction false} NoHitIff(ts: seq<Toy>, ballBox: Box)
    ensures HitCount(ts, ballBox) == 0 <==> forall k :: 0 <= k < |ts| ==> !Hit(ballBox, ts[k])
  {
    if ts != [] {
      NoHitIff(ts[1..], ballBox);
      assert forall k :: 1 <= k < |ts| ==> ts[k] == ts[1..][k - 1];
    }
  }

  /** The pass removes nothing exactly when no toy is touched. */
  lemma {:induction false} SurvivorsAllIff(ts: seq<Toy>, ballBox: Box)
    ensures Survivors(ts, ballBox) == ts <==> HitCount(ts, ballBox) == 0
  {
    SurvivorsCount(ts, ballBox);
    if ts != [] {
      SurvivorsAllIff(ts[1..], ballBox);
      if HitCount(ts, ballBox) == 0 {
        assert ts == [ts[0]] + ts[1..];
      }
    }
  }

  /** Touching no toy leaves the colour as it was. */
  lemma {:induction false} ColourKeptWithoutHit(c: BallColour, ts: seq<Toy>, ballBox: Box)
    requires HitCount(ts, ballBox) == 0
    ensures ColourAfter(c, ts, ballBox) == c
  {
    if ts != [] {
      ColourKeptWithoutHit(c, ts[1..], ballBox);
    }
  }

  /** Touching a toy gives the ball the colour of the lowest-index toy touched. */
  lemma {:induction false} ColourOfFirstHit(c: BallColour, ts: seq<Toy>, ballBox: Box, j: nat)
    requires j < |ts| && Hit(ballBox, ts[j])
    requires forall k :: 0 <= k < j ==> !Hit(ballBox, ts[k])
    ensures ColourAfter(c, ts, ballBox) == Tinted(ts[j].colour)
  {
    if j > 0 {
      assert forall k :: 0 <= k < j - 1 ==> ts[1..][k] == ts[k + 1];
      ColourOfFirstHit(c, ts[1..], ballBox, j - 1);
    }
  }

  /** One random draw for a toy: a position on the floor and a colour. */
  datatype Spot = Spot(x: real, z: real, colour: Hex)

  /** The range the random source delivers: coordinates in [-50, 50) and a
      colour below 0xFFFFFF. */
  predicate SpotInRange(s: Spot) {
    -50.0 <= s.x < 50.0 && -50.0 <= s.z < 50.0 && s.colour < 0xFF_FFFF
  }

  function ToyAt(s: Spot): Toy {
    Toy(Vec3(s.x, ToyHeight, s.z), s.colour)
  }

  /** The toys one draw per spot produces, in spawn order. */
  function Placed(spots: seq<Spot>): seq<Toy> {
    seq(|spots|, i requires 0 <= i < |spots| => ToyAt(spots[i]))
  }

  /** Toys spawned from in-range draws stand on the floor. */
  lemma PlacedOnFloor(spots: seq<Spot>)
    requires forall s :: s in spots ==> SpotInRange(s)
    ensures forall t :: t in Placed(spots) ==> InBounds(t.position)
  {
    forall t | t in Placed(spots) ensures InBounds(t.position) {
      var i :| 0 <= i < |spots| && Placed(spots)[i] == t;
      assert SpotInRange(spots[i]);
    }
  }
}
