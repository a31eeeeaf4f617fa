/** One play session: the ball, the toys, the clock, the key map and the
    game-over banner, with one method per event handler of the game. */
module Session {
  import opened Geometry
  import opened Controls
  import opened Toys
  import opened Countdown

  /** Where the ball is placed when the session starts. */
  const StartPosition: Vec3 := Vec3(0.0, 3.0, 0.0)

  class GameSession {
    var ballPosition: Vec3
    var ballRotation: Rotation
    var ballColour: BallColour
    var toys: seq<Toy>
    var timerSeconds: int
    var gameEnded: bool
    /** Whether the game-over banner has been created. */
    var bannerShown: bool
    /** Whether the once-per-second interval is still scheduled. */
    var timerRunning: bool
    var keys: KeyMap
    /** The number the "Toys Left" text shows. */
    var shownToyCount: nat
    /** What the "Time" text shows. */
    var timerReadout: Readout

    /** The session invariant: the ball is on the floor, the toy count
        shown is the live count, the banner and the stopped interval go
        with the end of the game, and the clock stays within 0..60 with time
        left while the game runs. */
    ghost predicate Valid()
      reads this
    {
      InBounds(ballPosition) &&
      shownToyCount == |toys| &&
      bannerShown == gameEnded &&
      timerRunning == !gameEnded &&
      0 <= timerSeconds <= GameDuration &&
      (!gameEnded ==> timerSeconds > 0) &&
      (timerReadout == Blank || timerReadout == Seconds(timerSeconds))
    }

    /** The part of the state the clock works on. */
    function ClockOf(): Clock
      reads this
    {
      Clock(timerSeconds, gameEnded)
    }

    /** Session start: the ball at its start position, one toy per random
        draw, the full clock running, no key held, each text showing its
        initial value. */
    constructor (spots: seq<Spot>)
      requires |spots| == NumToys
      requires forall s :: s in spots ==> SpotInRange(s)
      ensures Valid()
      ensures ballPosition == StartPosition && ballRotation == NoRotation && ballColour == AssetColours
      ensures toys == Placed(spots) && shownToyCount == NumToys
      ensures forall t :: t in toys ==> InBounds(t.position)
      ensures timerSeconds == GameDuration && timerRunning && timerReadout == Blank
      ensures !gameEnded && !bannerShown && keys == InitialKeys
    {
      ballPosition := StartPosition;
      ballRotation := NoRotation;
      ballColour := AssetColours;
      toys := [];
      gameEnded := false;
      bannerShown := false;
      keys := InitialKeys;
      shownToyCount := 0;
      timerReadout := Blank;
      timerSeconds := GameDuration;
      timerRunning := true;
      new;
      AddToys(spots);
      shownToyCount := |toys|;
      PlacedOnFloor(spots);
    }

    /** Appends one toy per draw, in draw order. */
    method AddToys(spots: seq<Spot>)
      requires |spots| == NumToys
      modifies this`toys
      ensures toys == old(toys) + Placed(spots)
    {
      for i := 0 to NumToys
        invariant toys == old(toys) + Placed(spots[..i])
      {
        assert Placed(spots[..i + 1]) == Placed(spots[..i]) + [ToyAt(spots[i])];
        toys := toys + [ToyAt(spots[i])];
      }
      assert spots[..NumToys] == spots;
    }

    /** One frame of movement: every held group adds its step and its roll;
        the position takes the whole step or, when that would leave the
        floor, none of it, while the roll is kept either way. */
    method UpdateBallPosition()
      requires Valid()
      modifies this`ballPosition, this`ballRotation
      ensures Valid()
      ensures ballPosition == Commit(old(ballPosition), MoveDelta(keys))
      ensures ballRotation == old(ballRotation).Plus(RotationDelta(keys))
    {
      var move, roll := KeyMotion(keys);
      ballRotation := ballRotation.Plus(roll);
      var candidate := ballPosition.Plus(move);
      if OutOfBounds(candidate) {
        candidate := ballPosition;
      }
      ballPosition := candidate;
    }

    /** One collision pass with the ball's box: walks the toys from the last
        to the first, removes each one the ball touches and takes its colour,
        and ends the game when no toy is left. */
    method CheckCollision(ballBox: Box)
      requires Valid()
      modifies this`ballColour, this`toys, this`shownToyCount, this`gameEnded, this`bannerShown, this`timerRunning
      ensures Valid()
      ensures toys == Survivors(old(toys), ballBox)
      ensures ballColour == ColourAfter(old(ballColour), old(toys), ballBox)
      ensures gameEnded == (old(gameEnded) || toys == [])
    {
      ghost var toys0, colour0 := toys, ballColour;
      var i := |toys| - 1;
      while i >= 0
        invariant -1 <= i < |toys0|
        invariant toys == toys0[..i + 1] + Survivors(toys0[i + 1..], ballBox)
        invariant ballColour == ColourAfter(colour0, toys0[i + 1..], ballBox)
        invariant shownToyCount == |toys|
        modifies this`toys, this`ballColour, this`shownToyCount
        decreases i
      {
        ReverseWalkStep(toys0, toys, i, ballBox, colour0);
        if Intersects(ballBox, ToyBox(toys[i])) {
          ballColour := Tinted(toys[i].colour);
          toys := toys[..i] + toys[i + 1..];
          shownToyCount := |toys|;
        }
        i := i - 1;
      }
      assert toys0[..0] == [] && toys0[0..] == toys0;
      if |toys| == 0 {
        gameEnded := true;
        ShowGameOver();
      }
    }

    /** Ends the game: stops the interval and shows the banner. A call on a
        session that has already ended changes nothing, so the banner is
        created once. */
    method ShowGameOver()
      modifies this`timerRunning, this`gameEnded, this`bannerShown
      ensures gameEnded && bannerShown && !timerRunning
      ensures old(gameEnded && bannerShown && !timerRunning) ==> unchanged(this)
    {
      timerRunning := false;
      gameEnded := true;
      if !bannerShown {
        bannerShown := true;
      }
    }

    /** One firing of the once-per-second interval. */
    method Tick()
      requires Valid()
      modifies this`timerSeconds, this`timerReadout, this`gameEnded, this`bannerShown, this`timerRunning
      ensures Valid()
      ensures ClockOf() == TickClock(old(ClockOf()))
      ensures old(gameEnded) ==> unchanged(this)
      ensures !old(gameEnded) ==> timerReadout == Seconds(timerSeconds)
    {
      if !gameEnded {
        timerSeconds := timerSeconds - 1;
        timerReadout := Seconds(timerSeconds);
        if timerSeconds <= 0 {
          ShowGameOver();
        }
      }
    }

    /** A key press is recorded only while the game is running. */
    method KeyDown(key: string)
      requires Valid()
      modifies this`keys
      ensures Valid()
      ensures keys == if old(gameEnded) then old(keys) else old(keys)[key := true]
    {
      if !gameEnded {
        keys := keys[key := true];
      }
    }

    /** A key release always clears the key, so no key stays stuck after
        the game ends. */
    method KeyUp(key: string)
      requires Valid()
      modifies this`keys
      ensures Valid()
      ensures keys == old(keys)[key := false]
      ensures !Held(keys, key)
    {
      keys := keys[key := false];
    }

    /** One animation frame: while the game runs, move the ball and then run
        a collision pass with the box the ball has after moving. `boxOf`
        stands for the library's box-of-object computation. */
    method Frame(boxOf: (Vec3, Rotation) -> Box)
      requires Valid()
      modifies this`ballPosition, this`ballRotation, this`ballColour, this`toys, this`shownToyCount,
        this`gameEnded, this`bannerShown, this`timerRunning
      ensures Valid()
      ensures old(gameEnded) ==> unchanged(this)
      ensures !old(gameEnded) ==>
        ballPosition == Commit(old(ballPosition), MoveDelta(keys)) &&
        ballRotation == old(ballRotation).Plus(RotationDelta(keys)) &&
        toys == Survivors(old(toys), boxOf(ballPosition, ballRotation)) &&
        ballColour == ColourAfter(old(ballColour), old(toys), boxOf(ballPosition, ballRotation)) &&
        gameEnded == (toys == [])
    {
      if !gameEnded {
        UpdateBallPosition();
        CheckCollision(boxOf(ballPosition, ballRotation));
      }
    }
  }
}
