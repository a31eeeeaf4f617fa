/** The pressed-key map and the movement and rolling it produces per frame. */
module Controls {
  import opened Geometry

  /** Pressed state by key name. Like the object it models, the map gains an
      entry for any key that is pressed or released, known or not. */
  type KeyMap = map<string, bool>

  const InitialKeys: KeyMap := map[
    "ArrowUp" := false, "ArrowDown" := false, "ArrowLeft" := false, "ArrowRight" := false,
    "w" := false, "s" := false, "a" := false, "d" := false, "q" := false, "e" := false]

  /** A key counts as held only when it has an entry that is true. */
  predicate Held(keys: KeyMap, key: string) {
    key in keys && keys[key]
  }

  /** Distance moved per frame for each active key group. */
  const Speed: real := 0.5
  /** Rotation in radians per frame for each active key group. */
  const RotationSpeed: real := 0.1

  /** The six key groups the movement handler reads. Negative z is north. */
  datatype Group = North | South | West | East | NorthWest | NorthEast

  /** The names that activate a group; the two names of a cardinal group
      are aliases of each other. */
  function Names(g: Group): set<string> {
    match g
    case North => {"ArrowUp", "w"}
    case South => {"ArrowDown", "s"}
    case West => {"ArrowLeft", "a"}
    case East => {"ArrowRight", "d"}
    case NorthWest => {"q"}
    case NorthEast => {"e"}
  }

  predicate GroupHeld(keys: KeyMap, g: Group) {
    match g
    case North => Held(keys, "ArrowUp") || Held(keys, "w")
    case South => Held(keys, "ArrowDown") || Held(keys, "s")
    case West => Held(keys, "ArrowLeft") || Held(keys, "a")
    case East => Held(keys, "ArrowRight") || Held(keys, "d")
    case NorthWest => Held(keys, "q")
    case NorthEast => Held(keys, "e")
  }

  /** Which of the six groups are held in one frame. */
  datatype Pad = Pad(north: bool, south: bool, west: bool, east: bool, northWest: bool, northEast: bool)
  {
    predicate Holds(g: Group) {
      match g
      case North => north
      case South => south
      case West => west
      case East => east
      case NorthWest => northWest
      case NorthEast => northEast
    }
  }

  /** The groups the key map holds. */
  function PadOf(keys: KeyMap): Pad {
    Pad(GroupHeld(keys, North), GroupHeld(keys, South), GroupHeld(keys, West),
        GroupHeld(keys, East), GroupHeld(keys, NorthWest), GroupHeld(keys, NorthEast))
  }

  /** Rotation about the x and z axes; the y rotation is never touched. */
  datatype Rotation = Rotation(x: real, z: real)
  {
    function Plus(d: Rotation): Rotation {
      Rotation(x + d.x, z + d.z)
    }
  }

  const NoRotation: Rotation := Rotation(0.0, 0.0)

  /** What one group contributes along one axis: its amount when it is
      held, nothing when it is not. */
  function Amount(held: bool, amount: real): real {
    if held then amount else 0.0
  }

  /** The sum of the steps of the held groups, axis by axis: east and
      north-east push towards +x, west and north-west towards -x; south
      pushes towards +z, north and both diagonals towards -z. */
  function PadMove(p: Pad): Vec3 {
    Vec3(Amount(p.east, Speed) - Amount(p.west, Speed) - Amount(p.northWest, Speed) + Amount(p.northEast, Speed),
         0.0,
         Amount(p.south, Speed) - Amount(p.north, Speed) - Amount(p.northWest, Speed) - Amount(p.northEast, Speed))
  }

  /** The sum of the rolls of the held groups: about x with the north-south
      groups and both diagonals, about z with the east-west groups and the
      diagonals, each diagonal turning the way it moves along x. */
  function PadRoll(p: Pad): Rotation {
    Rotation(Amount(p.south, RotationSpeed) - Amount(p.north, RotationSpeed)
               - Amount(p.northWest, RotationSpeed) - Amount(p.northEast, RotationSpeed),
             Amount(p.east, RotationSpeed) - Amount(p.west, RotationSpeed)
               - Amount(p.northWest, RotationSpeed) + Amount(p.northEast, RotationSpeed))
  }

  /** The frame's move vector. */
  function MoveDelta(keys: KeyMap): Vec3 {
    PadMove(PadOf(keys))
  }

  /** The frame's rotation increment. */
  function RotationDelta(keys: KeyMap): Rotation {
    PadRoll(PadOf(keys))
  }

  /** The first half of the movement handler: builds the move vector and
      the rotation increment from the held keys, one `if` per key group, the
      two names of a cardinal group joined by `||`. */
  method KeyMotion(keys: KeyMap) returns (move: Vec3, roll: Rotation)
    ensures move == MoveDelta(keys)
    ensures roll == RotationDelta(keys)
  {
    var mx, mz, rx, rz := 0.0, 0.0, 0.0, 0.0;
    if Held(keys, "ArrowUp") || Held(keys, "w") {
      mz := mz - Speed;
      rx := rx - RotationSpeed;
    }
    if Held(keys, "ArrowDown") || Held(keys, "s") {
      mz := mz + Speed;
      rx := rx + RotationSpeed;
    }
    if Held(keys, "ArrowLeft") || Held(keys, "a") {
      mx := mx - Speed;
      rz := rz - RotationSpeed;
    }
    if Held(keys, "ArrowRight") || Held(keys, "d") {
      mx := mx + Speed;
      rz := rz + RotationSpeed;
    }
    // Diagonal movement and rotation.
    if Held(keys, "q") {
      mz := mz - Speed;
      mx := mx - Speed;
      rx := rx - RotationSpeed;
      rz := rz - RotationSpeed;
    }
    if Held(keys, "e") {
      mz := mz - Speed;
      mx := mx + Speed;
      rx := rx - RotationSpeed;
      rz := rz + RotationSpeed;
    }
    move, roll := Vec3(mx, 0.0, mz), Rotation(rx, rz);
  }

  /** A group is held exactly when one of its names is held. */
  lemma GroupHeldByName(keys: KeyMap, g: Group)
    ensures GroupHeld(keys, g) <==> exists key :: key in Names(g) && Held(keys, key)
  {
  }

  /** The move never lifts or lowers the ball. */
  lemma MoveIsLevel(keys: KeyMap)
    ensures MoveDelta(keys).y == 0.0
  {
  }

  /** The rolling always matches the move: each radian of rotation about x
      goes with five units along z, and about z with five units along x. */
  lemma RollFollowsMove(keys: KeyMap)
    ensures MoveDelta(keys).z == 5.0 * RotationDelta(keys).x
    ensures MoveDelta(keys).x == 5.0 * RotationDelta(keys).z
  {
  }

  /** Writing a key leaves every group that does not name it as it was. */
  lemma OtherGroupsUnaffected(keys: KeyMap, key: string, v: bool, h: Group)
    requires key !in Names(h)
    ensures GroupHeld(keys[key := v], h) == GroupHeld(keys, h)
  {
  }

  /** No name belongs to two groups. */
  lemma NamesDisjoint(g: Group, h: Group, key: string)
    requires key in Names(g) && key in Names(h)
    ensures g == h
  {
  }

  /** Pressing a second name of a group that is already held adds nothing. */
  lemma AliasesDoNotStack(keys: KeyMap, g: Group, key: string)
    requires key in Names(g) && GroupHeld(keys, g)
    ensures MoveDelta(keys[key := true]) == MoveDelta(keys)
    ensures RotationDelta(keys[key := true]) == RotationDelta(keys)
  {
    forall h ensures GroupHeld(keys[key := true], h) == GroupHeld(keys, h) {
      if h == g {
        assert GroupHeld(keys[key := true], h);
      } else {
        if key in Names(h) {
          NamesDisjoint(g, h, key);
        }
        OtherGroupsUnaffected(keys, key, true, h);
      }
    }
    assert PadOf(keys[key := true]) == PadOf(keys);
  }

  /** Opposite groups cancel, in translation and in rotation alike. */
  lemma OppositesCancel(keys: KeyMap)
    requires GroupHeld(keys, North) == GroupHeld(keys, South)
    requires GroupHeld(keys, West) == GroupHeld(keys, East)
    requires !GroupHeld(keys, NorthWest) && !GroupHeld(keys, NorthEast)
    ensures MoveDelta(keys) == Origin
    ensures RotationDelta(keys) == NoRotation
  {
  }

  /** On the pad, holding both groups of an opposite pair is the same as
      holding neither, whatever else is held. */
  lemma PadPairsCancel(p: Pad)
    ensures PadMove(p.(north := true, south := true)) == PadMove(p.(north := false, south := false))
    ensures PadRoll(p.(north := true, south := true)) == PadRoll(p.(north := false, south := false))
    ensures PadMove(p.(west := true, east := true)) == PadMove(p.(west := false, east := false))
    ensures PadRoll(p.(west := true, east := true)) == PadRoll(p.(west := false, east := false))
  {
  }

  /** Holding north and south together moves and rolls the ball exactly as
      releasing all four of their names would, whatever else is held. */
  lemma NorthSouthCancel(keys: KeyMap)
    requires GroupHeld(keys, North) && GroupHeld(keys, South)
    ensures var released := keys["ArrowUp" := false]["w" := false]["ArrowDown" := false]["s" := false];
      MoveDelta(keys) == MoveDelta(released) && RotationDelta(keys) == RotationDelta(released)
  {
    var released := keys["ArrowUp" := false]["w" := false]["ArrowDown" := false]["s" := false];
    assert PadOf(released) == PadOf(keys).(north := false, south := false);
    PadPairsCancel(PadOf(keys));
  }

  /** Holding west and east together moves and rolls the ball exactly as
      releasing all four of their names would, whatever else is held. */
  lemma WestEastCancel(keys: KeyMap)
    requires GroupHeld(keys, West) && GroupHeld(keys, East)
    ensures var released := keys["ArrowLeft" := false]["a" := false]["ArrowRight" := false]["d" := false];
      MoveDelta(keys) == MoveDelta(released) && RotationDelta(keys) == RotationDelta(released)
  {
    var released := keys["ArrowLeft" := false]["a" := false]["ArrowRight" := false]["d" := false];
    assert PadOf(released) == PadOf(keys).(west := false, east := false);
    PadPairsCancel(PadOf(keys));
  }

  /** On the pad, a diagonal group adds its step and its roll to the rest. */
  lemma PadDiagonals(p: Pad)
    ensures !p.northWest ==> PadMove(p.(northWest := true)) == PadMove(p).Plus(Vec3(-Speed, 0.0, -Speed))
    ensures !p.northWest ==> PadRoll(p.(northWest := true)) == PadRoll(p).Plus(Rotation(-RotationSpeed, -RotationSpeed))
    ensures !p.northEast ==> PadMove(p.(northEast := true)) == PadMove(p).Plus(Vec3(Speed, 0.0, -Speed))
    ensures !p.northEast ==> PadRoll(p.(northEast := true)) == PadRoll(p).Plus(Rotation(-RotationSpeed, RotationSpeed))
  {
  }

  /** Writing a key changes nothing about any other key. */
  lemma HeldOther(keys: KeyMap, key: string, v: bool, other: string)
    requires key != other
    ensures Held(keys[key := v], other) == Held(keys, other)
  {
  }

  /** Holding `q` adds half a unit towards -x and -z and one roll increment
      backwards about each axis on top of whatever else is held. */
  lemma QStacks(keys: KeyMap)
    ensures MoveDelta(keys["q" := true]) == MoveDelta(keys["q" := false]).Plus(Vec3(-Speed, 0.0, -Speed))
    ensures RotationDelta(keys["q" := true]) == RotationDelta(keys["q" := false]).Plus(Rotation(-RotationSpeed, -RotationSpeed))
  {
    var on, off := keys["q" := true], keys["q" := false];
    forall other | other in ["ArrowUp", "w", "ArrowDown", "s", "ArrowLeft", "a", "ArrowRight", "d", "e"]
      ensures Held(on, other) == Held(off, other)
    {
      HeldOther(keys, "q", true, other);
      HeldOther(keys, "q", false, other);
    }
    assert PadOf(on) == PadOf(off).(northWest := true);
    PadDiagonals(PadOf(off));
  }

  /** Holding `e` adds half a unit towards +x and -z, one roll increment
      backwards about x and one forwards about z, on top of whatever else is
      held. */
  lemma EStacks(keys: KeyMap)
    ensures MoveDelta(keys["e" := true]) == MoveDelta(keys["e" := false]).Plus(Vec3(Speed, 0.0, -Speed))
    ensures RotationDelta(keys["e" := true]) == RotationDelta(keys["e" := false]).Plus(Rotation(-RotationSpeed, RotationSpeed))
  {
    var on, off := keys["e" := true], keys["e" := false];
    forall other | other in ["ArrowUp", "w", "ArrowDown", "s", "ArrowLeft", "a", "ArrowRight", "d", "q"]
      ensures Held(on, other) == Held(off, other)
    {
      HeldOther(keys, "e", true, other);
      HeldOther(keys, "e", false, other);
    }
    assert PadOf(on) == PadOf(off).(northEast := true);
    PadDiagonals(PadOf(off));
  }

  /** Exactly one group is held. */
  predicate OnlyGroup(keys: KeyMap, g: Group) {
    GroupHeld(keys, g) && forall h :: h != g ==> !GroupHeld(keys, h)
  }

  /** With only the north group held the ball rolls back by exactly one
      increment about x, and moves half a unit north or not at all. */
  lemma NorthOnly(keys: KeyMap, p: Vec3)
    requires OnlyGroup(keys, North)
    ensures RotationDelta(keys) == Rotation(-RotationSpeed, 0.0)
    ensures Commit(p, MoveDelta(keys)) == p || Commit(p, MoveDelta(keys)) == Vec3(p.x, p.y, p.z - Speed)
  {
    assert PadOf(keys) == Pad(true, false, false, false, false, false);
  }
}
