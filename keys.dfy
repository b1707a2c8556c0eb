/** The keyboard handler `key_callback` and the globals it updates: three
    rotation flags, the selected object and each object's placement.

    Placements are counted in steps so that no float arithmetic is needed:
    offsets in half units (one press moves 0.5), scale in quarter units (one
    press changes it by 0.25). */
module Keys {

  const NumObjects: nat := 2

  /** The keys the handler looks at; every other key is `Other`. */
  datatype Key =
    | Escape | X | Y | Z
    | W | Up | S | Down | A | Left | D | Right | Q | E | F | G
    | One | Two
    | Other(code: int)

  datatype Action = Press | Release | Repeat

  /** `offsetX`, `offsetY`, `offsetZ` in half units; `scale` in quarter units. */
  datatype Placement = Placement(offsetX: int, offsetY: int, offsetZ: int, scale: int)

  /** Offsets 0.0 and scale 1.0. */
  const InitialPlacement := Placement(0, 0, 0, 4)

  /** The movement and scale branches of `key_callback` applied to one placement:
      W/UP and S/DOWN move along y, D/RIGHT and A/LEFT along x, E/RIGHT and Q/LEFT
      along z, G/RIGHT and F/LEFT grow and shrink; so LEFT and RIGHT change x, z
      and scale at once, and every other key changes nothing. */
  method Moved(was: Placement, key: Key, pressed: bool) returns (now: Placement)
    ensures now.offsetX == was.offsetX + (if pressed && (key == D || key == Right) then 1 else if pressed && (key == A || key == Left) then -1 else 0)
    ensures now.offsetY == was.offsetY + (if pressed && (key == W || key == Up) then 1 else if pressed && (key == S || key == Down) then -1 else 0)
    ensures now.offsetZ == was.offsetZ + (if pressed && (key == E || key == Right) then 1 else if pressed && (key == Q || key == Left) then -1 else 0)
    ensures now.scale == was.scale + (if pressed && (key == G || key == Right) then 1 else if pressed && (key == F || key == Left) then -1 else 0)
  {
    now := was;
    if (key == W || key == Up) && pressed {
      now := now.(offsetY := now.offsetY + 1);
    }
    if (key == S || key == Down) && pressed {
      now := now.(offsetY := now.offsetY - 1);
    }
    if (key == A || key == Left) && pressed {
      now := now.(offsetX := now.offsetX - 1);
    }
    if (key == D || key == Right) && pressed {
      now := now.(offsetX := now.offsetX + 1);
    }
    if (key == Q || key == Left) && pressed {
      now := now.(offsetZ := now.offsetZ - 1);
    }
    if (key == E || key == Right) && pressed {
      now := now.(offsetZ := now.offsetZ + 1);
    }
    if (key == F || key == Left) && pressed {
      now := now.(scale := now.scale - 1);
    }
    if (key == G || key == Right) && pressed {
      now := now.(scale := now.scale + 1);
    }
  }

  /** The key whose branch undoes `key`'s: W/S, UP/DOWN, A/D, LEFT/RIGHT, Q/E
      and F/G pair up, because every step is the same size each way. */
  function Opposite(key: Key): (k: Key)
    ensures key in {W, Up, S, Down, A, Left, D, Right, Q, E, F, G} <==> k != key
  {
    match key
    case W => S       case S => W
    case Up => Down   case Down => Up
    case A => D       case D => A
    case Left => Right case Right => Left
    case Q => E       case E => Q
    case F => G       case G => F
    case _ => key
  }

  /** Pressing a key and then its opposite puts the object back where it was. */
  method PressThenOpposite(was: Placement, key: Key) returns (now: Placement)
    ensures now == was
  {
    var mid := Moved(was, key, true);
    now := Moved(mid, Opposite(key), true);
  }

  class Viewer {
    var rotateX: bool
    var rotateY: bool
    var rotateZ: bool
    var selectedObject: int
    /** Whether the window has been asked to close. */
    var closeRequested: bool
    const objects: array<Placement>

    /** At most one axis rotates, and the selection names one of the objects. */
    ghost predicate Valid()
      reads this
    {
      objects.Length == NumObjects && 0 <= selectedObject < NumObjects &&
      !(rotateX && rotateY) && !(rotateX && rotateZ) && !(rotateY && rotateZ)
    }

    predicate ExactlyOneAxis()
      reads this
    {
      (if rotateX then 1 else 0) + (if rotateY then 1 else 0) + (if rotateZ then 1 else 0) == 1
    }

    /** The globals as the program starts. */
    constructor ()
      ensures Valid() && fresh(objects)
      ensures !rotateX && !rotateY && !rotateZ && selectedObject == 0 && !closeRequested
      ensures objects[..] == [InitialPlacement, InitialPlacement]
    {
      rotateX, rotateY, rotateZ := false, false, false;
      selectedObject := 0;
      closeRequested := false;
      objects := new Placement[NumObjects](_ => InitialPlacement);
    }

    /** `key_callback`: only presses do anything. X, Y and Z pick the one axis to
        rotate about; 1 and 2 select an object; the movement and scale keys change
        the placement of the object selected when the key arrives, and no other.
        LEFT fires the branches of A, Q and F together, RIGHT those of D, E and G. */
    method KeyCallback(key: Key, action: Action)
      requires Valid()
      modifies this, objects
      ensures Valid()
      ensures closeRequested == (old(closeRequested) || (action == Press && key == Escape))
      ensures action == Press && key in {X, Y, Z} ==>
                ExactlyOneAxis() && rotateX == (key == X) && rotateY == (key == Y) && rotateZ == (key == Z)
      ensures !(action == Press && key in {X, Y, Z}) ==>
                rotateX == old(rotateX) && rotateY == old(rotateY) && rotateZ == old(rotateZ)
      ensures selectedObject ==
                if action == Press && key == One then 0
                else if action == Press && key == Two then 1
                else old(selectedObject)
      ensures forall i :: 0 <= i < NumObjects && i != old(selectedObject) ==> objects[i] == old(objects[i])
      ensures var was, now := old(objects[selectedObject]), objects[old(selectedObject)];
              var pressed := action == Press;
              now.offsetX == was.offsetX + (if pressed && (key == D || key == Right) then 1 else if pressed && (key == A || key == Left) then -1 else 0) &&
              now.offsetY == was.offsetY + (if pressed && (key == W || key == Up) then 1 else if pressed && (key == S || key == Down) then -1 else 0) &&
              now.offsetZ == was.offsetZ + (if pressed && (key == E || key == Right) then 1 else if pressed && (key == Q || key == Left) then -1 else 0) &&
              now.scale == was.scale + (if pressed && (key == G || key == Right) then 1 else if pressed && (key == F || key == Left) then -1 else 0)
    {
      var pressed := action == Press;
      if key == Escape && pressed {
        closeRequested := true;
      }

      if key == X && pressed {
        rotateX, rotateY, rotateZ := true, false, false;
      }
      if key == Y && pressed {
        rotateX, rotateY, rotateZ := false, true, false;
      }
      if key == Z && pressed {
        rotateX, rotateY, rotateZ := false, false, true;
      }

      var sel := selectedObject;
      objects[sel] := Moved(objects[sel], key, pressed);

      if key == One && pressed {
        selectedObject := 0;
      }
      if key == Two && pressed {
        selectedObject := 1;
      }
    }
  }
}
