/** The keyboard handler: a mode selected by `q` decides what the motion
    keys move (the camera, the model or the light); other keys toggle the
    rotation and the three lights, and nudge the ambient intensity and the
    scale.  Float steps are idealised as real additions. */
module Input {
  import opened Algebra

  datatype Mode = Cam | Movement | Rotation | LightPos

  /** The mode after one `q`: cam, movement, rotation, light position, cam. */
  function NextMode(m: Mode): (r: Mode)
    ensures r != m
  {
    match m
    case Cam => Movement
    case Movement => Rotation
    case Rotation => LightPos
    case LightPos => Cam
  }

  datatype Axis = X | Y | Z

  function WithAxis(v: Vec3, axis: Axis, delta: real): (r: Vec3)
    ensures axis == X ==> r == Vec3(v.x + delta, v.y, v.z)
    ensures axis == Y ==> r == Vec3(v.x, v.y + delta, v.z)
    ensures axis == Z ==> r == Vec3(v.x, v.y, v.z + delta)
  {
    match axis
    case X => v.(x := v.x + delta)
    case Y => v.(y := v.y + delta)
    case Z => v.(z := v.z + delta)
  }

  /** Everything the handler reads or writes: `actual`, `rotating`,
      `activeLights`, `eye`, `mov`, `posLuz`, the ambient intensity and
      `scale_amount`. */
  datatype Settings = Settings(actual: Mode, rotating: bool, lights: seq<bool>,
                               eye: Vec3, mov: Vec3, lightPos: seq<real>,
                               ambient: real, scale: real)

  /** Both arrays of the source hold three entries. */
  predicate WellFormed(s: Settings)
  {
    |s.lights| == 3 && |s.lightPos| == 3
  }

  /** The values the program starts with. */
  function InitialSettings(): (r: Settings)
    ensures WellFormed(r) && r.actual == Cam && r.rotating
    ensures r.lights == [true, false, false]
  {
    Settings(Cam, true, [true, false, false], Vec3(0.0, 0.0, 5.0), Vec3(0.0, 0.0, 0.0),
             [0.0, 1.0, 0.25], 0.1, 0.01)
  }

  const ESC: char := 27 as char

  /** A motion key: in cam mode it moves the eye by `eyeStep`, in movement
      mode the model by `movStep`, in light mode the light by `lightStep`
      when the key has one, and in rotation mode it does nothing. */
  function Move(s: Settings, axis: Axis, eyeStep: real, movStep: real, lightStep: real, hasLight: bool): (r: Settings)
    requires WellFormed(s)
    ensures WellFormed(r)
    ensures r.actual == s.actual && r.rotating == s.rotating && r.lights == s.lights
    ensures r.ambient == s.ambient && r.scale == s.scale
    ensures s.actual == Rotation ==> r == s
  {
    match s.actual
    case Cam => s.(eye := WithAxis(s.eye, axis, eyeStep))
    case Movement => s.(mov := WithAxis(s.mov, axis, movStep))
    case Rotation => s
    case LightPos =>
      if hasLight then
        var i := if axis == X then 0 else 1;
        s.(lightPos := s.lightPos[i := s.lightPos[i] + lightStep])
      else s
  }

  function Toggle(s: Settings, i: nat): (r: Settings)
    requires WellFormed(s) && i < 3
    ensures WellFormed(r)
  {
    s.(lights := s.lights[i := !s.lights[i]])
  }

  /** The new settings after `keyboard(key)`.  ESC ends the program in the
      source; here it leaves the settings as they are, and the caller is told
      to quit. */
  function KeyStep(s: Settings, key: char): (r: Settings)
    requires WellFormed(s)
    ensures WellFormed(r)
  {
    match key
    case 's' => Move(s, Y, -10.0, -10.0, -0.05, true)
    case 'w' => Move(s, Y, 10.0, 10.0, 0.05, true)
    case 'a' => Move(s, X, -10.0, -1.0, -0.05, true)
    case 'd' => Move(s, X, 10.0, 1.0, 0.05, true)
    case 'f' => Move(s, Z, -10.0, -10.0, 0.0, false)
    case 'g' => Move(s, Z, 10.0, 10.0, 0.0, false)
    case 'q' => s.(actual := NextMode(s.actual))
    case 'r' => s.(rotating := !s.rotating)
    case '1' => Toggle(s, 0)
    case '2' => Toggle(s, 1)
    case '3' => Toggle(s, 2)
    case 'z' => s.(ambient := s.ambient - 0.05)
    case 'x' => s.(ambient := s.ambient + 0.05)
    case ',' => s.(scale := s.scale - 0.05)
    case '.' => s.(scale := s.scale + 0.05)
    case _ => s
  }

  /** The keys the handler reacts to. */
  const HandledKeys: seq<char> := [ESC, 's', 'w', 'a', 'd', 'f', 'g', 'q', 'r', '1', '2', '3', 'z', 'x', ',', '.']

  /** The key that toggles light `i`. */
  function LightKey(i: nat): (c: char)
    requires i < 3
    ensures c in "123"
  {
    ['1', '2', '3'][i]
  }

  /** Only `q` changes the mode, and it always does. */
  lemma ModeChangesOnlyOnQ(s: Settings, key: char)
    requires WellFormed(s)
    ensures KeyStep(s, key).actual == (if key == 'q' then NextMode(s.actual) else s.actual)
    ensures KeyStep(s, key).actual != s.actual <==> key == 'q'
  {
  }

  /** Four presses of `q` bring back the mode and leave everything else alone. */
  lemma {:induction false} FourQRestores(s: Settings)
    requires WellFormed(s)
    ensures KeyStep(KeyStep(KeyStep(KeyStep(s, 'q'), 'q'), 'q'), 'q') == s
  {
    var s1 := KeyStep(s, 'q');
    var s2 := KeyStep(s1, 'q');
    var s3 := KeyStep(s2, 'q');
    assert s3.actual == NextMode(NextMode(NextMode(s.actual)));
    assert NextMode(s3.actual) == s.actual by {
      match s.actual
      case Cam =>
      case Movement =>
      case Rotation =>
      case LightPos =>
    }
  }

  /** Fewer than four presses never bring the mode back. */
  lemma ModeCyclePeriod(m: Mode)
    ensures NextMode(NextMode(m)) != m
    ensures NextMode(NextMode(NextMode(m))) != m
  {
  }

  /** `r` flips `rotating` and nothing else; light `i` is flipped by its
      digit key and by no other key. */
  lemma TogglesFlipOneFlag(s: Settings, key: char)
    requires WellFormed(s)
    ensures KeyStep(s, key).rotating == (s.rotating != (key == 'r'))
    ensures forall i :: 0 <= i < 3 ==> KeyStep(s, key).lights[i] == (s.lights[i] != (key == LightKey(i)))
    ensures key in "r123" ==> KeyStep(s, key).(rotating := s.rotating, lights := s.lights) == s
  {
  }

  /** Pressing a toggle key twice restores every setting. */
  lemma TogglesAreInvolutions(s: Settings, key: char)
    requires WellFormed(s) && key in "r123"
    ensures KeyStep(KeyStep(s, key), key) == s
  {
    var r := KeyStep(KeyStep(s, key), key);
    assert r.lights == s.lights;
  }

  /** In rotation mode the motion keys change nothing. */
  lemma RotationModeIsInert(s: Settings, key: char)
    requires WellFormed(s) && s.actual == Rotation && key in "wasdfg"
    ensures KeyStep(s, key) == s
  {
  }

  /** A motion key followed by its opposite restores every setting, in the
      idealised real arithmetic; so do `z`/`x` and `,`/`.`. */
  lemma OppositeKeysCancel(s: Settings, key: char, back: char)
    requires WellFormed(s)
    requires (key, back) in [('s', 'w'), ('w', 's'), ('a', 'd'), ('d', 'a'), ('f', 'g'), ('g', 'f'),
                             ('z', 'x'), ('x', 'z'), (',', '.'), ('.', ',')]
    ensures KeyStep(KeyStep(s, key), back) == s
  {
    match key
    case 's' => MoveCancels(s, Y, -10.0, -10.0, -0.05, true);
    case 'w' => MoveCancels(s, Y, 10.0, 10.0, 0.05, true);
    case 'a' => MoveCancels(s, X, -10.0, -1.0, -0.05, true);
    case 'd' => MoveCancels(s, X, 10.0, 1.0, 0.05, true);
    case 'f' => MoveCancels(s, Z, -10.0, -10.0, 0.0, false);
    case 'g' => MoveCancels(s, Z, 10.0, 10.0, 0.0, false);
    case _ =>
  }

  lemma MoveCancels(s: Settings, axis: Axis, eyeStep: real, movStep: real, lightStep: real, hasLight: bool)
    requires WellFormed(s)
    ensures Move(Move(s, axis, eyeStep, movStep, lightStep, hasLight), axis, -eyeStep, -movStep, -lightStep, hasLight) == s
  {
    var r := Move(Move(s, axis, eyeStep, movStep, lightStep, hasLight), axis, -eyeStep, -movStep, -lightStep, hasLight);
    assert r.lightPos == s.lightPos;
  }

  /** Keys the handler does not list leave the settings alone. */
  lemma OtherKeysIgnored(s: Settings, key: char)
    requires WellFormed(s) && key !in HandledKeys
    ensures KeyStep(s, key) == s
  {
  }

  /** The handler's globals.  `activeLights` and `posLuz` are the source's
      fixed-size arrays. */
  class Controls {
    var actual: Mode
    var rotating: bool
    var activeLights: array<bool>
    var eye: Vec3
    var mov: Vec3
    var posLuz: array<real>
    var ambient: real
    var scaleAmount: real

    predicate Valid()
      reads this
    {
      activeLights.Length == 3 && posLuz.Length == 3
    }

    function State(): Settings
      reads this, activeLights, posLuz
    {
      Settings(actual, rotating, activeLights[..], eye, mov, posLuz[..], ambient, scaleAmount)
    }

    constructor ()
      ensures Valid() && fresh(activeLights) && fresh(posLuz)
      ensures State() == InitialSettings()
    {
      actual := Cam;
      rotating := true;
      eye := Vec3(0.0, 0.0, 5.0);
      mov := Vec3(0.0, 0.0, 0.0);
      ambient := 0.1;
      scaleAmount := 0.01;
      activeLights := new bool[3] [true, false, false];
      posLuz := new real[3] [0.0, 1.0, 0.25];
    }

    /** `keyboard(key)`: updates the globals in place; `quit` reports the
        ESC key, on which the source exits. */
    method Keyboard(key: char) returns (quit: bool)
      requires Valid()
      modifies this, activeLights, posLuz
      ensures Valid() && activeLights == old(activeLights) && posLuz == old(posLuz)
      ensures quit <==> key == ESC
      ensures State() == KeyStep(old(State()), key)
    {
      quit := false;
      if key == ESC {
        quit := true;
      } else if key == 's' {
        if actual == Cam { eye := eye.(y := eye.y - 10.0); }
        else if actual == Movement { mov := mov.(y := mov.y - 10.0); }
        else if actual == LightPos { posLuz[1] := posLuz[1] - 0.05; }
      } else if key == 'w' {
        if actual == Cam { eye := eye.(y := eye.y + 10.0); }
        else if actual == Movement { mov := mov.(y := mov.y + 10.0); }
        else if actual == LightPos { posLuz[1] := posLuz[1] + 0.05; }
      } else if key == 'a' {
        if actual == Cam { eye := eye.(x := eye.x - 10.0); }
        else if actual == Movement { mov := mov.(x := mov.x - 1.0); }
        else if actual == LightPos { posLuz[0] := posLuz[0] - 0.05; }
      } else if key == 'd' {
        if actual == Cam { eye := eye.(x := eye.x + 10.0); }
        else if actual == Movement { mov := mov.(x := mov.x + 1.0); }
        else if actual == LightPos { posLuz[0] := posLuz[0] + 0.05; }
      } else if key == 'f' {
        if actual == Cam { eye := eye.(z := eye.z - 10.0); }
        else if actual == Movement { mov := mov.(z := mov.z - 10.0); }
      } else if key == 'g' {
        if actual == Cam { eye := eye.(z := eye.z + 10.0); }
        else if actual == Movement { mov := mov.(z := mov.z + 10.0); }
      } else if key == 'q' {
        actual := NextMode(actual);
      } else if key == 'r' {
        rotating := !rotating;
      } else if key == '1' {
        activeLights[0] := !activeLights[0];
      } else if key == '2' {
        activeLights[1] := !activeLights[1];
      } else if key == '3' {
        activeLights[2] := !activeLights[2];
      } else if key == 'z' {
        ambient := ambient - 0.05;
      } else if key == 'x' {
        ambient := ambient + 0.05;
      } else if key == ',' {
        scaleAmount := scaleAmount - 0.05;
      } else if key == '.' {
        scaleAmount := scaleAmount + 0.05;
      }
    }
  }
}
