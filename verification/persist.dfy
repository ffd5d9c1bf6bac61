/** The persisted program state: `SaveToFile` writes ten scalars in a fixed
    order and `LoadFromFile` reads them back in the same order, doing nothing
    when the file is missing and stopping silently when input runs out.
    The text format is abstracted: a file is the sequence of numbers its
    tokens denote, floats become reals and the bool is written as 1 or 0. */
module Persist {
  import opened Vectors

  /** The part of the camera the program state touches. The camera's other
      members and its methods are not part of this model. */
  datatype Camera = Camera(Position: Vec3, Front: Vec3, Yaw: real, Pitch: real, Zoom: real)

  datatype PointLight = PointLight(
    position: Vec3, ambient: Vec3, diffuse: Vec3, specular: Vec3,
    constant: real, linear: real, quadratic: real)

  datatype ProgramState = ProgramState(
    clearColor: Vec3,
    ImGuiEnabled: bool,
    camera: Camera,
    CameraMouseMovementUpdateEnabled: bool,
    backpackPosition: Vec3,
    backpackScale: real,
    pointLight: PointLight)

  /** Number of scalars in a saved record. */
  const FieldCount: nat := 10

  /** Position of the bool among the saved scalars. */
  const FlagField: nat := 3

  /** A freshly constructed program state. The camera and light arguments
      stand for what the camera constructor and the light's indeterminate
      initial value supply; the camera is placed at (0, 0, 3). */
  function Fresh(camera: Camera, light: PointLight): (s: ProgramState)
    ensures s.clearColor == Zero && !s.ImGuiEnabled
    ensures s.camera.Position == Vec3(0.0, 0.0, 3.0) && s.CameraMouseMovementUpdateEnabled
    ensures s.backpackPosition == Zero && s.backpackScale == 1.0
  {
    ProgramState(Zero, false, camera.(Position := Vec3(0.0, 0.0, 3.0)), true, Zero, 1.0, light)
  }

  /** How a stream writes a bool without `boolalpha`. */
  function FlagToken(b: bool): real {
    if b then 1.0 else 0.0
  }

  /** Of the integer tokens, only 0 and 1 extract into a bool without
      failing the stream. A flag token whose text is not an integer is read
      differently by the stream and is outside this model. */
  predicate IsFlagToken(v: real) {
    v == 0.0 || v == 1.0
  }

  /** The fields the record leaves alone: everything but the ten saved scalars. */
  predicate SameUnpersisted(a: ProgramState, b: ProgramState) {
    && a.CameraMouseMovementUpdateEnabled == b.CameraMouseMovementUpdateEnabled
    && a.backpackPosition == b.backpackPosition
    && a.backpackScale == b.backpackScale
    && a.pointLight == b.pointLight
    && a.camera.Yaw == b.camera.Yaw
    && a.camera.Pitch == b.camera.Pitch
    && a.camera.Zoom == b.camera.Zoom
  }

  /** The record written at exit: clear colour r, g, b, the overlay flag,
      camera position x, y, z and camera front x, y, z. */
  function SaveToFile(s: ProgramState): (tokens: seq<real>)
    ensures |tokens| == FieldCount
    ensures IsFlagToken(tokens[FlagField])
    ensures (tokens[FlagField] == 1.0) == s.ImGuiEnabled
  {
    [s.clearColor.x, s.clearColor.y, s.clearColor.z,
     FlagToken(s.ImGuiEnabled),
     s.camera.Position.x, s.camera.Position.y, s.camera.Position.z,
     s.camera.Front.x, s.camera.Front.y, s.camera.Front.z]
  }

  /** The state after one extraction and whether the stream is still good. */
  datatype Extracted = Extracted(state: ProgramState, good: bool)

  /** What field `i` holds after extracting token `v` into it: the bool
      becomes false for 0 and true for any other integer (an integer other
      than 0 or 1 stores true and fails the stream). */
  function StoredValue(i: nat, v: real): real {
    if i == FlagField then FlagToken(v != 0.0) else v
  }

  /** Extracts token `v` into the i-th saved field. */
  function StoreField(s: ProgramState, i: nat, v: real): (e: Extracted)
    requires i < FieldCount
    ensures SameUnpersisted(e.state, s)
    ensures e.good <==> (i != FlagField || IsFlagToken(v))
    ensures forall f | 0 <= f < FieldCount ::
              SaveToFile(e.state)[f] == (if f == i then StoredValue(i, v) else SaveToFile(s)[f])
  {
    var c := s.clearColor;
    var p := s.camera.Position;
    var d := s.camera.Front;
    if i == 0 then Extracted(s.(clearColor := c.(x := v)), true)
    else if i == 1 then Extracted(s.(clearColor := c.(y := v)), true)
    else if i == 2 then Extracted(s.(clearColor := c.(z := v)), true)
    else if i == 3 then Extracted(s.(ImGuiEnabled := v != 0.0), IsFlagToken(v))
    else if i == 4 then Extracted(s.(camera := s.camera.(Position := p.(x := v))), true)
    else if i == 5 then Extracted(s.(camera := s.camera.(Position := p.(y := v))), true)
    else if i == 6 then Extracted(s.(camera := s.camera.(Position := p.(z := v))), true)
    else if i == 7 then Extracted(s.(camera := s.camera.(Front := d.(x := v))), true)
    else if i == 8 then Extracted(s.(camera := s.camera.(Front := d.(y := v))), true)
    else Extracted(s.(camera := s.camera.(Front := d.(z := v))), true)
  }

  /** The chained extraction from field `i` on: each field takes the token
      at its own position until the fields or the tokens run out or the
      stream fails. */
  function LoadFields(s: ProgramState, tokens: seq<real>, i: nat): (r: ProgramState)
    requires i <= FieldCount
    ensures SameUnpersisted(r, s)
    decreases FieldCount - i
  {
    if i == FieldCount || i >= |tokens| then s
    else
      var e := StoreField(s, i, tokens[i]);
      if e.good then LoadFields(e.state, tokens, i + 1) else e.state
  }

  /** Loads the record from a file, `None` standing for a file that cannot
      be opened. */
  function LoadFromFile(s: ProgramState, file: Option<seq<real>>): (r: ProgramState)
    ensures file.None? ==> r == s
    ensures SameUnpersisted(r, s)
  {
    match file
    case None => s
    case Some(tokens) => LoadFields(s, tokens, 0)
  }

  /** Reference count of the fields a load writes: all available tokens up
      to ten, except that a bool token other than 0 or 1 is the last one. */
  function FieldsWritten(tokens: seq<real>): (n: nat)
    ensures n <= FieldCount && n <= |tokens|
  {
    if |tokens| > FlagField && !IsFlagToken(tokens[FlagField]) then FlagField + 1
    else if |tokens| < FieldCount then |tokens|
    else FieldCount
  }

  /** The bool token, if present, extracts cleanly. */
  predicate FlagTokenValid(tokens: seq<real>) {
    |tokens| <= FlagField || IsFlagToken(tokens[FlagField])
  }

  lemma {:induction false} LoadFieldsFieldwise(s: ProgramState, tokens: seq<real>, i: nat)
    requires i <= FieldsWritten(tokens)
    requires i > FlagField ==> FlagTokenValid(tokens)
    ensures forall f | 0 <= f < FieldCount ::
              SaveToFile(LoadFields(s, tokens, i))[f]
              == (if i <= f < FieldsWritten(tokens) then StoredValue(f, tokens[f]) else SaveToFile(s)[f])
    decreases FieldCount - i
  {
    if i == FieldCount || i >= |tokens| {
    } else {
      var e := StoreField(s, i, tokens[i]);
      if e.good {
        LoadFieldsFieldwise(e.state, tokens, i + 1);
      }
    }
  }

  /** Loading an existing file writes field f with the f-th token for every
      f below FieldsWritten and leaves every other field as it was. */
  lemma LoadFromFileFieldwise(s: ProgramState, tokens: seq<real>)
    ensures forall f | 0 <= f < FieldCount ::
              SaveToFile(LoadFromFile(s, Some(tokens)))[f]
              == (if f < FieldsWritten(tokens) then StoredValue(f, tokens[f]) else SaveToFile(s)[f])
  {
    LoadFieldsFieldwise(s, tokens, 0);
  }

  /** The saved record determines the ten persisted fields. */
  lemma SaveDeterminesPersisted(a: ProgramState, b: ProgramState)
    requires SaveToFile(a) == SaveToFile(b)
    ensures a.clearColor == b.clearColor && a.ImGuiEnabled == b.ImGuiEnabled
    ensures a.camera.Position == b.camera.Position && a.camera.Front == b.camera.Front
  {
  }

  /** Round trip: loading what was saved from `s` into any state `t`
      reproduces the ten saved fields of `s` and keeps the rest of `t`. */
  lemma SaveLoadRoundTrip(s: ProgramState, t: ProgramState)
    ensures var r := LoadFromFile(t, Some(SaveToFile(s)));
            && r.clearColor == s.clearColor && r.ImGuiEnabled == s.ImGuiEnabled
            && r.camera.Position == s.camera.Position && r.camera.Front == s.camera.Front
            && SameUnpersisted(r, t)
  {
    var tokens := SaveToFile(s);
    var r := LoadFromFile(t, Some(tokens));
    LoadFromFileFieldwise(t, tokens);
    assert FieldsWritten(tokens) == FieldCount;
    forall f | 0 <= f < FieldCount
      ensures SaveToFile(r)[f] == tokens[f]
    {
      assert StoredValue(f, tokens[f]) == tokens[f];
    }
    assert SaveToFile(r) == tokens;
    SaveDeterminesPersisted(r, s);
  }

  /** Reloading a state's own record changes nothing. */
  lemma ReloadIsIdentity(s: ProgramState)
    ensures LoadFromFile(s, Some(SaveToFile(s))) == s
  {
    SaveLoadRoundTrip(s, s);
  }

  /** A truncated record of k < 10 well-formed tokens writes exactly the
      first k fields; the remaining ones keep their prior values. */
  lemma TruncatedLoadWritesPrefix(s: ProgramState, tokens: seq<real>)
    requires |tokens| < FieldCount && FlagTokenValid(tokens)
    ensures forall f | 0 <= f < FieldCount ::
              SaveToFile(LoadFromFile(s, Some(tokens)))[f]
              == (if f < |tokens| then tokens[f] else SaveToFile(s)[f])
  {
    LoadFromFileFieldwise(s, tokens);
  }

  /** A bool token whose integer part is neither 0 nor 1 (at most -1 or at
      least 2) turns the overlay on and stops the load: the camera pose keeps
      its prior value. */
  lemma BadFlagStopsLoad(s: ProgramState, tokens: seq<real>)
    requires |tokens| > FlagField
    requires tokens[FlagField] <= -1.0 || 2.0 <= tokens[FlagField]
    ensures var r := LoadFromFile(s, Some(tokens));
            && r.ImGuiEnabled
            && r.clearColor == Vec3(tokens[0], tokens[1], tokens[2])
            && r.camera.Position == s.camera.Position && r.camera.Front == s.camera.Front
  {
    var r := LoadFromFile(s, Some(tokens));
    LoadFromFileFieldwise(s, tokens);
    assert SaveToFile(r)[0] == tokens[0] && SaveToFile(r)[1] == tokens[1];
    assert SaveToFile(r)[2] == tokens[2] && SaveToFile(r)[3] == 1.0;
    assert SaveToFile(r)[4] == SaveToFile(s)[4] && SaveToFile(r)[5] == SaveToFile(s)[5];
    assert SaveToFile(r)[6] == SaveToFile(s)[6] && SaveToFile(r)[7] == SaveToFile(s)[7];
    assert SaveToFile(r)[8] == SaveToFile(s)[8] && SaveToFile(r)[9] == SaveToFile(s)[9];
  }
}
