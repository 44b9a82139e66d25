/**
 * GlObjects::Reflection: draws the reflection of the scene in a plane directly
 * into the framebuffer. Begin reflects the model-view matrix through the plane,
 * clips away what lies behind the plane and flips the front-face winding; End
 * undoes those changes and clears the depth buffer.
 */
module ClipPlaneReflection {
  import opened Geometry
  import opened Gl

  /** The object's reflecting flag together with the device state. */
  datatype Bracket = Bracket(reflecting: bool, gl: State)

  /**
   * The clip plane 0 coefficients as Begin passes them: (N, D). Since the
   * plane's points satisfy N.P = D, they keep the points at signed distance
   * at least -2D, so the clip boundary is the mirror only when D = 0.
   */
  function SourceClipEquation(plane: Plane): (eq: PlaneEquation)
    ensures forall p :: Keeps(eq, p) <==> Distance(plane, p) >= -2.0 * plane.d
  {
    PlaneEquation(plane.n.x, plane.n.y, plane.n.z, plane.d)
  }

  /** The clip plane 0 coefficients that keep exactly the viewer's side of the plane: (N, -D). */
  function ClipEquationOf(plane: Plane): (eq: PlaneEquation)
    ensures forall p :: Keeps(eq, p) <==> Distance(plane, p) >= 0.0
  {
    PlaneEquation(plane.n.x, plane.n.y, plane.n.z, -plane.d)
  }

  /**
   * With the mirror 10 units up the Z axis (as in the demo program), the
   * origin lies behind the mirror, yet the equation Begin installs keeps it:
   * its reflection is drawn between the mirror and the viewer.
   */
  lemma SourceClipKeepsPointBehindMirror()
    ensures var plane := Plane(ZAxis, 10.0);
            var behind := Vector3(0.0, 0.0, 0.0);
            Distance(plane, behind) < 0.0 && Keeps(SourceClipEquation(plane), behind)
  {
  }

  /** The source's equation agrees with the intended one exactly when the plane passes through the origin. */
  lemma SourceClipCorrectOnlyThroughOrigin(plane: Plane)
    ensures SourceClipEquation(plane) == ClipEquationOf(plane) <==> plane.d == 0.0
  {
  }

  /**
   * The device changes of a successful Begin (Reflection.cpp, lines 89-104),
   * with clip plane 0 set to the coefficients Begin passes, (N, D).
   */
  function BeginEffect(s: State, plane: Plane): (r: State)
    ensures r.mode == ModelViewMode
    ensures |r.modelView| == |s.modelView| + 1 && r.modelView[..|s.modelView|] == s.modelView
    ensures Top(r.modelView) == Product(Top(s.modelView), Reflect(plane))
    ensures r.clipPlane0 == ClipEquation(SourceClipEquation(plane), Top(r.modelView))
    ensures r.caps == s.caps + {ClipPlane0}
    ensures r.frontFace == CW
    ensures r.(mode := s.mode, modelView := s.modelView, clipPlane0 := s.clipPlane0,
               caps := s.caps, frontFace := s.frontFace) == s
  {
    var s1 := MatrixModeCmd(s, ModelViewMode);
    var s2 := PushMatrix(s1);
    var s3 := MultMatrix(s2, Reflect(plane));
    var s4 := ClipPlane0Cmd(s3, SourceClipEquation(plane));
    var s5 := Enable(s4, ClipPlane0);
    FrontFace(s5, CW)
  }

  /** The device changes of End while reflecting (Reflection.cpp, lines 140-154). */
  function EndEffect(s: State): (r: State)
    ensures ClipPlane0 !in r.caps && r.caps == s.caps - {ClipPlane0}
    ensures r.depthMask && r.depthClears == s.depthClears + 1
    ensures r.mode == ModelViewMode
    ensures |s.modelView| > 1 ==>
              r.modelView == s.modelView[..|s.modelView| - 1] && r.stackUnderflows == s.stackUnderflows
    ensures |s.modelView| == 1 ==>
              r.modelView == s.modelView && r.stackUnderflows == s.stackUnderflows + 1
    ensures r.frontFace == CCW
    ensures r.(caps := s.caps, depthMask := s.depthMask, depthClears := s.depthClears,
               mode := s.mode, modelView := s.modelView, stackUnderflows := s.stackUnderflows,
               frontFace := s.frontFace) == s
  {
    var s1 := Disable(s, ClipPlane0);
    var s2 := DepthMask(s1, true);
    var s3 := ClearDepth(s2);
    var s4 := MatrixModeCmd(s3, ModelViewMode);
    var s5 := PopMatrix(s4);
    FrontFace(s5, CCW)
  }

  /** Reflection::Begin: reflect iff the camera is strictly in front of the plane. */
  function BeginStep(plane: Plane, camera: Camera, s: State): (r: Bracket)
    ensures r.reflecting <==> Distance(plane, camera.position) > 0.0
    ensures !r.reflecting ==> r.gl == s
    ensures r.reflecting ==> r.gl == BeginEffect(s, plane)
  {
    if Distance(plane, camera.position) > 0.0 then Bracket(true, BeginEffect(s, plane))
    else Bracket(false, s)
  }

  /**
   * While reflecting, clip plane 0 keeps the points at signed distance at
   * least -2D from the mirror; it keeps exactly the viewer's side, as the
   * comment at Reflection.cpp line 96 intends, if and only if the plane
   * passes through the origin.
   */
  lemma BeginClipsAtShiftedPlane(plane: Plane, camera: Camera, s: State)
    requires Distance(plane, camera.position) > 0.0
    ensures var r := BeginStep(plane, camera, s);
            r.reflecting && ClipPlane0 in r.gl.caps &&
            (forall p :: Keeps(r.gl.clipPlane0.eq, p) <==> Distance(plane, p) >= -2.0 * plane.d) &&
            (r.gl.clipPlane0.eq == ClipEquationOf(plane) <==> plane.d == 0.0)
  {
    SourceClipCorrectOnlyThroughOrigin(plane);
  }

  /** Reflection::End: undo Begin's changes if reflecting, otherwise nothing. */
  function EndStep(b: Bracket): (r: Bracket)
    ensures !r.reflecting
    ensures !b.reflecting ==> r == b
    ensures b.reflecting ==> r.gl == EndEffect(b.gl)
  {
    if b.reflecting then Bracket(false, EndEffect(b.gl)) else b
  }

  /** A second End changes nothing. */
  lemma EndIdempotent(b: Bracket)
    ensures EndStep(EndStep(b)) == EndStep(b)
  {
  }

  /**
   * A successful Begin followed by End leaves the device as it was, except
   * that the model-view matrix is selected, the winding is CCW, clip plane 0
   * is disabled (its equation stays set) and the depth buffer was cleared.
   */
  lemma {:induction false} BeginEndRoundTrip(plane: Plane, camera: Camera, s: State)
    requires Distance(plane, camera.position) > 0.0
    ensures var r := EndStep(BeginStep(plane, camera, s));
            !r.reflecting &&
            r.gl == s.(mode := ModelViewMode, frontFace := CCW, caps := s.caps - {ClipPlane0},
                       clipPlane0 := ClipEquation(SourceClipEquation(plane), Product(Top(s.modelView), Reflect(plane))),
                       depthMask := true, depthClears := s.depthClears + 1)
  {
    var b := BeginEffect(s, plane);
    var e := EndEffect(b);
    assert e.modelView == s.modelView;
    assert e.caps == s.caps - {ClipPlane0};
  }

  /**
   * From the state a frame starts in (model-view selected, CCW winding, clip
   * plane 0 off), Begin then End restores every piece of device state except
   * the depth buffer, which was cleared once, and the stored clip equation.
   */
  lemma {:induction false} BeginEndRestoresFrameState(plane: Plane, camera: Camera, s: State)
    requires s.mode == ModelViewMode && s.frontFace == CCW && ClipPlane0 !in s.caps
    ensures var r := EndStep(BeginStep(plane, camera, s));
            !r.reflecting &&
            r.gl.(clipPlane0 := s.clipPlane0, depthMask := s.depthMask, depthClears := s.depthClears) == s &&
            r.gl.depthClears == (if Distance(plane, camera.position) > 0.0 then s.depthClears + 1 else s.depthClears)
  {
    if Distance(plane, camera.position) > 0.0 {
      BeginEndRoundTrip(plane, camera, s);
      assert s.caps - {ClipPlane0} == s.caps;
    }
  }

  class Reflection {
    /** The reflection plane; public, so the scene may replace it between frames. */
    var plane: Plane
    /** True while a Begin that could see the reflection is open. */
    var isReflecting: bool

    /** The plane through `position` with unit normal `normal`. */
    constructor (position: Vector3, normal: Vector3)
      requires IsUnit(normal)
      ensures plane == PlaneThrough(normal, position) && Distance(plane, position) == 0.0
      ensures !isReflecting
    {
      plane := PlaneThrough(normal, position);
      isReflecting := false;
      PlaneThroughContainsPosition(normal, position);
    }

    method Begin(dev: Device, camera: Camera) returns (ok: bool)
      requires !isReflecting
      modifies this`isReflecting, dev
      ensures ok == isReflecting
      ensures Bracket(ok, dev.st) == BeginStep(plane, camera, old(dev.st))
    {
      if Distance(plane, camera.position) > 0.0 {
        dev.st := MatrixModeCmd(dev.st, ModelViewMode);
        dev.st := PushMatrix(dev.st);
        dev.st := MultMatrix(dev.st, Reflect(plane));
        dev.st := ClipPlane0Cmd(dev.st, SourceClipEquation(plane));
        dev.st := Enable(dev.st, ClipPlane0);
        dev.st := FrontFace(dev.st, CW);
        isReflecting := true;
      } else {
        isReflecting := false;
      }
      ok := isReflecting;
    }

    method End(dev: Device)
      modifies this`isReflecting, dev
      ensures Bracket(isReflecting, dev.st) == EndStep(old(Bracket(isReflecting, dev.st)))
    {
      if isReflecting {
        dev.st := Disable(dev.st, ClipPlane0);
        dev.st := DepthMask(dev.st, true);
        dev.st := ClearDepth(dev.st);
        dev.st := MatrixModeCmd(dev.st, ModelViewMode);
        dev.st := PopMatrix(dev.st);
        dev.st := FrontFace(dev.st, CCW);
        isReflecting := false;
      }
    }
  }

  /**
   * One frame of the demo program: the scene moves the plane, then draws the
   * reflection inside a Begin/End pair (drawing itself leaves the device as it
   * found it and is not modelled).
   */
  method ReflectionPass(r: Reflection, dev: Device, camera: Camera, newPlane: Plane) returns (drawn: bool)
    requires !r.isReflecting
    requires dev.st.mode == ModelViewMode && dev.st.frontFace == CCW && ClipPlane0 !in dev.st.caps
    modifies r, dev
    ensures drawn <==> Distance(newPlane, camera.position) > 0.0
    ensures r.plane == newPlane && !r.isReflecting
    ensures dev.st.(clipPlane0 := old(dev.st.clipPlane0), depthMask := old(dev.st.depthMask),
                    depthClears := old(dev.st.depthClears)) == old(dev.st)
  {
    r.plane := newPlane;
    drawn := r.Begin(dev, camera);
    if drawn {
      r.End(dev);
    }
    BeginEndRestoresFrameState(newPlane, camera, old(dev.st));
  }

}
