/**
 * GlObjects::Mirror: a rectangular mirror whose reflection is rendered into a
 * texture. Begin aims a reflected virtual camera at the mirror through an
 * off-axis frustum and renders into a texture-sized viewport; End copies the
 * framebuffer into the texture and restores the viewport, both matrix stacks
 * and the winding.
 */
module RenderToTextureMirror {
  import opened Wrappers
  import opened Geometry
  import opened Gl

  /** The object's reflecting flag, its saved viewport record and the device state. */
  datatype Bracket = Bracket(reflecting: bool, saved: seq<int>, gl: State)

  /** The capture texture the constructor creates: tw x th texels, RGB, clamped, no image data yet. */
  function CaptureTexture(tw: nat, th: nat): (t: Texture)
    ensures t.width == tw && t.height == th && t.format == Rgb && t.wrap == GL_CLAMP && t.image == None
  {
    Texture(tw, th, Rgb, GL_CLAMP, GL_LINEAR, GL_LINEAR, 0, None)
  }

  /** The mirror's plane: normal is the frame's Z axis, through the frame's position. */
  function MirrorPlane(frame: Frame): Plane
  {
    PlaneThrough(FrameZAxis(frame), frame.translation)
  }

  /** The mirror's centre lies on its plane. */
  lemma MirrorPlaneContainsCentre(frame: Frame)
    ensures MirrorPlane(frame).n == FrameZAxis(frame) && Distance(MirrorPlane(frame), frame.translation) == 0.0
  {
    PlaneThroughContainsPosition(FrameZAxis(frame), frame.translation);
  }

  /** An unrotated mirror faces +Z: its normal is (0, 0, 1), whatever its position. */
  lemma UnrotatedMirrorFacesZ(position: Vector3)
    ensures MirrorPlane(Frame(position, IdentityRotation, Vector3(1.0, 1.0, 1.0))).n == ZAxis
    ensures FrameZAxis(Frame(position, IdentityRotation, Vector3(1.0, 1.0, 1.0))) == Rotate(ZAxis, IdentityRotation)
  {
    FrameZAxisIsRotatedZAxis(Frame(position, IdentityRotation, Vector3(1.0, 1.0, 1.0)));
  }

  /**
   * The vector from the camera's projection onto the mirror plane to the
   * mirror's centre, in the mirror's own (unrotated) coordinates.
   */
  function MirrorOffset(frame: Frame, cameraPosition: Vector3): Vector3
  {
    Rotate(Sub(frame.translation, Project(MirrorPlane(frame), cameraPosition)), Inverse(frame.rotation))
  }

  /** std::max as the source calls it. */
  function Max(a: real, b: real): real { if a < b then b else a }

  /**
   * The glFrustum bounds: a w x h window centred on the in-plane offset, the
   * near plane no closer than the camera's near distance.
   */
  function FrustumBounds(offset: Vector3, w: real, h: real, cameraDistance: real,
                         nearDistance: real, farDistance: real): (f: Frustum)
    ensures f.right - f.left == w && f.top - f.bottom == h
    ensures (f.left + f.right) / 2.0 == offset.x && (f.bottom + f.top) / 2.0 == offset.y
    ensures f.near >= nearDistance && f.near >= cameraDistance
    ensures f.near == nearDistance || f.near == cameraDistance
    ensures f.far == farDistance
  {
    Frustum(offset.x - w * 0.5, offset.x + w * 0.5,
            offset.y - h * 0.5, offset.y + h * 0.5,
            Max(cameraDistance, nearDistance), farDistance)
  }

  /** A window centred on the axis gives a symmetric frustum. */
  lemma CentredFrustumIsSymmetric(w: real, h: real, cameraDistance: real, nearDistance: real, farDistance: real)
    ensures var f := FrustumBounds(Vector3(0.0, 0.0, 0.0), w, h, cameraDistance, nearDistance, farDistance);
            f.left == -f.right && f.bottom == -f.top
  {
  }

  /**
   * The frustum Begin builds for a camera (Mirror.cpp, lines 138-150): the
   * mirror's w x h window around the camera's in-plane offset, with the near
   * plane at the camera's distance from the mirror or its own near distance,
   * whichever is farther.
   */
  function MirrorFrustum(frame: Frame, w: real, h: real, camera: Camera): (f: Frustum)
    ensures f.right - f.left == w && f.top - f.bottom == h
    ensures var offset := MirrorOffset(frame, camera.position);
            (f.left + f.right) / 2.0 == offset.x && (f.bottom + f.top) / 2.0 == offset.y
    ensures var d := Distance(MirrorPlane(frame), camera.position);
            f.near >= d && f.near >= camera.nearDistance && (f.near == d || f.near == camera.nearDistance)
    ensures f.far == camera.farDistance
  {
    FrustumBounds(MirrorOffset(frame, camera.position), w, h,
                  Distance(MirrorPlane(frame), camera.position),
                  camera.nearDistance, camera.farDistance)
  }

  /** The model-view matrix of the reflected camera: inverse rotation, camera translation, reflection. */
  function VirtualCamera(frame: Frame, camera: Camera): Matrix
  {
    Product(Product(Product(Identity, Rotation(Inverse(frame.rotation))),
                    Translation(Neg(camera.position))),
            Reflect(MirrorPlane(frame)))
  }

  /**
   * A camera on the mirror's axis, in front of the mirror, sees the mirror
   * centred: the offset is zero, so the frustum window is symmetric
   * (CentredFrustumIsSymmetric), and the near plane is at least the camera's
   * distance k from the mirror.
   */
  lemma {:induction false} CameraOnAxisSeesCentredWindow(frame: Frame, w: real, h: real, camera: Camera, k: real)
    requires IsUnit(FrameZAxis(frame))
    requires camera.position == Add(frame.translation, Scale(k, FrameZAxis(frame))) && k > 0.0
    ensures Distance(MirrorPlane(frame), camera.position) == k
    ensures MirrorOffset(frame, camera.position) == Vector3(0.0, 0.0, 0.0)
    ensures MirrorFrustum(frame, w, h, camera)
         == FrustumBounds(Vector3(0.0, 0.0, 0.0), w, h, k, camera.nearDistance, camera.farDistance)
  {
    var t := frame.translation;
    var zero := Vector3(0.0, 0.0, 0.0);
    var p := camera.position;
    MirrorPlaneContainsCentre(frame);
    DistanceAlongNormal(MirrorPlane(frame), t, k);
    assert Sub(t, t) == zero;
    RotateZero(Inverse(frame.rotation));
    assert MirrorOffset(frame, p) == zero;
  }

  /**
   * The device changes of a successful Begin (Mirror.cpp, lines 136-171), for
   * the frustum, mirror plane and orientation that Begin computed.
   */
  function BeginEffect(s: State, texture: Texture, frustum: Frustum, rotation: Quaternion,
                       cameraPosition: Vector3, plane: Plane): (r: State)
    ensures r.viewport == Viewport(0, 0, texture.width, texture.height)
    ensures r.projection == s.projection + [Product(Identity, Perspective(frustum))]
    ensures r.modelView == s.modelView + [Product(Product(Product(Identity, Rotation(Inverse(rotation))),
                                                          Translation(Neg(cameraPosition))),
                                                  Reflect(plane))]
    ensures r.mode == ModelViewMode && r.frontFace == CW
    ensures r.(viewport := s.viewport, projection := s.projection, modelView := s.modelView,
               mode := s.mode, frontFace := s.frontFace) == s
  {
    var s1 := ViewportCmd(s, 0, 0, texture.width, texture.height);
    var s2 := MatrixModeCmd(s1, ProjectionMode);
    var s3 := PushMatrix(s2);
    var s4 := LoadIdentity(s3);
    var s5 := MultMatrix(s4, Perspective(frustum));
    var s6 := MatrixModeCmd(s5, ModelViewMode);
    var s7 := PushMatrix(s6);
    var s8 := LoadIdentity(s7);
    var s9 := MultMatrix(s8, Rotation(Inverse(rotation)));
    var s10 := MultMatrix(s9, Translation(Neg(cameraPosition)));
    var s11 := MultMatrix(s10, Reflect(plane));
    assert s5.projection == s.projection + [Product(Identity, Perspective(frustum))];
    FrontFace(s11, CW)
  }

  /** The device changes of End while reflecting (Mirror.cpp, lines 207-237). */
  function EndEffect(s: State, texture: Texture, saved: seq<int>): (r: State)
    requires |saved| == 4
    ensures r.caps == s.caps - {Texture2D, Texture1D, Lighting}
    ensures r.boundTexture == Some(texture)
    ensures r.copies == s.copies + [CopySubImage(Some(texture), 0, 0, 0, 0, texture.width, texture.height)]
    ensures r.viewport == Viewport(saved[0], saved[1], saved[2], saved[3])
    ensures |s.projection| > 1 ==> r.projection == s.projection[..|s.projection| - 1]
    ensures |s.projection| == 1 ==> r.projection == s.projection
    ensures |s.modelView| > 1 ==> r.modelView == s.modelView[..|s.modelView| - 1]
    ensures |s.modelView| == 1 ==> r.modelView == s.modelView
    ensures r.stackUnderflows == s.stackUnderflows + (if |s.projection| == 1 then 1 else 0)
                                                   + (if |s.modelView| == 1 then 1 else 0)
    ensures r.depthMask && r.depthClears == s.depthClears + 1
    ensures r.mode == ModelViewMode && r.frontFace == CCW
    ensures r.(caps := s.caps, boundTexture := s.boundTexture, copies := s.copies, viewport := s.viewport,
               projection := s.projection, modelView := s.modelView, stackUnderflows := s.stackUnderflows,
               depthMask := s.depthMask, depthClears := s.depthClears, mode := s.mode,
               frontFace := s.frontFace) == s
  {
    var s1 := Disable(s, Texture2D);
    var s2 := Disable(s1, Texture1D);
    var s3 := Disable(s2, Lighting);
    var s4 := BindTexture(s3, texture);
    var s5 := CopyTexSubImage(s4, 0, 0, 0, 0, texture.width, texture.height);
    var s6 := ViewportCmd(s5, saved[0], saved[1], saved[2], saved[3]);
    var s7 := MatrixModeCmd(s6, ProjectionMode);
    var s8 := PopMatrix(s7);
    var s9 := MatrixModeCmd(s8, ModelViewMode);
    var s10 := PopMatrix(s9);
    var s11 := DepthMask(s10, true);
    var s12 := ClearDepth(s11);
    FrontFace(s12, CCW)
  }

  /** Mirror::Begin: reflect iff the camera is strictly in front of the mirror plane. */
  function BeginStep(frame: Frame, w: real, h: real, texture: Texture, camera: Camera,
                     saved: seq<int>, s: State): (r: Bracket)
    ensures r.reflecting <==> Distance(MirrorPlane(frame), camera.position) > 0.0
    ensures !r.reflecting ==> r.saved == saved && r.gl == s
    ensures r.reflecting ==> r.saved == ViewportFields(s.viewport) &&
                             r.gl == BeginEffect(s, texture, MirrorFrustum(frame, w, h, camera), frame.rotation,
                                                 camera.position, MirrorPlane(frame))
  {
    if Distance(MirrorPlane(frame), camera.position) > 0.0 then
      Bracket(true, ViewportFields(s.viewport),
              BeginEffect(s, texture, MirrorFrustum(frame, w, h, camera), frame.rotation,
                          camera.position, MirrorPlane(frame)))
    else
      Bracket(false, saved, s)
  }

  /** Mirror::End: capture and restore if reflecting, otherwise nothing. */
  function EndStep(texture: Texture, b: Bracket): (r: Bracket)
    requires |b.saved| == 4
    ensures !r.reflecting && r.saved == b.saved
    ensures !b.reflecting ==> r == b
    ensures b.reflecting ==> r.gl == EndEffect(b.gl, texture, b.saved)
  {
    if b.reflecting then Bracket(false, b.saved, EndEffect(b.gl, texture, b.saved)) else b
  }

  /** A second End changes nothing. */
  lemma EndIdempotent(texture: Texture, b: Bracket)
    requires |b.saved| == 4
    ensures EndStep(texture, EndStep(texture, b)) == EndStep(texture, b)
  {
  }

  /**
   * While reflecting, the top of the projection stack is the mirror's frustum
   * and the top of the model-view stack is the reflected virtual camera, each
   * pushed once above the caller's matrices; winding is CW and the viewport
   * is the texture's.
   */
  lemma BeginPushesVirtualCamera(frame: Frame, w: real, h: real, texture: Texture, camera: Camera,
                                 saved: seq<int>, s: State)
    requires Distance(MirrorPlane(frame), camera.position) > 0.0
    ensures var r := BeginStep(frame, w, h, texture, camera, saved, s).gl;
            r.projection == s.projection + [Product(Identity, Perspective(MirrorFrustum(frame, w, h, camera)))] &&
            r.modelView == s.modelView + [VirtualCamera(frame, camera)] &&
            r.frontFace == CW && r.viewport == Viewport(0, 0, texture.width, texture.height)
  {
  }

  /**
   * End undoes Begin's device changes: it restores the viewport from the four
   * saved integers and both matrix stacks; what remains changed is the
   * selected matrix, the winding (CCW), the capabilities End turns off, the
   * bound texture, the one framebuffer copy and the one depth clear.
   */
  lemma {:induction false} EndUndoesBegin(s: State, texture: Texture, frustum: Frustum, rotation: Quaternion,
                                          cameraPosition: Vector3, plane: Plane)
    ensures EndEffect(BeginEffect(s, texture, frustum, rotation, cameraPosition, plane), texture, ViewportFields(s.viewport))
         == s.(mode := ModelViewMode, frontFace := CCW,
               caps := s.caps - {Texture2D, Texture1D, Lighting},
               boundTexture := Some(texture),
               copies := s.copies + [CopySubImage(Some(texture), 0, 0, 0, 0, texture.width, texture.height)],
               depthMask := true, depthClears := s.depthClears + 1)
  {
    var b := BeginEffect(s, texture, frustum, rotation, cameraPosition, plane);
    var e := EndEffect(b, texture, ViewportFields(s.viewport));
    assert |b.projection| > 1 && |b.modelView| > 1;
    assert b.projection[..|s.projection|] == s.projection;
    assert b.modelView[..|s.modelView|] == s.modelView;
    assert e.viewport == s.viewport;
  }

  /** A successful Begin followed by End: the Bracket form of EndUndoesBegin. */
  lemma {:induction false} BeginEndRoundTrip(frame: Frame, w: real, h: real, texture: Texture, camera: Camera,
                                             saved: seq<int>, s: State)
    requires |saved| == 4
    requires Distance(MirrorPlane(frame), camera.position) > 0.0
    ensures var r := EndStep(texture, BeginStep(frame, w, h, texture, camera, saved, s));
            !r.reflecting && r.saved == ViewportFields(s.viewport) &&
            r.gl == s.(mode := ModelViewMode, frontFace := CCW,
                       caps := s.caps - {Texture2D, Texture1D, Lighting},
                       boundTexture := Some(texture),
                       copies := s.copies + [CopySubImage(Some(texture), 0, 0, 0, 0, texture.width, texture.height)],
                       depthMask := true, depthClears := s.depthClears + 1)
  {
    EndUndoesBegin(s, texture, MirrorFrustum(frame, w, h, camera), frame.rotation, camera.position, MirrorPlane(frame));
  }

  /**
   * From the state a frame starts in (model-view selected, CCW winding,
   * texturing and lighting off), Begin then End restores the device except for
   * the capture it made: the bound texture, the copy log and the depth buffer.
   */
  lemma {:induction false} BeginEndRestoresFrameState(frame: Frame, w: real, h: real, texture: Texture,
                                                      camera: Camera, saved: seq<int>, s: State)
    requires |saved| == 4
    requires s.mode == ModelViewMode && s.frontFace == CCW
    requires Texture2D !in s.caps && Texture1D !in s.caps && Lighting !in s.caps
    ensures var r := EndStep(texture, BeginStep(frame, w, h, texture, camera, saved, s));
            !r.reflecting &&
            r.gl.(boundTexture := s.boundTexture, copies := s.copies,
                  depthMask := s.depthMask, depthClears := s.depthClears) == s
  {
    if Distance(MirrorPlane(frame), camera.position) > 0.0 {
      EndUndoesBeginFromFrameState(s, texture, MirrorFrustum(frame, w, h, camera), frame.rotation, camera.position,
                                   MirrorPlane(frame));
    }
  }

  /** EndUndoesBegin from the state a frame starts in: only the capture itself remains. */
  lemma {:induction false} EndUndoesBeginFromFrameState(s: State, texture: Texture, frustum: Frustum,
                                                        rotation: Quaternion, cameraPosition: Vector3, plane: Plane)
    requires s.mode == ModelViewMode && s.frontFace == CCW
    requires Texture2D !in s.caps && Texture1D !in s.caps && Lighting !in s.caps
    ensures EndEffect(BeginEffect(s, texture, frustum, rotation, cameraPosition, plane), texture, ViewportFields(s.viewport))
              .(boundTexture := s.boundTexture, copies := s.copies, depthMask := s.depthMask,
                depthClears := s.depthClears) == s
  {
    EndUndoesBegin(s, texture, frustum, rotation, cameraPosition, plane);
    CaptureLeftover(s, EndEffect(BeginEffect(s, texture, frustum, rotation, cameraPosition, plane), texture,
                                 ViewportFields(s.viewport)), texture);
  }

  /** In the frame-start state, End's leftover changes are only the capture's. */
  lemma CaptureLeftover(s: State, r: State, texture: Texture)
    requires s.mode == ModelViewMode && s.frontFace == CCW
    requires Texture2D !in s.caps && Texture1D !in s.caps && Lighting !in s.caps
    requires r == s.(mode := ModelViewMode, frontFace := CCW,
                     caps := s.caps - {Texture2D, Texture1D, Lighting},
                     boundTexture := Some(texture),
                     copies := s.copies + [CopySubImage(Some(texture), 0, 0, 0, 0, texture.width, texture.height)],
                     depthMask := true, depthClears := s.depthClears + 1)
    ensures r.(boundTexture := s.boundTexture, copies := s.copies, depthMask := s.depthMask,
               depthClears := s.depthClears) == s
  {
    assert s.caps - {Texture2D, Texture1D, Lighting} == s.caps;
  }

  /** The device commands of a successful Begin (Mirror.cpp, lines 136-171). */
  method IssueBeginEffect(dev: Device, texture: Texture, frustum: Frustum, rotation: Quaternion,
                          cameraPosition: Vector3, plane: Plane)
    modifies dev
    ensures dev.st == BeginEffect(old(dev.st), texture, frustum, rotation, cameraPosition, plane)
  {
    dev.st := ViewportCmd(dev.st, 0, 0, texture.width, texture.height);
    dev.st := MatrixModeCmd(dev.st, ProjectionMode);
    dev.st := PushMatrix(dev.st);
    dev.st := LoadIdentity(dev.st);
    dev.st := MultMatrix(dev.st, Perspective(frustum));
    dev.st := MatrixModeCmd(dev.st, ModelViewMode);
    dev.st := PushMatrix(dev.st);
    dev.st := LoadIdentity(dev.st);
    dev.st := MultMatrix(dev.st, Rotation(Inverse(rotation)));
    dev.st := MultMatrix(dev.st, Translation(Neg(cameraPosition)));
    dev.st := MultMatrix(dev.st, Reflect(plane));
    dev.st := FrontFace(dev.st, CW);
  }

  class Mirror {
    /** The mirror's position and orientation; public, so the scene may turn the mirror between frames. */
    var frame: Frame
    const mirrorWidth: real
    const mirrorHeight: real
    /** The texture the reflection is captured into. */
    const texture: Texture
    /** The caller's viewport, saved by Begin for End. */
    const savedViewport: array<int>
    /** True while a Begin that could see the reflection is open. */
    var isReflecting: bool

    /**
     * A w x h mirror at `position` with `orientation`, capturing into a
     * tw x th texture whose storage is defined by copying from the framebuffer.
     */
    constructor (dev: Device, position: Vector3, orientation: Quaternion, w: real, h: real, tw: nat, th: nat)
      modifies dev
      ensures frame == Frame(position, orientation, Vector3(1.0, 1.0, 1.0))
      ensures mirrorWidth == w && mirrorHeight == h && !isReflecting
      ensures texture == CaptureTexture(tw, th)
      ensures fresh(savedViewport) && savedViewport.Length == 4
      ensures dev.st == CopyTexImage(BindTexture(old(dev.st), texture), Rgb, 0, 0, tw, th)
    {
      frame := Frame(position, orientation, Vector3(1.0, 1.0, 1.0));
      mirrorWidth := w;
      mirrorHeight := h;
      isReflecting := false;
      texture := CaptureTexture(tw, th);
      savedViewport := new int[4];
      new;
      dev.st := BindTexture(dev.st, texture);
      dev.st := CopyTexImage(dev.st, Rgb, 0, 0, tw, th);
    }

    method Begin(dev: Device, camera: Camera) returns (ok: bool)
      requires !isReflecting && savedViewport.Length == 4
      modifies this`isReflecting, savedViewport, dev
      ensures ok == isReflecting
      ensures Bracket(ok, savedViewport[..], dev.st)
           == BeginStep(frame, mirrorWidth, mirrorHeight, texture, camera, old(savedViewport[..]), old(dev.st))
    {
      var mirrorPosition := frame.translation;
      var mirrorPlane := MirrorPlane(frame);
      var cameraPosition := camera.position;
      var cameraDistance := Distance(mirrorPlane, cameraPosition);
      if cameraDistance > 0.0 {
        var mirrorRotation := frame.rotation;
        var vp := dev.st.viewport;
        savedViewport[0], savedViewport[1], savedViewport[2], savedViewport[3] := vp.x, vp.y, vp.width, vp.height;
        assert savedViewport[..] == ViewportFields(vp);
        var mirrorOffset := MirrorOffset(frame, cameraPosition);
        var frustum := FrustumBounds(mirrorOffset, mirrorWidth, mirrorHeight, cameraDistance,
                                     camera.nearDistance, camera.farDistance);
        assert frustum == MirrorFrustum(frame, mirrorWidth, mirrorHeight, camera);
        IssueBeginEffect(dev, texture, frustum, mirrorRotation, cameraPosition, mirrorPlane);
        isReflecting := true;
      } else {
        isReflecting := false;
      }
      ok := isReflecting;
    }

    method End(dev: Device)
      requires savedViewport.Length == 4
      modifies this`isReflecting, dev
      ensures Bracket(isReflecting, savedViewport[..], dev.st)
           == EndStep(texture, old(Bracket(isReflecting, savedViewport[..], dev.st)))
    {
      if isReflecting {
        dev.st := Disable(dev.st, Texture2D);
        dev.st := Disable(dev.st, Texture1D);
        dev.st := Disable(dev.st, Lighting);
        dev.st := BindTexture(dev.st, texture);
        dev.st := CopyTexSubImage(dev.st, 0, 0, 0, 0, texture.width, texture.height);
        dev.st := ViewportCmd(dev.st, savedViewport[0], savedViewport[1], savedViewport[2], savedViewport[3]);
        dev.st := MatrixModeCmd(dev.st, ProjectionMode);
        dev.st := PopMatrix(dev.st);
        dev.st := MatrixModeCmd(dev.st, ModelViewMode);
        dev.st := PopMatrix(dev.st);
        dev.st := DepthMask(dev.st, true);
        dev.st := ClearDepth(dev.st);
        dev.st := FrontFace(dev.st, CCW);
        isReflecting := false;
      }
    }
  }

  /**
   * One frame of the demo program: the scene turns the mirror, then renders
   * the reflection inside a Begin/End pair (drawing itself leaves the device
   * as it found it and is not modelled).
   */
  method MirrorPass(m: Mirror, dev: Device, camera: Camera, orientation: Quaternion) returns (drawn: bool)
    requires !m.isReflecting && m.savedViewport.Length == 4
    requires dev.st.mode == ModelViewMode && dev.st.frontFace == CCW
    requires Texture2D !in dev.st.caps && Texture1D !in dev.st.caps && Lighting !in dev.st.caps
    modifies m, m.savedViewport, dev
    ensures m.frame == old(m.frame).(rotation := orientation) && !m.isReflecting
    ensures drawn <==> Distance(MirrorPlane(m.frame), camera.position) > 0.0
    ensures drawn ==> m.savedViewport[..] == ViewportFields(old(dev.st.viewport))
    ensures dev.st.(boundTexture := old(dev.st.boundTexture), copies := old(dev.st.copies),
                    depthMask := old(dev.st.depthMask), depthClears := old(dev.st.depthClears)) == old(dev.st)
  {
    m.frame := m.frame.(rotation := orientation);
    ghost var saved := m.savedViewport[..];
    drawn := m.Begin(dev, camera);
    if drawn {
      m.End(dev);
    }
    BeginEndRestoresFrameState(m.frame, m.mirrorWidth, m.mirrorHeight, m.texture, camera, saved, old(dev.st));
  }

}
