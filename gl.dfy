/**
 * The fixed-function OpenGL device, reduced to the state the scene objects
 * read and change. Every GL command they issue is a function from the device
 * state before the command to the state after it; `Device` is the one global
 * context that the objects' methods update command by command.
 *
 * Matrices are kept symbolic: a stack entry records the sequence of
 * transforms multiplied into it since it was last loaded, which is enough to
 * say what a push, a multiply and a pop do to a stack.
 */
module Gl {
  import opened Wrappers
  import opened Geometry

  // GLenum values that the objects pass through to GL unchanged (values from gl.h).
  const GL_CLAMP: nat := 0x2900
  const GL_REPEAT: nat := 0x2901
  const GL_LINEAR: nat := 0x2601
  const GL_LINEAR_MIPMAP_LINEAR: nat := 0x2703

  datatype MatrixMode = ModelViewMode | ProjectionMode

  datatype Winding = CW | CCW

  /** The glEnable/glDisable capabilities the objects touch. */
  datatype Capability = ClipPlane0 | DepthTest | Texture1D | Texture2D | Lighting

  datatype ClientArray = VertexArray | TexCoordArray

  datatype TexEnvMode = Modulate | Replace

  datatype PixelFormat = Rgb | BgrExt | BgraExt

  /** The six arguments of glFrustum. */
  datatype Frustum = Frustum(left: real, right: real, bottom: real, top: real, near: real, far: real)

  /** A transform multiplied into the current matrix. */
  datatype Transform =
    | Reflect(plane: Plane)          // Plane::GetReflectionMatrix
    | Rotation(q: Quaternion)        // Quaternion::GetRotationMatrix33
    | Translation(v: Vector3)        // glTranslatef
    | Scaling(v: Vector3)            // glScalef
    | Perspective(f: Frustum)        // glFrustum

  /** `Product(m, t)` is m multiplied on the right by t, as glMultMatrix does. */
  datatype Matrix = Identity | Product(m: Matrix, t: Transform)

  /** A GL matrix stack is never empty; its last entry is the current matrix. */
  type Stack = s: seq<Matrix> | |s| >= 1 witness [Identity]

  function Top(s: Stack): Matrix { s[|s| - 1] }

  /** The pixels that a TGA file delivered into a buffer of `size` bytes. */
  datatype Image = Image(source: string, size: nat)

  /** Glx::Texture: a texture object with its size, format and parameters. */
  datatype Texture = Texture(width: nat, height: nat, format: PixelFormat,
                             wrap: nat, minFilter: nat, magFilter: nat, id: nat,
                             image: Option<Image>)

  datatype Viewport = Viewport(x: int, y: int, width: int, height: int)

  /** The four viewport integers, in the order glGetIntegerv(GL_VIEWPORT) writes them. */
  function ViewportFields(v: Viewport): (r: seq<int>)
    ensures |r| == 4
  {
    [v.x, v.y, v.width, v.height]
  }

  /** Coefficients (a, b, c, d) of a plane equation a x + b y + c z + d w. */
  datatype PlaneEquation = PlaneEquation(a: real, b: real, c: real, d: real)

  /**
   * A user clip plane: its equation and the model-view matrix current when
   * it was specified. GL stores the plane transformed by the inverse of that
   * matrix, so geometry drawn under that same matrix is kept exactly when its
   * object coordinates satisfy `Keeps`.
   */
  datatype ClipEquation = ClipEquation(eq: PlaneEquation, eye: Matrix)

  predicate Keeps(eq: PlaneEquation, p: Vector3)
  {
    eq.a * p.x + eq.b * p.y + eq.c * p.z + eq.d >= 0.0
  }

  /** A copy from the framebuffer into the texture bound at the time. */
  datatype Copy =
    | CopyImage(target: Option<Texture>, format: PixelFormat, x: int, y: int, width: int, height: int)
    | CopySubImage(target: Option<Texture>, xOffset: int, yOffset: int, x: int, y: int, width: int, height: int)

  /** A glDrawArrays(GL_QUADS, first, count) call and the texture bound when it was made. */
  datatype Draw = DrawQuads(texture: Option<Texture>, first: nat, count: nat)

  datatype State = State(
    mode: MatrixMode,
    modelView: Stack,
    projection: Stack,
    viewport: Viewport,
    caps: set<Capability>,
    clientArrays: set<ClientArray>,
    clipPlane0: ClipEquation,
    frontFace: Winding,
    depthMask: bool,
    depthClears: nat,              // how many times the depth buffer has been cleared
    texEnv: TexEnvMode,
    boundTexture: Option<Texture>,
    copies: seq<Copy>,
    draws: seq<Draw>,
    stackUnderflows: nat           // GL_STACK_UNDERFLOW errors raised by glPopMatrix
  )

  /** The stack that glMatrixMode has selected. */
  function CurrentStack(s: State): Stack
  {
    if s.mode == ModelViewMode then s.modelView else s.projection
  }

  function WithCurrentStack(s: State, st: Stack): State
  {
    if s.mode == ModelViewMode then s.(modelView := st) else s.(projection := st)
  }

  /** Replaces the current matrix by m. */
  function WithCurrentMatrix(s: State, m: Matrix): State
  {
    var st := CurrentStack(s);
    WithCurrentStack(s, st[..|st| - 1] + [m])
  }

  function MatrixModeCmd(s: State, m: MatrixMode): State { s.(mode := m) }

  function PushMatrix(s: State): State
  {
    var st := CurrentStack(s);
    WithCurrentStack(s, st + [Top(st)])
  }

  /** glPopMatrix; popping the last matrix raises GL_STACK_UNDERFLOW and changes nothing else. */
  function PopMatrix(s: State): State
  {
    var st := CurrentStack(s);
    if |st| > 1 then WithCurrentStack(s, st[..|st| - 1])
    else s.(stackUnderflows := s.stackUnderflows + 1)
  }

  function LoadIdentity(s: State): State { WithCurrentMatrix(s, Identity) }

  function MultMatrix(s: State, t: Transform): State
  {
    WithCurrentMatrix(s, Product(Top(CurrentStack(s)), t))
  }

  function Enable(s: State, c: Capability): State { s.(caps := s.caps + {c}) }

  function Disable(s: State, c: Capability): State { s.(caps := s.caps - {c}) }

  function EnableClientState(s: State, a: ClientArray): State { s.(clientArrays := s.clientArrays + {a}) }

  function DisableClientState(s: State, a: ClientArray): State { s.(clientArrays := s.clientArrays - {a}) }

  /** glClipPlane(GL_CLIP_PLANE0, eq), taken relative to the current model-view matrix. */
  function ClipPlane0Cmd(s: State, eq: PlaneEquation): State
  {
    s.(clipPlane0 := ClipEquation(eq, Top(s.modelView)))
  }

  function FrontFace(s: State, w: Winding): State { s.(frontFace := w) }

  function DepthMask(s: State, b: bool): State { s.(depthMask := b) }

  /** glClear(GL_DEPTH_BUFFER_BIT): the depth buffer is written only when the depth mask allows it. */
  function ClearDepth(s: State): State
  {
    if s.depthMask then s.(depthClears := s.depthClears + 1) else s
  }

  function ViewportCmd(s: State, x: int, y: int, w: int, h: int): State
  {
    s.(viewport := Viewport(x, y, w, h))
  }

  /** Texture::Apply binds the texture. */
  function BindTexture(s: State, t: Texture): State { s.(boundTexture := Some(t)) }

  function TexEnv(s: State, m: TexEnvMode): State { s.(texEnv := m) }

  function CopyTexImage(s: State, f: PixelFormat, x: int, y: int, w: int, h: int): State
  {
    s.(copies := s.copies + [CopyImage(s.boundTexture, f, x, y, w, h)])
  }

  function CopyTexSubImage(s: State, xo: int, yo: int, x: int, y: int, w: int, h: int): State
  {
    s.(copies := s.copies + [CopySubImage(s.boundTexture, xo, yo, x, y, w, h)])
  }

  function DrawArraysQuads(s: State, first: nat, count: nat): State
  {
    s.(draws := s.draws + [DrawQuads(s.boundTexture, first, count)])
  }

  /** Glx::Camera, reduced to what the objects read. */
  datatype Camera = Camera(position: Vector3, nearDistance: real, farDistance: real)

  /** The current GL context. */
  class Device {
    var st: State

    constructor (initial: State)
      ensures st == initial
    {
      st := initial;
    }
  }

  /**
   * Whatever is multiplied into or loaded over the matrix pushed last, one
   * pop restores the stack as it was before the push.
   */
  lemma PopUndoesPush(s: State, m: Matrix)
    ensures PopMatrix(WithCurrentMatrix(PushMatrix(s), m)) == s
  {
    var st := CurrentStack(s);
    assert (st + [Top(st)])[..|st|] + [m] == st + [m];
    assert (st + [m])[..|st|] == st;
  }

}
