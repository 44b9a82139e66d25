/**
 * GlObjects::SkyBox: up to six textured faces of a cube drawn around the
 * viewer. The constructor loads one TGA file per face that the face mask
 * selects; Apply draws, in face order, every face whose texture loaded.
 */
module SkyBoxFaces {
  import opened Wrappers
  import opened Geometry
  import opened Gl
  import opened TgaTextureLoader

  // The Faces enumeration: bit i selects face i.
  const FaceFront: bv32 := 0x01   // -Z
  const FaceBack: bv32 := 0x02    // +Z
  const FaceRight: bv32 := 0x04   // +X
  const FaceLeft: bv32 := 0x08    // -X
  const FaceUp: bv32 := 0x10      // +Y
  const FaceDown: bv32 := 0x20    // -Y
  const FaceAllFaces: bv32 := 0x3f
  const FaceTopFaces: bv32 := 0x1f
  const FaceSideFaces: bv32 := 0x0f
  const NumFaces: nat := 6

  /** The file-name suffix of each face, in face order. */
  const Suffixes: seq<string> := ["_-Z", "_+Z", "_+X", "_-X", "_+Y", "_-Y"]

  /** _MAX_PATH on Windows: the size of the constructor's path buffer, terminator included. */
  const MaxPath: nat := 260

  /** Math::SQRT_OF_3. */
  const Sqrt3: real := 1.7320508075688772

  function FaceBit(face: nat): bv32
    requires face < NumFaces
  {
    1 << face
  }

  /** Whether bit (1 << face) of the mask is set. */
  predicate Selected(faceMask: bv32, face: nat)
    requires face < NumFaces
  {
    faceMask & FaceBit(face) != 0
  }

  /** Each face constant is the bit of its index, and the index is the suffix table's order. */
  lemma FaceConstantsAreBits()
    ensures FaceFront == FaceBit(0) && FaceBack == FaceBit(1) && FaceRight == FaceBit(2)
    ensures FaceLeft == FaceBit(3) && FaceUp == FaceBit(4) && FaceDown == FaceBit(5)
    ensures |Suffixes| == NumFaces
  {
  }

  /** The combined masks are the ORs they are documented as. */
  lemma CombinedMasks()
    ensures FaceAllFaces == FaceFront | FaceBack | FaceRight | FaceLeft | FaceUp | FaceDown
    ensures FaceTopFaces == FaceAllFaces & !FaceDown
    ensures FaceSideFaces == FaceAllFaces & !FaceUp & !FaceDown
  {
  }

  /** FACE_ALL_FACES selects every face, FACE_TOP_FACES all but the bottom, FACE_SIDE_FACES the four sides. */
  lemma {:induction false} CombinedMaskSelection(face: nat)
    requires face < NumFaces
    ensures Selected(FaceAllFaces, face)
    ensures Selected(FaceTopFaces, face) <==> face != 5
    ensures Selected(FaceSideFaces, face) <==> face < 4
  {
    if face == 0 {
      assert FaceBit(0) == 1;
    } else if face == 1 {
      assert FaceBit(1) == 2;
    } else if face == 2 {
      assert FaceBit(2) == 4;
    } else if face == 3 {
      assert FaceBit(3) == 8;
    } else if face == 4 {
      assert FaceBit(4) == 16;
    } else {
      assert FaceBit(5) == 32;
    }
  }

  /** The file loaded for a face: the base name, the face's suffix, then ".tga". */
  function FacePath(fileName: string, face: nat): (p: string)
    requires face < NumFaces
    ensures |p| == |fileName| + 7 && p[..|fileName|] == fileName && p[|fileName| + 3..] == ".tga"
    ensures p[|fileName|..|fileName| + 3] == Suffixes[face]
  {
    fileName + Suffixes[face] + ".tga"
  }

  /** Different faces load different files. */
  lemma FacePathsDistinct(fileName: string, face: nat, other: nat)
    requires face < NumFaces && other < NumFaces && face != other
    ensures FacePath(fileName, face) != FacePath(fileName, other)
  {
    var n := |fileName|;
    assert FacePath(fileName, face)[n..n + 3] == Suffixes[face];
    assert FacePath(fileName, other)[n..n + 3] == Suffixes[other];
  }

  /**
   * A face's texture slot after construction: when selected, what the
   * program's TextureLoader::Load returns for the face's file with GL_CLAMP
   * (a texture without pixels, see LoadAsWritten); null otherwise.
   */
  function FaceTexture(files: map<string, TgaFile>, heapLimit: nat, fileName: string, faceMask: bv32,
                       face: nat): Option<Texture>
    requires face < NumFaces
  {
    if Selected(faceMask, face) then
      LoadAsWritten(files, heapLimit, FacePath(fileName, face), GL_CLAMP, GL_LINEAR, GL_LINEAR, 0)
    else None
  }

  /**
   * A slot holds a texture exactly when its face is selected and its file
   * loads; the texture is clamped, has the size and format of that file's
   * header, and holds no pixels. A face whose file fails to load is null like
   * an unselected one.
   */
  lemma FaceTextureLoaded(files: map<string, TgaFile>, heapLimit: nat, fileName: string, faceMask: bv32, face: nat)
    requires face < NumFaces
    ensures var t := FaceTexture(files, heapLimit, fileName, faceMask, face);
            var path := FacePath(fileName, face);
            (t.Some? <==> Selected(faceMask, face) && path in files &&
                          TexelLayout(files[path].header).Some? &&
                          BufferSize(files[path].header, TexelLayout(files[path].header).value.texelSize) <= heapLimit &&
                          files[path].readOk) &&
            (t.Some? ==> t.value.wrap == GL_CLAMP && t.value.image == None &&
                         t.value.width == files[path].header.width && t.value.height == files[path].header.height &&
                         t.value.format == TexelLayout(files[path].header).value.format)
  {
  }

  /**
   * With the intended loader a slot would be the same texture holding the
   * pixels of the face's own file; the program's slot lacks only those pixels.
   */
  lemma IntendedFaceHoldsItsFile(files: map<string, TgaFile>, heapLimit: nat, fileName: string, faceMask: bv32,
                                 face: nat)
    requires face < NumFaces
    ensures var t := FaceTexture(files, heapLimit, fileName, faceMask, face);
            var path := FacePath(fileName, face);
            var intended := if Selected(faceMask, face) then Load(files, heapLimit, path, GL_CLAMP, GL_LINEAR, GL_LINEAR, 0)
                            else None;
            (t.Some? <==> intended.Some?) &&
            (intended.Some? ==> intended.value.image.Some? && intended.value.image.value.source == path &&
                                t.value == intended.value.(image := None))
  {
    if Selected(faceMask, face) {
      LoadAsWrittenDropsPixels(files, heapLimit, FacePath(fileName, face), GL_CLAMP, GL_LINEAR, GL_LINEAR, 0);
    }
  }

  /** The textures the mask and the files give, in face order. */
  function FaceTextures(files: map<string, TgaFile>, heapLimit: nat, fileName: string, faceMask: bv32): seq<Option<Texture>>
  {
    seq(NumFaces, face requires 0 <= face < NumFaces => FaceTexture(files, heapLimit, fileName, faceMask, face))
  }

  /** With the default mask FACE_ALL_FACES, every face's slot is the program's Load of that face's file. */
  lemma DefaultMaskLoadsEveryFace(files: map<string, TgaFile>, heapLimit: nat, fileName: string)
    ensures var faces := FaceTextures(files, heapLimit, fileName, FaceAllFaces);
            forall face :: 0 <= face < NumFaces ==>
              faces[face] == LoadAsWritten(files, heapLimit, FacePath(fileName, face), GL_CLAMP, GL_LINEAR, GL_LINEAR, 0)
  {
    forall face | 0 <= face < NumFaces
      ensures Selected(FaceAllFaces, face)
    {
      CombinedMaskSelection(face);
    }
  }

  /** The draw calls of Apply's face loop over faces 0 .. k-1: one quad of four vertices per non-null face. */
  function FaceDraws(faces: seq<Option<Texture>>, k: nat): seq<Draw>
    requires k <= |faces|
  {
    if k == 0 then []
    else FaceDraws(faces, k - 1) + (if faces[k - 1].Some? then [DrawQuads(faces[k - 1], (k - 1) * 4, 4)] else [])
  }

  /** The non-null textures, in face order. */
  function Loaded(faces: seq<Option<Texture>>): seq<Texture>
  {
    if faces == [] then []
    else Loaded(faces[..|faces| - 1]) + (if faces[|faces| - 1].Some? then [faces[|faces| - 1].value] else [])
  }

  /** The face whose quad a draw of the face loop covers. */
  function FaceOf(d: Draw): nat
  {
    d.first / 4
  }

  /** Each draw of the face loop is the quad face*4 .. face*4+3 of a non-null face, drawn with that face's texture. */
  lemma {:induction false} FaceDrawsAreLoadedQuads(faces: seq<Option<Texture>>, k: nat)
    requires k <= |faces|
    ensures forall d :: d in FaceDraws(faces, k) ==>
              d.first == FaceOf(d) * 4 && d.count == 4 && FaceOf(d) < k &&
              faces[FaceOf(d)].Some? && d.texture == faces[FaceOf(d)]
  {
    if k > 0 {
      FaceDrawsAreLoadedQuads(faces, k - 1);
      var last := DrawQuads(faces[k - 1], (k - 1) * 4, 4);
      assert FaceOf(last) == k - 1;
      assert forall d :: d in FaceDraws(faces, k) ==> d in FaceDraws(faces, k - 1) || (faces[k - 1].Some? && d == last);
    }
  }

  /** Every non-null face among 0 .. k-1 is drawn. */
  lemma {:induction false} FaceDrawsCoverLoaded(faces: seq<Option<Texture>>, k: nat)
    requires k <= |faces|
    ensures forall i :: 0 <= i < k && faces[i].Some? ==> DrawQuads(faces[i], i * 4, 4) in FaceDraws(faces, k)
  {
    if k > 0 {
      FaceDrawsCoverLoaded(faces, k - 1);
      var prev := FaceDraws(faces, k - 1);
      assert forall x :: x in prev ==> x in FaceDraws(faces, k);
    }
  }

  /** The faces are drawn in increasing order, and their textures are the loaded ones in face order. */
  lemma {:induction false} FaceDrawsInFaceOrder(faces: seq<Option<Texture>>, k: nat)
    requires k <= |faces|
    ensures var d := FaceDraws(faces, k);
            (forall j :: 0 <= j < |d| ==> d[j].first < k * 4) &&
            (forall a, b :: 0 <= a < b < |d| ==> d[a].first < d[b].first) &&
            |d| == |Loaded(faces[..k])| &&
            (forall j :: 0 <= j < |d| ==> d[j].texture == Some(Loaded(faces[..k])[j]))
  {
    if k > 0 {
      FaceDrawsInFaceOrder(faces, k - 1);
      assert faces[..k][..k - 1] == faces[..k - 1];
    }
  }

  /**
   * For a sky box built from a face mask, every face Apply draws is selected
   * by the mask and textured with the texture loaded from its own file, of
   * that file's size; and every selected face whose file loads is drawn.
   */
  lemma DrawnFacesAreSelectedFiles(files: map<string, TgaFile>, heapLimit: nat, fileName: string, faceMask: bv32)
    ensures var faces := FaceTextures(files, heapLimit, fileName, faceMask);
            var d := FaceDraws(faces, |faces|);
            (forall x :: x in d ==>
               FaceOf(x) < NumFaces && Selected(faceMask, FaceOf(x)) &&
               var path := FacePath(fileName, FaceOf(x));
               x.texture == LoadAsWritten(files, heapLimit, path, GL_CLAMP, GL_LINEAR, GL_LINEAR, 0) &&
               x.texture.Some? && path in files &&
               x.texture.value.width == files[path].header.width &&
               x.texture.value.height == files[path].header.height) &&
            (forall face :: 0 <= face < NumFaces && faces[face].Some? ==> DrawQuads(faces[face], face * 4, 4) in d)
  {
    var faces := FaceTextures(files, heapLimit, fileName, faceMask);
    FaceDrawsAreLoadedQuads(faces, |faces|);
    FaceDrawsCoverLoaded(faces, |faces|);
    forall x | x in FaceDraws(faces, |faces|)
      ensures FaceOf(x) < NumFaces && Selected(faceMask, FaceOf(x)) &&
              var path := FacePath(fileName, FaceOf(x));
              x.texture == LoadAsWritten(files, heapLimit, path, GL_CLAMP, GL_LINEAR, GL_LINEAR, 0) &&
              x.texture.Some? && path in files &&
              x.texture.value.width == files[path].header.width &&
              x.texture.value.height == files[path].header.height
    {
      FaceTextureLoaded(files, heapLimit, fileName, faceMask, FaceOf(x));
    }
  }

  /** Apply's face loop over faces 0 .. k-1: bind each non-null face's texture and draw its quad. */
  function DrawFaces(s: State, faces: seq<Option<Texture>>, k: nat): State
    requires k <= |faces|
  {
    if k == 0 then s
    else
      var before := DrawFaces(s, faces, k - 1);
      match faces[k - 1]
      case None => before
      case Some(t) => DrawArraysQuads(BindTexture(before, t), (k - 1) * 4, 4)
  }

  /** The face loop only draws and binds textures; its draws are FaceDraws. */
  lemma {:induction false} DrawFacesOnlyDraws(s: State, faces: seq<Option<Texture>>, k: nat)
    requires k <= |faces|
    ensures var r := DrawFaces(s, faces, k);
            r.draws == s.draws + FaceDraws(faces, k) &&
            r.(draws := s.draws, boundTexture := s.boundTexture) == s
  {
    if k > 0 {
      DrawFacesOnlyDraws(s, faces, k - 1);
    }
  }

  /** After the face loop the bound texture is the last non-null face's, or unchanged when every face is null. */
  lemma {:induction false} DrawFacesBindsLastLoaded(s: State, faces: seq<Option<Texture>>, k: nat)
    requires k <= |faces|
    ensures var r := DrawFaces(s, faces, k);
            var loaded := Loaded(faces[..k]);
            r.boundTexture == if loaded == [] then s.boundTexture else Some(loaded[|loaded| - 1])
  {
    if k > 0 {
      DrawFacesBindsLastLoaded(s, faces, k - 1);
      assert faces[..k][..k - 1] == faces[..k - 1];
    }
  }

  /** The box's model-view matrix: the current one, translated to vp and scaled by r. */
  function BoxMatrix(m: Matrix, vp: Vector3, r: real): Matrix
  {
    Product(Product(m, Translation(vp)), Scaling(Vector3(r, r, r)))
  }

  /**
   * SkyBox::Apply(vp, r, bTestZ) up to its face loop (SkyBox.cpp, lines 153-196):
   * one push of the current matrix, multiplied by the box transform; depth
   * testing as asked, depth writes off, texturing on, both client arrays on.
   */
  function ApplySetup(s: State, vp: Vector3, r: real, testZ: bool): (t: State)
    ensures t.mode == s.mode
    ensures CurrentStack(t) == CurrentStack(s) + [BoxMatrix(Top(CurrentStack(s)), vp, r)]
    ensures (DepthTest in t.caps <==> testZ) && Texture2D in t.caps
    ensures t.caps == (if testZ then s.caps + {DepthTest} else s.caps - {DepthTest}) + {Texture2D}
    ensures !t.depthMask && t.texEnv == Replace
    ensures t.clientArrays == s.clientArrays + {TexCoordArray, VertexArray}
    ensures t.(modelView := s.modelView, projection := s.projection, caps := s.caps, depthMask := s.depthMask,
               texEnv := s.texEnv, clientArrays := s.clientArrays) == s
  {
    TextureSetup(BoxTransform(DepthSetup(PushMatrix(s), testZ), vp, r))
  }

  /** Apply's depth commands (SkyBox.cpp, lines 155-164): depth testing as asked, depth writes off. */
  function DepthSetup(s: State, testZ: bool): (t: State)
    ensures t == s.(caps := if testZ then s.caps + {DepthTest} else s.caps - {DepthTest}, depthMask := false)
  {
    DepthMask(if testZ then Enable(s, DepthTest) else Disable(s, DepthTest), false)
  }

  /** Apply's two multiplications of the current matrix (SkyBox.cpp, lines 166-167). */
  function BoxTransform(s: State, vp: Vector3, r: real): (t: State)
    ensures t == WithCurrentMatrix(s, BoxMatrix(Top(CurrentStack(s)), vp, r))
  {
    MultMatrix(MultMatrix(s, Translation(vp)), Scaling(Vector3(r, r, r)))
  }

  /** Apply's texturing and client-array setup (SkyBox.cpp, lines 169-196). */
  function TextureSetup(s: State): (t: State)
    ensures t == s.(caps := s.caps + {Texture2D}, texEnv := Replace,
                    clientArrays := s.clientArrays + {TexCoordArray, VertexArray})
  {
    EnableClientState(EnableClientState(TexEnv(Enable(s, Texture2D), Replace), TexCoordArray), VertexArray)
  }

  /** SkyBox::Apply after its face loop (SkyBox.cpp, lines 208-211): both client arrays off, one pop. */
  function ApplyTeardown(s: State): (t: State)
    ensures t.clientArrays == s.clientArrays - {VertexArray, TexCoordArray}
    ensures t == PopMatrix(s).(clientArrays := t.clientArrays)
  {
    var s1 := DisableClientState(s, VertexArray);
    var s2 := DisableClientState(s1, TexCoordArray);
    PopMatrix(s2)
  }

  /** SkyBox::Apply(vp, r, bTestZ) as a sequence of device commands (SkyBox.cpp, lines 151-212). */
  function ApplyEffect(s: State, faces: seq<Option<Texture>>, vp: Vector3, r: real, testZ: bool): State
  {
    ApplyTeardown(DrawFaces(ApplySetup(s, vp, r, testZ), faces, |faces|))
  }

  /** Apply pushes once and pops once: both matrix stacks and the selected one end as they began. */
  lemma ApplyRestoresMatrices(s: State, faces: seq<Option<Texture>>, vp: Vector3, r: real, testZ: bool)
    ensures var a := ApplyEffect(s, faces, vp, r, testZ);
            a.mode == s.mode && a.modelView == s.modelView && a.projection == s.projection &&
            a.stackUnderflows == s.stackUnderflows
  {
    var t := ApplySetup(s, vp, r, testZ);
    var d := DrawFaces(t, faces, |faces|);
    DrawFacesOnlyDraws(t, faces, |faces|);
    var st := CurrentStack(s);
    var pushed := st + [BoxMatrix(Top(st), vp, r)];
    assert d.mode == s.mode && CurrentStack(d) == pushed;
    assert d.modelView == t.modelView && d.projection == t.projection;
    assert pushed[..|st|] == st;
  }

  /** The face loop and the teardown keep what the setup established, apart from the client arrays and draws. */
  lemma ApplyAfterSetup(s: State, faces: seq<Option<Texture>>, vp: Vector3, r: real, testZ: bool)
    ensures var t := ApplySetup(s, vp, r, testZ);
            var a := ApplyEffect(s, faces, vp, r, testZ);
            a.caps == t.caps && a.depthMask == t.depthMask && a.texEnv == t.texEnv &&
            a.clientArrays == t.clientArrays - {VertexArray, TexCoordArray} &&
            a.draws == t.draws + FaceDraws(faces, |faces|) &&
            a.viewport == t.viewport && a.clipPlane0 == t.clipPlane0 && a.frontFace == t.frontFace &&
            a.depthClears == t.depthClears && a.copies == t.copies
  {
    var t := ApplySetup(s, vp, r, testZ);
    var d := DrawFaces(t, faces, |faces|);
    DrawFacesOnlyDraws(t, faces, |faces|);
    assert ApplyEffect(s, faces, vp, r, testZ) == ApplyTeardown(d);
  }

  /** What Apply changes besides the matrices, and the device state it leaves alone. */
  lemma ApplyFields(s: State, faces: seq<Option<Texture>>, vp: Vector3, r: real, testZ: bool)
    ensures var a := ApplyEffect(s, faces, vp, r, testZ);
            a.caps == (if testZ then s.caps + {DepthTest} else s.caps - {DepthTest}) + {Texture2D} &&
            !a.depthMask && a.texEnv == Replace &&
            a.clientArrays == s.clientArrays - {VertexArray, TexCoordArray} &&
            a.draws == s.draws + FaceDraws(faces, |faces|) &&
            a.viewport == s.viewport && a.clipPlane0 == s.clipPlane0 && a.frontFace == s.frontFace &&
            a.depthClears == s.depthClears && a.copies == s.copies
  {
    ApplyAfterSetup(s, faces, vp, r, testZ);
    var t := ApplySetup(s, vp, r, testZ);
    assert s.clientArrays + {TexCoordArray, VertexArray} - {VertexArray, TexCoordArray}
        == s.clientArrays - {VertexArray, TexCoordArray};
  }

  /** Apply leaves bound the texture of the last face it draws, and the old binding when it draws none. */
  lemma ApplyBindsLastFace(s: State, faces: seq<Option<Texture>>, vp: Vector3, r: real, testZ: bool)
    ensures var a := ApplyEffect(s, faces, vp, r, testZ);
            var loaded := Loaded(faces);
            a.boundTexture == if loaded == [] then s.boundTexture else Some(loaded[|loaded| - 1])
  {
    var t := ApplySetup(s, vp, r, testZ);
    assert t.boundTexture == s.boundTexture;
    var d := DrawFaces(t, faces, |faces|);
    DrawFacesBindsLastLoaded(t, faces, |faces|);
    assert faces[..|faces|] == faces;
    assert ApplyEffect(s, faces, vp, r, testZ) == ApplyTeardown(d);
    assert ApplyTeardown(d).boundTexture == d.boundTexture;
  }

  /**
   * Apply leaves both matrix stacks as it found them, enables depth testing
   * exactly when asked to, turns depth writes off and texturing on, disables
   * the two client arrays, and adds the face draws; the only other change is
   * the bound texture, which becomes the last drawn face's.
   */
  lemma ApplyOutcome(s: State, faces: seq<Option<Texture>>, vp: Vector3, r: real, testZ: bool)
    ensures var a := ApplyEffect(s, faces, vp, r, testZ);
            var loaded := Loaded(faces);
            a == s.(caps := (if testZ then s.caps + {DepthTest} else s.caps - {DepthTest}) + {Texture2D},
                    depthMask := false, texEnv := Replace,
                    clientArrays := s.clientArrays - {VertexArray, TexCoordArray},
                    draws := s.draws + FaceDraws(faces, |faces|),
                    boundTexture := if loaded == [] then s.boundTexture else Some(loaded[|loaded| - 1]))
    ensures DepthTest in ApplyEffect(s, faces, vp, r, testZ).caps <==> testZ
  {
    ApplyRestoresMatrices(s, faces, vp, r, testZ);
    ApplyFields(s, faces, vp, r, testZ);
    ApplyBindsLastFace(s, faces, vp, r, testZ);
  }

  /** The box half-size Apply(camera) uses: the sides midway between the near and far planes. */
  function CameraRadius(nearDistance: real, farDistance: real): real
  {
    (nearDistance + farDistance) / (1.0 + Sqrt3)
  }

  /**
   * With that half-size, when far >= near * sqrt(3), the sides are no closer
   * than the near plane and the corners no farther than the far plane.
   */
  lemma RadiusKeepsBoxInsideFrustum(nearDistance: real, farDistance: real)
    requires 0.0 <= nearDistance && farDistance >= nearDistance * Sqrt3
    ensures nearDistance <= CameraRadius(nearDistance, farDistance)
    ensures CameraRadius(nearDistance, farDistance) * Sqrt3 <= farDistance
  {
  }

  /** The commands of Apply before its face loop (SkyBox.cpp, lines 153-196). */
  method IssueSetup(dev: Device, vp: Vector3, r: real, testZ: bool)
    modifies dev
    ensures dev.st == ApplySetup(old(dev.st), vp, r, testZ)
  {
    dev.st := PushMatrix(dev.st);
    ghost var pushed := dev.st;
    if testZ {
      dev.st := Enable(dev.st, DepthTest);
    } else {
      dev.st := Disable(dev.st, DepthTest);
    }
    dev.st := DepthMask(dev.st, false);
    ghost var depthSet := dev.st;
    assert depthSet == DepthSetup(pushed, testZ);
    dev.st := MultMatrix(dev.st, Translation(vp));
    dev.st := MultMatrix(dev.st, Scaling(Vector3(r, r, r)));
    ghost var transformed := dev.st;
    assert transformed == BoxTransform(depthSet, vp, r);
    dev.st := Enable(dev.st, Texture2D);
    dev.st := TexEnv(dev.st, Replace);
    dev.st := EnableClientState(dev.st, TexCoordArray);
    dev.st := EnableClientState(dev.st, VertexArray);
    assert dev.st == TextureSetup(transformed);
  }

  /** The commands of Apply after its face loop (SkyBox.cpp, lines 208-211). */
  method IssueTeardown(dev: Device)
    modifies dev
    ensures dev.st == ApplyTeardown(old(dev.st))
  {
    dev.st := DisableClientState(dev.st, VertexArray);
    dev.st := DisableClientState(dev.st, TexCoordArray);
    dev.st := PopMatrix(dev.st);
  }

  class SkyBox {
    /** m_aTextures: one slot per face, null where the face is not drawn. */
    const textures: array<Option<Texture>>

    /**
     * SkyBox(fileName, faceMask): a face's slot is what the program's loader
     * returns for its file when the mask selects it, and null otherwise.
     */
    constructor (files: map<string, TgaFile>, heapLimit: nat, fileName: string, faceMask: bv32 := FaceAllFaces)
      requires |fileName| + 7 < MaxPath
      ensures fresh(textures) && textures.Length == NumFaces
      ensures textures[..] == FaceTextures(files, heapLimit, fileName, faceMask)
    {
      var slots := new Option<Texture>[NumFaces](_ => None);
      var face := 0;
      while face < NumFaces
        invariant 0 <= face <= NumFaces
        invariant forall j :: 0 <= j < face ==> slots[j] == FaceTexture(files, heapLimit, fileName, faceMask, j)
      {
        var t: Option<Texture> := None;
        if Selected(faceMask, face) {
          var path := FacePath(fileName, face);
          t := LoadAsWritten(files, heapLimit, path, GL_CLAMP, GL_LINEAR, GL_LINEAR, 0);
        }
        assert t == FaceTexture(files, heapLimit, fileName, faceMask, face);
        slots[face] := t;
        face := face + 1;
      }
      textures := slots;
    }

    /** SkyBox::Apply(vp, r, bTestZ): draws the box of half-size r centred on vp. */
    method Apply(dev: Device, vp: Vector3, r: real, testZ: bool := false)
      requires textures.Length == NumFaces
      modifies dev
      ensures dev.st == ApplyEffect(old(dev.st), textures[..], vp, r, testZ)
    {
      IssueSetup(dev, vp, r, testZ);
      DrawEachFace(dev);
      IssueTeardown(dev);
    }

    /** Apply's face loop: bind and draw every non-null face, in face order. */
    method DrawEachFace(dev: Device)
      requires textures.Length == NumFaces
      modifies dev
      ensures dev.st == DrawFaces(old(dev.st), textures[..], NumFaces)
    {
      ghost var faces := textures[..];
      var face := 0;
      while face < NumFaces
        invariant 0 <= face <= NumFaces == |faces|
        invariant dev.st == DrawFaces(old(dev.st), faces, face)
      {
        var t := textures[face];
        assert t == faces[face];
        if t.Some? {
          dev.st := BindTexture(dev.st, t.value);
          dev.st := DrawArraysQuads(dev.st, face * 4, 4);
        }
        face := face + 1;
      }
    }

    /** SkyBox::Apply(camera, bTestZ): centred on the camera, sides midway between its near and far planes. */
    method ApplyFromCamera(dev: Device, camera: Camera, testZ: bool := false)
      requires textures.Length == NumFaces
      modifies dev
      ensures dev.st == ApplyEffect(old(dev.st), textures[..], camera.position,
                                    CameraRadius(camera.nearDistance, camera.farDistance), testZ)
    {
      Apply(dev, camera.position, CameraRadius(camera.nearDistance, camera.farDistance), testZ);
    }

    /** ~SkyBox: deletes every slot's texture; the textures released are the loaded ones, in face order. */
    method Dispose() returns (released: seq<Texture>)
      requires textures.Length == NumFaces
      ensures released == Loaded(textures[..])
    {
      released := [];
      var face := 0;
      while face < NumFaces
        invariant 0 <= face <= NumFaces
        invariant released == Loaded(textures[..face])
      {
        assert textures[..face + 1][..face] == textures[..face];
        if textures[face].Some? {
          released := released + [textures[face].value];
        }
        face := face + 1;
      }
      assert textures[..NumFaces] == textures[..];
    }
  }

  /**
   * The demo program's sky box: built from "res/Skybox" with the default
   * face mask, then drawn around the camera with the default depth test
   * (off), so every face is loaded and the box never hides the scene.
   */
  method DemoSky(dev: Device, files: map<string, TgaFile>, heapLimit: nat, vp: Vector3, r: real)
    returns (sky: SkyBox)
    modifies dev
    ensures fresh(sky.textures) && sky.textures.Length == NumFaces
    ensures forall face :: 0 <= face < NumFaces ==>
              sky.textures[face] == LoadAsWritten(files, heapLimit, FacePath("res/Skybox", face),
                                                  GL_CLAMP, GL_LINEAR, GL_LINEAR, 0)
    ensures dev.st == ApplyEffect(old(dev.st), sky.textures[..], vp, r, false)
    ensures DepthTest !in dev.st.caps && !dev.st.depthMask
  {
    sky := new SkyBox(files, heapLimit, "res/Skybox");
    DefaultMaskLoadsEveryFace(files, heapLimit, "res/Skybox");
    sky.Apply(dev, vp, r);
    ApplyOutcome(old(dev.st), sky.textures[..], vp, r, false);
  }

}
