# GlObjects scene helpers in Dafny

This project models four pieces of the GlObjects OpenGL helper library.

- **`GlObjects::Reflection`** (`reflection.dfy`) draws a planar reflection straight into the framebuffer. `Begin` reflects the model-view matrix through the plane. It also clips with user clip plane 0 and flips the front-face winding. `End` undoes all of that and clears the depth buffer. Both happen only while the camera is in front of the plane.
- **`GlObjects::Mirror`** (`mirror.dfy`) renders a reflection into a texture. `Begin` saves the viewport in a four-int array and sets a texture-sized viewport. It pushes an off-axis frustum on the projection stack, whose near plane is `max(camera distance, camera near)`. It pushes the reflected virtual camera on the model-view stack. `End` copies the framebuffer into the texture, then restores the viewport, both stacks and the winding.
- **`GlObjects::TextureLoader`** (`texture_loader.dfy`) loads uncompressed 24- and 32-bit TGA files. The format rule maps a header to a texel size and a pixel format. The image buffer holds `width * height * texelSize` bytes. Every failure is swallowed and returns null. The multi-file mip-mapped loader requires every level to match level 0's pixel format.
- **`GlObjects::SkyBox`** (`skybox.dfy`) covers the `Faces` bit constants, the constructor's mask loop and path naming, `Apply`'s push/draw/pop sequence and the destructor.

The OpenGL device is reduced to the state these objects touch (`gl.dfy`):
- the selected matrix stack;
- the model-view and projection stacks, with matrices kept symbolic as the transforms multiplied into them;
- the viewport, the enabled capabilities and the client arrays;
- clip plane 0, the front face and the depth mask;
- a depth-clear counter and the texture environment;
- the bound texture;
- logs of framebuffer copies and draw calls;
- a count of stack underflows.

Each GL command is a function on that state. `Gl.Device` is the current context, and the classes' methods update it one command at a time. Each method is proved equal to a pure step function (`BeginStep`, `EndStep`, `ApplyEffect`, …). The round-trip and restoration theorems are lemmas about those functions. The operations follow the code as written, with the default arguments the headers declare. The two defects listed under "## Findings" are modelled that way: Begin installs the clip coefficients Reflection.cpp writes, and the sky box's faces come from the program's `Load`. The intended behaviour is defined beside each as-written member, and the intended properties are proved about it.

The vector, plane, quaternion and frame library that the objects call is not part of this model. `geometry.dfy` gives those operations their textbook definitions over exact reals:
- the signed distance `N·P − D`;
- the orthogonal projection;
- rotation by a unit quaternion, with the conjugate as the inverse;
- the frame's Z axis as the rotated unit Z vector.

The reflection matrix and the rotation matrix are kept as symbolic transforms. The TGA reader is reduced to an opened file's header plus a flag saying whether reading its pixels succeeds. The files that can be opened are a map from name to file. Allocation is a heap limit in bytes.

## Model

| member | source | states |
|---|---|---|
| ClipPlaneReflection.SourceClipEquation | Mirror/Reflection.cpp:98 | the coefficients Begin passes, (N, D), keep exactly the points whose signed distance from the plane is ≥ −2D |
| ClipPlaneReflection.ClipEquationOf | Mirror/Reflection.cpp:96-98 | intended half of the finding, not what line 98 installs: the coefficients (N, −D) keep a point exactly when its signed distance from the plane is ≥ 0, i.e. exactly the viewer's side of the mirror, as the comment at line 96 says |
| ClipPlaneReflection.SourceClipKeepsPointBehindMirror | Mirror/Reflection.cpp:98-99 | with the source's (N, D), a mirror 10 units up Z keeps the origin, which lies behind the mirror |
| ClipPlaneReflection.SourceClipCorrectOnlyThroughOrigin | Mirror/Reflection.cpp:98 | the source's equation equals the intended one if and only if the plane passes through the origin |
| ClipPlaneReflection.BeginEffect | Mirror/Reflection.cpp:89-104 | after Begin's commands: model-view selected; exactly one model-view matrix pushed, and it is the old top times the reflection; clip plane 0 installed with the source's coefficients (N, D) relative to that matrix, and enabled; winding CW; nothing else changed |
| ClipPlaneReflection.EndEffect | Mirror/Reflection.cpp:140-154 | after End's commands: clip plane 0 disabled; depth mask on and the depth buffer cleared once; model-view selected and popped once (an underflow is counted if only one matrix is left); winding CCW; nothing else changed |
| ClipPlaneReflection.BeginStep | Mirror/Reflection.cpp:85-113 | Begin reflects if and only if the camera's signed distance is > 0, and then applies BeginEffect (clip coefficients (N, D) as line 98 writes them); otherwise the device is untouched; the returned flag is the object's flag |
| ClipPlaneReflection.BeginClipsAtShiftedPlane | Mirror/Reflection.cpp:96-100 | while reflecting, clip plane 0 is enabled and keeps exactly the points at signed distance ≥ −2D; it equals the intended equation if and only if D = 0 |
| ClipPlaneReflection.EndStep | Mirror/Reflection.cpp:136-159 | End is a no-op when idle; when reflecting it applies EndEffect; afterwards the object is idle |
| ClipPlaneReflection.EndIdempotent | Mirror/Reflection.cpp:136-158 | a second End changes nothing |
| ClipPlaneReflection.BeginEndRoundTrip | Mirror/Reflection.cpp:89-154 | a successful Begin followed by End restores both stacks and everything else, except the selected matrix (model-view), the winding (CCW), clip plane 0 (off, the source's (N, D) equation kept) and the one depth clear |
| ClipPlaneReflection.BeginEndRestoresFrameState | Mirror/Reflection.cpp:81-160 | from a state with model-view selected, CCW winding and clip plane 0 off, Begin then End restores the whole device except the stored clip equation and the depth buffer, and clears depth exactly when Begin succeeded |
| ClipPlaneReflection.Reflection.constructor | Mirror/Reflection.cpp:44-49 | requires a unit normal; the plane is (normal, normal·position), which contains the position; not reflecting |
| ClipPlaneReflection.Reflection.Begin | Mirror/Reflection.cpp:81-114 | with the object idle: the flag, the returned value and the new device state are those of BeginStep; it issues the (N, D) coefficients of line 98 |
| ClipPlaneReflection.Reflection.End | Mirror/Reflection.cpp:132-160 | the flag and the device state become those of EndStep |
| ClipPlaneReflection.ReflectionPass | Mirror/Test/main.cpp:424-427 | one frame: the public plane is replaced, then Begin/End; the result says whether the camera was in front, and the device is as before apart from the clip equation and depth buffer |
| Geometry.PlaneThroughContainsPosition | Mirror/Reflection.cpp:45 | the plane built from a normal and a point contains the point |
| Geometry.ProjectLiesOnPlane | Mirror/Mirror.cpp:146 | projecting onto a plane with a unit normal lands on the plane |
| Geometry.FrameZAxisIsRotatedZAxis | Mirror/Mirror.cpp:122 | the frame's Z axis is the unit Z vector rotated by the frame's orientation |
| Geometry.RotateZero | Mirror/Mirror.cpp:146 | rotating the zero vector gives the zero vector |
| Geometry.DistanceAlongNormal | Mirror/Mirror.cpp:126-146 | moving k along a plane's unit normal from a point on the plane gives signed distance k, and projects back to that point |
| Gl.ViewportFields | Mirror/Mirror.h:65 | the saved viewport record is exactly four ints |
| Gl.PopUndoesPush | Mirror/Reflection.cpp:90-150 | a push, any change to the pushed matrix, then a pop gives back the original device state |
| RenderToTextureMirror.CaptureTexture | Mirror/Mirror.cpp:54-59 | the capture texture is tw × th, RGB, clamped, and holds no image data |
| RenderToTextureMirror.MirrorPlaneContainsCentre | Mirror/Mirror.cpp:122-124 | the mirror plane's normal is the frame's Z axis, and the mirror's centre lies on it |
| RenderToTextureMirror.UnrotatedMirrorFacesZ | Mirror/Mirror.cpp:42 | an unrotated mirror's normal is (0, 0, 1) |
| RenderToTextureMirror.FrustumBounds | Mirror/Mirror.cpp:148-150 | right − left = w, top − bottom = h; the window is centred on the in-plane offset; near ≥ both the camera distance and the camera's near distance, and equals one of them; far = the camera's far distance |
| RenderToTextureMirror.MirrorFrustum | Mirror/Mirror.cpp:138-150 | the frustum Begin builds: a w × h window centred on the camera's in-plane offset; near ≥ both the camera's distance from the mirror and its near distance, and equal to one of them; far = the camera's far distance |
| RenderToTextureMirror.CentredFrustumIsSymmetric | Mirror/Mirror.cpp:148-149 | a zero offset gives a symmetric window |
| RenderToTextureMirror.CameraOnAxisSeesCentredWindow | Mirror/Mirror.cpp:126-150 | a camera k > 0 along the mirror's unit normal: its distance is k, its offset is zero and the frustum is the centred one |
| RenderToTextureMirror.BeginEffect | Mirror/Mirror.cpp:136-171 | after Begin's commands: viewport (0, 0, texture width, height); exactly one projection matrix pushed (identity times the frustum) and one model-view matrix pushed (inverse rotation, camera translation, reflection); model-view selected; CW; nothing else changed |
| RenderToTextureMirror.EndEffect | Mirror/Mirror.cpp:207-237 | after End's commands: 2D/1D texturing and lighting off; the texture bound; one copy of the texture's size from the origin into it; viewport = the four saved ints; each stack popped once, or left as it is when it holds a single matrix, with one underflow counted per such stack; depth mask on and one depth clear; model-view selected; CCW; nothing else changed |
| RenderToTextureMirror.BeginPushesVirtualCamera | Mirror/Mirror.cpp:137-171 | while reflecting, the projection stack is the caller's plus the mirror's frustum, the model-view stack is the caller's plus the reflected virtual camera (inverse rotation, camera translation, reflection), the winding is CW and the viewport is the texture's |
| RenderToTextureMirror.BeginStep | Mirror/Mirror.cpp:120-181 | Begin reflects if and only if the camera's distance from the plane through the frame's translation along its Z axis is > 0; if so it saves the viewport and applies BeginEffect with the computed frustum; otherwise nothing changes |
| RenderToTextureMirror.EndStep | Mirror/Mirror.cpp:203-240 | End is a no-op when idle; when reflecting it applies EndEffect with the saved viewport; afterwards the object is idle |
| RenderToTextureMirror.EndIdempotent | Mirror/Mirror.cpp:203-239 | a second End changes nothing |
| RenderToTextureMirror.EndUndoesBegin | Mirror/Mirror.cpp:136-237 | End after Begin's commands restores the viewport and both stacks exactly; what remains changed is the selected matrix, the winding, the three capabilities End disables, the bound texture, the one copy and the one depth clear |
| RenderToTextureMirror.BeginEndRoundTrip | Mirror/Mirror.cpp:130-239 | the same for a successful Begin/End pair on the object, with the saved record equal to the caller's viewport |
| RenderToTextureMirror.BeginEndRestoresFrameState | Mirror/Mirror.cpp:120-241 | from a state with model-view selected, CCW winding, and texturing and lighting off, Begin then End restores the whole device except the bound texture, the copy log and the depth buffer |
| RenderToTextureMirror.IssueBeginEffect | Mirror/Mirror.cpp:136-171 | the command sequence yields BeginEffect |
| RenderToTextureMirror.Mirror.constructor | Mirror/Mirror.cpp:48-63 | stores the frame (unit scale), w and h; not reflecting; a fresh four-int record; binds the tw × th texture and defines it by one RGB copy of that size |
| RenderToTextureMirror.Mirror.Begin | Mirror/Mirror.cpp:120-181 | with the object idle: the flag, the saved record and the device become those of BeginStep, and the returned value is the flag |
| RenderToTextureMirror.Mirror.End | Mirror/Mirror.cpp:198-241 | the flag, the saved record and the device become those of EndStep |
| RenderToTextureMirror.MirrorPass | Mirror/Test/main.cpp:434-437 | one frame: the public frame is re-oriented, then Begin/End; the saved record holds the caller's viewport, and the device is as before apart from the capture |
| TgaTextureLoader.TexelLayout | TextureLoader/TextureLoader.cpp:71-91 | true colour, 32-bit, 8-bit alpha gives (4, BGRA); true colour, 24-bit, no alpha gives (3, BGR); every other header is rejected (all if and only if); the texel size is depth / 8 |
| TgaTextureLoader.ReadPixels | TextureLoader/TextureLoader.cpp:101-109 | the buffer exists if and only if width·height·texelSize bytes can be allocated and the read succeeds; it then holds exactly that many bytes of the named file |
| TgaTextureLoader.LoadAsWritten | TextureLoader/TextureLoader.cpp:53-118 | the program's Load: returns a texture if and only if the file opens, its format is accepted, the buffer is allocated and the read succeeds; the texture has the file's size and format and the caller's wrap, filters and id, but no pixels |
| TgaTextureLoader.DefaultLoadParameters | TextureLoader/TextureLoader.h:40-59 | called with only the file name(s), the plain loader gives GL_REPEAT, GL_LINEAR, GL_LINEAR, id 0, and both mip-mapped loaders give GL_REPEAT, GL_LINEAR_MIPMAP_LINEAR, GL_LINEAR, id 0 |
| TgaTextureLoader.Load | TextureLoader/TextureLoader.cpp:95-108 | intended half of the finding, not the program's Load: it succeeds under the same conditions and its texture also holds the pixels read |
| TgaTextureLoader.LoadAsWrittenDropsPixels | TextureLoader/TextureLoader.cpp:95-108 | the source's Load succeeds exactly when the intended one does, and its texture is the intended one without pixels |
| TgaTextureLoader.LoadAsWrittenLosesReadPixels | TextureLoader/TextureLoader.cpp:95-108 | a 1 × 1 24-bit file that reads correctly: the source's texture has no pixels, the intended one has the 3 bytes read |
| TgaTextureLoader.MipMappedTexture.constructor | TextureLoader/TextureLoader.cpp:183-186 | a texture of the given size, format and parameters, with no levels yet |
| TgaTextureLoader.MipMappedTexture.AddMipMap | TextureLoader/TextureLoader.cpp:298 | appends one level and changes nothing else |
| TgaTextureLoader.MipMappedTexture.BuildAllMipMaps | TextureLoader/TextureLoader.cpp:199 | records the image all levels are generated from and changes nothing else |
| TgaTextureLoader.LoadMipMappedSpec | TextureLoader/TextureLoader.cpp:141-208 | the single-file mip-mapped loader succeeds if and only if the file opens, its format is accepted, the buffer is allocated and the read succeeds; then it has the file's size, no added levels, and all levels generated from the file's width·height·texelSize bytes |
| TgaTextureLoader.LoadMipMappedAgreesWithLoad | TextureLoader/TextureLoader.cpp:141-208 | the single-file mip-mapped loader fails exactly when the intended Load fails; on success it generated its levels from exactly the pixels Load delivers, with the same size and format |
| TgaTextureLoader.LoadMipMapped | TextureLoader/TextureLoader.cpp:141-208 | null exactly when the single-file loader fails; otherwise a fresh texture equal to it |
| TgaTextureLoader.LevelImage | TextureLoader/TextureLoader.cpp:305-326 | a later level loads if and only if its file opens, is true colour with level 0's depth and alpha depth, its buffer (sized with level 0's texel size) is allocated and the read succeeds |
| TgaTextureLoader.LaterLevels | TextureLoader/TextureLoader.cpp:303-329 | the levels the loop has added after level 0, up to level k − 1: k − 1 of them whenever it has not failed |
| TgaTextureLoader.LaterLevelsSucceedIff | TextureLoader/TextureLoader.cpp:303-329 | the loop gets through level k − 1 if and only if every level 1 .. k − 1 loads |
| TgaTextureLoader.LaterLevelsInOrder | TextureLoader/TextureLoader.cpp:303-329 | the loop adds k − 1 levels, numbered 1 .. k − 1 in order, each holding its own file's pixels |
| TgaTextureLoader.LoadLevelsSpec | TextureLoader/TextureLoader.cpp:232-338 | a texture from the multi-file loader has level 0's file size and format, one level per file, no generated levels, and level 0 holds the first file's pixels |
| TgaTextureLoader.LoadLevelsSucceedIff | TextureLoader/TextureLoader.cpp:232-338 | the multi-file loader returns a texture if and only if level 0 loads as Load would and every later level loads consistently with it |
| TgaTextureLoader.LoadLevelsShape | TextureLoader/TextureLoader.cpp:285-329 | a loaded texture has one level per file, numbered 0 .. n − 1 in order; every file is true colour with level 0's depth and alpha depth, and each level holds width·height·texelSize bytes of its own file |
| TgaTextureLoader.InconsistentLevelGivesNull | TextureLoader/TextureLoader.cpp:311-316 | a later level whose format differs from level 0's makes the whole load null |
| TgaTextureLoader.LoadMipMappedLevels | TextureLoader/TextureLoader.cpp:232-338 | requires at least one name; null exactly when the multi-file loader fails; otherwise a fresh texture equal to it |
| SkyBoxFaces.FaceConstantsAreBits | SkyBox/SkyBox.h:38-49 | FACE_FRONT .. FACE_DOWN are 1 << 0 .. 1 << 5, and the suffix table has NUM_FACES entries in the same order |
| SkyBoxFaces.CombinedMasks | SkyBox/SkyBox.h:45-47 | FACE_ALL_FACES is the OR of the six bits; FACE_TOP_FACES is all but FACE_DOWN; FACE_SIDE_FACES is all but FACE_UP and FACE_DOWN |
| SkyBoxFaces.CombinedMaskSelection | SkyBox/SkyBox.h:45-47 | FACE_ALL_FACES selects every face; FACE_TOP_FACES selects exactly the faces other than 5; FACE_SIDE_FACES selects exactly faces 0 .. 3 |
| SkyBoxFaces.DefaultMaskLoadsEveryFace | SkyBox/SkyBox.h:52 | with the constructor's default mask FACE_ALL_FACES, every face's slot is the program's Load of that face's file |
| SkyBoxFaces.FacePath | SkyBox/SkyBox.cpp:67-71 | the path is the base name, then the face's suffix, then ".tga" (length base + 7) |
| SkyBoxFaces.FacePathsDistinct | SkyBox/SkyBox.cpp:55-71 | different faces load different files |
| SkyBoxFaces.FaceTextureLoaded | SkyBox/SkyBox.cpp:50-78 | a face's slot (FaceTexture, built on the program's Load) holds a texture if and only if the mask selects the face and its file loads; the texture is clamped, has that file's size and format, and holds no pixels; a failed load leaves the slot null |
| SkyBoxFaces.IntendedFaceHoldsItsFile | SkyBox/SkyBox.cpp:73 | with the intended Load a slot would be non-null under the same conditions and hold its own file's pixels; the program's slot is that texture without them |
| SkyBoxFaces.FaceDrawsAreLoadedQuads | SkyBox/SkyBox.cpp:198-206 | every draw of the face loop is the quad face·4 .. face·4+3 of a non-null face, drawn with that face's texture |
| SkyBoxFaces.FaceDrawsCoverLoaded | SkyBox/SkyBox.cpp:198-206 | every non-null face is drawn |
| SkyBoxFaces.FaceDrawsInFaceOrder | SkyBox/SkyBox.cpp:198-206 | the faces are drawn in increasing index order, one per non-null face, with the non-null textures in face order |
| SkyBoxFaces.DrawnFacesAreSelectedFiles | SkyBox/SkyBox.cpp:50-206 | for a sky box built from a mask, every drawn face is selected by the mask and textured with the program's Load of its own file, of that file's size; and every selected face whose file loads is drawn |
| SkyBoxFaces.DrawFacesOnlyDraws | SkyBox/SkyBox.cpp:198-206 | the face loop only appends the face draws and changes the bound texture |
| SkyBoxFaces.ApplySetup | SkyBox/SkyBox.cpp:153-196 | one push of the current matrix times the box transform; depth test on if and only if bTestZ; depth writes off; 2D texturing on, texture environment REPLACE, both client arrays on; nothing else changed |
| SkyBoxFaces.ApplyTeardown | SkyBox/SkyBox.cpp:208-211 | both client arrays off, then one pop |
| SkyBoxFaces.ApplyRestoresMatrices | SkyBox/SkyBox.cpp:153-211 | Apply pushes once and pops once: the selected matrix and both stacks end as they began, with no underflow |
| SkyBoxFaces.ApplyAfterSetup | SkyBox/SkyBox.cpp:198-211 | the face loop and the teardown keep what the setup established, apart from the client arrays and the draws |
| SkyBoxFaces.ApplyFields | SkyBox/SkyBox.cpp:151-212 | what Apply changes besides the matrices, and the state it leaves alone |
| SkyBoxFaces.ApplyBindsLastFace | SkyBox/SkyBox.cpp:198-206 | after Apply the bound texture is the last non-null face's, and unchanged when every face is null |
| SkyBoxFaces.ApplyOutcome | SkyBox/SkyBox.cpp:151-212 | the whole new device state is the old one with depth test as asked, 2D texturing on, depth writes off, REPLACE, client arrays off, the face draws appended, and the last drawn face's texture bound (the old binding when none is drawn) |
| SkyBoxFaces.RadiusKeepsBoxInsideFrustum | SkyBox/SkyBox.cpp:137-139 | with r = (n + f) / (1 + √3) and f ≥ n·√3, the sides are no closer than n and the corners no farther than f |
| SkyBoxFaces.IssueSetup | SkyBox/SkyBox.cpp:153-196 | the command sequence yields ApplySetup |
| SkyBoxFaces.IssueTeardown | SkyBox/SkyBox.cpp:208-211 | the command sequence yields ApplyTeardown |
| SkyBoxFaces.SkyBox.constructor | SkyBox/SkyBox.cpp:46-80 | the mask defaults to FACE_ALL_FACES, as SkyBox.h line 52 declares; a fresh array of NUM_FACES slots; slot i is what the program's Load returns for face i's file when the mask selects it (a texture without pixels, FaceTextureLoaded), and null otherwise |
| SkyBoxFaces.SkyBox.DrawEachFace | SkyBox/SkyBox.cpp:198-206 | the face loop's commands yield DrawFaces of the slots |
| SkyBoxFaces.SkyBox.Apply | SkyBox/SkyBox.cpp:151-212 | bTestZ defaults to false, as SkyBox.h line 59 declares; the device becomes ApplyEffect of the slots, so ApplyOutcome and the face-draw lemmas hold of it |
| SkyBoxFaces.SkyBox.ApplyFromCamera | SkyBox/SkyBox.cpp:117-125 | bTestZ defaults to false, as SkyBox.h line 56 declares; Apply centred on the camera with r = (near + far) / (1 + Sqrt3) |
| SkyBoxFaces.DemoSky | Mirror/Test/main.cpp:212-581 | the demo's sky box, built from "res/Skybox" with the default mask (line 212) and drawn with the default bTestZ (line 581): every slot is the program's Load of its face's file, the device becomes ApplyEffect with depth testing off, and depth writes are off |
| SkyBoxFaces.SkyBox.Dispose | SkyBox/SkyBox.cpp:88-94 | the textures released are exactly the non-null slots, in face order |

## Left out

- The source's nested or unpaired Begin (a second Begin pushes again) is not specified: `Reflection.Begin` and `Mirror.Begin` require the object to be idle.
- `Mirror::Apply`, the mirror's material and the mirror's destructor draw or free objects with no state the model tracks.
- What a framebuffer copy or a texture upload puts into texels. Only the copy's target, size and origin are recorded. The reflection and rotation matrices stay symbolic transforms.
- Floating-point rounding: all quantities are exact reals. This covers the sign test on the camera distance, the frustum offsets and the sky box radius. `Sqrt3` (skybox.dfy) is a decimal approximation of `Math::SQRT_OF_3`, whose value is not part of this model; the source also narrows that constant to `float`, which the model does not.
- RenderToTextureMirror.Mirror.constructor: Glx::Texture is not part of this model. `new Glx::Texture(tw, th, GL_CLAMP)` is assumed to bind the new texture and to give it RGB format, GL_LINEAR filters and id 0; the model writes that as a BindTexture followed by the copy.
- The Math, Glx and TgaFile libraries are not part of this model. Signed distance, projection, quaternion rotation and inverse, and the frame's Z axis use their standard definitions. GL matrix-stack overflow is not modelled (underflow is).
- A TgaFile constructor that throws (a file that cannot be opened) is a name missing from the file map. The header fields and the outcome of Read are inputs.
- Allocation failures other than the image buffer are not modelled. Texture and object allocation (`new` returning null or throwing) always succeeds.
- TgaTextureLoader.BufferSize: the buffer size is computed over unbounded integers. The source's `int` product can overflow for very large images.
- TgaTextureLoader.LoadMipMappedLevels: like the source, it does not check that level i has the halved dimensions of level i − 1. The model only records each level's own pixels.
- SkyBoxFaces.SkyBox.constructor: `SafeStrcpy`/`SafeStrcat` truncation at `_MAX_PATH` is replaced by the precondition that the full path fits. The check for the `GL_EXT_bgra` extension is left out.
- The source draws with vertex and texture-coordinate arrays. Array contents are not modelled: a draw records its first vertex, its count and the bound texture.

## Findings

| source | as written | input that shows it | evidently intended | confidence | as-written member | corrected member |
|---|---|---|---|---|---|---|
| Mirror/Reflection.cpp:98 | clip plane 0 is given (N.x, N.y, N.z, D). GL keeps a x + b y + c z + d ≥ 0, but the plane holds the points with N·P = D, so the kept half-space is N·P ≥ −D | plane N = (0, 0, 1), D = 10 (the demo program's mirror height); the origin, 10 units behind the mirror, is kept, so geometry behind the mirror is reflected in front of it | (N.x, N.y, N.z, −D): it keeps exactly the points with signed distance ≥ 0, i.e. it "clips everything behind the reflection" | not executed; high for D ≠ 0 | ClipPlaneReflection.SourceClipKeepsPointBehindMirror | ClipPlaneReflection.ClipEquationOf |
| TextureLoader/TextureLoader.cpp:95-108 | `Load` builds the texture from `qaImageData.get()` before the buffer is allocated (line 103) and read (line 108), so the texture is created without pixels and the pixels read are discarded | a 1 × 1, 24-bit true-colour file whose read succeeds: the source returns a texture without image data | build the texture after the read, from the buffer's pixels, as `LoadMipMapped` does with `BuildAllMipMaps` | not executed; high | TgaTextureLoader.LoadAsWrittenLosesReadPixels | TgaTextureLoader.Load |
