# A verified model of the asg4 WebGL scene

The scene is a small WebGL page. It has a textured ground box, a sky box,
a red UV sphere and a small marker box at the light's position. A
fragment shader lights everything with a point light, an optional
spotlight and a light-colour tint. A first-person camera moves with the
W/S/A/D/Q/E/O/P keys. Dragging the mouse turns the whole world.

This project models the logic under the graphics calls:

- **Sphere geometry** (`sphere.js`, module `SphereGeometry`). This covers:
  - the UV-sphere builder: its nested loop, the three float arrays, and
    the write-once static cache guarded by `positionBuffer`;
  - the constructor defaults;
  - `drawSphere`: the flat-colour upload, which throws when `baseColor` is
    undefined, and the strip loop.
- **Box geometry** (`Cube.js`, module `CubeGeometry`). This covers:
  - the three 36-vertex tables;
  - the write-once buffer cache;
  - the constructor default;
  - `drawCube`.
- **Camera** (`camera.js`). `CameraAlgebra` holds the operators as
  functions on `(eye, at, up)` values, with their round trips, as lemmas.
  `Cameras.Camera` is the object itself:
  - every method updates `eye`, `at` and `up` step by step;
  - every method is proved to end in the state the matching `CameraAlgebra`
    function gives.
- **Fragment shader** (`asg4.js`, module `Shading`). This is a pure
  function from uniforms and varyings to `gl_FragColor`.
- **Page logic** (`asg4.js`, module `SceneState`). This covers:
  - the globals;
  - `tick`'s light animation;
  - the mouse-drag handlers;
  - the toggles and sliders;
  - the key dispatch;
  - what `renderAllShapes` draws.

The WebGL context (module `Gl`) is a recorder, not a renderer:

- `createBuffer` hands out fresh ids.
- Uploads, attribute bindings, uniform writes and draw calls are appended
  to a log.
- Each draw event carries the uniforms in force when it was issued.

Some functions are transcendental or belong to the matrix library:
sin/cos, `normalize`, axis-angle `setRotate`·`multiplyVector3`, `reflect`,
`pow` and texture sampling. These are function-valued parameters
(`Trig`, `MatrixLib`, `ShaderLib`). A lemma that needs a law of one of
them requires it as a predicate, for example `CameraAlgebra.NormalizeOdd`:
normalize(-v) = -normalize(v).

## Model

| member | source | states |
|---|---|---|
| SphereGeometry.RingVertex | sphere.js:30-60 | The vertex at polar step k and longitude step j. Its normal is (sin φ cos θ, cos φ, sin φ sin θ) with φ = πk/latCount and θ = 2πj/longCount. Its position is radius times that normal and its UV is (j/longCount, k/latCount). `RingVertexWellFormed` and `MeshVertexAt` are proved about it. |
| SphereGeometry.SphereMesh | sphere.js:30-62 | The vertices of the first m bands in push order: for each band and each step j from 0 to longCount, the vertex on ring i and then the one on ring i+1. `MeshSize`, `MeshVertexAt` and `MeshWellFormed` are proved about it. |
| SphereGeometry.Mesh | sphere.js:25-62 | The whole mesh: all latCount bands. It is empty when latCount = 0, whatever longCount is, because the outer loop never runs. `BuildSphereArrays` is proved to build exactly its data. |
| SphereGeometry.BuildSphereArrays | sphere.js:25-62 | The nested band loop leaves `positions`, `normals` and `uvs` equal to the flattened position, normal and UV data of `Mesh`. `Mesh` is the vertex sequence: for each band i, and for each longitude step j from 0 to longCount, the vertex on ring i and then the vertex on ring i+1. |
| SphereGeometry.PushBand | sphere.js:35-61 | One pass of the inner loop appends exactly the 2·(longCount+1) vertices of band i to the three arrays. |
| SphereGeometry.MeshSize | sphere.js:30-62 | m bands hold m·(longCount+1)·2 vertices. |
| SphereGeometry.BuiltSizes | sphere.js:30-82 | The mesh has (longCount+1)·2·latCount vertices. Positions and normals hold 3 floats per vertex and UVs 2, so the arrays agree with `numVertices`. |
| SphereGeometry.MeshVertexAt | sphere.js:32-60 | Vertex i·(longCount+1)·2 + 2j is on ring i with UV (j/longCount, i/latCount). The next vertex is on ring i+1 with UV (j/longCount, (i+1)/latCount). |
| SphereGeometry.BandPrefixAt | sphere.js:35-60 | Inside a band, step j's two vertices sit at offsets 2j and 2j+1. |
| SphereGeometry.MeshWellFormed | sphere.js:30-60 | Every vertex of the mesh has both UV components in [0, 1]. Its position is exactly radius times its normal. |
| SphereGeometry.RingVertexWellFormed | sphere.js:37-60 | For 0 ≤ k ≤ latCount and 0 ≤ j ≤ longCount, a ring vertex has UV in the unit square and position radius·normal. |
| SphereGeometry.BandWellFormed | sphere.js:35-61 | Every vertex a band emits is well formed in the same sense. |
| SphereGeometry.MeshDataWellFormed | sphere.js:44-67 | In the uploaded float arrays, position float c is radius times normal float c, and every UV float lies in [0, 1]. |
| SphereGeometry.PositionFloatScaled | sphere.js:44-56 | Position float c is radius times normal float c, for every vertex sequence of well-formed vertices. |
| SphereGeometry.VertexFloatsScaled | sphere.js:44-56 | Vertex k's three position floats are radius times its three normal floats. |
| SphereGeometry.UVFloatInUnitRange | sphere.js:47-60 | Every UV float of well-formed vertices is in [0, 1]. |
| SphereGeometry.PushVertex | sphere.js:44-49 | Pushing one vertex appends its 3 position floats, 3 normal floats and 2 UV floats. |
| SphereGeometry.SphereStatics.InitSphereGeometry | sphere.js:21-83 | If `positionBuffer` is already set, the call changes nothing, so the first call's geometry wins. It needs longCount > 0 only when some band is built (latCount > 0). Otherwise it creates three fresh buffers with the mesh for the given parameters uploaded, and sets `numVertices` to (longCount+1)·2·latCount. No uniform changes. |
| SphereGeometry.SphereStatics.StoreAndUpload | sphere.js:65-80 | The three arrays are kept. Buffers n, n+1 and n+2 are created and then receive positions, normals and UVs, in that order. |
| SphereGeometry.Sphere.constructor | sphere.js:3-18 | Defaults are radius 1.0, 20 latitude and 20 longitude segments. The selector is -2 and `baseColor` is unset. Geometry init runs with exactly these parameters. |
| SphereGeometry.Sphere.DrawSphere | sphere.js:86-124 | It binds the three buffers and sets `u_whichTexture`. It uploads `baseColor` only for selector -2, and throws a TypeError if `baseColor` is unset (the message text is a stand-in, `UndefinedBaseColor`). It then issues `latSegments` triangle-strip draws with the current uniforms. |
| SphereGeometry.StripDrawAt | sphere.js:119-123 | Strip i starts at i·(longSegments+1)·2 and draws (longSegments+1)·2 vertices. |
| SphereGeometry.StripsInBounds | sphere.js:119-123 | Every strip lies inside [0, latSegments·w). |
| SphereGeometry.StripsDisjoint | sphere.js:119-123 | No vertex index is drawn by two different strips. |
| SphereGeometry.StripsCover | sphere.js:119-123 | Every index below latSegments·w is drawn by strip index / w. |
| SphereGeometry.StripsPartitionMesh | sphere.js:119-123 | When numVertices = latSegments·w, the strips are in bounds, pairwise disjoint and cover [0, numVertices). |
| CubeGeometry.CubeTableSizes | Cube.js:17-95 | Each table has 36 vertices: 108 position floats, 72 UV floats and 108 normal floats. The draw count 36 equals the vertex count. |
| CubeGeometry.CubeFaceLayout | Cube.js:17-95 | Vertex k belongs to face k/6, at position k mod 6 within it, in all three tables. |
| CubeGeometry.FaceOnPlane | Cube.js:17-41 | The six positions of face f lie on its plane and have coordinates in {0, 1}. |
| CubeGeometry.CubeVerticesOnFacePlanes | Cube.js:17-41 | Every vertex lies on its face's plane (front z=0, back z=1, left x=0, right x=1, top y=1, bottom y=0) and every coordinate is 0 or 1. |
| CubeGeometry.CubeNormalsPerFace | Cube.js:71-95 | The normal triple is constant within each face, and the six face triples are pairwise distinct. |
| CubeGeometry.CubeUVsRepeatPattern | Cube.js:43-67 | Every face repeats the UV pattern (0,0),(1,0),(1,1),(0,0),(1,1),(0,1), so every UV component is 0 or 1. |
| CubeGeometry.CubeStatics.InitCubeGeometry | Cube.js:11-109 | If `positionBuffer` is set, the call creates and uploads nothing. Otherwise it creates three fresh buffers receiving the position, UV and normal tables. |
| CubeGeometry.Cube.constructor | Cube.js:3-9 | The selector is -2, then the one-time geometry init runs. |
| CubeGeometry.Cube.DrawCube | Cube.js:111-135 | It binds position, UV and normal buffers, sets `u_whichTexture` to the selector, then draws triangles from 0 with count 36. Only the selector changes among the uniforms. |
| CameraAlgebra.MoveForward | camera.js:36-42 | eye and at both move by speed·normalize(at − eye), and up is kept. `ForwardBackwardUndo` and `MovesKeepView` are proved about it, and `Cameras.Camera.MoveForward` is proved to compute it. |
| CameraAlgebra.MoveBackward | camera.js:44-50 | eye and at both move by speed·normalize(eye − at), and up is kept. `ForwardBackwardUndo` is proved about it. |
| CameraAlgebra.MoveLeft | camera.js:52-60 | eye and at both move by speed·normalize(up × normalize(at − eye)). `LeftRightUndo` is proved about it. |
| CameraAlgebra.MoveRight | camera.js:62-70 | eye and at both move by speed·normalize(normalize(at − eye) × up). `LeftRightUndo` is proved about it. |
| CameraAlgebra.PanLeft | camera.js:72-81 | at becomes eye + Rot(alpha, up)(at − eye), and eye and up are kept. `PanUndo` and `PanKeepsDistance` are proved about it. |
| CameraAlgebra.PanRight | camera.js:83-85 | It is panLeft(−alpha). `PanUndo` is proved about it. |
| CameraAlgebra.LookUp | camera.js:87-99 | The view vector and up are both turned by Rot(alpha, r), with r = normalize((at − eye) × up), and eye is kept. `LookUpKeepsRightAxis`, `LookUpThenBack` and `LookKeepsDistance` are proved about it. |
| CameraAlgebra.LookDown | camera.js:101-103 | It is lookUp(−alpha). `LookUndo` is proved about it. |
| CameraAlgebra.MovesKeepView | camera.js:36-70 | Each of the four moves adds the same vector to eye and at, so at − eye and up are unchanged. |
| CameraAlgebra.ForwardBackwardUndo | camera.js:36-50 | Given normalize(−v) = −normalize(v), moving back by s undoes moving forward by s, and the other way round. |
| CameraAlgebra.LeftRightUndo | camera.js:52-70 | Given the same law, moving right undoes moving left, and the other way round. The two steps are opposite vectors, because up×f and f×up are. |
| CameraAlgebra.PanUndo | camera.js:72-85 | Given that rotating by −a undoes rotating by a about the same axis, and that up is non-zero, panRight(a) undoes panLeft(a), and the other way round. |
| CameraAlgebra.PanKeepsDistance | camera.js:72-81 | panLeft keeps eye and up. If rotations keep lengths, it also keeps the eye–at distance. |
| CameraAlgebra.LookUpKeepsRightAxis | camera.js:87-99 | lookUp leaves the right axis normalize((at−eye)×up) unchanged, when view×up is non-zero. |
| CameraAlgebra.LookUpThenBack | camera.js:87-99 | Whenever view×up is non-zero, lookUp(−a) undoes lookUp(a). |
| CameraAlgebra.LookUndo | camera.js:87-103 | lookDown(a) undoes lookUp(a), and the other way round. |
| CameraAlgebra.LookKeepsDistance | camera.js:87-99 | lookUp keeps eye. If rotations keep lengths, it also keeps the eye–at distance and the length of up. |
| Cameras.NewCamera | camera.js:6-21 | A missing canvas is rejected with "Camera constructor needs a valid canvas.". Otherwise the camera has fov 60, eye (0,2,5), at (0,2,0) and up (0,1,0). Its view matrix is built from them and its projection is perspective(60, width/height, 0.1, 1000). |
| Cameras.Camera.constructor | camera.js:11-20 | This is the initial state above, for a present canvas. |
| Cameras.Camera.UpdateViewMatrix | camera.js:23-29 | The view matrix is the look-at of the current eye, at and up. |
| Cameras.Camera.UpdateProjectionMatrix | camera.js:31-34 | The projection is perspective(fov, width/height, 0.1, 1000). |
| Cameras.Camera.MoveForward | camera.js:36-42 | With default speed 0.2, the new state is `CameraAlgebra.MoveForward` of the old one, and the view matrix is in sync. |
| Cameras.Camera.MoveBackward | camera.js:44-50 | The new state is `CameraAlgebra.MoveBackward` of the old one, and the view matrix is in sync. |
| Cameras.Camera.MoveLeft | camera.js:52-60 | The new state is `CameraAlgebra.MoveLeft` of the old one, and the view matrix is in sync. |
| Cameras.Camera.MoveRight | camera.js:62-70 | The new state is `CameraAlgebra.MoveRight` of the old one, and the view matrix is in sync. |
| Cameras.Camera.PanLeft | camera.js:72-81 | With default 5°, the new state is `CameraAlgebra.PanLeft`: eye and up are kept, at = eye + Rot(a, up)(at − eye). |
| Cameras.Camera.PanRight | camera.js:83-85 | It is exactly panLeft(−a). |
| Cameras.Camera.LookUp | camera.js:87-99 | The new state is `CameraAlgebra.LookUp`: one rotation about normalize(view×up) is applied to both the view and up, and eye is kept. There is no pitch clamp. |
| Cameras.Camera.LookDown | camera.js:101-103 | It is exactly lookUp(−a). |
| Cameras.InitialStateNonDegenerate | camera.js:12-14 | The initial view (0,0,−5) is not parallel to up, so the look round trips apply from the start. |
| Shading.Shade | asg4.js:55-116 | The fragment shader's `main`, step by step. `LightOffPassesBaseColor`, `AlphaIsBaseAlpha`, `ShadeIsPhong`, `SpotOffIsPointLight`, `SpotlightAdds`, `SpotOutsideConeChangesNothing`, `SpotlightNeverDarkens` and `NormalViewIsLit` are proved about it. |
| Shading.BaseColor | asg4.js:56-72 | The base colour in the shader's priority order: the normal colour when u_showNormal = 1, then the selector table. `SelectorTable` and `NormalViewIgnoresMaterial` are proved about it. |
| Shading.SelectorTable | asg4.js:57-72 | When u_showNormal ≠ 1, the base colour by selector is: −2 gives u_FragColor, −1 gives (uv, 1, 1), 1 and 2 sample their textures, and anything else, including 0, gives (1, 0.2, 0.2, 1). |
| Shading.NormalViewIgnoresMaterial | asg4.js:57-58 | When u_showNormal = 1, the base colour is ((normalize(N)+1)·0.5, 1) whatever the material. |
| Shading.NormalViewIsLit | asg4.js:57-115 | u_showNormal replaces only the base colour. With u_light on, the normal colour still goes through the same point-light and spotlight terms, and the alpha is 1. |
| Shading.NormalViewIsNotRawNormalColor | asg4.js:57-95 | With u_showNormal = 1, the light on, the spotlight off and a white tint, a fragment that faces away from the light and has no highlight shows 0.3 times its normal colour. So it differs from the normal colour unless that is black. |
| Shading.NormalColorInUnitCube | asg4.js:58 | A normal whose components are in [−1, 1] maps to a colour in [0, 1]³ with alpha 1. |
| Shading.LightOffPassesBaseColor | asg4.js:74-77 | When u_light = 0, the output equals the base colour exactly, whatever the normal, light and camera uniforms. |
| Shading.AlphaIsBaseAlpha | asg4.js:115 | The output alpha is always the base colour's alpha. |
| Shading.ShadeIsPhong | asg4.js:79-114 | With the light on, the output rgb is the tinted point-light term plus the spotlight term. |
| Shading.SpotOffIsPointLight | asg4.js:79-95 | With the light on and the spotlight off, rgb = 0.3·base + base·max(N·L, 0) + spec, multiplied component-wise by u_lightColor exactly when u_light1 = 1. |
| Shading.SpotlightAdds | asg4.js:97-114 | Spotlight on adds exactly the spot contribution to the spotlight-off colour, and keeps alpha. |
| Shading.SpotOutsideConeChangesNothing | asg4.js:99-101 | When spotFactor does not exceed the cutoff, the output equals the spotlight-off output. |
| Shading.SpotContributionNonNegative | asg4.js:101-112 | When pow, the base colour and (if tinted) the light colour are non-negative, the spot term is non-negative. |
| Shading.SpotlightNeverDarkens | asg4.js:97-114 | Under the same conditions, turning the spotlight on never lowers a channel. |
| SceneState.LightPosition | asg4.js:313-323 | x always equals the slider x. With the animation off, the light is at the slider position. |
| SceneState.LightOrbitsSlider | asg4.js:313-318 | With the animation on and sin²+cos² = 1, the light is at distance 2 from the slider position in the plane x = slider.x, with y = slider.y + 2 sin(t/2) and z = slider.z + 2 cos(t/2). |
| SceneState.Scene.Tick | asg4.js:310-327 | The elapsed time is now − start. The light position is `LightPosition` of the slider base, then one render follows. |
| SceneState.Scene.PlaceLight | asg4.js:313-323 | g_lightPos ends as `LightPosition` of the slider base at the elapsed time. Each component is written in turn from the slider, plus the orbit offset when the animation is on. |
| SceneState.ClampPitch | asg4.js:444 | The result is in [−90, 90]. It is the input when the input is in range, 90 above the range and −90 below it. |
| SceneState.MoveDrag | asg4.js:437-447 | One mousemove: while dragging, yaw falls by 0.3·dx, pitch falls by 0.3·dy and is clamped to [−90, 90], and the pointer is remembered. `MoveDragStep`, `YawTelescopes` and `PitchStaysClamped` are proved about it. |
| SceneState.StartDrag | asg4.js:429-436 | Dragging starts exactly for points in the half-open rectangle [left, right) × [top, bottom), and the point is remembered. A press outside changes nothing. The rotations are untouched. |
| SceneState.EndDrag | asg4.js:448 | Dragging is always cleared, and nothing else changes. |
| SceneState.MoveDragStep | asg4.js:437-447 | When not dragging, a move changes nothing. When dragging, yaw changes by exactly −0.3·dx with no clamp, pitch ends in [−90, 90], and the pointer is remembered. |
| SceneState.YawTelescopes | asg4.js:437-447 | Over any run of moves in one drag, yaw changes by −0.3 times the total horizontal travel. |
| SceneState.PitchStaysClamped | asg4.js:437-447 | Pitch stays in [−90, 90] across any run of moves once it starts there. Moves never change the dragging flag. |
| SceneState.Scene.StartDragAt | asg4.js:429-436 | The handler's new drag state is `StartDrag` of the old one. |
| SceneState.Scene.MoveDragTo | asg4.js:437-447 | The handler's new drag state is `MoveDrag` of the old one. It does not render. |
| SceneState.Scene.EndDragNow | asg4.js:448-453 | The handler's new drag state is `EndDrag` of the old one. |
| SceneState.CommandOf | asg4.js:393-421 | A key code does nothing exactly when it is not one of 87, 83, 65, 68, 81, 69, 79, 80. |
| SceneState.Apply | asg4.js:393-421 | Each command runs its camera operator with the default speed 0.2 or angle 5, and NoCommand leaves the camera as it is. `PartnerKeyUndoes` is proved about it, and `Scene.HandleKeyPress` is proved to compute it. |
| SceneState.KeyPairs | asg4.js:395-418 | W/S, A/D, Q/E and O/P map to partner commands. |
| SceneState.PartnerKeyUndoes | asg4.js:393-421 | Under the matrix-library laws, and for a camera whose up vector is non-zero and not parallel to the view, a key's command followed by its partner's restores the camera. |
| SceneState.Scene.HandleKeyPress | asg4.js:393-423 | The camera moves by the key's command, with any other code leaving it untouched. Then one render follows. |
| SceneState.Scene.ToggleLight | asg4.js:242-245 | It negates `g_lightOn` and renders. |
| SceneState.Scene.ToggleLightAnimation | asg4.js:247-249 | It negates `g_lightMoveOn` and does not render. |
| SceneState.Scene.ToggleSpotLight | asg4.js:251-254 | It negates `g_spotLightOn` and renders. |
| SceneState.Scene.ToggleNormalVisualization | asg4.js:329-331 | It negates `g_showNormal` and does not render. |
| SceneState.Scene.SetLightSlider | asg4.js:191-208 | It writes one component of the slider base and renders. The light itself moves only at the next tick. |
| SceneState.Scene.SetLightColor | asg4.js:256-273 | It writes one component of the light colour and renders. |
| SceneState.WithComponent | asg4.js:196-207 | Exactly the named component is replaced. |
| SceneState.Scene.FrameOf | asg4.js:335-343 | u_light1 is always 1, u_cameraPos is the camera's eye, and the two flags become 1/0. |
| SceneState.Scene.constructor | asg4.js:132-177 | This is the globals' initial values, with a camera in its initial state. |
| SceneState.Scene.Render | asg4.js:333-386 | The frame uniforms are the globals'. The draws appended are exactly `SceneDraws`: ground (selector 2), sky (1), the ball's 20 strips of 42 with selector −2 and red, then the marker box. The sphere cache holds the ball's 840 vertices. |
| SceneState.Scene.DrawBox | asg4.js:357-361 | A new box draws one 36-vertex triangle list with the given selector. Building the cache draws nothing. |
| SceneState.Scene.DrawBall | asg4.js:372-377 | The ball draws its 20 strips with selector −2 and red, and leaves the cache holding its mesh. |
| SceneState.Scene.DrawObjects | asg4.js:356-386 | The four drawables' draws are appended in order. |
| SceneState.SceneDraws | asg4.js:356-386 | The draws of one frame in order: ground (selector 2), sky (1), the ball's 20 strips of 42 with selector −2 and red, then the marker box. `SceneDrawsLayout` and `SceneDrawsInOrder` are proved about it, and `Scene.Render` is proved to append exactly it. |
| SceneState.Scene.Valid | sphere.js:21-83 | The sphere cache is empty, or holds the ball's mesh: 840 vertices and the ball's position, normal and UV arrays. Every method of `Scene` that draws keeps it. |
| SceneState.SceneDrawsLayout | asg4.js:356-386 | A frame is 23 draws, all with the frame's uniforms. The marker box is drawn with the ball's material, so with u_showNormal ≠ 1 its base colour is the ball's red. |
| SceneState.DrawsOfAppend | asg4.js:333-386 | The draws of a concatenated log are the draws of each part, in order. |
| SceneState.CubeUploadsDrawNothing | Cube.js:97-108 | Building the box buffers issues no draw. |
| SceneState.CubeDrawDrawsOneBox | Cube.js:111-135 | One drawCube issues exactly one draw. |
| SceneState.SphereUploadsDrawNothing | sphere.js:69-80 | Building the sphere buffers issues no draw. |
| SceneState.SphereDrawDrawsStrips | sphere.js:86-124 | A drawSphere that does not throw issues exactly its strips. |
| Gl.Context.constructor | asg4.js:160 | A fresh context has no buffers, an empty log, and every uniform at zero. |
| Gl.Context.CreateBuffer | Cube.js:98 | It returns the next unused buffer id, bumps the counter, and logs the creation. |
| Gl.Context.BufferData | Cube.js:100 | It logs the upload of exactly the given floats into the given buffer. |
| Gl.Context.VertexAttribute | Cube.js:117 | It logs the binding of an attribute to a buffer with its component count. |
| Gl.Context.SetWhichTexture | Cube.js:131 | It sets u_whichTexture alone among the uniforms, and logs it. |
| Gl.Context.SetFragColor | sphere.js:111-115 | It sets u_FragColor alone among the uniforms, and logs it. |
| Gl.Context.SetFrame | asg4.js:335-343 | It sets all the per-frame uniforms at once, and logs them. |
| Gl.Context.Clear | asg4.js:334 | It logs one clear and changes nothing else. |
| Gl.Context.DrawArrays | Cube.js:134 | It logs one draw carrying the mode, range and the uniforms in force. |

## Left out

- WebGL itself appears only as recorded events:
  - shader compile and link;
  - context acquisition;
  - attribute and uniform locations;
  - the vertex shader;
  - rasterisation.
- `createBuffer` returning null is not modelled.
- The matrix library (`Matrix4`, `Vector3`) is left out.
  - `setLookAt` and `setPerspective` are recorded by their arguments.
  - `setRotate`·`multiplyVector3` and `normalize` are abstract functions.
  - `Vector3` objects are values; the source copies them on every use.
- The model matrices, and the fixed translate and scale calls in
  `renderAllShapes`, are left out. So are its projection (90°, 0.1, 150),
  the view-matrix upload and the global rotation matrix. The rotation
  globals are modelled; the matrix built from them is not.
- Texture loading (`setupTextures`, `sendTexToGL`) is left out: it runs in
  asynchronous image callbacks and uploads to the GPU.
- Also left out:
  - the DOM;
  - slider wiring and `parseFloat`;
  - `updateHTMLStats`;
  - the frame-time/fps text;
  - `requestAnimationFrame`.
- `main` schedules `tick` twice, which starts two animation loops. Each
  `Tick` call models one callback.
- `performance.now()` is the `Tick` parameter and the `Scene` constructor's
  start time.
- Floating point is left out. Arithmetic is exact over `real`. Float32
  rounding of the uploaded arrays, NaN and infinities are not modelled.
  - For `longCount = 0` with `latCount > 0`, the source divides by zero and
    uploads NaN coordinates. `SphereGeometry.SphereStatics.InitSphereGeometry`
    requires `longCount > 0` in that case, when the cache is empty. With
    `latCount = 0` nothing is divided; the mesh is empty and `numVertices`
    is 0, whatever `longCount` is.
  - `Cameras.ProjectionMatrix` keeps width and height instead of their
    quotient, so a zero height is not an error here.
- sin, cos, normalize, reflect, pow and texture sampling are abstract
  parameters. Their laws are stated as predicates, and the lemmas that
  need them require them. No lemma proves them of a concrete
  implementation.
- SphereGeometry.PushBand: the source's inner loop. It is a separate method
  so that each loop has its own invariants.
- SphereGeometry.SphereStatics.StoreAndUpload: the second half of
  `initSphereGeometry`. It is a separate method for the same reason.
- SceneState.Scene.PlaceLight: the light update inside `tick`. It is a separate
  method so that the proof of `tick` stays small.
- SceneState.Scene.MoveDragTo: `isDragging`, `lastX` and `lastY` are locals
  captured by the handlers' closure. Here they are fields of `Scene`.

### Behaviour of the code worth knowing (the model follows the code)

- **Shader fallback.** Selector 0 and every selector other than −2, −1, 1
  and 2 give the constant colour (1, 0.2, 0.2, 1). No texture is sampled
  for them.
- **Normal view is still lit.** `u_showNormal = 1` replaces only the base
  colour. `g_lightOn` starts true, so the point light, the specular term,
  the tint and the spotlight are all applied to the normal colour. The
  debug view does not ignore lighting. `Shading.NormalViewIgnoresMaterial`
  is about the base colour alone. `Shading.NormalViewIsLit` states what the
  output is, and `Shading.NormalViewIsNotRawNormalColor` shows it differs
  from the raw normal colour.
- **Pitch clamp.** Only the mouse drag clamps pitch, on `globalRotX`.
  `lookUp`/`lookDown` never clamp.
- **Two projections.** The camera's own projection is 60°, near 0.1 and
  far 1000. The renderer overrides it each frame with 90°, 0.1 and 150.
- **Geometry cache.** The cache is per process, not per parameter triple.
  The first `Sphere` built fixes the mesh for every later sphere. On this
  page every sphere is the same ball, so `SceneState.Scene.Valid` records
  that the cache holds the ball's vertex count and its position, normal and
  UV arrays.
- **Light marker colour.** `drawCube` never uploads a colour, and the
  `baseColor` set on the light marker box is never read. So the marker is
  drawn with selector −2 and whatever `u_FragColor` holds: the ball's red,
  set just before.
