# OpenGLDemo renderer — a Dafny model

The demo draws a static playing-field shape with OpenGL ES 2.0: a table
outline as a triangle fan, a horizontal mid line and two marker points.
`MainActivity.MyGLRenderer` does all the work in three callbacks.
`onSurfaceCreated` builds and validates a shader program, then points the
position and colour attributes at one interleaved vertex table.
`onSurfaceChanged` chooses an orthographic box that approximates the
surface's aspect ratio (exactly only when the shorter side divides the
longer).
`onDrawFrame` uploads the projection and issues three `glDrawArrays` calls.

This project models that sequential logic in Dafny:

- `OrthoBox` (ortho_box.dfy) holds the six extents of an orthographic box
  and the projection matrix the renderer stores.
- `Projection` (projection.dfy) is the aspect-ratio rule. Java `int`
  division truncates toward zero, and `JavaDiv` models that. Comparing
  `width > height` picks which axis is stretched, and the truncated ratio
  sets the extent of that longer axis. A zero divisor gives the `ArithmeticException` path.
  `Matrix.orthoM` raises `IllegalArgumentException` when left == right,
  bottom == top or near == far; a ratio truncated to 0, which only a
  negative side can produce, gives that path.
- `Gl` (gl.dfy) holds the driver calls the renderer makes, as entries of a
  trace. It also holds the trace queries the properties use: the draws
  issued, and the shaders and programs deleted.
- `Scene` (scene.dfy) is the constant table of ten X, Y, R, G, B records.
  It also holds the two attribute layouts and what each layout reads from a
  record.
- `DrawPlan` (draw_plan.dfy) is the three draws of every frame and their
  coverage of the table.
- `ShaderBuilder` (shader_builder.dfy) models `loadShader`, `createProgram`
  and `validateProgram`. The GL driver is an oracle: a `Driver` value fixes
  every answer the driver gives, namely the names returned by object
  creation, the compile, link and validate statuses, and the attribute and
  uniform locations. Each function returns its handle, or the sentinel 0,
  together with the calls it issued.
- `Renderer` (renderer.dfy) models the three callbacks as steps over the
  renderer's fields.

Two behaviours of the code are kept as they are:

- `onSurfaceCreated` passes whatever location `glGetAttribLocation` returns
  straight to `glVertexAttribPointer`, with no check for "not found", and
  so does the model.
- `onDrawFrame` draws whether or not the program validated, so
  `OnDrawFrame` takes any state.

The model assumes one piece of driver behaviour. `validateProgram` reads the
status into a fresh, zero-filled `int[1]`. Under the OpenGL ES 2.0
specification, `glGetProgramiv` raises `GL_INVALID_VALUE` for a name GL never
generated, such as 0, and a command that raises an error writes nothing. So validating the handle 0
reports failure. For a real program the status is the oracle's
`validateStatus`.

## Model

| member | source | states |
|---|---|---|
| `Scene.Records` | app/src/main/java/com/liang/tind/opengldemo/MainActivity.java:97-119 | Reading a flat table five floats at a time gives one record per five floats, and record i holds floats 5i to 5i+4 as X, Y, R, G, B |
| `Scene.Flatten` | app/src/main/java/com/liang/tind/opengldemo/MainActivity.java:97-119 | Writing records one after another gives five floats per record, and record i can be read back from position 5i |
| `Scene.FlattenOfRecords` | app/src/main/java/com/liang/tind/opengldemo/MainActivity.java:97-123 | Turning any whole-record float table into records and back gives the same floats |
| `Scene.RecordsOfFlatten` | app/src/main/java/com/liang/tind/opengldemo/MainActivity.java:97-123 | Turning any list of records into floats and back gives the same records |
| `Scene.TableShape` | app/src/main/java/com/liang/tind/opengldemo/MainActivity.java:97-119 | The uploaded table has exactly 50 floats, i.e. ten whole records, and reading it back gives the rows as written |
| `Scene.ColoursInUnitRange` | app/src/main/java/com/liang/tind/opengldemo/MainActivity.java:97-119 | Every R, G and B value of every record lies in [0, 1] |
| `Scene.SceneGeometry` | app/src/main/java/com/liang/tind/opengldemo/MainActivity.java:98-115 | Record 0 is the centre (0, 0). Record 5 repeats record 1, so the fan outline closes. The mid-line ends 6 and 7 lie on y = 0, mirrored about the centre |
| `Scene.LayoutTilesRecord` | app/src/main/java/com/liang/tind/opengldemo/MainActivity.java:218-227 | Both attributes use a stride of 5 × 4 = 20 bytes. Position reads floats 0-1 and colour reads floats 2-4, so together they cover the record with no gap or overlap |
| `Scene.FetchReadsRecord` | app/src/main/java/com/liang/tind/opengldemo/MainActivity.java:218-227 | For every whole record of any table (record v is floats 5v to 5v+4), the position pointer reads that record's X, Y and the colour pointer reads its R, G, B |
| `DrawPlan.ContiguousReadsSpan` | app/src/main/java/com/liang/tind/opengldemo/MainActivity.java:257-268 | Draws that each start where the previous one stopped read exactly the records start to start+total-1, each once, in order |
| `DrawPlan.ContiguousIsOrdered` | app/src/main/java/com/liang/tind/opengldemo/MainActivity.java:257-268 | Such draws stay inside their overall range, each ends before the next begins, and no two overlap |
| `DrawPlan.FrameCoversTable` | app/src/main/java/com/liang/tind/opengldemo/MainActivity.java:257-268 | The frame is fan (0, 6), lines (6, 2), points (8, 2) in that order. The draws are contiguous and disjoint, read all ten records once each, and none goes past the table |
| `Projection.JavaDiv` | app/src/main/java/com/liang/tind/opengldemo/MainActivity.java:240 | Java `int` division: the magnitude is the largest q with q·abs(b) ≤ abs(a), and the sign is positive exactly when the operands' signs agree |
| `Projection.QuotientZeroIff` | app/src/main/java/com/liang/tind/opengldemo/MainActivity.java:240 | A truncated quotient is 0 exactly when the dividend is smaller in magnitude than the divisor |
| `Projection.QuotientAtMost` | app/src/main/java/com/liang/tind/opengldemo/MainActivity.java:240 | A truncated quotient is never larger in magnitude than its dividend |
| `Projection.RatioFitsInt` | app/src/main/java/com/liang/tind/opengldemo/MainActivity.java:240 | For any two Java `int` sides with a non-zero divisor, the dividend is at least the divisor and the ratio is itself an `int`, so `Integer.MIN_VALUE / -1` never occurs |
| `Projection.AspectRatio` | app/src/main/java/com/liang/tind/opengldemo/MainActivity.java:240 | For a positive width and height, ratio ≥ 1 and ratio·min ≤ max < ratio·min + min, i.e. max divided by min, truncated |
| `Projection.Resize` | app/src/main/java/com/liang/tind/opengldemo/MainActivity.java:240-245 | The `ArithmeticException` happens exactly when the divisor is 0, and the flat-box `IllegalArgumentException` exactly when the divisor is non-zero and larger in magnitude than the dividend. Any box produced is non-flat. Near/far is always [-1, 1] and the box is symmetric. Whenever a box is produced, a strictly wider surface gets [-r, r]×[-1, 1] with r = width / height truncated toward zero, and any other surface gets [-1, 1]×[-r, r] with r = height / width (so 5×-2 gets [2, -2]×[-1, 1]). For a positive size a box is always produced and r is at least 1 |
| `Projection.SquareSurfaceIsUnitBox` | app/src/main/java/com/liang/tind/opengldemo/MainActivity.java:240-245 | Any square surface with a non-zero side gets the unit cube [-1, 1]³ (a negative side too, since -s / -s is 1) |
| `Projection.WorkedSizes` | app/src/main/java/com/liang/tind/opengldemo/MainActivity.java:240-245 | 200×100 gives [-2, 2]×[-1, 1]; 100×200 gives [-1, 1]×[-2, 2]; 300×200 truncates to ratio 1 and gives the unit cube |
| `Projection.RotatedSurfaceTransposesBox` | app/src/main/java/com/liang/tind/opengldemo/MainActivity.java:240-245 | Swapping the width and height of any positive surface swaps the horizontal and vertical extents |
| `Projection.ScaledSurfaceSameBox` | app/src/main/java/com/liang/tind/opengldemo/MainActivity.java:240-245 | Multiplying both sides of a positive surface by the same positive factor leaves the box unchanged |
| `Projection.AspectKeptIffDivides` | app/src/main/java/com/liang/tind/opengldemo/MainActivity.java:240-245 | The box has the surface's proportions exactly when the shorter side divides the longer one. Otherwise truncation distorts the picture |
| `ShaderBuilder.LoadShader` | app/src/main/java/com/liang/tind/opengldemo/MainActivity.java:176-197 | The result is 0 exactly when creation returned 0 or compilation failed, and otherwise it is the created name. Loading creates only a shader of its own kind and touches no program |
| `ShaderBuilder.LoadShaderCleansUp` | app/src/main/java/com/liang/tind/opengldemo/MainActivity.java:176-197 | Creation comes first. If creation returned 0, creating is the only call. The shader is compiled only if creation succeeded. The failure is logged and the shader deleted exactly when it was created but did not compile. Nothing else is deleted |
| `ShaderBuilder.LinkStages` | app/src/main/java/com/liang/tind/opengldemo/MainActivity.java:144-166 | The program is always created. The result is non-zero exactly when creation succeeded and the link status is GL_TRUE, and then both stages were attached and the program linked |
| `ShaderBuilder.LinkStagesCleansUp` | app/src/main/java/com/liang/tind/opengldemo/MainActivity.java:144-166 | The program is deleted exactly when it was created but failed to link. No shader is deleted |
| `ShaderBuilder.CreateProgram` | app/src/main/java/com/liang/tind/opengldemo/MainActivity.java:131-167 | The result is non-zero exactly when both stages compiled and the program linked, and then it is the program with both stages attached and linked. A program object is created only after both stages compiled, and the fragment stage is tried only after the vertex stage compiled |
| `ShaderBuilder.CreateProgramDeletesPrograms` | app/src/main/java/com/liang/tind/opengldemo/MainActivity.java:131-167 | A build deletes a program only when both stages compiled and the created program failed to link |
| `ShaderBuilder.CreateProgramDeletesShaders` | app/src/main/java/com/liang/tind/opengldemo/MainActivity.java:131-167 | A build deletes exactly the one stage that was created but failed to compile. A successful build deletes no shader |
| `ShaderBuilder.VertexFailureStopsBuild` | app/src/main/java/com/liang/tind/opengldemo/MainActivity.java:131-136 | When the vertex stage fails, the build returns 0 and its trace is just that stage's load |
| `ShaderBuilder.FragmentFailureKeepsVertexShader` | app/src/main/java/com/liang/tind/opengldemo/MainActivity.java:138-142 | When only the fragment stage fails, the build returns 0 without creating a program and does not delete the compiled vertex shader |
| `ShaderBuilder.ValidateProgram` | app/src/main/java/com/liang/tind/opengldemo/MainActivity.java:199-204 | Validation succeeds exactly for a real (non-zero) program whose validate status is non-zero |
| `Renderer.OnSurfaceCreated` | app/src/main/java/com/liang/tind/opengldemo/MainActivity.java:206-234 | The stored program is the build result and the projection is kept. Attribute arrays are bound exactly when both stages compiled, the program linked and validation succeeded |
| `Renderer.SurfaceCreatedBinds` | app/src/main/java/com/liang/tind/opengldemo/MainActivity.java:212-227 | When the gate passes, the non-zero program is made current. Position and colour are bound with the scene's layouts and enabled at the looked-up locations, and the two attribute locations and the `vMatrix` location are stored |
| `Renderer.SurfaceCreatedSkipsBinding` | app/src/main/java/com/liang/tind/opengldemo/MainActivity.java:230-232 | When the gate fails, the failure is logged. No program is made current, no attribute array is enabled, and the earlier locations stay |
| `Renderer.OnSurfaceChanged` | app/src/main/java/com/liang/tind/opengldemo/MainActivity.java:236-247 | The call raises `ArithmeticException` exactly when the divisor side is 0, and `IllegalArgumentException` exactly when the truncated ratio is 0 (the dividend smaller in magnitude than a non-zero divisor). A positive size never raises. Otherwise the stored projection becomes the box for the new size and no other field changes |
| `Renderer.ResizeIdempotent` | app/src/main/java/com/liang/tind/opengldemo/MainActivity.java:236-247 | Resizing again to the same size changes nothing |
| `Renderer.LastResizeWins` | app/src/main/java/com/liang/tind/opengldemo/MainActivity.java:236-247 | After two resizes the state is what the second resize alone gives. The projection depends only on the latest size |
| `Renderer.OnDrawFrame` | app/src/main/java/com/liang/tind/opengldemo/MainActivity.java:249-270 | From any state a frame clears, uploads the stored projection to the stored uniform location, then issues exactly the three draws of the plan |
| `Renderer.FramesRepeatPlan` | app/src/main/java/com/liang/tind/opengldemo/MainActivity.java:249-270 | Over any number of frames, the draws issued are the three-draw plan repeated, in the same order every time |
| `Renderer.FirstFrame` | app/src/main/java/com/liang/tind/opengldemo/MainActivity.java:206-270 | From a fresh renderer, create then resize to a positive size then draw. The resize succeeds, the three draws run, and the upload sends the new box to `vMatrix`'s location if the gate passed, or to location 0 otherwise |

## Left out

- Activity lifecycle (`onCreate`, `onResume`, `onPause`), the GL ES 2.0 capability check and the layout fallback: host-platform glue outside the renderer.
- What the GL driver actually does (compiling, linking, validating, looking up locations): this is a foreign library. The `Driver` oracle supplies its answers, and the only driver behaviour assumed is the zero-handle validate rule above.
- The 16 floats `Matrix.orthoM` computes (only its rejection of a flat box is modelled), and the `float` conversion of `ratio`. These are library float numerics, so the model keeps only the six extents passed in.
- `ByteBuffer`/`FloatBuffer` allocation and native byte order, `glViewport`, `glClearColor`, and the info-log queries and message text of the error logs. These are I/O and driver side effects. A log that reports a failure appears in the trace only as that failure. Logs that report no failure, such as the entry logs of `onSurfaceCreated` and `onSurfaceChanged`, are dropped.
- The GLSL source strings. They are opaque constants, and the oracle fixes the compile outcome of each stage.
- The commented-out `glUniform4f` colour code, which is inactive.
- `Scene.Vertices`: the table holds `float` literals such as `0.7f`, but the model uses the exact decimals. Float rounding of the table is not modelled.
- `Projection.JavaDiv`: does not model the 32-bit wrap of `Integer.MIN_VALUE / -1`. It cannot arise in the ratio: for `int` sides the dividend is never below the divisor (`Projection.RatioFitsInt`).
- `ShaderBuilder.FragmentFailureKeepsVertexShader`: assumes the driver gave the two stages different names, as it does for live objects.
