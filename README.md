# k-means visualiser: a verified model of its core

The k-means visualiser loads two files of 3-D coordinates: cluster centres (centroids) and data points. It labels every point with its nearest centroid. It then draws the scene in a software pixel buffer, with a free-fly camera driven by the keyboard and mouse. This project models the three sequential pieces of that program in Dafny and proves what each one promises:

- **Loading** (`Main.readData`, module `Assignment`, file `assignment.dfy`).
  - Centroids are appended first, one per non-empty line, each with the next random colour.
  - Points follow, one per non-empty line. Each is labelled with its nearest centroid.
  - The nearest-centroid scan (`NearestCentroid`) keeps a candidate only on a strictly smaller distance, so the first of several equally near centroids wins. It returns `None` (the `null` of the code) for an empty centroid list.
  - The distance compares a centroid stored at w = 1 with a query passed at w = 0. That adds the same 1 to every candidate, which is proved not to change the winner.
- **One frame of drawing** (`Renderer.renderScene`, module `Rendering`, file `rendering.dfy`).
  - The canvas is cleared first.
  - Every centroid, then every point, gets its screen position recorded. This is the `(int)` cast of the perspective-divided, flipped screen coordinates.
  - An entity whose depth lies strictly inside (-1, 1) gets a square splat: 9×9 for a centroid, 3×3 for a point. The splat is written column by column, in the centroid's colour.
  - The canvas is repainted last.
  - The canvas is seen as the log of calls made on it. The view-projection transform is a function parameter.
- **Input and timing** (`Visualiser`, module `Visualising`, file `visualising.dfy`).
  - Six movement flags are set by key presses and cleared by key releases.
  - Mouse drags produce deltas.
  - `update` moves the camera for each held flag, turns it by 20·delta·drag and consumes the drag. The camera is seen as the log of `move`/`rotate` calls.
  - One pass of the fixed-timestep loop splits the frame time into chunks of at most 1/60 s (`Drain`). `Tick` then counts the frame and, once more than a second is simulated, reports and resets the counters.

Shared entities (`Point`, `Centroid`, `Scene`, the camera) live in module `Entities` (`entities.dfy`).

- Java's 32-bit `int` arithmetic and the `(int)` cast of a float live in `JavaInt` (`javaint.dfy`).
- `Option` lives in `Wrappers` (`wrappers.dfy`).
- A centroid reference is an index into the scene's centroid list.

## Model

| member | source | states |
|---|---|---|
| JavaInt.Wrap | visualisation/src/main/java/com/kmeans/graphics/Visualiser.java:110-111 | the result of Java `int` subtraction or addition: equal to the exact value when that is in range, and congruent to it modulo 2^32 always |
| JavaInt.FromReal | visualisation/src/main/java/com/kmeans/graphics/Renderer.java:29 | the `(int)` cast: truncation toward zero within the range, saturation at `Integer.MAX_VALUE`/`MIN_VALUE` outside it |
| Entities.Camera.constructor | visualisation/src/main/java/com/kmeans/Main.java:27 | a fresh camera has had no calls made on it |
| Entities.Camera.Move | visualisation/src/main/java/com/kmeans/graphics/Visualiser.java:66-83 | a `move` call is appended to the camera's call log |
| Entities.Camera.Rotate | visualisation/src/main/java/com/kmeans/graphics/Visualiser.java:84-85 | a `rotate` call is appended to the camera's call log |
| Entities.Scene.constructor | visualisation/src/main/java/com/kmeans/graphics/Scene.java:6-10 | a new scene holds two empty lists and the given camera |
| Assignment.DistanceSquared | visualisation/src/main/java/com/kmeans/Main.java:67 | JOML's four-dimensional squared distance is never negative |
| Assignment.LoaderDistance | visualisation/src/main/java/com/kmeans/Main.java:67 | the loader's distance is never negative, and for a centroid stored at w = 1 it is the 3-D squared distance plus exactly 1 |
| Assignment.IsFirstMin | visualisation/src/main/java/com/kmeans/Main.java:64-72 | an index meeting the scan's condition lies in the list and is the first index holding the smallest distance |
| Assignment.NearestCentroid | visualisation/src/main/java/com/kmeans/Main.java:64-72 | no centroid (`null`) exactly when the list is empty; otherwise an index into the list whose distance no centroid beats, with every earlier centroid strictly farther, so the first of equally near centroids wins |
| Assignment.FirstMinUnique | visualisation/src/main/java/com/kmeans/Main.java:66-72 | at most one index satisfies the scan's postcondition, so the choice is determined |
| Assignment.ShiftKeepsFirstMin | visualisation/src/main/java/com/kmeans/Main.java:66-72 | adding one constant to every candidate distance leaves exactly the same index chosen (both directions) |
| Assignment.WOffsetHarmless | visualisation/src/main/java/com/kmeans/Main.java:55-67 | with every centroid at w = 1 and the query at w = 0, each loader distance is the 3-D Euclidean distance plus 1, so the loader chooses exactly the centroid a plain 3-D nearest search with first-wins ties would |
| Assignment.NonBlank | visualisation/src/main/java/com/kmeans/Main.java:58-59 | a file yields at most one entity per line |
| Assignment.NonBlankAppend | visualisation/src/main/java/com/kmeans/Main.java:49-50 | reading lines in two pieces reads each piece in turn: an empty line adds nothing, every other line adds exactly its own coordinates, in file order |
| Assignment.Lift | visualisation/src/main/java/com/kmeans/Main.java:55 | loaded positions are stored with w = 1 |
| Assignment.ReadData | visualisation/src/main/java/com/kmeans/Main.java:48-74 | appends one centroid per non-empty centroid line, in order, coloured by successive random draws, at screen (0,0); then one point per non-empty point line, in order, at w = 1, labelled by the nearest-centroid scan over the complete centroid list; earlier entries are kept; every centroid reference stays within the list |
| Assignment.LoadedPointReferencesScene | visualisation/src/main/java/com/kmeans/Main.java:48-74 | with at least one centroid loaded, every loaded point refers to a centroid of the scene |
| Assignment.TieGoesToFirst | visualisation/src/main/java/com/kmeans/Main.java:68 | with centroids at (0,0,0) and (10,10,10), the point (1,1,1) goes to the first; (5,5,5) is equally far from both and also goes to the first, not the second |
| Rendering.Canvas.constructor | visualisation/src/main/java/com/kmeans/graphics/Visualiser.java:16 | a fresh canvas has its size and no calls |
| Rendering.Canvas.Clear | visualisation/src/main/java/com/kmeans/graphics/Renderer.java:21 | a clear is appended to the canvas's call log |
| Rendering.Canvas.SetPixel | visualisation/src/main/java/com/kmeans/graphics/Renderer.java:33 | a pixel write with its coordinates, colour and depth is appended to the log |
| Rendering.Canvas.Repaint | visualisation/src/main/java/com/kmeans/graphics/Renderer.java:49 | a repaint is appended to the log |
| Rendering.Column | visualisation/src/main/java/com/kmeans/graphics/Renderer.java:28 | device x = -1 maps to column 0, x = +1 to `width`, x = 0 to the middle |
| Rendering.Row | visualisation/src/main/java/com/kmeans/graphics/Renderer.java:28 | y is flipped: device y = +1 maps to row 0, y = -1 to `height`, y = 0 to the middle |
| Rendering.ColumnIncreasing | visualisation/src/main/java/com/kmeans/graphics/Renderer.java:28 | for a positive width, further right in device space is strictly further right on screen |
| Rendering.RowDecreasing | visualisation/src/main/java/com/kmeans/graphics/Renderer.java:28 | for a positive height, higher in device space is a strictly smaller row |
| Rendering.ColumnOnCanvas | visualisation/src/main/java/com/kmeans/graphics/Renderer.java:28 | a device x inside [-1, 1] lands on a column between 0 and `width` |
| Rendering.RowOnCanvas | visualisation/src/main/java/com/kmeans/graphics/Renderer.java:28 | a device y inside [-1, 1] lands on a row between 0 and `height` |
| Rendering.ProjectOnCanvas | visualisation/src/main/java/com/kmeans/graphics/Renderer.java:27-28 | after the perspective divide, a position whose x and y lie in the view volume's [-1, 1] range lands on the canvas |
| Rendering.ScreenOf | visualisation/src/main/java/com/kmeans/graphics/Renderer.java:29 | the `(int)` casts store a position on the canvas as the pixel it falls in: the stored coordinate is the largest integer not above the exact one |
| Rendering.StripLength | visualisation/src/main/java/com/kmeans/graphics/Renderer.java:32-34 | n steps of the inner loop write n pixels |
| Rendering.StripAt | visualisation/src/main/java/com/kmeans/graphics/Renderer.java:32-34 | step t of the inner loop writes row offset t - h in the loop's column |
| Rendering.StripOnly | visualisation/src/main/java/com/kmeans/graphics/Renderer.java:32-34 | every write of the inner loop is in its column at a row offset in [-h, h] |
| Rendering.BlockLength | visualisation/src/main/java/com/kmeans/graphics/Renderer.java:31-35 | m steps of the outer loop write m·(2h+1) pixels |
| Rendering.BlockAt | visualisation/src/main/java/com/kmeans/graphics/Renderer.java:31-35 | step (a, t) of the nested loops comes after a full columns and writes offset (a - h, t - h) |
| Rendering.BlockOnly | visualisation/src/main/java/com/kmeans/graphics/Renderer.java:31-35 | every write of the nested loops is at offsets in [-h, h]² |
| Rendering.SplatLength | visualisation/src/main/java/com/kmeans/graphics/Renderer.java:31-35 | a splat is (2h+1)² writes: 81 for a centroid, 9 for a point |
| Rendering.SplatCovers | visualisation/src/main/java/com/kmeans/graphics/Renderer.java:31-35 | every offset pair in [-h, h]² from the recorded screen position is written, in the entity's colour and depth |
| Rendering.SplatOnly | visualisation/src/main/java/com/kmeans/graphics/Renderer.java:31-35 | nothing else is written: every write is at offsets in [-h, h]², in the entity's colour and depth |
| Rendering.SplatCoordinates | visualisation/src/main/java/com/kmeans/graphics/Renderer.java:43-47 | away from the ends of the `int` range the offsets are plain sums, so a splat holds the pixels (x+i, y+j) for i, j in [-h, h] |
| Rendering.EntityWritesCulled | visualisation/src/main/java/com/kmeans/graphics/Renderer.java:30-35 | an entity writes pixels if and only if its depth lies strictly inside (-1, 1), and only in its own colour at its own depth |
| Rendering.CentroidsAfterAt | visualisation/src/main/java/com/kmeans/graphics/Renderer.java:26-29 | the frame keeps the centroid list's length and order and changes each centroid's screen position, culled or not, and nothing else |
| Rendering.PointsAfterAt | visualisation/src/main/java/com/kmeans/graphics/Renderer.java:38-41 | the frame keeps the point list's length and order and changes each point's screen position, culled or not, and nothing else |
| Rendering.CentroidsAfterStep | visualisation/src/main/java/com/kmeans/graphics/Renderer.java:26-29 | step k of the centroid loop extends the recorded prefix by centroid k and leaves the rest untouched |
| Rendering.PointsAfterStep | visualisation/src/main/java/com/kmeans/graphics/Renderer.java:38-41 | step k of the point loop extends the recorded prefix by point k and leaves the rest untouched |
| Rendering.CentroidWrites | visualisation/src/main/java/com/kmeans/graphics/Renderer.java:26-37 | the centroid loop writes a 9×9 square for every centroid that passes the depth cull and nothing for the others: exactly 81 pixels per drawn centroid |
| Rendering.PointWrites | visualisation/src/main/java/com/kmeans/graphics/Renderer.java:38-48 | the point loop writes a 3×3 square for every point that passes the depth cull and nothing for the others: exactly 9 pixels per drawn point |
| Rendering.Renderer.constructor | visualisation/src/main/java/com/kmeans/graphics/Renderer.java:16-18 | the renderer draws into the canvas it is given |
| Rendering.Renderer.DrawSplat | visualisation/src/main/java/com/kmeans/graphics/Renderer.java:31-35 | the nested loops append exactly the splat, column by column |
| Rendering.Renderer.DrawCentroids | visualisation/src/main/java/com/kmeans/graphics/Renderer.java:26-37 | every centroid gets its screen position recorded, and the log gains the writes of every visible centroid in list order |
| Rendering.Renderer.DrawPoints | visualisation/src/main/java/com/kmeans/graphics/Renderer.java:38-48 | without a fault, every point's screen position is recorded and the log gains every visible point's writes in its centroid's colour; a fault names the first drawn point without a centroid, after the points before it are drawn and its own screen position is recorded, with the later points untouched; either way every point keeps its position and centroid reference, so the scene stays valid |
| Rendering.Renderer.RenderScene | visualisation/src/main/java/com/kmeans/graphics/Renderer.java:20-50 | the frame's log is clear, then all centroid writes, then all point writes, then repaint; only screen positions change; a drawn point without a centroid stops the frame before the repaint; either way the scene stays valid and every transformed `w` stays non-zero, so the next frame can be drawn |
| Rendering.SameColoursSameWrites | visualisation/src/main/java/com/kmeans/graphics/Renderer.java:45 | point writes depend on the centroids only through their colours, so recording the centroids' screen positions first does not change them |
| Rendering.CentroidWritesColours | visualisation/src/main/java/com/kmeans/graphics/Renderer.java:33 | every centroid write is a pixel in the colour of a centroid of the list |
| Rendering.PointWritesColours | visualisation/src/main/java/com/kmeans/graphics/Renderer.java:45 | every point write is a pixel in the colour of the centroid some point refers to |
| Rendering.FrameShape | visualisation/src/main/java/com/kmeans/graphics/Renderer.java:20-50 | a completed frame starts with the clear, ends with the repaint, and holds only pixel writes in between |
| Rendering.AssignedPointsDrawable | visualisation/src/main/java/com/kmeans/graphics/Renderer.java:45 | when every point refers to a centroid of the list, no point faults |
| Visualising.KeyDirection | visualisation/src/main/java/com/kmeans/graphics/Visualiser.java:126-146 | W, S, A, D, Q and E each move in exactly one direction, each direction has exactly one key, and no other key moves |
| Visualising.SetHeld | visualisation/src/main/java/com/kmeans/graphics/Visualiser.java:126-168 | setting one flag sets it to the given value and keeps the other five |
| Visualising.Pressed | visualisation/src/main/java/com/kmeans/graphics/Visualiser.java:126-146 | a key press sets exactly the matching flag and keeps the others; any other key changes nothing |
| Visualising.Released | visualisation/src/main/java/com/kmeans/graphics/Visualiser.java:148-168 | a key release clears exactly the matching flag and keeps the others; any other key changes nothing |
| Visualising.PressReleaseLaws | visualisation/src/main/java/com/kmeans/graphics/Visualiser.java:126-168 | pressing twice is pressing once; press then release is release alone, so that flag ends clear |
| Visualising.UpdateOps | visualisation/src/main/java/com/kmeans/graphics/Visualiser.java:65-85 | one update makes one move per held flag, plus the pitch and the yaw: 2 + (number of held flags) calls |
| Visualising.UpdateShape | visualisation/src/main/java/com/kmeans/graphics/Visualiser.java:65-85 | an update makes all its moves first and always ends with a pitch by 20·delta·deltaY and then a yaw by 20·delta·deltaX |
| Visualising.StepSums | visualisation/src/main/java/com/kmeans/graphics/Visualiser.java:66-83 | a guarded move adds its displacement only when its flag is held |
| Visualising.UpdateTranslation | visualisation/src/main/java/com/kmeans/graphics/Visualiser.java:66-83 | the moves of one update add up to delta along each axis whose positive key alone is held, minus delta for the negative key alone; opposite keys cancel |
| Visualising.UpdateRotation | visualisation/src/main/java/com/kmeans/graphics/Visualiser.java:84-85 | the turns of one update add up to a pitch of 20·delta·deltaY and a yaw of 20·delta·deltaX |
| Visualising.Chunks | visualisation/src/main/java/com/kmeans/graphics/Visualiser.java:38-45 | every timestep the accumulator loop takes lies in (0, dt], with dt = 16 666 666 ns |
| Visualising.ChunksSum | visualisation/src/main/java/com/kmeans/graphics/Visualiser.java:38-45 | for a non-negative frame time, the timesteps add up to exactly the frame time |
| Visualising.ChunksCount | visualisation/src/main/java/com/kmeans/graphics/Visualiser.java:38-45 | there are ceil(frameTime / dt) timesteps for a non-negative frame time and none for a negative one |
| Visualising.StepsOps | visualisation/src/main/java/com/kmeans/graphics/Visualiser.java:38-45 | the updates of a frame all make the same number of calls: their calls number (number of timesteps) · (2 + number of held flags) |
| Visualising.Visualiser.constructor | visualisation/src/main/java/com/kmeans/graphics/Visualiser.java:94-104 | no flag is held, and the mouse position and deltas start at 0 |
| Visualising.Visualiser.KeyPressed | visualisation/src/main/java/com/kmeans/graphics/Visualiser.java:126-146 | the flags become `Pressed` of the old flags and the key |
| Visualising.Visualiser.KeyReleased | visualisation/src/main/java/com/kmeans/graphics/Visualiser.java:148-168 | the flags become `Released` of the old flags and the key |
| Visualising.Visualiser.MouseDragged | visualisation/src/main/java/com/kmeans/graphics/Visualiser.java:106-114 | the deltas become new minus old mouse position in `int` arithmetic, and the new position is recorded |
| Visualising.Visualiser.MouseClicked | visualisation/src/main/java/com/kmeans/graphics/Visualiser.java:170-174 | the mouse position is recorded, and the deltas and flags are untouched |
| Visualising.Visualiser.MousePressed | visualisation/src/main/java/com/kmeans/graphics/Visualiser.java:176-180 | the mouse position is recorded, and the deltas and flags are untouched |
| Visualising.Visualiser.MoveWhen | visualisation/src/main/java/com/kmeans/graphics/Visualiser.java:66-68 | the camera moves only when the flag is held |
| Visualising.Visualiser.Update | visualisation/src/main/java/com/kmeans/graphics/Visualiser.java:65-88 | the camera log gains exactly the calls of `UpdateOps` for the flags and drag before the call, in order; the drag deltas become 0; the flags and mouse position are untouched |
| Visualising.Visualiser.Timestep | visualisation/src/main/java/com/kmeans/graphics/Visualiser.java:40-41 | one more timestep's update extends the log of the updates already made |
| Visualising.Visualiser.Drain | visualisation/src/main/java/com/kmeans/graphics/Visualiser.java:38-45 | the loop makes one update per timestep of the frame time; only the first update sees the drag; `time` grows by the timesteps' sum and `updates` by their number |
| Visualising.Visualiser.Tick | visualisation/src/main/java/com/kmeans/graphics/Visualiser.java:38-57 | one pass of the main loop: the updates of `Drain`, then one more frame; once more than 10^9 ns is simulated, the frame and update counts are reported and the time and both counters reset to 0; otherwise nothing is reported and the counters carry the new totals |

## Left out

- `Window.java`: the Swing frame and listener registration are user-interface setup.
- The outer `while (true)` of `Visualiser.start` with `System.nanoTime`, and the `invokeAndWait(render)` hand-off. `Visualiser.Tick` models one pass, with the frame time as an input. The render call inside the pass is left out, and `Renderer.RenderScene` models it on its own.
- The `Visualiser.setDisplayFPS` consumer and the formatting of the report string. `Tick` returns the two counts it would print.
- `Main.readData`'s file dialogs, `Files.lines`, `String.split` and `Float.parseFloat`. A file is modelled as its sequence of lines, each already either empty or three numbers.
  - Malformed lines and `IOException` are not modelled.
  - `Random.nextInt` is a parameter `draws`, the k-th draw of the stream.
- The view and projection matrices (`Transformation`, JOML `Matrix4f`) and the geometry of `Camera`. The transform is a function parameter. The camera is the log of its `move`/`rotate` calls.
- `Canvas` internals: what `setPixel` does with out-of-range coordinates, and with its depth argument. Only the sequence of calls is modelled.
- IEEE `float` and `double` behaviour: NaN, infinities and rounding. All floating values are reals.
  - `Float.POSITIVE_INFINITY` is the `Infinity` bound of the scan.
  - `deltaTime / 1e9f` is an exact real division.
  - `time > 1e9` is compared as an integer, which is exact, since 10^9 is representable.
- Rendering.Renderer.RenderScene: requires every transformed `w` to be non-zero. `renderScene` divides by the transformed `w` without a guard (Renderer.java:28, 40), so a zero `w` has no behaviour to model.
- Visualising.Visualiser.Tick: `frames`, `updates` and `time` are unbounded integers, so the wrap-around of the `int` counters and the `long` time after billions of frames is not modelled.
- The empty handlers `mouseMoved`, `keyTyped`, `mouseReleased`, `mouseEntered` and `mouseExited` change nothing.
- Events arrive on the Swing event thread while the loop runs on another. The model treats every handler and every update as atomic.
- `Visualiser.setScene`: the scene is given to the constructor.
- Entities.Scene.constructor: a new `Scene` has a `null` camera (Scene.java:9), and `Main` assigns it after loading (Main.java:27). The model gives the scene its camera when it is made, since nothing here uses a scene without one.
- Object identity: a point's centroid is an index into the scene's list, not a shared reference, and the renderer replaces a centroid value rather than mutating a shared object.
- An empty centroid file is not rejected. Every point's centroid stays `null` (Main.java:64-73), and `renderScene` throws a `NullPointerException` at the first drawn point (Renderer.java:45). In the model, `NearestCentroid` returns `None` and `RenderScene` returns that point's index.
