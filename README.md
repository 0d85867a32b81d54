# vr-maze core, modelled in Dafny

This project models four pieces of logic from the vr-maze repository and proves properties of them:

- **Maze grid and wall boxes** (`maze/maze.cpp`). The maze is a row-major grid of `unsigned short` size. `true` means a blocked cell. `addRandomLoop` blocks the border of a rectangle chosen from four `rand()` results, and `generate` repeats it `(width + height) / 6` times. `generateAabb` scans every row and then every column with two run accumulators ("front" and "back"). It emits one box per finished run and then appends an outer-wall box and a floor box.
- **Axis-aligned bounding boxes** (`maze/aabb.cpp`, `maze/aabb.h`, `maze/bvec.hpp`):
  - the constructor orders the two corners by squared length;
  - the strict per-axis overlap test, the point classification and the enclosure test;
  - the edge-triggered `collided` flag;
  - the three-component boolean vector `BVec` that the queries return.
- **Wireframe edge list** (`maze/box.cpp`). `Box::init` builds the eight corners of a box from two points and lists its twelve edges as 24 line vertices.
- **Key-driven render settings** (`flying-things/flying-things.cpp`). The key handler keeps three bounded counters and five toggles. Those bounds make the render loop's vertex-array index `_vaos[type][lod]` safe.

Modules, one concept per file:

| file | module | models |
|---|---|---|
| `outcomes.dfy` | `Outcomes` | `Option`, and `Result`, whose `OutOfRange` case models the exception thrown by `std::vector::at` |
| `bvec.dfy` | `BVecs` | `BVec` |
| `bounds.dfy` | `Bounds` | `QVector3D` over reals, and the value types `BoundingBox`, `BoundAxis`, `Bound` |
| `aabb.dfy` | `Aabbs` | corner ordering, the queries, and the class `Aabb` |
| `box.dfy` | `Wireframe` | `Box::init` |
| `runs.dfy` | `RunMerge` | the front/back run merge of one line, as a reference predicate (`MaximalRun`), a functional specification (`Scan`) and the imperative loop (`ScanLine`) |
| `maze.dfy` | `Mazes` | the class `Maze` with its `cells` and `boxes` fields, and the functions that specify its methods |
| `settings.dfy` | `FlyingThings` | the key handler (class `App`), its pure specification `Press`, and the render index |

Each operation of the `Maze`, `Aabb` and application objects that updates their fields or runs a loop is a Dafny method. Its `ensures` ties the new state to a specification function of the old state. For example, `AddRandomLoop` ends in `Carve`, `Generate` in `Carved`, `GenerateAabb` in `ScanBoxes`, and `KeyPressEvent` in `Press`. Lemmas then prove what the source promises about those functions. `Box::init` has no loop, and the only fields it sets are the vertex count and the vertex-array handle, so it is the pure function `Wireframe.Init`, whose result's length is that count.

Where the code departs from the intended behaviour, the model follows the code:

- A zero-width or zero-height grid is accepted. Also, `initMaze` truncates `width * height` to 16 bits, so a 256 by 256 grid has no cells at all (`FullSizeGridTruncatesToEmpty`). On a truncated grid with both sides non-zero, `printMaze`, which `initMaze` calls after `generate`, reads the last cell past the end and throws, so `initMaze` cannot finish there (`PrintLastCellOutOfRangeIffTruncated`).
- Neighbour lookups outside the grid are meant to read as blocked. The code reads them through `.at()`, which throws. The model has both forms: `GenerateAabbAsWritten` is the code, and `GenerateAabb` is the intended behaviour (see "## Findings").

Other behaviours of the code that the model keeps:

- The corner ordering is by squared length, not componentwise. It can leave an axis reversed (`CornerOrderNotComponentwise`). For the one-cell run at cell (0, 0), the two corners tie, so they are stored swapped (`RunBoxCorners`).
- The default `Aabb` is a point at the origin. Under the strict test it overlaps neither itself nor another default box. It does overlap exactly those boxes whose open interior holds the origin (`DefaultBoxOverlap`).
- The outer wall's corners are stored swapped when the maze has fewer than two rows, and the floor's when `width + height <= 1` (`OuterWall`, `Floor`).
- In the column scan, the forward lookup of the last column reads the first cell of the next row (`LastColumnForwardWraps`), except in the last row, where it is out of range (`LastColumnForwardLastRowOutOfRange`). In the row scan, the forward lookup of the last row is out of range (`LastRowForwardLookupOutOfRange`).
- A run that is still open at the end of a line is dropped, never emitted (`MaximalRun` requires a cell after the run; `FiveCellWallGivesOneRun`).
- `generate`'s loop fails through `.at()` only when the grid was truncated. `AddRandomLoop` stops at the first write past the end. Every cell already written stays blocked.

Inputs from outside the program become parameters:

- `rand()` results are a sequence of `Draw` records, one per loop, each holding four naturals in call order.
- The scene node's model matrix in `getBox` is an arbitrary function `model: Vec3 -> Vec3` applied to both corners.
- The `collided` signal is a counter, `signals`.
- The initial value of `_collided` is not visible in the source, so it is a constructor parameter.

## Model

| member | source | states |
|---|---|---|
| Aabbs.CornerOrder | maze/aabb.cpp:11-14 | the stored first corner never has the larger squared length, and the stored pair is the given pair or its swap |
| Aabbs.CornerOrderSwap | maze/aabb.cpp:11-14 | swapping the arguments gives the same stored box when the squared lengths differ; on a tie the second argument is always stored first |
| Aabbs.CornerOrderNotComponentwise | maze/aabb.cpp:11-14 | the ordering is not a componentwise min/max: (1,0,0), (0,0,2) is kept with x reversed |
| Aabbs.DefaultBox | maze/aabb.h:36-37 | the default `Aabb` has both corners at the origin |
| Aabbs.DefaultBoxOverlap | maze/aabb.h:36-37 | the default box does not overlap itself on any axis, yet it overlaps a box exactly when the origin lies strictly inside that box |
| Aabbs.BoundsPoint | maze/aabb.cpp:55-63 | all six `bottom`/`top` flags hold exactly when the point lies in the closed box |
| Aabbs.OverlapSymmetric | maze/aabb.cpp:40-53 | `getOverlap` and `hasOverlap` give the same answer with the two boxes swapped |
| Aabbs.SelfOverlap | maze/aabb.cpp:45-50 | a box overlaps itself on an axis exactly when its extent there is strictly positive, and overlaps itself fully exactly when that holds on all three axes |
| Aabbs.AxisOverlapSharedPoint | maze/aabb.cpp:45-50 | for intervals of positive length, an axis test holds exactly when the open intervals share a point |
| Aabbs.HasOverlapSharedPoint | maze/aabb.cpp:79-82 | for boxes of positive extent, `hasOverlap` holds exactly when the open boxes share a point |
| Aabbs.Overlap | maze/aabb.cpp:40-53 | `getOverlap` on two boxes: the strict interval test per axis; its properties are `OverlapSymmetric`, `SelfOverlap` and `AxisOverlapSharedPoint` |
| Aabbs.HasOverlap | maze/aabb.cpp:79-82 | `hasOverlap`: all three axes of `Overlap`; its meaning is `HasOverlapSharedPoint` |
| Aabbs.Contain | maze/aabb.cpp:65-77 | `getContain`: per axis, both corners of the other box classified inside by `BoundsPoint`; its meaning is `ContainMeansEnclosure` and `ContainAllMeansCornersInside` |
| Aabbs.ContainMeansEnclosure | maze/aabb.cpp:65-77 | for an ordered other box, `getContain` holds on an axis exactly when the other interval lies inside this one |
| Aabbs.ContainAllMeansCornersInside | maze/aabb.cpp:65-77 | for any other box, ordered or not, `getContain` holds on all axes exactly when both of its corners lie in the closed box |
| Aabbs.SelfContain | maze/aabb.cpp:65-77 | a box contains itself on an axis exactly when its corners are ordered there |
| Aabbs.Aabb.constructor | maze/aabb.cpp:3-22 | the stored corners are `CornerOrder(a, b)`; the name, model matrix and flag are as given, and no signal has fired |
| Aabbs.Aabb.GetBox | maze/aabb.cpp:24-30 | both stored corners are mapped by the model matrix, and with an identity matrix the stored box comes back |
| Aabbs.Aabb.GetOverlap | maze/aabb.cpp:40-53 | `getOverlap` on two volumes: `Overlap` of their boxes in world space; symmetric by `AabbOverlapSymmetric` |
| Aabbs.Aabb.HasOverlapWith | maze/aabb.cpp:79-82 | `hasOverlap`: all three axes of `GetOverlap`; its meaning is `AabbHasOverlapSharedPoint` |
| Aabbs.AabbHasOverlapSharedPoint | maze/aabb.cpp:79-82 | for world-space boxes of positive extent, `hasOverlap` holds exactly when the two open boxes share a point |
| Aabbs.Aabb.BoundsPointOf | maze/aabb.cpp:55-63 | `boundsPoint`: all six flags hold exactly when the point lies in the closed world-space box |
| Aabbs.Aabb.GetContain | maze/aabb.cpp:65-77 | `getContain`: all three axes hold exactly when both world-space corners of the other volume lie in this one's closed box |
| Aabbs.AabbOverlapSymmetric | maze/aabb.cpp:40-82 | `getOverlap` and `hasOverlap` on two volumes give the same answer in either order |
| Aabbs.Aabb.SetCollided | maze/aabb.cpp:88-97 | afterwards the flag equals the argument, and the signal fired once exactly when the argument is true and the flag was false |
| Aabbs.Aabb.IsCollided | maze/aabb.cpp:99-102 | returns the flag |
| Aabbs.Aabb.IsObstacle | maze/aabb.cpp:109-112 | holds exactly when the name is empty |
| Aabbs.SetCollidedTwice | maze/aabb.cpp:88-102 | two `setCollided(true)` calls leave the box collided and fire the signal at most once, and not at all when it was already collided |
| BVecs.BVec.AndAssign | maze/bvec.hpp:11-18 | `&=`, returned as a new value since the receiver cannot change: it holds on all axes exactly when both operands do, and on some axis only if both do on some axis; `AndIsComponentwise` gives it per component |
| BVecs.BVec.Any | maze/bvec.hpp:24-26 | `any()`: some component holds; `AllImpliesAny` |
| BVecs.BVec.All | maze/bvec.hpp:27-29 | `all()`: every component holds; `AllImpliesAny` and `And` |
| BVecs.Uniform | maze/bvec.hpp:9 | `BVec(v)` satisfies `all()` and `any()` exactly when v holds |
| BVecs.And | maze/bvec.hpp:19-22 | `(a & b).all()` equals `a.all() && b.all()`; `(a & b).any()` implies both `any()` |
| BVecs.AndIsComponentwise | maze/bvec.hpp:11-22 | `&` (through `&=`) is the componentwise conjunction |
| BVecs.AndCommutative | maze/bvec.hpp:19-22 | `a & b == b & a` |
| BVecs.AndAssociative | maze/bvec.hpp:19-22 | `(a & b) & c == a & (b & c)` |
| BVecs.AndIdempotent | maze/bvec.hpp:19-22 | `a & a == a` |
| BVecs.AndUnitAndZero | maze/bvec.hpp:9-22 | `BVec(true)` is the unit of `&` on both sides and `BVec(false)` absorbs on both sides |
| BVecs.AllImpliesAny | maze/bvec.hpp:24-29 | `all()` implies `any()` |
| Wireframe.Corners | maze/box.cpp:16-24 | the corners p1..p8; `CornersAreTheEightCombinations` states which coordinate each takes from k or l |
| Wireframe.Vertices | maze/box.cpp:26-41 | the 24-entry vertex list; `VerticesFollowSegments` states it pairs up as the twelve segments, `SegmentsAreCubeEdges` and `EveryCubeEdgeIsListed` that those are the cube's edges |
| Wireframe.Init | maze/box.cpp:13-66 | a point list shorter than two fails as `at()` does, and only then; otherwise there are 24 vertices, and vertices 2j and 2j+1 are the corners that segment j joins. The GL calls are not modelled |
| Wireframe.CornersAreTheEightCombinations | maze/box.cpp:16-24 | corner i takes each coordinate from k or l as `CornerPicks[i]` says; the eight picks are all eight combinations, each once; p1..p4 use k.y and p5..p8 use l.y |
| Wireframe.VerticesFollowSegments | maze/box.cpp:26-41 | the 24-entry vertex list holds, for each of the twelve segments in order, its two endpoints |
| Wireframe.SegmentsAreCubeEdges | maze/box.cpp:26-41 | each of the twelve segments joins two corners that differ in exactly one coordinate's source |
| Wireframe.SegmentsAreDistinct | maze/box.cpp:26-41 | no edge is listed twice, in either direction |
| Wireframe.EachCornerEndsThreeSegments | maze/box.cpp:26-41 | every corner is an endpoint of exactly three segments |
| Wireframe.EveryCubeEdgeIsListed | maze/box.cpp:26-41 | every pair of corners that differ in one coordinate's source is a listed segment, so the list is exactly the cube's edges |
| Mazes.Carve | maze/maze.cpp:39-48 | the writes of one loop, in source order; `CarveIsPerimeter` states they block exactly the rectangle's border, `CarveGrows` that no cell opens |
| Mazes.Carved | maze/maze.cpp:61-67 | the grid after the first n loops; `CarvedGrows` states no cell opens, and each loop is `Carve` (`CarveThroughIsCarve`) |
| Mazes.OuterWall | maze/maze.cpp:146-149 | the outer-wall box (-1.5, -0.5, -0.5) to (-0.5, 0.5, height + 0.5), stored swapped by the corner ordering exactly when height is at most 1 |
| Mazes.Floor | maze/maze.cpp:151-154 | the floor box (-0.5, -2, -0.5) to (width + 0.5, -0.5, height + 0.5), stored swapped exactly when width + height is at most 1 |
| Mazes.RemainderIsMod | maze/maze.cpp:34-37 | the remainder used for the loop coordinates is `%` |
| Mazes.HalfIsDiv | maze/maze.cpp:34-37 | the halving used for the loop coordinates is integer `/ 2` |
| Mazes.LoopRect | maze/maze.cpp:34-37 | for a non-empty grid, `xa <= xb < width` and `ya <= yb < height`, and the near corner lies in the lower half of each side |
| Mazes.MarkRowsGrows | maze/maze.cpp:39-43 | each further column of the first loop only adds blocked cells |
| Mazes.MarkSidesGrows | maze/maze.cpp:44-48 | the second loop only adds blocked cells |
| Mazes.CarveGrows | maze/maze.cpp:39-48 | a loop never opens a cell, and what the first loop has written by any column is kept by the whole loop |
| Mazes.RowsStopBetween | maze/maze.cpp:39-43 | wherever the first loop stops, the grid lies between the old grid and the whole loop's writes |
| Mazes.CarvedGrows | maze/maze.cpp:61-67 | carving any number of loops never opens a cell |
| Mazes.IndexCoords | maze/maze.cpp:275 | a row-major index `y * width + x` with `0 <= x < width` and the pair (`i % width`, `i / width`) determine each other |
| Mazes.MarkRowsAt | maze/maze.cpp:39-43 | after columns xa..x-1, exactly the old cells plus the top and bottom rows of those columns are blocked |
| Mazes.MarkSidesAt | maze/maze.cpp:44-48 | after rows ya..y-1, exactly the old cells plus the left and right columns of those rows are blocked |
| Mazes.CarveIsPerimeter | maze/maze.cpp:39-48 | a loop whose rectangle fits in the grid blocks exactly the cells on the rectangle's border and changes no other cell |
| Mazes.RunBoxCorners | maze/maze.cpp:90-92 | a run's box keeps its corners (start-0.5, ...) to (end+0.5, ...) as given, except the one-cell run at (0, 0), which is stored swapped |
| Mazes.LineBoxesAreMaximalRuns | maze/maze.cpp:78-106 | every run found on a line is a maximal run of open cells with a blocked neighbour on that face, and every such maximal run gives a box |
| Mazes.Maze.constructor | maze/maze.cpp:19-25 | the grid has `ToU16(width * height)` cells, all open, and no boxes |
| Mazes.Maze.BlockAt | maze/maze.cpp:273-276 | reading cell (x, y) succeeds exactly when `y * width + x` is below the grid size, and yields that cell |
| Mazes.Maze.SetBlocked | maze/maze.cpp:273-276 | writing cell (x, y) succeeds exactly when the index is in range and then blocks exactly that cell; otherwise nothing changes |
| Mazes.Maze.BlockRows | maze/maze.cpp:39-43 | the first loop succeeds exactly when the rectangle's last cell is in the grid, and then has made the top and bottom rows' writes; in every case it only adds cells the whole loop would block |
| Mazes.Maze.BlockSides | maze/maze.cpp:44-48 | the second loop makes the left and right columns' writes |
| Mazes.Maze.AddRandomLoop | maze/maze.cpp:32-49 | succeeds exactly when the rectangle's last cell is in the grid, and then the grid is `Carve` of the old one (the rectangle's border blocked, `CarveIsPerimeter`); in every case no cell opens and nothing outside the loop's writes is blocked |
| Mazes.Maze.NextLoop | maze/maze.cpp:65-66 | one pass of `generate`'s loop advances `Carved` by one loop, never opens a cell, and cannot fail on an untruncated grid |
| Mazes.Maze.Generate | maze/maze.cpp:61-67 | `(width + height) / 6` loops never open a cell; on success the grid is `Carved` of the old one, and on an untruncated grid it always succeeds |
| Mazes.Maze.GenerateAabbAsWritten | maze/maze.cpp:69-154 | the unguarded scan fails on every valid non-empty grid, since success needs the out-of-range lookup of (0, 65535); on an empty grid it appends just the outer wall and the floor |
| Mazes.Maze.AppendRunBoxes | maze/maze.cpp:88-105 | appends one box per finished run, in order |
| Mazes.Maze.AddLineBoxes | maze/maze.cpp:78-106 | appends the boxes of one line's runs, in the order the merge emits them |
| Mazes.Maze.AddScanBoxes | maze/maze.cpp:73-144 | appends the boxes of every row, or every column, line by line |
| Mazes.Maze.GenerateAabb | maze/maze.cpp:69-154 | the boxes become the old ones, then the row runs, then the column runs, then the outer wall and the floor, with out-of-grid neighbours read as blocked |
| Mazes.OriginBackLookupOutOfRange | maze/maze.cpp:80-82 | on a valid grid of non-zero width, the backward lookup of cell (0, 0), at row 65535, is out of range |
| Mazes.LastRowForwardLookupOutOfRange | maze/maze.cpp:81 | on a valid grid, the forward lookup of the last row is out of range |
| Mazes.LastColumnForwardWraps | maze/maze.cpp:118 | the forward lookup of the last column reads the first cell of the next row |
| Mazes.LastColumnForwardLastRowOutOfRange | maze/maze.cpp:118 | in the last row, the last column's forward lookup, at index height * width, is out of range |
| Mazes.PrintLastCellOutOfRangeIffTruncated | maze/maze.cpp:51-58 | with both sides non-zero, `printMaze`'s read of the last cell is out of range exactly when the grid was truncated |
| Mazes.FullSizeGridTruncatesToEmpty | maze/maze.cpp:25 | a 256 by 256 maze has an empty grid, because 65536 truncates to 0 |
| RunMerge.Scan | maze/maze.cpp:78-106 | the emissions of the merge from a cell on, front before back at each cell; `ScanFromCell` states they are exactly the maximal runs, `ScanOrdered` that they come in order |
| RunMerge.Step | maze/maze.cpp:84-94 | one accumulator step emits at most one run, which ends at the previous cell, and leaves a run open exactly when the cell is active |
| RunMerge.StepIsTheTwoTests | maze/maze.cpp:84-105 | the source's start test followed by its end test computes `Step` |
| RunMerge.ScanFromCell | maze/maze.cpp:78-106 | from any cell on, the scan emits exactly the maximal front and back runs that end there or later |
| RunMerge.ScanOrdered | maze/maze.cpp:78-106 | runs are emitted in the order of the cell that ends them, front before back at the same cell |
| RunMerge.ScanLine | maze/maze.cpp:75-106 | the merge loop computes `Scan`; its front runs are exactly the maximal front runs, its back runs exactly the maximal back runs, and they come out ordered |
| RunMerge.FiveCellWallGivesOneRun | maze/maze.cpp:78-106 | a wall of five cells gives one front run, not five, and a back run reaching the end of the line is dropped |
| FlyingThings.Initial | flying-things/flying-things.cpp:33-46 | the initial settings are in range and every toggle is off |
| FlyingThings.Press | flying-things/flying-things.cpp:253-297 | the effect of one key press; `PressKeepsRange`, `PressChangesAtMostOneField`, `ToggleTwiceRestores` and `TypeKeyCycles` state its properties |
| FlyingThings.PressKeepsRange | flying-things/flying-things.cpp:253-297 | every key keeps `1 <= objects < 10240`, `0 <= objectLOD <= 17` and `0 <= objectType <= 4` |
| FlyingThings.PressChangesAtMostOneField | flying-things/flying-things.cpp:253-297 | every key changes at most one field, a toggle key exactly one, and an unlisted key none |
| FlyingThings.ToggleTwiceRestores | flying-things/flying-things.cpp:260-295 | Space, P, F, B or L pressed twice restores the settings |
| FlyingThings.TypeKeyCycles | flying-things/flying-things.cpp:279-283 | five presses of T bring the object type back to where it started |
| FlyingThings.PressAllKeepsRange | flying-things/flying-things.cpp:253-297 | any key sequence keeps settings in range |
| FlyingThings.RenderIndex | flying-things/flying-things.cpp:193-201 | for settings in range, the type and level of detail index the 4 by 18 vertex-array table, with the set type used when it is below 4 |
| FlyingThings.RenderIndexSafeAfterKeys | flying-things/flying-things.cpp:193-210 | after any key sequence from the initial state, `_vaos[type][lod]` is inside the table for every object |
| FlyingThings.App.constructor | flying-things/flying-things.cpp:33-46 | the settings start as `Initial()` |
| FlyingThings.App.WantExit | flying-things/flying-things.cpp:234-237 | `wantExit`: returns the flag that Escape sets |
| FlyingThings.App.KeyPressEvent | flying-things/flying-things.cpp:253-297 | the new settings are `Press` of the old ones, so the lemmas about `Press` hold of the handler |

## Left out

- Rendering is not modelled: shaders, textures, vertex arrays, `glRender`, `genFace`, `generateGeometry` and the GL buffer upload in `Box::init`. It is many floating-point matrix transforms and calls into the GL driver.
- The output of `printMaze` and the log line in `initMaze` are not modelled, because they only write to standard output. `printMaze` also reads every cell through `.at()`; that read is modelled by `BlockAt`, and its one failure, on a truncated grid, by `PrintLastCellOutOfRangeIffTruncated`.
- `initMaze`'s calls to `generate` and `generateGeometry` are not modelled as part of the constructor. `Generate` is a separate method on the constructed maze, and geometry is out with rendering.
- `Maze::collision`, `getRandomPos`, `addObstacle` and `addButton` are not modelled, because their bodies are not in the source files. `maze/main.cpp`, `maze/main.hpp`, `maze/drawable.*`, `maze/line.*`, `maze/material.h` and `maze/box.h` are not part of this model; they are rendering and device glue.
- `initProcess`, the rest of `render`, `update`, and `serializeDynamicData`/`deserializeDynamicData` of the flying-things demo are not modelled. They are GL, timers, floating-point angles and stream I/O.
- `rand()` itself is not modelled: its results come in as `Draw` records.
- `rand() % _width` (or `% _height`) divides by zero when that side is 0 and the other is large enough for at least one loop (`width + height >= 6`). That is undefined behaviour in C++, and `Generate`'s precondition excludes it.
- `y * _width + x` is computed in C++ `int`, which overflows when it exceeds 2^31 - 1. The model computes the index unbounded. Such an index is out of range in the model, just as the wrapped negative `int` converted to `size_t` would be, but the undefined behaviour itself is not modelled.
- `float` coordinates are modelled as exact reals, so rounding is not captured.
- `Box::init` is modelled as the pure function `Wireframe.Init`: the vertex count it assigns to `_vertexCount` is the length of the returned list, and the vertex-array handle is rendering state.
- The query methods take the other `Aabb`; the model also states each query on plain `BoundingBox` values, which are the boxes after the model matrix is applied (`GetBox`).
- The `Maze` constructor's default arguments, a 32 by 32 grid declared in `maze/maze.h`, are not modelled; the width and height are always passed.
- The `_box` child and `setLines` are not modelled, nor the `renderable`, `color` and `parent` constructor arguments. They only affect rendering. `getAB` returns the same two corners as `GetBox` as a list and is not modelled separately.
- `_aabb_list` holds `Aabb` objects; the model keeps only the `BoundingBox` each one stores after the corner ordering, not their names or model matrices.
- The header `maze/aabb.h` declares a two-argument `Aabb` and `vector<bool>` results; the model follows `maze/aabb.cpp`'s six-parameter constructor (`a`, `b`, `renderable`, `color`, `name`, `parent`) and `BVec` results.
- Mazes.Maze.GenerateAabbAsWritten: it states only when the unguarded scan fails and what an empty grid produces, not the boxes it appends before failing, since on a valid non-empty grid it fails at the first cell.
- Mazes.Maze.GenerateAabb: it requires an untruncated grid (`|cells| == width * height`), because on a truncated grid the cells of the width by height rectangle that lie past the end of the stored grid have no value, so there is no intended reading of them. It also computes each line's cells and neighbours up front before running the merge over them, instead of reading them one by one inside the loop.
- Mazes.Maze.Generate: an exception from `.at()` is modelled as `ok == false` with an early return. After a failure it states only that no cell opened.
- Mazes.Maze.BlockRows, Mazes.Maze.BlockSides and Mazes.Maze.NextLoop are the two loops of `addRandomLoop` and the body of `generate`'s loop, split out as methods.
- FlyingThings.App.KeyPressEvent: the nine fields it updates are grouped as one `Settings` record. Its contract ties the new record to `Press`, and the range invariant follows through `PressKeepsRange` rather than being restated. `wantExit` is the plain accessor `App.WantExit`.

## Findings

| source | as written | input that shows it | evidently intended | confidence | as-written member | corrected member |
|---|---|---|---|---|---|---|
| maze/maze.cpp:80-82 | `generateAabb` reads the backward neighbour `mazeBlockAt(x, y - 1)` without a guard. At y = 0 the `unsigned short` wraps to 65535, the index `65535 * width` is past the grid, and `.at()` throws. The call of `generateAabb` at maze/maze.cpp:29 is commented out. | any grid with width > 0 and height > 0, at cell (0, 0) | neighbours outside the grid read as blocked, so every maximal run with a blocked neighbour gives one box | not executed | Mazes.Maze.GenerateAabbAsWritten | Mazes.Maze.GenerateAabb |
