# Shape stamping on a WebGL canvas, modelled in Dafny

The demo in `shapes/webgl.js` lets a user stamp one of five shapes (point,
horizontal line, vertical line, triangle, square) on a canvas. Moving the
pointer computes the selected shape's vertices around the pointer's
clip-space position. A click appends those vertices to the list of the
selected kind in a registry of five lists. It then lays the whole registry
out again into one vertex buffer: every kind in the fixed key order point,
hline, vline, triangle, square, and each kind's shapes in click order. Every
frame issues one draw call per stored shape, walking the same order. Each
call reads its vertices at a byte offset that grows by 8 bytes per vertex
drawn before it.

The model has four modules:

- `Geometry` (geometry.dfy): the per-kind vertex table (`GetVertices`) and
  the pointer-to-clip-space map (`ModelSpaceCoords`), over reals.
- `Layout` (layout.dfy): the registry as a value, its shapes in layout
  order (`Entries`) and the buffer laid out from them (`Flatten`).
- `Render` (render.dfy): the render loop's mode and vertex-count table
  (`ParamsOf`), the frame's draw calls as a value (`Schedule`), and the
  alignment theorem.
- `Canvas` (canvas.dfy): the script's module-level state as the class
  `Canvas.Scene`, with the event handlers as methods. The two nested loops
  of the source, flattening on click and drawing per frame, are the methods
  `FlattenRegistry` and `ScheduleRegistry`, proved against `Flatten` and
  `Schedule`.

The central fact is `Render.DrawReadsItsShape`. In a layout where every
stored shape has two floats per vertex of its kind, each draw call stays
inside the buffer and reads exactly the coordinates of the shape it draws.
The draws together end exactly at the end of the buffer. This rests on
`Render.ParamsAgreeWithVertices`: the render loop's vertex counts equal the
vertex table's for every kind. `Canvas.Scene.Render` carries the fact over
to the live state, using the uploaded buffer.

The source does not guarantee alignment. `draw(s)` changes the selected
kind but does not recompute the vertices under the pointer. A click after
`draw(s)` with no pointer move in between therefore stores the previous
kind's vertices under the new kind. `Canvas.Scene.DrawShape` states the
whole new state: it appends the current vertices, whatever their length,
to the selected kind's list, so alignment survives a click when the current
vertices fit the selected kind. `Canvas.Scene.UpdatePosition` makes them
fit, and `Canvas.Scene.Draw` does not. `Canvas.SelectThenClickWithoutMove`
plays the sequence out: after a pointer move with `point` selected,
selecting `triangle` and clicking stores a point's two coordinates as a
triangle, and the frame's draw call asks for three vertices from a
two-float buffer.

## Model

| member | source | states |
|---|---|---|
| `Geometry.GetVertices` | shapes/webgl.js:137-184 | the vertex count is 1 for a point, 3 for a triangle and 4 for the other kinds, with exactly two coordinates per vertex |
| `Geometry.ShapeIsPlacedAroundCenter` | shapes/webgl.js:141-182 | every kind's shape is its template at the origin, moved by the centre |
| `Geometry.PointIsItsCenter` | shapes/webgl.js:142-145 | a point has one vertex, the centre itself |
| `Geometry.HLineSpan` | shapes/webgl.js:146-154 | the four vertices of a horizontal line are the four distinct corners of the rectangle at x ± 0.3 and y ± half the line width |
| `Geometry.VLineIsTransposedHLine` | shapes/webgl.js:155-163 | a vertical line is the horizontal line with the axes exchanged, vertex for vertex, with mirrored winding |
| `Geometry.TriangleAroundCenter` | shapes/webgl.js:164-171 | the apex is 0.3 above the centre; the base runs from 0.3 left to 0.3 right of the centre, 0.3 below it |
| `Geometry.SquareCornersAroundCenter` | shapes/webgl.js:172-180 | the four vertices of a square are distinct, each half the magnitude from the centre on both axes |
| `Geometry.ModelSpaceCoords` | shapes/webgl.js:121-129 | the clip-space point returned is the one that `ClientPosition` (x scaling the canvas width onto -1..1 from the left edge, y scaling the height onto 1..-1 from the top edge) maps back to the pointer position |
| `Geometry.ModelSpaceOfClientPosition` | shapes/webgl.js:126-127 | every clip-space point is reached from the page position ClientPosition gives, so the map is a bijection |
| `Geometry.ModelSpaceLandmarks` | shapes/webgl.js:126-127 | the canvas centre maps to (0, 0), the left and right edges to x = -1 and 1, the top and bottom edges to y = 1 and -1, and y decreases as the pointer moves down |
| `Layout.Entries` | shapes/webgl.js:211-217 | the layout holds one shape per stored coordinate list, summed over the five kinds |
| `Layout.Flatten` | shapes/webgl.js:211-217 | the buffer is the point lists' coordinates, then the horizontal lines', vertical lines', triangles' and squares', each kind's lists concatenated in click order |
| `Layout.JoinTagged` | shapes/webgl.js:214-216 | laying out the shapes of one kind concatenates that kind's coordinate lists in order |
| `Layout.FlattenInKeyOrder` | shapes/webgl.js:211-217 | joining the shapes in key order yields the five kinds' concatenated lists one after the other |
| `Layout.EntriesInKeyOrder` | shapes/webgl.js:10-16 | the layout lists all points, then horizontal lines, vertical lines, triangles and squares, each kind in click order |
| `Layout.JoinEntriesAppend` | shapes/webgl.js:213-217 | laying out two runs of shapes gives the first run's coordinates followed by the second's |
| `Layout.EmptyRegistryFlattensToEmpty` | shapes/webgl.js:211-218 | a registry with five empty lists has no shapes and lays out an empty buffer |
| `Render.ParamsAgreeWithVertices` | shapes/webgl.js:78-101 | for every kind, the render loop's vertex count equals the vertex table's, and the vertex table gives two coordinates per drawn vertex |
| `Render.ParamsOf` | shapes/webgl.js:79-101 | points are drawn one vertex at a time, triangles three, and the fans (both lines and the square) four; mode and count determine each other |
| `Render.VertexTotal` | shapes/webgl.js:76-111 | a run of shapes draws between one and four vertices per shape |
| `Render.Schedule` | shapes/webgl.js:76-111 | a frame issues exactly one draw call per stored shape, call i with the mode and vertex count of shape i's kind |
| `Render.FloatsRead` | shapes/webgl.js:106-109 | a draw call reads two floats per vertex, from float offset/4 on |
| `Render.PushKeepsAligned` | shapes/webgl.js:195 | appending a shape that fits its kind keeps every stored shape fitting its kind |
| `Render.ScheduleAt` | shapes/webgl.js:76-111 | draw call i draws layout shape i with its kind's mode and vertex count, at byte offset 8 times the number of vertices drawn before it |
| `Render.JoinLength` | shapes/webgl.js:211-217 | an aligned layout's buffer holds exactly two floats per vertex the frame draws |
| `Render.DrawReadsItsShape` | shapes/webgl.js:104-111 | in an aligned layout, draw call i stays in the buffer and reads exactly shape i's coordinates, and all draws end at the buffer's end |
| `Render.ScheduleReadsLayout` | shapes/webgl.js:67-113 | over a registry whose shapes fit their kinds, every draw call of a frame reads exactly its own shape from the flattened registry, and a non-empty registry flattens to a non-empty buffer |
| `Render.RegistryAlignedEntries` | shapes/webgl.js:195 | a registry whose every stored shape fits its kind lays out an aligned sequence of shapes |
| `Canvas.FlattenRegistry` | shapes/webgl.js:211-217 | the nested loops of a click produce exactly the registry's layout |
| `Canvas.ScheduleRegistry` | shapes/webgl.js:74-112 | the nested loops of a frame produce exactly the draw-call schedule of the registry's layout |
| `Canvas.Scene.constructor` | shapes/webgl.js:4-16 | after the script loads and selects `point`, all five lists are empty, the vertex count is 1, no vertices are current and nothing is uploaded |
| `Canvas.Scene.UpdatePosition` | shapes/webgl.js:186-191 | a pointer move makes the current vertices those of the selected kind around the pointer's clip-space position; nothing else changes |
| `Canvas.Scene.DrawShape` | shapes/webgl.js:193-223 | a click appends the current vertices to the end of the selected kind's list and leaves the other four lists unchanged; the buffer becomes the layout of the new registry unless that layout is empty, in which case nothing is uploaded; alignment is kept when the current vertices fit the selected kind |
| `Canvas.Scene.Draw` | shapes/webgl.js:226-229 | selecting a kind sets only the selected kind and the vertex count 1 |
| `Canvas.Scene.ClearCanvas` | shapes/webgl.js:232-238 | clearing empties all five lists and touches no other state |
| `Canvas.SelectThenClickWithoutMove` | shapes/webgl.js:186-229 | a pointer move with `point` selected, then selecting `triangle` and clicking, stores two coordinates as a triangle; the uploaded buffer is those two floats and the frame's one draw call, a 3-vertex triangle at offset 0, does not fit in it |
| `Canvas.Scene.Render` | shapes/webgl.js:67-113 | a frame's draw calls are the schedule of the registry's layout; when every stored shape fits its kind, each call reads exactly its shape from the uploaded buffer |

## Left out

- Shader compilation and linking (`setupProgram`), including the error raised when linking fails: driver work behind the WebGL API.
- The WebGL calls themselves: creating and binding the buffer, `bufferData`, `vertexAttribPointer`, `drawArrays`, `clearColor` and `clear`. The model keeps only the data they receive: the uploaded sequence and the draw-call triples.
- The lookup of the `a_Position` attribute and the creation of the vertex buffer on the first click. The failure message when buffer creation fails and the stray `a_Size` global are also left out.
- The DOM: the frame-counter element and its text, the assignment of the event handlers, and `getBoundingClientRect`. The rectangle's position and the canvas size are parameters of `ModelSpaceCoords` and `UpdatePosition`.
- The `requestAnimationFrame` loop: it only schedules `render` once per frame, and the model gives one frame as `Canvas.Scene.Render`.
- Floating point: the source computes the pointer map and the vertex table in IEEE double precision and copies the buffer into a `Float32Array`. The model computes over reals, so its exact equalities (the pointer map's round trip, the vertex positions, the landmarks) hold for real arithmetic and only up to rounding for the source's.
- The scratch array the click handler assigns to an undeclared global: it is a local of `Canvas.FlattenRegistry`, since nothing else reads it.
- Canvas.Scene.DrawShape: requires that a pointer move has happened. A click before any move pushes `undefined`, and the script then fails while flattening. That crash is not modelled.
- Canvas.Scene.Draw: takes one of the five kinds. A name outside them gives no vertices and makes the next click fail on the missing list; that is not modelled.
- Geometry.ModelSpaceCoords: requires a canvas of positive width and height. With a zero dimension the division yields infinities or NaN, which reals cannot express.
- Canvas.Scene.UpdatePosition: requires a canvas of positive width and height, for the same reason.
