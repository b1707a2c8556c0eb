# OBJ loader and keyboard handler of a small OpenGL viewer

The program loads a Wavefront OBJ mesh twice, once per on-screen object. It
tints each copy with a constant colour and draws both. The arrow keys and
letter keys move, scale and rotate the selected object.

This project models the two parts of `src/main.cpp` that have logic of their own.

- `loadSimpleOBJ` reads the `v`, `vt`, `vn` and `f` lines of a file. It flattens
  every face corner into an interleaved buffer of 11 floats per vertex:
  position, colour, normal, then texture coordinate. It reports
  `nVertices = |buffer| / 11`.
- `key_callback` updates the rotation flags, the selected object and the
  placement of the selected object.

Modules:

- `Obj` (`obj.dfy`) holds the data model.
  - A file is a sequence of already-lexed lines. The first word of a line is its `tag`.
  - A word after the tag is a `Number`, a `p/t/n` reference `Ref`, or any other `Word`.
  - Floats are only copied, never computed with, so each one is kept as its 32-bit pattern (`bv32`).
- `Obj` also holds the loader as functions. `StepLine` is one pass of the loop body. `ParseLines` is the whole loop. `Load` is the whole call.
- `Obj` also holds independent definitions to check the loader against.
  - `Positions`, `TexCoords`, `Normals` and `Corners` say what the file contains.
  - `FaultAt` and `MarksFirstFault` say which line is bad.
- `Loader` (`loader.dfy`) is the loader as the source writes it: a loop over lines that pushes onto four vectors, with an inner loop over the words of each `f` line. Each method is proved equal to its `Obj` function.
- `Keys` (`keys.dfy`) models the callback's globals as a class `Viewer` with an array of two placements. `KeyCallback` is its state-changing method.
- `Scenarios` (`scenarios.dfy`) holds concrete files worked through the specification:
  - a textured triangle
  - a four-corner face, which is not triangulated
  - a face that refers to a texture coordinate before one is defined

Errors:

- A file that cannot be opened is given as `None`. It gives `Err(FileNotFound)` and no buffer, as at `src/main.cpp:515-519`.
- The source has no error path for bad input.
  - `stoi` throws on a non-numeric index.
  - A face word with fewer than three indices reuses the last index it read, and one with more than three ignores the extra ones; see `Obj.EmitCornersFault` under "## Left out".
  - Out-of-range indices read outside the vectors.
  - A `v`, `vt` or `vn` line with too few numbers pushes whatever `>>` left in the vector.
- The model makes these explicit, terminal errors:
  - `MalformedNumber(line)` for a `v` or `vn` line with fewer than three leading numbers, a `vt` line with fewer than two, or a face word that is not `p/t/n`.
  - `MalformedReference(line)` for a face index outside the entries read so far.
  - No partial mesh is returned on any error.
- In these cases the model matches the code:
  - Extra words after the numbers are ignored.
  - Unknown tags and empty lines are skipped.
  - A face of k words gives k vertices.

## Model

| member | source | states |
|---|---|---|
| Loader.LoadSimpleObj | src/main.cpp:376-519 | The loop over lines produces exactly `Obj.Load`. Its invariant is that the four vectors equal the specified parse of the lines read so far. On a fault it returns that line's error at once. |
| Loader.AppendCorners | src/main.cpp:420-461 | The inner loop over a face line's words appends exactly what `Obj.EmitCorners` specifies to the buffer, or stops with the first bad word's error. |
| Loader.PushRecord | src/main.cpp:441-456 | The eleven `push_back` calls append exactly one `Record`: position, colour, normal, texcoord. |
| Obj.RecordLayout | src/main.cpp:494-506 | A record is 11 floats, with position at offsets 0-2, colour at 3-5, normal at 6-8 and texcoord at 9-10. This matches the attribute pointers given to the GPU. |
| Obj.EmitCornersFault | src/main.cpp:422-439 | A face line succeeds iff every word is a `p/t/n` whose 1-based indices name existing entries. On failure, the error is the fault of the first bad word. |
| Obj.EmitCornersRecords | src/main.cpp:422-460 | A successful face line emits one record per word, in order. Each record is built from `vertices[p-1]`, `normals[n-1]` and `texCoords[t-1]`. |
| Obj.LineEffect | src/main.cpp:396-461 | Each `v`, `vt` or `vn` line appends exactly one entry to its own array and changes nothing else. An `f` line changes no array and appends 11 floats per word. Any other tag changes nothing. A line fails iff it has a fault, and the error names that fault. |
| Obj.ParseErrorPersists | src/main.cpp:390-462 | Once a prefix of the file fails, the whole file fails with the same error. |
| Obj.ParsedContents | src/main.cpp:390-462 | After a successful parse, the arrays are exactly the file's `v`, `vt` and `vn` entries in file order. The buffer is exactly one record per face word in file order. |
| Obj.ParseOutcome | src/main.cpp:420-456 | A file loads iff no line has a fault when judged only against the lines before it. So references resolve only against earlier lines. A failure names the first faulty line and its fault. |
| Obj.ColourFieldsAreCallerColour | src/main.cpp:446-448 | Every vertex of the buffer carries the caller's colour at offsets 3, 4 and 5. |
| Obj.ColourDoesNotDecideOutcome | src/main.cpp:376-462 | Whether a file loads, and with which error, does not depend on the colour. |
| Obj.ColourOnlyAffectsColourFields | src/main.cpp:441-456 | Two loads of one file with different colours give equal arrays and equal-length buffers. The buffers are equal at every offset other than 3, 4 and 5 of each record. |
| Obj.LoadResult | src/main.cpp:512-519 | A file that cannot be opened gives `FileNotFound`. On success, `nVertices` is the buffer length / 11 with no remainder, and equals the number of face words in the file. Any other failure is a malformed number or reference. |
| Keys.Moved | src/main.cpp:284-316 | The eight movement and scale branches. X moves with D/RIGHT and A/LEFT; y with W/UP and S/DOWN; z with E/RIGHT and Q/LEFT; scale with G/RIGHT and F/LEFT. So LEFT and RIGHT each fire three branches, and only presses count. |
| Keys.Opposite | src/main.cpp:284-316 | Exactly the twelve movement and scale keys have an opposite key different from themselves. |
| Keys.PressThenOpposite | src/main.cpp:284-316 | Pressing a movement key and then its opposite restores the placement. |
| Keys.Viewer.constructor | src/main.cpp:107-121 | The initial state: no rotation, object 0 selected, two objects at offset 0 with scale 1. |
| Keys.Viewer.KeyCallback | src/main.cpp:258-326 | Validity is kept: at most one axis, a selection in 0..1, two objects. After X, Y or Z exactly that axis rotates. 1 and 2 select objects 0 and 1. Movement keys change only the object selected when the key arrived, by the steps of `Moved`. ESC requests closing. Releases and repeats change nothing. |
| Scenarios.TriangleLoads | src/main.cpp:376-512 | A concrete triangle file loads to the expected 33 floats, with `nVertices` = 3. |
| Scenarios.TriangleFace | src/main.cpp:422-456 | The triangle's face line gives its three corner records in corner order. |
| Scenarios.TrianglePositions | src/main.cpp:396-403 | Three `v` lines fill the position array in file order. |
| Scenarios.QuadGivesFourVertices | src/main.cpp:420-461 | A four-corner face gives four vertices. It is not triangulated. |
| Scenarios.ReferenceBeforeDefinitionFails | src/main.cpp:420-456 | A face that names a texture coordinate before any `vt` line fails with `MalformedReference` on that line. It does not read out of bounds. |

## Left out

- OpenGL: the VAO and VBO creation, `glBufferData` and the attribute pointers are not modelled. The model keeps only the 11-float layout they describe, which `Obj.RecordLayout` states. GLFW window management, shaders, `loadTexture`, glm matrices and the render loop are also not modelled.
- File I/O: opening the file, `getline`, the `eof()` loop and `istringstream` word splitting are not modelled. A file is given as its already-lexed lines, or `None` when it cannot be opened. The extra empty line that `eof()` can produce is an unknown tag, so it changes nothing.
- Float parsing and `stoi` are not modelled: number words arrive as `Number` bit patterns and face words as `Ref(p, t, n)` integers.
- Int overflow is not modelled. The `int` range of `stoi` and of `vBuffer.size() / 11` is unbounded in the model.
- The error message on stdout and the `-1` return value are not modelled. A failed open is `Err(FileNotFound)`, and the caller's `nVertices` is not written.
- Obj.EmitCornersFault: requires every face word to be a full `p/t/n` triple and gives `MalformedNumber` for any other word. The source accepts shorter and longer forms. When a word runs out, `std::getline` leaves `index` holding its previous value (src/main.cpp:429-438). So `1` is read as `1/1/1`, `1/2` as `1/2/2`, and `1/2/3/4` as `1/2/3`, because `stoi` stops at the `/`. The model counts these forms as malformed.
- Obj.LoadResult: states that every failure on an opened file is a malformed number or reference. The source gives undefined behaviour there, or `stoi` throws. The model turns these into explicit errors, as described above.
- Keys.Moved: offsets count half units and scale counts quarter units as exact integers. Float rounding of repeated `+= 0.5f` and `+= 0.25f` is not modelled.
- Keys.Viewer.KeyCallback: ESC sets a `closeRequested` flag instead of calling `glfwSetWindowShouldClose`. The `window`, `scancode` and `mode` parameters are not modelled.
- Setup in `main` is not modelled: `objects[1].offsetX = 3.0f` (src/main.cpp:166), the two `loadSimpleOBJ` calls and the rotation angle used when drawing.
