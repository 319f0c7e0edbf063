# Mesh loading, transform algebra and input handling of the OpenGL demo

This project models the non-graphical core of `CGAula090322.cpp`, a small
OpenGL program that shows a textured, lit mesh and moves the camera, the
model and the light from the keyboard. The model covers:

- **Tokens** (`tokens.dfy`): `split`, which drops empty tokens, as a
  specification function plus the loop that computes it. It also models
  `std::stoi` as the face parser uses it: skip leading white space, an
  optional sign, a maximal digit run, the 32-bit range check, and trailing
  characters ignored.
- **Algebra** (`algebra.dfy`): the vector operations `cross`, `dot`, `minusV`,
  `diferrence`, `sum` and the `vec3(float)` constructor.
  - A `mat4` is sixteen reals in row-major order, entry `m[i][j]` at `4*i+j`.
  - The zeroing constructor, `mul` and `identity` are loop methods over a
    `4x4` array. Each is proved equal to a specification function.
  - `translateM` and `scaleM` are that product with the elementary matrix
    they build.
- **ObjLoader** (`obj.dfy`): the mesh loader.
  - `parseVector2`/`parseVector3` pick tokens and pass them through `stof`.
  - `createFace` turns each slash-separated index group into an index triple.
  - `loadObj` dispatches each line on its first two characters.
  - `generateNewIndexes` flattens the indexed pools into per-corner arrays.
  - The four global vectors are the fields of the class `Mesh`. Its methods
    are proved against the pure functions `DecodeFace`, `ApplyLine`,
    `LoadAll` and `Flatten`, and the properties are lemmas about those.
- **ObjScenario** (`scenario.dfy`): a complete load and flatten of a
  one-triangle file written in `v//n` form.
- **Input** (`input.dfy`): the `keyboard` handler.
  - `KeyStep` is the pure transition over `Settings`.
  - The class `Controls` holds the handler's globals, with `activeLights` and
    `posLuz` as arrays. `Controls.Keyboard` is proved to perform `KeyStep`.
- **Bitmap** (`bitmap.dfy`): the loop in `getBMPData` that swaps the first
  and third byte of every pixel in place, turning BGR into RGB.

Modelling choices:

- `float` is idealised as `real`.
- `stof` is a parameter `stof: string -> real`: the modelled code only
  decides which token it receives.
- Integer results of `stoi` are exact within the 32-bit range it enforces.
- Errors that the C++ raises as exceptions, or leaves undefined, are
  `LoadError` values:
  - `stoi` rejecting a field;
  - a `v`, `vt` or `vn` line with too few tokens, where C++ indexes `tokens[k]` out of
    range;
  - an index group with no field, where C++ reads `sVertex[0]` out of
    range, or with one field that `stoi` accepts, where C++ then reads
    `sVertex[1]` out of range. The fields are converted left to right, so a
    single field that `stoi` rejects reports `stoi`'s exception, as the C++
    does before any out-of-range read.

  A load stops at the first such error. The pools then keep everything
  pushed before it, in the order the C++ pushes them.
- `stof` cannot fail in the model: a coordinate token such as `a` in
  `v a b c` is passed to the `stof` parameter like any other, where
  `std::stof` would throw.

Two behaviours of the code worth stating outright:

- A `v`, `vn` or `vt` record may carry more than 3 (or 2) number fields.
  The code reads tokens 1 to 3 (or 1 to 2) and ignores the rest, and so
  does the model.
- A failed load does not undo the records read before the failure. In the
  code an uncaught `stoi` exception ends the program. The model keeps the
  partially filled pools, with the error beside them.

The two-field index group is reproduced as written: `a/b` is stored as
`(a-1, 0, b-1)`, so the texture index lands in the normal slot
(`DecodePositionTexture`). The same branch makes `a//b` mean position and
normal (`DecodePositionNormal`).

## Model

| member | source | states |
|---|---|---|
| Tokens.Split | CGAula090322/CGAula090322.cpp:524-537 | definition of `split`; its properties are SplitWellFormed, ConcatSplit and SplitJoin |
| Tokens.SplitTokens | CGAula090322/CGAula090322.cpp:524-537 | the getline loop returns exactly the tokens of `Split(s, d)` |
| Tokens.SplitWellFormed | CGAula090322/CGAula090322.cpp:524-537 | every token is non-empty and contains no delimiter |
| Tokens.ConcatSplit | CGAula090322/CGAula090322.cpp:524-537 | concatenating the tokens in order gives the input with every delimiter removed: token order is kept and no other character is lost |
| Tokens.SplitJoin | CGAula090322/CGAula090322.cpp:524-537 | splitting well-formed tokens joined by the delimiter gives the same tokens back |
| Tokens.SplitLeadingDelimiter | CGAula090322/CGAula090322.cpp:529-532 | a delimiter in front (so also delimiters in sequence) produces no token |
| Tokens.SplitLeadingToken | CGAula090322/CGAula090322.cpp:529-532 | a delimiter-free token followed by the delimiter is the first token, and the rest splits independently |
| Tokens.SplitSingle | CGAula090322/CGAula090322.cpp:524-537 | a non-empty string without the delimiter is one token |
| Tokens.DigitRunSpec | CGAula090322/CGAula090322.cpp:546-549 | the digits `stoi` reads form a maximal run: all digits, followed by a non-digit or the end |
| Tokens.Stoi | CGAula090322/CGAula090322.cpp:546-549 | a successful conversion lies in the 32-bit signed range |
| Tokens.StoiShowNat | CGAula090322/CGAula090322.cpp:546-549 | the decimal rendering of any `n <= INT_MAX` converts back to `n` |
| Tokens.StoiIgnoresSuffix | CGAula090322/CGAula090322.cpp:546-549 | characters after the digit run do not change the value |
| Tokens.ShowNat | CGAula090322/CGAula090322.cpp:546-549 | not in the source: the decimal rendering that serves as `stoi`'s partner is non-empty and all digits |
| Tokens.DecimalValueShowNat | CGAula090322/CGAula090322.cpp:546-549 | partner of `stoi`, not in the source: reading back the digits of a rendering gives the number |
| Tokens.ReadsRendering | CGAula090322/CGAula090322.cpp:546-549 | partner of `stoi`, not in the source: the digit run of a rendering is all of it, and its value is the number |
| Tokens.StoiInvalid | CGAula090322/CGAula090322.cpp:546-549 | `stoi` raises `invalid_argument` if and only if no digit follows the leading blanks and the optional sign |
| Tokens.StoiTooLarge | CGAula090322/CGAula090322.cpp:546-549 | every number above `INT_MAX` raises `out_of_range` |
| Tokens.StoiNegative | CGAula090322/CGAula090322.cpp:546-549 | leading blanks are skipped and a minus sign negates: ` -n` reads as `-n` for every `n` down to `INT_MIN` |
| Algebra.Splat | CGAula090322/CGAula090322.cpp:29 | definition of `vec3(float)`, every component set to the one value; used by TranslateByZero and ScaleByOne |
| Algebra.Add | CGAula090322/CGAula090322.cpp:207-209 | definition of `sum`; properties in AddCommutes and Sub |
| Algebra.Dot | CGAula090322/CGAula090322.cpp:129-131 | definition of `dot`; properties in DotSymmetric and Cross |
| Algebra.Sub | CGAula090322/CGAula090322.cpp:125-127 | `minusV(a, b) + b == a`, over the reals |
| Algebra.SubSwapped | CGAula090322/CGAula090322.cpp:203-205 | `diferrence(b, a)` is the negation of `diferrence(a, b)` |
| Algebra.AddCommutes | CGAula090322/CGAula090322.cpp:207-209 | `sum` is commutative |
| Algebra.DotSymmetric | CGAula090322/CGAula090322.cpp:129-131 | `dot` is symmetric |
| Algebra.Cross | CGAula090322/CGAula090322.cpp:121-123 | the cross product is orthogonal to both arguments, over the reals |
| Algebra.CrossAntiCommutes | CGAula090322/CGAula090322.cpp:121-123 | swapping the arguments negates the cross product |
| Algebra.CrossSelf | CGAula090322/CGAula090322.cpp:121-123 | a vector crossed with itself is zero |
| Algebra.NewCells | CGAula090322/CGAula090322.cpp:51-57 | the constructor's nested loops leave a fresh 4x4 array, all zero |
| Algebra.ZeroMatrix | CGAula090322/CGAula090322.cpp:51-57 | every entry of the constructed matrix is 0 |
| Algebra.IdentityMatrix | CGAula090322/CGAula090322.cpp:73-81 | entry `(i, j)` is 1 when `i == j` and 0 otherwise |
| Algebra.Identity | CGAula090322/CGAula090322.cpp:73-81 | the nested loops build exactly `IdentityMatrix()` |
| Algebra.PartialDotComplete | CGAula090322/CGAula090322.cpp:63-67 | the accumulation over `k` ends at the row-by-column sum |
| Algebra.Entry | CGAula090322/CGAula090322.cpp:64-67 | resetting entry `[i][j]` and accumulating over `k` gives entry `(i, j)` of the product |
| Algebra.FillRow | CGAula090322/CGAula090322.cpp:63-68 | the loop over `j` fills row `i` with the product's row `i` and leaves the other rows alone |
| Algebra.Product | CGAula090322/CGAula090322.cpp:60-71 | the product that `mul` computes, entry `(i, j)` the row-by-column sum; properties in MulIdentityLeft and MulIdentityRight |
| Algebra.Mul | CGAula090322/CGAula090322.cpp:60-71 | the triple loop computes the matrix product, entry by entry |
| Algebra.MulIdentityLeft | CGAula090322/CGAula090322.cpp:60-81 | the identity is a left unit of `mul` |
| Algebra.MulIdentityRight | CGAula090322/CGAula090322.cpp:60-81 | the identity is a right unit of `mul` |
| Algebra.TranslationEntries | CGAula090322/CGAula090322.cpp:84-87 | the matrix `translateM` builds is the identity with `v` in column 3 |
| Algebra.ScalingEntries | CGAula090322/CGAula090322.cpp:92-95 | the matrix `scaleM` builds is `diag(v.x, v.y, v.z, 1)` |
| Algebra.TranslateM | CGAula090322/CGAula090322.cpp:83-89 | definition of `translateM`: the product of `m` with the translation matrix; properties in TranslationEntries, TranslateIdentity and TranslateByZero |
| Algebra.ScaleM | CGAula090322/CGAula090322.cpp:91-97 | definition of `scaleM`: the product of `m` with the scaling matrix; properties in ScalingEntries, ScaleIdentity and ScaleByOne |
| Algebra.TranslateIdentity | CGAula090322/CGAula090322.cpp:83-89 | `translateM(identity(), v)` is the translation matrix of `v` |
| Algebra.ScaleIdentity | CGAula090322/CGAula090322.cpp:91-97 | `scaleM(identity(), v)` is `diag(v.x, v.y, v.z, 1)` |
| Algebra.TranslateByZero | CGAula090322/CGAula090322.cpp:427 | translating any matrix by `vec3(0)` leaves it unchanged |
| Algebra.ScaleByOne | CGAula090322/CGAula090322.cpp:91-97 | scaling any matrix by `vec3(1)` leaves it unchanged |
| ObjLoader.ParseVector2 | CGAula090322/CGAula090322.cpp:555-558 | succeeds exactly when the line has at least 3 tokens |
| ObjLoader.ParseVector3 | CGAula090322/CGAula090322.cpp:560-563 | succeeds exactly when the line has at least 4 tokens |
| ObjLoader.ParseVector2OfFields | CGAula090322/CGAula090322.cpp:555-558 | on a line of well-formed fields the result is `stof` of fields 1 and 2 |
| ObjLoader.ParseVector3OfFields | CGAula090322/CGAula090322.cpp:560-563 | on a line of well-formed fields the result is `stof` of fields 1, 2 and 3 |
| ObjLoader.TabSeparatedVertexIsShort | CGAula090322/CGAula090322.cpp:594-595 | a `v` line separated by a tab passes the dispatch but has too few space-separated tokens |
| ObjLoader.ParseIndex | CGAula090322/CGAula090322.cpp:546-549 | an index field converts exactly when `stoi` does, to the value minus 1 |
| ObjLoader.RenderedIndex | CGAula090322/CGAula090322.cpp:546-549 | partner of `stoi(field) - 1`, not in the source: the rendering of `k` is a slash-free field converting to `k - 1` |
| ObjLoader.DecodeGroup | CGAula090322/CGAula090322.cpp:543-550 | definition of one index group's decoding; properties in DecodePositionNormal, DecodePositionTexture, DecodeFullTriple, DecodeOneField, DecodeNoField and DecodePositionOnly |
| ObjLoader.DecodeTwoFields | CGAula090322/CGAula090322.cpp:545-546 | a group of two fields gives `(a, 0, b)` |
| ObjLoader.DecodeThreeFields | CGAula090322/CGAula090322.cpp:548-549 | a group of three fields gives `(a, b, c)` |
| ObjLoader.DecodePositionNormal | CGAula090322/CGAula090322.cpp:543-546 | `a//b` gives `(a-1, 0, b-1)`, because the empty middle field is dropped |
| ObjLoader.DecodePositionTexture | CGAula090322/CGAula090322.cpp:545-546 | `a/b` also gives `(a-1, 0, b-1)`: the texture index lands in the normal slot |
| ObjLoader.DecodeFullTriple | CGAula090322/CGAula090322.cpp:548-549 | `a/b/c` gives `(a-1, b-1, c-1)` |
| ObjLoader.DecodeOneField | CGAula090322/CGAula090322.cpp:543-549 | a group of one field reports `stoi`'s rejection of that field when there is one, since `sVertex[0]` is converted first, and otherwise the missing second field |
| ObjLoader.NonNumericGroup | CGAula090322/CGAula090322.cpp:549 | the group of `f x` reports `stoi`'s `invalid_argument`, not the missing second field |
| ObjLoader.DecodeNoField | CGAula090322/CGAula090322.cpp:543-549 | a group with no field, such as `/`, is the missing-field error |
| ObjLoader.DecodePositionOnly | CGAula090322/CGAula090322.cpp:548-549 | a bare index within `INT_MAX` is short of its second field; a larger one is rejected by `stoi` as out of range first |
| ObjLoader.ReadGroup | CGAula090322/CGAula090322.cpp:543-550 | the loop body for one group splits it on `/` and returns exactly `DecodeGroup(group)`: two fields give `(a, 0, b)`, three or more give `(a, b, c)`, one field is converted before its missing partner is the error, none is the error |
| ObjLoader.DecodeEach | CGAula090322/CGAula090322.cpp:542-551 | never more triples than groups, and one triple per group when no group fails |
| ObjLoader.DecodeGroupsSound | CGAula090322/CGAula090322.cpp:542-551 | one triple per group, in group order, up to the first group that fails: triple `i` is what group `i` decodes to, and when decoding stops early the failure is that of the group right after the decoded ones |
| ObjLoader.DecodeGroupsNext | CGAula090322/CGAula090322.cpp:542-551 | one turn of the face loop: with the groups before `k` decoded, group `k` either appends its triple or ends the face with its error |
| ObjLoader.DecodeGroupsStops | CGAula090322/CGAula090322.cpp:542-551 | groups after a failing one have no effect |
| ObjLoader.DecodeFace | CGAula090322/CGAula090322.cpp:539-552 | definition of `createFace`'s result: the groups after the tag, decoded in order; properties in DecodeGroupsSound and DecodeGroupsStops |
| ObjLoader.Kind | CGAula090322/CGAula090322.cpp:582-601 | definition of the dispatch on the first two characters; its effect is stated by ApplyLine |
| ObjLoader.ApplyLine | CGAula090322/CGAula090322.cpp:582-601 | a short or unrecognised line changes nothing; `vt`, `vn` and `v `/`v\t` lines each change only their own pool; they succeed exactly when `parseVector2`/`parseVector3` does, and then append exactly its value; an error on them changes nothing; `f` lines extend only `indexes`, by the decoded triples |
| ObjLoader.ApplyLineRecords | CGAula090322/CGAula090322.cpp:582-601 | a line that loads appends what it records to its own pool and nothing to the other three |
| ObjLoader.LoadAll | CGAula090322/CGAula090322.cpp:574-602 | definition of the line loop, stopping at the first error; properties in LoadAllExtends, LoadAllCounts and LoadAllContents |
| ObjLoader.LoadAllExtends | CGAula090322/CGAula090322.cpp:574-602 | loading lines only appends to each of the four pools |
| ObjLoader.LoadAllContents | CGAula090322/CGAula090322.cpp:574-602 | after an error-free load each pool is its old contents followed by the records of its kind (positions, texture coordinates, normals, face references), in file order |
| ObjLoader.LoadAllCounts | CGAula090322/CGAula090322.cpp:574-602 | after an error-free load, each pool has grown by the number of lines of its kind, and `indexes` by the number of face groups |
| ObjLoader.Gather | CGAula090322/CGAula090322.cpp:293-302 | one element per reference, element `i` taken from the pool at reference `i`'s index |
| ObjLoader.Flatten | CGAula090322/CGAula090322.cpp:289-306 | keeps `indexes`; one position and one normal per reference, taken from the referenced slots; texture coordinates likewise, only when the pool is non-empty |
| ObjLoader.Mesh.constructor | CGAula090322/CGAula090322.cpp:176-179 | the four pools start empty |
| ObjLoader.Mesh.CreateFace | CGAula090322/CGAula090322.cpp:539-552 | the loop appends exactly `DecodeFace(line).refs` to `indexes`, reports its failure, and leaves the other pools alone |
| ObjLoader.Mesh.LoadLine | CGAula090322/CGAula090322.cpp:582-601 | one dispatch step updates the pools as `ApplyLine` says |
| ObjLoader.Mesh.LoadLines | CGAula090322/CGAula090322.cpp:574-602 | the line loop updates the pools as `LoadAll` says, stopping at the first error |
| ObjLoader.FlattenLoop | CGAula090322/CGAula090322.cpp:290-302 | the loop over the references builds exactly `Flatten` of the pools it reads |
| ObjLoader.Mesh.GenerateNewIndexes | CGAula090322/CGAula090322.cpp:289-306 | the pools are replaced in place by `Flatten` of the old pools; `indexes` is kept |
| ObjScenario.TriangleFace | CGAula090322/CGAula090322.cpp:539-552 | `f 1//1 2//1 3//1` decodes to `(0,0,0) (1,0,0) (2,0,0)` |
| ObjScenario.TriangleLoad | CGAula090322/CGAula090322.cpp:582-601 | three `v` lines, one `vn` line and that face load to three positions, one normal and three triples, with no error |
| ObjScenario.TriangleFlatten | CGAula090322/CGAula090322.cpp:289-306 | flattening that triangle gives its positions in face order, each with the one normal, and no texture coordinates |
| Input.NextMode | CGAula090322/CGAula090322.cpp:649-655 | `q` always moves to a different mode |
| Input.InitialSettings | CGAula090322/CGAula090322.cpp:182-185 | the program starts in cam mode, rotating, with only light 0 on |
| Input.Move | CGAula090322/CGAula090322.cpp:621-648 | a motion key leaves mode, toggles, ambient and scale alone, and in rotation mode changes nothing |
| Input.KeyStep | CGAula090322/CGAula090322.cpp:612-680 | the light arrays keep their three entries |
| Input.ModeChangesOnlyOnQ | CGAula090322/CGAula090322.cpp:649-655 | the mode changes if and only if the key is `q` |
| Input.FourQRestores | CGAula090322/CGAula090322.cpp:649-655 | four presses of `q` restore the whole state |
| Input.ModeCyclePeriod | CGAula090322/CGAula090322.cpp:649-655 | two or three presses of `q` never restore the mode |
| Input.TogglesFlipOneFlag | CGAula090322/CGAula090322.cpp:656-667 | `rotating` flips if and only if the key is `r`; light `i` flips if and only if the key is its digit; `r`, `1`, `2` and `3` change nothing else |
| Input.TogglesAreInvolutions | CGAula090322/CGAula090322.cpp:656-667 | pressing `r`, `1`, `2` or `3` twice restores the whole state |
| Input.RotationModeIsInert | CGAula090322/CGAula090322.cpp:621-648 | in rotation mode `w`, `a`, `s`, `d`, `f`, `g` change nothing |
| Input.OppositeKeysCancel | CGAula090322/CGAula090322.cpp:621-679 | a motion, ambient or scale key followed by its opposite restores the state, in real arithmetic |
| Input.MoveCancels | CGAula090322/CGAula090322.cpp:621-648 | a motion along one axis followed by the opposite motion restores the state, in real arithmetic |
| Input.OtherKeysIgnored | CGAula090322/CGAula090322.cpp:617-680 | a key without a case leaves the state as it is |
| Input.LightKey | CGAula090322/CGAula090322.cpp:659-667 | helper naming the case label of light `i`, used by TogglesFlipOneFlag, which states that light `i` flips on exactly that key |
| Input.Controls.constructor | CGAula090322/CGAula090322.cpp:165-198 | the globals hold their initial values from `eye` on, with `scale_amount` as `Initialize` sets it at line 513 |
| Input.Controls.Keyboard | CGAula090322/CGAula090322.cpp:612-683 | the handler updates the globals in place exactly as `KeyStep`, and reports ESC as the request to quit |
| Bitmap.SwapRB | CGAula090322/CGAula090322.cpp:714-721 | the swap keeps the length and every byte at an index ≡ 1 (mod 3), and exchanges bytes 0 and 2 of every pixel |
| Bitmap.SwapRBInvolution | CGAula090322/CGAula090322.cpp:714-721 | swapping twice gives the original buffer back |
| Bitmap.SwapRBKeepsPixels | CGAula090322/CGAula090322.cpp:714-721 | each pixel's three bytes stay in that pixel, reversed |
| Bitmap.ReverseChannels | CGAula090322/CGAula090322.cpp:714-721 | the in-place loop leaves exactly `SwapRB` of the old buffer |

## Left out

- OpenGL, GLEW and freeglut calls, whose effects live in the driver: VAO and buffer creation, shaders, uniform uploads, drawing, lighting setup, texture upload, `reshape`, `timer` and `main`.
- File I/O:
  - the `ifstream` and `getline` loop of `loadObj`, which the model replaces by a given sequence of lines;
  - `readStringFromFile`;
  - the BMP header reads at fixed offsets, which read host-endian integers from memory.
- The buffer size `sizeX*sizeY*24` of the BMP loop: `ReverseChannels` requires a size that is a multiple of 3. The product is one for non-negative dimensions whose product fits in an `int`. A negative (top-down) height, or a product that overflows `int`, makes the source's loop read past the buffer, which is undefined behaviour, and is outside the model.
- `rotateM`, `normalize`, `lookAt`, `perspective` and the pose composition in `display`. They depend on `cos`, `sin`, `tan` and `sqrt`.
- Floating point: `float` is `real`, so rounding, infinities and NaN are not modelled.
  - `Algebra.Sub`, `Algebra.Cross`, `Input.OppositeKeysCancel` and `Input.MoveCancels` hold only in real arithmetic. In `float`, for example, `(1 - 1e30) + 1e30` is 0.
  - `Algebra.MulIdentityLeft`, `Algebra.MulIdentityRight`, `Algebra.TranslateByZero` and `Algebra.ScaleByOne` hold in `float` only for finite entries, since `0 * inf` is NaN.
- `stof`: kept uninterpreted, as a total function parameter. Its `invalid_argument` and `out_of_range` exceptions are not modelled, so a malformed coordinate never ends a load.
- The console output of `keyboard` and `loadObj`, and `exit(0)` on ESC, which is modelled as the `quit` result.
- Algebra.TranslateIdentity: proved only for the identity and, through `TranslateByZero`, for a zero offset, not as a closed form for arbitrary `m`. The symbolic 4x4 product is too costly for the prover.
- Algebra.ScaleIdentity: likewise proved only for the identity and, through `ScaleByOne`, for unit factors.
- ObjLoader.ParseIndex: the subtraction in `stoi(...) - 1` is exact. For the field `-2147483648` the C++ `int` subtraction overflows, which is undefined behaviour, and the model gives `INT_MIN - 1` instead.
- ObjLoader.Mesh.GenerateNewIndexes: requires every reference to be inside its pool. The source reads without a bounds check, which is undefined behaviour outside that.
- ObjLoader.FlattenLoop: has the same in-range precondition, for the same reason.
- ObjLoader.Mesh.GenerateNewIndexes: its loop runs in `FlattenLoop` on a snapshot of the four fields rather than on the fields themselves. Nothing writes them during the loop, so the three assignments at the end are the only updates in place.
- ObjLoader.ReadGroup: where the source reads past the field vector, which is undefined, the model reports `MissingIndexField`. That is a group with no field, or one whose single field `stoi` accepts. A single field `stoi` rejects reports the exception, as the source does.
