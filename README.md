# sky-labs math and timer core in Dafny

This project models the linear-algebra library and the frame timers of
sky-labs, a small Rust rendering experiment, and proves what they compute.

**Math library (`src/math/`):**
- the `Number` scalar abstraction over six primitive types;
- `Vector2`, `Vector3` and `Vector4`;
- `Matrix3x3` and `Matrix4x4`, with the products, the determinant, the block inverse, the array conversions and the transform factories;
- the projection matrix of `perspective_f32`/`perspective_f64`;
- the wrap rule `CircularInterval::circulate_around`.

**Timers:**
- the tick arithmetic of `PerformanceCounter`;
- the per-second state machine `FramerateCounter::tick`;
- `StepTimer::tick`/`elapsed`.

How the model is built:

- **Scalars** are exact `real`s. `Number.NumberType` names the six instances: `f64`, `f32`, `u64`, `i64`, `u32` and `i32`.
  - Only the operations whose result depends on the type take it as a parameter: integer division truncates toward zero, `abs`, `from_double` (truncation and saturation), and membership in the type.
  - `f32`/`f64` rounding is not modelled. Neither is the overflow of `+`, `-` or `*`.
  - Generic code over `T: SignedNumber` (all of `Matrix4x4`, vector negation) requires one of the four signed instances.
- **sin, cos, tan and sqrt** are parameters.
  - A rotation takes `c == cos(rad)` and `s == sin(rad)`.
  - `make_skew` takes `tan == tan(rad)`.
  - The projection takes the focal length `f == 1 / tan(fov / 2)`.
  - The length functions take `sqrt` as a function argument. It is a square root only where a lemma says so.
- **Values and mutation.**
  - Each vector and matrix is a `datatype` value with pure operator functions.
  - The compound assignments (`+=`, `-=`, `*=`, `/=`) and `IndexMut` write fields or rows in place. They are methods of the classes:
    - `MutableVector2`, `MutableVector3` and `MutableVector4`, over fields;
    - `MutableMatrix3x3` and `MutableMatrix4x4`, over an array of rows.
  - Each method's contract ties the new value to the pure operator.
- **`perspective_f32` and `perspective_f64`** compute the same formula, so one function `Perspective.Perspective` models both.
- **Rotation conventions.**
  - `make_rotation_x/y/z` are counter-clockwise in the usual right-handed sense.
  - `make_rotation(rad, axis)` (the `f32` instance) is the transpose of that convention. The model keeps it as written. `RotationAboutZAxis` shows that about the axis `(0, 0, -1)` it agrees with `make_rotation_z`.
- **Timer inputs.**
  - The clock's `FREQUENCY` is a parameter.
  - `PerformanceCounter::now()` becomes the reading `now` passed to `StepTimer` ticks.
  - `seconds()` and `milliseconds()` are, as written, the REMAINDERS `ticks % FREQUENCY` and `ticks % (FREQUENCY * 1000)`, not whole-second counts.

Where the source is evidently wrong, the model has both halves:
- a member for the code as written, with a lemma exhibiting the failure;
- a corrected member, with the intended property proved about it.

See "## Findings".

## Model

| member | source | states |
|---|---|---|
| Number.Zero | src/math/number.rs:55-113 | `T::zero()` is a value of every instance and is neutral for `+` |
| Number.One | src/math/number.rs:55-113 | `T::one()` is a non-zero value of every instance that is idempotent under `*` |
| Number.Default | src/math/number.rs:46 | `T::default()` equals `T::zero()` |
| Number.ZeroOneOfEveryType | src/math/number.rs:55-113 | all six instances give 0 and 1, both values of the type |
| Number.NegationNeedsSigned | src/math/number.rs:115-119 | `-one()` is a value of the type exactly for the four `SignedNumber` instances |
| Number.Truncate | src/math/number.rs:41 | rounding toward zero: the magnitude drops by less than one and the sign is kept |
| Number.Div | src/math/number.rs:41 | scalar `/`: exact for the float types; integral, truncated toward zero and of the quotient's sign for the integer types |
| Number.DivIsQuotient | src/math/number.rs:41 | for non-negative integer operands `/` is the floor quotient `q` with `q*b <= a < (q+1)*b` |
| Number.Abs | src/math/number.rs:48 | `abs` returns `x` or `-x`, and is non-negative on every value of the type |
| Number.FromDouble | src/math/number/as_double.rs:56-90 | `from_double` always yields a value of the type and is the identity on values already in it |
| Vec2.Default | src/math/vector2.rs:34 | the derived default vector is the zero vector |
| Vec2.AsSlice | src/math/vector2.rs:229-232 | `as_slice` is a two-element array |
| Vec2.With | src/math/vector2.rs:135-140 | writing `v[i]` replaces exactly slice element `i` |
| Vec2.AtIndexesSlice | src/math/vector2.rs:126-133 | `v[i]` (for `i < 2`) is slice element `i`, in the order x, y |
| Vec2.WithThenAt | src/math/vector2.rs:126-140 | after `v[i] = a`, reading `v[i]` gives `a` and every other index is unchanged |
| Vec2.AddSubInverse | src/math/vector2.rs:40-81 | `-` undoes `+`, `a - b == a + (-b)`, and `a + (-a)` is zero |
| Vec2.DivUndoesScale | src/math/vector2.rs:90-117 | for float types `(v * k) / k == v` |
| Vec2.NormSquaredIsSelfDot | src/math/vector2.rs:177-181 | `norm_squared(v) == dot(v, v) == x*x + y*y >= 0` |
| Vec2.DotSymmetric | src/math/vector2.rs:196-198 | `dot` is symmetric |
| Vec2.DistanceProperties | src/math/vector2.rs:165-188 | `distance_to` is symmetric, `distance_to(v, v) == sqrt(0)`, `modulus == sqrt(norm_squared)` |
| Vec2.TaxicabProperties | src/math/vector2.rs:191-193 | taxicab distance is `|dx| + |dy|`, symmetric and zero from a vector to itself |
| Vec2.NormalizeZeroLength | src/math/vector2.rs:202-206 | `normalize` of a zero-length vector returns it unchanged |
| Vec2.NormalizeDividesByLength | src/math/vector2.rs:202-213 | otherwise, for float types, each component is divided by the length |
| Vec2.NormalizeHasUnitLength | src/math/vector2.rs:202-213 | with a true square root and a non-zero vector, the normalized vector has unit length |
| Vec2.RotateByZero | src/math/vector2.rs:215-226 | rotating by angle 0 (c=1, s=0) returns the input, as written and corrected |
| Vec2.RotateIsNotARotation | src/math/vector2.rs:215-226 | as written, `rotate` changes lengths and maps (0, 1) to (1, 0) under a quarter turn |
| Vec2.RotateCounterClockwiseIsARotation | src/math/vector2.rs:215-216 | the documented counter-clockwise rotation keeps lengths, is undone by the opposite angle and turns x toward y |
| Vec2.Examples | tests/math/vector2.rs:272-286 | (1,2)·(3,4) == 11 and unsigned division (4,6)/2 == (2,3) |
| Vec2.MutableVector2.constructor | src/math/vector2.rs:144-146 | the new vector holds the given components |
| Vec2.MutableVector2.AddAssign | src/math/vector2.rs:65-70 | `+=` leaves the value of `+` |
| Vec2.MutableVector2.SubAssign | src/math/vector2.rs:83-88 | `-=` leaves the value of `-` |
| Vec2.MutableVector2.MulAssign | src/math/vector2.rs:101-106 | `*=` leaves the value of `* k` |
| Vec2.MutableVector2.DivAssign | src/math/vector2.rs:119-124 | `/=` leaves the value of `/ k` |
| Vec2.MutableVector2.SetAt | src/math/vector2.rs:135-140 | `v[i] = a` through `IndexMut` changes only component `i` |
| Vec3.Default | src/math/vector3.rs:35 | the derived default vector has three zero components |
| Vec3.AsSlice | src/math/vector3.rs:243-245 | `as_slice` has length 3 |
| Vec3.With | src/math/vector3.rs:144-149 | writing `v[i]` replaces exactly slice element `i` |
| Vec3.AtIndexesSlice | src/math/vector3.rs:135-142 | `v[i]` (for `i < 3`) is slice element `i`, in the order x, y, z |
| Vec3.WithThenAt | src/math/vector3.rs:135-149 | after `v[i] = a`, `v[i]` reads `a`, other indices unchanged |
| Vec3.AddSubInverse | src/math/vector3.rs:43-85 | `-` undoes `+`, `a - b == a + (-b)`, `a + (-a)` is the default vector |
| Vec3.DivUndoesScale | src/math/vector3.rs:95-125 | for float types `(v * k) / k == v` |
| Vec3.DotSymmetric | src/math/vector3.rs:184-186 | `dot` is symmetric |
| Vec3.NormSquaredIsSelfDot | src/math/vector3.rs:164-169 | the sum of squares under the square root of `distance_to` is `dot(v, v)`, non-negative |
| Vec3.CrossIsOrthogonal | src/math/vector3.rs:176-182 | `a × b` is orthogonal to `a` and to `b` |
| Vec3.CrossAntiCommutative | src/math/vector3.rs:176-182 | `a × b == -(b × a)` and `a × a == 0` |
| Vec3.CrossExample | tests/math/vector3.rs:86-91 | (1,0,0) × (0,1,0) == (0,0,1) |
| Vec3.DotExample | tests/math/vector3.rs:48-54 | (1,2,3)·(4,5,6) == 32 and their sum is (5,7,9) |
| Vec3.ScaleExample | src/math/vector3.rs:95-125 | (1,-2,3)*2 == (2,-4,6) and (2,-4,6)/4 == (0.5,-1,1.5) in f64 |
| Vec3.DistanceProperties | src/math/vector3.rs:156-170 | `distance_to` symmetric, zero-distance is `sqrt(0)`, `modulus == sqrt(norm)` |
| Vec3.TaxicabProperties | src/math/vector3.rs:172-174 | taxicab distance is the sum of absolute differences, symmetric, zero to itself |
| Vec3.NormalizeZeroLength | src/math/vector3.rs:188-192 | `normalize` of a zero-length vector returns it unchanged |
| Vec3.RotationsKeepTheirAxis | src/math/vector3.rs:203-237 | `rotate_x` keeps x, `rotate_y` keeps y, `rotate_z` keeps z (as written and corrected) |
| Vec3.RotateByZero | tests/math/vector3.rs:130-155 | with cos=1 and sin=0 every axis rotation returns its input |
| Vec3.QuarterTurnsAsWritten | tests/math/vector3.rs:92-117 | the quarter-turn cases of the tests hold for the code as written |
| Vec3.RotationsAsWrittenAreNotRotations | src/math/vector3.rs:203-237 | as written, each axis rotation changes lengths, and `rotate_x` sends z to +y |
| Vec3.RotateXTurnIsARotation | src/math/vector3.rs:203-213 | the corrected x rotation keeps lengths and is undone by the opposite angle |
| Vec3.RotateYTurnIsARotation | src/math/vector3.rs:215-225 | the corrected y rotation keeps lengths and is undone by the opposite angle |
| Vec3.RotateZTurnIsARotation | src/math/vector3.rs:227-237 | the corrected z rotation keeps lengths and is undone by the opposite angle |
| Vec3.QuarterTurnsCorrected | tests/math/vector3.rs:92-117 | the corrected rotations pass the same quarter-turn cases and send z to -y |
| Vec3.MutableVector3.constructor | src/math/vector3.rs:152-154 | the new vector holds the given components |
| Vec3.MutableVector3.AddAssign | src/math/vector3.rs:67-73 | `+=` leaves the value of `+` |
| Vec3.MutableVector3.SubAssign | src/math/vector3.rs:87-93 | `-=` leaves the value of `-` |
| Vec3.MutableVector3.MulAssign | src/math/vector3.rs:107-113 | `*=` leaves the value of `* k` |
| Vec3.MutableVector3.DivAssign | src/math/vector3.rs:127-133 | `/=` leaves the value of `/ k` |
| Vec3.MutableVector3.SetAt | src/math/vector3.rs:144-149 | `v[i] = a` changes only component `i` |
| Vec4.Zero | src/math/vector4.rs:223-231 | `zero()` has four zero components |
| Vec4.One | src/math/vector4.rs:233-241 | `one()` has four unit components |
| Vec4.Default | src/math/vector4.rs:39 | the derived default vector is `zero()` |
| Vec4.ScaleLeft | src/math/vector4.rs:121-167 | left scalar multiplication multiplies every component by the scalar |
| Vec4.ScaleLeftComposes | src/math/vector4.rs:121-167 | `k * (j * v) == (k * j) * v` |
| Vec4.ScaleLeftDot | src/math/vector4.rs:121-167 | `(k * a)·b == k * (a·b)` |
| Vec4.FromVector3 | src/math/vector4.rs:243-250 | `from_vector3(v, w)` keeps x, y, z and sets w |
| Vec4.FromVector3Parts | src/math/vector4.rs:243-250 | the xyz part of `from_vector3(v, w)` is `v`, and with w=0 its dot with itself is `v·v` |
| Vec4.ToArray | src/math/vector4.rs:266-268 | `to_array` has four elements |
| Vec4.FromSlice | src/math/vector4.rs:270-279 | `from_slice` (at least four elements) takes exactly the first four |
| Vec4.FromSliceTakesPrefix | src/math/vector4.rs:270-279 | `from_slice(s) == from_array(s[..4])` |
| Vec4.ArrayRoundTrip | src/math/vector4.rs:257-268 | `from_array(to_array(v)) == v` and `to_array(from_array(a)) == a` |
| Vec4.With | src/math/vector4.rs:209-214 | writing `v[i]` replaces exactly array element `i` |
| Vec4.AtIndexesArray | src/math/vector4.rs:200-207 | `v[i]` is array element `i`, in the order x, y, z, w |
| Vec4.WithThenAt | src/math/vector4.rs:200-214 | after `v[i] = a`, `v[i]` reads `a`, other indices unchanged |
| Vec4.AddSubInverse | src/math/vector4.rs:48-97 | `-` undoes `+`, `a - b == a + (-b)`, `a + (-a)` is zero |
| Vec4.DivUndoesScale | src/math/vector4.rs:108-189 | for float types `(v * k) / k == v` |
| Vec4.DotSymmetric | src/math/vector4.rs:253-255 | `dot` is symmetric |
| Vec4.DotOfArrays | src/math/vector4.rs:253-255 | `dot` is the sum of the four products of array elements |
| Vec4.DotExample | tests/math/vector4.rs:82-90 | (1,2,3,4)·(4,5,6,7) == 60 |
| Vec4.UnsignedDivisionExample | tests/math/vector4.rs:318-336 | for u32 and u64, (1,2,3,4)/2 truncates to (0,1,1,2) |
| Vec4.MutableVector4.constructor | src/math/vector4.rs:218-221 | the new vector holds the given components |
| Vec4.MutableVector4.AddAssign | src/math/vector4.rs:77-84 | `+=` leaves the value of `+` |
| Vec4.MutableVector4.SubAssign | src/math/vector4.rs:99-106 | `-=` leaves the value of `-` |
| Vec4.MutableVector4.MulAssign | src/math/vector4.rs:169-176 | `*=` leaves the value of `* k` |
| Vec4.MutableVector4.DivAssign | src/math/vector4.rs:191-198 | `/=` leaves the value of `/ k` |
| Vec4.MutableVector4.SetAt | src/math/vector4.rs:209-214 | `v[i] = a` changes only component `i` |
| Vec4.AssignOpsExample | tests/math/vector4.rs:338-352 | a sequence of compound assignments ends at the expected vector |
| Mat3.Rows | src/math/matrix3x3.rs:277-279 | `as_slice` has length 3 |
| Mat3.WithRow | src/math/matrix3x3.rs:267-272 | writing row `i` replaces exactly row `i` |
| Mat3.Column | src/math/matrix3x3.rs:176-201 | column `j` collects entry `j` of each row |
| Mat3.RowIndexesRows | src/math/matrix3x3.rs:258-265 | `m[i]` (for `i < 3`) is row `i` |
| Mat3.WithRowThenRow | src/math/matrix3x3.rs:258-272 | after `m[i] = r`, row `i` is `r` and other rows are unchanged |
| Mat3.NegIsEntrywise | src/math/matrix3x3.rs:39-67 | negation negates each of the nine entries |
| Mat3.AddSubAreEntrywise | src/math/matrix3x3.rs:69-135 | `+` and `-` act entry by entry |
| Mat3.ScaleIsEntrywise | src/math/matrix3x3.rs:137-162 | `* k` multiplies every entry |
| Mat3.DivIsEntrywise | src/math/matrix3x3.rs:217-242 | `/ k` divides every entry with the type's division |
| Mat3.MulVecIsRowDot | src/math/matrix3x3.rs:164-174 | component `i` of `m * v` is `row i · v` |
| Mat3.ProductRowEntry | src/math/matrix3x3.rs:176-201 | entry `j` of a product row is `Σk r[k]·B[k][j]` |
| Mat3.MulIsRowColumnDot | src/math/matrix3x3.rs:176-201 | product entry (i,j) is `Σk A[i][k]·B[k][j]` |
| Mat3.MulIsRowDotColumn | src/math/matrix3x3.rs:176-201 | product entry (i,j) is row i of A dotted with column j of B |
| Mat3.ProductsAgree | src/math/matrix3x3.rs:164-201 | `(A·B)·v == A·(B·v)` |
| Mat3.ProductExample | tests/math/matrix3x3.rs:79-99 | the product of the test's two matrices is the expected matrix |
| Mat3.MutableMatrix3x3.constructor | src/math/matrix3x3.rs:34-37 | a fresh row array holding the given matrix |
| Mat3.MutableMatrix3x3.AddAssign | src/math/matrix3x3.rs:96-108 | `+=` overwrites the nine entries with those of `+` |
| Mat3.MutableMatrix3x3.MulAssign | src/math/matrix3x3.rs:203-215 | `*=` overwrites the nine entries with those of `* k` |
| Mat3.MutableMatrix3x3.DivAssign | src/math/matrix3x3.rs:244-256 | `/=` overwrites the nine entries with those of `/ k` |
| Mat3.MutableMatrix3x3.SetRow | src/math/matrix3x3.rs:267-272 | writing `m[i]` through `IndexMut` changes only row `i` |
| Mat4.Rows | src/math/matrix4x4.rs:408-411 | `rows()` has four rows |
| Mat4.Column | src/math/matrix4x4.rs:113-194 | column `j` collects entry `j` of each row |
| Mat4.WithRow | src/math/matrix4x4.rs:242-250 | writing `m[i]` replaces exactly row `i` |
| Mat4.RowIndexesRows | src/math/matrix4x4.rs:230-240 | `m[i]` (for `i < 4`) is row `i` of `rows()` |
| Mat4.WithEntryThenEntry | src/math/matrix4x4.rs:252-266 | after `m[(i, j)] = a`, entry (i,j) is `a` and all others are unchanged |
| Mat4.Default | src/math/matrix4x4.rs:40 | the derived default matrix is `zero()` |
| Mat4.ZeroOneEntries | src/math/matrix4x4.rs:275-298 | every entry of `zero()` is 0 and of `one()` is 1 |
| Mat4.IdentityEntries | src/math/matrix4x4.rs:300-329 | identity entry (i,j) is 1 on the diagonal and 0 elsewhere |
| Mat4.IdentityValue | src/math/matrix4x4.rs:300-329 | `identity()` is the same literal matrix for every signed instance |
| Mat4.IdentityIsUnit | src/math/matrix4x4.rs:113-214 | `M·I == I·M == M`, and `I` fixes the first row of `M` read as a vector |
| Mat4.AddIsEntrywise | src/math/matrix4x4.rs:46-59 | `+` acts entry by entry |
| Mat4.SubIsEntrywise | src/math/matrix4x4.rs:70-83 | `-` acts entry by entry |
| Mat4.ScaleIsEntrywise | src/math/matrix4x4.rs:94-102 | `* k` multiplies every entry |
| Mat4.AdditionExample | src/math/matrix4x4.rs:46-59 | 1..16 plus 19..4 is 20 in every entry |
| Mat4.ProductRowEntry | src/math/matrix4x4.rs:113-194 | entry `j` of a product row is `Σk r[k]·B[k][j]` |
| Mat4.MulIsRowColumnSum | src/math/matrix4x4.rs:113-194 | product entry (i,j) is `Σk A[i][k]·B[k][j]` |
| Mat4.MulIsRowDotColumn | src/math/matrix4x4.rs:113-194 | product entry (i,j) is row i of A dotted with column j of B |
| Mat4.ProductExample | tests/math/matrix4x4.rs:101-124 | the product of the test's two matrices is the expected matrix |
| Mat4.MulVecIsRowDot | src/math/matrix4x4.rs:203-214 | component `i` of `M·v` is `row i · v` |
| Mat4.VecMulIsTransposedMulVec | src/math/matrix4x4.rs:217-228 | `v·M == transpose(M)·v` |
| Mat4.TransposeEntry | src/math/matrix4x4.rs:334-343 | `transpose(M)[i][j] == M[j][i]` |
| Mat4.TransposeInvolution | src/math/matrix4x4.rs:334-343 | transposing twice gives `M`, and row `i` of the transpose is column `i` |
| Mat4.TransposeExample | tests/math/matrix4x4.rs:126-143 | the transpose of the 1..16 matrix is its columns as rows |
| Mat4.DeterminantOfIdentity | src/math/matrix4x4.rs:346-363 | the identity has determinant 1 |
| Mat4.LiteralIdentityDeterminant | src/math/matrix4x4.rs:300-363 | the literal identity matrix has determinant 1 |
| Mat4.SingularExample | tests/math/matrix4x4.rs:199-209 | the 1..16 matrix has determinant 0, block determinant 0, and no inverse |
| Mat4.ToMat | src/math/matrix4x4.rs:430-437 | `to_mat` is a 4×4 array |
| Mat4.MatRoundTrip | src/math/matrix4x4.rs:418-437 | `from_mat(to_mat(M)) == M` and `to_mat(from_mat(a)) == a` |
| Mat4.ToArray | src/math/matrix4x4.rs:454-473 | `to_array` has 16 elements |
| Mat4.ToArrayIsRowMajor | src/math/matrix4x4.rs:454-473 | `to_array()[4i+j] == M[i][j]` |
| Mat4.ArrayRoundTrip | src/math/matrix4x4.rs:441-473 | `from_array(to_array(M)) == M` and `to_array(from_array(a)) == a` |
| Mat4.FromSlice | src/math/matrix4x4.rs:475-485 | with at least 16 elements, `from_slice` takes exactly the first 16 in row-major order |
| Mat4.FromSliceTakesPrefix | src/math/matrix4x4.rs:475-485 | `from_slice(s) == from_array(s[..16])` |
| Mat4.FromSliceGuardRejectsEverySlice | src/math/matrix4x4.rs:476 | the guard as written admits no slice the body can read, and rejects a 16-element one |
| Mat4.WithEntryIsSliceWrite | src/math/matrix4x4.rs:487-493 | writing element `k` of the slice view is writing entry (k/4, k%4) |
| Mat4.MutableMatrix4x4.constructor | src/math/matrix4x4.rs:270-272 | `new(rows)`: a fresh row array holding the given matrix |
| Mat4.MutableMatrix4x4.AddAssign | src/math/matrix4x4.rs:61-68 | `+=` overwrites the four rows with those of `+` |
| Mat4.MutableMatrix4x4.SubAssign | src/math/matrix4x4.rs:85-92 | `-=` overwrites the four rows with those of `-` |
| Mat4.MutableMatrix4x4.MulAssign | src/math/matrix4x4.rs:104-111 | `*= k` overwrites the four rows with those of `* k` |
| Mat4.MutableMatrix4x4.MulAssignMatrix | src/math/matrix4x4.rs:196-199 | `a *= B` leaves `a == old(a)·B` |
| Mat4.MutableMatrix4x4.SetRow | src/math/matrix4x4.rs:242-250 | `m[i] = r` changes only row `i` |
| Mat4.MutableMatrix4x4.SetEntry | src/math/matrix4x4.rs:261-266 | `m[(i, j)] = a` changes only entry (i,j) |
| Mat4.MutableMatrix4x4.SetSliceEntry | src/math/matrix4x4.rs:491-493 | writing element `k` of `as_mut_slice()` changes only element `k` of `to_array()` |
| Mat4.AssignOpsExample | src/math/matrix4x4.rs:61-111 | a run of compound assignments on the 1..16 matrix ends at twice that matrix |
| Mat4Inverse.UpperColumns | src/math/matrix4x4.rs:366-369 | the four 3-columns `inverse` reads are the upper three entries of each column |
| Mat4Inverse.BlockDeterminantPolynomial | src/math/matrix4x4.rs:370-378 | `s·v + t·u` as a polynomial in the entries |
| Mat4Inverse.DeterminantPolynomial | src/math/matrix4x4.rs:346-363 | the cofactor determinant as the same polynomial |
| Mat4Inverse.BlockDeterminantIsDeterminant | src/math/matrix4x4.rs:346-378 | the block quantity `s·v + t·u` used by `inverse` equals `determinant()` |
| Mat4Inverse.AdjugateEntries | src/math/matrix4x4.rs:386-404 | the unscaled rows of `inverse` are the adjugate entries |
| Mat4Inverse.AdjugateProducts | src/math/matrix4x4.rs:386-404 | `M·adj(M) == adj(M)·M == det(M)·I` |
| Mat4Inverse.Diagonal | src/math/matrix4x4.rs:300-329 | the diagonal matrix `d·I` |
| Mat4Inverse.DiagonalOfOne | src/math/matrix4x4.rs:300-329 | `1·I` is `identity()` |
| Mat4Inverse.MulScaled | src/math/matrix4x4.rs:94-194 | a scalar factor moves out of either operand of a product |
| Mat4Inverse.InverseRowsScale | src/math/matrix4x4.rs:380-404 | scaling the block vectors by `inv_det` scales the inverse's rows by it |
| Mat4Inverse.ScaledInverseProducts | src/math/matrix4x4.rs:380-404 | with the blocks scaled by `k`, both products with `M` are `k·det·I` |
| Mat4Inverse.InverseExistsIffNonsingular | src/math/matrix4x4.rs:365-384 | `inverse` returns `None` exactly when the determinant is zero |
| Mat4Inverse.InverseOfNonsingular | src/math/matrix4x4.rs:380-404 | otherwise it is the rows built from the blocks scaled by `one() / determinant` |
| Mat4Inverse.ReciprocalIsExact | src/math/matrix4x4.rs:380 | `d · (one() / d) == 1` for float types, and for integer types when `d == ±1` |
| Mat4Inverse.InverseIsTwoSided | src/math/matrix4x4.rs:365-404 | for a float type, or an integer type with determinant ±1, a non-singular `M` has `M·N == N·M == I` for `N = inverse(M)` |
| Mat4Inverse.BlockInverseIsTwoSided | src/math/matrix4x4.rs:365-404 | the same, stated with the block determinant `s·v + t·u` |
| Mat4Inverse.IntegerInverseVanishes | src/math/matrix4x4.rs:380 | for integer instances and `|det| > 1`, `one() / det` truncates to 0 and `inverse` returns the zero matrix |
| Mat4Inverse.InverseOfIdentity | tests/math/matrix4x4.rs:165-182 | the inverse of the identity is the identity |
| Mat4Inverse.KnownMatrixInverse | tests/math/matrix4x4.rs:184-197 | the test matrix of determinant 1 has, for every signed instance, an inverse that is two-sided |
| Mat4Transforms.TranslationMovesPoints | src/math/matrix4x4.rs:505-513 | `make_translation` moves a point by `(tx, ty, tz)` and leaves a direction unchanged |
| Mat4Transforms.TranslationIsIdentityWithColumn | src/math/matrix4x4.rs:505-513 | the identity with `(tx, ty, tz, 1)` as column 3 |
| Mat4Transforms.TranslationsCompose | src/math/matrix4x4.rs:505-513 | translations add, and the opposite translation undoes one |
| Mat4Transforms.TranslationExample | tests/math/matrix4x4.rs:211-222 | `make_translation(3, 4, 5)` is the expected matrix |
| Mat4Transforms.ScalingScalesComponents | src/math/matrix4x4.rs:592-601 | `make_scaling` scales x, y, z by `sx, sy, sz` and keeps w |
| Mat4Transforms.ScalingsCompose | src/math/matrix4x4.rs:592-601 | scalings multiply factor by factor, and scaling by ones is the identity |
| Mat4Transforms.ScalingExample | tests/math/matrix4x4.rs:490-508 | `make_scaling(2, 3, 1)` is the expected matrix |
| Mat4Transforms.ScalingAxisAsWrittenCollapses | src/math/matrix4x4.rs:603-617 | as written, scaling along the x axis sends y and z to 0 |
| Mat4Transforms.ScalingAlongAxisScalesAxis | src/math/matrix4x4.rs:603-604 | the corrected axis scaling scales the axis by `factor` |
| Mat4Transforms.ScalingAlongAxisFixesPlane | src/math/matrix4x4.rs:603-604 | and fixes every vector perpendicular to the axis |
| Mat4Transforms.ScalingAlongCoordinateAxis | src/math/matrix4x4.rs:603-617 | along (1, 0, 0) the corrected matrix is `make_scaling(factor, 1, 1)` |
| Mat4Transforms.AlongAxisRows | src/math/matrix4x4.rs:603-617 | the corrected matrix is `I + (factor − 1)·axis·axisᵀ` padded with (0,0,0,1) |
| Mat4Transforms.ReflectionIsInvolution | src/math/matrix4x4.rs:619-635 | for a unit normal, reflecting twice is the identity |
| Mat4Transforms.ReflectionReversesNormal | src/math/matrix4x4.rs:619-635 | the reflection sends `(n, 0)` to `-(n, 0)` |
| Mat4Transforms.ReflectionFixesPlane | src/math/matrix4x4.rs:619-635 | the reflection fixes every vector in the mirror plane |
| Mat4Transforms.ReflectionRows | src/math/matrix4x4.rs:619-635 | the matrix is `I - 2nnᵀ` padded with (0,0,0,1) |
| Mat4Transforms.ReflectionCoordinateExamples | tests/math/matrix4x4.rs:511-544 | reflections through the x and y planes negate one coordinate |
| Mat4Transforms.ReflectionDiagonalExample | tests/math/matrix4x4.rs:545-581 | the reflection through the diagonal plane swaps and negates x and y |
| Mat4Transforms.ReflectionRejectsExamples | tests/math/matrix4x4.rs:583-608 | the zero and the length-2 normals fail the normalization assertion |
| Mat4Transforms.SkewMovesAlongDirection | src/math/matrix4x4.rs:637-656 | `make_skew` moves `p` along `direction` by `tan · (pivot · p)` |
| Mat4Transforms.SkewFixesPivotPlane | src/math/matrix4x4.rs:637-656 | points perpendicular to the pivot stay put |
| Mat4Transforms.SkewKeepsPivotComponent | src/math/matrix4x4.rs:637-656 | the component along the pivot is unchanged |
| Mat4Transforms.SkewRowsMoveAlongDirection | src/math/matrix4x4.rs:645-655 | the rows without the assertions already move points along the direction |
| Mat4Transforms.SkewExample | tests/math/matrix4x4.rs:611-639 | the test's skew arguments pass the assertions and give the expected matrix |
| Mat4Transforms.SkewRejectsExamples | tests/math/matrix4x4.rs:640-710 | the test's zero pivot, long direction and slanted pivot each fail an assertion |
| Mat4Transforms.RotationXKeepsAxis | src/math/matrix4x4.rs:518-530 | `make_rotation_x` keeps x and w, and keeps the y-z length for a unit (c, s) |
| Mat4Transforms.RotationYKeepsAxis | src/math/matrix4x4.rs:532-544 | `make_rotation_y` keeps y and w, and keeps the x-z length |
| Mat4Transforms.RotationZKeepsAxis | src/math/matrix4x4.rs:546-557 | `make_rotation_z` keeps z and w, and keeps the x-y length |
| Mat4Transforms.AxisRotationsCompose | src/math/matrix4x4.rs:518-557 | rotations about one axis compose by the angle-addition formulas |
| Mat4Transforms.AxisRotationsAreOrthogonal | src/math/matrix4x4.rs:518-557 | each axis rotation's transpose is the opposite rotation and undoes it |
| Mat4Transforms.AxisRotationsByZero | src/math/matrix4x4.rs:518-557 | rotating by angle 0 is the identity |
| Mat4Transforms.RotationZExamples | tests/math/matrix4x4.rs:312-361 | quarter and half turns about z are the expected matrices |
| Mat4Transforms.RotationXExamples | tests/math/matrix4x4.rs:363-412 | quarter and half turns about x are the expected matrices |
| Mat4Transforms.RotationYExamples | tests/math/matrix4x4.rs:414-463 | quarter and half turns about y are the expected matrices |
| Mat4Transforms.RotationIsOrthogonal | src/math/matrix4x4.rs:559-590 | for a unit axis, `make_rotation` times its transpose is the identity |
| Mat4Transforms.RotationKeepsAxis | src/math/matrix4x4.rs:559-590 | `make_rotation` fixes its own axis |
| Mat4Transforms.RotationTransposeReverses | src/math/matrix4x4.rs:559-590 | its transpose is the rotation by the opposite angle |
| Mat4Transforms.RotationAboutZAxis | tests/math/matrix4x4.rs:465-488 | about (0, 0, -1) it is `make_rotation_z`; the f64 quarter turn is the expected matrix |
| Mat4Transforms.F64RotationAgreesOnlyWithoutY | src/math/matrix4x4.rs:714-745 | the f64 `make_rotation` equals the f32 one exactly when `axis.y · sin == 0` |
| Mat4Transforms.F64RotationAsWrittenCounterexample | src/math/matrix4x4.rs:727 | for the unit axis (0, 0.6, 0.8) and a quarter turn the f64 matrix is not orthogonal and moves its axis |
| Mat4Transforms.CorrectedRotationKeepsExampleAxis | src/math/matrix4x4.rs:572 | on the same input, the f32 entry keeps the axis fixed |
| Perspective.ProjectionKeepsViewZ | src/math/perspective.rs:28-37 | clip w is view z; clip x·aspect = f·x; clip y = f·y; clip z·(far−near) = far·(z−near) |
| Perspective.DepthFormula | src/math/perspective.rs:28-37 | depth `z_clip / w_clip` times `z·(far−near)` is `far·(z−near)` |
| Perspective.DepthOfNearAndFarPlanes | src/math/perspective.rs:29-37 | a point on the near plane has depth 0, on the far plane depth 1 |
| Perspective.DepthIsMonotonic | src/math/perspective.rs:22-56 | for `0 < near < far` the depth increases strictly with view z |
| Perspective.DepthBetweenPlanes | src/math/perspective.rs:22-56 | every point between the planes has depth in [0, 1] |
| Interval.BranchOf | src/math/interval.rs:26-34 | exactly one branch is taken: below, above or inside |
| Interval.AsWrittenInsideUnchanged | src/math/interval.rs:31-33 | inside `[min, max]` the value is unchanged |
| Interval.AsWrittenAboveShiftsByWidth | src/math/interval.rs:29-30 | above, the result is `self` less the width, inside when within one width |
| Interval.AsWrittenBelowAgreesOnlyFromZero | src/math/interval.rs:27-28 | below, `max - |self|` is the shift by the width exactly when `min == 0` (signed, negative self) |
| Interval.AsWrittenBelowCounterexample | src/math/interval.rs:27-28 | `(-5).circulate_around(-2, 2)` is -3, below the interval |
| Interval.AsWrittenUnsignedNoUnderflow | src/math/interval.rs:26-42 | for u32/u64 with `min <= max` and `min + self` in range, no step leaves the type |
| Interval.AsWrittenUnsignedOverflowExample | src/math/interval.rs:29-30 | without that bound, `u32::MAX.circulate_around(1, 2)` overflows |
| Interval.AsWrittenSignedMinimumOverflows | src/math/interval.rs:27-28 | `i32::MIN` / `i64::MIN` below the interval has no `abs()` in its type |
| Interval.CirculateAroundWraps | src/math/interval.rs:26-34 | the corrected rule moves `self` by -w, 0 or +w, and within one width lands inside |
| Interval.CirculateAroundAgreesAboveAndInside | src/math/interval.rs:29-33 | the corrected rule agrees with the code everywhere at or above `min` |
| Interval.CirculateAroundAgreesFromZero | src/math/interval.rs:27-28 | and below too when `min == 0` |
| Interval.CirculateAroundUnsignedInType | src/math/interval.rs:41-42 | for u32/u64 the corrected rule never leaves the type |
| PerfCounter.New | src/timer/performance_counter.rs:59-61 | `new()` is the derived default, 0 ticks |
| PerfCounter.NewIsNeutral | src/timer/performance_counter.rs:110-128 | `new()` is neutral for `+` and `-`, and `a - a == new()` |
| PerfCounter.AddIsCommutativeAndAssociative | src/timer/performance_counter.rs:110-118 | `+` on counters is commutative and associative |
| PerfCounter.SubUndoesAdd | src/timer/performance_counter.rs:110-128 | `(a + b) - b == a`, and `(a - b) + b == a` when `b <= a` |
| PerfCounter.SubOrder | src/timer/performance_counter.rs:120-128 | `a - b <= a`, and it is zero exactly when `a == b` |
| PerfCounter.SecondsIsRemainder | src/timer/performance_counter.rs:86-91 | `seconds()` is below `FREQUENCY` and completes the whole seconds to `ticks` |
| PerfCounter.MillisecondsIsRemainder | src/timer/performance_counter.rs:102-107 | `milliseconds()` is below `FREQUENCY·1000` and completes `ticks` likewise |
| PerfCounter.SecondsIgnoresWholeSeconds | src/timer/performance_counter.rs:86-91 | adding whole seconds does not change `seconds()` |
| PerfCounter.OrderIsTotal | src/timer/performance_counter.rs:43-46 | the derived order is total and irreflexive, `+` is monotone, equality is equality of ticks |
| Framerate.New | src/timer/framerate_counter.rs:47-54 | `new()` starts with both counts and the time at 0 and no text format |
| Framerate.TickAsWritten | src/timer/framerate_counter.rs:56-72 | `tick` always yields a time below the frequency and carries the text format unchanged |
| Framerate.TickAsWrittenCases | src/timer/framerate_counter.rs:57-68 | a completed second restarts the count and publishes the old count; otherwise the count goes up and the published one stays |
| Framerate.Tick | src/timer/framerate_counter.rs:56-72 | the corrected tick keeps the time below the frequency and carries the text format |
| Framerate.TickDiffersOnlyOnCrossing | src/timer/framerate_counter.rs:57-60 | the corrected tick differs only in the published count, by one, exactly on a crossing |
| Framerate.RunWithinSecond | src/timer/framerate_counter.rs:61-62 | within a second `k` frames count `k` at time `k·delta`, published count unchanged |
| Framerate.OneSecondOfFrames | src/timer/framerate_counter.rs:56-72 | the `n` frames of one second return to the start of a second and publish `n - 1` as written, `n` corrected |
| Framerate.RunConcatenates | src/timer/framerate_counter.rs:56-72 | `a` frames then `b` frames is `a + b` frames |
| Framerate.SteadyFramerate | src/timer/framerate_counter.rs:56-72 | at a steady `n` frames per second, every second publishes `n - 1` as written and `n` corrected |
| Framerate.SixtyFramesReportedAsFiftyNine | src/timer/framerate_counter.rs:57-60 | 60 one-tick frames in a 60-tick second publish 59 as written, 60 corrected |
| Timer.New | src/timer.rs:48-54 | `new()` has both readings at 0 ticks |
| Timer.NewHasElapsedNothing | src/timer.rs:48-73 | a new timer's `elapsed()` is defined and zero |
| Timer.Tick | src/timer.rs:57-68 | the last time becomes the old current time, the current time becomes `now`, and `f_update` is called once with the new timer |
| Timer.TickElapsed | src/timer.rs:57-73 | after a tick at a later reading, `elapsed()` is defined and is the time since the previous reading |
| Timer.TicksTelescope | src/timer.rs:57-73 | a run of ticks at non-decreasing readings calls `f_update` once per reading, and the elapsed times add up to the span from start to the last reading |

## Left out

- **Windows and GPU code.**
  - The Direct3D/Direct2D/DirectWrite renderers, the window and message loop, and the keyboard are left out. They are foreign calls with no logic to verify.
  - So are `FramerateCounter::render` and `create_resources`. The text format they create is carried as an opaque type parameter.
- **`PerformanceCounter::init`, `now` and `frequency`.** These are clock reads and the mutable static `FREQUENCY`. The frequency and the readings are parameters instead.
- **Floating-point conversions.**
  - `total_seconds`, `total_milliseconds`, `elapsed_seconds` and `elapsed_ms` are float conversions and are left out.
  - The values of `modulus`, `magnitude` and `distance_to` exist only up to the `sqrt` parameter.
- **Raw-memory views.**
  - `as_ptr` and `as_mut_ptr` are left out.
  - `as_slice` is modelled as the sequence of components.
  - `as_mut_slice` is modelled through element writes (`SetAt`, `SetSliceEntry`).
  - `rows_mut` is modelled as the row write `SetRow`.
- **`Vector3::rotate(rad, axis)`** is `todo!()` in the source and has no model. Its test at `tests/math/vector3.rs:157-165` has nothing behind it.
- **Trigonometry.** `sin`, `cos` and `tan` are not modelled.
  - `make_rotation_x/y/z`, `make_rotation` and the vector rotations take the cosine and sine of the angle.
  - `make_skew` takes the tangent.
  - So no lemma relates an angle to its matrix.
- **The derived `PartialOrd` of the vectors** (lexicographic over the fields) is not modelled. Nothing in the core orders vectors.
- **as_double and from_double of float types** are the identity on exact reals. Only the integer saturation of `from_double` is modelled.
- **The `D2D_*` conversions** of the vectors are field copies to Windows types and are left out.
- **Arithmetic widths.** The overflow and wrap-around of `i32`/`i64`/`u32`/`u64` arithmetic is not modelled: scalars are unbounded. In particular:
  - the vector and matrix `-` and `-=` (`Vec2.Sub`, `Vec3.Sub`, `Vec4.Sub`, `Mat3.Sub`, `Mat4.Sub` and the `SubAssign` methods of the mutable classes) carry no precondition, so on `u32`/`u64` they can yield negative values where Rust panics in debug builds and wraps in release builds;
  - only `PerfCounter.Sub` and `Timer.Elapsed` (tick counts) and `Vec2.TaxicabDistance` and `Vec3.TaxicabDistance` (unsigned instances) require that nothing underflows;
  - `circulate_around` is the one place whose overflows are stated explicitly.
- **f32 rounding** is not modelled. Both float instances are exact reals.
- Framerate.TickAsWritten: the `u32` frame counts and the `u64` tick sum are unbounded, so their wrap-around is not modelled.
- PerfCounter.Add: `u64` overflow of `ticks + rhs.ticks` is not modelled.
- PerfCounter.MillisecondsIsRemainder: it does not state that `seconds()` can be recovered from `milliseconds()`, as `milliseconds() % FREQUENCY`. That nested-modulo fact is left unproved.
- Perspective.Perspective: a zero aspect ratio or `far == near` yields an infinity in floating point. The model requires both to be non-zero.
- Number.Div: division by zero is excluded for the float types too. The infinity or NaN it yields there has no real value.
- **Unmatched test calls.** `tests/math/matrix3x3.rs` calls `identity`, `from_mat`, `transpose`, `determinant` and `inverse` on `Matrix3x3`. `src/math/matrix3x3.rs` does not define them, so they are not modelled.
- **`Vector3::is_normalized`** is called by the factories but is not part of this model's sources. It is modelled as `norm_squared == 1`.
- **`src/math/number/abs.rs`** is not part of this model. `abs` is modelled as the absolute value for the signed types and the identity for the unsigned ones.

## Findings

| source | as written | input that shows it | evidently intended | confidence | as-written member | corrected member |
|---|---|---|---|---|---|---|
| src/math/vector2.rs:215-226 | `rotate` computes `(x·cos + y·sin, x·sin + y·cos)` | cos 3/5, sin 4/5 on (1, 1) gives (7/5, 7/5), which is longer; a quarter turn sends (0, 1) to (1, 0) | the documented counter-clockwise rotation `(x·cos − y·sin, x·sin + y·cos)` | not executed | Vec2.RotateIsNotARotation | Vec2.RotateCounterClockwiseIsARotation |
| src/math/vector3.rs:203-213 | `rotate_x` uses `[[cos, sin], [sin, cos]]` on (y, z) | cos 3/5, sin 4/5 on (0, 1, 1) gives length² 98/25 instead of 2; a quarter turn sends z to +y | a rotation `(y·cos − z·sin, y·sin + z·cos)` | not executed | Vec3.RotationsAsWrittenAreNotRotations | Vec3.RotateXTurnIsARotation |
| src/math/vector3.rs:215-225 | `rotate_y` uses the same matrix on (x, z) | cos 3/5, sin 4/5 on (1, 0, 1) gives length² 98/25 instead of 2 | a rotation in the x-z plane | not executed | Vec3.RotationsAsWrittenAreNotRotations | Vec3.RotateYTurnIsARotation |
| src/math/vector3.rs:227-237 | `rotate_z` uses the same matrix on (x, y) | cos 3/5, sin 4/5 on (1, 1, 0) gives length² 98/25 instead of 2 | a rotation in the x-y plane | not executed | Vec3.RotationsAsWrittenAreNotRotations | Vec3.RotateZTurnIsARotation |
| src/math/matrix4x4.rs:476 | `from_slice` debug-asserts `len < 16` and then reads `slice[0..15]` | a 16-element slice fails the assertion; every slice that passes it is read out of bounds | require at least 16 elements | not executed | Mat4.FromSliceGuardRejectsEverySlice | Mat4.FromSlice |
| src/math/matrix4x4.rs:727 | the f64 `make_rotation` adds `y·sin` in entry [0][2], where the f32 one (line 572) subtracts it | unit axis (0, 0.6, 0.8), quarter turn: rows 0 and 2 have dot 0.768 and the axis moves | the f32 entry `z·x·(1−cos) − y·sin` | not executed | Mat4Transforms.F64RotationAsWrittenCounterexample | Mat4Transforms.RotationIsOrthogonal |
| src/math/matrix4x4.rs:603-617 | `make_scaling_axis` puts `axis·factor` on the diagonal | axis (1, 0, 0) gives `make_scaling(factor, 0, 0)`, sending (0, 1, 0) to 0 | scale by `factor` along the axis and by 1 across it: `I + (factor − 1)·axis·axisᵀ` | not executed | Mat4Transforms.ScalingAxisAsWrittenCollapses | Mat4Transforms.ScalingAlongAxisScalesAxis |
| src/math/interval.rs:27-28 | below the interval the result is `max − |self|` | `(-5).circulate_around(-2, 2)` is −3, still below the interval | wrap by the width, `max − (min − self)`, as the upper branch does | not executed | Interval.AsWrittenBelowCounterexample | Interval.CirculateAroundWraps |
| src/timer/framerate_counter.rs:57-60 | the tick that completes a second resets the count without counting itself | 60 frames of one tick in a 60-tick second publish 59 | publish `frames_this_second + 1` on the crossing | not executed | Framerate.SixtyFramesReportedAsFiftyNine | Framerate.SteadyFramerate |
