# A verified model of a small path-tracing renderer's core

This project models the core of a C++ path tracer in the "Ray Tracing in
One Weekend / The Next Week" style, together with its Wavefront OBJ/MTL
loader. It covers:

- the loader: `split`, `load_mtl` and `load_obj`;
- the bounding-volume hierarchy: construction by sorting on a random axis,
  and the nearest-hit traversal;
- axis-aligned boxes and `surrounding_box`;
- the `hitable` wrappers `flip_normals`, `translate` and `rotate_y`;
- the axis-aligned rectangles and `box`;
- the constant and checker textures;
- the six materials, with their `scatter` and `emitted`;
- the recursive `color` integrator and the pixel loop of `main`.

Floating-point numbers are modelled as Dafny reals. The random generator,
the file system, `stof`/`stoi`, image decoding, `sqrt`, `sin` and
`unit_vector` are parameters of the functions that use them. Each loop the
source writes is a Dafny `method` with invariants, proved equal to a
specification function. The properties are proved as lemmas about those
functions.

Modules, one per file:

| file | module | models |
|---|---|---|
| `wrappers.dfy` | `Wrappers` | `Option` |
| `vec3.dfy` | `Vec` | `vec3` and `ray`, over reals |
| `common.dfy` | `Common` | `ffmin`/`ffmax`, the unit-sphere and unit-disk samplers, truncating casts |
| `aabb.dfy` | `Aabbs` | `aabb`, `surrounding_box` |
| `hitable.dfy` | `Hitables` | `hit_record`, `flip_normals`, `translate`, `rotate_y` |
| `rect.dfy` | `Rects` | `xy_rect`, `xz_rect`, `yz_rect`, `box` |
| `bvh.dfy` | `Bvh` | `bvh_node`: the constructor and `hit` |
| `texture.dfy` | `Textures` | `constant_texture`, `checker_texture` |
| `obj_split.dfy` | `ObjSplit` | `split` |
| `obj_mtl.dfy` | `ObjMtl` | `obj_material`, `load_mtl` |
| `obj_load.dfy` | `ObjLoad` | `face`, `obj`, `load_obj`, the model it fills |
| `material.dfy` | `Materials` | `material` and its six variants |
| `main.dfy` | `Render` | `color`, the pixel loop of `main` |

The loader's quirks are reproduced as written:

- `s on`/`s off` compare the keyword token rather than the value, so only
  `s 1` and `s 0` change the smooth flag.
- The MTL path is the OBJ file's parent directory and the file name,
  concatenated with nothing between them.
- A `vt` line with four or more tokens writes index 3 of a three-component
  vector. The model reports this as an `Aborted` outcome.
- The second `Ni` branch of `load_mtl` can never be reached.
- The name after `o` is never stored.

The BVH constructor's third axis (z) never sorts, because its branch
repeats the y test. The model keeps that behaviour.

## Model

| member | source | states |
|---|---|---|
| Common.FfMin | src/common.h:45 | the result is one of the two arguments and is no larger than either |
| Common.FfMax | src/common.h:46 | the result is one of the two arguments and is no smaller than either |
| Common.SphereCandidate | src/common.h:23 | one candidate point has x and z in [-1, 1) and, because `0/5` is an integer division, y in [0, 2) |
| Common.SphereSample | src/common.h:18-26 | an accepted point has squared length below 1, x and z in (-1, 1) and y in [0, 1) |
| Common.RandomInUnitSphere | src/common.h:18-26 | the rejection loop returns exactly the first accepted candidate, or None when the draws run out |
| Common.DiskCandidate | src/common.h:28-35 | one disk candidate has x and y in [-1, 1) and z = 0 |
| Common.DiskSample | src/common.h:28-35 | an accepted point lies strictly inside the unit disk in the z = 0 plane |
| Common.RandomInUnitDisk | src/common.h:28-35 | the rejection loop returns exactly the first accepted disk candidate |
| Common.Trunc | src/main.cpp:135-137 | a C++ float-to-int cast truncates toward zero: the result is the integer part, for either sign |
| Common.InsideUnitBall | src/common.h:24 | a vector of squared length below 1 has every component in (-1, 1) |
| Aabbs.SurroundingBox | src/aabb.h:35-46 | the surrounding box contains both boxes |
| Aabbs.SurroundingBoxIsLeast | src/aabb.h:35-46 | every box that contains both boxes contains their surrounding box |
| Aabbs.SurroundingBoxCommutes | src/aabb.h:35-46 | the order of the two boxes does not matter |
| Aabbs.SurroundingBoxAssociates | src/aabb.h:35-46 | merging three boxes gives the same box whatever the grouping |
| Aabbs.SurroundingBoxIdempotent | src/aabb.h:35-46 | merging a box with itself gives the box back |
| Aabbs.SurroundingBoxWellFormed | src/aabb.h:35-46 | the box around two well-formed boxes is well-formed |
| Aabbs.ContainsTransitive | src/aabb.h:9-16 | box containment is transitive |
| Hitables.FlipBoundingBox | src/hitable.h:37-39 | `flip_normals` reports its child's bounding box and success flag unchanged, for every time interval |
| Hitables.FlipHitDelegates | src/hitable.h:30-36 | `flip_normals` hits exactly when its child does, with the same record except that the normal is negated |
| Hitables.FlipTwice | src/hitable.h:30-36 | flipping twice gives the child's own record |
| Hitables.TranslateHitDelegates | src/hitable.h:46-53 | `translate` queries its child with the ray's origin moved back by the offset and the same direction and time; it hits exactly when the child hits the moved ray |
| Hitables.TranslateInverse | src/hitable.h:46-53 | translating by an offset and then by its negation answers exactly as the child does |
| Hitables.TranslateBoundingBoxShifts | src/hitable.h:55-61 | the translated box exists exactly when the child's does, is the child's box shifted by the offset, and is well-formed exactly when the child's is |
| Hitables.IncludeCorner | src/hitable.h:90-93 | one step of the corner loop lowers the minimum and raises the maximum to include the rotated corner, component by component |
| Hitables.FoldStep | src/hitable.h:77-97 | extending the folded minimum and maximum by one corner is one more componentwise min and max |
| Hitables.CornerAt | src/hitable.h:84-89 | the corner at loop indices (i, j, k) is the box corner chosen by i, j and k, rotated about y |
| Hitables.AbsorbCorner | src/hitable.h:84-93 | the innermost loop body extends the fold over the corners visited so far by exactly one corner |
| Hitables.RotatedExtent | src/hitable.h:77-97 | the triple loop computes the componentwise minimum and maximum over all eight rotated corners |
| Hitables.RotatedCorners | src/hitable.h:77-97 | the loop visits exactly eight corners |
| Hitables.MinFoldIsLower | src/hitable.h:90-93 | the folded minimum is below the start and below every corner |
| Hitables.MaxFoldIsUpper | src/hitable.h:90-93 | the folded maximum is above the start and above every corner |
| Hitables.MinFoldYBound | src/hitable.h:90-93 | a lower bound of the start and of every corner's y also bounds the folded minimum's y |
| Hitables.MinFoldY | src/hitable.h:90-93 | when some corner attains that lower bound, the folded minimum's y equals it |
| Hitables.MaxFoldYBound | src/hitable.h:90-93 | an upper bound of the start and of every corner's y also bounds the folded maximum's y |
| Hitables.MaxFoldY | src/hitable.h:90-93 | when some corner attains that upper bound, the folded maximum's y equals it |
| Hitables.RotatedExtentContainsCorners | src/hitable.h:77-97 | the box `rotate_y` computes contains every rotated corner of the child's box |
| Hitables.RotatedExtentKeepsY | src/hitable.h:69-99 | rotation about y leaves the y extent of the box unchanged |
| Hitables.NewRotateY | src/hitable.h:69-99 | the constructor asks the child for its box on [0, 1]; `hasbox` is set exactly when the child has one, and the box is then the extent of the rotated corners |
| Hitables.RotateYBoundingBox | src/hitable.h:123-126 | `bounding_box` answers the flag and box fixed by the constructor, whatever the time interval |
| Rects.Ratio | src/rect.h:19-20 | a guarded quotient: multiplied back by a non-zero divisor it gives the dividend |
| Rects.CoordinatesAlongRay | src/rect.h:14-23 | each coordinate of `point_at_parameter(t)` is the origin's coordinate plus t times the direction's |
| Rects.PlaneCrossing | src/rect.h:11 | a ray that is not parallel to the plane meets it only at `t = (k - origin) / direction` |
| Rects.HitReported | src/rect.h:10-26 | a reported hit lies on the plane `k` within the rectangle, has t in [t_min, t_max], the axis normal, the rectangle's material and the point at t |
| Rects.HitMissed | src/rect.h:10-26 | a ray parallel to the plane misses; a non-parallel ray that misses either crosses outside [t_min, t_max] or outside the rectangle |
| Rects.HitTextureCoordinates | src/rect.h:19-20 | for a rectangle of positive area, the reported u and v lie in [0, 1] |
| Rects.FractionInUnit | src/rect.h:19-20 | the fraction of a point's way across an interval that contains it lies in [0, 1] |
| Rects.BoundingBox | src/rect.h:28-31 | the box spans the rectangle in its two coordinates and is padded by 0.0001 on either side of the plane |
| Rects.BoundingBoxContainsHits | src/rect.h:10-31 | every hit point lies inside the rectangle's bounding box, and the box has positive thickness across the plane |
| Rects.NewBox | src/rect.h:103-112 | `box` is built from six faces and keeps its two corners and its material |
| Rects.BoxBoundingBox | src/rect.h:118-121 | the box's bounding box is the box spanned by its two corners |
| Rects.BoxFacesOnBoundary | src/rect.h:103-112 | each face lies in a plane through one of the corners, spans the box in its other two coordinates, and the three faces on the `pmin` planes are flipped |
| Bvh.Axis | bvh.h:77 | `int(3 * rand_float())` picks an axis in {0, 1, 2} |
| Bvh.LessIsStrictWeakOrder | bvh.h:48-73 | the box comparators are irreflexive and transitive, and incomparability is transitive, so they are valid `std::sort` comparators |
| Bvh.SegmentPermuted | bvh.h:78-83 | a segment permutation keeps the multiset of the segment and leaves everything outside it unchanged |
| Bvh.Swap | bvh.h:78-83 | exchanging two neighbours permutes them and leaves the rest of the array as it was |
| Bvh.InsertLast | bvh.h:78-83 | inserting the next element into a sorted prefix gives a sorted, permuted prefix one longer |
| Bvh.SortByAxis | bvh.h:78-83 | the sort leaves the range ordered by the chosen axis's box minimum, as a permutation of its old contents, and the rest of the array unchanged |
| Bvh.SortForAxis | bvh.h:77-83 | for x and y the whole range ends up sorted on that axis's box minimum, so its two halves are ordered against each other; for z the array is untouched; the range is a permutation of what it was |
| Bvh.NodeCount | bvh.h:75-93 | the number of constructor calls, one draw each, over n primitives; `Bvh.Build` ties the draws it uses to this count |
| Bvh.Build | bvh.h:75-98 | the constructor builds a tree whose leaves are the primitives of the range, whose boxes contain their children's boxes, and whose splits follow the drawn axis; the range is permuted in place and the draws used are counted |
| Bvh.BuildChildren | bvh.h:90-97 | the split case: left on the first n/2 primitives, right on the rest, box around both |
| Bvh.BuildRight | bvh.h:92-97 | the right half is built after the left without disturbing it, and the node's box surrounds both children |
| Bvh.ChildrenBuilt | bvh.h:90-97 | two halves built over the sorted range make a node built over the whole range |
| Bvh.BuiltFromHalves | bvh.h:90-97 | a node over two built halves, with the surrounding box, is built over their concatenation |
| Bvh.SplitOrderedKept | bvh.h:90-93 | building a half in place permutes only that half, so the halves stay ordered against each other |
| Bvh.SpreadElements | bvh.h:85-93 | the leaf order of a built tree, with the duplicated leaves of the n = 1 case, holds exactly the range's primitives |
| Bvh.BuiltLeaves | bvh.h:84-93 | the leaves of a built tree are exactly the primitives it was built from |
| Bvh.BuiltBoxContains | bvh.h:94-97 | a built node's box contains its children's boxes and the box of every primitive below it |
| Bvh.NodeBoundingBox | bvh.h:20-24 | the node always has a box, the one stored at construction |
| Bvh.Closer | bvh.h:32-43 | the combined answer is a hit exactly when either side hits, is one of the two records, has the smaller t, and prefers the right record on a tie |
| Bvh.Hit | bvh.h:26-46 | a ray that misses the node's box misses the node, without querying the children |
| Bvh.HitFromLeaf | bvh.h:26-46 | every hit the traversal reports is the record of one of the tree's leaves |
| Bvh.HitIsNearest | bvh.h:26-46 | when the boxes bound their primitives, the traversal hits exactly when some leaf is hit, and its t is no larger than any leaf's hit |
| Textures.NewChecker | src/texture.h:23 | the checker keeps its even and odd textures |
| Textures.ConstantIgnoresCoordinates | src/texture.h:14-16 | a constant texture has the same colour at every (u, v, p) |
| Textures.CheckerSelects | src/texture.h:25-31 | the checker answers its even texture where the product of the sines is non-negative and its odd texture elsewhere |
| Textures.ValueIsLeafColor | src/texture.h:14-31 | every value of a texture is the colour of one of its constant leaves |
| ObjSplit.FindFrom | src/obj_loader.h:50 | `find` answers the first delimiter at or after `from`, or none when there is none |
| ObjSplit.SplitLoop | src/obj_loader.h:46-56 | the `find` loop produces exactly the pieces the split function defines |
| ObjSplit.SplitFromCount | src/obj_loader.h:46-56 | from any start, there is one more piece than delimiters |
| ObjSplit.SplitFromFree | src/obj_loader.h:46-56 | no piece contains the delimiter |
| ObjSplit.SplitFromJoin | src/obj_loader.h:46-56 | joining the pieces with the delimiter rebuilds the text from the start |
| ObjSplit.SplitFacts | src/obj_loader.h:46-56 | `split` gives one piece per delimiter plus one, delimiter-free, which join back to the input |
| ObjSplit.SplitEmpty | src/obj_loader.h:46-56 | an empty line splits into one empty piece |
| ObjSplit.SplitJoin | src/obj_loader.h:46-56 | splitting the join of delimiter-free pieces gives the pieces back |
| ObjSplit.SplitCons | src/obj_loader.h:46-56 | a delimiter-free head followed by the delimiter splits off as the first piece |
| ObjSplit.SplitDoubleSlash | src/obj_loader.h:291 | `a//c` splits on '/' into `a`, an empty piece and `c` |
| ObjMtl.LoadMtl | src/obj_loader.h:58-224 | a missing file fails and leaves the materials as they were; otherwise the line loop gives exactly the flag and materials the line fold defines |
| ObjMtl.MtlSkipsBlankAndComment | src/obj_loader.h:67-73 | empty lines and `#` comments change nothing |
| ObjMtl.KeywordTable | src/obj_loader.h:83-218 | the recognised keywords are exactly Ns, Ni, d, Tr, illum, Ka, Kd, Ks, Ke and map_Kd; the four-token ones are exactly Ka, Kd, Ks and Ke |
| ObjMtl.MtlLineFails | src/obj_loader.h:83-215 | a recognised line fails exactly when no material is open or its token count is wrong |
| ObjMtl.MtlNewmtl | src/obj_loader.h:77-82 | `newmtl` pushes the open material, if any, and opens a default material with the given name |
| ObjMtl.MtlLineKeeps | src/obj_loader.h:67-218 | every other line leaves the finished materials as they were |
| ObjMtl.MtlDissolve | src/obj_loader.h:103-122 | `d` sets the dissolve value, and `Tr` sets it to one minus the value |
| ObjMtl.MtlTexture | src/obj_loader.h:183-215 | `map_Kd` with an image that does not load leaves the material untouched; one that loads stores its width, height and bytes |
| ObjMtl.MtlLineNames | src/obj_loader.h:77-82 | the names of the finished and open materials grow by the line's `newmtl` name and nothing else |
| ObjMtl.MtlRunExtends | src/obj_loader.h:58-224 | loading only appends to the material list |
| ObjMtl.MtlRunNames | src/obj_loader.h:58-224 | on success, the names appended are exactly the `newmtl` names of the file, in order |
| ObjMtl.LoadMtlAppends | src/obj_loader.h:58-224 | loaded into an existing list, the list keeps its prefix, and on success gains one material per `newmtl` line, with those names |
| ObjMtl.MtlLineFits | src/obj_loader.h:183-215 | after any line, every material's texture buffer holds 4 bytes per texel of its stated size |
| ObjMtl.MtlRunFits | src/obj_loader.h:58-224 | every loaded material's texture buffer holds 4 bytes per texel of its stated size |
| ObjLoad.Model.constructor | src/obj_loader.h:10-44 | a new model has empty vertex, normal, texture-coordinate, object and material tables |
| ObjLoad.FaceSlot | src/obj_loader.h:274-310 | reading one face token keeps the face's index lists three long |
| ObjLoad.ParseFace | src/obj_loader.h:267-311 | a parsed face always has three vertex indices and, where present, three texture and three normal indices |
| ObjLoad.ReadFace | src/obj_loader.h:274-310 | the token loop builds exactly the face the face parser defines |
| ObjLoad.DispatchTokens | src/obj_loader.h:245-333 | one keyword's branch updates the model and the current object exactly as the line step defines, or stops with its outcome |
| ObjLoad.ReadLine | src/obj_loader.h:237-333 | one line of the loop updates the model exactly as the line step defines |
| ObjLoad.LoadObj | src/obj_loader.h:226-339 | a missing file fails and leaves the model as it was; otherwise the outcome and the model are exactly those of the line fold, including the final flush |
| ObjLoad.ObjSkipsBlankAndComment | src/obj_loader.h:237-242 | empty lines and `#` comments change nothing |
| ObjLoad.ObjFaceLine | src/obj_loader.h:267-311 | an `f` line fails exactly when it has other than four tokens; otherwise it appends the parsed face to the current object |
| ObjLoad.TokenShapes | src/obj_loader.h:281-306 | `a` sets the vertex index, `a/b` the vertex and texture indices, `a//c` the vertex and normal indices, and `a/b/c` all three, each minus one |
| ObjLoad.UnknownShape | src/obj_loader.h:307-309 | a token with more than two slashes leaves the face unchanged |
| ObjLoad.PlainFace | src/obj_loader.h:267-311 | a face of three plain indices has 0-based vertex indices and no texture or normal indices |
| ObjLoad.SmoothQuirk | src/obj_loader.h:325-331 | `s` changes only the smooth flag: `1` sets it, `0` clears it, and `on`, `off` and anything else leave it as it was |
| ObjLoad.CoordinateLines | src/obj_loader.h:256-266 | a `vt` line aborts exactly when it has four or more tokens; `vn` takes z from the fourth token only when there are exactly four |
| ObjLoad.MtllibLine | src/obj_loader.h:312-321 | `mtllib` reads the directory and file name joined with nothing between, fails when that fails, and otherwise appends the materials read |
| ObjLoad.NewObjectLine | src/obj_loader.h:245-251 | `o` keeps an untouched default object as the current object and does not emit it, so that object collects the faces that follow; otherwise it emits the current object and opens an unnamed empty one |
| ObjLoad.ObjRunStep | src/obj_loader.h:236-334 | a failing line ends the load with its outcome and without the final flush |
| ObjLoad.ObjRunExtends | src/obj_loader.h:226-339 | loading only appends to each table of the model |
| ObjLoad.ObjRunFaces | src/obj_loader.h:226-339 | on success, the faces of the emitted objects are those already held followed by every face line's face, in file order |
| ObjLoad.LoadObjFaces | src/obj_loader.h:226-339 | on success, the object list keeps its prefix and the new objects carry exactly the file's faces, in order |
| ObjLoad.DispatchNaming | src/obj_loader.h:245-251 | one keyword's branch keeps the naming rule for emitted objects |
| ObjLoad.ObjRunNaming | src/obj_loader.h:226-339 | over a run of lines, the first emitted object is the default one, named "Default", and every later one is unnamed |
| ObjLoad.LoadObjNames | src/obj_loader.h:226-339 | on success, the first appended object is "Default" and all later ones are unnamed; names after `o` are never used |
| Materials.NewMetal | src/material.h:58 | the fuzz is clamped to at most 1, kept when below 1, and the colour kept |
| Materials.Clamp | src/material.h:147-148 | `std::clamp` gives a value in [lo, hi], the value itself when it already lies there, and the nearer bound otherwise |
| Materials.Channel | src/material.h:151-153 | a texture byte scaled by 1/255 lies in [0, 1] |
| Materials.Texel | src/material.h:142-156 | the texel colour has every component in [0, 1], for every u and v |
| Materials.TexelIndexInBounds | src/material.h:151-154 | every byte index of a texel inside the image lies inside a buffer of 4 bytes per texel |
| Materials.TexelClamped | src/material.h:142-148 | a non-empty texture buffer means the image is at least one texel each way, and the clamped coordinates always fall inside it |
| Materials.EmittedSources | src/material.h:39-165 | emission is black, except for a diffuse light (its texture's value) and a custom material (its emissive colour) |
| Materials.ScatterOrAbsorb | src/material.h:45-162 | lambertian, isotropic, dielectric and custom materials always scatter; a diffuse light never does; a metal scatters exactly when the fuzzed reflection points to the normal's side |
| Materials.AttenuationSources | src/material.h:45-160 | the attenuation is the albedo texture's value, the metal's colour, white for glass, and the diffuse colour or the texel for a custom material |
| Materials.ScatteredRayStamps | src/material.h:45-160 | every scattered ray starts at the hit point; metal and glass keep the incoming ray's time and the others use time 0 |
| Materials.DielectricReflectsOnFailedRefraction | src/material.h:91-101 | when `refract` fails, glass reflects, whatever the random draw |
| Materials.ReflectNormal | src/material.h:12-15 | against a unit normal, reflection negates the normal component |
| Materials.ReflectInvolution | src/material.h:12-15 | against a unit normal, reflecting twice gives the vector back |
| Render.TraceBounds | src/main.cpp:16-36 | a light path queries the world once per bounce plus once and scatters at most 50 times |
| Render.ColorIsProduct | src/main.cpp:16-36 | the colour of a ray is the product of the attenuations along its path times the sky where it escapes, and black where it is absorbed; no emission is added |
| Render.ColorQueriesInterval | src/main.cpp:19 | the colour depends on the world only through its answers on [0.001, 1e9] |
| Render.BackgroundRange | src/main.cpp:29-35 | for a unit direction the sky lies in the unit cube, white straight down and (0.5, 0.7, 1.0) straight up |
| Render.ColorInUnitCube | src/main.cpp:16-36 | when every attenuation lies in the unit cube, so does every colour |
| Render.Row | src/main.cpp:122-140 | a row holds one pixel per column |
| Render.Rows | src/main.cpp:121-140 | the rows rendered so far hold one pixel per column per row |
| Render.ShadePixel | src/main.cpp:123-137 | the sample loop computes exactly the pixel defined by the mean of the samples, gamma-corrected and truncated |
| Render.RenderRow | src/main.cpp:122-140 | the column loop computes exactly the row of pixels |
| Render.RenderImage | src/main.cpp:97-150 | the row loop produces the image top row first, one pixel per column and row, and counts `nx * ny * ns` processed rays |
| Render.RowsIndex | src/main.cpp:121-139 | pixel (i, j) is written at position `(ny - 1 - j) * nx + i` of the output |
| Render.SampleSumBounds | src/main.cpp:123-130 | the sum of k samples in the unit cube has every component in [0, k] |
| Render.MeanInUnit | src/main.cpp:131 | the mean of samples in [0, 1] lies in [0, 1] |
| Render.PixelInRange | src/main.cpp:131-137 | when the samples lie in the unit cube and `sqrt` maps [0, 1] into itself, every written channel is in [0, 255] |

## Left out

- `aabb::hit`, the slab test: it is a parameter of `Bvh.Hit`. `Bvh.HitIsNearest` assumes that a rejected box bounds no hit primitive (`Conservative`). It does not prove that property of the slab test.
- IEEE floating point: NaN, infinities, rounding and `FLT_MAX` overflow are not modelled; floats are reals.
- Rects.Hit: treats a ray parallel to the plane as a miss. In floats, a parallel ray off the plane gives an infinite t, which the range test rejects. A ray lying in the plane gives a NaN t. Every comparison with NaN is false, so the float code passes both tests and returns true with t, p, u and v all NaN. The model returns None there.
- Rects.Ratio: a rectangle of zero width gives texture coordinate 0. The float division in the source gives NaN there.
- `sphere`, `moving_sphere`, `get_sphere_uv`, `constant_medium`, `camera` and `hitable_list` are not part of this model. A box's face list is kept as data, and its `hit` is not modelled.
- `rotate_y::hit` is not modelled. Only its constructor and `bounding_box` are, with the sine and cosine given as numbers.
- `refract`, `schlick`, `unit_vector`, `length`, float division, `sin` and `sqrt` are given as functions (`Materials.Numerics` and parameters). Their numerics are not modelled.
- Common.SphereSample: `rand_float` is a finite sequence of draws in [0, 1). The sampler answers None when the draws run out, where the C++ loop would keep drawing.
- Common.DiskSample: as for the sphere, None when the draws run out.
- Common.SphereCandidate and Common.DiskCandidate: the draws go to x, y and z from left to right. C++ leaves the order in which function arguments are evaluated unspecified, so a compiler may swap the draws for x and z (for the disk, x and y). The bounds are symmetric and hold either way, but the exact sample `RandomInUnitSphere` and `RandomInUnitDisk` return assumes left-to-right order.
- The `rand_float` engine (the Mersenne twister and its seeding) is not modelled. Draws are inputs.
- Bvh.SortByAxis: insertion sort stands in for `std::sort`. The contract is the one `std::sort` gives: a sorted permutation. The order of equal keys may differ from the library's.
- Bvh.Build: requires at least one primitive. With n = 0 the source takes the recursive branch on an empty range and never terminates, so no result exists to model.
- Bvh.Build: the primitives' bounding boxes are taken to exist. The "no bounding box in bvh_node constructor" diagnostic, and the uninitialised boxes it would leave, are not modelled.
- `hit_record` fields the source leaves uninitialised are not modelled.
- File I/O is a map from paths to lines (`ObjMtl.Io`). `getline`'s line splitting, `std::stof`, `std::stoi`, `stbi_load` and `parent_path` are given as functions. The messages written to `std::cerr` are not modelled.
- `std::stof` and `std::stoi` throw on text they cannot convert, and the uncaught exception ends the program. For example, `f 1// 2// 3//` reaches `stoi("")` in the `a//c` branch of `load_obj`. The model's `stof` and `stoi` return some number for every text, so it does not capture that termination.
- ObjLoad.LoadObj and ObjMtl.LoadMtl: every line indexed by the source must have enough tokens (`AllObjIndexable`, `AllMtlIndexable`). A short line makes the C++ read past the vector's end, which is undefined behaviour.
- `vt` with four or more tokens writes past a three-element vector and trips an assertion. The model ends the load with the `Aborted` outcome at that point.
- Render: the PPM header and output, the timing and progress report, the scene builders (`two_perlin_spheres` and the others), `noise_texture` and `perlin` are not modelled.
- Render.Color: the materials enter through a scatter function of the depth, the ray and the hit record, standing for `rec.mat_ptr->scatter` with that depth's random draws. The camera's rays enter as the colour of each sample (`sample(i, j, k)`).
- Common.Trunc: a float-to-int cast of a value out of `int` range is undefined in C++. The model truncates any real.
- Render.RenderImage: `int` overflow of `nx * ny * ns` is not modelled.
- `vec3` float arithmetic is real arithmetic, so `Materials.ReflectInvolution` and the other algebraic identities hold exactly here but only approximately in floats.
