# libYafaRay core, modelled in Dafny

This project models the core of libYafaRay, a ray-tracing rendering library.
Each module follows one part of the library and states what that part
promises as contracts and lemmas:

- `Geometry` (bound.dfy) is the axis-aligned bounding box. It covers the
  box's extents and volume, its union and growth, point inclusion, and the
  slab test `cross` that finds where a ray enters and leaves the box.
- `VectorDouble` (vector_double.dfy) is the double-precision 3-vector and its
  products.
- `Random` (random.dfy) holds the Park-Miller generator `FastRandom`, using
  Schrage's step, and the multiply-with-carry `RandomGenerator`, using 32-bit
  wrap-around.
- `Hdr` and `HdrHeader` (hdr.dfy, hdr_header.dfy) cover the Radiance RGBE
  picture handler:
  - the adaptive run-length encoding of a scanline (`writeScanline`) and
    its decoder (`readARLE`), which writes into a pixel array in place;
  - the text header (`readHeader`, `writeHeader`) and the scan order it sets up.
- `Param` (param.dfy) is the tagged parameter value and the sorted parameter
  map, including their text form `print`.
- `Export` (export_c.dfy) is the C-source scene exporter. It models the lines
  it writes, the splitting of the output into numbered section functions, the
  object and material state it keeps, and the calls the final `main` makes.
- `Logging` (logging.dfy) covers the logger:
  - verbosity levels and their names;
  - which messages reach the console and which reach the memory log;
  - the duration text and the metadata setters;
  - the badge's position and height.
- `Images` (image_layers.dfy) is an image layer and the collection of layers
  with its overall width and height.
- `Objects` (objects.dfy) is the geometric object base. It models:
  - name, visibility, light and base-object flag;
  - the object index and the two counters all objects share;
  - the automatic colour drawn until it is bright enough;
  - the object factory.
- `Materials` (glass.dfy) covers the glass, rough-mirror and null materials:
  - the glass sampling decision table;
  - `getSpecular`;
  - the factories' defaults.
- `MonteCarlo` (montecarlo.dfy) covers the shared Monte Carlo integrator
  rules:
  - picking a light from a Halton value;
  - the per-light sample count and Halton offsets;
  - the multiple-importance-sampling weights;
  - the dispersive and glossy sub-samples;
  - `recursiveRaytrace`'s alpha;
  - the caustic photon map's creation.
- `PhotonPaths` (photon_paths.dfy) holds the photon-shooting rules both
  photon-mapping integrators share:
  - the processing modes;
  - rounding the photon budget to the thread count;
  - each worker's slice of Halton indices;
  - the caustic/direct classification of a photon path;
  - where photons are deposited.
- `PhotonIntegrator` (photon_integrator.dfy) is the photon-mapping
  integrator's preprocessing. It covers:
  - the mode fallbacks;
  - the diffuse and caustic stages, with one worker per thread run in
    thread order;
  - the thinning of radiance points;
  - the chunked pre-gathering of the radiance map;
  - the maps that are saved;
  - the factory's defaults.
- `CArith`, `Colours`, `Bsdf` and `Wrappers` are small support modules:
  - C's truncating `/` and `%` and 32-bit ranges;
  - RGB colours;
  - BSDF flags as sets;
  - `Option`.

Lights, materials, the scene's intersection routine and the kd-trees lie
outside this model. Their answers are inputs:
- the light a Halton value picks;
- the surfaces a photon path hits, with the flags of each scattering event;
- the colour gathered around a point;
- whether one radiance point eliminates another.

Conversions between numbers and text are also parameters.

Some behaviour of the source looks unintended, but the model keeps it as
written:
- the caustic stage of the photon-mapping integrator cuts paths at
  `maxBounces`, not `causDepth`;
- reusing photon maps checks the radiance map whenever final gathering is
  on (`ReuseChecksRadianceAlone`);
- the radius for thinning radiance points is a hundredth of the diffuse
  radius, although the comment says 10%;
- the alpha of glossy sub-samples can reach 2 (`GlossyAlphaReachesTwo`);
- the rough mirror scales its colour by the reflectivity before it clamps
  the reflectivity;
- a literal descriptor of 0 in `readARLE` consumes one byte and adds
  nothing;
- the counted MIS weights of one direction add up to less than one when a
  pdf falls at or below the 1e-6 cut-off (`MisWeightsSum`).

## Model

| member | source | states |
|---|---|---|
| Geometry.Center | include/geometry/bound.h:110 | the centre is equally far from both corners on every axis, and lies in an ordered box |
| Geometry.LargestAxis | include/geometry/bound.h:111-115 | the result is 0, 1 or 2, and the extent along that axis is at least the other two extents |
| Geometry.Vol | src/geometry/bound.cc:35-40 | the volume is the product of the three extents `longX`, `longY` and `longZ`, and it is never negative on an ordered box |
| Geometry.ExtendIncludes | include/geometry/bound.h:131-139 | after `include(p)` the box holds `p` and every point it held before |
| Geometry.GrowKeepsIncluded | include/geometry/bound.h:116-124 | growing by a non-negative amount keeps every point that was included |
| Geometry.UnionIncludes | src/geometry/bound.cc:23-33 | the union holds every point of either child, and each of its six faces (low and high, on x, y and z) is the face of one of the children |
| Geometry.UnionSmallest | src/geometry/bound.cc:23-33 | the union lies around both children, and a box lies around both children exactly when it lies around the union: the union is the smallest box containing them |
| Geometry.UnionCommutative | src/geometry/bound.cc:23-33 | the union does not depend on the order of the children |
| Geometry.UnionIdempotent | src/geometry/bound.cc:23-33 | the union of a box with itself is that box |
| Geometry.CrossOf | include/geometry/bound.h:141-211 | a reported crossing has enter ≤ leave, leave ≥ 0 and enter ≤ t_max |
| Geometry.NarrowWithin | include/geometry/bound.h:165-182 | each axis only narrows the running interval, and the result lies within that axis's slab |
| Geometry.SlabInside | include/geometry/bound.h:149-164 | within one slab's parameter interval, the ray's coordinate on that axis lies between the two faces |
| Geometry.CrossInsideOnMovingAxes | include/geometry/bound.h:141-211 | between enter and leave, the ray is inside the box on every axis whose direction component is non-zero |
| Geometry.InSlabX | include/geometry/bound.h:149-164 | within the x slab interval the ray's x lies in the box |
| Geometry.InSlabY | include/geometry/bound.h:165-182 | within the y slab interval the ray's y lies in the box |
| Geometry.InSlabZ | include/geometry/bound.h:183-200 | within the z slab interval the ray's z lies in the box |
| Geometry.CrossChecked | include/geometry/bound.h:149-200 | the corrected test misses exactly when the ray runs parallel to a slab it starts outside, and otherwise agrees with `cross`; a crossing it reports is ordered, ends at or after 0 and starts by tMax |
| Geometry.ParallelOutsideNeverInside | include/geometry/bound.h:149-200 | the corrected miss is right: a ray parallel to a slab it starts outside has no point in the box at any parameter |
| Geometry.CrossCheckedInside | include/geometry/bound.h:141-211 | with the parallel check, every point of the ray between enter and leave lies in the box |
| Geometry.CrossAlongX | include/geometry/bound.h:149-164 | a +x ray from (−1, ½, ½) through the unit box enters at 1 and leaves at 2 |
| Geometry.CrossParallelOutside | include/geometry/bound.h:149-200 | a +y ray from (−1, ½, ½) is reported as crossing the unit box on [−½, ½], although its point at 0 is outside the box; the corrected test misses it |
| Geometry.Bound.constructor | include/geometry/bound.h:67 | the corners are the given points |
| Geometry.Bound.Join | src/geometry/bound.cc:23-33 | the two-child constructor builds the union, which holds every point of either child |
| Geometry.Bound.Set | include/geometry/bound.h:67 | the corners become the given points |
| Geometry.Bound.Include | include/geometry/bound.h:131-139 | the box becomes the old box extended to `p`; it holds `p` and every point it held before |
| Geometry.Bound.Grow | include/geometry/bound.h:116-124 | every face moves outwards by `d`; for d ≥ 0 every point that was included still is |
| Geometry.Bound.Cross | include/geometry/bound.h:141-211 | the early-exit loop over the axes returns exactly what the staged definition `CrossOf` gives |
| Geometry.GiveUpEarly | include/geometry/bound.h:163 | once a stage ends before 0 or starts after t_max, the final test also fails, so returning early is sound (also lines 181, 199) |
| VectorDouble.Vec3Double.At | include/geometry/vector_double.h:37 | index 0, 1 and 2 give the x, y and z components |
| VectorDouble.Sub | include/geometry/vector_double.h:70-73 | component i of the difference is the difference of the components i |
| VectorDouble.CrossSelf | include/geometry/vector_double.h:56-63 | a vector crossed with itself is the zero vector |
| VectorDouble.CrossAntiCommutative | include/geometry/vector_double.h:56-63 | cross(a, b) = −cross(b, a) |
| VectorDouble.DotCommutative | include/geometry/vector_double.h:65-68 | dot(a, b) = dot(b, a) |
| VectorDouble.CrossOrthogonal | include/geometry/vector_double.h:56-68 | the cross product has zero dot product with both of its operands |
| VectorDouble.SubSelf | include/geometry/vector_double.h:70-73 | a vector minus itself is the zero vector |
| Random.SchrageConstants | include/math/random.h:40-43 | a = 16807 and m = 2³¹ − 1; q is m div a and r is m mod a, and r < q as Schrage's method needs |
| Random.SchrageNoOverflow | include/math/random.h:71-77 | for every 32-bit seed, both partial products and their difference stay strictly between −m and m, so the signed arithmetic never overflows |
| Random.SchrageIdentity | include/math/random.h:73 | a·s = m·(s div q) + the step's value, for every non-negative seed |
| Random.ProductNotMultiple | include/math/random.h:73-75 | a·s is not a multiple of m for any seed in [1, m − 1] |
| Random.NextSeedIsParkMiller | include/math/random.h:71-77 | from a seed in [1, m − 1], `getNextInt` gives 16807·seed mod m, and that lies in [1, m − 1] again |
| Random.SeededNextCanBeNegative | include/math/random.h:84-90 | with the seed q, which is in range, the seeded overload as written returns the negative seed −r |
| Random.SeededNext | include/math/random.h:84-90 | the corrected seeded step maps a seed in [1, m − 1] to 16807·seed mod m, again in [1, m − 1] |
| Random.FastRandom.constructor | include/math/random.h:39 | the shared seed starts at the given value |
| Random.FastRandom.NextInt | include/math/random.h:71-77 | the shared seed advances by one Schrage step with the fix-up, the new seed is returned, and from [1, m − 1] it is 16807·seed mod m |
| Random.FastRandom.NextIntSeededAsWritten | include/math/random.h:84-90 | the caller's seed gets the step without the fix-up, and the fix-up is applied to the shared seed instead |
| Random.FastRandom.NextIntSeeded | include/math/random.h:84-90 | the corrected overload applies the fix-up to the caller's seed, giving the Park–Miller successor, and leaves the shared seed alone |
| Random.MwcCarryBounded | include/math/random.h:99-102 | the carry rebuilt from the 16-bit halves stays below the multiplier, so neither its sum nor the bump `c_++` wraps around 2³² |
| Random.MwcFirstDraw | include/math/random.h:63 | from the default state (30903, 0), the first draw gives x = 1741542611 and carry 12889 (also lines 99-102) |
| Random.RandomGenerator.constructor | include/math/random.h:59 | the default state is x = 30903 and c = 0 (also lines 63) |
| Random.RandomGenerator.Seeded | include/math/random.h:60 | the seed becomes the carry and x keeps its default 30903 (also lines 63) |
| Random.RandomGenerator.Next | include/math/random.h:97-104 | x becomes x·a + c mod 2³², c becomes the rebuilt carry (below a), and the new x is returned |
| Hdr.Pixel.With | src/image_handlers/hdrHandler.cc:407 | writing one channel of a pixel sets that channel and leaves the other three (also lines 424) |
| Hdr.Channel | src/image_handlers/hdrHandler.cc:516 | channel `chan` of a scanline has one byte per pixel, the pixel's byte in that channel (also lines 530) |
| Hdr.Repeat | src/image_handlers/hdrHandler.cc:407 | a run expands to `n` copies of its byte |
| Hdr.DecodeChannelShape | src/image_handlers/hdrHandler.cc:383-427 | a successful decode yields exactly `width` bytes that extend what was already decoded |
| Hdr.SerializeSnoc | src/image_handlers/hdrHandler.cc:539-570 | writing one more packet appends its bytes to the output and its expansion to what it stands for |
| Hdr.DecodeSerialized | src/image_handlers/hdrHandler.cc:383-427 | the bytes of any sequence of well-formed packets, followed by anything, decode with readARLE's rules into exactly the bytes the packets stand for, and leave what followed untouched |
| Hdr.DecodeStep | src/image_handlers/hdrHandler.cc:391-426 | decoding the bytes of one packet moves its expansion into the decoded prefix |
| Hdr.ExtendNoLongRun | src/image_handlers/hdrHandler.cc:525-534 | skipping a short run that starts at a change of value keeps the skipped stretch free of four equal bytes |
| Hdr.SeekLongRun | src/image_handlers/hdrHandler.cc:522-534 | the search finds the next run of 4 to 127 equal bytes, or reaches the end with a run below 4; nothing before it holds four equal bytes, and `prev` is the length of the short run just before it |
| Hdr.AppendPacket | src/image_handlers/hdrHandler.cc:537-571 | a packet for `s[cur..next]` added to packets for `s[..cur]` gives packets for `s[..next]` |
| Hdr.EncodedStep | src/image_handlers/hdrHandler.cc:537-571 | writing a packet for the next stretch keeps the encoder's invariant: the output is the packets' bytes and they stand for the prefix written so far |
| Hdr.WriteRun | src/image_handlers/hdrHandler.cc:537-543 | a run packet written as descriptor 128 + n and the byte keeps the encoder's invariant, one run further on (also lines 565-571) |
| Hdr.WriteLiteral | src/image_handlers/hdrHandler.cc:553-559 | the literal packet is written as its count, then its bytes one by one |
| Hdr.LiteralStep | src/image_handlers/hdrHandler.cc:546-562 | a literal cut from a stretch without four equal bytes keeps the invariant and keeps every literal short |
| Hdr.WriteLiterals | src/image_handlers/hdrHandler.cc:546-562 | the bytes up to the next long run are written as literals of at most 128 bytes each, and the encoder's invariant holds at the run |
| Hdr.WriteChannel | src/image_handlers/hdrHandler.cc:518-575 | the channel is encoded as well-formed packets: runs of 2 to 127 and literals of 1 to 128, no literal holding four equal bytes; `cur` ends exactly at the width; and readARLE's rules decode the bytes, followed by anything, back into the channel |
| Hdr.ChannelsUpTo | src/image_handlers/hdrHandler.cc:516 | the first k channels, in the order R, G, B, E |
| Hdr.DecodeChannelsFailed | src/image_handlers/hdrHandler.cc:385-415 | once one channel fails to decode, the whole scanline fails |
| Hdr.DecodeChannelsStep | src/image_handlers/hdrHandler.cc:380-428 | a block that decodes to a channel in front of the rest adds that channel to the scanline |
| Hdr.ChannelsDetermine | src/image_handlers/hdrHandler.cc:380 | a scanline is determined by its four channels |
| Hdr.WriteScanline | src/image_handlers/hdrHandler.cc:510-579 | the four channels are written one after the other; read back with readARLE's rules they give the scanline's channels and leave whatever follows untouched |
| Hdr.RunCount | src/image_handlers/hdrHandler.cc:393 | the run length of a descriptor above 128 is the descriptor minus 128 |
| Hdr.DecodeRunAt | src/image_handlers/hdrHandler.cc:391-408 | at a run descriptor the decoder fails if the run passes the end of the scanline or the byte is missing, and otherwise continues after the run |
| Hdr.DecodeLiteralAt | src/image_handlers/hdrHandler.cc:409-426 | at a literal descriptor the decoder fails if the literal passes the end of the scanline or the input ends early, and otherwise continues after the literal |
| Hdr.FillRun | src/image_handlers/hdrHandler.cc:407 | n copies of the byte go into channel `chan` from `j0` on; nothing else in the buffer changes |
| Hdr.FillLiteral | src/image_handlers/hdrHandler.cc:417-425 | the bytes are copied into channel `chan` one by one, failing exactly when the input runs out first; other channels do not change |
| Hdr.ReadRun | src/image_handlers/hdrHandler.cc:391-408 | one run packet is read into the buffer; it fails exactly where the decoder does, and otherwise the buffer holds the decoded prefix and the decoder continues from the new position |
| Hdr.ReadLiteral | src/image_handlers/hdrHandler.cc:409-426 | one literal packet is read into the buffer; it fails exactly where the decoder does, and otherwise the buffer holds the decoded prefix |
| Hdr.ReadChannel | src/image_handlers/hdrHandler.cc:382-427 | one channel succeeds exactly when the decoder does, and then the buffer's channel is the decoded one and the position is where the decoder stopped; the other channels are never touched |
| Hdr.ChannelsUpToFrame | src/image_handlers/hdrHandler.cc:407 | writing channel `chan` leaves the channels before it as they were (also lines 424) |
| Hdr.ReadARLE | src/image_handlers/hdrHandler.cc:365-428 | the scanline read succeeds exactly when the decoder accepts the input, and the buffer then holds the decoded channels |
| Hdr.WriteThenRead | src/image_handlers/hdrHandler.cc:180 | writeScanline followed by readARLE (the reading path for scan widths 8 to 0x7fff, after the scanline-start signature) gives back the same pixels and leaves the bytes that follow for the next scanline (also lines 482) |
| HdrHeader.IndexFrom | src/image_handlers/hdrHandler.cc:217 | the result is the first occurrence of the substring at or after `i`, or none when there is none (also lines 239, 248) |
| HdrHeader.IndexOf | src/image_handlers/hdrHandler.cc:217 | `find` gives the first position of the substring, and fails exactly when it occurs nowhere (also lines 239, 248) |
| HdrHeader.MissingCharNotFound | src/image_handlers/hdrHandler.cc:262 | a substring holding a character the line lacks is not found (also lines 279-280) |
| HdrHeader.FoundAt | src/image_handlers/hdrHandler.cc:217 | a substring that occurs at `p` is found at `p` or earlier |
| HdrHeader.ApplyProduct | src/image_handlers/hdrHandler.cc:248-253 | applying one tag and then the remaining factors is the same as multiplying by all the factors |
| HdrHeader.ParseTagsAccepts | src/image_handlers/hdrHandler.cc:229-254 | when a blank line at `b` ends the tags and no FORMAT tag before it names another format, the tag section succeeds there and the exposure is the product of all the EXPOSURE factors |
| HdrHeader.ParseTagsSucceeded | src/image_handlers/hdrHandler.cc:229-254 | a successful tag section ends at a blank line with no rejected FORMAT tag before it |
| HdrHeader.AxisFor | src/image_handlers/hdrHandler.cc:282-302 | the step of every reading range is +1 or −1 |
| HdrHeader.ReadTag | src/image_handlers/hdrHandler.cc:239-253 | one tag line is rejected exactly when it is a FORMAT line without 32-bit_rle_rgbe; otherwise the exposure is multiplied by an EXPOSURE factor or kept |
| HdrHeader.ReadSize | src/image_handlers/hdrHandler.cc:257-302 | the size line gives the picture size, whether scanlines come first, and the two reading ranges |
| HdrHeader.ReadHeader | src/image_handlers/hdrHandler.cc:208-306 | readHeader fails without "#?" on the first line or on a FORMAT line naming another format; otherwise it gives the header that the tags and the size line describe |
| HdrHeader.Traverse | src/image_handlers/hdrHandler.cc:282-302 | the loop over a reading range visits each of the n positions exactly once, in increasing order from 0 or in decreasing order from n − 1 |
| HdrHeader.WriteHeader | src/image_handlers/hdrHandler.cc:497-508 | writeHeader refuses a picture with no rows or no columns; otherwise it writes six lines, the fifth of them blank |
| HdrHeader.ExposureLine | src/image_handlers/hdrHandler.cc:248-253 | the written exposure line is read back as the factor its digits give (also lines 503) |
| HdrHeader.CreditIgnored | src/image_handlers/hdrHandler.cc:236-254 | the comment line carries no tag (also lines 502) |
| HdrHeader.FormatAccepted | src/image_handlers/hdrHandler.cc:239-247 | the written FORMAT line names the RGBE format and is accepted (also lines 504) |
| HdrHeader.WrittenTags | src/image_handlers/hdrHandler.cc:229-254 | the written tag section ends at the blank line at index 4, with the written exposure (also lines 501-504) |
| HdrHeader.WrittenFactors | src/image_handlers/hdrHandler.cc:248-253 | the written tags contribute the exposure as their only factor (also lines 503) |
| HdrHeader.SizeLineRoundTrip | src/image_handlers/hdrHandler.cc:257-302 | the size line "-Y h +X w" reads back as width w and height h, with scanlines first and both axes read forwards (also lines 505) |
| HdrHeader.WrittenHeaderTags | src/image_handlers/hdrHandler.cc:501-505 | the written header starts with "#?", its tags give the exposure and end at index 4, and line 5 is the size line |
| HdrHeader.HeaderRoundTrip | src/image_handlers/hdrHandler.cc:208-306 | given number conversions that undo each other (reading back the printed exposure and sizes gives the same numbers), what writeHeader writes, readHeader reads back: the exposure and the picture size, with scanlines first and both axes read forwards (also lines 497-508) |
| Param.FromString | src/common/param.cc:27 | the string constructor stores a String holding the string |
| Param.FromInt | src/common/param.cc:28 | the int constructor stores an Int holding the value |
| Param.FromBool | src/common/param.cc:29 | the bool constructor stores a Bool holding the value |
| Param.FromFloat | src/common/param.cc:30-31 | the float and double constructors store a Float holding the value |
| Param.FromVector | src/common/param.cc:33-36 | the vector constructor stores a Vector whose entries 0, 1, 2 are x, y, z |
| Param.FromColor | src/common/param.cc:38-41 | the colour constructor stores a Color whose entries 0 to 3 are r, g, b, a |
| Param.FromMatrix | src/common/param.cc:43-49 | the matrix constructor stores a Matrix with m[i][j] at entry i·4 + j |
| Param.GetString | src/common/param.cc:51 | getVal succeeds exactly on a String and then gives its string; otherwise the output is left as it was |
| Param.GetInt | src/common/param.cc:52 | getVal succeeds exactly on an Int and then gives its value; otherwise the output is left as it was |
| Param.GetBool | src/common/param.cc:53 | getVal succeeds exactly on a Bool and then gives its value; otherwise the output is left as it was |
| Param.GetFloat | src/common/param.cc:54-55 | getVal succeeds exactly on a Float and then gives its value; otherwise the output is left as it was |
| Param.GetVector | src/common/param.cc:57-64 | getVal succeeds exactly on a Vector and then gives entries 0 to 2; otherwise the output is left as it was |
| Param.GetRgb | src/common/param.cc:66-73 | getVal succeeds exactly on a Color and gives its first three entries, ignoring alpha; otherwise the output is left as it was |
| Param.GetRgba | src/common/param.cc:75-82 | getVal succeeds exactly on a Color and gives its four entries; otherwise the output is left as it was |
| Param.GetMatrix | src/common/param.cc:84-94 | getVal succeeds exactly on a Matrix and gives m[i][j] from entry i·4 + j; otherwise the output is left as it was |
| Param.ConstructThenGet | src/common/param.cc:27-82 | constructing from a value and reading it back with the getter of its type gives the value; for an Rgb, the colour without alpha |
| Param.MatrixRoundTrip | src/common/param.cc:43-49 | a matrix stored and read back is the same matrix (also lines 84-94) |
| Param.Flatten | src/common/param.cc:149-151 | the sixteen entries of a matrix, m[i][j] at i·4 + j |
| Param.Assign | src/common/param.cc:96-153 | after an assignment the tag is the assigned type and the vector has the length that type needs |
| Param.AssignThenGet | src/common/param.cc:96-153 | after an assignment the getter of the assigned type gives the value back (an Rgb with alpha 1), and the getter of every other type fails |
| Param.AssignMatrix | src/common/param.cc:146-153 | assigning a matrix stores it row by row |
| Param.PrintType | src/common/param.cc:209-222 | printType gives "None/Unknown" exactly for the None tag |
| Param.PrintTypeInjective | src/common/param.cc:209-222 | two parameters print the same type name exactly when their tags are equal |
| Param.PrintBool | src/common/param.cc:163-168 | a bool prints as "true" or "false", "true" exactly when it is true |
| Param.PrintVectorLosesY | src/common/param.cc:181-186 | as written, two vectors that differ only in y print the same text |
| Param.PrintIgnoresY | src/common/param.cc:181-186 | print of a stored vector is the as-written text, which does not depend on the y component |
| Param.PrintVectorFaithful | src/common/param.cc:181-186 | with y printed in its own slot, two vectors with the same text have components with the same text |
| Param.MatrixTextStep | src/common/param.cc:198-203 | the text up to entry (i, j) is the text up to the entry before it, then "m<i>,<j>:<value>" and the separator |
| Param.PrintRow | src/common/param.cc:199-203 | one pass of the inner loop appends the four entries of row i, with their separators |
| Param.PrintMatrix | src/common/param.cc:193-205 | a matrix prints as "(" and its sixteen entries in row order, with no closing parenthesis |
| Param.PrintValue | src/common/param.cc:155-207 | print gives the value as text for each tag (a Vector as "(x:…, y:…, z:…)" with x shown in the y slot, a Color as "(r:…, g:…, b:…, a:…)", a matrix row by row) and "" for the None tag |
| Param.LessIrreflexive | src/common/param.cc:246 | no key is ordered before itself |
| Param.LessTransitive | src/common/param.cc:246 | the key order is transitive |
| Param.LessTotal | src/common/param.cc:246 | any two different keys are ordered one way or the other |
| Param.ParamMap.constructor | src/common/param.cc:246-247 | a new map has no keys |
| Param.ParamMap.Clear | src/common/param.cc:247 | clear leaves no parameters |
| Param.ParamMap.Index | src/common/param.cc:246 | operator[] gives the parameter stored under the key, or inserts an empty one in key order when the key is new; no other entry changes |
| Param.ParamMap.Set | src/common/param.cc:96-153 | operator[] then operator= assigns the value to the parameter under the key (a fresh one when the key is new); no other entry changes (also lines 246) |
| Param.ParamMap.Entries | src/common/param.cc:227 | the entries in map order: each key with its parameter |
| Param.ParamMap.Print | src/common/param.cc:224-232 | print writes one line per key, in increasing key order |
| Param.EntriesTextStep | src/common/param.cc:229 | each entry adds the line 'name' (Type) = 'value' |
| Param.PrintEntries | src/common/param.cc:227-230 | the loop writes the lines of all the entries, in order |
| Export.ParamLineEmpty | src/interface/export/export_c.cc:216-268 | writeParam writes nothing exactly for a parameter of no type and for an empty string |
| Export.ParamLineNamesType | src/interface/export/export_c.cc:216-268 | every call writeParam writes is yafaray_paramsSet followed by the parameter's type name |
| Export.ParamLineBool | src/interface/export/export_c.cc:226-230 | a bool is written as YAFARAY_BOOL_TRUE or YAFARAY_BOOL_FALSE after the quoted name, TRUE exactly when it holds |
| Export.JoinedAppend | src/interface/export/export_c.cc:280-289 | the text of consecutive pieces is the text of the first part followed by the text of the rest |
| Export.TextAppend | src/interface/export/export_c.cc:27-37 | writing more lines to the stream appends their text to what is there |
| Export.MapLinesOnePerEntry | src/interface/export/export_c.cc:280-289 | writeParamMap writes one line per entry, the i-th for the i-th entry in key order |
| Export.MapLinesStep | src/interface/export/export_c.cc:282-288 | one pass of writeParamMap's loop adds the line of the next entry |
| Export.NodesStep | src/interface/export/export_c.cc:293-298 | one pass of writeParamList's loop adds a push line and the node's map, one level deeper, and counts its entries |
| Export.NodesLinesCount | src/interface/export/export_c.cc:291-301 | the lines writeParamList writes before its end line are the counted entries plus the uncounted push lines |
| Export.Calls | src/interface/export/export_c.cc:72-80 | generateSectionsCalls has one call per section, the k-th calling section_k |
| Export.WritesSplitEvery | src/interface/export/export_c.cc:141-205 | counted lines that are each checked split the program every sectionMaxLines lines: the counter stays below the limit and one section opens per full block |
| Export.ExportC.constructor | src/interface/export/export_c.cc:27-54 | the header opens section_0; nothing is pending and no line is counted |
| Export.ExportC.Emit | src/interface/export/export_c.cc:141-205 | a written line is appended to the file and nothing else changes |
| Export.ExportC.SectionSplit | src/interface/export/export_c.cc:82-90 | sectionSplit resets the counter and opens the next section, numbered by the count of sections so far |
| Export.ExportC.SplitCheck | src/interface/export/export_c.cc:145 | the split check writes sectionSplit exactly when the counter has reached the limit, and leaves the counter below it |
| Export.ExportC.WriteLine | src/interface/export/export_c.cc:141-205 | a counted line is written, then the split check; the file keeps every section opened exactly once |
| Export.ExportC.AddVertex | src/interface/export/export_c.cc:141-147 | addVertex writes its call as a counted, checked line and returns 0 |
| Export.ExportC.AddVertexWithOrco | src/interface/export/export_c.cc:149-155 | addVertex with orco writes its call as a counted, checked line and returns 0 |
| Export.ExportC.AddNormal | src/interface/export/export_c.cc:157-162 | addNormal writes its call as a counted, checked line |
| Export.ExportC.AddFace | src/interface/export/export_c.cc:175-181 | addFace writes yafaray_addTriangle as a counted, checked line and returns true |
| Export.ExportC.AddFaceWithUv | src/interface/export/export_c.cc:183-189 | addFace with uvs writes yafaray_addTriangleWithUv as a counted, checked line and returns true |
| Export.ExportC.AddUv | src/interface/export/export_c.cc:191-197 | addUv writes its call as a counted, checked line and returns the uv count before it, which it increments |
| Export.ExportC.SmoothMesh | src/interface/export/export_c.cc:199-205 | smoothMesh writes its call as a counted, checked line and returns true |
| Export.ExportC.AddInstance | src/interface/export/export_c.cc:270-278 | addInstance writes the base object's name and the sixteen matrix entries row by row as a counted, checked line and returns true |
| Export.ExportC.SetCurrentMaterial | src/interface/export/export_c.cc:164-173 | a counted line with no split check, written only when the name differs from the current material, which becomes the name |
| Export.ExportC.GetNextFreeId | src/interface/export/export_c.cc:128-131 | getNextFreeId pre-increments next_obj_ as an unsigned int and returns the new value |
| Export.ExportC.EndObject | src/interface/export/export_c.cc:133-139 | endObject writes two counted lines with no split check and returns true |
| Export.ExportC.WriteParamMap | src/interface/export/export_c.cc:280-289 | writeParamMap writes the pending entries in key order at the given indentation and counts each |
| Export.ExportC.WriteNode | src/interface/export/export_c.cc:295-297 | a node writes an uncounted push line and then its map one level deeper |
| Export.ExportC.WriteNodes | src/interface/export/export_c.cc:293-298 | writeParamList's loop writes every node in order; it counts their entries only |
| Export.ExportC.WriteParamList | src/interface/export/export_c.cc:291-301 | writeParamList writes the nodes, then a counted end line |
| Export.ExportC.CreateTail | src/interface/export/export_c.cc:305-311 | the create call and the clearing line, two counted lines, then the split check |
| Export.ExportC.Create | src/interface/export/export_c.cc:303-410 | createLight to createImage write the pending parameters, clear them, write the call and the clearing line, then check for a split |
| Export.ExportC.CreateMaterial | src/interface/export/export_c.cc:325-336 | createMaterial also writes the node parameter list and clears both maps |
| Export.ExportC.CreateObject | src/interface/export/export_c.cc:412-423 | createObject restarts the uv count, writes as the other creators do, then increments next_obj_ |
| Export.ExportC.SetUp | src/interface/export/export_c.cc:92-122 | createScene, defineLayer and setupRender write the pending parameters and two counted lines with no split check; only createScene leaves out the blank line (also lines 425-432) |
| Export.ExportC.ClearAll | src/interface/export/export_c.cc:101-113 | clearAll drops the pending parameters and the node maps and sets next_obj_ to 0 |
| Export.ExportC.GenerateSectionsCalls | src/interface/export/export_c.cc:72-80 | the loop writes the calls to section_0 up to the last section, in order |
| Export.ExportC.Render | src/interface/export/export_c.cc:434-448 | render closes the last section with the output block, clears the parameters and writes main(), which calls every section |
| Export.CallsInOrder | src/interface/export/export_c.cc:72-80 | each section's call appears after the calls of all lower-numbered sections |
| Export.RenderDefinesEverySection | src/interface/export/export_c.cc:434-448 | after render, every section main() calls is opened by exactly one line written before main() |
| Export.UvsOfNewObject | src/interface/export/export_c.cc:191-197 | after createObject, addUv hands out 0, 1, 2, … and every counted line leaves the counter below the limit (also lines 412-423) |
| Export.SameMaterialTwice | src/interface/export/export_c.cc:164-173 | setting the same material twice writes at most one line |
| Logging.LevelFromString | src/yafraycore/logging.cc:277-292 | vlevel_from_string gives a valid level, Mute exactly for "mute" and "disabled", and Verbose for any unknown name |
| Logging.LevelNameRoundTrip | src/yafraycore/logging.cc:277-292 | every level is read back from its own name |
| Logging.KnownNameIsLevelName | src/yafraycore/logging.cc:281-288 | every recognised name is the name of the level it is read as, "disabled" standing for "mute" |
| Logging.Clamp | src/yafraycore/logging.cc:297 | the clamp gives a valid level, leaves valid levels alone, and sends values below Mute to Mute and above Debug to Debug |
| Logging.ClampOfParsedLevel | src/yafraycore/logging.cc:294-304 | a level read from a name is already in range, so the clamp never changes it |
| Logging.LevelTag | src/yafraycore/logging.cc:252-261 | the console tag is "LOG" exactly for levels outside Error to Debug |
| Logging.DigitChar | src/yafraycore/logging.cc:320-341 | a digit value is written as a decimal digit character |
| Logging.DigitValue | src/yafraycore/logging.cc:320-341 | a digit character denotes a value from 0 to 9 |
| Logging.NatText | src/yafraycore/logging.cc:320-341 | a number is written as its decimal digits: one digit below 10, two below 100, three below 1000 |
| Logging.NatTextRoundTrip | src/yafraycore/logging.cc:320-341 | reading the written digits back gives the number |
| Logging.Spaces | src/yafraycore/logging.cc:326-338 | the blank filler has the requested width and holds only blanks |
| Logging.Setw | src/yafraycore/logging.cc:330-338 | setw pads to the requested width, or keeps a longer text as it is |
| Logging.SetwPads | src/yafraycore/logging.cc:330-338 | the padded text ends with the original text and is blank before it |
| Logging.DurationFields | src/yafraycore/logging.cc:324-327 | hours, minutes and seconds, with C's truncating / and %, add back up to the duration; minutes and seconds stay below 60 |
| Logging.ZeroFields | src/yafraycore/logging.cc:324-327 | only a zero duration has all three fields zero |
| Logging.BlankConcat | src/yafraycore/logging.cc:328-338 | two blank pieces side by side are blank |
| Logging.HoursFieldShape | src/yafraycore/logging.cc:329-330 | the hours field is five blanks for 0 hours, otherwise starts with '+', and under 1000 hours is five characters ending in 'h' |
| Logging.MinutesFieldShape | src/yafraycore/logging.cc:332-334 | the minutes field is four blanks when hours and minutes are 0, starts with '+' when it is the first non-zero field, and ends in 'm' otherwise |
| Logging.SecondsFieldShape | src/yafraycore/logging.cc:336-338 | the seconds field is four blanks when all fields are 0, starts with '+' when it is the first non-zero field, and ends in 's' otherwise |
| Logging.DurationTextWidth | src/yafraycore/logging.cc:320-341 | under 1000 hours the text is 5+4+4 characters, with the unit letters of the fields shown at fixed places |
| Logging.SecondsTextWidth | src/yafraycore/logging.cc:320-341 | the text of a non-negative whole number of seconds under 1000 hours is 13 characters wide |
| Logging.PrintDurationWidth | src/yafraycore/logging.cc:320-341 | printDuration of a non-negative duration under 1000 hours is 13 characters wide |
| Logging.DurationTextPlus | src/yafraycore/logging.cc:320-341 | the first non-zero field starts with '+' and everything before it is blank; all zero fields give thirteen blanks |
| Logging.PrintDurationZero | src/yafraycore/logging.cc:320-341 | printDuration of a duration under one second is thirteen blanks |
| Logging.SimpleFieldsShape | src/yafraycore/logging.cc:343-364 | each field of the short format is empty exactly when it and every field before it are zero, and the first non-zero field starts with '+' |
| Logging.SimpleTextLeadingField | src/yafraycore/logging.cc:343-364 | the short text is empty exactly when all fields are zero and otherwise starts with '+' |
| Logging.SimpleFormatLeadingField | src/yafraycore/logging.cc:343-364 | printDurationSimpleFormat is empty exactly for durations under one second and otherwise starts with '+' |
| Logging.SimpleFormatUnderAMinute | src/yafraycore/logging.cc:343-364 | a duration of less than a minute is written as '+', its seconds padded to two characters, and 's' |
| Logging.BaseBadgeHeight | src/yafraycore/logging.cc:405-411 | the badge height before scaling is 70, plus 40 for each settings block drawn |
| Logging.BadgePlacement | src/yafraycore/logging.cc:385-403 | the params badge is drawn exactly for "top" and "bottom", and at the top exactly for "top" |
| Logging.Elapsed | src/yafraycore/logging.cc:224-225 | a first event (previous time 0) has duration 0; otherwise the duration is the difference of the times (also lines 234-235) |
| Logging.Log.constructor | src/yafraycore/logging.cc:34-36 | a new log has an empty memory log, no previous events, no params badge and empty metadata |
| Logging.Log.SetConsoleMasterVerbosity | src/yafraycore/logging.cc:294-298 | the console master becomes the level named, clamped, and nothing else changes |
| Logging.Log.SetLogMasterVerbosity | src/yafraycore/logging.cc:300-304 | the log master becomes the level named, clamped, and nothing else changes |
| Logging.Log.Out | src/yafraycore/logging.cc:211-275 | out appends a memory-log entry exactly when the level passes the log master and writes the console head exactly when it passes the console master; each previous-event time moves only with its own output |
| Logging.Log.ClearMemoryLog | src/yafraycore/logging.cc:192-195 | clearMemoryLog empties the memory log |
| Logging.Log.ClearAll | src/yafraycore/logging.cc:197-209 | clearAll empties the memory log and every metadata string |
| Logging.Log.AppendAANoiseSettings | src/yafraycore/logging.cc:366-369 | the AA and noise settings text grows by the given text; the other metadata is unchanged |
| Logging.Log.AppendRenderSettings | src/yafraycore/logging.cc:371-374 | the render settings text grows by the given text; the other metadata is unchanged |
| Logging.Log.SetParamsBadgePosition | src/yafraycore/logging.cc:385-403 | the badge flags are set from the position name as BadgePlacement says, and a top badge is always drawn |
| Logging.Log.GetBadgeHeight | src/yafraycore/logging.cc:405-416 | getBadgeHeight is the base height times the font factor, rounded up |
| Images.MaxWidthIsMaximum | src/image/image_layers.cc:24-28 | the largest width is at least 0 and every layer's width, and is 0 or the width of one of the layers (a layer without an image has width 0) (also lines 49-59) |
| Images.MaxHeightIsMaximum | src/image/image_layers.cc:30-34 | the largest height is the maximum of the layer heights in the same sense (also lines 61-71) |
| Images.WidthIsNotHeight | src/image/image_layers.cc:61-71 | a single layer holding a 4 × 2 image has largest width 4 and largest height 2, so the two differ |
| Images.ImageLayers.constructor | src/image/image_layers.cc:36-71 | the collection holds the given layers under their types |
| Images.ImageLayers.GetWidth | src/image/image_layers.cc:49-59 | getWidth's running maximum gives the largest width among the layers, or 0 |
| Images.ImageLayers.GetHeightAsWritten | src/image/image_layers.cc:61-71 | as written, getHeight reads each layer's width, so it returns the largest width |
| Images.ImageLayers.GetHeight | src/image/image_layers.cc:61-71 | with the height read, the result is the largest height among the layers, or 0 |
| Images.ImageLayers.GetColor | src/image/image_layers.cc:42-47 | getColor gives the pixel of the layer of the requested type, or the zero colour when there is no such layer |
| Images.ImageLayers.SetColor | src/image/image_layers.cc:36-40 | setColor changes only the one pixel of the layer of the colour's type, which then reads back as the colour; without such a layer nothing changes |
| Objects.Channel | src/geometry/object_geom.cc:48-50 | a drawn channel is one of the eight eighths from 0 to 7/8 |
| Objects.Passes | src/geometry/object_geom.cc:46-52 | the draws allow as many whole passes of three draws as fit in them |
| Objects.FirstBright | src/geometry/object_geom.cc:46-52 | the pass the loop stops at, if any, lies among the passes the draws allow |
| Objects.FirstBrightIsFirst | src/geometry/object_geom.cc:46-52 | the pass found is bright and no earlier pass is; when none is found no pass is bright |
| Objects.IndexCounters.constructor | src/geometry/object_geom.cc:29-30 | the shared counters start with automatic index 0 and highest index 1 |
| Objects.Ratio | include/geometry/object/object_basic.h:47 | a non-negative index over a positive highest index is non-negative, at most 1 when the index is not above it, and 1 exactly when they are equal |
| Objects.ObjectGeometric.constructor | src/geometry/object_geom.cc:41-54 | the automatic index advances by one (wrapping at 2^32) and the object keeps the first bright colour drawn; the other fields take their declared defaults |
| Objects.ObjectGeometric.SetName | include/geometry/object/object_basic.h:32-33 | after setName, getName gives the name |
| Objects.ObjectGeometric.SetVisibility | include/geometry/object/object_basic.h:37 | after setVisibility, getVisibility gives the visibility (also lines 41) |
| Objects.ObjectGeometric.UseAsBaseObject | include/geometry/object/object_basic.h:39 | after useAsBaseObject, isBaseObject gives the flag (also lines 43) |
| Objects.ObjectGeometric.SetLight | include/geometry/object/object_basic.h:52-54 | after setLight, getLight gives the light |
| Objects.ObjectGeometric.ResetObjectIndex | include/geometry/object/object_basic.h:31 | resetObjectIndex (also run by the destructor) puts both shared counters back to their initial values (also lines 44) |
| Objects.ObjectGeometric.SetObjectIndex | src/geometry/object_geom.cc:56-60 | the index is stored and the highest index raised to it, never lowered, so the normalised index is at most 1 |
| Objects.ObjectGeometric.GetNormObjectIndex | include/geometry/object/object_basic.h:47 | the normalised index is non-negative, at most 1 while the index is not above the highest, 1 exactly for the highest, and times the highest gives the index back |
| Objects.ObjectGeometric.GetAbsObjectIndexColor | include/geometry/object/object_basic.h:48 | a grey whose channels equal the object index |
| Objects.ObjectGeometric.GetNormObjectIndexColor | include/geometry/object/object_basic.h:49 | a grey whose channels equal the normalised index |
| Objects.ObjectGeometric.GetAutoObjectIndexNumber | include/geometry/object/object_basic.h:51 | a grey whose channels equal the shared automatic index |
| Objects.AutoColourRange | src/geometry/object_geom.cc:46-53 | the automatic colour's channels are eighths in [0, 7/8] and add up to at least one half |
| Objects.Factory | src/geometry/object_geom.cc:32-39 | the factory builds a sphere exactly for the type "sphere" and nothing otherwise |
| Materials.VisibilityFromString | src/materials/glass.cc:400-405 | the visibility name is read as VisibleNoShadows, InvisibleShadowsOnly or Invisible exactly for "no_shadows", "shadow_only" and "invisible" |
| Materials.VisibilityRoundTrip | src/materials/glass.cc:400-405 | every visibility is read back from its name, and an unknown name reads as normal visibility |
| Materials.GlassDeclinesWithoutSpecular | src/materials/glass.cc:116-123 | without a specular request, and unless a dispersive material meets a chromatic state, sample takes nothing |
| Materials.GlassOutcomeSound | src/materials/glass.cc:113-265 | with Fresnel factors in [0, 1], a sample is declined exactly when its pdf is 0, and otherwise has a pdf in (0, 1] and reports flags among the material's own |
| Materials.GlassMat.constructor | src/materials/glass.cc:82-98 | the material has all specular flags, plus Filter with fake shadows and Dispersive for a positive dispersion power; transmission is filtered with fake shadows and specular otherwise |
| Materials.GlassMat.Sample | src/materials/glass.cc:113-265 | sample follows the decision table: a declined sample has pdf 0 and is black; a refraction reports its flags and the filter colour; a reflection reports a specular reflection and the mirror colour; total internal reflection keeps pdf 1 and is white; W becomes 1 on success, and reverse samples outside the dispersive path copy the pdf and colour backwards |
| Materials.GlassMat.GetSpecular | src/materials/glass.cc:291-358 | with total internal reflection only the unscaled mirror colour is reflected; otherwise refraction (Kt times the filter colour) is specular unless a dispersive material meets a chromatic state, and reflection (Kr times the mirror colour) is followed from outside or below ray level 3; nothing at all is followed exactly deep inside a dispersive glass under a chromatic state |
| Materials.GlassFilterColour | src/materials/glass.cc:407 | the factory's filter colour is white with no transmit filter and the filter colour with a full one |
| Materials.GlassFactory | src/materials/glass.cc:365-492 | the factory's defaults are IOR 1.4, white filter and mirror colours, no transmit filter, no dispersion, no fake shadows and normal visibility; an absorption colour with a channel below 1 makes the glass absorbing and volumetric |
| Materials.MirrorMat.constructor | src/materials/glass.cc:500-506 | the reflectivity is clamped to at most 1, but the colour is scaled by the reflectivity as given; the only flag is Specular |
| Materials.MirrorMat.Sample | src/materials/glass.cc:518-524 | the mirror always samples a specular reflection of weight 1, its colour divided by the cosine; the pdf is left as it was |
| Materials.MirrorMat.GetSpecular | src/materials/glass.cc:526-535 | getSpecular reflects the mirror colour and does not refract; the refraction slot is white |
| Materials.MirrorFactory | src/materials/glass.cc:537-544 | the mirror factory builds a white, fully reflective mirror unless told otherwise |
| Materials.NullMat.BsdfFlags | src/materials/glass.cc:556 | the null material reports no flags |
| Materials.NullMat.Sample | src/materials/glass.cc:562-567 | the null material's sample has pdf 0, weight 0 and is black |
| MonteCarlo.LightIndex | src/integrator/surface/integrator_montecarlo.cc:75 | the light picked, min((int)(h·n), n − 1), is always one of the n lights |
| MonteCarlo.LightIndexBins | src/integrator/surface/integrator_montecarlo.cc:75 | below 1 the Halton value picks light k exactly when h·n falls in [k, k + 1); from 1 on it picks the last light |
| MonteCarlo.DirectLighting.constructor | src/integrator/surface/integrator_montecarlo.cc:71-79 | every thread's correlative sample counter starts at 0 |
| MonteCarlo.DirectLighting.EstimateOneDirectLight | src/integrator/surface/integrator_montecarlo.cc:71-79 | without lights there is no estimate and no counter moves; otherwise the light is picked by the base-2 Halton value at base offset + the thread's counter − 1, only that thread's counter advances, and the estimate is scaled by the number of lights |
| MonteCarlo.SplitSamplesBounds | src/integrator/surface/integrator_montecarlo.cc:394 | an undivided ray keeps the whole sample count; a divided one keeps at least one sample, never more than a positive count, and exactly count / division once the count reaches the division (also lines 668-670, 732-734) |
| MonteCarlo.LightSamples | src/integrator/surface/integrator_montecarlo.cc:393-394 | an area light's sample count is at least 1 for a divided ray and whenever nSamples times the multiplier is positive |
| MonteCarlo.LightSampleOffset | src/integrator/surface/integrator_montecarlo.cc:392 | the first Halton index of a light's pixel sample is computed in unsigned 32-bit arithmetic, and is the exact sum when that does not wrap (also lines 396) |
| MonteCarlo.SampleBlocksDisjoint | src/integrator/surface/integrator_montecarlo.cc:396 | without wrap-around, consecutive pixel samples of one light use disjoint blocks of Halton indices |
| MonteCarlo.DoLightEstimation | src/integrator/surface/integrator_montecarlo.cc:382-405 | a Dirac light is sampled without streams; an area light's light and material halves both start their Halton sequences one before offs, so both halves see the same points |
| MonteCarlo.PowerHeuristic | src/integrator/surface/integrator_montecarlo.cc:222-226 | the power heuristic a²/(a² + b²) lies in [0, 1] and is positive when a is not 0 (also lines 338-341) |
| MonteCarlo.LightSampleWeight | src/integrator/surface/integrator_montecarlo.cc:219-228 | a light sample's weight lies in [0, 1] and is 1 when the light cannot be hit or the material pdf is at most 1e-6 |
| MonteCarlo.MaterialSampleWeight | src/integrator/surface/integrator_montecarlo.cc:338-341 | a material sample's weight against the light pdf 1 / light_pdf lies in [0, 1], and is 0 when the inverse pdf is 0 |
| MonteCarlo.LightSampleCounted | src/integrator/surface/integrator_montecarlo.cc:207-244 | a light sample adds nothing when the light's pdf is at most 1e-6, and otherwise carries its MIS weight, which is 1 when the light cannot be hit or the material pdf is at most 1e-6 |
| MonteCarlo.MaterialSampleCounted | src/integrator/surface/integrator_montecarlo.cc:284-356 | a material sample adds nothing when the light cannot be intersected, when its own pdf is at most 1e-6, or when the inverse pdf the light reports is at most 1e-6, and otherwise carries its MIS weight in [0, 1] |
| MonteCarlo.MisWeightsSum | src/integrator/surface/integrator_montecarlo.cc:207-356 | for every positive light pdf and non-negative material pdf, the counted light and material weights of one direction add up to at most 1, and to exactly 1 unless the light's pdf is at most 1e-6 or (with both strategies in play) its inverse is |
| MonteCarlo.SubSamples | src/integrator/surface/integrator_montecarlo.cc:666-728 | the dispersive and glossy loops take the split sample count, give the ns-th sub-ray division·samples and offset division·samples·offset + ns, and return the summed alphas over the sample count (also lines 730-816) |
| MonteCarlo.SumBound | src/integrator/surface/integrator_montecarlo.cc:706-708 | at most c alphas, each in [0, 1], sum to a value in [0, c] (also lines 766-792) |
| MonteCarlo.AlphaSumBound | src/integrator/surface/integrator_montecarlo.cc:706-708 | k sub-samples of at most c alphas each in [0, 1] sum to at most c·k (also lines 766-792) |
| MonteCarlo.SubSampleAlphaBound | src/integrator/surface/integrator_montecarlo.cc:666-728 | with at most c alphas per sub-sample, the loop's alpha lies in [0, c] (also lines 730-816) |
| MonteCarlo.GlossyAlphaReachesTwo | src/integrator/surface/integrator_montecarlo.cc:776-792 | one glossy sub-sample that both reflects and transmits fully opaque rays gives the loop an alpha of 2 |
| MonteCarlo.ChildOffsetsDistinct | src/integrator/surface/integrator_montecarlo.cc:671-694 | sub-rays of parents with the same division and sample count share an offset only when they are the same sub-ray of the same parent (also lines 735-754) |
| MonteCarlo.Branches | src/integrator/surface/integrator_montecarlo.cc:929-970 | the branches that run are exactly those whose guards hold, each once, in the order dispersive, glossy, reflect, refract, and none beyond the depth limit |
| MonteCarlo.RecursiveRaytrace | src/integrator/surface/integrator_montecarlo.cc:924-973 | recursiveRaytrace runs exactly the branches Branches gives and returns the mean of their alphas, or 1 when none ran |
| MonteCarlo.RunIf | src/integrator/surface/integrator_montecarlo.cc:936-967 | a guarded branch whose source test agrees with Runs appends exactly Opt(r, b), adds its alpha to the sum and increments the count |
| MonteCarlo.GlossyAndSpecular | src/integrator/surface/integrator_montecarlo.cc:941-969 | within the depth limit, the glossy and specular block appends exactly the glossy, reflect and refract branches that Runs admits, in that order, keeping sum and count equal to the alphas' sum and the number run |
| MonteCarlo.BranchSumBound | src/integrator/surface/integrator_montecarlo.cc:936-967 | k branch alphas in [0, c] sum to at most c·k |
| MonteCarlo.MeanAlphaBound | src/integrator/surface/integrator_montecarlo.cc:972 | when every branch alpha lies in [0, c] with c ≥ 1, so does the returned alpha; with no branch it is exactly 1 |
| MonteCarlo.CausticTracer | src/integrator/surface/integrator_montecarlo.cc:418-541 | the caustic worker deposits on diffuse or glossy surfaces, keeps caustic photons only and stops dead paths |
| MonteCarlo.ModeAfter | src/integrator/surface/integrator_montecarlo.cc:545-570 | a failed load falls back to generate-and-save, reusing an empty map falls back to generate-only, and every other mode stays; the mode left either keeps the map or generates |
| MonteCarlo.CausticMapBuilder.constructor | src/integrator/surface/integrator_montecarlo.cc:543-641 | a new builder has the given mode, an empty caustic map and the given budget |
| MonteCarlo.CausticMapBuilder.CreateCausticMap | src/integrator/surface/integrator_montecarlo.cc:543-641 | createCausticMap always succeeds; it keeps a loaded map or a non-empty one to reuse; otherwise it clears the map, rounds the budget to a multiple of the thread count when there are caustic lights, stores the caustic photons of Halton indices 0 to budget − 1 when every worker completes, and saves in generate-and-save mode only |
| PhotonPaths.ModeFromString | src/integrators/photonintegr.cc:1518-1521 | "generate-save", "load" and "reuse-previous" select their modes, each if and only if that is the name given; every other name means generate only |
| PhotonPaths.ModeRoundTrip | src/integrators/photonintegr.cc:1518-1521 | every processing mode is read back from its own name |
| PhotonPaths.QuotientIsDiv | src/integrators/photonintegr.cc:634 | counting by repeated subtraction gives the integer quotient used when the budget is rounded |
| PhotonPaths.WholeIsMultiple | src/integrators/photonintegr.cc:634 | the rounded-down budget is the quotient times the thread count |
| PhotonPaths.RoundBudget | src/integrators/photonintegr.cc:634 | the rounded budget is never below the thread count |
| PhotonPaths.BudgetSlices | src/integrators/photonintegr.cc:634 | the rounded budget is `max(T, (n / T) * T)`: a multiple of the thread count, no larger than the request once the request reaches the thread count, and split exactly into T per-thread slices of `1 + (n - 1) / T` |
| PhotonPaths.ExactSlices | src/integrators/photonintegr.cc:119 | a positive multiple of the thread count splits into slices of its quotient with nothing left over |
| PhotonPaths.HaltonIndexInRange | src/integrators/photonintegr.cc:129 | the Halton index `curr + slice * threadID` of every worker's photon stays below `slice * threads` |
| PhotonPaths.HaltonIndexInjective | src/integrators/photonintegr.cc:129 | two photons, of the same or of different workers, never share a Halton index |
| PhotonPaths.HaltonIndexCovers | src/integrators/photonintegr.cc:129 | every Halton index below `slice * threads` is used by exactly the worker `i / slice` for its photon `i % slice` |
| PhotonPaths.PathAfterCharacterised | src/integrators/photonintegr.cc:217-219 | a photon stays direct exactly while every scattering event was a filter, and is caustic exactly when some glossy, specular or dispersive event met it while direct and every later event was glossy, specular, filter or dispersive |
| PhotonPaths.NoCausticWithoutCausticEvent | src/integrators/photonintegr.cc:217-219 | without a glossy, specular or dispersive event a photon never becomes caustic |
| PhotonPaths.DeadStaysDead | src/integrator/surface/integrator_montecarlo.cc:508-513 | once a photon is neither caustic nor direct it stays so, which is why the Monte Carlo caustic worker may abandon it |
| PhotonPaths.Reach | src/integrators/photonintegr.cc:202-213 | tracing goes on past every hit before the one it stops at, and stops at the last bounce, on absorption or (in the Monte Carlo caustic worker) on a dead path, or when the path leaves the scene |
| PhotonPaths.Visited | src/integrators/photonintegr.cc:166-202 | a path visits at most the hits the scene gives it |
| PhotonPaths.DepositsBelowSpec | src/integrators/photonintegr.cc:192-199 | the deposit list holds, in increasing order, exactly the visited hits whose material flags meet the mask and whose path classification is the wanted one |
| PhotonPaths.TracePath | src/integrators/photonintegr.cc:166-233 | one photon's loop: its bounce count is where tracing stops, its deposits are exactly the specified ones, and it stays chromatic exactly while no dispersive event has been passed (221-224, and integrator_montecarlo.cc:515-517) |
| PhotonPaths.RadiancePicks | src/integrators/photonintegr.cc:353-360 | a deposit becomes a radiance point if and only if its random draw picks it |
| PhotonPaths.DepositsFollowClassification | src/integrators/photonintegr.cc:192-199 | a diffuse-map tracer deposits only on photons that are not caustic, a caustic-map tracer only on caustic ones, and a caustic deposit is always preceded by a glossy, specular or dispersive event |
| PhotonPaths.Tag | src/integrators/photonintegr.cc:194-197 | each deposited photon carries its path's Halton index and its bounce, in the order of the bounces |
| PhotonPaths.ConcatSplit | src/integrators/photonintegr.cc:245-248 | appending one stretch of paths' photons to the preceding stretch gives the photons of the whole stretch |
| PhotonPaths.FirstBad | src/integrators/photonintegr.cc:142-148 | the first photon whose light index is out of range, if any: every earlier photon's light is in range |
| PhotonPaths.ShootSlice | src/integrators/photonintegr.cc:127-248 | one worker shoots its slice in Halton order; it stops at the first light index out of range and otherwise completes the whole slice; black photons count but are not traced (154-158); its photons and radiance points are exactly those of the paths it shot |
| PhotonPaths.OffsetIsProduct | src/integrators/photonintegr.cc:129 | the first Halton index of thread `t` is `slice * t` |
| PhotonPaths.AllCompleteStep | src/integrators/photonintegr.cc:638-641 | all of the first `t + 1` workers complete exactly when the first `t` do and worker `t` does |
| PhotonPaths.SliceStep | src/integrators/photonintegr.cc:245-248 | the photons of the first `done + slice` paths are those of the first `done` followed by those of the next slice |
| PhotonPaths.ShootAll | src/integrators/photonintegr.cc:638-641 | the workers run in thread order and each worker that finishes its slice adds its photons, radiance points and count while one that stops on a bad light index adds nothing (CompletedPhotons, CompletedRadiance, CompletedShot); so at most `slice * threads` are counted, and when each completes the map holds the photons of Halton indices 0 to `slice * threads - 1`, each path traced once, in order |
| PhotonPaths.CompletedAll | src/integrators/photonintegr.cc:142-148 | the finished workers' count is at most slice·t; when all t workers finish they add exactly the photons and radiance points of Halton indices 0 to slice·t - 1 in order and count them all, and with a non-empty slice any worker stopping leaves the count short |
| PhotonIntegrator.DiffuseDeposits | src/integrators/photonintegr.cc:343-350 | the diffuse map receives a photon at exactly the visited diffuse surfaces the path reaches while it is not caustic |
| PhotonIntegrator.CausticDeposits | src/integrators/photonintegr.cc:192-199 | the caustic map receives a photon at exactly the visited diffuse surfaces the path reaches while it is caustic, and only after a glossy, specular or dispersive event |
| PhotonIntegrator.ResolveFallsBack | src/integrators/photonintegr.cc:454-525 | the mode stays or falls back to a generating mode: a load survives exactly when every enabled map could be read and otherwise becomes generate-and-save; a reuse survives exactly when no enabled map is empty and otherwise becomes generate-only; generating modes are kept |
| PhotonIntegrator.ReuseChecksRadianceAlone | src/integrators/photonintegr.cc:478-524 | with diffuse photons off and final gathering on, an empty radiance map makes reuse fall back while loading needs no radiance map at all |
| PhotonIntegrator.KeptBelow | src/integrators/photonintegr.cc:1027-1036 | the points thinning keeps are positions of the input below the bound |
| PhotonIntegrator.Select | src/integrators/photonintegr.cc:1031 | the cleaned list holds the kept points, in the order of their positions |
| PhotonIntegrator.KeptBelowIndependent | src/integrators/photonintegr.cc:1027-1036 | thinning keeps points in input order and no kept point eliminates a later kept one |
| PhotonIntegrator.KeptBelowDropped | src/integrators/photonintegr.cc:1029-1034 | every dropped point is eliminated by an earlier kept point |
| PhotonIntegrator.KeptBelowFirst | src/integrators/photonintegr.cc:1027-1031 | the first radiance point is always kept |
| PhotonIntegrator.UnmarkedAfterKeeping | src/integrators/photonintegr.cc:1032-1034 | keeping a point unmarks exactly the points it eliminates and leaves the rest as they were |
| PhotonIntegrator.Unmark | src/integrators/photonintegr.cc:1032-1034 | after the lookup around a kept point, a point stays marked exactly when it was marked and the kept point does not eliminate it |
| PhotonIntegrator.KeepStep | src/integrators/photonintegr.cc:1029-1034 | a point still marked when reached is kept and appended to the cleaned list, and the use flags stay exact |
| PhotonIntegrator.DropStep | src/integrators/photonintegr.cc:1029 | a point already unmarked when reached is dropped |
| PhotonIntegrator.ThinAt | src/integrators/photonintegr.cc:1029-1035 | one pass of the thinning loop keeps the use flags and the cleaned list equal to their specification one point further |
| PhotonIntegrator.Thin | src/integrators/photonintegr.cc:1026-1037 | the thinning loop returns exactly the specified thinned points |
| PhotonIntegrator.Range | src/integrators/photonintegr.cc:45 | the indices handed out from a start to an end are those numbers, in increasing order |
| PhotonIntegrator.RadianceMapOf | src/integrators/photonintegr.cc:1040-1050 | the radiance map has one entry per thinned point, each the point with the colour gathered there |
| PhotonIntegrator.PreGather.constructor | src/integrators/photonintegr.cc:1040 | the shared pre-gather data start with nothing fetched and every entry blank |
| PhotonIntegrator.PreGather.Worker | src/integrators/photonintegr.cc:26-75 | a worker takes chunks of at most 32 indices until none is left, visits each index from the first unfetched one exactly once, in order, in ceil(count / 32) chunks, and writes each visited entry while leaving earlier ones untouched |
| PhotonIntegrator.PreGather.RunWorkers | src/integrators/photonintegr.cc:1046-1050 | the workers of all threads together visit every radiance point exactly once, in order, and fill the whole radiance map |
| PhotonIntegrator.SavedMaps | src/integrators/photonintegr.cc:1071-1096 | generate-and-save writes the caustic map exactly when caustics are on, the diffuse map exactly when diffuse photons are on, and the radiance map exactly with diffuse final gathering |
| PhotonIntegrator.CompleteAlone | src/integrators/photonintegr.cc:638-646 | with one thread, every worker finishing means the single loop finishing the whole budget |
| PhotonIntegrator.ShootMap | src/integrators/photonintegr.cc:634-760 | the budget is rounded; when every worker completes the map holds the photons of Halton indices 0 to budget - 1 in order; with several threads the map holds what the finished workers added (a stopped worker adds nothing); the single-thread loop keeps the photons and radiance points shot before the first bad light index; only the single-thread loop can fail |
| PhotonIntegrator.PhotonIntegrator.constructor | src/integrators/photonintegr.cc:78-94 | caustics, diffuse photons and final gathering on, ray depth 6 and 5 bounces, the rest from the arguments; the session's maps are kept as the last render left them |
| PhotonIntegrator.PhotonIntegrator.FromParams | src/integrators/photonintegr.cc:1439-1521 | every setting is its parameter or its default; the caustic search count defaults to the diffuse one, the minimum path length to the diffuse radius, the caustic depth is the bounce count, the mode is read from its name; the session's maps are kept as they were |
| PhotonIntegrator.PhotonIntegrator.ResolveMode | src/integrators/photonintegr.cc:454-525 | the mode becomes its resolved value, and each map that is read replaces the session's map |
| PhotonIntegrator.PhotonIntegrator.ShootDiffuse | src/integrators/photonintegr.cc:584-783 | without diffuse lights diffuse processing is switched off; otherwise the budget is rounded, the map receives the photons of every Halton index in order when the workers complete, and the stage fails exactly when the single loop stops early or fewer than 50 photons are stored |
| PhotonIntegrator.PhotonIntegrator.ShootCaustics | src/integrators/photonintegr.cc:804-983 | without caustic lights caustic processing is switched off; otherwise the budget is rounded, the map receives the caustic photons in order when the workers complete, and the stage fails exactly when the single loop stops early |
| PhotonIntegrator.PhotonIntegrator.BuildRadianceMap | src/integrators/photonintegr.cc:1022-1060 | the radiance map is built from the points thinned with radius dsRadius / 100, in order |
| PhotonIntegrator.PhotonIntegrator.ShootCausticsAndGather | src/integrators/photonintegr.cc:804-1060 | the caustic stage, then, when it succeeded and diffuse final gathering is on, the radiance map from the thinned radiance points; otherwise the radiance map is untouched |
| PhotonIntegrator.PhotonIntegrator.Generate | src/integrators/photonintegr.cc:551-1096 | the maps are cleared and rebuilt stage by stage; each map holds the photons of its rounded budget in order when the workers complete; fewer than 50 diffuse photons or an early stop fails the pass; a successful generate-and-save pass saves exactly the enabled maps |
| PhotonIntegrator.PhotonIntegrator.Preprocess | src/integrators/photonintegr.cc:413-1108 | a load or reuse that survives the mode checks keeps (or reads) the maps and succeeds without generating or saving; otherwise the maps are cleared and generated in the fallback mode: a disabled diffuse or caustic stage leaves its map empty, each rounded budget's photons fill the map in order when every worker completes, fewer than 50 diffuse photons or a single-thread stop on a bad light fails, the radiance map is the pre-gathered thinning of the radiance points with diffuse final gathering and empty without it, and a successful generate-and-save saves every enabled map |
| PhotonIntegrator.Get | src/integrators/photonintegr.cc:1472-1492 | a parameter's value when present, otherwise the default |
| PhotonIntegrator.ToUnsigned | src/integrators/photonintegr.cc:1494 | an int passed as unsigned is taken modulo 2^32: unchanged when non-negative, plus 2^32 when a negative 32-bit value |
| PhotonIntegrator.Factory | src/integrators/photonintegr.cc:1439-1524 | the factory's object: a fresh integrator whose every setting is its parameter or its default, working on the session's maps as the last render left them |

## Left out

- Threads, mutexes, progress bars, abort and cancel signals: workers run one after another in thread order.
- File and stream I/O: photon-map load and save, the HDR handler's file calls, the exporter's output stream, and the log's text and HTML files. Their payloads are sequences, and a file that cannot be read is `None`.
- The NaN-photon `continue` (photonintegr.cc:168-174, 319-325, 689-693, 905-909; integrator_montecarlo.cc:456-460) restarts the hit loop with the same ray and colour. The loop then never ends. `Emission` has no NaN case, so `ShootSlice`, `ShootMap` and `CreateCausticMap` always move on to the next photon.
- Photon colours, light emission, the light-power distribution and the scene intersection. What they decide for each Halton index is an input (`Emission`).
- Floating point. Reals stand for `float` and `double`, so single-precision rounding is not modelled. This covers the `float` overload of `getVal` (param.cc:54), `getNormObjectIndex` (object_basic.h:47) and the integrators' pdfs and weights.
- 32-bit wrap-around of the photon counters, the Halton indices and `curr`. These are modelled as unbounded naturals; the light-sample offsets and `ToUnsigned` do model the wrap-around.
- The kd-trees and the `eliminatePhoton_t` lookup. Elimination within a radius is a parameter of the thinning.
- The final-gathering colour computed around a radiance point. It is a parameter of the pre-gather.
- `setNumPaths`, `reserveMemory` and the kd-tree build threads of the photon maps.
- `ourRandom` draws: the radiance-point pick is a per-hit input (`fgPick`).
- The glass material's directions, Cauchy dispersion, wireframe and volume handler. Only the decision table and the colours of `sample` and `getSpecular` are modelled.
- `Hdr.WriteThenRead` round-trips `writeScanline` through `readARLE`, the path for scan widths 8 to 0x7fff.
  - Narrower or wider pictures are written adaptively by `saveToFile` (hdrHandler.cc:470-487) but read flat by `loadFromFile` (hdrHandler.cc:138-150). That save/load pair is not modelled.
  - `readORLE` and the 4-byte scanline-start signature (hdrHandler.cc:153-185) are not modelled either.
- `HdrHeader.ReadHeader` returns failure when the input ends before the blank line. The source never leaves its `for(;;)` loop there (hdrHandler.cc:229-253), because `fgets` at end of file keeps the previous line in the buffer.
- `Hdr.SeekLongRun` checks the scanline's end before comparing bytes. The source's run loop reads `scanline[beg_run + run_count]` before that test (hdrHandler.cc:525-533), so it can read one pixel past the end, which is undefined behaviour; the bytes written do not depend on it.
- `HdrHeader.ReadSize` returns failure for a size line with fewer than four tokens. The source indexes the missing tokens unchecked (hdrHandler.cc:260-276), which is undefined behaviour.
- `HdrHeader.Traverse` covers only non-negative extents. `readHeader` accepts negative sizes (hdrHandler.cc:282-302), and the scan loops at hdrHandler.cc:140 and 153 then never reach `max`.
- `Logging.Log.ClearAll` does not clear the statistics (`statsClear`, logging.cc:200), because the statistics buckets are float-keyed and not part of this model.
- Logging's wall-clock formatting (`printTime`, `printDate`), `saveTxtLog`, `saveHtmlLog`, console colours and the settings strings built for the log.
- The header holding the logger's constructor defaults is not part of this model; those defaults are constructor parameters.
- The C library's `rand()` is not part of this model. The object constructor reads its draws from a sequence and needs one bright draw among them, since the source's loop would not end otherwise.
- The exporter's colour-space handling (`setColorSpace`) and number formatting are parameters. `startGeometry` and `endGeometry` write nothing and are left out.
- `ExBound`, whose constructor ignores its argument, and the printing of `Vec3Double`.
- The float outputs of the random generators (`getNextFloatNormalized`, `RandomGenerator::operator()` as a double). Only their integer states are modelled.
- `loffs_delta` and the Halton generators of the Monte Carlo integrator are parameters.

## Findings

| source | as written | input that shows it | evidently intended | confidence | as-written member | corrected member |
|---|---|---|---|---|---|---|
| include/geometry/bound.h:149-208 | `cross` skips an axis along which the ray does not move, so a ray parallel to a slab is reported crossing the box even when its origin lies outside that slab | unit box, ray from (-1, 0.5, 0.5) along (0, 1, 0): reported entering at -0.5 and leaving at 0.5, but its point at t = 0 is outside the box | a ray parallel to a slab whose origin is outside it misses the box | not executed | Geometry.CrossParallelOutside | Geometry.CrossCheckedInside |
| include/math/random.h:84-90 | the seeded `getNextInt(int &seed)` applies the negative-result fix-up to the shared seed instead of the caller's seed | seed 127773 (= q): the returned seed is -2836 | the caller's seed gets the fix-up and stays in [1, m) | not executed | Random.SeededNextCanBeNegative | Random.FastRandom.NextIntSeeded |
| src/common/param.cc:181-186 | `print` of a Vector shows the x component in the y slot | vectors (1, 2, 3) and (1, 5, 3) print the same text | each component in its own slot | not executed | Param.PrintVectorLosesY | Param.PrintVectorFaithful |
| src/image/image_layers.cc:61-71 | `ImageLayers::getHeight` takes the maximum of the layers' widths | one layer of 4 x 2 pixels: getHeight gives 4 | the largest layer height, 2 here | not executed | Images.ImageLayers.GetHeightAsWritten | Images.ImageLayers.GetHeight |

`Param.PrintValue` and `Param.ParamMap.Print` keep the source's text (`Param.PrintIgnoresY`). `Images.WidthIsNotHeight` states the input of the last row for the maximum functions.
