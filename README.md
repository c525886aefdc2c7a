# Clutter alpha modes and Cogl vertex attributes, modelled in Dafny

This project models two small pieces of the Clutter toolkit and proves
properties of them.

**ClutterAlpha** (`clutter/clutter-alpha.c`).
- The built-in table that maps each animation mode to its progress function.
- The process-wide registry of user progress functions, with the logical ids
  that `clutter_alpha_register_func` and `clutter_alpha_register_closure` hand
  out.
- The per-object `mode`, `closure` and `timeline` fields, and how
  `clutter_alpha_set_mode`, `set_closure`, `set_func` and `set_timeline`
  change them.
- The integer progress functions: the rising, falling and full ramps, the
  square wave, and the falling smoothstep.

**CoglVertexAttribute** (`clutter/cogl/cogl/cogl-vertex-attribute.c`).
- How an attribute name is validated and bound to a fixed-function array. This
  includes the `%u` conversion that reads a texture unit out of
  "cogl_tex_coordN_in".
- The attribute object: its constructor, its two setters and its
  immutable-reference counter.
- The index helpers: the size of an index type, reading one index out of an
  index buffer, and the byte offset at which an indexed draw starts.
- The wireframe debug view: `get_wire_lines` and `add_line` turn a triangle,
  fan, strip or quad draw into line segments, written into an output buffer
  three floats per line vertex.

Modules, one per file:

| module | file | what it holds |
|---|---|---|
| `Base` | base.dfy | `Option`, `byte`, C integer limits, two arithmetic lemmas |
| `AlphaProgress` | alpha_progress.dfy | the integer progress functions, exact and with their 32-bit products |
| `AlphaModes` | alpha_modes.dfy | the mode table, the registry class, the `Alpha` class |
| `ScanUnsigned` | scan_unsigned.dfy | sscanf's `%u` as glibc performs it, and its decimal partner |
| `VertexAttributes` | vertex_attributes.dfy | name validation and the `VertexAttribute` class |
| `IndexBuffers` | index_buffers.dfy | index sizes, `get_index` over bytes, the draw offset |
| `WireLines` | wire_lines.dfy | the segment list of each mode, `add_line`, `get_wire_lines` |

How the model is shaped:
- State that the C code updates in place is a Dafny `class` with `modifies`
  clauses: `AlphaRegistry`, `Alpha` and `VertexAttribute`. The output buffer of
  `get_wire_lines` is an `array<Float>`, written by loops.
- Each method is proved against a specification function:
  - `ValidateCoglAttribute` against `CoglBinding`;
  - `SetMode` against `ResolveMode`;
  - `AddLine` and `GetWireLines` against `LineFloats`, `WireEdges` and
    `WireFloats`.
- The properties of those functions are proved as lemmas.
- A timeline is the two numbers the progress functions read from it: the
  current frame and the frame count.
- Buffers are byte sequences, and a float is its four bytes, copied bit for
  bit.
- Pointers that the code only passes around (timelines, caller closures, user
  data, vertex arrays) are numbers.

## Model

| member | source | states |
|---|---|---|
| AlphaProgress.RampInc | clutter/clutter-alpha.c:739-752 | The value lies in [0, 0xffff]. It is 0 at frame 0 and 0xffff at the last frame. It is the frame's share of 0xffff rounded down, as bounds `r*n <= frame*0xffff < (r+1)*n`. |
| AlphaProgress.RampIncMonotonic | clutter/clutter-alpha.c:739-752 | The rising ramp never decreases as the frame advances. |
| AlphaProgress.GintScaled | clutter/clutter-alpha.c:751 | The `gint` product `x * 0xffff` is defined exactly when it fits 32 bits, and then it equals the product. |
| AlphaProgress.GintScaledDefined | clutter/clutter-alpha.c:751 | For `x >= 0` the product fits exactly when `x <= 32768`. |
| AlphaProgress.RampIncAsWritten | clutter/clutter-alpha.c:751 | The ramp as written, with its 32-bit product, is defined exactly for frames up to 32768. Where defined it equals RampInc. |
| AlphaProgress.RampIncOverflowAtLongTimeline | clutter/clutter-alpha.c:751 | At the last frame of a 40000-frame timeline the product overflows, although RampInc gives 0xffff there. |
| AlphaProgress.RampDec | clutter/clutter-alpha.c:774-789 | The value is 0xffff at frame 0 and 0 at the last frame, stays within [0, 0xffff], and is `(n - frame)` times 0xffff over n, rounded down. |
| AlphaProgress.RampDecMonotonic | clutter/clutter-alpha.c:774-789 | The falling ramp never increases as the frame advances. |
| AlphaProgress.RampIncPlusDec | clutter/clutter-alpha.c:739-789 | The rising and falling ramps sum to 0xffff when `frame*0xffff` divides evenly by n, and to 0xfffe otherwise. |
| AlphaProgress.RampDecAsWritten | clutter/clutter-alpha.c:786-788 | Defined exactly when `n - frame <= 32768`. Where defined it equals RampDec. |
| AlphaProgress.RampDecOverflowAtLongTimeline | clutter/clutter-alpha.c:786-788 | Frame 0 of a 40000-frame timeline overflows, although RampDec gives 0xffff there. |
| AlphaProgress.Ramp | clutter/clutter-alpha.c:812-836 | For `n >= 2`, the full ramp stays in [0, 0xffff]. It is 0 at both ends and 0xffff at frame n/2. |
| AlphaProgress.RampSymmetric | clutter/clutter-alpha.c:812-836 | Frames `frame` and `n - frame` give the same value, odd n included. |
| AlphaProgress.RampHalves | clutter/clutter-alpha.c:824-835 | Up to n/2 the full ramp is RampInc over n/2 frames. After n/2 it is RampDec over n/2 frames. |
| AlphaProgress.RampRisesThenFalls | clutter/clutter-alpha.c:812-836 | The full ramp never decreases before n/2 and never increases after it. |
| AlphaProgress.RampAsWritten | clutter/clutter-alpha.c:824-835 | The branch taken is defined exactly when its factor is at most 32768. Where defined it equals Ramp. |
| AlphaProgress.RampOverflowAtLongTimeline | clutter/clutter-alpha.c:824-835 | The peak of an 80000-frame timeline overflows, although Ramp gives 0xffff there. |
| AlphaProgress.Square | clutter/clutter-alpha.c:1211-1225 | On a timeline position (0 < n, 0 <= frame <= n), the value is 0 or 0xffff. It is 0xffff exactly when the frame is past n/2. |
| AlphaProgress.SquareSwitchesOnce | clutter/clutter-alpha.c:1211-1225 | The square wave never falls as the frame advances. It is 0 at frame 0 and 0xffff at the last frame. |
| AlphaProgress.SmoothstepDec | clutter/clutter-alpha.c:1302-1307 | `0xffff - inc` in `guint32`. For `inc <= 0xffff` the two sum to 0xffff. Above that the result wraps modulo 2^32. |
| AlphaProgress.SmoothstepDecInvolutive | clutter/clutter-alpha.c:1302-1307 | Mirroring twice gives back every `guint32` value. |
| AlphaModes.BuiltinEntry | clutter/clutter-alpha.c:556-573 | Each table row carries its own mode, as the assertion at line 613 demands. Only the custom mode has no function, and no row names a user function. |
| AlphaModes.RegisteredId | clutter/clutter-alpha.c:672-691 | The id of the k-th registration is greater than CLUTTER_ANIMATION_LAST, and `id - LAST - 1` is entry k-1. |
| AlphaModes.ResolveMode | clutter/clutter-alpha.c:597-656 | Every branch of set_mode, as an iff on the mode: LAST is rejected; a mode below LAST is built-in, with the table's function; above LAST, an empty registry, an id past the registry, or a registered entry. |
| AlphaModes.RegisteredIdSelectsEntry | clutter/clutter-alpha.c:633-635 | Round trip: the id handed out for an appended entry selects that entry. |
| AlphaModes.RegistrationKeepsIds | clutter/clutter-alpha.c:672-691 | Registering another entry changes the meaning of no valid id and no built-in mode. |
| AlphaModes.RegistryIdsAreExact | clutter/clutter-alpha.c:633-635 | A user id selects an entry exactly when some registration returned it, and every id handed out selects its own entry. |
| AlphaModes.ResolveModeAsWritten | clutter/clutter-alpha.c:633-641 | As written, an id past a non-empty registry reads beyond the array, at an index of at least its length. Every other mode is resolved as ResolveMode resolves it. |
| AlphaModes.SetModeBeyondRegistry | clutter/clutter-alpha.c:633-641 | With one entry registered, id 14 reads element 1 of a one-element array. The intended outcome is Unregistered. |
| AlphaModes.AlphaRegistry.constructor | clutter/clutter-alpha.c:584 | The registry starts empty, like the NULL array. |
| AlphaModes.AlphaRegistry.RegisterFunc | clutter/clutter-alpha.c:672-691 | A NULL function gives id 0 and no change. Otherwise the function and its data are appended, and the id is the new length plus LAST. |
| AlphaModes.AlphaRegistry.RegisterClosure | clutter/clutter-alpha.c:708-725 | The same as RegisterFunc, for a closure entry. |
| AlphaModes.Alpha.constructor | clutter/clutter-alpha.c:264-272 | A new alpha is in the custom mode, with no closure and no timeline. Its notification log starts empty: the construct-time "mode" notification is not logged. |
| AlphaModes.Alpha.SetClosure | clutter/clutter-alpha.c:334-360 | A NULL closure changes nothing. Otherwise the closure is installed, the mode becomes the custom mode, the timeline is kept and "mode" is notified. |
| AlphaModes.Alpha.SetFunc | clutter/clutter-alpha.c:375-388 | A NULL function changes nothing. Otherwise a C closure of the function and its data is installed, the mode becomes the custom mode and "mode" is notified. |
| AlphaModes.Alpha.SetTimeline | clutter/clutter-alpha.c:399-433 | The already bound timeline changes nothing. Any other timeline replaces it, keeps mode and closure, and notifies "timeline". |
| AlphaModes.Alpha.SetMode | clutter/clutter-alpha.c:597-656 | A rejected mode, an empty registry or an unregistered id changes nothing. A built-in mode installs its table function, if it has one, and sets the mode. A registered id installs the entry's closure or function and sets the mode to that id. Each notification is recorded. |
| AlphaModes.RegisterFuncThenSetMode | clutter/clutter-alpha.c:597-691 | Registering a function and selecting the returned id makes the alpha run that function, with that data, in that id's mode. |
| ScanUnsigned.LeadingSpaces | clutter/cogl/cogl/cogl-vertex-attribute.c:201 | The white space `%u` skips: every character before the count is a C space, and the next one is not. |
| ScanUnsigned.DigitRun | clutter/cogl/cogl/cogl-vertex-attribute.c:201 | The digit run `%u` consumes: all digits, and followed by a non-digit or the end. |
| ScanUnsigned.DecimalRoundTrip | clutter/cogl/cogl/cogl-vertex-attribute.c:201 | The digits of `Decimal(k)` have the value k. |
| ScanUnsigned.DigitRunOfConcat | clutter/cogl/cogl/cogl-vertex-attribute.c:201 | A digit run ends exactly where the first non-digit begins. |
| ScanUnsigned.UnsignedFromDigits | clutter/cogl/cogl/cogl-vertex-attribute.c:201 | The unsigned int stored is always a `guint32`. Without a minus sign and below 2^64 it is the value modulo 2^32, so the value itself when that fits. With a minus sign and below 2^64 it is the negation modulo 2^32: adding the value gives a multiple of 2^32. It is 2^32-1 when strtoul saturates at 2^64 and above. |
| ScanUnsigned.ScanU | clutter/cogl/cogl/cogl-vertex-attribute.c:201 | A stored unit is a `guint32`. A leading digit always converts. A leading character that is not a space, sign or digit never does. |
| ScanUnsigned.NegationWraps | clutter/cogl/cogl/cogl-vertex-attribute.c:201 | strtoul's negation modulo 2^64, truncated to 32 bits, is the negation modulo 2^32. |
| ScanUnsigned.SkipSpaces | clutter/cogl/cogl/cogl-vertex-attribute.c:201 | `%u` skips any run of C white space and scans what follows it. |
| ScanUnsigned.LeadingZeros | clutter/cogl/cogl/cogl-vertex-attribute.c:201 | Leading zeros leave the value of a digit string unchanged. |
| ScanUnsigned.ScanNumber | clutter/cogl/cogl/cogl-vertex-attribute.c:201 | White space, an optional '+' or '-', a run of digits, then a non-digit or nothing: `%u` converts, and the value is UnsignedFromDigits of the digits with the sign. |
| ScanUnsigned.ScanNoNumber | clutter/cogl/cogl/cogl-vertex-attribute.c:201 | White space and an optional sign not followed by a digit: `%u` converts nothing. With ScanNumber this covers every string. |
| ScanUnsigned.ScanDecimal | clutter/cogl/cogl/cogl-vertex-attribute.c:201 | Round trip: the decimal form of any `guint32`, followed by a non-digit or nothing, scans back to that number. |
| VertexAttributes.ScanTexUnit | clutter/cogl/cogl/cogl-vertex-attribute.c:199-209 | The unit read after "tex_coord" is a `guint32`. What it reads is ScanU of the rest, so TexCoordUnitScanned and TexCoordWithoutUnitRefused give its value for every suffix. |
| VertexAttributes.CoglBinding | clutter/cogl/cogl/cogl-vertex-attribute.c:163-229 | Each fixed suffix is accepted exactly for its component counts: position for n != 1, color for 3 or 4, tex_coord_in always, normal for 3. Every other suffix is refused unless it starts with "tex_coord" and its unit scans, and then the unit is the scanned one. The binding never names the custom array. Normalized holds exactly for normal. The unit is 0 except for texture coordinates, where it is a `guint32`. |
| VertexAttributes.TexCoordUnitRoundTrip | clutter/cogl/cogl/cogl-vertex-attribute.c:199-209 | "tex_coord", the decimal form of any unit, then anything that is not a digit (the "_in" is never checked) binds texture-coordinate unit `unit`, for any component count. |
| VertexAttributes.TexCoordWithoutUnitRefused | clutter/cogl/cogl/cogl-vertex-attribute.c:199-209 | "tex_coord", then white space and an optional sign with no digit after them, other than "_in", is refused for any component count. |
| VertexAttributes.TexCoordUnitScanned | clutter/cogl/cogl/cogl-vertex-attribute.c:199-209 | "tex_coord", white space, an optional sign, digits (leading zeros allowed), then a non-digit or nothing, binds the texture-coordinate unit UnsignedFromDigits gives for those digits and that sign, for any component count. |
| VertexAttributes.BareTexCoordRefused | clutter/cogl/cogl/cogl-vertex-attribute.c:199-209 | "cogl_tex_coord", which the refusal's warning offers as a valid name, is refused (see Findings). |
| VertexAttributes.ValidateCoglAttribute | clutter/cogl/cogl/cogl-vertex-attribute.c:163-229 | Accepts exactly the names CoglBinding accepts, so only the four fixed suffixes and "tex_coord" with a scanned unit, with its out-parameters equal to the binding. After a refusal, normalized is false and the unit is 0, because both are cleared first. |
| VertexAttributes.CustomExactlyWithoutPrefix | clutter/cogl/cogl/cogl-vertex-attribute.c:250-270 | A name without "cogl_" always succeeds. An attribute is custom exactly when its name lacks the prefix. |
| VertexAttributes.VertexAttribute.New | clutter/cogl/cogl/cogl-vertex-attribute.c:231-279 | NULL exactly when validation refuses the name. Otherwise a fresh attribute with array, name, stride, offset, components and type unchanged, immutable_ref 0 and the name's binding. |
| VertexAttributes.VertexAttribute.SetNormalized | clutter/cogl/cogl/cogl-vertex-attribute.c:301-311 | Sets the flag; the array and the counter are unchanged. |
| VertexAttributes.VertexAttribute.SetArray | clutter/cogl/cogl/cogl-vertex-attribute.c:321-334 | Sets the array; the flag and the counter are unchanged. |
| VertexAttributes.VertexAttribute.ImmutableRef | clutter/cogl/cogl/cogl-vertex-attribute.c:336-344 | The counter goes up by exactly 1, and the attribute itself is returned. |
| VertexAttributes.VertexAttribute.ImmutableUnref | clutter/cogl/cogl/cogl-vertex-attribute.c:346-354 | Above 0 the counter goes down by exactly 1. At 0 the guard refuses and nothing changes. |
| VertexAttributes.RefThenUnref | clutter/cogl/cogl/cogl-vertex-attribute.c:336-354 | A ref followed by an unref leaves the counter where it was. |
| IndexBuffers.SizeofIndexType | clutter/cogl/cogl/cogl-vertex-attribute.c:977-990 | 1, 2 or 4 bytes: exactly enough for every value of guint8, guint16 or guint32. |
| IndexBuffers.LittleEndianRoundTrip | clutter/cogl/cogl/cogl-vertex-attribute.c:645-663 | Reading back the little-endian bytes of a value gives the value. |
| IndexBuffers.StoredIndex | clutter/cogl/cogl/cogl-vertex-attribute.c:653-658 | A stored index is below the bound of its C type. |
| IndexBuffers.AsCInt | clutter/cogl/cogl/cogl-vertex-attribute.c:657-658 | The guint32-to-int conversion yields an `int` congruent to the value modulo 2^32, and the value itself when it fits. |
| IndexBuffers.GetIndex | clutter/cogl/cogl/cogl-vertex-attribute.c:645-663 | Without an index array the argument comes back unchanged. Otherwise the result is a 32-bit int congruent to the stored index, and for byte and short indices it is the stored index. |
| IndexBuffers.EncodedSlice | clutter/cogl/cogl/cogl-vertex-attribute.c:645-663 | Index i of an encoded index array occupies bytes `i*size` to `(i+1)*size`, and they spell `vs[i]`. |
| IndexBuffers.GetIndexOfEncoded | clutter/cogl/cogl/cogl-vertex-attribute.c:645-663 | Round trip: get_index on an encoded array gives back each value that fits an int, and for int indices the value taken into an int. |
| IndexBuffers.DrawElementsOffset | clutter/cogl/cogl/cogl-vertex-attribute.c:1011-1030 | The offset is `array_offset + size*first_vertex` modulo 2^64, as size_t computes it. Without wrap-around it is the plain sum. |
| IndexBuffers.DrawOffsetAddressesFirst | clutter/cogl/cogl/cogl-vertex-attribute.c:1011-1030 | For an index array placed after other bytes in its buffer, the draw offset points at the bytes of index `first_vertex`. |
| WireLines.Expands | clutter/cogl/cogl/cogl-vertex-attribute.c:725-785 | The branch conditions at 725-726, 740-741, 761-762 and 785: only triangles, fans, strips and quads are expanded. A non-negative count that expands is 0 or at least 3. |
| WireLines.EdgeCount | clutter/cogl/cogl/cogl-vertex-attribute.c:728-787 | The `n_lines` assignments at 728, 743, 764 and 787: n for triangles and quads, between n and 2n for fans and strips, 0 exactly when nothing is expanded or n is 0. |
| WireLines.EdgeAt | clutter/cogl/cogl/cogl-vertex-attribute.c:725-801 | Every segment joins two vertices of the draw. |
| WireLines.WireEdges | clutter/cogl/cogl/cogl-vertex-attribute.c:725-801 | The segment list has n_lines entries: n for triangles and quads, 2n-3 for fans and strips, 0 for anything else. |
| WireLines.TriangleOutlined | clutter/cogl/cogl/cogl-vertex-attribute.c:725-739 | Segments 3t to 3t+2 go round triangle t and close back to its first vertex. |
| WireLines.QuadOutlined | clutter/cogl/cogl/cogl-vertex-attribute.c:785-801 | Segments 4q to 4q+3 go round quad q and close it. |
| WireLines.StripTriangleOutlined | clutter/cogl/cogl/cogl-vertex-attribute.c:761-781 | Every side of every strip triangle `(i-2, i-1, i)` is drawn. |
| WireLines.FanTriangleOutlined | clutter/cogl/cogl/cogl-vertex-attribute.c:740-760 | Every side of every fan triangle `(0, i-1, i)` is drawn. |
| WireLines.FanStripSegmentsDistinct | clutter/cogl/cogl/cogl-vertex-attribute.c:740-781 | No segment of a fan or strip is drawn twice, in either direction. |
| WireLines.CopiedComponents | clutter/cogl/cogl/cogl-vertex-attribute.c:678-690 | The number of components copied per line end. It is all of them for up to three, and x, y, z for four (see Findings). |
| WireLines.WritePoint | clutter/cogl/cogl/cogl-vertex-attribute.c:678-690 | The copy loops write the vertex's copied components, read from byte `index*stride`, then zeros up to three floats at `o`. Nothing else in the buffer changes. |
| WireLines.AddLine | clutter/cogl/cogl/cogl-vertex-attribute.c:666-693 | Writes the segment's start point and end point at line vertex `*n_line_vertices` and changes nothing else. The count grows by exactly 2. |
| WireLines.ConcatBlock | clutter/cogl/cogl/cogl-vertex-attribute.c:666-693 | Floats 6j to 6j+5 of the concatenation are block j. |
| WireLines.WireFloatsSegment | clutter/cogl/cogl/cogl-vertex-attribute.c:666-809 | Floats 6j to 6j+2 of the wireframe are the point of segment j's start vertex, read through get_index. Floats 6j+3 to 6j+5 are the point of its end vertex. |
| WireLines.AddSegment | clutter/cogl/cogl/cogl-vertex-attribute.c:666-693 | One add_line call for segment k of the list: after the k blocks before it, it stores segment k's block and the count becomes 2(k+1). |
| WireLines.AddFirstTriangle | clutter/cogl/cogl/cogl-vertex-attribute.c:746-751 | The first three add_line calls of a fan or a strip (also 767-772): the sides 0-1, 1-2 and 0-2 fill the first 18 floats, and the count becomes 6. |
| WireLines.AddJoinedVertex | clutter/cogl/cogl/cogl-vertex-attribute.c:755-758 | The two add_line calls for a further vertex i of a fan, or of a strip at 776-779: (i-1, i), then (0, i) for a fan or (i-2, i) for a strip. They extend the 2i-3 blocks before them to 2i-1, and the count becomes 2(2i-1). |
| WireLines.AddTriangle | clutter/cogl/cogl/cogl-vertex-attribute.c:732-737 | One TRIANGLES iteration stores the blocks of triangle t's three sides (i to i+1, i+1 to i+2, i+2 to i) after the 3t blocks before them. The count becomes 2(3t+3). |
| WireLines.AddQuad | clutter/cogl/cogl/cogl-vertex-attribute.c:792-799 | One QUADS iteration stores the blocks of quad q's four sides after the 4q blocks before them. The count becomes 2(4q+4). |
| WireLines.ExpandTriangles | clutter/cogl/cogl/cogl-vertex-attribute.c:725-739 | The TRIANGLES loop fills the whole buffer with the blocks of its 3-per-triangle segments and returns 2n line vertices. |
| WireLines.ExpandQuads | clutter/cogl/cogl/cogl-vertex-attribute.c:785-801 | The QUADS loop fills the whole buffer with its 4-per-quad segments and returns 2n line vertices. |
| WireLines.ExpandFan | clutter/cogl/cogl/cogl-vertex-attribute.c:740-760 | The TRIANGLE_FAN branch fills the buffer with the first triangle's sides and then two segments per further vertex. It returns 2(2n-3) line vertices. |
| WireLines.ExpandStrip | clutter/cogl/cogl/cogl-vertex-attribute.c:761-781 | The same as ExpandFan, for TRIANGLE_STRIP. |
| WireLines.GetWireLines | clutter/cogl/cogl/cogl-vertex-attribute.c:696-809 | Returns `2*n_lines` line vertices: 2n for triangles and quads, 2(2n-3) for fans and strips, 0 otherwise. The buffer holds exactly three floats per line vertex. Its contents are WireFloats of the mode's segment list: each segment's two points, in add_line order. |
| WireLines.AddLineLastFloatAsWritten | clutter/cogl/cogl/cogl-vertex-attribute.c:678-690 | As written, the last float stored stays inside the two P3Vertex slots exactly when n_components <= 3. For n_components > 3 it lies past them. |
| WireLines.PointIsCopiedEnd | clutter/cogl/cogl/cogl-vertex-attribute.c:678-690 | A modelled point is the copy loops' end layout (the components, then zeros up to three) of the components the model copies. |
| WireLines.LineFloatsAsWrittenUpToThree | clutter/cogl/cogl/cogl-vertex-attribute.c:666-693 | For 0 to 3 components, the model's six floats for a segment are exactly what the source's copy loops store. |
| WireLines.LastFloatOfLayout | clutter/cogl/cogl/cogl-vertex-attribute.c:678-690 | The end of the as-written layout is the last float index AddLineLastFloatAsWritten gives. |
| WireLines.FourComponentEndPointsGarbled | clutter/cogl/cogl/cogl-vertex-attribute.c:678-690 | With 4 components, as written, add_line stores 8 floats. The first slot holds v0's x, y, z. The second holds v0's w and v1's x, y, not v1's x, y, z. |
| WireLines.StrideZeroFanOverflowsLineCount | clutter/cogl/cogl/cogl-vertex-attribute.c:740-744 | With stride 0 and no index array, a fan of 2^30 vertices over one 12-byte vertex is readable and expands, yet `2 * n_lines` exceeds INT32_MAX. |
| WireLines.FourComponentTriangleOverflows | clutter/cogl/cogl/cogl-vertex-attribute.c:678-690 | A four-component "cogl_position_in" is accepted at creation, yet its one-triangle wireframe stores float 19 into an 18-float buffer. |

## Left out

- GObject plumbing is not modelled. This covers properties, signals, dispose/finalize, closure marshalling and reference counting, and `clutter_alpha_get_alpha`. Notifications are kept only as a log of property names, and closure ref/sink is left out. The construction-time `set_mode (0)` that `g_object_new` runs for the "mode" property, which is a construct property is not logged, so a new alpha starts with an empty log.
- The sine, exponential and Bézier alpha functions are not modelled. They depend on `cogl_angle_sin`, `cogl_fixed_pow2` or floating point.
- `clutter_smoothstep_inc_func` is not modelled. Its fixed-point macros are not part of this model. SmoothstepDec takes the rising value as a parameter, and that value may be any `guint32`.
- The timeline is not modelled as an object. The functions take `frame` and `n_frames` with `0 <= frame <= n_frames` and `0 < n_frames`, which is what a timeline reports; Ramp also needs `n_frames >= 2`. Ramp, RampInc and RampDec compute the exact product. The `...AsWritten` functions carry the 32-bit product.
- AlphaModes.Alpha.SetMode adds the registry bounds check the source lacks (see Findings). The as-written read is ResolveModeAsWritten.
- The `g_warning`/`g_critical` messages are not modelled. Each such path is modelled only by its effect: no change, NULL or FALSE.
- The `g_assert` of set_mode is not modelled as a check. BuiltinEntry proves instead that it always holds.
- `clutter_alpha_new_full`, `new_with_func`, `get_mode` and `get_timeline` are not modelled. They are compositions of the modelled setters, or plain reads.
- Attribute names are not modelled as C strings or bytes. They are NUL-free strings of characters, so `strcmp` is equality and `strncmp` is a prefix test.
- ScanUnsigned.ScanU models glibc on an LP64 target: strtoul saturates, and then a conversion to unsigned int takes the value modulo 2^32.
- The copy of the name (`g_strdup`) and the reference to the vertex array are not modelled. The array is an identity number. The getters are left out.
- The mid-scene warning of set_normalized and set_array is not modelled. The buffer immutable-ref calls are not modelled either.
- The GL state and draw calls are not modelled: `enable_gl_state`, `disable_gl_state`, the layer validation, bind/map/unmap and `glDraw*`. The `base` pointer of the indexed draw is also left out. Only its offset arithmetic is modelled.
- `draw_wireframe`'s pipeline handling is not modelled. The check for a missing position attribute is left out with it.
- WireLines.AddLine copies x, y and z when `n_components > 3`. The source writes every component past the 3-float slot (see Findings). The source's layout is LineFloatsAsWritten, and its reach is AddLineLastFloatAsWritten.
- WireLines.GetWireLines fills its buffer through AddLine, so it stores x, y and z for `n_components > 3` as well.
- WireLines.GetWireLines reads the vertices from the start of the mapped buffer, at `index * stride`, as the source does. It ignores the attribute's offset, the index array's offset and `first_vertex`.
- WireLines.GetWireLines models only little-endian indices and floats.
- WireLines.GetWireLines requires `n_vertices_in >= 0`. A negative count that passes the `% 3` or `% 4` test reaches `g_new` with a negative size, and allocation failure is not modelled.
- WireLines.GetWireLines does not model the `gint` product `n_lines * 2` at cogl-vertex-attribute.c:729, 744, 765 and 788 overflowing, nor the bound of `n_vertices_in` as an `int`. The overflow is reachable: a zero stride is never refused, so a fan of 2^30 vertices over one 12-byte vertex is readable and needs more than INT32_MAX line vertices (StrideZeroFanOverflowsLineCount). For such counts the source's `g_new` size is undefined, while the model returns the full buffer.
- WireLines.GetWireLines does not model the source's uninitialised return pointer for a mode it does not expand. That case returns an empty buffer with a count of 0.
- WireLines.GetWireLines takes the QUADS mode as always present. In the source it exists only in GL builds.
- IndexBuffers.GetIndex does not model the unreachable `g_return_val_if_reached (0)`.
- The varargs draw entry points and the `#if 0` blocks are not modelled.

## Findings

| source | as written | input that shows it | evidently intended | confidence | as-written member | corrected member |
|---|---|---|---|---|---|---|
| clutter/clutter-alpha.c:751 | `current_frame_num * CLUTTER_ALPHA_MAX_ALPHA` is a `gint` product, undefined past 32768 frames | frame 40000 of a 40000-frame timeline (40000 × 65535 > 2^31 − 1) | 0xffff at the last frame | not executed; high for the overflow | AlphaProgress.RampIncAsWritten | AlphaProgress.RampInc |
| clutter/clutter-alpha.c:786-788 | `(n_frames - current_frame_num) * CLUTTER_ALPHA_MAX_ALPHA` overflows `gint` | frame 0 of a 40000-frame timeline | 0xffff at frame 0 | not executed; high for the overflow | AlphaProgress.RampDecAsWritten | AlphaProgress.RampDec |
| clutter/clutter-alpha.c:824-835 | either branch's product overflows `gint` once its factor passes 32768 | frame 40000 of an 80000-frame timeline | 0xffff at the peak | not executed; high for the overflow | AlphaProgress.RampAsWritten | AlphaProgress.Ramp |
| clutter/clutter-alpha.c:633-641 | `g_ptr_array_index (clutter_alphas, real_index)` is read without comparing `real_index` to the array's length, so the NULL check after it cannot catch an id past the end | one function registered (id 13), then `clutter_alpha_set_mode (alpha, 14)` reads element 1 of a one-element array | the "No alpha function registered" warning and no change | not executed; medium | AlphaModes.ResolveModeAsWritten | AlphaModes.ResolveMode |
| clutter/cogl/cogl/cogl-vertex-attribute.c:678-690 | add_line copies all `n_components` floats of each end into a 3-float CoglP3Vertex slot, padding only below three | a "cogl_position_in" attribute with 4 components, which creation accepts, drawn as one triangle: the buffer holds 18 floats and the third add_line stores float 19 | copy x, y, z and drop w | not executed; medium | WireLines.AddLineLastFloatAsWritten | WireLines.AddLine |
| clutter/cogl/cogl/cogl-vertex-attribute.c:678-690 | the second end's floats start right after the first end's `n_components` floats, not at the next CoglP3Vertex | any segment of a 4-component attribute: the second slot holds (v0.w, v1.x, v1.y) | that slot holds (v1.x, v1.y, v1.z) | not executed; medium | WireLines.FourComponentEndPointsGarbled | WireLines.AddLine |
| clutter/cogl/cogl/cogl-vertex-attribute.c:203-205 | the refusal's warning says texture coordinate attributes may be named "cogl_tex_coord" | "cogl_tex_coord" itself has no unit for `%u` and is not "cogl_tex_coord_in", so it is refused | the warning names "cogl_tex_coord_in", which the code accepts; the code's behaviour stands | not executed; low (message text) | VertexAttributes.BareTexCoordRefused | VertexAttributes.CoglBinding |
