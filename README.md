# piet-gpu scene encoder

This project models the scene encoder of piet-gpu in Dafny: `piet-gpu/src/encoder.rs`.

The encoder records a 2D scene as six append-only streams and three counters:

- path tags, path segments, transforms and line widths;
- draw tags, each naming a draw object (fill color, linear gradient, radial gradient, begin clip, end clip);
- draw data, the payload structs of those objects.

The counters are the number of paths, path segments and clips. From these, `stage_config` plans two layouts:

- the uploaded scene buffer, with the padded streams one after another;
- the scratch memory of the element-processing stages.

`write_scene` serializes the streams in the scene-buffer order. It inserts zero padding after:

- the draw tags, to whole draw parts;
- the transforms, to whole transform parts;
- the path tags, to whole path-segment parts.

`GlyphEncoder` is a reduced encoder for glyph fragments. `Encoder::encode_glyph` merges a fragment into a scene.

The model has six modules:

- `Align` (align.dfy) defines `align_up` and `padding` bit by bit, as masks below a power of two. `wrapping_neg` is modelled on 64-bit `usize`. The module proves:
  - `align_up` is the least multiple at or above its argument;
  - `padding` is exactly the gap up to it.
- `Wire` (wire.dfy) gives the byte images `bytemuck` produces: little-endian `u32`s, and opaque 4-byte `f32`s and 24-byte transforms. It proves they read back.
- `DrawTags` (drawtags.dfy) covers:
  - the five draw-tag codes;
  - the payloads pushed with them;
  - the accounting of draw-data length, clip count and draw-info size over a tag stream.
- `Layout` (layout.dfy) models `stage_config`:
  - the layouts as functions;
  - the source's straight-line code with its mutable `alloc` accumulator as a method proved to produce them;
  - lemmas on what the layouts guarantee.
- `Scene` (scene.dfy) models:
  - `EncodedSceneRef` as a value;
  - `BufWrite` as a class over a byte sequence;
  - `write_scene` as a method proved to append `SceneImage`.

  It also proves that, with 24-byte transforms, every stream lands at the offset `stage_config` plans for it, with zero gaps shorter than one part, and that the streams read back from there. `EncodedSceneRef` is generic in its transform type, but the planner counts 24 bytes per transform (encoder.rs:68). A separate lemma shows the line widths land at the planned offset exactly when the transform type is 24 bytes wide or there are no transforms.
- `Encoding` (encoder.dfy) models `Encoder` and `GlyphEncoder` as classes whose methods update their stream fields. Every method keeps the scene invariant `ValidScene`:
  - the identity transform and the fill line width stay first;
  - every draw tag is one of the five codes;
  - the draw data is exactly as long as its tags announce;
  - `n_clip` counts the clip tags;
  - there are at least as many paths as end clips (each end clip adds a dummy path);
  - there are at least as many path tags as pushed transforms, line widths and end clips together.

The scratch layout is modelled as written: after the transform, path-segment and path-bbox regions, the running `alloc` is incremented by the region's own offset as well as its size (encoder.rs:368-374). The transform region's offset is always 0, so the path-segment region starts right where the transforms end. The path-bbox and draw-monoid regions start later than their predecessor's end, by the predecessor's own offset. The regions remain disjoint and large enough, so this is recorded as a property of the layout (`Layout.ScratchLayoutRegions`), not as a defect.

## Model

| member | source | states |
|---|---|---|
| Align.AlignUp | piet-gpu/src/encoder.rs:481-484 | defines `align_up` as `x + align - 1` with the bits below the power of two `align` cleared |
| Align.WrappingNeg | piet-gpu/src/encoder.rs:486-488 | defines `usize::wrapping_neg`: `2^64 - x` modulo 2^64 |
| Align.Padding | piet-gpu/src/encoder.rs:486-488 | defines `padding` as the bits of the wrapped negation below the power of two `align` |
| Align.AlignUpIsLeastMultiple | piet-gpu/src/encoder.rs:481-484 | `align_up(x, a)` for a power of two `a` is a multiple of `a`, lies in `[x, x + a)`, and is at most every multiple of `a` that is at least `x` |
| Align.PaddingIsGap | piet-gpu/src/encoder.rs:486-488 | `padding(x, a)`, the masked wrapping negation, equals `align_up(x, a) - x` and so is less than `a` |
| Align.WrappingNegComplement | piet-gpu/src/encoder.rs:486-488 | `x + x.wrapping_neg()` is a multiple of 2^64 |
| Align.LowBitsIsMod | piet-gpu/src/encoder.rs:486-488 | masking with `a - 1` keeps the remainder modulo the power of two `a` |
| Align.ClearLowBitsRoundsDown | piet-gpu/src/encoder.rs:481-484 | masking with `!(a - 1)` rounds down to a multiple of `a` |
| Wire.ToU32 | piet-gpu/src/encoder.rs:401-422 | the `as u32` cast changes nothing below 2^32 |
| Wire.U32sRoundTrip | piet-gpu/src/encoder.rs:137-138 | the `u32` draw-tag slice's byte image is four bytes per tag and decodes back to the slice |
| Wire.RecordsRoundTrip | piet-gpu/src/encoder.rs:141-145 | the image of transforms or line widths, cut into records of their width, gives back the records |
| DrawTags.FillColorPayload | piet-gpu/src/encoder.rs:210-214 | the `FillColor` payload is as long as the fill-color tag announces and decodes to the color |
| DrawTags.FillLinGradientPayload | piet-gpu/src/encoder.rs:216-222 | the `FillLinGradient` payload is as long as its tag announces; the index decodes first, then the two points |
| DrawTags.FillRadGradientPayload | piet-gpu/src/encoder.rs:224-232 | the `FillRadGradient` payload is as long as its tag announces; the index decodes first, then the points and radii |
| DrawTags.ClipPayload | piet-gpu/src/encoder.rs:243-247 | the `Clip` payload is as long as both clip tags announce and decodes to the given blend, or the default one |
| DrawTags.DrawDataSizeAppend | piet-gpu/src/encoder.rs:294-344 | the draw data announced by a tag stream is additive over concatenation |
| DrawTags.DrawDataAtLeastOneWordEach | piet-gpu/src/encoder.rs:294-344 | every draw object carries at least one word of draw data |
| DrawTags.DrawInfoWithinBudget | piet-gpu/src/encoder.rs:395-397 | the draw-info records the tags announce fit the worst case of 44 bytes per object |
| DrawTags.DrawDataSizePush | piet-gpu/src/encoder.rs:294-298 | pushing one tag adds exactly the payload size it announces to the expected draw data |
| Layout.SceneLayout | piet-gpu/src/encoder.rs:352-363 | defines the six scene-buffer offsets `stage_config` computes from the stream lengths |
| Layout.ScratchLayout | piet-gpu/src/encoder.rs:366-398 | defines the eleven scratch offsets and the end of scratch memory, with the running total added to itself where the source does so |
| Layout.ToConfig | piet-gpu/src/encoder.rs:400-423 | defines the `Config` literal: every offset and count cast `as u32` |
| Layout.CompleteParts | piet-gpu/src/encoder.rs:386 | `n_clip / CLIP_PART_SIZE` is the number of whole parts: it times the part size is at most `n`, and one more part exceeds it |
| Layout.StageConfig | piet-gpu/src/encoder.rs:350-426 | the straight-line planner with its mutable `alloc` returns the configuration of the scene and scratch layouts and the end of the scratch memory |
| Layout.PaddedRegion | piet-gpu/src/encoder.rs:354-363 | a region of `align_up(n, part)` elements holds `n` elements, wastes less than one part and is a whole number of parts |
| Layout.SceneLayoutRegions | piet-gpu/src/encoder.rs:352-363 | the scene regions follow one another; each padded region holds its stream, wastes less than a part and is whole parts; the others are exactly as long as their streams |
| Layout.ScratchLayoutRegions | piet-gpu/src/encoder.rs:366-398 | the scratch regions follow one another and are at least as large as what they hold; path-bbox and draw-monoid regions start at twice the previous start plus its size; the clip-bic region has one slot per complete clip part |
| Layout.ConfigExactWhenSmall | piet-gpu/src/encoder.rs:400-423 | when both layouts end below 2^32, every `as u32` offset and count in the configuration is exact |
| Scene.BufWrite.ExtendSlice | piet-gpu/src/encoder.rs:138 | appending a slice's image puts it after the buffer's contents |
| Scene.BufWrite.FillZero | piet-gpu/src/encoder.rs:140 | appends exactly `n` zero bytes |
| Scene.EncodedSceneRef.Sizes | piet-gpu/src/encoder.rs:152-178 | defines the view's `n_*` accessors and stream lengths, everything `stage_config` reads |
| Scene.SceneImage | piet-gpu/src/encoder.rs:428-441 | defines the bytes `write_scene` appends: the nine regions in order, with zero tails of the `padding` lengths |
| Scene.EncodedSceneRef.StageConfig | piet-gpu/src/encoder.rs:59-135 | the borrowed view is planned by the same layout functions as the encoder |
| Scene.EncodedSceneRef.WriteScene | piet-gpu/src/encoder.rs:137-150 | the nine appends put the scene image after what the buffer held |
| Scene.RegionStarts | piet-gpu/src/encoder.rs:137-150 | where each of the nine regions starts, in terms of the stream lengths and the padding lengths |
| Scene.OffsetsAreRegionStarts | piet-gpu/src/encoder.rs:352-363 | the planned scene offsets are exactly where `write_scene` starts each stream; each zero tail is shorter than one part |
| Scene.LinewidthOffsetNeedsTransformSize | piet-gpu/src/encoder.rs:64-68 | with transforms of width `w`, what `write_scene` writes before the line widths is the planned line-width offset plus `(w - 24)` bytes per transform; the two agree exactly when `w` is 24 or there are no transforms |
| Scene.SceneImageLayout | piet-gpu/src/encoder.rs:137-150 | every stream of the image sits at its planned offset; the gaps between them are zeros, shorter than one part; the image ends with the path segments |
| Scene.DrawTagsReadBack | piet-gpu/src/encoder.rs:137-139 | decoding the draw-tag region at its planned offset gives back the draw tags |
| Scene.TransformsReadBack | piet-gpu/src/encoder.rs:142-144 | cutting the transform region at its planned offset into 24-byte records gives back the transforms |
| Scene.LinewidthsReadBack | piet-gpu/src/encoder.rs:145 | the line-width region ends where the path tags start, and cut into 4-byte records gives back the line widths |
| Encoding.SwapLast | piet-gpu/src/encoder.rs:280-283 | swapping the last two path tags keeps the length and the prefix and exchanges the last two |
| Encoding.SwapLastPermutes | piet-gpu/src/encoder.rs:280-283 | swapping the last two tags is a permutation and its own inverse |
| Encoding.DrawPushed | piet-gpu/src/encoder.rs:294-344 | pushing a draw tag adds its payload size to the expected draw data and counts it among the clips exactly when it is a clip tag |
| Encoding.FillsMerged | piet-gpu/src/encoder.rs:471-478 | merging fill-color tags keeps every tag known, adds their payloads and adds no clip |
| Encoding.ValidSceneFitsLayout | piet-gpu/src/encoder.rs:354-398 | in a valid scene the planned draw-data region is exactly the announced draw data, the worst-case draw-info region covers every object, and the clip counter matches the clip tags |
| Encoding.Encoder.constructor | piet-gpu/src/encoder.rs:250-262 | a new encoder holds the identity transform and the fill line width, nothing else, and is valid |
| Encoding.Encoder.AppendPath | piet-gpu/src/encoder.rs:264-266 | a path encoder only appends to the path-tag and path-segment streams; validity is kept |
| Encoding.Encoder.FinishPath | piet-gpu/src/encoder.rs:268-271 | one more path and `k` more path segments; nothing else changes |
| Encoding.Encoder.Transform | piet-gpu/src/encoder.rs:273-276 | pushes the transform path tag and the transform |
| Encoding.Encoder.SwapLastTags | piet-gpu/src/encoder.rs:280-283 | the path-tag stream becomes `SwapLast` of the old one; validity is kept |
| Encoding.Encoder.Linewidth | piet-gpu/src/encoder.rs:286-289 | pushes the line-width path tag and the width |
| Encoding.Encoder.FillColor | piet-gpu/src/encoder.rs:294-298 | pushes the fill-color tag and its payload; draw data stays as long as the tags announce |
| Encoding.Encoder.FillLinGradient | piet-gpu/src/encoder.rs:303-307 | pushes the linear-gradient tag and its payload |
| Encoding.Encoder.FillRadGradient | piet-gpu/src/encoder.rs:312-322 | pushes the radial-gradient tag and its payload |
| Encoding.Encoder.BeginClip | piet-gpu/src/encoder.rs:325-332 | pushes the begin-clip tag and its blend payload, and counts one more clip |
| Encoding.Encoder.EndClip | piet-gpu/src/encoder.rs:334-344 | pushes the end-clip tag, its blend payload and a dummy path tag, and counts one more path and one more clip |
| Encoding.Encoder.StageConfig | piet-gpu/src/encoder.rs:350-426 | the encoder's plan is the layout of its sizes |
| Encoding.Encoder.WriteScene | piet-gpu/src/encoder.rs:428-441 | appends the scene image of the encoder's streams |
| Encoding.Encoder.NDrawobj | piet-gpu/src/encoder.rs:443-446 | the number of draw objects; each has at least one word of draw data |
| Encoding.Encoder.NPath | piet-gpu/src/encoder.rs:448-451 | the path count, at least the number of end clips |
| Encoding.Encoder.NTransform | piet-gpu/src/encoder.rs:458-460 | the transform count, never zero |
| Encoding.Encoder.NPathtag | piet-gpu/src/encoder.rs:462-465 | the path-tag count, at least one per pushed transform, line width and end clip |
| Encoding.Encoder.NClip | piet-gpu/src/encoder.rs:467-469 | the clip count, equal to the number of clip tags |
| Encoding.Encoder.EncodeGlyph | piet-gpu/src/encoder.rs:471-478 | appends the fragment's four streams, adds its counters and keeps the encoder valid |
| Encoding.GlyphEncoder.constructor | piet-gpu/src/encoder.rs:185-192 | a default fragment is empty |
| Encoding.GlyphEncoder.AppendPath | piet-gpu/src/encoder.rs:491-493 | a path encoder only appends to the fragment's path streams |
| Encoding.GlyphEncoder.FinishPath | piet-gpu/src/encoder.rs:495-498 | one more path and `k` more path segments |
| Encoding.GlyphEncoder.FillColor | piet-gpu/src/encoder.rs:503-507 | pushes the fill-color tag and its payload; the fragment holds fills only |
| Encoding.GlyphEncoder.IsColor | piet-gpu/src/encoder.rs:509-511 | true exactly when a fill color was recorded, and exactly when there is draw data |

## Left out

- `usize` arithmetic is unbounded: `align_up` and the layout sums are not modelled for overflow past 2^64. `wrapping_neg` is modelled at 64 bits.
- `u32` counters (`n_path`, `n_pathseg`, `n_clip`): overflow is excluded by preconditions, matching the debug-build panic. The release-build wrap-around is not modelled.
- Encoding.Encoder.NPathseg: returns the counter and promises nothing more. The model has no invariant tying `n_pathseg` to the path-segment stream, because the segment counts come from `PathEncoder`, which is not part of this model.
- `Encoding.Encoder.SwapLastTags` requires at least two path tags. With fewer, the source panics on the index.
- The part sizes `DRAW_PART_SIZE`, `TRANSFORM_PART_SIZE`, `PATHSEG_PART_SIZE` and `CLIP_PART_SIZE` live in `crate::stages`, which is not part of this model. They are a parameter, assumed to be `u32` powers of two.
- `f32` values and `stages::Transform` are opaque byte images; no floating-point arithmetic happens in the encoder.
- `Blend` and `Blend::pack` are not part of this model. A blend is given already packed as a `u32`. The default blend is a placeholder constant, and nothing proved depends on its value.
- `PathEncoder` is not part of this model. `path_encoder` is modelled as an arbitrary append to the path-tag and path-segment streams, made through the returned encoder.
- `BufWrite` capacity and reallocation are not modelled, only its contents.
- The `ramp_data` field of `EncodedSceneRef` is not modelled; the core never reads it.
- The fields of `Config` set by `..Default::default()` are not modelled.
- Scene.EncodedSceneRef.WriteScene: the view's transform type `T` is fixed to the 24-byte `stages::Transform` image. `write_scene` writes `size_of::<T>()` bytes per transform (encoder.rs:142), but `stage_config` counts 24 (encoder.rs:68). So the planner and serializer agreement (`Scene.SceneImageLayout`, `Scene.OffsetsAreRegionStarts`, `Scene.LinewidthsReadBack`) holds only when `size_of::<T>()` is 24, which `Scene.LinewidthOffsetNeedsTransformSize` shows for the line-width offset.
- The `FillImage` payload struct is declared but never pushed by any operation, so it is not modelled.
- The draw-tag bit layout is read off the five codes: bits 2 to 4 give payload words, bits 6 and up give draw-info words. Only the codes themselves are in the encoder, and the shader header defining the layout is not part of this model.
- `piet-gpu/bin/wayland.rs` is a windowing front end and is not part of this model.
