/** The layout planner `stage_config`: from stream lengths and counts alone, the
    byte offset of each region of the uploaded scene buffer and of the scratch
    memory used by the element-processing stages.

    `SceneLayout` and `ScratchLayout` describe the two layouts; `StageConfig`
    is the source's straight-line code with its mutable `alloc` accumulator,
    proved to produce them. The serializer (module Scene) is proved to write
    every stream at the offset `SceneLayout` gives it. */
module Layout {

  import opened Align
  import opened Wire

  /** The part (block) sizes of the draw, transform, path-segment and clip
      stages: `DRAW_PART_SIZE`, `TRANSFORM_PART_SIZE`, `PATHSEG_PART_SIZE` and
      `CLIP_PART_SIZE` of `crate::stages`, whose values are not part of this
      model. Each is a `u32` power of two. */
  datatype PartSizes = PartSizes(draw: nat, transform: nat, pathseg: nat, clip: nat)
  {
    predicate Valid()
    {
      && IsPowerOfTwo(draw) && draw < U32_MODULUS
      && IsPowerOfTwo(transform) && transform < U32_MODULUS
      && IsPowerOfTwo(pathseg) && pathseg < U32_MODULUS
      && IsPowerOfTwo(clip) && clip < U32_MODULUS
    }
  }

  /** Everything `stage_config` reads: the stream lengths and the counters. */
  datatype SceneSizes = SceneSizes(
    nDrawobj: nat,     // draw-tag stream length
    drawdataLen: nat,  // draw-data stream length, in bytes
    nTrans: nat,       // transform stream length
    nLinewidth: nat,   // line-width stream length
    nPathtag: nat,     // path-tag stream length
    nPath: u32,
    nPathseg: u32,
    nClip: u32)

  /** Byte offsets of the six regions of the uploaded scene buffer. */
  datatype SceneOffsets = SceneOffsets(
    drawtag: nat, drawdata: nat, trans: nat, linewidth: nat, pathtag: nat, pathseg: nat)

  /** Byte offsets of the eleven scratch regions, and the end of the last one. */
  datatype ScratchOffsets = ScratchOffsets(
    trans: nat, pathseg: nat, pathBbox: nat, drawmonoid: nat, anno: nat,
    clip: nat, clipBic: nat, clipStack: nat, clipBbox: nat, drawBbox: nat,
    drawinfo: nat, total: nat)

  /** The configuration block handed to the GPU (the fields `stage_config` sets). */
  datatype Config = Config(
    nElements: u32, nPathseg: u32,
    pathsegAlloc: u32, annoAlloc: u32, transAlloc: u32, pathBboxAlloc: u32,
    drawmonoidAlloc: u32, clipAlloc: u32, clipBicAlloc: u32, clipStackAlloc: u32,
    clipBboxAlloc: u32, drawBboxAlloc: u32, drawinfoAlloc: u32,
    nTrans: u32, nPath: u32, nClip: u32,
    transOffset: u32, linewidthOffset: u32, pathtagOffset: u32, pathsegOffset: u32,
    drawtagOffset: u32, drawdataOffset: u32)

  // Scratch element sizes local to stage_config (encoder.rs:381-397)
  const CLIP_SIZE: nat := 4
  const CLIP_BIC_SIZE: nat := 8
  const CLIP_EL_SIZE: nat := 20
  const CLIP_BBOX_SIZE: nat := 16

  // ---------------------------------------------------------------------------
  // The two layouts

  /** `n / part`: the number of whole parts among `n` elements, rounded down. */
  function CompleteParts(n: nat, part: nat): (r: nat)
    requires part > 0
    ensures r * part <= n < (r + 1) * part
  {
    DivModUnique(n, part, n / part, n % part);
    n / part
  }

  /** The uploaded scene buffer: draw tags padded to whole draw parts, draw data,
      transforms padded to whole transform parts, line widths, path tags padded
      to whole path-segment parts, then path segments. */
  function SceneLayout(s: SceneSizes, p: PartSizes): SceneOffsets
    requires p.Valid()
  {
    var drawtag := 0;
    var drawdata := drawtag + AlignUp(s.nDrawobj, p.draw) * DRAWTAG_SIZE;
    var trans := drawdata + s.drawdataLen;
    var linewidth := trans + AlignUp(s.nTrans, p.transform) * TRANSFORM_SIZE;
    var pathtag := linewidth + s.nLinewidth * LINEWIDTH_SIZE;
    var pathseg := pathtag + AlignUp(s.nPathtag, p.pathseg);
    SceneOffsets(drawtag, drawdata, trans, linewidth, pathtag, pathseg)
  }

  /** The scratch memory. Each region starts where the previous one ends, except
      that the path-segment, path-bbox and draw-monoid regions start at twice
      the previous start plus the previous size: the source adds the previous
      offset to the running total a second time. */
  function ScratchLayout(s: SceneSizes, p: PartSizes): ScratchOffsets
    requires p.Valid()
  {
    var trans := 0;
    var pathseg := 2 * trans + AlignUp(s.nTrans, p.transform) * TRANSFORM_SIZE;
    var pathBbox := 2 * pathseg + s.nPathseg * PATHSEG_SIZE;
    var drawmonoid := 2 * pathBbox + s.nPath * PATH_BBOX_SIZE;
    var anno := drawmonoid + AlignUp(s.nDrawobj, p.draw) * DRAWMONOID_SIZE;
    var clip := anno + s.nDrawobj * ANNOTATED_SIZE;
    var clipBic := clip + s.nClip * CLIP_SIZE;
    var clipStack := clipBic + CompleteParts(s.nClip, p.clip) * CLIP_BIC_SIZE;
    var clipBbox := clipStack + s.nClip * CLIP_EL_SIZE;
    var drawBbox := clipBbox + AlignUp(s.nClip, p.clip) * CLIP_BBOX_SIZE;
    var drawinfo := drawBbox + s.nDrawobj * DRAW_BBOX_SIZE;
    var total := drawinfo + s.nDrawobj * MAX_DRAWINFO_SIZE;
    ScratchOffsets(trans, pathseg, pathBbox, drawmonoid, anno, clip, clipBic,
                   clipStack, clipBbox, drawBbox, drawinfo, total)
  }

  /** The `Config { .. }` literal: every offset and count cast `as u32`. */
  function ToConfig(s: SceneSizes, scene: SceneOffsets, scratch: ScratchOffsets): Config
  {
    Config(
      nElements := ToU32(s.nDrawobj), nPathseg := s.nPathseg,
      pathsegAlloc := ToU32(scratch.pathseg), annoAlloc := ToU32(scratch.anno),
      transAlloc := ToU32(scratch.trans), pathBboxAlloc := ToU32(scratch.pathBbox),
      drawmonoidAlloc := ToU32(scratch.drawmonoid), clipAlloc := ToU32(scratch.clip),
      clipBicAlloc := ToU32(scratch.clipBic), clipStackAlloc := ToU32(scratch.clipStack),
      clipBboxAlloc := ToU32(scratch.clipBbox), drawBboxAlloc := ToU32(scratch.drawBbox),
      drawinfoAlloc := ToU32(scratch.drawinfo),
      nTrans := ToU32(s.nTrans), nPath := s.nPath, nClip := s.nClip,
      transOffset := ToU32(scene.trans), linewidthOffset := ToU32(scene.linewidth),
      pathtagOffset := ToU32(scene.pathtag), pathsegOffset := ToU32(scene.pathseg),
      drawtagOffset := ToU32(scene.drawtag), drawdataOffset := ToU32(scene.drawdata))
  }

  // ---------------------------------------------------------------------------
  // stage_config

  /** `stage_config`: the configuration block and the end of the scratch memory. */
  method StageConfig(s: SceneSizes, p: PartSizes) returns (config: Config, alloc: nat)
    requires p.Valid()
    ensures alloc == ScratchLayout(s, p).total
    ensures config == ToConfig(s, SceneLayout(s, p), ScratchLayout(s, p))
  {
    // Layout of scene buffer
    var drawtagOffset := 0;
    var nDrawobj := s.nDrawobj;
    var nDrawobjPadded := AlignUp(nDrawobj, p.draw);
    var drawdataOffset := drawtagOffset + nDrawobjPadded * DRAWTAG_SIZE;
    var transOffset := drawdataOffset + s.drawdataLen;
    var nTrans := s.nTrans;
    var nTransPadded := AlignUp(nTrans, p.transform);
    var linewidthOffset := transOffset + nTransPadded * TRANSFORM_SIZE;
    var nLinewidth := s.nLinewidth;
    var pathtagOffset := linewidthOffset + nLinewidth * LINEWIDTH_SIZE;
    var nPathtag := s.nPathtag;
    var nPathtagPadded := AlignUp(nPathtag, p.pathseg);
    var pathsegOffset := pathtagOffset + nPathtagPadded;

    // Layout of memory
    alloc := 0;
    var transAlloc := alloc;
    alloc := alloc + transAlloc + nTransPadded * TRANSFORM_SIZE;
    var pathsegAlloc := alloc;
    alloc := alloc + pathsegAlloc + s.nPathseg * PATHSEG_SIZE;
    var pathBboxAlloc := alloc;
    var nPath := s.nPath;
    alloc := alloc + pathBboxAlloc + nPath * PATH_BBOX_SIZE;
    var drawmonoidAlloc := alloc;
    alloc := alloc + nDrawobjPadded * DRAWMONOID_SIZE;
    var annoAlloc := alloc;
    alloc := alloc + nDrawobj * ANNOTATED_SIZE;
    var clipAlloc := alloc;
    var nClip := s.nClip;
    alloc := alloc + nClip * CLIP_SIZE;
    var clipBicAlloc := alloc;
    // rounds down: only the reduced prefix needs a slot
    alloc := alloc + CompleteParts(nClip, p.clip) * CLIP_BIC_SIZE;
    var clipStackAlloc := alloc;
    alloc := alloc + nClip * CLIP_EL_SIZE;
    var clipBboxAlloc := alloc;
    alloc := alloc + AlignUp(nClip, p.clip) * CLIP_BBOX_SIZE;
    var drawBboxAlloc := alloc;
    alloc := alloc + nDrawobj * DRAW_BBOX_SIZE;
    var drawinfoAlloc := alloc;
    alloc := alloc + nDrawobj * MAX_DRAWINFO_SIZE;

    assert SceneLayout(s, p) == SceneOffsets(
      drawtagOffset, drawdataOffset, transOffset, linewidthOffset, pathtagOffset, pathsegOffset);
    assert ScratchLayout(s, p) == ScratchOffsets(
      transAlloc, pathsegAlloc, pathBboxAlloc, drawmonoidAlloc, annoAlloc, clipAlloc,
      clipBicAlloc, clipStackAlloc, clipBboxAlloc, drawBboxAlloc, drawinfoAlloc, alloc);
    config := Config(
      nElements := ToU32(nDrawobj), nPathseg := s.nPathseg,
      pathsegAlloc := ToU32(pathsegAlloc), annoAlloc := ToU32(annoAlloc),
      transAlloc := ToU32(transAlloc), pathBboxAlloc := ToU32(pathBboxAlloc),
      drawmonoidAlloc := ToU32(drawmonoidAlloc), clipAlloc := ToU32(clipAlloc),
      clipBicAlloc := ToU32(clipBicAlloc), clipStackAlloc := ToU32(clipStackAlloc),
      clipBboxAlloc := ToU32(clipBboxAlloc), drawBboxAlloc := ToU32(drawBboxAlloc),
      drawinfoAlloc := ToU32(drawinfoAlloc),
      nTrans := ToU32(nTrans), nPath := s.nPath, nClip := s.nClip,
      transOffset := ToU32(transOffset), linewidthOffset := ToU32(linewidthOffset),
      pathtagOffset := ToU32(pathtagOffset), pathsegOffset := ToU32(pathsegOffset),
      drawtagOffset := ToU32(drawtagOffset), drawdataOffset := ToU32(drawdataOffset));
  }

  // ---------------------------------------------------------------------------
  // What the layouts guarantee

  /** `align_up(n, part) * size` holds `n` elements of `size` bytes, wastes less
      than one part, and is a whole number of parts. */
  lemma PaddedRegion(n: nat, part: nat, size: nat)
    requires IsPowerOfTwo(part) && size > 0
    ensures size * n <= AlignUp(n, part) * size < size * (n + part)
    ensures (AlignUp(n, part) * size) % (part * size) == 0
  {
    AlignUpIsLeastMultiple(n, part);
    var a := AlignUp(n, part);
    assert a * size == size * a;
    MulMonotone(size, n, a);
    MulStrict(size, a, n + part);
    PowerOfTwoPositive(part);
    MultipleScaled(a, part, size);
  }

  lemma MulStrict(d: nat, i: nat, j: nat)
    requires d > 0 && i < j
    ensures d * i < d * j
  {
    MulMonotone(d, i + 1, j);
  }

  lemma MultipleScaled(a: nat, part: nat, size: nat)
    requires part > 0 && size > 0 && a % part == 0
    ensures (a * size) % (part * size) == 0
  {
    var k := a / part;
    DivModUnique(a, part, k, 0);
    assert a * size == (part * size) * k;
    DivModUnique(a * size, part * size, k, 0);
  }

  /** The scene regions follow one another in order; each padded region holds
      its whole stream and wastes less than one part; the unpadded ones are
      exactly as long as their streams. */
  lemma SceneLayoutRegions(s: SceneSizes, p: PartSizes)
    requires p.Valid()
    ensures var o := SceneLayout(s, p);
      && o.drawtag == 0
      && DRAWTAG_SIZE * s.nDrawobj <= o.drawdata - o.drawtag < DRAWTAG_SIZE * (s.nDrawobj + p.draw)
      && (o.drawdata - o.drawtag) % (p.draw * DRAWTAG_SIZE) == 0
      && o.trans - o.drawdata == s.drawdataLen
      && TRANSFORM_SIZE * s.nTrans <= o.linewidth - o.trans < TRANSFORM_SIZE * (s.nTrans + p.transform)
      && (o.linewidth - o.trans) % (p.transform * TRANSFORM_SIZE) == 0
      && o.pathtag - o.linewidth == LINEWIDTH_SIZE * s.nLinewidth
      && s.nPathtag <= o.pathseg - o.pathtag < s.nPathtag + p.pathseg
      && (o.pathseg - o.pathtag) % p.pathseg == 0
  {
    PaddedRegion(s.nDrawobj, p.draw, DRAWTAG_SIZE);
    PaddedRegion(s.nTrans, p.transform, TRANSFORM_SIZE);
    PaddedRegion(s.nPathtag, p.pathseg, 1);
  }

  /** The scratch regions follow one another in order, and each is at least as
      large as what it holds. The path-bbox and draw-monoid regions start the
      predecessor's own offset after the predecessor's end. The clip-bic
      region holds one slot per complete clip part only. */
  lemma ScratchLayoutRegions(s: SceneSizes, p: PartSizes)
    requires p.Valid()
    ensures var l := ScratchLayout(s, p);
      && l.trans == 0
      && l.pathseg - l.trans >= TRANSFORM_SIZE * s.nTrans
      && l.pathBbox == 2 * l.pathseg + PATHSEG_SIZE * s.nPathseg
      && l.drawmonoid == 2 * l.pathBbox + PATH_BBOX_SIZE * s.nPath
      && l.anno - l.drawmonoid >= DRAWMONOID_SIZE * s.nDrawobj
      && l.clip - l.anno == ANNOTATED_SIZE * s.nDrawobj
      && l.clipBic - l.clip == CLIP_SIZE * s.nClip
      && l.clipStack - l.clipBic == CLIP_BIC_SIZE * CompleteParts(s.nClip, p.clip)
      && l.clipBbox - l.clipStack == CLIP_EL_SIZE * s.nClip
      && l.drawBbox - l.clipBbox >= CLIP_BBOX_SIZE * s.nClip
      && l.drawinfo - l.drawBbox == DRAW_BBOX_SIZE * s.nDrawobj
      && l.total - l.drawinfo == MAX_DRAWINFO_SIZE * s.nDrawobj
  {
    PaddedRegion(s.nTrans, p.transform, TRANSFORM_SIZE);
    PaddedRegion(s.nDrawobj, p.draw, DRAWMONOID_SIZE);
    PaddedRegion(s.nClip, p.clip, CLIP_BBOX_SIZE);
  }

  /** When the scratch memory and the scene buffer both end below 2^32, no
      `as u32` cast in the configuration loses anything. */
  lemma ConfigExactWhenSmall(s: SceneSizes, p: PartSizes)
    requires p.Valid()
    requires ScratchLayout(s, p).total < U32_MODULUS
    requires SceneLayout(s, p).pathseg < U32_MODULUS
    ensures var l, o := ScratchLayout(s, p), SceneLayout(s, p);
      var c := ToConfig(s, o, l);
      && c.nElements == s.nDrawobj && c.nTrans == s.nTrans
      && c.transAlloc == l.trans && c.pathsegAlloc == l.pathseg
      && c.pathBboxAlloc == l.pathBbox && c.drawmonoidAlloc == l.drawmonoid
      && c.annoAlloc == l.anno && c.clipAlloc == l.clip && c.clipBicAlloc == l.clipBic
      && c.clipStackAlloc == l.clipStack && c.clipBboxAlloc == l.clipBbox
      && c.drawBboxAlloc == l.drawBbox && c.drawinfoAlloc == l.drawinfo
      && c.drawtagOffset == o.drawtag && c.drawdataOffset == o.drawdata
      && c.transOffset == o.trans && c.linewidthOffset == o.linewidth
      && c.pathtagOffset == o.pathtag && c.pathsegOffset == o.pathseg
  {
    var l, o := ScratchLayout(s, p), SceneLayout(s, p);
    assert l.trans <= l.pathseg <= l.pathBbox <= l.drawmonoid <= l.anno <= l.clip;
    assert l.clip <= l.clipBic <= l.clipStack <= l.clipBbox <= l.drawBbox <= l.drawinfo <= l.total;
    assert s.nDrawobj <= l.total;
    assert s.nTrans <= l.pathseg by {
      PaddedRegion(s.nTrans, p.transform, TRANSFORM_SIZE);
    }
    assert o.drawtag <= o.drawdata <= o.trans <= o.linewidth <= o.pathtag <= o.pathseg;
  }
}
