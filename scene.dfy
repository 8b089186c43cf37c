/** The encoded scene as a value (`EncodedSceneRef`), its planner entry point
    and its serializer `write_scene`.

    `write_scene` appends the six streams to a `BufWrite` in the order of the
    scene layout, padding the draw tags, the transforms and the path tags with
    zeros up to whole parts. The lemmas below show that every stream lands at
    the offset `stage_config` announces for it, and that a shader reading a
    region back gets the stream that was written there. */
module Scene {

  import opened Align
  import opened Wire
  import opened Layout

  /** `piet_gpu_hal::BufWrite`: the mapped upload buffer, as the bytes written
      to it so far. */
  class BufWrite {
    var bytes: seq<byte>

    constructor ()
      ensures bytes == []
    {
      bytes := [];
    }

    /** `extend_slice`: appends the image of a slice. */
    method ExtendSlice(image: seq<byte>)
      modifies this
      ensures bytes == old(bytes) + image
    {
      bytes := bytes + image;
    }

    /** `fill_zero`: appends `n` zero bytes. */
    method FillZero(n: nat)
      modifies this
      ensures bytes == old(bytes) + Zeros(n)
    {
      bytes := bytes + Zeros(n);
    }
  }

  /** A borrowed view of an encoded scene: the six streams and three counters. */
  datatype EncodedSceneRef = EncodedSceneRef(
    transformStream: seq<Transform>,
    tagStream: seq<byte>,
    pathsegStream: seq<byte>,
    linewidthStream: seq<F32>,
    drawtagStream: seq<u32>,
    drawdataStream: seq<byte>,
    nPath: u32,
    nPathseg: u32,
    nClip: u32)
  {
    /** What the `n_*` accessors report, and the stream lengths `stage_config`
        reads. */
    function Sizes(): SceneSizes
    {
      SceneSizes(
        nDrawobj := |drawtagStream|, drawdataLen := |drawdataStream|,
        nTrans := |transformStream|, nLinewidth := |linewidthStream|,
        nPathtag := |tagStream|,
        nPath := nPath, nPathseg := nPathseg, nClip := nClip)
    }

    /** `stage_config` of the view: the one planner, on the view's sizes. */
    method StageConfig(p: PartSizes) returns (config: Config, alloc: nat)
      requires p.Valid()
      ensures alloc == ScratchLayout(Sizes(), p).total
      ensures config == ToConfig(Sizes(), SceneLayout(Sizes(), p), ScratchLayout(Sizes(), p))
    {
      config, alloc := Layout.StageConfig(Sizes(), p);
    }

    /** `write_scene`: appends the scene image to the buffer. */
    method WriteScene(buf: BufWrite, p: PartSizes)
      requires p.Valid()
      modifies buf
      ensures buf.bytes == old(buf.bytes) + SceneImage(this, p)
    {
      ghost var start := buf.bytes;
      ghost var tails := TailsOf(this, p);
      ghost var before := buf.bytes;
      buf.ExtendSlice(U32sBytes(drawtagStream));
      Appended(start, before, buf.bytes, this, tails, 0);
      var nDrawobj := |drawtagStream|;
      before := buf.bytes;
      buf.FillZero(Padding(nDrawobj, p.draw) * DRAWTAG_SIZE);
      Appended(start, before, buf.bytes, this, tails, 1);
      before := buf.bytes;
      buf.ExtendSlice(drawdataStream);
      Appended(start, before, buf.bytes, this, tails, 2);
      before := buf.bytes;
      buf.ExtendSlice(TransformsBytes(transformStream));
      Appended(start, before, buf.bytes, this, tails, 3);
      var nTrans := |transformStream|;
      before := buf.bytes;
      buf.FillZero(Padding(nTrans, p.transform) * TRANSFORM_SIZE);
      Appended(start, before, buf.bytes, this, tails, 4);
      before := buf.bytes;
      buf.ExtendSlice(F32sBytes(linewidthStream));
      Appended(start, before, buf.bytes, this, tails, 5);
      before := buf.bytes;
      buf.ExtendSlice(tagStream);
      Appended(start, before, buf.bytes, this, tails, 6);
      var nPathtag := |tagStream|;
      before := buf.bytes;
      buf.FillZero(Padding(nPathtag, p.pathseg));
      Appended(start, before, buf.bytes, this, tails, 7);
      before := buf.bytes;
      buf.ExtendSlice(pathsegStream);
      Appended(start, before, buf.bytes, this, tails, 8);
    }
  }

  /** The number of regions `write_scene` appends. */
  const REGION_COUNT: nat := 9

  /** The lengths of the three zero tails, in elements: `padding` of the
      draw-tag, transform and path-tag counts to whole parts. */
  datatype Tails = Tails(draw: nat, transform: nat, pathtag: nat)

  function TailsOf(e: EncodedSceneRef, p: PartSizes): Tails
    requires p.Valid()
  {
    Tails(Padding(|e.drawtagStream|, p.draw), Padding(|e.transformStream|, p.transform),
          Padding(|e.tagStream|, p.pathseg))
  }

  /** Region `k` of the scene image, in the order `write_scene` appends them:
      draw tags, their zero tail, draw data, transforms, their zero tail, line
      widths, path tags, their zero tail, path segments. */
  function Region(e: EncodedSceneRef, t: Tails, k: nat): seq<byte>
    requires k < REGION_COUNT
  {
    if k == 0 then U32sBytes(e.drawtagStream)
    else if k == 1 then Zeros(t.draw * DRAWTAG_SIZE)
    else if k == 2 then e.drawdataStream
    else if k == 3 then TransformsBytes(e.transformStream)
    else if k == 4 then Zeros(t.transform * TRANSFORM_SIZE)
    else if k == 5 then F32sBytes(e.linewidthStream)
    else if k == 6 then e.tagStream
    else if k == 7 then Zeros(t.pathtag)
    else e.pathsegStream
  }

  /** Regions `0` to `k - 1`, one after the other. */
  function Written(e: EncodedSceneRef, t: Tails, k: nat): seq<byte>
    requires k <= REGION_COUNT
  {
    if k == 0 then [] else Written(e, t, k - 1) + Region(e, t, k - 1)
  }

  /** The bytes `write_scene` appends. */
  function SceneImage(e: EncodedSceneRef, p: PartSizes): seq<byte>
    requires p.Valid()
  {
    Written(e, TailsOf(e, p), REGION_COUNT)
  }

  /** Appending region `k` to a buffer holding regions `0` to `k - 1`. */
  lemma Appended(start: seq<byte>, before: seq<byte>, after: seq<byte>,
                 e: EncodedSceneRef, t: Tails, k: nat)
    requires k < REGION_COUNT
    requires before == start + Written(e, t, k) && after == before + Region(e, t, k)
    ensures after == start + Written(e, t, k + 1)
  {
    var w, r := Written(e, t, k), Region(e, t, k);
    assert start + w + r == start + (w + r);
  }

  /** `x` appears in `img` starting at `start`. */
  predicate RegionAt(img: seq<byte>, start: nat, x: seq<byte>)
  {
    start + |x| <= |img| && img[start..start + |x|] == x
  }

  /** `img` holds only zeros from `from` up to `to`, and fewer than `bound` of them. */
  predicate ZeroGap(img: seq<byte>, from: nat, to: nat, bound: nat)
  {
    && from <= to <= |img|
    && to - from < bound
    && forall i :: from <= i < to ==> img[i] == 0
  }

  /** A run of zeros placed in an image is a zero gap. */
  lemma ZerosAt(img: seq<byte>, start: nat, n: nat, bound: nat)
    requires RegionAt(img, start, Zeros(n)) && n < bound
    ensures ZeroGap(img, start, start + n, bound)
  {
    forall i | start <= i < start + n
      ensures img[i] == 0
    {
      assert img[i] == img[start..start + n][i - start];
    }
  }

  /** What is written first stays in front of what is written later. */
  lemma {:induction false} WrittenPrefix(e: EncodedSceneRef, t: Tails, i: nat, j: nat)
    requires i <= j <= REGION_COUNT
    ensures |Written(e, t, i)| <= |Written(e, t, j)|
    ensures Written(e, t, j)[..|Written(e, t, i)|] == Written(e, t, i)
    decreases j
  {
    if i < j {
      WrittenPrefix(e, t, i, j - 1);
      var before, w := Written(e, t, j - 1), Written(e, t, i);
      assert Written(e, t, j) == before + Region(e, t, j - 1);
      assert Written(e, t, j)[..|w|] == before[..|w|];
    }
  }

  /** Region `k` sits right after regions `0` to `k - 1` in the whole image. */
  lemma RegionPlaced(e: EncodedSceneRef, t: Tails, k: nat)
    requires k < REGION_COUNT
    ensures RegionAt(Written(e, t, REGION_COUNT), |Written(e, t, k)|, Region(e, t, k))
  {
    WrittenPrefix(e, t, k + 1, REGION_COUNT);
    PrefixSlice(Written(e, t, REGION_COUNT), Written(e, t, k), Region(e, t, k));
  }

  /** What follows a prefix in a prefix of `whole` sits right after it in `whole`. */
  lemma PrefixSlice(whole: seq<byte>, pre: seq<byte>, x: seq<byte>)
    requires |pre + x| <= |whole| && whole[..|pre + x|] == pre + x
    ensures RegionAt(whole, |pre|, x)
  {
    assert whole[|pre|..|pre| + |x|] == (pre + x)[|pre|..];
  }

  /** The region starts, in terms of the stream lengths and the tail lengths. */
  lemma RegionStarts(e: EncodedSceneRef, t: Tails)
    ensures |Written(e, t, 1)| == DRAWTAG_SIZE * |e.drawtagStream|
    ensures |Written(e, t, 2)| == |Written(e, t, 1)| + DRAWTAG_SIZE * t.draw
    ensures |Written(e, t, 3)| == |Written(e, t, 2)| + |e.drawdataStream|
    ensures |Written(e, t, 4)| == |Written(e, t, 3)| + TRANSFORM_SIZE * |e.transformStream|
    ensures |Written(e, t, 5)| == |Written(e, t, 4)| + TRANSFORM_SIZE * t.transform
    ensures |Written(e, t, 6)| == |Written(e, t, 5)| + LINEWIDTH_SIZE * |e.linewidthStream|
    ensures |Written(e, t, 7)| == |Written(e, t, 6)| + |e.tagStream|
    ensures |Written(e, t, 8)| == |Written(e, t, 7)| + t.pathtag
    ensures |Written(e, t, 9)| == |Written(e, t, 8)| + |e.pathsegStream|
  {
    U32sBytesLength(e.drawtagStream);
    ConcatLength(e.transformStream, TRANSFORM_SIZE);
    ConcatLength(e.linewidthStream, LINEWIDTH_SIZE);
    assert Written(e, t, 1) == [] + Region(e, t, 0);
    assert Written(e, t, 2) == Written(e, t, 1) + Region(e, t, 1);
    assert Written(e, t, 3) == Written(e, t, 2) + Region(e, t, 2);
    assert Written(e, t, 4) == Written(e, t, 3) + Region(e, t, 3);
    assert Written(e, t, 5) == Written(e, t, 4) + Region(e, t, 4);
    assert Written(e, t, 6) == Written(e, t, 5) + Region(e, t, 5);
    assert Written(e, t, 7) == Written(e, t, 6) + Region(e, t, 6);
    assert Written(e, t, 8) == Written(e, t, 7) + Region(e, t, 7);
    assert Written(e, t, 9) == Written(e, t, 8) + Region(e, t, 8);
  }

  /** The planner's scene offsets are the region starts of the image, and each
      zero tail is shorter than one part. */
  lemma OffsetsAreRegionStarts(e: EncodedSceneRef, p: PartSizes)
    requires p.Valid()
    ensures var o, t := SceneLayout(e.Sizes(), p), TailsOf(e, p);
      var nd, nt, ntag := |e.drawtagStream|, |e.transformStream|, |e.tagStream|;
      && o.drawtag == 0
      && |Written(e, t, 1)| == DRAWTAG_SIZE * nd
      && o.drawdata == |Written(e, t, 2)|
      && o.drawdata - DRAWTAG_SIZE * nd < DRAWTAG_SIZE * p.draw
      && o.trans == |Written(e, t, 3)|
      && |Written(e, t, 4)| == o.trans + TRANSFORM_SIZE * nt
      && o.linewidth == |Written(e, t, 5)|
      && o.linewidth - (o.trans + TRANSFORM_SIZE * nt) < TRANSFORM_SIZE * p.transform
      && o.pathtag == |Written(e, t, 6)|
      && |Written(e, t, 7)| == o.pathtag + ntag
      && o.pathseg == |Written(e, t, 8)|
      && o.pathseg - (o.pathtag + ntag) < p.pathseg
      && |SceneImage(e, p)| == o.pathseg + |e.pathsegStream|
  {
    PaddingIsGap(|e.drawtagStream|, p.draw);
    PaddingIsGap(|e.transformStream|, p.transform);
    PaddingIsGap(|e.tagStream|, p.pathseg);
    RegionStarts(e, TailsOf(e, p));
  }

  /** The draw tags, their zero tail and the draw data are where the planner puts them. */
  lemma DrawRegionsPlaced(e: EncodedSceneRef, p: PartSizes)
    requires p.Valid()
    ensures var img, o := SceneImage(e, p), SceneLayout(e.Sizes(), p);
      var nd := |e.drawtagStream|;
      && RegionAt(img, o.drawtag, U32sBytes(e.drawtagStream))
      && ZeroGap(img, o.drawtag + DRAWTAG_SIZE * nd, o.drawdata, DRAWTAG_SIZE * p.draw)
      && RegionAt(img, o.drawdata, e.drawdataStream)
  {
    var img, o, t := SceneImage(e, p), SceneLayout(e.Sizes(), p), TailsOf(e, p);
    var nd := |e.drawtagStream|;
    OffsetsAreRegionStarts(e, p);
    RegionPlaced(e, t, 0);
    RegionPlaced(e, t, 1);
    ZerosAt(img, DRAWTAG_SIZE * nd, o.drawdata - DRAWTAG_SIZE * nd, DRAWTAG_SIZE * p.draw);
    RegionPlaced(e, t, 2);
  }

  /** The transforms, their zero tail and the line widths are where the planner puts them. */
  lemma TransformRegionsPlaced(e: EncodedSceneRef, p: PartSizes)
    requires p.Valid()
    ensures var img, o := SceneImage(e, p), SceneLayout(e.Sizes(), p);
      var nt := |e.transformStream|;
      && RegionAt(img, o.trans, TransformsBytes(e.transformStream))
      && ZeroGap(img, o.trans + TRANSFORM_SIZE * nt, o.linewidth, TRANSFORM_SIZE * p.transform)
      && RegionAt(img, o.linewidth, F32sBytes(e.linewidthStream))
  {
    OffsetsAreRegionStarts(e, p);
    RegionPlaced(e, TailsOf(e, p), 3);
    TransformTailPlaced(e, p);
    RegionPlaced(e, TailsOf(e, p), 5);
  }

  lemma TransformTailPlaced(e: EncodedSceneRef, p: PartSizes)
    requires p.Valid()
    ensures var img, o := SceneImage(e, p), SceneLayout(e.Sizes(), p);
      var nt := |e.transformStream|;
      ZeroGap(img, o.trans + TRANSFORM_SIZE * nt, o.linewidth, TRANSFORM_SIZE * p.transform)
  {
    var img, o, t := SceneImage(e, p), SceneLayout(e.Sizes(), p), TailsOf(e, p);
    var from := o.trans + TRANSFORM_SIZE * |e.transformStream|;
    OffsetsAreRegionStarts(e, p);
    RegionPlaced(e, t, 4);
    ZerosAt(img, from, o.linewidth - from, TRANSFORM_SIZE * p.transform);
  }

  /** The path tags, their zero tail and the path segments are where the planner puts them. */
  lemma PathRegionsPlaced(e: EncodedSceneRef, p: PartSizes)
    requires p.Valid()
    ensures var img, o := SceneImage(e, p), SceneLayout(e.Sizes(), p);
      var ntag := |e.tagStream|;
      && RegionAt(img, o.pathtag, e.tagStream)
      && ZeroGap(img, o.pathtag + ntag, o.pathseg, p.pathseg)
      && RegionAt(img, o.pathseg, e.pathsegStream)
      && |img| == o.pathseg + |e.pathsegStream|
  {
    var img, o, t := SceneImage(e, p), SceneLayout(e.Sizes(), p), TailsOf(e, p);
    var ntag := |e.tagStream|;
    OffsetsAreRegionStarts(e, p);
    RegionPlaced(e, t, 6);
    RegionPlaced(e, t, 7);
    ZerosAt(img, o.pathtag + ntag, o.pathseg - (o.pathtag + ntag), p.pathseg);
    RegionPlaced(e, t, 8);
  }

  /** `write_scene` and `stage_config` agree: every stream is written at the
      offset the planner gives it, each zero tail is shorter than one part, and
      the image ends with the path segments. */
  lemma SceneImageLayout(e: EncodedSceneRef, p: PartSizes)
    requires p.Valid()
    ensures var img, o := SceneImage(e, p), SceneLayout(e.Sizes(), p);
      var nd, nt, ntag := |e.drawtagStream|, |e.transformStream|, |e.tagStream|;
      && RegionAt(img, o.drawtag, U32sBytes(e.drawtagStream))
      && ZeroGap(img, o.drawtag + DRAWTAG_SIZE * nd, o.drawdata, DRAWTAG_SIZE * p.draw)
      && RegionAt(img, o.drawdata, e.drawdataStream)
      && RegionAt(img, o.trans, TransformsBytes(e.transformStream))
      && ZeroGap(img, o.trans + TRANSFORM_SIZE * nt, o.linewidth, TRANSFORM_SIZE * p.transform)
      && RegionAt(img, o.linewidth, F32sBytes(e.linewidthStream))
      && RegionAt(img, o.pathtag, e.tagStream)
      && ZeroGap(img, o.pathtag + ntag, o.pathseg, p.pathseg)
      && RegionAt(img, o.pathseg, e.pathsegStream)
      && |img| == o.pathseg + |e.pathsegStream|
  {
    DrawRegionsPlaced(e, p);
    TransformRegionsPlaced(e, p);
    PathRegionsPlaced(e, p);
  }

  // ---------------------------------------------------------------------------
  // The transform width

  /** What `write_scene` puts in front of the line widths when the view's
      transform type has images `ts`, of whatever width: the draw regions, the
      transforms, and their zero tail, which is counted in 24-byte units. */
  function PrefixWithTransforms(e: EncodedSceneRef, p: PartSizes, ts: seq<seq<byte>>): seq<byte>
    requires p.Valid()
  {
    Written(e, TailsOf(e, p), 3) + Concat(ts) + Zeros(TailsOf(e, p).transform * TRANSFORM_SIZE)
  }

  /** The planner places the line widths as if every transform were 24 bytes
      wide. With transforms `w` bytes wide the serializer puts them `w - 24`
      bytes per transform further along, so the two agree exactly when the
      transform type is 24 bytes wide or there are no transforms. */
  lemma LinewidthOffsetNeedsTransformSize(e: EncodedSceneRef, p: PartSizes, ts: seq<seq<byte>>, w: nat)
    requires p.Valid() && AllOfWidth(ts, w) && |ts| == |e.transformStream|
    ensures |PrefixWithTransforms(e, p, ts)| + TRANSFORM_SIZE * |ts|
            == SceneLayout(e.Sizes(), p).linewidth + w * |ts|
    ensures |PrefixWithTransforms(e, p, ts)| == SceneLayout(e.Sizes(), p).linewidth
            <==> (w == TRANSFORM_SIZE || |ts| == 0)
  {
    OffsetsAreRegionStarts(e, p);
    RegionStarts(e, TailsOf(e, p));
    ConcatLength(ts, w);
    var n := |ts|;
    if w * n == TRANSFORM_SIZE * n {
      ProductCancels(w, TRANSFORM_SIZE, n);
    }
  }

  lemma ProductCancels(a: nat, b: nat, n: nat)
    requires a * n == b * n
    ensures a == b || n == 0
  {
    if n > 0 && a < b {
      MulMonotone(n, a + 1, b);
    } else if n > 0 && b < a {
      MulMonotone(n, b + 1, a);
    }
  }

  /** A `u32` slice's image placed in an image reads back as the slice. */
  lemma U32sAt(img: seq<byte>, start: nat, s: seq<u32>)
    requires RegionAt(img, start, U32sBytes(s))
    ensures start + 4 * |s| <= |img|
    ensures DecodeU32s(img[start..start + 4 * |s|]) == s
  {
    U32sRoundTrip(s);
    DecodedAt(img, start, U32sBytes(s), s);
  }

  /** An image that decodes to `s`, placed in a larger image, still decodes to `s`. */
  lemma DecodedAt(img: seq<byte>, start: nat, b: seq<byte>, s: seq<u32>)
    requires RegionAt(img, start, b) && |b| == 4 * |s| && DecodeU32s(b) == s
    ensures DecodeU32s(img[start..start + 4 * |s|]) == s
  {
  }

  /** Records of one width placed in an image read back as the records. */
  lemma RecordsAt(img: seq<byte>, start: nat, records: seq<seq<byte>>, width: nat)
    requires width > 0 && AllOfWidth(records, width) && RegionAt(img, start, Concat(records))
    ensures start + width * |records| <= |img|
    ensures Records(img[start..start + width * |records|], width, |records|) == records
  {
    RecordsRoundTrip(records, width);
  }

  /** A shader reading the draw-tag region at the planner's offset gets back
      the draw tags the encoder recorded. */
  lemma DrawTagsReadBack(e: EncodedSceneRef, p: PartSizes)
    requires p.Valid()
    ensures var img, o := SceneImage(e, p), SceneLayout(e.Sizes(), p);
      var nd := |e.drawtagStream|;
      && o.drawtag + DRAWTAG_SIZE * nd <= o.drawdata <= |img|
      && DecodeU32s(img[o.drawtag..o.drawtag + DRAWTAG_SIZE * nd]) == e.drawtagStream
  {
    var img, o := SceneImage(e, p), SceneLayout(e.Sizes(), p);
    DrawRegionsPlaced(e, p);
    U32sAt(img, o.drawtag, e.drawtagStream);
  }

  /** A shader cutting the transform region at the planner's offset into
      24-byte records gets back the transforms the encoder recorded. */
  lemma TransformsReadBack(e: EncodedSceneRef, p: PartSizes)
    requires p.Valid()
    ensures var img, o := SceneImage(e, p), SceneLayout(e.Sizes(), p);
      var nt := |e.transformStream|;
      && o.trans + TRANSFORM_SIZE * nt <= o.linewidth <= |img|
      && Records(img[o.trans..o.trans + TRANSFORM_SIZE * nt], TRANSFORM_SIZE, nt) == e.transformStream
  {
    var img, o := SceneImage(e, p), SceneLayout(e.Sizes(), p);
    TransformRegionsPlaced(e, p);
    RecordsAt(img, o.trans, e.transformStream, TRANSFORM_SIZE);
  }

  /** A shader cutting the line-width region, which ends where the path tags
      begin, into 4-byte records gets back the recorded line widths. */
  lemma LinewidthsReadBack(e: EncodedSceneRef, p: PartSizes)
    requires p.Valid()
    ensures var img, o := SceneImage(e, p), SceneLayout(e.Sizes(), p);
      var nl := |e.linewidthStream|;
      && o.linewidth + LINEWIDTH_SIZE * nl == o.pathtag <= |img|
      && Records(img[o.linewidth..o.pathtag], LINEWIDTH_SIZE, nl) == e.linewidthStream
  {
    var img, o := SceneImage(e, p), SceneLayout(e.Sizes(), p);
    OffsetsAreRegionStarts(e, p);
    TransformRegionsPlaced(e, p);
    RecordsAt(img, o.linewidth, e.linewidthStream, LINEWIDTH_SIZE);
  }
}
