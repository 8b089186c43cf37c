/** The scene encoder: `Encoder`, which records a scene as six append-only
    streams and three counters, and `GlyphEncoder`, a reduced encoder whose
    fragments `Encoder::encode_glyph` merges in.

    The invariant `ValidScene` is what the operations keep: the identity
    transform and the "fill" line width stay first, every draw tag is one of
    the five codes, the draw-data stream is exactly as long as its tags
    announce, `n_clip` counts the clip tags, there are at least as many paths
    as end clips, and at least as many path tags as pushed transforms, line
    widths and end clips together. */
module Encoding {

  import opened Wire
  import opened DrawTags
  import opened Layout
  import opened Scene

  // Path tags the encoder pushes itself (encoder.rs:274, 287, 341)
  const PATHTAG_TRANSFORM: byte := 0x20
  const PATHTAG_LINEWIDTH: byte := 0x40
  const PATHTAG_PATH: byte := 0x10

  /** The number of end-clip draw objects among the tags. */
  function EndClipCount(tags: seq<u32>): nat
  {
    multiset(tags)[DRAWTAG_ENDCLIP]
  }

  /** What every reachable encoder state satisfies. */
  predicate ValidScene(e: EncodedSceneRef)
  {
    && |e.transformStream| >= 1 && e.transformStream[0] == IDENTITY
    && |e.linewidthStream| >= 1 && e.linewidthStream[0] == F32_MINUS_ONE
    && AllDrawTags(e.drawtagStream)
    && |e.drawdataStream| == DrawDataSize(e.drawtagStream)
    && e.nClip == ClipCount(e.drawtagStream)
    && EndClipCount(e.drawtagStream) <= e.nPath
    && (|e.transformStream| - 1) + (|e.linewidthStream| - 1) + EndClipCount(e.drawtagStream)
       <= |e.tagStream|
  }

  /** `tag_stream.swap(len - 1, len - 2)`. */
  function SwapLast(s: seq<byte>): (r: seq<byte>)
    requires |s| >= 2
    ensures |r| == |s| && r[..|s| - 2] == s[..|s| - 2]
    ensures r[|s| - 2] == s[|s| - 1] && r[|s| - 1] == s[|s| - 2]
  {
    s[..|s| - 2] + [s[|s| - 1], s[|s| - 2]]
  }

  // ---------------------------------------------------------------------------
  // Laws of the stream operations

  /** Swapping the last two tags keeps the same tags, and swapping again undoes it. */
  lemma SwapLastPermutes(s: seq<byte>)
    requires |s| >= 2
    ensures multiset(SwapLast(s)) == multiset(s)
    ensures SwapLast(SwapLast(s)) == s
  {
    var n := |s|;
    assert s == s[..n - 2] + [s[n - 2], s[n - 1]];
    var r := SwapLast(s);
    assert r[..n - 2] == s[..n - 2];
    assert SwapLast(r) == r[..n - 2] + [r[n - 1], r[n - 2]];
  }

  /** Pushing one draw tag adds its payload size to the draw data, keeps the
      tags known, and counts a clip tag among the clips. */
  lemma DrawPushed(tags: seq<u32>, tag: u32)
    requires AllDrawTags(tags) && IsDrawTag(tag)
    ensures AllDrawTags(tags + [tag])
    ensures DrawDataSize(tags + [tag]) == DrawDataSize(tags) + PayloadSize(tag)
    ensures ClipCount(tags + [tag]) ==
            ClipCount(tags) + (if tag == DRAWTAG_BEGINCLIP || tag == DRAWTAG_ENDCLIP then 1 else 0)
    ensures EndClipCount(tags + [tag]) == EndClipCount(tags) + (if tag == DRAWTAG_ENDCLIP then 1 else 0)
  {
    DrawDataSizePush(tags, tag);
    assert multiset(tags + [tag]) == multiset(tags) + multiset{tag};
  }

  /** A glyph fragment holds fill-color draw objects only. */
  predicate OnlyFills(tags: seq<u32>)
  {
    forall i :: 0 <= i < |tags| ==> tags[i] == DRAWTAG_FILLCOLOR
  }

  /** Merging fill-color tags adds their payloads and no clip. */
  lemma FillsMerged(tags: seq<u32>, fills: seq<u32>)
    requires AllDrawTags(tags) && OnlyFills(fills)
    ensures AllDrawTags(tags + fills)
    ensures DrawDataSize(tags + fills) == DrawDataSize(tags) + DrawDataSize(fills)
    ensures ClipCount(tags + fills) == ClipCount(tags)
    ensures EndClipCount(tags + fills) == EndClipCount(tags)
  {
    DrawDataSizeAppend(tags, fills);
    assert multiset(tags + fills) == multiset(tags) + multiset(fills);
    assert DRAWTAG_BEGINCLIP !in fills;
    assert DRAWTAG_ENDCLIP !in fills;
  }

  /** A valid scene's draw data region holds exactly the payloads its tags
      announce, and the worst-case draw-info region of the scratch plan holds
      the draw-info records of all its objects. */
  lemma ValidSceneFitsLayout(e: EncodedSceneRef, p: PartSizes)
    requires p.Valid() && ValidScene(e)
    ensures var o := SceneLayout(e.Sizes(), p);
      o.trans - o.drawdata == DrawDataSize(e.drawtagStream)
    ensures var l := ScratchLayout(e.Sizes(), p);
      DrawInfoSize(e.drawtagStream) <= l.total - l.drawinfo
    ensures e.Sizes().nClip == ClipCount(e.drawtagStream)
  {
    DrawInfoWithinBudget(e.drawtagStream);
    ScratchLayoutRegions(e.Sizes(), p);
  }

  // ---------------------------------------------------------------------------
  // Encoder

  class Encoder {
    var transformStream: seq<Wire.Transform>
    var tagStream: seq<byte>
    var pathsegStream: seq<byte>
    var linewidthStream: seq<F32>
    var drawtagStream: seq<u32>
    var drawdataStream: seq<byte>
    var nPath: u32
    var nPathseg: u32
    var nClip: u32

    /** The encoder as an `EncodedSceneRef` borrowing all its streams. */
    function View(): EncodedSceneRef
      reads this
    {
      EncodedSceneRef(transformStream, tagStream, pathsegStream, linewidthStream,
                      drawtagStream, drawdataStream, nPath, nPathseg, nClip)
    }

    ghost predicate Valid()
      reads this
    {
      ValidScene(View())
    }

    /** `Encoder::new`. */
    constructor ()
      ensures Valid()
      ensures transformStream == [IDENTITY] && linewidthStream == [F32_MINUS_ONE]
      ensures tagStream == [] && pathsegStream == [] && drawtagStream == [] && drawdataStream == []
      ensures nPath == 0 && nPathseg == 0 && nClip == 0
    {
      transformStream := [IDENTITY];
      tagStream := [];
      pathsegStream := [];
      linewidthStream := [F32_MINUS_ONE];
      drawtagStream := [];
      drawdataStream := [];
      nPath := 0;
      nPathseg := 0;
      nClip := 0;
    }

    /** What the `PathEncoder` from `path_encoder` appends to the path-tag and
        path-segment streams. */
    method AppendPath(pathTags: seq<byte>, pathSegs: seq<byte>)
      requires Valid()
      modifies this`tagStream, this`pathsegStream
      ensures Valid()
      ensures tagStream == old(tagStream) + pathTags
      ensures pathsegStream == old(pathsegStream) + pathSegs
    {
      tagStream := tagStream + pathTags;
      pathsegStream := pathsegStream + pathSegs;
    }

    /** `finish_path`: one more path, with `k` more segments. */
    method FinishPath(k: u32)
      requires Valid()
      requires nPath + 1 < U32_MODULUS && nPathseg + k < U32_MODULUS
      modifies this`nPath, this`nPathseg
      ensures Valid()
      ensures nPath == old(nPath) + 1 && nPathseg == old(nPathseg) + k
    {
      nPath := nPath + 1;
      nPathseg := nPathseg + k;
    }

    /** `transform`: a transform tag and the transform itself. */
    method Transform(t: Wire.Transform)
      requires Valid()
      modifies this`tagStream, this`transformStream
      ensures Valid()
      ensures tagStream == old(tagStream) + [PATHTAG_TRANSFORM]
      ensures transformStream == old(transformStream) + [t]
    {
      tagStream := tagStream + [PATHTAG_TRANSFORM];
      transformStream := transformStream + [t];
    }

    /** `swap_last_tags`: exchanges the last two path tags. */
    method SwapLastTags()
      requires Valid() && |tagStream| >= 2
      modifies this`tagStream
      ensures Valid()
      ensures tagStream == SwapLast(old(tagStream))
    {
      var len := |tagStream|;
      tagStream := tagStream[..len - 2] + [tagStream[len - 1], tagStream[len - 2]];
    }

    /** `linewidth`: a line-width tag and the width (-1.0 means fill). */
    method Linewidth(w: F32)
      requires Valid()
      modifies this`tagStream, this`linewidthStream
      ensures Valid()
      ensures tagStream == old(tagStream) + [PATHTAG_LINEWIDTH]
      ensures linewidthStream == old(linewidthStream) + [w]
    {
      tagStream := tagStream + [PATHTAG_LINEWIDTH];
      linewidthStream := linewidthStream + [w];
    }

    /** `fill_color`. */
    method FillColor(rgba: u32)
      requires Valid()
      modifies this`drawtagStream, this`drawdataStream
      ensures Valid()
      ensures drawtagStream == old(drawtagStream) + [DRAWTAG_FILLCOLOR]
      ensures drawdataStream == old(drawdataStream) + FillColorPayload(rgba)
    {
      DrawPushed(drawtagStream, DRAWTAG_FILLCOLOR);
      drawtagStream := drawtagStream + [DRAWTAG_FILLCOLOR];
      drawdataStream := drawdataStream + FillColorPayload(rgba);
    }

    /** `fill_lin_gradient`. */
    method FillLinGradient(index: u32, p0: Point, p1: Point)
      requires Valid()
      modifies this`drawtagStream, this`drawdataStream
      ensures Valid()
      ensures drawtagStream == old(drawtagStream) + [DRAWTAG_FILLLINGRADIENT]
      ensures drawdataStream == old(drawdataStream) + FillLinGradientPayload(index, p0, p1)
    {
      DrawPushed(drawtagStream, DRAWTAG_FILLLINGRADIENT);
      drawtagStream := drawtagStream + [DRAWTAG_FILLLINGRADIENT];
      drawdataStream := drawdataStream + FillLinGradientPayload(index, p0, p1);
    }

    /** `fill_rad_gradient`. */
    method FillRadGradient(index: u32, p0: Point, p1: Point, r0: F32, r1: F32)
      requires Valid()
      modifies this`drawtagStream, this`drawdataStream
      ensures Valid()
      ensures drawtagStream == old(drawtagStream) + [DRAWTAG_FILLRADGRADIENT]
      ensures drawdataStream == old(drawdataStream) + FillRadGradientPayload(index, p0, p1, r0, r1)
    {
      DrawPushed(drawtagStream, DRAWTAG_FILLRADGRADIENT);
      drawtagStream := drawtagStream + [DRAWTAG_FILLRADGRADIENT];
      drawdataStream := drawdataStream + FillRadGradientPayload(index, p0, p1, r0, r1);
    }

    /** `begin_clip`: a clip draw object; one more clip. */
    method BeginClip(blend: Option<u32>)
      requires Valid() && nClip + 1 < U32_MODULUS
      modifies this`drawtagStream, this`drawdataStream, this`nClip
      ensures Valid()
      ensures drawtagStream == old(drawtagStream) + [DRAWTAG_BEGINCLIP]
      ensures drawdataStream == old(drawdataStream) + ClipPayload(blend)
      ensures nClip == old(nClip) + 1
    {
      DrawPushed(drawtagStream, DRAWTAG_BEGINCLIP);
      drawtagStream := drawtagStream + [DRAWTAG_BEGINCLIP];
      drawdataStream := drawdataStream + ClipPayload(blend);
      nClip := nClip + 1;
    }

    /** `end_clip`: a clip draw object, plus a dummy path (its path tag and one
        more path); one more clip. */
    method EndClip(blend: Option<u32>)
      requires Valid() && nClip + 1 < U32_MODULUS && nPath + 1 < U32_MODULUS
      modifies this`drawtagStream, this`drawdataStream, this`tagStream, this`nPath, this`nClip
      ensures Valid()
      ensures drawtagStream == old(drawtagStream) + [DRAWTAG_ENDCLIP]
      ensures drawdataStream == old(drawdataStream) + ClipPayload(blend)
      ensures tagStream == old(tagStream) + [PATHTAG_PATH]
      ensures nPath == old(nPath) + 1 && nClip == old(nClip) + 1
    {
      DrawPushed(drawtagStream, DRAWTAG_ENDCLIP);
      drawtagStream := drawtagStream + [DRAWTAG_ENDCLIP];
      drawdataStream := drawdataStream + ClipPayload(blend);
      tagStream := tagStream + [PATHTAG_PATH];
      nPath := nPath + 1;
      nClip := nClip + 1;
    }

    /** `stage_config`: the one planner, on this encoder's sizes. */
    method StageConfig(p: PartSizes) returns (config: Config, alloc: nat)
      requires p.Valid()
      ensures alloc == ScratchLayout(View().Sizes(), p).total
      ensures config == ToConfig(View().Sizes(), SceneLayout(View().Sizes(), p),
                                 ScratchLayout(View().Sizes(), p))
    {
      var view := View();
      config, alloc := view.StageConfig(p);
    }

    /** `write_scene`: appends the scene image of this encoder to the buffer. */
    method WriteScene(buf: BufWrite, p: PartSizes)
      requires p.Valid()
      modifies buf
      ensures buf.bytes == old(buf.bytes) + SceneImage(View(), p)
    {
      var view := View();
      view.WriteScene(buf, p);
    }

    /** `n_drawobj`: the number of draw objects, each with at least one word
        of draw data. */
    function NDrawobj(): (n: nat)
      reads this
      requires Valid()
      ensures n == View().Sizes().nDrawobj
      ensures DRAWTAG_SIZE * n <= |drawdataStream|
    {
      DrawDataAtLeastOneWordEach(drawtagStream);
      |drawtagStream|
    }

    /** `n_path`: at least one path per end clip, its dummy path. */
    function NPath(): (n: u32)
      reads this
      requires Valid()
      ensures n == View().Sizes().nPath
      ensures EndClipCount(drawtagStream) <= n
    {
      nPath
    }

    /** `n_pathseg`. */
    function NPathseg(): u32
      reads this
    {
      nPathseg
    }

    /** `n_transform`: never zero, the identity transform comes first. */
    function NTransform(): (n: nat)
      reads this
      requires Valid()
      ensures n == View().Sizes().nTrans
      ensures n >= 1
    {
      |transformStream|
    }

    /** `n_pathtag`: every pushed transform, line width and end clip has its
        path tag. */
    function NPathtag(): (n: nat)
      reads this
      requires Valid()
      ensures n == View().Sizes().nPathtag
      ensures (|transformStream| - 1) + (|linewidthStream| - 1) + EndClipCount(drawtagStream) <= n
    {
      |tagStream|
    }

    /** `n_clip`: the number of clip draw objects. */
    function NClip(): (n: u32)
      reads this
      requires Valid()
      ensures n == View().Sizes().nClip
      ensures n == ClipCount(drawtagStream)
    {
      nClip
    }

    /** `encode_glyph`: appends the fragment's four streams and adds its counters. */
    method EncodeGlyph(glyph: GlyphEncoder)
      requires Valid() && glyph.Valid()
      requires nPath + glyph.nPath < U32_MODULUS && nPathseg + glyph.nPathseg < U32_MODULUS
      modifies this`tagStream, this`pathsegStream, this`drawtagStream, this`drawdataStream
      modifies this`nPath, this`nPathseg
      ensures Valid()
      ensures tagStream == old(tagStream) + glyph.tagStream
      ensures pathsegStream == old(pathsegStream) + glyph.pathsegStream
      ensures drawtagStream == old(drawtagStream) + glyph.drawtagStream
      ensures drawdataStream == old(drawdataStream) + glyph.drawdataStream
      ensures nPath == old(nPath) + glyph.nPath && nPathseg == old(nPathseg) + glyph.nPathseg
    {
      FillsMerged(drawtagStream, glyph.drawtagStream);
      tagStream := tagStream + glyph.tagStream;
      pathsegStream := pathsegStream + glyph.pathsegStream;
      drawtagStream := drawtagStream + glyph.drawtagStream;
      drawdataStream := drawdataStream + glyph.drawdataStream;
      nPath := nPath + glyph.nPath;
      nPathseg := nPathseg + glyph.nPathseg;
    }
  }

  // ---------------------------------------------------------------------------
  // GlyphEncoder

  class GlyphEncoder {
    var tagStream: seq<byte>
    var pathsegStream: seq<byte>
    var drawtagStream: seq<u32>
    var drawdataStream: seq<byte>
    var nPath: u32
    var nPathseg: u32

    /** Only fill colors are recorded, each with its payload. */
    ghost predicate Valid()
      reads this
    {
      OnlyFills(drawtagStream) && |drawdataStream| == DrawDataSize(drawtagStream)
    }

    /** `GlyphEncoder::default()`. */
    constructor ()
      ensures Valid()
      ensures tagStream == [] && pathsegStream == [] && drawtagStream == [] && drawdataStream == []
      ensures nPath == 0 && nPathseg == 0
    {
      tagStream := [];
      pathsegStream := [];
      drawtagStream := [];
      drawdataStream := [];
      nPath := 0;
      nPathseg := 0;
    }

    /** What the `PathEncoder` from `path_encoder` appends. */
    method AppendPath(pathTags: seq<byte>, pathSegs: seq<byte>)
      requires Valid()
      modifies this`tagStream, this`pathsegStream
      ensures Valid()
      ensures tagStream == old(tagStream) + pathTags
      ensures pathsegStream == old(pathsegStream) + pathSegs
    {
      tagStream := tagStream + pathTags;
      pathsegStream := pathsegStream + pathSegs;
    }

    /** `finish_path`: one more path, with `k` more segments. */
    method FinishPath(k: u32)
      requires Valid()
      requires nPath + 1 < U32_MODULUS && nPathseg + k < U32_MODULUS
      modifies this`nPath, this`nPathseg
      ensures Valid()
      ensures nPath == old(nPath) + 1 && nPathseg == old(nPathseg) + k
    {
      nPath := nPath + 1;
      nPathseg := nPathseg + k;
    }

    /** `fill_color`. */
    method FillColor(rgba: u32)
      requires Valid()
      modifies this`drawtagStream, this`drawdataStream
      ensures Valid()
      ensures drawtagStream == old(drawtagStream) + [DRAWTAG_FILLCOLOR]
      ensures drawdataStream == old(drawdataStream) + FillColorPayload(rgba)
    {
      DrawDataSizePush(drawtagStream, DRAWTAG_FILLCOLOR);
      drawtagStream := drawtagStream + [DRAWTAG_FILLCOLOR];
      drawdataStream := drawdataStream + FillColorPayload(rgba);
    }

    /** `is_color`: a fill was recorded, that is, there is draw data. */
    function IsColor(): (r: bool)
      reads this
      requires Valid()
      ensures r <==> DRAWTAG_FILLCOLOR in drawtagStream
      ensures r <==> |drawdataStream| > 0
    {
      DrawDataAtLeastOneWordEach(drawtagStream);
      |drawtagStream| != 0
    }
  }
}
