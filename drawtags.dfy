/** Draw objects: their tag codes and the payloads they append to the draw-data
    stream.

    A draw tag carries the length of its payload: bits 2 to 4 of the tag give
    the number of 32-bit words of scene payload, and bits 6 and up the number
    of words of the per-object draw-info record built by the shaders. The
    payload functions below show that each of the five codes announces the
    length of the struct pushed with it. */
module DrawTags {

  import opened Wire

  datatype Option<T> = None | Some(value: T)
  {
    function UnwrapOr(default: T): T
    {
      match this
      case Some(v) => v
      case None => default
    }
  }

  // Tag codes (encoder.rs:204-208)
  const DRAWTAG_FILLCOLOR: u32 := 0x44
  const DRAWTAG_FILLLINGRADIENT: u32 := 0x114
  const DRAWTAG_FILLRADGRADIENT: u32 := 0x2dc
  const DRAWTAG_BEGINCLIP: u32 := 0x05
  const DRAWTAG_ENDCLIP: u32 := 0x25

  /** Stands for `Blend::default().pack()`. `Blend` is not part of this model;
      the value only has to be some `u32`, and nothing proved here depends on it. */
  const DEFAULT_BLEND: u32 := 3

  predicate IsDrawTag(tag: u32)
  {
    || tag == DRAWTAG_FILLCOLOR
    || tag == DRAWTAG_FILLLINGRADIENT
    || tag == DRAWTAG_FILLRADGRADIENT
    || tag == DRAWTAG_BEGINCLIP
    || tag == DRAWTAG_ENDCLIP
  }

  predicate AllDrawTags(tags: seq<u32>)
  {
    forall i :: 0 <= i < |tags| ==> IsDrawTag(tags[i])
  }

  /** Bytes of draw data the tag announces: four times bits 2 to 4. */
  function PayloadSize(tag: u32): nat
  {
    4 * ((tag / 4) % 8)
  }

  /** Bytes of draw-info record the tag announces: four times bits 6 and up. */
  function InfoSize(tag: u32): nat
  {
    4 * (tag / 64)
  }

  /** A `[f32; 2]` point of a gradient. */
  datatype Point = Point(x: F32, y: F32)

  // ---------------------------------------------------------------------------
  // Payloads (the `#[repr(C)]` structs of encoder.rs:210-247 as bytes)

  /** `FillColor { rgba_color }`. */
  function FillColorPayload(rgba: u32): (b: seq<byte>)
    ensures |b| == PayloadSize(DRAWTAG_FILLCOLOR)
    ensures DecodeU32(b) == rgba
  {
    U32RoundTrip(rgba);
    U32Bytes(rgba)
  }

  /** `FillLinGradient { index, p0, p1 }`. */
  function FillLinGradientPayload(index: u32, p0: Point, p1: Point): (b: seq<byte>)
    ensures |b| == PayloadSize(DRAWTAG_FILLLINGRADIENT)
    ensures DecodeU32(b[..4]) == index
    ensures b[4..] == p0.x + p0.y + p1.x + p1.y
  {
    U32RoundTrip(index);
    U32Bytes(index) + p0.x + p0.y + p1.x + p1.y
  }

  /** `FillRadGradient { index, p0, p1, r0, r1 }`. */
  function FillRadGradientPayload(index: u32, p0: Point, p1: Point, r0: F32, r1: F32): (b: seq<byte>)
    ensures |b| == PayloadSize(DRAWTAG_FILLRADGRADIENT)
    ensures DecodeU32(b[..4]) == index
    ensures b[4..] == p0.x + p0.y + p1.x + p1.y + r0 + r1
  {
    U32RoundTrip(index);
    U32Bytes(index) + p0.x + p0.y + p1.x + p1.y + r0 + r1
  }

  /** `Clip { blend }`, with the default blend when none is given. */
  function ClipPayload(blend: Option<u32>): (b: seq<byte>)
    ensures |b| == PayloadSize(DRAWTAG_BEGINCLIP) == PayloadSize(DRAWTAG_ENDCLIP)
    ensures DecodeU32(b) == blend.UnwrapOr(DEFAULT_BLEND)
  {
    U32RoundTrip(blend.UnwrapOr(DEFAULT_BLEND));
    U32Bytes(blend.UnwrapOr(DEFAULT_BLEND))
  }

  // ---------------------------------------------------------------------------
  // Accounting over a draw-tag stream

  /** The length the draw-data stream must have for these tags. */
  function DrawDataSize(tags: seq<u32>): nat
  {
    if tags == [] then 0 else PayloadSize(tags[0]) + DrawDataSize(tags[1..])
  }

  /** The draw-info bytes these tags need. */
  function DrawInfoSize(tags: seq<u32>): nat
  {
    if tags == [] then 0 else InfoSize(tags[0]) + DrawInfoSize(tags[1..])
  }

  /** The number of clip draw objects (begin and end) among the tags. */
  function ClipCount(tags: seq<u32>): nat
  {
    multiset(tags)[DRAWTAG_BEGINCLIP] + multiset(tags)[DRAWTAG_ENDCLIP]
  }

  /** Appending tags adds their payload sizes. */
  lemma {:induction false} DrawDataSizeAppend(a: seq<u32>, b: seq<u32>)
    ensures DrawDataSize(a + b) == DrawDataSize(a) + DrawDataSize(b)
  {
    if a == [] {
      assert a + b == b;
    } else {
      assert (a + b)[1..] == a[1..] + b;
      DrawDataSizeAppend(a[1..], b);
    }
  }

  /** Every known draw object carries at least one word of draw data. */
  lemma {:induction false} DrawDataAtLeastOneWordEach(tags: seq<u32>)
    requires AllDrawTags(tags)
    ensures DrawDataSize(tags) >= DRAWTAG_SIZE * |tags|
  {
    if tags != [] {
      DrawDataAtLeastOneWordEach(tags[1..]);
    }
  }

  /** The worst-case draw-info budget of the scratch plan covers every object. */
  lemma {:induction false} DrawInfoWithinBudget(tags: seq<u32>)
    requires AllDrawTags(tags)
    ensures DrawInfoSize(tags) <= MAX_DRAWINFO_SIZE * |tags|
  {
    if tags != [] {
      DrawInfoWithinBudget(tags[1..]);
    }
  }

  /** Pushing one tag adds the payload size it announces. */
  lemma DrawDataSizePush(tags: seq<u32>, tag: u32)
    ensures DrawDataSize(tags + [tag]) == DrawDataSize(tags) + PayloadSize(tag)
  {
    DrawDataSizeAppend(tags, [tag]);
    assert DrawDataSize([tag]) == PayloadSize(tag) + DrawDataSize([]);
  }
}
