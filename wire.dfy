/** The wire format shared with the compute shaders: element types, their byte
    images and the element sizes of the uploaded and scratch buffers.

    Floating-point values are never computed with by the encoder, only stored
    and copied, so an `f32` is an opaque 4-byte image and a `Transform` an
    opaque 24-byte image. A `u32` is copied as its little-endian image, which
    is what `bytemuck` produces on a little-endian host. */
module Wire {

  import Align

  type byte = b: nat | b < 256

  const U32_MODULUS: nat := 0x1_0000_0000

  type u32 = x: nat | x < U32_MODULUS

  /** The `as u32` cast: keeps the low 32 bits, so it loses nothing below 2^32. */
  function ToU32(x: nat): (r: u32)
    ensures x < U32_MODULUS ==> r == x
  {
    x % U32_MODULUS
  }

  // Element sizes in bytes (encoder.rs:194-201)
  const TRANSFORM_SIZE: nat := 24
  const LINEWIDTH_SIZE: nat := 4
  const PATHSEG_SIZE: nat := 52
  const PATH_BBOX_SIZE: nat := 24
  const DRAWMONOID_SIZE: nat := 16
  const DRAW_BBOX_SIZE: nat := 16
  const DRAWTAG_SIZE: nat := 4
  const ANNOTATED_SIZE: nat := 40
  /** The worst-case draw-info record (encoder.rs:397). */
  const MAX_DRAWINFO_SIZE: nat := 44

  /** An `f32` as its 4-byte image. */
  type F32 = s: seq<byte> | |s| == 4 witness [0, 0, 0, 0]

  /** A `stages::Transform` (a 2x2 matrix and a translation, six `f32`s) as its
      24-byte image. */
  type Transform = s: seq<byte> | |s| == 24 witness seq(24, _ => 0)

  const F32_ZERO: F32 := [0x00, 0x00, 0x00, 0x00]
  const F32_ONE: F32 := [0x00, 0x00, 0x80, 0x3F]
  /** -1.0, the line width that means "fill, do not stroke". */
  const F32_MINUS_ONE: F32 := [0x00, 0x00, 0x80, 0xBF]

  /** `Transform::IDENTITY`: matrix (1, 0, 0, 1), translation (0, 0). */
  const IDENTITY: Transform := F32_ONE + F32_ZERO + F32_ZERO + F32_ONE + F32_ZERO + F32_ZERO

  function Zeros(n: nat): seq<byte>
  {
    seq(n, _ => 0)
  }

  // ---------------------------------------------------------------------------
  // u32 images

  /** The little-endian image of a `u32`. */
  function U32Bytes(v: u32): seq<byte>
  {
    [v % 256, (v / 0x100) % 256, (v / 0x1_0000) % 256, v / 0x100_0000]
  }

  /** Reads back a `u32` from its little-endian image, as a shader does. */
  function DecodeU32(b: seq<byte>): u32
    requires |b| == 4
  {
    (b[0] as nat) + 0x100 * (b[1] as nat) + 0x1_0000 * (b[2] as nat) + 0x100_0000 * (b[3] as nat)
  }

  lemma U32RoundTrip(v: u32)
    ensures |U32Bytes(v)| == 4 && DecodeU32(U32Bytes(v)) == v
  {
    var b := U32Bytes(v);
    var q1, q2 := v / 0x100, v / 0x1_0000;
    Align.DivModUnique(v, 0x100, q1, b[0]);
    Align.DivModUnique(q1, 0x100, q1 / 0x100, q1 % 0x100);
    Align.DivModUnique(v, 0x1_0000, q1 / 0x100, 0x100 * (q1 % 0x100) + b[0]);
    assert b[1] == q1 % 0x100;
    Align.DivModUnique(q2, 0x100, q2 / 0x100, q2 % 0x100);
    Align.DivModUnique(v, 0x100_0000, q2 / 0x100, 0x1_0000 * (q2 % 0x100) + v % 0x1_0000);
    assert b[2] == q2 % 0x100 && b[3] == q2 / 0x100;
  }

  /** `bytemuck::cast_slice` of a `&[u32]`. */
  function U32sBytes(s: seq<u32>): seq<byte>
  {
    if s == [] then [] else U32Bytes(s[0]) + U32sBytes(s[1..])
  }

  function DecodeU32s(b: seq<byte>): seq<u32>
    requires |b| % 4 == 0
  {
    if |b| == 0 then [] else [DecodeU32(b[..4])] + DecodeU32s(b[4..])
  }

  lemma {:induction false} U32sBytesLength(s: seq<u32>)
    ensures |U32sBytes(s)| == 4 * |s|
  {
    if s != [] {
      U32sBytesLength(s[1..]);
    }
  }

  /** A `u32` slice reads back from its image unchanged. */
  lemma {:induction false} U32sRoundTrip(s: seq<u32>)
    ensures |U32sBytes(s)| == 4 * |s|
    ensures DecodeU32s(U32sBytes(s)) == s
  {
    U32sBytesLength(s);
    if s != [] {
      U32sRoundTrip(s[1..]);
      U32RoundTrip(s[0]);
      var b := U32sBytes(s);
      assert b[..4] == U32Bytes(s[0]);
      assert b[4..] == U32sBytes(s[1..]);
    }
  }

  // ---------------------------------------------------------------------------
  // Images of fixed-size records

  /** The image of a slice of fixed-size records: their images one after the other. */
  function Concat(records: seq<seq<byte>>): seq<byte>
  {
    if records == [] then [] else records[0] + Concat(records[1..])
  }

  /** Cuts an image into `count` records of `width` bytes, as a shader indexing
      the slice does. */
  function Records(b: seq<byte>, width: nat, count: nat): seq<seq<byte>>
    requires |b| == width * count
  {
    if count == 0 then [] else [b[..width]] + Records(b[width..], width, count - 1)
  }

  predicate AllOfWidth(records: seq<seq<byte>>, width: nat)
  {
    forall i :: 0 <= i < |records| ==> |records[i]| == width
  }

  lemma {:induction false} ConcatLength(records: seq<seq<byte>>, width: nat)
    requires AllOfWidth(records, width)
    ensures |Concat(records)| == width * |records|
  {
    if records != [] {
      ConcatLength(records[1..], width);
    }
  }

  /** Records of one width read back from their image unchanged. */
  lemma {:induction false} RecordsRoundTrip(records: seq<seq<byte>>, width: nat)
    requires width > 0 && AllOfWidth(records, width)
    ensures |Concat(records)| == width * |records|
    ensures Records(Concat(records), width, |records|) == records
  {
    ConcatLength(records, width);
    if records != [] {
      RecordsRoundTrip(records[1..], width);
      var b := Concat(records);
      assert b[..width] == records[0];
      assert b[width..] == Concat(records[1..]);
    }
  }

  /** `bytemuck::cast_slice` of a `&[f32]`. */
  function F32sBytes(s: seq<F32>): seq<byte>
  {
    Concat(s)
  }

  /** `bytemuck::cast_slice` of a `&[Transform]`. */
  function TransformsBytes(s: seq<Transform>): seq<byte>
  {
    Concat(s)
  }
}
