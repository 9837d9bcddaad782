/**
 * The PPM pixel buffer: a flat byte vector of three bytes (red, green, blue)
 * per pixel, row after row, addressed through a bounds-checked linear offset,
 * and serialised as a binary "P6" file.
 */
module PpmImage {
  import opened Wrappers

  const U32_BOUND: nat := 0x1_0000_0000

  /** Rust's u32 and u8. */
  type u32 = n: nat | n < U32_BOUND
  type u8 = n: nat | n < 256

  datatype Rgb = Rgb(r: u8, g: u8, b: u8)

  // ---------------------------------------------------------------------
  // Size and offset arithmetic
  // ---------------------------------------------------------------------

  /** Number of bytes of a height x width image: three per pixel. */
  function BufferSize(height: nat, width: nat): (n: nat)
    ensures n % 3 == 0
    ensures n == 0 <==> height == 0 || width == 0
  {
    assert 3 * height * width == 3 * (height * width);
    assert height > 0 && width > 0 ==> height * width == (height - 1) * width + width;
    3 * height * width
  }

  /**
   * The byte offset of pixel (x, y), or None when the check on the LINEAR
   * offset fails. The coordinates are not checked one by one: the offset is
   * accepted whenever the linear pixel index y * width + x lies inside the
   * image, and it is then a multiple of three whose whole RGB triple lies in
   * the buffer. The arithmetic is exact here (see OffsetAsWritten for the
   * 32-bit arithmetic of the original).
   */
  function Offset(height: u32, width: u32, x: u32, y: u32): (r: Option<nat>)
    ensures r.Some? <==> y * width + x < height * width
    ensures r.Some? ==> r.value == 3 * (y * width + x)
    ensures r.Some? ==> r.value % 3 == 0 && r.value + 2 < BufferSize(height, width)
  {
    var offset := y * width * 3 + x * 3;
    assert offset == 3 * (y * width + x);
    assert BufferSize(height, width) == 3 * (height * width);
    if offset < BufferSize(height, width) then Some(offset) else None
  }

  /** A pixel inside the image, axis by axis, always has an offset. */
  lemma {:induction false} InImageAccepted(height: u32, width: u32, x: u32, y: u32)
    requires x < width && y < height
    ensures Offset(height, width, x, y).Some?
  {
    assert y * width + x < (y + 1) * width;
    assert (y + 1) * width <= height * width;
  }

  /** A row at or below the image's height never has an offset. */
  lemma {:induction false} RowPastHeightRejected(height: u32, width: u32, x: u32, y: u32)
    requires y >= height
    ensures Offset(height, width, x, y).None?
  {
    assert y * width >= height * width;
  }

  /**
   * The check is on the linear offset only: a column at or past the width
   * names the same bytes as the pixel one row further down, width columns to
   * the left, and it is accepted exactly when that pixel is.
   */
  lemma {:induction false} ColumnPastWidthAliasesNextRow(height: u32, width: u32, x: u32, y: u32)
    requires x >= width && y + 1 < U32_BOUND
    ensures Offset(height, width, x, y) == Offset(height, width, x - width, y + 1)
  {
    assert (y + 1) * width + (x - width) == y * width + x;
  }

  // ---------------------------------------------------------------------
  // The offset as the source computes it: 32-bit arithmetic
  // ---------------------------------------------------------------------

  /** Reduction modulo 2^32: what a release build does on u32 overflow. */
  function Wrap(n: nat): (r: u32)
    ensures n < U32_BOUND ==> r == n
  {
    n % U32_BOUND
  }

  /** buffer_size as written: 3 * height * width in u32 arithmetic. */
  function BufferSizeAsWritten(height: u32, width: u32): (r: u32)
    ensures BufferSize(height, width) < U32_BOUND ==> r == BufferSize(height, width)
  {
    assert 3 * height <= BufferSize(height, width) || width == 0;
    Wrap(Wrap(3 * height) * width)
  }

  /**
   * get_offset exactly as written, in u32 arithmetic: every product and the
   * sum wrap modulo 2^32, and so does the buffer size it compares against (a
   * debug build panics at the first overflow instead).
   */
  function OffsetAsWritten(height: u32, width: u32, x: u32, y: u32): (r: Option<nat>)
    ensures r.Some? ==> r.value < BufferSizeAsWritten(height, width)
  {
    var offset := Wrap(Wrap(Wrap(y * width) * 3) + Wrap(x * 3));
    if offset < BufferSizeAsWritten(height, width) then Some(offset) else None
  }

  /** Without overflow the 32-bit computation and the exact one agree. */
  lemma {:induction false} AsWrittenAgreesWithoutOverflow(height: u32, width: u32, x: u32, y: u32)
    requires BufferSize(height, width) < U32_BOUND && 3 * (y * width + x) < U32_BOUND
    ensures OffsetAsWritten(height, width, x, y) == Offset(height, width, x, y)
  {
    assert y * width <= y * width + x;
    assert y * width * 3 <= 3 * (y * width + x);
    assert x * 3 <= 3 * (y * width + x);
    assert Wrap(y * width) == y * width;
    assert Wrap(Wrap(y * width) * 3) == y * width * 3;
    assert Wrap(x * 3) == x * 3;
  }

  /**
   * On a 1 x 1 image, x = 0x5555_5556 makes x * 3 overflow (a debug build
   * panics) and wrap to 2 (a release build accepts offset 2, whose green and
   * blue bytes 3 and 4 lie past the 3-byte buffer, so the indexing panics).
   * Either way set_pixel aborts instead of returning false.
   */
  lemma AsWrittenOverrunsBuffer()
    ensures 0x5555_5556 * 3 >= U32_BOUND
    ensures OffsetAsWritten(1, 1, 0x5555_5556, 0) == Some(2)
    ensures 2 + 2 >= BufferSize(1, 1)
    ensures Offset(1, 1, 0x5555_5556, 0) == None
  {
    assert Wrap(0x5555_5556 * 3) == 2;
  }

  // ---------------------------------------------------------------------
  // Pixel reads and writes, on the byte sequence
  // ---------------------------------------------------------------------

  /** The colour stored for pixel (x, y), or None when the offset check fails. */
  function Pixel(data: seq<u8>, height: u32, width: u32, x: u32, y: u32): (p: Option<Rgb>)
    requires |data| == BufferSize(height, width)
    ensures p.Some? <==> Offset(height, width, x, y).Some?
  {
    match Offset(height, width, x, y)
    case None => None
    case Some(o) => Some(Rgb(data[o], data[o + 1], data[o + 2]))
  }

  /**
   * The bytes after storing colour c at pixel (x, y): unchanged when the
   * offset check fails; otherwise the pixel reads back as c and every byte
   * outside its three is unchanged.
   */
  function Painted(data: seq<u8>, height: u32, width: u32, x: u32, y: u32, c: Rgb): (r: seq<u8>)
    requires |data| == BufferSize(height, width)
    ensures |r| == |data|
    ensures Offset(height, width, x, y).None? ==> r == data
    ensures Offset(height, width, x, y).Some? ==> Pixel(r, height, width, x, y) == Some(c)
    ensures Offset(height, width, x, y).Some? ==>
              forall i :: 0 <= i < |data| && !(Offset(height, width, x, y).value <= i < Offset(height, width, x, y).value + 3)
                ==> r[i] == data[i]
  {
    match Offset(height, width, x, y)
    case None => data
    case Some(o) => data[o := c.r][o + 1 := c.g][o + 2 := c.b]
  }

  /** Painting one pixel leaves every pixel with a different offset as it was. */
  lemma {:induction false} PaintedOtherPixel(data: seq<u8>, height: u32, width: u32, x: u32, y: u32, c: Rgb, x': u32, y': u32)
    requires |data| == BufferSize(height, width)
    requires Offset(height, width, x, y) != Offset(height, width, x', y')
    ensures Pixel(Painted(data, height, width, x, y, c), height, width, x', y') == Pixel(data, height, width, x', y')
  {
    var after := Painted(data, height, width, x, y, c);
    match Offset(height, width, x', y')
    case None =>
    case Some(o') =>
      if Offset(height, width, x, y).Some? {
        var o := Offset(height, width, x, y).value;
        assert o % 3 == 0 && o' % 3 == 0 && o != o';
        assert o + 3 <= o' || o' + 3 <= o;
        assert after[o'] == data[o'] && after[o' + 1] == data[o' + 1] && after[o' + 2] == data[o' + 2];
      }
  }

  /** Painting the same pixel twice keeps only the second colour. */
  lemma {:induction false} PaintedTwiceLastWins(data: seq<u8>, height: u32, width: u32, x: u32, y: u32, c1: Rgb, c2: Rgb)
    requires |data| == BufferSize(height, width)
    ensures Painted(Painted(data, height, width, x, y, c1), height, width, x, y, c2)
         == Painted(data, height, width, x, y, c2)
  {
    var once := Painted(data, height, width, x, y, c2);
    var twice := Painted(Painted(data, height, width, x, y, c1), height, width, x, y, c2);
    if Offset(height, width, x, y).Some? {
      var o := Offset(height, width, x, y).value;
      assert forall i :: 0 <= i < |data| ==> twice[i] == once[i] by {
        forall i | 0 <= i < |data| ensures twice[i] == once[i] {
          if o <= i < o + 3 {
            assert Pixel(twice, height, width, x, y) == Pixel(once, height, width, x, y);
            assert i == o || i == o + 1 || i == o + 2;
          }
        }
      }
    }
  }

  // ---------------------------------------------------------------------
  // Serialisation: "P6 {width} {height} 255\n" followed by the raw bytes
  // ---------------------------------------------------------------------

  const SPACE: u8 := 0x20     // ' '
  const NEWLINE: u8 := 0x0A   // '\n'
  const ZERO_DIGIT: u8 := 0x30  // '0'
  const MAGIC: seq<u8> := [0x50, 0x36, SPACE]            // "P6 "
  const MAX_VALUE: seq<u8> := [0x32, 0x35, 0x35, NEWLINE] // "255\n"

  predicate IsDigit(b: u8) {
    ZERO_DIGIT <= b <= ZERO_DIGIT + 9
  }

  function DigitValue(b: u8): (d: nat)
    requires IsDigit(b)
    ensures d < 10
  {
    b - ZERO_DIGIT
  }

  predicate IsNumeral(s: seq<u8>) {
    |s| > 0 && forall i :: 0 <= i < |s| ==> IsDigit(s[i])
  }

  /** The decimal ASCII digits of n, as Rust's "{}" formats an unsigned integer. */
  function Decimal(n: nat): (s: seq<u8>)
    ensures IsNumeral(s)
    ensures SPACE !in s && NEWLINE !in s
  {
    if n < 10 then [ZERO_DIGIT + n]
    else Decimal(n / 10) + [ZERO_DIGIT + n % 10]
  }

  /** Reads a numeral back, most significant digit first. */
  function ParseDecimal(s: seq<u8>): nat
    requires forall i :: 0 <= i < |s| ==> IsDigit(s[i])
  {
    if s == [] then 0
    else ParseDecimal(s[..|s| - 1]) * 10 + DigitValue(s[|s| - 1])
  }

  lemma {:induction false} DecimalRoundTrip(n: nat)
    ensures ParseDecimal(Decimal(n)) == n
  {
    if n >= 10 {
      var s := Decimal(n);
      assert s[..|s| - 1] == Decimal(n / 10);
      DecimalRoundTrip(n / 10);
    }
  }

  /** The header get_bytes puts in front of the pixel bytes. */
  function Header(width: nat, height: nat): (h: seq<u8>)
    ensures |h| == |Decimal(width)| + |Decimal(height)| + 9
    ensures h[|h| - 1] == NEWLINE
  {
    MAGIC + Decimal(width) + [SPACE] + Decimal(height) + [SPACE] + MAX_VALUE
  }

  /** Splits s at the first occurrence of sep, dropping the separator. */
  function SplitAt(s: seq<u8>, sep: u8): Option<(seq<u8>, seq<u8>)>
  {
    if s == [] then None
    else if s[0] == sep then Some(([], s[1..]))
    else match SplitAt(s[1..], sep)
         case None => None
         case Some((before, after)) => Some(([s[0]] + before, after))
  }

  lemma {:induction false} SplitAtFirst(a: seq<u8>, sep: u8, b: seq<u8>)
    requires sep !in a
    ensures SplitAt(a + [sep] + b, sep) == Some((a, b))
  {
    if a != [] {
      assert a[0] != sep;
      assert (a + [sep] + b)[0] == a[0];
      assert (a + [sep] + b)[1..] == a[1..] + [sep] + b;
      SplitAtFirst(a[1..], sep, b);
      assert [a[0]] + a[1..] == a;
    } else {
      assert a + [sep] + b == [sep] + b;
    }
  }

  datatype Decoded = Decoded(width: nat, height: nat, data: seq<u8>)

  /** A reader of binary PPM files with a maximum value of 255: the inverse of get_bytes. */
  function ParseP6(bytes: seq<u8>): Option<Decoded>
  {
    if |bytes| < |MAGIC| || bytes[..|MAGIC|] != MAGIC then None
    else match SplitAt(bytes[|MAGIC|..], SPACE)
      case None => None
      case Some((w, rest)) =>
        match SplitAt(rest, SPACE)
        case None => None
        case Some((h, body)) =>
          if !IsNumeral(w) || !IsNumeral(h) || |body| < |MAX_VALUE| || body[..|MAX_VALUE|] != MAX_VALUE then None
          else Some(Decoded(ParseDecimal(w), ParseDecimal(h), body[|MAX_VALUE|..]))
  }

  lemma {:induction false} HeaderRoundTrip(width: nat, height: nat, data: seq<u8>)
    ensures ParseP6(Header(width, height) + data) == Some(Decoded(width, height, data))
  {
    var bytes := Header(width, height) + data;
    var w, h := Decimal(width), Decimal(height);
    assert bytes[..|MAGIC|] == MAGIC;
    assert bytes[|MAGIC|..] == w + [SPACE] + (h + [SPACE] + (MAX_VALUE + data));
    SplitAtFirst(w, SPACE, h + [SPACE] + (MAX_VALUE + data));
    SplitAtFirst(h, SPACE, MAX_VALUE + data);
    assert (MAX_VALUE + data)[..|MAX_VALUE|] == MAX_VALUE;
    assert (MAX_VALUE + data)[|MAX_VALUE|..] == data;
    DecimalRoundTrip(width);
    DecimalRoundTrip(height);
  }

  // ---------------------------------------------------------------------
  // The buffer object
  // ---------------------------------------------------------------------

  class Ppm {
    const height: u32
    const width: u32
    const data: array<u8>

    /** The buffer holds exactly three bytes per pixel, and its size fits in a u32. */
    ghost predicate Valid()
      reads this
    {
      data.Length == BufferSize(height, width) && BufferSize(height, width) < U32_BOUND
    }

    /** PPM::new: a black image of height x width pixels. */
    constructor (height: u32, width: u32)
      requires BufferSize(height, width) < U32_BOUND
      ensures this.height == height && this.width == width
      ensures Valid() && fresh(data)
      ensures data.Length == 3 * height * width
      ensures forall i :: 0 <= i < data.Length ==> data[i] == 0
    {
      this.height := height;
      this.width := width;
      data := new u8[BufferSize(height, width)](_ => 0);
    }

    method GetPixel(x: u32, y: u32) returns (p: Option<Rgb>)
      requires Valid()
      ensures p == Pixel(data[..], height, width, x, y)
    {
      match Offset(height, width, x, y)
      case Some(offset) =>
        var r := data[offset];
        var g := data[offset + 1];
        var b := data[offset + 2];
        p := Some(Rgb(r, g, b));
      case None =>
        p := None;
    }

    method SetPixel(x: u32, y: u32, color: Rgb) returns (ok: bool)
      requires Valid()
      modifies data
      ensures ok <==> Offset(height, width, x, y).Some?
      ensures data[..] == Painted(old(data[..]), height, width, x, y, color)
      ensures ok ==> Pixel(data[..], height, width, x, y) == Some(color)
      ensures !ok ==> data[..] == old(data[..])
    {
      match Offset(height, width, x, y)
      case Some(offset) =>
        data[offset] := color.r;
        data[offset + 1] := color.g;
        data[offset + 2] := color.b;
        ok := true;
      case None =>
        ok := false;
    }

    method GetBytes() returns (bytes: seq<u8>)
      requires Valid()
      ensures bytes == Header(width, height) + data[..]
      ensures |bytes| == |Header(width, height)| + 3 * width * height
      ensures ParseP6(bytes) == Some(Decoded(width, height, data[..]))
    {
      bytes := Header(width, height);
      bytes := bytes + data[..];
      assert data.Length == 3 * width * height by {
        assert 3 * height * width == 3 * width * height;
      }
      HeaderRoundTrip(width, height, data[..]);
    }
  }
}
