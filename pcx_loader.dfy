/** The PCX texture loader: the 128-byte ZSoft PCX header, the choice of
    palette and the run-length decoding of 8-bit pixels into RGB888 texels.
    A read outside the buffer, which the C++ leaves undefined, is the error
    `OutOfBounds` here. */
module Pcx {
  import opened Wrappers
  import opened Bytes

  /** The header, as packed at the start of the file; 16-bit fields are
      little-endian. */
  datatype Header = Header(
    manufacturer: uint8,
    version: uint8,
    encoding: uint8,
    bitsPerPixel: uint8,
    xmin: uint16,
    ymin: uint16,
    xmax: uint16,
    ymax: uint16,
    horzRes: uint16,
    vertRes: uint16,
    palette: seq<uint8>,
    reserved: uint8,
    numColorPlanes: uint8,
    bytesPerScanLine: uint16,
    paletteType: uint16,
    horzSize: uint16,
    vertSize: uint16,
    padding: seq<uint8>)

  /** A header whose arrays have their declared lengths: a 48-byte palette
      and 54 bytes of padding. */
  predicate WellSized(h: Header)
  {
    |h.palette| == 48 && |h.padding| == 54
  }

  /** Where the pixel data starts: right after the header. */
  const HeaderSize: nat := 128

  /** Where the header's own 16-colour palette sits in the file. */
  const HeaderPaletteOffset: nat := 16

  function Lo(v: uint16): uint8 { v % 256 }

  function Hi(v: uint16): uint8 { v / 256 }

  /** The little-endian 16-bit value at `off`. */
  function U16At(b: seq<uint8>, off: nat): (v: uint16)
    requires off + 2 <= |b|
    ensures Lo(v) == b[off] && Hi(v) == b[off + 1]
  {
    (b[off] as int) + 256 * (b[off + 1] as int)
  }

  /** The header's 128 bytes, field by field. */
  function HeaderBytes(h: Header): (b: seq<uint8>)
    requires WellSized(h)
    ensures |b| == HeaderSize
  {
    [h.manufacturer, h.version, h.encoding, h.bitsPerPixel,
     Lo(h.xmin), Hi(h.xmin), Lo(h.ymin), Hi(h.ymin), Lo(h.xmax), Hi(h.xmax), Lo(h.ymax), Hi(h.ymax),
     Lo(h.horzRes), Hi(h.horzRes), Lo(h.vertRes), Hi(h.vertRes)] +
    h.palette +
    [h.reserved, h.numColorPlanes,
     Lo(h.bytesPerScanLine), Hi(h.bytesPerScanLine), Lo(h.paletteType), Hi(h.paletteType),
     Lo(h.horzSize), Hi(h.horzSize), Lo(h.vertSize), Hi(h.vertSize)] +
    h.padding
  }

  /** The header read through a `Header*` over the first 128 bytes. */
  function ParseHeader(b: seq<uint8>): (h: Header)
    requires |b| >= HeaderSize
    ensures WellSized(h)
  {
    Header(b[0], b[1], b[2], b[3],
      U16At(b, 4), U16At(b, 6), U16At(b, 8), U16At(b, 10), U16At(b, 12), U16At(b, 14),
      b[16..64], b[64], b[65],
      U16At(b, 66), U16At(b, 68), U16At(b, 70), U16At(b, 72),
      b[74..128])
  }

  lemma LoHi(v: uint16)
    ensures Lo(v) + 256 * Hi(v) == v
  {
  }

  /** Reading a header back from its bytes gives the same header. */
  lemma HeaderRoundTrip(h: Header)
    requires WellSized(h)
    ensures ParseHeader(HeaderBytes(h)) == h
  {
    var b := HeaderBytes(h);
    LoHi(h.xmin); LoHi(h.ymin); LoHi(h.xmax); LoHi(h.ymax); LoHi(h.horzRes); LoHi(h.vertRes);
    LoHi(h.bytesPerScanLine); LoHi(h.paletteType); LoHi(h.horzSize); LoHi(h.vertSize);
    assert b[16..64] == h.palette;
    assert b[74..128] == h.padding;
  }

  /** Every 128-byte string is the layout of the header read from it. */
  lemma HeaderBytesRoundTrip(b: seq<uint8>)
    requires |b| >= HeaderSize
    ensures HeaderBytes(ParseHeader(b)) == b[..HeaderSize]
  {
    var h := ParseHeader(b);
    var c := HeaderBytes(h);
    forall i | 0 <= i < HeaderSize
      ensures c[i] == b[i]
    {
      if 16 <= i < 64 {
        assert c[i] == h.palette[i - 16];
      } else if 74 <= i {
        assert c[i] == h.padding[i - 74];
      }
    }
  }

  // ------------------------------------------------------------ decoding

  datatype LoadError =
    | UnsupportedManufacturer
    | UnsupportedBitcount
    /** The width or height is not positive: `xmax < xmin` or `ymax < ymin`. */
    | InvalidSize
    /** A read past the end of the buffer. */
    | OutOfBounds

  datatype TextureFormat = RGB888

  datatype TexelType = UnsignedByte

  /** What the loader returns. */
  datatype Texture = Texture(width: nat, height: nat, channels: nat, format: TextureFormat, texelType: TexelType, data: seq<uint8>)

  /** `(b & 0xC0) == 0xC0`: both top bits are set, so the byte starts a run. */
  function IsRunByte(b: uint8): (r: bool)
    ensures r <==> b >= 0xC0
  {
    b / 64 == 3
  }

  /** `b & 0x3F`: the low six bits, the length of the run a run byte starts. */
  function RunLength(b: uint8): (n: nat)
    ensures n < 64 && (IsRunByte(b) ==> b == 0xC0 + n)
  {
    b % 64
  }

  /** The decoder's state: where `image_data` points, `rle_count` and
      `rle_value`. */
  datatype Rle = Rle(pos: nat, count: int, value: uint8)

  const Start: Rle := Rle(HeaderSize, 0, 0)

  /** The state update for one pixel. With a run pending the count goes
      down by one. Otherwise the next byte is read: a run byte gives a run
      of its length of the byte after it, any other byte is one pixel of
      its own value. */
  function Step(buf: seq<uint8>, s: Rle): Result<Rle, LoadError>
  {
    if s.count != 0 then Ok(s.(count := s.count - 1))
    else if s.pos >= |buf| then Err(OutOfBounds)
    else
      var b := buf[s.pos];
      if IsRunByte(b) then
        if s.pos + 1 >= |buf| then Err(OutOfBounds) else Ok(Rle(s.pos + 2, RunLength(b) - 1, buf[s.pos + 1]))
      else Ok(Rle(s.pos + 1, 0, b))
  }

  /** The state after `n` pixels from `s`. */
  function After(buf: seq<uint8>, s: Rle, n: nat): Result<Rle, LoadError>
  {
    if n == 0 then Ok(s)
    else match After(buf, s, n - 1)
      case Err(e) => Err(e)
      case Ok(t) => Step(buf, t)
  }

  /** The three palette bytes of value `v`, the palette starting at `pal`. */
  function Colour(buf: seq<uint8>, pal: nat, v: uint8): (c: Result<seq<uint8>, LoadError>)
    ensures c.Ok? <==> pal + 3 * v + 3 <= |buf|
    ensures c.Ok? ==> c.value == [buf[pal + 3 * v], buf[pal + 3 * v + 1], buf[pal + 3 * v + 2]]
  {
    var at := pal + 3 * v;
    if at + 3 > |buf| then Err(OutOfBounds) else Ok([buf[at], buf[at + 1], buf[at + 2]])
  }

  datatype Decoded = Decoded(rle: Rle, data: seq<uint8>)

  /** The first `k` pixels: the decoder state and the texels written. */
  function Run(buf: seq<uint8>, pal: nat, k: nat): (r: Result<Decoded, LoadError>)
    ensures r.Ok? ==> |r.value.data| == 3 * k
    ensures r.Err? ==> r.error == OutOfBounds
  {
    if k == 0 then Ok(Decoded(Start, []))
    else match Run(buf, pal, k - 1)
      case Err(e) => Err(e)
      case Ok(d) =>
        match Step(buf, d.rle)
        case Err(e) => Err(e)
        case Ok(s) =>
          match Colour(buf, pal, s.value)
          case Err(e) => Err(e)
          case Ok(c) => Ok(Decoded(s, d.data + c))
  }

  /** The palette as the source chooses it: the trailing 768 bytes when the
      byte at `size - 769` is 12, the header palette otherwise. The index
      is a `size_t`, so for a buffer of fewer than 769 bytes it wraps
      around to far past the end. */
  function PaletteStartAsWritten(buf: seq<uint8>): (r: Result<nat, LoadError>)
    requires |buf| < 0x1_0000_0000_0000_0000 - 769
    ensures |buf| < 769 ==> r == Err(OutOfBounds)
  {
    var marker := (|buf| - 769) % 0x1_0000_0000_0000_0000;
    if marker >= |buf| then Err(OutOfBounds)
    else if buf[marker] == 12 then Ok(|buf| - 768)
    else Ok(HeaderPaletteOffset)
  }

  /** The palette choice with the marker read only when the buffer holds
      one: a buffer of fewer than 769 bytes has no trailing palette and
      uses the header palette. */
  function PaletteStart(buf: seq<uint8>): (pal: nat)
    ensures |buf| >= 769 && buf[|buf| - 769] == 12 ==> pal == |buf| - 768
    ensures !(|buf| >= 769 && buf[|buf| - 769] == 12) ==> pal == HeaderPaletteOffset
  {
    if |buf| >= 769 && buf[|buf| - 769] == 12 then |buf| - 768 else HeaderPaletteOffset
  }

  /** The two agree on every buffer that holds a marker byte. */
  lemma PaletteStartAgrees(buf: seq<uint8>)
    requires 769 <= |buf| < 0x1_0000_0000_0000_0000 - 769
    ensures PaletteStartAsWritten(buf) == Ok(PaletteStart(buf))
  {
  }

  /** The width and height the header gives, `max - min + 1`. */
  function Width(buf: seq<uint8>): int
    requires |buf| >= 12
  {
    U16At(buf, 8) - U16At(buf, 4) + 1
  }

  function Height(buf: seq<uint8>): int
    requires |buf| >= 12
  {
    U16At(buf, 10) - U16At(buf, 6) + 1
  }

  /** Everything before the pixels: the manufacturer check, the size, the
      bit count; the palette start is the one `pal` chooses. */
  function DecodeFrom(buf: seq<uint8>, pal: Result<nat, LoadError>): (r: Result<Texture, LoadError>)
  {
    if |buf| < 1 then Err(OutOfBounds)
    else if buf[0] != 0x0A then Err(UnsupportedManufacturer)
    else if |buf| < 12 then Err(OutOfBounds)
    else if Width(buf) <= 0 || Height(buf) <= 0 then Err(InvalidSize)
    else if |buf| < 66 then Err(OutOfBounds)
    else if (buf[3] as int) * (buf[65] as int) != 8 then Err(UnsupportedBitcount)
    else match pal
      case Err(e) => Err(e)
      case Ok(p) =>
        match Run(buf, p, Width(buf) * Height(buf))
        case Err(e) => Err(e)
        case Ok(d) => Ok(Texture(Width(buf), Height(buf), 3, RGB888, UnsignedByte, d.data))
  }

  /** do_load as the source writes it. */
  function DecodeAsWritten(buf: seq<uint8>): Result<Texture, LoadError>
    requires |buf| < 0x1_0000_0000_0000_0000 - 769
  {
    DecodeFrom(buf, PaletteStartAsWritten(buf))
  }

  /** do_load with the palette marker read only when there is one. */
  function Decode(buf: seq<uint8>): (r: Result<Texture, LoadError>)
    ensures |buf| >= 1 && buf[0] != 0x0A ==> r == Err(UnsupportedManufacturer)
    ensures r.Ok? ==> |buf| >= 66 && buf[0] == 0x0A && (buf[3] as int) * (buf[65] as int) == 8
    ensures r.Ok? ==> r.value.width == U16At(buf, 8) - U16At(buf, 4) + 1 && r.value.height == U16At(buf, 10) - U16At(buf, 6) + 1
    ensures r.Ok? ==> r.value.channels == 3 && r.value.format == RGB888 && |r.value.data| == r.value.width * r.value.height * 3
  {
    DecodeFrom(buf, Ok(PaletteStart(buf)))
  }

  // ------------------------------------------------------- what decoding does

  /** A header read from the buffer decides the early errors: the
      manufacturer check, the size and the bit count come from its fields. */
  lemma DecodeReadsHeader(buf: seq<uint8>)
    requires |buf| >= HeaderSize
    ensures var h := ParseHeader(buf);
      (Decode(buf) == Err(UnsupportedManufacturer) <==> h.manufacturer != 0x0A) &&
      (h.manufacturer == 0x0A && h.xmax >= h.xmin && h.ymax >= h.ymin ==>
        (Decode(buf) == Err(UnsupportedBitcount) <==> (h.bitsPerPixel as int) * (h.numColorPlanes as int) != 8)) &&
      (Decode(buf).Ok? ==>
        Decode(buf).value.width == h.xmax - h.xmin + 1 && Decode(buf).value.height == h.ymax - h.ymin + 1 &&
        (h.bitsPerPixel as int) * (h.numColorPlanes as int) == 8)
  {
  }

  /** Running on for `m` more pixels from the state after `n` is running
      for `n + m` pixels. */
  lemma {:induction false} AfterAdd(buf: seq<uint8>, s: Rle, n: nat, m: nat)
    requires After(buf, s, n).Ok?
    ensures After(buf, s, n + m) == After(buf, After(buf, s, n).value, m)
  {
    if m > 0 {
      AfterAdd(buf, s, n, m - 1);
    }
  }

  /** A run byte of length `c` followed by a value gives `c` pixels of
      that value; after the `j`-th of them `c - j` are still pending and
      the next read is right after the value byte. */
  lemma {:induction false} RunOfCopies(buf: seq<uint8>, p: nat, v: uint8, j: nat)
    requires p + 1 < |buf| && IsRunByte(buf[p])
    requires 1 <= j <= RunLength(buf[p])
    ensures After(buf, Rle(p, 0, v), j) == Ok(Rle(p + 2, RunLength(buf[p]) - j, buf[p + 1]))
  {
    if j > 1 {
      RunOfCopies(buf, p, v, j - 1);
    }
  }

  /** A byte that is not a run byte is one pixel of its own value. */
  lemma LiteralPixel(buf: seq<uint8>, p: nat, v: uint8)
    requires p < |buf| && !IsRunByte(buf[p])
    ensures After(buf, Rle(p, 0, v), 1) == Ok(Rle(p + 1, 0, buf[p]))
  {
  }

  /** A run byte of length 0 (0xC0) drives the count below zero: from then
      on nothing is read again and every pixel has the value after it. */
  lemma {:induction false} ZeroRunRepeats(buf: seq<uint8>, p: nat, v: uint8, n: nat)
    requires p + 1 < |buf| && buf[p] == 0xC0
    ensures After(buf, Rle(p, 0, v), n + 1) == Ok(Rle(p + 2, -1 - n, buf[p + 1]))
  {
    if n > 0 {
      ZeroRunRepeats(buf, p, v, n - 1);
    }
  }

  /** One more pixel of the run. */
  lemma RunNext(buf: seq<uint8>, pal: nat, i: nat, d: Decoded, s: Rle, c: seq<uint8>)
    requires Run(buf, pal, i) == Ok(d) && Step(buf, d.rle) == Ok(s) && Colour(buf, pal, s.value) == Ok(c)
    ensures Run(buf, pal, i + 1) == Ok(Decoded(s, d.data + c))
  {
  }

  /** A read past the end stops decoding for good. */
  lemma {:induction false} RunErrSticks(buf: seq<uint8>, pal: nat, k: nat, n: nat)
    requires Run(buf, pal, k).Err? && k <= n
    ensures Run(buf, pal, n) == Err(OutOfBounds)
    decreases n - k
  {
    if k < n {
      RunErrSticks(buf, pal, k + 1, n);
    }
  }

  /** The colour of pixel `j`: the palette entry of the value the decoder
      holds after `j + 1` steps. */
  function PixelColour(buf: seq<uint8>, pal: nat, j: nat): Result<seq<uint8>, LoadError>
  {
    match After(buf, Start, j + 1)
    case Err(e) => Err(e)
    case Ok(s) => Colour(buf, pal, s.value)
  }

  /** The three texels of pixel `j`. */
  function Texel(data: seq<uint8>, j: nat): seq<uint8>
    requires 3 * j + 3 <= |data|
  {
    data[3 * j..3 * j + 3]
  }

  lemma TexelOfAppend(a: seq<uint8>, c: seq<uint8>, j: nat)
    requires 3 * j + 3 <= |a|
    ensures Texel(a + c, j) == Texel(a, j)
  {
  }

  lemma LastTexel(a: seq<uint8>, c: seq<uint8>, j: nat)
    requires |a| == 3 * j && |c| == 3
    ensures Texel(a + c, j) == c
  {
  }

  /** The texels written for the first `k` pixels: each is its pixel's
      colour, and the decoder state is the one after `k` steps. */
  lemma {:induction false} RunPixels(buf: seq<uint8>, pal: nat, k: nat)
    requires Run(buf, pal, k).Ok?
    ensures After(buf, Start, k) == Ok(Run(buf, pal, k).value.rle)
    ensures forall j :: 0 <= j < k ==>
      PixelColour(buf, pal, j).Ok? && Texel(Run(buf, pal, k).value.data, j) == PixelColour(buf, pal, j).value
  {
    if k > 0 {
      var d := Run(buf, pal, k - 1).value;
      RunPixels(buf, pal, k - 1);
      var s := Step(buf, d.rle).value;
      var c := Colour(buf, pal, s.value).value;
      var out := Run(buf, pal, k).value.data;
      assert out == d.data + c;
      assert PixelColour(buf, pal, k - 1) == Ok(c);
      forall j | 0 <= j < k
        ensures PixelColour(buf, pal, j).Ok? && Texel(out, j) == PixelColour(buf, pal, j).value
      {
        if j < k - 1 {
          TexelOfAppend(d.data, c, j);
        } else {
          LastTexel(d.data, c, j);
        }
      }
    }
  }

  /** The run semantics on a decoded image: when the decoder, after `k`
      pixels, reads a run byte of length `c`, pixels `k` to `k + c - 1` all
      have the colour of the byte after it. */
  lemma DecodedRun(buf: seq<uint8>, k: nat, p: nat, x: uint8, j: nat)
    requires Decode(buf).Ok?
    requires After(buf, Start, k) == Ok(Rle(p, 0, x))
    requires p + 1 < |buf| && IsRunByte(buf[p])
    requires k <= j < k + RunLength(buf[p]) && j < Decode(buf).value.width * Decode(buf).value.height
    ensures Colour(buf, PaletteStart(buf), buf[p + 1]).Ok?
    ensures Texel(Decode(buf).value.data, j) == Colour(buf, PaletteStart(buf), buf[p + 1]).value
  {
    var pal := PaletteStart(buf);
    var n := Width(buf) * Height(buf);
    DecodedIsRun(buf);
    RunPixels(buf, pal, n);
    AfterAdd(buf, Start, k, j + 1 - k);
    RunOfCopies(buf, p, x, j + 1 - k);
    assert After(buf, Start, j + 1) == Ok(Rle(p + 2, RunLength(buf[p]) - (j + 1 - k), buf[p + 1]));
    assert PixelColour(buf, pal, j) == Colour(buf, pal, buf[p + 1]);
  }

  /** A decoded image's texels are those of the run over all its pixels. */
  lemma DecodedIsRun(buf: seq<uint8>)
    requires Decode(buf).Ok?
    ensures |buf| >= 12 && Run(buf, PaletteStart(buf), Width(buf) * Height(buf)).Ok?
    ensures Decode(buf).value.width * Decode(buf).value.height == Width(buf) * Height(buf)
    ensures Decode(buf).value.data == Run(buf, PaletteStart(buf), Width(buf) * Height(buf)).value.data
  {
  }

  /** The trailing palette holds a colour for every byte value; the header
      palette holds the first 16, and a larger value reads on past it. */
  lemma PaletteColours(buf: seq<uint8>, v: uint8)
    ensures PaletteStart(buf) != HeaderPaletteOffset ==> Colour(buf, PaletteStart(buf), v).Ok?
    ensures |buf| >= HeaderSize && PaletteStart(buf) == HeaderPaletteOffset && v < 16 ==>
      Colour(buf, PaletteStart(buf), v) == Ok(ParseHeader(buf).palette[3 * v..3 * v + 3])
  {
    if |buf| >= HeaderSize && PaletteStart(buf) == HeaderPaletteOffset && v < 16 {
      var pal := ParseHeader(buf).palette;
      var at: nat := 3 * v;
      assert at + 3 <= 48;
      assert pal == buf[16..64];
      assert pal[at] == buf[16 + at] && pal[at + 1] == buf[16 + at + 1] && pal[at + 2] == buf[16 + at + 2];
      assert pal[at..at + 3] == [buf[16 + at], buf[16 + at + 1], buf[16 + at + 2]];
    }
  }

  // ------------------------------------------- the palette marker finding

  /** As written, a buffer of fewer than 769 bytes that passes the header
      checks fails on the marker read, whatever its pixels. */
  lemma AsWrittenRejectsSmallFiles(buf: seq<uint8>)
    requires |buf| < 769
    requires |buf| >= 66 && buf[0] == 0x0A && Width(buf) > 0 && Height(buf) > 0
    requires (buf[3] as int) * (buf[65] as int) == 8
    ensures DecodeAsWritten(buf) == Err(OutOfBounds)
  {
  }

  /** The two decoders agree on every buffer that holds a marker byte. */
  lemma DecodeAgreesOnLargeFiles(buf: seq<uint8>)
    requires 769 <= |buf| < 0x1_0000_0000_0000_0000 - 769
    ensures DecodeAsWritten(buf) == Decode(buf)
  {
    PaletteStartAgrees(buf);
  }

  /** A 1x1 image of 129 bytes: the header, then one literal pixel of
      value 0, whose colour is the first entry of the header palette. */
  function TinyImage(): (b: seq<uint8>)
    ensures |b| == HeaderSize + 1
  {
    HeaderBytes(Header(0x0A, 5, 1, 8, 0, 0, 0, 0, 72, 72, seq(48, i => i), 0, 1, 1, 1, 0, 0, seq(54, _ => 0))) + [0]
  }

  lemma TinyImageBytes()
    ensures var b := TinyImage();
      b[0] == 0x0A && b[3] == 8 && b[65] == 1 && b[128] == 0 &&
      b[4] == 0 && b[5] == 0 && b[6] == 0 && b[7] == 0 && b[8] == 0 && b[9] == 0 && b[10] == 0 && b[11] == 0 &&
      b[16] == 0 && b[17] == 1 && b[18] == 2
  {
  }

  /** The as-written decoder rejects the tiny image; the corrected one
      decodes it to the header palette's first colour. */
  lemma TinyImageDecodes()
    ensures DecodeAsWritten(TinyImage()) == Err(OutOfBounds)
    ensures Decode(TinyImage()) == Ok(Texture(1, 1, 3, RGB888, UnsignedByte, [0, 1, 2]))
  {
    var b := TinyImage();
    TinyImageBytes();
    assert Width(b) == 1 && Height(b) == 1 && PaletteStart(b) == 16;
    assert Step(b, Start) == Ok(Rle(129, 0, 0));
    assert Colour(b, 16, 0) == Ok([0, 1, 2]);
    RunNext(b, 16, 0, Decoded(Start, []), Rle(129, 0, 0), [0, 1, 2]);
    assert [] + [0, 1, 2] == [0, 1, 2];
    assert PaletteStartAsWritten(b) == Err(OutOfBounds);
  }

  // ------------------------------------------------------------ the loader

  /** PCXLoader::do_load: the header checks, the palette choice, then one
      pass over the pixels that reads the next byte whenever no run is
      pending and writes three palette bytes per pixel. */
  method DoLoad(buffer: seq<uint8>) returns (result: Result<Texture, LoadError>)
    ensures result == Decode(buffer)
  {
    if |buffer| < 1 {
      return Err(OutOfBounds);
    }
    if buffer[0] != 0x0A {
      return Err(UnsupportedManufacturer);
    }
    if |buffer| < 12 {
      return Err(OutOfBounds);
    }
    var width := U16At(buffer, 8) - U16At(buffer, 4) + 1;
    var height := U16At(buffer, 10) - U16At(buffer, 6) + 1;
    if width <= 0 || height <= 0 {
      return Err(InvalidSize);
    }
    if |buffer| < 66 {
      return Err(OutOfBounds);
    }
    var bitcount := (buffer[3] as int) * (buffer[65] as int);
    if bitcount != 8 {
      return Err(UnsupportedBitcount);
    }
    var palette := HeaderPaletteOffset;
    if |buffer| >= 769 && buffer[|buffer| - 769] == 12 {
      palette := |buffer| - 768;
    }
    var data := DecodePixels(buffer, palette, width * height);
    if data.Err? {
      return Err(data.error);
    }
    return Ok(Texture(width, height, 3, RGB888, UnsignedByte, data.value));
  }

  /** The pixel loop: it reads the next byte whenever no run is pending and
      writes three palette bytes per pixel. */
  method DecodePixels(buffer: seq<uint8>, palette: nat, pixels: nat) returns (result: Result<seq<uint8>, LoadError>)
    ensures Run(buffer, palette, pixels).Err? ==> result == Err(OutOfBounds)
    ensures Run(buffer, palette, pixels).Ok? ==> result == Ok(Run(buffer, palette, pixels).value.data)
  {
    var data := new uint8[pixels * 3];
    var imageData: nat, rleCount: int, rleValue: uint8 := HeaderSize, 0, 0;
    var i := 0;
    while i < pixels
      invariant 0 <= i <= pixels
      invariant Run(buffer, palette, i) == Ok(Decoded(Rle(imageData, rleCount, rleValue), data[..3 * i]))
    {
      ghost var before := Decoded(Rle(imageData, rleCount, rleValue), data[..3 * i]);
      var next := NextValue(buffer, Rle(imageData, rleCount, rleValue));
      if next.Err? {
        RunErrSticks(buffer, palette, i + 1, pixels);
        return Err(OutOfBounds);
      }
      imageData, rleCount, rleValue := next.value.pos, next.value.count, next.value.value;
      var at := palette + rleValue * 3;
      if at + 3 > |buffer| {
        RunErrSticks(buffer, palette, i + 1, pixels);
        return Err(OutOfBounds);
      }
      var colour := [buffer[at], buffer[at + 1], buffer[at + 2]];
      WriteTexel(data, 3 * i, colour);
      assert data[..3 * i + 3] == data[..3 * i] + data[3 * i..3 * i + 3];
      RunNext(buffer, palette, i, before, next.value, colour);
      i := i + 1;
    }
    return Ok(data[..3 * i]);
  }

  /** The three channel writes of one pixel: the colour lands at `idx` and
      what lies before it is kept. */
  method WriteTexel(data: array<uint8>, idx: nat, c: seq<uint8>)
    requires |c| == 3 && idx + 3 <= data.Length
    modifies data
    ensures data[..idx] == old(data[..idx]) && data[idx..idx + 3] == c
  {
    data[idx] := c[0];
    data[idx + 1] := c[1];
    data[idx + 2] := c[2];
  }

  /** The decoder state for the next pixel: a fresh read of one byte (two
      for a run) when no run is pending, then the count goes down. */
  method NextValue(buffer: seq<uint8>, s: Rle) returns (next: Result<Rle, LoadError>)
    ensures next == Step(buffer, s)
  {
    var imageData, rleCount, rleValue := s.pos, s.count, s.value;
    if rleCount == 0 {
      if imageData >= |buffer| {
        return Err(OutOfBounds);
      }
      rleValue := buffer[imageData];
      imageData := imageData + 1;
      if IsRunByte(rleValue) {
        rleCount := RunLength(rleValue);
        if imageData >= |buffer| {
          return Err(OutOfBounds);
        }
        rleValue := buffer[imageData];
        imageData := imageData + 1;
      } else {
        rleCount := 1;
      }
    }
    rleCount := rleCount - 1;
    return Ok(Rle(imageData, rleCount, rleValue));
  }
}
