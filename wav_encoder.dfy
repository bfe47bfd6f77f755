/**
 * The voice tool's WAV encoder (`audioBufferToWav` in VoiceOver.tsx).
 *
 * It allocates a zero-filled byte buffer of 44 + frames * channels * 2 bytes,
 * writes the 44-byte header of a RIFF WAVE file with a PCM "fmt " chunk
 * through a little-endian cursor, and then writes each sample as a signed
 * 16-bit little-endian value. Two details of the code are kept as written:
 * the header cursor is reused as the frame index, so the sample loop starts
 * at frame 44 and the end of the data area stays zero; and the branch that
 * picks the negative scale tests `0.5 + sample < 0`, so the scale 32768 is
 * used only below -0.5.
 *
 * `WavBytes` is the specification of the output; `AudioBufferToWav` is the
 * buffer-filling procedure, proved to produce exactly those bytes; the lemmas
 * state what the bytes mean. `WavBytesIntended` is the layout with the frame
 * index starting at 0 and the scale 32768 used for every negative sample.
 */
module WavEncoder {

  type byte = x: int | 0 <= x < 256

  /**
   * The Web Audio buffer given to the encoder: a sample rate and, per
   * channel, `length` samples. Samples are exact reals (no NaN, no rounding).
   */
  datatype AudioBuffer = AudioBuffer(sampleRate: nat, channels: seq<seq<real>>, length: nat) {
    predicate Valid() {
      forall c :: 0 <= c < |channels| ==> |channels[c]| == length
    }
  }

  // ---------------------------------------------------------------------
  // Little-endian integers, as DataView writes them with littleEndian = true.
  // DataView reduces the value modulo 2^16 or 2^32 first; taking each byte
  // with Euclidean division does the same for every integer, negative ones
  // (two's complement) included.
  // ---------------------------------------------------------------------

  /** The two low bytes of `v`, least significant first. */
  function Le16(v: int): seq<byte> {
    [v % 256, (v / 256) % 256]
  }

  /** The four low bytes of `v`, least significant first. */
  function Le32(v: int): seq<byte> {
    [v % 256, (v / 256) % 256, (v / 65536) % 256, (v / 16777216) % 256]
  }

  /** The unsigned 16-bit little-endian value stored at `k`. */
  function Uint16At(s: seq<byte>, k: nat): nat
    requires k + 2 <= |s|
  {
    s[k] as int + 256 * (s[k + 1] as int)
  }

  /** The unsigned 32-bit little-endian value stored at `k`. */
  function Uint32At(s: seq<byte>, k: nat): nat
    requires k + 4 <= |s|
  {
    s[k] as int + 256 * (s[k + 1] as int) + 65536 * (s[k + 2] as int) + 16777216 * (s[k + 3] as int)
  }

  /** The signed (two's complement) 16-bit little-endian value stored at `k`. */
  function Int16At(s: seq<byte>, k: nat): int
    requires k + 2 <= |s|
  {
    var u := Uint16At(s, k);
    if u < 32768 then u else u - 65536
  }

  /** Reading back a 16-bit write gives the value modulo 2^16. */
  lemma Le16Reads(v: int)
    ensures Uint16At(Le16(v), 0) == v % 65536
  {
    var q := v / 256;
    assert v == 256 * q + v % 256;
    assert q == 256 * (q / 256) + q % 256;
    assert v == 65536 * (q / 256) + 256 * (q % 256) + v % 256;
  }

  /** Reading back a 32-bit write gives the value modulo 2^32. */
  lemma Le32Reads(v: int)
    ensures Uint32At(Le32(v), 0) == v % 4294967296
  {
    var q1 := v / 256;
    var q2 := v / 65536;
    var q3 := v / 16777216;
    assert q2 == q1 / 256;
    assert q3 == q2 / 256;
    assert v == 256 * q1 + v % 256;
    assert q1 == 256 * q2 + q1 % 256;
    assert q2 == 256 * q3 + q2 % 256;
    assert q3 == 256 * (q3 / 256) + q3 % 256;
    assert v == 4294967296 * (q3 / 256) + (v % 256 + 256 * (q1 % 256) + 65536 * (q2 % 256) + 16777216 * (q3 % 256));
  }

  /** A 16-bit sample written with `setInt16` reads back unchanged. */
  lemma Int16RoundTrip(s: int)
    requires -32768 <= s <= 32767
    ensures Int16At(Le16(s), 0) == s
  {
    Le16Reads(s);
  }

  /** The four bytes of a RIFF tag such as "WAVE". */
  function FourCC(a: char, b: char, c: char, d: char): seq<byte>
    requires a as int < 256 && b as int < 256 && c as int < 256 && d as int < 256
  {
    [a as int, b as int, c as int, d as int]
  }

  // ---------------------------------------------------------------------
  // Sample quantisation.
  // ---------------------------------------------------------------------

  /** `x | 0` for a value within 32 bits: truncation toward zero. */
  function Trunc(x: real): int {
    if x >= 0.0 then x.Floor else -((-x).Floor)
  }

  /** `Math.max(-1, Math.min(1, x))`. */
  function Clamp(x: real): real {
    var m := if x < 1.0 then x else 1.0;
    if m > -1.0 then m else -1.0
  }

  /**
   * The sample conversion as written: clamp, scale by 32768 when
   * `0.5 + sample < 0` and by 32767 otherwise, truncate toward zero.
   */
  function Quantize(x: real): (r: int)
    ensures -32768 <= r <= 32767
    ensures x >= 1.0 ==> r == 32767
    ensures x <= -1.0 ==> r == -32768
    ensures (x < 0.0 ==> r <= 0) && (x >= 0.0 ==> r >= 0)
  {
    var s := Clamp(x);
    Trunc(if 0.5 + s < 0.0 then s * 32768.0 else s * 32767.0)
  }

  /**
   * The evidently intended conversion: clamp, scale negative samples by
   * 32768 and the others by 32767, truncate toward zero.
   */
  function QuantizeIntended(x: real): (r: int)
    ensures -32768 <= r <= 32767
    ensures x >= 1.0 ==> r == 32767
    ensures x <= -1.0 ==> r == -32768
    ensures (x < 0.0 ==> r <= 0) && (x >= 0.0 ==> r >= 0)
  {
    var s := Clamp(x);
    Trunc(if s < 0.0 then s * 32768.0 else s * 32767.0)
  }

  /** The conversion of the encoder as written, or of the corrected one. */
  function QuantizeOf(intended: bool): real -> int {
    if intended then QuantizeIntended else Quantize
  }

  /** A 16-bit value read back as a sample: negative values over 32768, the others over 32767. */
  function Decode(r: int): real {
    if r < 0 then r as real / 32768.0 else r as real / 32767.0
  }

  function Abs(x: real): real {
    if x < 0.0 then -x else x
  }

  /** Truncation toward zero moves a value by less than one, toward zero. */
  lemma TruncBounds(v: real)
    ensures v >= 0.0 ==> 0.0 <= v - Trunc(v) as real < 1.0 && Trunc(v) >= 0
    ensures v < 0.0 ==> 0.0 <= Trunc(v) as real - v < 1.0 && Trunc(v) <= 0
  {
  }

  /**
   * With the intended conversion, decoding gives back every sample in
   * [-1, 1] to within one quantisation step.
   */
  lemma QuantizeIntendedRoundTrip(x: real)
    requires -1.0 <= x <= 1.0
    ensures Abs(x - Decode(QuantizeIntended(x))) < 1.0 / 32767.0
  {
    assert Clamp(x) == x;
    var r := QuantizeIntended(x);
    if x < 0.0 {
      TruncBounds(x * 32768.0);
      assert 0.0 <= r as real - x * 32768.0 < 1.0;
      if r < 0 {
        assert Decode(r) == r as real / 32768.0;
        assert 0.0 <= Decode(r) - x < 1.0 / 32768.0;
      } else {
        assert r == 0 && Decode(r) == 0.0;
        assert -x < 1.0 / 32768.0;
      }
    } else {
      TruncBounds(x * 32767.0);
      assert 0.0 <= x * 32767.0 - r as real < 1.0;
      assert Decode(r) == r as real / 32767.0;
      assert 0.0 <= x - Decode(r) < 1.0 / 32767.0;
    }
  }

  /**
   * As written, -0.49 takes the 32767 scale and becomes -16055, which
   * decodes to about -0.48996: more than one step away from -0.49.
   */
  lemma QuantizeLosesStep()
    ensures Quantize(-0.49) == -16055
    ensures !(Abs(-0.49 - Decode(Quantize(-0.49))) < 1.0 / 32767.0)
  {
    assert Clamp(-0.49) == -0.49;
    assert -0.49 * 32767.0 == -16055.83;
    assert (16055.83).Floor == 16055;
  }

  /** With the intended conversion, 0.5 becomes 16383 and -0.5 becomes -16384. */
  lemma QuantizeIntendedHalves()
    ensures QuantizeIntended(0.5) == 16383 && QuantizeIntended(-0.5) == -16384
  {
    assert Clamp(0.5) == 0.5 && Clamp(-0.5) == -0.5;
    assert (16383.5).Floor == 16383;
    assert (16384.0).Floor == 16384;
  }

  /** Half scale: 0.5 becomes 16383 and -0.5, which takes the 32767 scale, becomes -16383. */
  lemma QuantizeHalves()
    ensures Quantize(0.5) == 16383 && Quantize(-0.5) == -16383
  {
    assert Clamp(0.5) == 0.5 && Clamp(-0.5) == -0.5;
    assert (16383.5).Floor == 16383;
  }

  // ---------------------------------------------------------------------
  // Frame arithmetic. A frame count times a frame size is written `Mul`,
  // multiplication as repeated addition, so that byte offsets stay sums for
  // the solver; `MulIsProduct` shows that it is the ordinary product.
  // ---------------------------------------------------------------------

  /** `n * w`: n rows of w. */
  function Mul(n: nat, w: nat): nat {
    if n == 0 then 0 else Mul(n - 1, w) + w
  }

  lemma {:induction false} MulIsProduct(n: nat, w: nat)
    ensures Mul(n, w) == n * w
  {
    if n > 0 {
      MulIsProduct(n - 1, w);
    }
  }

  lemma {:induction false} MulMono(m: nat, n: nat, w: nat)
    requires m <= n
    ensures Mul(m, w) <= Mul(n, w)
    decreases n
  {
    if m < n {
      MulMono(m, n - 1, w);
    }
  }

  /** Splitting n rows into n - k rows and k rows. */
  lemma {:induction false} MulSplit(n: nat, k: nat, w: nat)
    requires k <= n
    ensures Mul(n, w) == Mul(n - k, w) + Mul(k, w)
    decreases n
  {
    if k > 0 {
      MulSplit(n - 1, k - 1, w);
    }
  }

  // ---------------------------------------------------------------------
  // The output, byte by byte.
  // ---------------------------------------------------------------------

  function Zeros(n: nat): seq<byte> {
    seq(n, _ => 0)
  }

  function Min(a: int, b: int): int { if a < b then a else b }
  function Max(a: int, b: int): int { if a < b then b else a }

  /** "RIFF", the size of the rest of the file, "WAVE": bytes 0 to 11. */
  function RiffDescriptor(length: int): seq<byte> {
    Le32(0x46464952) + Le32(length - 8) + Le32(0x45564157)
  }

  /** "fmt ", the chunk size 16, format 1 (PCM) and the channel count: bytes 12 to 23. */
  function FmtHead(numOfChan: nat): seq<byte> {
    Le32(0x20746d66) + Le32(16) + Le16(1) + Le16(numOfChan)
  }

  /** Sample rate, byte rate, block align and 16 bits per sample: bytes 24 to 35. */
  function FmtRates(numOfChan: nat, sampleRate: nat): seq<byte> {
    Le32(sampleRate) + Le32(sampleRate * 2 * numOfChan) + Le16(numOfChan * 2) + Le16(16)
  }

  /** "data" and the size of the sample data: bytes 36 to 43. */
  function DataChunkHeader(length: int): seq<byte> {
    Le32(0x61746164) + Le32(length - 44)
  }

  /** The 44 header bytes in the order the cursor writes them. */
  function Header(length: int, numOfChan: nat, sampleRate: nat): seq<byte> {
    RiffDescriptor(length) + FmtHead(numOfChan) + FmtRates(numOfChan, sampleRate) + DataChunkHeader(length)
  }

  /** The bytes of channels 0 .. n-1 of frame `f`, in channel order, each sample converted by `q`. */
  function ChannelBytes(b: AudioBuffer, f: nat, n: nat, q: real -> int): (r: seq<byte>)
    requires b.Valid() && f < b.length && n <= |b.channels|
    ensures |r| == 2 * n
  {
    if n == 0 then [] else ChannelBytes(b, f, n - 1, q) + Le16(q(b.channels[n - 1][f]))
  }

  /** The bytes of frames lo .. hi-1, one after the other. */
  function FramesBetween(b: AudioBuffer, lo: nat, hi: nat, q: real -> int): seq<byte>
    requires b.Valid() && (hi <= lo || hi <= b.length)
    decreases hi
  {
    if hi <= lo then []
    else FramesBetween(b, lo, hi - 1, q) + ChannelBytes(b, hi - 1, |b.channels|, q)
  }

  /** Each frame takes 2 bytes per channel. */
  lemma {:induction false} FramesBetweenLength(b: AudioBuffer, lo: nat, hi: nat, q: real -> int)
    requires b.Valid() && lo <= hi <= b.length
    ensures |FramesBetween(b, lo, hi, q)| == Mul(hi - lo, 2 * |b.channels|)
    decreases hi
  {
    if lo < hi {
      FramesBetweenLength(b, lo, hi - 1, q);
      assert Mul(hi - lo, 2 * |b.channels|) == Mul(hi - 1 - lo, 2 * |b.channels|) + 2 * |b.channels|;
    }
  }

  /** Channel `c` of a frame sits at bytes 2c and 2c+1 of the frame. */
  lemma {:induction false} ChannelBytesAt(b: AudioBuffer, f: nat, n: nat, q: real -> int, c: nat)
    requires b.Valid() && f < b.length && c < n <= |b.channels|
    ensures ChannelBytes(b, f, n, q)[2 * c..2 * c + 2] == Le16(q(b.channels[c][f]))
  {
    var prev := ChannelBytes(b, f, n - 1, q);
    assert ChannelBytes(b, f, n, q) == prev + Le16(q(b.channels[n - 1][f]));
    if c < n - 1 {
      ChannelBytesAt(b, f, n - 1, q, c);
      assert (prev + Le16(q(b.channels[n - 1][f])))[2 * c..2 * c + 2] == prev[2 * c..2 * c + 2];
    }
  }

  /** Sample (f, c) sits at byte (f - lo) * 2 * channels + 2c of the frames lo .. hi-1. */
  lemma {:induction false} FramesBetweenAt(b: AudioBuffer, lo: nat, hi: nat, q: real -> int, f: nat, c: nat)
    requires b.Valid() && lo <= f < hi <= b.length && c < |b.channels|
    ensures Mul(f - lo, 2 * |b.channels|) + 2 * c + 2 <= |FramesBetween(b, lo, hi, q)|
    ensures var k := Mul(f - lo, 2 * |b.channels|) + 2 * c;
            FramesBetween(b, lo, hi, q)[k..k + 2] == Le16(q(b.channels[c][f]))
    decreases hi
  {
    var k := Mul(f - lo, 2 * |b.channels|) + 2 * c;
    var prev := FramesBetween(b, lo, hi - 1, q);
    var last := ChannelBytes(b, hi - 1, |b.channels|, q);
    assert FramesBetween(b, lo, hi, q) == prev + last;
    FramesBetweenLength(b, lo, hi - 1, q);
    if f < hi - 1 {
      FramesBetweenAt(b, lo, hi - 1, q, f, c);
      PairInLeft(prev, last, k);
    } else {
      ChannelBytesAt(b, f, |b.channels|, q, c);
      PairInRight(prev, last, k);
    }
  }

  /** Two bytes inside the first part of a concatenation. */
  lemma PairInLeft(p: seq<byte>, l: seq<byte>, k: nat)
    requires k + 2 <= |p|
    ensures (p + l)[k..k + 2] == p[k..k + 2]
  {
  }

  /** Two bytes inside the second part of a concatenation. */
  lemma PairInRight(p: seq<byte>, l: seq<byte>, k: nat)
    requires |p| <= k && k + 2 <= |p| + |l|
    ensures (p + l)[k..k + 2] == l[k - |p|..k - |p| + 2]
  {
  }

  /** The byte length the encoder allocates: frames * channels * 2 + 44. */
  function WavLength(b: AudioBuffer): nat {
    Mul(b.length, 2 * |b.channels|) + 44
  }

  /**
   * A header, the frames from `from` on converted by `q`, and zeros up to
   * the allocated length.
   */
  function Layout(header: seq<byte>, b: AudioBuffer, from: nat, q: real -> int): seq<byte>
    requires b.Valid()
  {
    header
    + FramesBetween(b, from, Max(from, b.length), q)
    + Zeros(Mul(Min(b.length, from), 2 * |b.channels|))
  }

  /**
   * What `audioBufferToWav` produces: the header, frames 44 onwards, and
   * zeros where the first 44 frames would have gone.
   */
  function WavBytes(b: AudioBuffer): seq<byte>
    requires b.Valid()
  {
    Layout(Header(WavLength(b), |b.channels|, b.sampleRate), b, 44, Quantize)
  }

  /** The evidently intended output: every frame, starting with frame 0, with the intended conversion. */
  function WavBytesIntended(b: AudioBuffer): seq<byte>
    requires b.Valid()
  {
    Layout(Header(WavLength(b), |b.channels|, b.sampleRate), b, 0, QuantizeIntended)
  }

  /** The frames from `from` on and the zeros fill the data area exactly. */
  lemma LayoutSize(len: nat, w: nat, from: nat)
    ensures Mul(len, w) == Mul(Max(from, len) - from, w) + Mul(Min(len, from), w)
  {
    if len >= from {
      MulSplit(len, from, w);
    }
  }

  /** The writes of frame `pos`, after the frames from `from` on, stay inside the buffer. */
  lemma FrameFits(b: AudioBuffer, from: nat, pos: nat, q: real -> int)
    requires b.Valid() && from <= pos < b.length
    ensures 44 + |FramesBetween(b, from, pos, q)| + 2 * |b.channels| <= WavLength(b)
  {
    var w := 2 * |b.channels|;
    FramesBetweenLength(b, from, pos, q);
    assert Mul(pos + 1 - from, w) == Mul(pos - from, w) + w;
    MulMono(pos + 1 - from, b.length, w);
  }

  // ---------------------------------------------------------------------
  // What the bytes mean.
  // ---------------------------------------------------------------------

  /** Whichever frame the data starts at, the output has the allocated length. */
  lemma LayoutLength(header: seq<byte>, b: AudioBuffer, from: nat, q: real -> int)
    requires b.Valid() && |header| == 44
    ensures |Layout(header, b, from, q)| == WavLength(b)
  {
    if b.length >= from {
      FramesBetweenLength(b, from, b.length, q);
    }
    LayoutSize(b.length, 2 * |b.channels|, from);
  }

  /** The bytes of sample (f, c) of the frames from `from` on, inside the output. */
  lemma LayoutSampleAt(header: seq<byte>, b: AudioBuffer, from: nat, q: real -> int, f: nat, c: nat)
    requires b.Valid() && |header| == 44 && from <= f < b.length && c < |b.channels|
    ensures var k := 44 + Mul(f - from, 2 * |b.channels|) + 2 * c;
            k + 2 <= |Layout(header, b, from, q)| &&
            Layout(header, b, from, q)[k..k + 2] == Le16(q(b.channels[c][f]))
  {
    var k := Mul(f - from, 2 * |b.channels|) + 2 * c;
    var fr := FramesBetween(b, from, b.length, q);
    var z := Zeros(Mul(Min(b.length, from), 2 * |b.channels|));
    FramesBetweenAt(b, from, b.length, q, f, c);
    assert Layout(header, b, from, q) == header + fr + z;
    PairInLeft(header + fr, z, 44 + k);
    PairInRight(header, fr, 44 + k);
  }

  /** Two bytes holding a 16-bit sample read back as that sample. */
  lemma SampleReads(s: seq<byte>, k: nat, v: int)
    requires k + 2 <= |s| && s[k..k + 2] == Le16(v) && -32768 <= v <= 32767
    ensures Int16At(s, k) == v
  {
    Int16RoundTrip(v);
    assert s[k..k + 2][0] == s[k] && s[k..k + 2][1] == s[k + 1];
  }

  /** The header is 44 bytes long. */
  lemma HeaderLength(len: int, ch: nat, sr: nat)
    ensures |Header(len, ch, sr)| == 44
  {
  }

  /** `audioBufferToWav` returns 44 + frames * 2 * channels bytes. */
  lemma WavBytesLength(b: AudioBuffer)
    requires b.Valid()
    ensures |WavBytes(b)| == 44 + Mul(b.length, 2 * |b.channels|)
  {
    HeaderLength(WavLength(b), |b.channels|, b.sampleRate);
    LayoutLength(Header(WavLength(b), |b.channels|, b.sampleRate), b, 44, Quantize);
  }

  /**
   * Every written sample reads back as its quantised value: sample c of
   * frame f (f >= 44) is the signed 16-bit value at 44 + (f - 44) * 2 *
   * channels + 2c.
   */
  lemma WavSampleAt(b: AudioBuffer, f: nat, c: nat)
    requires b.Valid() && 44 <= f < b.length && c < |b.channels|
    ensures 44 + Mul(f - 44, 2 * |b.channels|) + 2 * c + 2 <= |WavBytes(b)|
    ensures Int16At(WavBytes(b), 44 + Mul(f - 44, 2 * |b.channels|) + 2 * c) == Quantize(b.channels[c][f])
  {
    var h := Header(WavLength(b), |b.channels|, b.sampleRate);
    var x := b.channels[c][f];
    HeaderLength(WavLength(b), |b.channels|, b.sampleRate);
    assert WavBytes(b) == Layout(h, b, 44, Quantize);
    LayoutSampleAt(h, b, 44, Quantize, f, c);
    SampleReads(WavBytes(b), 44 + Mul(f - 44, 2 * |b.channels|) + 2 * c, Quantize(x));
  }

  /** Past the frames written from `from` on, the output is zero. */
  lemma LayoutZeroTail(header: seq<byte>, b: AudioBuffer, from: nat, q: real -> int, k: nat)
    requires b.Valid() && |header| == 44
    requires 44 + Mul(Max(from, b.length) - from, 2 * |b.channels|) <= k < |Layout(header, b, from, q)|
    ensures Layout(header, b, from, q)[k] == 0
  {
    var fr := FramesBetween(b, from, Max(from, b.length), q);
    var z := Zeros(Mul(Min(b.length, from), 2 * |b.channels|));
    if b.length >= from {
      FramesBetweenLength(b, from, b.length, q);
    }
    assert Layout(header, b, from, q) == (header + fr) + z;
    assert ((header + fr) + z)[k] == z[k - |header + fr|];
  }

  /** After the written frames, the rest of the output is zero. */
  lemma WavZeroTail(b: AudioBuffer, k: nat)
    requires b.Valid()
    requires 44 + Mul(Max(44, b.length) - 44, 2 * |b.channels|) <= k < |WavBytes(b)|
    ensures WavBytes(b)[k] == 0
  {
    var h := Header(WavLength(b), |b.channels|, b.sampleRate);
    HeaderLength(WavLength(b), |b.channels|, b.sampleRate);
    assert WavBytes(b) == Layout(h, b, 44, Quantize);
    LayoutZeroTail(h, b, 44, Quantize, k);
  }

  /** A 32-bit field: the four bytes at `k` are those of `v`. */
  lemma Field32(h: seq<byte>, k: nat, v: int)
    requires k + 4 <= |h| && h[k..k + 4] == Le32(v)
    ensures Uint32At(h, k) == v % 4294967296
  {
    Le32Reads(v);
    assert h[k..k + 4][0] == h[k] && h[k..k + 4][1] == h[k + 1];
    assert h[k..k + 4][2] == h[k + 2] && h[k..k + 4][3] == h[k + 3];
  }

  /** A 16-bit field: the two bytes at `k` are those of `v`. */
  lemma Field16(h: seq<byte>, k: nat, v: int)
    requires k + 2 <= |h| && h[k..k + 2] == Le16(v)
    ensures Uint16At(h, k) == v % 65536
  {
    Le16Reads(v);
    assert h[k..k + 2][0] == h[k] && h[k..k + 2][1] == h[k + 1];
  }

  /** Where each of four consecutive pieces lies in their concatenation. */
  lemma Parts4(p: seq<byte>, q: seq<byte>, r: seq<byte>, t: seq<byte>)
    ensures var s := p + q + r + t;
      s[..|p|] == p && s[|p|..|p| + |q|] == q &&
      s[|p| + |q|..|p| + |q| + |r|] == r && s[|p| + |q| + |r|..] == t
  {
  }

  /** Where each of three consecutive pieces lies in their concatenation. */
  lemma Parts3(p: seq<byte>, q: seq<byte>, r: seq<byte>)
    ensures var s := p + q + r;
      s[..|p|] == p && s[|p|..|p| + |q|] == q && s[|p| + |q|..] == r
  {
  }

  /** A 32-bit field at offset k of a part that sits at offset i. */
  lemma Field32In(h: seq<byte>, i: nat, part: seq<byte>, k: nat, v: int)
    requires i + |part| <= |h| && h[i..i + |part|] == part
    requires k + 4 <= |part| && part[k..k + 4] == Le32(v)
    ensures Uint32At(h, i + k) == v % 4294967296
  {
    assert h[i + k] == part[k] && h[i + k + 1] == part[k + 1];
    assert h[i + k + 2] == part[k + 2] && h[i + k + 3] == part[k + 3];
    Field32(part, k, v);
  }

  /** A 16-bit field at offset k of a part that sits at offset i. */
  lemma Field16In(h: seq<byte>, i: nat, part: seq<byte>, k: nat, v: int)
    requires i + |part| <= |h| && h[i..i + |part|] == part
    requires k + 2 <= |part| && part[k..k + 2] == Le16(v)
    ensures Uint16At(h, i + k) == v % 65536
  {
    assert h[i + k] == part[k] && h[i + k + 1] == part[k + 1];
    Field16(part, k, v);
  }

  /** The first k bytes of a slice are a slice of their own. */
  lemma SliceHead(h: seq<byte>, i: nat, j: nat, k: nat)
    requires i + k <= j <= |h|
    ensures h[i..j][..k] == h[i..i + k]
  {
  }

  /** Where the four parts of the header lie. */
  lemma HeaderParts(len: int, ch: nat, sr: nat)
    ensures var h := Header(len, ch, sr);
      |h| == 44 && h[0..12] == RiffDescriptor(len) && h[12..24] == FmtHead(ch) &&
      h[24..36] == FmtRates(ch, sr) && h[36..44] == DataChunkHeader(len)
  {
    Parts4(RiffDescriptor(len), FmtHead(ch), FmtRates(ch, sr), DataChunkHeader(len));
  }

  /** The four tags, as the little-endian constants the cursor writes. */
  lemma TagConstants()
    ensures Le32(0x46464952) == FourCC('R', 'I', 'F', 'F')
    ensures Le32(0x45564157) == FourCC('W', 'A', 'V', 'E')
    ensures Le32(0x20746d66) == FourCC('f', 'm', 't', ' ')
    ensures Le32(0x61746164) == FourCC('d', 'a', 't', 'a')
  {
  }

  /**
   * The header field by field: the RIFF descriptor, the "fmt " chunk (16
   * bytes, PCM, channels, rate, byte rate, block align, 16 bits) and the
   * "data" chunk header.
   */
  lemma HeaderFields(len: int, ch: nat, sr: nat)
    ensures |Header(len, ch, sr)| == 44
    ensures Header(len, ch, sr)[0..4] == FourCC('R', 'I', 'F', 'F')
    ensures Uint32At(Header(len, ch, sr), 4) == (len - 8) % 4294967296
    ensures Header(len, ch, sr)[8..12] == FourCC('W', 'A', 'V', 'E')
    ensures Header(len, ch, sr)[12..16] == FourCC('f', 'm', 't', ' ')
    ensures Uint32At(Header(len, ch, sr), 16) == 16
    ensures Uint16At(Header(len, ch, sr), 20) == 1
    ensures Uint16At(Header(len, ch, sr), 22) == ch % 65536
    ensures Uint32At(Header(len, ch, sr), 24) == sr % 4294967296
    ensures Uint32At(Header(len, ch, sr), 28) == (sr * 2 * ch) % 4294967296
    ensures Uint16At(Header(len, ch, sr), 32) == (ch * 2) % 65536
    ensures Uint16At(Header(len, ch, sr), 34) == 16
    ensures Header(len, ch, sr)[36..40] == FourCC('d', 'a', 't', 'a')
    ensures Uint32At(Header(len, ch, sr), 40) == (len - 44) % 4294967296
  {
    var h := Header(len, ch, sr);
    HeaderParts(len, ch, sr);
    RiffFields(h, len);
    FmtHeadFields(h, ch);
    FmtRateFields(h, ch, sr);
    DataFields(h, len);
  }

  lemma RiffFields(h: seq<byte>, len: int)
    requires |h| == 44 && h[0..12] == RiffDescriptor(len)
    ensures h[0..4] == FourCC('R', 'I', 'F', 'F') && h[8..12] == FourCC('W', 'A', 'V', 'E')
    ensures Uint32At(h, 4) == (len - 8) % 4294967296
  {
    var r := RiffDescriptor(len);
    Parts3(Le32(0x46464952), Le32(len - 8), Le32(0x45564157));
    TagConstants();
    assert h[0..4] == r[0..4] && h[8..12] == r[8..12];
    Field32In(h, 0, r, 4, len - 8);
  }

  lemma FmtHeadFields(h: seq<byte>, ch: nat)
    requires |h| == 44 && h[12..24] == FmtHead(ch)
    ensures h[12..16] == FourCC('f', 'm', 't', ' ')
    ensures Uint32At(h, 16) == 16 && Uint16At(h, 20) == 1 && Uint16At(h, 22) == ch % 65536
  {
    var f := FmtHead(ch);
    Parts4(Le32(0x20746d66), Le32(16), Le16(1), Le16(ch));
    TagConstants();
    assert f[..4] == Le32(0x20746d66);
    SliceHead(h, 12, 24, 4);
    Field32In(h, 12, f, 4, 16);
    Field16In(h, 12, f, 8, 1);
    Field16In(h, 12, f, 10, ch);
  }

  lemma FmtRateFields(h: seq<byte>, ch: nat, sr: nat)
    requires |h| == 44 && h[24..36] == FmtRates(ch, sr)
    ensures Uint32At(h, 24) == sr % 4294967296
    ensures Uint32At(h, 28) == (sr * 2 * ch) % 4294967296
    ensures Uint16At(h, 32) == (ch * 2) % 65536 && Uint16At(h, 34) == 16
  {
    var f := FmtRates(ch, sr);
    Parts4(Le32(sr), Le32(sr * 2 * ch), Le16(ch * 2), Le16(16));
    Field32In(h, 24, f, 0, sr);
    Field32In(h, 24, f, 4, sr * 2 * ch);
    Field16In(h, 24, f, 8, ch * 2);
    Field16In(h, 24, f, 10, 16);
  }

  lemma DataFields(h: seq<byte>, len: int)
    requires |h| == 44 && h[36..44] == DataChunkHeader(len)
    ensures h[36..40] == FourCC('d', 'a', 't', 'a')
    ensures Uint32At(h, 40) == (len - 44) % 4294967296
  {
    var d := DataChunkHeader(len);
    TagConstants();
    assert d[..4] == Le32(0x61746164) && d[4..] == Le32(len - 44);
    assert h[36..40] == d[..4];
    Field32In(h, 36, d, 4, len - 44);
  }

  /**
   * When every field fits its width, the header fields hold the sizes and
   * formats unchanged.
   */
  lemma HeaderFieldsFit(len: int, ch: nat, sr: nat)
    requires 44 <= len < 4294967296 && ch < 32768 && sr < 4294967296 && sr * 2 * ch < 4294967296
    ensures var h := Header(len, ch, sr);
      Uint32At(h, 4) == len - 8 && Uint32At(h, 40) == len - 44 &&
      Uint16At(h, 22) == ch && Uint32At(h, 24) == sr &&
      Uint16At(h, 32) == 2 * ch && Uint32At(h, 28) == sr * 2 * ch
  {
    HeaderFields(len, ch, sr);
    RateFits(sr, ch);
    SmallMod(len - 8, 4294967296);
    SmallMod(len - 44, 4294967296);
    SmallMod(ch, 65536);
    SmallMod(sr, 4294967296);
    SmallMod(ch * 2, 65536);
    SmallMod(sr * 2 * ch, 4294967296);
  }

  /** A value already inside the field's range is stored unchanged. */
  lemma SmallMod(x: int, m: int)
    requires 0 <= x < m
    ensures x % m == x
  {
  }

  /** A field inside the first 44 bytes reads the same in the whole file as in its header. */
  lemma PrefixField(w: seq<byte>, h: seq<byte>, k: nat)
    requires |h| == 44 <= |w| && w[..44] == h && k + 4 <= 44
    ensures Uint32At(w, k) == Uint32At(h, k) && Uint16At(w, k) == Uint16At(h, k)
  {
    assert w[k] == h[k] && w[k + 1] == h[k + 1] && w[k + 2] == h[k + 2] && w[k + 3] == h[k + 3];
  }

  /**
   * When every field fits its width, the header describes the file it heads:
   * the RIFF size is the file size less 8, the data size the file size less
   * 44, the channel count and rate are the buffer's, the block align is 2
   * bytes per channel and the byte rate is the rate times 2 * channels.
   */
  lemma HeaderDescribesFile(b: AudioBuffer)
    requires b.Valid()
    requires WavLength(b) < 4294967296 && |b.channels| < 32768 && b.sampleRate < 4294967296
    requires b.sampleRate * 2 * |b.channels| < 4294967296
    ensures var w := WavBytes(b);
      |w| == WavLength(b) &&
      Uint32At(w, 4) == |w| - 8 &&
      Uint32At(w, 40) == |w| - 44 &&
      Uint16At(w, 22) == |b.channels| &&
      Uint32At(w, 24) == b.sampleRate &&
      Uint16At(w, 32) == 2 * |b.channels| &&
      Uint32At(w, 28) == b.sampleRate * 2 * |b.channels|
  {
    var h := Header(WavLength(b), |b.channels|, b.sampleRate);
    var w := WavBytes(b);
    WavBytesLength(b);
    WavHeaderPrefix(b);
    HeaderFieldsFit(WavLength(b), |b.channels|, b.sampleRate);
    PrefixField(w, h, 4);
    PrefixField(w, h, 40);
    PrefixField(w, h, 22);
    PrefixField(w, h, 24);
    PrefixField(w, h, 32);
    PrefixField(w, h, 28);
  }

  /** The output starts with the header. */
  lemma WavHeaderPrefix(b: AudioBuffer)
    requires b.Valid()
    ensures |WavBytes(b)| >= 44 && WavBytes(b)[..44] == Header(WavLength(b), |b.channels|, b.sampleRate)
  {
    HeaderLength(WavLength(b), |b.channels|, b.sampleRate);
  }

  /** The byte rate is a natural number. */
  lemma RateFits(sr: nat, ch: nat)
    ensures 0 <= sr * 2 * ch
  {
    MulIsProduct(sr, 2 * ch);
  }

  /** The intended layout holds every frame: sample (f, c) at 44 + f * 2 * channels + 2c. */
  lemma IntendedSampleAt(b: AudioBuffer, f: nat, c: nat)
    requires b.Valid() && f < b.length && c < |b.channels|
    ensures |WavBytesIntended(b)| == WavLength(b)
    ensures 44 + Mul(f, 2 * |b.channels|) + 2 * c + 2 <= |WavBytesIntended(b)|
    ensures Int16At(WavBytesIntended(b), 44 + Mul(f, 2 * |b.channels|) + 2 * c) == QuantizeIntended(b.channels[c][f])
  {
    var h := Header(WavLength(b), |b.channels|, b.sampleRate);
    var x := b.channels[c][f];
    HeaderLength(WavLength(b), |b.channels|, b.sampleRate);
    assert WavBytesIntended(b) == Layout(h, b, 0, QuantizeIntended);
    LayoutLength(h, b, 0, QuantizeIntended);
    LayoutSampleAt(h, b, 0, QuantizeIntended, f, c);
    SampleReads(WavBytesIntended(b), 44 + Mul(f, 2 * |b.channels|) + 2 * c, QuantizeIntended(x));
  }

  /** Three mono samples at 24 kHz: half scale up, half scale down, full scale. */
  const ShortBuffer := AudioBuffer(24000, [[0.5, -0.5, 1.0]], 3)

  /**
   * The data area of the short buffer's output as written is all zeros:
   * the frame loop starts at frame 44, past its three frames.
   */
  lemma ShortBufferIsSilent()
    ensures ShortBuffer.Valid() && WavBytes(ShortBuffer)[44..] == [0, 0, 0, 0, 0, 0]
  {
    var b := ShortBuffer;
    var h := Header(WavLength(b), 1, 24000);
    HeaderLength(WavLength(b), 1, 24000);
    assert Mul(3, 2) == 6;
    assert WavBytes(b) == h + [] + Zeros(6);
  }

  /** The short buffer's frames as the intended encoder writes them: 16383, -16384, 32767. */
  lemma ShortBufferFrames()
    ensures FramesBetween(ShortBuffer, 0, 3, QuantizeIntended) == [0xFF, 0x3F, 0x00, 0xC0, 0xFF, 0x7F]
  {
    var b := ShortBuffer;
    QuantizeIntendedHalves();
    assert ChannelBytes(b, 0, 1, QuantizeIntended) == [0xFF, 0x3F];
    assert ChannelBytes(b, 1, 1, QuantizeIntended) == [0x00, 0xC0];
    assert ChannelBytes(b, 2, 1, QuantizeIntended) == [0xFF, 0x7F];
  }

  /** With the frame loop starting at 0, the short buffer's samples are all there. */
  lemma ShortBufferIntended()
    ensures ShortBuffer.Valid() && WavBytesIntended(ShortBuffer)[44..] == [0xFF, 0x3F, 0x00, 0xC0, 0xFF, 0x7F]
  {
    var b := ShortBuffer;
    var h := Header(WavLength(b), 1, 24000);
    HeaderLength(WavLength(b), 1, 24000);
    ShortBufferFrames();
    assert WavBytesIntended(b) == h + FramesBetween(b, 0, 3, QuantizeIntended) + Zeros(0);
  }

  // ---------------------------------------------------------------------
  // The encoder.
  // ---------------------------------------------------------------------

  /** `DataView.setUint16` / `setInt16` with littleEndian = true. */
  method WriteLe16(view: array<byte>, at: nat, v: int)
    requires at + 2 <= view.Length
    modifies view
    ensures view[..at + 2] == old(view[..at]) + Le16(v)
    ensures forall k :: at + 2 <= k < view.Length ==> view[k] == old(view[k])
  {
    var bytes := Le16(v);
    view[at] := bytes[0];
    view[at + 1] := bytes[1];
  }

  /** `DataView.setUint32` with littleEndian = true. */
  method WriteLe32(view: array<byte>, at: nat, v: int)
    requires at + 4 <= view.Length
    modifies view
    ensures view[..at + 4] == old(view[..at]) + Le32(v)
    ensures forall k :: at + 4 <= k < view.Length ==> view[k] == old(view[k])
  {
    var bytes := Le32(v);
    view[at] := bytes[0];
    view[at + 1] := bytes[1];
    view[at + 2] := bytes[2];
    view[at + 3] := bytes[3];
  }

  /** The encoder's `setUint16` closure: write at the cursor, then advance it by 2. */
  method SetUint16(view: array<byte>, pos: nat, data: int) returns (next: nat)
    requires pos + 2 <= view.Length
    modifies view
    ensures next == pos + 2
    ensures view[..next] == old(view[..pos]) + Le16(data)
    ensures forall k :: next <= k < view.Length ==> view[k] == old(view[k])
  {
    WriteLe16(view, pos, data);
    next := pos + 2;
  }

  /** The encoder's `setUint32` closure: write at the cursor, then advance it by 4. */
  method SetUint32(view: array<byte>, pos: nat, data: int) returns (next: nat)
    requires pos + 4 <= view.Length
    modifies view
    ensures next == pos + 4
    ensures view[..next] == old(view[..pos]) + Le32(data)
    ensures forall k :: next <= k < view.Length ==> view[k] == old(view[k])
  {
    WriteLe32(view, pos, data);
    next := pos + 4;
  }

  /** The header writes of `audioBufferToWav`, from cursor 0 to cursor 44. */
  method WriteHeader(view: array<byte>, numOfChan: nat, sampleRate: nat) returns (pos: nat)
    requires 44 <= view.Length
    modifies view
    ensures pos == 44
    ensures view[..44] == Header(view.Length, numOfChan, sampleRate)
    ensures forall k :: 44 <= k < view.Length ==> view[k] == old(view[k])
  {
    pos := WriteRiffDescriptor(view);
    pos := WriteFmtHead(view, pos, numOfChan);
    pos := WriteFmtRates(view, pos, numOfChan, sampleRate);
    pos := WriteDataChunkHeader(view, pos);
  }

  /** "RIFF", the size of the rest of the file, "WAVE". */
  method WriteRiffDescriptor(view: array<byte>) returns (pos: nat)
    requires 44 <= view.Length
    modifies view
    ensures pos == 12
    ensures view[..12] == RiffDescriptor(view.Length)
    ensures forall k :: 12 <= k < view.Length ==> view[k] == old(view[k])
  {
    var length := view.Length;
    pos := 0;
    assert view[..0] == [];
    pos := SetUint32(view, pos, 0x46464952);
    pos := SetUint32(view, pos, length - 8);
    pos := SetUint32(view, pos, 0x45564157);
  }

  /** The first half of the "fmt " chunk: tag, size 16, PCM, channels. */
  method WriteFmtHead(view: array<byte>, at: nat, numOfChan: nat) returns (pos: nat)
    requires at == 12 && 44 <= view.Length
    modifies view
    ensures pos == 24
    ensures view[..24] == old(view[..12]) + FmtHead(numOfChan)
    ensures forall k :: 24 <= k < view.Length ==> view[k] == old(view[k])
  {
    ghost var before := view[..12];
    pos := SetUint32(view, at, 0x20746d66);
    pos := SetUint32(view, pos, 16);
    pos := SetUint16(view, pos, 1);
    pos := SetUint16(view, pos, numOfChan);
    Regroup4(before, Le32(0x20746d66), Le32(16), Le16(1), Le16(numOfChan));
  }

  /** The second half of the "fmt " chunk: rate, byte rate, block align, bits. */
  method WriteFmtRates(view: array<byte>, at: nat, numOfChan: nat, sampleRate: nat) returns (pos: nat)
    requires at == 24 && 44 <= view.Length
    modifies view
    ensures pos == 36
    ensures view[..36] == old(view[..24]) + FmtRates(numOfChan, sampleRate)
    ensures forall k :: 36 <= k < view.Length ==> view[k] == old(view[k])
  {
    ghost var before := view[..24];
    pos := SetUint32(view, at, sampleRate);
    pos := SetUint32(view, pos, sampleRate * 2 * numOfChan);
    pos := SetUint16(view, pos, numOfChan * 2);
    pos := SetUint16(view, pos, 16);
    Regroup4(before, Le32(sampleRate), Le32(sampleRate * 2 * numOfChan), Le16(numOfChan * 2), Le16(16));
  }

  /** Four writes after a prefix give the prefix followed by the four pieces. */
  lemma Regroup4(o: seq<byte>, p: seq<byte>, q: seq<byte>, r: seq<byte>, t: seq<byte>)
    ensures o + p + q + r + t == o + (p + q + r + t)
  {
  }

  /** "data" and its size, computed from the cursor, which stands at 40 when it is read. */
  method WriteDataChunkHeader(view: array<byte>, at: nat) returns (pos: nat)
    requires at == 36 && 44 <= view.Length
    modifies view
    ensures pos == 44
    ensures view[..44] == old(view[..36]) + DataChunkHeader(view.Length)
    ensures forall k :: 44 <= k < view.Length ==> view[k] == old(view[k])
  {
    var length := view.Length;
    ghost var before := view[..36];
    pos := SetUint32(view, at, 0x61746164);
    pos := SetUint32(view, pos, length - pos - 4);
    AppendAssoc(before, Le32(0x61746164), Le32(length - 44));
  }

  /** Regrouping a concatenation of three byte sequences. */
  lemma AppendAssoc(a: seq<byte>, b: seq<byte>, c: seq<byte>)
    ensures (a + b) + c == a + (b + c)
  {
  }

  /**
   * The inner loop of `audioBufferToWav`: the samples of frame `pos`, one
   * per channel, clamped, scaled and written from `at` on.
   */
  method WriteFrame(view: array<byte>, b: AudioBuffer, channels: seq<seq<real>>, pos: nat, at: nat, intended: bool)
    returns (next: nat)
    requires b.Valid() && channels == b.channels && pos < b.length
    requires at + 2 * |channels| <= view.Length
    modifies view
    ensures next == at + 2 * |channels|
    ensures view[..next] == old(view[..at]) + ChannelBytes(b, pos, |channels|, QuantizeOf(intended))
    ensures forall k :: next <= k < view.Length ==> view[k] == old(view[k])
  {
    ghost var before := view[..at];
    next := at;
    for i := 0 to |channels|
      invariant next == at + 2 * i
      invariant view[..next] == before + ChannelBytes(b, pos, i, QuantizeOf(intended))
      invariant forall k :: next <= k < view.Length ==> view[k] == old(view[k])
    {
      var sample := Clamp(channels[i][pos]);
      var negative := if intended then sample < 0.0 else 0.5 + sample < 0.0;
      var s := Trunc(if negative then sample * 32768.0 else sample * 32767.0);
      assert s == QuantizeOf(intended)(b.channels[i][pos]);
      WriteLe16(view, next, s);
      AppendAssoc(before, ChannelBytes(b, pos, i, QuantizeOf(intended)), Le16(s));
      next := next + 2;
    }
  }

  /** Appending the bytes of frame `pos` extends the frames written so far by one. */
  lemma NextFrame(b: AudioBuffer, header: seq<byte>, from: nat, pos: nat, before: seq<byte>, after: seq<byte>, q: real -> int)
    requires b.Valid() && from <= pos < b.length
    requires before == header + FramesBetween(b, from, pos, q)
    requires after == before + ChannelBytes(b, pos, |b.channels|, q)
    ensures after == header + FramesBetween(b, from, pos + 1, q)
  {
    var f, c := FramesBetween(b, from, pos, q), ChannelBytes(b, pos, |b.channels|, q);
    assert FramesBetween(b, from, pos + 1, q) == f + c;
    AppendAssoc(header, f, c);
  }

  /** The buffer the loops leave behind: header, frames `from` onwards, zero tail. */
  lemma Assemble(header: seq<byte>, b: AudioBuffer, from: nat, v: seq<byte>, pos: nat, n: nat, q: real -> int)
    requires b.Valid() && |header| == 44 && pos == Max(from, b.length) && |v| == WavLength(b)
    requires 44 + n <= |v|
    requires v[..44 + n] == header + FramesBetween(b, from, pos, q)
    requires forall k :: 44 + n <= k < |v| ==> v[k] == 0
    ensures v == Layout(header, b, from, q)
  {
    if b.length >= from {
      FramesBetweenLength(b, from, pos, q);
    }
    LayoutSize(b.length, 2 * |b.channels|, from);
    ZeroSuffix(v, 44 + n);
    assert v == v[..44 + n] + v[44 + n..];
  }

  lemma ZeroSuffix(v: seq<byte>, m: nat)
    requires m <= |v| && forall k :: m <= k < |v| ==> v[k] == 0
    ensures v[m..] == Zeros(|v| - m)
  {
  }

  /**
   * `audioBufferToWav`: allocate, write the header with the cursor, copy the
   * channel arrays, then write frame by frame starting at the cursor, now
   * the frame index, while it is below the buffer length. The result is the
   * byte content of the returned Blob.
   */
  method AudioBufferToWav(buffer: AudioBuffer) returns (view: array<byte>)
    requires buffer.Valid()
    ensures view[..] == WavBytes(buffer)
  {
    var numOfChan := |buffer.channels|;
    var length := WavLength(buffer);
    view := new byte[length](_ => 0);
    var pos: nat := 0;

    pos := WriteHeader(view, numOfChan, buffer.sampleRate);
    ghost var header := view[..44];
    var channels := CopyChannels(buffer);
    pos := WriteFrames(view, buffer, channels, header, pos, false);
  }

  /**
   * The encoder with the frame index starting at 0 instead of at the cursor
   * and the negative scale chosen for every negative sample.
   */
  method AudioBufferToWavIntended(buffer: AudioBuffer) returns (view: array<byte>)
    requires buffer.Valid()
    ensures view[..] == WavBytesIntended(buffer)
  {
    var numOfChan := |buffer.channels|;
    var length := WavLength(buffer);
    view := new byte[length](_ => 0);
    var pos: nat := 0;

    pos := WriteHeader(view, numOfChan, buffer.sampleRate);
    ghost var header := view[..44];
    var channels := CopyChannels(buffer);
    var end := WriteFrames(view, buffer, channels, header, 0, true);
  }

  /** The channel arrays, gathered one by one. */
  method CopyChannels(buffer: AudioBuffer) returns (channels: seq<seq<real>>)
    ensures channels == buffer.channels
  {
    channels := [];
    for i := 0 to |buffer.channels|
      invariant channels == buffer.channels[..i]
    {
      channels := channels + [buffer.channels[i]];
    }
  }

  /**
   * The frame loop of `audioBufferToWav`: starting at frame `from`, while
   * the frame index is below the buffer length, the frame it names is
   * written after the frames before it.
   */
  method WriteFrames(view: array<byte>, buffer: AudioBuffer, channels: seq<seq<real>>, ghost header: seq<byte>,
                     from: nat, intended: bool)
    returns (pos: nat)
    requires buffer.Valid() && channels == buffer.channels
    requires view.Length == WavLength(buffer) && |header| == 44 && view[..44] == header
    requires forall k :: 44 <= k < view.Length ==> view[k] == 0
    modifies view
    ensures pos == Max(from, buffer.length)
    ensures view[..] == Layout(header, buffer, from, QuantizeOf(intended))
  {
    pos := from;
    var offset := 0;
    while pos < buffer.length
      invariant from <= pos <= Max(from, buffer.length)
      invariant 44 + offset <= view.Length && offset == |FramesBetween(buffer, from, pos, QuantizeOf(intended))|
      invariant view[..44 + offset] == header + FramesBetween(buffer, from, pos, QuantizeOf(intended))
      invariant forall k :: 44 + offset <= k < view.Length ==> view[k] == 0
    {
      FrameFits(buffer, from, pos, QuantizeOf(intended));
      ghost var before := view[..44 + offset];
      var next := WriteFrame(view, buffer, channels, pos, 44 + offset, intended);
      NextFrame(buffer, header, from, pos, before, view[..next], QuantizeOf(intended));
      offset := next - 44;
      pos := pos + 1;
    }
    Assemble(header, buffer, from, view[..], pos, offset, QuantizeOf(intended));
  }
}
