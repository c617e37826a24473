/** Writing 16-bit mono WAV files and finding their samples again. */
module Wav {
  import opened Common

  /** to_le_bytes for 32 bits. */
  function Le32(n: u32): Bytes {
    [n % 256, n / 256 % 256, n / 65536 % 256, n / 16777216]
  }

  /** The two little-endian bytes of a signed sample. */
  function SampleLe(s: Sample): Bytes {
    var u: nat := if s < 0 then s + 65536 else s;
    [u % 256, u / 256]
  }

  /** i16::from_le_bytes. */
  function SampleOf(lo: byte, hi: byte): Sample {
    var u := lo + 256 * hi;
    if u < 32768 then u else u - 65536
  }

  lemma SampleRoundTrip(s: Sample)
    ensures SampleOf(SampleLe(s)[0], SampleLe(s)[1]) == s
  {
  }

  const RIFF: Bytes := [82, 73, 70, 70]
  const WAVE: Bytes := [87, 65, 86, 69]
  const FMT: Bytes := [102, 109, 116, 32]
  const DATA: Bytes := [100, 97, 116, 97]

  const HEADER_BYTES: nat := 44

  /** The data length field: twice the sample count, cut to 32 bits. */
  function DataLen(count: nat): u32 {
    (2 * count) % U32_LIMIT
  }

  /** The RIFF size field; the sum wraps at 32 bits. */
  function FileLen(count: nat): u32 {
    (36 + DataLen(count)) % U32_LIMIT
  }

  function RiffPart(count: nat): Bytes {
    RIFF + Le32(FileLen(count)) + WAVE
  }

  /** The byte rate field; the product wraps at 32 bits. */
  function ByteRate(rate: u32): u32 {
    (2 * rate) % U32_LIMIT
  }

  /** PCM, mono, sample rate, byte rate, block align 2, 16 bits per sample. */
  function FormatPart(rate: u32): Bytes {
    FMT + [16, 0, 0, 0, 1, 0, 1, 0] + Le32(rate) + Le32(ByteRate(rate)) + [2, 0, 16, 0]
  }

  function DataPart(count: nat): Bytes {
    DATA + Le32(DataLen(count))
  }

  function Header(count: nat, rate: u32): (h: Bytes)
    ensures |h| == HEADER_BYTES
  {
    RiffPart(count) + FormatPart(rate) + DataPart(count)
  }

  function SamplesLe(samples: seq<Sample>): (b: Bytes)
    ensures |b| == 2 * |samples|
  {
    if samples == [] then []
    else SamplesLe(samples[..|samples| - 1]) + SampleLe(samples[|samples| - 1])
  }

  /** encode_wav_16bit_mono. */
  method EncodeWav(samples: seq<Sample>, rate: u32) returns (wav: Bytes)
    ensures wav == Header(|samples|, rate) + SamplesLe(samples)
  {
    hide Header;
    wav := Header(|samples|, rate);
    ghost var header := wav;
    for i := 0 to |samples|
      invariant wav == header + SamplesLe(samples[..i])
    {
      wav := wav + SampleLe(samples[i]);
      assert samples[..i + 1][..i] == samples[..i];
    }
    assert samples[..|samples|] == samples;
  }

  predicate MarkerAt(wav: Bytes, i: nat) {
    i + 8 < |wav| && wav[i..i + 4] == DATA
  }

  function FirstMarker(wav: Bytes, from: nat): (r: Option<nat>)
    ensures r.Some? ==> r.value >= from && MarkerAt(wav, r.value)
    decreases if from < |wav| then |wav| - from else 0
  {
    if from + 8 >= |wav| then None
    else if MarkerAt(wav, from) then Some(from)
    else FirstMarker(wav, from + 1)
  }

  /** What is left after the marker and the size that follows it, or after a standard header. */
  function Strip(wav: Bytes): Bytes {
    match FirstMarker(wav, 0)
    case Some(i) => wav[i + 8..]
    case None => if |wav| > HEADER_BYTES then wav[HEADER_BYTES..] else []
  }

  /** strip_wav_header, as a search from the front. */
  method StripWavHeader(wav: Bytes) returns (pcm: Bytes)
    ensures pcm == Strip(wav)
  {
    var i := 0;
    while i + 8 < |wav|
      invariant FirstMarker(wav, 0) == FirstMarker(wav, i)
    {
      if wav[i..i + 4] == DATA {
        var start := i + 8;
        if start <= |wav| {
          return wav[start..];
        }
      }
      i := i + 1;
    }
    pcm := if |wav| > HEADER_BYTES then wav[HEADER_BYTES..] else [];
  }

  lemma {:induction false} FirstMarkerSkips(wav: Bytes, first: nat, last: nat)
    requires first <= last
    requires forall i: nat | first <= i < last :: !MarkerAt(wav, i)
    ensures FirstMarker(wav, first) == FirstMarker(wav, last)
    decreases last
  {
    hide MarkerAt;
    if first < last {
      FirstMarkerSkips(wav, first, last - 1);
    }
  }

  /** chunks_exact(2) read as samples. */
  function DecodePairs(b: Bytes): (samples: seq<Sample>)
    ensures |samples| == |b| / 2
  {
    if |b| < 2 then [] else [SampleOf(b[0], b[1])] + DecodePairs(b[2..])
  }

  lemma {:induction false} DecodeAppend(b: Bytes, lo: byte, hi: byte)
    requires |b| % 2 == 0
    ensures DecodePairs(b + [lo, hi]) == DecodePairs(b) + [SampleOf(lo, hi)]
  {
    if b == [] {
      assert ([] + [lo, hi])[2..] == [];
    } else {
      assert (b + [lo, hi])[2..] == b[2..] + [lo, hi];
      DecodeAppend(b[2..], lo, hi);
    }
  }

  lemma {:induction false} SamplesRoundTrip(samples: seq<Sample>)
    ensures DecodePairs(SamplesLe(samples)) == samples
  {
    if samples != [] {
      var n := |samples| - 1;
      SamplesRoundTrip(samples[..n]);
      SampleRoundTrip(samples[n]);
      DecodeAppend(SamplesLe(samples[..n]), SampleLe(samples[n])[0], SampleLe(samples[n])[1]);
      assert SampleLe(samples[n]) == [SampleLe(samples[n])[0], SampleLe(samples[n])[1]];
    }
  }

  // ---- Where the marker can be ----

  // ---- The fields of the header ----

  /** The value of a little-endian field. */
  function LittleEndian(s: Bytes): nat {
    if s == [] then 0 else s[0] + 256 * LittleEndian(s[1..])
  }

  lemma TwoBytes(a: byte, b: byte)
    ensures LittleEndian([a, b]) == a + 256 * b
  {
    assert [a, b][1..] == [b] && [b][1..] == [];
    assert LittleEndian([b][1..]) == 0 && LittleEndian([b]) == b;
  }

  lemma FourDigits(a: byte, b: byte, c: byte, d: byte)
    ensures LittleEndian([a, b, c, d]) == a + 256 * b + 65536 * c + 16777216 * d
  {
    assert [a, b, c, d][1..] == [b, c, d] && [b, c, d][1..] == [c, d];
    TwoBytes(c, d);
    assert LittleEndian([b, c, d]) == b + 256 * LittleEndian([c, d]);
  }

  lemma Quotients(n: nat)
    ensures n == n % 256 + 256 * (n / 256 % 256) + 65536 * (n / 65536 % 256) + 16777216 * (n / 16777216)
  {
    var q := n / 256;
    DivideTwice(n, 256);
    DivideTwice(n, 65536);
    DivideTwice(q, 256);
    var p := n / 65536;
    assert q / 256 == p && p / 256 == n / 16777216;
  }

  lemma FourBytes(n: u32)
    ensures LittleEndian(Le32(n)) == n
  {
    hide LittleEndian;
    FourDigits(n % 256, n / 256 % 256, n / 65536 % 256, n / 16777216);
    Quotients(n);
  }

  lemma SampleField(s: Sample)
    ensures LittleEndian(SampleLe(s)) == if s < 0 then s + 65536 else s
  {
    TwoBytes(SampleLe(s)[0], SampleLe(s)[1]);
  }

  /** What each field of the header says, by its offset in the file. */
  lemma HeaderFields(count: nat, rate: u32)
    ensures var h := Header(count, rate);
            && h[..4] == RIFF && h[8..12] == WAVE && h[12..16] == FMT && h[36..40] == DATA
            && LittleEndian(h[4..8]) == (36 + 2 * count % U32_LIMIT) % U32_LIMIT
            && LittleEndian(h[20..22]) == 1 && LittleEndian(h[22..24]) == 1
            && LittleEndian(h[24..28]) == rate && LittleEndian(h[28..32]) == 2 * rate % U32_LIMIT
            && LittleEndian(h[32..34]) == 2 && LittleEndian(h[34..36]) == 16
            && LittleEndian(h[40..44]) == 2 * count % U32_LIMIT
  {
    hide Le32, LittleEndian;
    var h := Header(count, rate);
    LengthOfLe32(FileLen(count));
    LengthOfLe32(rate);
    LengthOfLe32(ByteRate(rate));
    LengthOfLe32(DataLen(count));
    FourBytes(FileLen(count));
    FourBytes(rate);
    FourBytes(ByteRate(rate));
    FourBytes(DataLen(count));
    assert h[4..8] == Le32(FileLen(count)) && h[40..44] == Le32(DataLen(count));
    assert h[12..36] == FormatPart(rate);
    FormatFields(rate);
    var f := FormatPart(rate);
    assert h[20..22] == f[8..10] && h[22..24] == f[10..12] && h[24..28] == f[12..16];
    assert h[28..32] == f[16..20] && h[32..34] == f[20..22] && h[34..36] == f[22..24];
  }

  lemma LengthOfLe32(n: u32)
    ensures |Le32(n)| == 4
  {
  }

  lemma FormatFields(rate: u32)
    ensures var f := FormatPart(rate);
            && |f| == 24 && f[..4] == FMT && f[8..10] == [1, 0] && f[10..12] == [1, 0]
            && f[12..16] == Le32(rate) && f[16..20] == Le32(ByteRate(rate)) && f[20..22] == [2, 0] && f[22..24] == [16, 0]
    ensures LittleEndian([1, 0]) == 1 && LittleEndian([2, 0]) == 2 && LittleEndian([16, 0]) == 16
  {
    hide Le32, LittleEndian;
    LengthOfLe32(rate);
    LengthOfLe32(ByteRate(rate));
    TwoBytes(1, 0);
    TwoBytes(2, 0);
    TwoBytes(16, 0);
  }

  /** The rates the pipeline uses. */
  predicate KnownRate(rate: u32) {
    rate == 8000 || rate == 16000 || rate == 24000
  }

  lemma FormatBytes(rate: u32)
    requires KnownRate(rate)
    ensures |FormatPart(rate)| == 24 && DATA[0] !in FormatPart(rate)
  {
    RateBytes(rate);
    hide Le32;
  }

  lemma RateBytes(rate: u32)
    requires KnownRate(rate)
    ensures |Le32(rate)| == 4 && DATA[0] !in Le32(rate)
    ensures |Le32(ByteRate(rate))| == 4 && DATA[0] !in Le32(ByteRate(rate))
  {
  }

  /** Outside the size field no header byte before the data chunk is the letter d. */
  lemma HeaderBytes(count: nat, rate: u32)
    requires KnownRate(rate)
    ensures var h := Header(count, rate);
            && (forall i | 0 <= i < 36 && !(4 <= i < 8) :: h[i] != DATA[0])
            && h[4..8] == Le32(FileLen(count))
            && h[8] == 87
            && h[36..40] == DATA
  {
    hide FileLen, DataLen, FormatPart;
    FormatBytes(rate);
    var f := FormatPart(rate);
    forall i | 12 <= i < 36 ensures Header(count, rate)[i] != DATA[0] {
      assert Header(count, rate)[i] == f[i - 12] && f[i - 12] in f;
    }
  }

  /** The bytes of the size field that spell the marker. */
  const MARKER_LEN: u32 := 0x6174_6164

  lemma MarkerLenSpells(n: u32)
    ensures Le32(n) == DATA <==> n == MARKER_LEN
  {
  }

  /** Before the data chunk the marker occurs at most once: at the size field. */
  lemma EarlyMarker(wav: Bytes, count: nat, rate: u32, i: nat)
    requires KnownRate(rate) && |wav| >= HEADER_BYTES && wav[..HEADER_BYTES] == Header(count, rate)
    requires i < 36
    ensures MarkerAt(wav, i) <==> i == 4 && FileLen(count) == MARKER_LEN && i + 8 < |wav|
  {
    hide Header, FileLen, Le32;
    HeaderBytes(count, rate);
    MarkerLenSpells(FileLen(count));
    var h := Header(count, rate);
    assert forall j | 0 <= j < HEADER_BYTES :: wav[j] == h[j];
    assert wav[4..8] == h[4..8];
    if 4 < i < 8 {
      assert wav[i..i + 4][8 - i] == 87;
    } else if i != 4 && i + 4 <= |wav| {
      assert wav[i..i + 4][0] != DATA[0];
    }
  }

  lemma DataMarker(wav: Bytes, count: nat, rate: u32)
    requires KnownRate(rate) && |wav| > HEADER_BYTES && wav[..HEADER_BYTES] == Header(count, rate)
    ensures MarkerAt(wav, 36)
  {
    hide Header;
    HeaderBytes(count, rate);
    assert wav[36..40] == wav[..HEADER_BYTES][36..40];
  }

  /** Stripping an encoded file leaves the sample bytes, unless the size field spells the marker. */
  lemma StripEncoded(wav: Bytes, count: nat, rate: u32)
    requires KnownRate(rate) && |wav| >= HEADER_BYTES && wav[..HEADER_BYTES] == Header(count, rate)
    ensures FileLen(count) != MARKER_LEN ==> Strip(wav) == wav[HEADER_BYTES..]
    ensures FileLen(count) == MARKER_LEN ==> Strip(wav) == wav[12..]
  {
    hide Header, FileLen, MarkerAt;
    forall i: nat | i < 36 ensures MarkerAt(wav, i) <==> i == 4 && FileLen(count) == MARKER_LEN && i + 8 < |wav| {
      EarlyMarker(wav, count, rate, i);
    }
    if FileLen(count) == MARKER_LEN {
      FirstMarkerSkips(wav, 0, 4);
    } else {
      FirstMarkerSkips(wav, 0, 36);
      if |wav| > HEADER_BYTES {
        DataMarker(wav, count, rate);
      }
    }
  }

  /**
   * Stripping an encoded file and reading its pairs gives back the samples exactly when the RIFF
   * size field does not itself spell "data".
   */
  lemma WavRoundTrip(samples: seq<Sample>, rate: u32)
    requires KnownRate(rate)
    ensures DecodePairs(Strip(Header(|samples|, rate) + SamplesLe(samples))) == samples
            <==> FileLen(|samples|) != MARKER_LEN
  {
    hide Header, SamplesLe, FileLen, DecodePairs, Strip;
    var h, body := Header(|samples|, rate), SamplesLe(samples);
    var wav := h + body;
    assert wav[..HEADER_BYTES] == h && wav[HEADER_BYTES..] == body;
    StripEncoded(wav, |samples|, rate);
    SamplesRoundTrip(samples);
    assert |DecodePairs(wav[12..])| == |samples| + 16;
  }

  /** A file whose size field spells the marker is stripped too early and does not round-trip. */
  lemma MarkerLenOccurs()
    ensures exists count: nat :: FileLen(count) == MARKER_LEN && 36 + 2 * count < U32_LIMIT
  {
    assert FileLen(0x30BA_30A0) == MARKER_LEN;
  }

  /** Writing a file and stripping it again, end to end. */
  method RoundTrip(samples: seq<Sample>, rate: u32) returns (back: seq<Sample>)
    requires KnownRate(rate)
    ensures back == samples <==> FileLen(|samples|) != MARKER_LEN
  {
    hide Header, SamplesLe, Strip;
    var wav := EncodeWav(samples, rate);
    var pcm := StripWavHeader(wav);
    WavRoundTrip(samples, rate);
    back := DecodePairs(pcm);
  }
}
