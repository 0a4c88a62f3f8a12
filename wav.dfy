/** `audioBufferToWav`: a canonical 16-bit PCM RIFF/WAVE file for a sample
    buffer, written through a DataView over a fresh byte array. The file is
    a 44-byte header (`RIFF` chunk, a 16-byte `fmt ` chunk with format 1,
    a `data` chunk) followed by the samples, frame by frame, each frame
    holding one little-endian 16-bit value per channel. */
module Wav {
  import opened Tracks

  type Byte = b: int | 0 <= b < 0x100

  const HeaderSize: nat := 44

  /** The bytes `DataView.setUint16(off, v, true)` (or `setInt16`) stores for
      an integer `v`: `v` modulo 2^16, low byte first. */
  function Le16(v: int): (r: seq<Byte>)
    ensures |r| == 2
  {
    var u := v % 0x1_0000;
    [u % 0x100, u / 0x100]
  }

  /** The bytes `DataView.setUint32(off, v, true)` stores for an integer `v`:
      `v` modulo 2^32, low byte first. */
  function Le32(v: int): (r: seq<Byte>)
    ensures |r| == 4
  {
    var u := v % 0x1_0000_0000;
    [u % 0x100, (u / 0x100) % 0x100, (u / 0x1_0000) % 0x100, u / 0x100_0000]
  }

  /** The bytes `writeString` stores: `setUint8(charCodeAt(i))` keeps the
      low 8 bits of each UTF-16 code unit. A Dafny `char` is one such unit
      for every character of the Basic Multilingual Plane, which includes
      the four ASCII chunk tags. */
  function Ascii(s: string): (r: seq<Byte>)
    ensures |r| == |s|
    ensures forall i :: 0 <= i < |s| ==> r[i] == (s[i] as int) % 0x100
  {
    seq(|s|, i requires 0 <= i < |s| => (s[i] as int) % 0x100)
  }

  /** A character whose code fits in a byte is stored as its own code. */
  lemma AsciiKeepsCodes(s: string)
    ensures forall i :: 0 <= i < |s| && (s[i] as int) < 0x100 ==> Ascii(s)[i] == s[i] as int
  {
  }

  /** The four chunk tags of a canonical WAVE file, as bytes. */
  lemma ChunkTags()
    ensures Ascii("RIFF") == [0x52, 0x49, 0x46, 0x46]
    ensures Ascii("WAVE") == [0x57, 0x41, 0x56, 0x45]
    ensures Ascii("fmt ") == [0x66, 0x6d, 0x74, 0x20]
    ensures Ascii("data") == [0x64, 0x61, 0x74, 0x61]
  {
  }

  /** Unsigned little-endian readers: the inverses of Le16 and Le32. */
  function ReadU16(w: seq<Byte>, off: nat): nat
    requires off + 2 <= |w|
  {
    w[off] as int + 0x100 * (w[off + 1] as int)
  }

  function ReadU32(w: seq<Byte>, off: nat): nat
    requires off + 4 <= |w|
  {
    w[off] as int + 0x100 * (w[off + 1] as int) + 0x1_0000 * (w[off + 2] as int) + 0x100_0000 * (w[off + 3] as int)
  }

  /** The signed (two's complement) reading of two little-endian bytes. */
  function ReadI16(w: seq<Byte>, off: nat): (v: int)
    requires off + 2 <= |w|
    ensures -0x8000 <= v < 0x8000
  {
    var u := ReadU16(w, off);
    if u >= 0x8000 then u - 0x1_0000 else u
  }

  lemma ReadU16OfLe16(v: int)
    ensures ReadU16(Le16(v), 0) == v % 0x1_0000
  {
  }

  lemma ReadU32OfLe32(v: int)
    ensures ReadU32(Le32(v), 0) == v % 0x1_0000_0000
  {
    var u := v % 0x1_0000_0000;
    var b := Le32(v);
    assert b[0] + 0x100 * (u / 0x100) == u;
    assert (u / 0x100) % 0x100 + 0x100 * (u / 0x1_0000) == u / 0x100;
    assert (u / 0x1_0000) % 0x100 + 0x100 * (u / 0x100_0000) == u / 0x1_0000;
  }

  /** Every 16-bit sample value survives the store and the signed read. */
  lemma ReadI16OfLe16(q: int)
    requires -0x8000 <= q < 0x8000
    ensures ReadI16(Le16(q), 0) == q
  {
    ReadU16OfLe16(q);
  }

  // ---------------------------------------------------------------------
  // Sample conversion

  /** `Math.max(-1, Math.min(1, x))`. */
  function ClampSample(x: real): (s: real)
    ensures -1.0 <= s <= 1.0
    ensures -1.0 <= x <= 1.0 ==> s == x
    ensures x < -1.0 ==> s == -1.0
    ensures x > 1.0 ==> s == 1.0
  {
    Max(-1.0, Min(1.0, x))
  }

  /** JavaScript's ToInt16 first truncates toward zero. */
  function Trunc(v: real): (n: int)
    ensures v >= 0.0 ==> n as real <= v < n as real + 1.0
    ensures v < 0.0 ==> n as real - 1.0 < v <= n as real
  {
    if v < 0.0 then -((-v).Floor) else v.Floor
  }

  /** The 16-bit value written for sample `x`: clamp to [-1, 1], scale
      negative values by 32768 and the others by 32767, truncate toward 0. */
  function Quantize(x: real): (q: int)
    ensures -0x8000 <= q <= 0x7FFF
    ensures ClampSample(x) < 0.0 ==> q <= 0 && q as real - 1.0 < ClampSample(x) * 32768.0 <= q as real
    ensures ClampSample(x) >= 0.0 ==> q >= 0 && q as real <= ClampSample(x) * 32767.0 < q as real + 1.0
    ensures x <= -1.0 ==> q == -0x8000
    ensures x >= 1.0 ==> q == 0x7FFF
  {
    var sample := ClampSample(x);
    Trunc(if sample < 0.0 then sample * 32768.0 else sample * 32767.0)
  }

  /** Reading a stored value back as a fraction of full scale recovers the
      clamped sample to within one quantization step. */
  lemma QuantizeError(x: real)
    ensures var q := Quantize(x);
            var back := if q < 0 then q as real / 32768.0 else q as real / 32767.0;
            -1.0 / 32767.0 < back - ClampSample(x) < 1.0 / 32767.0
  {
    var q := Quantize(x);
    var s := ClampSample(x);
    if s < 0.0 {
      if q < 0 {
        assert q as real / 32768.0 - s < 1.0 / 32768.0;
      } else {
        assert q == 0;
        assert s * 32768.0 > -1.0;
      }
    } else {
      assert q as real / 32767.0 - s > -1.0 / 32767.0;
    }
  }

  // ---------------------------------------------------------------------
  // Layout

  /** The 44 header bytes, each field at its fixed offset: the tags `RIFF`,
      `WAVE`, `fmt ` and `data` at 0, 8, 12 and 36, and between them the
      RIFF size `36 + dataBytes`, fmt size 16, format 1, the channel count,
      the sample rate, the byte rate, the block align, 16 bits per sample and
      the data size. */
  predicate HeaderLayout(w: seq<Byte>, numChannels: nat, sampleRate: nat, blockAlign: nat, byteRate: nat, dataBytes: nat)
    requires |w| >= HeaderSize
  {
    && w[0..4] == Ascii("RIFF") && w[4..8] == Le32(36 + dataBytes) && w[8..12] == Ascii("WAVE")
    && w[12..16] == Ascii("fmt ") && w[16..20] == Le32(16) && w[20..22] == Le16(1)
    && w[22..24] == Le16(numChannels) && w[24..28] == Le32(sampleRate)
    && w[28..32] == Le32(byteRate) && w[32..34] == Le16(blockAlign) && w[34..36] == Le16(16)
    && w[36..40] == Ascii("data") && w[40..44] == Le32(dataBytes)
  }

  /** The header depends on the first 44 bytes only. */
  lemma HeaderLayoutOfPrefix(w: seq<Byte>, w': seq<Byte>, numChannels: nat, sampleRate: nat, blockAlign: nat, byteRate: nat, dataBytes: nat)
    requires |w| >= HeaderSize && |w'| >= HeaderSize
    requires forall k :: 0 <= k < HeaderSize ==> w[k] == w'[k]
    requires HeaderLayout(w, numChannels, sampleRate, blockAlign, byteRate, dataBytes)
    ensures HeaderLayout(w', numChannels, sampleRate, blockAlign, byteRate, dataBytes)
  {
    assert w[..HeaderSize] == w'[..HeaderSize];
  }

  /** Byte offset of frame i, channel c: `44 + i * blockAlign + c * 2`. */
  function SampleOffset(numChannels: nat, i: nat, c: nat): nat
  {
    HeaderSize + i * (numChannels * 2) + c * 2
  }

  lemma MulLe(a: nat, b: nat, m: nat)
    requires a <= b
    ensures a * m <= b * m
  {
  }

  /** Samples are laid out in (frame, channel) order without overlap. */
  lemma SampleOffsetBefore(nc: nat, i: nat, c: nat, i': nat, c': nat)
    requires c < nc && c' < nc
    requires i < i' || (i == i' && c < c')
    ensures SampleOffset(nc, i, c) + 2 <= SampleOffset(nc, i', c')
  {
    if i < i' {
      MulLe(i + 1, i', nc * 2);
      assert (i + 1) * (nc * 2) == i * (nc * 2) + nc * 2;
    }
  }

  /** Frame i of `b` is stored in `w`: for each channel c, the converted
      sample at `SampleOffset(nc, i, c)`. */
  predicate FrameIn(w: seq<Byte>, b: AudioBuffer, i: nat)
    requires WellFormed(b) && i < b.length
  {
    var nc := |b.channels|;
    forall c :: 0 <= c < nc ==>
      SampleOffset(nc, i, c) + 2 <= |w| && w[SampleOffset(nc, i, c)..SampleOffset(nc, i, c) + 2] == Le16(Quantize(b.channels[c][i]))
  }

  /** What `audioBufferToWav(b)` returns: the header, then every frame. */
  predicate WavLayout(w: seq<Byte>, b: AudioBuffer)
    requires WellFormed(b)
  {
    var nc := |b.channels|;
    && |w| == HeaderSize + b.length * (nc * 2)
    && HeaderLayout(w, nc, b.sampleRate, nc * 2, b.sampleRate * (nc * 2), b.length * (nc * 2))
    && forall i :: 0 <= i < b.length ==> FrameIn(w, b, i)
  }

  // ---------------------------------------------------------------------
  // The encoder

  /** The bytes of `bytes` sit in `view` from `off` on. */
  ghost predicate Holds(view: array<Byte>, off: nat, bytes: seq<Byte>)
    reads view
  {
    off + |bytes| <= view.Length && forall j :: 0 <= j < |bytes| ==> view[off + j] == bytes[j]
  }

  /** Stores `bytes` from `off` on, touching nothing else; `setUint16` and
      `setUint32` are this with Le16 and Le32. */
  method SetBytes(view: array<Byte>, off: nat, bytes: seq<Byte>)
    requires off + |bytes| <= view.Length
    modifies view
    ensures Holds(view, off, bytes)
    ensures forall k :: 0 <= k < view.Length && !(off <= k < off + |bytes|) ==> view[k] == old(view[k])
  {
    for j := 0 to |bytes|
      invariant forall k :: 0 <= k < j ==> view[off + k] == bytes[k]
      invariant forall k :: 0 <= k < view.Length && !(off <= k < off + j) ==> view[k] == old(view[k])
    {
      view[off + j] := bytes[j];
    }
  }

  /** `writeString`: one `setUint8` per character. */
  method WriteString(view: array<Byte>, off: nat, s: string)
    requires off + |s| <= view.Length
    modifies view
    ensures Holds(view, off, Ascii(s))
    ensures forall k :: 0 <= k < view.Length && !(off <= k < off + |s|) ==> view[k] == old(view[k])
  {
    for i := 0 to |s|
      invariant forall k :: 0 <= k < i ==> view[off + k] == (s[k] as int) % 0x100
      invariant forall k :: 0 <= k < view.Length && !(off <= k < off + i) ==> view[k] == old(view[k])
    {
      view[off + i] := (s[i] as int) % 0x100;
    }
  }

  /** `DataView.setInt16(off, v, true)` for a number `v`. */
  method SetInt16(view: array<Byte>, off: nat, v: real)
    requires off + 2 <= view.Length
    modifies view
    ensures Holds(view, off, Le16(Trunc(v)))
    ensures forall k :: 0 <= k < view.Length && !(off <= k < off + 2) ==> view[k] == old(view[k])
  {
    SetBytes(view, off, Le16(Trunc(v)));
  }

  /** What `bytes` stored from `off` on reads as in the whole array. */
  lemma HoldsSlice(view: array<Byte>, off: nat, bytes: seq<Byte>)
    requires Holds(view, off, bytes)
    ensures view[..][off..off + |bytes|] == bytes
  {
  }

  lemma HeaderFromHolds(view: array<Byte>, numChannels: nat, sampleRate: nat, length: nat)
    requires view.Length >= HeaderSize
    requires var blockAlign := numChannels * 2;
      && Holds(view, 0, Ascii("RIFF")) && Holds(view, 4, Le32(36 + length * blockAlign))
      && Holds(view, 8, Ascii("WAVE")) && Holds(view, 12, Ascii("fmt ")) && Holds(view, 16, Le32(16))
      && Holds(view, 20, Le16(1)) && Holds(view, 22, Le16(numChannels)) && Holds(view, 24, Le32(sampleRate))
      && Holds(view, 28, Le32(sampleRate * blockAlign)) && Holds(view, 32, Le16(blockAlign))
      && Holds(view, 34, Le16(16)) && Holds(view, 36, Ascii("data")) && Holds(view, 40, Le32(length * blockAlign))
    ensures HeaderLayout(view[..], numChannels, sampleRate, numChannels * 2, sampleRate * (numChannels * 2), length * (numChannels * 2))
  {
    var blockAlign := numChannels * 2;
    HoldsSlice(view, 0, Ascii("RIFF"));
    HoldsSlice(view, 4, Le32(36 + length * blockAlign));
    HoldsSlice(view, 8, Ascii("WAVE"));
    HoldsSlice(view, 12, Ascii("fmt "));
    HoldsSlice(view, 16, Le32(16));
    HoldsSlice(view, 20, Le16(1));
    HoldsSlice(view, 22, Le16(numChannels));
    HoldsSlice(view, 24, Le32(sampleRate));
    HoldsSlice(view, 28, Le32(sampleRate * blockAlign));
    HoldsSlice(view, 32, Le16(blockAlign));
    HoldsSlice(view, 34, Le16(16));
    HoldsSlice(view, 36, Ascii("data"));
    HoldsSlice(view, 40, Le32(length * blockAlign));
  }

  /** The header writes of `audioBufferToWav`, at offsets 0 to 40. */
  method WriteHeader(view: array<Byte>, numChannels: nat, sampleRate: nat, length: nat)
    requires view.Length >= HeaderSize
    modifies view
    ensures HeaderLayout(view[..], numChannels, sampleRate, numChannels * 2, sampleRate * (numChannels * 2), length * (numChannels * 2))
    ensures forall k :: HeaderSize <= k < view.Length ==> view[k] == old(view[k])
  {
    var format := 1;
    var bitDepth := 16;
    var blockAlign := numChannels * (bitDepth / 8);
    WriteString(view, 0, "RIFF");
    SetBytes(view, 4, Le32(36 + length * blockAlign));
    WriteString(view, 8, "WAVE");
    WriteString(view, 12, "fmt ");
    SetBytes(view, 16, Le32(16));
    SetBytes(view, 20, Le16(format));
    SetBytes(view, 22, Le16(numChannels));
    SetBytes(view, 24, Le32(sampleRate));
    SetBytes(view, 28, Le32(sampleRate * blockAlign));
    SetBytes(view, 32, Le16(blockAlign));
    SetBytes(view, 34, Le16(bitDepth));
    WriteString(view, 36, "data");
    SetBytes(view, 40, Le32(length * blockAlign));
    HeaderFromHolds(view, numChannels, sampleRate, length);
  }

  /** The body of the inner loop: clamp, scale by 32768 or 32767, and
      `setInt16` at `off`. */
  method WriteSample(view: array<Byte>, off: nat, x: real)
    requires off + 2 <= view.Length
    modifies view
    ensures Holds(view, off, Le16(Quantize(x)))
    ensures forall k :: 0 <= k < view.Length && !(off <= k < off + 2) ==> view[k] == old(view[k])
  {
    var sample := Max(-1.0, Min(1.0, x));
    var int16 := if sample < 0.0 then sample * 32768.0 else sample * 32767.0;
    assert Trunc(int16) == Quantize(x);
    SetInt16(view, off, int16);
  }

  /** One pass of the inner (channel) loop of `audioBufferToWav`: frame i
      is converted and stored, and nothing before it changes. */
  method WriteFrame(view: array<Byte>, buffer: AudioBuffer, i: nat)
    requires WellFormed(buffer) && i < buffer.length
    requires view.Length == HeaderSize + buffer.length * (|buffer.channels| * 2)
    modifies view
    ensures FrameIn(view[..], buffer, i)
    ensures forall k :: 0 <= k < SampleOffset(|buffer.channels|, i, 0) ==> view[k] == old(view[k])
  {
    var numChannels := |buffer.channels|;
    var frameStart := SampleOffset(numChannels, i, 0);
    FrameFits(numChannels, buffer.length, i);
    for channel := 0 to numChannels
      invariant forall k :: 0 <= k < frameStart ==> view[k] == old(view[k])
      invariant forall c :: 0 <= c < channel ==> Holds(view, frameStart + c * 2, Le16(Quantize(buffer.channels[c][i])))
    {
      WriteSample(view, frameStart + channel * 2, buffer.channels[channel][i]);
    }
    forall c | 0 <= c < numChannels
      ensures view[..][frameStart + c * 2..frameStart + c * 2 + 2] == Le16(Quantize(buffer.channels[c][i]))
    {
      HoldsSlice(view, frameStart + c * 2, Le16(Quantize(buffer.channels[c][i])));
    }
  }

  /** A stored frame survives any change made only at or above `bound`,
      when all of its bytes lie below `bound`. */
  lemma FrameKept(w: seq<Byte>, w': seq<Byte>, b: AudioBuffer, i: nat, bound: nat)
    requires WellFormed(b) && i < b.length && FrameIn(w, b, i)
    requires bound <= |w| && bound <= |w'|
    requires forall c :: 0 <= c < |b.channels| ==> SampleOffset(|b.channels|, i, c) + 2 <= bound
    requires forall k :: 0 <= k < bound ==> w[k] == w'[k]
    ensures FrameIn(w', b, i)
  {
    var nc := |b.channels|;
    forall c | 0 <= c < nc
      ensures w'[SampleOffset(nc, i, c)..SampleOffset(nc, i, c) + 2] == Le16(Quantize(b.channels[c][i]))
    {
      var off := SampleOffset(nc, i, c);
      assert w[off..off + 2] == w'[off..off + 2];
    }
  }

  /** Frames before frame i lie below its first byte, so they survive
      anything that changes only bytes from there on. */
  lemma FramesKept(w: seq<Byte>, w': seq<Byte>, b: AudioBuffer, i: nat)
    requires WellFormed(b) && i < b.length
    requires SampleOffset(|b.channels|, i, 0) <= |w| && SampleOffset(|b.channels|, i, 0) <= |w'|
    requires forall k :: 0 <= k < SampleOffset(|b.channels|, i, 0) ==> w[k] == w'[k]
    requires forall i' :: 0 <= i' < i ==> FrameIn(w, b, i')
    ensures forall i' :: 0 <= i' < i ==> FrameIn(w', b, i')
  {
    var nc := |b.channels|;
    forall i' | 0 <= i' < i
      ensures FrameIn(w', b, i')
    {
      forall c | 0 <= c < nc
        ensures SampleOffset(nc, i', c) + 2 <= SampleOffset(nc, i, 0)
      {
        SampleOffsetBefore(nc, i', c, i, 0);
      }
      FrameKept(w, w', b, i', SampleOffset(nc, i, 0));
    }
  }

  /** All of frame i lies inside the file. */
  lemma FrameFits(nc: nat, frames: nat, i: nat)
    requires i < frames
    ensures SampleOffset(nc, i, 0) + nc * 2 <= HeaderSize + frames * (nc * 2)
  {
    MulLe(i + 1, frames, nc * 2);
    assert (i + 1) * (nc * 2) == i * (nc * 2) + nc * 2;
  }

  /** The interleaving loop of `audioBufferToWav`: frame by frame, channel
      by channel, one converted sample at `SampleOffset(nc, i, c)`. */
  method WriteSamples(view: array<Byte>, buffer: AudioBuffer)
    requires WellFormed(buffer)
    requires view.Length == HeaderSize + buffer.length * (|buffer.channels| * 2)
    modifies view
    ensures forall k :: 0 <= k < HeaderSize ==> view[k] == old(view[k])
    ensures forall i :: 0 <= i < buffer.length ==> FrameIn(view[..], buffer, i)
  {
    var i := 0;
    while i < buffer.length
      invariant 0 <= i <= buffer.length
      invariant forall k :: 0 <= k < HeaderSize ==> view[k] == old(view[k])
      invariant forall i' :: 0 <= i' < i ==> FrameIn(view[..], buffer, i')
    {
      ghost var before := view[..];
      FrameFits(|buffer.channels|, buffer.length, i);
      WriteFrame(view, buffer, i);
      FramesKept(before, view[..], buffer, i);
      i := i + 1;
    }
  }

  method AudioBufferToWav(buffer: AudioBuffer) returns (wav: seq<Byte>)
    requires WellFormed(buffer)
    ensures WavLayout(wav, buffer)
  {
    var numChannels := |buffer.channels|;
    // 16 bits per sample: two bytes per channel in every frame.
    var blockAlign := numChannels * 2;
    var view := new Byte[HeaderSize + buffer.length * blockAlign];
    WriteWav(view, buffer);
    wav := view[..];
  }

  /** The writes of `audioBufferToWav` into a view of the right size: the
      header, then every frame. */
  method WriteWav(view: array<Byte>, buffer: AudioBuffer)
    requires WellFormed(buffer)
    requires view.Length == HeaderSize + buffer.length * (|buffer.channels| * 2)
    modifies view
    ensures WavLayout(view[..], buffer)
  {
    WriteHeader(view, |buffer.channels|, buffer.sampleRate, buffer.length);
    ghost var header := view[..];
    WriteSamples(view, buffer);
    LayoutOfParts(header, view[..], buffer);
  }

  /** A header written first and frames written after it make the file. */
  lemma LayoutOfParts(header: seq<Byte>, w: seq<Byte>, b: AudioBuffer)
    requires WellFormed(b)
    requires var nc := |b.channels|;
      && |header| == |w| == HeaderSize + b.length * (nc * 2)
      && HeaderLayout(header, nc, b.sampleRate, nc * 2, b.sampleRate * (nc * 2), b.length * (nc * 2))
    requires forall k :: 0 <= k < HeaderSize ==> header[k] == w[k]
    requires forall i :: 0 <= i < b.length ==> FrameIn(w, b, i)
    ensures WavLayout(w, b)
  {
    var nc := |b.channels|;
    HeaderLayoutOfPrefix(header, w, nc, b.sampleRate, nc * 2, b.sampleRate * (nc * 2), b.length * (nc * 2));
  }

  // ---------------------------------------------------------------------
  // Reading the file back

  /** The header fields as a WAV reader sees them. */
  datatype WavInfo = WavInfo(
    riffSize: nat, fmtSize: nat, audioFormat: nat, numChannels: nat, sampleRate: nat,
    byteRate: nat, blockAlign: nat, bitsPerSample: nat, dataSize: nat)

  /** A reader for the canonical 44-byte header: the four chunk tags at
      offsets 0, 8, 12 and 36, and the little-endian fields between them. */
  function ParseHeader(w: seq<Byte>): Option<WavInfo>
  {
    if |w| < HeaderSize || w[0..4] != Ascii("RIFF") || w[8..12] != Ascii("WAVE")
       || w[12..16] != Ascii("fmt ") || w[36..40] != Ascii("data")
    then None
    else Some(WavInfo(ReadU32(w, 4), ReadU32(w, 16), ReadU16(w, 20), ReadU16(w, 22), ReadU32(w, 24),
                      ReadU32(w, 28), ReadU16(w, 32), ReadU16(w, 34), ReadU32(w, 40)))
  }

  /** The header reads back field for field: RIFF size `36 + dataBytes`,
      fmt size 16, PCM format 1, and the channel count, sample rate, byte
      rate, block align, 16 bits per sample and data size it was written
      with, as long as each value fits its 16- or 32-bit field. */
  lemma HeaderRoundTrip(w: seq<Byte>, numChannels: nat, sampleRate: nat, blockAlign: nat, byteRate: nat, dataBytes: nat)
    requires |w| >= HeaderSize && HeaderLayout(w, numChannels, sampleRate, blockAlign, byteRate, dataBytes)
    requires numChannels < 0x1_0000 && blockAlign < 0x1_0000 && sampleRate < 0x1_0000_0000
    requires byteRate < 0x1_0000_0000 && 36 + dataBytes < 0x1_0000_0000
    ensures ParseHeader(w) == Some(WavInfo(36 + dataBytes, 16, 1, numChannels, sampleRate, byteRate, blockAlign, 16, dataBytes))
  {
    FieldAt32(w, 4, 36 + dataBytes);
    FieldAt32(w, 16, 16);
    FieldAt16(w, 20, 1);
    FieldAt16(w, 22, numChannels);
    FieldAt32(w, 24, sampleRate);
    FieldAt32(w, 28, byteRate);
    FieldAt16(w, 32, blockAlign);
    FieldAt16(w, 34, 16);
    FieldAt32(w, 40, dataBytes);
  }

  lemma FieldAt16(w: seq<Byte>, off: nat, v: nat)
    requires off + 2 <= |w| && w[off..off + 2] == Le16(v) && v < 0x1_0000
    ensures ReadU16(w, off) == v
  {
    assert w[off] == Le16(v)[0] && w[off + 1] == Le16(v)[1];
    ReadU16OfLe16(v);
  }

  lemma FieldAt32(w: seq<Byte>, off: nat, v: nat)
    requires off + 4 <= |w| && w[off..off + 4] == Le32(v) && v < 0x1_0000_0000
    ensures ReadU32(w, off) == v
  {
    var f := Le32(v);
    assert w[off] == f[0] && w[off + 1] == f[1] && w[off + 2] == f[2] && w[off + 3] == f[3];
    ReadU32OfLe32(v);
  }

  /** Frame i of channel c reads back as the converted sample: no value
      wraps around. */
  lemma SampleRoundTrip(w: seq<Byte>, b: AudioBuffer, i: nat, c: nat)
    requires WellFormed(b) && WavLayout(w, b)
    requires i < b.length && c < |b.channels|
    ensures SampleOffset(|b.channels|, i, c) + 2 <= |w|
    ensures ReadI16(w, SampleOffset(|b.channels|, i, c)) == Quantize(b.channels[c][i])
  {
    assert FrameIn(w, b, i);
    var off := SampleOffset(|b.channels|, i, c);
    var q := Quantize(b.channels[c][i]);
    assert w[off..off + 2] == Le16(q);
    assert w[off] == Le16(q)[0] && w[off + 1] == Le16(q)[1];
    ReadI16OfLe16(q);
  }
}
