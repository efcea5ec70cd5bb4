/**
 * The reinterpretation between raw bytes and 16-bit PCM samples that the
 * client performs with typed-array views: `new Int16Array(bytes.buffer)` when
 * it plays a fragment (static/script.js:594) and `new Uint8Array(pcm16.buffer)`
 * when it sends a capture frame (static/script.js:638). Typed arrays use the
 * platform byte order, which is little-endian on every platform a browser runs
 * this client on; the model fixes little-endian.
 */
module Pcm {
  import opened Common

  /** One element of a Uint8Array. */
  type byte = x: int | 0 <= x < 0x100

  /** One element of an Int16Array. */
  type Int16 = x: int | -0x8000 <= x < 0x8000

  /** The RangeError an Int16Array view raises over a buffer of odd length. */
  datatype RangeError = OddByteLength(length: nat)

  /** The signed sample stored little-endian in the byte pair (lo, hi). */
  function Word(lo: byte, hi: byte): (v: Int16)
    ensures (lo + 0x100 * hi - v) % 0x1_0000 == 0
    ensures v < 0 <==> hi >= 0x80
  {
    var u := lo + 0x100 * hi;
    if u < 0x8000 then u else u - 0x1_0000
  }

  /** The unsigned 16-bit pattern of a sample (two's complement). */
  function Pattern(v: Int16): (u: int)
    ensures 0 <= u < 0x1_0000
    ensures (u - v) % 0x1_0000 == 0
  {
    if v < 0 then v + 0x1_0000 else v
  }

  function LowByte(v: Int16): byte { Pattern(v) % 0x100 }

  function HighByte(v: Int16): byte { Pattern(v) / 0x100 }

  lemma WordOfSample(v: Int16)
    ensures Word(LowByte(v), HighByte(v)) == v
  {
    var u := Pattern(v);
    assert u == u % 0x100 + 0x100 * (u / 0x100);
  }

  lemma SampleOfWord(lo: byte, hi: byte)
    ensures LowByte(Word(lo, hi)) == lo && HighByte(Word(lo, hi)) == hi
  {
    var u := lo + 0x100 * hi;
    assert Pattern(Word(lo, hi)) == u;
  }

  /** The samples an Int16Array view shows over an even-length buffer. */
  function Pairs(bytes: seq<byte>): (r: seq<Int16>)
    requires |bytes| % 2 == 0
    ensures 2 * |r| == |bytes|
    ensures forall i :: 0 <= i < |r| ==> r[i] == Word(bytes[2 * i], bytes[2 * i + 1])
    decreases |bytes|
  {
    if bytes == [] then []
    else
      var rest := Pairs(bytes[2..]);
      assert forall i :: 0 <= i < |rest| ==> bytes[2..][2 * i] == bytes[2 * (i + 1)];
      [Word(bytes[0], bytes[1])] + rest
  }

  /**
   * `new Int16Array(bytes.buffer)`: one sample per byte pair, or the
   * RangeError raised when the length is odd.
   */
  function Samples(bytes: seq<byte>): (r: Result<seq<Int16>, RangeError>)
    ensures r.Ok? <==> |bytes| % 2 == 0
    ensures r.Err? ==> r.error == OddByteLength(|bytes|)
    ensures r.Ok? ==> 2 * |r.value| == |bytes|
  {
    if |bytes| % 2 == 1 then Err(OddByteLength(|bytes|)) else Ok(Pairs(bytes))
  }

  /** `new Uint8Array(pcm16.buffer)`: two bytes per sample, low byte first. */
  function Bytes(samples: seq<Int16>): (r: seq<byte>)
    ensures |r| == 2 * |samples|
    ensures forall i :: 0 <= i < |samples| ==>
      r[2 * i] == LowByte(samples[i]) && r[2 * i + 1] == HighByte(samples[i])
  {
    if samples == [] then []
    else
      var rest := Bytes(samples[1..]);
      [LowByte(samples[0]), HighByte(samples[0])] + rest
  }

  /** Viewing the bytes of a sample sequence as samples gives the sequence back. */
  lemma {:induction false} SamplesOfBytes(samples: seq<Int16>)
    ensures Samples(Bytes(samples)) == Ok(samples)
  {
    var b := Bytes(samples);
    var r := Pairs(b);
    forall i | 0 <= i < |samples| ensures r[i] == samples[i] {
      WordOfSample(samples[i]);
    }
    assert r == samples;
  }

  /** Viewing an even-length buffer as samples and back again gives the buffer back. */
  lemma {:induction false} BytesOfSamples(bytes: seq<byte>)
    requires |bytes| % 2 == 0
    ensures Samples(bytes).Ok? && Bytes(Samples(bytes).value) == bytes
  {
    var s := Pairs(bytes);
    var b := Bytes(s);
    forall k | 0 <= k < |bytes| ensures b[k] == bytes[k] {
      var i := k / 2;
      SampleOfWord(bytes[2 * i], bytes[2 * i + 1]);
      if k % 2 == 0 {
        assert k == 2 * i;
      } else {
        assert k == 2 * i + 1;
      }
    }
  }
}
