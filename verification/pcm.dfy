/**
 * Decoding of the Gemini speech reply: the base64-decoded payload is a
 * byte string of 16-bit little-endian signed PCM samples, read two bytes
 * at a time into an `Int16Array` whose length is half the byte count.
 */
module Pcm {

  newtype byte = x: int | 0 <= x < 256

  type int16 = x: int | -32768 <= x < 32768

  /** `lo & 0xFF | hi << 8` on 16-bit words: the byte lanes do not overlap, so the OR is a sum. */
  lemma OrOfByteLanes(lo: bv16, hi: bv16)
    requires lo < 256 && hi < 256
    ensures lo | (hi << 8) == lo + hi * 256
  {
  }

  /** The two bytes of one sample as an unsigned 16-bit value (the OR above, as an integer). */
  function Combine(lo: byte, hi: byte): (u: int)
    ensures 0 <= u < 65536
    ensures u % 256 == lo as int && u / 256 == hi as int
  {
    lo as int + 256 * hi as int
  }

  /** Storing into an `Int16Array` keeps the value modulo 2^16, read as two's complement. */
  function ToInt16(u: int): (x: int16)
    ensures (x - u) % 65536 == 0
  {
    var m := u % 65536;
    if m >= 32768 then m - 65536 else m
  }

  /** The signed sample a pair of bytes holds. */
  function SampleAt(b: seq<byte>, i: nat): (x: int16)
    requires 2 * i + 1 < |b|
    // the high byte's top bit is the sign
    ensures x == b[2 * i] as int + 256 * b[2 * i + 1] as int - (if b[2 * i + 1] >= 128 then 65536 else 0)
  {
    ToInt16(Combine(b[2 * i], b[2 * i + 1]))
  }

  /** The decoded samples: one per complete byte pair; an odd trailing byte is dropped. */
  function Decode(b: seq<byte>): (r: seq<int16>)
    ensures |r| == |b| / 2
    ensures forall i :: 0 <= i < |r| ==> r[i] == SampleAt(b, i)
  {
    seq(|b| / 2, i requires 0 <= i < |b| / 2 => SampleAt(b, i))
  }

  /** The copy loop of the player, writing `buffer[i]` from bytes `2i` and `2i+1`. */
  method DecodeLoop(b: seq<byte>) returns (buffer: seq<int16>)
    ensures buffer == Decode(b)
  {
    var n := |b| / 2;
    buffer := [];
    var i := 0;
    while i < n
      invariant 0 <= i <= n
      invariant |buffer| == i
      invariant forall k :: 0 <= k < i ==> buffer[k] == SampleAt(b, k)
    {
      assert 2 * i + 1 < |b|;
      var x := ToInt16(Combine(b[2 * i], b[2 * i + 1]));
      assert x == SampleAt(b, i);
      buffer := buffer + [x];
      i := i + 1;
    }
    assert |buffer| == |Decode(b)|;
  }

  /** Little-endian encoding of samples: the format the speech service produces. */
  function Encode(samples: seq<int16>): (b: seq<byte>)
    ensures |b| == 2 * |samples|
  {
    if samples == [] then []
    else
      var u := if samples[0] < 0 then samples[0] as int + 65536 else samples[0] as int;
      [(u % 256) as byte, (u / 256) as byte] + Encode(samples[1..])
  }

  /** Decoding undoes encoding: every sample survives the byte round trip. */
  lemma {:induction false} DecodeEncode(samples: seq<int16>)
    ensures Decode(Encode(samples)) == samples
  {
    if samples != [] {
      var b := Encode(samples);
      var rest := Encode(samples[1..]);
      DecodeEncode(samples[1..]);
      assert b[2..] == rest;
      forall i | 0 <= i < |samples|
        ensures Decode(b)[i] == samples[i]
      {
        if i > 0 {
          assert SampleAt(b, i) == SampleAt(rest, i - 1);
          assert Decode(rest)[i - 1] == samples[1..][i - 1];
        }
      }
    }
  }

  /** A trailing unpaired byte does not change the decoded samples. */
  lemma OddTrailingByteIgnored(b: seq<byte>, extra: byte)
    requires |b| % 2 == 0
    ensures Decode(b + [extra]) == Decode(b)
  {
    var c := b + [extra];
    assert |c| / 2 == |b| / 2;
    forall i | 0 <= i < |b| / 2
      ensures SampleAt(c, i) == SampleAt(b, i)
    {
      assert c[2 * i] == b[2 * i] && c[2 * i + 1] == b[2 * i + 1];
    }
  }
}
