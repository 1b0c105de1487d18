/** The Unreal Engine 2 "compact index": the variable-length integer the package
    library uses for every name and object reference (BufferUtil.getCompactInt /
    putCompactInt). The first byte holds the sign in bit 7, a continuation flag
    in bit 6 and the six lowest magnitude bits; each following byte holds a
    continuation flag in bit 7 and seven more bits, except the fifth, which holds
    the last five bits and no flag. */
module Compact {
  import opened JavaLib

  /** The values the encoder accepts: every int except Integer.MIN_VALUE, whose
      Math.abs is still negative. */
  type CompactValue = v: int | -0x7FFF_FFFF <= v <= 0x7FFF_FFFF

  function Abs(v: int): nat { if v < 0 then -v else v }

  /** The encoding of `v`. */
  function Encode(v: CompactValue): (r: seq<Byte>)
    ensures 1 <= |r| <= 5
  {
    var m := Abs(v);
    if m < 64 then [FirstByte(v)]
    else
      TailLength(m / 64);
      [FirstByte(v)] + EncodeTail(m / 64)
  }

  /** Sign in bit 7, continuation in bit 6, the six lowest magnitude bits. */
  function FirstByte(v: CompactValue): Byte
  {
    var m := Abs(v);
    (if v < 0 then 128 else 0) + (if m < 64 then m else 64 + m % 64)
  }

  lemma FirstByteFields(v: CompactValue)
    ensures (FirstByte(v) >= 128) == (v < 0)
    ensures Continues(FirstByte(v)) == (Abs(v) >= 64)
    ensures FirstByte(v) % 64 == Abs(v) % 64
  {
  }

  /** The continuation bytes that carry `n`, seven bits at a time. */
  function EncodeTail(n: nat): (r: seq<Byte>)
    requires n > 0
    ensures |r| >= 1
  {
    if n < 128 then [n] else [128 + n % 128] + EncodeTail(n / 128)
  }

  function Pow128(k: nat): (p: nat)
    ensures p >= 1
  {
    if k == 0 then 1 else 128 * Pow128(k - 1)
  }

  lemma {:induction false} TailLength(n: nat)
    requires 0 < n < 32 * Pow128(3)
    ensures |EncodeTail(n)| <= 4
  {
    TailFits(n, 4);
  }

  lemma {:induction false} TailFits(n: nat, k: nat)
    requires 1 <= k && 0 < n < 32 * Pow128(k - 1)
    ensures |EncodeTail(n)| <= k
    decreases k
  {
    if n >= 128 {
      assert k > 1;
      TailFits(n / 128, k - 1);
    }
  }

  /** getCompactInt: the value and the position just after it. */
  function Decode(s: seq<Byte>, pos: nat): (r: Result<(int, nat)>)
    ensures r.Ok? ==> pos < r.value.1 <= |s| && r.value.1 <= pos + 5
    ensures r.Err? ==> r.error == BufferUnderflow
  {
    if pos >= |s| then Err(BufferUnderflow)
    else
      var b := s[pos];
      if !Continues(b) then Ok((Signed(b, b % 64), pos + 1))
      else
        var t :- DecodeTail(s, pos + 1, 4);
        Ok((Signed(b, b % 64 + 64 * t.0), t.1))
  }

  /** getCompactInt returns a Java int. */
  lemma DecodeRange(s: seq<Byte>, pos: nat)
    ensures Decode(s, pos).Ok? ==> -TWO_31 <= Decode(s, pos).value.0 < TWO_31
  {
  }

  /** Bit 6 of the first byte: more bytes follow. */
  predicate Continues(first: Byte)
  {
    64 <= first < 128 || 192 <= first
  }

  /** The position just after the compact index at `pos`, found from the
      continuation flags alone: what a caller that discards the value
      (getCompactInt used to skip a reference) relies on. */
  function Skip(s: seq<Byte>, pos: nat): (r: Result<nat>)
    ensures r.Ok? ==> pos < r.value <= |s|
  {
    if pos >= |s| then Err(BufferUnderflow)
    else if !Continues(s[pos]) then Ok(pos + 1)
    else SkipTail(s, pos + 1, 4)
  }

  function SkipTail(s: seq<Byte>, pos: nat, k: nat): (r: Result<nat>)
    requires 1 <= k
    ensures r.Ok? ==> pos < r.value <= |s|
    decreases k
  {
    if pos >= |s| then Err(BufferUnderflow)
    else if k == 1 || s[pos] < 128 then Ok(pos + 1)
    else SkipTail(s, pos + 1, k - 1)
  }

  lemma {:induction false} SkipTailAgrees(s: seq<Byte>, pos: nat, k: nat)
    requires 1 <= k
    ensures DecodeTail(s, pos, k).Ok? == SkipTail(s, pos, k).Ok?
    ensures DecodeTail(s, pos, k).Ok? ==> DecodeTail(s, pos, k).value.1 == SkipTail(s, pos, k).value
    decreases k
  {
    if pos < |s| && k > 1 && s[pos] >= 128 {
      SkipTailAgrees(s, pos + 1, k - 1);
    }
  }

  /** Skipping an index fails exactly when decoding it fails, and stops where decoding stops. */
  lemma SkipAgrees(s: seq<Byte>, pos: nat)
    ensures Decode(s, pos).Ok? == Skip(s, pos).Ok?
    ensures Decode(s, pos).Ok? ==> Decode(s, pos).value.1 == Skip(s, pos).value
  {
    if pos < |s| && Continues(s[pos]) {
      SkipTailAgrees(s, pos + 1, 4);
    }
  }

  /** Java assembles the magnitude in an int and negates it when bit 7 of the
      first byte is set; both steps wrap around. */
  function Signed(first: Byte, magnitude: nat): Int32
  {
    if first >= 128 then Wrap32(-(Wrap32(magnitude) as int)) else Wrap32(magnitude)
  }

  /** The continuation bytes, at most `k` of them; the last allowed one
      contributes five bits and ends the value. */
  function DecodeTail(s: seq<Byte>, pos: nat, k: nat): (r: Result<(nat, nat)>)
    requires 1 <= k
    ensures r.Ok? ==> pos < r.value.1 <= |s| && r.value.1 <= pos + k
    ensures r.Err? ==> r.error == BufferUnderflow
    decreases k
  {
    if pos >= |s| then Err(BufferUnderflow)
    else
      var x := s[pos];
      if k == 1 then Ok((x % 32, pos + 1))
      else if x < 128 then Ok((x as nat, pos + 1))
      else
        var t :- DecodeTail(s, pos + 1, k - 1);
        Ok((x % 128 + 128 * t.0, t.1))
  }

  lemma {:induction false} TailRoundTrip(s: seq<Byte>, pos: nat, n: nat, k: nat)
    requires 1 <= k && 0 < n < 32 * Pow128(k - 1)
    requires IsAt(s, pos, EncodeTail(n))
    ensures DecodeTail(s, pos, k) == Ok((n, pos + |EncodeTail(n)|))
    decreases k
  {
    var e := EncodeTail(n);
    assert s[pos] == e[0];
    if n >= 128 {
      assert k > 1;
      IsAtSplit(s, pos, [128 + n % 128], EncodeTail(n / 128));
      TailRoundTrip(s, pos + 1, n / 128, k - 1);
    }
  }

  lemma SignedAbs(first: Byte, v: CompactValue)
    requires (first >= 128) == (v < 0)
    ensures Signed(first, Abs(v)) == v
  {
  }

  /** Decoding what Encode wrote gives the value back and stops right after it. */
  lemma RoundTrip(s: seq<Byte>, pos: nat, v: CompactValue)
    requires IsAt(s, pos, Encode(v))
    ensures Decode(s, pos) == Ok((v as int, pos + |Encode(v)|))
  {
    var b := FirstByte(v);
    assert Encode(v)[0] == b;
    assert s[pos] == b;
    FirstByteFields(v);
    SignedAbs(b, v);
    if Abs(v) >= 64 {
      LongRoundTrip(s, pos, v);
    }
  }

  lemma LongRoundTrip(s: seq<Byte>, pos: nat, v: CompactValue)
    requires IsAt(s, pos, Encode(v)) && Abs(v) >= 64
    ensures DecodeTail(s, pos + 1, 4) == Ok((Abs(v) / 64, pos + |Encode(v)|))
  {
    LongParts(v);
    IsAtSplit(s, pos, [FirstByte(v)], EncodeTail(Abs(v) / 64));
    TailRoundTrip(s, pos + 1, Abs(v) / 64, 4);
  }

  /** An encoding longer than one byte: the first byte, then the tail of a
      magnitude that fits in four continuation bytes. */
  lemma LongParts(v: CompactValue)
    requires Abs(v) >= 64
    ensures 0 < Abs(v) / 64 < 32 * Pow128(3)
    ensures Encode(v) == [FirstByte(v)] + EncodeTail(Abs(v) / 64)
  {
    assert Pow128(3) == 128 * Pow128(2) == 128 * 128 * Pow128(1) == 2097152;
  }

  /** Skipping what Encode wrote stops right after it. */
  lemma SkipRoundTrip(s: seq<Byte>, pos: nat, v: CompactValue)
    requires IsAt(s, pos, Encode(v))
    ensures Skip(s, pos) == Ok(pos + |Encode(v)|)
  {
    RoundTrip(s, pos, v);
    SkipAgrees(s, pos);
  }

  /** The width of an encoding by magnitude: one byte up to 63, two up to 8191. */
  lemma Width(v: CompactValue)
    ensures |Encode(v)| == 1 <==> Abs(v) < 64
    ensures |Encode(v)| == 2 <==> 64 <= Abs(v) < 8192
    ensures |Encode(v)| >= 3 <==> Abs(v) >= 8192
  {
    var m := Abs(v);
    if m >= 64 {
      if m / 64 >= 128 {
        assert |EncodeTail(m / 64)| >= 2;
      }
    }
  }
}
