/** The parts of the Java runtime and of the package I/O library that the codec
    leans on: exceptions (as a Result), bytes, 32-bit integers and the
    little-endian words a ByteBuffer in LITTLE_ENDIAN order reads and writes. */
module JavaLib {

  /** The exceptions the codec can raise, one case per kind that matters to a caller. */
  datatype Error =
    | BufferUnderflow          // java.nio.BufferUnderflowException
    | BufferOverflow           // java.nio.BufferOverflowException
    | IllegalArgument          // ByteBuffer.position outside [0, limit]
    | IndexOutOfBounds(index: int)
    | NegativeArraySize(size: int)
    | InvalidSize(code: int)   // "invalid size" thrown by the size-class table
    | NumberFormat             // Integer.parseInt overflow
    | NullPointer              // unboxing or dereferencing a null slot
    | ClassCast                // a slot value that does not fit its property kind
    | RecursionTooDeep         // nested exports deeper than the fuel allows

  datatype Result<+T> = Ok(value: T) | Err(error: Error) {
    predicate IsFailure() { Err? }
    function PropagateFailure<U>(): Result<U> requires Err? { Err(error) }
    function Extract(): T requires Ok? { value }
  }

  datatype Option<+T> = None | Some(value: T)

  /** A Java byte, read through `& 0xFF`: the model keeps the unsigned value. */
  type Byte = b: int | 0 <= b < 256

  const TWO_31: int := 0x8000_0000
  const TWO_32: int := 0x1_0000_0000

  /** A raw 32-bit pattern: the bits of a Java int or of a Java float. */
  type Word = w: int | 0 <= w < 0x1_0000_0000

  /** A Java int. */
  type Int32 = x: int | -0x8000_0000 <= x < 0x8000_0000

  /** Java's wrap-around of an int result. */
  function Wrap32(x: int): (r: Int32)
    ensures -TWO_31 <= x < TWO_31 ==> r == x
    ensures (x - r) % TWO_32 == 0 && (r - x) % TWO_32 == 0
  {
    (x + TWO_31) % TWO_32 - TWO_31
  }

  /** The two's-complement bit pattern of an int. */
  function BitsOf(i: Int32): (w: Word)
    ensures Int32Of(w) == i
  {
    if i < 0 then i + TWO_32 else i
  }

  /** The int whose bit pattern is `w`. */
  function Int32Of(w: Word): Int32
  {
    if w >= TWO_31 then w - TWO_32 else w
  }

  /** `w` stands at position `at` of `s`. */
  ghost predicate IsAt(s: seq<Byte>, at: int, w: seq<Byte>)
  {
    0 <= at && at + |w| <= |s| && forall i {:trigger w[i]} :: 0 <= i < |w| ==> s[at + i] == w[i]
  }

  lemma IsAtSplit(s: seq<Byte>, at: int, a: seq<Byte>, b: seq<Byte>)
    requires IsAt(s, at, a + b)
    ensures IsAt(s, at, a) && IsAt(s, at + |a|, b)
  {
    forall i | 0 <= i < |a| ensures s[at + i] == a[i] {
      assert a[i] == (a + b)[i];
    }
    forall i | 0 <= i < |b| ensures s[at + |a| + i] == b[i] {
      assert b[i] == (a + b)[|a| + i];
    }
  }

  lemma IsAtSplit3(s: seq<Byte>, at: int, a: seq<Byte>, b: seq<Byte>, c: seq<Byte>)
    requires IsAt(s, at, a + b + c)
    ensures IsAt(s, at, a) && IsAt(s, at + |a|, b) && IsAt(s, at + |a| + |b|, c)
  {
    IsAtSplit(s, at, a + b, c);
    IsAtSplit(s, at, a, b);
  }

  lemma IsAtJoin(s: seq<Byte>, at: int, a: seq<Byte>, b: seq<Byte>)
    requires IsAt(s, at, a) && IsAt(s, at + |a|, b)
    ensures IsAt(s, at, a + b)
  {
    forall i | 0 <= i < |a + b| ensures s[at + i] == (a + b)[i] {
      if i >= |a| {
        assert s[at + |a| + (i - |a|)] == b[i - |a|];
      }
    }
  }

  /** The bytes of `s` at `at` are `w`, as a slice. */
  lemma IsAtSlice(s: seq<Byte>, at: int, w: seq<Byte>)
    requires IsAt(s, at, w)
    ensures s[at..at + |w|] == w
  {
  }

  /** A tail of `s` that equals `w` stands at its offset. */
  lemma SliceIsAt(s: seq<Byte>, at: nat, w: seq<Byte>)
    requires at <= |s| && s[at..] == w
    ensures IsAt(s, at, w)
  {
    forall i | 0 <= i < |w| ensures s[at + i] == w[i] {
      assert s[at..][i] == s[at + i];
    }
  }

  /** `s` with the bytes `w` written over it at `at`: a relative ByteBuffer put. */
  function Put(s: seq<Byte>, at: nat, w: seq<Byte>): (r: seq<Byte>)
    requires at + |w| <= |s|
    ensures |r| == |s| && IsAt(r, at, w)
    ensures forall i :: 0 <= i < |s| && !(at <= i < at + |w|) ==> r[i] == s[i]
  {
    s[..at] + w + s[at + |w|..]
  }

  /** putInt / putFloat in little-endian order. */
  function LE32(w: Word): (r: seq<Byte>)
    ensures |r| == 4
  {
    var q1 := w / 256;
    var q2 := q1 / 256;
    [w % 256, q1 % 256, q2 % 256, q2 / 256]
  }

  /** getInt / getFloat in little-endian order, as a bit pattern. */
  function ReadLE32(s: seq<Byte>, at: nat): Word
    requires at + 4 <= |s|
  {
    s[at] as int + 256 * (s[at + 1] as int + 256 * (s[at + 2] as int + 256 * (s[at + 3] as int)))
  }

  lemma LE32RoundTrip(s: seq<Byte>, at: nat, w: Word)
    requires IsAt(s, at, LE32(w))
    ensures ReadLE32(s, at) == w
  {
    var q1 := w / 256;
    var q2 := q1 / 256;
    var e := LE32(w);
    assert s[at] == e[0] == w % 256 && s[at + 1] == e[1] == q1 % 256;
    assert s[at + 2] == e[2] == q2 % 256 && s[at + 3] == e[3] == q2 / 256;
    assert q2 == q2 % 256 + 256 * (q2 / 256);
    assert q1 == q1 % 256 + 256 * q2;
    assert w == w % 256 + 256 * q1;
  }

  /** getShort & 0xFFFF in little-endian order. */
  function ReadLE16(s: seq<Byte>, at: nat): (n: nat)
    requires at + 2 <= |s|
    ensures n < 0x1_0000
  {
    s[at] as int + 0x100 * (s[at + 1] as int)
  }

  /** putShort in little-endian order. */
  function LE16(n: nat): (r: seq<Byte>)
    requires n < 0x1_0000
    ensures |r| == 2
  {
    [n % 256, n / 256]
  }

  /** Several little-endian ints, one after the other. */
  function LE32s(ws: seq<Word>): (r: seq<Byte>)
    ensures |r| == 4 * |ws|
  {
    if ws == [] then [] else LE32(ws[0]) + LE32s(ws[1..])
  }

  /** One more word appends its four bytes. */
  lemma {:induction false} LE32sSnoc(ws: seq<Word>, w: Word)
    ensures LE32s(ws + [w]) == LE32s(ws) + LE32(w)
    decreases |ws|
  {
    if ws == [] {
      assert ws + [w] == [w];
    } else {
      assert (ws + [w])[1..] == ws[1..] + [w];
      LE32sSnoc(ws[1..], w);
    }
  }

  lemma {:induction false} LE32sAt(s: seq<Byte>, at: nat, ws: seq<Word>, k: nat)
    requires IsAt(s, at, LE32s(ws)) && k < |ws|
    ensures at + 4 * k + 4 <= |s| && ReadLE32(s, at + 4 * k) == ws[k]
    decreases k
  {
    IsAtSplit(s, at, LE32(ws[0]), LE32s(ws[1..]));
    if k == 0 {
      LE32RoundTrip(s, at, ws[0]);
    } else {
      LE32sAt(s, at + 4, ws[1..], k - 1);
    }
  }
}

/** String rendering done by the Java library: Integer.toString,
    Integer.toHexString, Integer.parseInt on digit strings, equalsIgnoreCase,
    and Collectors.joining. */
module JavaText {
  import opened JavaLib

  predicate IsDigit(c: char) { '0' <= c <= '9' }

  function DigitChar(d: nat): (c: char)
    requires d < 10
    ensures IsDigit(c)
  {
    ['0', '1', '2', '3', '4', '5', '6', '7', '8', '9'][d]
  }

  function DigitValue(c: char): (d: nat)
    requires IsDigit(c)
    ensures d < 10 && DigitChar(d) == c
  {
    (c as int - '0' as int)
  }

  /** The decimal digits of `n`, most significant first, without leading zeros. */
  function Digits(n: nat): (s: string)
    ensures |s| >= 1 && (forall i :: 0 <= i < |s| ==> IsDigit(s[i]))
    ensures s[0] == '0' ==> n == 0
  {
    if n < 10 then [DigitChar(n)] else Digits(n / 10) + [DigitChar(n % 10)]
  }

  /** The number a string of decimal digits denotes (leading zeros allowed). */
  function DigitsValue(s: string): nat
    requires forall i :: 0 <= i < |s| ==> IsDigit(s[i])
  {
    if s == [] then 0 else 10 * DigitsValue(s[..|s| - 1]) + DigitValue(s[|s| - 1])
  }

  lemma {:induction false} DigitsRoundTrip(n: nat)
    ensures DigitsValue(Digits(n)) == n
  {
    if n >= 10 {
      DigitsRoundTrip(n / 10);
      DigitsValueSnoc(Digits(n / 10), DigitChar(n % 10));
      DigitCharValue(n % 10);
    } else {
      DigitCharValue(n);
    }
  }

  lemma DigitCharValue(d: nat)
    requires d < 10
    ensures DigitValue(DigitChar(d)) == d
  {
  }

  lemma DigitsValueSnoc(s: string, c: char)
    requires (forall i :: 0 <= i < |s| ==> IsDigit(s[i])) && IsDigit(c)
    ensures DigitsValue(s + [c]) == 10 * DigitsValue(s) + DigitValue(c)
  {
    assert (s + [c])[..|s|] == s;
  }

  /** Integer.toString / StringBuilder.append(int). */
  function Decimal(i: int): string
  {
    if i < 0 then "-" + Digits(-i) else Digits(i)
  }

  /** The text of Decimal(i) gives i back: digits alone for i >= 0, a minus
      sign and the digits of -i otherwise. */
  lemma DecimalRoundTrip(i: int)
    ensures i >= 0 ==> Decimal(i) == Digits(i) && DigitsValue(Decimal(i)) == i
    ensures i < 0 ==> (|Decimal(i)| >= 2 && Decimal(i)[0] == '-'
      && Decimal(i)[1..] == Digits(-i) && DigitsValue(Decimal(i)[1..]) == -i)
  {
    if i >= 0 {
      DigitsRoundTrip(i);
    } else {
      DigitsRoundTrip(-i);
      SignedText(Digits(-i));
    }
  }

  lemma SignedText(t: string)
    ensures |"-" + t| == |t| + 1 && ("-" + t)[0] == '-' && ("-" + t)[1..] == t
  {
  }

  /** Integer.parseInt on a string of decimal digits: NumberFormatException beyond Integer.MAX_VALUE. */
  function ParseDigits(s: string): (r: Result<Int32>)
    requires |s| >= 1 && forall i :: 0 <= i < |s| ==> IsDigit(s[i])
    ensures r.Ok? ==> r.value == DigitsValue(s)
    ensures r.Err? <==> DigitsValue(s) >= TWO_31
  {
    var v := DigitsValue(s);
    if v < TWO_31 then Ok(v) else Err(NumberFormat)
  }

  function HexChar(d: nat): char
    requires d < 16
  {
    "0123456789abcdef"[d]
  }

  predicate IsHexChar(c: char) { '0' <= c <= '9' || 'a' <= c <= 'f' }

  function HexValue(c: char): (d: nat)
    requires IsHexChar(c)
    ensures d < 16 && HexChar(d) == c
  {
    if c <= '9' then c as int - '0' as int else 10 + (c as int - 'a' as int)
  }

  /** The lower-case hexadecimal digits of `n`, without leading zeros. */
  function HexDigits(n: nat): (s: string)
    ensures |s| >= 1 && forall i :: 0 <= i < |s| ==> IsHexChar(s[i])
  {
    if n < 16 then [HexChar(n)] else HexDigits(n / 16) + [HexChar(n % 16)]
  }

  function HexDigitsValue(s: string): nat
    requires forall i :: 0 <= i < |s| ==> IsHexChar(s[i])
  {
    if s == [] then 0 else 16 * HexDigitsValue(s[..|s| - 1]) + HexValue(s[|s| - 1])
  }

  lemma {:induction false} HexDigitsRoundTrip(n: nat)
    ensures HexDigitsValue(HexDigits(n)) == n
  {
    if n >= 16 {
      HexDigitsRoundTrip(n / 16);
      HexDigitsValueSnoc(HexDigits(n / 16), HexChar(n % 16));
      HexCharValue(n % 16);
    } else {
      HexCharValue(n);
    }
  }

  lemma HexCharValue(d: nat)
    requires d < 16
    ensures HexValue(HexChar(d)) == d
  {
  }

  lemma HexDigitsValueSnoc(s: string, c: char)
    requires (forall i :: 0 <= i < |s| ==> IsHexChar(s[i])) && IsHexChar(c)
    ensures HexDigitsValue(s + [c]) == 16 * HexDigitsValue(s) + HexValue(c)
  {
    assert (s + [c])[..|s|] == s;
  }

  /** Integer.toHexString: the unsigned 32-bit pattern in lower-case hex. */
  function ToHexString(i: Int32): (s: string)
    ensures |s| >= 1 && forall k :: 0 <= k < |s| ==> IsHexChar(s[k])
    ensures HexDigitsValue(s) == BitsOf(i)
  {
    HexDigitsRoundTrip(BitsOf(i));
    HexDigits(BitsOf(i))
  }

  /** ASCII case folding, the part of Character.toLowerCase the format's names use. */
  function LowerAscii(c: char): char
  {
    if 'A' <= c <= 'Z' then (c as int + 32) as char else c
  }

  /** String.equalsIgnoreCase, for ASCII letters. */
  predicate EqualsIgnoreCase(a: string, b: string)
  {
    |a| == |b| && forall i :: 0 <= i < |a| ==> LowerAscii(a[i]) == LowerAscii(b[i])
  }

  /** Collectors.joining(sep): the parts with `sep` between neighbours. */
  function Join(parts: seq<string>, sep: string): string
  {
    if parts == [] then ""
    else if |parts| == 1 then parts[0]
    else parts[0] + sep + Join(parts[1..], sep)
  }
}
