/**
 * The binary format of `java.io.DataOutput` / `java.io.DataInput` as far as
 * the queue configuration uses it: `writeInt`/`readInt` (four bytes, big
 * endian, two's complement) and `writeUTF`/`readUTF` (an unsigned 16-bit
 * length followed by the string in modified UTF-8).  A stream is a byte
 * sequence; a reader returns what it decoded and the bytes it left unread.
 */
module DataFormat {
  import opened JavaTypes
  import opened Wrappers

  /** The exceptions of the stream operations that the model keeps. */
  datatype StreamError =
    | NullString      // writeUTF(null) dereferences null: NullPointerException
    | EncodedTooLong  // writeUTF: the encoded form needs more than 65535 bytes
    | EndOfStream     // a read needs more bytes than remain: EOFException
    | MalformedInput  // readUTF meets a byte pattern modified UTF-8 never produces

  /** The largest encoded length the 16-bit prefix of writeUTF can carry. */
  const MaxUtfLength: nat := 0xFFFF

  // ---------------------------------------------------------------- int

  /** The 32 bits of `v` read as an unsigned number. */
  function Unsigned32(v: int32): (u: nat)
    ensures u < Int32Modulus
    ensures (u - v as int) % Int32Modulus == 0
  {
    if v < 0 then v as int + Int32Modulus else v as int
  }

  /** `writeInt(v)`: the four bytes of `v`, high byte first. */
  function WriteInt(v: int32): (bs: seq<byte>)
    ensures |bs| == 4
  {
    var u := Unsigned32(v);
    [(u / 0x100_0000) as byte, (u / 0x1_0000 % 0x100) as byte,
     (u / 0x100 % 0x100) as byte, (u % 0x100) as byte]
  }

  /** `readInt()`: four bytes, high byte first, as a signed `int`. */
  function ReadInt(input: seq<byte>): (r: Result<(int32, seq<byte>), StreamError>)
    ensures r.Failure? <==> |input| < 4
    ensures r.Failure? ==> r.error == EndOfStream
    ensures r.Success? ==> r.value.1 == input[4..]
  {
    if |input| < 4 then Failure(EndOfStream)
    else
      var u := input[0] as int * 0x100_0000 + input[1] as int * 0x1_0000
             + input[2] as int * 0x100 + input[3] as int;
      Success(((if u < 0x8000_0000 then u else u - Int32Modulus) as int32, input[4..]))
  }

  /** Reading back what writeInt wrote yields the same `int` and leaves what followed. */
  lemma IntRoundTrip(v: int32, rest: seq<byte>)
    ensures ReadInt(WriteInt(v) + rest) == Success((v, rest))
  {
    var u := Unsigned32(v);
    var input := WriteInt(v) + rest;
    var q1, q2, q3 := u / 0x100, u / 0x1_0000, u / 0x100_0000;
    assert q2 == q1 / 0x100;
    assert q3 == q2 / 0x100;
    assert input[0] as int == q3 && input[1] as int == q2 % 0x100;
    assert input[2] as int == q1 % 0x100 && input[3] as int == u % 0x100;
    assert input[0] as int * 0x100_0000 + input[1] as int * 0x1_0000
           + input[2] as int * 0x100 + input[3] as int == u;
    assert input[4..] == rest;
  }

  // ------------------------------------------------------ unsigned short

  /** The two-byte length prefix of writeUTF, high byte first. */
  function WriteUnsignedShort(n: nat): (bs: seq<byte>)
    requires n <= 0xFFFF
    ensures |bs| == 2
  {
    [(n / 0x100) as byte, (n % 0x100) as byte]
  }

  /** `readUnsignedShort()`: two bytes, high byte first. */
  function ReadUnsignedShort(input: seq<byte>): (r: Result<(nat, seq<byte>), StreamError>)
    ensures r.Failure? <==> |input| < 2
    ensures r.Failure? ==> r.error == EndOfStream
    ensures r.Success? ==> r.value.0 <= 0xFFFF && r.value.1 == input[2..]
  {
    if |input| < 2 then Failure(EndOfStream)
    else Success((input[0] as int * 0x100 + input[1] as int, input[2..]))
  }

  // ------------------------------------------------------- modified UTF-8

  /**
   * Bytes writeUTF spends on one `char`: one for U+0001..U+007F, three above
   * U+07FF, and two for the rest, U+0000 included.
   */
  function CharUtfSize(c: jchar): (n: nat)
    ensures 1 <= n <= 3
    ensures n == 1 <==> 0x0001 <= c <= 0x007F
  {
    if 0x0001 <= c <= 0x007F then 1 else if c > 0x07FF then 3 else 2
  }

  /** The encoded length writeUTF computes before writing anything. */
  function UtfLength(s: JString): (n: nat)
    ensures |s| <= n <= 3 * |s|
  {
    if s == [] then 0 else CharUtfSize(s[0]) + UtfLength(s[1..])
  }

  /** The modified UTF-8 bytes of one `char`. */
  function EncodeChar(c: jchar): (bs: seq<byte>)
    ensures |bs| == CharUtfSize(c)
  {
    if 0x0001 <= c <= 0x007F then
      [c as byte]
    else if c > 0x07FF then
      [(0xE0 + c as int / 0x1000) as byte,
       (0x80 + c as int / 0x40 % 0x40) as byte,
       (0x80 + c as int % 0x40) as byte]
    else
      [(0xC0 + c as int / 0x40) as byte, (0x80 + c as int % 0x40) as byte]
  }

  /** The modified UTF-8 bytes of a string, `char` by `char`. */
  function EncodeChars(s: JString): (bs: seq<byte>)
    ensures |bs| == UtfLength(s)
  {
    if s == [] then [] else EncodeChar(s[0]) + EncodeChars(s[1..])
  }

  /**
   * `writeUTF(s)`: fails on null and on an encoded length above 65535;
   * otherwise the length as an unsigned short, then the encoded chars.
   */
  function WriteUTF(s: Option<JString>): (r: Result<seq<byte>, StreamError>)
    ensures s.None? ==> r == Failure(NullString)
    ensures s.Some? && UtfLength(s.value) > MaxUtfLength ==> r == Failure(EncodedTooLong)
    ensures r.Success? <==> s.Some? && UtfLength(s.value) <= MaxUtfLength
    ensures r.Success? ==> |r.value| == 2 + UtfLength(s.value)
  {
    match s
    case None => Failure(NullString)
    case Some(str) =>
      var n := UtfLength(str);
      if n > MaxUtfLength then Failure(EncodedTooLong)
      else Success(WriteUnsignedShort(n) + EncodeChars(str))
  }

  /** Puts a decoded `char` in front of the decoding of the bytes after it. */
  function Prepend(c: jchar, r: Result<JString, StreamError>): Result<JString, StreamError>
  {
    match r
    case Success(s) => Success([c] + s)
    case Failure(e) => Failure(e)
  }

  /**
   * The decoding loop of readUTF over the length-delimited block: the high
   * nibble of each lead byte selects a one-, two- or three-byte form, and
   * every continuation byte must have the shape 10xxxxxx.
   */
  function DecodeChars(block: seq<byte>): (r: Result<JString, StreamError>)
    ensures r.Failure? ==> r.error == MalformedInput
    decreases |block|
  {
    if block == [] then Success([])
    else
      var c := block[0] as int;
      var high := c / 0x10;
      if high <= 7 then
        Prepend(c as jchar, DecodeChars(block[1..]))
      else if high == 12 || high == 13 then
        if |block| < 2 || block[1] as int / 0x40 != 2 then Failure(MalformedInput)
        else Prepend((c % 0x20 * 0x40 + block[1] as int % 0x40) as jchar, DecodeChars(block[2..]))
      else if high == 14 then
        if |block| < 3 || block[1] as int / 0x40 != 2 || block[2] as int / 0x40 != 2 then Failure(MalformedInput)
        else Prepend((c % 0x10 * 0x1000 + block[1] as int % 0x40 * 0x40 + block[2] as int % 0x40) as jchar,
                     DecodeChars(block[3..]))
      else
        Failure(MalformedInput)
  }

  /**
   * `readUTF()`: an unsigned short length, then exactly that many bytes
   * decoded as modified UTF-8.
   */
  function ReadUTF(input: seq<byte>): (r: Result<(JString, seq<byte>), StreamError>)
    ensures |input| < 2 ==> r == Failure(EndOfStream)
    ensures r.Success? ==> |r.value.1| <= |input| - 2 && r.value.1 == input[|input| - |r.value.1|..]
  {
    match ReadUnsignedShort(input)
    case Failure(e) => Failure(e)
    case Success((n, tail)) =>
      if |tail| < n then Failure(EndOfStream)
      else
        match DecodeChars(tail[..n])
        case Failure(e) => Failure(e)
        case Success(s) => Success((s, tail[n..]))
  }

  /** Decoding the bytes of one `char` yields that `char` and continues after it. */
  lemma DecodeEncodedChar(c: jchar, rest: seq<byte>)
    ensures DecodeChars(EncodeChar(c) + rest) == Prepend(c, DecodeChars(rest))
  {
    var block := EncodeChar(c) + rest;
    var k := |EncodeChar(c)|;
    assert block[k..] == rest;
    var ci := c as int;
    if 0x0001 <= c <= 0x007F {
    } else if c > 0x07FF {
      assert block[0] as int == 0xE0 + ci / 0x1000;
      assert block[1] as int == 0x80 + ci / 0x40 % 0x40;
      assert block[2] as int == 0x80 + ci % 0x40;
      assert ci == ci / 0x1000 * 0x1000 + ci / 0x40 % 0x40 * 0x40 + ci % 0x40;
    } else {
      assert block[0] as int == 0xC0 + ci / 0x40;
      assert block[1] as int == 0x80 + ci % 0x40;
      assert ci == ci / 0x40 * 0x40 + ci % 0x40;
    }
  }

  /** The decoding loop inverts the per-`char` encoding of a whole string. */
  lemma {:induction false} DecodeEncodedChars(s: JString)
    ensures DecodeChars(EncodeChars(s)) == Success(s)
  {
    if s != [] {
      DecodeEncodedChar(s[0], EncodeChars(s[1..]));
      DecodeEncodedChars(s[1..]);
      assert [s[0]] + s[1..] == s;
    }
  }

  /** readUTF reads back exactly the string writeUTF wrote, and nothing after it. */
  lemma {:induction false} UtfRoundTrip(s: JString, rest: seq<byte>)
    requires WriteUTF(Some(s)).Success?
    ensures ReadUTF(WriteUTF(Some(s)).value + rest) == Success((s, rest))
  {
    var n := UtfLength(s);
    var input := WriteUnsignedShort(n) + EncodeChars(s) + rest;
    assert WriteUTF(Some(s)).value + rest == input;
    assert input[2..] == EncodeChars(s) + rest;
    assert ReadUnsignedShort(input) == Success((n, EncodeChars(s) + rest));
    var tail := EncodeChars(s) + rest;
    assert tail[..n] == EncodeChars(s);
    assert tail[n..] == rest;
    DecodeEncodedChars(s);
  }

  /** Every string of at most 21845 chars (65535 / 3) can be written. */
  lemma ShortStringsEncode(s: JString)
    requires 3 * |s| <= MaxUtfLength
    ensures WriteUTF(Some(s)).Success?
  {
  }
}
