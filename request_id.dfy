/**
 * Stream identifiers of src/index.js (`requestId`): REQUEST_ID_SIZE random
 * bytes rendered as lower-case hexadecimal. The random bytes are a parameter.
 */
module RequestIds {
  import opened Wrappers

  newtype byte = x: int | 0 <= x < 256

  /** Number of random bytes in a stream id. */
  const REQUEST_ID_SIZE: nat := 5

  predicate IsHexDigit(c: char) { '0' <= c <= '9' || 'a' <= c <= 'f' }

  /** The lower-case hex digit of a value below sixteen. */
  function HexDigit(v: nat): (c: char)
    requires v < 16
    ensures IsHexDigit(c)
  {
    if v < 10 then (v + '0' as int) as char else (v - 10 + 'a' as int) as char
  }

  /** The value of a lower-case hex digit. */
  function HexValue(c: char): (v: nat)
    requires IsHexDigit(c)
    ensures v < 16 && HexDigit(v) == c
  {
    if '0' <= c <= '9' then (c as int - '0' as int) as nat else (c as int - 'a' as int + 10) as nat
  }

  /** `Uint8Array.prototype.toHex`: two lower-case digits per byte, high nibble first. */
  function ToHex(bytes: seq<byte>): (r: string)
    ensures |r| == 2 * |bytes|
    ensures forall i :: 0 <= i < |r| ==> IsHexDigit(r[i])
  {
    if bytes == [] then []
    else [HexDigit(bytes[0] as int / 16), HexDigit(bytes[0] as int % 16)] + ToHex(bytes[1..])
  }

  /** Reads a hex string back into bytes; None when it is not an even run of lower-case hex digits. */
  function FromHex(s: string): (r: Option<seq<byte>>)
    ensures r.Some? ==> 2 * |r.value| == |s|
  {
    if s == [] then Some([])
    else if |s| < 2 || !IsHexDigit(s[0]) || !IsHexDigit(s[1]) then None
    else match FromHex(s[2..])
      case None => None
      case Some(rest) => Some([(HexValue(s[0]) * 16 + HexValue(s[1])) as byte] + rest)
  }

  /** The stream id for the given random bytes. */
  function RequestId(bytes: seq<byte>): (id: string)
    requires |bytes| == REQUEST_ID_SIZE
    ensures |id| == 10
    ensures forall i :: 0 <= i < |id| ==> IsHexDigit(id[i])
  {
    ToHex(bytes)
  }

  /** Decoding a rendered id recovers the bytes. */
  lemma {:induction false} FromHexToHex(bytes: seq<byte>)
    ensures FromHex(ToHex(bytes)) == Some(bytes)
  {
    if bytes != [] {
      var s := ToHex(bytes);
      var b := bytes[0] as int;
      assert s[0] == HexDigit(b / 16) && s[1] == HexDigit(b % 16);
      assert s[2..] == ToHex(bytes[1..]);
      FromHexToHex(bytes[1..]);
      assert HexValue(s[0]) * 16 + HexValue(s[1]) == b;
      assert [bytes[0]] + bytes[1..] == bytes;
    }
  }

  /** Rendering the bytes a string decodes to gives the string back. */
  lemma {:induction false} ToHexFromHex(s: string)
    requires FromHex(s).Some?
    ensures ToHex(FromHex(s).value) == s
  {
    if s != [] {
      var rest := FromHex(s[2..]).value;
      ToHexFromHex(s[2..]);
      var b := HexValue(s[0]) * 16 + HexValue(s[1]);
      assert b / 16 == HexValue(s[0]) && b % 16 == HexValue(s[1]);
      var bytes := FromHex(s).value;
      assert bytes[0] as int == b && bytes[1..] == rest;
      assert s == s[..2] + s[2..];
    }
  }

  /** Different random bytes give different stream ids. */
  lemma RequestIdInjective(a: seq<byte>, b: seq<byte>)
    requires |a| == REQUEST_ID_SIZE && |b| == REQUEST_ID_SIZE
    requires a != b
    ensures RequestId(a) != RequestId(b)
  {
    FromHexToHex(a);
    FromHexToHex(b);
  }
}
