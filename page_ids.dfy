/**
 * Page identifiers. The server names a saved page by the first eight
 * characters of the text form of a random UUID (section 3 of RFC 4122:
 * 32 lower-case hexadecimal digits in groups 8-4-4-4-12, separated by
 * hyphens). The randomness is not modelled: the UUID's 16 bytes are an input.
 */
module PageIds {

  type Byte = b: int | 0 <= b < 256

  /** The 128 bits of a UUID, most significant byte first. */
  type Uuid = s: seq<Byte> | |s| == 16 witness [0, 0, 0, 0, 0, 0, 0, 0, 0, 0, 0, 0, 0, 0, 0, 0]

  /** A digit of the lower-case hexadecimal alphabet that the text form uses. */
  predicate IsHexDigit(c: char) {
    '0' <= c <= '9' || 'a' <= c <= 'f'
  }

  predicate AllHex(s: string) {
    forall i :: 0 <= i < |s| ==> IsHexDigit(s[i])
  }

  function HexDigit(n: int): (c: char)
    requires 0 <= n < 16
    ensures IsHexDigit(c)
  {
    if n < 10 then ('0' as int + n) as char else ('a' as int + n - 10) as char
  }

  function HexValue(c: char): (n: int)
    requires IsHexDigit(c)
    ensures 0 <= n < 16
  {
    if c <= '9' then c as int - '0' as int else c as int - 'a' as int + 10
  }

  lemma HexDigitValue(n: int)
    requires 0 <= n < 16
    ensures HexValue(HexDigit(n)) == n
  {
  }

  lemma HexValueDigit(c: char)
    requires IsHexDigit(c)
    ensures HexDigit(HexValue(c)) == c
  {
  }

  /** Two digits per byte, high nibble first. */
  function HexOf(bs: seq<Byte>): (s: string)
    ensures |s| == 2 * |bs|
    ensures AllHex(s)
  {
    if bs == [] then ""
    else [HexDigit(bs[0] / 16), HexDigit(bs[0] % 16)] + HexOf(bs[1..])
  }

  /** Reads back the bytes that a string of hexadecimal digit pairs spells. */
  function ParseHex(s: string): (bs: seq<Byte>)
    requires |s| % 2 == 0 && AllHex(s)
    ensures |bs| == |s| / 2
  {
    if s == [] then []
    else [HexValue(s[0]) * 16 + HexValue(s[1])] + ParseHex(s[2..])
  }

  lemma {:induction false} ParseHexOf(bs: seq<Byte>)
    ensures ParseHex(HexOf(bs)) == bs
  {
    if bs != [] {
      var s := HexOf(bs);
      assert s[2..] == HexOf(bs[1..]);
      HexDigitValue(bs[0] / 16);
      HexDigitValue(bs[0] % 16);
      ParseHexOf(bs[1..]);
    }
  }

  lemma {:induction false} HexOfParse(s: string)
    requires |s| % 2 == 0 && AllHex(s)
    ensures HexOf(ParseHex(s)) == s
  {
    if s != [] {
      var b := HexValue(s[0]) * 16 + HexValue(s[1]);
      assert b / 16 == HexValue(s[0]) && b % 16 == HexValue(s[1]);
      HexValueDigit(s[0]);
      HexValueDigit(s[1]);
      assert ParseHex(s)[1..] == ParseHex(s[2..]);
      HexOfParse(s[2..]);
      assert s == [s[0], s[1]] + s[2..];
    }
  }

  /** The text form of a UUID: hex groups of 4, 2, 2, 2 and 6 bytes joined by hyphens. */
  function UuidString(u: Uuid): (s: string)
    ensures |s| == 36
    ensures forall i :: 0 <= i < 36 ==> (s[i] == '-' <==> i == 8 || i == 13 || i == 18 || i == 23)
    ensures s[..8] == HexOf(u[..4])
  {
    var g1, g2, g3, g4, g5 := HexOf(u[..4]), HexOf(u[4..6]), HexOf(u[6..8]), HexOf(u[8..10]), HexOf(u[10..]);
    var s := g1 + "-" + g2 + "-" + g3 + "-" + g4 + "-" + g5;
    assert s[..8] == g1;
    assert forall i :: 0 <= i < 8 ==> s[i] == g1[i];
    assert forall i :: 9 <= i < 13 ==> s[i] == g2[i - 9];
    assert forall i :: 14 <= i < 18 ==> s[i] == g3[i - 14];
    assert forall i :: 19 <= i < 23 ==> s[i] == g4[i - 19];
    assert forall i :: 24 <= i < 36 ==> s[i] == g5[i - 24];
    s
  }

  /** What a saved page's identifier looks like: eight lower-case hex digits. */
  predicate IsPageId(id: string) {
    |id| == 8 && AllHex(id)
  }

  /** The identifier server.py:512 derives from a UUID: its first eight characters. */
  function PageIdOf(u: Uuid): (id: string)
    ensures IsPageId(id)
    ensures ParseHex(id) == u[..4]
  {
    ParseHexOf(u[..4]);
    UuidString(u)[..8]
  }

  /**
   * The version and variant bits of a random UUID lie outside its first four
   * bytes, so every eight-digit identifier is the prefix of some UUID.
   */
  lemma EveryPageIdIsReachable(id: string)
    requires IsPageId(id)
    ensures exists u: Uuid :: PageIdOf(u) == id
  {
    var u: Uuid := ParseHex(id) + [0, 0, 0, 0, 0, 0, 0, 0, 0, 0, 0, 0];
    assert u[..4] == ParseHex(id);
    HexOfParse(id);
    assert PageIdOf(u) == id;
  }
}
