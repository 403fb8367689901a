/** `Convert.ToBase64String`: the standard base64 encoding of section 4 of
    RFC 4648, with `=` padding. */
module Base64 {

  type Byte = b: int | 0 <= b < 256

  /** The characters of the alphabet: letters, digits, `+` and `/`. */
  predicate IsDigitChar(c: char) {
    ('A' <= c <= 'Z') || ('a' <= c <= 'z') || ('0' <= c <= '9') || c == '+' || c == '/'
  }

  /** The character of six-bit value `v` in the table of section 4 of RFC 4648:
      `A`-`Z` for 0-25, `a`-`z` for 26-51, `0`-`9` for 52-61, then `+` and `/`. */
  function Digit(v: nat): (c: char)
    requires v < 64
    ensures IsDigitChar(c)
    ensures v < 26 ==> c as int == 'A' as int + v
  {
    if v < 26 then 'A' + (v as char)
    else if v < 52 then 'a' + ((v - 26) as char)
    else if v < 62 then '0' + ((v - 52) as char)
    else if v == 62 then '+'
    else '/'
  }

  /** The encoding of `bytes`: four characters for every three bytes, the last
      group padded with `=`. */
  function Encode(bytes: seq<Byte>): (s: string)
    ensures |s| == 4 * ((|bytes| + 2) / 3)
    ensures forall i :: 0 <= i < |s| ==> IsDigitChar(s[i]) || s[i] == '='
  {
    if |bytes| == 0 then ""
    else if |bytes| == 1 then
      [Digit(bytes[0] / 4), Digit(bytes[0] % 4 * 16), '=', '=']
    else if |bytes| == 2 then
      [Digit(bytes[0] / 4), Digit(bytes[0] % 4 * 16 + bytes[1] / 16), Digit(bytes[1] % 16 * 4), '=']
    else
      var head := [Digit(bytes[0] / 4), Digit(bytes[0] % 4 * 16 + bytes[1] / 16),
                   Digit(bytes[1] % 16 * 4 + bytes[2] / 64), Digit(bytes[2] % 64)];
      var tail := Encode(bytes[3..]);
      assert forall i :: 4 <= i < |head + tail| ==> (head + tail)[i] == tail[i - 4];
      head + tail
  }

  /** Neither `:` nor `]` is a base64 character, so an encoded payload never
      contains the delimiters of the image marker. */
  lemma NoMarkerDelimiters(bytes: seq<Byte>)
    ensures ':' !in Encode(bytes) && ']' !in Encode(bytes)
  {
    var s := Encode(bytes);
    forall i | 0 <= i < |s|
      ensures s[i] != ':' && s[i] != ']'
    {
      assert IsDigitChar(s[i]) || s[i] == '=';
    }
  }
}
