/** Base64 as in section 4 of RFC 4648. */
module Base64 {
  type Byte = b: nat | b < 256
  type Digit64 = d: nat | d < 64

  function Letter(d: Digit64): char {
    if d < 26 then 'A' + d as char
    else if d < 52 then 'a' + (d - 26) as char
    else if d < 62 then '0' + (d - 52) as char
    else if d == 62 then '+' else '/'
  }

  function Value(c: char): Digit64 {
    if 'A' <= c <= 'Z' then (c - 'A') as int
    else if 'a' <= c <= 'z' then (c - 'a') as int + 26
    else if '0' <= c <= '9' then (c - '0') as int + 52
    else if c == '+' then 62 else 63
  }

  lemma LettersAreDistinct(d: Digit64)
    ensures Value(Letter(d)) == d && Letter(d) != '='
  {
  }

  function Encode(data: seq<Byte>): string {
    if |data| == 0 then ""
    else if |data| == 1 then [Letter(data[0] / 4), Letter(data[0] % 4 * 16), '=', '=']
    else if |data| == 2 then
      [Letter(data[0] / 4), Letter(data[0] % 4 * 16 + data[1] / 16), Letter(data[1] % 16 * 4), '=']
    else
      [Letter(data[0] / 4), Letter(data[0] % 4 * 16 + data[1] / 16),
       Letter(data[1] % 16 * 4 + data[2] / 64), Letter(data[2] % 64)] + Encode(data[3..])
  }

  function Decode(text: string): seq<Byte> {
    if |text| < 4 then []
    else
      var a, b := Value(text[0]), Value(text[1]);
      var first := a * 4 + b / 16;
      if text[2] == '=' then [first]
      else
        var c := Value(text[2]);
        var second := b % 16 * 16 + c / 4;
        if text[3] == '=' then [first, second]
        else [first, second, c % 4 * 64 + Value(text[3])] + Decode(text[4..])
  }

  /** Three bytes and their four digits. */
  lemma Group(x: Byte, y: Byte, z: Byte)
    ensures x / 4 * 4 + (x % 4 * 16 + y / 16) / 16 == x
    ensures (x % 4 * 16 + y / 16) % 16 * 16 + (y % 16 * 4 + z / 64) / 4 == y
    ensures (y % 16 * 4 + z / 64) % 4 * 64 + z % 64 == z
  {
  }

  lemma DecodeGroup(a: Digit64, b: Digit64, c: Digit64, d: Digit64, rest: string)
    ensures Decode([Letter(a), Letter(b), Letter(c), Letter(d)] + rest)
         == [a * 4 + b / 16, b % 16 * 16 + c / 4, c % 4 * 64 + d] + Decode(rest)
  {
    LettersAreDistinct(a);
    LettersAreDistinct(b);
    LettersAreDistinct(c);
    LettersAreDistinct(d);
    hide Letter, Value;
    var text := [Letter(a), Letter(b), Letter(c), Letter(d)] + rest;
    assert text[4..] == rest;
  }

  lemma DecodeTail(a: Digit64, b: Digit64, c: Digit64)
    ensures Decode([Letter(a), Letter(b), '=', '=']) == [a * 4 + b / 16]
    ensures Decode([Letter(a), Letter(b), Letter(c), '=']) == [a * 4 + b / 16, b % 16 * 16 + c / 4]
  {
    LettersAreDistinct(a);
    LettersAreDistinct(b);
    LettersAreDistinct(c);
    hide Letter, Value;
  }

  lemma DecodeNothing()
    ensures Decode("") == []
  {
  }

  lemma {:induction false} RoundTrip(data: seq<Byte>)
    ensures Decode(Encode(data)) == data
  {
    hide Decode, Letter, Value;
    if |data| == 0 {
      DecodeNothing();
    } else if |data| == 1 {
      DecodeTail(data[0] / 4, data[0] % 4 * 16, 0);
      Group(data[0], 0, 0);
    } else if |data| == 2 {
      DecodeTail(data[0] / 4, data[0] % 4 * 16 + data[1] / 16, data[1] % 16 * 4);
      Group(data[0], data[1], 0);
    } else {
      DecodeGroup(data[0] / 4, data[0] % 4 * 16 + data[1] / 16, data[1] % 16 * 4 + data[2] / 64, data[2] % 64,
                  Encode(data[3..]));
      Group(data[0], data[1], data[2]);
      RoundTrip(data[3..]);
      assert data == [data[0], data[1], data[2]] + data[3..];
    }
  }

  lemma {:induction false} Length(data: seq<Byte>)
    ensures |Encode(data)| == (|data| + 2) / 3 * 4
  {
    hide Letter;
    if |data| >= 3 {
      Length(data[3..]);
    }
  }
}
