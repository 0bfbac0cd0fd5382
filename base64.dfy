/**
 * The base64 decoder that the plugin embeds, as source text, in every loader it
 * generates with `inlineWasm` set, together with the standard base64 encoder
 * (section 4 of RFC 4648) whose output the decoder is meant to invert.
 */
module Base64 {
  import opened Common

  /** One element of a `Uint8Array`. */
  type Byte = x: int | 0 <= x < 256

  /** A 6-bit base64 digit value. */
  type Sextet = x: int | 0 <= x < 64

  /** `base64codes`: the digit value of the character with code `43 + k` (written in rows of ten). */
  const Codes: seq<Sextet> :=
    [62,0,0,0,63,52,53,54,55,56] + [57,58,59,60,61,0,0,0,0,0] +
    [0,0,0,1,2,3,4,5,6,7] + [8,9,10,11,12,13,14,15,16,17] +
    [18,19,20,21,22,23,24,25,0,0] + [0,0,0,0,26,27,28,29,30,31] +
    [32,33,34,35,36,37,38,39,40,41] + [42,43,44,45,46,47,48,49,50,51]

  /**
   * `getBase64Code(charCode)`: the table entry at `charCode - 43`. An index outside the
   * table reads `undefined`, which the bitwise operators that consume it treat as 0.
   */
  function CodeOf(c: char): Sextet
  {
    TableAt(Codes, c as int - 43)
  }

  /** Entry `k` of `table`, or 0 when `k` falls outside it. */
  function TableAt(table: seq<Sextet>, k: int): Sextet
    decreases |table|
  {
    if k < 0 || |table| == 0 then 0 else if k == 0 then table[0] else TableAt(table[1..], k - 1)
  }

  /** `getBase64Code(str.charCodeAt(k))`: past the end `charCodeAt` is NaN, which also reads as 0. */
  function CodeAt(s: string, k: nat): Sextet
  {
    if k < |s| then CodeOf(s[k]) else 0
  }

  /**
   * The three bytes whose bits four digits spell out, most significant first. The
   * source combines the digits with `<<` and `|`; the shifted digits occupy disjoint
   * bits, so the `|` is an addition.
   */
  function Bytes(c0: Sextet, c1: Sextet, c2: Sextet, c3: Sextet): (g: seq<Byte>)
    ensures |g| == 3
  {
    var buffer := c0 * 262144 + c1 * 4096 + c2 * 64 + c3;
    [buffer / 65536, (buffer / 256) % 256, buffer % 256]
  }

  /** The three bytes one loop iteration computes from the four characters at `i`. */
  function Group(s: string, i: nat): (g: seq<Byte>)
    ensures |g| == 3
  {
    Bytes(CodeAt(s, i), CodeAt(s, i + 1), CodeAt(s, i + 2), CodeAt(s, i + 3))
  }

  /** Every group of (up to) four characters decoded, before any padding is trimmed. */
  function DecodeGroups(s: string): (r: seq<Byte>)
    ensures |r| == 3 * ((|s| + 3) / 4)
    decreases |s|
  {
    if |s| == 0 then [] else Group(s, 0) + DecodeGroups(s[if |s| < 4 then |s| else 4..])
  }

  /** `missingOctets`: how many trailing bytes the `=` padding says to drop. */
  function MissingOctets(s: string): nat
  {
    if EndsWith(s, "==") then 2 else if EndsWith(s, "=") then 1 else 0
  }

  /**
   * `base64_decode(str)`. The buffer is `new Uint8Array(3 * (n / 4))`, whose length
   * the constructor truncates to an integer; the result is
   * `subarray(0, length - missingOctets)`.
   */
  function Decode(s: string): (r: seq<Byte>)
  {
    var len := (3 * |s|) / 4;
    Subarray(DecodeGroups(s)[..len], len - MissingOctets(s))
  }

  /**
   * `buf.subarray(0, end)`: an end past the length is clamped to it, and a negative
   * end counts back from the length and is clamped at 0.
   */
  function Subarray(buf: seq<Byte>, end: int): (r: seq<Byte>)
    ensures r <= buf
    ensures 0 <= end <= |buf| ==> |r| == end
    ensures end < 0 ==> |r| == if |buf| + end >= 0 then |buf| + end else 0
    ensures end > |buf| ==> r == buf
  {
    var stop := if end >= 0 then (if end <= |buf| then end else |buf|) else if |buf| + end >= 0 then |buf| + end else 0;
    buf[..stop]
  }

  /** The characters of the standard base64 alphabet (RFC 4648, section 4, table 1). */
  function Alphabet(v: Sextet): char
  {
    if v < 26 then (65 + v) as char
    else if v < 52 then (97 + v - 26) as char
    else if v < 62 then (48 + v - 52) as char
    else if v == 62 then '+'
    else '/'
  }

  /** Standard base64 with `=` padding (RFC 4648, section 4), the encoding `Buffer.toString("base64")` produces. */
  function Encode(b: seq<Byte>): (e: string)
    ensures |e| == 4 * ((|b| + 2) / 3)
    decreases |b|
  {
    if |b| == 0 then []
    else if |b| == 1 then
      [Alphabet(b[0] / 4), Alphabet((b[0] % 4) * 16), '=', '=']
    else if |b| == 2 then
      [Alphabet(b[0] / 4), Alphabet((b[0] % 4) * 16 + b[1] / 16), Alphabet((b[1] % 16) * 4), '=']
    else
      EncodeTriple(b[0], b[1], b[2]) + Encode(b[3..])
  }

  /** Three bytes as four base64 digits, most significant bits first. */
  function EncodeTriple(x: Byte, y: Byte, z: Byte): (e: string)
    ensures |e| == 4
  {
    [Alphabet(x / 4), Alphabet((x % 4) * 16 + y / 16), Alphabet((y % 16) * 4 + z / 64), Alphabet(z % 64)]
  }

  /** The digit value the table gives to each character of the alphabet, independently of the table. */
  function AlphabetValue(c: int): Sextet
  {
    if 65 <= c <= 90 then c - 65
    else if 97 <= c <= 122 then c - 97 + 26
    else if 48 <= c <= 57 then c - 48 + 52
    else if c == 43 then 62
    else if c == 47 then 63
    else 0
  }

  /** The table entries from `k` on agree with AlphabetValue. */
  predicate TableAgreesFrom(k: nat)
    decreases 80 - k
  {
    k >= 80 || (Codes[k] == AlphabetValue(k + 43) && TableAgreesFrom(k + 1))
  }

  lemma {:induction false} TableAgreesAt(k: nat, q: nat)
    requires TableAgreesFrom(k) && k <= q < |Codes|
    ensures Codes[q] == AlphabetValue(q + 43)
    decreases q - k
  {
    if k < q {
      TableAgreesAt(k + 1, q);
    }
  }

  /** The table agrees with AlphabetValue from entry 60 on; the next three lemmas extend this to the whole table. */
  lemma TableFrom60()
    ensures TableAgreesFrom(60)
  {
    assert TableAgreesFrom(70);
  }

  lemma TableFrom40()
    ensures TableAgreesFrom(40)
  {
    TableFrom60();
    assert TableAgreesFrom(50);
  }

  lemma TableFrom20()
    ensures TableAgreesFrom(20)
  {
    TableFrom40();
    assert TableAgreesFrom(30);
  }

  lemma TableFrom0()
    ensures forall k :: 0 <= k < |Codes| ==> Codes[k] == AlphabetValue(k + 43)
  {
    TableFrom20();
    assert TableAgreesFrom(10);
    assert TableAgreesFrom(0);
    forall k | 0 <= k < |Codes|
      ensures Codes[k] == AlphabetValue(k + 43)
    {
      TableAgreesAt(0, k);
    }
  }

  /** TableAt reads the table where the index falls inside it, and 0 everywhere else. */
  lemma {:induction false} TableAtIndex(table: seq<Sextet>, k: int)
    ensures TableAt(table, k) == if 0 <= k < |table| then table[k] else 0
    decreases |table|
  {
    if 0 < k && 0 < |table| {
      TableAtIndex(table[1..], k - 1);
    }
  }

  /** `base64codes` maps every character to its RFC 4648 digit value, and every other character to 0. */
  lemma CodeOfIsAlphabetValue(c: char)
    ensures CodeOf(c) == AlphabetValue(c as int)
  {
    TableAtIndex(Codes, c as int - 43);
    TableFrom0();
  }

  /** Decoding a character of the alphabet gives back its digit value. */
  lemma CodeOfAlphabet(v: Sextet)
    ensures CodeOf(Alphabet(v)) == v
  {
    CodeOfIsAlphabetValue(Alphabet(v));
  }

  /** The padding character carries no bits. */
  lemma CodeOfPad()
    ensures CodeOf('=') == 0
  {
    CodeOfIsAlphabetValue('=');
  }

  /** No digit of the alphabet is the padding character. */
  lemma AlphabetIsNotPad(v: Sextet)
    ensures Alphabet(v) != '='
  {
  }

  /** The four digits of three bytes recombine, with the source's shifts, into the 24 bits of the bytes. */
  lemma DigitsRecombine(x: Byte, y: Byte, z: Byte)
    ensures (x / 4) * 262144 + ((x % 4) * 16 + y / 16) * 4096 + ((y % 16) * 4 + z / 64) * 64 + z % 64
         == x * 65536 + y * 256 + z
  {
    assert x == 4 * (x / 4) + x % 4;
    assert y == 16 * (y / 16) + y % 16;
    assert z == 64 * (z / 64) + z % 64;
  }

  /** The three byte extractions of a loop iteration take the 24 bits apart again. */
  lemma BytesOfBuffer(x: Byte, y: Byte, z: Byte)
    ensures var buffer := x * 65536 + y * 256 + z;
      buffer / 65536 == x && (buffer / 256) % 256 == y && buffer % 256 == z
  {
    var buffer := x * 65536 + y * 256 + z;
    assert buffer / 256 == x * 256 + y;
  }

  /** The four digits of three bytes decode to exactly those bytes. */
  lemma BytesOfDigits(x: Byte, y: Byte, z: Byte)
    ensures Bytes(x / 4, (x % 4) * 16 + y / 16, (y % 16) * 4 + z / 64, z % 64) == [x, y, z]
  {
    DigitsRecombine(x, y, z);
    BytesOfBuffer(x, y, z);
  }

  /** Decoding starts again after each full group of four characters. */
  lemma {:induction false} DecodeGroupsAppend(q: string, rest: string)
    requires |q| == 4
    ensures DecodeGroups(q + rest) == Group(q, 0) + DecodeGroups(rest)
  {
    var s := q + rest;
    assert s[4..] == rest;
    assert DecodeGroups(s) == Group(s, 0) + DecodeGroups(rest);
    assert CodeAt(s, 0) == CodeAt(q, 0) && CodeAt(s, 1) == CodeAt(q, 1);
    assert CodeAt(s, 2) == CodeAt(q, 2) && CodeAt(s, 3) == CodeAt(q, 3);
  }


  /** A full group of four digits decodes to the three bytes it encodes. */
  lemma GroupOfTriple(x: Byte, y: Byte, z: Byte)
    ensures Group(EncodeTriple(x, y, z), 0) == [x, y, z]
  {
    CodeOfAlphabet(x / 4);
    CodeOfAlphabet((x % 4) * 16 + y / 16);
    CodeOfAlphabet((y % 16) * 4 + z / 64);
    CodeOfAlphabet(z % 64);
    BytesOfDigits(x, y, z);
  }

  /** One byte, encoded with `==`, decodes to that byte and two zeros. */
  lemma GroupOfOne(x: Byte)
    ensures DecodeGroups(Encode([x])) == [x, 0, 0]
  {
    var e := Encode([x]);
    CodeOfAlphabet(x / 4);
    CodeOfAlphabet((x % 4) * 16);
    CodeOfPad();
    BytesOfDigits(x, 0, 0);
    assert e[4..] == [];
  }

  /** Two bytes, encoded with `=`, decode to those bytes and one zero. */
  lemma GroupOfTwo(x: Byte, y: Byte)
    ensures DecodeGroups(Encode([x, y])) == [x, y, 0]
  {
    var e := Encode([x, y]);
    CodeOfAlphabet(x / 4);
    CodeOfAlphabet((x % 4) * 16 + y / 16);
    CodeOfAlphabet((y % 16) * 4);
    CodeOfPad();
    BytesOfDigits(x, y, 0);
    assert e[4..] == [];
  }

  /** The decoded groups of an encoding start with the encoded bytes; only padding follows them. */
  lemma {:induction false} DecodeGroupsOfEncode(b: seq<Byte>)
    ensures b <= DecodeGroups(Encode(b))
    decreases |b|
  {
    if |b| == 1 {
      assert b == [b[0]];
      GroupOfOne(b[0]);
    } else if |b| == 2 {
      assert b == [b[0], b[1]];
      GroupOfTwo(b[0], b[1]);
    } else if |b| >= 3 {
      DecodeGroupsOfEncode(b[3..]);
      DecodeGroupsOfEncodeStep(b);
      PrefixAfterHead(b, DecodeGroups(Encode(b[3..])));
    }
  }

  /** The inductive step of DecodeGroupsOfEncode: a leading full group decodes on its own. */
  lemma DecodeGroupsOfEncodeStep(b: seq<Byte>)
    requires |b| >= 3
    ensures DecodeGroups(Encode(b)) == [b[0], b[1], b[2]] + DecodeGroups(Encode(b[3..]))
  {
    var q, t := EncodeTriple(b[0], b[1], b[2]), Encode(b[3..]);
    EncodeFirstGroup(b);
    DecodeGroupsAppend(q, t);
    GroupOfTriple(b[0], b[1], b[2]);
  }

  /** A prefix of the tail, behind the head, is a prefix of the whole. */
  lemma PrefixAfterHead(b: seq<Byte>, d: seq<Byte>)
    requires |b| >= 3 && b[3..] <= d
    ensures b <= [b[0], b[1], b[2]] + d
  {
    assert b == [b[0], b[1], b[2]] + b[3..];
  }

  /** A sequence of at least three bytes encodes its first group first. */
  lemma EncodeFirstGroup(b: seq<Byte>)
    requires |b| >= 3
    ensures Encode(b) == EncodeTriple(b[0], b[1], b[2]) + Encode(b[3..])
  {
  }

  /** Whether a string ends in `=` or `==` depends only on its last characters. */
  lemma EndsWithAppend(p: string, t: string, suffix: string)
    requires |suffix| <= |t|
    ensures EndsWith(p + t, suffix) == EndsWith(t, suffix)
  {
    assert (p + t)[|p + t| - |suffix|..] == t[|t| - |suffix|..];
  }

  /** Only the last two characters decide the padding count. */
  lemma MissingOctetsOfAppend(p: string, t: string)
    requires |t| >= 2
    ensures MissingOctets(p + t) == MissingOctets(t)
  {
    EndsWithAppend(p, t, "==");
    EndsWithAppend(p, t, "=");
  }

  /** How many `=` the encoder appends to `n` bytes: one per byte the last group lacks. */
  function Padding(n: nat): nat
  {
    (3 - n % 3) % 3
  }

  /** One byte encodes to two digits and `==`. */
  lemma MissingOctetsOfOne(b: seq<Byte>)
    requires |b| == 1
    ensures MissingOctets(Encode(b)) == 2
  {
    assert Encode(b)[2..] == "==";
  }

  /** Two bytes encode to three digits and `=`. */
  lemma MissingOctetsOfTwo(b: seq<Byte>)
    requires |b| == 2
    ensures MissingOctets(Encode(b)) == 1
  {
    var e := Encode(b);
    assert e[3..] == "=";
    AlphabetIsNotPad((b[1] % 16) * 4);
    assert e[2..] != "==" by { assert e[2..][0] == e[2]; }
  }

  /** Three bytes encode to four digits and no padding. */
  lemma MissingOctetsOfThree(b: seq<Byte>)
    requires |b| == 3
    ensures MissingOctets(Encode(b)) == 0
  {
    var e := Encode(b);
    AlphabetIsNotPad(b[2] % 64);
    assert e[3..] != "=" by { assert e[3..][0] == e[3]; }
    assert e[2..] != "==" by { assert e[2..][1] == e[3]; }
  }

  /** The decoder reads the padding of an encoding as the number of bytes the last group lacks. */
  lemma {:induction false} MissingOctetsOfEncode(b: seq<Byte>)
    ensures MissingOctets(Encode(b)) == Padding(|b|)
    decreases |b|
  {
    if |b| == 1 {
      MissingOctetsOfOne(b);
    } else if |b| == 2 {
      MissingOctetsOfTwo(b);
    } else if |b| == 3 {
      MissingOctetsOfThree(b);
    } else if |b| > 3 {
      MissingOctetsStep(b);
      MissingOctetsOfEncode(b[3..]);
      PaddingOfTail(|b|);
    }
  }

  /** A full group needs no padding, so the rest after it is padded like the whole. */
  lemma PaddingOfTail(n: nat)
    requires n >= 3
    ensures Padding(n) == Padding(n - 3)
  {
  }

  /** Past the first group, the padding of an encoding is that of the rest. */
  lemma MissingOctetsStep(b: seq<Byte>)
    requires |b| > 3
    ensures MissingOctets(Encode(b)) == MissingOctets(Encode(b[3..]))
  {
    EncodeFirstGroup(b);
    MissingOctetsOfAppend(EncodeTriple(b[0], b[1], b[2]), Encode(b[3..]));
  }

  /**
   * Round trip: the embedded decoder inverts the standard encoder for every byte
   * sequence, including the empty one and lengths that need one or two `=`.
   */
  lemma DecodeEncode(b: seq<Byte>)
    ensures Decode(Encode(b)) == b
  {
    var e := Encode(b);
    DecodeGroupsOfEncode(b);
    MissingOctetsOfEncode(b);
    EncodedLength(|b|);
    DecodeOfPrefix(e, b);
  }

  /** When the groups start with `b` and the trimmed length is `|b|`, the decoder returns exactly `b`. */
  lemma DecodeOfPrefix(s: string, b: seq<Byte>)
    requires b <= DecodeGroups(s) && (3 * |s|) / 4 - MissingOctets(s) == |b|
    ensures Decode(s) == b
  {
    TrimmedGroups(s, b, MissingOctets(s));
  }

  /** The same cut, for any count `m` of missing octets. */
  lemma TrimmedGroups(s: string, b: seq<Byte>, m: nat)
    requires b <= DecodeGroups(s) && (3 * |s|) / 4 - m == |b|
    ensures Subarray(DecodeGroups(s)[..(3 * |s|) / 4], (3 * |s|) / 4 - m) == b
  {
    BufferFits(|s|);
    SubarrayOfPrefix(DecodeGroups(s), (3 * |s|) / 4, b);
  }

  /** Cutting the first `len` bytes of a buffer that starts with `b` at `b`'s length gives `b`. */
  lemma SubarrayOfPrefix(d: seq<Byte>, len: nat, b: seq<Byte>)
    requires b <= d && |b| <= len <= |d|
    ensures Subarray(d[..len], |b|) == b
  {
    assert d[..len][..|b|] == d[..|b|];
  }

  /** The truncated buffer length never exceeds the bytes the whole groups decode to. */
  lemma BufferFits(n: nat)
    ensures (3 * n) / 4 <= 3 * ((n + 3) / 4)
  {
    var m := (n + 3) / 4;
    assert n <= 4 * m;
  }

  /** Three quarters of the encoded length is the byte count rounded up to whole groups. */
  lemma EncodedLength(n: nat)
    ensures (3 * (4 * ((n + 2) / 3))) / 4 == n + Padding(n)
  {
    var m := (n + 2) / 3;
    assert 3 * (4 * m) == 4 * (3 * m);
  }

  /** On a string whose length is a multiple of four, the decoder yields three bytes per group less the padding. */
  lemma DecodeLength(s: string)
    requires |s| % 4 == 0
    ensures |Decode(s)| == 3 * (|s| / 4) - MissingOctets(s)
  {
  }

  /** Group `t` of the decoded bytes is the first group of the characters from `4 * t` on. */
  lemma {:induction false} DecodeGroupsAt(s: string, t: nat)
    requires 4 * t < |s|
    ensures var d, e := DecodeGroups(s), DecodeGroups(s[4 * t..]);
      3 * t + 3 <= |d| && 3 <= |e| && d[3 * t] == e[0] && d[3 * t + 1] == e[1] && d[3 * t + 2] == e[2]
    decreases t
  {
    if t > 0 {
      var rest := s[4..];
      DecodeGroupsAt(rest, t - 1);
      assert rest[4 * (t - 1)..] == s[4 * t..];
      DecodeGroupsStep(s);
    }
  }

  /** A string of at least four characters decodes to its first three bytes followed by the rest. */
  lemma DecodeGroupsStep(s: string)
    requires |s| >= 4
    ensures DecodeGroups(s) == DecodeGroups(s)[..3] + DecodeGroups(s[4..])
  {
  }

  /** The first group from `i` on, written as the shifts and masks of the loop body compute it. */
  lemma GroupValues(s: string, i: nat)
    requires i < |s|
    ensures var buffer := CodeAt(s, i) * 262144 + CodeAt(s, i + 1) * 4096 + CodeAt(s, i + 2) * 64 + CodeAt(s, i + 3);
      var e := DecodeGroups(s[i..]);
      3 <= |e| && e[0] == buffer / 65536 && e[1] == (buffer / 256) % 256 && e[2] == buffer % 256
  {
    var u := s[i..];
    assert CodeAt(u, 0) == CodeAt(s, i) && CodeAt(u, 1) == CodeAt(s, i + 1);
    assert CodeAt(u, 2) == CodeAt(s, i + 2) && CodeAt(u, 3) == CodeAt(s, i + 3);
    assert DecodeGroups(u)[..3] == Group(u, 0);
  }

  /**
   * One pass of the decoder's loop body: looks up the four digits from `i` on, packs them
   * into a 24-bit buffer and splits it into three bytes, which are bytes `3 * t` to
   * `3 * t + 2` of the decoded groups.
   */
  method DecodeQuad(str: string, i: nat, ghost t: nat) returns (b0: Byte, b1: Byte, b2: Byte)
    requires i == 4 * t < |str|
    ensures var d := DecodeGroups(str); 3 * t + 3 <= |d| && d[3 * t] == b0 && d[3 * t + 1] == b1 && d[3 * t + 2] == b2
  {
    var c0: int, c1: int, c2: int, c3: int := CodeAt(str, i), CodeAt(str, i + 1), CodeAt(str, i + 2), CodeAt(str, i + 3);
    var buffer := c0 * 262144 + c1 * 4096 + c2 * 64 + c3;
    b0, b1, b2 := buffer / 65536, (buffer / 256) % 256, buffer % 256;
    GroupValues(str, i);
    DecodeGroupsAt(str, t);
  }

  /**
   * The loop of `base64_decode`: fills a zeroed `Uint8Array` of `3 * (n / 4)` bytes group
   * by group, with `i` stepping through the characters and `j` through the bytes; writes
   * past the array's end are dropped, as a typed array drops them.
   */
  method FillBuffer(str: string) returns (result: array<Byte>)
    ensures result[..] == DecodeGroups(str)[..(3 * |str|) / 4]
  {
    var n := |str|;
    result := new Byte[(3 * n) / 4](_ => 0);
    var i, j := 0, 0;
    ghost var t := 0;
    ghost var decoded := DecodeGroups(str);
    BufferFits(n);
    while i < n
      invariant i == 4 * t && j == 3 * t && i <= n + 3
      invariant forall q :: 0 <= q < j && q < result.Length ==> result[q] == decoded[q]
    {
      var b0, b1, b2 := DecodeQuad(str, i, t);
      if j < result.Length {
        result[j] := b0;
      }
      if j + 1 < result.Length {
        result[j + 1] := b1;
      }
      if j + 2 < result.Length {
        result[j + 2] := b2;
      }
      i, j, t := i + 4, j + 3, t + 1;
    }
  }

  /** `base64_decode`: counts the padding, fills the buffer, and cuts the missing octets off its end. */
  method Base64Decode(str: string) returns (bytes: seq<Byte>)
    ensures bytes == Decode(str)
  {
    var missingOctets := MissingOctets(str);
    var result := FillBuffer(str);
    bytes := Subarray(result[..], result.Length - missingOctets);
  }
}
