/**
 * Base64 in the alphabet of section 4 of RFC 4648, with `=` padding.
 * `Encode` is what `base64.b64encode(...).decode('utf-8')` produces when the
 * dialog stores an image; `Decode` is the check `base64.b64decode` applies when
 * the server turns a submitted record back into bytes. Bytes are `bv8`.
 */
module Base64 {
  import opened Wrappers

  /** The character for a 6-bit value (Table 1 of section 4 of RFC 4648). */
  function SextetChar(x: bv8): (c: char)
    requires x < 64
    ensures c != '='
  {
    if x < 26 then ('A' as int + x as int) as char
    else if x < 52 then ('a' as int + x as int - 26) as char
    else if x < 62 then ('0' as int + x as int - 52) as char
    else if x == 62 then '+'
    else '/'
  }

  /** The 6-bit value of an alphabet character; `None` for `=` and every character outside the alphabet. */
  function CharSextet(c: char): Option<bv8> {
    if 'A' <= c <= 'Z' then Some((c as int - 'A' as int) as bv8)
    else if 'a' <= c <= 'z' then Some((c as int - 'a' as int + 26) as bv8)
    else if '0' <= c <= '9' then Some((c as int - '0' as int + 52) as bv8)
    else if c == '+' then Some(62)
    else if c == '/' then Some(63)
    else None
  }

  lemma SextetRoundTrip(x: bv8)
    requires x < 64
    ensures CharSextet(SextetChar(x)) == Some(x)
  {
    if x < 26 {
      assert SextetChar(x) == ('A' as int + x as int) as char;
    } else if x < 52 {
      assert SextetChar(x) == ('a' as int + x as int - 26) as char;
    } else if x < 62 {
      assert SextetChar(x) == ('0' as int + x as int - 52) as char;
    }
  }

  /** The four characters that carry three bytes. */
  function EncodeTriple(a: bv8, b: bv8, c: bv8): (q: string)
    ensures |q| == 4
  {
    [SextetChar(a >> 2), SextetChar(((a & 3) << 4) | (b >> 4)),
     SextetChar(((b & 15) << 2) | (c >> 6)), SextetChar(c & 63)]
  }

  /** A final single byte: two characters and `==`. */
  function EncodeOne(a: bv8): (q: string)
    ensures |q| == 4
  {
    [SextetChar(a >> 2), SextetChar((a & 3) << 4), '=', '=']
  }

  /** A final pair of bytes: three characters and `=`. */
  function EncodeTwo(a: bv8, b: bv8): (q: string)
    ensures |q| == 4
  {
    [SextetChar(a >> 2), SextetChar(((a & 3) << 4) | (b >> 4)), SextetChar((b & 15) << 2), '=']
  }

  function Encode(data: seq<bv8>): (r: string)
    ensures |r| == 4 * ((|data| + 2) / 3)
  {
    if |data| == 0 then []
    else if |data| == 1 then EncodeOne(data[0])
    else if |data| == 2 then EncodeTwo(data[0], data[1])
    else
      EncodeTriple(data[0], data[1], data[2]) + Encode(data[3..])
  }

  /** Four alphabet characters, none of them padding, back to three bytes. */
  function DecodeQuad(q: string): (r: Option<seq<bv8>>)
    requires |q| == 4
    ensures r.Some? ==> |r.value| == 3
  {
    match (CharSextet(q[0]), CharSextet(q[1]), CharSextet(q[2]), CharSextet(q[3]))
    case (Some(w), Some(x), Some(y), Some(z)) =>
      Some([(w << 2) | (x >> 4), ((x & 15) << 4) | (y >> 2), ((y & 3) << 6) | z])
    case _ => None
  }

  /**
   * The last group of four may end in `==` (one byte) or `=` (two bytes).
   * The unused low bits of the last character are ignored, as CPython's decoder does.
   */
  function DecodeFinal(q: string): (r: Option<seq<bv8>>)
    requires |q| == 4
    ensures r.Some? ==> 1 <= |r.value| <= 3
  {
    if q[2] == '=' && q[3] == '=' then
      match (CharSextet(q[0]), CharSextet(q[1]))
      case (Some(w), Some(x)) => Some([(w << 2) | (x >> 4)])
      case _ => None
    else if q[3] == '=' then
      match (CharSextet(q[0]), CharSextet(q[1]), CharSextet(q[2]))
      case (Some(w), Some(x), Some(y)) => Some([(w << 2) | (x >> 4), ((x & 15) << 4) | (y >> 2)])
      case _ => None
    else
      DecodeQuad(q)
  }

  /** Canonical decoding: a whole number of groups of four, padding only at the very end. */
  function Decode(s: string): (r: Option<seq<bv8>>)
    ensures r.Some? ==> 4 * |r.value| <= 3 * |s| <= 4 * |r.value| + 8
    decreases |s|
  {
    if s == [] then Some([])
    else if |s| < 4 then None
    else if |s| == 4 then DecodeFinal(s)
    else
      match DecodeQuad(s[..4])
      case None => None
      case Some(head) =>
        match Decode(s[4..])
        case None => None
        case Some(rest) => Some(head + rest)
  }

  lemma TripleRoundTrip(a: bv8, b: bv8, c: bv8)
    ensures DecodeQuad(EncodeTriple(a, b, c)) == Some([a, b, c])
  {
    var q := EncodeTriple(a, b, c);
    SextetRoundTrip(a >> 2);
    SextetRoundTrip(((a & 3) << 4) | (b >> 4));
    SextetRoundTrip(((b & 15) << 2) | (c >> 6));
    SextetRoundTrip(c & 63);
    assert ((a >> 2) << 2) | ((((a & 3) << 4) | (b >> 4)) >> 4) == a;
    assert (((((a & 3) << 4) | (b >> 4)) & 15) << 4) | ((((b & 15) << 2) | (c >> 6)) >> 2) == b;
    assert (((((b & 15) << 2) | (c >> 6)) & 3) << 6) | (c & 63) == c;
  }

  lemma OneRoundTrip(a: bv8)
    ensures DecodeFinal(EncodeOne(a)) == Some([a])
  {
    SextetRoundTrip(a >> 2);
    SextetRoundTrip((a & 3) << 4);
    assert ((a >> 2) << 2) | (((a & 3) << 4) >> 4) == a;
  }

  lemma TwoRoundTrip(a: bv8, b: bv8)
    ensures DecodeFinal(EncodeTwo(a, b)) == Some([a, b])
  {
    var q := EncodeTwo(a, b);
    SextetRoundTrip(a >> 2);
    SextetRoundTrip(((a & 3) << 4) | (b >> 4));
    SextetRoundTrip((b & 15) << 2);
    assert q[2] != '=' by {
      assert CharSextet('=') == None;
    }
    assert ((a >> 2) << 2) | ((((a & 3) << 4) | (b >> 4)) >> 4) == a;
    assert (((((a & 3) << 4) | (b >> 4)) & 15) << 4) | (((b & 15) << 2) >> 2) == b;
  }

  /** A last group of four without padding decodes as a full group. */
  lemma TripleFinal(a: bv8, b: bv8, c: bv8)
    ensures DecodeFinal(EncodeTriple(a, b, c)) == Some([a, b, c])
  {
    var q := EncodeTriple(a, b, c);
    assert q[3] == SextetChar(c & 63) != '=';
    TripleRoundTrip(a, b, c);
  }

  /** A full group followed by more text decodes group by group. */
  lemma DecodeGroup(head: string, tail: string)
    requires |head| == 4 && |tail| > 0
    requires DecodeQuad(head).Some? && Decode(tail).Some?
    ensures Decode(head + tail) == Some(DecodeQuad(head).value + Decode(tail).value)
  {
    var e := head + tail;
    assert e[..4] == head;
    assert e[4..] == tail;
  }

  /** Up to three bytes: a single, possibly padded, group. */
  lemma {:induction false} ShortRoundTrip(data: seq<bv8>)
    requires |data| <= 3
    ensures Decode(Encode(data)) == Some(data)
  {
    if |data| == 1 {
      OneRoundTrip(data[0]);
      assert data == [data[0]];
    } else if |data| == 2 {
      TwoRoundTrip(data[0], data[1]);
      assert data == [data[0], data[1]];
    } else if |data| == 3 {
      LastTripleRoundTrip(data);
    }
  }

  lemma {:induction false} LastTripleRoundTrip(data: seq<bv8>)
    requires |data| == 3
    ensures Decode(Encode(data)) == Some(data)
  {
    TripleFinal(data[0], data[1], data[2]);
    assert Encode(data[3..]) == [];
    assert Encode(data) == EncodeTriple(data[0], data[1], data[2]);
    assert data == [data[0], data[1], data[2]];
  }

  /** What the server decodes is exactly what the dialog encoded. */
  lemma {:induction false} RoundTrip(data: seq<bv8>)
    ensures Decode(Encode(data)) == Some(data)
  {
    if |data| <= 3 {
      ShortRoundTrip(data);
    } else {
      var head := EncodeTriple(data[0], data[1], data[2]);
      var tail := Encode(data[3..]);
      assert Encode(data) == head + tail;
      TripleRoundTrip(data[0], data[1], data[2]);
      RoundTrip(data[3..]);
      assert |tail| > 0;
      DecodeGroup(head, tail);
      assert data == [data[0], data[1], data[2]] + data[3..];
    }
  }
}
