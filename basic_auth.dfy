/** The `Authorization` header `req.SetBasicAuth(username, password)` sets:
    the "Basic" scheme of RFC 7617, section 2, whose credentials are the
    user-pass `user-id ":" password` in the base64 encoding of RFC 4648,
    section 4 (standard alphabet, `=` padding). The partner of each encoder
    is a decoder, and the lemmas show the credentials can be read back. */
module BasicAuth {
  import opened Wrappers

  /** A Go string is a sequence of bytes. */
  type Byte = b: int | 0 <= b < 256

  /** The byte of `:`. */
  const Colon: Byte := 58

  /** The header the credentials go under. */
  const AuthorizationKey := "Authorization"

  /** The character RFC 4648 assigns to the 6-bit value `i`. */
  function Sextet(i: int): (c: char)
    requires 0 <= i < 64
  {
    if i < 26 then ('A' as int + i) as char
    else if i < 52 then ('a' as int + (i - 26)) as char
    else if i < 62 then ('0' as int + (i - 52)) as char
    else if i == 62 then '+'
    else '/'
  }

  /** The 6-bit value of an alphabet character, and None for any other character. */
  function SextetOf(c: char): (r: Option<int>)
    ensures r.Some? ==> 0 <= r.value < 64
  {
    if 'A' <= c <= 'Z' then Some(c as int - 'A' as int)
    else if 'a' <= c <= 'z' then Some(c as int - 'a' as int + 26)
    else if '0' <= c <= '9' then Some(c as int - '0' as int + 52)
    else if c == '+' then Some(62)
    else if c == '/' then Some(63)
    else None
  }

  /** Every value has its own character, and padding is none of them. */
  lemma SextetRoundTrip(i: int)
    requires 0 <= i < 64
    ensures SextetOf(Sextet(i)) == Some(i)
    ensures Sextet(i) != '='
  {
  }

  /** Three bytes as four characters. */
  function Quad(a: Byte, b: Byte, c: Byte): string
  {
    [Sextet(a / 4), Sextet((a % 4) * 16 + b / 16), Sextet((b % 16) * 4 + c / 64), Sextet(c % 64)]
  }

  /** The base64 encoding of `data`: whole groups of three bytes, then one
      or two left-over bytes padded with `=` to four characters. */
  function Encode(data: seq<Byte>): string
  {
    if |data| == 0 then ""
    else if |data| == 1 then
      [Sextet(data[0] / 4), Sextet((data[0] % 4) * 16), '=', '=']
    else if |data| == 2 then
      [Sextet(data[0] / 4), Sextet((data[0] % 4) * 16 + data[1] / 16), Sextet((data[1] % 16) * 4), '=']
    else
      Quad(data[0], data[1], data[2]) + Encode(data[3..])
  }

  /** Four characters without padding as three bytes. */
  function DecodeQuad(q: string): Option<seq<Byte>>
    requires |q| == 4
  {
    match (SextetOf(q[0]), SextetOf(q[1]), SextetOf(q[2]), SextetOf(q[3]))
    case (Some(i0), Some(i1), Some(i2), Some(i3)) =>
      Some([i0 * 4 + i1 / 16, (i1 % 16) * 16 + i2 / 4, (i2 % 4) * 64 + i3])
    case _ => None
  }

  /** The last four characters, which may end in one or two `=`. */
  function DecodeLast(q: string): Option<seq<Byte>>
    requires |q| == 4
  {
    if q[2] == '=' && q[3] == '=' then
      match (SextetOf(q[0]), SextetOf(q[1]))
      case (Some(i0), Some(i1)) => Some([i0 * 4 + i1 / 16])
      case _ => None
    else if q[3] == '=' then
      match (SextetOf(q[0]), SextetOf(q[1]), SextetOf(q[2]))
      case (Some(i0), Some(i1), Some(i2)) => Some([i0 * 4 + i1 / 16, (i1 % 16) * 16 + i2 / 4])
      case _ => None
    else DecodeQuad(q)
  }

  /** Base64 decoding: None when the text is not a sequence of four-character
      groups over the alphabet with padding only at the end. */
  function Decode(s: string): Option<seq<Byte>>
  {
    if |s| == 0 then Some([])
    else if |s| < 4 then None
    else if |s| == 4 then DecodeLast(s)
    else
      match (DecodeQuad(s[..4]), Decode(s[4..]))
      case (Some(g), Some(rest)) => Some(g + rest)
      case _ => None
  }

  /** The sextets of three bytes give the bytes back. */
  lemma QuadArithmetic(a: Byte, b: Byte, c: Byte)
    ensures var i0, i1, i2, i3 := a / 4, (a % 4) * 16 + b / 16, (b % 16) * 4 + c / 64, c % 64;
      && i0 * 4 + i1 / 16 == a && (i1 % 16) * 16 + i2 / 4 == b && (i2 % 4) * 64 + i3 == c
  {
    var i1, i2 := (a % 4) * 16 + b / 16, (b % 16) * 4 + c / 64;
    assert i1 / 16 == a % 4 && i1 % 16 == b / 16;
    assert i2 / 4 == b % 16 && i2 % 4 == c / 64;
  }

  lemma QuadRoundTrip(a: Byte, b: Byte, c: Byte)
    ensures DecodeQuad(Quad(a, b, c)) == Some([a, b, c])
    ensures DecodeLast(Quad(a, b, c)) == Some([a, b, c])
  {
    var i0, i1, i2, i3 := a / 4, (a % 4) * 16 + b / 16, (b % 16) * 4 + c / 64, c % 64;
    SextetRoundTrip(i0);
    SextetRoundTrip(i1);
    SextetRoundTrip(i2);
    SextetRoundTrip(i3);
    QuadArithmetic(a, b, c);
    var q := Quad(a, b, c);
    assert q == [Sextet(i0), Sextet(i1), Sextet(i2), Sextet(i3)];
    assert DecodeQuad(q) == Some([i0 * 4 + i1 / 16, (i1 % 16) * 16 + i2 / 4, (i2 % 4) * 64 + i3]);
  }

  /** Every group of the encoding is four characters: `4 * ceil(n / 3)` in all. */
  lemma {:induction false} EncodeLength(data: seq<Byte>)
    ensures |Encode(data)| == 4 * ((|data| + 2) / 3)
  {
    if |data| > 2 {
      EncodeLength(data[3..]);
      assert |Encode(data)| == 4 + |Encode(data[3..])|;
      assert (|data| + 2) / 3 == (|data[3..]| + 2) / 3 + 1;
    }
  }

  lemma OneByteRoundTrip(a: Byte)
    ensures Decode(Encode([a])) == Some([a])
  {
    var i0, i1 := a / 4, (a % 4) * 16;
    SextetRoundTrip(i0);
    SextetRoundTrip(i1);
    assert i0 * 4 + i1 / 16 == a;
  }

  lemma TwoBytesRoundTrip(a: Byte, b: Byte)
    ensures Decode(Encode([a, b])) == Some([a, b])
  {
    var i0, i1, i2 := a / 4, (a % 4) * 16 + b / 16, (b % 16) * 4;
    SextetRoundTrip(i0);
    SextetRoundTrip(i1);
    SextetRoundTrip(i2);
    assert i1 / 16 == a % 4 && i1 % 16 == b / 16;
    assert i0 * 4 + i1 / 16 == a;
    assert (i1 % 16) * 16 + i2 / 4 == b;
  }

  /** Decoding the encoding gives the bytes back. */
  lemma {:induction false} DecodeEncode(data: seq<Byte>)
    ensures Decode(Encode(data)) == Some(data)
  {
    if |data| == 1 {
      assert data == [data[0]];
      OneByteRoundTrip(data[0]);
    } else if |data| == 2 {
      assert data == [data[0], data[1]];
      TwoBytesRoundTrip(data[0], data[1]);
    } else if |data| > 2 {
      QuadRoundTrip(data[0], data[1], data[2]);
      DecodeEncode(data[3..]);
      DecodeGroup(Quad(data[0], data[1], data[2]), Encode(data[3..]));
      assert [data[0], data[1], data[2]] + data[3..] == data;
    }
  }

  /** A whole group in front of decodable text decodes to its bytes in front. */
  lemma DecodeGroup(q: string, rest: string)
    requires |q| == 4 && DecodeQuad(q).Some? && DecodeLast(q) == DecodeQuad(q)
    requires Decode(rest).Some?
    ensures Decode(q + rest) == Some(DecodeQuad(q).value + Decode(rest).value)
  {
    var s := q + rest;
    if rest == [] {
      assert s == q;
      assert DecodeQuad(q).value + [] == DecodeQuad(q).value;
    } else {
      assert s[..4] == q && s[4..] == rest;
    }
  }

  /** The user-pass of RFC 7617, section 2: `user-id ":" password`. */
  function UserPass(user: seq<Byte>, pass: seq<Byte>): seq<Byte>
  {
    user + [Colon] + pass
  }

  /** A user-pass split at its first colon, as a server reads it; None
      when there is no colon. */
  function SplitUserPass(s: seq<Byte>): Option<(seq<Byte>, seq<Byte>)>
  {
    if |s| == 0 then None
    else if s[0] == Colon then Some(([], s[1..]))
    else
      match SplitUserPass(s[1..])
      case None => None
      case Some((u, p)) => Some(([s[0]] + u, p))
  }

  /** A user-id without a colon, as RFC 7617 requires, is read back with its
      password, whatever the password holds. */
  lemma {:induction false} SplitJoin(user: seq<Byte>, pass: seq<Byte>)
    requires Colon !in user
    ensures SplitUserPass(UserPass(user, pass)) == Some((user, pass))
  {
    if |user| > 0 {
      SplitJoin(user[1..], pass);
      assert UserPass(user, pass)[1..] == UserPass(user[1..], pass);
      assert [user[0]] + user[1..] == user;
    } else {
      assert UserPass(user, pass) == [Colon] + pass;
    }
  }

  /** The value `SetBasicAuth` stores under `Authorization`. */
  function Credentials(user: seq<Byte>, pass: seq<Byte>): string
  {
    "Basic " + Encode(UserPass(user, pass))
  }

  /** What a server reads from an `Authorization` value: the scheme, base64
      decoding of the rest, the split at the first colon. */
  function ParseCredentials(v: string): Option<(seq<Byte>, seq<Byte>)>
  {
    if |v| < 6 || v[..6] != "Basic " then None
    else
      match Decode(v[6..])
      case None => None
      case Some(userPass) => SplitUserPass(userPass)
  }

  /** The credentials carry the user-id and password: a server recovers both. */
  lemma CredentialsRoundTrip(user: seq<Byte>, pass: seq<Byte>)
    requires Colon !in user
    ensures ParseCredentials(Credentials(user, pass)) == Some((user, pass))
  {
    var v := Credentials(user, pass);
    assert v[..6] == "Basic " && v[6..] == Encode(UserPass(user, pass));
    DecodeEncode(UserPass(user, pass));
    SplitJoin(user, pass);
  }
}
