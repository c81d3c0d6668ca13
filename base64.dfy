/** Base64 with the standard alphabet and '=' padding (section 4 of
    RFC 4648), as Go's base64.StdEncoding encodes and decodes it. Text is
    kept as the bytes of its ASCII characters. */
module Base64 {
  import opened Base

  /** '=' */
  const PadChar: byte := 61

  /** The character standing for the 6-bit value `v` (table 1 of RFC 4648). */
  function CharOf(v: nat): (c: byte)
    requires v < 64
    ensures c != PadChar && c != 10 && c != 13
  {
    if v < 26 then (65 + v) as byte          // 'A' .. 'Z'
    else if v < 52 then (97 + v - 26) as byte // 'a' .. 'z'
    else if v < 62 then (48 + v - 52) as byte // '0' .. '9'
    else if v == 62 then 43 as byte           // '+'
    else 47 as byte                           // '/'
  }

  /** The 6-bit value a character stands for, if it is in the alphabet. */
  function ValueOf(c: byte): (r: Option<nat>)
    ensures r.Some? ==> r.value < 64
  {
    if 65 <= c <= 90 then Some(c as int - 65)
    else if 97 <= c <= 122 then Some(c as int - 97 + 26)
    else if 48 <= c <= 57 then Some(c as int - 48 + 52)
    else if c == 43 then Some(62)
    else if c == 47 then Some(63)
    else None
  }

  lemma ValueOfCharOf(v: nat)
    requires v < 64
    ensures ValueOf(CharOf(v)) == Some(v)
  {
  }

  /** `EncodedLen(n)`: four characters for every started group of three bytes. */
  function EncodedLen(n: nat): nat {
    (n + 2) / 3 * 4
  }

  /** Three bytes as four characters. */
  function Quantum(a: byte, b: byte, c: byte): (q: Bytes)
    ensures |q| == 4
    ensures forall i :: 0 <= i < 4 ==> q[i] != 10 && q[i] != 13
  {
    [CharOf(a as int / 4), CharOf(a as int % 4 * 16 + b as int / 16),
     CharOf(b as int % 16 * 4 + c as int / 64), CharOf(c as int % 64)]
  }

  /** A final group of one or two bytes, padded to four characters. */
  function Tail(s: Bytes): (q: Bytes)
    requires 1 <= |s| <= 2
    ensures |q| == 4
    ensures forall i :: 0 <= i < 4 ==> q[i] != 10 && q[i] != 13
  {
    if |s| == 1 then [CharOf(s[0] as int / 4), CharOf(s[0] as int % 4 * 16), PadChar, PadChar]
    else [CharOf(s[0] as int / 4), CharOf(s[0] as int % 4 * 16 + s[1] as int / 16),
          CharOf(s[1] as int % 16 * 4), PadChar]
  }

  /** `StdEncoding.Encode` into a buffer of EncodedLen bytes. */
  function Encode(s: Bytes): (r: Bytes)
    ensures |r| == EncodedLen(|s|)
    ensures forall i :: 0 <= i < |r| ==> r[i] != 10 && r[i] != 13
    decreases |s|
  {
    if |s| == 0 then []
    else if |s| <= 2 then Tail(s)
    else Quantum(s[0], s[1], s[2]) + Encode(s[3..])
  }

  /** The error `StdEncoding` reports for text that is not Base64. Its
      message also carries the offset of the offending byte, which is not
      modelled. */
  const Corrupt: Error := Error("illegal base64 data at input byte")

  /** The decoder skips line breaks wherever they occur. */
  function Unwrapped(s: Bytes): (t: Bytes)
    ensures forall i :: 0 <= i < |t| ==> t[i] != 10 && t[i] != 13
    ensures |t| <= |s|
  {
    if s == [] then []
    else (if s[0] == 10 || s[0] == 13 then [] else [s[0]]) + Unwrapped(s[1..])
  }

  /** One group of four characters. Padding is accepted only in the last
      group, as "xx==" or "xxx="; bits below the last byte that the padding
      leaves over are ignored, as Go's non-strict decoding does. */
  function DecodeQuantum(q: Bytes, last: bool): (r: Result<Bytes>)
    requires |q| == 4
    ensures r.Ok? ==> 1 <= |r.value| <= 3
    ensures r.Ok? && |r.value| < 3 ==> last
  {
    var v0, v1, v2, v3 := ValueOf(q[0]), ValueOf(q[1]), ValueOf(q[2]), ValueOf(q[3]);
    if v0.None? || v1.None? then Err(Corrupt)
    else if v2.Some? && v3.Some? then
      Ok([(v0.value * 4 + v1.value / 16) as byte, (v1.value % 16 * 16 + v2.value / 4) as byte,
          (v2.value % 4 * 64 + v3.value) as byte])
    else if !last then Err(Corrupt)
    else if v2.Some? && q[3] == PadChar then
      Ok([(v0.value * 4 + v1.value / 16) as byte, (v1.value % 16 * 16 + v2.value / 4) as byte])
    else if q[2] == PadChar && q[3] == PadChar then
      Ok([(v0.value * 4 + v1.value / 16) as byte])
    else Err(Corrupt)
  }

  /** Groups of four, left to right; a trailing partial group is an error. */
  function DecodeGroups(t: Bytes): (r: Result<Bytes>)
    decreases |t|
  {
    if t == [] then Ok([])
    else if |t| < 4 then Err(Corrupt)
    else
      match DecodeQuantum(t[..4], |t| == 4)
      case Err(e) => Err(e)
      case Ok(bs) =>
        match DecodeGroups(t[4..])
        case Err(e) => Err(e)
        case Ok(rest) => Ok(bs + rest)
  }

  /** `StdEncoding.DecodeString`: the whole text at once. Encode is proved
      against it; the decoding side of the transport reads a stream instead. */
  function Decode(s: Bytes): Result<Bytes> {
    DecodeGroups(Unwrapped(s))
  }

  // ----- The stream decoder -----

  /** io.ErrUnexpectedEOF: the input ended inside a group. */
  const UnexpectedEOF: Error := Error("unexpected EOF")

  /** What a reader of a `base64.NewDecoder` is handed: the decoded bytes
      in order, then how the stream ends, with None for a clean end of input
      and otherwise the error the read after the last byte returns. */
  datatype Yield = Yield(bytes: Bytes, end: Option<Error>)

  /** The decoder reads all its input as one chunk and decodes the complete
      groups of it: padding is accepted in the last complete group, a group
      padded earlier hands out its bytes and then fails, and characters left
      over after the last complete group fail with "unexpected EOF". */
  function StreamGroups(t: Bytes): (r: Yield)
    decreases |t|
  {
    if t == [] then Yield([], None)
    else if |t| < 4 then Yield([], Some(UnexpectedEOF))
    else
      match DecodeQuantum(t[..4], true)
      case Err(e) => Yield([], Some(e))
      case Ok(bs) =>
        if |bs| < 3 && |t| >= 8 then Yield(bs, Some(Corrupt))
        else
          var rest := StreamGroups(t[4..]);
          Yield(bs + rest.bytes, rest.end)
  }

  /** `base64.NewDecoder(StdEncoding, r)` over the text `s`; its reader
      filters out line breaks first. */
  function Stream(s: Bytes): Yield {
    StreamGroups(Unwrapped(s))
  }

  // ----- Round trip -----

  /** The first byte is rebuilt from the first value and the top of the second. */
  lemma FirstByte(a: int, b: int)
    requires 0 <= a < 256 && 0 <= b < 256
    ensures a / 4 * 4 + (a % 4 * 16 + b / 16) / 16 == a
  {
    assert (a % 4 * 16 + b / 16) / 16 == a % 4;
  }

  lemma SecondByte(a: int, b: int, c: int)
    requires 0 <= a < 256 && 0 <= b < 256 && 0 <= c < 256
    ensures (a % 4 * 16 + b / 16) % 16 * 16 + (b % 16 * 4 + c / 64) / 4 == b
  {
    assert (a % 4 * 16 + b / 16) % 16 == b / 16;
    assert (b % 16 * 4 + c / 64) / 4 == b % 16;
  }

  lemma ThirdByte(b: int, c: int)
    requires 0 <= b < 256 && 0 <= c < 256
    ensures (b % 16 * 4 + c / 64) % 4 * 64 + c % 64 == c
  {
    assert (b % 16 * 4 + c / 64) % 4 == c / 64;
  }

  lemma QuantumRoundTrip(a: byte, b: byte, c: byte, last: bool)
    ensures DecodeQuantum(Quantum(a, b, c), last) == Ok([a, b, c])
  {
    var q := Quantum(a, b, c);
    FirstByte(a as int, b as int);
    SecondByte(a as int, b as int, c as int);
    ThirdByte(b as int, c as int);
    ValueOfCharOf(a as int / 4);
    ValueOfCharOf(a as int % 4 * 16 + b as int / 16);
    ValueOfCharOf(b as int % 16 * 4 + c as int / 64);
    ValueOfCharOf(c as int % 64);
  }

  lemma TailRoundTrip(s: Bytes)
    requires 1 <= |s| <= 2
    ensures DecodeQuantum(Tail(s), true) == Ok(s)
  {
    ValueOfCharOf(s[0] as int / 4);
    FirstByte(s[0] as int, if |s| == 1 then 0 else s[1] as int);
    if |s| == 1 {
      ValueOfCharOf(s[0] as int % 4 * 16);
      assert [s[0]] == s;
    } else {
      ValueOfCharOf(s[0] as int % 4 * 16 + s[1] as int / 16);
      ValueOfCharOf(s[1] as int % 16 * 4);
      SecondByte(s[0] as int, s[1] as int, 0);
      assert [s[0], s[1]] == s;
    }
  }

  /** Encoded text holds no line breaks, so the decoder sees all of it. */
  lemma EncodeUnbroken(s: Bytes)
    ensures Unwrapped(Encode(s)) == Encode(s)
  {
    NoBreaksUnwrapped(Encode(s));
  }

  lemma {:induction false} NoBreaksUnwrapped(t: Bytes)
    requires forall i :: 0 <= i < |t| ==> t[i] != 10 && t[i] != 13
    ensures Unwrapped(t) == t
    decreases |t|
  {
    if t != [] {
      NoBreaksUnwrapped(t[1..]);
      assert t == [t[0]] + t[1..];
    }
  }

  /** Decoding a group followed by more text. */
  lemma GroupThenRest(q: Bytes, rest: Bytes, bs: Bytes, r: Bytes)
    requires |q| == 4 && DecodeQuantum(q, rest == []) == Ok(bs) && DecodeGroups(rest) == Ok(r)
    ensures DecodeGroups(q + rest) == Ok(bs + r)
  {
    assert (q + rest)[..4] == q && (q + rest)[4..] == rest;
  }

  /** Three bytes encoded in front of text that decodes to `r` decode to the three bytes and `r`. */
  lemma QuantumThenRest(a: byte, b: byte, c: byte, rest: Bytes, r: Bytes)
    requires DecodeGroups(rest) == Ok(r)
    ensures DecodeGroups(Quantum(a, b, c) + rest) == Ok([a, b, c] + r)
  {
    QuantumRoundTrip(a, b, c, rest == []);
    GroupThenRest(Quantum(a, b, c), rest, [a, b, c], r);
  }

  lemma {:induction false} GroupsRoundTrip(s: Bytes)
    ensures DecodeGroups(Encode(s)) == Ok(s)
    decreases |s|
  {
    if |s| == 0 {
    } else if |s| <= 2 {
      TailGroup(s);
    } else {
      GroupsRoundTrip(s[3..]);
      QuantumGroup(s);
    }
  }

  lemma TailGroup(s: Bytes)
    requires 1 <= |s| <= 2
    ensures DecodeGroups(Encode(s)) == Ok(s)
  {
    TailRoundTrip(s);
    GroupThenRest(Tail(s), [], s, []);
    assert Tail(s) + [] == Tail(s) && s + [] == s;
  }

  /** The step of the round trip: a full group in front of text that decodes back. */
  lemma QuantumGroup(s: Bytes)
    requires |s| >= 3 && DecodeGroups(Encode(s[3..])) == Ok(s[3..])
    ensures DecodeGroups(Encode(s)) == Ok(s)
  {
    QuantumThenRest(s[0], s[1], s[2], Encode(s[3..]), s[3..]);
    FirstThree(s);
  }

  lemma FirstThree(s: Bytes)
    requires |s| >= 3
    ensures [s[0], s[1], s[2]] + s[3..] == s
  {
    assert s[..3] == [s[0], s[1], s[2]];
    assert s[..3] + s[3..] == s;
  }

  /** Decoding what was encoded gives back the bytes. */
  lemma RoundTrip(s: Bytes)
    ensures Decode(Encode(s)) == Ok(s)
  {
    EncodeUnbroken(s);
    GroupsRoundTrip(s);
  }

  // ----- The stream against the whole-text decoder -----

  /** A group that decodes as a non-final group decodes the same way as a
      final one, to three bytes. */
  lemma InnerQuantum(q: Bytes)
    requires |q| == 4 && DecodeQuantum(q, false).Ok?
    ensures DecodeQuantum(q, true) == DecodeQuantum(q, false) && |DecodeQuantum(q, false).value| == 3
  {
  }

  /** Text the whole-text decoder accepts streams the same bytes and ends
      cleanly; and text on which the stream ends cleanly is accepted whole,
      with the same bytes. */
  lemma {:induction false} StreamGroupsAgree(t: Bytes)
    ensures DecodeGroups(t).Ok? <==> StreamGroups(t).end.None?
    ensures DecodeGroups(t).Ok? ==> StreamGroups(t).bytes == DecodeGroups(t).value
    decreases |t|
  {
    if |t| >= 4 {
      StreamGroupsAgree(t[4..]);
      if |t| > 4 && DecodeQuantum(t[..4], false).Ok? {
        InnerQuantum(t[..4]);
      }
    }
  }

  /** The stream ends cleanly exactly when DecodeString accepts the text,
      and then hands out the same bytes. */
  lemma StreamAgrees(s: Bytes)
    ensures Decode(s).Ok? <==> Stream(s).end.None?
    ensures Decode(s).Ok? ==> Stream(s).bytes == Decode(s).value
  {
    StreamGroupsAgree(Unwrapped(s));
  }

  /** Accepted text comes in whole groups of four. */
  lemma {:induction false} GroupsWhole(t: Bytes)
    requires DecodeGroups(t).Ok?
    ensures |t| % 4 == 0
    decreases |t|
  {
    if t != [] {
      GroupsWhole(t[4..]);
    }
  }

  /** One to three characters after accepted text: the stream hands out
      every byte of the text and then reports "unexpected EOF". */
  lemma {:induction false} DanglingGroups(t: Bytes, d: Bytes)
    requires DecodeGroups(t).Ok? && 1 <= |d| <= 3
    ensures StreamGroups(t + d) == Yield(DecodeGroups(t).value, Some(UnexpectedEOF))
    decreases |t|
  {
    GroupsWhole(t);
    if t == [] {
      assert t + d == d;
    } else {
      var bs := DecodeQuantum(t[..4], |t| == 4).value;
      assert (t + d)[..4] == t[..4] && (t + d)[4..] == t[4..] + d;
      if |t| > 4 {
        InnerQuantum(t[..4]);
      }
      DanglingGroups(t[4..], d);
      assert StreamGroups(t + d).bytes == bs + DecodeGroups(t[4..]).value;
    }
  }

  /** Encoded bytes followed by one to three more characters (no line
      breaks): the decoder hands out the encoded bytes before it reports
      "unexpected EOF" for the rest. */
  lemma EncodedThenDangling(c: Bytes, d: Bytes)
    requires 1 <= |d| <= 3 && forall i :: 0 <= i < |d| ==> d[i] != 10 && d[i] != 13
    ensures Stream(Encode(c) + d) == Yield(c, Some(UnexpectedEOF))
  {
    UnwrappedConcat(Encode(c), d);
    EncodeUnbroken(c);
    NoBreaksUnwrapped(d);
    GroupsRoundTrip(c);
    DanglingGroups(Encode(c), d);
  }

  /** The encoded length is the padded length 4·⌈n/3⌉, a multiple of four. */
  lemma EncodedLength(n: nat)
    ensures EncodedLen(n) % 4 == 0
    ensures 3 * EncodedLen(n) >= 4 * n && 3 * EncodedLen(n) < 4 * n + 12
  {
    var q, r := (n + 2) / 3, (n + 2) % 3;
    assert n + 2 == 3 * q + r && 0 <= r < 3;
    assert EncodedLen(n) == 4 * q;
    assert 3 * EncodedLen(n) == 4 * n + 8 - 4 * r;
  }

  /** Line breaks inserted anywhere do not change what is decoded. */
  lemma {:induction false} BreaksIgnored(a: Bytes, b: Bytes)
    ensures Decode(a + [10] + b) == Decode(a + b)
    ensures Decode(a + [13] + b) == Decode(a + b)
  {
    UnwrappedConcat(a, [10] + b);
    UnwrappedConcat(a, [13] + b);
    UnwrappedConcat(a, b);
    assert a + [10] + b == a + ([10] + b);
    assert a + [13] + b == a + ([13] + b);
    assert ([10] + b)[1..] == b;
    assert ([13] + b)[1..] == b;
    assert Unwrapped([10] + b) == Unwrapped(b);
    assert Unwrapped([13] + b) == Unwrapped(b);
  }

  lemma {:induction false} UnwrappedConcat(a: Bytes, b: Bytes)
    ensures Unwrapped(a + b) == Unwrapped(a) + Unwrapped(b)
    decreases |a|
  {
    if a == [] {
      assert a + b == b;
    } else {
      assert (a + b)[0] == a[0] && (a + b)[1..] == a[1..] + b;
      UnwrappedConcat(a[1..], b);
      var h := if a[0] == 10 || a[0] == 13 then [] else [a[0]];
      assert Unwrapped(a + b) == h + (Unwrapped(a[1..]) + Unwrapped(b));
      assert Unwrapped(a) == h + Unwrapped(a[1..]);
    }
  }
}
