/** UTF-8 as Python's strict and error-ignoring decoders read it. */
module Utf8 {
  import opened Values

  function EncodeChar(c: char): (r: seq<byte>)
    ensures 1 <= |r| <= 4
  {
    var n := c as int;
    if n < 0x80 then [n]
    else if n < 0x800 then [0xC0 + n / 64, 0x80 + n % 64]
    else if n < 0x1_0000 then [0xE0 + n / 4096, 0x80 + n / 64 % 64, 0x80 + n % 64]
    else [0xF0 + n / 262144, 0x80 + n / 4096 % 64, 0x80 + n / 64 % 64, 0x80 + n % 64]
  }

  function Encode(s: string): seq<byte> {
    if s == [] then [] else EncodeChar(s[0]) + Encode(s[1..])
  }

  predicate Continuation(b: byte) {
    0x80 <= b < 0xC0
  }

  predicate IsScalarValue(n: int) {
    0 <= n < 0xD800 || 0xE000 <= n < 0x11_0000
  }

  function Join2(a: int, b: int): int { (a - 0xC0) * 64 + (b - 0x80) }

  function Join3(a: int, b: int, c: int): int {
    (a - 0xE0) * 4096 + (b - 0x80) * 64 + (c - 0x80)
  }

  function Join4(a: int, b: int, c: int, d: int): int {
    (a - 0xF0) * 262144 + (b - 0x80) * 4096 + (c - 0x80) * 64 + (d - 0x80)
  }

  /** The character at the front of `b` and its width, or None when the front
      is not a complete, shortest-form sequence. */
  function DecodeChar(b: seq<byte>): (r: Option<(char, nat)>)
    ensures r.Some? ==> 1 <= r.value.1 <= |b|
  {
    if |b| == 0 then None
    else if b[0] < 0x80 then Some((b[0] as char, 1))
    else if 0xC2 <= b[0] < 0xE0 then
      if |b| >= 2 && Continuation(b[1]) then Some((Join2(b[0], b[1]) as char, 2)) else None
    else if 0xE0 <= b[0] < 0xF0 then
      if |b| >= 3 && Continuation(b[1]) && Continuation(b[2]) then
        var n := Join3(b[0], b[1], b[2]);
        if n >= 0x800 && IsScalarValue(n) then Some((n as char, 3)) else None
      else None
    else if 0xF0 <= b[0] < 0xF5 then
      if |b| >= 4 && Continuation(b[1]) && Continuation(b[2]) && Continuation(b[3]) then
        var n := Join4(b[0], b[1], b[2], b[3]);
        if n >= 0x1_0000 && IsScalarValue(n) then Some((n as char, 4)) else None
      else None
    else None
  }

  function Decode(b: seq<byte>): Option<string> {
    if b == [] then Some("")
    else
      match DecodeChar(b)
      case None => None
      case Some((c, n)) =>
        match Decode(b[n..])
        case None => None
        case Some(s) => Some([c] + s)
  }

  /** bytes.decode('utf-8', errors='ignore'). */
  function DecodeIgnoring(b: seq<byte>): string
    decreases |b|
  {
    if b == [] then ""
    else
      match DecodeChar(b)
      case None => DecodeIgnoring(b[1..])
      case Some((c, n)) => [c] + DecodeIgnoring(b[n..])
  }

  lemma SplitBy64(n: nat)
    ensures n == n / 64 * 64 + n % 64
    ensures n / 4096 == n / 64 / 64 && n / 262144 == n / 64 / 64 / 64
  {
  }

  lemma DecodeCharEncoded(c: char, rest: seq<byte>)
    ensures DecodeChar(EncodeChar(c) + rest) == Some((c, |EncodeChar(c)|))
  {
    var n := c as int;
    var b := EncodeChar(c) + rest;
    SplitBy64(n);
    SplitBy64(n / 64);
    SplitBy64(n / 64 / 64);
    if n < 0x80 {
      assert b[0] == n;
    } else if n < 0x800 {
      assert b[0] == 0xC0 + n / 64 && b[1] == 0x80 + n % 64;
      assert Join2(b[0], b[1]) == n;
    } else if n < 0x1_0000 {
      assert b[0] == 0xE0 + n / 64 / 64 && b[1] == 0x80 + n / 64 % 64 && b[2] == 0x80 + n % 64;
      assert Join3(b[0], b[1], b[2]) == n;
    } else {
      assert b[0] == 0xF0 + n / 64 / 64 / 64 && b[1] == 0x80 + n / 64 / 64 % 64;
      assert b[2] == 0x80 + n / 64 % 64 && b[3] == 0x80 + n % 64;
      assert Join4(b[0], b[1], b[2], b[3]) == n;
    }
  }

  /** Strict decoding inverts encoding for every text. */
  lemma {:induction false} DecodeEncode(s: string)
    ensures Decode(Encode(s)) == Some(s)
  {
    if s != [] {
      DecodeCharEncoded(s[0], Encode(s[1..]));
      DecodeEncode(s[1..]);
      assert Encode(s)[|EncodeChar(s[0])|..] == Encode(s[1..]);
      assert [s[0]] + s[1..] == s;
    }
  }

  lemma TwoBytes(b: seq<byte>)
    requires |b| >= 2 && DecodeChar(b).Some? && DecodeChar(b).value.1 == 2
    ensures b[..2] == EncodeChar(DecodeChar(b).value.0)
  {
    var n := Join2(b[0], b[1]);
    assert n / 64 == b[0] - 0xC0 && n % 64 == b[1] - 0x80;
  }

  lemma ThreeBytes(b: seq<byte>)
    requires |b| >= 3 && DecodeChar(b).Some? && DecodeChar(b).value.1 == 3
    ensures b[..3] == EncodeChar(DecodeChar(b).value.0)
  {
    var n := Join3(b[0], b[1], b[2]);
    SplitBy64(n);
    var p: int, q: int, r: int := b[0] as int - 0xE0, b[1] as int - 0x80, b[2] as int - 0x80;
    assert n == 64 * (64 * p + q) + r;
    assert n / 64 == 64 * p + q && n % 64 == r && n / 64 / 64 == p && n / 64 % 64 == q;
  }

  lemma FourBytes(b: seq<byte>)
    requires |b| >= 4 && DecodeChar(b).Some? && DecodeChar(b).value.1 == 4
    ensures b[..4] == EncodeChar(DecodeChar(b).value.0)
  {
    var n := Join4(b[0], b[1], b[2], b[3]);
    SplitBy64(n);
    var p: int, q: int, r: int := b[0] as int - 0xF0, b[1] as int - 0x80, b[2] as int - 0x80;
    var t := b[3] as int - 0x80;
    var upper := 64 * (64 * p + q) + r;
    assert n == 64 * upper + t;
    assert n / 64 == upper && n % 64 == t && upper / 64 == 64 * p + q && upper % 64 == r;
    assert upper / 64 / 64 == p && upper / 64 % 64 == q;
  }

  /** And nothing but a text's encoding decodes to it: overlong forms, surrogates
      and stray bytes are refused. */
  lemma {:induction false} DecodeStrict(b: seq<byte>)
    requires Decode(b).Some?
    ensures b == Encode(Decode(b).value)
  {
    if b != [] {
      var (c, n) := DecodeChar(b).value;
      if n == 2 {
        TwoBytes(b);
      } else if n == 3 {
        ThreeBytes(b);
      } else if n == 4 {
        FourBytes(b);
      }
      assert b[..n] == EncodeChar(c);
      DecodeStrict(b[n..]);
      assert b == b[..n] + b[n..];
      var s := Decode(b[n..]).value;
      assert ([c] + s)[1..] == s;
    }
  }

  lemma {:induction false} EncodeConcat(s: string, t: string)
    ensures Encode(s + t) == Encode(s) + Encode(t)
  {
    if s == [] {
      assert s + t == t;
    } else {
      EncodeConcat(s[1..], t);
      assert (s + t)[0] == s[0] && (s + t)[1..] == s[1..] + t;
    }
  }

  /** A cut inside one character's encoding leaves nothing decodable: what
      remains is a lead byte and continuation bytes, each ignored. */
  lemma DecodeIgnoringPartial(c: char, k: nat)
    requires k < |EncodeChar(c)|
    ensures DecodeIgnoring(EncodeChar(c)[..k]) == ""
  {
    var e := EncodeChar(c);
    assert forall i | 1 <= i < |e| :: Continuation(e[i]);
    if k >= 1 {
      assert DecodeChar(e[..k]).None?;
      DecodeIgnoringTail(e[..k][1..]);
    }
  }

  lemma {:induction false} DecodeIgnoringTail(b: seq<byte>)
    requires forall i | 0 <= i < |b| :: Continuation(b[i])
    ensures DecodeIgnoring(b) == ""
  {
    if b != [] {
      DecodeIgnoringTail(b[1..]);
    }
  }

  /** The whole characters that fit in k bytes. */
  function PrefixWithin(s: string, k: nat): string {
    if s == [] || |EncodeChar(s[0])| > k then ""
    else [s[0]] + PrefixWithin(s[1..], k - |EncodeChar(s[0])|)
  }

  lemma {:induction false} DecodeIgnoringCut(s: string, k: nat)
    requires k <= |Encode(s)|
    ensures DecodeIgnoring(Encode(s)[..k]) == PrefixWithin(s, k)
  {
    if s != [] {
      var e := EncodeChar(s[0]);
      if |e| > k {
        assert Encode(s)[..k] == e[..k];
        DecodeIgnoringPartial(s[0], k);
      } else {
        var tail := Encode(s[1..])[..k - |e|];
        assert Encode(s)[..k] == e + tail;
        DecodeCharEncoded(s[0], tail);
        assert (e + tail)[|e|..] == tail;
        DecodeIgnoringCut(s[1..], k - |e|);
      }
    }
  }

  /** PrefixWithin is the longest prefix whose encoding fits. */
  lemma {:induction false} PrefixWithinLongest(s: string, k: nat)
    ensures PrefixWithin(s, k) <= s
    ensures |Encode(PrefixWithin(s, k))| <= k
    ensures forall t: string | t <= s && |Encode(t)| <= k :: |t| <= |PrefixWithin(s, k)|
  {
    if s != [] && |EncodeChar(s[0])| <= k {
      var m := k - |EncodeChar(s[0])|;
      PrefixWithinLongest(s[1..], m);
      var p := PrefixWithin(s, k);
      assert p[1..] == PrefixWithin(s[1..], m);
    }
    forall t: string | t <= s && |Encode(t)| <= k
      ensures |t| <= |PrefixWithin(s, k)|
    {
      if t != [] {
        assert t[0] == s[0] && t[1..] <= s[1..];
        assert Encode(t) == EncodeChar(s[0]) + Encode(t[1..]);
      }
    }
  }
}
