/** `encodeURIComponent` as the share link uses it: every character outside the URI
    "unreserved" set is written as the percent-escaped bytes of its UTF-8 encoding, with
    upper-case hex digits. `DecodeURIComponent` is its inverse. */
module UriEncoding {

  import opened Wrappers

  /** The characters `encodeURIComponent` leaves as they are. */
  predicate Unreserved(c: char) {
    ('A' <= c <= 'Z') || ('a' <= c <= 'z') || ('0' <= c <= '9') || c in "-_.!~*'()"
  }

  predicate IsByte(b: nat) {
    b < 256
  }

  /** The UTF-8 bytes of one Unicode scalar value. */
  function Utf8(c: char): (bs: seq<nat>)
    ensures 1 <= |bs| <= 4
    ensures forall i :: 0 <= i < |bs| ==> IsByte(bs[i])
  {
    var n := c as int;
    if n < 0x80 then [n]
    else if n < 0x800 then [0xC0 + n / 64, 0x80 + n % 64]
    else if n < 0x10000 then [0xE0 + n / 4096, 0x80 + (n / 64) % 64, 0x80 + n % 64]
    else [0xF0 + n / 262144, 0x80 + (n / 4096) % 64, 0x80 + (n / 64) % 64, 0x80 + n % 64]
  }

  /** Upper-case hex digit. */
  function HexDigit(d: nat): (c: char)
    requires d < 16
    ensures c != '%'
  {
    "0123456789ABCDEF"[d]
  }

  /** `%XY` for one byte. */
  function PercentByte(b: nat): (s: string)
    requires IsByte(b)
    ensures |s| == 3 && s[0] == '%'
  {
    ['%', HexDigit(b / 16), HexDigit(b % 16)]
  }

  function PercentBytes(bs: seq<nat>): (s: string)
    requires forall i :: 0 <= i < |bs| ==> IsByte(bs[i])
    ensures |s| == 3 * |bs|
  {
    if bs == [] then [] else PercentByte(bs[0]) + PercentBytes(bs[1..])
  }

  function EncodeChar(c: char): string {
    if Unreserved(c) then [c] else PercentBytes(Utf8(c))
  }

  /** `encodeURIComponent(s)`; `s` holds scalar values only, so the lone-surrogate error
      cannot arise. */
  function EncodeURIComponent(s: string): string {
    if s == [] then [] else EncodeChar(s[0]) + EncodeURIComponent(s[1..])
  }

  // ---------------------------------------------------------------------------------
  // Decoding

  function HexValue(c: char): Option<nat> {
    if '0' <= c <= '9' then Some((c as int) - ('0' as int))
    else if 'A' <= c <= 'F' then Some((c as int) - ('A' as int) + 10)
    else if 'a' <= c <= 'f' then Some((c as int) - ('a' as int) + 10)
    else None
  }

  /** The bytes of `n` consecutive `%XY` groups at the start of `s`. */
  function ReadGroups(s: string, n: nat): (r: Option<seq<nat>>)
    ensures r.Some? ==> |r.value| == n && 3 * n <= |s|
  {
    if n == 0 then Some([])
    else if |s| < 3 || s[0] != '%' then None
    else match (HexValue(s[1]), HexValue(s[2]))
      case (Some(h), Some(l)) =>
        (match ReadGroups(s[3..], n - 1)
         case None => None
         case Some(bs) => Some([16 * h + l] + bs))
      case _ => None
  }

  /** How many bytes a UTF-8 sequence with this lead byte has; 0 for a byte that cannot
      lead one. */
  function Utf8Length(b: nat): nat {
    if b < 0x80 then 1
    else if 0xC0 <= b < 0xE0 then 2
    else if 0xE0 <= b < 0xF0 then 3
    else if 0xF0 <= b < 0xF8 then 4
    else 0
  }

  predicate Continuation(b: nat) {
    0x80 <= b < 0xC0
  }

  /** The scalar value a well-formed, shortest-form UTF-8 sequence stands for. */
  function Utf8Value(bs: seq<nat>): Option<char> {
    if |bs| == 1 then
      if bs[0] < 0x80 then Some(bs[0] as char) else None
    else if |bs| == 2 then
      if 0xC0 <= bs[0] < 0xE0 && Continuation(bs[1]) then
        var v := (bs[0] - 0xC0) * 64 + (bs[1] - 0x80);
        if 0x80 <= v then Some(v as char) else None
      else None
    else if |bs| == 3 then
      if 0xE0 <= bs[0] < 0xF0 && Continuation(bs[1]) && Continuation(bs[2]) then
        var v := (bs[0] - 0xE0) * 4096 + (bs[1] - 0x80) * 64 + (bs[2] - 0x80);
        if 0x800 <= v && !(0xD800 <= v < 0xE000) then Some(v as char) else None
      else None
    else if |bs| == 4 then
      if 0xF0 <= bs[0] < 0xF8 && Continuation(bs[1]) && Continuation(bs[2])
         && Continuation(bs[3]) then
        var v := (bs[0] - 0xF0) * 262144 + (bs[1] - 0x80) * 4096 + (bs[2] - 0x80) * 64
                 + (bs[3] - 0x80);
        if 0x10000 <= v < 0x110000 then Some(v as char) else None
      else None
    else None
  }

  function Prepend(c: char, r: Option<string>): Option<string> {
    match r
    case None => None
    case Some(t) => Some([c] + t)
  }

  /** `decodeURIComponent(s)`; `None` where it would throw a `URIError`. */
  function DecodeURIComponent(s: string): Option<string>
    decreases |s|
  {
    if s == [] then Some([])
    else if s[0] != '%' then Prepend(s[0], DecodeURIComponent(s[1..]))
    else match ReadGroups(s, 1)
      case None => None
      case Some(lead) =>
        var n := Utf8Length(lead[0]);
        if n == 0 then None
        else match ReadGroups(s, n)
          case None => None
          case Some(bs) =>
            (match Utf8Value(bs)
             case None => None
             case Some(c) => Prepend(c, DecodeURIComponent(s[3 * n..])))
  }

  // ---------------------------------------------------------------------------------
  // Round trip

  lemma HexRoundTrip(d: nat)
    requires d < 16
    ensures HexValue(HexDigit(d)) == Some(d)
  {
  }

  /** Reading one `%XY` group written by `PercentByte` gives its byte back. */
  lemma ReadGroupsStep(b: nat, t: string, k: nat)
    requires IsByte(b) && k > 0
    ensures ReadGroups(PercentByte(b) + t, k)
            == match ReadGroups(t, k - 1)
               case None => None
               case Some(bs) => Some([b] + bs)
  {
    var s := PercentByte(b) + t;
    HexRoundTrip(b / 16);
    HexRoundTrip(b % 16);
    assert s[1] == HexDigit(b / 16) && s[2] == HexDigit(b % 16);
    assert s[3..] == t;
  }

  lemma {:induction false} ReadPercentBytes(bs: seq<nat>, rest: string, k: nat)
    requires forall i :: 0 <= i < |bs| ==> IsByte(bs[i])
    requires k <= |bs|
    ensures ReadGroups(PercentBytes(bs) + rest, k) == Some(bs[..k])
  {
    if k > 0 {
      var t := PercentBytes(bs[1..]) + rest;
      assert PercentBytes(bs) + rest == PercentByte(bs[0]) + t;
      ReadGroupsStep(bs[0], t, k);
      ReadPercentBytes(bs[1..], rest, k - 1);
      assert [bs[0]] + bs[1..][..k - 1] == bs[..k];
    }
  }

  lemma Utf8RoundTrip(c: char)
    ensures Utf8Length(Utf8(c)[0]) == |Utf8(c)|
    ensures Utf8Value(Utf8(c)) == Some(c)
  {
    var n := c as int;
    if n < 0x80 {
    } else if n < 0x800 {
      Utf8TwoBytes(c);
    } else if n < 0x10000 {
      Utf8ThreeBytes(c);
    } else {
      Utf8FourBytes(c);
    }
  }

  lemma Utf8TwoBytes(c: char)
    requires 0x80 <= c as int < 0x800
    ensures Utf8Length(Utf8(c)[0]) == 2
    ensures Utf8Value(Utf8(c)) == Some(c)
  {
    var n := c as int;
    assert Utf8(c) == [0xC0 + n / 64, 0x80 + n % 64];
  }

  lemma Utf8ThreeBytes(c: char)
    requires 0x800 <= c as int < 0x10000
    ensures Utf8Length(Utf8(c)[0]) == 3
    ensures Utf8Value(Utf8(c)) == Some(c)
  {
    var n := c as int;
    assert Utf8(c) == [0xE0 + n / 4096, 0x80 + (n / 64) % 64, 0x80 + n % 64];
    assert n == (n / 4096) * 4096 + ((n / 64) % 64) * 64 + n % 64;
  }

  lemma Utf8FourBytes(c: char)
    requires 0x10000 <= c as int
    ensures Utf8Length(Utf8(c)[0]) == 4
    ensures Utf8Value(Utf8(c)) == Some(c)
  {
    var n := c as int;
    var q1, q2, q3 := n / 64, n / 4096, n / 262144;
    assert q2 == q1 / 64;
    assert q3 == q2 / 64;
    assert n == q3 * 262144 + (q2 % 64) * 4096 + (q1 % 64) * 64 + n % 64;
    assert Utf8(c) == [0xF0 + q3, 0x80 + q2 % 64, 0x80 + q1 % 64, 0x80 + n % 64];
  }

  /** The encoding of one character, then anything, decodes to that character followed by
      the decoding of the rest. */
  lemma DecodeEncodedChar(c: char, rest: string)
    ensures DecodeURIComponent(EncodeChar(c) + rest) == Prepend(c, DecodeURIComponent(rest))
  {
    var s := EncodeChar(c) + rest;
    if Unreserved(c) {
      assert s[0] == c && s[1..] == rest;
    } else {
      var bs := Utf8(c);
      var n := |bs|;
      ReadPercentBytes(bs, rest, 1);
      ReadPercentBytes(bs, rest, n);
      assert bs[..n] == bs;
      Utf8RoundTrip(c);
      assert s[3 * n..] == rest;
    }
  }

  /** `decodeURIComponent(encodeURIComponent(s)) == s`. */
  lemma {:induction false} DecodeEncode(s: string)
    ensures DecodeURIComponent(EncodeURIComponent(s)) == Some(s)
  {
    if s != [] {
      DecodeEncode(s[1..]);
      DecodeEncodedChar(s[0], EncodeURIComponent(s[1..]));
      assert [s[0]] + s[1..] == s;
    }
  }

  /** The encoded text holds only unreserved characters, `%` and upper-case hex digits. */
  predicate UriSafe(c: char) {
    Unreserved(c) || c == '%'
  }

  lemma {:induction false} PercentBytesSafe(bs: seq<nat>)
    requires forall i :: 0 <= i < |bs| ==> IsByte(bs[i])
    ensures forall i :: 0 <= i < |PercentBytes(bs)| ==> UriSafe(PercentBytes(bs)[i])
  {
    if bs != [] {
      PercentBytesSafe(bs[1..]);
    }
  }

  lemma {:induction false} EncodeSafe(s: string)
    ensures forall i :: 0 <= i < |EncodeURIComponent(s)| ==> UriSafe(EncodeURIComponent(s)[i])
  {
    if s != [] {
      EncodeSafe(s[1..]);
      if !Unreserved(s[0]) {
        PercentBytesSafe(Utf8(s[0]));
      }
    }
  }
}
