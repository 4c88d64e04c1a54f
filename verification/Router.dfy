/** The dashboard's hash router: `navigateTo` prints a route into the location hash, `parseHash` reads it back. */
module Router {
  import opened Keyed
  import opened Text

  // ---- percent-encoding of UTF-8 (RFC 3986 section 2.1; RFC 3629 section 3) ----

  /** The characters `encodeURIComponent` leaves alone. */
  predicate Unreserved(c: char) {
    || 'A' <= c <= 'Z' || 'a' <= c <= 'z' || '0' <= c <= '9'
    || c == '-' || c == '_' || c == '.' || c == '!' || c == '~' || c == '*' || c == '\'' || c == '(' || c == ')'
  }

  function HexDigit(d: nat): char
    requires d < 16
  {
    if d < 10 then '0' + d as char else 'A' + (d - 10) as char
  }

  /** The value of a hexadecimal digit of either case, 16 for any other character. */
  function HexValue(c: char): nat {
    if '0' <= c <= '9' then (c - '0') as nat
    else if 'A' <= c <= 'F' then (c - 'A') as nat + 10
    else if 'a' <= c <= 'f' then (c - 'a') as nat + 10
    else 16
  }

  function Escape(octet: nat): string
    requires octet < 256
  {
    ['%', HexDigit(octet / 16), HexDigit(octet % 16)]
  }

  /** The UTF-8 octets of a character, each escaped. */
  function EncodeChar(c: char): string {
    var n := c as int;
    if Unreserved(c) then [c]
    else if n < 0x80 then Escape(n)
    else if n < 0x800 then Escape(0xC0 + n / 64) + Escape(0x80 + n % 64)
    else if n < 0x1_0000 then Escape(0xE0 + n / 4096) + Escape(0x80 + n / 64 % 64) + Escape(0x80 + n % 64)
    else Escape(0xF0 + n / 262144) + Escape(0x80 + n / 4096 % 64) + Escape(0x80 + n / 64 % 64) + Escape(0x80 + n % 64)
  }

  function Encode(s: string): string { if s == "" then "" else EncodeChar(s[0]) + Encode(s[1..]) }

  /** The octet escaped at position `i`, 256 when there is none. */
  function OctetAt(s: string, i: nat): nat {
    if i + 3 <= |s| && s[i] == '%' && HexValue(s[i + 1]) < 16 && HexValue(s[i + 2]) < 16
    then HexValue(s[i + 1]) * 16 + HexValue(s[i + 2]) else 256
  }

  predicate Continuation(octet: nat) { 0x80 <= octet < 0xC0 }

  datatype Read = Bad | Read(c: char, length: nat)

  /** A decoded code point, refused when it is a surrogate, too large, or has a shorter encoding. */
  function Point(v: int, least: int, length: nat): Read {
    if least <= v && (0 <= v < 0xD800 || 0xE000 <= v < 0x11_0000) then Read(v as char, length) else Bad
  }

  /** The first character of a non-empty encoded string, with the length of its encoding. */
  function ReadChar(s: string): Read
    requires s != ""
  {
    if s[0] != '%' then Read(s[0], 1) else
      var a, b, c, d := OctetAt(s, 0), OctetAt(s, 3), OctetAt(s, 6), OctetAt(s, 9);
      if a < 0x80 then Point(a, 0, 3)
      else if 0xC0 <= a < 0xE0 && Continuation(b) then Point((a - 0xC0) * 64 + (b - 0x80), 0x80, 6)
      else if 0xE0 <= a < 0xF0 && Continuation(b) && Continuation(c) then
        Point((a - 0xE0) * 4096 + (b - 0x80) * 64 + (c - 0x80), 0x800, 9)
      else if 0xF0 <= a < 0xF8 && Continuation(b) && Continuation(c) && Continuation(d) then
        Point((a - 0xF0) * 262144 + (b - 0x80) * 4096 + (c - 0x80) * 64 + (d - 0x80), 0x1_0000, 12)
      else Bad
  }

  lemma ReadWithin(s: string)
    requires s != ""
    ensures ReadChar(s).Read? ==> 1 <= ReadChar(s).length <= |s|
  {
  }

  /** `decodeURIComponent`; None is a URIError. */
  function Decode(s: string): Option<string>
    decreases |s|
  {
    if s == "" then Some("") else
      ReadWithin(s);
      match ReadChar(s)
      case Bad => None
      case Read(c, n) =>
        var rest := Decode(s[n..]);
        if rest.None? then None else Some([c] + rest.value)
  }

  lemma HexRoundTrip(d: nat)
    requires d < 16
    ensures HexValue(HexDigit(d)) == d
  {
  }

  lemma EscapeRead(octet: nat, before: string, after: string)
    requires octet < 256
    ensures OctetAt(before + Escape(octet) + after, |before|) == octet
  {
    HexRoundTrip(octet / 16);
    HexRoundTrip(octet % 16);
    var s := before + Escape(octet) + after;
    var i := |before|;
    assert s[i] == '%' && s[i + 1] == HexDigit(octet / 16) && s[i + 2] == HexDigit(octet % 16);
  }

  lemma ReadOne(c: char, rest: string)
    requires !Unreserved(c) && c as int < 0x80
    ensures ReadChar(EncodeChar(c) + rest) == Read(c, 3)
  {
    hide Unreserved, Escape, OctetAt;
    var n := c as int;
    EscapeRead(n, "", rest);
    EscapeShape(n);
    assert "" + Escape(n) + rest == EncodeChar(c) + rest;
  }

  lemma EscapeShape(octet: nat)
    requires octet < 256
    ensures |Escape(octet)| == 3 && Escape(octet)[0] == '%'
  {
  }

  lemma ReadTwo(c: char, rest: string)
    requires !Unreserved(c) && 0x80 <= c as int < 0x800
    ensures ReadChar(EncodeChar(c) + rest) == Read(c, 6)
  {
    hide Unreserved, Escape, OctetAt;
    var n := c as int;
    var a, b := 0xC0 + n / 64, 0x80 + n % 64;
    EscapeShape(a);
    EscapeShape(b);
    EscapeRead(a, "", Escape(b) + rest);
    EscapeRead(b, Escape(a), rest);
    var s := EncodeChar(c) + rest;
    assert "" + Escape(a) + (Escape(b) + rest) == s && Escape(a) + Escape(b) + rest == s;
  }

  lemma ReadThree(c: char, rest: string)
    requires !Unreserved(c) && 0x800 <= c as int < 0x1_0000
    ensures ReadChar(EncodeChar(c) + rest) == Read(c, 9)
  {
    hide Unreserved, Escape, OctetAt;
    var n := c as int;
    var a, b, d := 0xE0 + n / 4096, 0x80 + n / 64 % 64, 0x80 + n % 64;
    EscapeShape(a);
    EscapeShape(b);
    EscapeShape(d);
    EscapeRead(a, "", Escape(b) + Escape(d) + rest);
    EscapeRead(b, Escape(a), Escape(d) + rest);
    EscapeRead(d, Escape(a) + Escape(b), rest);
    var s := EncodeChar(c) + rest;
    assert "" + Escape(a) + (Escape(b) + Escape(d) + rest) == s;
    assert Escape(a) + Escape(b) + (Escape(d) + rest) == s;
    assert Escape(a) + Escape(b) + Escape(d) + rest == s;
    assert n == n / 4096 * 4096 + n / 64 % 64 * 64 + n % 64;
  }

  lemma ReadFour(c: char, rest: string)
    requires !Unreserved(c) && 0x1_0000 <= c as int
    ensures ReadChar(EncodeChar(c) + rest) == Read(c, 12)
  {
    hide Unreserved, Escape, OctetAt, ReadChar;
    var n := c as int;
    var a, b, d, e := 0xF0 + n / 262144, 0x80 + n / 4096 % 64, 0x80 + n / 64 % 64, 0x80 + n % 64;
    EscapeShape(a);
    EscapeShape(b);
    EscapeShape(d);
    EscapeShape(e);
    EscapeRead(a, "", Escape(b) + Escape(d) + Escape(e) + rest);
    EscapeRead(b, Escape(a), Escape(d) + Escape(e) + rest);
    EscapeRead(d, Escape(a) + Escape(b), Escape(e) + rest);
    EscapeRead(e, Escape(a) + Escape(b) + Escape(d), rest);
    var s := EncodeChar(c) + rest;
    assert "" + Escape(a) + (Escape(b) + Escape(d) + Escape(e) + rest) == s;
    assert Escape(a) + Escape(b) + (Escape(d) + Escape(e) + rest) == s;
    assert Escape(a) + Escape(b) + Escape(d) + (Escape(e) + rest) == s;
    assert Escape(a) + Escape(b) + Escape(d) + Escape(e) + rest == s;
    PointFour(c, s);
  }

  lemma PointFour(c: char, s: string)
    requires 0x1_0000 <= c as int && s != "" && s[0] == '%'
    requires var n := c as int;
             && OctetAt(s, 0) == 0xF0 + n / 262144 && OctetAt(s, 3) == 0x80 + n / 4096 % 64
             && OctetAt(s, 6) == 0x80 + n / 64 % 64 && OctetAt(s, 9) == 0x80 + n % 64
    ensures ReadChar(s) == Read(c, 12)
  {
    hide OctetAt;
    var n := c as int;
    assert n == n / 262144 * 262144 + n / 4096 % 64 * 4096 + n / 64 % 64 * 64 + n % 64;
  }

  // ---- what is encoded, and what is accepted ----

  lemma UnreservedListed(c: char)
    ensures Unreserved(c) <==>
            c in CAPITALS || c in SMALL_LETTERS || c in DIGITS || c in {'-', '_', '.', '!', '~', '*', '\'', '(', ')'}
  {
    CapitalsListed(c);
    SmallLettersListed(c);
    DigitsListed(c);
  }

  const UPPER_HEX := "0123456789ABCDEF"
  const LOWER_HEX := "0123456789abcdef"

  /** An escape is a percent sign and two capital hexadecimal digits. */
  lemma EscapeDigits(octet: nat)
    requires octet < 256
    ensures Escape(octet) == ['%', UPPER_HEX[octet / 16], UPPER_HEX[octet % 16]]
  {
    HexDigitListed(octet / 16);
    HexDigitListed(octet % 16);
    hide HexDigit;
  }

  lemma HexDigitListed(d: nat)
    requires d < 16
    ensures HexDigit(d) == UPPER_HEX[d]
  {
  }

  /** The character is the hexadecimal digit `d`, in either case. */
  predicate IsHex(c: char, d: nat) { d < 16 && (c == UPPER_HEX[d] || c == LOWER_HEX[d]) }

  lemma HexValueListed(c: char)
    ensures HexValue(c) <= 16
    ensures HexValue(c) < 16 ==> IsHex(c, HexValue(c))
  {
    var d := HexValue(c);
    if d < 10 {
      DigitsListed(c);
      assert UPPER_HEX[d] == '0' + d as char;
    }
  }

  lemma HexDigitValue(c: char, d: nat)
    requires IsHex(c, d)
    ensures HexValue(c) == d
  {
    if d < 10 {
      assert UPPER_HEX[d] == LOWER_HEX[d] == '0' + d as char;
    } else {
      assert UPPER_HEX[d] == 'A' + (d - 10) as char && LOWER_HEX[d] == 'a' + (d - 10) as char;
    }
  }

  /** A percent sign and two hexadecimal digits, of either case, stand for their octet, and nothing else does. */
  lemma OctetExactly(s: string, i: nat, high: nat, low: nat)
    requires high < 16 && low < 16
    ensures OctetAt(s, i) <= 256
    ensures OctetAt(s, i) == high * 16 + low <==>
            i + 3 <= |s| && s[i] == '%' && IsHex(s[i + 1], high) && IsHex(s[i + 2], low)
  {
    hide IsHex, HexValue;
    if i + 3 <= |s| && s[i] == '%' {
      var c, d := s[i + 1], s[i + 2];
      HexValueListed(c);
      HexValueListed(d);
      if IsHex(c, high) {
        HexDigitValue(c, high);
      }
      if IsHex(d, low) {
        HexDigitValue(d, low);
      }
    }
  }

  /** The UTF-8 octets of a code point, by the table of section 3 of RFC 3629. */
  predicate Utf8(n: int, octets: seq<nat>) {
    || (0 <= n < 0x80 && octets == [n])
    || (0x80 <= n < 0x800 && octets == [0xC0 + n / 64, 0x80 + n % 64])
    || (0x800 <= n < 0x1_0000 && octets == [0xE0 + n / 4096, 0x80 + n / 64 % 64, 0x80 + n % 64])
    || (0x1_0000 <= n < 0x11_0000 && octets == [0xF0 + n / 262144, 0x80 + n / 4096 % 64, 0x80 + n / 64 % 64, 0x80 + n % 64])
  }

  /** Decoding is strict: an escaped character is read from exactly the octets UTF-8 gives it, never from a longer form. */
  lemma ReadStrict(s: string)
    requires s != "" && s[0] == '%' && ReadChar(s).Read?
    ensures var r := ReadChar(s);
            exists octets :: Utf8(r.c as int, octets) && r.length == 3 * |octets|
                             && forall k :: 0 <= k < |octets| ==> OctetAt(s, 3 * k) == octets[k]
  {
    hide OctetAt;
    var r, n := ReadChar(s), ReadChar(s).c as int;
    var a, b, c, d := OctetAt(s, 0), OctetAt(s, 3), OctetAt(s, 6), OctetAt(s, 9);
    if a < 0x80 {
      assert Utf8(n, [a]);
    } else if a < 0xE0 {
      assert Utf8(n, [a, b]);
    } else if a < 0xF0 {
      assert n / 64 == (a - 0xE0) * 64 + (b - 0x80);
      assert Utf8(n, [a, b, c]);
    } else {
      FourOctets(a, b, c, d, n);
      assert Utf8(n, [a, b, c, d]);
    }
  }

  lemma FourOctets(a: nat, b: nat, c: nat, d: nat, n: int)
    requires 0xF0 <= a < 0xF8 && Continuation(b) && Continuation(c) && Continuation(d)
    requires n == (a - 0xF0) * 262144 + (b - 0x80) * 4096 + (c - 0x80) * 64 + (d - 0x80)
    ensures a == 0xF0 + n / 262144 && b == 0x80 + n / 4096 % 64 && c == 0x80 + n / 64 % 64 && d == 0x80 + n % 64
  {
    assert n / 64 == (a - 0xF0) * 4096 + (b - 0x80) * 64 + (c - 0x80);
    assert n / 4096 == (a - 0xF0) * 64 + (b - 0x80);
    assert n / 262144 == a - 0xF0;
  }

  lemma ReadEncoded(c: char, rest: string)
    ensures EncodeChar(c) != "" && ReadChar(EncodeChar(c) + rest) == Read(c, |EncodeChar(c)|)
  {
    var n := c as int;
    if Unreserved(c) {
    } else if n < 0x80 {
      ReadOne(c, rest);
    } else if n < 0x800 {
      ReadTwo(c, rest);
    } else if n < 0x1_0000 {
      ReadThree(c, rest);
    } else {
      ReadFour(c, rest);
    }
  }

  /** Decoding undoes encoding, for every string. */
  lemma {:induction false} DecodeEncode(s: string)
    ensures Decode(Encode(s)) == Some(s)
  {
    hide ReadChar, EncodeChar;
    if s != "" {
      var t := Encode(s[1..]);
      DecodeEncode(s[1..]);
      ReadEncoded(s[0], t);
      var e := EncodeChar(s[0]) + t;
      assert e[|EncodeChar(s[0])|..] == t;
      assert s == [s[0]] + s[1..];
    }
  }

  // ---- routes ----

  datatype Route = Route(page: string, id: Option<string>, detail: Option<string>)

  /** The location hash after navigating; an absent `id` or `detail` is "". */
  function NavigateTo(page: string, id: string, detail: string): string {
    "#/" + Join([page] + (if id != "" then [id] else []) + (if detail != "" then [detail] else []))
  }

  /** Encoded segments separated by slashes. */
  function Join(segments: seq<string>): string {
    if segments == [] then "" else
    if |segments| == 1 then Encode(segments[0]) else Encode(segments[0]) + "/" + Join(segments[1..])
  }

  /** Up to the first slash. */
  function Head(s: string): string { if s == "" || s[0] == '/' then "" else [s[0]] + Head(s[1..]) }

  /** `s.split("/").filter(Boolean)`. */
  function Parts(s: string): seq<string>
    decreases |s|
  {
    if s == "" then [] else
      var h := Head(s);
      HeadWithin(s);
      if h == "" then Parts(s[1..]) else [h] + Parts(s[|h|..])
  }

  lemma {:induction false} HeadWithin(s: string)
    ensures |Head(s)| <= |s|
  {
    if s != "" {
      HeadWithin(s[1..]);
    }
  }

  /** `hash.replace(/^#\/?/, "")`. */
  function Unhash(hash: string): string {
    if hash == "" || hash[0] != '#' then hash
    else if |hash| > 1 && hash[1] == '/' then hash[2..] else hash[1..]
  }

  function Decoded(parts: seq<string>, i: nat): Option<Option<string>> {
    if i >= |parts| then Some(None) else
      var text := Decode(parts[i]);
      if text.None? then None else Some(Some(text.value))
  }

  /** `parseHash`: the page is taken as it stands, id and detail are decoded; None is a URIError. */
  function ParseHash(hash: string): Option<Route> {
    var parts := Parts(Unhash(hash));
    if parts == [] then Some(Route("chat", None, None)) else
      var id, detail := Decoded(parts, 1), Decoded(parts, 2);
      if id.None? || detail.None? then None else Some(Route(parts[0], id.value, detail.value))
  }

  // ---- segments survive splitting ----

  predicate NoSlash(s: string) { forall i :: 0 <= i < |s| ==> s[i] != '/' }

  lemma EncodeCharNoSlash(c: char)
    ensures NoSlash(EncodeChar(c)) && EncodeChar(c) != "" && |EncodeChar(c)| >= 1
    ensures !Unreserved(c) ==> |EncodeChar(c)| > 1
  {
    hide Unreserved;
    assert !Unreserved('/') by {
      SlashReserved();
    }
    forall octet: nat | octet < 256 ensures NoSlash(Escape(octet)) {
      EscapeNoSlash(octet);
    }
  }

  lemma SlashReserved()
    ensures !Unreserved('/')
  {
  }

  lemma EscapeNoSlash(octet: nat)
    requires octet < 256
    ensures NoSlash(Escape(octet))
  {
  }

  /** An encoded segment has no slash, is empty only for "", and is the segment itself exactly when every character
      of it is unreserved. */
  lemma {:induction false} EncodeSegment(s: string)
    ensures NoSlash(Encode(s)) && (Encode(s) == "" <==> s == "") && |Encode(s)| >= |s|
    ensures Encode(s) == s <==> forall i :: 0 <= i < |s| ==> Unreserved(s[i])
    ensures (exists i :: 0 <= i < |s| && !Unreserved(s[i])) ==> |Encode(s)| > |s|
  {
    hide Unreserved;
    if s != "" {
      var rest := s[1..];
      EncodeSegment(rest);
      EncodeCharNoSlash(s[0]);
      assert s == [s[0]] + rest;
      if exists i :: 0 <= i < |s| && !Unreserved(s[i]) {
        var i :| 0 <= i < |s| && !Unreserved(s[i]);
        if i > 0 {
          assert !Unreserved(rest[i - 1]);
        }
      } else {
        UnreservedAlone(s[0]);
      }
    }
  }

  lemma UnreservedAlone(c: char)
    requires Unreserved(c)
    ensures EncodeChar(c) == [c]
  {
  }

  lemma {:induction false} HeadOf(a: string, b: string)
    requires NoSlash(a) && (b == "" || b[0] == '/')
    ensures Head(a + b) == a
  {
    if a == "" {
      assert a + b == b;
    } else {
      assert (a + b)[1..] == a[1..] + b;
      HeadOf(a[1..], b);
    }
  }

  /** Splitting off a non-empty segment. */
  lemma PartsFirst(a: string, b: string)
    requires NoSlash(a) && a != ""
    ensures Parts(a) == [a]
    ensures Parts(a + "/" + b) == [a] + Parts(b)
  {
    HeadOf(a, "");
    assert a + "" == a;
    assert Parts(a[|a|..]) == [];
    HeadOf(a, "/" + b);
    var s := a + ("/" + b);
    assert a + "/" + b == s;
    assert s[|a|..] == "/" + b;
    assert Head("/" + b) == "";
    assert ("/" + b)[1..] == b;
  }

  lemma {:induction false} PartsJoin(segments: seq<string>)
    requires forall i :: 0 <= i < |segments| ==> segments[i] != ""
    ensures |Parts(Join(segments))| == |segments|
    ensures forall i :: 0 <= i < |segments| ==> Parts(Join(segments))[i] == Encode(segments[i])
  {
    hide Encode, Parts;
    if segments == [] {
      EmptyParts();
    } else {
      EncodeSegment(segments[0]);
      if |segments| > 1 {
        PartsJoin(segments[1..]);
        PartsFirst(Encode(segments[0]), Join(segments[1..]));
      } else {
        PartsFirst(Encode(segments[0]), "");
      }
    }
  }

  lemma EmptyParts()
    ensures Parts("") == []
  {
  }

  function Given(s: string): Option<string> { if s == "" then None else Some(s) }

  predicate PlainPage(page: string) { page != "" && forall i :: 0 <= i < |page| ==> Unreserved(page[i]) }

  lemma UnhashJoined(segments: seq<string>)
    ensures Unhash("#/" + Join(segments)) == Join(segments)
  {
    hide Join;
    var h := "#/" + Join(segments);
    assert h[2..] == Join(segments);
  }

  /** What is read back after navigating with a page: its encoded form, and the segments that were given, in order. */
  lemma NavigateRead(page: string, id: string, detail: string)
    requires page != ""
    ensures ParseHash(NavigateTo(page, id, detail)) ==
            Some(if id != "" then Route(Encode(page), Some(id), Given(detail))
                 else Route(Encode(page), Given(detail), None))
  {
    hide Encode, Parts, Join, Unhash, Decode;
    var segments := [page] + (if id != "" then [id] else []) + (if detail != "" then [detail] else []);
    UnhashJoined(segments);
    PartsJoin(segments);
    DecodeEncode(id);
    DecodeEncode(detail);
  }

  /** Without a page the first segment given is read back as the page; with none at all the chat page is shown. */
  lemma NavigateNoPage(id: string, detail: string)
    ensures ParseHash(NavigateTo("", id, detail)) ==
            Some(if id != "" then Route(Encode(id), Given(detail), None)
                 else if detail != "" then Route(Encode(detail), None, None)
                 else Route("chat", None, None))
  {
    hide Encode, Parts, Join, Unhash, Decode;
    var rest := (if id != "" then [id] else []) + (if detail != "" then [detail] else []);
    var segments := [""] + rest;
    assert segments == [""] + (if id != "" then [id] else []) + (if detail != "" then [detail] else []);
    UnhashJoined(segments);
    PartsJoin(rest);
    JoinBlank(rest);
    DecodeEncode(id);
    DecodeEncode(detail);
    EncodeSegment(id);
    EncodeSegment(detail);
  }

  /** Reading any hash: the part after "#", "#/" or neither is cut at its slashes, blank segments do not count; the first
      segment is the page as it stands, the next two are decoded, and the rest is ignored. */
  lemma ParseSegments(mark: string, page: string, id: string, detail: string, rest: string)
    requires mark == "#/" || mark == "#" || mark == ""
    requires NoSlash(page) && NoSlash(id) && NoSlash(detail) && page != "" && page[0] != '#' && id != "" && detail != ""
    ensures ParseHash(mark + (page + "/" + (id + "/" + (detail + "/" + rest)))) ==
            if Decode(id).Some? && Decode(detail).Some? then Some(Route(page, Some(Decode(id).value), Some(Decode(detail).value)))
            else None
    ensures Parts("/" + rest) == Parts(rest)
  {
    hide Decode, Parts;
    var text := page + "/" + (id + "/" + (detail + "/" + rest));
    assert mark == "#/" ==> (mark + text)[2..] == text;
    assert mark == "#" ==> (mark + text)[1..] == text && (mark + text)[1] == page[0];
    assert mark == "" ==> mark + text == text && text[0] == page[0];
    PartsFirst(page, id + "/" + (detail + "/" + rest));
    PartsFirst(id, detail + "/" + rest);
    PartsFirst(detail, rest);
    BlankSegment(rest);
    var parts := Parts(text);
    assert parts[0] == page && parts[1] == id && parts[2] == detail;
  }

  lemma BlankSegment(rest: string)
    ensures Parts("/" + rest) == Parts(rest)
  {
    assert Head("/" + rest) == "" && ("/" + rest)[1..] == rest;
  }

  lemma JoinBlank(rest: seq<string>)
    ensures Parts(Join([""] + rest)) == Parts(Join(rest))
  {
    var segments := [""] + rest;
    assert segments[1..] == rest;
    if rest != [] {
      var s := Join(segments);
      assert s == "/" + Join(rest);
      assert Head(s) == "" && s[1..] == Join(rest);
    }
  }

  /** The router round trip, exactly when it holds: reading the hash after `navigateTo(page, id, detail)` gives those
      three values back if and only if the page is a non-empty unreserved word and a detail comes with an id. Ids and
      details are unrestricted: slashes, hashes, percent signs and any Unicode text survive. */
  lemma RouterRoundTrip(page: string, id: string, detail: string)
    ensures ParseHash(NavigateTo(page, id, detail)) == Some(Route(page, Given(id), Given(detail)))
            <==> PlainPage(page) && (detail != "" ==> id != "")
  {
    hide Encode, ParseHash, NavigateTo, Unreserved;
    EncodeSegment(page);
    if page == "" {
      NavigateNoPage(id, detail);
    } else {
      NavigateRead(page, id, detail);
    }
  }
}
