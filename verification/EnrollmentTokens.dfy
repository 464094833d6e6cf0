/** Enrollment tokens: "ops1", an address in unpadded base64url (section 5 of RFC
    4648) and a hexadecimal secret, joined by dots (internal/agentwire/enrollment.go).
    A string stands for the bytes of a Go string: every character is below 256. */
module EnrollmentTokens {
  import opened Wrappers
  import opened Tables

  type Octet = c: char | c as int < 256 witness 'a'
  type Text = seq<Octet>

  const MAX_ADDRESS := 2048
  const MAX_TOKEN := 4096

  // ---- base64url without padding ----

  type Sextet = n: int | 0 <= n < 64

  function Digit(n: Sextet): Octet {
    if n < 26 then ('A' as int + n) as char
    else if n < 52 then ('a' as int + n - 26) as char
    else if n < 62 then ('0' as int + n - 52) as char
    else if n == 62 then '-'
    else '_'
  }

  function Value(c: Octet): Option<Sextet> {
    if 'A' <= c <= 'Z' then Some(c as int - 'A' as int)
    else if 'a' <= c <= 'z' then Some(c as int - 'a' as int + 26)
    else if '0' <= c <= '9' then Some(c as int - '0' as int + 52)
    else if c == '-' then Some(62)
    else if c == '_' then Some(63)
    else None
  }

  const ZERO: Octet := 0 as char

  // Three bytes as four groups of six bits, and back.
  function D0(b0: Octet): Sextet { b0 as int / 4 }
  function D1(b0: Octet, b1: Octet): Sextet { b0 as int % 4 * 16 + b1 as int / 16 }
  function D2(b1: Octet, b2: Octet): Sextet { b1 as int % 16 * 4 + b2 as int / 64 }
  function D3(b2: Octet): Sextet { b2 as int % 64 }
  function B0(d0: Sextet, d1: Sextet): Octet { (d0 * 4 + d1 / 16) as char }
  function B1(d1: Sextet, d2: Sextet): Octet { (d1 % 16 * 16 + d2 / 4) as char }
  function B2(d2: Sextet, d3: Sextet): Octet { (d2 % 4 * 64 + d3) as char }

  lemma Regroup(b0: Octet, b1: Octet, b2: Octet)
    ensures B0(D0(b0), D1(b0, b1)) == b0
    ensures B1(D1(b0, b1), D2(b1, b2)) == b1
    ensures B2(D2(b1, b2), D3(b2)) == b2
  {
  }

  function Quad(b0: Octet, b1: Octet, b2: Octet): Text {
    [Digit(D0(b0)), Digit(D1(b0, b1)), Digit(D2(b1, b2)), Digit(D3(b2))]
  }

  function Encode(b: Text): Text {
    if |b| == 0 then []
    else if |b| == 1 then Quad(b[0], ZERO, ZERO)[..2]
    else if |b| == 2 then Quad(b[0], b[1], ZERO)[..3]
    else Quad(b[0], b[1], b[2]) + Encode(b[3..])
  }

  // The decoder skips line breaks wherever they stand.
  function WithoutBreaks(s: Text): Text {
    if s == [] then []
    else if s[0] == '\r' || s[0] == '\n' then WithoutBreaks(s[1..])
    else [s[0]] + WithoutBreaks(s[1..])
  }

  function DecodeDigits(s: Text): Option<Text> {
    if |s| == 0 then Some([])
    else if |s| == 1 then None
    else
      match (Value(s[0]), Value(s[1]))
      case (Some(d0), Some(d1)) =>
        if |s| == 2 then Some([B0(d0, d1)])
        else
          (match Value(s[2])
           case Some(d2) =>
             if |s| == 3 then Some([B0(d0, d1), B1(d1, d2)])
             else
               (match (Value(s[3]), DecodeDigits(s[4..]))
                case (Some(d3), Some(rest)) => Some([B0(d0, d1), B1(d1, d2), B2(d2, d3)] + rest)
                case _ => None)
           case None => None)
      case _ => None
  }

  function Decode(s: Text): Option<Text> {
    DecodeDigits(WithoutBreaks(s))
  }

  lemma DigitValue(n: Sextet)
    ensures Value(Digit(n)) == Some(n)
  {
  }

  predicate IsDigit(c: Octet) { Value(c).Some? }

  lemma {:induction false} EncodeIsDigits(b: Text)
    ensures forall c | c in Encode(b) :: IsDigit(c)
    ensures |Encode(b)| == (4 * |b| + 2) / 3
  {
    if |b| < 3 {
    } else {
      EncodeIsDigits(b[3..]);
    }
  }

  lemma {:induction false} DigitsHaveNoBreaks(s: Text)
    requires forall c | c in s :: IsDigit(c)
    ensures WithoutBreaks(s) == s
  {
    if s == [] {
    } else {
      assert IsDigit(s[0]);
      DigitsHaveNoBreaks(s[1..]);
    }
  }

  lemma QuadValues(b0: Octet, b1: Octet, b2: Octet)
    ensures var q := Quad(b0, b1, b2);
            && Value(q[0]) == Some(D0(b0)) && Value(q[1]) == Some(D1(b0, b1))
            && Value(q[2]) == Some(D2(b1, b2)) && Value(q[3]) == Some(D3(b2))
  {
    DigitValue(D0(b0));
    DigitValue(D1(b0, b1));
    DigitValue(D2(b1, b2));
    DigitValue(D3(b2));
  }

  lemma {:induction false} DecodeDigitsEncode(b: Text)
    ensures DecodeDigits(Encode(b)) == Some(b)
  {
    if b == [] {
    } else {
      var b1 := if |b| > 1 then b[1] else ZERO;
      var b2 := if |b| > 2 then b[2] else ZERO;
      QuadValues(b[0], b1, b2);
      Regroup(b[0], b1, b2);
      if |b| >= 3 {
        DecodeDigitsEncode(b[3..]);
        assert Encode(b)[4..] == Encode(b[3..]);
        assert b == [b[0], b1, b2] + b[3..];
      } else if |b| == 2 {
        assert b == [b[0], b[1]];
      } else {
        assert b == [b[0]];
      }
    }
  }

  lemma DecodeEncode(b: Text)
    ensures Decode(Encode(b)) == Some(b)
  {
    EncodeIsDigits(b);
    DigitsHaveNoBreaks(Encode(b));
    DecodeDigitsEncode(b);
  }

  /** Line breaks may stand anywhere in an encoded text: they do not change what is read. */
  lemma {:induction false} BreaksDoNotMatter(a: Text, c: Octet, b: Text)
    requires c == '\r' || c == '\n'
    ensures Decode(a + [c] + b) == Decode(a + b)
  {
    BreakIsSkipped(a, c, b);
  }

  lemma {:induction false} BreakIsSkipped(a: Text, c: Octet, b: Text)
    requires c == '\r' || c == '\n'
    ensures WithoutBreaks(a + [c] + b) == WithoutBreaks(a + b)
  {
    var s, t := a + [c] + b, a + b;
    if a == [] {
      assert s[1..] == b && t == b;
    } else {
      BreakIsSkipped(a[1..], c, b);
      assert s[1..] == a[1..] + [c] + b && t[1..] == a[1..] + b;
    }
  }

  // ---- hexadecimal ----

  predicate IsHex(c: Octet) {
    '0' <= c <= '9' || 'a' <= c <= 'f' || 'A' <= c <= 'F'
  }

  function HexValue(c: Octet): (n: int)
    requires IsHex(c)
    ensures 0 <= n < 16
  {
    if '0' <= c <= '9' then c as int - '0' as int
    else if 'a' <= c <= 'f' then c as int - 'a' as int + 10
    else c as int - 'A' as int + 10
  }

  function HexDecode(s: Text): Option<Text> {
    if |s| == 0 then Some([])
    else if |s| == 1 || !IsHex(s[0]) || !IsHex(s[1]) then None
    else
      match HexDecode(s[2..])
      case Some(rest) =>
        var b: Octet := (HexValue(s[0]) * 16 + HexValue(s[1])) as char;
        Some([b] + rest)
      case None => None
  }

  // A secret is 32 bytes in hexadecimal.
  predicate IsSecret(s: Text) {
    |s| == 64 && forall c | c in s :: IsHex(c)
  }

  lemma {:induction false} HexDecodeLength(s: Text)
    ensures HexDecode(s).Some? <==> |s| % 2 == 0 && forall c | c in s :: IsHex(c)
    ensures HexDecode(s).Some? ==> 2 * |HexDecode(s).value| == |s|
  {
    if |s| >= 2 {
      HexDecodeLength(s[2..]);
      assert s == [s[0], s[1]] + s[2..];
    } else if |s| == 1 {
      assert s[0] in s;
    }
  }

  // ---- splitting at dots ----

  function Split(s: Text): seq<Text>
    ensures |Split(s)| > 0
  {
    if s == [] then [[]]
    else
      var rest := Split(s[1..]);
      if s[0] == '.' then [[]] + rest else [[s[0]] + rest[0]] + rest[1..]
  }

  lemma {:induction false} SplitNoDot(s: Text)
    requires '.' !in s
    ensures Split(s) == [s]
  {
    if s == [] {
    } else {
      SplitNoDot(s[1..]);
      assert [s[0]] + s[1..] == s;
    }
  }

  lemma {:induction false} SplitFirst(a: Text, b: Text)
    requires '.' !in a
    ensures Split(a + ['.'] + b) == [a] + Split(b)
  {
    var s := a + ['.'] + b;
    if a == [] {
      assert s[1..] == b;
    } else {
      SplitFirst(a[1..], b);
      assert s[1..] == a[1..] + ['.'] + b;
      assert [a[0]] + a[1..] == a;
    }
  }

  // ---- addresses ----

  // The text before the first c, and the text after it if there is one.
  function Before(s: Text, c: Octet): Text {
    if s == [] || s[0] == c then [] else [s[0]] + Before(s[1..], c)
  }

  function After(s: Text, c: Octet): Text {
    if s == [] then [] else if s[0] == c then s[1..] else After(s[1..], c)
  }

  lemma {:induction false} CutAt(a: Text, c: Octet, b: Text)
    requires c !in a
    ensures Before(a + [c] + b, c) == a && After(a + [c] + b, c) == b
  {
    var s := a + [c] + b;
    if a == [] {
      assert s[1..] == b;
    } else {
      CutAt(a[1..], c, b);
      assert s[1..] == a[1..] + [c] + b;
    }
  }

  lemma {:induction false} CutNone(a: Text, c: Octet)
    requires c !in a
    ensures Before(a, c) == a && After(a, c) == []
  {
    if a == [] {
    } else {
      CutNone(a[1..], c);
    }
  }

  function Lower(s: Text): Text {
    seq(|s|, i requires 0 <= i < |s| =>
      if 'A' <= s[i] <= 'Z' then ((s[i] as int + 32) as char) as Octet else s[i])
  }

  // The ASCII characters a host may hold as they are. Brackets belong to IPv6
  // literals, which are not part of this model.
  predicate IsHostChar(c: char) {
    'a' <= c <= 'z' || 'A' <= c <= 'Z' || '0' <= c <= '9' || c in "-._~!$&'()*+,;=<>\""
  }

  /** Of the printable ASCII characters a host may hold all but those that delimit
      other parts of an address or must be escaped everywhere. */
  lemma HostCharMeans(c: char)
    ensures IsHostChar(c) <==> 33 <= c as int < 127 && c !in "#%/:?@[]\\^`{|}"
  {
  }

  predicate IsAscii(c: char) { c as int < 128 }

  // Percent-decoding. In a host only bytes outside ASCII and the percent sign itself
  // may be escaped, and ASCII bytes must be host characters.
  function Unescape(s: Text, host: bool): Option<Text> {
    if s == [] then Some([])
    else if s[0] == '%' then
      if |s| < 3 || !IsHex(s[1]) || !IsHex(s[2]) then None
      else
        var c: Octet := (HexValue(s[1]) * 16 + HexValue(s[2])) as char;
        if host && IsAscii(c) && c != '%' then None
        else
          match Unescape(s[3..], host)
          case Some(rest) => Some([c] + rest)
          case None => None
    else if host && IsAscii(s[0]) && !IsHostChar(s[0]) then None
    else
      match Unescape(s[1..], host)
      case Some(rest) => Some([s[0]] + rest)
      case None => None
  }

  function UpperHex(n: int): Octet
    requires 0 <= n < 16
  {
    if n < 10 then ('0' as int + n) as char else ('A' as int + n - 10) as char
  }

  // A host as it is printed: bytes outside ASCII and the percent sign are escaped.
  function Escape(s: Text): Text {
    if s == [] then []
    else if !IsAscii(s[0]) || s[0] == '%' then
      ['%', UpperHex(s[0] as int / 16), UpperHex(s[0] as int % 16)] + Escape(s[1..])
    else [s[0]] + Escape(s[1..])
  }

  // What an unescaped host is made of.
  predicate IsHostByte(c: Octet) {
    IsHostChar(c) || !IsAscii(c) || c == '%'
  }

  lemma {:induction false} UnescapedBytes(s: Text)
    requires Unescape(s, true).Some?
    ensures forall c | c in Unescape(s, true).value :: IsHostByte(c)
    ensures forall c | c in s :: IsHostByte(c)
  {
    if s == [] {
    } else {
      if s[0] == '%' {
        UnescapedBytes(s[3..]);
        assert s == [s[0], s[1], s[2]] + s[3..];
      } else {
        UnescapedBytes(s[1..]);
        assert s == [s[0]] + s[1..];
      }
    }
  }

  lemma {:induction false} EscapedChars(s: Text)
    requires forall c | c in s :: IsHostByte(c)
    ensures forall c | c in Escape(s) :: IsHostChar(c) || c == '%'
    ensures Escape(s) == [] <==> s == []
  {
    if s == [] {
    } else {
      EscapedChars(s[1..]);
      assert s[0] in s;
    }
  }

  lemma HexDigits(c: Octet)
    ensures var d, e := UpperHex(c as int / 16), UpperHex(c as int % 16);
            IsHex(d) && IsHex(e) && HexValue(d) * 16 + HexValue(e) == c as int
  {
  }

  // Printing a host and reading it gives the host back.
  lemma {:induction false} UnescapeEscape(s: Text)
    requires forall c | c in s :: IsHostByte(c)
    ensures Unescape(Escape(s), true) == Some(s)
  {
    if s == [] {
    } else {
      UnescapeEscape(s[1..]);
      assert s[0] in s;
      if !IsAscii(s[0]) || s[0] == '%' {
        HexDigits(s[0]);
        assert Escape(s)[3..] == Escape(s[1..]);
      } else {
        assert Escape(s)[1..] == Escape(s[1..]);
      }
      assert s == [s[0]] + s[1..];
    }
  }

  function NonAscii(s: Text): nat {
    if s == [] then 0 else (if IsAscii(s[0]) then 0 else 1) + NonAscii(s[1..])
  }

  // Escapes keep their length; a byte outside ASCII becomes three.
  lemma {:induction false} EscapedLength(s: Text)
    requires Unescape(s, true).Some?
    ensures |Escape(Unescape(s, true).value)| == |s| + 2 * NonAscii(s)
  {
    if s == [] {
    } else {
      if s[0] == '%' {
        EscapedLength(s[3..]);
        HexIsAscii(s[1]);
        HexIsAscii(s[2]);
        assert NonAscii(s) == NonAscii(s[1..]) == NonAscii(s[1..][1..]) == NonAscii(s[1..][1..][1..]);
        assert s[1..][1..][1..] == s[3..];
        var d := Unescape(s, true).value;
        assert d[1..] == Unescape(s[3..], true).value;
      } else {
        EscapedLength(s[1..]);
        var d := Unescape(s, true).value;
        assert d[1..] == Unescape(s[1..], true).value;
      }
    }
  }

  lemma HexIsAscii(c: Octet)
    requires IsHex(c)
    ensures IsAscii(c)
  {
  }

  // A host with an optional decimal port.
  predicate IsAuthority(a: Text) {
    && Unescape(Before(a, ':'), true).Some? && Before(a, ':') != []
    && (forall c | c in After(a, ':') :: '0' <= c <= '9')
  }

  // An authority as it is printed.
  function Printed(a: Text): Text
    requires IsAuthority(a)
  {
    Escape(Unescape(Before(a, ':'), true).value) + (if ':' in a then [':'] + After(a, ':') else [])
  }

  lemma NotEmptied(s: Text)
    requires Unescape(s, true).Some? && s != []
    ensures Unescape(s, true).value != []
  {
  }

  lemma PrintedIsAuthority(a: Text)
    requires IsAuthority(a)
    ensures IsAuthority(Printed(a)) && Printed(Printed(a)) == Printed(a)
    ensures forall c | c in Printed(a) :: IsHostChar(c) || c == '%' || c == ':'
  {
    var host := Unescape(Before(a, ':'), true).value;
    var text := Escape(host);
    UnescapedBytes(Before(a, ':'));
    NotEmptied(Before(a, ':'));
    EscapedChars(host);
    UnescapeEscape(host);
    if ':' in a {
      CutAt(text, ':', After(a, ':'));
      assert Printed(a) == text + [':'] + After(a, ':');
      DigitsAreHostChars(After(a, ':'));
    } else {
      assert Printed(a) == text;
      CutNone(text, ':');
    }
  }

  lemma DigitsAreHostChars(s: Text)
    requires forall c | c in s :: '0' <= c <= '9'
    ensures forall c | c in s :: IsHostChar(c)
  {
  }

  lemma PrintedLength(a: Text)
    requires IsAuthority(a)
    ensures |Printed(a)| == |a| + 2 * NonAscii(Before(a, ':'))
  {
    EscapedLength(Before(a, ':'));
    BeforeAfter(a, ':');
  }

  datatype Address = Address(
    scheme: Text, authority: Text, path: Text, query: Text, forceQuery: bool, fragment: Text)

  // scheme "://" authority path, with an optional query and fragment. The path is
  // decoded; the authority is as it was written.
  function ParseAddress(value: Text): Option<Address> {
    var body := Before(value, '#');
    var scheme, rest := Lower(Before(body, ':')), After(body, ':');
    var main, query := Before(rest, '?'), After(rest, '?');
    if |main| < 2 || main[0] != '/' || main[1] != '/' then None
    else
      var authority := Before(main[2..], '/');
      var path := Unescape(if '/' in main[2..] then ['/'] + After(main[2..], '/') else [], false);
      if !IsAuthority(authority) || path.None? then None
      else Some(Address(scheme, authority, path.value, query, query == [] && '?' in rest, After(value, '#')))
  }

  const WSS: Text := "wss"
  const HTTPS: Text := "https"
  const AGENT_PATH: Text := "/agent"

  predicate ValidServerURL(value: Text) {
    match ParseAddress(value)
    case None => false
    case Some(u) => |value| <= MAX_ADDRESS && u.scheme == WSS && u.query == [] && u.fragment == [] && u.path == AGENT_PATH
  }

  function Rewritten(authority: Text): Text
    requires IsAuthority(authority)
  {
    "wss://" + Printed(authority) + "/agent"
  }

  // The public HTTPS origin or a WSS endpoint, as a WSS endpoint.
  function AgentServerURL(value: Text): Option<Text> {
    if ValidServerURL(value) then Some(value)
    else
      match ParseAddress(value)
      case None => None
      case Some(u) =>
        if |value| > MAX_ADDRESS || u.scheme != HTTPS || u.query != [] || u.forceQuery || u.fragment != []
           || (u.path != [] && u.path != ['/']) then None
        else if IsAuthority(u.authority) then Some(Rewritten(u.authority)) else None
  }

  lemma {:induction false} BeforeAfter(s: Text, c: Octet)
    ensures s == if c in s then Before(s, c) + [c] + After(s, c) else Before(s, c)
    ensures c !in Before(s, c)
  {
    if s == [] || s[0] == c {
    } else {
      var t := s[1..];
      BeforeAfter(t, c);
      assert s == [s[0]] + t;
      assert c in s <==> c in t;
      if c in s {
        assert s == [s[0]] + (Before(t, c) + [c] + After(t, c)) == Before(s, c) + [c] + After(s, c);
      }
    }
  }

  lemma NoMarks(a: Text)
    requires forall c | c in a :: IsHostByte(c) || c == ':'
    ensures '#' !in a && '?' !in a && '/' !in a
  {
  }

  // Scheme and rest of an address without a fragment.
  lemma SchemeAndRest(scheme: Text, rest: Text)
    requires ':' !in scheme && '#' !in scheme && '#' !in rest
    ensures var v := scheme + [':'] + rest;
            && Before(v, '#') == v && After(v, '#') == []
            && Before(v, ':') == scheme && After(v, ':') == rest
  {
    CutNone(scheme + [':'] + rest, '#');
    CutAt(scheme, ':', rest);
  }

  // Authority and path of an address without a query.
  lemma AuthorityAndPath(a: Text, path: Text)
    requires '/' !in a && '?' !in a && '?' !in path
    requires path != [] ==> path[0] == '/'
    ensures var slashes: Text := "//";
            var rest := slashes + a + path;
            && Before(rest, '?') == rest && After(rest, '?') == [] && '?' !in rest
            && rest[0] == '/' && rest[1] == '/'
            && Before(rest[2..], '/') == a
            && ('/' in rest[2..] <==> path != [])
            && (path != [] ==> ['/'] + After(rest[2..], '/') == path)
  {
    var slashes: Text := "//";
    var rest := slashes + a + path;
    CutNone(rest, '?');
    assert rest[2..] == a + path;
    if path == [] {
      assert rest[2..] == a;
      CutNone(a, '/');
    } else {
      assert rest[2..] == a + ['/'] + path[1..];
      CutAt(a, '/', path[1..]);
    }
  }

  // A wss address of a printed authority.
  lemma WssParses(a: Text)
    requires IsAuthority(a) && forall c | c in a :: IsHostByte(c) || c == ':'
    ensures ParseAddress("wss://" + a + "/agent") == Some(Address(WSS, a, AGENT_PATH, [], false, []))
  {
    var slashes: Text := "//";
    var rest: Text := slashes + a + AGENT_PATH;
    assert "wss://" + a + "/agent" == WSS + [':'] + rest;
    NoMarks(a);
    SchemeAndRest(WSS, rest);
    AuthorityAndPath(a, AGENT_PATH);
    assert Lower(WSS) == WSS;
    NothingToUnescape(AGENT_PATH);
  }

  lemma {:induction false} NothingToUnescape(s: Text)
    requires '%' !in s
    ensures Unescape(s, false) == Some(s)
  {
    if s == [] {
    } else {
      NothingToUnescape(s[1..]);
      assert s == [s[0]] + s[1..];
    }
  }

  lemma RewrittenParses(a: Text)
    requires IsAuthority(a)
    ensures ParseAddress(Rewritten(a)) == Some(Address(WSS, Printed(a), AGENT_PATH, [], false, []))
  {
    PrintedIsAuthority(a);
    WssParses(Printed(a));
  }

  /** A normalised address is a fixed point exactly when it is within the limit:
      the limit is checked before the rewrite, which may make the address longer. */
  lemma NormalisedIsFixedPoint(value: Text)
    requires AgentServerURL(value).Some?
    ensures var address := AgentServerURL(value).value;
            && (|address| <= MAX_ADDRESS ==> AgentServerURL(address) == Some(address))
            && (|address| > MAX_ADDRESS ==> AgentServerURL(address) == None)
  {
    if !ValidServerURL(value) {
      var u := ParseAddress(value).value;
      RewrittenParses(u.authority);
    }
  }

  /** How long a rewritten address is: twelve bytes, the authority, and two more for
      each of its bytes outside ASCII. */
  lemma NormalisedLength(value: Text)
    requires AgentServerURL(value).Some? && !ValidServerURL(value)
    ensures var a := ParseAddress(value).value.authority;
            |AgentServerURL(value).value| == |a| + 12 + 2 * NonAscii(Before(a, ':'))
  {
    PrintedLength(ParseAddress(value).value.authority);
  }

  lemma {:induction false} AfterNone(s: Text, c: Octet)
    requires c !in s
    ensures After(s, c) == []
  {
    if s == [] {
    } else {
      AfterNone(s[1..], c);
    }
  }

  lemma HttpsParses(host: Text)
    requires host != [] && Unescape(host, true).Some?
    ensures ParseAddress("https://" + host) == Some(Address(HTTPS, host, [], [], false, []))
  {
    var slashes: Text := "//";
    assert "https://" + host == HTTPS + [':'] + (slashes + host);
    assert slashes + host == slashes + host + [];
    UnescapedBytes(host);
    NoMarks(host);
    SchemeAndRest(HTTPS, slashes + host);
    AuthorityAndPath(host, []);
    assert Lower(HTTPS) == HTTPS;
    HostIsAuthority(host);
  }

  lemma HostIsAuthority(host: Text)
    requires host != [] && Unescape(host, true).Some?
    ensures IsAuthority(host) && ':' !in host
  {
    UnescapedBytes(host);
    assert ':' !in host;
    CutNone(host, ':');
  }

  // An address exactly at the limit whose rewrite is over it.
  lemma NormalisationCanExceedTheLimit(host: Text)
    requires |host| == MAX_ADDRESS - 8 && forall c | c in host :: 'a' <= c <= 'z'
    ensures AgentServerURL("https://" + host).Some?
    ensures AgentServerURL(AgentServerURL("https://" + host).value) == None
  {
    PlainHost(host);
    HttpsParses(host);
    NormalisedLength("https://" + host);
    NormalisedIsFixedPoint("https://" + host);
  }

  lemma {:induction false} PlainHost(host: Text)
    requires forall c | c in host :: IsHostChar(c) || !IsAscii(c)
    ensures Unescape(host, true) == Some(host)
  {
    if host == [] {
    } else {
      PlainHost(host[1..]);
      assert host[0] in host && host == [host[0]] + host[1..];
    }
  }

  lemma {:induction false} AllNonAscii(host: Text)
    requires forall c | c in host :: !IsAscii(c)
    ensures NonAscii(host) == |host|
  {
    if host == [] {
    } else {
      AllNonAscii(host[1..]);
    }
  }

  /** A host of bytes outside ASCII triples: from 679 such bytes on, an accepted
      address has a normal form that is refused. */
  lemma ForeignHostsTriple(host: Text)
    requires 0 < |host| <= MAX_ADDRESS - 8 && forall c | c in host :: !IsAscii(c)
    ensures AgentServerURL("https://" + host).Some?
    ensures AgentServerURL(AgentServerURL("https://" + host).value).None? <==> |host| >= 679
  {
    PlainHost(host);
    HttpsParses(host);
    HostIsAuthority(host);
    CutNone(host, ':');
    AllNonAscii(host);
    NormalisedLength("https://" + host);
    NormalisedIsFixedPoint("https://" + host);
  }

  // ---- which addresses are accepted ----

  // An address by its parts: "://" stands between scheme and authority, and `mark`
  // and `end` are an empty query's "?" and an empty fragment's "#", if written.
  datatype Written = Written(scheme: Text, authority: Text, path: Text, mark: Text, end: Text)

  function Spelled(w: Written): Text {
    w.scheme + "://" + w.authority + w.path + w.mark + w.end
  }

  // A WSS endpoint: its path decodes to /agent.
  predicate IsEndpoint(w: Written) {
    && SameLetters(w.scheme, "wss") && IsAuthority(w.authority)
    && w.path != [] && w.path[0] == '/' && Unescape(w.path[1..], false) == Some("agent")
    && (w.mark == [] || w.mark == "?") && (w.end == [] || w.end == "#")
    && '?' !in w.path && '#' !in w.path
  }

  // A public origin: no path but a single slash, and no question mark.
  predicate IsOrigin(w: Written) {
    && SameLetters(w.scheme, "https") && IsAuthority(w.authority)
    && (w.path == [] || w.path == "/") && w.mark == [] && (w.end == [] || w.end == "#")
  }

  lemma LowerMeans(s: Text, t: Text)
    requires forall c | c in t :: !('A' <= c <= 'Z')
    ensures Lower(s) == t <==> SameLetters(s, t)
  {
    if Lower(s) == t {
      assert |s| == |t| && forall i | 0 <= i < |s| :: Lower(s)[i] == t[i];
    }
    if SameLetters(s, t) {
      assert forall i | 0 <= i < |s| :: t[i] in t;
    }
  }

  lemma AuthorityHasNoMarks(a: Text)
    requires IsAuthority(a)
    ensures '#' !in a && '?' !in a && '/' !in a
  {
    UnescapedBytes(Before(a, ':'));
    BeforeAfter(a, ':');
    DigitsAreHostChars(After(a, ':'));
    assert forall c | c in a :: IsHostByte(c) || c == ':';
    NoMarks(a);
  }

  lemma SchemeHasNoMarks(s: Text, t: Text)
    requires SameLetters(s, t) && forall c | c in t :: 'a' <= c <= 'z'
    ensures ':' !in s && '#' !in s
  {
    assert forall i | 0 <= i < |s| :: t[i] in t && SameLetter(s[i], t[i]);
  }

  // An optional mark at the end of a text without it.
  lemma CutEnd(s: Text, c: Octet, end: Text)
    requires c !in s && (end == [] || end == [c])
    ensures Before(s + end, c) == s && After(s + end, c) == [] && (c in s + end <==> end == [c])
  {
    if end == [] {
      assert s + end == s;
      CutNone(s, c);
    } else {
      assert s + end == s + [c] + [];
      CutAt(s, c, []);
    }
  }

  // Scheme, "//" and what follows, before a query and a fragment.
  lemma SpelledParts(w: Written, main: Text)
    requires main == "//" + w.authority + w.path
    ensures Spelled(w) == (w.scheme + [':'] + (main + w.mark)) + w.end
    ensures main[2..] == w.authority + w.path
  {
  }

  lemma BodyHasNoHash(scheme: Text, main: Text, mark: Text)
    requires '#' !in scheme && '#' !in main && '#' !in mark
    ensures '#' !in scheme + [':'] + (main + mark)
  {
  }

  lemma MainHasNoMarks(w: Written, main: Text)
    requires IsAuthority(w.authority) && '?' !in w.path && '#' !in w.path
    requires main == "//" + w.authority + w.path
    ensures '?' !in main && '#' !in main
  {
    AuthorityHasNoMarks(w.authority);
  }

  // How a written address is taken apart.
  lemma PartsOf(w: Written)
    requires IsAuthority(w.authority) && ':' !in w.scheme && '#' !in w.scheme
    requires w.path == [] || w.path[0] == '/'
    requires '?' !in w.path && '#' !in w.path
    requires (w.mark == [] || w.mark == "?") && (w.end == [] || w.end == "#")
    ensures var path := Unescape(w.path, false);
            ParseAddress(Spelled(w)) == if path.None? then None
              else Some(Address(Lower(w.scheme), w.authority, path.value, [], w.mark == "?", []))
  {
    var slashes: Text := "//";
    var main := slashes + w.authority + w.path;
    var body := w.scheme + [':'] + (main + w.mark);
    SpelledParts(w, main);
    MainHasNoMarks(w, main);
    BodyHasNoHash(w.scheme, main, w.mark);
    CutEnd(body, '#', w.end);
    CutAt(w.scheme, ':', main + w.mark);
    CutEnd(main, '?', w.mark);
    AuthorityHasNoMarks(w.authority);
    AuthorityAndPath(w.authority, w.path);
  }

  lemma PathDecodes(path: Text)
    requires path != [] && path[0] == '/'
    ensures Unescape(path, false) == match Unescape(path[1..], false) case Some(t) => Some(['/'] + t) case None => None
  {
  }

  // Which written paths decode to none, to a slash and to /agent.
  lemma PathIs(path: Text)
    requires path == [] || path[0] == '/'
    ensures Unescape(path, false) == Some([]) <==> path == []
    ensures Unescape(path, false) == Some(['/']) <==> path == "/"
    ensures Unescape(path, false) == Some(AGENT_PATH) <==> path != [] && Unescape(path[1..], false) == Some("agent")
  {
    if path != [] {
      PathDecodes(path);
      var rest := Unescape(path[1..], false);
      assert rest.Some? ==> (['/'] + rest.value)[1..] == rest.value;
      assert AGENT_PATH[1..] == "agent" && ['/'] + "agent" == AGENT_PATH;
      assert path[1..] == [] ==> path == "/";
    }
  }

  lemma EndpointIsKept(w: Written)
    requires IsEndpoint(w)
    ensures AgentServerURL(Spelled(w)) == if |Spelled(w)| <= 2048 then Some(Spelled(w)) else None
  {
    SchemeHasNoMarks(w.scheme, "wss");
    PartsOf(w);
    PathDecodes(w.path);
    LowerMeans(w.scheme, WSS);
    assert ['/'] + "agent" == AGENT_PATH;
  }

  lemma OriginIsRewritten(w: Written)
    requires IsOrigin(w)
    ensures AgentServerURL(Spelled(w)) == if |Spelled(w)| <= 2048 then Some("wss://" + Printed(w.authority) + "/agent") else None
  {
    SchemeHasNoMarks(w.scheme, "https");
    PartsOf(w);
    LowerMeans(w.scheme, HTTPS);
  }

  // A text with nothing after its first c.
  lemma NothingAfter(s: Text, c: Octet)
    requires After(s, c) == []
    ensures s == Before(s, c) + (if c in s then [c] else []) && c !in Before(s, c)
  {
    BeforeAfter(s, c);
  }

  lemma SomethingAfter(s: Text, c: Octet)
    requires After(s, c) != []
    ensures s == Before(s, c) + [c] + After(s, c)
  {
    BeforeAfter(s, c);
    if c !in s {
      AfterNone(s, c);
    }
  }

  lemma WholeAgain(value: Text, body: Text, rest: Text, main: Text, w: Written)
    requires value == body + w.end && rest == main + w.mark
    requires body == w.scheme + [':'] + rest
    requires |main| >= 2 && main[0] == '/' && main[1] == '/' && main[2..] == w.authority + w.path
    ensures Spelled(w) == value
  {
    var slashes: Text := "//";
    assert main == slashes + w.authority + w.path;
    SpelledParts(w, main);
  }

  lemma PathMarks(body: Text, scheme: Text, rest: Text, main: Text, mark: Text, authority: Text, path: Text)
    requires body == scheme + [':'] + rest && rest == main + mark
    requires |main| >= 2 && main[2..] == authority + path
    ensures '#' !in body ==> '#' !in path
    ensures '?' !in main ==> '?' !in path
  {
    assert forall c | c in path :: c in main[2..];
    assert forall c | c in main :: c in rest;
    assert forall c | c in rest :: c in body;
  }

  // Authority and path, as written.
  lemma PathOf(text: Text) returns (path: Text)
    ensures path == if '/' in text then ['/'] + After(text, '/') else []
    ensures text == Before(text, '/') + path
  {
    BeforeAfter(text, '/');
    var a := Before(text, '/');
    path := [];
    if '/' in text {
      path := ['/'] + After(text, '/');
      assert a + ['/'] + After(text, '/') == a + path;
    }
  }

  // The parts of an address that parses without query and fragment.
  lemma WrittenAs(value: Text) returns (w: Written)
    requires ParseAddress(value).Some?
    requires ParseAddress(value).value.query == [] && ParseAddress(value).value.fragment == []
    ensures var u := ParseAddress(value).value;
            && Spelled(w) == value && w.authority == u.authority && Lower(w.scheme) == u.scheme && IsAuthority(w.authority)
            && (w.path == [] || w.path[0] == '/') && Unescape(w.path, false) == Some(u.path)
            && w.mark == (if u.forceQuery then "?" else []) && (w.end == [] || w.end == "#")
            && '?' !in w.path && '#' !in w.path
  {
    var body := Before(value, '#');
    var scheme, rest := Before(body, ':'), After(body, ':');
    var main := Before(rest, '?');
    NothingAfter(value, '#');
    NothingAfter(rest, '?');
    assert rest != [];
    SomethingAfter(body, ':');
    var path := PathOf(main[2..]);
    w := Written(scheme, Before(main[2..], '/'), path, if '?' in rest then "?" else [], if '#' in value then "#" else []);
    WholeAgain(value, body, rest, main, w);
    PathMarks(body, scheme, rest, main, w.mark, w.authority, path);
  }

  /** Exactly the WSS endpoints and the public origins of at most 2048 bytes are
      accepted. An endpoint is kept as it is written; an origin becomes the endpoint
      at its authority. */
  lemma AcceptedAddresses(value: Text, address: Text)
    ensures AgentServerURL(value) == Some(address) <==>
              && |value| <= 2048
              && exists w :: Spelled(w) == value
                   && ((IsEndpoint(w) && address == value)
                       || (IsOrigin(w) && address == "wss://" + Printed(w.authority) + "/agent"))
  {
    if AgentServerURL(value) == Some(address) {
      var w := WrittenAs(value);
      LowerMeans(w.scheme, WSS);
      LowerMeans(w.scheme, HTTPS);
      PathIs(w.path);
      assert IsEndpoint(w) || IsOrigin(w);
    }
    forall w | Spelled(w) == value && |value| <= 2048
      ensures IsEndpoint(w) ==> AgentServerURL(value) == Some(value)
      ensures IsOrigin(w) ==> AgentServerURL(value) == Some("wss://" + Printed(w.authority) + "/agent")
    {
      if IsEndpoint(w) { EndpointIsKept(w); }
      if IsOrigin(w) { OriginIsRewritten(w); }
    }
  }

  // ---- tokens ----

  const TAG: Text := "ops1"

  function EnrollmentToken(serverURL: Text, secret: Text): Text {
    TAG + ['.'] + Encode(serverURL) + ['.'] + secret
  }

  datatype Enrolled = Enrolled(server: Text, secret: Text)

  function ParseEnrollmentToken(token: Text): Option<Enrolled> {
    var parts := Split(token);
    if |token| > MAX_TOKEN || |parts| != 3 || parts[0] != TAG then None
    else
      match (Decode(parts[1]), HexDecode(parts[2]))
      case (Some(server), Some(key)) =>
        (match AgentServerURL(server)
         case Some(destination) => if |key| == 32 then Some(Enrolled(destination, parts[2])) else None
         case None => None)
      case _ => None
  }

  lemma EncodeHasNoDot(b: Text)
    ensures '.' !in Encode(b)
  {
    EncodeIsDigits(b);
    assert !IsDigit('.');
  }

  lemma TokenLength(serverURL: Text, secret: Text)
    ensures |EnrollmentToken(serverURL, secret)| == 6 + (4 * |serverURL| + 2) / 3 + |secret|
  {
    EncodeIsDigits(serverURL);
  }

  lemma TokenParts(serverURL: Text, secret: Text)
    requires '.' !in secret
    ensures Split(EnrollmentToken(serverURL, secret)) == [TAG, Encode(serverURL), secret]
  {
    var e := Encode(serverURL);
    EncodeHasNoDot(serverURL);
    SplitAtDots(TAG, e, secret);
  }

  lemma SplitAtDots(a: Text, b: Text, c: Text)
    requires '.' !in a && '.' !in b && '.' !in c
    ensures Split(a + ['.'] + b + ['.'] + c) == [a, b, c]
  {
    assert a + ['.'] + b + ['.'] + c == a + ['.'] + (b + ['.'] + c);
    SplitFirst(a, b + ['.'] + c);
    SplitFirst(b, c);
    SplitNoDot(c);
  }

  /** Parsing a printed token gives back the secret and the normalised address for
      exactly the addresses the program accepts, and the token limit is never met. */
  lemma TokenRoundTrip(serverURL: Text, secret: Text)
    requires IsSecret(secret)
    ensures ParseEnrollmentToken(EnrollmentToken(serverURL, secret)) ==
            match AgentServerURL(serverURL)
            case Some(address) => Some(Enrolled(address, secret))
            case None => None
    ensures AgentServerURL(serverURL).Some? ==> |EnrollmentToken(serverURL, secret)| < MAX_TOKEN
  {
    assert !IsHex('.');
    TokenParts(serverURL, secret);
    TokenLength(serverURL, secret);
    if AgentServerURL(serverURL).None? && |EnrollmentToken(serverURL, secret)| > MAX_TOKEN {
      return;
    }
    DecodeEncode(serverURL);
    HexDecodeLength(secret);
  }

  /** The tokens handlers print carry an already normalised address: they parse
      back to that address exactly when it is within the limit. */
  lemma NormalisedTokenRoundTrip(value: Text, secret: Text)
    requires IsSecret(secret) && AgentServerURL(value).Some?
    ensures var address := AgentServerURL(value).value;
            ParseEnrollmentToken(EnrollmentToken(address, secret)) ==
              if |address| <= MAX_ADDRESS then Some(Enrolled(address, secret)) else None
  {
    NormalisedIsFixedPoint(value);
    TokenRoundTrip(AgentServerURL(value).value, secret);
  }

  // Whatever parses carries a proper secret and a normalised address.
  lemma ParsedTokenIsSound(token: Text)
    requires ParseEnrollmentToken(token).Some?
    ensures var e := ParseEnrollmentToken(token).value;
            IsSecret(e.secret) && exists value :: AgentServerURL(value) == Some(e.server)
  {
    var parts := Split(token);
    HexDecodeLength(parts[2]);
    assert AgentServerURL(Decode(parts[1]).value) == Some(ParseEnrollmentToken(token).value.server);
  }

  lemma {:induction false} SplitAt(s: Text)
    ensures Split(s) == if '.' in s then [Before(s, '.')] + Split(After(s, '.')) else [s]
  {
    BeforeAfter(s, '.');
    if '.' in s {
      SplitFirst(Before(s, '.'), After(s, '.'));
    } else {
      SplitNoDot(s);
    }
  }

  lemma TwoParts(s: Text)
    requires |Split(s)| == 2
    ensures s == Split(s)[0] + ['.'] + Split(s)[1] && '.' !in Split(s)[0] && '.' !in Split(s)[1]
  {
    SplitAt(s);
    BeforeAfter(s, '.');
    SplitAt(After(s, '.'));
  }

  lemma ThreeParts(s: Text)
    requires |Split(s)| == 3
    ensures var p := Split(s); s == p[0] + ['.'] + p[1] + ['.'] + p[2] && '.' !in p[1]
  {
    SplitAt(s);
    BeforeAfter(s, '.');
    var a, t, p := Before(s, '.'), After(s, '.'), Split(s);
    assert Split(t) == p[1..];
    TwoParts(t);
    assert s == a + ['.'] + (p[1] + ['.'] + p[2]);
  }

  // The texts "ops1", code and secret joined by dots, for a code that decodes to an
  // accepted address and a secret.
  ghost predicate TokenOf(token: Text, code: Text, secret: Text, server: Text) {
    && token == "ops1" + ['.'] + code + ['.'] + secret && '.' !in code
    && IsSecret(secret)
    && Decode(code).Some? && AgentServerURL(Decode(code).value) == Some(server)
  }

  /** Exactly these texts, of at most 4096 bytes, are read as tokens. */
  lemma AcceptedTokens(token: Text, e: Enrolled)
    ensures ParseEnrollmentToken(token) == Some(e) <==>
              |token| <= 4096 && exists code :: TokenOf(token, code, e.secret, e.server)
  {
    assert !IsHex('.');
    if ParseEnrollmentToken(token) == Some(e) {
      ThreeParts(token);
      HexDecodeLength(e.secret);
      assert TokenOf(token, Split(token)[1], e.secret, e.server);
    }
    if code :| TokenOf(token, code, e.secret, e.server) {
      SplitAtDots(TAG, code, e.secret);
      HexDecodeLength(e.secret);
    }
  }

  // ---- host names ----

  predicate IsAlphanumeric(c: char) { 'a' <= c <= 'z' || 'A' <= c <= 'Z' || '0' <= c <= '9' }

  // ^[A-Za-z0-9][A-Za-z0-9._-]{0,252}$
  predicate IsNameChar(c: char) {
    'a' <= c <= 'z' || 'A' <= c <= 'Z' || '0' <= c <= '9' || c == '-' || c == '.' || c == '_'
  }

  predicate ValidHostname(name: string) {
    && 1 <= |name| <= 253
    && IsNameChar(name[0]) && name[0] !in "-._"
    && forall c | c in name :: IsNameChar(c)
  }

  /** A host name is a letter or digit and up to 252 letters, digits, dots, hyphens
      and underscores. */
  lemma HostnameMeans(name: string)
    ensures ValidHostname(name) <==>
              && 0 < |name| <= 253 && IsAlphanumeric(name[0])
              && forall i | 0 < i < |name| :: IsAlphanumeric(name[i]) || name[i] == '.' || name[i] == '-' || name[i] == '_'
  {
    assert forall i | 0 <= i < |name| :: name[i] in name;
  }
}
