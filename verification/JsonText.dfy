/** What becomes of a text that is sent as a JSON string (internal/agentwire/wire.go,
    Send): every byte that is not part of a valid UTF-8 sequence arrives as the
    replacement character U+FFFD. Data fields travel in base64 and arrive unchanged. */
module JsonText {
  import opened AgentWire

  // The replacement character.
  const MARK: seq<Byte> := [0xEF, 0xBF, 0xBD]

  predicate IsTail(b: Byte) { 0x80 <= b < 0xC0 }

  // The second byte of a sequence that starts with b: no overlong forms, no
  // surrogates, nothing above U+10FFFF.
  predicate IsSecond(b: Byte, c: Byte) {
    if b == 0xE0 then 0xA0 <= c < 0xC0
    else if b == 0xED then 0x80 <= c < 0xA0
    else if b == 0xF0 then 0x90 <= c < 0xC0
    else if b == 0xF4 then 0x80 <= c < 0x90
    else IsTail(c)
  }

  // How many bytes the first byte of a sequence announces.
  function Announced(b: Byte): (n: nat)
    ensures n <= 4
  {
    if b < 0x80 then 1
    else if b < 0xC2 then 0
    else if b < 0xE0 then 2
    else if b < 0xF0 then 3
    else if b < 0xF5 then 4
    else 0
  }

  // The length of the valid sequence at the front of s, or 0.
  function RuneLength(s: seq<Byte>): (n: nat)
    requires s != []
    ensures n <= |s|
  {
    var n := Announced(s[0]);
    if n > |s| then 0
    else if n >= 2 && !IsSecond(s[0], s[1]) then 0
    else if n >= 3 && !IsTail(s[2]) then 0
    else if n >= 4 && !IsTail(s[3]) then 0
    else n
  }

  // The UTF-8 form of a Unicode scalar value (table 3-6 of the Unicode Standard).
  predicate IsScalar(v: int) { 0 <= v < 0xD800 || 0xE000 <= v <= 0x10FFFF }

  function EncodeRune(v: int): seq<Byte>
    requires IsScalar(v)
  {
    if v < 0x80 then [v]
    else if v < 0x800 then [0xC0 + v / 64, 0x80 + v % 64]
    else if v < 0x10000 then [0xE0 + v / 4096, 0x80 + v / 64 % 64, 0x80 + v % 64]
    else [0xF0 + v / 262144, 0x80 + v / 4096 % 64, 0x80 + v / 64 % 64, 0x80 + v % 64]
  }

  // Two, three and four bytes put together.
  function Two(a: int, b: int): int { (a - 0xC0) * 64 + (b - 0x80) }
  function Three(a: int, b: int, c: int): int { (a - 0xE0) * 4096 + (b - 0x80) * 64 + (c - 0x80) }
  function Four(a: int, b: int, c: int, d: int): int {
    (a - 0xF0) * 262144 + (b - 0x80) * 4096 + (c - 0x80) * 64 + (d - 0x80)
  }

  lemma ThreeSplit(a: int, b: int, c: int)
    requires 0xE0 <= a < 0xF0 && 0x80 <= b < 0xC0 && 0x80 <= c < 0xC0
    ensures var v := Three(a, b, c); v / 4096 == a - 0xE0 && v / 64 % 64 == b - 0x80 && v % 64 == c - 0x80
  {
    assert Three(a, b, c) / 64 == (a - 0xE0) * 64 + (b - 0x80);
  }

  lemma FourSplit(a: int, b: int, c: int, d: int)
    requires 0xF0 <= a < 0xF5 && 0x80 <= b < 0xC0 && 0x80 <= c < 0xC0 && 0x80 <= d < 0xC0
    ensures var v := Four(a, b, c, d);
            v / 262144 == a - 0xF0 && v / 4096 % 64 == b - 0x80 && v / 64 % 64 == c - 0x80 && v % 64 == d - 0x80
  {
    assert Four(a, b, c, d) / 64 == (a - 0xF0) * 4096 + (b - 0x80) * 64 + (c - 0x80);
    assert Four(a, b, c, d) / 4096 == (a - 0xF0) * 64 + (b - 0x80);
  }

  lemma RecognisedIsEncoded(s: seq<Byte>) returns (v: int)
    requires s != [] && RuneLength(s) > 0
    ensures IsScalar(v) && s[..RuneLength(s)] == EncodeRune(v)
  {
    var n := RuneLength(s);
    if n == 1 {
      v := s[0];
    } else if n == 2 {
      v := Two(s[0], s[1]);
    } else if n == 3 {
      v := Three(s[0], s[1], s[2]);
      ThreeSplit(s[0], s[1], s[2]);
    } else {
      v := Four(s[0], s[1], s[2], s[3]);
      FourSplit(s[0], s[1], s[2], s[3]);
    }
  }

  lemma EncodedShape(v: int)
    requires IsScalar(v)
    ensures var e := EncodeRune(v);
            && Announced(e[0]) == |e|
            && (|e| >= 2 ==> IsSecond(e[0], e[1]))
            && (|e| >= 3 ==> IsTail(e[2])) && (|e| >= 4 ==> IsTail(e[3]))
  {
    if 0x800 <= v < 0x10000 {
      assert v / 4096 == 0 ==> v / 64 % 64 >= 0x20;
      assert v / 4096 == 13 ==> v / 64 % 64 < 0x20;
    } else if v >= 0x10000 {
      assert v / 262144 == 0 ==> v / 4096 % 64 >= 0x10;
      assert v / 262144 == 4 ==> v / 4096 % 64 < 0x10;
    }
  }

  lemma EncodedIsRecognised(v: int, rest: seq<Byte>)
    requires IsScalar(v)
    ensures RuneLength(EncodeRune(v) + rest) == |EncodeRune(v)|
  {
    EncodedShape(v);
    var e := EncodeRune(v);
    assert forall i | 0 <= i < |e| :: (e + rest)[i] == e[i];
  }

  /** A sequence is recognised at the front of a text exactly when the text starts
      with the UTF-8 form of a scalar value. */
  lemma RecognisedIff(s: seq<Byte>, n: nat)
    requires s != [] && n > 0
    ensures RuneLength(s) == n <==> exists v :: IsScalar(v) && EncodeRune(v) <= s && |EncodeRune(v)| == n
  {
    if RuneLength(s) == n {
      var v := RecognisedIsEncoded(s);
    }
    if v :| IsScalar(v) && EncodeRune(v) <= s && |EncodeRune(v)| == n {
      EncodedIsRecognised(v, s[n..]);
      assert s == EncodeRune(v) + s[n..];
    }
  }

  // The text as it arrives.
  function Coerce(s: seq<Byte>): seq<Byte> {
    if s == [] then []
    else
      var n := RuneLength(s);
      if n == 0 then MARK + Coerce(s[1..]) else s[..n] + Coerce(s[n..])
  }

  // The bytes that belong to no valid sequence.
  function Invalid(s: seq<Byte>): nat {
    if s == [] then 0
    else
      var n := RuneLength(s);
      if n == 0 then 1 + Invalid(s[1..]) else Invalid(s[n..])
  }

  predicate IsUtf8(s: seq<Byte>) { Invalid(s) == 0 }

  /** A text grows by two bytes for each invalid one, so it arrives unchanged exactly
      when it is valid UTF-8. */
  lemma {:induction false} CoercedLength(s: seq<Byte>)
    ensures |Coerce(s)| == |s| + 2 * Invalid(s)
    ensures Coerce(s) == s <==> IsUtf8(s)
  {
    if s == [] {
    } else {
      var n := RuneLength(s);
      if n == 0 {
        CoercedLength(s[1..]);
      } else {
        CoercedLength(s[n..]);
        assert s == s[..n] + s[n..];
        assert Coerce(s)[n..] == Coerce(s[n..]);
      }
    }
  }

  lemma MarkIsValid(s: seq<Byte>)
    ensures RuneLength(MARK + s) == 3 && (MARK + s)[3..] == s
  {
  }

  // A sequence is recognised whatever follows it.
  lemma RuneStays(s: seq<Byte>, t: seq<Byte>)
    requires s != [] && RuneLength(s) > 0
    ensures var n := RuneLength(s); RuneLength(s[..n] + t) == n && (s[..n] + t)[n..] == t
  {
  }

  /** What arrives is valid UTF-8, so a text that travels again changes no more. */
  lemma {:induction false} CoercedIsUtf8(s: seq<Byte>)
    ensures IsUtf8(Coerce(s)) && Coerce(Coerce(s)) == Coerce(s)
  {
    if s == [] {
    } else {
      var n := RuneLength(s);
      if n == 0 {
        CoercedIsUtf8(s[1..]);
        MarkIsValid(Coerce(s[1..]));
      } else {
        CoercedIsUtf8(s[n..]);
        RuneStays(s, Coerce(s[n..]));
      }
    }
    CoercedLength(Coerce(s));
  }

  function Repeat(b: Byte, n: nat): seq<Byte> {
    seq(n, i => b)
  }

  // Bytes 0xFF triple.
  lemma {:induction false} AllInvalid(n: nat)
    ensures Invalid(Repeat(0xFF, n)) == n
  {
    if n == 0 {
    } else {
      AllInvalid(n - 1);
      assert Repeat(0xFF, n)[1..] == Repeat(0xFF, n - 1);
    }
  }

  /** A text within the command limit whose arriving form is beyond it. */
  lemma CoercionCanExceedTheLimit()
    ensures |Repeat(0xFF, 21846)| <= MAX_COMMAND < |Coerce(Repeat(0xFF, 21846))|
  {
    AllInvalid(21846);
    CoercedLength(Repeat(0xFF, 21846));
  }
}
