/** Decimal integers as strconv prints and reads them. */
module Decimal {
  import opened Wrappers

  function DigitChar(n: int): char
    requires 0 <= n < 10
  {
    ('0' as int + n) as char
  }

  predicate IsDigit(c: char) { '0' <= c <= '9' }

  function PrintNat(n: nat): string
    decreases n
  {
    if n < 10 then [DigitChar(n)] else PrintNat(n / 10) + [DigitChar(n % 10)]
  }

  // strconv.Itoa
  function Itoa(n: int): string {
    if n < 0 then "-" + PrintNat(-n) else PrintNat(n)
  }

  function ReadNat(s: string): Option<nat> {
    if s == [] then Some(0)
    else
      match ReadNat(s[..|s| - 1])
      case Some(n) =>
        var c := s[|s| - 1];
        if IsDigit(c) then Some(n * 10 + (c as int - '0' as int)) else None
      case None => None
  }

  const INT_MAX := 0x7fff_ffff_ffff_ffff

  // strconv.Atoi: an optional sign, at least one digit, and a 64-bit result.
  function Atoi(s: string): Option<int> {
    if s == [] then None
    else
      var signed := s[0] == '-' || s[0] == '+';
      var digits := if signed then s[1..] else s;
      if digits == [] then None
      else
        match ReadNat(digits)
        case None => None
        case Some(n) =>
          var m: int := n;
          var v := if s[0] == '-' then -m else m;
          if -INT_MAX - 1 <= v <= INT_MAX then Some(v) else None
  }

  lemma {:induction false} ReadPrint(n: nat)
    ensures ReadNat(PrintNat(n)) == Some(n)
    ensures PrintNat(n) != [] && forall c | c in PrintNat(n) :: IsDigit(c)
    decreases n
  {
    if n >= 10 {
      ReadPrint(n / 10);
      var s := PrintNat(n);
      assert s[..|s| - 1] == PrintNat(n / 10);
    } else {
      assert ReadNat([DigitChar(n)][..0]) == Some(0);
    }
  }

  lemma AtoiItoa(n: int)
    requires -INT_MAX - 1 <= n <= INT_MAX
    ensures Atoi(Itoa(n)) == Some(n)
  {
    ReadPrint(if n < 0 then -n else n);
    if n >= 0 {
      assert IsDigit(Itoa(n)[0]);
    } else {
      assert Itoa(n)[1..] == PrintNat(-n);
    }
  }

  predicate AllDigits(s: string) { s != [] && forall c | c in s :: IsDigit(c) }

  lemma {:induction false} ReadsDigits(s: string)
    ensures ReadNat(s).Some? <==> forall c | c in s :: IsDigit(c)
  {
    if s != [] {
      var front, last := s[..|s| - 1], s[|s| - 1];
      ReadsDigits(front);
      assert s == front + [last];
      assert last in s && forall c | c in s :: c in front || c == last;
    }
  }

  lemma {:induction false} ZeroInFront(s: string)
    requires ReadNat(s).Some?
    ensures ReadNat("0" + s) == ReadNat(s)
  {
    var t := "0" + s;
    if s == [] {
      assert t[..0] == [] && ReadNat([]) == Some(0);
    } else {
      ZeroInFront(s[..|s| - 1]);
      assert t[..|t| - 1] == "0" + s[..|s| - 1];
    }
  }

  /** What is read besides canonical prints: a plus sign and leading zeros do not
      matter, and nothing but a sign and digits is read. */
  lemma AtoiReads(s: string)
    requires AllDigits(s)
    ensures Atoi("+" + s) == Atoi(s) && Atoi("0" + s) == Atoi(s)
    ensures Atoi(s).Some? ==> Atoi("-" + s) == Some(-Atoi(s).value)
  {
    ReadsDigits(s);
    ZeroInFront(s);
    assert s[0] in s && IsDigit(s[0]);
    assert ("0" + s)[0] == '0';
    assert ("+" + s)[1..] == s && ("-" + s)[1..] == s;
  }

  lemma AtoiNeedsDigits(s: string)
    requires Atoi(s).Some?
    ensures AllDigits(s) || (|s| > 1 && (s[0] == '+' || s[0] == '-') && AllDigits(s[1..]))
  {
    ReadsDigits(s);
    if s[0] == '+' || s[0] == '-' {
      ReadsDigits(s[1..]);
    }
  }

  // Two numbers with the same print are the same.
  lemma PrintNatInjective(m: nat, n: nat)
    requires PrintNat(m) == PrintNat(n)
    ensures m == n
  {
    ReadPrint(m);
    ReadPrint(n);
  }
}
