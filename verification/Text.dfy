/** String helpers with the meaning JavaScript gives them. */
module Text {

  /** The characters String.prototype.trim removes. */
  predicate IsSpace(c: char) {
    var n := c as int;
    0x09 <= n <= 0x0d || n == 0x20 || n == 0xa0 || n == 0x1680 || 0x2000 <= n <= 0x200a ||
    n == 0x2028 || n == 0x2029 || n == 0x202f || n == 0x205f || n == 0x3000 || n == 0xfeff
  }

  /** White space and line terminators of ECMAScript, sections 12.2 and 12.3: the tabs and breaks, the space, the
      no-break spaces, the separators, and the other space separators of Unicode. */
  lemma SpacesAre(c: char)
    ensures var known := {9, 11, 12, 32, 160, 65279, 10, 13, 8232, 8233, 5760, 8192, 8193, 8194, 8195, 8196, 8197, 8198,
                          8199, 8200, 8201, 8202, 8239, 8287, 12288};
      IsSpace(c) <==> c as int in known
  {
  }

  function TrimStart(s: string): string {
    if s != "" && IsSpace(s[0]) then TrimStart(s[1..]) else s
  }

  function TrimEnd(s: string): string {
    if s != "" && IsSpace(s[|s|-1]) then TrimEnd(s[..|s|-1]) else s
  }

  function Trim(s: string): string {
    TrimEnd(TrimStart(s))
  }

  predicate AllSpace(s: string) {
    forall i :: 0 <= i < |s| ==> IsSpace(s[i])
  }

  predicate Tight(s: string) {
    s == "" || (!IsSpace(s[0]) && !IsSpace(s[|s| - 1]))
  }

  lemma {:induction false} TrimStartIs(s: string) returns (before: string)
    ensures AllSpace(before) && s == before + TrimStart(s)
    ensures TrimStart(s) == "" || !IsSpace(TrimStart(s)[0])
  {
    before := "";
    if s != "" && IsSpace(s[0]) {
      before := TrimStartIs(s[1..]);
      before := [s[0]] + before;
      assert s == [s[0]] + s[1..];
    }
  }

  lemma {:induction false} TrimEndIs(s: string) returns (after: string)
    ensures AllSpace(after) && s == TrimEnd(s) + after
    ensures TrimEnd(s) == "" || !IsSpace(TrimEnd(s)[|TrimEnd(s)| - 1])
  {
    after := "";
    if s != "" && IsSpace(s[|s| - 1]) {
      after := TrimEndIs(s[..|s| - 1]);
      after := after + [s[|s| - 1]];
      assert s == s[..|s| - 1] + [s[|s| - 1]];
    }
  }

  /** Trimming removes the space at both ends and nothing else. */
  lemma TrimIs(s: string) returns (before: string, after: string)
    ensures AllSpace(before) && AllSpace(after) && Tight(Trim(s)) && s == before + Trim(s) + after
  {
    before := TrimStartIs(s);
    after := TrimEndIs(TrimStart(s));
    assert Trim(s) != "" ==> Trim(s)[0] == TrimStart(s)[0];
  }

  // ---------------------------------------------------------------- numerals

  predicate IsDigit(c: char) { '0' <= c <= '9' }

  predicate Digits(s: string) { s != "" && forall i :: 0 <= i < |s| ==> IsDigit(s[i]) }

  /** The number a string of digits stands for. */
  function Number(s: string): nat {
    if s == "" then 0
    else Number(s[..|s| - 1]) * 10 + if IsDigit(s[|s| - 1]) then s[|s| - 1] as int - '0' as int else 0
  }

  /** A number in decimal, most significant digit first, without leading zeros. */
  function Numeral(n: nat): (s: string)
    ensures s != ""
  {
    (if n < 10 then "" else Numeral(n / 10)) + ["0123456789"[n % 10]]
  }

  lemma DigitReads(d: nat)
    requires d < 10
    ensures IsDigit("0123456789"[d]) && "0123456789"[d] as int == '0' as int + d
  {
  }

  lemma ReadOn(s: string, c: char)
    requires IsDigit(c)
    ensures Number(s + [c]) == 10 * Number(s) + (c as int - '0' as int)
  {
    assert (s + [c])[..|s|] == s;
  }

  lemma {:induction false} NumeralIsDigits(n: nat)
    ensures Digits(Numeral(n)) && (n > 0 ==> Numeral(n)[0] != '0')
  {
    if n >= 10 { NumeralIsDigits(n / 10); }
  }

  /** Reading undoes printing. */
  lemma {:induction false} NumberOfNumeral(n: nat)
    ensures Number(Numeral(n)) == n
  {
    DigitReads(n % 10);
    if n >= 10 {
      NumberOfNumeral(n / 10);
      ReadOn(Numeral(n / 10), "0123456789"[n % 10]);
    } else {
      ReadOn("", "0123456789"[n % 10]);
    }
  }

  /** Leading zeros are read as nothing. */
  lemma {:induction false} LeadingZero(s: string)
    ensures Number("0" + s) == Number(s)
  {
    var t := "0" + s;
    if s == "" {
      assert t[..0] == "" && Number("") == 0;
    } else {
      LeadingZero(s[..|s| - 1]);
      assert t[..|t| - 1] == "0" + s[..|s| - 1] && t[|t| - 1] == s[|s| - 1];
    }
  }

  lemma {:induction false} NotZero(s: string)
    requires Digits(s) && s[0] != '0'
    ensures Number(s) > 0
  {
    if |s| > 1 { NotZero(s[..|s| - 1]); }
  }

  /** Without them printing undoes reading. */
  lemma {:induction false} NumeralOfNumber(s: string)
    requires Digits(s) && (s[0] == '0' ==> s == "0")
    ensures Numeral(Number(s)) == s
  {
    var front, c := s[..|s| - 1], s[|s| - 1];
    var d := c as int - '0' as int;
    DigitReads(d);
    assert s == front + [c];
    ReadOn(front, c);
    if front == "" {
      assert Number(front) == 0;
    } else {
      NotZero(front);
      NumeralOfNumber(front);
      assert Number(s) / 10 == Number(front) && Number(s) % 10 == d;
    }
  }

  function Pow10(k: nat): nat {
    if k == 0 then 1 else 10 * Pow10(k - 1)
  }

  /** A number below 10^k has at most k digits. */
  lemma {:induction false} NumeralLength(n: nat, k: nat)
    requires k >= 1 && n < Pow10(k)
    ensures |Numeral(n)| <= k
  {
    if n >= 10 { NumeralLength(n / 10, k - 1); }
  }
}
