/** Pairing codes as humans type them (src/lib/pairing/pairing-store.ts). */
module PairingCode {
  import opened Wrappers
  import Text

  const CROCKFORD := "0123456789ABCDEFGHJKMNPQRSTVWXYZ"

  const CODE_LENGTH := 10

  predicate IsSymbol(c: char) { c in CROCKFORD }

  predicate IsDigitOrCapital(c: char) { '0' <= c <= '9' || 'A' <= c <= 'Z' }

  /** Crockford base32: the digits and the capital letters other than I, L, O and U. */
  lemma SymbolIff(c: char)
    ensures IsSymbol(c) <==> IsDigitOrCapital(c) && c != 'I' && c != 'L' && c != 'O' && c != 'U'
  {
    if IsSymbol(c) {
      SymbolIndex(c);
    } else if IsDigitOrCapital(c) && c != 'I' && c != 'L' && c != 'O' && c != 'U' {
      var n := c as int;
      InCrockford(if c <= '9' then n - 48 else if c < 'I' then n - 55 else if c < 'L' then n - 56
                  else if c < 'O' then n - 57 else if c < 'U' then n - 58 else n - 59, c);
    }
  }

  lemma SymbolIndex(c: char)
    requires IsSymbol(c)
    ensures IsDigitOrCapital(c) && c != 'I' && c != 'L' && c != 'O' && c != 'U'
  {
    var i :| 0 <= i < 32 && CROCKFORD[i] == c;
    SymbolAt(i);
  }

  lemma InCrockford(i: nat, c: char)
    requires i < 32 && c as int == SymbolCode(i)
    ensures IsSymbol(c)
  {
    SymbolAt(i);
    assert CROCKFORD[i] in CROCKFORD;
  }

  /** The character code of a symbol: the digits, then the letters with four left out. */
  function SymbolCode(i: nat): int {
    i + if i < 10 then 48 else if i < 18 then 55 else if i < 20 then 56 else if i < 22 then 57 else if i < 27 then 58 else 59
  }

  lemma SymbolAt(i: nat)
    requires i < 32
    ensures |CROCKFORD| == 32 && CROCKFORD[i] as int == SymbolCode(i)
  {
  }

  predicate IsCode(code: string) {
    |code| == CODE_LENGTH && forall c :: c in code ==> IsSymbol(c)
  }

  function Upper(c: char): char {
    if 'a' <= c <= 'z' then (c as int - 32) as char else c
  }

  /** Spaces and grouping dashes are dropped; the ambiguous letters stand for the digits they look like. */
  function Fold(raw: string): string {
    if raw == "" then ""
    else if Text.IsSpace(raw[0]) || raw[0] == '-' then Fold(raw[1..])
    else [FoldChar(Upper(raw[0]))] + Fold(raw[1..])
  }

  function FoldChar(c: char): char {
    if c == 'O' then '0' else if c == 'I' || c == 'L' then '1' else c
  }

  /** Each random byte picks a symbol by its low five bits. */
  method Generate(bytes: seq<nat>) returns (code: string)
    requires |bytes| == CODE_LENGTH && forall i :: 0 <= i < |bytes| ==> bytes[i] < 256
    ensures IsCode(code) && |code| == 10
    ensures forall i :: 0 <= i < |code| ==> code[i] == CROCKFORD[bytes[i] % 32]
  {
    code := "";
    for i := 0 to |bytes|
      invariant |code| == i && forall j :: 0 <= j < i ==> code[j] == CROCKFORD[bytes[j] % 32]
    {
      code := code + [CROCKFORD[bytes[i] % 32]];
    }
  }

  method Normalize(raw: string) returns (code: Option<string>)
    ensures code == if IsCode(Fold(raw)) then Some(Fold(raw)) else None
    ensures code.Some? <==> |Fold(raw)| == 10 && forall c :: c in Fold(raw) ==> c in "0123456789ABCDEFGHJKMNPQRSTVWXYZ"
  {
    var folded := Fold(raw);
    if |folded| != CODE_LENGTH { return None; }
    for i := 0 to |folded|
      invariant forall j :: 0 <= j < i ==> IsSymbol(folded[j])
    {
      if !IsSymbol(folded[i]) { return None; }
    }
    code := Some(folded);
  }

  /** The form shown to the human: two groups of five. */
  function Display(code: string): string
    requires IsCode(code)
  {
    code[..5] + "-" + code[5..]
  }

  function Lower(c: char): char {
    if 'A' <= c <= 'Z' then (c as int + 32) as char else c
  }

  /** `typed` spells `code`: letter by letter in either case, with the look-alike letters allowed, and with any
      spaces and dashes anywhere. */
  ghost predicate Spells(typed: string, code: string) {
    if typed == "" then code == ""
    else
      || ((Text.IsSpace(typed[0]) || typed[0] == '-') && Spells(typed[1..], code))
      || (code != "" && LooksLike(typed[0], code[0]) && Spells(typed[1..], code[1..]))
  }

  ghost predicate LooksLike(t: char, c: char) {
    t == c || t == Lower(c) || (c == '0' && (t == 'o' || t == 'O')) ||
    (c == '1' && (t == 'i' || t == 'I' || t == 'l' || t == 'L'))
  }

  lemma CrockfordFolds(t: char, c: char)
    requires IsSymbol(c) && LooksLike(t, c)
    ensures FoldChar(Upper(t)) == c && !Text.IsSpace(t) && t != '-'
  {
    SymbolIff(c);
  }

  lemma CrockfordKnown(t: char)
    requires IsSymbol(FoldChar(Upper(t)))
    ensures LooksLike(t, FoldChar(Upper(t)))
  {
    SymbolIff(FoldChar(Upper(t)));
  }

  lemma {:induction false} FoldOfSpelling(typed: string, code: string)
    requires forall c :: c in code ==> IsSymbol(c)
    ensures Spells(typed, code) <==> Fold(typed) == code
  {
    if typed != "" {
      var t := typed[0];
      FoldOfSpelling(typed[1..], code);
      if !(Text.IsSpace(t) || t == '-') {
        if code != "" {
          assert code == [code[0]] + code[1..];
          FoldOfSpelling(typed[1..], code[1..]);
          if LooksLike(t, code[0]) { CrockfordFolds(t, code[0]); }
          if FoldChar(Upper(t)) == code[0] { CrockfordKnown(t); }
        }
      } else if code != "" {
        if LooksLike(t, code[0]) { CrockfordFolds(t, code[0]); }
      }
    }
  }

  /** Every code is recovered from every way of typing it, and from nothing else. */
  lemma NormalizeRecognisesSpellings(typed: string, code: string)
    requires IsCode(code)
    ensures Spells(typed, code) <==> Fold(typed) == code
  {
    FoldOfSpelling(typed, code);
  }

  lemma {:induction false} SpellsAfter(a: string, b: string, code: string)
    requires Spells(b, code)
    requires forall c :: c in a ==> IsSymbol(c)
    ensures Spells(a + b, a + code)
  {
    if a == "" {
      assert a + b == b && a + code == code;
    } else {
      assert (a + b)[1..] == a[1..] + b && (a + code)[1..] == a[1..] + code;
      SpellsAfter(a[1..], b, code);
    }
  }

  /** The displayed form spells the code it shows. */
  lemma DisplayRoundTrip(code: string)
    requires IsCode(code)
    ensures Fold(Display(code)) == code
    ensures |Display(code)| == 11 && Display(code)[5] == '-'
  {
    var a, b := code[..5], code[5..];
    SpellsAfter(b, "", "");
    assert b + "" == b;
    assert ("-" + b)[1..] == b;
    assert Spells("-" + b, b);
    SpellsAfter(a, "-" + b, b);
    assert a + "-" + b == a + ("-" + b) && a + b == code;
    FoldOfSpelling(Display(code), code);
  }
}
