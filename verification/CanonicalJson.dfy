/** src/lib/delivery/outbox.ts */
module CanonicalJson {
  // The canonical JSON text that decides whether re-enqueued work is the same work.
  //
  // Object members are listed as `Object.entries` lists them: array indices first, ascending, then the other keys in
  // insertion order. The collation behind `localeCompare` is a parameter: `rank` orders keys, and two different keys
  // may share a rank (a comparison result of zero). Any total preorder on strings has this form.

  import Text

  const NUMBER_CHARS := "0123456789+-.eE"

  /** A number, as the text it prints as. */
  type NumberLiteral = s: string | |s| > 0 && forall c :: c in s ==> c in NUMBER_CHARS witness "0"

  datatype Member = Member(key: string, value: Json)

  datatype Json =
    | Null
    | Bool(b: bool)
    | Num(literal: NumberLiteral)
    | Str(text: string)
    | Arr(items: seq<Json>)
    | Obj(members: seq<Member>)

  type Collation = string -> real

  ghost predicate DistinctKeys(ms: seq<Member>) {
    forall i, j :: 0 <= i < j < |ms| ==> ms[i].key != ms[j].key
  }

  /** An array index of ECMAScript: a decimal below 2^32 - 1 without leading zeros. */
  predicate IsIndex(k: string) {
    && Text.Digits(k) && |k| <= 10
    && (k[0] == '0' ==> k == "0") && Text.Number(k) < 0xffff_ffff
  }

  /** These are the numerals of the numbers below 2^32 - 1. */
  lemma IndexIff(k: string)
    ensures IsIndex(k) <==> exists n: nat :: n < 0xffff_ffff && k == Text.Numeral(n)
  {
    if IsIndex(k) {
      Text.NumeralOfNumber(k);
    }
    if n: nat :| n < 0xffff_ffff && k == Text.Numeral(n) {
      Text.NumeralIsDigits(n);
      Text.NumberOfNumeral(n);
      TenDigits(n);
    }
  }

  lemma TenDigits(n: nat)
    requires n < 0xffff_ffff
    ensures |Text.Numeral(n)| <= 10
  {
    assert Text.Pow10(5) == 100_000;
    assert Text.Pow10(10) == 10_000_000_000;
    Text.NumeralLength(n, 10);
  }

  /** Before an index only smaller indices are listed; the other keys may come in any order. */
  predicate MayPrecede(a: string, b: string) {
    IsIndex(b) ==> IsIndex(a) && Text.Number(a) < Text.Number(b)
  }

  ghost predicate Enumerated(ms: seq<Member>) {
    forall i, j :: 0 <= i < j < |ms| ==> MayPrecede(ms[i].key, ms[j].key)
  }

  /** A value JSON.parse can return: no object has the same key twice, and its members are listed in the order in
      which JavaScript enumerates them. */
  ghost predicate WellFormed(j: Json) {
    match j
    case Arr(items) => forall x :: x in items ==> WellFormed(x)
    case Obj(ms) => DistinctKeys(ms) && Enumerated(ms) && forall m :: m in ms ==> WellFormed(m.value)
    case _ => true
  }

  // ---------------------------------------------------------------- printing

  function Hex(n: nat): char
    requires n < 16
  {
    "0123456789abcdef"[n]
  }

  /** How JSON.stringify writes one character inside a string. */
  function EscapeChar(c: char): string {
    if c == '"' then ['\\', '"']
    else if c == '\\' then ['\\', '\\']
    else if c as int >= 0x20 then [c]
    else if c as int == 0x08 then ['\\', 'b']
    else if c as int == 0x09 then ['\\', 't']
    else if c as int == 0x0a then ['\\', 'n']
    else if c as int == 0x0c then ['\\', 'f']
    else if c as int == 0x0d then ['\\', 'r']
    else ['\\', 'u', '0', '0', Hex(c as int / 16), Hex(c as int % 16)]
  }

  /** As short as JSON allows: two characters for the quote, the backslash and the five named controls, six with lower-case
      digits for the other controls, and every other character as it is. */
  lemma EscapeForm(c: char)
    ensures var n, e := c as int, EscapeChar(c);
      if n >= 32 && n != 34 && n != 92 then e == [c]
      else e[0] == '\\' && |e| == (if n in {8, 9, 10, 12, 13, 34, 92} then 2 else 6) && forall x :: x in e ==> !('A' <= x <= 'Z')
  {
    if |EscapeChar(c)| == 6 {
      HexIsLower(c as int / 16);
      HexIsLower(c as int % 16);
    }
  }

  lemma HexIsLower(n: nat)
    requires n < 16
    ensures !('A' <= Hex(n) <= 'Z')
  {
  }

  function Escape(s: string): string {
    if s == "" then "" else EscapeChar(s[0]) + Escape(s[1..])
  }

  function Quote(s: string): string {
    ['"'] + Escape(s) + ['"']
  }

  // ---------------------------------------------------------------- sorting

  /** Puts `m` before the first member of equal or higher rank, which keeps the sort stable. */
  function Insert(rank: Collation, m: Member, ms: seq<Member>): seq<Member> {
    if ms == [] then [m]
    else if rank(m.key) <= rank(ms[0].key) then [m] + ms
    else [ms[0]] + Insert(rank, m, ms[1..])
  }

  function SortMembers(rank: Collation, ms: seq<Member>): seq<Member> {
    if ms == [] then [] else Insert(rank, ms[0], SortMembers(rank, ms[1..]))
  }

  lemma {:induction false} InsertKeepsMembers(rank: Collation, m: Member, ms: seq<Member>)
    ensures multiset(Insert(rank, m, ms)) == multiset{m} + multiset(ms)
  {
    if ms == [] {
    } else {
      assert ms == [ms[0]] + ms[1..];
      if rank(m.key) > rank(ms[0].key) {
        InsertKeepsMembers(rank, m, ms[1..]);
      }
    }
  }

  lemma {:induction false} SortKeepsMembers(rank: Collation, ms: seq<Member>)
    ensures multiset(SortMembers(rank, ms)) == multiset(ms)
    ensures forall m :: m in SortMembers(rank, ms) <==> m in ms
  {
    if ms == [] {
    } else {
      assert ms == [ms[0]] + ms[1..];
      SortKeepsMembers(rank, ms[1..]);
      InsertKeepsMembers(rank, ms[0], SortMembers(rank, ms[1..]));
    }
    forall m ensures m in SortMembers(rank, ms) <==> m in ms {
      assert m in SortMembers(rank, ms) <==> m in multiset(SortMembers(rank, ms));
    }
  }

  ghost predicate Ascending(rank: Collation, ms: seq<Member>) {
    forall i, j :: 0 <= i < j < |ms| ==> rank(ms[i].key) <= rank(ms[j].key)
  }

  lemma {:induction false} InsertAscends(rank: Collation, m: Member, ms: seq<Member>)
    requires Ascending(rank, ms)
    ensures Ascending(rank, Insert(rank, m, ms))
  {
    if ms == [] {
    } else if rank(m.key) > rank(ms[0].key) {
      var tail := Insert(rank, m, ms[1..]);
      InsertAscends(rank, m, ms[1..]);
      InsertKeepsMembers(rank, m, ms[1..]);
      forall k | 0 <= k < |tail| ensures rank(ms[0].key) <= rank(tail[k].key) {
        assert tail[k] in multiset(tail);
        assert tail[k] == m || tail[k] in ms[1..];
      }
    }
  }

  lemma {:induction false} SortAscends(rank: Collation, ms: seq<Member>)
    ensures Ascending(rank, SortMembers(rank, ms))
  {
    if ms == [] {
    } else {
      SortAscends(rank, ms[1..]);
      InsertAscends(rank, ms[0], SortMembers(rank, ms[1..]));
    }
  }

  lemma SortKeepsDistinct(rank: Collation, ms: seq<Member>)
    requires DistinctKeys(ms)
    ensures DistinctKeys(SortMembers(rank, ms))
  {
    var s := SortMembers(rank, ms);
    SortKeepsMembers(rank, ms);
    forall i, j | 0 <= i < j < |s| ensures s[i].key != s[j].key {
      assert s[i] in ms && s[j] in ms;
      if s[i].key == s[j].key {
        assert s[i] == s[j];
        MultisetTwice(s, i, j);
        DistinctOnce(ms, s[i]);
      }
    }
  }

  lemma MultisetTwice(s: seq<Member>, i: nat, j: nat)
    requires i < j < |s| && s[i] == s[j]
    ensures multiset(s)[s[i]] >= 2
  {
    assert s == s[..i] + [s[i]] + s[i+1..j] + [s[j]] + s[j+1..];
  }

  lemma DistinctOnce(ms: seq<Member>, m: Member)
    requires DistinctKeys(ms) && m in ms
    ensures multiset(ms)[m] == 1
  {
    var i :| 0 <= i < |ms| && ms[i] == m;
    assert ms == ms[..i] + [m] + ms[i+1..];
    assert m !in ms[..i] && m !in ms[i+1..];
  }

  // ---------------------------------------------------------------- canonical text

  /** The text that is hashed: objects print their members in collation order. */
  function Canonical(rank: Collation, j: Json): string
    decreases j, 1
  {
    match j
    case Null => "null"
    case Bool(b) => if b then "true" else "false"
    case Num(n) => n
    case Str(s) => Quote(s)
    case Arr(items) => "[" + CanonicalItems(rank, items, j) + "]"
    case Obj(ms) =>
      SortKeepsMembers(rank, ms);
      assert forall i :: 0 <= i < |SortMembers(rank, ms)| ==> SortMembers(rank, ms)[i] in ms;
      "{" + CanonicalMembers(rank, SortMembers(rank, ms), j) + "}"
  }

  function CanonicalItems(rank: Collation, items: seq<Json>, ghost within: Json): string
    requires forall i :: 0 <= i < |items| ==> items[i] < within
    decreases within, 0, |items|
  {
    if items == [] then ""
    else if |items| == 1 then Canonical(rank, items[0])
    else Canonical(rank, items[0]) + "," + CanonicalItems(rank, items[1..], within)
  }

  function CanonicalMember(rank: Collation, m: Member, ghost within: Json): string
    requires m.value < within
    decreases within, 0, 0
  {
    Quote(m.key) + ":" + Canonical(rank, m.value)
  }

  function CanonicalMembers(rank: Collation, ms: seq<Member>, ghost within: Json): string
    requires forall i :: 0 <= i < |ms| ==> ms[i].value < within
    decreases within, 0, |ms| + 1
  {
    if ms == [] then ""
    else if |ms| == 1 then CanonicalMember(rank, ms[0], within)
    else CanonicalMember(rank, ms[0], within) + "," + CanonicalMembers(rank, ms[1..], within)
  }

  // ---------------------------------------------------------------- meaning

  /** A JSON value with the order of object members forgotten. */
  datatype Value =
    | VNull
    | VBool(b: bool)
    | VNum(literal: NumberLiteral)
    | VStr(text: string)
    | VArr(items: seq<Value>)
    | VObj(members: map<string, Value>)

  ghost function Meaning(j: Json): Value
    decreases j, 1
  {
    match j
    case Null => VNull
    case Bool(b) => VBool(b)
    case Num(n) => VNum(n)
    case Str(s) => VStr(s)
    case Arr(items) => VArr(seq(|items|, i requires 0 <= i < |items| => Meaning(items[i])))
    case Obj(ms) => VObj(MembersMeaning(ms, j))
  }

  ghost function MembersMeaning(ms: seq<Member>, within: Json): map<string, Value>
    requires forall i :: 0 <= i < |ms| ==> ms[i].value < within
    decreases within, 0, |ms|
  {
    map k | k in Keys(ms) :: Meaning(ValueAt(ms, k))
  }

  ghost function Keys(ms: seq<Member>): set<string> {
    set m | m in ms :: m.key
  }

  ghost function ValueAt(ms: seq<Member>, k: string): (v: Json)
    requires k in Keys(ms)
    ensures exists m :: m in ms && m.key == k && m.value == v
  {
    var m :| m in ms && m.key == k;
    m.value
  }

  // ---------------------------------------------------------------- unique decoding

  lemma EscapeCharSplits(c: char, d: char, s: string, t: string)
    requires EscapeChar(c) + s == EscapeChar(d) + t
    ensures c == d && s == t
  {
    var x, y := EscapeChar(c) + s, EscapeChar(d) + t;
    assert x[0] == EscapeChar(c)[0] && y[0] == EscapeChar(d)[0];
    if |EscapeChar(c)| > 1 && |EscapeChar(d)| > 1 {
      assert x[1] == EscapeChar(c)[1] && y[1] == EscapeChar(d)[1];
      if |EscapeChar(c)| > 2 && |EscapeChar(d)| > 2 {
        assert x[4] == EscapeChar(c)[4] && y[4] == EscapeChar(d)[4];
        assert x[5] == EscapeChar(c)[5] && y[5] == EscapeChar(d)[5];
        HexInjective(c as int / 16, d as int / 16);
        HexInjective(c as int % 16, d as int % 16);
      }
    }
    assert c == d;
    assert s == x[|EscapeChar(c)|..] && t == y[|EscapeChar(d)|..];
  }

  lemma HexInjective(m: nat, n: nat)
    requires m < 16 && n < 16
    ensures Hex(m) == Hex(n) ==> m == n
  {
  }

  lemma EscapeHead(a: string)
    ensures a != "" ==> |Escape(a)| > 0 && Escape(a)[0] != '"'
  {
  }

  lemma Assoc(u: string, v: string, w: string)
    ensures u + v + w == u + (v + w)
  {
  }

  lemma TailOf(u: string, v: string)
    ensures (u + v)[|u|..] == v && (u + v)[..|u|] == u
  {
  }

  lemma EscapeStep(a: string, s: string)
    requires a != ""
    ensures Escape(a) + s == EscapeChar(a[0]) + (Escape(a[1..]) + s)
  {
    Assoc(EscapeChar(a[0]), Escape(a[1..]), s);
  }

  ghost predicate Closing(s: string, c: char) {
    |s| > 0 && s[0] == c
  }

  /** A quoted string ends at its closing quote and nowhere else. */
  lemma {:induction false} EscapeSplits(a: string, b: string, s: string, t: string)
    requires Closing(s, '"') && Closing(t, '"')
    requires Escape(a) + s == Escape(b) + t
    ensures a == b && s == t
  {
    EscapeHead(a);
    EscapeHead(b);
    assert (Escape(a) + s)[0] == (Escape(b) + t)[0];
    if a == "" || b == "" {
      assert a == "" && b == "";
      TailOf("", s);
      TailOf("", t);
    } else {
      EscapeStep(a, s);
      EscapeStep(b, t);
      EscapeCharSplits(a[0], b[0], Escape(a[1..]) + s, Escape(b[1..]) + t);
      EscapeSplits(a[1..], b[1..], s, t);
      assert a == [a[0]] + a[1..] && b == [b[0]] + b[1..];
    }
  }

  /** Text that cannot continue a number. */
  ghost predicate Follow(s: string) {
    s == "" || s[0] !in NUMBER_CHARS
  }

  /** The character after the literal in `a + s` is not a number character. */
  lemma AfterNumber(a: NumberLiteral, s: string, k: nat)
    requires Follow(s)
    ensures k < |a| ==> (a + s)[k] in NUMBER_CHARS
    ensures k == |a| && k < |a + s| ==> (a + s)[k] !in NUMBER_CHARS
  {
    if k < |a| { assert a[k] in a; }
  }

  lemma {:induction false} NumberSplits(a: NumberLiteral, b: NumberLiteral, s: string, t: string)
    requires Follow(s) && Follow(t) && a + s == b + t
    ensures a == b && s == t
  {
    AfterNumber(a, s, |a|);
    AfterNumber(a, s, |b|);
    AfterNumber(b, t, |a|);
    AfterNumber(b, t, |b|);
    assert |a| == |b|;
    TailOf(a, s);
    TailOf(b, t);
  }

  /** The first character tells the kind of a value apart. */
  lemma CanonicalHead(rank: Collation, j: Json)
    ensures |Canonical(rank, j)| > 0
    ensures Canonical(rank, j)[0] == match j
            case Null => 'n'
            case Bool(b) => if b then 't' else 'f'
            case Num(n) => n[0]
            case Str(_) => '"'
            case Arr(_) => '['
            case Obj(_) => '{'
    ensures j.Num? ==> Canonical(rank, j)[0] in NUMBER_CHARS
  {
    if j.Num? { assert j.literal[0] in j.literal; }
  }

  lemma SameKind(rank: Collation, a: Json, b: Json, s: string, t: string)
    requires Canonical(rank, a) + s == Canonical(rank, b) + t
    ensures a.Null? == b.Null? && a.Bool? == b.Bool? && a.Num? == b.Num? && a.Str? == b.Str?
    ensures a.Arr? == b.Arr? && a.Obj? == b.Obj?
    ensures a.Bool? ==> a == b
  {
    CanonicalHead(rank, a);
    CanonicalHead(rank, b);
    assert (Canonical(rank, a) + s)[0] == (Canonical(rank, b) + t)[0];
    assert Canonical(rank, a)[0] == Canonical(rank, b)[0];
  }

  /** Equal canonical texts mean equal values up to member order, and no canonical text is a
      proper prefix of another. */
  lemma {:induction false} TextDetermines(rank: Collation, a: Json, b: Json, s: string, t: string)
    requires WellFormed(a) && WellFormed(b)
    requires Follow(s) && Follow(t)
    requires Canonical(rank, a) + s == Canonical(rank, b) + t
    ensures s == t && Meaning(a) == Meaning(b) && Canonical(rank, a) == Canonical(rank, b)
    decreases a, 2
  {
    SameKind(rank, a, b, s, t);
    TailOf(Canonical(rank, a), s);
    TailOf(Canonical(rank, b), t);
    if a.Num? {
      NumberSplits(a.literal, b.literal, s, t);
    } else if a.Str? {
      StringsDetermine(a.text, b.text, s, t);
    } else if a.Arr? {
      ArraysDetermine(rank, a.items, b.items, s, t);
    } else if a.Obj? {
      ObjectsDetermine(rank, a.members, b.members, s, t);
    }
  }

  lemma StringsDetermine(m: string, n: string, s: string, t: string)
    requires Quote(m) + s == Quote(n) + t
    ensures m == n && s == t
  {
    Unwrap('"', Escape(m), ['"'], s);
    Unwrap('"', Escape(n), ['"'], t);
    EscapeSplits(m, n, ['"'] + s, ['"'] + t);
    TailOf(['"'], s);
    TailOf(['"'], t);
  }

  /** Drops the opening bracket and regroups the closing one with the rest of the text. */
  lemma Unwrap(open: char, body: string, close: string, rest: string)
    ensures ([open] + body + close + rest)[1..] == body + (close + rest)
  {
  }

  lemma {:induction false} ArraysDetermine(rank: Collation, xs: seq<Json>, ys: seq<Json>, s: string, t: string)
    requires WellFormed(Arr(xs)) && WellFormed(Arr(ys))
    requires Canonical(rank, Arr(xs)) + s == Canonical(rank, Arr(ys)) + t
    ensures s == t && Meaning(Arr(xs)) == Meaning(Arr(ys))
    ensures |xs| == |ys| && forall i :: 0 <= i < |xs| ==> Canonical(rank, xs[i]) == Canonical(rank, ys[i])
    decreases Arr(xs), 1
  {
    var a, b := Arr(xs), Arr(ys);
    Unwrap('[', CanonicalItems(rank, xs, a), "]", s);
    Unwrap('[', CanonicalItems(rank, ys, b), "]", t);
    ItemsDetermine(rank, xs, a, ys, b, "]" + s, "]" + t);
    assert s == ("]" + s)[1..] && t == ("]" + t)[1..];
  }

  lemma {:induction false} ObjectsDetermine(rank: Collation, ms: seq<Member>, ns: seq<Member>, s: string, t: string)
    requires WellFormed(Obj(ms)) && WellFormed(Obj(ns))
    requires Canonical(rank, Obj(ms)) + s == Canonical(rank, Obj(ns)) + t
    ensures s == t && Meaning(Obj(ms)) == Meaning(Obj(ns))
    ensures SameLayout(rank, SortMembers(rank, ms), SortMembers(rank, ns))
    decreases Obj(ms), 1
  {
    var a, b := Obj(ms), Obj(ns);
    ObjectParts(rank, ms);
    ObjectParts(rank, ns);
    var ms', ns' := SortMembers(rank, ms), SortMembers(rank, ns);
    Unwrap('{', CanonicalMembers(rank, ms', a), "}", s);
    Unwrap('{', CanonicalMembers(rank, ns', b), "}", t);
    MembersDetermine(rank, ms', a, ns', b, "}" + s, "}" + t);
    assert s == ("}" + s)[1..] && t == ("}" + t)[1..];
    SortedMeaning(rank, ms, ns);
  }

  lemma ObjectParts(rank: Collation, ms: seq<Member>)
    requires WellFormed(Obj(ms))
    ensures forall i :: 0 <= i < |ms| ==> ms[i].value < Obj(ms)
    ensures forall i :: 0 <= i < |SortMembers(rank, ms)| ==>
      SortMembers(rank, ms)[i] in ms && SortMembers(rank, ms)[i].value < Obj(ms) &&
      WellFormed(SortMembers(rank, ms)[i].value)
  {
    SortKeepsMembers(rank, ms);
    var s := SortMembers(rank, ms);
    forall i | 0 <= i < |s| ensures s[i] in ms && s[i].value < Obj(ms) && WellFormed(s[i].value) {
      assert s[i] in ms;
    }
  }

  /** What follows the first of a comma-separated list. */
  ghost function AfterFirst(more: bool, others: string, end: string): string {
    if more then "," + others + end else end
  }

  lemma Regroup(first: string, others: string, end: string)
    ensures first + "," + others + end == first + ("," + others + end)
  {
  }

  lemma ItemsSplit(rank: Collation, xs: seq<Json>, a: Json, end: string)
    requires forall i :: 0 <= i < |xs| ==> xs[i] < a
    requires |xs| > 0
    ensures CanonicalItems(rank, xs, a) + end
         == Canonical(rank, xs[0]) + AfterFirst(|xs| > 1, CanonicalItems(rank, xs[1..], a), end)
  {
    if |xs| > 1 {
      Regroup(Canonical(rank, xs[0]), CanonicalItems(rank, xs[1..], a), end);
    }
  }

  lemma AfterFirstSplits(more: bool, others: string, end: string, more': bool, others': string, end': string, c: char)
    requires Closing(end, c) && Closing(end', c) && c != ','
    requires AfterFirst(more, others, end) == AfterFirst(more', others', end')
    ensures more == more'
    ensures if more then others + end == others' + end' else end == end'
  {
    if more && more' {
      Unwrap(',', others, end, "");
      Unwrap(',', others', end', "");
      assert others + end == AfterFirst(more, others, end)[1..];
      assert others' + end' == AfterFirst(more', others', end')[1..];
    }
  }

  lemma AfterFirstFollows(more: bool, others: string, end: string, c: char)
    requires Closing(end, c) && c !in NUMBER_CHARS
    ensures Follow(AfterFirst(more, others, end))
  {
  }

  lemma ItemsHead(rank: Collation, xs: seq<Json>, a: Json, end: string)
    requires forall i :: 0 <= i < |xs| ==> xs[i] < a
    requires Closing(end, ']')
    ensures |CanonicalItems(rank, xs, a) + end| > 0
    ensures (CanonicalItems(rank, xs, a) + end)[0] == ']' <==> xs == []
  {
    if xs != [] {
      CanonicalHead(rank, xs[0]);
      ItemsSplit(rank, xs, a, end);
    }
  }

  /** Two lists of items that print alike agree on the first item and on whether more follow. */
  lemma {:induction false} FirstItem(rank: Collation, xs: seq<Json>, a: Json, ys: seq<Json>, b: Json, s: string, t: string)
    requires xs != [] && ys != []
    requires forall i :: 0 <= i < |xs| ==> xs[i] < a && WellFormed(xs[i])
    requires forall i :: 0 <= i < |ys| ==> ys[i] < b && WellFormed(ys[i])
    requires Closing(s, ']') && Closing(t, ']')
    requires CanonicalItems(rank, xs, a) + s == CanonicalItems(rank, ys, b) + t
    ensures Meaning(xs[0]) == Meaning(ys[0]) && Canonical(rank, xs[0]) == Canonical(rank, ys[0])
    ensures |xs| > 1 <==> |ys| > 1
    ensures if |xs| > 1 then CanonicalItems(rank, xs[1..], a) + s == CanonicalItems(rank, ys[1..], b) + t else s == t
    decreases a, 0, 0
  {
    var tailX, tailY := CanonicalItems(rank, xs[1..], a), CanonicalItems(rank, ys[1..], b);
    var restX, restY := AfterFirst(|xs| > 1, tailX, s), AfterFirst(|ys| > 1, tailY, t);
    assert Canonical(rank, xs[0]) + restX == Canonical(rank, ys[0]) + restY by {
      ItemsSplit(rank, xs, a, s);
      ItemsSplit(rank, ys, b, t);
    }
    assert Follow(restX) && Follow(restY) by {
      AfterFirstFollows(|xs| > 1, tailX, s, ']');
      AfterFirstFollows(|ys| > 1, tailY, t, ']');
    }
    TextDetermines(rank, xs[0], ys[0], restX, restY);
    AfterFirstSplits(|xs| > 1, tailX, s, |ys| > 1, tailY, t, ']');
  }

  lemma {:induction false} ItemsDetermine(rank: Collation, xs: seq<Json>, a: Json, ys: seq<Json>, b: Json,
                                          s: string, t: string)
    requires forall i :: 0 <= i < |xs| ==> xs[i] < a && WellFormed(xs[i])
    requires forall i :: 0 <= i < |ys| ==> ys[i] < b && WellFormed(ys[i])
    requires Closing(s, ']') && Closing(t, ']')
    requires CanonicalItems(rank, xs, a) + s == CanonicalItems(rank, ys, b) + t
    ensures |xs| == |ys| && s == t
    ensures forall i :: 0 <= i < |xs| ==> Meaning(xs[i]) == Meaning(ys[i])
    ensures forall i :: 0 <= i < |xs| ==> Canonical(rank, xs[i]) == Canonical(rank, ys[i])
    decreases a, 0, |xs| + 1
  {
    ItemsHead(rank, xs, a, s);
    ItemsHead(rank, ys, b, t);
    if xs == [] {
      TailOf("", s);
      TailOf("", t);
    } else {
      FirstItem(rank, xs, a, ys, b, s, t);
      if |xs| > 1 {
        ItemsDetermine(rank, xs[1..], a, ys[1..], b, s, t);
        assert forall i :: 1 <= i < |xs| ==> xs[i] == xs[1..][i-1];
        assert forall i :: 1 <= i < |ys| ==> ys[i] == ys[1..][i-1];
      }
    }
  }

  /** Two sorted member lists with the same keys, texts and meanings in the same places. */
  ghost predicate SameLayout(rank: Collation, ms: seq<Member>, ns: seq<Member>) {
    |ms| == |ns| && forall i :: 0 <= i < |ms| ==> SameMember(rank, ms[i], ns[i])
  }

  ghost predicate SameMember(rank: Collation, m: Member, n: Member) {
    m.key == n.key && Meaning(m.value) == Meaning(n.value) && Canonical(rank, m.value) == Canonical(rank, n.value)
  }

  lemma MembersSplit(rank: Collation, ms: seq<Member>, a: Json, end: string)
    requires forall i :: 0 <= i < |ms| ==> ms[i].value < a
    requires |ms| > 0
    ensures CanonicalMembers(rank, ms, a) + end
         == CanonicalMember(rank, ms[0], a) + AfterFirst(|ms| > 1, CanonicalMembers(rank, ms[1..], a), end)
  {
    if |ms| > 1 {
      Regroup(CanonicalMember(rank, ms[0], a), CanonicalMembers(rank, ms[1..], a), end);
    }
  }

  lemma MembersHead(rank: Collation, ms: seq<Member>, a: Json, end: string)
    requires forall i :: 0 <= i < |ms| ==> ms[i].value < a
    requires Closing(end, '}')
    ensures |CanonicalMembers(rank, ms, a) + end| > 0
    ensures (CanonicalMembers(rank, ms, a) + end)[0] == '}' <==> ms == []
  {
    if ms != [] {
      MembersSplit(rank, ms, a, end);
      assert CanonicalMember(rank, ms[0], a)[0] == '"';
    }
  }

  lemma MemberText(rank: Collation, m: Member, a: Json, s: string)
    requires m.value < a
    ensures CanonicalMember(rank, m, a) + s == Quote(m.key) + (":" + (Canonical(rank, m.value) + s))
  {
    ColonRegroup(Quote(m.key), Canonical(rank, m.value), s);
  }

  lemma ColonRegroup(key: string, value: string, s: string)
    ensures key + ":" + value + s == key + (":" + (value + s))
  {
  }

  lemma {:induction false} MemberDetermines(rank: Collation, m: Member, a: Json, n: Member, b: Json, s: string, t: string)
    requires m.value < a && n.value < b && WellFormed(m.value) && WellFormed(n.value)
    requires Follow(s) && Follow(t)
    requires CanonicalMember(rank, m, a) + s == CanonicalMember(rank, n, b) + t
    ensures SameMember(rank, m, n) && s == t
    decreases a, 0, 0
  {
    MemberText(rank, m, a, s);
    MemberText(rank, n, b, t);
    var x, y := Canonical(rank, m.value) + s, Canonical(rank, n.value) + t;
    StringsDetermine(m.key, n.key, ":" + x, ":" + y);
    TailOf(":", x);
    TailOf(":", y);
    TextDetermines(rank, m.value, n.value, s, t);
  }

  /** Two member lists that print alike agree on the first member and on whether more follow. */
  lemma {:induction false} FirstMember(rank: Collation, ms: seq<Member>, a: Json, ns: seq<Member>, b: Json, s: string, t: string)
    requires ms != [] && ns != []
    requires forall i :: 0 <= i < |ms| ==> ms[i].value < a && WellFormed(ms[i].value)
    requires forall i :: 0 <= i < |ns| ==> ns[i].value < b && WellFormed(ns[i].value)
    requires Closing(s, '}') && Closing(t, '}')
    requires CanonicalMembers(rank, ms, a) + s == CanonicalMembers(rank, ns, b) + t
    ensures SameMember(rank, ms[0], ns[0])
    ensures |ms| > 1 <==> |ns| > 1
    ensures if |ms| > 1 then CanonicalMembers(rank, ms[1..], a) + s == CanonicalMembers(rank, ns[1..], b) + t else s == t
    decreases a, 0, 2, 0
  {
    MembersSplit(rank, ms, a, s);
    MembersSplit(rank, ns, b, t);
    FirstMemberText(rank, ms[0], a, ns[0], b, |ms| > 1, CanonicalMembers(rank, ms[1..], a), s,
                    |ns| > 1, CanonicalMembers(rank, ns[1..], b), t);
  }

  lemma {:induction false} FirstMemberText(rank: Collation, m: Member, a: Json, n: Member, b: Json,
                                           more: bool, others: string, s: string, more': bool, others': string, t: string)
    requires m.value < a && n.value < b && WellFormed(m.value) && WellFormed(n.value)
    requires Closing(s, '}') && Closing(t, '}')
    requires CanonicalMember(rank, m, a) + AfterFirst(more, others, s) == CanonicalMember(rank, n, b) + AfterFirst(more', others', t)
    ensures SameMember(rank, m, n) && more == more'
    ensures if more then others + s == others' + t else s == t
    decreases a, 0, 1
  {
    AfterFirstFollows(more, others, s, '}');
    AfterFirstFollows(more', others', t, '}');
    MemberDetermines(rank, m, a, n, b, AfterFirst(more, others, s), AfterFirst(more', others', t));
    AfterFirstSplits(more, others, s, more', others', t, '}');
  }

  lemma LayoutCons(rank: Collation, ms: seq<Member>, ns: seq<Member>)
    requires ms != [] && ns != [] && SameMember(rank, ms[0], ns[0]) && SameLayout(rank, ms[1..], ns[1..])
    ensures SameLayout(rank, ms, ns)
  {
    assert forall i :: 1 <= i < |ms| ==> ms[i] == ms[1..][i-1] && ns[i] == ns[1..][i-1];
  }

  lemma {:induction false} MembersDetermine(rank: Collation, ms: seq<Member>, a: Json, ns: seq<Member>, b: Json,
                                            s: string, t: string)
    requires forall i :: 0 <= i < |ms| ==> ms[i].value < a && WellFormed(ms[i].value)
    requires forall i :: 0 <= i < |ns| ==> ns[i].value < b && WellFormed(ns[i].value)
    requires Closing(s, '}') && Closing(t, '}')
    requires CanonicalMembers(rank, ms, a) + s == CanonicalMembers(rank, ns, b) + t
    ensures s == t && SameLayout(rank, ms, ns)
    decreases a, 0, |ms| + 1
  {
    MembersHead(rank, ms, a, s);
    MembersHead(rank, ns, b, t);
    if ms == [] {
      TailOf("", s);
      TailOf("", t);
    } else {
      FirstMember(rank, ms, a, ns, b, s, t);
      if |ms| > 1 {
        MembersDetermine(rank, ms[1..], a, ns[1..], b, s, t);
        LayoutCons(rank, ms, ns);
      }
    }
  }

  lemma ValueAtKey(ms: seq<Member>, m: Member)
    requires DistinctKeys(ms) && m in ms
    ensures m.key in Keys(ms) && ValueAt(ms, m.key) == m.value
  {
  }

  lemma MeaningAtKey(ms: seq<Member>, m: Member)
    requires DistinctKeys(ms) && m in ms
    requires forall i :: 0 <= i < |ms| ==> ms[i].value < Obj(ms)
    ensures m.key in Meaning(Obj(ms)).members && Meaning(Obj(ms)).members[m.key] == Meaning(m.value)
  {
    ValueAtKey(ms, m);
  }

  /** Every entry of the first object's map is an entry of the second's. */
  lemma LayoutEntries(rank: Collation, ms: seq<Member>, ns: seq<Member>)
    requires WellFormed(Obj(ms)) && WellFormed(Obj(ns))
    requires SameLayout(rank, SortMembers(rank, ms), SortMembers(rank, ns))
    ensures forall k :: k in Meaning(Obj(ms)).members ==>
      k in Meaning(Obj(ns)).members && Meaning(Obj(ns)).members[k] == Meaning(Obj(ms)).members[k]
  {
    var s, t := SortMembers(rank, ms), SortMembers(rank, ns);
    SortKeepsMembers(rank, ms);
    ObjectParts(rank, ms);
    ObjectParts(rank, ns);
    forall k | k in Meaning(Obj(ms)).members
      ensures k in Meaning(Obj(ns)).members && Meaning(Obj(ns)).members[k] == Meaning(Obj(ms)).members[k]
    {
      assert k in MembersMeaning(ms, Obj(ms));
      var m :| m in ms && m.key == k;
      assert m in s;
      var i :| 0 <= i < |s| && s[i] == m;
      SameEntry(rank, ms, ns, s[i], t[i]);
    }
  }

  lemma SameEntry(rank: Collation, ms: seq<Member>, ns: seq<Member>, m: Member, n: Member)
    requires WellFormed(Obj(ms)) && WellFormed(Obj(ns))
    requires m in ms && n in ns && SameMember(rank, m, n)
    ensures m.key in Meaning(Obj(ms)).members && m.key in Meaning(Obj(ns)).members
    ensures Meaning(Obj(ms)).members[m.key] == Meaning(Obj(ns)).members[m.key]
  {
    MeaningAtKey(ms, m);
    MeaningAtKey(ns, n);
  }

  lemma SortedMeaning(rank: Collation, ms: seq<Member>, ns: seq<Member>)
    requires WellFormed(Obj(ms)) && WellFormed(Obj(ns))
    requires SameLayout(rank, SortMembers(rank, ms), SortMembers(rank, ns))
    ensures Meaning(Obj(ms)) == Meaning(Obj(ns))
  {
    LayoutEntries(rank, ms, ns);
    LayoutEntries(rank, ns, ms);
    assert Meaning(Obj(ms)).members == Meaning(Obj(ns)).members;
  }

  /** Two values with the same canonical text are equal up to member order, whatever the collation. */
  lemma SameTextSameValue(rank: Collation, a: Json, b: Json)
    requires WellFormed(a) && WellFormed(b)
    requires Canonical(rank, a) == Canonical(rank, b)
    ensures Meaning(a) == Meaning(b)
  {
    assert Canonical(rank, a) + "" == Canonical(rank, b) + "";
    TextDetermines(rank, a, b, "", "");
  }

  // ---------------------------------------------------------------- order blindness

  /** No object inside `j` has two keys, neither of them an index, that the collation treats as equal. */
  ghost predicate TieFree(rank: Collation, j: Json) {
    match j
    case Arr(items) => forall x :: x in items ==> TieFree(rank, x)
    case Obj(ms) => NoTies(rank, ms) && forall m :: m in ms ==> TieFree(rank, m.value)
    case _ => true
  }

  predicate Tied(rank: Collation, a: string, b: string) {
    a != b && rank(a) == rank(b) && !IsIndex(a) && !IsIndex(b)
  }

  ghost predicate NoTies(rank: Collation, ms: seq<Member>) {
    forall m, n :: m in ms && n in ms ==> !Tied(rank, m.key, n.key)
  }

  /** Every other spelling of the value has the same canonical text. */
  ghost predicate OrderBlind(rank: Collation, a: Json) {
    forall b :: WellFormed(b) && Meaning(b) == Meaning(a) ==> Canonical(rank, b) == Canonical(rank, a)
  }

  /** Where a key comes in a stable sort of enumerated members. */
  predicate KeyBefore(rank: Collation, a: string, b: string) {
    rank(a) < rank(b) || (rank(a) == rank(b) && MayPrecede(a, b))
  }

  ghost predicate InKeyOrder(rank: Collation, ms: seq<Member>) {
    forall i, j :: 0 <= i < j < |ms| ==> KeyBefore(rank, ms[i].key, ms[j].key)
  }

  /** Only tied keys may come in either order. */
  lemma OneWayOnly(rank: Collation, a: string, b: string)
    requires a != b && KeyBefore(rank, a, b) && KeyBefore(rank, b, a)
    ensures Tied(rank, a, b)
  {
  }

  lemma NoKeys(t: seq<Member>)
    ensures Keys(t) == {} <==> t == []
  {
    if t != [] { assert t[0].key in Keys(t); }
  }

  lemma LowestKeysAgree(rank: Collation, s: seq<Member>, t: seq<Member>)
    requires InKeyOrder(rank, s) && InKeyOrder(rank, t) && NoTies(rank, s)
    requires s != [] && Keys(s) == Keys(t)
    ensures t != [] && s[0].key == t[0].key
  {
    assert s[0].key in Keys(t);
    var p :| 0 <= p < |t| && t[p].key == s[0].key;
    assert t[0].key in Keys(s);
    var q :| 0 <= q < |s| && s[q].key == t[0].key;
    if s[0].key != t[0].key { OneWayOnly(rank, s[0].key, s[q].key); }
  }

  /** Two lists in key order over the same keys, without ties, list them alike. */
  lemma {:induction false} OrderedKeysAgree(rank: Collation, s: seq<Member>, t: seq<Member>)
    requires InKeyOrder(rank, s) && InKeyOrder(rank, t) && NoTies(rank, s)
    requires DistinctKeys(s) && DistinctKeys(t) && Keys(s) == Keys(t)
    ensures |s| == |t| && forall i :: 0 <= i < |s| ==> s[i].key == t[i].key
  {
    if s == [] {
      NoKeys(t);
    } else {
      LowestKeysAgree(rank, s, t);
      KeysOfTail(s);
      KeysOfTail(t);
      OrderedKeysAgree(rank, s[1..], t[1..]);
      forall i | 1 <= i < |s| ensures s[i].key == t[i].key {
        assert s[i] == s[1..][i-1] && t[i] == t[1..][i-1];
      }
    }
  }

  /** The stable sort leaves members the collation ranks alike in enumeration order. */
  lemma SortsIntoKeyOrder(rank: Collation, ms: seq<Member>)
    requires DistinctKeys(ms) && Enumerated(ms)
    ensures InKeyOrder(rank, SortMembers(rank, ms))
  {
    var s := SortMembers(rank, ms);
    SortAscends(rank, ms);
    SortKeepsMembers(rank, ms);
    SortKeepsDistinct(rank, ms);
    forall p, q | 0 <= p < q < |s| ensures KeyBefore(rank, s[p].key, s[q].key) {
      assert s[p] in ms && s[q] in ms;
      var i :| 0 <= i < |ms| && ms[i] == s[p];
      var j :| 0 <= j < |ms| && ms[j] == s[q];
      if rank(s[p].key) == rank(s[q].key) && j <= i {
        assert j < i;
        SortIsStable(rank, ms, j, i);
        NotBothWays(s, s[p], s[q]);
        assert false;
      }
    }
  }

  lemma NotBothWays(s: seq<Member>, m: Member, n: Member)
    requires DistinctKeys(s) && Before(s, m, n)
    ensures !Before(s, n, m)
  {
  }

  lemma KeysOfTail(s: seq<Member>)
    requires s != [] && DistinctKeys(s)
    ensures Keys(s[1..]) == Keys(s) - {s[0].key}
  {
    forall k | k in Keys(s) - {s[0].key} ensures k in Keys(s[1..]) {
      var m :| m in s && m.key == k;
      assert s == [s[0]] + s[1..];
      assert m in s[1..];
    }
  }

  lemma {:induction false} ItemsAlike(rank: Collation, xs: seq<Json>, a: Json, ys: seq<Json>, b: Json)
    requires forall i :: 0 <= i < |xs| ==> xs[i] < a
    requires forall i :: 0 <= i < |ys| ==> ys[i] < b
    requires |xs| == |ys| && forall i :: 0 <= i < |xs| ==> Canonical(rank, xs[i]) == Canonical(rank, ys[i])
    ensures CanonicalItems(rank, xs, a) == CanonicalItems(rank, ys, b)
  {
    if |xs| > 1 {
      ItemsAlike(rank, xs[1..], a, ys[1..], b);
    }
  }

  lemma {:induction false} MembersAlike(rank: Collation, ms: seq<Member>, a: Json, ns: seq<Member>, b: Json)
    requires forall i :: 0 <= i < |ms| ==> ms[i].value < a
    requires forall i :: 0 <= i < |ns| ==> ns[i].value < b
    requires |ms| == |ns| && forall i :: 0 <= i < |ms| ==>
      ms[i].key == ns[i].key && Canonical(rank, ms[i].value) == Canonical(rank, ns[i].value)
    ensures CanonicalMembers(rank, ms, a) == CanonicalMembers(rank, ns, b)
  {
    if |ms| > 1 {
      MembersAlike(rank, ms[1..], a, ns[1..], b);
    }
  }

  lemma KeysOfMeaning(ms: seq<Member>)
    ensures Meaning(Obj(ms)).VObj? && Meaning(Obj(ms)).members.Keys == Keys(ms)
  {
    assert Meaning(Obj(ms)).members == MembersMeaning(ms, Obj(ms));
  }

  lemma KeysOfSorted(rank: Collation, ms: seq<Member>)
    ensures Keys(SortMembers(rank, ms)) == Keys(ms)
  {
    SortKeepsMembers(rank, ms);
    var s := SortMembers(rank, ms);
    forall k ensures k in Keys(s) <==> k in Keys(ms) {
      if k in Keys(s) { var m :| m in s && m.key == k; assert m in ms; }
      if k in Keys(ms) { var m :| m in ms && m.key == k; assert m in s; }
    }
  }

  lemma SortKeepsNoTies(rank: Collation, ms: seq<Member>)
    requires NoTies(rank, ms)
    ensures NoTies(rank, SortMembers(rank, ms))
  {
    SortKeepsMembers(rank, ms);
  }

  /** Equal values with no tied keys have the same canonical text. */
  lemma {:induction false} SameValueSameText(rank: Collation, a: Json, b: Json)
    requires WellFormed(a) && WellFormed(b) && TieFree(rank, a)
    requires Meaning(a) == Meaning(b)
    ensures Canonical(rank, a) == Canonical(rank, b)
    decreases a
  {
    match a {
      case Arr(xs) =>
        var ys := b.items;
        assert Meaning(a).items == Meaning(b).items;
        forall i | 0 <= i < |xs| ensures Canonical(rank, xs[i]) == Canonical(rank, ys[i]) {
          assert xs[i] in xs && ys[i] in ys;
          assert Meaning(xs[i]) == Meaning(a).items[i] == Meaning(b).items[i] == Meaning(ys[i]);
          SameValueSameText(rank, xs[i], ys[i]);
        }
        ItemsAlike(rank, xs, a, ys, b);
      case Obj(ms) =>
        var ns := b.members;
        var s, t := SortMembers(rank, ms), SortMembers(rank, ns);
        SortedKeysAgree(rank, ms, ns);
        ObjectParts(rank, ms);
        ObjectParts(rank, ns);
        forall i | 0 <= i < |s| ensures Canonical(rank, s[i].value) == Canonical(rank, t[i].value) {
          MeaningAtKey(ms, s[i]);
          MeaningAtKey(ns, t[i]);
          SameValueSameText(rank, s[i].value, t[i].value);
        }
        MembersAlike(rank, s, a, t, b);
      case _ =>
    }
  }

  lemma SortedKeysAgree(rank: Collation, ms: seq<Member>, ns: seq<Member>)
    requires WellFormed(Obj(ms)) && WellFormed(Obj(ns)) && NoTies(rank, ms)
    requires Meaning(Obj(ms)) == Meaning(Obj(ns))
    ensures |SortMembers(rank, ms)| == |SortMembers(rank, ns)|
    ensures forall i :: 0 <= i < |SortMembers(rank, ms)| ==>
      SortMembers(rank, ms)[i].key == SortMembers(rank, ns)[i].key
  {
    SortsIntoKeyOrder(rank, ms);
    SortsIntoKeyOrder(rank, ns);
    SortKeepsDistinct(rank, ms);
    SortKeepsDistinct(rank, ns);
    SortKeepsNoTies(rank, ms);
    KeysOfMeaning(ms);
    KeysOfMeaning(ns);
    KeysOfSorted(rank, ms);
    KeysOfSorted(rank, ns);
    OrderedKeysAgree(rank, SortMembers(rank, ms), SortMembers(rank, ns));
  }

  // Sorting keeps tied members in their original order, so swapping two of them shows.

  ghost predicate Before(s: seq<Member>, m: Member, n: Member) {
    exists p, q :: 0 <= p < q < |s| && s[p] == m && s[q] == n
  }

  lemma BeforeCons(h: Member, s: seq<Member>, m: Member, n: Member)
    ensures Before(s, m, n) ==> Before([h] + s, m, n)
    ensures m == h && n in s ==> Before([h] + s, m, n)
  {
    var r := [h] + s;
    if Before(s, m, n) {
      var p, q :| 0 <= p < q < |s| && s[p] == m && s[q] == n;
      assert r[p + 1] == m && r[q + 1] == n;
    }
    if m == h && n in s {
      var q :| 0 <= q < |s| && s[q] == n;
      assert r[0] == m && r[q + 1] == n;
    }
  }

  lemma BeforeUncons(s: seq<Member>, m: Member, n: Member)
    requires s != [] && Before(s, m, n)
    ensures Before(s[1..], m, n) || (m == s[0] && n in s[1..])
  {
    var p, q :| 0 <= p < q < |s| && s[p] == m && s[q] == n;
    assert s[1..][q - 1] == n;
    if p > 0 { assert s[1..][p - 1] == m; }
  }

  lemma {:induction false} InsertComesBefore(rank: Collation, m: Member, s: seq<Member>, n: Member)
    requires n in s && rank(m.key) <= rank(n.key)
    ensures Before(Insert(rank, m, s), m, n)
  {
    if rank(m.key) <= rank(s[0].key) {
      BeforeCons(m, s, m, n);
    } else {
      assert s == [s[0]] + s[1..];
      InsertComesBefore(rank, m, s[1..], n);
      BeforeCons(s[0], Insert(rank, m, s[1..]), m, n);
    }
  }

  lemma {:induction false} InsertKeepsBefore(rank: Collation, m: Member, s: seq<Member>, n: Member, o: Member)
    requires Before(s, n, o)
    ensures Before(Insert(rank, m, s), n, o)
  {
    if rank(m.key) <= rank(s[0].key) {
      BeforeCons(m, s, n, o);
    } else {
      BeforeUncons(s, n, o);
      InsertKeepsMembers(rank, m, s[1..]);
      assert o in s[1..] ==> o in multiset(Insert(rank, m, s[1..]));
      if Before(s[1..], n, o) {
        InsertKeepsBefore(rank, m, s[1..], n, o);
      }
      BeforeCons(s[0], Insert(rank, m, s[1..]), n, o);
    }
  }

  lemma {:induction false} SortIsStable(rank: Collation, ms: seq<Member>, i: nat, j: nat)
    requires i < j < |ms| && rank(ms[i].key) <= rank(ms[j].key)
    ensures Before(SortMembers(rank, ms), ms[i], ms[j])
  {
    if i == 0 {
      SortKeepsMembers(rank, ms[1..]);
      assert ms[j] == ms[1..][j - 1];
      InsertComesBefore(rank, ms[0], SortMembers(rank, ms[1..]), ms[j]);
    } else {
      SortIsStable(rank, ms[1..], i - 1, j - 1);
      InsertKeepsBefore(rank, ms[0], SortMembers(rank, ms[1..]), ms[i], ms[j]);
    }
  }

  lemma SameMembersSameValue(ms: seq<Member>, ns: seq<Member>)
    requires WellFormed(Obj(ms)) && DistinctKeys(ns) && Enumerated(ns) && forall m :: m in ms <==> m in ns
    ensures WellFormed(Obj(ns)) && Meaning(Obj(ms)) == Meaning(Obj(ns))
  {
    var f, g := Meaning(Obj(ms)).members, Meaning(Obj(ns)).members;
    forall k ensures k in f <==> k in g {
      KeysOfMeaning(ms);
      KeysOfMeaning(ns);
    }
    forall k | k in f ensures f[k] == g[k] {
      KeysOfMeaning(ms);
      var m :| m in ms && m.key == k;
      MeaningAtKey(ms, m);
      MeaningAtKey(ns, m);
    }
    assert f == g;
  }

  /** Lists with the same keys in the same places cannot order two members differently. */
  lemma NotCrossed(rank: Collation, s: seq<Member>, t: seq<Member>, m: Member, n: Member)
    requires DistinctKeys(s)
    ensures !(SameLayout(rank, s, t) && Before(s, m, n) && Before(t, n, m))
  {
    forall p, q, p', q' | 0 <= p < q < |s| && s[p] == m && s[q] == n &&
                          0 <= p' < q' < |t| && t[p'] == n && t[q'] == m
      ensures !SameLayout(rank, s, t)
    {
      assert s[q].key != s[p].key;
    }
  }

  lemma SwapKeepsEnumeration(ms: seq<Member>, i: nat, j: nat)
    requires Enumerated(ms) && i < j < |ms| && !IsIndex(ms[i].key) && !IsIndex(ms[j].key)
    ensures Enumerated(ms[i := ms[j]][j := ms[i]])
  {
    var ns := ms[i := ms[j]][j := ms[i]];
    forall p, q | 0 <= p < q < |ns| ensures MayPrecede(ns[p].key, ns[q].key) {
      assert MayPrecede(ms[p].key, ms[q].key);
    }
  }

  /** Swapping two tied members keeps the value and changes the canonical text. */
  lemma SwapShows(rank: Collation, ms: seq<Member>, i: nat, j: nat)
    requires WellFormed(Obj(ms)) && i < j < |ms| && Tied(rank, ms[i].key, ms[j].key)
    ensures !OrderBlind(rank, Obj(ms))
  {
    var ns := ms[i := ms[j]][j := ms[i]];
    var b := Obj(ns);
    forall m ensures m in ms <==> m in ns {
      if m in ms { var k :| 0 <= k < |ms| && ms[k] == m; assert ns[if k == i then j else if k == j then i else k] == m; }
    }
    SwapKeepsEnumeration(ms, i, j);
    SameMembersSameValue(ms, ns);
    SortIsStable(rank, ms, i, j);
    SortIsStable(rank, ns, i, j);
    SortKeepsDistinct(rank, ms);
    NotCrossed(rank, SortMembers(rank, ms), SortMembers(rank, ns), ms[i], ms[j]);
    TailOf(Canonical(rank, b), "");
    TailOf(Canonical(rank, Obj(ms)), "");
    if Canonical(rank, b) == Canonical(rank, Obj(ms)) {
      ObjectsDetermine(rank, ms, ns, "", "");
      assert false;
    }
  }

  /** Another spelling of one item whose text differs shows in the array. */
  lemma ItemShows(rank: Collation, xs: seq<Json>, i: nat)
    requires WellFormed(Arr(xs)) && i < |xs| && !OrderBlind(rank, xs[i])
    ensures !OrderBlind(rank, Arr(xs))
  {
    var y :| WellFormed(y) && Meaning(y) == Meaning(xs[i]) && Canonical(rank, y) != Canonical(rank, xs[i]);
    var ys := xs[i := y];
    var b := Arr(ys);
    assert Meaning(b).items == Meaning(Arr(xs)).items;
    if Canonical(rank, b) == Canonical(rank, Arr(xs)) {
      TailOf(Canonical(rank, b), "");
      ArraysDetermine(rank, xs, ys, "", "");
      assert false;
    }
  }

  lemma MemberShows(rank: Collation, ms: seq<Member>, i: nat)
    requires WellFormed(Obj(ms)) && i < |ms| && !OrderBlind(rank, ms[i].value)
    ensures !OrderBlind(rank, Obj(ms))
  {
    var y :| WellFormed(y) && Meaning(y) == Meaning(ms[i].value) && Canonical(rank, y) != Canonical(rank, ms[i].value);
    var ns := ms[i := Member(ms[i].key, y)];
    ReplacedMeaning(ms, i, y);
    MemberChangesLayout(rank, ms, i, y);
    TailOf(Canonical(rank, Obj(ns)), "");
    TailOf(Canonical(rank, Obj(ms)), "");
    if Canonical(rank, Obj(ns)) == Canonical(rank, Obj(ms)) {
      ObjectsDetermine(rank, ms, ns, "", "");
      assert false;
    }
  }

  lemma MemberChangesLayout(rank: Collation, ms: seq<Member>, i: nat, y: Json)
    requires WellFormed(Obj(ms)) && i < |ms| && WellFormed(y) && Canonical(rank, y) != Canonical(rank, ms[i].value)
    ensures !SameLayout(rank, SortMembers(rank, ms), SortMembers(rank, ms[i := Member(ms[i].key, y)]))
  {
    var n := Member(ms[i].key, y);
    var ns := ms[i := n];
    ReplacedWellFormed(ms, i, y);
    assert n == ns[i];
    var s, t := SortMembers(rank, ms), SortMembers(rank, ns);
    SortKeepsMembers(rank, ms);
    SortKeepsMembers(rank, ns);
    assert |s| == |multiset(s)| == |ms| && |t| == |multiset(t)| == |ns|;
    assert ms[i] in s;
    var p :| 0 <= p < |s| && s[p] == ms[i];
    assert t[p] in ns;
    KeyDecides(ns, t[p], n);
    assert SameLayout(rank, s, t) ==> SameMember(rank, s[p], t[p]);
  }

  lemma KeyDecides(ms: seq<Member>, m: Member, n: Member)
    requires DistinctKeys(ms) && m in ms && n in ms
    ensures m.key == n.key ==> m == n
  {
  }

  lemma ReplacedWellFormed(ms: seq<Member>, i: nat, y: Json)
    requires WellFormed(Obj(ms)) && i < |ms| && WellFormed(y)
    ensures WellFormed(Obj(ms[i := Member(ms[i].key, y)]))
  {
    var ns := ms[i := Member(ms[i].key, y)];
    forall k | 0 <= k < |ns| ensures WellFormed(ns[k].value) {
      assert k != i ==> ns[k] == ms[k] && ms[k] in ms;
    }
  }

  /** Lists with the same keys and meanings place by place are the same object. */
  lemma SamePlacesSameMeaning(ms: seq<Member>, ns: seq<Member>)
    requires WellFormed(Obj(ms)) && WellFormed(Obj(ns)) && |ms| == |ns|
    requires forall i :: 0 <= i < |ms| ==> ms[i].key == ns[i].key && Meaning(ms[i].value) == Meaning(ns[i].value)
    ensures forall k :: k in Meaning(Obj(ms)).members ==>
      k in Meaning(Obj(ns)).members && Meaning(Obj(ms)).members[k] == Meaning(Obj(ns)).members[k]
  {
    KeysOfMeaning(ms);
    forall k | k in Meaning(Obj(ms)).members
      ensures k in Meaning(Obj(ns)).members && Meaning(Obj(ms)).members[k] == Meaning(Obj(ns)).members[k]
    {
      var p :| 0 <= p < |ms| && ms[p].key == k;
      MeaningAtKey(ms, ms[p]);
      MeaningAtKey(ns, ns[p]);
    }
  }

  lemma ReplacedMeaning(ms: seq<Member>, i: nat, y: Json)
    requires WellFormed(Obj(ms)) && i < |ms| && WellFormed(y) && Meaning(y) == Meaning(ms[i].value)
    ensures WellFormed(Obj(ms[i := Member(ms[i].key, y)]))
    ensures Meaning(Obj(ms[i := Member(ms[i].key, y)])) == Meaning(Obj(ms))
  {
    var ns := ms[i := Member(ms[i].key, y)];
    ReplacedWellFormed(ms, i, y);
    SamePlacesSameMeaning(ms, ns);
    SamePlacesSameMeaning(ns, ms);
    assert Meaning(Obj(ms)).members == Meaning(Obj(ns)).members;
  }

  /** A tie anywhere inside gives another spelling of the same value with a different text. */
  lemma {:induction false} TieShows(rank: Collation, a: Json)
    requires WellFormed(a) && !TieFree(rank, a)
    ensures !OrderBlind(rank, a)
    decreases a
  {
    if a.Arr? {
      var i :| 0 <= i < |a.items| && !TieFree(rank, a.items[i]);
      TieShows(rank, a.items[i]);
      ItemShows(rank, a.items, i);
    } else if !NoTies(rank, a.members) {
      var m, n :| m in a.members && n in a.members && Tied(rank, m.key, n.key);
      var i :| 0 <= i < |a.members| && a.members[i] == m;
      var j :| 0 <= j < |a.members| && a.members[j] == n;
      if i < j { SwapShows(rank, a.members, i, j); } else { SwapShows(rank, a.members, j, i); }
    } else {
      var i :| 0 <= i < |a.members| && !TieFree(rank, a.members[i].value);
      TieShows(rank, a.members[i].value);
      MemberShows(rank, a.members, i);
    }
  }

  /** The canonical text ignores member order exactly when no object has two tied keys besides its indices. */
  lemma OrderBlindIffTieFree(rank: Collation, a: Json)
    requires WellFormed(a)
    ensures OrderBlind(rank, a) <==> TieFree(rank, a)
  {
    if TieFree(rank, a) {
      forall b | WellFormed(b) && Meaning(b) == Meaning(a) ensures Canonical(rank, b) == Canonical(rank, a) {
        SameValueSameText(rank, a, b);
      }
    } else {
      TieShows(rank, a);
    }
  }

  /** For values without tied keys, equal text and equal value are the same thing. */
  lemma TextIsIdentity(rank: Collation, a: Json, b: Json)
    requires WellFormed(a) && WellFormed(b) && TieFree(rank, a)
    ensures Canonical(rank, a) == Canonical(rank, b) <==> Meaning(a) == Meaning(b)
  {
    if Canonical(rank, a) == Canonical(rank, b) {
      SameTextSameValue(rank, a, b);
    }
    if Meaning(a) == Meaning(b) {
      SameValueSameText(rank, a, b);
    }
  }
}
