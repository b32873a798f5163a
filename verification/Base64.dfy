/** The canonical base64 recogniser of pasted images (app/src/main/ipc-schemas.ts), against the encoding of
    RFC 4648 section 4 with the zero pad bits of section 3.5. */
module Base64 {
  // Three bytes become four symbols of six bits; one or two bytes left over become a last group whose unused bits are
  // zero and whose missing symbols are `=`. The recogniser never builds the bytes. It looks at the length, the
  // alphabet, the padding and the unused bits, and the theorems say that these four tests are exactly what makes a
  // text an encoding, and of exactly one byte string.

  import opened Wrappers

  type Byte = n: int | 0 <= n < 256
  type Sextet = n: int | 0 <= n < 64

  // ---------------------------------------------------------------- the encoding

  function Symbol(v: Sextet): char {
    if v < 26 then (65 + v) as char
    else if v < 52 then (71 + v) as char
    else if v < 62 then (v - 4) as char
    else if v == 62 then '+'
    else '/'
  }

  function Symbols(v0: Sextet, v1: Sextet, v2: Sextet, v3: Sextet): string {
    [Symbol(v0), Symbol(v1), Symbol(v2), Symbol(v3)]
  }

  function Group(a: Byte, b: Byte, c: Byte): string {
    Symbols(a / 4, a % 4 * 16 + b / 16, b % 16 * 4 + c / 64, c % 64)
  }

  function Encode(bs: seq<Byte>): string {
    if bs == [] then ""
    else if |bs| == 1 then [Symbol(bs[0] / 4), Symbol(bs[0] % 4 * 16), '=', '=']
    else if |bs| == 2 then [Symbol(bs[0] / 4), Symbol(bs[0] % 4 * 16 + bs[1] / 16), Symbol(bs[1] % 16 * 4), '=']
    else Group(bs[0], bs[1], bs[2]) + Encode(bs[3..])
  }

  // ---------------------------------------------------------------- the recogniser

  function Base64Value(code: int): int {
    if 65 <= code <= 90 then code - 65
    else if 97 <= code <= 122 then code - 71
    else if 48 <= code <= 57 then code + 4
    else if code == 43 then 62
    else if code == 47 then 63
    else -1
  }

  function Value(c: char): int {
    Base64Value(c as int)
  }

  function Padding(s: string): nat
    requires |s| >= 2
  {
    (if s[|s| - 1] == '=' then 1 else 0) + (if s[|s| - 2] == '=' then 1 else 0)
  }

  /** Only alphabet characters before the padding, only `=` in it, and zero bits where it cuts off. */
  ghost predicate Accepts(s: string) {
    && |s| > 0 && |s| % 4 == 0
    && var end := |s| - Padding(s);
    && (forall i :: 0 <= i < end ==> Value(s[i]) >= 0)
    && (forall i :: end <= i < |s| ==> s[i] == '=')
    && (Padding(s) == 2 ==> Value(s[end - 1]) % 16 == 0)
    && (Padding(s) == 1 ==> Value(s[end - 1]) % 4 == 0)
  }

  lemma SymbolValue(v: Sextet)
    ensures Value(Symbol(v)) == v && Symbol(v) != '='
  {
  }

  lemma ValueSymbol(c: char)
    requires Value(c) >= 0
    ensures Value(c) < 64 && Symbol(Value(c)) == c && c != '='
  {
  }

  /** The three bytes of a full group. */
  function Bytes(v0: Sextet, v1: Sextet, v2: Sextet, v3: Sextet): (bytes: seq<Byte>)
    ensures |bytes| == 3
  {
    [v0 * 4 + v1 / 16, v1 % 16 * 16 + v2 / 4, v2 % 4 * 64 + v3]
  }

  /** The bytes an accepted text stands for. */
  function Decode(s: string): seq<Byte>
    requires Accepts(s)
  {
    AcceptedShape(s);
    var v0, v1 := Value(s[0]), Value(s[1]);
    if |s| == 4 && s[2] == '=' then [v0 * 4 + v1 / 16]
    else if |s| == 4 && s[3] == '=' then [v0 * 4 + v1 / 16, v1 % 16 * 16 + Value(s[2]) / 4]
    else
      Bytes(v0, v1, Value(s[2]), Value(s[3])) + if |s| == 4 then [] else Decode(s[4..])
  }

  /** An accepted text starts with alphabet characters, four of them unless it is a padded last group. */
  lemma AcceptedShape(s: string)
    requires Accepts(s)
    ensures |s| >= 4
    ensures 0 <= Value(s[0]) < 64 && 0 <= Value(s[1]) < 64
    ensures if |s| == 4 && s[2] == '=' then s[3] == '=' && Value(s[1]) % 16 == 0
            else if |s| == 4 && s[3] == '=' then 0 <= Value(s[2]) < 64 && Value(s[2]) % 4 == 0
            else 0 <= Value(s[2]) < 64 && 0 <= Value(s[3]) < 64
    ensures |s| > 4 ==> Accepts(s[4..])
  {
    ValueSymbol(s[0]);
    ValueSymbol(s[1]);
    if |s| > 4 {
      assert forall i :: 0 <= i < |s| - 4 ==> s[4..][i] == s[4 + i];
      assert Padding(s[4..]) == Padding(s);
    }
  }

  lemma AcceptsGroup(head: string, tail: string)
    requires |head| == 4 && forall i :: 0 <= i < 4 ==> Value(head[i]) >= 0
    requires tail == "" || Accepts(tail)
    ensures Accepts(head + tail) && head[3] != '=' && head[2] != '='
  {
    var s := head + tail;
    ValueSymbol(head[2]);
    ValueSymbol(head[3]);
    if tail == "" {
      assert s == head;
    } else {
      assert Padding(s) == Padding(tail);
      forall i | 0 <= i < |s| - Padding(s) ensures Value(s[i]) >= 0 {
        if i >= 4 { assert s[i] == tail[i - 4]; }
      }
      forall i | |s| - Padding(s) <= i < |s| ensures s[i] == '=' {
        assert s[i] == tail[i - 4];
      }
      assert s[|s| - Padding(s) - 1] == tail[|tail| - Padding(tail) - 1] || Padding(s) == 0;
    }
  }

  // ---------------------------------------------------------------- encode and decode undo each other

  lemma GroupBytes(a: Byte, b: Byte, c: Byte)
    ensures var g := Group(a, b, c);
      && (forall i :: 0 <= i < 4 ==> 0 <= Value(g[i]) < 64)
      && Value(g[0]) * 4 + Value(g[1]) / 16 == a
      && Value(g[1]) % 16 * 16 + Value(g[2]) / 4 == b
      && Value(g[2]) % 4 * 64 + Value(g[3]) == c
  {
    SymbolValue(a / 4);
    SymbolValue(a % 4 * 16 + b / 16);
    SymbolValue(b % 16 * 4 + c / 64);
    SymbolValue(c % 64);
  }

  lemma OneByteStands(a: Byte)
    ensures Stands(Encode([a]), [a])
  {
    SymbolValue(a / 4);
    SymbolValue(a % 4 * 16);
  }

  lemma TwoBytesStand(a: Byte, b: Byte)
    ensures Stands(Encode([a, b]), [a, b])
  {
    SymbolValue(a / 4);
    SymbolValue(a % 4 * 16 + b / 16);
    SymbolValue(b % 16 * 4);
    DecodePair([Symbol(a / 4), Symbol(a % 4 * 16 + b / 16), Symbol(b % 16 * 4), '=']);
  }

  lemma DecodePair(s: string)
    requires |s| == 4 && s[3] == '=' && s[2] != '='
    requires 0 <= Value(s[0]) < 64 && 0 <= Value(s[1]) < 64 && 0 <= Value(s[2]) < 64 && Value(s[2]) % 4 == 0
    ensures Accepts(s) && Decode(s) == [Value(s[0]) * 4 + Value(s[1]) / 16, Value(s[1]) % 16 * 16 + Value(s[2]) / 4]
    ensures Padding(s) == 1
  {
  }

  /** Encoding any bytes gives an accepted text that decodes to them. */
  lemma {:induction false} DecodeUndoesEncode(bs: seq<Byte>)
    requires bs != []
    ensures Stands(Encode(bs), bs)
  {
    if |bs| == 1 {
      OneByteStands(bs[0]);
      assert bs == [bs[0]];
    } else if |bs| == 2 {
      TwoBytesStand(bs[0], bs[1]);
      assert bs == [bs[0], bs[1]];
    } else {
      if |bs| > 3 { DecodeUndoesEncode(bs[3..]); }
      Split3(bs);
      EncodeGroup([bs[0], bs[1], bs[2]], bs[3..]);
      GroupStands(bs[0], bs[1], bs[2], bs[3..], Encode(bs[3..]));
    }
  }

  /** The text is accepted, decodes to the bytes, and its length and padding give their number. */
  ghost predicate Stands(s: string, bs: seq<Byte>) {
    Accepts(s) && Decode(s) == bs && |s| / 4 * 3 - Padding(s) == |bs|
  }

  lemma Split3(bs: seq<Byte>)
    requires |bs| >= 3
    ensures bs == [bs[0], bs[1], bs[2]] + bs[3..]
  {
  }

  lemma GroupStands(a: Byte, b: Byte, c: Byte, rest: seq<Byte>, tail: string)
    requires if rest == [] then tail == "" else Stands(tail, rest)
    ensures Stands(Group(a, b, c) + tail, [a, b, c] + rest)
  {
    GroupBytes(a, b, c);
    AcceptsGroup(Group(a, b, c), tail);
    DecodeGroup(Group(a, b, c), tail);
  }

  lemma DecodeGroup(head: string, tail: string)
    requires |head| == 4 && forall i :: 0 <= i < 4 ==> 0 <= Value(head[i]) < 64
    requires tail == "" || Accepts(tail)
    requires Accepts(head + tail) && head[3] != '=' && head[2] != '='
    ensures Decode(head + tail) ==
      [Value(head[0]) * 4 + Value(head[1]) / 16,
       Value(head[1]) % 16 * 16 + Value(head[2]) / 4,
       Value(head[2]) % 4 * 64 + Value(head[3])] + if tail == "" then [] else Decode(tail)
    ensures Padding(head + tail) == if tail == "" then 0 else Padding(tail)
  {
    assert (head + tail)[4..] == tail;
  }

  /** Decoding an accepted text and encoding again gives the text back: it has no other spelling. */
  lemma {:induction false} EncodeUndoesDecode(s: string)
    requires Accepts(s)
    ensures Spells(Decode(s), s)
  {
    AcceptedShape(s);
    if |s| == 4 && (s[2] == '=' || s[3] == '=') {
      LastGroupSpells(s);
    } else {
      if |s| > 4 { EncodeUndoesDecode(s[4..]); }
      FullGroupSpells(s);
    }
  }

  ghost predicate Spells(bs: seq<Byte>, s: string) {
    bs != [] && Encode(bs) == s
  }

  lemma LastGroupSpells(s: string)
    requires Accepts(s) && |s| == 4 && (s[2] == '=' || s[3] == '=')
    ensures Spells(Decode(s), s)
  {
    FourChars(s);
    if s[2] == '=' { OneLeftSpells(s); } else { TwoLeftSpell(s); }
  }

  lemma OneLeftSpells(s: string)
    requires Accepts(s) && |s| == 4 && s[2] == '='
    ensures Spells(Decode(s), s)
  {
    AcceptedShape(s);
    FourChars(s);
    ValueSymbol(s[0]);
    ValueSymbol(s[1]);
    OneByteSpells(Value(s[0]), Value(s[1]));
  }

  lemma TwoLeftSpell(s: string)
    requires Accepts(s) && |s| == 4 && s[2] != '=' && s[3] == '='
    ensures Spells(Decode(s), s)
  {
    AcceptedShape(s);
    FourChars(s);
    ValueSymbol(s[0]);
    ValueSymbol(s[1]);
    ValueSymbol(s[2]);
    DecodePair(s);
    TwoBytesSpell(Value(s[0]), Value(s[1]), Value(s[2]));
  }

  lemma FourChars(s: string)
    requires |s| == 4
    ensures s == [s[0], s[1], s[2], s[3]]
  {
  }

  lemma OneByteSpells(v0: Sextet, v1: Sextet)
    requires v1 % 16 == 0
    ensures Spells([v0 * 4 + v1 / 16], [Symbol(v0), Symbol(v1), '=', '='])
  {
    Cut4(v0, v1 / 16);
  }

  lemma TwoBytesSpell(v0: Sextet, v1: Sextet, v2: Sextet)
    requires v2 % 4 == 0
    ensures Spells([v0 * 4 + v1 / 16, v1 % 16 * 16 + v2 / 4], [Symbol(v0), Symbol(v1), Symbol(v2), '='])
  {
    SextetsBack(v0, v1, v2, 0);
  }

  lemma FullGroupSpells(s: string)
    requires Accepts(s) && !(|s| == 4 && (s[2] == '=' || s[3] == '='))
    requires |s| > 4 ==> Accepts(s[4..]) && Spells(Decode(s[4..]), s[4..])
    ensures Spells(Decode(s), s)
  {
    AcceptedShape(s);
    ValueSymbol(s[0]);
    ValueSymbol(s[1]);
    ValueSymbol(s[2]);
    ValueSymbol(s[3]);
    DecodeFull(s);
    Regroup(s);
    FullGroup(Value(s[0]), Value(s[1]), Value(s[2]), Value(s[3]), Rest(s));
  }

  /** The bytes after the first group. */
  ghost function Rest(s: string): seq<Byte>
    requires |s| > 4 ==> Accepts(s[4..])
  {
    if |s| <= 4 then [] else Decode(s[4..])
  }

  lemma DecodeFull(s: string)
    requires Accepts(s) && !(|s| == 4 && (s[2] == '=' || s[3] == '='))
    requires |s| >= 4 && (|s| > 4 ==> Accepts(s[4..]))
    requires 0 <= Value(s[0]) < 64 && 0 <= Value(s[1]) < 64 && 0 <= Value(s[2]) < 64 && 0 <= Value(s[3]) < 64
    ensures Decode(s) == Bytes(Value(s[0]), Value(s[1]), Value(s[2]), Value(s[3])) + Rest(s)
  {
  }

  lemma Regroup(s: string)
    requires |s| >= 4
    ensures s == [s[0], s[1], s[2], s[3]] + s[4..]
    ensures |s| == 4 ==> s[4..] == ""
  {
  }

  lemma EncodeGroup(bytes: seq<Byte>, rest: seq<Byte>)
    requires |bytes| == 3
    ensures Encode(bytes + rest) == Group(bytes[0], bytes[1], bytes[2]) + Encode(rest)
  {
    assert (bytes + rest)[3..] == rest;
  }

  /** Packing four sextets into three bytes and cutting them again gives the sextets back. */
  lemma SextetsBack(v0: Sextet, v1: Sextet, v2: Sextet, v3: Sextet)
    ensures (v0 * 4 + v1 / 16) / 4 == v0
    ensures (v0 * 4 + v1 / 16) % 4 * 16 + (v1 % 16 * 16 + v2 / 4) / 16 == v1
    ensures (v1 % 16 * 16 + v2 / 4) % 16 * 4 + (v2 % 4 * 64 + v3) / 64 == v2
    ensures (v2 % 4 * 64 + v3) % 64 == v3
  {
    Cut4(v0, v1 / 16);
    Cut16(v1 % 16, v2 / 4);
    Cut64(v2 % 4, v3);
  }

  lemma Cut4(q: nat, r: nat)
    requires r < 4
    ensures (q * 4 + r) / 4 == q && (q * 4 + r) % 4 == r
  {
  }

  lemma Cut16(q: nat, r: nat)
    requires r < 16
    ensures (q * 16 + r) / 16 == q && (q * 16 + r) % 16 == r
  {
  }

  lemma Cut64(q: nat, r: nat)
    requires r < 64
    ensures (q * 64 + r) / 64 == q && (q * 64 + r) % 64 == r
  {
  }

  lemma FullGroup(v0: Sextet, v1: Sextet, v2: Sextet, v3: Sextet, rest: seq<Byte>)
    ensures Encode(Bytes(v0, v1, v2, v3) + rest) == Symbols(v0, v1, v2, v3) + Encode(rest)
  {
    GroupOfBytes(v0, v1, v2, v3);
    EncodeGroup(Bytes(v0, v1, v2, v3), rest);
  }

  lemma GroupOfBytes(v0: Sextet, v1: Sextet, v2: Sextet, v3: Sextet)
    ensures var b := Bytes(v0, v1, v2, v3); Group(b[0], b[1], b[2]) == Symbols(v0, v1, v2, v3)
  {
    var b0: Byte, b1: Byte, b2: Byte := v0 * 4 + v1 / 16, v1 % 16 * 16 + v2 / 4, v2 % 4 * 64 + v3;
    SextetsBack(v0, v1, v2, v3);
    assert b0 / 4 == v0 && b0 % 4 * 16 + b1 / 16 == v1 && b1 % 16 * 4 + b2 / 64 == v2 && b2 % 64 == v3;
    assert Group(b0, b1, b2) == Symbols(v0, v1, v2, v3);
  }

  /** The text is the padded encoding of some bytes. */
  ghost predicate IsEncoding(s: string) {
    exists bs: seq<Byte> :: bs != [] && Encode(bs) == s
  }

  lemma AcceptsIffEncoding(s: string)
    ensures Accepts(s) <==> IsEncoding(s)
  {
    if Accepts(s) { EncodeUndoesDecode(s); }
    if IsEncoding(s) {
      var bs: seq<Byte> :| bs != [] && Encode(bs) == s;
      DecodeUndoesEncode(bs);
    }
  }

  /** No two byte strings share an encoding. */
  lemma EncodingIsUnique(a: seq<Byte>, b: seq<Byte>)
    requires a != [] && b != [] && Encode(a) == Encode(b)
    ensures a == b
  {
    DecodeUndoesEncode(a);
    DecodeUndoesEncode(b);
  }

  /** Returns n exactly when the text from `start` on is the padded encoding of some non-empty byte string, and
      then every byte string it encodes has length n. */
  method DecodedCanonicalBase64Bytes(value: string, start: nat) returns (r: Option<nat>)
    requires start <= |value|
    ensures r.Some? <==> IsEncoding(value[start..])
    ensures r.Some? ==> forall bs: seq<Byte> :: Encode(bs) == value[start..] ==> |bs| == r.value
  {
    ghost var s := value[start..];
    AcceptsIffEncoding(s);
    var length := |value| - start;
    if length == 0 || length % 4 != 0 { return None; }
    var padding := 0;
    if value[|value| - 1] as int == 61 { padding := padding + 1; }
    if value[|value| - 2] as int == 61 { padding := padding + 1; }
    var dataEnd := |value| - padding;
    assert padding == Padding(s);
    for index := start to dataEnd
      invariant forall i :: start <= i < index ==> Value(value[i]) >= 0
    {
      if Base64Value(value[index] as int) < 0 {
        assert Value(s[index - start]) < 0;
        return None;
      }
    }
    for index := dataEnd to |value|
      invariant forall i :: dataEnd <= i < index ==> value[i] == '='
    {
      if value[index] as int != 61 {
        assert s[index - start] != '=';
        return None;
      }
    }
    var finalValue := Base64Value(value[dataEnd - 1] as int);
    assert s[|s| - padding - 1] == value[dataEnd - 1];
    if padding == 2 {
      if finalValue % 16 != 0 { return None; }
    } else if padding == 1 {
      if finalValue % 4 != 0 { return None; }
    }
    assert Accepts(s);
    forall bs: seq<Byte> | Encode(bs) == s ensures |bs| == length / 4 * 3 - padding {
      DecodeUndoesEncode(bs);
    }
    EncodeUndoesDecode(s);
    DecodeUndoesEncode(Decode(s));
    r := Some(length / 4 * 3 - padding);
  }
}
