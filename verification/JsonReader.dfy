/** What the canonical text says to a reader of JSON (src/lib/delivery/outbox.ts): a reader in the manner of JSON.parse
    (RFC 8259), written without regard to how the text is made, and the proof that it gets the value back with its
    members in sorted order.

    The reader knows no white space, as JSON.stringify writes none, and takes any run of number characters for a
    number. */
module JsonReader {
  import opened CanonicalJson

  datatype Reading<T> = Malformed | Read(value: T, rest: string)

  // ---------------------------------------------------------------- strings, section 7 of RFC 8259

  function HexValue(c: char): (n: nat)
    ensures n <= 16
  {
    if '0' <= c <= '9' then c as int - '0' as int
    else if 'a' <= c <= 'f' then c as int - 'a' as int + 10
    else if 'A' <= c <= 'F' then c as int - 'A' as int + 10
    else 16
  }

  /** One character of a string and what follows it. */
  function ReadChar(s: string): (r: Reading<char>)
    ensures r.Read? ==> |r.rest| < |s|
  {
    if s == "" || s[0] == '"' || s[0] as int < 0x20 then Malformed
    else if s[0] != '\\' then Read(s[0], s[1..])
    else if |s| == 1 then Malformed
    else
      match s[1]
      case '"' => Read('"', s[2..])
      case '\\' => Read('\\', s[2..])
      case '/' => Read('/', s[2..])
      case 'b' => Read(8 as char, s[2..])
      case 't' => Read(9 as char, s[2..])
      case 'n' => Read(10 as char, s[2..])
      case 'f' => Read(12 as char, s[2..])
      case 'r' => Read(13 as char, s[2..])
      case 'u' => ReadCode(s)
      case _ => Malformed
  }

  function ReadCode(s: string): (r: Reading<char>)
    ensures r.Read? ==> |r.rest| < |s|
  {
    if |s| < 6 || HexValue(s[2]) == 16 || HexValue(s[3]) == 16 || HexValue(s[4]) == 16 || HexValue(s[5]) == 16 then Malformed
    else
      var code := ((HexValue(s[2]) * 16 + HexValue(s[3])) * 16 + HexValue(s[4])) * 16 + HexValue(s[5]);
      if 0xd800 <= code < 0xe000 then Malformed else Read(code as char, s[6..])
  }

  /** The characters up to the closing quote. */
  function ReadString(s: string): (r: Reading<string>)
    ensures r.Read? ==> |r.rest| < |s|
  {
    if s != "" && s[0] == '"' then Read("", s[1..])
    else
      match ReadChar(s)
      case Malformed => Malformed
      case Read(c, more) =>
        match ReadString(more)
        case Malformed => Malformed
        case Read(t, rest) => Read([c] + t, rest)
  }

  // ---------------------------------------------------------------- values, sections 3 to 6

  function NumberRun(s: string): (n: nat)
    ensures n <= |s| && forall c :: c in s[..n] ==> c in NUMBER_CHARS
  {
    if s != "" && s[0] in NUMBER_CHARS then
      assert s[..1 + NumberRun(s[1..])] == [s[0]] + s[1..][..NumberRun(s[1..])];
      1 + NumberRun(s[1..])
    else 0
  }

  function ReadNumber(s: string): (r: Reading<Json>)
    ensures r.Read? ==> |r.rest| < |s|
  {
    var n := NumberRun(s);
    if n == 0 then Malformed else Read(Num(s[..n]), s[n..])
  }

  function ReadJson(s: string): (r: Reading<Json>)
    ensures r.Read? ==> |r.rest| < |s|
    decreases |s|, 1
  {
    if s == "" then Malformed
    else
      match s[0]
      case 'n' => if "null" <= s then Read(Null, s[4..]) else Malformed
      case 't' => if "true" <= s then Read(Bool(true), s[4..]) else Malformed
      case 'f' => if "false" <= s then Read(Bool(false), s[5..]) else Malformed
      case '"' =>
        (match ReadString(s[1..])
         case Malformed => Malformed
         case Read(t, rest) => Read(Str(t), rest))
      case '[' =>
        if |s| > 1 && s[1] == ']' then Read(Arr([]), s[2..])
        else
          (match ReadItems(s[1..])
           case Malformed => Malformed
           case Read(items, rest) => Read(Arr(items), rest))
      case '{' =>
        if |s| > 1 && s[1] == '}' then Read(Obj([]), s[2..])
        else
          (match ReadMembers(s[1..])
           case Malformed => Malformed
           case Read(members, rest) => Read(Obj(members), rest))
      case _ => ReadNumber(s)
  }

  function ReadItems(s: string): (r: Reading<seq<Json>>)
    ensures r.Read? ==> |r.rest| < |s|
    decreases |s|, 2
  {
    match ReadJson(s)
    case Malformed => Malformed
    case Read(item, rest) =>
      if rest != "" && rest[0] == ']' then Read([item], rest[1..])
      else if rest != "" && rest[0] == ',' then
        match ReadItems(rest[1..])
        case Malformed => Malformed
        case Read(items, after) => Read([item] + items, after)
      else Malformed
  }

  function ReadMember(s: string): (r: Reading<Member>)
    ensures r.Read? ==> |r.rest| < |s|
    decreases |s|, 0
  {
    if s == "" || s[0] != '"' then Malformed
    else
      match ReadString(s[1..])
      case Malformed => Malformed
      case Read(key, more) =>
        if more == "" || more[0] != ':' then Malformed
        else
          match ReadJson(more[1..])
          case Malformed => Malformed
          case Read(value, rest) => Read(Member(key, value), rest)
  }

  function ReadMembers(s: string): (r: Reading<seq<Member>>)
    ensures r.Read? ==> |r.rest| < |s|
    decreases |s|, 2
  {
    match ReadMember(s)
    case Malformed => Malformed
    case Read(member, rest) =>
      if rest != "" && rest[0] == '}' then Read([member], rest[1..])
      else if rest != "" && rest[0] == ',' then
        match ReadMembers(rest[1..])
        case Malformed => Malformed
        case Read(members, after) => Read([member] + members, after)
      else Malformed
  }

  // ---------------------------------------------------------------- reading a quoted string

  lemma ReadsChar(c: char, more: string)
    ensures ReadChar(EscapeChar(c) + more) == Read(c, more)
  {
    var s := EscapeChar(c) + more;
    TailOf(EscapeChar(c), more);
    assert s[0] == EscapeChar(c)[0];
    if |EscapeChar(c)| == 6 {
      ReadsCode(c, more);
    } else if |EscapeChar(c)| == 2 {
      assert s[1] == EscapeChar(c)[1];
    }
  }

  lemma ReadsCode(c: char, more: string)
    requires c as int < 0x20 && |EscapeChar(c)| == 6
    ensures ReadChar(EscapeChar(c) + more) == Read(c, more)
  {
    var s := EscapeChar(c) + more;
    TailOf(EscapeChar(c), more);
    HexReads(c as int / 16);
    HexReads(c as int % 16);
    assert s[0] == '\\' && s[1] == 'u' && s[2] == '0' && s[3] == '0';
    assert s[4] == Hex(c as int / 16) && s[5] == Hex(c as int % 16);
  }

  lemma HexReads(n: nat)
    requires n < 16
    ensures HexValue(Hex(n)) == n
  {
  }

  lemma StringStep(s: string, c: char, more: string, t: string, rest: string)
    requires ReadChar(s) == Read(c, more) && ReadString(more) == Read(t, rest)
    ensures ReadString(s) == Read([c] + t, rest)
  {
  }

  /** An escaped string reads back as it was. */
  lemma {:induction false} ReadsString(t: string, rest: string)
    ensures ReadString(Escape(t) + (['"'] + rest)) == Read(t, rest)
  {
    var end := ['"'] + rest;
    if t == "" {
      assert "" + end == end && end[1..] == rest;
    } else {
      var more := Escape(t[1..]) + end;
      EscapeStep(t, end);
      ReadsChar(t[0], more);
      ReadsString(t[1..], rest);
      StringStep(EscapeChar(t[0]) + more, t[0], more, t[1..], rest);
      assert t == [t[0]] + t[1..];
    }
  }

  // ---------------------------------------------------------------- reading canonical text

  /** The value with the members of every object in sorted order. */
  function Listed(rank: Collation, j: Json): Json
    decreases j, 1, 0
  {
    match j
    case Arr(items) => Arr(ListedItems(rank, items, j))
    case Obj(ms) =>
      SortKeepsMembers(rank, ms);
      assert forall i :: 0 <= i < |SortMembers(rank, ms)| ==> SortMembers(rank, ms)[i] in ms;
      Obj(ListedMembers(rank, SortMembers(rank, ms), j))
    case _ => j
  }

  function ListedItems(rank: Collation, items: seq<Json>, ghost within: Json): (r: seq<Json>)
    requires forall i :: 0 <= i < |items| ==> items[i] < within
    ensures |r| == |items|
    decreases within, 0, |items|
  {
    if items == [] then [] else [Listed(rank, items[0])] + ListedItems(rank, items[1..], within)
  }

  function ListedMember(rank: Collation, m: Member, ghost within: Json): Member
    requires m.value < within
    decreases within, 0, 0
  {
    Member(m.key, Listed(rank, m.value))
  }

  function ListedMembers(rank: Collation, ms: seq<Member>, ghost within: Json): (r: seq<Member>)
    requires forall i :: 0 <= i < |ms| ==> ms[i].value < within
    ensures |r| == |ms|
    decreases within, 0, |ms| + 1
  {
    if ms == [] then [] else [ListedMember(rank, ms[0], within)] + ListedMembers(rank, ms[1..], within)
  }

  lemma {:induction false} ItemAt(rank: Collation, items: seq<Json>, within: Json, i: nat)
    requires i < |items| && forall i :: 0 <= i < |items| ==> items[i] < within
    ensures ListedItems(rank, items, within)[i] == Listed(rank, items[i])
    decreases |items|
  {
    if i > 0 { ItemAt(rank, items[1..], within, i - 1); }
  }

  lemma {:induction false} MemberAt(rank: Collation, ms: seq<Member>, within: Json, i: nat)
    requires i < |ms| && forall i :: 0 <= i < |ms| ==> ms[i].value < within
    ensures ListedMembers(rank, ms, within)[i] == ListedMember(rank, ms[i], within)
    decreases |ms|
  {
    if i > 0 { MemberAt(rank, ms[1..], within, i - 1); }
  }

  lemma QuoteRest(t: string, rest: string)
    ensures var s := Quote(t) + rest;
      s != "" && s[0] == '"' && s[1..] == Escape(t) + (['"'] + rest)
  {
  }

  lemma {:induction false} NumberRunIs(n: string, rest: string)
    requires (forall c :: c in n ==> c in NUMBER_CHARS) && Follow(rest)
    ensures NumberRun(n + rest) == |n|
  {
    if n == "" {
      assert n + rest == rest;
    } else {
      assert (n + rest)[1..] == n[1..] + rest;
      NumberRunIs(n[1..], rest);
    }
  }

  lemma ReadsLiteral(s: string, rest: string)
    ensures s == "null" + rest ==> ReadJson(s) == Read(Null, rest)
    ensures s == "true" + rest ==> ReadJson(s) == Read(Bool(true), rest)
    ensures s == "false" + rest ==> ReadJson(s) == Read(Bool(false), rest)
  {
  }

  /** Numbers begin unlike everything else. */
  lemma NumberChar(c: char)
    requires c in NUMBER_CHARS
    ensures c != 'n' && c != 't' && c != 'f' && c != '"' && c != '[' && c != '{' && c != ']' && c != '}'
  {
  }

  lemma NumberStep(s: string)
    requires s != "" && s[0] in NUMBER_CHARS
    ensures ReadJson(s) == ReadNumber(s)
  {
    NumberChar(s[0]);
    OtherStep(s);
  }

  lemma OtherStep(s: string)
    requires s != "" && s[0] != 'n' && s[0] != 't' && s[0] != 'f' && s[0] != '"' && s[0] != '[' && s[0] != '{'
    ensures ReadJson(s) == ReadNumber(s)
  {
  }

  lemma ReadsNumber(n: NumberLiteral, rest: string)
    requires Follow(rest)
    ensures ReadJson(n + rest) == Read(Num(n), rest)
  {
    NumberRunIs(n, rest);
    TailOf(n, rest);
    assert (n + rest)[0] == n[0] && n[0] in n;
    NumberStep(n + rest);
  }

  lemma ReadsQuoted(t: string, rest: string)
    ensures ReadJson(Quote(t) + rest) == Read(Str(t), rest)
  {
    QuoteRest(t, rest);
    ReadsString(t, rest);
  }

  lemma ReadsScalar(rank: Collation, j: Json, rest: string)
    requires !j.Arr? && !j.Obj? && Follow(rest)
    ensures ReadJson(Canonical(rank, j) + rest) == Read(j, rest)
  {
    match j
    case Num(n) => ReadsNumber(n, rest);
    case Str(t) => ReadsQuoted(t, rest);
    case _ => ReadsLiteral(Canonical(rank, j) + rest, rest);
  }

  // One step of the reader, over texts of which only the first characters are known.

  lemma ArrayStep(s: string, items: seq<Json>, rest: string)
    requires |s| > 1 && s[0] == '['
    requires if s[1] == ']' then items == [] && rest == s[2..] else ReadItems(s[1..]) == Read(items, rest)
    ensures ReadJson(s) == Read(Arr(items), rest)
  {
  }

  lemma ObjectStep(s: string, members: seq<Member>, rest: string)
    requires |s| > 1 && s[0] == '{'
    requires if s[1] == '}' then members == [] && rest == s[2..] else ReadMembers(s[1..]) == Read(members, rest)
    ensures ReadJson(s) == Read(Obj(members), rest)
  {
  }

  lemma ItemsStep(s: string, item: Json, more: string, others: seq<Json>, rest: string)
    requires ReadJson(s) == Read(item, more) && more != ""
    requires if more[0] == ']' then others == [] && rest == more[1..]
             else more[0] == ',' && ReadItems(more[1..]) == Read(others, rest)
    ensures ReadItems(s) == Read([item] + others, rest)
  {
    assert [item] + [] == [item];
  }

  lemma MembersStep(s: string, member: Member, more: string, others: seq<Member>, rest: string)
    requires ReadMember(s) == Read(member, more) && more != ""
    requires if more[0] == '}' then others == [] && rest == more[1..]
             else more[0] == ',' && ReadMembers(more[1..]) == Read(others, rest)
    ensures ReadMembers(s) == Read([member] + others, rest)
  {
    assert [member] + [] == [member];
  }

  /** A bracketed text: what is between the brackets, and the rest. */
  lemma Opened(open: char, body: string, close: char, rest: string)
    ensures var s := [open] + body + [close] + rest;
      && s[0] == open && s[1..] == body + ([close] + rest) && |s| > 1
      && s[1] == (if body == "" then close else body[0])
      && (body == "" ==> s[2..] == rest)
  {
  }

  /** JSON.parse of the canonical text gives the value back, its members in sorted order. */
  lemma {:induction false} ReadsCanonical(rank: Collation, j: Json, rest: string)
    requires Follow(rest)
    ensures ReadJson(Canonical(rank, j) + rest) == Read(Listed(rank, j), rest)
    decreases j, 1
  {
    if j.Arr? {
      ReadsArray(rank, j.items, rest);
    } else if j.Obj? {
      ReadsObject(rank, j.members, rest);
    } else {
      ReadsScalar(rank, j, rest);
    }
  }

  lemma {:induction false} ReadsArray(rank: Collation, items: seq<Json>, rest: string)
    ensures ReadJson(Canonical(rank, Arr(items)) + rest) == Read(Listed(rank, Arr(items)), rest)
    decreases Arr(items), 0, |items| + 1
  {
    var j := Arr(items);
    var body := CanonicalItems(rank, items, j);
    Opened('[', body, ']', rest);
    if items != [] {
      FirstOfItems(rank, items, j);
      ReadsItems(rank, items, j, rest);
    }
    ArrayStep(['['] + body + [']'] + rest, ListedItems(rank, items, j), rest);
  }

  lemma {:induction false} ReadsObject(rank: Collation, ms: seq<Member>, rest: string)
    ensures ReadJson(Canonical(rank, Obj(ms)) + rest) == Read(Listed(rank, Obj(ms)), rest)
    decreases Obj(ms), 0, |ms| + 1
  {
    var j, sorted := Obj(ms), SortMembers(rank, ms);
    SortKeepsMembers(rank, ms);
    assert forall i :: 0 <= i < |sorted| ==> sorted[i] in ms;
    assert |sorted| == |multiset(sorted)| == |multiset(ms)| == |ms|;
    var body := CanonicalMembers(rank, sorted, j);
    Opened('{', body, '}', rest);
    if sorted != [] {
      FirstOfMembers(rank, sorted, j);
      ReadsMembers(rank, sorted, j, rest);
    }
    ObjectStep(['{'] + body + ['}'] + rest, ListedMembers(rank, sorted, j), rest);
  }

  lemma AfterFirstIs(more: bool, others: string, end: string)
    requires end != ""
    ensures var s := AfterFirst(more, others, end);
      s != "" && if more then s[0] == ',' && s[1..] == others + end else s == end
  {
    Unwrap(',', others, end, "");
  }

  lemma FirstOfItems(rank: Collation, items: seq<Json>, within: Json)
    requires items != [] && forall i :: 0 <= i < |items| ==> items[i] < within
    ensures var body := CanonicalItems(rank, items, within); body != "" && body[0] != ']'
  {
    CanonicalHead(rank, items[0]);
    if items[0].Num? { NumberChar(Canonical(rank, items[0])[0]); }
    HeadOfItems(rank, items, within);
  }

  lemma HeadOfItems(rank: Collation, items: seq<Json>, within: Json)
    requires items != [] && (forall i :: 0 <= i < |items| ==> items[i] < within) && Canonical(rank, items[0]) != ""
    ensures var body := CanonicalItems(rank, items, within); body != "" && body[0] == Canonical(rank, items[0])[0]
  {
  }

  lemma FirstOfMembers(rank: Collation, ms: seq<Member>, within: Json)
    requires ms != [] && forall i :: 0 <= i < |ms| ==> ms[i].value < within
    ensures var body := CanonicalMembers(rank, ms, within); body != "" && body[0] == '"'
  {
    assert CanonicalMember(rank, ms[0], within)[0] == Quote(ms[0].key)[0] == '"';
  }

  /** What follows the first of a list in brackets, and what follows its comma or bracket. */
  lemma Following(more: bool, others: string, close: char, rest: string)
    requires close !in NUMBER_CHARS && close != ','
    ensures var end := [close] + rest; var s := AfterFirst(more, others, end);
      Follow(s) && s != "" && if more then s[0] == ',' && s[1..] == others + end else s[0] == close && s[1..] == rest
  {
    var end := [close] + rest;
    AfterFirstFollows(more, others, end, close);
    AfterFirstIs(more, others, end);
    TailOf([close], rest);
  }

  lemma {:induction false} ReadsItems(rank: Collation, items: seq<Json>, within: Json, rest: string)
    requires items != [] && forall i :: 0 <= i < |items| ==> items[i] < within
    ensures ReadItems(CanonicalItems(rank, items, within) + ("]" + rest)) == Read(ListedItems(rank, items, within), rest)
    decreases within, 0, |items|
  {
    var tail := CanonicalItems(rank, items[1..], within);
    var more := AfterFirst(|items| > 1, tail, "]" + rest);
    ItemsSplit(rank, items, within, "]" + rest);
    Following(|items| > 1, tail, ']', rest);
    ReadsCanonical(rank, items[0], more);
    if |items| > 1 { ReadsItems(rank, items[1..], within, rest); }
    ItemsStep(Canonical(rank, items[0]) + more, Listed(rank, items[0]), more, ListedItems(rank, items[1..], within), rest);
  }

  lemma MemberStep(s: string, key: string, text: string, value: Json, rest: string)
    requires s != "" && s[0] == '"' && ReadString(s[1..]) == Read(key, ":" + text) && ReadJson(text) == Read(value, rest)
    ensures ReadMember(s) == Read(Member(key, value), rest)
  {
    assert (":" + text)[1..] == text;
  }

  lemma {:induction false} ReadsMember(rank: Collation, m: Member, within: Json, rest: string)
    requires m.value < within && Follow(rest)
    ensures ReadMember(CanonicalMember(rank, m, within) + rest) == Read(ListedMember(rank, m, within), rest)
    decreases within, 0, 0
  {
    var text := Canonical(rank, m.value) + rest;
    MemberText(rank, m, within, rest);
    QuoteRest(m.key, ":" + text);
    ReadsString(m.key, ":" + text);
    ReadsCanonical(rank, m.value, rest);
    MemberStep(Quote(m.key) + (":" + text), m.key, text, Listed(rank, m.value), rest);
  }

  lemma {:induction false} ReadsMembers(rank: Collation, ms: seq<Member>, within: Json, rest: string)
    requires ms != [] && forall i :: 0 <= i < |ms| ==> ms[i].value < within
    ensures ReadMembers(CanonicalMembers(rank, ms, within) + ("}" + rest)) == Read(ListedMembers(rank, ms, within), rest)
    decreases within, 0, |ms|
  {
    var tail := CanonicalMembers(rank, ms[1..], within);
    var more := AfterFirst(|ms| > 1, tail, "}" + rest);
    MembersSplit(rank, ms, within, "}" + rest);
    Following(|ms| > 1, tail, '}', rest);
    ReadsMember(rank, ms[0], within, more);
    if |ms| > 1 { ReadsMembers(rank, ms[1..], within, rest); }
    MembersStep(CanonicalMember(rank, ms[0], within) + more, ListedMember(rank, ms[0], within), more,
                ListedMembers(rank, ms[1..], within), rest);
  }

  /** Sorting the members changes no value. */
  lemma {:induction false} ListedMeansTheSame(rank: Collation, j: Json)
    requires WellFormed(j)
    ensures Meaning(Listed(rank, j)) == Meaning(j)
    decreases j, 1
  {
    match j
    case Arr(items) =>
      forall i | 0 <= i < |items| ensures Meaning(Listed(rank, items[i])) == Meaning(items[i]) {
        ListedMeansTheSame(rank, items[i]);
      }
      ItemsMeanTheSame(rank, items);
    case Obj(ms) => MembersMeanTheSame(rank, ms);
    case _ =>
  }

  lemma ItemsMeanTheSame(rank: Collation, items: seq<Json>)
    requires forall i :: 0 <= i < |items| ==> Meaning(Listed(rank, items[i])) == Meaning(items[i])
    ensures Meaning(Listed(rank, Arr(items))) == Meaning(Arr(items))
  {
    var listed := ListedItems(rank, items, Arr(items));
    forall i | 0 <= i < |items| ensures Meaning(listed[i]) == Meaning(items[i]) {
      ItemAt(rank, items, Arr(items), i);
    }
    assert Listed(rank, Arr(items)) == Arr(listed);
    assert Meaning(Arr(listed)).items == Meaning(Arr(items)).items;
  }

  lemma {:induction false} MembersMeanTheSame(rank: Collation, ms: seq<Member>)
    requires WellFormed(Obj(ms))
    ensures Meaning(Listed(rank, Obj(ms))) == Meaning(Obj(ms))
    decreases Obj(ms), 0
  {
    var sorted := SortMembers(rank, ms);
    SortKeepsMembers(rank, ms);
    ObjectParts(rank, ms);
    var listed := ListedMembers(rank, sorted, Obj(ms));
    forall i | 0 <= i < |sorted|
      ensures listed[i].key == sorted[i].key && Meaning(listed[i].value) == Meaning(sorted[i].value)
    {
      ListedMeansTheSame(rank, sorted[i].value);
      MemberAt(rank, sorted, Obj(ms), i);
    }
    SortKeepsDistinct(rank, ms);
    SameMeaning(sorted, listed, ms);
  }

  lemma SameMeaning(sorted: seq<Member>, listed: seq<Member>, ms: seq<Member>)
    requires DistinctKeys(sorted) && DistinctKeys(ms) && |listed| == |sorted| && forall m :: m in sorted <==> m in ms
    requires forall i :: 0 <= i < |sorted| ==>
      listed[i].key == sorted[i].key && Meaning(listed[i].value) == Meaning(sorted[i].value)
    ensures Meaning(Obj(listed)) == Meaning(Obj(ms))
  {
    forall m | m in ms ensures SameAt(listed, ms, m.key) { SameAtMember(sorted, listed, ms, m); }
    KeysOfMeaning(listed);
    KeysOfMeaning(ms);
    SameKeys(sorted, listed, ms);
    forall k | k in Keys(ms) ensures SameAt(listed, ms, k) {
      var m :| m in ms && m.key == k;
    }
    SameMaps(Meaning(Obj(listed)).members, Meaning(Obj(ms)).members);
  }

  lemma SameMaps(f: map<string, Value>, g: map<string, Value>)
    requires f.Keys == g.Keys && forall k :: k in g.Keys ==> f[k] == g[k]
    ensures f == g
  {
  }

  lemma SameKeys(sorted: seq<Member>, listed: seq<Member>, ms: seq<Member>)
    requires |listed| == |sorted| && forall m :: m in sorted <==> m in ms
    requires forall i :: 0 <= i < |sorted| ==> listed[i].key == sorted[i].key
    ensures Keys(listed) == Keys(ms)
  {
    forall k ensures k in Keys(listed) <==> k in Keys(ms) {
      if k in Keys(listed) {
        var i :| 0 <= i < |listed| && listed[i].key == k;
        assert sorted[i] in ms;
      }
      if k in Keys(ms) {
        var m :| m in ms && m.key == k;
        var i :| 0 <= i < |sorted| && sorted[i] == m;
        assert listed[i] in listed;
      }
    }
  }

  lemma SameAtMember(sorted: seq<Member>, listed: seq<Member>, ms: seq<Member>, m: Member)
    requires DistinctKeys(listed) && DistinctKeys(ms) && |listed| == |sorted| && m in sorted && m in ms
    requires forall i :: 0 <= i < |sorted| ==>
      listed[i].key == sorted[i].key && Meaning(listed[i].value) == Meaning(sorted[i].value)
    ensures SameAt(listed, ms, m.key)
  {
    var i :| 0 <= i < |sorted| && sorted[i] == m;
    assert listed[i] in listed;
    MeaningAtKey(ms, m);
    MeaningAtKey(listed, listed[i]);
  }

  /** The two objects agree at this key. */
  ghost predicate SameAt(a: seq<Member>, b: seq<Member>, k: string) {
    var f, g := Meaning(Obj(a)), Meaning(Obj(b));
    f.VObj? && g.VObj? && k in f.members && k in g.members && f.members[k] == g.members[k]
  }

  /** The canonical text is JSON for the very value: read back it is the value, its members sorted. */
  lemma TextReadsBack(rank: Collation, j: Json)
    requires WellFormed(j)
    ensures ReadJson(Canonical(rank, j)) == Read(Listed(rank, j), "")
    ensures Meaning(Listed(rank, j)) == Meaning(j)
  {
    ReadsCanonical(rank, j, "");
    assert Canonical(rank, j) + "" == Canonical(rank, j);
    ListedMeansTheSame(rank, j);
  }
}
