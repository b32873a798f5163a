/** Release tag comparison (app/src/main/update-state.ts) against the precedence of Semantic Versioning 2.0.0,
    sections 10 and 11. Numeric parts are unbounded, and the tags accepted are the code's: leading zeros and empty
    prerelease identifiers pass.

    The core decides first (11.2); a prerelease ranks below its release (11.3); then the first differing identifier
    decides: numbers by value and below the others, the others as text, and a longer list above its prefix (11.4).
    The order is stated declaratively and the loops are proved to compute it. */
module SemVer {
  import opened Wrappers
  import opened Text

  predicate IsIdentChar(c: char) {
    IsDigit(c) || 'A' <= c <= 'Z' || 'a' <= c <= 'z' || c == '.' || c == '-'
  }

  /** The class [0-9A-Za-z.-], by character codes. */
  lemma IdentCharIs(c: char)
    ensures var n := c as int;
      IsIdentChar(c) <==> n == 45 || n == 46 || 48 <= n <= 57 || 65 <= n <= 90 || 97 <= n <= 122
  {
  }

  predicate IdentChars(s: string) { s != "" && forall i :: 0 <= i < |s| ==> IsIdentChar(s[i]) }

  // ---------------------------------------------------------------- the text of a version

  datatype Parts = Parts(major: string, minor: string, patch: string, pre: Option<string>, build: Option<string>)

  predicate WellFormed(p: Parts) {
    && Digits(p.major) && Digits(p.minor) && Digits(p.patch)
    && (p.pre.Some? ==> IdentChars(p.pre.value))
    && (p.build.Some? ==> IdentChars(p.build.value))
  }

  function PrintTail(pre: Option<string>, build: Option<string>): string {
    (if pre.Some? then "-" + pre.value else "") + PrintBuild(build)
  }

  function PrintBuild(build: Option<string>): string {
    if build.Some? then "+" + build.value else ""
  }

  function Print(p: Parts): string {
    p.major + "." + (p.minor + "." + (p.patch + PrintTail(p.pre, p.build)))
  }

  // ---------------------------------------------------------------- the recogniser

  function DigitRun(s: string): (n: nat)
    ensures n <= |s|
  {
    if s != "" && IsDigit(s[0]) then 1 + DigitRun(s[1..]) else 0
  }

  function IdentRun(s: string): (n: nat)
    ensures n <= |s|
  {
    if s != "" && IsIdentChar(s[0]) then 1 + IdentRun(s[1..]) else 0
  }

  /** Digits and a dot, and what follows. */
  function Dotted(s: string): Option<(string, string)> {
    var n := DigitRun(s);
    if n == 0 || n == |s| || s[n] != '.' then None else Some((s[..n], s[n + 1..]))
  }

  function ScanBuild(s: string): Option<Option<string>> {
    if s == "" then Some(None)
    else if s[0] == '+' && |s| > 1 && IdentRun(s[1..]) == |s| - 1 then Some(Some(s[1..]))
    else None
  }

  function ScanTail(s: string): Option<(Option<string>, Option<string>)> {
    if s != "" && s[0] == '-' then
      var n := IdentRun(s[1..]);
      if n == 0 then None
      else
        match ScanBuild(s[1 + n..])
        case Some(build) => Some((Some(s[1..1 + n]), build))
        case None => None
    else
      match ScanBuild(s)
      case Some(build) => Some((None, build))
      case None => None
  }

  function Scan(s: string): Option<Parts> {
    match Dotted(s)
    case None => None
    case Some((major, s1)) =>
      match Dotted(s1)
      case None => None
      case Some((minor, s2)) =>
        var n := DigitRun(s2);
        if n == 0 then None
        else
          match ScanTail(s2[n..])
          case None => None
          case Some((pre, build)) => Some(Parts(major, minor, s2[..n], pre, build))
  }

  lemma {:induction false} DigitRunIs(d: string, rest: string)
    requires (forall i :: 0 <= i < |d| ==> IsDigit(d[i])) && (rest == "" || !IsDigit(rest[0]))
    ensures DigitRun(d + rest) == |d|
  {
    if d == "" {
      assert d + rest == rest;
    } else {
      DigitRunIs(d[1..], rest);
      assert (d + rest)[1..] == d[1..] + rest;
    }
  }

  lemma {:induction false} IdentRunIs(d: string, rest: string)
    requires (forall i :: 0 <= i < |d| ==> IsIdentChar(d[i])) && (rest == "" || !IsIdentChar(rest[0]))
    ensures IdentRun(d + rest) == |d|
  {
    if d == "" {
      assert d + rest == rest;
    } else {
      IdentRunIs(d[1..], rest);
      assert (d + rest)[1..] == d[1..] + rest;
    }
  }

  lemma {:induction false} RunIsDigits(s: string)
    ensures forall i :: 0 <= i < DigitRun(s) ==> IsDigit(s[i])
  {
    if s != "" && IsDigit(s[0]) {
      RunIsDigits(s[1..]);
      assert forall i :: 0 < i < DigitRun(s) ==> s[i] == s[1..][i - 1];
    }
  }

  lemma {:induction false} RunIsIdent(s: string)
    ensures forall i :: 0 <= i < IdentRun(s) ==> IsIdentChar(s[i])
  {
    if s != "" && IsIdentChar(s[0]) {
      RunIsIdent(s[1..]);
      assert forall i :: 0 < i < IdentRun(s) ==> s[i] == s[1..][i - 1];
    }
  }

  lemma DottedIs(d: string, rest: string)
    requires Digits(d)
    ensures Dotted(d + "." + rest) == Some((d, rest))
  {
    var s := d + "." + rest;
    assert s == d + ("." + rest);
    DigitRunIs(d, "." + rest);
    assert s[..|d|] == d && s[|d|] == '.' && s[|d| + 1..] == rest;
  }

  lemma DottedGives(s: string)
    requires Dotted(s).Some?
    ensures Digits(Dotted(s).value.0) && s == Dotted(s).value.0 + "." + Dotted(s).value.1
  {
    RunIsDigits(s);
    var n := DigitRun(s);
    assert s == s[..n] + [s[n]] + s[n + 1..];
  }

  lemma ScanBuildIs(build: Option<string>)
    requires build.Some? ==> IdentChars(build.value)
    ensures ScanBuild(PrintBuild(build)) == Some(build)
  {
    if build.Some? {
      IdentRunIs(build.value, "");
      assert build.value + "" == build.value;
      assert ("+" + build.value)[1..] == build.value;
    }
  }

  lemma ScanBuildGives(s: string)
    requires ScanBuild(s).Some?
    ensures PrintBuild(ScanBuild(s).value) == s
    ensures ScanBuild(s).value.Some? ==> IdentChars(ScanBuild(s).value.value)
  {
    if s != "" {
      RunIsIdent(s[1..]);
      assert s == "+" + s[1..];
    }
  }

  lemma ScanTailIs(pre: Option<string>, build: Option<string>)
    requires (pre.Some? ==> IdentChars(pre.value)) && (build.Some? ==> IdentChars(build.value))
    ensures ScanTail(PrintTail(pre, build)) == Some((pre, build))
  {
    ScanBuildIs(build);
    if pre.Some? {
      ScanPrerelease(pre.value, PrintBuild(build), build);
      assert PrintTail(pre, build) == "-" + pre.value + PrintBuild(build);
    } else {
      assert PrintTail(pre, build) == PrintBuild(build);
    }
  }

  lemma ScanPrerelease(pre: string, rest: string, build: Option<string>)
    requires IdentChars(pre) && (rest == "" || rest[0] == '+') && ScanBuild(rest) == Some(build)
    ensures ScanTail("-" + pre + rest) == Some((Some(pre), build))
  {
    var s := "-" + pre + rest;
    assert s[1..] == pre + rest;
    IdentRunIs(pre, rest);
    assert s[1 + |pre|..] == rest && s[1..1 + |pre|] == pre;
  }

  lemma ScanTailGives(s: string)
    requires ScanTail(s).Some?
    ensures var (pre, build) := ScanTail(s).value;
      && PrintTail(pre, build) == s
      && (pre.Some? ==> IdentChars(pre.value)) && (build.Some? ==> IdentChars(build.value))
  {
    if s != "" && s[0] == '-' {
      var n := IdentRun(s[1..]);
      RunIsIdent(s[1..]);
      ScanBuildGives(s[1 + n..]);
      assert s == "-" + s[1..1 + n] + s[1 + n..];
      assert forall i :: 0 <= i < n ==> s[1..1 + n][i] == s[1..][i];
    } else {
      ScanBuildGives(s);
    }
  }

  /** Every well-formed version text is recognised, with its parts. */
  lemma ScanUndoesPrint(p: Parts)
    requires WellFormed(p)
    ensures Scan(Print(p)) == Some(p)
  {
    var tail := PrintTail(p.pre, p.build);
    DottedIs(p.major, p.minor + "." + (p.patch + tail));
    DottedIs(p.minor, p.patch + tail);
    DigitRunIs(p.patch, tail);
    ScanTailIs(p.pre, p.build);
    assert (p.patch + tail)[..|p.patch|] == p.patch && (p.patch + tail)[|p.patch|..] == tail;
    assert Print(p) == p.major + "." + (p.minor + "." + (p.patch + tail));
  }

  /** Nothing else is recognised. */
  lemma PrintUndoesScan(s: string)
    requires Scan(s).Some?
    ensures WellFormed(Scan(s).value) && Print(Scan(s).value) == s
  {
    var p := Scan(s).value;
    DottedGives(s);
    var s1 := Dotted(s).value.1;
    DottedGives(s1);
    var s2 := Dotted(s1).value.1;
    PatchGives(s2);
    Joined(s, p.major, s1, p.minor, s2, p.patch, PrintTail(p.pre, p.build));
  }

  lemma PatchGives(s: string)
    requires DigitRun(s) > 0 && ScanTail(s[DigitRun(s)..]).Some?
    ensures var n := DigitRun(s); var (pre, build) := ScanTail(s[n..]).value;
      && Digits(s[..n]) && s == s[..n] + PrintTail(pre, build)
      && (pre.Some? ==> IdentChars(pre.value)) && (build.Some? ==> IdentChars(build.value))
  {
    var n := DigitRun(s);
    RunIsDigits(s);
    ScanTailGives(s[n..]);
    TakeDrop(s, n);
  }

  lemma TakeDrop(s: string, n: nat)
    requires n <= |s|
    ensures s == s[..n] + s[n..] && forall i :: 0 <= i < n ==> s[..n][i] == s[i]
  {
  }

  lemma Joined(s: string, a: string, s1: string, b: string, s2: string, c: string, t: string)
    requires s == a + "." + s1 && s1 == b + "." + s2 && s2 == c + t
    ensures s == a + "." + (b + "." + (c + t))
  {
  }

  // ---------------------------------------------------------------- the parsed version

  datatype Semver = Semver(core: seq<nat>, prerelease: seq<string>)

  /** String.prototype.split(".") */
  function Split(s: string): (ids: seq<string>)
    ensures |ids| > 0
  {
    var n := UpToDot(s);
    if n == |s| then [s] else [s[..n]] + Split(s[n + 1..])
  }

  function UpToDot(s: string): (n: nat)
    ensures n <= |s|
  {
    if s == "" || s[0] == '.' then 0 else 1 + UpToDot(s[1..])
  }

  function Value(p: Parts): (v: Semver)
    ensures |v.core| == 3
  {
    Semver([Number(p.major), Number(p.minor), Number(p.patch)], if p.pre.Some? then Split(p.pre.value) else [])
  }

  function ParseSemver(version: string): (r: Option<Semver>)
    ensures r.Some? ==> |r.value.core| == 3
  {
    match Scan(Bare(version))
    case None => None
    case Some(parts) => Some(Value(parts))
  }

  // ---------------------------------------------------------------- precedence, section 11

  /** String comparison of JavaScript, by code units; ASCII here. */
  predicate StringLess(x: string, y: string) {
    if y == "" then false
    else if x == "" then true
    else x[0] < y[0] || (x[0] == y[0] && StringLess(x[1..], y[1..]))
  }

  /** Numeric identifiers compare by number and rank below the others, which compare as text (11.4.1 to 11.4.3). */
  predicate IdLess(x: string, y: string) {
    if Digits(x) && Digits(y) then Number(x) < Number(y)
    else if Digits(x) != Digits(y) then Digits(x)
    else StringLess(x, y)
  }

  predicate IdSame(x: string, y: string) {
    x == y || (Digits(x) && Digits(y) && Number(x) == Number(y))
  }

  /** They agree on the first k identifiers and differ there; a longer list ranks above its prefix (11.4.4). */
  predicate LowerAt(a: seq<string>, b: seq<string>, k: nat) {
    && k <= |a| && k < |b|
    && (forall i :: 0 <= i < k ==> IdSame(a[i], b[i]))
    && (k < |a| ==> IdLess(a[k], b[k]))
  }

  ghost predicate PreLess(a: seq<string>, b: seq<string>) {
    exists k: nat :: LowerAt(a, b, k)
  }

  ghost predicate PreSame(a: seq<string>, b: seq<string>) {
    |a| == |b| && forall i :: 0 <= i < |a| ==> IdSame(a[i], b[i])
  }

  predicate CoreLessAt(a: seq<nat>, b: seq<nat>, k: nat)
    requires |a| == |b| == 3
  {
    k < 3 && (forall i :: 0 <= i < k ==> a[i] == b[i]) && a[k] < b[k]
  }

  ghost predicate CoreLess(a: seq<nat>, b: seq<nat>)
    requires |a| == |b| == 3
  {
    exists k: nat :: CoreLessAt(a, b, k)
  }

  /** Section 11: the core decides first (11.2), then a prerelease ranks below its release (11.3), then the
      identifiers decide. */
  ghost predicate Precedes(a: Semver, b: Semver)
    requires |a.core| == |b.core| == 3
  {
    || CoreLess(a.core, b.core)
    || (a.core == b.core && a.prerelease != [] && (b.prerelease == [] || PreLess(a.prerelease, b.prerelease)))
  }

  // ---------------------------------------------------------------- the loops

  method ComparePrerelease(a: seq<string>, b: seq<string>) returns (r: int)
    ensures r < 0 <==> PreLess(a, b)
    ensures r > 0 <==> PreLess(b, a)
    ensures r == 0 <==> PreSame(a, b)
  {
    var length := if |a| > |b| then |a| else |b|;
    for i := 0 to length
      invariant i <= |a| && i <= |b|
      invariant forall k :: 0 <= k < i ==> IdSame(a[k], b[k])
    {
      if i == |a| {
        Decided(a, b, i);
        return -1;
      }
      if i == |b| {
        Decided(b, a, i);
        return 1;
      }
      var x, y := a[i], b[i];
      IdOrder(x, y);
      if IdLess(x, y) { Decided(a, b, i); }
      if IdLess(y, x) { Decided(b, a, i); }
      var xNumeric, yNumeric := Digits(x), Digits(y);
      if xNumeric && yNumeric {
        var diff := Number(x) - Number(y);
        if diff != 0 { return diff; }
      } else if xNumeric != yNumeric {
        return if xNumeric then -1 else 1;
      } else if x != y {
        return if StringLess(x, y) then -1 else 1;
      }
    }
    Undecided(a, b);
    r := 0;
  }

  lemma IdOrder(x: string, y: string)
    ensures !(IdLess(x, y) && IdLess(y, x))
    ensures IdSame(x, y) <==> !IdLess(x, y) && !IdLess(y, x)
  {
    StringOrder(x, y);
  }

  lemma IdTransitive(x: string, y: string, z: string)
    ensures IdLess(x, y) && IdLess(y, z) ==> IdLess(x, z)
    ensures IdLess(x, y) && IdSame(y, z) ==> IdLess(x, z)
    ensures IdSame(x, y) && IdLess(y, z) ==> IdLess(x, z)
    ensures IdSame(x, y) && IdSame(y, z) ==> IdSame(x, z)
  {
    if StringLess(x, y) && StringLess(y, z) { StringTransitive(x, y, z); }
  }

  /** The first difference decides, once and for all. */
  lemma Decided(a: seq<string>, b: seq<string>, i: nat)
    requires LowerAt(a, b, i)
    ensures PreLess(a, b) && !PreLess(b, a) && !PreSame(a, b)
  {
    forall k: nat ensures !LowerAt(b, a, k) {
      if i < |a| && i < |b| { IdOrder(a[i], b[i]); }
      if k < |a| && k < |b| { IdOrder(a[k], b[k]); }
    }
    if PreSame(a, b) && i < |a| { IdOrder(a[i], b[i]); }
  }

  lemma Undecided(a: seq<string>, b: seq<string>)
    requires PreSame(a, b)
    ensures !PreLess(a, b) && !PreLess(b, a)
  {
    forall k: nat ensures !LowerAt(a, b, k) && !LowerAt(b, a, k) {
      if k < |a| { IdOrder(a[k], b[k]); }
    }
  }

  /** Fails closed; otherwise newer means higher precedence. */
  method IsNewerVersion(current: string, candidate: string) returns (newer: bool)
    ensures newer <==> Newer(current, candidate)
  {
    var a, b := ParseSemver(current), ParseSemver(candidate);
    if a.None? || b.None? { return false; }
    for i := 0 to 3
      invariant forall k :: 0 <= k < i ==> a.value.core[k] == b.value.core[k]
    {
      var x, y := a.value.core[i], b.value.core[i];
      if y != x {
        CoreDecided(a.value.core, b.value.core, i);
        return y > x;
      }
    }
    assert a.value.core == b.value.core;
    CoreEqual(a.value.core);
    if |a.value.prerelease| == 0 { return false; }
    if |b.value.prerelease| == 0 { return true; }
    var order := ComparePrerelease(a.value.prerelease, b.value.prerelease);
    return order < 0;
  }

  ghost predicate Newer(current: string, candidate: string) {
    var a, b := ParseSemver(current), ParseSemver(candidate);
    a.Some? && b.Some? && Precedes(a.value, b.value)
  }

  lemma CoreDecided(a: seq<nat>, b: seq<nat>, i: nat)
    requires |a| == |b| == 3 && i < 3 && (forall k :: 0 <= k < i ==> a[k] == b[k]) && a[i] != b[i]
    ensures CoreLess(a, b) <==> a[i] < b[i]
    ensures a != b
  {
    if a[i] < b[i] { assert CoreLessAt(a, b, i); }
  }

  lemma CoreEqual(a: seq<nat>)
    requires |a| == 3
    ensures !CoreLess(a, a)
  {
  }

  lemma {:induction false} StringOrder(x: string, y: string)
    ensures !(StringLess(x, y) && StringLess(y, x)) && !StringLess(x, x)
    ensures StringLess(x, y) || StringLess(y, x) || x == y
  {
    if x != "" && y != "" {
      StringOrder(x[1..], y[1..]);
      assert x == [x[0]] + x[1..] && y == [y[0]] + y[1..];
    }
    if x != "" { StringOrder(x[1..], x[1..]); }
  }

  lemma {:induction false} StringTransitive(x: string, y: string, z: string)
    requires StringLess(x, y) && StringLess(y, z)
    ensures StringLess(x, z)
  {
    if x != "" && x[0] == y[0] == z[0] { StringTransitive(x[1..], y[1..], z[1..]); }
  }

  // ---------------------------------------------------------------- the order

  lemma PreTransitive(a: seq<string>, b: seq<string>, c: seq<string>)
    requires PreLess(a, b) && PreLess(b, c)
    ensures PreLess(a, c)
  {
    var k: nat :| LowerAt(a, b, k);
    var m: nat :| LowerAt(b, c, m);
    var n := if k < m then k else m;
    forall i | 0 <= i < n ensures IdSame(a[i], c[i]) { IdTransitive(a[i], b[i], c[i]); }
    if n < |a| && n < |b| && n < |c| { IdTransitive(a[n], b[n], c[n]); }
    assert LowerAt(a, c, n);
  }

  lemma {:induction false} PreTrichotomy(a: seq<string>, b: seq<string>, n: nat)
    requires n <= |a| && n <= |b| && forall i :: 0 <= i < n ==> IdSame(a[i], b[i])
    ensures PreLess(a, b) || PreLess(b, a) || PreSame(a, b)
    decreases |a| - n
  {
    if n == |a| || n == |b| {
      assert n < |b| ==> LowerAt(a, b, n);
      assert n < |a| ==> LowerAt(b, a, n);
    } else {
      IdOrder(a[n], b[n]);
      if IdSame(a[n], b[n]) {
        PreTrichotomy(a, b, n + 1);
      } else {
        assert IdLess(a[n], b[n]) ==> LowerAt(a, b, n);
        assert IdLess(b[n], a[n]) ==> LowerAt(b, a, n);
      }
    }
  }

  lemma PreIncomparable(a: seq<string>, b: seq<string>)
    ensures PreSame(a, b) <==> !PreLess(a, b) && !PreLess(b, a)
  {
    PreTrichotomy(a, b, 0);
    if PreSame(a, b) { Undecided(a, b); }
  }

  lemma PreSameTransitive(a: seq<string>, b: seq<string>, c: seq<string>)
    requires PreSame(a, b) && PreSame(b, c)
    ensures PreSame(a, c)
  {
    forall i | 0 <= i < |a| ensures IdSame(a[i], c[i]) { IdTransitive(a[i], b[i], c[i]); }
  }

  lemma CoreTransitive(a: seq<nat>, b: seq<nat>, c: seq<nat>)
    requires |a| == |b| == |c| == 3 && CoreLess(a, b) && CoreLess(b, c)
    ensures CoreLess(a, c)
  {
    var k: nat :| CoreLessAt(a, b, k);
    var m: nat :| CoreLessAt(b, c, m);
    assert CoreLessAt(a, c, if k < m then k else m);
  }

  lemma CoreTotal(a: seq<nat>, b: seq<nat>)
    requires |a| == |b| == 3
    ensures a == b <==> !CoreLess(a, b) && !CoreLess(b, a)
    ensures !(CoreLess(a, b) && CoreLess(b, a))
  {
    if CoreLess(a, b) && CoreLess(b, a) { CoreTransitive(a, b, a); }
    if a != b {
      var k := if a[0] != b[0] then 0 else if a[1] != b[1] then 1 else 2;
      assert a[0] == b[0] && a[1] == b[1] && a[2] == b[2] ==> a == b;
      CoreDecided(a, b, k);
      CoreDecided(b, a, k);
    }
  }

  /** The two have the same precedence. */
  ghost predicate SamePrecedence(a: Semver, b: Semver) {
    a.core == b.core && PreSame(a.prerelease, b.prerelease)
  }

  lemma IncomparableIsSame(a: Semver, b: Semver)
    requires |a.core| == |b.core| == 3
    ensures SamePrecedence(a, b) <==> !Precedes(a, b) && !Precedes(b, a)
  {
    CoreTotal(a.core, b.core);
    PreIncomparable(a.prerelease, b.prerelease);
  }

  lemma PrecedesTransitive(a: Semver, b: Semver, c: Semver)
    requires |a.core| == |b.core| == |c.core| == 3 && Precedes(a, b) && Precedes(b, c)
    ensures Precedes(a, c)
  {
    if CoreLess(a.core, b.core) && CoreLess(b.core, c.core) {
      CoreTransitive(a.core, b.core, c.core);
    } else if a.core == b.core == c.core && b.prerelease != [] && c.prerelease != [] {
      PreTransitive(a.prerelease, b.prerelease, c.prerelease);
    }
  }

  predicate Parsable(v: string) { ParseSemver(v).Some? }

  ghost predicate Incomparable(a: string, b: string) { !Newer(a, b) && !Newer(b, a) }

  /** A strict weak order on the parsable versions; what does not parse is never newer and never outranked. */
  lemma NewerIsAStrictWeakOrder(a: string, b: string, c: string)
    ensures !Newer(a, a)
    ensures Newer(a, b) && Newer(b, c) ==> Newer(a, c)
    ensures Parsable(a) && Parsable(b) && Parsable(c) && Incomparable(a, b) && Incomparable(b, c) ==> Incomparable(a, c)
    ensures Newer(a, b) ==> Parsable(a) && Parsable(b)
  {
    if Parsable(a) { IncomparableIsSame(ParseSemver(a).value, ParseSemver(a).value); SameIsReflexive(ParseSemver(a).value); }
    if Newer(a, b) && Newer(b, c) {
      PrecedesTransitive(ParseSemver(a).value, ParseSemver(b).value, ParseSemver(c).value);
    }
    if Parsable(a) && Parsable(b) && Parsable(c) {
      var x, y, z := ParseSemver(a).value, ParseSemver(b).value, ParseSemver(c).value;
      IncomparableIsSame(x, y);
      IncomparableIsSame(y, z);
      IncomparableIsSame(x, z);
      if SamePrecedence(x, y) && SamePrecedence(y, z) { PreSameTransitive(x.prerelease, y.prerelease, z.prerelease); }
    }
  }

  lemma SameIsReflexive(a: Semver)
    ensures SamePrecedence(a, a)
  {
  }

  /** A well-formed text parses, with or without a leading v, to the value of its parts. */
  lemma ParsesTo(p: Parts)
    requires WellFormed(p)
    ensures ParseSemver(Print(p)) == Some(Value(p)) && ParseSemver("v" + Print(p)) == Some(Value(p))
  {
    ScanUndoesPrint(p);
    assert Print(p)[0] == p.major[0];
    assert ("v" + Print(p))[1..] == Print(p);
  }

  /** The text is the version's, perhaps after a v. */
  ghost predicate Spells(v: string, p: Parts) {
    WellFormed(p) && (v == Print(p) || v == "v" + Print(p))
  }

  function Bare(v: string): string {
    if v != "" && v[0] == 'v' then v[1..] else v
  }

  lemma BareOf(v: string)
    ensures v == Bare(v) || v == "v" + Bare(v)
  {
  }

  lemma Spelled(v: string, p: Parts)
    requires WellFormed(p) && Print(p) == Bare(v)
    ensures Spells(v, p)
  {
    BareOf(v);
  }

  /** A version is parsable exactly when it is a well-formed text, perhaps after a v. */
  lemma ParsableIff(v: string)
    ensures Parsable(v) <==> exists p :: Spells(v, p)
  {
    if Parsable(v) {
      PrintUndoesScan(Bare(v));
      Spelled(v, Scan(Bare(v)).value);
    }
    if p :| Spells(v, p) { ParsesTo(p); }
  }

  /** Build metadata decides nothing (section 10), nor does the leading v. */
  lemma BuildIsIgnored(p: Parts, build: Option<string>, other: string)
    requires WellFormed(p) && WellFormed(p.(build := build))
    ensures Newer(Print(p), other) <==> Newer(Print(p.(build := build)), other)
    ensures Newer(other, Print(p)) <==> Newer(other, "v" + Print(p.(build := build)))
  {
    ParsesTo(p);
    ParsesTo(p.(build := build));
  }

  /** A version outranks every prerelease of it. */
  lemma PrereleaseRanksBelow(p: Parts)
    requires WellFormed(p) && p.pre.Some?
    ensures Newer(Print(p), Print(p.(pre := None)))
  {
    NewerByValue(p, p.(pre := None));
  }

  /** More identifiers outrank fewer. */
  lemma LongerPrereleaseRanksAbove(p: Parts, q: Parts, id: string)
    requires WellFormed(p) && WellFormed(q) && p.pre.Some? && q.pre == Some(p.pre.value + "." + id)
    requires p.major == q.major && p.minor == q.minor && p.patch == q.patch
    ensures Newer(Print(p), Print(q))
  {
    NewerByValue(p, q);
    SplitExtends(p.pre.value, id);
    LongerRanksAbove(Split(p.pre.value), Split(id));
  }

  lemma NewerByValue(p: Parts, q: Parts)
    requires WellFormed(p) && WellFormed(q)
    ensures Newer(Print(p), Print(q)) <==> Precedes(Value(p), Value(q))
  {
    ParsesTo(p);
    ParsesTo(q);
  }

  lemma LongerRanksAbove(a: seq<string>, b: seq<string>)
    requires b != []
    ensures PreLess(a, a + b)
  {
    assert LowerAt(a, a + b, |a|);
  }

  lemma {:induction false} SplitExtends(s: string, t: string)
    ensures Split(s + "." + t) == Split(s) + Split(t)
  {
    var n := UpToDot(s);
    UpToDotExtends(s, t);
    if n == |s| {
      assert (s + "." + t)[..n] == s && (s + "." + t)[n + 1..] == t;
    } else {
      assert (s + "." + t)[..n] == s[..n] && (s + "." + t)[n + 1..] == s[n + 1..] + "." + t;
      SplitExtends(s[n + 1..], t);
      assert [s[..n]] + (Split(s[n + 1..]) + Split(t)) == [s[..n]] + Split(s[n + 1..]) + Split(t);
    }
  }

  lemma {:induction false} UpToDotExtends(s: string, t: string)
    ensures UpToDot(s + "." + t) == UpToDot(s)
  {
    if s != "" && s[0] != '.' {
      UpToDotExtends(s[1..], t);
      assert (s + "." + t)[1..] == s[1..] + "." + t;
    }
  }

  // ---------------------------------------------------------------- over printed numbers

  function Plain(major: nat, minor: nat, patch: nat): string {
    Numeral(major) + "." + Numeral(minor) + "." + Numeral(patch)
  }

  /** A release is newer exactly if its numbers are, the first difference deciding: 0.10.0 comes after 0.9.0. */
  lemma ReleasesCompareByNumber(a: nat, b: nat, c: nat, x: nat, y: nat, z: nat)
    ensures Newer(Plain(a, b, c), Plain(x, y, z)) <==> a < x || (a == x && (b < y || (b == y && c < z)))
  {
    PlainValue(a, b, c);
    PlainValue(x, y, z);
    CoresByNumber(a, b, c, x, y, z);
  }

  lemma CoresByNumber(a: nat, b: nat, c: nat, x: nat, y: nat, z: nat)
    ensures CoreLess([a, b, c], [x, y, z]) <==> a < x || (a == x && (b < y || (b == y && c < z)))
  {
    if [a, b, c] != [x, y, z] {
      CoreDecided([a, b, c], [x, y, z], if a != x then 0 else if b != y then 1 else 2);
    } else {
      CoreEqual([a, b, c]);
    }
  }

  lemma PlainValue(a: nat, b: nat, c: nat)
    ensures ParseSemver(Plain(a, b, c)) == Some(Semver([a, b, c], []))
  {
    var p := Parts(Numeral(a), Numeral(b), Numeral(c), None, None);
    NumeralIsDigits(a);
    NumeralIsDigits(b);
    NumeralIsDigits(c);
    NumberOfNumeral(a);
    NumberOfNumeral(b);
    NumberOfNumeral(c);
    ParsesTo(p);
    Plainly(Numeral(a), Numeral(b), Numeral(c));
  }

  lemma Plainly(a: string, b: string, c: string)
    ensures Print(Parts(a, b, c, None, None)) == a + "." + b + "." + c
  {
  }

  // ---------------------------------------------------------------- over the last identifier

  predicate HasDot(s: string) { exists i :: 0 <= i < |s| && s[i] == '.' }

  lemma {:induction false} SplitWhole(s: string)
    requires !HasDot(s)
    ensures Split(s) == [s]
  {
    NoDotAhead(s);
  }

  lemma {:induction false} NoDotAhead(s: string)
    requires !HasDot(s)
    ensures UpToDot(s) == |s|
  {
    if s != "" {
      assert s[0] != '.';
      forall i | 0 <= i < |s[1..]| ensures s[1..][i] != '.' { assert s[1..][i] == s[i + 1]; }
      NoDotAhead(s[1..]);
    }
  }

  /** The first place where they differ has the smaller character on the left, or the left one ends there. */
  ghost predicate TextBefore(x: string, y: string) {
    exists k: nat :: k <= |x| && k < |y| && x[..k] == y[..k] && (k == |x| || x[k] < y[k])
  }

  lemma {:induction false} StringLessIff(x: string, y: string)
    ensures StringLess(x, y) <==> TextBefore(x, y)
  {
    if x != "" && y != "" {
      StringLessIff(x[1..], y[1..]);
      if x[0] == y[0] && TextBefore(x[1..], y[1..]) {
        var k: nat :| k <= |x[1..]| && k < |y[1..]| && x[1..][..k] == y[1..][..k] && (k == |x[1..]| || x[1..][k] < y[1..][k]);
        assert x[..k + 1] == [x[0]] + x[1..][..k] && y[..k + 1] == [y[0]] + y[1..][..k];
        assert TextBefore(x, y);
      }
      if x[0] < y[0] { assert x[..0] == y[..0]; assert TextBefore(x, y); }
      if TextBefore(x, y) {
        var k: nat :| k <= |x| && k < |y| && x[..k] == y[..k] && (k == |x| || x[k] < y[k]);
        if k > 0 {
          assert x[0] == x[..k][0] == y[..k][0] == y[0];
          assert x[1..][..k - 1] == x[..k][1..] && y[1..][..k - 1] == y[..k][1..];
          assert TextBefore(x[1..], y[1..]);
        }
      }
    } else if y != "" {
      assert x[..0] == y[..0];
      assert TextBefore(x, y);
    }
  }

  lemma LastDecides(a: seq<string>, x: string, y: string)
    ensures PreLess(a + [x], a + [y]) <==> IdLess(x, y)
  {
    IdOrder(x, y);
    if IdLess(x, y) { assert LowerAt(a + [x], a + [y], |a|); }
    if IdLess(y, x) {
      assert LowerAt(a + [y], a + [x], |a|);
      Decided(a + [y], a + [x], |a|);
    }
    if IdSame(x, y) { Undecided(a + [x], a + [y]); }
  }

  /** Of two prereleases of one version that differ in their last identifier, numbers compare as numbers, rank below
      text, and text compares character by character. */
  lemma LastIdentifierDecides(p: Parts, pre: string, x: string, y: string)
    requires WellFormed(p.(pre := Some(pre + "." + x))) && WellFormed(p.(pre := Some(pre + "." + y))) && !HasDot(x) && !HasDot(y)
    ensures var newer := Newer(Print(p.(pre := Some(pre + "." + x))), Print(p.(pre := Some(pre + "." + y))));
      && (forall m, n :: x == Numeral(m) && y == Numeral(n) ==> (newer <==> m < n))
      && (Digits(x) && !Digits(y) ==> newer) && (!Digits(x) && Digits(y) ==> !newer)
      && (!Digits(x) && !Digits(y) ==> (newer <==> TextBefore(x, y)))
  {
    var q, r := p.(pre := Some(pre + "." + x)), p.(pre := Some(pre + "." + y));
    NewerByValue(q, r);
    SplitExtends(pre, x);
    SplitExtends(pre, y);
    SplitWhole(x);
    SplitWhole(y);
    LastDecides(Split(pre), x, y);
    CoreEqual(Value(q).core);
    StringLessIff(x, y);
    forall m, n | x == Numeral(m) && y == Numeral(n) ensures IdLess(x, y) <==> m < n {
      NumeralIsDigits(m);
      NumeralIsDigits(n);
      NumberOfNumeral(m);
      NumberOfNumeral(n);
    }
  }
}
