/** Release versions: which strings are versions, and how two are ordered. Numbers
    are naturals of any size. */
module Version {
  import opened Common
  import opened Digits
  import opened Sorting

  /** The four groups of the version pattern. */
  datatype Parts = Parts(major: string, minor: string, patch: string, pre: Option<string>)

  // ---------------------------------------------------------------- parsing

  predicate IsNumeric(s: string) {
    s != "" && AllDigits(s)
  }

  predicate IsPreChar(c: char) {
    IsDigit(c) || 'A' <= c <= 'Z' || 'a' <= c <= 'z' || c == '.' || c == '-'
  }

  predicate IsPre(s: string) {
    s != "" && forall i :: 0 <= i < |s| ==> IsPreChar(s[i])
  }

  function Suffix(pre: Option<string>): string {
    if pre.Some? then "-" + pre.value else ""
  }

  function Text(p: Parts): string {
    p.major + ("." + (p.minor + ("." + (p.patch + Suffix(p.pre)))))
  }

  /** What the pattern says: three numbers separated by dots and, after a dash, a
      nonempty pre-release of letters, digits, dots and dashes. */
  predicate Matches(s: string, p: Parts) {
    && IsNumeric(p.major) && IsNumeric(p.minor) && IsNumeric(p.patch)
    && (p.pre.Some? ==> IsPre(p.pre.value))
    && s == Text(p)
  }

  function DigitRun(s: string): (n: nat)
    ensures n <= |s| && AllDigits(s[..n])
    ensures n < |s| ==> !IsDigit(s[n])
  {
    if s == "" || !IsDigit(s[0]) then 0
    else
      var n := 1 + DigitRun(s[1..]);
      assert s[..n] == [s[0]] + s[1..][..n - 1];
      n
  }

  function PreOf(s: string): Option<Option<string>> {
    if s == "" then Some(None)
    else if s[0] == '-' && IsPre(s[1..]) then Some(Some(s[1..]))
    else None
  }

  /** A number and what follows the dot after it. */
  function Component(s: string): Option<(string, string)> {
    var n := DigitRun(s);
    if 0 < n < |s| && s[n] == '.' then Some((s[..n], s[n + 1..])) else None
  }

  function Parse(s: string): Option<Parts> {
    match Component(s)
    case None => None
    case Some((major, s1)) =>
      match Component(s1)
      case None => None
      case Some((minor, s2)) =>
        var n := DigitRun(s2);
        if n == 0 then None
        else
          match PreOf(s2[n..])
          case None => None
          case Some(pre) => Some(Parts(major, minor, s2[..n], pre))
  }

  lemma {:induction false} DigitRunOf(digits: string, tail: string)
    requires AllDigits(digits) && (tail == "" || !IsDigit(tail[0]))
    ensures DigitRun(digits + tail) == |digits|
    ensures (digits + tail)[..|digits|] == digits && (digits + tail)[|digits|..] == tail
  {
    if digits == "" {
      assert digits + tail == tail;
    } else {
      assert (digits + tail)[1..] == digits[1..] + tail;
      DigitRunOf(digits[1..], tail);
    }
  }

  lemma ComponentOf(digits: string, rest: string)
    requires IsNumeric(digits)
    ensures Component(digits + ("." + rest)) == Some((digits, rest))
  {
    var s := digits + ("." + rest);
    DigitRunOf(digits, "." + rest);
    assert s[|digits|] == '.';
    assert s[|digits| + 1..] == rest;
  }

  lemma ComponentIs(s: string)
    ensures Component(s).Some? ==>
              var (digits, rest) := Component(s).value;
              IsNumeric(digits) && s == digits + ("." + rest)
  {
    var n := DigitRun(s);
    if n < |s| && s[n] == '.' {
      assert s == s[..n] + ([s[n]] + s[n + 1..]);
      assert [s[n]] == ".";
    }
  }

  /** The last number and the optional pre-release. */
  lemma EndIs(s: string)
    ensures
      var n := DigitRun(s);
      PreOf(s[n..]).Some? ==> s == s[..n] + Suffix(PreOf(s[n..]).value)
  {
    var n := DigitRun(s);
    var tail := s[n..];
    assert s == s[..n] + tail;
    if tail != "" && tail[0] == '-' {
      assert tail == [tail[0]] + tail[1..];
    }
  }

  /** Parsing finds the groups exactly when the pattern matches, and they are the
      only ones it matches with. */
  lemma ParseIsTheMatch(s: string, p: Parts)
    ensures Parse(s) == Some(p) <==> Matches(s, p)
  {
    if Parse(s) == Some(p) {
      ComponentIs(s);
      var s1 := Component(s).value.1;
      ComponentIs(s1);
      EndIs(Component(s1).value.1);
    }
    if Matches(s, p) {
      ComponentOf(p.major, p.minor + ("." + (p.patch + Suffix(p.pre))));
      ComponentOf(p.minor, p.patch + Suffix(p.pre));
      DigitRunOf(p.patch, Suffix(p.pre));
      if p.pre.Some? {
        assert Suffix(p.pre)[1..] == p.pre.value;
      }
    }
  }

  // -------------------------------------------------------------- comparing

  function CmpNum(a: int, b: int): int {
    if a < b then -1 else if a > b then 1 else 0
  }

  /** The identifiers between the dots; there is always at least one. */
  function Split(s: string): (ids: seq<string>)
    ensures ids != []
  {
    if s == "" then [""]
    else if s[0] == '.' then [""] + Split(s[1..])
    else
      var rest := Split(s[1..]);
      [[s[0]] + rest[0]] + rest[1..]
  }

  function CmpId(p: string, q: string): int {
    if IsNumeric(p) && IsNumeric(q) then CmpNum(Number(p), Number(q))
    else if IsNumeric(p) != IsNumeric(q) then (if IsNumeric(p) then -1 else 1)
    else if p != q then (if TextLe(p, q) then -1 else 1)
    else 0
  }

  function CmpIds(x: seq<string>, y: seq<string>): int
    decreases |x|
  {
    if x == [] || y == [] then CmpNum(|x|, |y|)
    else if CmpId(x[0], y[0]) != 0 then CmpId(x[0], y[0])
    else CmpIds(x[1..], y[1..])
  }

  function CmpCore(a: Parts, b: Parts): int
    requires Parsed(a) && Parsed(b)
  {
    if Number(a.major) != Number(b.major) then CmpNum(Number(a.major), Number(b.major))
    else if Number(a.minor) != Number(b.minor) then CmpNum(Number(a.minor), Number(b.minor))
    else CmpNum(Number(a.patch), Number(b.patch))
  }

  function CmpParts(a: Parts, b: Parts): int
    requires Parsed(a) && Parsed(b)
  {
    if CmpCore(a, b) != 0 then CmpCore(a, b)
    else if a.pre.None? && b.pre.None? then 0
    else if a.pre.None? then 1
    else if b.pre.None? then -1
    else CmpIds(Split(a.pre.value), Split(b.pre.value))
  }

  predicate Parsed(p: Parts) {
    IsNumeric(p.major) && IsNumeric(p.minor) && IsNumeric(p.patch)
  }

  lemma ParseIsParsed(s: string)
    ensures Parse(s).Some? ==> Parsed(Parse(s).value)
  {
    if Parse(s).Some? {
      ParseIsTheMatch(s, Parse(s).value);
    }
  }

  /** The offending string when one is not a version. */
  function Compare(a: string, b: string): Result<int, string> {
    ParseIsParsed(a);
    ParseIsParsed(b);
    if Parse(a).None? then Err(a)
    else if Parse(b).None? then Err(b)
    else Ok(CmpParts(Parse(a).value, Parse(b).value))
  }

  method CmpPre(a: string, b: string) returns (c: int)
    ensures c == CmpIds(Split(a), Split(b))
  {
    var x, y := Split(a), Split(b);
    for i := 0 to Min(|x|, |y|)
      invariant CmpIds(x, y) == CmpIds(x[i..], y[i..])
    {
      var p, q := x[i], y[i];
      assert x[i..][1..] == x[i + 1..] && y[i..][1..] == y[i + 1..];
      var pn, qn := IsNumeric(p), IsNumeric(q);
      if pn && qn {
        c := CmpNum(Number(p), Number(q));
        if c != 0 {
          return;
        }
      } else if pn != qn {
        return if pn then -1 else 1;
      } else if p != q {
        return if TextLe(p, q) then -1 else 1;
      }
    }
    return CmpNum(|x|, |y|);
  }

  /** The i-th of the three numbers. */
  function Group(p: Parts, i: nat): nat
    requires Parsed(p) && i < 3
  {
    Number(if i == 0 then p.major else if i == 1 then p.minor else p.patch)
  }

  method CompareCore(a: Parts, b: Parts) returns (c: int)
    requires Parsed(a) && Parsed(b)
    ensures c == CmpCore(a, b)
  {
    for i := 0 to 3
      invariant i > 0 ==> Group(a, 0) == Group(b, 0)
      invariant i > 1 ==> Group(a, 1) == Group(b, 1)
      invariant i > 2 ==> Group(a, 2) == Group(b, 2)
    {
      c := CmpNum(Group(a, i), Group(b, i));
      if c != 0 {
        return;
      }
    }
    return 0;
  }

  method CompareVersions(a: string, b: string) returns (r: Result<int, string>)
    ensures r == Compare(a, b)
  {
    ParseIsParsed(a);
    ParseIsParsed(b);
    var pa, pb := Parse(a), Parse(b);
    if pa.None? || pb.None? {
      return Err(if pa.Some? then b else a);
    }
    var core := CompareCore(pa.value, pb.value);
    if core != 0 {
      return Ok(core);
    }
    if pa.value.pre.None? && pb.value.pre.None? {
      return Ok(0);
    }
    if pa.value.pre.None? {
      return Ok(1);
    }
    if pb.value.pre.None? {
      return Ok(-1);
    }
    var c := CmpPre(pa.value.pre.value, pb.value.pre.value);
    return Ok(c);
  }

  // ------------------------------------------------------------ total order

  /** One identifier: below zero, zero and above zero behave like an order. */
  lemma CmpIdOrders(p: string, q: string, r: string)
    ensures CmpId(p, q) == -CmpId(q, p) && -1 <= CmpId(p, q) <= 1
    ensures CmpId(p, q) <= 0 && CmpId(q, r) <= 0 ==> CmpId(p, r) <= 0
    ensures CmpId(p, q) <= 0 && CmpId(q, r) <= 0 && CmpId(p, r) == 0 ==> CmpId(p, q) == 0 && CmpId(q, r) == 0
  {
    TextLeTotal(p, q);
    if TextLe(p, q) && TextLe(q, p) {
      TextLeAntisymmetric(p, q);
    }
    if TextLe(p, q) && TextLe(q, r) {
      TextLeTransitive(p, q, r);
    }
  }

  lemma {:induction false} CmpIdsOrders(x: seq<string>, y: seq<string>, z: seq<string>)
    ensures CmpIds(x, y) == -CmpIds(y, x) && -1 <= CmpIds(x, y) <= 1
    ensures CmpIds(x, y) <= 0 && CmpIds(y, z) <= 0 ==> CmpIds(x, z) <= 0
    ensures CmpIds(x, y) <= 0 && CmpIds(y, z) <= 0 && CmpIds(x, z) == 0 ==> CmpIds(x, y) == 0 && CmpIds(y, z) == 0
    decreases |x| + |y|
  {
    if x != [] && y != [] {
      CmpIdsOrders(x[1..], y[1..], if z == [] then [] else z[1..]);
      CmpIdOrders(x[0], y[0], if z == [] then "" else z[0]);
    }
  }

  /** A total preorder: reflexive and antisymmetric up to 0, total, transitive. */
  lemma ComparisonIsATotalPreorder(a: Parts, b: Parts, c: Parts)
    requires Parsed(a) && Parsed(b) && Parsed(c)
    ensures CmpParts(a, a) == 0
    ensures CmpParts(a, b) == -CmpParts(b, a) && -1 <= CmpParts(a, b) <= 1
    ensures CmpParts(a, b) <= 0 && CmpParts(b, c) <= 0 ==> CmpParts(a, c) <= 0
    ensures CmpParts(a, b) == 0 ==> CmpParts(a, c) == CmpParts(b, c)
  {
    var x, y, z := Ids(a), Ids(b), Ids(c);
    CmpIdsOrders(x, x, x);
    CmpIdsOrders(x, y, z);
    CmpIdsOrders(y, x, z);
    CmpIdsOrders(y, z, x);
    CmpIdsOrders(z, x, y);
    CmpIdsOrders(z, y, x);
    CmpIdsOrders(x, z, y);
  }

  function Ids(p: Parts): seq<string> {
    if p.pre.Some? then Split(p.pre.value) else []
  }

  // ----------------------------------------------------------- the standard

  /** Identifiers that count as equal: the same number, or the same text. */
  predicate SameId(p: string, q: string) {
    if IsNumeric(p) && IsNumeric(q) then Number(p) == Number(q) else p == q
  }

  /** Numbers numerically, numbers below other identifiers, those by ASCII order. */
  predicate IdBefore(p: string, q: string) {
    if IsNumeric(p) && IsNumeric(q) then Number(p) < Number(q)
    else if IsNumeric(p) || IsNumeric(q) then IsNumeric(p)
    else p != q && TextLe(p, q)
  }

  /** The first k identifiers agree, and then either x has no more and y has, or the
      next one is lower. */
  predicate DecidedAt(x: seq<string>, y: seq<string>, k: nat) {
    && k <= |x| && k <= |y|
    && (forall i :: 0 <= i < k ==> SameId(x[i], y[i]))
    && k < |y|
    && (k < |x| ==> IdBefore(x[k], y[k]))
  }

  ghost predicate IdsBefore(x: seq<string>, y: seq<string>) {
    exists k :: DecidedAt(x, y, k)
  }

  predicate SameIds(x: seq<string>, y: seq<string>) {
    |x| == |y| && forall i :: 0 <= i < |x| ==> SameId(x[i], y[i])
  }

  predicate CoreBefore(a: Parts, b: Parts)
    requires Parsed(a) && Parsed(b)
  {
    || Number(a.major) < Number(b.major)
    || (Number(a.major) == Number(b.major) && Number(a.minor) < Number(b.minor))
    || (Number(a.major) == Number(b.major) && Number(a.minor) == Number(b.minor) && Number(a.patch) < Number(b.patch))
  }

  predicate SameCore(a: Parts, b: Parts)
    requires Parsed(a) && Parsed(b)
  {
    Number(a.major) == Number(b.major) && Number(a.minor) == Number(b.minor) && Number(a.patch) == Number(b.patch)
  }

  /** Precedence as section 11 of Semantic Versioning 2.0.0 states it. */
  ghost predicate Precedes(a: Parts, b: Parts)
    requires Parsed(a) && Parsed(b)
  {
    || CoreBefore(a, b)
    || (SameCore(a, b) && a.pre.Some? && (b.pre.None? || IdsBefore(Ids(a), Ids(b))))
  }

  lemma CmpIdIs(p: string, q: string)
    ensures CmpId(p, q) == 0 <==> SameId(p, q)
    ensures CmpId(p, q) < 0 <==> IdBefore(p, q)
  {
  }

  lemma {:induction false} CmpIdsIs(x: seq<string>, y: seq<string>)
    ensures CmpIds(x, y) == 0 <==> SameIds(x, y)
    ensures CmpIds(x, y) < 0 <==> IdsBefore(x, y)
    decreases |x|
  {
    if x == [] {
      if y != [] {
        assert DecidedAt(x, y, 0);
      }
    } else if y != [] {
      CmpIdIs(x[0], y[0]);
      CmpIdsIs(x[1..], y[1..]);
      if SameId(x[0], y[0]) {
        SameHeads(x, y);
      } else {
        if IdBefore(x[0], y[0]) {
          assert DecidedAt(x, y, 0);
        }
      }
    }
  }

  lemma SameHeads(x: seq<string>, y: seq<string>)
    requires x != [] && y != [] && SameId(x[0], y[0])
    ensures SameIds(x, y) <==> SameIds(x[1..], y[1..])
    ensures IdsBefore(x, y) <==> IdsBefore(x[1..], y[1..])
  {
    if SameIds(x[1..], y[1..]) {
      forall i | 0 <= i < |x| ensures SameId(x[i], y[i]) {
        assert i > 0 ==> SameId(x[1..][i - 1], y[1..][i - 1]);
      }
    }
    if k: nat :| DecidedAt(x, y, k) {
      assert k > 0 by {
        assert !IdBefore(x[0], y[0]);
      }
      assert forall i :: 0 <= i < k - 1 ==> SameId(x[1..][i], y[1..][i]);
      assert DecidedAt(x[1..], y[1..], k - 1);
    }
    if k: nat :| DecidedAt(x[1..], y[1..], k) {
      forall i | 0 <= i < k + 1 ensures SameId(x[i], y[i]) {
        assert i > 0 ==> SameId(x[1..][i - 1], y[1..][i - 1]);
      }
      assert DecidedAt(x, y, k + 1);
    }
  }

  /** The comparison is the standard's precedence, and 0 exactly when the numbers and
      the identifiers agree up to numeric value. */
  lemma ComparisonIsPrecedence(a: Parts, b: Parts)
    requires Parsed(a) && Parsed(b)
    ensures CmpParts(a, b) < 0 <==> Precedes(a, b)
    ensures CmpParts(a, b) > 0 <==> Precedes(b, a)
    ensures CmpParts(a, b) == 0 <==> SameCore(a, b) && a.pre.Some? == b.pre.Some? && SameIds(Ids(a), Ids(b))
  {
    CmpIdsIs(Ids(a), Ids(b));
    CmpIdsIs(Ids(b), Ids(a));
    CmpIdsOrders(Ids(a), Ids(b), []);
  }

  /** The pattern is laxer than the standard: zero-padded numbers and empty
      identifiers are accepted, so different strings can compare equal. */
  lemma PaddedVersionsCompareEqual()
    ensures Matches(Text(PLAIN), PLAIN) && Matches(Text(PADDED), PADDED)
    ensures CmpParts(PLAIN, PADDED) == 0 && PLAIN.major != PADDED.major && Ids(PLAIN) != Ids(PADDED)
  {
    PaddedIds();
    PaddedNumber();
    ComparisonIsPrecedence(PLAIN, PADDED);
  }

  const PLAIN := Parts("1", "0", "0", Some("a..01"))
  const PADDED := Parts("01", "0", "0", Some("a..1"))

  lemma PaddedNumber()
    ensures Number("01") == Number("1")
  {
    assert "01"[..1] == "0";
  }

  lemma PaddedIds()
    ensures Ids(PLAIN) == ["a", "", "01"] && Ids(PADDED) == ["a", "", "1"]
  {
    SplitsTwice("a", "", "01");
    SplitsTwice("a", "", "1");
    assert "a..01" == "a" + ("." + ("" + ("." + "01"))) && "a..1" == "a" + ("." + ("" + ("." + "1")));
  }

  lemma SplitsTwice(a: string, b: string, c: string)
    requires forall i :: 0 <= i < |a| ==> a[i] != '.'
    requires forall i :: 0 <= i < |b| ==> b[i] != '.'
    requires forall i :: 0 <= i < |c| ==> c[i] != '.'
    ensures Split(a + ("." + (b + ("." + c)))) == [a, b, c]
  {
    SplitsAtDot(a, b + ("." + c));
    SplitsAtDot(b, c);
    SplitsNowhere(c);
  }

  lemma {:induction false} SplitsNowhere(id: string)
    requires forall i :: 0 <= i < |id| ==> id[i] != '.'
    ensures Split(id) == [id]
  {
    if id != "" {
      SplitsNowhere(id[1..]);
      assert [id[0]] + id[1..] == id;
    }
  }

  lemma {:induction false} SplitsAtDot(id: string, rest: string)
    requires forall i :: 0 <= i < |id| ==> id[i] != '.'
    ensures Split(id + ("." + rest)) == [id] + Split(rest)
  {
    var s := id + ("." + rest);
    if id == "" {
      assert s == "." + rest && s[1..] == rest;
    } else {
      SplitsAtDot(id[1..], rest);
      assert s[1..] == id[1..] + ("." + rest);
      assert [id[0]] + id[1..] == id;
    }
  }
}
