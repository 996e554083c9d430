/**
 * Python string operations the backend relies on: `str.strip()`, `in`,
 * `sep.join(...)`, `s.split(c)`, `str(int)` and `int(digits)`.
 */
module Text {

  /** Python's `str.isspace` for one character: what `str.strip()` removes. */
  predicate IsSpace(c: char) {
    || c == ' '
    || ('\t' <= c <= '\r')
    || ('\U{1C}' <= c <= '\U{1F}')
    || c == '\U{85}'
    || c == '\U{A0}'
    || c == '\U{1680}'
    || ('\U{2000}' <= c <= '\U{200A}')
    || c == '\U{2028}'
    || c == '\U{2029}'
    || c == '\U{202F}'
    || c == '\U{205F}'
    || c == '\U{3000}'
  }

  predicate AllSpace(s: string) {
    forall i :: 0 <= i < |s| ==> IsSpace(s[i])
  }

  /** `s` neither starts nor ends with white space. */
  predicate Trimmed(s: string) {
    s == [] || (!IsSpace(s[0]) && !IsSpace(s[|s| - 1]))
  }

  /** Python's `s.lstrip()`: a suffix of `s`, what was dropped is white space. */
  function TrimStart(s: string): (r: string)
    ensures |r| <= |s| && r == s[|s| - |r|..]
    ensures AllSpace(s[..|s| - |r|])
    ensures r == [] || !IsSpace(r[0])
  {
    if s != [] && IsSpace(s[0]) then TrimStart(s[1..]) else s
  }

  /** Python's `s.rstrip()`: a prefix of `s`, what was dropped is white space. */
  function TrimEnd(s: string): (r: string)
    ensures |r| <= |s| && r == s[..|r|]
    ensures AllSpace(s[|r|..])
    ensures r == [] || !IsSpace(r[|r| - 1])
  {
    if s != [] && IsSpace(s[|s| - 1]) then
      var r := TrimEnd(s[..|s| - 1]);
      assert s[..|r|] == s[..|s| - 1][..|r|];
      assert s[|r|..] == s[..|s| - 1][|r|..] + [s[|s| - 1]];
      r
    else s
  }

  /** Python's `s.strip()`. */
  function Strip(s: string): (r: string)
    ensures Trimmed(r)
    ensures |r| <= |s|
    ensures forall c :: c in r ==> c in s
    ensures r == [] <==> AllSpace(s)
  {
    var t := TrimStart(s);
    var r := TrimEnd(t);
    assert forall c :: c in r ==> c in t;
    assert forall c :: c in t ==> c in s;
    assert r == [] ==> AllSpace(s) by {
      if r == [] {
        assert s == s[..|s| - |t|] + t;
        assert t == t[..0] + t[0..];
      }
    }
    r
  }

  /**
   * What `str.strip()` returns is the input with white space removed at both
   * ends and nowhere else: a slice of the input, between two all-space runs.
   */
  lemma StripIsSlice(s: string)
    ensures exists a, b :: 0 <= a <= b <= |s| && Strip(s) == s[a..b] && AllSpace(s[..a]) && AllSpace(s[b..])
  {
    var t := TrimStart(s);
    var r := TrimEnd(t);
    var a, b := |s| - |t|, |s| - |t| + |r|;
    assert r == s[a..b] && AllSpace(s[..a]) && AllSpace(s[b..]) by {
      assert s[b..] == t[|r|..];
    }
  }

  /** Stripping what is already trimmed changes nothing; in particular Strip is idempotent. */
  lemma StripTrimmed(s: string)
    requires Trimmed(s)
    ensures Strip(s) == s
  {
  }

  lemma {:induction false} TrimStartOfSpaces(s: string)
    requires AllSpace(s)
    ensures TrimStart(s) == []
  {
  }

  lemma {:induction false} TrimStartAppend(s: string, c: char)
    requires !AllSpace(s)
    ensures TrimStart(s + [c]) == TrimStart(s) + [c]
  {
    if IsSpace(s[0]) {
      assert (s + [c])[1..] == s[1..] + [c];
      assert !AllSpace(s[1..]) by {
        var k :| 0 <= k < |s| && !IsSpace(s[k]);
        assert s[1..][k - 1] == s[k];
      }
      TrimStartAppend(s[1..], c);
    }
  }

  /** A white-space character at the end does not change the stripped text. */
  lemma StripDropsTrailingSpace(s: string, c: char)
    requires IsSpace(c)
    ensures Strip(s + [c]) == Strip(s)
  {
    if AllSpace(s) {
      assert AllSpace(s + [c]);
      TrimStartOfSpaces(s + [c]);
      TrimStartOfSpaces(s);
    } else {
      TrimStartAppend(s, c);
      var t := TrimStart(s);
      assert TrimEnd(t + [c]) == TrimEnd(t) by {
        assert (t + [c])[..|t + [c]| - 1] == t;
      }
    }
  }

  /** `p` occurs in `s` at position `i`. */
  predicate OccursAt(s: string, p: string, i: nat) {
    i + |p| <= |s| && s[i..i + |p|] == p
  }

  /** Python's `p in s`. */
  predicate Contains(s: string, p: string) {
    exists i | 0 <= i <= |s| :: OccursAt(s, p, i)
  }

  lemma ContainsInfix(a: string, p: string, b: string)
    ensures Contains(a + p + b, p)
  {
    assert OccursAt(a + p + b, p, |a|) by {
      assert (a + p + b)[|a|..|a| + |p|] == p;
    }
  }

  /** Containment is transitive. */
  lemma ContainsTrans(s: string, t: string, p: string)
    requires Contains(s, t) && Contains(t, p)
    ensures Contains(s, p)
  {
    var i :| 0 <= i <= |s| && OccursAt(s, t, i);
    var j :| 0 <= j <= |t| && OccursAt(t, p, j);
    var u := s[i..i + |t|];
    assert u == t;
    assert forall k :: 0 <= k < |p| ==> s[i + j + k] == u[j + k] == p[k];
    assert s[i + j..i + j + |p|] == p;
    assert OccursAt(s, p, i + j);
  }

  /** Whatever occurs in `t` occurs in any text that has `t` inside it. */
  lemma ContainsWithin(a: string, t: string, b: string, p: string)
    requires Contains(t, p)
    ensures Contains(a + t + b, p)
  {
    var i :| 0 <= i <= |t| && OccursAt(t, p, i);
    assert (a + t + b)[|a| + i..|a| + i + |p|] == t[i..i + |p|];
    assert OccursAt(a + t + b, p, |a| + i);
  }

  /** The pieces written one after another (Python's `"".join(parts)`). */
  function Concat(parts: seq<string>): string {
    if parts == [] then "" else parts[0] + Concat(parts[1..])
  }

  /** Whatever occurs in one piece occurs in the concatenation. */
  lemma {:induction false} ConcatContains(parts: seq<string>, k: nat, p: string)
    requires k < |parts| && Contains(parts[k], p)
    ensures Contains(Concat(parts), p)
  {
    if k == 0 {
      ContainsWithin("", parts[0], Concat(parts[1..]), p);
      assert "" + parts[0] + Concat(parts[1..]) == Concat(parts);
    } else {
      ConcatContains(parts[1..], k - 1, p);
      ContainsWithin(parts[0], Concat(parts[1..]), "", p);
      assert parts[0] + Concat(parts[1..]) + "" == Concat(parts);
    }
  }

  /** The concatenation opens with its first two pieces. */
  lemma ConcatOpening(parts: seq<string>)
    requires |parts| >= 2
    ensures parts[0] + parts[1] <= Concat(parts)
  {
    assert Concat(parts) == parts[0] + (parts[1] + Concat(parts[2..])) by {
      assert parts[1..][1..] == parts[2..];
    }
  }

  /** The concatenation opens with its first three pieces. */
  lemma ConcatOpening3(parts: seq<string>)
    requires |parts| >= 3
    ensures parts[0] + parts[1] + parts[2] <= Concat(parts)
  {
    var rest := Concat(parts[1..]);
    ConcatOpening(parts[1..]);
    assert parts[1..][0] + parts[1..][1] <= rest;
    var head := parts[0] + parts[1] + parts[2];
    assert Concat(parts) == parts[0] + rest;
    assert head == parts[0] + (parts[1] + parts[2]);
  }

  /** Every piece occurs in the concatenation. */
  lemma ConcatHasPart(parts: seq<string>, k: nat)
    requires k < |parts|
    ensures Contains(Concat(parts), parts[k])
  {
    assert OccursAt(parts[k], parts[k], 0);
    ConcatContains(parts, k, parts[k]);
  }

  /** The concatenation closes with its last piece. */
  lemma {:induction false} ConcatClosing(parts: seq<string>)
    requires |parts| >= 1
    ensures var c, last := Concat(parts), parts[|parts| - 1];
            |last| <= |c| && c[|c| - |last|..] == last
  {
    if |parts| > 1 {
      ConcatClosing(parts[1..]);
    }
  }

  /** Python's `sep.join(parts)`. */
  function Join(sep: string, parts: seq<string>): string
  {
    if |parts| == 0 then ""
    else if |parts| == 1 then parts[0]
    else Join(sep, parts[..|parts| - 1]) + sep + parts[|parts| - 1]
  }

  /** Every part occurs in the joined text. */
  lemma {:induction false} JoinContainsPart(sep: string, parts: seq<string>, k: nat)
    requires k < |parts|
    ensures Contains(Join(sep, parts), parts[k])
  {
    if |parts| == 1 {
      assert OccursAt(parts[0], parts[0], 0);
    } else {
      var init, last := parts[..|parts| - 1], parts[|parts| - 1];
      assert Join(sep, parts) == Join(sep, init) + sep + last;
      if k == |parts| - 1 {
        assert OccursAt(last, last, 0);
        ContainsAfter(Join(sep, init) + sep, last, last);
      } else {
        JoinContainsPart(sep, init, k);
        assert init[k] == parts[k];
        ContainsBefore(Join(sep, init), sep + last, parts[k]);
        assert Join(sep, init) + (sep + last) == Join(sep, parts);
      }
    }
  }

  /** What occurs in `t` occurs in `t` followed by anything. */
  lemma ContainsBefore(t: string, b: string, p: string)
    requires Contains(t, p)
    ensures Contains(t + b, p)
  {
    var i :| 0 <= i <= |t| && OccursAt(t, p, i);
    assert (t + b)[i..i + |p|] == t[i..i + |p|];
    assert OccursAt(t + b, p, i);
  }

  /** What occurs in `t` occurs in anything followed by `t`. */
  lemma ContainsAfter(a: string, t: string, p: string)
    requires Contains(t, p)
    ensures Contains(a + t, p)
  {
    var i :| 0 <= i <= |t| && OccursAt(t, p, i);
    assert (a + t)[|a| + i..|a| + i + |p|] == t[i..i + |p|];
    assert OccursAt(a + t, p, |a| + i);
  }

  /** The first position of `c` in `s`, if any (Python's `s.find(c)`). */
  function FirstIndexOf(s: string, c: char): (r: int)
    ensures -1 <= r < |s|
    ensures r >= 0 ==> s[r] == c
    ensures forall k :: 0 <= k < |s| && (r < 0 || k < r) ==> s[k] != c
  {
    if s == [] then -1
    else if s[0] == c then 0
    else
      var r := FirstIndexOf(s[1..], c);
      if r < 0 then -1 else r + 1
  }

  /** The last position of `c` in `s`, if any (Python's `s.rfind(c)`). */
  function LastIndexOf(s: string, c: char): (r: int)
    ensures -1 <= r < |s|
    ensures r >= 0 ==> s[r] == c
    ensures forall k :: r < k < |s| ==> s[k] != c
  {
    if s == [] then -1
    else if s[|s| - 1] == c then |s| - 1
    else LastIndexOf(s[..|s| - 1], c)
  }

  /** Python's `s.split(c)` for a one-character separator. */
  function Split(s: string, c: char): (r: seq<string>)
    ensures |r| >= 1
    decreases |s|
  {
    var i := LastIndexOf(s, c);
    if i < 0 then [s] else Split(s[..i], c) + [s[i + 1..]]
  }

  lemma {:induction false} LastIndexOfAbsent(s: string, c: char)
    requires c !in s
    ensures LastIndexOf(s, c) == -1
  {
    if s != [] {
      assert s[|s| - 1] in s;
      assert forall x :: x in s[..|s| - 1] ==> x in s;
      LastIndexOfAbsent(s[..|s| - 1], c);
    }
  }

  /** The last `c` in `j + [c] + last` is the one added, when `last` holds none. */
  lemma {:induction false} LastIndexOfSeparator(j: string, c: char, last: string)
    requires c !in last
    ensures LastIndexOf(j + [c] + last, c) == |j|
  {
    var s := j + [c] + last;
    if last != [] {
      assert s[|s| - 1] == last[|last| - 1];
      assert s[..|s| - 1] == j + [c] + last[..|last| - 1];
      LastIndexOfSeparator(j, c, last[..|last| - 1]);
    } else {
      assert s[|s| - 1] == c;
    }
  }

  /** Splitting at `c` peels off a last piece that holds no `c`. */
  lemma SplitAtSeparator(j: string, c: char, last: string)
    requires c !in last
    ensures Split(j + [c] + last, c) == Split(j, c) + [last]
  {
    var s := j + [c] + last;
    LastIndexOfSeparator(j, c, last);
    assert s[..|j|] == j;
    assert s[|j| + 1..] == last;
  }

  /** Joining pieces free of `c` with `c` and splitting at `c` gives the pieces back. */
  lemma {:induction false} SplitJoin(parts: seq<string>, c: char)
    requires |parts| >= 1
    requires forall k :: 0 <= k < |parts| ==> c !in parts[k]
    ensures Split(Join([c], parts), c) == parts
  {
    if |parts| == 1 {
      LastIndexOfAbsent(parts[0], c);
    } else {
      var init, last := parts[..|parts| - 1], parts[|parts| - 1];
      var j := Join([c], init);
      assert Join([c], parts) == j + [c] + last;
      SplitAtSeparator(j, c, last);
      assert forall k :: 0 <= k < |init| ==> c !in init[k] by {
        forall k | 0 <= k < |init| ensures c !in init[k] {
          assert init[k] == parts[k];
        }
      }
      SplitJoin(init, c);
      assert init + [last] == parts;
    }
  }

  predicate IsDigit(c: char) {
    '0' <= c <= '9'
  }

  predicate AllDigits(s: string) {
    forall i :: 0 <= i < |s| ==> IsDigit(s[i])
  }

  function DigitChar(d: nat): (c: char)
    requires d < 10
    ensures IsDigit(c)
  {
    ['0', '1', '2', '3', '4', '5', '6', '7', '8', '9'][d]
  }

  function DigitValue(c: char): (d: nat)
    requires IsDigit(c)
    ensures d < 10 && DigitChar(d) == c
  {
    if c == '0' then 0 else if c == '1' then 1 else if c == '2' then 2
    else if c == '3' then 3 else if c == '4' then 4 else if c == '5' then 5
    else if c == '6' then 6 else if c == '7' then 7 else if c == '8' then 8
    else 9
  }

  /** Python's `int(s)` on a string of decimal digits (leading zeros allowed). */
  function ParseDecimal(s: string): nat
    requires AllDigits(s)
  {
    if s == [] then 0 else 10 * ParseDecimal(s[..|s| - 1]) + DigitValue(s[|s| - 1])
  }

  /** Python's `str(n)` for a natural number: digits, no leading zero. */
  function NatToDecimal(n: nat): (r: string)
    ensures |r| >= 1 && AllDigits(r)
    ensures r[0] == '0' ==> n == 0
  {
    if n < 10 then [DigitChar(n)] else NatToDecimal(n / 10) + [DigitChar(n % 10)]
  }

  /** Python's `str(i)` for any integer. */
  function IntToDecimal(i: int): string {
    if i < 0 then "-" + NatToDecimal(-i) else NatToDecimal(i)
  }

  /** Reading back the decimal rendering of a number gives the number. */
  lemma {:induction false} ParseNatToDecimal(n: nat)
    ensures ParseDecimal(NatToDecimal(n)) == n
  {
    var r := NatToDecimal(n);
    if n >= 10 {
      ParseNatToDecimal(n / 10);
      assert r[..|r| - 1] == NatToDecimal(n / 10);
      assert DigitValue(r[|r| - 1]) == n % 10;
    } else {
      assert DigitValue(r[0]) == n;
    }
  }
}
