/**
 * The regular-expression searches the backend performs, stated over positions.
 * Each pattern the code uses is a fixed literal prefix followed by a capture of
 * one or more characters from a character class, e.g. `Name: (.+)` (class: any
 * character but a newline), `User: ([^,]+)` (anything but a comma), `ID: (\d+)`
 * (a digit) or `Response: (.+)` under DOTALL (any character). `re.search`
 * returns the leftmost position where the prefix is followed by at least one
 * character of the class; a greedy capture then runs while the class matches.
 */
module Patterns {
  import opened Wrappers
  import opened Text

  datatype CharClass = AnyChar | NoneOf(excluded: set<char>) | DecimalDigit

  predicate InClass(cls: CharClass, c: char) {
    match cls
    case AnyChar => true
    case NoneOf(excluded) => c !in excluded
    case DecimalDigit => IsDigit(c)
  }

  /** `.` without DOTALL: anything but a line feed. */
  const LineChar := NoneOf({'\n'})

  /** The prefix occurs at `i` and is followed by at least one character of `cls`. */
  predicate FieldAt(s: string, prefix: string, cls: CharClass, i: nat) {
    i + |prefix| < |s| && OccursAt(s, prefix, i) && InClass(cls, s[i + |prefix|])
  }

  /** `i` is where `re.search` finds `prefix` followed by a character of `cls`. */
  ghost predicate IsFirstField(s: string, prefix: string, cls: CharClass, i: nat) {
    FieldAt(s, prefix, cls, i) && forall k: nat :: k < i ==> !FieldAt(s, prefix, cls, k)
  }

  /** No position of `s` matches. */
  ghost predicate NoField(s: string, prefix: string, cls: CharClass) {
    forall k: nat :: !FieldAt(s, prefix, cls, k)
  }

  /** Leftmost match at or after `from`. */
  function FindField(s: string, prefix: string, cls: CharClass, from: nat): (r: Option<nat>)
    ensures r.Some? ==> from <= r.value && FieldAt(s, prefix, cls, r.value)
    ensures r.Some? ==> forall k: nat :: from <= k < r.value ==> !FieldAt(s, prefix, cls, k)
    ensures r.None? ==> forall k: nat :: from <= k ==> !FieldAt(s, prefix, cls, k)
    decreases |s| - from
  {
    if from >= |s| then None
    else if FieldAt(s, prefix, cls, from) then Some(from)
    else FindField(s, prefix, cls, from + 1)
  }

  /** The search from the start finds exactly the first match. */
  lemma FindFirstField(s: string, prefix: string, cls: CharClass, i: nat)
    requires IsFirstField(s, prefix, cls, i)
    ensures FindField(s, prefix, cls, 0) == Some(i)
  {
  }

  /** The leftmost match is the only first match. */
  lemma FirstFieldUnique(s: string, prefix: string, cls: CharClass, i: nat)
    requires FieldAt(s, prefix, cls, i)
    requires forall k: nat :: k < i ==> !FieldAt(s, prefix, cls, k)
    ensures forall j: nat :: IsFirstField(s, prefix, cls, j) ==> j == i
  {
  }

  /** The end of the run of `cls` characters starting at `from`. */
  function ScanWhile(s: string, from: nat, cls: CharClass): (r: nat)
    requires from <= |s|
    ensures from <= r <= |s|
    ensures forall k :: from <= k < r ==> InClass(cls, s[k])
    ensures r == |s| || !InClass(cls, s[r])
    decreases |s| - from
  {
    if from == |s| || !InClass(cls, s[from]) then from else ScanWhile(s, from + 1, cls)
  }

  /** Reference definition: the longest prefix of `t` made of `cls` characters. */
  function TakeWhile(t: string, cls: CharClass): (r: string)
    ensures r <= t
    ensures forall k :: 0 <= k < |r| ==> InClass(cls, r[k])
    ensures |r| == |t| || !InClass(cls, t[|r|])
  {
    if t != [] && InClass(cls, t[0]) then [t[0]] + TakeWhile(t[1..], cls) else []
  }

  lemma {:induction false} ScanWhileTakes(s: string, from: nat, cls: CharClass)
    requires from <= |s|
    ensures s[from..ScanWhile(s, from, cls)] == TakeWhile(s[from..], cls)
    decreases |s| - from
  {
    if from < |s| && InClass(cls, s[from]) {
      ScanWhileTakes(s, from + 1, cls);
      assert s[from..][1..] == s[from + 1..];
      assert s[from..ScanWhile(s, from, cls)] == [s[from]] + s[from + 1..ScanWhile(s, from + 1, cls)];
    }
  }

  /** Under DOTALL a greedy capture runs to the end of the text. */
  lemma {:induction false} TakeWhileAny(t: string)
    ensures TakeWhile(t, AnyChar) == t
  {
    if t != [] {
      TakeWhileAny(t[1..]);
    }
  }

  /** A run of `cls` characters followed by a character outside it is taken whole. */
  lemma {:induction false} TakeWhileStops(a: string, b: string, cls: CharClass)
    requires forall k :: 0 <= k < |a| ==> InClass(cls, a[k])
    requires b == [] || !InClass(cls, b[0])
    ensures TakeWhile(a + b, cls) == a
  {
    if a != [] {
      assert (a + b)[1..] == a[1..] + b;
      TakeWhileStops(a[1..], b, cls);
    } else {
      assert a + b == b;
    }
  }

  /**
   * Group 1 of `re.search(prefix + "(" + cls + "+)", s)`: `None` when the search
   * fails, otherwise the longest run of `cls` characters after the leftmost match.
   */
  function GreedyCapture(s: string, prefix: string, cls: CharClass): (r: Option<string>)
    ensures r.None? <==> NoField(s, prefix, cls)
    ensures forall i: nat :: IsFirstField(s, prefix, cls, i) ==>
              r == Some(TakeWhile(s[i + |prefix|..], cls))
    ensures r.Some? ==> |r.value| >= 1 && forall k :: 0 <= k < |r.value| ==> InClass(cls, r.value[k])
  {
    match FindField(s, prefix, cls, 0)
    case None => None
    case Some(i) =>
      var c := i + |prefix|;
      ScanWhileTakes(s, c, cls);
      assert forall j: nat :: IsFirstField(s, prefix, cls, j) ==> j == i;
      Some(s[c..ScanWhile(s, c, cls)])
  }
}
