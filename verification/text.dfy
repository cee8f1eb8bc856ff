/**
 * The few pieces of Python's string and list behaviour the model relies on:
 * substring tests, counting and filtering lines, `s[-n:]`, ASCII case mapping,
 * `str.strip()`, `str(int)`, `int(x)` on a float and `s.split(c, 1)`.
 */
module Text {

  /** Python's `p in s` for strings: `p` occurs in `s` as a contiguous run. */
  predicate Contains(s: string, p: string)
    decreases |s|
  {
    p <= s || (s != [] && Contains(s[1..], p))
  }

  /** `any(p in s for p in pats)`. */
  predicate ContainsAny(s: string, pats: seq<string>) {
    exists k | 0 <= k < |pats| :: Contains(s, pats[k])
  }

  /** `s.endswith(suffix)`. */
  predicate EndsWith(s: string, suffix: string) {
    |suffix| <= |s| && s[|s| - |suffix|..] == suffix
  }

  /** `sum(1 for x in s if p(x))`. */
  function Count<T>(s: seq<T>, p: T -> bool): (n: nat)
    ensures n <= |s|
  {
    if s == [] then 0 else Count(s[..|s| - 1], p) + (if p(s[|s| - 1]) then 1 else 0)
  }

  /** `[x for x in s if p(x)]`. */
  function Filter<T>(s: seq<T>, p: T -> bool): (r: seq<T>)
    ensures |r| == Count(s, p)
    ensures forall k :: 0 <= k < |r| ==> r[k] in s && p(r[k])
    ensures forall k :: 0 <= k < |s| && p(s[k]) ==> s[k] in r
  {
    if s == [] then []
    else
      assert s == s[..|s| - 1] + [s[|s| - 1]];
      Filter(s[..|s| - 1], p) + (if p(s[|s| - 1]) then [s[|s| - 1]] else [])
  }

  /** Every element of `s` satisfies `p` exactly when all of them are counted. */
  lemma {:induction false} CountAllIff<T>(s: seq<T>, p: T -> bool)
    ensures Count(s, p) == |s| <==> forall k :: 0 <= k < |s| ==> p(s[k])
  {
    if s != [] {
      var init := s[..|s| - 1];
      CountAllIff(init, p);
      if forall k :: 0 <= k < |init| ==> p(init[k]) {
      } else {
        var k :| 0 <= k < |init| && !p(init[k]);
        assert !p(s[k]);
      }
    }
  }

  /** No element of `s` satisfies `p` exactly when none is counted. */
  lemma {:induction false} CountZeroIff<T>(s: seq<T>, p: T -> bool)
    ensures Count(s, p) == 0 <==> forall k :: 0 <= k < |s| ==> !p(s[k])
  {
    if s != [] {
      var init := s[..|s| - 1];
      CountZeroIff(init, p);
      if forall k :: 0 <= k < |init| ==> !p(init[k]) {
      } else {
        var k :| 0 <= k < |init| && p(init[k]);
        assert p(s[k]);
      }
    }
  }

  /** A predicate implied by another counts at least as many elements. */
  lemma {:induction false} CountMonotone<T>(s: seq<T>, p: T -> bool, q: T -> bool)
    requires forall x :: p(x) ==> q(x)
    ensures Count(s, p) <= Count(s, q)
  {
    if s != [] {
      CountMonotone(s[..|s| - 1], p, q);
    }
  }

  /** A run inside `s[..hi]` counts no more than the whole prefix. */
  lemma {:induction false} CountSliceLe<T>(s: seq<T>, lo: nat, hi: nat, p: T -> bool)
    requires lo <= hi <= |s|
    ensures Count(s[lo..hi], p) <= Count(s[..hi], p)
    decreases hi
  {
    if lo < hi {
      CountSliceLe(s, lo, hi - 1, p);
      assert s[lo..hi][..hi - lo - 1] == s[lo..hi - 1];
      assert s[..hi][..hi - 1] == s[..hi - 1];
    }
  }

  /** `[f(x) for x in s]`. */
  function MapSeq<T, U>(s: seq<T>, f: T -> U): (r: seq<U>)
    ensures |r| == |s| && forall k :: 0 <= k < |s| ==> r[k] == f(s[k])
  {
    seq(|s|, k requires 0 <= k < |s| => f(s[k]))
  }

  /** Python's `s[-n:]` for n > 0: the last `n` elements, or all of `s` when it is shorter. */
  function LastN<T>(s: seq<T>, n: nat): (r: seq<T>)
    requires n > 0
    ensures |r| == if |s| <= n then |s| else n
    ensures r == s[|s| - |r|..]
  {
    if |s| <= n then s else s[|s| - n..]
  }

  /** ASCII part of `str.upper()` on one character. */
  function UpperChar(c: char): (u: char)
    ensures !('a' <= u <= 'z')
  {
    if 'a' <= c <= 'z' then (c as int - 32) as char else c
  }

  /** ASCII part of `str.lower()` on one character. */
  function LowerChar(c: char): (l: char)
    ensures !('A' <= l <= 'Z')
  {
    if 'A' <= c <= 'Z' then (c as int + 32) as char else c
  }

  function Upper(s: string): (r: string)
    ensures |r| == |s| && forall k :: 0 <= k < |s| ==> r[k] == UpperChar(s[k])
  {
    seq(|s|, k requires 0 <= k < |s| => UpperChar(s[k]))
  }

  function Lower(s: string): (r: string)
    ensures |r| == |s| && forall k :: 0 <= k < |s| ==> r[k] == LowerChar(s[k])
  {
    seq(|s|, k requires 0 <= k < |s| => LowerChar(s[k]))
  }

  /** The characters `str.strip()` removes (Python's `str.isspace` on ASCII, NEL and NBSP). */
  predicate IsSpace(c: char) {
    c == ' ' || '\t' <= c <= '\r' || '\U{1C}' <= c <= '\U{1F}' || c == '\U{85}' || c == '\U{A0}'
  }

  /** The length of the run of white space that starts `s`. */
  function LeadingSpaces(s: string): (n: nat)
    ensures n <= |s|
    ensures forall k :: 0 <= k < n ==> IsSpace(s[k])
    ensures n < |s| ==> !IsSpace(s[n])
  {
    if s != [] && IsSpace(s[0]) then
      var rest := LeadingSpaces(s[1..]);
      assert forall k :: 1 <= k <= rest ==> s[k] == s[1..][k - 1];
      1 + rest
    else 0
  }

  /** `s.lstrip()`: the suffix of `s` left after dropping leading white space. */
  function TrimStart(s: string): (r: string)
    ensures |r| <= |s| && r == s[|s| - |r|..]
    ensures forall k :: 0 <= k < |s| - |r| ==> IsSpace(s[k])
    ensures r != [] ==> !IsSpace(r[0])
  {
    s[LeadingSpaces(s)..]
  }

  /** `s.rstrip()`: the prefix of `s` left after dropping trailing white space. */
  function TrimEnd(s: string): (r: string)
    ensures |r| <= |s| && r == s[..|r|]
    ensures forall k :: |r| <= k < |s| ==> IsSpace(s[k])
    ensures r != [] ==> !IsSpace(r[|r| - 1])
  {
    if s != [] && IsSpace(s[|s| - 1]) then TrimEnd(s[..|s| - 1]) else s
  }

  /** `s.strip()`: neither end of the result is white space, and it is empty only for blank input. */
  function Strip(s: string): (r: string)
    ensures |r| <= |s|
    ensures r != [] ==> !IsSpace(r[0]) && !IsSpace(r[|r| - 1])
    ensures r == [] <==> forall k :: 0 <= k < |s| ==> IsSpace(s[k])
  {
    var t := TrimStart(s);
    TrimEnd(t)
  }

  function DigitChar(d: nat): (c: char)
    requires d < 10
    ensures '0' <= c <= '9'
  {
    ('0' as int + d) as char
  }

  /** `str(n)` for a natural number: decimal digits, most significant first, no leading zero. */
  function NatToString(n: nat): (s: string)
    ensures |s| >= 1 && (n >= 10 ==> |s| >= 2)
    ensures forall k :: 0 <= k < |s| ==> '0' <= s[k] <= '9'
    decreases n
  {
    if n < 10 then [DigitChar(n)] else NatToString(n / 10) + [DigitChar(n % 10)]
  }

  /** `str(i)` for an integer. */
  function IntToString(i: int): (s: string)
    ensures |s| >= 1
    ensures forall k :: 0 <= k < |s| ==> s[k] == '-' || '0' <= s[k] <= '9'
  {
    if i < 0 then "-" + NatToString(-i) else NatToString(i)
  }

  lemma {:induction false} NatToStringInjective(a: nat, b: nat)
    requires NatToString(a) == NatToString(b)
    ensures a == b
    decreases a
  {
    if a >= 10 && b >= 10 {
      var sa, sb := NatToString(a / 10), NatToString(b / 10);
      assert NatToString(a) == sa + [DigitChar(a % 10)];
      assert NatToString(b) == sb + [DigitChar(b % 10)];
      assert |sa| == |sb|;
      assert sa == NatToString(a)[..|sa|];
      assert sb == NatToString(b)[..|sb|];
      assert DigitChar(a % 10) == NatToString(a)[|sa|];
      NatToStringInjective(a / 10, b / 10);
    }
  }

  /** The sign of an integer is visible in the first character of its text. */
  lemma IntToStringSign(i: int)
    ensures IntToString(i)[0] == '-' <==> i < 0
  {
  }

  /** Distinct integers print differently. */
  lemma IntToStringInjective(a: int, b: int)
    requires IntToString(a) == IntToString(b)
    ensures a == b
  {
    IntToStringSign(a);
    IntToStringSign(b);
    if a < 0 {
      assert NatToString(-a) == IntToString(a)[1..];
      assert NatToString(-b) == IntToString(b)[1..];
      NatToStringInjective(-a, -b);
    } else {
      NatToStringInjective(a, b);
    }
  }

  /** Python's `int(x)` on a float: truncation toward zero. */
  function Trunc(x: real): (i: int)
    ensures x >= 0.0 ==> i as real <= x < i as real + 1.0
    ensures x < 0.0 ==> i as real - 1.0 < x <= i as real
  {
    if x >= 0.0 then x.Floor else -((-x).Floor)
  }

  /** Index of the first `c` in `s`, or |s| when `c` does not occur. */
  function IndexOf(s: string, c: char): (i: nat)
    ensures i <= |s|
    ensures forall k :: 0 <= k < i ==> s[k] != c
    ensures i < |s| ==> s[i] == c
  {
    if s == [] then 0 else if s[0] == c then 0 else 1 + IndexOf(s[1..], c)
  }

  /** The first `c` of `p + [c] + rest` is the one after `p` when `p` holds none. */
  lemma {:induction false} IndexOfAfterPrefix(p: string, c: char, rest: string)
    requires c !in p
    ensures IndexOf(p + [c] + rest, c) == |p|
  {
    if p != [] {
      assert (p + [c] + rest)[1..] == p[1..] + [c] + rest;
      IndexOfAfterPrefix(p[1..], c, rest);
    }
  }

  /** Python's `s.split(c, 1)`: `[s]` when `c` does not occur, otherwise the text around the first `c`. */
  function SplitFirst(s: string, c: char): (parts: seq<string>)
    ensures c !in s ==> parts == [s]
    ensures c in s ==> |parts| == 2 && s == parts[0] + [c] + parts[1] && c !in parts[0]
  {
    var i := IndexOf(s, c);
    if i == |s| then [s] else [s[..i], s[i + 1..]]
  }

  /** A count out of a positive total is a fraction in [0, 1], zero only for a zero count. */
  lemma RatioInUnit(part: nat, total: nat)
    requires 0 < total && part <= total
    ensures 0.0 <= part as real / total as real <= 1.0
    ensures part as real / total as real == 0.0 <==> part == 0
  {
    var q := part as real / total as real;
    assert q * total as real == part as real;
  }

  /** `[f(x) for x in s if p(x)]`. */
  function FilterMap<T, U>(s: seq<T>, p: T -> bool, f: T -> U): (r: seq<U>)
    ensures |r| == Count(s, p)
  {
    if s == [] then []
    else FilterMap(s[..|s| - 1], p, f) + (if p(s[|s| - 1]) then [f(s[|s| - 1])] else [])
  }

  /** Every element of a filter-map is the image of a selected element. */
  lemma {:induction false} FilterMapFrom<T, U>(s: seq<T>, p: T -> bool, f: T -> U, k: nat)
    requires k < |FilterMap(s, p, f)|
    ensures exists j :: 0 <= j < |s| && p(s[j]) && FilterMap(s, p, f)[k] == f(s[j])
  {
    var init := s[..|s| - 1];
    var before := FilterMap(init, p, f);
    if k < |before| {
      FilterMapFrom(init, p, f, k);
      var j :| 0 <= j < |init| && p(init[j]) && before[k] == f(init[j]);
      assert s[j] == init[j];
    } else {
      assert p(s[|s| - 1]) && FilterMap(s, p, f)[k] == f(s[|s| - 1]);
    }
  }

  /** Every selected element's image is in the filter-map. */
  lemma {:induction false} FilterMapKeeps<T, U>(s: seq<T>, p: T -> bool, f: T -> U, j: nat)
    requires j < |s| && p(s[j])
    ensures f(s[j]) in FilterMap(s, p, f)
  {
    var init := s[..|s| - 1];
    var before := FilterMap(init, p, f);
    var here := if p(s[|s| - 1]) then [f(s[|s| - 1])] else [];
    assert FilterMap(s, p, f) == before + here;
    if j < |init| {
      assert init[j] == s[j];
      FilterMapKeeps(init, p, f, j);
    } else {
      assert here == [f(s[j])];
    }
  }
}
