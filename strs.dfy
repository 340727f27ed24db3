/** The few Python `str` operations the backend relies on, over `seq<char>`. */
module Strs {

  predicate StartsWith(s: string, p: string)
  {
    |p| <= |s| && s[..|p|] == p
  }

  predicate EndsWith(s: string, p: string)
  {
    |p| <= |s| && s[|s| - |p|..] == p
  }

  /** Python's `p in s` for strings: `p` occurs somewhere in `s`. */
  predicate Contains(s: string, p: string)
    decreases |s|
  {
    StartsWith(s, p) || (|s| > 0 && Contains(s[1..], p))
  }

  lemma {:induction false} ContainsAt(s: string, p: string, k: nat)
    requires k + |p| <= |s| && s[k..k + |p|] == p
    ensures Contains(s, p)
    decreases k
  {
    if k == 0 {
      assert s[..|p|] == s[k..k + |p|];
    } else {
      assert s[1..][k - 1..k - 1 + |p|] == s[k..k + |p|];
      ContainsAt(s[1..], p, k - 1);
    }
  }

  /** Python's `s.find(p)`: the first index where `p` starts, or -1. */
  function Find(s: string, p: string): (r: int)
    ensures r == -1 || 0 <= r <= |s| - |p|
    ensures r >= 0 ==> s[r..r + |p|] == p
    ensures r == -1 <==> !Contains(s, p)
    ensures forall k :: 0 <= k < r ==> !OccursAt(s, p, k)
    decreases |s|
  {
    if StartsWith(s, p) then 0
    else if |s| == 0 then -1
    else
      var k := Find(s[1..], p);
      if k < 0 then
        assert !Contains(s, p);
        -1
      else
        assert s[k + 1..k + 1 + |p|] == s[1..][k..k + |p|];
        assert Contains(s, p);
        assert forall j :: 0 < j < k + 1 ==> !OccursAt(s, p, j) by {
          forall j | 0 < j < k + 1 ensures !OccursAt(s, p, j) {
            if j + |p| <= |s| {
              assert s[1..][j - 1..j - 1 + |p|] == s[j..j + |p|];
            }
            assert OccursAt(s, p, j) ==> OccursAt(s[1..], p, j - 1);
          }
        }
        assert !OccursAt(s, p, 0) by {
          assert |p| <= |s| ==> s[..|p|] == s[0..|p|];
        }
        k + 1
  }

  /** `p` occurs in `s` starting at index `k`. */
  predicate OccursAt(s: string, p: string, k: int)
  {
    0 <= k && k + |p| <= |s| && s[k..k + |p|] == p
  }

  /** Python's `s.rfind(p)`: the last index where `p` starts, or -1. */
  function RFind(s: string, p: string): (r: int)
    ensures r == -1 || OccursAt(s, p, r)
    ensures forall k :: r < k ==> !OccursAt(s, p, k)
    decreases |s|
  {
    if EndsWith(s, p) then |s| - |p|
    else if |s| == 0 then -1
    else
      var r := RFind(s[..|s| - 1], p);
      assert forall k :: OccursAt(s, p, k) && k + |p| < |s| ==> OccursAt(s[..|s| - 1], p, k) by {
        forall k | OccursAt(s, p, k) && k + |p| < |s|
          ensures OccursAt(s[..|s| - 1], p, k)
        {
          assert s[..|s| - 1][k..k + |p|] == s[k..k + |p|];
        }
      }
      assert r >= 0 ==> s[..|s| - 1][r..r + |p|] == s[r..r + |p|];
      r
  }

  /** Python's `s.find(c)` for one character. */
  function IndexOf(s: string, c: char): (r: int)
    ensures -1 <= r < |s|
    ensures r >= 0 ==> s[r] == c
    ensures forall j :: 0 <= j < |s| && (r < 0 || j < r) ==> s[j] != c
    decreases |s|
  {
    if |s| == 0 then -1
    else if s[0] == c then 0
    else
      var k := IndexOf(s[1..], c);
      if k < 0 then -1 else k + 1
  }

  /** Python's `s.rfind(c)` for one character. */
  function LastIndexOf(s: string, c: char): (r: int)
    ensures -1 <= r < |s|
    ensures r >= 0 ==> s[r] == c
    ensures forall j :: r < j < |s| ==> s[j] != c
    decreases |s|
  {
    if |s| == 0 then -1
    else if s[|s| - 1] == c then |s| - 1
    else LastIndexOf(s[..|s| - 1], c)
  }

  /** Python's `s.split(c)` for a one-character separator. */
  function Split(s: string, c: char): (r: seq<string>)
    ensures |r| >= 1
    ensures forall i :: 0 <= i < |r| ==> c !in r[i]
    decreases |s|
  {
    var i := IndexOf(s, c);
    if i < 0 then [s]
    else
      assert forall j :: 0 <= j < i ==> s[..i][j] != c;
      [s[..i]] + Split(s[i + 1..], c)
  }

  /** Python's `c.join(parts)` for a one-character separator. */
  function Join(parts: seq<string>, c: char): string
  {
    if |parts| == 0 then ""
    else if |parts| == 1 then parts[0]
    else parts[0] + [c] + Join(parts[1..], c)
  }

  lemma {:induction false} JoinSplit(s: string, c: char)
    ensures Join(Split(s, c), c) == s
    decreases |s|
  {
    var i := IndexOf(s, c);
    if i >= 0 {
      JoinSplit(s[i + 1..], c);
      JoinCons(s[..i], Split(s[i + 1..], c), c);
      assert s == s[..i] + [c] + s[i + 1..];
    }
  }

  lemma JoinCons(a: string, rest: seq<string>, c: char)
    requires |rest| >= 1
    ensures Join([a] + rest, c) == a + [c] + Join(rest, c)
  {
    assert ([a] + rest)[1..] == rest;
  }

  lemma SplitNoSep(s: string, c: char)
    requires c !in s
    ensures Split(s, c) == [s]
  {
  }

  lemma SplitFirst(a: string, c: char, b: string)
    requires c !in a
    ensures Split(a + [c] + b, c) == [a] + Split(b, c)
  {
    var s := a + [c] + b;
    assert s[|a|] == c;
    assert s[..|a|] == a;
    assert s[|a| + 1..] == b;
  }

  /** The last segment of `s` split on `c` (Python `s.split(c)[-1]`). */
  function LastSegment(s: string, c: char): (r: string)
    ensures c !in r
  {
    var parts := Split(s, c);
    parts[|parts| - 1]
  }

  lemma LastSegmentAfter(a: string, c: char, b: string)
    requires c !in a
    ensures LastSegment(a + [c] + b, c) == LastSegment(b, c)
  {
    SplitFirst(a, c, b);
  }

  /** Whatever precedes the last separator, the last segment is what
      follows it. */
  lemma {:induction false} LastSegmentAfterLast(a: string, c: char, b: string)
    requires c !in b
    ensures LastSegment(a + [c] + b, c) == b
    decreases |a|
  {
    var s := a + [c] + b;
    assert s[|a|] == c;
    var i := IndexOf(s, c);
    var rest := s[i + 1..];
    assert Split(s, c) == [s[..i]] + Split(rest, c);
    if i == |a| {
      assert rest == b;
      SplitNoSep(b, c);
    } else {
      assert rest == a[i + 1..] + [c] + b;
      LastSegmentAfterLast(a[i + 1..], c, b);
    }
  }

  /** Python's `s.split(c, 1)` for a one-character separator. */
  function SplitOnceChar(s: string, c: char): (r: seq<string>)
    ensures 1 <= |r| <= 2
    ensures |r| == 1 <==> c !in s
    ensures |r| == 1 ==> r[0] == s
    ensures |r| == 2 ==> s == r[0] + [c] + r[1] && c !in r[0]
  {
    var i := IndexOf(s, c);
    if i < 0 then [s]
    else
      SplitAtIndex(s, c, i);
      [s[..i], s[i + 1..]]
  }

  lemma SplitAtIndex(s: string, c: char, i: nat)
    requires i < |s| && s[i] == c && forall j :: 0 <= j < i ==> s[j] != c
    ensures s == s[..i] + [c] + s[i + 1..] && c !in s[..i] && c in s
  {
    assert s[..i] + [c] + s[i + 1..] == s[..i] + s[i..];
    forall j | 0 <= j < i ensures s[..i][j] != c { }
  }

  lemma SplitOnceCharFirst(a: string, c: char, b: string)
    requires c !in a
    ensures SplitOnceChar(a + [c] + b, c) == [a, b]
  {
    var s := a + [c] + b;
    assert s[|a|] == c;
    assert s[..|a|] == a;
    assert s[|a| + 1..] == b;
  }

  /** Python's `s.split(sep, 1)`: at most two pieces around the first `sep`. */
  function SplitOnce(s: string, sep: string): (r: seq<string>)
    requires |sep| > 0
    ensures 1 <= |r| <= 2
    ensures |r| == 1 <==> !Contains(s, sep)
    ensures |r| == 1 ==> r[0] == s
    ensures |r| == 2 ==> s == r[0] + sep + r[1]
    ensures |r| == 2 ==> !Contains(r[0], sep)
  {
    var i := Find(s, sep);
    if i < 0 then [s]
    else
      assert s == s[..i] + s[i..i + |sep|] + s[i + |sep|..];
      forall k ensures !OccursAt(s[..i], sep, k) {
        if 0 <= k && k + |sep| <= i {
          assert s[..i][k..k + |sep|] == s[k..k + |sep|];
          assert !OccursAt(s, sep, k);
        }
      }
      assert Find(s[..i], sep) >= 0 ==> OccursAt(s[..i], sep, Find(s[..i], sep));
      [s[..i], s[i + |sep|..]]
  }

  /** Python's `s.replace(pat, rep)`: every non-overlapping occurrence of a
      non-empty `pat`, scanning from the left, is replaced. */
  function ReplaceAll(s: string, pat: string, rep: string): (r: string)
    requires |pat| > 0
    ensures !Contains(s, pat) ==> r == s
    decreases |s|
  {
    if |s| == 0 then ""
    else if StartsWith(s, pat) then rep + ReplaceAll(s[|pat|..], pat, rep)
    else [s[0]] + ReplaceAll(s[1..], pat, rep)
  }

  lemma ReplaceLeading(pat: string, x: string, rep: string)
    requires |pat| > 0
    ensures ReplaceAll(pat + x, pat, rep) == rep + ReplaceAll(x, pat, rep)
  {
    assert (pat + x)[..|pat|] == pat;
    assert (pat + x)[|pat|..] == x;
  }

  /** Characters Python's `str.strip()` removes (`str.isspace`). */
  predicate IsSpace(c: char)
  {
    c == ' ' || ('\U{9}' <= c <= '\U{D}') || ('\U{1C}' <= c <= '\U{1F}')
    || c == '\U{85}' || c == '\U{A0}' || c == '\U{1680}'
    || ('\U{2000}' <= c <= '\U{200A}') || c == '\U{2028}' || c == '\U{2029}'
    || c == '\U{202F}' || c == '\U{205F}' || c == '\U{3000}'
  }

  predicate AllSpace(s: string)
  {
    forall i :: 0 <= i < |s| ==> IsSpace(s[i])
  }

  function StripLeft(s: string): (r: string)
    ensures |r| == 0 || !IsSpace(r[0])
    ensures |r| == 0 <==> AllSpace(s)
    decreases |s|
  {
    if |s| > 0 && IsSpace(s[0]) then
      var r := StripLeft(s[1..]);
      assert AllSpace(s[1..]) ==> AllSpace(s) by {
        if AllSpace(s[1..]) {
          forall i | 0 < i < |s| ensures IsSpace(s[i]) { assert s[i] == s[1..][i - 1]; }
        }
      }
      r
    else s
  }

  function StripRight(s: string): (r: string)
    ensures |r| <= |s| && r == s[..|r|]
    ensures |r| == 0 || !IsSpace(r[|r| - 1])
    ensures |r| == 0 <==> AllSpace(s)
    decreases |s|
  {
    if |s| > 0 && IsSpace(s[|s| - 1]) then
      var r := StripRight(s[..|s| - 1]);
      assert AllSpace(s[..|s| - 1]) ==> AllSpace(s) by {
        if AllSpace(s[..|s| - 1]) {
          forall i | 0 <= i < |s| - 1 ensures IsSpace(s[i]) { assert s[i] == s[..|s| - 1][i]; }
        }
      }
      r
    else s
  }

  /** Python's `s.strip()`: `s` without leading and trailing whitespace; it
      is empty exactly when `s` is all whitespace. */
  function Strip(s: string): (r: string)
    ensures |r| == 0 || (!IsSpace(r[0]) && !IsSpace(r[|r| - 1]))
    ensures |r| == 0 <==> AllSpace(s)
  {
    var l := StripLeft(s);
    var r := StripRight(l);
    assert |r| > 0 ==> r[0] == l[0];
    r
  }

  /** `strip` removes whitespace only, and only at the two ends: the text
      is some leading whitespace, the stripped text, and some trailing
      whitespace. */
  lemma StripRemovesEnds(s: string)
    ensures exists a, b :: s == a + Strip(s) + b && AllSpace(a) && AllSpace(b)
  {
    var l := StripLeft(s);
    var r := StripRight(l);
    StripLeftDrops(s);
    StripRightDrops(l);
    var a, b := s[..|s| - |l|], l[|r|..];
    assert s == a + l;
    assert l == r + b;
    assert s == a + r + b;
  }

  /** `StripLeft` drops a whitespace prefix. */
  lemma {:induction false} StripLeftDrops(s: string)
    ensures |StripLeft(s)| <= |s|
    ensures StripLeft(s) == s[|s| - |StripLeft(s)|..] && AllSpace(s[..|s| - |StripLeft(s)|])
    decreases |s|
  {
    if |s| > 0 && IsSpace(s[0]) {
      StripLeftDrops(s[1..]);
      var n := |s| - |StripLeft(s)|;
      assert s[1..][n - 1..] == s[n..];
      forall i | 0 <= i < n ensures IsSpace(s[..n][i]) {
        if i > 0 { assert s[..n][i] == s[1..][..n - 1][i - 1]; }
      }
    }
  }

  /** `StripRight` drops a whitespace suffix. */
  lemma {:induction false} StripRightDrops(s: string)
    ensures AllSpace(s[|StripRight(s)|..])
    decreases |s|
  {
    if |s| > 0 && IsSpace(s[|s| - 1]) {
      var t := s[..|s| - 1];
      StripRightDrops(t);
      var n := |StripRight(s)|;
      forall i | n <= i < |s| ensures IsSpace(s[i]) {
        if i < |s| - 1 { assert s[i] == t[n..][i - n]; }
      }
      assert forall i :: 0 <= i < |s| - n ==> s[n..][i] == s[n + i];
    }
  }

  lemma StripTrimmed(s: string)
    requires |s| == 0 || (!IsSpace(s[0]) && !IsSpace(s[|s| - 1]))
    ensures Strip(s) == s
  {
  }

  function LowerChar(c: char): char
  {
    if 'A' <= c <= 'Z' then (c as int - 'A' as int + 'a' as int) as char else c
  }

  /** Python's `s.lower()` on the ASCII letters. */
  function Lower(s: string): (r: string)
    ensures |r| == |s|
    ensures forall i :: 0 <= i < |s| ==> r[i] == LowerChar(s[i])
  {
    seq(|s|, i requires 0 <= i < |s| => LowerChar(s[i]))
  }

  function UpperChar(c: char): char
  {
    if 'a' <= c <= 'z' then (c as int - 'a' as int + 'A' as int) as char else c
  }

  /** Python's `s.upper()` on the ASCII letters. */
  function Upper(s: string): (r: string)
    ensures |r| == |s|
    ensures forall i :: 0 <= i < |s| ==> r[i] == UpperChar(s[i])
  {
    seq(|s|, i requires 0 <= i < |s| => UpperChar(s[i]))
  }

  predicate IsDigit(c: char)
  {
    '0' <= c <= '9'
  }

  /** Python's `s.isdigit()` on ASCII digits: non-empty and all digits. */
  predicate IsDigits(s: string)
  {
    |s| > 0 && forall i :: 0 <= i < |s| ==> IsDigit(s[i])
  }

  function DigitChar(d: nat): (c: char)
    requires d < 10
    ensures IsDigit(c)
  {
    ('0' as int + d) as char
  }

  /** The decimal spelling of `n` without leading zeros. */
  function NatToString(n: nat): (r: string)
    ensures |r| > 0
    ensures n < 10 <==> |r| == 1
    ensures n < 100 <==> |r| <= 2
    ensures n < 1000 <==> |r| <= 3
  {
    if n < 10 then [DigitChar(n)] else NatToString(n / 10) + [DigitChar(n % 10)]
  }

  /** The number a string of digits denotes. */
  function DigitsValue(s: string): nat
    requires forall i :: 0 <= i < |s| ==> IsDigit(s[i])
  {
    if |s| == 0 then 0
    else
      assert IsDigit(s[|s| - 1]);
      10 * DigitsValue(s[..|s| - 1]) + (s[|s| - 1] as int - '0' as int)
  }

  lemma {:induction false} NatToStringDigits(n: nat)
    ensures IsDigits(NatToString(n))
  {
    if n >= 10 {
      NatToStringDigits(n / 10);
    }
  }

  lemma {:induction false} NatToStringValue(n: nat)
    ensures IsDigits(NatToString(n)) && DigitsValue(NatToString(n)) == n
  {
    NatToStringDigits(n);
    if n >= 10 {
      NatToStringValue(n / 10);
      var s := NatToString(n);
      assert s[..|s| - 1] == NatToString(n / 10);
    }
  }

  lemma {:induction false} LeadingZeroValue(s: string)
    requires forall i :: 0 <= i < |s| ==> IsDigit(s[i])
    ensures IsDigits("0" + s)
    ensures DigitsValue("0" + s) == DigitsValue(s)
    decreases |s|
  {
    if |s| > 0 {
      LeadingZeroValue(s[..|s| - 1]);
      assert ("0" + s)[..|"0" + s| - 1] == "0" + s[..|s| - 1];
    }
  }

  /** Python's `f"{n:0wd}"`: zero-padded on the left to at least `w` digits. */
  function ZeroPad(n: nat, w: nat): (r: string)
    ensures |r| >= |NatToString(n)| && |r| >= w
    ensures |NatToString(n)| <= w ==> |r| == w
    decreases w
  {
    if w <= |NatToString(n)| then NatToString(n) else "0" + ZeroPad(n, w - 1)
  }

  /** The padded digits still spell `n`. */
  lemma {:induction false} ZeroPadValue(n: nat, w: nat)
    ensures IsDigits(ZeroPad(n, w)) && DigitsValue(ZeroPad(n, w)) == n
    decreases w
  {
    if w <= |NatToString(n)| {
      NatToStringValue(n);
    } else {
      ZeroPadValue(n, w - 1);
      LeadingZeroValue(ZeroPad(n, w - 1));
    }
  }

  /** Python's `f"{n:03d}"`: at least three digits, zero-padded on the left. */
  function Pad3(n: nat): (r: string)
    ensures |r| >= 3
    ensures n < 1000 ==> |r| == 3
  {
    var d := NatToString(n);
    if |d| == 1 then "0" + ("0" + d)
    else if |d| == 2 then "0" + d
    else d
  }

  /** The padded digits still spell `n`. */
  lemma Pad3Value(n: nat)
    ensures IsDigits(Pad3(n)) && DigitsValue(Pad3(n)) == n
  {
    var d := NatToString(n);
    NatToStringValue(n);
    if |d| == 1 {
      LeadingZeroValue(d);
      LeadingZeroValue("0" + d);
    } else if |d| == 2 {
      LeadingZeroValue(d);
    }
  }

  lemma Pad3Injective(m: nat, n: nat)
    requires Pad3(m) == Pad3(n)
    ensures m == n
  {
    Pad3Value(m);
    Pad3Value(n);
  }

  /** Below 1000 the padding spells the hundreds, tens and units digits. */
  lemma Pad3Digits(n: nat)
    requires n < 1000
    ensures Pad3(n) == [DigitChar(n / 100), DigitChar(n / 10 % 10), DigitChar(n % 10)]
  {
    if n >= 10 {
      assert NatToString(n) == NatToString(n / 10) + [DigitChar(n % 10)];
      if n >= 100 {
        assert NatToString(n / 10) == NatToString(n / 100) + [DigitChar(n / 10 % 10)];
      }
    }
  }
}
