/** Python's ordering of sort keys and its stable `sorted`/`list.sort`, used
    wherever the backend orders messages, summaries, job ids or templates. */
module Order {

  /** Python's `a <= b` on strings: code-point lexicographic order. */
  predicate LexLe(a: string, b: string)
    decreases |a|
  {
    |a| == 0 || (|b| > 0 && (a[0] < b[0] || (a[0] == b[0] && LexLe(a[1..], b[1..]))))
  }

  lemma {:induction false} LexLeTotal(a: string, b: string)
    ensures LexLe(a, b) || LexLe(b, a)
    decreases |a|
  {
    if |a| > 0 && |b| > 0 && a[0] == b[0] {
      LexLeTotal(a[1..], b[1..]);
    }
  }

  lemma {:induction false} LexLeTrans(a: string, b: string, c: string)
    requires LexLe(a, b) && LexLe(b, c)
    ensures LexLe(a, c)
    decreases |a|
  {
    if |a| > 0 && a[0] == b[0] && b[0] == c[0] {
      LexLeTrans(a[1..], b[1..], c[1..]);
    }
  }

  lemma {:induction false} LexLeRefl(a: string)
    ensures LexLe(a, a)
    decreases |a|
  {
    if |a| > 0 {
      LexLeRefl(a[1..]);
    }
  }

  /** A common prefix does not change the order. */
  lemma {:induction false} LexLeCommonPrefix(p: string, a: string, b: string)
    ensures LexLe(p + a, p + b) <==> LexLe(a, b)
    decreases |p|
  {
    if |p| > 0 {
      assert (p + a)[1..] == p[1..] + a && (p + b)[1..] == p[1..] + b;
      LexLeCommonPrefix(p[1..], a, b);
    } else {
      assert p + a == a && p + b == b;
    }
  }

  /** A sort key: the backend sorts by ISO timestamp strings, by job-id
      strings and by integer epoch seconds. Each of its key functions
      yields one kind only; Python would raise `TypeError` comparing a
      string with an integer, and `KeyLe` puts `Text` before `Num` only to
      stay total. */
  datatype Key = Text(t: string) | Num(n: int)

  predicate KeyLe(a: Key, b: Key)
  {
    match (a, b)
    case (Text(x), Text(y)) => LexLe(x, y)
    case (Num(x), Num(y)) => x <= y
    case (Text(_), Num(_)) => true
    case (Num(_), Text(_)) => false
  }

  lemma KeyLeRefl(a: Key)
    ensures KeyLe(a, a)
  {
    if a.Text? { LexLeRefl(a.t); }
  }

  lemma KeyLeTotal(a: Key, b: Key)
    ensures KeyLe(a, b) || KeyLe(b, a)
  {
    if a.Text? && b.Text? { LexLeTotal(a.t, b.t); }
  }

  lemma KeyLeTrans(a: Key, b: Key, c: Key)
    requires KeyLe(a, b) && KeyLe(b, c)
    ensures KeyLe(a, c)
  {
    if a.Text? && b.Text? && c.Text? { LexLeTrans(a.t, b.t, c.t); }
  }

  /** `x` may precede `y` in ascending (or, with `desc`, descending) order. */
  predicate InOrder(x: Key, y: Key, desc: bool)
  {
    if desc then KeyLe(y, x) else KeyLe(x, y)
  }

  predicate SortedBy<T>(s: seq<T>, key: T -> Key, desc: bool)
  {
    forall i, j :: 0 <= i < j < |s| ==> InOrder(key(s[i]), key(s[j]), desc)
  }

  function Insert<T>(x: T, s: seq<T>, key: T -> Key, desc: bool): (r: seq<T>)
    ensures multiset(r) == multiset(s) + multiset{x}
    ensures |r| == |s| + 1
  {
    if |s| == 0 then [x]
    else if InOrder(key(x), key(s[0]), desc) then [x] + s
    else
      assert s == [s[0]] + s[1..];
      [s[0]] + Insert(x, s[1..], key, desc)
  }

  lemma {:induction false} InsertSorted<T>(x: T, s: seq<T>, key: T -> Key, desc: bool)
    requires SortedBy(s, key, desc)
    ensures SortedBy(Insert(x, s, key, desc), key, desc)
    ensures |s| > 0 ==> (var r := Insert(x, s, key, desc); r[0] == x || r[0] == s[0])
  {
    if |s| > 0 {
      var r := Insert(x, s, key, desc);
      if InOrder(key(x), key(s[0]), desc) {
        forall j | 1 <= j < |r| ensures InOrder(key(x), key(r[j]), desc) {
          if j > 1 { Trans(key(x), key(s[0]), key(s[j - 1]), desc); }
        }
      } else {
        InsertSorted(x, s[1..], key, desc);
        Total(key(x), key(s[0]), desc);
        var t := Insert(x, s[1..], key, desc);
        assert r == [s[0]] + t;
        forall j | 1 <= j < |r| ensures InOrder(key(s[0]), key(r[j]), desc) {
          assert r[j] == t[j - 1];
          HeadBeforeInserted(x, s, key, desc, t, j - 1);
        }
      }
    }
  }

  /** After the head, an insertion into the tail holds only keys the head may precede. */
  lemma HeadBeforeInserted<T>(x: T, s: seq<T>, key: T -> Key, desc: bool, t: seq<T>, j: nat)
    requires |s| > 0 && SortedBy(s, key, desc) && InOrder(key(s[0]), key(x), desc)
    requires multiset(t) == multiset(s[1..]) + multiset{x} && j < |t|
    ensures InOrder(key(s[0]), key(t[j]), desc)
  {
    assert t[j] in multiset(t);
    if t[j] != x {
      assert t[j] in multiset(s[1..]);
      var k :| 0 <= k < |s[1..]| && s[1..][k] == t[j];
      assert s[k + 1] == t[j];
    }
  }

  lemma Trans(a: Key, b: Key, c: Key, desc: bool)
    requires InOrder(a, b, desc) && InOrder(b, c, desc)
    ensures InOrder(a, c, desc)
  {
    if desc { KeyLeTrans(c, b, a); } else { KeyLeTrans(a, b, c); }
  }

  lemma Total(a: Key, b: Key, desc: bool)
    ensures InOrder(a, b, desc) || InOrder(b, a, desc)
  {
    KeyLeTotal(a, b);
  }

  /** Python's stable `sorted(s, key=key, reverse=desc)`. */
  function SortBy<T>(s: seq<T>, key: T -> Key, desc: bool): (r: seq<T>)
    ensures multiset(r) == multiset(s)
    ensures |r| == |s|
  {
    if |s| == 0 then []
    else
      assert s == [s[0]] + s[1..];
      Insert(s[0], SortBy(s[1..], key, desc), key, desc)
  }

  /** The elements of `s` whose key is `k`, in their order in `s`. */
  function WithKey<T>(s: seq<T>, key: T -> Key, k: Key): (r: seq<T>)
    ensures |r| <= |s|
  {
    if |s| == 0 then []
    else (if key(s[0]) == k then [s[0]] else []) + WithKey(s[1..], key, k)
  }

  /** Insertion passes only elements with a different key, so it keeps
      the order among equal keys. */
  lemma {:induction false} InsertWithKey<T>(x: T, s: seq<T>, key: T -> Key, desc: bool, k: Key)
    ensures WithKey(Insert(x, s, key, desc), key, k) == (if key(x) == k then [x] else []) + WithKey(s, key, k)
  {
    var r := Insert(x, s, key, desc);
    if |s| == 0 {
      assert r == [x] && r[1..] == [];
    } else if InOrder(key(x), key(s[0]), desc) {
      assert r == [x] + s && r[1..] == s;
    } else {
      KeyLeRefl(key(x));
      var t := Insert(x, s[1..], key, desc);
      assert r == [s[0]] + t && r[1..] == t;
      InsertWithKey(x, s[1..], key, desc, k);
      var rest := WithKey(s[1..], key, k);
      assert WithKey(s, key, k) == (if key(s[0]) == k then [s[0]] else []) + rest;
      if key(x) == k {
        assert key(s[0]) != k;
        assert WithKey(r, key, k) == WithKey(t, key, k) == [x] + rest;
      } else {
        assert WithKey(r, key, k) == (if key(s[0]) == k then [s[0]] else []) + ([] + rest);
      }
    }
  }

  /** `SortBy` is stable: the elements sharing a key keep their order. */
  lemma {:induction false} SortByStable<T>(s: seq<T>, key: T -> Key, desc: bool, k: Key)
    ensures WithKey(SortBy(s, key, desc), key, k) == WithKey(s, key, k)
  {
    if |s| > 0 {
      SortByStable(s[1..], key, desc, k);
      InsertWithKey(s[0], SortBy(s[1..], key, desc), key, desc, k);
    }
  }

  lemma {:induction false} SortBySorted<T>(s: seq<T>, key: T -> Key, desc: bool)
    ensures SortedBy(SortBy(s, key, desc), key, desc)
  {
    if |s| > 0 {
      SortBySorted(s[1..], key, desc);
      InsertSorted(s[0], SortBy(s[1..], key, desc), key, desc);
    }
  }

  /** Every element of a sorted copy is an element of the original. */
  lemma SortByMembers<T>(s: seq<T>, key: T -> Key, desc: bool, i: nat)
    requires i < |s|
    ensures SortBy(s, key, desc)[i] in multiset(s)
  {
    assert SortBy(s, key, desc)[i] in multiset(SortBy(s, key, desc));
  }
}
