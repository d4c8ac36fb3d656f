/** Lexicographic order on Go strings, sort.Strings as a function, and why a sorted list is
    determined by its multiset. */
module Strings {

  predicate Leq(a: string, b: string) {
    |a| == 0 || (|b| > 0 && (a[0] < b[0] || (a[0] == b[0] && Leq(a[1..], b[1..]))))
  }

  /** a is a prefix of b, or smaller at the first place where they differ. */
  ghost predicate Before(a: string, b: string) {
    || a <= b
    || exists i :: 0 <= i < |a| && i < |b| && a[..i] == b[..i] && a[i] < b[i]
  }

  /** It is the order of sort.Strings: character by character, a prefix first. */
  lemma {:induction false} LeqExact(a: string, b: string)
    ensures Leq(a, b) <==> Before(a, b)
  {
    if |a| > 0 && |b| > 0 {
      LeqExact(a[1..], b[1..]);
      assert a == [a[0]] + a[1..] && b == [b[0]] + b[1..];
      if a[0] == b[0] {
        TailBefore(a, b);
      } else if a[0] < b[0] {
        assert a[..0] == b[..0];
      }
    }
  }

  lemma TailBefore(a: string, b: string)
    requires |a| > 0 && |b| > 0 && a[0] == b[0]
    ensures Before(a[1..], b[1..]) <==> Before(a, b)
  {
    assert a == [a[0]] + a[1..] && b == [b[0]] + b[1..];
    if i :| 0 <= i < |a[1..]| && i < |b[1..]| && a[1..][..i] == b[1..][..i] && a[1..][i] < b[1..][i] {
      assert a[..i + 1] == [a[0]] + a[1..][..i] && b[..i + 1] == [b[0]] + b[1..][..i];
      assert a[i + 1] < b[i + 1];
    }
    if i :| 0 <= i < |a| && i < |b| && a[..i] == b[..i] && a[i] < b[i] {
      assert i > 0;
      assert a[1..][..i - 1] == a[..i][1..] && b[1..][..i - 1] == b[..i][1..];
      assert a[1..][i - 1] < b[1..][i - 1];
    }
  }

  lemma {:induction false} LeqTotal(a: string, b: string)
    ensures Leq(a, b) || Leq(b, a)
  {
    if |a| > 0 && |b| > 0 {
      LeqTotal(a[1..], b[1..]);
    }
  }

  lemma {:induction false} LeqAntisymmetric(a: string, b: string)
    requires Leq(a, b) && Leq(b, a)
    ensures a == b
  {
    if |a| > 0 && |b| > 0 {
      LeqAntisymmetric(a[1..], b[1..]);
      assert a == [a[0]] + a[1..] && b == [b[0]] + b[1..];
    }
  }

  lemma {:induction false} LeqTransitive(a: string, b: string, c: string)
    requires Leq(a, b) && Leq(b, c)
    ensures Leq(a, c)
  {
    if |a| > 0 && a[0] == b[0] == c[0] {
      LeqTransitive(a[1..], b[1..], c[1..]);
    }
  }

  /** Sorted by a string key; sort.Strings uses the identity key, sort.Slice a field. */
  ghost predicate SortedBy<T>(key: T -> string, s: seq<T>) {
    forall i, j | 0 <= i < j < |s| :: Leq(key(s[i]), key(s[j]))
  }

  function InsertBy<T(==)>(key: T -> string, x: T, s: seq<T>): (r: seq<T>)
    requires SortedBy(key, s)
    ensures SortedBy(key, r)
    ensures multiset(r) == multiset(s) + multiset{x}
  {
    if |s| == 0 then [x]
    else if Leq(key(x), key(s[0])) then
      InsertFront(key, x, s);
      [x] + s
    else
      var rest := InsertBy(key, x, s[1..]);
      InsertBehind(key, x, s, rest);
      [s[0]] + rest
  }

  lemma InsertFront<T>(key: T -> string, x: T, s: seq<T>)
    requires |s| > 0 && SortedBy(key, s) && Leq(key(x), key(s[0]))
    ensures SortedBy(key, [x] + s)
    ensures multiset([x] + s) == multiset(s) + multiset{x}
  {
    forall j | 0 <= j < |s| ensures Leq(key(x), key(s[j])) {
      if j > 0 { LeqTransitive(key(x), key(s[0]), key(s[j])); }
    }
  }

  lemma InsertBehind<T>(key: T -> string, x: T, s: seq<T>, rest: seq<T>)
    requires |s| > 0 && SortedBy(key, s) && !Leq(key(x), key(s[0]))
    requires SortedBy(key, rest) && multiset(rest) == multiset(s[1..]) + multiset{x}
    ensures SortedBy(key, [s[0]] + rest)
    ensures multiset([s[0]] + rest) == multiset(s) + multiset{x}
  {
    LeqTotal(key(x), key(s[0]));
    forall j | 0 <= j < |rest| ensures Leq(key(s[0]), key(rest[j])) {
      assert rest[j] in multiset(rest);
      if rest[j] != x {
        assert rest[j] in s[1..];
        var i :| 0 <= i < |s[1..]| && s[1..][i] == rest[j];
        assert s[i + 1] == rest[j];
      }
    }
    assert s == [s[0]] + s[1..];
  }

  /** The result of sorting s in place by key. */
  function SortBy<T(==)>(key: T -> string, s: seq<T>): (r: seq<T>)
    ensures SortedBy(key, r)
    ensures multiset(r) == multiset(s)
  {
    if |s| == 0 then []
    else
      assert s == [s[0]] + s[1..];
      InsertBy(key, s[0], SortBy(key, s[1..]))
  }

  /** The heads of two sorted arrangements of one multiset carry the same key. */
  lemma SortedHead<T>(key: T -> string, a: seq<T>, b: seq<T>)
    requires |a| > 0 && SortedBy(key, a) && SortedBy(key, b) && multiset(a) == multiset(b)
    ensures |b| > 0 && a[0] in b && b[0] in a && key(a[0]) == key(b[0])
  {
    assert |b| == |multiset(b)| == |multiset(a)| == |a|;
    assert a[0] in multiset(a) && b[0] in multiset(b);
    var i :| 0 <= i < |a| && a[i] == b[0];
    var j :| 0 <= j < |b| && b[j] == a[0];
    LeqTotal(key(a[0]), key(a[0]));
    LeqTotal(key(b[0]), key(b[0]));
    assert Leq(key(a[0]), key(a[i])) && Leq(key(b[0]), key(b[j]));
    LeqAntisymmetric(key(a[0]), key(b[0]));
  }

  lemma DropHead<T>(a: seq<T>)
    requires |a| > 0
    ensures multiset(a[1..]) == multiset(a) - multiset{a[0]}
  {
    assert a == [a[0]] + a[1..];
  }

  /** Two sorted arrangements of the same multiset agree, provided no two different members
      share a key. */
  lemma {:induction false} SortedUnique<T>(key: T -> string, a: seq<T>, b: seq<T>)
    requires SortedBy(key, a) && SortedBy(key, b)
    requires multiset(a) == multiset(b)
    requires forall x, y | x in a && y in a && key(x) == key(y) :: x == y
    ensures a == b
  {
    if |a| == 0 {
      assert |multiset(b)| == 0;
    } else {
      SortedHead(key, a, b);
      assert a[0] == b[0];
      DropHead(a);
      DropHead(b);
      SortedUnique(key, a[1..], b[1..]);
      assert a == [a[0]] + a[1..] && b == [b[0]] + b[1..];
    }
  }
}
