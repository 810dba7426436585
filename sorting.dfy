/** The stable sort that both the Python backend (`list.sort(key=...)`) and the
    browser (`Array.prototype.sort` with a comparator) apply to country lists,
    stated once over an ordering on string keys, and the ordering Python uses
    for its own strings. */
module Sorting {

  /** `leq` orders any two keys one way or the other and is transitive. */
  ghost predicate TotalPreorder(leq: (string, string) -> bool)
  {
    && (forall a, b :: leq(a, b) || leq(b, a))
    && (forall a, b, c :: leq(a, b) && leq(b, c) ==> leq(a, c))
  }

  /** Neighbouring elements are in order, so the whole sequence is ascending. */
  ghost predicate SortedBy<T>(s: seq<T>, key: T -> string, leq: (string, string) -> bool)
  {
    forall i | 0 <= i < |s| - 1 :: leq(key(s[i]), key(s[i + 1]))
  }

  /** The key of `y` ranks equal to `k`. */
  predicate RanksWith<T>(y: T, key: T -> string, leq: (string, string) -> bool, k: string)
  {
    leq(key(y), k) && leq(k, key(y))
  }

  /** The elements of `s` whose key ranks equal to `k`, in their order in `s`. */
  function TiedWith<T>(s: seq<T>, key: T -> string, leq: (string, string) -> bool, k: string): seq<T>
  {
    if s == [] then []
    else (if RanksWith(s[0], key, leq, k) then [s[0]] else []) + TiedWith(s[1..], key, leq, k)
  }

  /** Puts `x` before the first element whose key does not rank below it. */
  function Insert<T>(x: T, s: seq<T>, key: T -> string, leq: (string, string) -> bool): seq<T>
  {
    if s == [] then [x]
    else if leq(key(x), key(s[0])) then [x] + s
    else [s[0]] + Insert(x, s[1..], key, leq)
  }

  /** Insertion sort from the back: an element is inserted in front of the elements
      that followed it and rank equal, which keeps equal elements in input order. */
  function SortBy<T>(s: seq<T>, key: T -> string, leq: (string, string) -> bool): seq<T>
  {
    if s == [] then [] else Insert(s[0], SortBy(s[1..], key, leq), key, leq)
  }

  lemma {:induction false} InsertPermutes<T>(x: T, s: seq<T>, key: T -> string, leq: (string, string) -> bool)
    ensures multiset(Insert(x, s, key, leq)) == multiset{x} + multiset(s)
  {
    if s != [] && !leq(key(x), key(s[0])) {
      InsertPermutes(x, s[1..], key, leq);
      assert s == [s[0]] + s[1..];
    }
  }

  /** The sorted list holds exactly the input's elements, as often as the input does. */
  lemma {:induction false} SortByPermutes<T>(s: seq<T>, key: T -> string, leq: (string, string) -> bool)
    ensures multiset(SortBy(s, key, leq)) == multiset(s)
    ensures |SortBy(s, key, leq)| == |s|
  {
    if s != [] {
      SortByPermutes(s[1..], key, leq);
      InsertPermutes(s[0], SortBy(s[1..], key, leq), key, leq);
      assert s == [s[0]] + s[1..];
    }
    assert |multiset(SortBy(s, key, leq))| == |SortBy(s, key, leq)|;
  }

  lemma {:induction false} InsertSorted<T>(x: T, s: seq<T>, key: T -> string, leq: (string, string) -> bool)
    requires TotalPreorder(leq)
    requires SortedBy(s, key, leq)
    ensures SortedBy(Insert(x, s, key, leq), key, leq)
    ensures |Insert(x, s, key, leq)| == |s| + 1
    ensures Insert(x, s, key, leq)[0] == x || (s != [] && Insert(x, s, key, leq)[0] == s[0])
  {
    if s != [] && !leq(key(x), key(s[0])) {
      InsertSorted(x, s[1..], key, leq);
      var r := Insert(x, s[1..], key, leq);
      assert leq(key(s[0]), key(x));
      assert r[0] == x || r[0] == s[1];
      assert Insert(x, s, key, leq) == [s[0]] + r;
    }
  }

  /** The result is ascending under `leq`. */
  lemma {:induction false} SortBySorted<T>(s: seq<T>, key: T -> string, leq: (string, string) -> bool)
    requires TotalPreorder(leq)
    ensures SortedBy(SortBy(s, key, leq), key, leq)
  {
    if s != [] {
      SortBySorted(s[1..], key, leq);
      InsertSorted(s[0], SortBy(s[1..], key, leq), key, leq);
    }
  }

  lemma TiedWithCons<T>(y: T, s: seq<T>, key: T -> string, leq: (string, string) -> bool, k: string)
    ensures TiedWith([y] + s, key, leq, k) == TiedWith([y], key, leq, k) + TiedWith(s, key, leq, k)
    ensures TiedWith([y], key, leq, k) == if RanksWith(y, key, leq, k) then [y] else []
  {
    assert ([y] + s)[1..] == s;
  }

  /** Of two elements ranked strictly apart, at most one ties with `k`. */
  lemma NotBothTied<T>(x: T, y: T, key: T -> string, leq: (string, string) -> bool, k: string)
    requires TotalPreorder(leq)
    requires !leq(key(x), key(y))
    ensures !RanksWith(x, key, leq, k) || !RanksWith(y, key, leq, k)
  {
  }

  lemma {:induction false} InsertKeepsTies<T>(x: T, s: seq<T>, key: T -> string, leq: (string, string) -> bool, k: string)
    requires TotalPreorder(leq)
    ensures TiedWith(Insert(x, s, key, leq), key, leq, k)
         == TiedWith([x], key, leq, k) + TiedWith(s, key, leq, k)
  {
    if s == [] {
    } else if leq(key(x), key(s[0])) {
      TiedWithCons(x, s, key, leq, k);
    } else {
      InsertKeepsTies(x, s[1..], key, leq, k);
      var r1 := Insert(x, s[1..], key, leq);
      assert Insert(x, s, key, leq) == [s[0]] + r1;
      TiedWithCons(s[0], r1, key, leq, k);
      assert s == [s[0]] + s[1..];
      TiedWithCons(s[0], s[1..], key, leq, k);
      TiedWithCons(x, [], key, leq, k);
      NotBothTied(x, s[0], key, leq, k);
    }
  }

  /** Stability: elements that rank equal come out in the order they went in. */
  lemma {:induction false} SortByStable<T>(s: seq<T>, key: T -> string, leq: (string, string) -> bool, k: string)
    requires TotalPreorder(leq)
    ensures TiedWith(SortBy(s, key, leq), key, leq, k) == TiedWith(s, key, leq, k)
  {
    if s != [] {
      SortByStable(s[1..], key, leq, k);
      InsertKeepsTies(s[0], SortBy(s[1..], key, leq), key, leq, k);
      TiedWithCons(s[0], s[1..], key, leq, k);
      assert s == [s[0]] + s[1..];
    }
  }

  // Python compares `str` values by code point, lexicographically.

  predicate StrLess(a: string, b: string)
  {
    if a == [] then b != []
    else if b == [] then false
    else if a[0] != b[0] then a[0] < b[0]
    else StrLess(a[1..], b[1..])
  }

  /** `a <= b` for Python strings. */
  predicate PyLeq(a: string, b: string)
  {
    !StrLess(b, a)
  }

  lemma {:induction false} StrLessTrichotomy(a: string, b: string)
    ensures StrLess(a, b) || a == b || StrLess(b, a)
    ensures !(StrLess(a, b) && StrLess(b, a))
  {
    if a != [] && b != [] && a[0] == b[0] {
      StrLessTrichotomy(a[1..], b[1..]);
      assert a[1..] == b[1..] ==> a == b;
    }
  }

  lemma {:induction false} StrLessTransitive(a: string, b: string, c: string)
    requires StrLess(a, b) && StrLess(b, c)
    ensures StrLess(a, c)
  {
    if a != [] && b != [] && c != [] && a[0] == b[0] && b[0] == c[0] {
      StrLessTransitive(a[1..], b[1..], c[1..]);
    }
  }

  /** Python's string order is a total preorder, so the sort lemmas apply to it. */
  lemma PyLeqTotalPreorder()
    ensures TotalPreorder(PyLeq)
  {
    forall a, b ensures PyLeq(a, b) || PyLeq(b, a) {
      StrLessTrichotomy(a, b);
    }
    forall a, b, c | PyLeq(a, b) && PyLeq(b, c) ensures PyLeq(a, c) {
      StrLessTrichotomy(a, b);
      StrLessTrichotomy(b, c);
      StrLessTrichotomy(a, c);
      if StrLess(c, a) {
        if StrLess(a, b) {
          StrLessTransitive(c, a, b);
        }
      }
    }
  }
}
