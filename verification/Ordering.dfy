/** Orders, permutations and subsequences shared by the components of the model. */
module Ordering {

  datatype Option<+T> = None | Some(value: T)

  /** Lexicographic order on integer sequences, a proper prefix coming first. */
  predicate LexLess(a: seq<int>, b: seq<int>) {
    b != [] && (a == [] || a[0] < b[0] || (a[0] == b[0] && LexLess(a[1..], b[1..])))
  }

  lemma {:induction false} LexTotal(a: seq<int>, b: seq<int>)
    ensures LexLess(a, b) || a == b || LexLess(b, a)
    ensures !(LexLess(a, b) && LexLess(b, a))
    ensures a == b ==> !LexLess(a, b)
  {
    if a != [] && b != [] && a[0] == b[0] {
      LexTotal(a[1..], b[1..]);
      assert a == [a[0]] + a[1..] && b == [b[0]] + b[1..];
    }
  }

  lemma {:induction false} LexTransitive(a: seq<int>, b: seq<int>, c: seq<int>)
    requires LexLess(a, b) && LexLess(b, c)
    ensures LexLess(a, c)
  {
    if a != [] && a[0] == b[0] && b[0] == c[0] {
      LexTransitive(a[1..], b[1..], c[1..]);
    }
  }

  /** The scalar values of a string: Rust compares strings by them. */
  function Codes(s: string): (r: seq<int>)
    ensures |r| == |s|
  {
    seq(|s|, i requires 0 <= i < |s| => s[i] as int)
  }

  predicate StrLess(a: string, b: string) {
    LexLess(Codes(a), Codes(b))
  }

  lemma StrTotal(a: string, b: string)
    ensures StrLess(a, b) || a == b || StrLess(b, a)
    ensures !(StrLess(a, b) && StrLess(b, a))
    ensures !StrLess(a, a)
  {
    LexTotal(Codes(a), Codes(b));
    LexTotal(Codes(a), Codes(a));
    if Codes(a) == Codes(b) {
      forall i | 0 <= i < |a| ensures a[i] == b[i] {
        assert Codes(a)[i] == Codes(b)[i];
      }
    }
  }

  ghost predicate Asymmetric<T(!new)>(less: (T, T) -> bool) {
    forall x, y :: less(x, y) ==> !less(y, x)
  }

  ghost predicate SortedBy<T>(less: (T, T) -> bool, s: seq<T>) {
    forall i, j :: 0 <= i < j < |s| ==> less(s[i], s[j])
  }

  /** Two strictly sorted permutations of one another are the same sequence. */
  lemma {:induction false} SortedUnique<T(!new)>(less: (T, T) -> bool, a: seq<T>, b: seq<T>)
    requires Asymmetric(less) && SortedBy(less, a) && SortedBy(less, b)
    requires multiset(a) == multiset(b)
    ensures a == b
  {
    if a == [] {
      assert |multiset(b)| == 0;
    } else {
      SameHead(less, a, b);
      SameTail(a, b);
      SortedUnique(less, a[1..], b[1..]);
    }
  }

  lemma SameTail<T>(a: seq<T>, b: seq<T>)
    requires a != [] && b != [] && a[0] == b[0] && multiset(a) == multiset(b)
    ensures multiset(a[1..]) == multiset(b[1..])
  {
    assert a == [a[0]] + a[1..] && b == [b[0]] + b[1..];
    assert multiset(a[1..]) == multiset(a) - multiset{a[0]};
    assert multiset(b[1..]) == multiset(b) - multiset{b[0]};
  }

  lemma SameHead<T(!new)>(less: (T, T) -> bool, a: seq<T>, b: seq<T>)
    requires Asymmetric(less) && SortedBy(less, a) && SortedBy(less, b)
    requires multiset(a) == multiset(b) && a != []
    ensures b != [] && a[0] == b[0]
  {
    assert a[0] in multiset(b);
    var k :| 0 <= k < |b| && b[k] == a[0];
    assert b[0] in multiset(a);
    var j :| 0 <= j < |a| && a[j] == b[0];
  }

  // ---- the library's stable sort -------------------------------------------

  /** A strict weak order: elements neither of which is less are interchangeable in rank. */
  ghost predicate WeakOrder<T(!new)>(less: (T, T) -> bool) {
    && Asymmetric(less)
    && forall x, y, z :: less(x, z) ==> less(x, y) || less(y, z)
  }

  /** No element is less than one placed ahead of it. */
  ghost predicate NotDescending<T>(less: (T, T) -> bool, s: seq<T>) {
    forall i, j :: 0 <= i < j < |s| ==> !less(s[j], s[i])
  }

  /** Inserts after every element that is not greater than `t`. */
  function Insert<T>(less: (T, T) -> bool, s: seq<T>, t: T): seq<T> {
    if s != [] && less(t, s[|s| - 1]) then Insert(less, s[..|s| - 1], t) + [s[|s| - 1]]
    else s + [t]
  }

  function Sort<T>(less: (T, T) -> bool, s: seq<T>): seq<T> {
    if s == [] then [] else Insert(less, Sort(less, s[..|s| - 1]), s[|s| - 1])
  }

  lemma {:induction false} InsertPermutes<T>(less: (T, T) -> bool, s: seq<T>, t: T)
    ensures multiset(Insert(less, s, t)) == multiset(s) + multiset{t}
  {
    if s != [] && less(t, s[|s| - 1]) {
      var n := |s| - 1;
      InsertPermutes(less, s[..n], t);
      assert s == s[..n] + [s[n]];
    }
  }

  lemma {:induction false} InsertFacts<T(!new)>(less: (T, T) -> bool, s: seq<T>, t: T)
    ensures WeakOrder(less) && NotDescending(less, s) ==> NotDescending(less, Insert(less, s, t))
  {
    if s != [] && less(t, s[|s| - 1]) {
      var n := |s| - 1;
      InsertFacts(less, s[..n], t);
      var front := Insert(less, s[..n], t);
      if WeakOrder(less) && NotDescending(less, s) {
        forall i | 0 <= i < |front| ensures !less(s[n], front[i]) {
          InsertPermutes(less, s[..n], t);
          assert front[i] in multiset(front);
          if front[i] != t {
            assert front[i] in s[..n];
          }
        }
      }
    }
  }

  lemma {:induction false} SortPermutes<T>(less: (T, T) -> bool, s: seq<T>)
    ensures multiset(Sort(less, s)) == multiset(s)
  {
    if s != [] {
      var n := |s| - 1;
      SortPermutes(less, s[..n]);
      InsertPermutes(less, Sort(less, s[..n]), s[n]);
      assert s == s[..n] + [s[n]];
    }
  }

  lemma {:induction false} InsertLength<T>(less: (T, T) -> bool, s: seq<T>, t: T)
    ensures |Insert(less, s, t)| == |s| + 1
  {
    if s != [] && less(t, s[|s| - 1]) { InsertLength(less, s[..|s| - 1], t); }
  }

  lemma {:induction false} SortLength<T>(less: (T, T) -> bool, s: seq<T>)
    ensures |Sort(less, s)| == |s|
  {
    if s != [] {
      SortLength(less, s[..|s| - 1]);
      InsertLength(less, Sort(less, s[..|s| - 1]), s[|s| - 1]);
    }
  }

  /** The sort is a permutation in rank order. */
  lemma {:induction false} SortFacts<T(!new)>(less: (T, T) -> bool, s: seq<T>)
    ensures multiset(Sort(less, s)) == multiset(s)
    ensures |Sort(less, s)| == |s|
    ensures WeakOrder(less) ==> NotDescending(less, Sort(less, s))
  {
    SortPermutes(less, s);
    SortLength(less, s);
    if s != [] {
      var n := |s| - 1;
      SortFacts(less, s[..n]);
      InsertFacts(less, Sort(less, s[..n]), s[n]);
    }
  }

  /** An order that looks at nothing but a key. */
  ghost predicate ByKey<T(!new), K>(less: (T, T) -> bool, key: T -> K) {
    forall x, y, u, v :: key(x) == key(u) && key(y) == key(v) ==> less(x, y) == less(u, v)
  }

  ghost predicate SameKeys<T, K>(key: T -> K, a: seq<T>, b: seq<T>) {
    |a| == |b| && forall i :: 0 <= i < |a| ==> key(a[i]) == key(b[i])
  }

  lemma {:induction false} InsertOfSameKeys<T(!new), K>(less: (T, T) -> bool, key: T -> K, a: seq<T>, b: seq<T>, x: T, y: T)
    requires ByKey(less, key) && SameKeys(key, a, b) && key(x) == key(y)
    ensures SameKeys(key, Insert(less, a, x), Insert(less, b, y))
  {
    if a != [] && less(x, a[|a| - 1]) {
      InsertOfSameKeys(less, key, a[..|a| - 1], b[..|b| - 1], x, y);
    }
  }

  /** Sequences with the same keys are sorted alike. */
  lemma {:induction false} SortOfSameKeys<T(!new), K>(less: (T, T) -> bool, key: T -> K, a: seq<T>, b: seq<T>)
    requires ByKey(less, key) && SameKeys(key, a, b)
    ensures SameKeys(key, Sort(less, a), Sort(less, b))
  {
    if a != [] {
      var n := |a| - 1;
      SortOfSameKeys(less, key, a[..n], b[..n]);
      InsertOfSameKeys(less, key, Sort(less, a[..n]), Sort(less, b[..n]), a[n], b[n]);
    }
  }

  // ---- concatenated images ---------------------------------------------------

  function FlatMap<A, B>(f: A -> seq<B>, s: seq<A>): seq<B> {
    if s == [] then [] else FlatMap(f, s[..|s| - 1]) + f(s[|s| - 1])
  }

  lemma {:induction false} FlatMapWithout<A, B>(f: A -> seq<B>, s: seq<A>, k: nat)
    requires k < |s|
    ensures multiset(FlatMap(f, s)) == multiset(FlatMap(f, s[..k] + s[k + 1..])) + multiset(f(s[k]))
  {
    var n := |s| - 1;
    var rest := s[..k] + s[k + 1..];
    if k == n {
      assert rest == s[..n];
    } else {
      FlatMapWithout(f, s[..n], k);
      assert rest[..n - 1] == s[..n][..k] + s[..n][k + 1..];
      assert rest[n - 1] == s[n];
    }
  }

  lemma MultisetWithout<A>(s: seq<A>, k: nat)
    requires k < |s|
    ensures multiset(s[..k] + s[k + 1..]) == multiset(s) - multiset{s[k]}
  {
    assert s == s[..k] + [s[k]] + s[k + 1..];
  }

  /** Where a permutation has the last element. */
  lemma TakenOut<A>(s: seq<A>, t: seq<A>) returns (k: nat)
    requires multiset(s) == multiset(t) && s != []
    ensures k < |t| && t[k] == s[|s| - 1] && multiset(s[..|s| - 1]) == multiset(t[..k] + t[k + 1..])
  {
    var n := |s| - 1;
    assert s[n] in multiset(t);
    k :| 0 <= k < |t| && t[k] == s[n];
    MultisetWithout(s, n);
    MultisetWithout(t, k);
    assert s[..n] + s[n + 1..] == s[..n];
  }

  /** A permutation of the source permutes the concatenated image. */
  lemma {:induction false} FlatMapPermutes<A, B>(f: A -> seq<B>, s: seq<A>, t: seq<A>)
    requires multiset(s) == multiset(t)
    ensures multiset(FlatMap(f, s)) == multiset(FlatMap(f, t))
  {
    if s == [] {
      assert |multiset(t)| == 0;
    } else {
      var k := TakenOut(s, t);
      FlatMapPermutes(f, s[..|s| - 1], t[..k] + t[k + 1..]);
      FlatMapWithout(f, t, k);
    }
  }

  ghost predicate NoDuplicates<T>(s: seq<T>) {
    forall i, j :: 0 <= i < j < |s| ==> s[i] != s[j]
  }

  function ToSet<T(==)>(s: seq<T>): set<T> {
    set x | x in s
  }

  /** `a` is `b` with some elements left out. */
  ghost predicate Subsequence<T>(a: seq<T>, b: seq<T>) {
    a == [] || (b != [] && ((a[0] == b[0] && Subsequence(a[1..], b[1..])) || Subsequence(a, b[1..])))
  }

  /** The elements of `s` that are in `keep`, in their order. */
  function Retain<T(==)>(s: seq<T>, keep: set<T>): (r: seq<T>) {
    if s == [] then [] else (if s[0] in keep then [s[0]] else []) + Retain(s[1..], keep)
  }

  lemma {:induction false} RetainFacts<T>(s: seq<T>, keep: set<T>)
    ensures Subsequence(Retain(s, keep), s)
    ensures forall x :: x in Retain(s, keep) <==> x in s && x in keep
    ensures NoDuplicates(s) ==> NoDuplicates(Retain(s, keep))
  {
    if s != [] {
      RetainFacts(s[1..], keep);
      var rest := Retain(s[1..], keep);
      if s[0] in keep {
        assert Retain(s, keep)[1..] == rest;
        if NoDuplicates(s) {
          assert s[0] !in s[1..];
        }
      } else {
        assert Retain(s, keep) == rest;
      }
    }
  }

  lemma {:induction false} SubsequenceRefl<T>(s: seq<T>)
    ensures Subsequence(s, s)
  {
    if s != [] { SubsequenceRefl(s[1..]); }
  }

  lemma TwiceInMultiset<T>(s: seq<T>, i: nat, j: nat)
    requires i < j < |s| && s[i] == s[j]
    ensures multiset(s)[s[i]] >= 2
  {
    assert s == s[..i] + [s[i]] + s[i + 1..j] + [s[j]] + s[j + 1..];
  }

  lemma OnceInMultiset<T>(s: seq<T>, x: nat)
    requires x < |s| && forall i :: 0 <= i < |s| && i != x ==> s[i] != s[x]
    ensures multiset(s)[s[x]] == 1
  {
    assert s == s[..x] + [s[x]] + s[x + 1..];
    assert s[x] !in s[..x] && s[x] !in s[x + 1..];
  }
}
