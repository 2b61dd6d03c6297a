/**
 * The Python list built-ins the dashboard views rely on: a prefix slice
 * (`xs[:n]`), `reversed`, counting with a condition (`len([x for x in xs
 * if p(x)])`, or a query set's `count()`), and the stable
 * `sorted(xs, key=...)`.
 */
module ListOps {

  /** `xs[:n]`: the first `n` elements, or all of them when there are fewer. */
  function Take<T>(s: seq<T>, n: nat): (r: seq<T>)
    ensures |r| <= n && |r| <= |s|
    ensures |r| == n || r == s
    ensures forall i :: 0 <= i < |r| ==> r[i] == s[i]
  {
    if |s| <= n then s else s[..n]
  }

  /** `reversed(xs)`. */
  function Reverse<T>(s: seq<T>): (r: seq<T>)
    ensures |r| == |s|
    ensures forall i :: 0 <= i < |s| ==> r[i] == s[|s| - 1 - i]
  {
    if s == [] then [] else Reverse(s[1..]) + [s[0]]
  }

  /** The positions of `s` that hold an element satisfying `p`. */
  ghost function Matching<T>(s: seq<T>, p: T -> bool): set<int> {
    set i | 0 <= i < |s| && p(s[i])
  }

  /** How many elements satisfy `p`: the number of positions holding one. */
  function CountWhere<T>(s: seq<T>, p: T -> bool): (n: nat)
    ensures n == |Matching(s, p)|
    ensures n <= |s|
    ensures n == 0 <==> forall i :: 0 <= i < |s| ==> !p(s[i])
  {
    if s == [] then 0
    else
      MatchingSnoc(s, p);
      CountWhere(s[..|s| - 1], p) + (if p(s[|s| - 1]) then 1 else 0)
  }

  /** The matching positions of a sequence are those of its front, and the
      last position when the last element matches. */
  lemma MatchingSnoc<T>(s: seq<T>, p: T -> bool)
    requires s != []
    ensures var front := s[..|s| - 1];
      && Matching(s, p) == Matching(front, p) + (if p(s[|s| - 1]) then {|s| - 1} else {})
      && |s| - 1 !in Matching(front, p)
  {
    var front := s[..|s| - 1];
    assert forall i :: 0 <= i < |front| ==> front[i] == s[i];
  }

  /** Counting over a longer prefix never finds fewer. */
  lemma CountWherePrefix<T>(s: seq<T>, p: T -> bool, i: nat, j: nat)
    requires i <= j <= |s|
    ensures CountWhere(s[..i], p) <= CountWhere(s[..j], p)
  {
    var a, b := Matching(s[..i], p), Matching(s[..j], p);
    forall x | x in a ensures x in b {
      assert s[..i][x] == s[..j][x];
    }
    assert b == a + (b - a);
  }

  /** Ascending by `key`. */
  predicate SortedBy<T>(s: seq<T>, key: T -> int) {
    forall i, j :: 0 <= i < j < |s| ==> key(s[i]) <= key(s[j])
  }

  /** The elements whose key is `k`, in their order. */
  function WithKey<T>(s: seq<T>, key: T -> int, k: int): seq<T> {
    if s == [] then []
    else (if key(s[0]) == k then [s[0]] else []) + WithKey(s[1..], key, k)
  }

  /** Places `x` in front of the first element whose key is not below its own,
      so that `x` stays ahead of the elements with an equal key. */
  function InsertBy<T>(x: T, s: seq<T>, key: T -> int): (r: seq<T>)
    ensures multiset(r) == multiset(s) + multiset{x}
  {
    if s == [] || key(x) <= key(s[0]) then [x] + s
    else
      assert s == [s[0]] + s[1..];
      [s[0]] + InsertBy(x, s[1..], key)
  }

  /** `sorted(s, key=key)`: an insertion sort, which, like Python's, is stable. */
  function SortBy<T>(s: seq<T>, key: T -> int): (r: seq<T>)
    ensures multiset(r) == multiset(s)
  {
    if s == [] then []
    else
      assert s == [s[0]] + s[1..];
      InsertBy(s[0], SortBy(s[1..], key), key)
  }

  lemma {:induction false} InsertBySorted<T>(x: T, s: seq<T>, key: T -> int)
    requires SortedBy(s, key)
    ensures SortedBy(InsertBy(x, s, key), key)
  {
    if s == [] || key(x) <= key(s[0]) {
    } else {
      var rest := InsertBy(x, s[1..], key);
      assert SortedBy(s[1..], key) by {
        forall i, j | 0 <= i < j < |s[1..]| ensures key(s[1..][i]) <= key(s[1..][j]) {
          assert s[1..][i] == s[i + 1] && s[1..][j] == s[j + 1];
        }
      }
      InsertBySorted(x, s[1..], key);
      forall j | 0 <= j < |rest| ensures key(s[0]) <= key(rest[j]) {
        assert rest[j] in multiset(rest);
        if rest[j] != x {
          assert rest[j] in multiset(s[1..]);
          var m :| 0 <= m < |s[1..]| && s[1..][m] == rest[j];
          assert s[1..][m] == s[m + 1];
        }
      }
    }
  }

  lemma WithKeyCons<T>(y: T, s: seq<T>, key: T -> int, k: int)
    ensures WithKey([y] + s, key, k) == (if key(y) == k then [y] else []) + WithKey(s, key, k)
  {
    assert ([y] + s)[0] == y && ([y] + s)[1..] == s;
  }

  /** Putting `y` in front of two sequences whose groups of `k` differ only by
      `x` at their head keeps them so, when `x`'s key is above `y`'s: at most one
      of the two belongs to the group of `k`. */
  lemma WithKeyConsAbove<T>(x: T, y: T, rest: seq<T>, s: seq<T>, key: T -> int, k: int)
    requires key(y) < key(x)
    requires WithKey(rest, key, k) == (if key(x) == k then [x] else []) + WithKey(s, key, k)
    ensures WithKey([y] + rest, key, k) == (if key(x) == k then [x] else []) + WithKey([y] + s, key, k)
  {
    WithKeyCons(y, rest, key, k);
    WithKeyCons(y, s, key, k);
    if key(y) == k {
      assert WithKey(rest, key, k) == WithKey(s, key, k);
    } else {
      assert WithKey([y] + s, key, k) == WithKey(s, key, k);
    }
  }

  /** Inserting `x` adds it at the head of its own key's group. */
  lemma {:induction false} InsertByStable<T>(x: T, s: seq<T>, key: T -> int, k: int)
    ensures WithKey(InsertBy(x, s, key), key, k) == (if key(x) == k then [x] else []) + WithKey(s, key, k)
  {
    if s == [] || key(x) <= key(s[0]) {
      WithKeyCons(x, s, key, k);
    } else {
      InsertByStable(x, s[1..], key, k);
      assert s == [s[0]] + s[1..];
      WithKeyConsAbove(x, s[0], InsertBy(x, s[1..], key), s[1..], key, k);
    }
  }

  /** What `sorted` promises: ascending, a permutation, and stable (each key's
      elements keep their relative order). */
  lemma {:induction false} SortByCorrect<T>(s: seq<T>, key: T -> int)
    ensures SortedBy(SortBy(s, key), key)
    ensures multiset(SortBy(s, key)) == multiset(s)
    ensures forall k :: WithKey(SortBy(s, key), key, k) == WithKey(s, key, k)
  {
    if s != [] {
      SortByCorrect(s[1..], key);
      InsertBySorted(s[0], SortBy(s[1..], key), key);
      forall k ensures WithKey(SortBy(s, key), key, k) == WithKey(s, key, k) {
        InsertByStable(s[0], SortBy(s[1..], key), key, k);
      }
    }
  }

  /** The head of a sequence heads its own key's group. */
  lemma WithKeyHead<T>(s: seq<T>, key: T -> int)
    requires |s| > 0
    ensures |WithKey(s, key, key(s[0]))| > 0 && WithKey(s, key, key(s[0]))[0] == s[0]
  {
  }
}
