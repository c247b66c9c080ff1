/** Filtering a sequence by a predicate: how the model reads a Django
    queryset `.filter(...)`, and how it reads a loop that appends only the
    items passing a test. */
module SeqFilter {

  /** The items of `s` that satisfy `p`, in their order. */
  function Keep<T>(s: seq<T>, p: T -> bool): (r: seq<T>)
    ensures |r| <= |s|
    ensures forall x :: x in r ==> x in s && p(x)
    ensures forall x :: x in s && p(x) ==> x in r
  {
    if s == [] then []
    else (if p(s[0]) then [s[0]] else []) + Keep(s[1..], p)
  }

  /** Filtering a concatenation filters each part: the order is kept. */
  lemma {:induction false} KeepAppend<T>(a: seq<T>, b: seq<T>, p: T -> bool)
    ensures Keep(a + b, p) == Keep(a, p) + Keep(b, p)
    decreases |a|
  {
    if a == [] {
      assert a + b == b;
    } else {
      assert (a + b)[0] == a[0] && (a + b)[1..] == a[1..] + b;
      KeepAppend(a[1..], b, p);
    }
  }

  /** Filtering one more item keeps it exactly when it passes. */
  lemma KeepSnoc<T>(a: seq<T>, x: T, p: T -> bool)
    ensures Keep(a + [x], p) == Keep(a, p) + (if p(x) then [x] else [])
  {
    KeepAppend(a, [x], p);
    assert [x][1..] == [];
  }

  /** Filtering by `p` and by its negation splits the input in two. */
  lemma {:induction false} KeepPartition<T>(s: seq<T>, p: T -> bool, q: T -> bool)
    requires forall x :: q(x) == !p(x)
    ensures multiset(Keep(s, p)) + multiset(Keep(s, q)) == multiset(s)
    decreases |s|
  {
    if s != [] {
      var x, rest := s[0], s[1..];
      KeepPartition(rest, p, q);
      assert s == [x] + rest;
      assert multiset(s) == multiset{x} + multiset(rest);
      if p(x) {
        assert Keep(s, p) == [x] + Keep(rest, p);
        assert Keep(s, q) == Keep(rest, q);
      } else {
        assert Keep(s, p) == Keep(rest, p);
        assert Keep(s, q) == [x] + Keep(rest, q);
      }
    }
  }

  /** A filter every item passes changes nothing. */
  lemma {:induction false} KeepAll<T>(s: seq<T>, p: T -> bool)
    requires forall x :: x in s ==> p(x)
    ensures Keep(s, p) == s
    decreases |s|
  {
    if s != [] {
      assert forall x :: x in s[1..] ==> x in s;
      KeepAll(s[1..], p);
      assert [s[0]] + s[1..] == s;
    }
  }

  /** A weaker test keeps at least the same items, as often. */
  lemma {:induction false} KeepMonotone<T>(s: seq<T>, p: T -> bool, q: T -> bool)
    requires forall x :: p(x) ==> q(x)
    ensures multiset(Keep(s, p)) <= multiset(Keep(s, q))
    decreases |s|
  {
    if s != [] {
      KeepMonotone(s[1..], p, q);
    }
  }

  predicate Distinct<T(==)>(s: seq<T>) {
    forall i, j :: 0 <= i < j < |s| ==> s[i] != s[j]
  }

  /** Filtering never repeats an item: distinct items stay distinct. */
  lemma {:induction false} KeepDistinct<T>(s: seq<T>, p: T -> bool)
    requires Distinct(s)
    ensures Distinct(Keep(s, p))
    decreases |s|
  {
    if s != [] {
      assert Distinct(s[1..]) by {
        forall i, j | 0 <= i < j < |s[1..]|
          ensures s[1..][i] != s[1..][j]
        {
          assert s[1..][i] == s[i + 1] && s[1..][j] == s[j + 1];
        }
      }
      KeepDistinct(s[1..], p);
      assert s[0] !in Keep(s[1..], p) by {
        assert forall k :: 0 <= k < |s[1..]| ==> s[1..][k] == s[k + 1];
      }
    }
  }
}
