/**
 * Generic facts about Python lists used as sequences: no duplicates,
 * list.remove (first occurrence), filtering out a set of elements.
 */
module Seqs {
  predicate Distinct<T(==)>(s: seq<T>)
  {
    forall i, j :: 0 <= i < j < |s| ==> s[i] != s[j]
  }

  /** list.remove: drop the first occurrence of x, keeping the order of the rest. */
  function RemoveFirst<T(==)>(s: seq<T>, x: T): (r: seq<T>)
    ensures x in s ==> |r| == |s| - 1
    ensures x !in s ==> r == s
    ensures multiset(r) == multiset(s) - multiset{x}
  {
    if s == [] then []
    else if s[0] == x then
      assert s == [s[0]] + s[1..];
      s[1..]
    else
      assert s == [s[0]] + s[1..];
      [s[0]] + RemoveFirst(s[1..], x)
  }

  /** The elements of s outside xs, in order. */
  function Excluding<T(==)>(s: seq<T>, xs: set<T>): (r: seq<T>)
    ensures (forall y :: y in r ==> y in s && y !in xs) && (forall y :: y in s && y !in xs ==> y in r)
  {
    if s == [] then []
    else if s[0] in xs then Excluding(s[1..], xs)
    else [s[0]] + Excluding(s[1..], xs)
  }

  function SetOf<T>(s: seq<T>): set<T>
  {
    set x | x in s
  }

  lemma DistinctSnoc<T>(s: seq<T>, x: T)
    requires Distinct(s) && x !in s
    ensures Distinct(s + [x])
  {
    assert forall i :: 0 <= i < |s| ==> (s + [x])[i] == s[i];
  }

  /** Extending a prefix of a list without duplicates by one element. */
  lemma PrefixStep<T>(s: seq<T>, j: int)
    requires Distinct(s) && 0 <= j < |s|
    ensures s[..j + 1] == s[..j] + [s[j]] && SetOf(s[..j + 1]) == SetOf(s[..j]) + {s[j]}
    ensures s[j] !in s[..j]
  {
    assert s[..j + 1] == s[..j] + [s[j]];
  }

  lemma DistinctPrefix<T>(s: seq<T>, n: int)
    requires Distinct(s) && 0 <= n <= |s|
    ensures Distinct(s[..n])
  {
    assert forall i :: 0 <= i < n ==> s[..n][i] == s[i];
  }

  /** In a list without duplicates, removing the first occurrence removes every occurrence. */
  lemma {:induction false} RemoveFirstDistinct<T>(s: seq<T>, x: T)
    requires Distinct(s)
    ensures RemoveFirst(s, x) == Excluding(s, {x})
  {
    if s != [] {
      assert Distinct(s[1..]) by {
        forall i, j | 0 <= i < j < |s| - 1 ensures s[1..][i] != s[1..][j] {
          assert s[1..][i] == s[i + 1] && s[1..][j] == s[j + 1];
        }
      }
      if s[0] == x {
        assert x !in s[1..];
        ExcludingAbsent(s[1..], {x});
      } else {
        RemoveFirstDistinct(s[1..], x);
      }
    }
  }

  /** Dropping elements from a list without duplicates leaves a list without duplicates. */
  lemma {:induction false} ExcludingDistinct<T>(s: seq<T>, xs: set<T>)
    requires Distinct(s)
    ensures Distinct(Excluding(s, xs))
  {
    if s != [] {
      assert Distinct(s[1..]) by {
        forall i, j | 0 <= i < j < |s| - 1 ensures s[1..][i] != s[1..][j] {
          assert s[1..][i] == s[i + 1] && s[1..][j] == s[j + 1];
        }
      }
      ExcludingDistinct(s[1..], xs);
      var r := Excluding(s[1..], xs);
      if s[0] !in xs {
        assert s[0] !in r;
        assert forall i :: 0 < i < |[s[0]] + r| ==> ([s[0]] + r)[i] == r[i - 1];
      }
    }
  }

  lemma {:induction false} ExcludingAbsent<T>(s: seq<T>, xs: set<T>)
    requires forall y :: y in s ==> y !in xs
    ensures Excluding(s, xs) == s
  {
    if s != [] {
      ExcludingAbsent(s[1..], xs);
    }
  }

  lemma {:induction false} ExcludingTwice<T>(s: seq<T>, xs: set<T>, ys: set<T>)
    ensures Excluding(Excluding(s, xs), ys) == Excluding(s, xs + ys)
  {
    if s != [] {
      ExcludingTwice(s[1..], xs, ys);
    }
  }

  lemma {:induction false} DistinctCard<T>(s: seq<T>)
    requires Distinct(s)
    ensures |set x | x in s| == |s|
  {
    if s != [] {
      assert Distinct(s[1..]);
      DistinctCard(s[1..]);
      assert (set x | x in s) == (set x | x in s[1..]) + {s[0]};
    }
  }

  lemma {:induction false} ExcludingSame<T>(s: seq<T>, xs: set<T>, ys: set<T>)
    requires forall y :: y in s ==> (y in xs <==> y in ys)
    ensures Excluding(s, xs) == Excluding(s, ys)
  {
    if s != [] {
      ExcludingSame(s[1..], xs, ys);
    }
  }

  lemma {:induction false} ExcludingAll<T>(s: seq<T>)
    ensures Excluding(s, SetOf(s)) == []
  {
    if s != [] {
      ExcludingSame(s[1..], SetOf(s[1..]), SetOf(s));
      ExcludingAll(s[1..]);
    }
  }

  lemma MultisetSnoc<T>(base: multiset<T>, p: seq<T>, x: T)
    ensures base + multiset(p) + multiset{x} == base + multiset(p + [x])
  {
    assert multiset(p + [x]) == multiset(p) + multiset{x};
  }

  /** list.remove on a list whose first occurrence of x starts its second part. */
  lemma {:induction false} RemoveFirstAt<T>(a: seq<T>, b: seq<T>, x: T)
    requires x !in a && b != [] && b[0] == x
    ensures RemoveFirst(a + b, x) == a + b[1..]
  {
    if a != [] {
      assert (a + b)[1..] == a[1..] + b;
      RemoveFirstAt(a[1..], b, x);
    } else {
      assert a + b == b;
    }
  }
}
