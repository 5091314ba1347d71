/** Ordered, duplicate-free lists: what the listener lists and the callback record are made of. */
module Sequences {

  ghost predicate NoDup<T>(s: seq<T>) {
    forall i, j | 0 <= i < j < |s| :: s[i] != s[j]
  }

  /** Put `x` in front unless it is already there. */
  function AddFront<T(==)>(s: seq<T>, x: T): seq<T> {
    if x in s then s else [x] + s
  }

  /** Drop every occurrence of `x`. */
  function Without<T(==, !new)>(s: seq<T>, x: T): (r: seq<T>)
    ensures x !in r && forall y | y != x :: y in r <==> y in s
  {
    if s == [] then [] else
    (if s[0] == x then [] else [s[0]]) + Without(s[1..], x)
  }

  /** Drop the first occurrence of `x`. */
  function WithoutFirst<T(==)>(s: seq<T>, x: T): seq<T> {
    if s == [] then [] else
    if s[0] == x then s[1..] else [s[0]] + WithoutFirst(s[1..], x)
  }

  ghost function Elements<T>(s: seq<T>): set<T> {
    set x | x in s
  }

  lemma {:induction false} WithoutConcat<T(!new)>(a: seq<T>, b: seq<T>, x: T)
    ensures Without(a + b, x) == Without(a, x) + Without(b, x)
  {
    if a == [] {
      assert a + b == b;
    } else {
      assert (a + b)[0] == a[0] && (a + b)[1..] == a[1..] + b;
      WithoutConcat(a[1..], b, x);
    }
  }

  lemma {:induction false} WithoutAbsent<T(!new)>(s: seq<T>, x: T)
    requires x !in s
    ensures Without(s, x) == s
  {
    if s != [] {
      WithoutAbsent(s[1..], x);
    }
  }

  /** Every element other than `x` survives, and survivors keep their relative order. */
  lemma {:induction false} WithoutKeepsOrder<T(!new)>(s: seq<T>, x: T, i: nat, j: nat)
    requires i < j < |s| && s[i] != x && s[j] != x
    ensures |Without(s[..i], x)| < |Without(s[..j], x)| < |Without(s, x)|
    ensures Without(s, x)[|Without(s[..i], x)|] == s[i]
    ensures Without(s, x)[|Without(s[..j], x)|] == s[j]
  {
    WithoutSplit(s, x, i);
    WithoutSplit(s, x, j);
    WithoutSplit(s[..j], x, i);
    assert s[..j][..i] == s[..i];
  }

  lemma WithoutSplit<T(!new)>(s: seq<T>, x: T, i: nat)
    requires i < |s| && s[i] != x
    ensures Without(s, x) == Without(s[..i], x) + [s[i]] + Without(s[i + 1..], x)
  {
    assert s == s[..i] + s[i..];
    WithoutConcat(s[..i], s[i..], x);
    assert s[i..][0] == s[i] && s[i..][1..] == s[i + 1..];
  }

  lemma {:induction false} WithoutNoDup<T(!new)>(s: seq<T>, x: T)
    requires NoDup(s)
    ensures NoDup(Without(s, x))
  {
    if s != [] {
      WithoutNoDup(s[1..], x);
      assert s[0] !in s[1..];
    }
  }

  lemma AddFrontNoDup<T(!new)>(s: seq<T>, x: T)
    requires NoDup(s)
    ensures NoDup(AddFront(s, x))
  {
  }

  lemma AddFrontElements<T(!new)>(s: seq<T>, x: T)
    ensures Elements(AddFront(s, x)) == Elements(s) + {x}
  {
  }

  /** One after the other put in front, each once. */
  function Replayed<T(==)>(s: seq<T>): seq<T> {
    if s == [] then [] else AddFront(Replayed(s[..|s| - 1]), s[|s| - 1])
  }

  /** `x` occurs in `s` before `y` does. */
  ghost predicate Before<T(!new)>(s: seq<T>, x: T, y: T) {
    exists m :: 0 <= m < |s| && s[m] == x && y !in s[..m]
  }

  /** The elements of `s`, each once, in the reverse order of their first occurrences. */
  ghost predicate NewestFirst<T(!new)>(list: seq<T>, s: seq<T>) {
    NoDup(list) && Elements(list) == Elements(s) && forall i, j | 0 <= i < j < |list| :: Before(s, list[j], list[i])
  }

  lemma BeforeLonger<T(!new)>(s: seq<T>, n: nat, x: T, y: T)
    requires n <= |s| && Before(s[..n], x, y)
    ensures Before(s, x, y)
  {
    var m :| 0 <= m < n && s[..n][m] == x && y !in s[..n][..m];
    assert s[..n][..m] == s[..m];
  }

  lemma {:induction false} ReplayedNewestFirst<T(!new)>(s: seq<T>)
    ensures NewestFirst(Replayed(s), s)
  {
    if s != [] {
      var n := |s| - 1;
      var list, list' := Replayed(s[..n]), Replayed(s);
      ReplayedNewestFirst(s[..n]);
      AddFrontElements(list, s[n]);
      AddFrontNoDup(list, s[n]);
      assert s == s[..n] + [s[n]] && Elements(s) == Elements(s[..n]) + {s[n]};
      forall i, j | 0 <= i < j < |list'| ensures Before(s, list'[j], list'[i]) {
        if s[n] in list {
          BeforeLonger(s, n, list[j], list[i]);
        } else if i > 0 {
          BeforeLonger(s, n, list[j - 1], list[i - 1]);
        } else {
          assert list[j - 1] in Elements(list) && s[n] !in Elements(list);
          var m :| 0 <= m < n && s[m] == list[j - 1];
          assert s[n] !in s[..n] && s[..n][..m] == s[..m];
        }
      }
    }
  }

  lemma ReplayedTwo<T>(a: T, b: T)
    requires a != b
    ensures Replayed([a, b]) == [b, a]
  {
    assert [a][..0] == [] && [a] + [] == [a];
    assert Replayed([a]) == [a];
    assert [a, b][..1] == [a] && [b] + [a] == [b, a];
  }

  /** `it` is where a search for `x` stops. */
  lemma {:induction false} WithoutFirstAt<T(!new)>(s: seq<T>, x: T, it: nat)
    requires it <= |s| && (forall i | 0 <= i < it :: s[i] != x) && (it < |s| ==> s[it] == x)
    ensures WithoutFirst(s, x) == if it == |s| then s else s[..it] + s[it + 1..]
  {
    if it > 0 {
      WithoutFirstAt(s[1..], x, it - 1);
      assert s == [s[0]] + s[1..];
      assert it < |s| ==> s[..it] == [s[0]] + s[1..][..it - 1] && s[it + 1..] == s[1..][it..];
    }
  }

  /** In a duplicate-free list, dropping the first occurrence drops them all. */
  lemma {:induction false} WithoutFirstNoDup<T(!new)>(s: seq<T>, x: T)
    requires NoDup(s)
    ensures WithoutFirst(s, x) == Without(s, x)
  {
    if s != [] {
      if s[0] == x {
        WithoutAbsent(s[1..], x);
      } else {
        WithoutFirstNoDup(s[1..], x);
      }
    }
  }
}
