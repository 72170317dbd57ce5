/** The Python `list` operations the core relies on, stated over sequences. */
module Lists {

  /** `x in s` followed by `s.remove(x)`: removes the first element equal to `x`,
      and leaves the list as it is when there is none. */
  function RemoveFirst<T(==)>(s: seq<T>, x: T): (r: seq<T>)
    ensures x !in s ==> r == s
    ensures x in s ==> |r| == |s| - 1
  {
    if s == [] then []
    else
      assert s == [s[0]] + s[1..];
      if s[0] == x then s[1..] else [s[0]] + RemoveFirst(s[1..], x)
  }

  /** `remove` takes away exactly one copy of `x` when there is one, and nothing else. */
  lemma {:induction false} RemoveFirstMultiset<T>(s: seq<T>, x: T)
    ensures multiset(RemoveFirst(s, x)) == multiset(s) - multiset{x}
  {
    if s != [] {
      assert s == [s[0]] + s[1..];
      if s[0] != x {
        RemoveFirstMultiset(s[1..], x);
      }
    }
  }

  /** `s.index(x)`: the position of the first element equal to `x`. */
  function IndexOf<T(==)>(s: seq<T>, x: T): (i: nat)
    requires x in s
    ensures i < |s| && s[i] == x && x !in s[..i]
  {
    if s[0] == x then 0
    else
      assert x in s[1..] by { assert s == [s[0]] + s[1..]; }
      var j := IndexOf(s[1..], x);
      assert s[..j + 1] == [s[0]] + s[1..][..j];
      j + 1
  }

  /** `remove` cuts out exactly the element at the first matching position; everything
      before and after it keeps its relative order. */
  lemma {:induction false} RemoveFirstAt<T>(s: seq<T>, x: T)
    requires x in s
    ensures RemoveFirst(s, x) == s[..IndexOf(s, x)] + s[IndexOf(s, x) + 1..]
  {
    if s[0] != x {
      var t := s[1..];
      assert x in t by { assert s == [s[0]] + t; }
      var j := IndexOf(t, x);
      assert IndexOf(s, x) == j + 1;
      assert RemoveFirst(s, x) == [s[0]] + (t[..j] + t[j + 1..]) by { RemoveFirstAt(t, x); }
      assert [s[0]] + (t[..j] + t[j + 1..]) == s[..j + 1] + s[j + 2..] by {
        ConsSlices(s, j);
        AppendAssoc([s[0]], t[..j], t[j + 1..]);
      }
    }
  }

  /** Cutting a list after its head: the slices of the tail, shifted by one. */
  lemma ConsSlices<T>(s: seq<T>, j: nat)
    requires j + 1 < |s|
    ensures s[..j + 1] == [s[0]] + s[1..][..j]
    ensures s[j + 2..] == s[1..][j + 1..]
  {
  }

  /** When `x` already occurs in `s`, an element appended after it is not touched by the removal. */
  lemma {:induction false} RemoveFirstBeforeAppend<T>(s: seq<T>, x: T, y: T)
    requires x in s
    ensures RemoveFirst(s + [y], x) == RemoveFirst(s, x) + [y]
  {
    assert (s + [y])[0] == s[0];
    if s[0] != x {
      assert x in s[1..] by { assert s == [s[0]] + s[1..]; }
      assert (s + [y])[1..] == s[1..] + [y];
      RemoveFirstBeforeAppend(s[1..], x, y);
    } else {
      assert (s + [y])[1..] == s[1..] + [y];
    }
  }

  /** No element occurs twice. */
  predicate NoDuplicates<T(==)>(s: seq<T>) {
    forall i, j :: 0 <= i < j < |s| ==> s[i] != s[j]
  }

  /** Removing the first copy of the element just appended, when there was no earlier copy,
      gives back the list before the append. */
  lemma {:induction false} RemoveFirstOfFreshAppend<T>(s: seq<T>, x: T)
    requires x !in s
    ensures RemoveFirst(s + [x], x) == s
  {
    if s != [] {
      assert (s + [x])[1..] == s[1..] + [x];
      RemoveFirstOfFreshAppend(s[1..], x);
    }
  }

  /** Removing an element from a duplicate-free list keeps it duplicate-free. */
  lemma RemoveFirstNoDuplicates<T>(s: seq<T>, x: T)
    requires NoDuplicates(s)
    ensures NoDuplicates(RemoveFirst(s, x))
  {
    if x in s {
      var i := IndexOf(s, x);
      RemoveFirstAt(s, x);
      var r := s[..i] + s[i + 1..];
      forall a, b | 0 <= a < b < |r| ensures r[a] != r[b] {
        var a', b' := if a < i then a else a + 1, if b < i then b else b + 1;
        assert r[a] == s[a'] && r[b] == s[b'] && a' < b';
      }
    }
  }

  /** Removing an element from a duplicate-free list drops exactly that element. */
  lemma RemoveFirstMembers<T>(s: seq<T>, x: T, y: T)
    requires NoDuplicates(s)
    ensures y in RemoveFirst(s, x) <==> y in s && y != x
  {
    var r := RemoveFirst(s, x);
    if y != x {
      RemoveFirstMultiset(s, x);
      assert multiset(r)[y] == multiset(s)[y];
      assert y in r <==> y in multiset(r);
    } else if x in s {
      var i := IndexOf(s, x);
      RemoveFirstAt(s, x);
      assert x !in s[i + 1..] by {
        forall k | i + 1 <= k < |s| ensures s[k] != x { assert s[i] == x; }
      }
    }
  }

  /** Concatenation is associative. */
  lemma AppendAssoc<T>(a: seq<T>, b: seq<T>, c: seq<T>)
    ensures (a + b) + c == a + (b + c)
  {
  }

  /** Two appends in a row are one append of both parts. */
  lemma AppendStep<T>(a0: seq<T>, a1: seq<T>, a2: seq<T>, x: seq<T>, y: seq<T>)
    requires a1 == a0 + x && a2 == a1 + y
    ensures a2 == a0 + (x + y)
  {
    AppendAssoc(a0, x, y);
  }

  /** A prefix one longer is the prefix followed by the next element. */
  lemma PrefixSnoc<T>(s: seq<T>, k: nat)
    requires k < |s|
    ensures s[..k + 1] == s[..k] + [s[k]]
    ensures s[..k + 1][..k] == s[..k]
  {
  }

  /** The distinct elements of a list are at most as many as its entries, and exactly as
      many when no element occurs twice. */
  lemma {:induction false} ElementCount<T>(s: seq<T>)
    ensures |Elements(s)| <= |s|
    ensures |Elements(s)| == |s| <==> NoDuplicates(s)
  {
    if s != [] {
      var init, last := s[..|s| - 1], s[|s| - 1];
      ElementCount(init);
      assert s == init + [last];
      assert Elements(s) == Elements(init) + {last};
      if last in init {
        var k := IndexOf(init, last);
        assert s[k] == s[|s| - 1];
      } else {
        assert NoDuplicates(s) <==> NoDuplicates(init) by {
          if NoDuplicates(init) {
            forall i, j | 0 <= i < j < |s| ensures s[i] != s[j] {
              if j == |s| - 1 {
                assert s[i] == init[i];
              } else {
                assert s[i] == init[i] && s[j] == init[j];
              }
            }
          }
          if NoDuplicates(s) {
            forall i, j | 0 <= i < j < |init| ensures init[i] != init[j] {
              assert s[i] == init[i] && s[j] == init[j];
            }
          }
        }
      }
    }
  }

  /** The set of the elements of a list: Python's `set(s)`. */
  function Elements<T(==)>(s: seq<T>): set<T> {
    set x | x in s
  }
}
