/**
 * Sequence operations that stand for the JavaScript array idioms the source uses:
 * `a.filter(x => x !== v)`, `if (!a.includes(v)) a.push(v)` and Set-like arrays.
 */
module Seqs {

  /** No element occurs twice. */
  predicate NoDup<T(==)>(s: seq<T>) {
    forall i, j :: 0 <= i < j < |s| ==> s[i] != s[j]
  }

  /** `s.filter(x => x !== v)`: every occurrence of `v` dropped, the rest kept in order. */
  function Without<T(==,!new)>(s: seq<T>, v: T): (r: seq<T>)
    ensures forall x :: x in r <==> x in s && x != v
    ensures |r| <= |s|
    ensures v !in s ==> r == s
  {
    if s == [] then []
    else if s[0] == v then Without(s[1..], v)
    else [s[0]] + Without(s[1..], v)
  }

  /** `if (!s.includes(v)) s.push(v)`: append `v` unless it is already there. */
  function PushNew<T(==,!new)>(s: seq<T>, v: T): (r: seq<T>)
    ensures forall x :: x in r <==> x in s || x == v
    ensures v in s ==> r == s
    ensures v !in s ==> r == s + [v]
  {
    if v in s then s else s + [v]
  }

  lemma {:induction false} WithoutKeepsNoDup<T(!new)>(s: seq<T>, v: T)
    requires NoDup(s)
    ensures NoDup(Without(s, v))
  {
    if s != [] {
      WithoutKeepsNoDup(s[1..], v);
      if s[0] != v {
        assert s[0] !in s[1..];
        assert s[0] !in Without(s[1..], v);
      }
    }
  }

  lemma PushNewKeepsNoDup<T(!new)>(s: seq<T>, v: T)
    requires NoDup(s)
    ensures NoDup(PushNew(s, v))
  {
  }

  /** Removing an element that occurs once and re-appending it puts it at the end. */
  lemma {:induction false} WithoutOfLast<T(!new)>(s: seq<T>, v: T)
    requires NoDup(s + [v])
    ensures Without(s + [v], v) == s
  {
    if s == [] {
    } else {
      assert (s + [v])[1..] == s[1..] + [v];
      assert NoDup(s[1..] + [v]) by {
        forall i, j | 0 <= i < j < |s[1..] + [v]|
          ensures (s[1..] + [v])[i] != (s[1..] + [v])[j]
        {
          assert (s[1..] + [v])[i] == (s + [v])[i + 1];
          assert (s[1..] + [v])[j] == (s + [v])[j + 1];
        }
      }
      WithoutOfLast(s[1..], v);
      assert s[0] != v by { assert (s + [v])[0] == s[0] && (s + [v])[|s|] == v; }
    }
  }

  /** The elements of a duplicate-free sequence are as many as its length. */
  lemma {:induction false} NoDupCard<T>(s: seq<T>)
    requires NoDup(s)
    ensures |(set x | x in s)| == |s|
  {
    if s != [] {
      assert NoDup(s[1..]) by {
        forall i, j | 0 <= i < j < |s[1..]| ensures s[1..][i] != s[1..][j] {
          assert s[1..][i] == s[i + 1] && s[1..][j] == s[j + 1];
        }
      }
      NoDupCard(s[1..]);
      assert (set x | x in s) == {s[0]} + (set x | x in s[1..]);
      assert s[0] !in s[1..];
    }
  }

  /** A sequence is its prefix, the element at `i` and its suffix, side by side. */
  lemma SplitAt<T>(s: seq<T>, i: nat)
    requires i < |s|
    ensures s == s[..i] + ([s[i]] + s[i + 1..])
  {
  }

  /** Concatenation regroups freely; the solver does not always find this by itself. */
  lemma AppendAssoc<T>(a: seq<T>, b: seq<T>, c: seq<T>)
    ensures (a + b) + c == a + (b + c)
  {
  }
}
