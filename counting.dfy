/** How many positions of a sequence hold a given value; used for "exactly one is marked" facts. */
module Counting {

  function Occurrences<T(==)>(s: seq<T>, x: T): (k: nat)
    ensures k <= |s|
    ensures k == 0 <==> x !in s
  {
    if s == [] then 0 else (if s[0] == x then 1 else 0) + Occurrences(s[1..], x)
  }

  predicate Distinct<T(==)>(s: seq<T>) {
    forall i, j :: 0 <= i < j < |s| ==> s[i] != s[j]
  }

  /** In a sequence without repetitions every value occurs at most once. */
  lemma {:induction false} OccurrencesOfDistinct<T>(s: seq<T>, x: T)
    requires Distinct(s)
    ensures Occurrences(s, x) == if x in s then 1 else 0
  {
    if s != [] {
      OccurrencesOfDistinct(s[1..], x);
      if s[0] == x {
        assert x !in s[1..] by {
          forall i | 0 <= i < |s[1..]| ensures s[1..][i] != x {
            assert s[0] != s[i + 1];
          }
        }
      }
    }
  }

  /** Counting over a concatenation adds the counts of the parts. */
  lemma {:induction false} OccurrencesAppend<T>(a: seq<T>, b: seq<T>, x: T)
    ensures Occurrences(a + b, x) == Occurrences(a, x) + Occurrences(b, x)
  {
    if a == [] {
      assert a + b == b;
    } else {
      assert (a + b)[0] == a[0];
      assert (a + b)[1..] == a[1..] + b;
      OccurrencesAppend(a[1..], b, x);
    }
  }

  /** For each position of `s`, whether it holds `x`. */
  function Marks<T(==)>(s: seq<T>, x: T): (m: seq<bool>)
    ensures |m| == |s|
    ensures forall i :: 0 <= i < |s| ==> (m[i] <==> s[i] == x)
  {
    seq(|s|, i requires 0 <= i < |s| => s[i] == x)
  }

  /** The positions marked are as many as the occurrences of the value. */
  lemma {:induction false} MarksCount<T>(s: seq<T>, x: T)
    ensures CountTrue(Marks(s, x)) == Occurrences(s, x)
  {
    if s != [] {
      MarksCount(s[1..], x);
      assert Marks(s, x)[1..] == Marks(s[1..], x);
    }
  }

  /** How many of the booleans are true. */
  function CountTrue(s: seq<bool>): (k: nat)
    ensures k <= |s|
  {
    Occurrences(s, true)
  }
}
