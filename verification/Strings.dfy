/** The order in which the C++ library compares strings, and sorting by it. */
module Strings {
  /** Strings compare character by character, a prefix before its extensions. */
  predicate Precedes(a: string, b: string)
    decreases |a|
  {
    b != [] && (a == [] || a[0] < b[0] || (a[0] == b[0] && Precedes(a[1..], b[1..])))
  }

  lemma {:induction false} PrecedesTotal(a: string, b: string)
    ensures Precedes(a, b) || Precedes(b, a) || a == b
    ensures !(Precedes(a, b) && Precedes(b, a)) && !Precedes(a, a)
    decreases |a|
  {
    if a != [] {
      PrecedesTotal(a[1..], a[1..]);
    }
    if a != [] && b != [] && a[0] == b[0] {
      PrecedesTotal(a[1..], b[1..]);
      if a[1..] == b[1..] {
        assert a == [a[0]] + a[1..] && b == [b[0]] + b[1..];
      }
    }
  }

  lemma {:induction false} PrecedesTransitive(a: string, b: string, c: string)
    requires Precedes(a, b) && Precedes(b, c)
    ensures Precedes(a, c)
    decreases |a|
  {
    if a != [] && a[0] == b[0] && b[0] == c[0] {
      PrecedesTransitive(a[1..], b[1..], c[1..]);
    }
  }

  predicate Sorted(s: seq<string>) {
    forall i, j | 0 <= i < j < |s| :: !Precedes(s[j], s[i])
  }

  function Inserted(s: seq<string>, x: string): (r: seq<string>)
    ensures multiset(r) == multiset(s) + multiset{x}
  {
    if s == [] || !Precedes(s[0], x) then [x] + s
    else
      assert s == [s[0]] + s[1..];
      [s[0]] + Inserted(s[1..], x)
  }

  function Sort(s: seq<string>): (r: seq<string>)
    ensures multiset(r) == multiset(s)
  {
    if s == [] then [] else
      assert s == s[..|s| - 1] + [s[|s| - 1]];
      Inserted(Sort(s[..|s| - 1]), s[|s| - 1])
  }

  lemma SameMembers(s: seq<string>, x: string)
    ensures x in Sort(s) <==> x in s
  {
    assert x in Sort(s) <==> x in multiset(Sort(s));
    assert x in s <==> x in multiset(s);
  }

  /** Nothing in the rest precedes the head. */
  lemma NotAfter(a: string, b: string, c: string)
    requires !Precedes(b, a) && !Precedes(c, b)
    ensures !Precedes(c, a)
  {
    PrecedesTotal(a, b);
    PrecedesTotal(b, c);
    PrecedesTotal(a, c);
    if Precedes(c, a) && Precedes(a, b) {
      PrecedesTransitive(c, a, b);
    }
  }

  lemma SortedCons(a: string, s: seq<string>)
    requires Sorted(s) && forall i | 0 <= i < |s| :: !Precedes(s[i], a)
    ensures Sorted([a] + s)
  {
  }

  lemma {:induction false} InsertedSorted(s: seq<string>, x: string)
    requires Sorted(s)
    ensures Sorted(Inserted(s, x))
  {
    if s == [] || !Precedes(s[0], x) {
      forall i | 0 <= i < |s| ensures !Precedes(s[i], x) {
        if i > 0 {
          NotAfter(x, s[0], s[i]);
        }
      }
      SortedCons(x, s);
    } else {
      var r := Inserted(s[1..], x);
      InsertedSorted(s[1..], x);
      PrecedesTotal(s[0], x);
      forall i | 0 <= i < |r| ensures !Precedes(r[i], s[0]) {
        assert r[i] in multiset(r);
        assert r[i] == x || r[i] in s[1..];
      }
      SortedCons(s[0], r);
    }
  }

  lemma {:induction false} SortIsSorted(s: seq<string>)
    ensures Sorted(Sort(s))
  {
    if s != [] {
      SortIsSorted(s[..|s| - 1]);
      InsertedSorted(Sort(s[..|s| - 1]), s[|s| - 1]);
    }
  }
}
