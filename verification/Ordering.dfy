/** Byte order of strings and the two sorts the routing code relies on. */
module Ordering {

  /** Lexicographic order. */
  predicate Leq(a: string, b: string) {
    if a == [] then true
    else if b == [] then false
    else a[0] < b[0] || (a[0] == b[0] && Leq(a[1..], b[1..]))
  }

  lemma LeqReflexive(a: string)
    ensures Leq(a, a)
  {
  }

  lemma LeqTotal(a: string, b: string)
    ensures Leq(a, b) || Leq(b, a)
  {
  }

  lemma LeqAntisymmetric(a: string, b: string)
    requires Leq(a, b) && Leq(b, a)
    ensures a == b
  {
    if a != [] && b != [] {
      LeqAntisymmetric(a[1..], b[1..]);
      assert a == [a[0]] + a[1..] && b == [b[0]] + b[1..];
    }
  }

  lemma LeqTransitive(a: string, b: string, c: string)
    requires Leq(a, b) && Leq(b, c)
    ensures Leq(a, c)
  {
  }

  lemma LeastExists(s: set<string>)
    requires s != {}
    ensures exists x :: x in s && forall y :: y in s ==> Leq(x, y)
  {
    var x :| x in s;
    if s == {x} {
      LeqReflexive(x);
    } else {
      var rest := s - {x};
      assert s == {x} + rest;
      LeastExists(rest);
      var m :| m in rest && forall y :: y in rest ==> Leq(m, y);
      LeqTotal(x, m);
      var least := if Leq(x, m) then x else m;
      forall y | y in s
        ensures Leq(least, y)
      {
        LeqReflexive(x);
        if y != x && least == x {
          LeqTransitive(x, m, y);
        }
      }
    }
  }

  function Least(s: set<string>): (x: string)
    requires s != {}
    ensures x in s && forall y :: y in s ==> Leq(x, y)
  {
    LeastExists(s);
    assert forall x, y :: (x in s && (forall z :: z in s ==> Leq(x, z))) && (y in s && (forall z :: z in s ==> Leq(y, z))) ==> x == y by {
      forall x, y | (x in s && (forall z :: z in s ==> Leq(x, z))) && (y in s && (forall z :: z in s ==> Leq(y, z)))
        ensures x == y
      {
        LeqAntisymmetric(x, y);
      }
    }
    var x :| x in s && forall y :: y in s ==> Leq(x, y);
    x
  }

  /** The elements of a set (the keys of a map) in ascending order, as `sort.Strings` leaves them. */
  function Sorted(s: set<string>): (r: seq<string>)
    ensures forall x :: x in r <==> x in s
    ensures forall i, j :: 0 <= i < j < |r| ==> r[i] != r[j]
    ensures forall i, j :: 0 <= i < j < |r| ==> Leq(r[i], r[j])
    decreases |s|
  {
    if s == {} then []
    else
      var x := Least(s);
      [x] + Sorted(s - {x})
  }

  lemma {:induction false} SortedSize(s: set<string>)
    ensures |Sorted(s)| == |s|
    decreases |s|
  {
    if s != {} {
      SortedSize(s - {Least(s)});
    }
  }

  /** Stable insertion of a string into an ascending sequence. */
  function InsertString(x: string, s: seq<string>): (r: seq<string>)
    ensures multiset(r) == multiset(s) + multiset{x}
    ensures forall y :: y in r <==> y == x || y in s
  {
    if s == [] then [x]
    else if Leq(x, s[0]) then
      assert [s[0]] + s[1..] == s;
      [x] + s
    else
      assert [s[0]] + s[1..] == s;
      [s[0]] + InsertString(x, s[1..])
  }

  /** `sort.Strings` on a list that may repeat values. */
  function SortStrings(s: seq<string>): (r: seq<string>)
    ensures multiset(r) == multiset(s)
    ensures forall y :: y in r <==> y in s
  {
    if s == [] then []
    else
      assert [s[0]] + s[1..] == s;
      InsertString(s[0], SortStrings(s[1..]))
  }
}
