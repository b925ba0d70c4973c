/** The order of Go's sort.Strings on names, and sorting by it. */
module StringOrder {
  import opened Common
  import opened Graph

  predicate Leq(a: Name, b: Name) {
    a == "" || (b != "" && (a[0] < b[0] || (a[0] == b[0] && Leq(a[1..], b[1..]))))
  }

  lemma {:induction false} LeqTotal(a: Name, b: Name)
    ensures Leq(a, b) || Leq(b, a)
  {
    if a != "" && b != "" && a[0] == b[0] {
      LeqTotal(a[1..], b[1..]);
    }
  }

  lemma {:induction false} LeqAntisymmetric(a: Name, b: Name)
    requires Leq(a, b) && Leq(b, a)
    ensures a == b
  {
    if a != "" && b != "" {
      LeqAntisymmetric(a[1..], b[1..]);
      assert a == [a[0]] + a[1..] && b == [b[0]] + b[1..];
    }
  }

  lemma {:induction false} LeqTransitive(a: Name, b: Name, c: Name)
    requires Leq(a, b) && Leq(b, c)
    ensures Leq(a, c)
  {
    if a != "" && b != "" && a[0] == b[0] == c[0] {
      LeqTransitive(a[1..], b[1..], c[1..]);
    }
  }

  ghost predicate Sorted(s: seq<Name>) {
    forall i, j :: 0 <= i < j < |s| ==> Leq(s[i], s[j])
  }

  function Insert(s: seq<Name>, x: Name): (r: seq<Name>)
    ensures forall n :: n in r <==> n in s || n == x
  {
    if s == [] then [x]
    else if Leq(x, s[0]) then [x] + s
    else
      assert s == [s[0]] + s[1..];
      [s[0]] + Insert(s[1..], x)
  }

  lemma {:induction false} InsertSorted(s: seq<Name>, x: Name)
    requires Sorted(s)
    ensures Sorted(Insert(s, x))
  {
    if s != [] {
      LeqTotal(x, s[0]);
      hide Leq;
      if Leq(x, s[0]) {
        forall j | 0 <= j < |s| ensures Leq(x, s[j]) {
          if j > 0 { LeqTransitive(x, s[0], s[j]); }
        }
      } else {
        InsertSorted(s[1..], x);
        var rest := Insert(s[1..], x);
        forall j | 0 <= j < |rest| ensures Leq(s[0], rest[j]) {
          assert rest[j] in rest;
        }
      }
    }
  }

  lemma {:induction false} InsertDistinct(s: seq<Name>, x: Name)
    requires Distinct(s) && x !in s
    ensures Distinct(Insert(s, x))
  {
    hide Leq;
    if s != [] && !Leq(x, s[0]) {
      InsertDistinct(s[1..], x);
      assert s[0] !in s[1..];
    }
  }

  /** sort.Strings. */
  method SortStrings(s: seq<Name>) returns (r: seq<Name>)
    ensures Sorted(r) && forall n :: n in r <==> n in s
    ensures Distinct(s) ==> Distinct(r)
  {
    r := [];
    for i := 0 to |s|
      invariant Sorted(r) && forall n :: n in r <==> n in s[..i]
      invariant Distinct(s) ==> Distinct(r)
    {
      InsertSorted(r, s[i]);
      if Distinct(s) { InsertDistinct(r, s[i]); }
      assert s[..i + 1] == s[..i] + [s[i]];
      r := Insert(r, s[i]);
    }
    assert s[..|s|] == s;
  }
}
