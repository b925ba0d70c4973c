/** Datatypes shared by every module of the model. */
module Common {
  type Name = string

  datatype Option<+T> = None | Some(value: T)

  /** Go's `(value, error)` pair: exactly one side is meaningful. */
  datatype Result<+T, +E> = Ok(value: T) | Err(error: E)

  ghost predicate Distinct<T>(s: seq<T>) {
    forall i, j :: 0 <= i < j < |s| ==> s[i] != s[j]
  }

  lemma DistinctAppend<T>(s: seq<T>, n: T)
    requires Distinct(s) && n !in s
    ensures Distinct(s + [n])
  {
  }

  lemma DistinctConcat<T>(s: seq<T>, t: seq<T>)
    requires Distinct(s) && Distinct(t) && forall n :: n in s ==> n !in t
    ensures Distinct(s + t)
  {
    forall i, j | 0 <= i < j < |s + t| ensures (s + t)[i] != (s + t)[j] {
      if i < |s| <= j { assert s[i] in s && t[j - |s|] in t; }
    }
  }

  /** The elements of a set in any order, as iterating a map gives them. */
  method Enumerate<T(==)>(s: set<T>) returns (r: seq<T>)
    ensures Distinct(r) && forall n :: n in r <==> n in s
  {
    r := [];
    var left := s;
    while left != {}
      invariant left <= s && Distinct(r) && forall n :: n in r <==> n in s - left
      decreases left
    {
      var n :| n in left;
      DistinctAppend(r, n);
      r, left := r + [n], left - {n};
    }
  }
}
