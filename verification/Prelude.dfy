// Shared vocabulary: optional values, fallible results, raw bytes.
module Prelude {
  datatype Option<+T> = None | Some(value: T)

  datatype Result<+T, +E> = Ok(value: T) | Err(error: E)

  newtype byte = x: int | 0 <= x < 256

  type Bytes = seq<byte>

  // A subset is no larger.
  lemma {:induction false} SubsetSize<T>(a: set<T>, b: set<T>)
    requires a <= b
    ensures |a| <= |b|
    decreases a
  {
    if a != {} {
      var x :| x in a;
      SubsetSize(a - {x}, b - {x});
    }
  }

  predicate IsLeast(ids: set<int>, m: int) { m in ids && forall x :: x in ids ==> m <= x }

  lemma Pick<T>(a: set<T>) returns (x: T)
    requires a != {}
    ensures x in a
  {
    x :| x in a;
  }

  // Below any member of a finite set of integers there is a least one.
  lemma {:induction false} HasLeast(ids: set<int>, x: int)
    requires x in ids
    ensures exists m :: m in ids && IsLeast(ids, m)
    decreases |ids|
  {
    if y :| y in ids && y < x {
      var lower := set z | z in ids && z < x;
      assert lower <= ids - {x};
      SubsetSize(lower, ids - {x});
      HasLeast(lower, y);
      var m :| m in lower && IsLeast(lower, m);
      forall z | z in ids
        ensures m <= z
      {
        if z < x { assert z in lower; }
      }
      assert IsLeast(ids, m);
    } else {
      assert IsLeast(ids, x);
    }
  }

  lemma NonEmptyHasLeast(ids: set<int>)
    requires ids != {}
    ensures exists m :: m in ids && IsLeast(ids, m)
  {
    var x := Pick(ids);
    HasLeast(ids, x);
  }

  // The lowest of a set of ids.
  function FirstId(ids: set<int>): (r: Option<int>)
    ensures r.None? <==> ids == {}
    ensures r.Some? ==> IsLeast(ids, r.value)
  {
    if ids == {} then None
    else
      NonEmptyHasLeast(ids);
      var m :| m in ids && IsLeast(ids, m);
      Some(m)
  }
}
