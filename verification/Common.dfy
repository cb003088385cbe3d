/** Types shared by every component of the model. */
module Common {

  type AccountId = string

  type byte = x: int | 0 <= x < 256

  const U32_SIZE: nat := 0x1_0000_0000
  const U64_MAX: nat := 0xFFFF_FFFF_FFFF_FFFF

  datatype Option<+T> = None | Some(value: T)

  /** A call's result. A contract call that ends in `Err` is reverted as a whole. */
  datatype Result<+T, +E> = Ok(value: T) | Err(error: E) {
    predicate IsFailure() { Err? }
    function PropagateFailure<U>(): Result<U, E>
      requires Err?
    { Err(error) }
    function Extract(): T
      requires Ok?
    { value }
  }

  datatype Unit = Unit

  ghost predicate Injective<T>(s: seq<T>) {
    forall i, j :: 0 <= i < j < |s| ==> s[i] != s[j]
  }

  function Elements<T>(s: seq<T>): set<T> {
    set x | x in s
  }

  /** The elements of a sequence are as many as its length exactly when none repeats. */
  lemma {:induction false} CardinalityIsLength<T>(s: seq<T>)
    ensures |Elements(s)| <= |s|
    ensures |Elements(s)| == |s| <==> Injective(s)
  {
    if s != [] {
      var last := |s| - 1;
      var rest := s[..last];
      assert s == rest + [s[last]];
      CardinalityIsLength(rest);
      assert Elements(s) == Elements(rest) + {s[last]};
      if s[last] in rest {
        assert Elements(s) == Elements(rest);
        var i :| 0 <= i < |rest| && rest[i] == s[last];
        assert s[i] == s[last];
      } else {
        assert Injective(rest) ==> Injective(s);
        if Injective(s) {
          forall i, j | 0 <= i < j < |rest| ensures rest[i] != rest[j] { assert s[i] != s[j]; }
        }
      }
    }
  }

  lemma SubsetCardinality<T>(a: set<T>, b: set<T>)
    requires a <= b
    ensures |a| <= |b|
    ensures |a| == |b| ==> a == b
  {
    assert b == a + (b - a);
  }

  /** A larger set has an element that a smaller one misses. */
  lemma Missed<T>(larger: set<T>, smaller: set<T>) returns (x: T)
    requires |smaller| < |larger|
    ensures x in larger && x !in smaller
  {
    if larger <= smaller {
      SubsetCardinality(larger, smaller);
    }
    x :| x in larger && x !in smaller;
  }
}
