/** Small shared vocabulary: an optional value and facts about finite sets. */
module Prelude {

  datatype Option<+T> = None | Some(value: T)

  function Max(a: int, b: int): int {
    if a < b then b else a
  }

  lemma {:induction false} SubsetSize<T>(a: set<T>, b: set<T>)
    requires a <= b
    ensures |a| <= |b|
  {
    if a != {} {
      var x :| x in a;
      SubsetSize(a - {x}, b - {x});
    }
  }

  /** Counting a set off element by element. */
  lemma OneMore<T>(s: set<T>, rest: set<T>, x: T)
    requires x in rest
    ensures |s - (rest - {x})| == |s - rest| + (if x in s then 1 else 0)
  {
    assert s - (rest - {x}) == (s - rest) + (if x in s then {x} else {});
  }
}
