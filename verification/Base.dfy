/** Small sequence and set vocabulary shared by all modules. */
module Base {
  datatype Option<+T> = None | Some(value: T)

  function Last<T>(s: seq<T>): T
    requires s != []
  {
    s[|s| - 1]
  }

  ghost predicate Distinct<T>(s: seq<T>) {
    forall i, j | 0 <= i < j < |s| :: s[i] != s[j]
  }

  /** No element is repeated at the very next position. */
  ghost predicate NoStutter<T>(s: seq<T>) {
    forall i | 0 < i < |s| :: s[i - 1] != s[i]
  }

  function ToSet<T>(s: seq<T>): set<T> {
    set x | x in s
  }

  /** Only a cue: a definition guarded by it is unfolded where it is asserted. */
  ghost predicate Shown<T>(x: T) {
    true
  }

  lemma {:induction false} DistinctSize<T>(s: seq<T>)
    requires Distinct(s)
    ensures |ToSet(s)| == |s|
  {
    if s == [] {
    } else {
      var front := s[..|s| - 1];
      DistinctSize(front);
      assert s == front + [Last(s)];
      assert ToSet(s) == ToSet(front) + {Last(s)};
    }
  }

  lemma SubsetSize<T>(a: set<T>, b: set<T>)
    requires a <= b
    ensures |a| <= |b|
    ensures |a| == |b| ==> a == b
  {
    assert b == (b - a) + a;
  }

  /** A repetition-free sequence over `e` that is as long as `e` is large visits all of `e`. */
  lemma DistinctCovers<T>(s: seq<T>, e: set<T>)
    requires Distinct(s) && ToSet(s) <= e
    ensures |s| <= |e|
    ensures |s| == |e| ==> ToSet(s) == e
  {
    DistinctSize(s);
    SubsetSize(ToSet(s), e);
  }
}
