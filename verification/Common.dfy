/** Names and small facts shared by the models. */
module Common {
  /** Milliseconds on a clock that is read, never set. */
  type Time = nat

  type JobId = string

  datatype Topic = Topic(name: string)

  datatype Option<T> = None | Some(value: T)

  function Bit(b: bool): nat {
    if b then 1 else 0
  }

  /** Counting the elements of `all` while working through `todo`. */
  lemma CountStep<T>(all: set<T>, todo: set<T>, x: T)
    requires x in todo
    ensures |all - (todo - {x})| == |all - todo| + Bit(x in all)
  {
    if x in all {
      assert all - (todo - {x}) == (all - todo) + {x};
    } else {
      assert all - (todo - {x}) == all - todo;
    }
  }

  lemma SubsetSize<T>(a: set<T>, b: set<T>)
    requires a <= b
    ensures |a| <= |b|
    ensures |a| == |b| ==> a == b
  {
    assert b == a + (b - a);
  }
}
