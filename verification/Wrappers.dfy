/** Failure-carrying results and small sequence vocabulary shared by every other module. */
module Wrappers {
  datatype Option<+T> = None | Some(value: T)

  /** The source raises; the model returns the exception's kind. */
  datatype Fault = BadWatermark | OutOfRange | KindMismatch | UploadFailed | CursorFailed | CommitFailed

  datatype Result<+T> = Ok(value: T) | Err(fault: Fault)

  /** How one collection or log source fared in a run. */
  datatype Status = StatusOk | StatusFailed | StatusEmpty

  datatype UnitResult = UnitResult(name: string, status: Status, docs: nat)

  lemma {:induction false} Assoc<T>(a: seq<T>, b: seq<T>, c: seq<T>)
    ensures a + (b + c) == (a + b) + c
  {}

  function Flatten<T>(parts: seq<seq<T>>): seq<T> {
    if parts == [] then [] else parts[0] + Flatten(parts[1..])
  }

  lemma {:induction false} FlattenAppend<T>(a: seq<seq<T>>, b: seq<seq<T>>)
    ensures Flatten(a + b) == Flatten(a) + Flatten(b)
  {
    if a == [] {
      assert a + b == b;
    } else {
      FlattenAppend(a[1..], b);
      assert (a + b)[1..] == a[1..] + b;
      Assoc(a[0], Flatten(a[1..]), Flatten(b));
    }
  }

  lemma {:induction false} FlattenSnoc<T>(a: seq<seq<T>>, x: seq<T>)
    ensures Flatten(a + [x]) == Flatten(a) + x
  {
    FlattenAppend(a, [x]);
    assert [x][1..] == [];
  }

  /** Lexicographic order, the one Python uses on `str` and `bytes`. */
  predicate LexLess(a: seq<int>, b: seq<int>) {
    b != [] && (a == [] || a[0] < b[0] || (a[0] == b[0] && LexLess(a[1..], b[1..])))
  }

  /** On equal-length sequences the first difference decides. */
  lemma {:induction false} LexLessAppend(a: seq<int>, b: seq<int>, c: seq<int>, d: seq<int>)
    requires |a| == |b|
    ensures LexLess(a + c, b + d) <==> (LexLess(a, b) || (a == b && LexLess(c, d)))
  {
    if a == [] {
      assert a + c == c && b + d == d;
    } else {
      LexLessAppend(a[1..], b[1..], c, d);
      assert (a + c)[1..] == a[1..] + c && (b + d)[1..] == b[1..] + d;
      assert a == b <==> (a[0] == b[0] && a[1..] == b[1..]) by {
        assert a == [a[0]] + a[1..] && b == [b[0]] + b[1..];
      }
    }
  }
}
