/** What several modules share. */
module Wrappers {

  datatype Option<+T> = None | Some(value: T)
}

module Verdicts {

  /** The decision that lets a step run, in the queue and in the agent. */
  const APPROVE := "approve"
}

module Finite {

  function Elems(s: seq<string>): set<string> {
    set k | k in s
  }

  lemma {:induction false} SubsetSize<T>(a: set<T>, b: set<T>)
    requires a <= b
    ensures |a| <= |b|
  {
    if a != {} {
      var x :| x in a;
      SubsetSize(a - {x}, b - {x});
    }
  }
}

module RealArithmetic {

  function Max(a: real, b: real): real {
    if a >= b then a else b
  }

  lemma QuotientIs(x: real, y: real, z: real)
    requires z != 0.0 && x * z == y
    ensures x == y / z
  {
  }
}
