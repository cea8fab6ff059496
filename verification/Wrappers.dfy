/** What every module shares: result types, and the few laws the solver has to be told. */
module Wrappers {

  datatype Option<+T> = None | Some(value: T)

  /** The exceptions the library raises, as values. */
  datatype Error =
    | ValidationError    // an argument refused before anything is sent
    | ProtocolError      // bytes from the lock that do not parse

  datatype Result<+T> = Ok(value: T) | Err(error: Error) {
    predicate IsFailure() {
      Err?
    }
    function PropagateFailure<U>(): Result<U>
      requires Err?
    {
      Err(error)
    }
    function Extract(): T
      requires Ok?
    {
      value
    }
  }

  /** The result of an operation that has no value of its own. */
  datatype Outcome = Pass | Fail(error: Error) {
    predicate IsFailure() {
      Fail?
    }
    function PropagateFailure<U>(): Result<U>
      requires Fail?
    {
      Err(error)
    }
  }

  lemma Reassociate<T>(a: seq<T>, b: seq<T>, c: seq<T>)
    ensures a + (b + c) == a + b + c
  {
  }

  /** Two digits are compared from the front. */
  lemma TwoDigits(a: nat, i: nat, b: nat, j: nat, base: nat)
    requires i < base && j < base
    ensures a * base + i < b * base + j <==> a < b || (a == b && i < j)
  {
    if a < b {
      assert (a + 1) * base <= b * base;
    } else if b < a {
      assert (b + 1) * base <= a * base;
    }
  }

  lemma ThreeDigits(a: nat, i: nat, m: nat, b: nat, j: nat, n: nat, base: nat)
    requires i < base && m < base && j < base && n < base
    ensures (a * base + i) * base + m < (b * base + j) * base + n
            <==> a < b || (a == b && (i < j || (i == j && m < n)))
  {
    var x, y := a * base + i, b * base + j;
    TwoDigits(x, m, y, n, base);
    TwoDigits(a, i, b, j, base);
    TwoDigits(b, j, a, i, base);
  }
}
