// Value types shared by every component (core/models.py, providers/base.py), and the few
// sequence facts that several proofs need.

module Models {

  datatype Option<+T> = None | Some(value: T)

  datatype FailureClass =
    | Success
    | Throttled
    | Transient
    | InvalidInput
    | FatalAuth
    | FatalBilling
    | TransientExhausted
    | Cancelled

  predicate IsFatal(k: FailureClass) {
    k == FatalAuth || k == FatalBilling
  }

  /** The classes that may label a row of the result file: never success, and never a
      class that only means "try again". */
  predicate IsTerminalFailure(k: FailureClass) {
    k != Success && k != Throttled && k != Transient
  }

  /** What a provider call produced. Any exception it raised is a `TransportError`, which is
      what the worker turns it into. `resetEpoch` is the parsed reset header, 0.0 when the
      header is absent or unreadable. */
  datatype Reply =
    | Response(status: int, malformed: bool, inputTokens: int, outputTokens: int, resetEpoch: real)
    | TransportError

  function Min(a: int, b: int): int { if a < b then a else b }
  function Max(a: int, b: int): int { if a < b then b else a }
  function MinReal(a: real, b: real): real { if a < b then a else b }
  function MaxReal(a: real, b: real): real { if a < b then b else a }

  /** The last `n` elements of `s`, or all of `s` when it is shorter. */
  function LastN<T>(s: seq<T>, n: nat): (r: seq<T>)
    ensures |r| == Min(|s|, n) && forall i :: 0 <= i < |r| ==> r[i] == s[|s| - |r| + i]
  {
    if |s| <= n then s else s[|s| - n..]
  }

  function Last<T>(s: seq<T>): T
    requires s != []
  {
    s[|s| - 1]
  }

  function Front<T>(s: seq<T>): seq<T>
    requires s != []
  {
    s[..|s| - 1]
  }

  /** The product of two reals, under a name that proofs can treat as a black box. */
  function Mul(a: real, b: real): real { a * b }

  lemma MulMono(a: real, b: real, k: real)
    requires a <= b && 0.0 <= k
    ensures Mul(a, k) <= Mul(b, k)
  {
  }

  lemma MulStrict(a: real, b: real, k: real)
    requires a < b && 0.0 < k
    ensures Mul(a, k) < Mul(b, k)
  {
  }

  lemma MulAdd(a: real, b: real, k: real)
    ensures Mul(a + b, k) == Mul(a, k) + Mul(b, k)
  {
  }

  lemma MulUnits(a: real)
    ensures Mul(0.0, a) == 0.0 && Mul(1.0, a) == a
  {
  }

  lemma MulDiv(x: real, k: real)
    requires 0.0 < k
    ensures Mul(x / k, k) == x
  {
  }

  lemma MulSwap(a: real, b: real, c: real)
    ensures Mul(a, Mul(b, c)) == Mul(Mul(a, b), c) && Mul(a, b) == Mul(b, a)
  {
  }
}
