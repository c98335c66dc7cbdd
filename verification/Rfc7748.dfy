/** The X25519 function as section 5 of RFC 7748 defines it, on integers modulo p. */
module Rfc7748 {
  import opened ModArith
  import opened Powers
  import opened Limbs

  const A24: int := 121665

  datatype State = State(x2: int, z2: int, x3: int, z3: int)

  /** The body of the RFC's loop, after the conditional swap. */
  function Step(u: int, s: State): State {
    var a, b := Add(s.x2, s.z2), Sub(s.x2, s.z2);
    var aa, bb := Mul(a, a), Mul(b, b);
    var e := Sub(aa, bb);
    var da, cb := Mul(Sub(s.x3, s.z3), a), Mul(Add(s.x3, s.z3), b);
    State(
      Mul(aa, bb),
      Mul(e, Add(aa, Mul(A24, e))),
      Mul(Add(da, cb), Add(da, cb)),
      Mul(u, Mul(Sub(da, cb), Sub(da, cb))))
  }

  function CSwap(swap: int, s: State): State {
    if swap == 1 then State(s.x3, s.z3, s.x2, s.z2) else s
  }

  /** (k >> t) & 1. */
  function Bit(k: nat, t: nat): (b: nat)
    ensures b == 0 || b == 1
  {
    Pow2Positive(t);
    (k / Pow2(t)) % 2
  }

  type StepFn = (int, State) -> State

  /** The RFC's loop: bits t-1, ..., 0 remain and `swap` is the bit processed last. */
  function Loop(f: StepFn, bit: nat -> int, u: int, t: nat, s: State, swap: int): State
    decreases t
  {
    if t == 0 then CSwap(swap, s)
    else
      var kt := bit(t - 1);
      Loop(f, bit, u, t - 1, f(u, CSwap((swap + kt) % 2, s)), kt)
  }

  function Start(u: int): State { State(1, 0, u, 1) }

  function Scalar(k: nat): nat -> int { (t: nat) => Bit(k, t) }

  /** The u-coordinate of k times the point with u-coordinate u, with `bits` ladder steps. */
  function X25519(bits: nat, k: nat, u: int): nat {
    var s := Loop(Step, Scalar(k), u, bits, Start(u), 0);
    Mul(s.x2, Pow(s.z2, P - 2))
  }

  /* ---- swapping back after every step is the same ---- */

  function Eager(f: StepFn, bit: nat -> int, u: int, t: nat, s: State): State
    decreases t
  {
    if t == 0 then s
    else
      var kt := bit(t - 1);
      Eager(f, bit, u, t - 1, CSwap(kt, f(u, CSwap(kt, s))))
  }

  lemma {:induction false} LazyIsEager(f: StepFn, bit: nat -> int, u: int, t: nat, s: State, swap: int)
    requires swap == 0 || swap == 1
    requires forall i :: 0 <= i < t ==> bit(i) == 0 || bit(i) == 1
    ensures Loop(f, bit, u, t, s, swap) == Eager(f, bit, u, t, CSwap(swap, s))
    decreases t
  {
    if t > 0 {
      var kt := bit(t - 1);
      assert CSwap((swap + kt) % 2, s) == CSwap(kt, CSwap(swap, s));
      LazyIsEager(f, bit, u, t - 1, f(u, CSwap((swap + kt) % 2, s)), kt);
    }
  }
}
