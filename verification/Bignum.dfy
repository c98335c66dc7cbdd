/** The libtommath calls the signature code makes, by their mathematical meaning, and the
    outcomes of a verification. */
module Bignum {
  import opened ModArith
  import opened Bytes

  const SHA1_HASH_SIZE: nat := 20

  /** `Halt` is `dropbear_exit` or a failed `dropbear_assert`. */
  datatype Verdict = Accept | Reject | Halt

  function ExptMod(b: nat, e: nat, m: nat): (r: nat)
    requires m > 0
    ensures r < m
  {
    Pow(b, e) % m
  }

  /** `mp_invmod`: the inverse below the modulus, or failure when there is none. */
  function InvMod(a: nat, m: nat): (r: Option<nat>)
    requires m > 0
    ensures r.Some? ==> r.value < m && (a * r.value) % m == 1 % m
    ensures r.None? ==> forall x :: 0 <= x < m ==> (a * x) % m != 1 % m
  {
    InvModFrom(a, m, 0)
  }

  function InvModFrom(a: nat, m: nat, from: nat): (r: Option<nat>)
    requires 0 < m && from <= m
    ensures r.Some? ==> r.value < m && (a * r.value) % m == 1 % m
    ensures r.None? ==> forall x :: from <= x < m ==> (a * x) % m != 1 % m
    decreases m - from
  {
    if from == m then None
    else if (a * from) % m == 1 % m then Some(from)
    else InvModFrom(a, m, from + 1)
  }
}
