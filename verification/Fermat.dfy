/** Fermat's little theorem, by the permutation a*1, a*2, ..., a*(p-1) of the residues. */
module Fermat {
  import opened ModArith

  ghost function Pick<T>(s: set<T>): (x: T)
    requires |s| != 0
    ensures x in s
  {
    var x :| x in s; x
  }

  ghost function Product(s: set<int>): int {
    if |s| == 0 then 1 else var x := Pick(s); x * Product(s - {x})
  }

  lemma {:induction false} ProductRemove(s: set<int>, x: int)
    requires x in s
    ensures Product(s) == x * Product(s - {x})
    decreases |s|
  {
    var y := Pick(s);
    if y != x {
      ProductRemove(s - {y}, x);
      ProductRemove(s - {x}, y);
      assert s - {y} - {x} == s - {x} - {y};
      Exchange(x, y, Product(s - {x} - {y}));
    }
  }

  lemma {:induction false} Exchange(x: int, y: int, z: int)
    ensures y * (x * z) == x * (y * z)
  {
  }

  ghost function Image(a: int, s: set<int>, p: int): set<int>
    requires p > 0
  {
    set i | i in s :: (a * i) % p
  }

  /** Multiplication by `a` keeps the members of `s` apart. */
  ghost predicate Separates(a: int, s: set<int>, p: int)
    requires p > 0
  {
    forall i, j :: i in s && j in s && (a * i) % p == (a * j) % p ==> i == j
  }

  lemma {:induction false} ImageRemove(a: int, s: set<int>, p: int, x: int)
    requires p > 0 && x in s && Separates(a, s, p)
    ensures (a * x) % p in Image(a, s, p)
    ensures Image(a, s, p) - {(a * x) % p} == Image(a, s - {x}, p)
    ensures Separates(a, s - {x}, p)
  {
    var ax := (a * x) % p;
    forall v | v in Image(a, s, p) && v != ax ensures v in Image(a, s - {x}, p) {
      var i :| i in s && v == (a * i) % p;
      assert i in s - {x};
    }
    forall v | v in Image(a, s - {x}, p) ensures v in Image(a, s, p) && v != ax {
      var i :| i in s - {x} && v == (a * i) % p;
    }
  }

  lemma {:induction false} ImageSize(a: int, s: set<int>, p: int)
    requires p > 0 && Separates(a, s, p)
    ensures |Image(a, s, p)| == |s|
    decreases |s|
  {
    if |s| == 0 {
      assert Image(a, s, p) == {};
    } else {
      var x := Pick(s);
      ImageRemove(a, s, p, x);
      ImageSize(a, s - {x}, p);
    }
  }

  lemma {:induction false} ProductScaled(a: int, s: set<int>, p: int)
    requires p > 0 && Separates(a, s, p)
    ensures Product(Image(a, s, p)) % p == (Pow(a, |s|) * Product(s)) % p
    decreases |s|
  {
    if |s| == 0 {
      assert Image(a, s, p) == {};
    } else {
      var x := Pick(s);
      var ax := (a * x) % p;
      ImageRemove(a, s, p, x);
      ProductScaled(a, s - {x}, p);
      ProductRemove(s, x);
      ProductRemove(Image(a, s, p), ax);
      ModMod(a * x, p);
      ModMulCong(ax, a * x, Product(Image(a, s - {x}, p)), Pow(a, |s - {x}|) * Product(s - {x}), p);
      MulRegroup(a, x, Pow(a, |s - {x}|), Product(s - {x}));
    }
  }

  ghost function Residues(p: int): (r: set<int>)
    requires p >= 1
    ensures |r| == p - 1
    ensures forall i :: i in r <==> 1 <= i < p
    decreases p
  {
    if p == 1 then {} else Residues(p - 1) + {p - 1}
  }

  lemma {:induction false} ProductCoprime(p: int, s: set<int>)
    requires IsPrime(p) && forall i :: i in s ==> 1 <= i < p
    ensures !Divides(p, Product(s))
    decreases |s|
  {
    if |s| != 0 {
      var x := Pick(s);
      ProductRemove(s, x);
      ProductCoprime(p, s - {x});
      if Divides(p, Product(s)) {
        PrimeDividesProduct(p, x, Product(s - {x}));
        ModSmall(x, p);
      }
    }
  }

  lemma {:induction false} ScalingSeparates(p: int, a: int)
    requires IsPrime(p) && !Divides(p, a)
    ensures Separates(a, Residues(p), p)
  {
    forall i, j | i in Residues(p) && j in Residues(p) && (a * i) % p == (a * j) % p
      ensures i == j
    {
      PrimeCancel(p, a, i, j);
      ModSmall(i, p);
      ModSmall(j, p);
    }
  }

  lemma {:induction false} ScalingStaysResidue(p: int, a: int, i: int)
    requires IsPrime(p) && !Divides(p, a) && 1 <= i < p
    ensures 1 <= (a * i) % p < p
  {
    if (a * i) % p == 0 {
      PrimeDividesProduct(p, a, i);
      ModSmall(i, p);
    }
  }

  lemma {:induction false} SubsetSameSize(a: set<int>, b: set<int>)
    requires a <= b && |a| == |b|
    ensures a == b
  {
    assert b == a + (b - a) && |b| == |a| + |b - a|;
  }

  lemma {:induction false} ScalingPermutes(p: int, a: int)
    requires IsPrime(p) && !Divides(p, a)
    ensures Image(a, Residues(p), p) == Residues(p)
  {
    ScalingSeparates(p, a);
    ImageSize(a, Residues(p), p);
    forall i | i in Residues(p) ensures (a * i) % p in Residues(p) {
      ScalingStaysResidue(p, a, i);
    }
    SubsetSameSize(Image(a, Residues(p), p), Residues(p));
  }

  lemma {:induction false} FermatLittle(p: int, a: int)
    requires IsPrime(p) && !Divides(p, a)
    ensures Pow(a, p - 1) % p == 1
  {
    var r := Residues(p);
    var f := Product(r);
    ScalingSeparates(p, a);
    ScalingPermutes(p, a);
    ProductScaled(a, r, p);
    ProductCoprime(p, r);
    CancelToOne(p, f, Pow(a, p - 1));
  }

  lemma {:induction false} CancelToOne(p: int, f: int, w: int)
    requires IsPrime(p) && !Divides(p, f) && f % p == (w * f) % p
    ensures w % p == 1
  {
    MulComm(f, w);
    PrimeCancel(p, f, w, 1);
    ModSmall(1, p);
  }
}
