/** The 11-bit feedback shift register that encodes the coarse divisor. */
module NcoLfsr {
  import opened Arithmetic

  const POLY: bv11 := 0x500   // LFSR_POLY >> 1
  const INIT: bv11 := 0x7ff
  const PERIOD: nat := 2047

  function Step(s: bv11): bv11 {
    if s & 1 != 0 then (s >> 1) ^ POLY else s >> 1
  }

  /** A step divides by x modulo the feedback polynomial x^11 + x^9 + 1. */
  lemma StepDivides(s: bv11)
    ensures (Step(s) as bv12) << 1 == (s as bv12) ^ (if s & 1 != 0 then 0xa01 else 0)
  {
  }

  function Iter(k: nat, s: bv11): bv11 {
    if k == 0 then s else Step(Iter(k - 1, s))
  }

  lemma {:induction false} IterAdds(j: nat, k: nat, s: bv11)
    ensures Iter(j + k, s) == Iter(j, Iter(k, s))
    decreases j
  {
    if j > 0 {
      IterAdds(j - 1, k, s);
    }
  }

  lemma StepInjective(a: bv11, b: bv11)
    requires Step(a) == Step(b)
    ensures a == b
  {
  }

  lemma {:induction false} IterInjective(k: nat, a: bv11, b: bv11)
    requires Iter(k, a) == Iter(k, b)
    ensures a == b
    decreases k
  {
    if k > 0 {
      StepInjective(Iter(k - 1, a), Iter(k - 1, b));
      IterInjective(k - 1, a, b);
    }
  }

  lemma {:induction false} IterNonzero(k: nat, s: bv11)
    ensures s != 0 ==> Iter(k, s) != 0
    decreases k
  {
    if k > 0 {
      IterNonzero(k - 1, s);
    }
  }

  // ---- The orbit of the initial state, in 23 strides of 89 steps ----

  function Step8(s: bv11): bv11 {
    Step(Step(Step(Step(Step(Step(Step(Step(s))))))))
  }

  function Step89(s: bv11): bv11 {
    Step(Step8(Step8(Step8(Step8(Step8(Step8(Step8(Step8(Step8(Step8(Step8(s))))))))))))
  }

  lemma EightMore(k: nat, s: bv11)
    ensures Iter(k + 8, s) == Step8(Iter(k, s))
  {
    hide Step;
    assert Iter(k + 2, s) == Step(Step(Iter(k, s)));
    assert Iter(k + 4, s) == Step(Step(Iter(k + 2, s)));
    assert Iter(k + 6, s) == Step(Step(Iter(k + 4, s)));
    assert Iter(k + 8, s) == Step(Step(Iter(k + 6, s)));
  }

  lemma Stride(s: bv11)
    ensures Iter(89, s) == Step89(s)
  {
    hide Step, Step8;
    assert Iter(0, s) == s;
    EightMore(0, s); EightMore(8, s); EightMore(16, s); EightMore(24, s); EightMore(32, s); EightMore(40, s);
    EightMore(48, s); EightMore(56, s); EightMore(64, s); EightMore(72, s); EightMore(80, s);
    assert Iter(89, s) == Step(Iter(88, s));
  }

  /** The states met every 89 steps. */
  function Milestone(i: nat): bv11
    requires i <= 23
  {
    [0x7ff, 0x6f9, 0x6b3, 0x543, 0x557, 0x7f5, 0x7a8, 0x39d, 0x259, 0x5b5, 0x403, 0x773,
     0x225, 0xf2, 0x1de, 0x495, 0xd6, 0x504, 0x21b, 0x751, 0x630, 0x566, 0x4af, 0x7ff][i]
  }

  lemma Strides0()
    ensures Step89(0x7ff) == 0x6f9
    ensures Step89(0x6f9) == 0x6b3
    ensures Step89(0x6b3) == 0x543
    ensures Step89(0x543) == 0x557
    ensures Step89(0x557) == 0x7f5
    ensures Step89(0x7f5) == 0x7a8
  {
  }

  lemma Strides1()
    ensures Step89(0x7a8) == 0x39d
    ensures Step89(0x39d) == 0x259
    ensures Step89(0x259) == 0x5b5
    ensures Step89(0x5b5) == 0x403
    ensures Step89(0x403) == 0x773
    ensures Step89(0x773) == 0x225
  {
  }

  lemma Strides2()
    ensures Step89(0x225) == 0xf2
    ensures Step89(0xf2) == 0x1de
    ensures Step89(0x1de) == 0x495
    ensures Step89(0x495) == 0xd6
    ensures Step89(0xd6) == 0x504
    ensures Step89(0x504) == 0x21b
  {
  }

  lemma Strides3()
    ensures Step89(0x21b) == 0x751
    ensures Step89(0x751) == 0x630
    ensures Step89(0x630) == 0x566
    ensures Step89(0x566) == 0x4af
    ensures Step89(0x4af) == 0x7ff
  {
  }

  lemma NextMilestone(i: nat)
    requires i < 23
    ensures Step89(Milestone(i)) == Milestone(i + 1)
  {
    hide Step89;
    Strides0();
    Strides1();
    Strides2();
    Strides3();
  }

  lemma {:induction false} MilestoneIsIter(i: nat)
    requires i <= 23
    ensures Iter(89 * i, INIT) == Milestone(i)
    decreases i
  {
    hide Step89, Step;
    if i > 0 {
      MilestoneIsIter(i - 1);
      NextMilestone(i - 1);
      Stride(Iter(89 * (i - 1), INIT));
      IterAdds(89, 89 * (i - 1), INIT);
    }
  }

  // ---- No earlier return ----

  ghost predicate Returns(k: nat) {
    Iter(k, INIT) == INIT
  }

  lemma FullPeriod()
    ensures Returns(PERIOD)
  {
    MilestoneIsIter(23);
  }

  lemma ReturnsSubtract(a: nat, b: nat)
    requires b <= a && Returns(a) && Returns(b)
    ensures Returns(a - b)
  {
    IterAdds(b, a - b, INIT);
    IterInjective(b, Iter(a - b, INIT), INIT);
  }

  lemma {:induction false} ReturnsLess(q: nat, b: nat, r: nat)
    requires Returns(q * b + r) && Returns(b)
    ensures Returns(r)
    decreases q
  {
    if q > 0 {
      assert q * b == (q - 1) * b + b;
      ReturnsSubtract(q * b + r, b);
      ReturnsLess(q - 1, b, r);
    }
  }

  lemma {:induction false} LeastReturn(d: nat) returns (m: nat)
    requires d > 0 && Returns(d)
    ensures 0 < m <= d && Returns(m) && forall x: nat :: 0 < x < m ==> !Returns(x)
    decreases d
  {
    if x: nat :| 0 < x < d && Returns(x) {
      m := LeastReturn(x);
    } else {
      m := d;
    }
  }

  lemma NotAt1()
    ensures !Returns(1)
  {
    assert Iter(0, INIT) == INIT && Iter(1, INIT) == Step(INIT);
  }

  lemma NotAt23()
    ensures !Returns(23)
  {
    assert Iter(0, INIT) == INIT;
    EightMore(0, INIT);
    EightMore(8, INIT);
    EightMore(16, INIT);
    assert Iter(24, INIT) == Step(Iter(23, INIT));
    assert Step8(Step8(Step8(INIT))) != Step(INIT);
  }

  lemma NotAt89()
    ensures !Returns(89)
  {
    MilestoneIsIter(1);
  }

  function OnlyDivisor(m: nat): bool {
    m < 2 || ((m == 23 || 2047 % m != 0) && OnlyDivisor(m - 1))
  }

  lemma {:induction false} OnlyDivisorBelow(k: nat, m: nat)
    requires OnlyDivisor(k) && 2 <= m <= k && 2047 % m == 0
    ensures m == 23
    decreases k
  {
    if m < k { OnlyDivisorBelow(k - 1, m); }
  }

  lemma DividesExactly(m: nat, q: nat)
    requires m > 0 && m * q == 2047
    ensures 2047 % m == 0
  {
    SmallMod(q, 0, m);
    assert q * m + 0 == 2047;
  }

  /** The period is 23 * 89. */
  lemma Divisors(m: nat, q: nat)
    requires m * q == 2047 && 1 < m < 2047
    ensures m == 23 || m == 89
  {
    assert OnlyDivisor(2) && OnlyDivisor(4) && OnlyDivisor(6) && OnlyDivisor(8) && OnlyDivisor(10) && OnlyDivisor(12);
    assert OnlyDivisor(14) && OnlyDivisor(16) && OnlyDivisor(18) && OnlyDivisor(20) && OnlyDivisor(22) && OnlyDivisor(24);
    assert OnlyDivisor(26) && OnlyDivisor(28) && OnlyDivisor(30) && OnlyDivisor(32) && OnlyDivisor(34) && OnlyDivisor(36);
    assert OnlyDivisor(38) && OnlyDivisor(40) && OnlyDivisor(42) && OnlyDivisor(44) && OnlyDivisor(45);
    if m <= 45 {
      DividesExactly(m, q);
      OnlyDivisorBelow(45, m);
    } else {
      MulGe(m, q);
      assert q * m == 2047;
      DividesExactly(q, m);
      OnlyDivisorBelow(45, q);
    }
  }

  lemma MulGe(m: nat, q: nat)
    requires m >= 46
    ensures q >= 46 ==> m * q >= 2116
    ensures q <= 1 ==> m * q <= m
  {
    if q >= 46 { assert m * q >= 46 * q; }
  }

  /** The register comes back to its initial state after 2047 steps and not before. */
  lemma NoEarlierReturn(d: nat)
    requires 0 < d < PERIOD
    ensures !Returns(d)
  {
    if Returns(d) {
      var m := LeastReturn(d);
      FullPeriod();
      var q, r := PERIOD / m, PERIOD % m;
      assert PERIOD == q * m + r;
      ReturnsLess(q, m, r);
      assert r == 0;
      assert m * q == PERIOD;
      NotAt1();
      NotAt23();
      NotAt89();
      Divisors(m, q);
      assert false;
    }
  }

  /** The 2047 states of the orbit are all different, and none is zero. */
  lemma OrbitDistinct(i: nat, j: nat)
    requires i <= PERIOD && j <= PERIOD && 0 < j && 0 < i
    ensures Iter(i, INIT) == Iter(j, INIT) ==> i == j
    ensures Iter(i, INIT) != 0
  {
    IterNonzero(i, INIT);
    if Iter(i, INIT) == Iter(j, INIT) && i != j {
      var a, b := if i < j then i else j, if i < j then j else i;
      IterAdds(a, b - a, INIT);
      IterInjective(a, Iter(b - a, INIT), INIT);
      NoEarlierReturn(b - a);
    }
  }

  // ---- Every nonzero state is on the orbit ----

  /** The states reached in 1 to `k` steps, as numbers. */
  ghost function Reached(k: nat): set<int> {
    if k == 0 then {} else Reached(k - 1) + {Iter(k, INIT) as int}
  }

  lemma BitsInjective(a: bv11, b: bv11)
    requires a as int == b as int
    ensures a == b
  {
    assert (a as int) as bv11 == a;
  }

  lemma NonzeroBits(a: bv11)
    requires a != 0
    ensures 0 < a as int <= PERIOD
  {
    if a as int == 0 { BitsInjective(a, 0); }
  }

  lemma {:induction false} ReachedIs(k: nat, x: int)
    requires x in Reached(k)
    ensures exists i: nat :: 0 < i <= k && Iter(i, INIT) as int == x
    decreases k
  {
    if x in Reached(k - 1) {
      ReachedIs(k - 1, x);
    }
  }

  lemma {:induction false} ReachedSize(k: nat)
    requires k <= PERIOD
    ensures |Reached(k)| == k && forall x :: x in Reached(k) ==> 0 < x <= PERIOD
    decreases k
  {
    if k > 0 {
      ReachedSize(k - 1);
      OrbitDistinct(k, k);
      NonzeroBits(Iter(k, INIT));
      if Iter(k, INIT) as int in Reached(k - 1) {
        ReachedIs(k - 1, Iter(k, INIT) as int);
        var i: nat :| 0 < i <= k - 1 && Iter(i, INIT) as int == Iter(k, INIT) as int;
        BitsInjective(Iter(i, INIT), Iter(k, INIT));
        OrbitDistinct(i, k);
        assert false;
      }
    }
  }

  lemma {:induction false} UpToSize(n: nat, s: set<int>)
    requires forall x :: x in s ==> 0 < x <= n
    ensures |s| <= n
    decreases n
  {
    if n > 0 {
      UpToSize(n - 1, s - {n});
    } else {
      assert forall x :: x !in s;
      assert s == {};
    }
  }

  /** The orbit is all of the nonzero states. */
  lemma OrbitComplete(target: bv11) returns (i: nat)
    requires target != 0
    ensures 0 < i <= PERIOD && Iter(i, INIT) == target
  {
    var all, x := Reached(PERIOD), target as int;
    ReachedSize(PERIOD);
    NonzeroBits(target);
    if x !in all {
      UpToSize(PERIOD, all + {x});
      assert false;
    }
    ReachedIs(PERIOD, x);
    i :| 0 < i <= PERIOD && Iter(i, INIT) as int == x;
    BitsInjective(Iter(i, INIT), target);
  }
}
