/** One channel of the numerically controlled oscillator. */
module NcoClock {
  import opened Arithmetic
  import opened NcoLfsr
  import opened Wrappers

  const COARSE_DIV_OFFSET: nat := 2
  const LFSR_TABLE_SIZE: nat := 2048
  const ACC_INIT_NEUTRAL: nat := 0x8000_0000
  const U32: nat := 0x1_0000_0000
  const U64: nat := 0x1_0000_0000_0000_0000

  // ---- The coarse divisor and its shift-register code ----

  /** `lfsr_state_for_coarse`. The search counts down from 2047 while the register steps on. */
  function StateFor(coarse: nat): Option<bv11> {
    if coarse == 0 then Some(0)
    else if coarse <= PERIOD then Some(Iter(PERIOD + 1 - coarse, INIT))
    else None
  }

  /** `target` is the code of `coarse`. */
  ghost predicate Codes(coarse: nat, target: bv11) {
    StateFor(coarse) == Some(target)
  }

  /** The states of a register that starts at its initial state, each one step from the one before. */
  ghost predicate Stepped(chain: seq<bv11>) {
    && |chain| > 0 && chain[0] == INIT
    && forall i :: 0 < i < |chain| ==> chain[i] == Step(chain[i - 1])
  }

  /** `code` is where such a register stands when the count, from 2047 after the first step, is down to `coarse`. */
  ghost predicate IsCode(coarse: nat, code: bv11) {
    if coarse == 0 then code == 0
    else exists chain :: Stepped(chain) && |chain| + coarse == PERIOD + 2 && chain[|chain| - 1] == code
  }

  lemma {:induction false} SteppedIs(chain: seq<bv11>, i: nat)
    requires Stepped(chain) && i < |chain|
    ensures chain[i] == Iter(i, INIT)
    decreases i
  {
    if i > 0 {
      SteppedIs(chain, i - 1);
    }
  }

  lemma {:induction false} ChainOf(n: nat) returns (chain: seq<bv11>)
    ensures Stepped(chain) && |chain| == n + 1 && chain[n] == Iter(n, INIT)
    decreases n
  {
    if n == 0 {
      chain := [INIT];
    } else {
      var before := ChainOf(n - 1);
      chain := before + [Step(before[n - 1])];
    }
  }

  /** The closed form is the code. */
  lemma CodesIff(coarse: nat, code: bv11)
    ensures Codes(coarse, code) <==> coarse <= PERIOD && IsCode(coarse, code)
  {
    if 0 < coarse <= PERIOD {
      var chain := ChainOf(PERIOD + 1 - coarse);
      forall other | Stepped(other) && |other| + coarse == PERIOD + 2
        ensures other[|other| - 1] == Iter(PERIOD + 1 - coarse, INIT) {
        SteppedIs(other, |other| - 1);
      }
    }
  }

  /** The code of 2047 is one step from the initial state, and every other one step from the code of the next divisor;
      so the code of 1 is the initial state again. */
  lemma CodeByStep(coarse: nat, next: bv11, code: bv11)
    requires Codes(coarse, code) && coarse > 0
    ensures coarse == PERIOD ==> code == Step(INIT)
    ensures coarse < PERIOD && Codes(coarse + 1, next) ==> code == Step(next)
    ensures coarse == 1 ==> code == INIT
  {
    FullPeriod();
    assert Iter(1, INIT) == Step(Iter(0, INIT));
  }

  /** No code stands for two divisors. */
  lemma CodesUnique(a: nat, b: nat, target: bv11)
    requires Codes(a, target) && Codes(b, target)
    ensures a == b
  {
    if a > 0 { OrbitDistinct(PERIOD + 1 - a, PERIOD + 1 - a); }
    if b > 0 { OrbitDistinct(PERIOD + 1 - b, PERIOD + 1 - b); }
    if a > 0 && b > 0 { OrbitDistinct(PERIOD + 1 - a, PERIOD + 1 - b); }
  }

  /** The coarse divisor a code stands for. */
  ghost function CoarseFor(target: bv11): Option<nat> {
    if c: nat :| Codes(c, target) then Some(c) else None
  }

  /** Decoding undoes encoding. */
  lemma CoarseRoundTrip(coarse: nat)
    requires coarse <= PERIOD
    ensures StateFor(coarse).Some? && CoarseFor(StateFor(coarse).value) == Some(coarse)
  {
    var target := StateFor(coarse).value;
    assert Codes(coarse, target);
    CodesUnique(coarse, CoarseFor(target).value, target);
  }

  /** Every code stands for a divisor, so `coarse_for_lfsr_state` always finds one. */
  lemma EveryCodeDecodes(target: bv11)
    ensures CoarseFor(target).Some?
  {
    if target == 0 {
      assert Codes(0, target);
    } else {
      var i := OrbitComplete(target);
      assert Codes(PERIOD + 1 - i, target);
    }
  }

  method LfsrStateForCoarse(coarse: nat) returns (r: Option<bv11>)
    ensures r == StateFor(coarse)
    ensures r.Some? <==> coarse <= PERIOD
    ensures r.Some? ==> IsCode(coarse, r.value)
  {
    if coarse <= PERIOD {
      CodesIff(coarse, StateFor(coarse).value);
    }
    if coarse == 0 {
      return Some(0);
    }
    var state := INIT;
    for index := PERIOD + 1 downto 1
      invariant state == Iter(PERIOD + 1 - index, INIT)
      invariant coarse < index || coarse > PERIOD
    {
      state := Step(state);
      if index == coarse {
        return Some(state);
      }
    }
    r := None;
  }

  method CoarseForLfsrState(target: bv11) returns (r: Option<nat>)
    ensures r == CoarseFor(target)
    ensures r.Some? ==> r.value <= PERIOD && IsCode(r.value, target)
  {
    if target == 0 {
      CoarseRoundTrip(0);
      return Some(0);
    }
    var state := INIT;
    for index := PERIOD + 1 downto 1
      invariant state == Iter(PERIOD + 1 - index, INIT)
      invariant forall c: nat :: index <= c <= PERIOD ==> !Codes(c, target)
    {
      state := Step(state);
      if state == target {
        CodesIff(index, target);
        CoarseRoundTrip(index);
        return Some(index);
      }
    }
    r := None;
  }

  // ---- The divisor register ----

  /** The register's two fields: bits 2..12 and bits 0..1. */
  datatype DivReg = DivReg(coarse: bv11, fine: nat)

  predicate DivOutOfRange(div: nat) {
    div / 4 < COARSE_DIV_OFFSET || div / 4 >= COARSE_DIV_OFFSET + LFSR_TABLE_SIZE
  }

  function TranslateDiv(div: nat): Option<DivReg> {
    if DivOutOfRange(div) then None
    else match StateFor(div / 4 - COARSE_DIV_OFFSET)
      case None => None
      case Some(state) => Some(DivReg(state, div % 4))
  }

  method TranslateDivisor(div: nat) returns (r: Option<DivReg>)
    ensures r == TranslateDiv(div)
    ensures r.Some? ==> div >= 8 && IsCode(div / 4 - 2, r.value.coarse) && r.value.fine == div % 4
  {
    if DivOutOfRange(div) {
      return None;
    }
    var state := LfsrStateForCoarse(div / 4 - COARSE_DIV_OFFSET);
    if state.None? {
      return None;
    }
    r := Some(DivReg(state.value, div % 4));
  }

  ghost function TranslateDivInv(reg: DivReg): Option<nat> {
    match CoarseFor(reg.coarse)
    case None => None
    case Some(coarse) => Some((coarse + COARSE_DIV_OFFSET) * 4 + reg.fine)
  }

  /** Exactly the divisors 8 to 8199 have a register value, and it reads back as the divisor. */
  lemma DivRoundTrip(div: nat)
    ensures TranslateDiv(div).Some? <==> 8 <= div <= 8199
    ensures TranslateDiv(div).Some? ==> TranslateDivInv(TranslateDiv(div).value) == Some(div)
  {
    if 8 <= div <= 8199 {
      CoarseRoundTrip(div / 4 - COARSE_DIV_OFFSET);
    }
  }

  // ---- Rates ----

  function WrappingSub(a: nat, b: nat): nat {
    (a - b) % U32
  }

  datatype Regs = Regs(div: DivReg, inc1: nat, inc2: nat)

  /** `recalc_rate`: what rate the registers stand for. */
  ghost function Recalc(parentRate: nat, regs: Regs): nat {
    if parentRate == 0 || TranslateDivInv(regs.div).None? then 0
    else if regs.inc1 >= ACC_INIT_NEUTRAL || regs.inc2 < ACC_INIT_NEUTRAL || (regs.inc1 == 0 && regs.inc2 == 0) then 0
    else
      var incbase := WrappingSub(regs.inc1, regs.inc2);
      var denominator := TranslateDivInv(regs.div).value * incbase + regs.inc1;
      if denominator == 0 then 0 else (parentRate * 2 * incbase / denominator) % U64
  }

  /** The registers hold a setting: each increment in its half of the range. */
  predicate Settled(inc1: nat, inc2: nat) {
    inc1 < ACC_INIT_NEUTRAL <= inc2 < U32
  }

  /** `rate` is `2 * parentRate` over the mean divisor `div + inc1 / (inc1 - inc2)`, rounded down to 64 bits. */
  ghost predicate Quotes(rate: nat, parentRate: nat, div: nat, inc1: nat, inc2: nat)
    requires Settled(inc1, inc2)
  {
    var incbase := inc1 + U32 - inc2;
    exists q: nat :: IsQuotient(q, 2 * parentRate * incbase, div * incbase + inc1) && q % U64 == rate
  }

  predicate IsQuotient(q: nat, num: nat, den: nat) {
    q * den <= num < (q + 1) * den
  }

  lemma DivIsQuotient(num: nat, den: nat)
    requires den > 0
    ensures IsQuotient(num / den, num, den)
  {
    assert num == num / den * den + num % den;
    assert (num / den + 1) * den == num / den * den + den;
  }

  lemma QuotientQuotes(parentRate: nat, div: nat, inc1: nat, inc2: nat, num: nat, den: nat)
    requires Settled(inc1, inc2) && den > 0
    requires num == 2 * parentRate * (inc1 + U32 - inc2) && den == div * (inc1 + U32 - inc2) + inc1
    ensures Quotes((num / den) % U64, parentRate, div, inc1, inc2)
  {
    hide IsQuotient;
    DivIsQuotient(num, den);
  }

  /** The divisor the registers hold, in the terms of its code. */
  lemma DivisorIs(reg: DivReg, coarse: nat)
    requires coarse <= PERIOD && IsCode(coarse, reg.coarse)
    ensures TranslateDivInv(reg) == Some((coarse + 2) * 4 + reg.fine)
  {
    hide IsCode, StateFor;
    CodesIff(coarse, reg.coarse);
    CodesUnique(coarse, CoarseFor(reg.coarse).value, reg.coarse);
  }

  /** What the registers read as, for every setting of them and every parent rate. */
  lemma RecalcQuotes(parentRate: nat, regs: Regs, coarse: nat)
    requires regs.inc1 < U32 && regs.inc2 < U32 && coarse <= PERIOD && IsCode(coarse, regs.div.coarse)
    ensures parentRate == 0 || !Settled(regs.inc1, regs.inc2) ==> Recalc(parentRate, regs) == 0
    ensures parentRate > 0 && Settled(regs.inc1, regs.inc2) ==>
              Quotes(Recalc(parentRate, regs), parentRate, (coarse + 2) * 4 + regs.div.fine, regs.inc1, regs.inc2)
  {
    hide IsCode, TranslateDivInv, Quotes;
    DivisorIs(regs.div, coarse);
    if parentRate > 0 && Settled(regs.inc1, regs.inc2) {
      var div, incbase := (coarse + 2) * 4 + regs.div.fine, WrappingSub(regs.inc1, regs.inc2);
      WrapsOnce(regs.inc1, regs.inc2);
      MulMono(1, div, incbase);
      var num, den := parentRate * 2 * incbase, div * incbase + regs.inc1;
      QuotientQuotes(parentRate, div, regs.inc1, regs.inc2, num, den);
    }
  }

  /** The second increment is the first less the rate, in 32 bits. */
  lemma Inc2IsBehind(inc1: nat, rate: nat)
    requires inc1 < U32 && 0 < rate < U32
    ensures WrappingSub(inc1, rate) < U32 && (WrappingSub(inc1, rate) + rate) % U32 == inc1
  {
  }

  lemma WrapsOnce(inc1: nat, inc2: nat)
    requires Settled(inc1, inc2)
    ensures WrappingSub(inc1, inc2) == inc1 + U32 - inc2 > 0
  {
  }

  /** The accumulator increments split `2 * parentRate` by `rate`; both must fit their half of the range. */
  predicate IncrementsFit(rate: nat, parentRate: nat)
    requires rate > 0
  {
    var inc1 := parentRate * 2 % rate;
    inc1 < ACC_INIT_NEUTRAL && rate - inc1 <= ACC_INIT_NEUTRAL
  }

  predicate Accepts(rate: nat, parentRate: nat) {
    0 < rate < U32 && parentRate > 0 && parentRate * 2 < U64 && 8 <= parentRate * 2 / rate <= 8199
  }

  function RegsFor(rate: nat, parentRate: nat): Regs
    requires Accepts(rate, parentRate)
  {
    var doubled := parentRate * 2;
    var div := doubled / rate;
    DivRoundTrip(div);
    Regs(TranslateDiv(div).value, doubled - div * rate, WrappingSub(doubled - div * rate, rate))
  }

  lemma RegsForAre(rate: nat, parentRate: nat)
    requires Accepts(rate, parentRate)
    ensures var regs, doubled := RegsFor(rate, parentRate), parentRate * 2;
            && TranslateDivInv(regs.div) == Some(doubled / rate)
            && regs.inc1 == doubled % rate && regs.inc2 == doubled % rate - rate + U32
            && WrappingSub(regs.inc1, regs.inc2) == rate
            && doubled == doubled / rate * rate + doubled % rate
  {
    hide TranslateDivInv, StateFor;
    DivRoundTrip(parentRate * 2 / rate);
  }

  /** The registers from a quotient and its code, as `set_rate` computes them. */
  lemma RegsFromParts(rate: nat, parentRate: nat, div: nat, reg: DivReg) returns (inc1: nat)
    requires Accepts(rate, parentRate) && div == parentRate * 2 / rate && TranslateDiv(div) == Some(reg)
    ensures inc1 == parentRate * 2 - div * rate && inc1 < U32
    ensures RegsFor(rate, parentRate) == Regs(reg, inc1, WrappingSub(inc1, rate))
  {
    hide StateFor;
    inc1 := parentRate * 2 % rate;
    assert parentRate * 2 == div * rate + inc1;
  }

  /** An accepted rate reads back exactly if its increments fit, and as zero otherwise. */
  lemma ReadBack(rate: nat, parentRate: nat)
    requires Accepts(rate, parentRate)
    ensures Recalc(parentRate, RegsFor(rate, parentRate)) == if IncrementsFit(rate, parentRate) then rate else 0
  {
    hide RegsFor, WrappingSub, TranslateDivInv;
    RegsForAre(rate, parentRate);
    SmallMod(rate, 0, parentRate * 2);
  }

  /** Below half the 32-bit range every accepted rate is met exactly. */
  lemma RateExact(rate: nat, parentRate: nat)
    requires Accepts(rate, parentRate) && rate < ACC_INIT_NEUTRAL
    ensures Recalc(parentRate, RegsFor(rate, parentRate)) == rate
  {
    ReadBack(rate, parentRate);
  }

  class Clock {
    var enabled: bool
    var div: DivReg
    var inc1: nat
    var inc2: nat
    var accInit: nat

    ghost function View(): Regs
      reads this
    {
      Regs(div, inc1, inc2)
    }

    method RecalcRate(parentRate: nat) returns (rate: nat)
      requires inc1 < U32 && inc2 < U32
      ensures rate == Recalc(parentRate, View())
    {
      if parentRate == 0 {
        return 0;
      }
      var coarse := CoarseForLfsrState(div.coarse);
      if coarse.None? {
        return 0;
      }
      if inc1 >= ACC_INIT_NEUTRAL || inc2 < ACC_INIT_NEUTRAL || (inc1 == 0 && inc2 == 0) {
        return 0;
      }
      var divisor := (coarse.value + COARSE_DIV_OFFSET) * 4 + div.fine;
      var incbase := WrappingSub(inc1, inc2);
      var denominator := divisor * incbase + inc1;
      if denominator == 0 {
        return 0;
      }
      rate := (parentRate * 2 * incbase / denominator) % U64;
    }

    /** On success the registers hold the wanted rate and the answer is what they read back as; on failure nothing
        changed. The clock is left enabled or disabled as it was. */
    method SetRate(rate: nat, parentRate: nat) returns (r: Option<nat>)
      requires rate < U64 && parentRate < U64
      modifies this
      ensures r.Some? <==> Accepts(rate, parentRate)
      ensures enabled == old(enabled)
      ensures r.Some? ==> View() == RegsFor(rate, parentRate) && accInit == ACC_INIT_NEUTRAL
      ensures r.Some? ==> r.value == if IncrementsFit(rate, parentRate) then rate else 0
      ensures r.Some? ==> && IsCode(parentRate * 2 / rate / 4 - 2, div.coarse) && div.fine == parentRate * 2 / rate % 4
                          && inc1 == parentRate * 2 % rate && inc2 < U32 && (inc2 + rate) % U32 == inc1
      ensures r.None? ==> View() == old(View()) && accInit == old(accInit)
    {
      hide Recalc, IncrementsFit, TranslateDiv, RegsFor, WrappingSub, IsCode, Stepped, TranslateDivInv;
      if parentRate == 0 || rate == 0 {
        return None;
      }
      if rate >= U32 {
        return None;
      }
      if parentRate * 2 >= U64 {
        return None;
      }
      var doubled := parentRate * 2;
      var divisor := doubled / rate;
      var translated := TranslateDivisor(divisor);
      DivRoundTrip(divisor);
      if translated.None? {
        return None;
      }
      ghost var split := RegsFromParts(rate, parentRate, divisor, translated.value);
      var newInc1 := doubled - divisor * rate;
      var newInc2 := WrappingSub(newInc1, rate);
      Inc2IsBehind(newInc1, rate);
      var wasEnabled := enabled;
      enabled := false;
      div := translated.value;
      inc1 := newInc1;
      inc2 := newInc2;
      accInit := ACC_INIT_NEUTRAL;
      if wasEnabled {
        enabled := true;
      }
      RegsForAre(rate, parentRate);
      ReadBack(rate, parentRate);
      var back := RecalcRate(parentRate);
      r := Some(back);
    }
  }
}
