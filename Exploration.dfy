/** The exploration rate of the training driver: its start value, the
    per-episode decay `eps = max(eps_end, eps_decay * eps)` and what that
    schedule guarantees. Rates are modelled as reals, not floats. */
module Exploration {

  /** Python's two-argument `max`. */
  function Max(a: real, b: real): real
  {
    if b > a then b else a
  }

  function Pow(x: real, k: nat): real
  {
    if k == 0 then 1.0 else x * Pow(x, k - 1)
  }

  /** One decay step, applied after every finished episode. */
  function Decay(eps: real, epsEnd: real, epsDecay: real): real
  {
    Max(epsEnd, epsDecay * eps)
  }

  /** The rate handed to the agent during episode k + 1, that is after k
      finished episodes: `eps_start` in train mode and 0.0 in eval mode at
      first, decayed once per episode. */
  function EpsAt(train: bool, epsStart: real, epsEnd: real, epsDecay: real, k: nat): real
  {
    if k == 0 then (if train then epsStart else 0.0)
    else Decay(EpsAt(train, epsStart, epsEnd, epsDecay, k - 1), epsEnd, epsDecay)
  }

  lemma ShrinkBy(d: real, e: real)
    requires 0.0 <= d <= 1.0 && 0.0 <= e
    ensures 0.0 <= d * e <= e
  {
    MulMonotone(e, d, 1.0);
    MulMonotone(e, 0.0, d);
  }

  lemma MulMonotone(c: real, a: real, b: real)
    requires 0.0 <= c && a <= b
    ensures c * a <= c * b
  {
    assert c * b - c * a == c * (b - a);
  }

  lemma {:induction false} PowUnit(d: real, k: nat)
    requires 0.0 <= d <= 1.0
    ensures 0.0 <= Pow(d, k) <= 1.0
  {
    if k > 0 {
      PowUnit(d, k - 1);
      ShrinkBy(d, Pow(d, k - 1));
    }
  }

  /** The decayed start value eps_start * eps_decay^k of the closed form never
      exceeds eps_start and never goes below 0. */
  lemma DecayedStartInRange(epsStart: real, epsDecay: real, k: nat)
    requires 0.0 <= epsDecay <= 1.0 && 0.0 <= epsStart
    ensures 0.0 <= epsStart * Pow(epsDecay, k) <= epsStart
  {
    PowUnit(epsDecay, k);
    ShrinkBy(Pow(epsDecay, k), epsStart);
  }

  /** c * x^k, unfolded one factor at a time. A proof device only: its
      recursion follows `EpsAt` step by step, which lets `TrainScaled` go by
      induction; `ScaledIsPow` ties it back to `c * Pow(x, k)`. */
  function Scaled(c: real, x: real, k: nat): real
  {
    if k == 0 then c else x * Scaled(c, x, k - 1)
  }

  lemma {:induction false} ScaledIsPow(c: real, x: real, k: nat)
    ensures Scaled(c, x, k) == c * Pow(x, k)
  {
    if k > 0 {
      var j := k - 1;
      ScaledIsPow(c, x, j);
      assert c * (x * Pow(x, j)) == x * (c * Pow(x, j));
    }
  }

  /** In train mode, after k episodes the rate is
      max(eps_end, eps_start * eps_decay^k). */
  lemma TrainClosedForm(epsStart: real, epsEnd: real, epsDecay: real, k: nat)
    requires 0.0 <= epsDecay <= 1.0 && 0.0 <= epsEnd <= epsStart
    ensures EpsAt(true, epsStart, epsEnd, epsDecay, k) == Max(epsEnd, epsStart * Pow(epsDecay, k))
  {
    TrainScaled(epsStart, epsEnd, epsDecay, k);
    ScaledIsPow(epsStart, epsDecay, k);
  }

  lemma {:induction false} TrainScaled(epsStart: real, epsEnd: real, epsDecay: real, k: nat)
    requires 0.0 <= epsDecay <= 1.0 && 0.0 <= epsEnd <= epsStart
    ensures EpsAt(true, epsStart, epsEnd, epsDecay, k) == Max(epsEnd, Scaled(epsStart, epsDecay, k))
  {
    if k > 0 {
      var j := k - 1;
      var p := Scaled(epsStart, epsDecay, j);
      calc {
        EpsAt(true, epsStart, epsEnd, epsDecay, k);
        Decay(EpsAt(true, epsStart, epsEnd, epsDecay, j), epsEnd, epsDecay);
        { TrainScaled(epsStart, epsEnd, epsDecay, j); }
        Decay(Max(epsEnd, p), epsEnd, epsDecay);
        { DecayOfMax(epsEnd, epsDecay, p); }
        Max(epsEnd, epsDecay * p);
        Max(epsEnd, Scaled(epsStart, epsDecay, k));
      }
    }
  }

  /** Decaying the floored value equals flooring the decayed value. */
  lemma DecayOfMax(epsEnd: real, epsDecay: real, p: real)
    requires 0.0 <= epsDecay <= 1.0 && 0.0 <= epsEnd
    ensures Decay(Max(epsEnd, p), epsEnd, epsDecay) == Max(epsEnd, epsDecay * p)
  {
    if p <= epsEnd {
      assert Max(epsEnd, p) == epsEnd;
      ShrinkBy(epsDecay, epsEnd);
      MulMonotone(epsDecay, p, epsEnd);
      var a, b := epsDecay * epsEnd, epsDecay * p;
      assert a <= epsEnd && b <= epsEnd;
      assert Max(epsEnd, a) == epsEnd && Max(epsEnd, b) == epsEnd;
    } else {
      assert Max(epsEnd, p) == p;
    }
  }

  /** A floor below `hi` applied to a value below `hi` stays below `hi`. */
  lemma MaxWithin(lo: real, x: real, hi: real)
    requires lo <= hi && x <= hi
    ensures lo <= Max(lo, x) <= hi
  {
  }

  /** The unfolded decayed start value stays between 0 and eps_start. */
  lemma ScaledInRange(epsStart: real, epsDecay: real, k: nat)
    requires 0.0 <= epsDecay <= 1.0 && 0.0 <= epsStart
    ensures 0.0 <= Scaled(epsStart, epsDecay, k) <= epsStart
  {
    ScaledIsPow(epsStart, epsDecay, k);
    DecayedStartInRange(epsStart, epsDecay, k);
  }

  /** In train mode the rate stays within [eps_end, eps_start]: the closed
      form is a maximum of eps_end and a value between 0 and eps_start. */
  lemma {:induction false} TrainInRange(epsStart: real, epsEnd: real, epsDecay: real, k: nat)
    requires 0.0 <= epsDecay <= 1.0 && 0.0 <= epsEnd <= epsStart
    ensures epsEnd <= EpsAt(true, epsStart, epsEnd, epsDecay, k) <= epsStart
  {
    TrainScaled(epsStart, epsEnd, epsDecay, k);
    ScaledInRange(epsStart, epsDecay, k);
    MaxWithin(epsEnd, Scaled(epsStart, epsDecay, k), epsStart);
  }

  /** In train mode the rate never increases from one episode to the next. */
  lemma TrainNonIncreasing(epsStart: real, epsEnd: real, epsDecay: real, k: nat)
    requires 0.0 <= epsDecay <= 1.0 && 0.0 <= epsEnd <= epsStart
    ensures EpsAt(true, epsStart, epsEnd, epsDecay, k + 1) <= EpsAt(true, epsStart, epsEnd, epsDecay, k)
  {
    var e := EpsAt(true, epsStart, epsEnd, epsDecay, k);
    TrainInRange(epsStart, epsEnd, epsDecay, k);
    ShrinkBy(epsDecay, e);
    assert epsDecay * e <= e;
    assert epsEnd <= e;
    assert Max(epsEnd, epsDecay * e) <= e;
    assert EpsAt(true, epsStart, epsEnd, epsDecay, k + 1) == Decay(e, epsEnd, epsDecay);
  }

  /** In eval mode the rate is 0.0 only during the first episode; the first
      decay step lifts it to eps_end, where it then stays. */
  lemma {:induction false} EvalRate(epsStart: real, epsEnd: real, epsDecay: real, k: nat)
    requires 0.0 <= epsEnd && epsDecay <= 1.0
    ensures EpsAt(false, epsStart, epsEnd, epsDecay, k) == if k == 0 then 0.0 else epsEnd
  {
    if k == 1 {
      assert EpsAt(false, epsStart, epsEnd, epsDecay, k) == Max(epsEnd, epsDecay * 0.0);
    } else if k > 1 {
      var j := k - 1;
      EvalRate(epsStart, epsEnd, epsDecay, j);
      var p := epsDecay * epsEnd;
      assert p <= epsEnd by {
        if epsDecay < 0.0 {
          assert p <= 0.0;
        } else {
          ShrinkBy(epsDecay, epsEnd);
        }
      }
      assert EpsAt(false, epsStart, epsEnd, epsDecay, k) == Max(epsEnd, p);
    }
  }
}
