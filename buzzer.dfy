/** The buzzer driver: a phase counter that divides the loop rate down to a
    square wave on the BUZZ pin. */
module Buzzer {
  import opened SenseFilter

  /** The counter wraps, and BUZZ flips, when it reaches this value. */
  const BUZZ_FREQ_CTL: nat := 3300

  /** The buzzer's state: the phase counter buzz_cnt and the BUZZ output. */
  datatype Buzz = Buzz(cnt: uint16, pin: bool)

  /** One call of the buzzer routine.  When enabled (filtered touch and
      BUZZ_CTL) the 16-bit counter is incremented and, on reaching
      BUZZ_FREQ_CTL, reset to 0 while BUZZ toggles; when disabled BUZZ is
      driven low and the counter keeps its phase. */
  function BuzzStep(b: Buzz, enabled: bool): (r: Buzz)
    ensures !enabled ==> !r.pin && r.cnt == b.cnt
    ensures enabled && b.cnt < BUZZ_FREQ_CTL ==>
      r.cnt == (b.cnt + 1) % BUZZ_FREQ_CTL && (r.pin != b.pin <==> r.cnt == 0)
  {
    if enabled then
      var c := (b.cnt + 1) % 0x1_0000;
      if c == BUZZ_FREQ_CTL then Buzz(0, !b.pin) else Buzz(c, b.pin)
    else
      Buzz(b.cnt, false)
  }

  /** The counter stays below BUZZ_FREQ_CTL, so its 16-bit increment never
      wraps around. */
  lemma BuzzStepKeepsPhase(b: Buzz, enabled: bool)
    requires b.cnt < BUZZ_FREQ_CTL
    ensures BuzzStep(b, enabled).cnt < BUZZ_FREQ_CTL
    ensures enabled ==> b.cnt + 1 < 0x1_0000
  {
  }

  /** The buzzer after k consecutive enabled iterations. */
  function Enabled(b: Buzz, k: nat): Buzz
    decreases k
  {
    if k == 0 then b else Enabled(BuzzStep(b, true), k - 1)
  }

  /** How many times BUZZ changes during k consecutive enabled iterations. */
  function Toggles(b: Buzz, k: nat): nat
    decreases k
  {
    if k == 0 then 0
    else
      var b' := BuzzStep(b, true);
      (if b'.pin != b.pin then 1 else 0) + Toggles(b', k - 1)
  }

  /** One enabled iteration from a counter below BUZZ_FREQ_CTL: either the
      counter wraps to 0 and BUZZ flips, or it advances by one and BUZZ
      stays. */
  lemma EnabledStep(b: Buzz)
    requires b.cnt < BUZZ_FREQ_CTL
    ensures BuzzStep(b, true) == if b.cnt + 1 == BUZZ_FREQ_CTL then Buzz(0, !b.pin) else Buzz(b.cnt + 1, b.pin)
  {
  }

  /** k enabled iterations from counter c: c + k is the number of completed
      periods times BUZZ_FREQ_CTL plus the final counter, and each completed
      period toggles BUZZ once. */
  lemma {:induction false} EnabledPeriods(b: Buzz, k: nat)
    requires b.cnt < BUZZ_FREQ_CTL
    ensures Enabled(b, k).cnt < BUZZ_FREQ_CTL
    ensures b.cnt + k == BUZZ_FREQ_CTL * Toggles(b, k) + Enabled(b, k).cnt
    decreases k
  {
    if k > 0 {
      var b' := BuzzStep(b, true);
      EnabledStep(b);
      EnabledPeriods(b', k - 1);
      assert Enabled(b, k) == Enabled(b', k - 1);
    }
  }

  /** After k enabled iterations BUZZ is inverted iff it toggled an odd
      number of times. */
  lemma {:induction false} EnabledParity(b: Buzz, k: nat)
    requires b.cnt < BUZZ_FREQ_CTL
    ensures Enabled(b, k).pin == (b.pin != (Toggles(b, k) % 2 == 1))
    decreases k
  {
    if k > 0 {
      var b' := BuzzStep(b, true);
      EnabledStep(b);
      EnabledParity(b', k - 1);
      assert Enabled(b, k) == Enabled(b', k - 1);
    }
  }

  /** A run of k enabled iterations starting from counter c toggles BUZZ
      exactly (c + k) / BUZZ_FREQ_CTL times and leaves the counter at
      (c + k) % BUZZ_FREQ_CTL; BUZZ ends inverted iff the number of toggles
      is odd. */
  lemma EnabledRun(b: Buzz, k: nat)
    requires b.cnt < BUZZ_FREQ_CTL
    ensures Toggles(b, k) == (b.cnt + k) / BUZZ_FREQ_CTL
    ensures Enabled(b, k).cnt == (b.cnt + k) % BUZZ_FREQ_CTL
    ensures Enabled(b, k).pin == (b.pin != (Toggles(b, k) % 2 == 1))
  {
    EnabledPeriods(b, k);
    EnabledParity(b, k);
    var t, c := Toggles(b, k), Enabled(b, k).cnt;
    assert b.cnt + k == BUZZ_FREQ_CTL * t + c;
  }

  /** Holding the buzzer enabled for 6600 iterations from a fresh counter
      toggles BUZZ exactly twice, bringing it back to its starting level
      with the counter at 0. */
  lemma TwoHalfPeriods(pin: bool)
    ensures Toggles(Buzz(0, pin), 2 * BUZZ_FREQ_CTL) == 2
    ensures Enabled(Buzz(0, pin), 2 * BUZZ_FREQ_CTL) == Buzz(0, pin)
  {
    EnabledRun(Buzz(0, pin), 2 * BUZZ_FREQ_CTL);
  }

  /** The phase is not lost while the buzzer is disabled: after a disabled
      iteration the next enabled run continues counting from where the
      counter stopped. */
  lemma PhaseSurvivesDisable(b: Buzz, k: nat)
    requires b.cnt < BUZZ_FREQ_CTL
    ensures Enabled(BuzzStep(b, false), k).cnt == (b.cnt + k) % BUZZ_FREQ_CTL
  {
    EnabledRun(BuzzStep(b, false), k);
  }
}
