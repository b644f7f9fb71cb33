/** The firmware's global state and routines as a class: the sample array
    is shifted in place, the vote accumulates in a loop, and the drivers
    write the output pins.  Each routine is proved against the functions of
    SenseFilter, Buzzer and ControlLoop. */
module Firmware {
  import opened SenseFilter
  import opened Buzzer
  import opened ControlLoop

  class TouchButton {
    /** sense_buff: the raw samples, newest at index 0. */
    const senseBuff: array<byte>
    /** sense_filtered: the latest vote. */
    var senseFiltered: byte
    /** buzz_cnt: the buzzer's phase counter. */
    var buzzCnt: uint16
    /** The output pins PRESS, LED0, LED1 and BUZZ. */
    var press: bool
    var led0: bool
    var led1: bool
    var buzz: bool

    /** The state as a value of ControlLoop.State. */
    ghost function Abs(): State
      reads this, senseBuff
    {
      State(senseBuff[..], senseFiltered, Buzz(buzzCnt, buzz), press, led0, led1)
    }

    /** The object invariant: the loop's invariant holds of the state. */
    ghost predicate Valid()
      reads this, senseBuff
    {
      Inv(Abs())
    }

    /** Power-up: zero-initialised globals and all outputs low. */
    constructor ()
      ensures Valid() && fresh(senseBuff)
      ensures Abs() == Init()
    {
      senseBuff := new byte[SENSE_BUFF_LENGTH](_ => 0);
      senseFiltered, buzzCnt := 0, 0;
      press, led0, led1, buzz := false, false, false, false;
      new;
      assert senseBuff[..] == Init().history;
      InitInv();
    }

    /** run_LP_filt: shift the samples one slot toward the tail, from the
        tail down, and store the new sample at index 0.  The loop starts at
        the last slot (63): the code as written starts one slot further, past
        the end of the array (see module ShiftAsWritten). */
    method RunLPFilt(touched: bool)
      requires senseBuff.Length == SENSE_BUFF_LENGTH
      modifies senseBuff
      ensures senseBuff[..] == Shifted(old(senseBuff[..]), Sample(touched))
    {
      var i := SENSE_BUFF_LENGTH - 1;
      while i > 0
        invariant 0 <= i < SENSE_BUFF_LENGTH
        invariant forall k :: 0 <= k <= i ==> senseBuff[k] == old(senseBuff[k])
        invariant forall k :: i < k < SENSE_BUFF_LENGTH ==> senseBuff[k] == old(senseBuff[k - 1])
      {
        senseBuff[i] := senseBuff[i - 1];
        i := i - 1;
      }
      senseBuff[0] := Sample(touched);
    }

    /** vote: add up the samples in a 16-bit accumulator and compare the
        total with half the history length. */
    method Vote() returns (v: byte)
      requires senseBuff.Length == SENSE_BUFF_LENGTH
      ensures v == Majority(senseBuff[..])
    {
      var cnt: uint16 := 0;
      for i := 0 to SENSE_BUFF_LENGTH
        invariant cnt == Sum(senseBuff[..i])
      {
        SumPrefixStep(senseBuff[..], i);
        assert senseBuff[..i + 1] == senseBuff[..][..i + 1];
        cnt := (cnt + senseBuff[i]) % 0x1_0000;
      }
      assert senseBuff[..SENSE_BUFF_LENGTH] == senseBuff[..];
      if cnt >= SENSE_BUFF_LENGTH / 2 {
        v := 1;
      } else {
        v := 0;
      }
    }

    /** run_button_func: PRESS follows the filtered state; nothing else
        changes. */
    method RunButtonFunc()
      modifies this`press
      ensures press == (senseFiltered != 0)
    {
      if senseFiltered != 0 {
        press := true;
      } else {
        press := false;
      }
    }

    /** run_LED_func: both LEDs lit iff the filtered state and LED_CTL are
        both true, cleared together otherwise; nothing else changes. */
    method RunLEDFunc(ledCtl: bool)
      modifies this`led0, this`led1
      ensures led0 == led1 == (senseFiltered != 0 && ledCtl)
    {
      if senseFiltered != 0 && ledCtl {
        led0 := true;
        led1 := true;
      } else {
        led0 := false;
        led1 := false;
      }
    }

    /** run_buzz_func: the counter and BUZZ move as one BuzzStep, enabled by
        the filtered state and BUZZ_CTL; nothing else changes. */
    method RunBuzzFunc(buzzCtl: bool)
      modifies this`buzzCnt, this`buzz
      ensures Buzz(buzzCnt, buzz) == BuzzStep(old(Buzz(buzzCnt, buzz)), senseFiltered != 0 && buzzCtl)
    {
      if senseFiltered != 0 && buzzCtl {
        buzzCnt := (buzzCnt + 1) % 0x1_0000;
        if buzzCnt == BUZZ_FREQ_CTL {
          buzzCnt := 0;
          buzz := !buzz;
        }
      } else {
        buzz := false;
      }
    }

    /** One pass of the main loop: filter, vote, button, LEDs, buzzer. */
    method Step(sense: bool, ledCtl: bool, buzzCtl: bool)
      requires Valid()
      modifies this, senseBuff
      ensures Valid()
      ensures Abs() == Iteration(old(Abs()), Inputs(sense, ledCtl, buzzCtl))
    {
      IterationKeepsInv(Abs(), Inputs(sense, ledCtl, buzzCtl));
      RunLPFilt(sense);
      senseFiltered := Vote();
      RunButtonFunc();
      RunLEDFunc(ledCtl);
      RunBuzzFunc(buzzCtl);
    }

    /** The endless loop cut to one pass per element of ins. */
    method RunFor(ins: seq<Inputs>)
      requires Valid()
      modifies this, senseBuff
      ensures Valid()
      ensures Abs() == Run(old(Abs()), ins)
    {
      for n := 0 to |ins|
        invariant Valid()
        invariant Abs() == Run(old(Abs()), ins[..n])
      {
        RunSnoc(old(Abs()), ins[..n], ins[n]);
        assert ins[..n + 1] == ins[..n] + [ins[n]];
        Step(ins[n].sense, ins[n].ledCtl, ins[n].buzzCtl);
      }
      assert ins[..|ins|] == ins;
    }
  }
}
