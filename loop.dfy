/** One pass of the firmware's polling loop, as a function on the whole
    state: filter, vote, button, LEDs, buzzer, in that order.  Runs of
    several passes model the endless loop with a finite number of
    iterations. */
module ControlLoop {
  import opened SenseFilter
  import opened Buzzer

  /** The three input lines read in one pass, already as logical levels
      (touched / enabled). */
  datatype Inputs = Inputs(sense: bool, ledCtl: bool, buzzCtl: bool)

  /** Everything the loop keeps between passes: the sample history, the
      filtered state, the buzzer, and the PRESS, LED0 and LED1 outputs
      (BUZZ is buzzer.pin). */
  datatype State = State(
    history: seq<byte>,
    filtered: byte,
    buzzer: Buzz,
    press: bool,
    led0: bool,
    led1: bool)

  /** The state at power-up: an all-zero history, filtered state 0, counter 0
      and every output low. */
  function Init(): State
  {
    State(seq(SENSE_BUFF_LENGTH, _ => 0), 0, Buzz(0, false), false, false, false)
  }

  /** What holds between passes: the history is 64 bits; the filtered state
      is the vote over it; PRESS follows it; the two LEDs agree and are lit
      only while pressed; BUZZ is high only while pressed; the buzzer's
      counter is below BUZZ_FREQ_CTL. */
  predicate Inv(s: State)
  {
    && IsHistory(s.history)
    && s.filtered == Majority(s.history)
    && s.press == (s.filtered != 0)
    && s.led0 == s.led1
    && (s.led0 ==> s.press)
    && (s.buzzer.pin ==> s.press)
    && s.buzzer.cnt < BUZZ_FREQ_CTL
  }

  /** One iteration of the loop body. */
  function Iteration(s: State, i: Inputs): State
    requires |s.history| == SENSE_BUFF_LENGTH
  {
    var h := Shifted(s.history, Sample(i.sense));
    var f := Majority(h);
    var lit := f != 0 && i.ledCtl;
    State(h, f, BuzzStep(s.buzzer, f != 0 && i.buzzCtl), f != 0, lit, lit)
  }

  /** A zero history votes 0. */
  lemma {:induction false} SumZeros(n: nat)
    ensures Sum(seq(n, _ => 0)) == 0
  {
    if n > 0 {
      assert seq(n, _ => 0)[..n - 1] == seq(n - 1, _ => 0);
      SumZeros(n - 1);
    }
  }

  /** The power-up state satisfies the invariant. */
  lemma InitInv()
    ensures Inv(Init())
  {
    SumZeros(SENSE_BUFF_LENGTH);
  }

  /** One pass keeps the invariant, and its outputs are what the drivers
      promise: PRESS equals the new filtered state, LED0 and LED1 both equal
      (filtered and LED_CTL), and BUZZ is low whenever (filtered and
      BUZZ_CTL) is false, with the counter left where it was. */
  lemma IterationKeepsInv(s: State, i: Inputs)
    requires Inv(s)
    ensures Inv(Iteration(s, i))
    ensures Iteration(s, i).press == (Iteration(s, i).filtered == 1)
    ensures Iteration(s, i).led0 == Iteration(s, i).led1 == (Iteration(s, i).filtered == 1 && i.ledCtl)
    ensures !(Iteration(s, i).filtered == 1 && i.buzzCtl) ==>
      !Iteration(s, i).buzzer.pin && Iteration(s, i).buzzer.cnt == s.buzzer.cnt
  {
  }

  /** The state after running the loop body once per element of ins. */
  function Run(s: State, ins: seq<Inputs>): (r: State)
    requires |s.history| == SENSE_BUFF_LENGTH
    ensures |r.history| == SENSE_BUFF_LENGTH
    decreases |ins|
  {
    if ins == [] then s else Run(Iteration(s, ins[0]), ins[1..])
  }

  /** Running a then b is running a + b. */
  lemma {:induction false} RunAppend(s: State, a: seq<Inputs>, b: seq<Inputs>)
    requires |s.history| == SENSE_BUFF_LENGTH
    ensures Run(s, a + b) == Run(Run(s, a), b)
    decreases |a|
  {
    if a != [] {
      assert (a + b)[1..] == a[1..] + b;
      RunAppend(Iteration(s, a[0]), a[1..], b);
    } else {
      assert a + b == b;
    }
  }

  /** The last pass of a run is one more iteration. */
  lemma RunSnoc(s: State, ins: seq<Inputs>, i: Inputs)
    requires |s.history| == SENSE_BUFF_LENGTH
    ensures Run(s, ins + [i]) == Iteration(Run(s, ins), i)
  {
    RunAppend(s, ins, [i]);
  }

  /** Every run keeps the invariant. */
  lemma {:induction false} RunKeepsInv(s: State, ins: seq<Inputs>)
    requires Inv(s)
    ensures Inv(Run(s, ins))
    decreases |ins|
  {
    if ins != [] {
      IterationKeepsInv(s, ins[0]);
      RunKeepsInv(Iteration(s, ins[0]), ins[1..]);
    }
  }

  /** The raw samples of a run's SENSE readings, in reading order. */
  function Samples(ins: seq<Inputs>): seq<byte>
  {
    seq(|ins|, k requires 0 <= k < |ins| => Sample(ins[k].sense))
  }

  /** How many passes of a run read SENSE as touched. */
  function Touches(ins: seq<Inputs>): nat
  {
    if ins == [] then 0 else (if ins[0].sense then 1 else 0) + Touches(ins[1..])
  }

  /** Adding up the samples counts the touched readings. */
  lemma {:induction false} SumSamples(ins: seq<Inputs>)
    ensures Sum(Samples(ins)) == Touches(ins)
  {
    if ins != [] {
      SumFront(Samples(ins));
      assert Samples(ins)[1..] == Samples(ins[1..]);
      SumSamples(ins[1..]);
    }
  }

  /** The history after a run is the old history fed with the run's samples. */
  lemma {:induction false} RunHistory(s: State, ins: seq<Inputs>)
    requires |s.history| == SENSE_BUFF_LENGTH
    ensures Run(s, ins).history == Feed(s.history, Samples(ins))
    decreases |ins|
  {
    if ins != [] {
      assert Samples(ins)[1..] == Samples(ins[1..]);
      RunHistory(Iteration(s, ins[0]), ins[1..]);
    }
  }

  /** After any run from a valid state the filtered state is the vote over
      the history. */
  lemma RunFiltered(s: State, ins: seq<Inputs>)
    requires Inv(s)
    ensures Run(s, ins).filtered == Majority(Run(s, ins).history)
  {
    RunKeepsInv(s, ins);
  }

  /** The samples of the last passes of a run add up to the number of
      touched readings among those passes. */
  lemma SuffixSamplesSum(ins: seq<Inputs>, m: nat)
    requires m <= |ins|
    ensures Sum(Samples(ins)[m..]) == Touches(ins[m..])
  {
    assert Samples(ins)[m..] == Samples(ins[m..]);
    SumSamples(ins[m..]);
  }

  /** The vote over a history fed 64 or more readings is "pressed" exactly
      when at least 32 of the 64 most recent readings were touched. */
  lemma RecentMajority(h: seq<byte>, ins: seq<Inputs>)
    requires |h| == SENSE_BUFF_LENGTH && |ins| >= SENSE_BUFF_LENGTH
    ensures Majority(Feed(h, Samples(ins))) == 1 <==>
      Touches(ins[|ins| - SENSE_BUFF_LENGTH..]) >= VOTE_THRESHOLD
  {
    var m := |ins| - SENSE_BUFF_LENGTH;
    var xs := Samples(ins);
    var v := Majority(Feed(h, xs));
    assert v == 1 <==> Sum(xs[m..]) >= VOTE_THRESHOLD by {
      RecentVote(h, xs, m);
    }
    SuffixSamplesSum(ins, m);
  }

  /** After 64 or more passes the filtered state is "pressed" exactly when at
      least 32 of the 64 most recent SENSE readings were touched. */
  lemma FilteredIsRecentMajority(s: State, ins: seq<Inputs>)
    requires Inv(s) && |ins| >= SENSE_BUFF_LENGTH
    ensures Run(s, ins).filtered == 1 <==>
      Touches(ins[|ins| - SENSE_BUFF_LENGTH..]) >= VOTE_THRESHOLD
  {
    RunFiltered(s, ins);
    RunHistory(s, ins);
    RecentMajority(s.history, ins);
  }

  /** From states that agree on the history, the same run leads to the same
      history and the same filtered state. */
  lemma SameHistorySameFilter(s1: State, s2: State, ins: seq<Inputs>)
    requires Inv(s1) && Inv(s2) && s1.history == s2.history
    ensures Run(s1, ins).history == Run(s2, ins).history
    ensures Run(s1, ins).filtered == Run(s2, ins).filtered
  {
    RunHistory(s1, ins);
    RunHistory(s2, ins);
    RunKeepsInv(s1, ins);
    RunKeepsInv(s2, ins);
  }

  /** The outputs after a non-empty run come from its last pass: PRESS is the
      filtered state, and both LEDs are (filtered and the last LED_CTL). */
  lemma RunOutputs(s: State, ins: seq<Inputs>)
    requires |s.history| == SENSE_BUFF_LENGTH && ins != []
    ensures Run(s, ins).press == (Run(s, ins).filtered != 0)
    ensures Run(s, ins).led0 == Run(s, ins).led1 == (Run(s, ins).filtered != 0 && ins[|ins| - 1].ledCtl)
  {
    var n := |ins|;
    assert ins == ins[..n - 1] + [ins[n - 1]];
    RunSnoc(s, ins[..n - 1], ins[n - 1]);
  }

  /** After 64 or more passes the filter has forgotten where it started: from
      any two states the same run gives the same history, filtered state,
      PRESS and LEDs. */
  lemma OldSamplesForgotten(s1: State, s2: State, ins: seq<Inputs>)
    requires Inv(s1) && Inv(s2) && |ins| >= SENSE_BUFF_LENGTH
    ensures Run(s1, ins).history == Run(s2, ins).history
    ensures Run(s1, ins).filtered == Run(s2, ins).filtered
    ensures Run(s1, ins).press == Run(s2, ins).press
    ensures Run(s1, ins).led0 == Run(s2, ins).led0 && Run(s1, ins).led1 == Run(s2, ins).led1
  {
    RunHistory(s1, ins);
    RunHistory(s2, ins);
    FeedForgets(s1.history, s2.history, Samples(ins));
    RunKeepsInv(s1, ins);
    RunKeepsInv(s2, ins);
    RunOutputs(s1, ins);
    RunOutputs(s2, ins);
  }

  /** Counting touches in a run whose touched readings are exactly the
      positions lo .. hi - 1. */
  lemma {:induction false} TouchesBlock(ins: seq<Inputs>, lo: nat, hi: nat)
    requires lo <= hi <= |ins|
    requires forall k :: 0 <= k < |ins| ==> (ins[k].sense <==> lo <= k < hi)
    ensures Touches(ins) == hi - lo
  {
    if ins != [] {
      if lo > 0 {
        TouchesBlock(ins[1..], lo - 1, hi - 1);
      } else if hi > 0 {
        TouchesBlock(ins[1..], 0, hi - 1);
      } else {
        TouchesBlock(ins[1..], 0, 0);
      }
    }
  }

  /** n passes reading SENSE as t, with both enable inputs off. */
  function Hold(t: bool, n: nat): (ins: seq<Inputs>)
    ensures |ins| == n && forall k :: 0 <= k < n ==> ins[k] == Inputs(t, false, false)
  {
    seq(n, _ => Inputs(t, false, false))
  }

  /** m pairs of passes, each a touched reading followed by an untouched one. */
  function Alternating(m: nat): (ins: seq<Inputs>)
    ensures |ins| == 2 * m && Touches(ins) == m
  {
    if m == 0 then [] else [Inputs(true, false, false), Inputs(false, false, false)] + Alternating(m - 1)
  }

  /** Samples alternating touched / untouched over 64 passes leave the vote
      tied at 32, and a tie reads as pressed, whatever the starting state. */
  lemma AlternatingTieIsPressed(s: State)
    requires Inv(s)
    ensures Run(s, Alternating(VOTE_THRESHOLD)).filtered == 1
    ensures Run(s, Alternating(VOTE_THRESHOLD)).press
  {
    var ins := Alternating(VOTE_THRESHOLD);
    assert ins[|ins| - SENSE_BUFF_LENGTH..] == ins;
    FilteredIsRecentMajority(s, ins);
    RunKeepsInv(s, ins);
  }

  /** From power-up, 40 touched passes followed by j untouched ones: the
      filtered state stays pressed while at least 32 of the last 64 samples
      are set, and drops at exactly the 33rd untouched pass. */
  lemma ReleaseAfterHold(j: nat)
    requires j <= SENSE_BUFF_LENGTH
    ensures Run(Init(), Hold(true, 40) + Hold(false, j)).filtered == (if j <= 32 then 1 else 0)
  {
    var ins := Hold(true, 40) + Hold(false, j);
    var pre := Hold(false, SENSE_BUFF_LENGTH);
    var all := pre + ins;
    InitInv();
    // Power-up looks as if 64 untouched passes had already happened.
    assert Run(Init(), ins).filtered == Run(Init(), all).filtered by {
      var t := Run(Init(), pre);
      RunKeepsInv(Init(), pre);
      RunHistory(Init(), pre);
      RecentWindow(Init().history, Samples(pre));
      assert t.history == Init().history;
      SameHistorySameFilter(t, Init(), ins);
      RunAppend(Init(), pre, ins);
    }
    var recent := all[|all| - SENSE_BUFF_LENGTH..];
    var lo := if j <= 24 then 24 - j else 0;
    assert Touches(recent) == SENSE_BUFF_LENGTH - j - lo by {
      forall k | 0 <= k < |recent|
        ensures recent[k].sense <==> lo <= k < SENSE_BUFF_LENGTH - j
      {
        assert recent[k] == all[40 + j + k];
      }
      TouchesBlock(recent, lo, SENSE_BUFF_LENGTH - j);
    }
    FilteredIsRecentMajority(Init(), all);
    RunKeepsInv(Init(), ins);
  }

  /** With LED_CTL off on every pass, both LEDs are dark after every pass,
      whatever the filtered state. */
  lemma {:induction false} LedsDarkWithoutEnable(s: State, ins: seq<Inputs>)
    requires |s.history| == SENSE_BUFF_LENGTH
    requires forall k :: 0 <= k < |ins| ==> !ins[k].ledCtl
    ensures forall k :: 1 <= k <= |ins| ==> !Run(s, ins[..k]).led0 && !Run(s, ins[..k]).led1
  {
    forall k | 1 <= k <= |ins|
      ensures !Run(s, ins[..k]).led0 && !Run(s, ins[..k]).led1
    {
      assert ins[..k] == ins[..k - 1] + [ins[k - 1]];
      RunSnoc(s, ins[..k - 1], ins[k - 1]);
    }
  }
}
