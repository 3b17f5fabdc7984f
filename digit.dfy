/**
  Score and status digits. Drawing the seven segments is not modelled; what
  is modelled is the value a digit shows and its blink timer: once armed, a
  digit hides and shows every 10 ticks and counts down five reappearances.
*/
module Digits {

  const BlinkCount := 5
  /** Ticks (updates) between a hide and a show. */
  const BlinkInterval := 10

  /** The part of a digit that one tick of the blink timer changes. */
  datatype BlinkState = BlinkState(visible: bool, blinksLeft: int, blinkTimer: int)

  /**
    One tick of the blink timer. A digit with blinks left counts its timer
    down; when the timer runs out a shown digit hides and restarts the timer,
    and a hidden digit shows, uses up one blink and restarts the timer only
    if blinks remain.
  */
  function BlinkStep(s: BlinkState): (t: BlinkState)
    // a digit that is not blinking is left alone
    ensures s.blinksLeft <= 0 ==> t == s
    // blinks are used up one at a time, exactly on a hidden-to-shown change
    ensures t.blinksLeft == s.blinksLeft || (t.blinksLeft == s.blinksLeft - 1 && !s.visible && t.visible)
    ensures s.blinksLeft > 0 && !s.visible && t.visible ==> t.blinksLeft == s.blinksLeft - 1
    // and never below zero; the last one leaves the digit shown
    ensures s.blinksLeft > 0 ==> t.blinksLeft >= 0
    ensures s.blinksLeft > 0 && t.blinksLeft == 0 ==> t.visible
  {
    if s.blinksLeft > 0 then
      var timer := s.blinkTimer - 1;
      if s.visible then
        if timer <= 0 then BlinkState(false, s.blinksLeft, BlinkInterval) else s.(blinkTimer := timer)
      else
        if timer <= 0 then
          var left := s.blinksLeft - 1;
          BlinkState(true, left, if left > 0 then BlinkInterval else timer)
        else s.(blinkTimer := timer)
    else s
  }

  /** The blink state after n ticks. */
  function Steps(s: BlinkState, n: nat): BlinkState
    decreases n
  {
    if n == 0 then s else Steps(BlinkStep(s), n - 1)
  }

  lemma {:induction false} StepsAdd(s: BlinkState, a: nat, b: nat)
    ensures Steps(s, a + b) == Steps(Steps(s, a), b)
    decreases a
  {
    if a > 0 {
      StepsAdd(BlinkStep(s), a - 1, b);
    }
  }

  /** While the timer has more than one tick to go, a tick only counts it down. */
  lemma {:induction false} CountDown(s: BlinkState, k: nat)
    requires s.blinksLeft > 0 && k < s.blinkTimer
    ensures Steps(s, k) == s.(blinkTimer := s.blinkTimer - k)
    decreases k
  {
    if k > 0 {
      var t := BlinkStep(s);
      assert t == s.(blinkTimer := s.blinkTimer - 1);
      CountDown(t, k - 1);
    }
  }

  /** A full interval: a shown digit hides, keeping its blinks. */
  lemma Hide(b: int)
    requires b > 0
    ensures Steps(BlinkState(true, b, BlinkInterval), BlinkInterval) == BlinkState(false, b, BlinkInterval)
  {
    var s := BlinkState(true, b, BlinkInterval);
    StepsAdd(s, BlinkInterval - 1, 1);
    CountDown(s, BlinkInterval - 1);
  }

  /** A full interval: a hidden digit shows and uses up one blink. */
  lemma Show(b: int)
    requires b > 0
    ensures Steps(BlinkState(false, b, BlinkInterval), BlinkInterval)
         == BlinkState(true, b - 1, if b > 1 then BlinkInterval else 0)
  {
    var s := BlinkState(false, b, BlinkInterval);
    StepsAdd(s, BlinkInterval - 1, 1);
    CountDown(s, BlinkInterval - 1);
  }

  /** A hide-and-show cycle of 20 ticks per blink brings a hidden digit down to its last blink. */
  lemma {:induction false} ToLastBlink(b: int)
    requires b >= 1
    ensures Steps(BlinkState(false, b, BlinkInterval), 20 * (b - 1)) == BlinkState(false, 1, BlinkInterval)
    decreases b
  {
    if b > 1 {
      var s := BlinkState(false, b, BlinkInterval);
      var shown := BlinkState(true, b - 1, BlinkInterval);
      Show(b);
      Hide(b - 1);
      StepsAdd(s, BlinkInterval, 10 + 20 * (b - 2));
      StepsAdd(shown, BlinkInterval, 20 * (b - 2));
      ToLastBlink(b - 1);
    }
  }

  /** From hidden with b blinks left, the digit settles shown after 20b - 10 ticks. */
  lemma Settle(b: int)
    requires b > 0
    ensures Steps(BlinkState(false, b, BlinkInterval), 20 * b - 10) == BlinkState(true, 0, 0)
  {
    StepsAdd(BlinkState(false, b, BlinkInterval), 20 * (b - 1), BlinkInterval);
    ToLastBlink(b);
    Show(1);
  }

  /** One tick before settling, the digit is still hidden with its last blink left. */
  lemma LastTick(b: int)
    requires b > 0
    ensures Steps(BlinkState(false, b, BlinkInterval), 20 * b - 11) == BlinkState(false, 1, 1)
  {
    StepsAdd(BlinkState(false, b, BlinkInterval), 20 * (b - 1), BlinkInterval - 1);
    ToLastBlink(b);
    CountDown(BlinkState(false, 1, BlinkInterval), BlinkInterval - 1);
  }

  /**
    An armed digit blinks five times and then stays shown: 91 ticks when it
    was shown when armed (it hides first), 81 when it was hidden. One tick
    earlier it is still hidden with a blink left.
  */
  lemma BlinkSettles(visible: bool)
    ensures var n := if visible then 91 else 81;
            && Steps(BlinkState(visible, BlinkCount, 0), n) == BlinkState(true, 0, 0)
            && Steps(BlinkState(visible, BlinkCount, 0), n - 1) == BlinkState(false, 1, 1)
  {
    var s := BlinkState(visible, BlinkCount, 0);
    if visible {
      var h := BlinkState(false, BlinkCount, BlinkInterval);
      assert BlinkStep(s) == h;
      StepsAdd(s, 1, 90);
      StepsAdd(s, 1, 89);
      Settle(BlinkCount);
      LastTick(BlinkCount);
    } else {
      var v := BlinkState(true, BlinkCount - 1, BlinkInterval);
      assert BlinkStep(s) == v;
      StepsAdd(s, 1, 80);
      StepsAdd(s, 1, 79);
      Hide(BlinkCount - 1);
      StepsAdd(v, BlinkInterval, 70);
      StepsAdd(v, BlinkInterval, 69);
      Settle(BlinkCount - 1);
      LastTick(BlinkCount - 1);
    }
  }

  class Digit {
    var value: int
    var visible: bool
    var blinksLeft: int
    var blinkTimer: int

    function Blink(): BlinkState
      reads this
    {
      BlinkState(visible, blinksLeft, blinkTimer)
    }

    /** A digit showing 0, visible and not blinking. */
    constructor ()
      ensures value == 0 && visible && blinksLeft == 0 && blinkTimer == 0
    {
      value := 0;
      visible := true;
      blinksLeft := 0;
      blinkTimer := 0;
    }

    /** One tick of the blink timer; the value is untouched. */
    method Update(dt: real)
      modifies this
      ensures Blink() == BlinkStep(old(Blink()))
      ensures value == old(value)
    {
      if blinksLeft > 0 {
        blinkTimer := blinkTimer - 1;
        if visible {
          if blinkTimer <= 0 {
            visible := false;
            blinkTimer := BlinkInterval;
          }
        } else {
          if blinkTimer <= 0 {
            visible := true;
            blinksLeft := blinksLeft - 1;
            if blinksLeft > 0 {
              blinkTimer := BlinkInterval;
            }
          }
        }
      }
    }

    /**
      Arm (five blinks, timer expired, visibility kept) or cancel (no blinks,
      shown) the blinking.
    */
    method SetBlink(active: bool)
      modifies this
      ensures active ==> Blink() == BlinkState(old(visible), BlinkCount, 0)
      ensures !active ==> Blink() == BlinkState(true, 0, 0)
      ensures value == old(value)
    {
      if active == false {
        blinksLeft := 0;
        blinkTimer := 0;
        visible := true;
      } else {
        blinksLeft := BlinkCount;
        blinkTimer := 0;
      }
    }
  }
}
