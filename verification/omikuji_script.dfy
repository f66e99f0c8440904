/**
 * The vanilla site's omikuji page: the box is shaken three times, one shake
 * at a time, before the stick appears. The timer that ends a shake is the
 * method `FinishShake`.
 */
module OmikujiScript {
  import opened Wrappers

  /** The page's globals `shakeCount`, `isShaking`, `omikujiResult`, the visible step and the counter text. */
  class OmikujiPage {
    var shakeCount: int
    var isShaking: bool
    var omikujiResult: Option<string>
    var step: int
    var counterShown: int

    /** At most three shakes, and a shake in progress has been counted. */
    predicate Valid()
      reads this
    {
      0 <= shakeCount <= 3 && (isShaking ==> shakeCount >= 1)
    }

    /** `initializeOmikuji()`: a fresh state on step 1. */
    constructor()
      ensures Valid()
      ensures shakeCount == 0 && !isShaking && omikujiResult.None? && step == 1 && counterShown == 0
    {
      shakeCount := 0;
      isShaking := false;
      omikujiResult := None;
      step := 1;
      counterShown := 0;
    }

    /** `resetOmikujiState()`: count zero, not shaking, no result; the counter shows zero. */
    method ResetOmikujiState()
      modifies this
      ensures Valid()
      ensures shakeCount == 0 && !isShaking && omikujiResult.None? && counterShown == 0
      ensures step == old(step)
    {
      shakeCount := 0;
      isShaking := false;
      omikujiResult := None;
      counterShown := shakeCount;
    }

    /**
     * `shakeOmikuji()`: nothing happens during a shake or after the third;
     * otherwise one more shake starts and the counter shows it.
     */
    method Shake() returns (started: bool)
      requires Valid()
      modifies this
      ensures Valid()
      ensures started <==> !old(isShaking) && old(shakeCount) < 3
      ensures !started ==> shakeCount == old(shakeCount) && isShaking == old(isShaking) && counterShown == old(counterShown)
      ensures started ==> shakeCount == old(shakeCount) + 1 && isShaking && counterShown == shakeCount
      ensures step == old(step) && omikujiResult == old(omikujiResult)
    {
      if isShaking || shakeCount >= 3 {
        return false;
      }
      isShaking := true;
      shakeCount := shakeCount + 1;
      counterShown := shakeCount;
      started := true;
    }

    /**
     * The timer at the end of a shake: the shake is over, and after the
     * third one the page moves on to the stick (step 2).
     */
    method FinishShake()
      requires Valid()
      modifies this
      ensures Valid()
      ensures !isShaking && shakeCount == old(shakeCount)
      ensures step == (if shakeCount >= 3 then 2 else old(step))
      ensures omikujiResult == old(omikujiResult) && counterShown == old(counterShown)
    {
      isShaking := false;
      if shakeCount >= 3 {
        step := 2;
      }
    }

    /** `resetOmikuji()`: the state reset, back on step 1. */
    method ResetOmikuji()
      modifies this
      ensures Valid()
      ensures shakeCount == 0 && !isShaking && omikujiResult.None? && step == 1 && counterShown == 0
    {
      ResetOmikujiState();
      step := 1;
    }
  }

  /**
   * Clicking while a shake is running is ignored, three finished shakes
   * bring up the stick, and a fourth shake is refused.
   */
  method ThreeShakes(page: OmikujiPage) returns (fourth: bool)
    requires page.Valid() && page.shakeCount == 0 && !page.isShaking && page.step == 1
    modifies page
    ensures page.shakeCount == 3 && page.step == 2 && !fourth
  {
    var started := page.Shake();
    started := page.Shake();
    page.FinishShake();
    started := page.Shake();
    page.FinishShake();
    started := page.Shake();
    page.FinishShake();
    fourth := page.Shake();
  }
}
