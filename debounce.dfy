/**
 * The capture cooldown of the lock window. Every wrong input is compared
 * with the time of the last capture that went ahead: it goes ahead (fires)
 * only when at least `cooldown` seconds have passed, and only then moves
 * the time of the last capture. Times are whole seconds here.
 */
module Debounce {

  /** The test in `_trigger_wrong_input`: a wrong input within `cooldown` of the last capture is suppressed. */
  predicate Fires(cooldown: int, last: int, now: int) {
    !(now - last < cooldown)
  }

  /** `last_capture_ts` after wrong inputs at `times`, handled in order, starting from `start`. */
  function LastCapture(cooldown: int, start: int, times: seq<int>): int {
    if times == [] then start
    else
      var last := LastCapture(cooldown, start, times[..|times| - 1]);
      if Fires(cooldown, last, times[|times| - 1]) then times[|times| - 1] else last
  }

  /** The times of the wrong inputs among `times` that fired, in order. */
  function Fired(cooldown: int, start: int, times: seq<int>): seq<int> {
    if times == [] then []
    else
      var prefix := times[..|times| - 1];
      var now := times[|times| - 1];
      Fired(cooldown, start, prefix) + (if Fires(cooldown, LastCapture(cooldown, start, prefix), now) then [now] else [])
  }

  /** One more wrong input: it fires exactly when the cooldown since the last capture has passed. */
  lemma {:induction false} HandleOne(cooldown: int, start: int, times: seq<int>, now: int)
    ensures var last := LastCapture(cooldown, start, times);
      && LastCapture(cooldown, start, times + [now]) == (if Fires(cooldown, last, now) then now else last)
      && Fired(cooldown, start, times + [now]) == Fired(cooldown, start, times) + (if Fires(cooldown, last, now) then [now] else [])
  {
    assert (times + [now])[..|times|] == times;
  }

  /** The last capture is the last fired time, or the start when nothing fired; the fired times are a selection of the inputs. */
  lemma {:induction false} LastCaptureIsLastFired(cooldown: int, start: int, times: seq<int>)
    ensures var f := Fired(cooldown, start, times);
      && LastCapture(cooldown, start, times) == (if f == [] then start else f[|f| - 1])
      && |f| <= |times|
      && forall k :: 0 <= k < |f| ==> f[k] in times
  {
    if times != [] {
      var prefix := times[..|times| - 1];
      LastCaptureIsLastFired(cooldown, start, prefix);
      var f := Fired(cooldown, start, times);
      forall k | 0 <= k < |f| ensures f[k] in times {
        if k < |Fired(cooldown, start, prefix)| {
          assert f[k] == Fired(cooldown, start, prefix)[k];
          assert f[k] in prefix;
        } else {
          assert f[k] == times[|times| - 1];
        }
      }
    }
  }

  /** Each fired capture is at least `cooldown` after the previous one (or after the start). */
  lemma {:induction false} FiredSpaced(cooldown: int, start: int, times: seq<int>)
    ensures var f := Fired(cooldown, start, times);
      && (|f| > 0 ==> f[0] - start >= cooldown)
      && forall i :: 0 < i < |f| ==> f[i] - f[i - 1] >= cooldown
  {
    if times != [] {
      var prefix := times[..|times| - 1];
      FiredSpaced(cooldown, start, prefix);
      LastCaptureIsLastFired(cooldown, start, prefix);
    }
  }

  /** With a cooldown that is not negative, any two fired captures are at least `cooldown` apart. */
  lemma FiredPairwiseApart(cooldown: int, start: int, times: seq<int>)
    requires cooldown >= 0
    ensures var f := Fired(cooldown, start, times);
      forall i, j :: 0 <= i < j < |f| ==> f[j] - f[i] >= cooldown
  {
    var f := Fired(cooldown, start, times);
    FiredSpaced(cooldown, start, times);
    forall i, j | 0 <= i < j < |f| ensures f[j] - f[i] >= cooldown {
      GapsAdd(f, cooldown, i, j);
    }
  }

  lemma {:induction false} GapsAdd(f: seq<int>, cooldown: int, i: int, j: int)
    requires cooldown >= 0
    requires forall k :: 0 < k < |f| ==> f[k] - f[k - 1] >= cooldown
    requires 0 <= i < j < |f|
    ensures f[j] - f[i] >= cooldown
    decreases j - i
  {
    if j > i + 1 {
      GapsAdd(f, cooldown, i, j - 1);
      assert f[j] - f[j - 1] >= cooldown;
    }
  }

  /** The k-th fired capture (from 0) is at least `(k + 1) * cooldown` after the start. */
  lemma {:induction false} FiredLowerBound(cooldown: int, start: int, times: seq<int>, k: int)
    requires 0 <= k < |Fired(cooldown, start, times)|
    ensures Fired(cooldown, start, times)[k] >= start + (k + 1) * cooldown
  {
    var f := Fired(cooldown, start, times);
    FiredSpaced(cooldown, start, times);
    if k > 0 {
      FiredLowerBound(cooldown, start, times, k - 1);
      assert f[k] - f[k - 1] >= cooldown;
      assert (k + 1) * cooldown == k * cooldown + cooldown;
    }
  }

  /** Rate limit: wrong inputs up to `horizon` seconds after the start fire at most `horizon / cooldown` times. */
  lemma FiredCountBound(cooldown: int, start: int, times: seq<int>, horizon: int)
    requires cooldown > 0 && horizon >= 0
    requires forall k :: 0 <= k < |times| ==> times[k] <= start + horizon
    ensures |Fired(cooldown, start, times)| * cooldown <= horizon
  {
    var f := Fired(cooldown, start, times);
    if f != [] {
      FiredLowerBound(cooldown, start, times, |f| - 1);
      LastCaptureIsLastFired(cooldown, start, times);
      assert f[|f| - 1] in times;
      var k :| 0 <= k < |times| && times[k] == f[|f| - 1];
      assert f[|f| - 1] <= start + horizon;
    }
  }

  /** A burst of wrong inputs all within `cooldown` of the last capture is entirely suppressed. */
  lemma {:induction false} BurstSuppressed(cooldown: int, start: int, before: seq<int>, burst: seq<int>)
    requires forall k :: 0 <= k < |burst| ==> burst[k] - LastCapture(cooldown, start, before) < cooldown
    ensures LastCapture(cooldown, start, before + burst) == LastCapture(cooldown, start, before)
    ensures Fired(cooldown, start, before + burst) == Fired(cooldown, start, before)
    decreases |burst|
  {
    if burst == [] {
      assert before + burst == before;
    } else {
      var shorter := burst[..|burst| - 1];
      BurstSuppressed(cooldown, start, before, shorter);
      assert before + burst == (before + shorter) + [burst[|burst| - 1]];
      HandleOne(cooldown, start, before + shorter, burst[|burst| - 1]);
    }
  }

  /**
   * Wrong inputs that are each at least `cooldown` after the previous one
   * (the first at least `cooldown` after the start) all fire.
   */
  lemma {:induction false} SpacedAllFire(cooldown: int, start: int, times: seq<int>)
    requires |times| > 0 ==> times[0] - start >= cooldown
    requires forall k :: 0 < k < |times| ==> times[k] - times[k - 1] >= cooldown
    ensures Fired(cooldown, start, times) == times
    ensures LastCapture(cooldown, start, times) == if times == [] then start else times[|times| - 1]
  {
    if times != [] {
      var prefix := times[..|times| - 1];
      SpacedAllFire(cooldown, start, prefix);
      assert prefix + [times[|times| - 1]] == times;
    }
  }

  /** With no cooldown, every wrong input of a clock that does not go back fires. */
  lemma ZeroCooldownAllFire(start: int, times: seq<int>)
    requires |times| > 0 ==> start <= times[0]
    requires forall k :: 0 < k < |times| ==> times[k - 1] <= times[k]
    ensures Fired(0, start, times) == times
  {
    SpacedAllFire(0, start, times);
  }

  /**
   * `last_capture_ts` starts at 0, so on a clock that also starts at 0 a
   * wrong input in the first `cooldown` seconds is suppressed; on the wall
   * clock the window uses, the first wrong input fires.
   */
  lemma ClockFromZero()
    ensures Fired(30, 0, [0, 31, 62]) == [31, 62]
    ensures Fired(30, 0, [1_700_000_000, 1_700_000_031, 1_700_000_062]) == [1_700_000_000, 1_700_000_031, 1_700_000_062]
  {
    assert [] + [0] == [0] && [0] + [31] == [0, 31] && [0, 31] + [62] == [0, 31, 62];
    HandleOne(30, 0, [], 0);
    HandleOne(30, 0, [0], 31);
    HandleOne(30, 0, [0, 31], 62);
    SpacedAllFire(30, 0, [1_700_000_000, 1_700_000_031, 1_700_000_062]);
  }
}
