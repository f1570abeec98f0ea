/**
 * The two pieces of the script that remember a timestamp between events:
 * throttle(fn, wait) (js/script.js:377-383), which lets a call through only
 * when at least `wait` milliseconds have passed since the last call it let
 * through, and the double-tap guard on touchend (js/script.js:262-269),
 * which cancels a touchend that comes within 300 milliseconds of the
 * previous touchend, let through or not. Timestamps are Date.now() values,
 * passed in by the caller.
 */
module Timing {

  /** The last element of [first] + s. */
  function LastOr(first: int, s: seq<int>): int {
    if s == [] then first else s[|s| - 1]
  }

  /** Consecutive elements of [first] + s are at least gap apart. */
  ghost predicate Spaced(first: int, s: seq<int>, gap: int) {
    (s != [] ==> s[0] - first >= gap)
    && forall i :: 0 < i < |s| ==> s[i] - s[i - 1] >= gap
  }

  /** Any two calls let through are at least gap times their distance in the list apart. */
  lemma {:induction false} SpacedApart(first: int, s: seq<int>, gap: int, i: nat, j: nat)
    requires Spaced(first, s, gap)
    requires i <= j < |s|
    ensures s[j] - s[i] >= (j - i) * gap
    decreases j - i
  {
    if i < j {
      SpacedApart(first, s, gap, i, j - 1);
      assert s[j] - s[j - 1] >= gap;
      assert (j - i) * gap == (j - 1 - i) * gap + gap;
    }
  }

  /**
   * The closure throttle returns. `last` starts at 0; `fired` records the
   * time of every call passed on to fn.
   */
  class Throttle {
    const wait: int
    var last: int
    var fired: seq<int>

    ghost predicate Valid()
      reads this
    {
      last == LastOr(0, fired) && Spaced(0, fired, wait)
    }

    constructor(wait: int)
      ensures Valid()
      ensures this.wait == wait && last == 0 && fired == []
    {
      this.wait := wait;
      last := 0;
      fired := [];
    }

    /** One call of the throttled function at time now; ran says whether fn was called. */
    method Call(now: int) returns (ran: bool)
      requires Valid()
      modifies this
      ensures Valid()
      ensures ran <==> now - old(last) >= wait
      ensures fired == old(fired) + (if ran then [now] else [])
    {
      if now - last >= wait {
        last := now;
        fired := fired + [now];
        ran := true;
      } else {
        ran := false;
      }
    }
  }

  /** A touchend within this many milliseconds of the previous one is cancelled. */
  const DoubleTapWindow: int := 300

  /**
   * Whether each touchend at the given times is cancelled: each is compared
   * with the one before it, the first with `last`.
   */
  function Cancelled(last: int, times: seq<int>): (r: seq<bool>)
    ensures |r| == |times|
    ensures forall i :: 0 <= i < |times| ==>
      (r[i] <==> times[i] - (if i == 0 then last else times[i - 1]) <= DoubleTapWindow)
    decreases |times|
  {
    if times == [] then []
    else [times[0] - last <= DoubleTapWindow] + Cancelled(times[0], times[1..])
  }

  /**
   * The guard's whole effect depends only on the times themselves: a
   * cancelled touchend still counts as the previous one, so a run of taps
   * each within the window of the one before is cancelled from the second on.
   */
  lemma {:induction false} RapidTapsCancelled(times: seq<int>, last: int)
    requires forall i :: 0 < i < |times| ==> times[i] - times[i - 1] <= DoubleTapWindow
    ensures forall i :: 0 < i < |times| ==> Cancelled(last, times)[i]
  {
    var r := Cancelled(last, times);
    forall i | 0 < i < |times|
      ensures r[i]
    {
      assert times[i] - times[i - 1] <= DoubleTapWindow;
    }
  }

  /** The document-wide touchend listener and its lastTouchEnd. */
  class DoubleTapGuard {
    var lastTouchEnd: int
    /** The times of the touchends seen so far and whether each was cancelled. */
    var ends: seq<int>
    var cancelled: seq<bool>

    ghost predicate Valid()
      reads this
    {
      lastTouchEnd == LastOr(0, ends) && cancelled == Cancelled(0, ends)
    }

    constructor()
      ensures Valid()
      ensures lastTouchEnd == 0 && ends == []
    {
      lastTouchEnd := 0;
      ends := [];
      cancelled := [];
    }

    /** One touchend at time now; prevented says whether preventDefault was called. */
    method TouchEnd(now: int) returns (prevented: bool)
      requires Valid()
      modifies this
      ensures Valid()
      ensures prevented <==> now - old(lastTouchEnd) <= DoubleTapWindow
      ensures lastTouchEnd == now && ends == old(ends) + [now]
    {
      prevented := now - lastTouchEnd <= DoubleTapWindow;
      CancelledSnoc(0, ends, now);
      lastTouchEnd := now;
      ends := ends + [now];
      cancelled := cancelled + [prevented];
    }
  }

  lemma {:induction false} CancelledSnoc(last: int, times: seq<int>, now: int)
    ensures Cancelled(last, times + [now])
         == Cancelled(last, times) + [now - LastOr(last, times) <= DoubleTapWindow]
    decreases |times|
  {
    if times != [] {
      assert (times + [now])[1..] == times[1..] + [now];
      CancelledSnoc(times[0], times[1..], now);
      assert LastOr(times[0], times[1..]) == LastOr(last, times);
    }
  }
}
