/** Timed coroutines as data. A coroutine suspended in `WaitForSeconds`
    is a `Wait`: the frame time at which it was started and the time it
    waits for. The engine resumes it in the first later frame whose time
    has reached the deadline; a coroutine never resumes in the frame that
    started it. */
module Timing {

  datatype Wait = Wait(startedAt: real, until: real)

  /** The wait resumes in the frame at time `now`. */
  predicate Due(w: Wait, now: real)
  {
    w.startedAt < now && w.until <= now
  }

  /** Some wait in `ws` resumes in the frame at time `now`. */
  predicate AnyDue(ws: seq<Wait>, now: real)
  {
    exists i :: 0 <= i < |ws| && Due(ws[i], now)
  }

  /** The waits still pending after the frame at `now`, in their order:
      those that resumed are gone, the others stay. */
  function StillPending(ws: seq<Wait>, now: real): (r: seq<Wait>)
    ensures forall w :: w in r <==> w in ws && !Due(w, now)
    ensures |r| <= |ws|
    ensures |r| < |ws| <==> AnyDue(ws, now)
  {
    if ws == [] then []
    else
      var rest := StillPending(ws[1..], now);
      assert AnyDue(ws, now) <==> Due(ws[0], now) || AnyDue(ws[1..], now) by {
        if AnyDue(ws[1..], now) {
          var i :| 0 <= i < |ws[1..]| && Due(ws[1..][i], now);
          assert Due(ws[i + 1], now);
        }
        if AnyDue(ws, now) && !Due(ws[0], now) {
          var i :| 0 <= i < |ws| && Due(ws[i], now);
          assert Due(ws[1..][i - 1], now);
        }
      }
      if Due(ws[0], now) then rest else [ws[0]] + rest
  }
}
