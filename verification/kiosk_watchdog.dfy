/** The kiosk idle watchdog: after a quiet spell the kiosk is soft-reset once,
    and after a longer one the page is reloaded. Times are `Date.now()`
    readings in milliseconds, passed in by the caller; the interval timer and
    the event listeners that drive the transitions are not modelled. */
module KioskWatchdog {
  import opened Js

  const DefaultSoftResetMs: int := 5 * 60 * 1000
  const DefaultHardReloadMs: int := 10 * 60 * 1000

  /** The watchdog's closure state and its thresholds. */
  datatype Watchdog = Watchdog(softResetMs: int, hardReloadMs: int, lastActivity: int, softResetDone: bool)

  /** What a transition asks of the page: call `onSoftReset`, reload. */
  datatype Effects = Effects(softReset: bool, reload: bool)

  const NoEffects := Effects(false, false)

  /** `startKioskIdleWatchdog(options)` at time `now`: an omitted threshold
      takes its default. */
  function Start(softResetMs: Option<int>, hardReloadMs: Option<int>, now: int): (w: Watchdog)
    ensures w.softResetMs == (if softResetMs.Some? then softResetMs.value else 300000)
    ensures w.hardReloadMs == (if hardReloadMs.Some? then hardReloadMs.value else 600000)
    ensures w.lastActivity == now && !w.softResetDone
  {
    Watchdog(softResetMs.GetOr(DefaultSoftResetMs), hardReloadMs.GetOr(DefaultHardReloadMs), now, false)
  }

  /** `markActivity()`: a touch, click or key press at `now`. */
  function MarkActivity(w: Watchdog, now: int): (w': Watchdog)
    ensures w'.lastActivity == now && !w'.softResetDone
    ensures w'.softResetMs == w.softResetMs && w'.hardReloadMs == w.hardReloadMs
  {
    w.(lastActivity := now, softResetDone := false)
  }

  /** `checkIdle()` at time `now`. */
  function CheckIdle(w: Watchdog, now: int): (r: (Watchdog, Effects))
    ensures r.1.softReset <==> !w.softResetDone && now - w.lastActivity > w.softResetMs
    ensures r.1.reload <==> now - w.lastActivity > w.hardReloadMs
    ensures r.0.softResetDone <==> w.softResetDone || r.1.softReset
    ensures r.0 == w.(softResetDone := r.0.softResetDone)
  {
    var idle := now - w.lastActivity;
    var soft := !w.softResetDone && idle > w.softResetMs;
    (w.(softResetDone := w.softResetDone || soft), Effects(soft, idle > w.hardReloadMs))
  }

  /** The reload decision does not look at the soft-reset flag. */
  lemma ReloadIgnoresFlag(w: Watchdog, now: int, done: bool)
    ensures CheckIdle(w.(softResetDone := done), now).1.reload == CheckIdle(w, now).1.reload
  {
  }

  /** The `visibilitychange` handler: when the page becomes visible it soft
      resets and then marks activity; hiding it does nothing. */
  function HandleVisibility(w: Watchdog, hidden: bool, now: int): (r: (Watchdog, Effects))
    ensures hidden ==> r == (w, NoEffects)
    ensures !hidden ==> r.1 == Effects(true, false) && r.0 == MarkActivity(w, now)
  {
    if hidden then (w, NoEffects) else (MarkActivity(w, now), Effects(true, false))
  }

  /** The idle checks run one after another at the given times, with no
      activity between them: the final state and how many soft resets fired. */
  function RunChecks(w: Watchdog, times: seq<int>): (r: (Watchdog, nat))
    ensures r.0.lastActivity == w.lastActivity
    ensures r.0.softResetMs == w.softResetMs && r.0.hardReloadMs == w.hardReloadMs
    decreases |times|
  {
    if times == [] then (w, 0)
    else
      var step := CheckIdle(w, times[0]);
      var rest := RunChecks(step.0, times[1..]);
      (rest.0, rest.1 + (if step.1.softReset then 1 else 0))
  }

  /** Some check in the run is past the soft threshold. */
  predicate SomeCheckIdle(w: Watchdog, times: seq<int>)
  {
    exists i :: 0 <= i < |times| && times[i] - w.lastActivity > w.softResetMs
  }

  /** Between two activity events the soft reset fires at most once: exactly
      once when the flag was clear and some check ran past the threshold,
      never otherwise. */
  lemma {:induction false} AtMostOneSoftReset(w: Watchdog, times: seq<int>)
    ensures RunChecks(w, times).1 <= 1
    ensures RunChecks(w, times).1 == 1 <==> !w.softResetDone && SomeCheckIdle(w, times)
    ensures RunChecks(w, times).0.softResetDone <==> w.softResetDone || SomeCheckIdle(w, times)
    decreases |times|
  {
    if times != [] {
      var step := CheckIdle(w, times[0]);
      AtMostOneSoftReset(step.0, times[1..]);
      if step.1.softReset {
        assert step.0.softResetDone;
        assert SomeCheckIdle(w, times);
      } else if !w.softResetDone {
        assert step.0 == w;
        if SomeCheckIdle(w, times) {
          var i :| 0 <= i < |times| && times[i] - w.lastActivity > w.softResetMs;
          assert i > 0;
          assert times[1..][i - 1] == times[i];
        }
        assert SomeCheckIdle(step.0, times[1..]) ==> SomeCheckIdle(w, times) by {
          if SomeCheckIdle(step.0, times[1..]) {
            var j :| 0 <= j < |times[1..]| && times[1..][j] - w.lastActivity > w.softResetMs;
            assert times[j + 1] == times[1..][j];
          }
        }
      }
    }
  }

  /** Activity re-arms the soft reset. */
  lemma ActivityRearms(w: Watchdog, now: int, later: int)
    requires later - now > w.softResetMs
    ensures CheckIdle(MarkActivity(w, now), later).1.softReset
  {
  }
}
