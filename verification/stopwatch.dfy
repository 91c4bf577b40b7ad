/**
 * Stopwatch: the level timer. The system clock (System.currentTimeMillis) is a parameter
 * `now` of every operation that reads it; the object's three fields are a value that each
 * operation returns anew.
 */
module Timing {

  /**
   * The time accumulated so far, the clock reading when timing last (re)started, and
   * whether the stopwatch is running.
   */
  datatype Stopwatch = Stopwatch(elapsed: int, lastStart: int, timing: bool)

  /** The constructors: the given time (zero by default) already elapsed, not running. */
  function NewStopwatch(elapsed: int): Stopwatch
  {
    Stopwatch(elapsed, 0, false)
  }

  /** start: remember the clock reading and run. */
  function Start(sw: Stopwatch, now: int): Stopwatch
  {
    sw.(lastStart := now, timing := true)
  }

  /**
   * The time a stopwatch reports when the clock reads `now`: its stored time, plus the time
   * since it last started if it is running.
   */
  function Reading(sw: Stopwatch, now: int): int
  {
    if sw.timing then sw.elapsed + (now - sw.lastStart) else sw.elapsed
  }

  /**
   * getElapsedTime: a running stopwatch adds the time up to the clock reading `now`, then
   * restarts through start(), which reads the clock a second time, `restartAt`. The result is
   * the stopwatch afterwards and the time it reports.
   */
  function GetElapsedTime(sw: Stopwatch, now: int, restartAt: int): (r: (Stopwatch, int))
    ensures r.1 == Reading(sw, now) && r.0.elapsed == r.1 && r.0.timing == sw.timing
    ensures !sw.timing ==> r.0 == sw
    ensures sw.timing ==> r.0.lastStart == restartAt
  {
    if sw.timing then
      var sw' := Start(sw.(elapsed := sw.elapsed + (now - sw.lastStart)), restartAt);
      (sw', sw'.elapsed)
    else (sw, sw.elapsed)
  }

  /** pause: bring the elapsed time up to date (two clock readings, as in getElapsedTime), then stop. */
  function Pause(sw: Stopwatch, now: int, restartAt: int): (r: Stopwatch)
    ensures !r.timing && r.elapsed == Reading(sw, now)
  {
    GetElapsedTime(sw, now, restartAt).0.(timing := false)
  }

  /** reset: nothing elapsed and not running; the last start reading is kept. */
  function Reset(sw: Stopwatch): Stopwatch
  {
    sw.(elapsed := 0, timing := false)
  }

  /** restart: reset, then start. */
  function Restart(sw: Stopwatch, now: int): (r: Stopwatch)
    ensures r.timing && r.elapsed == 0 && r.lastStart == now
  {
    Start(Reset(sw), now)
  }

  /** setElapsedTime: overwrite the accumulated time; running or not stays as it was. */
  function SetElapsedTime(sw: Stopwatch, elapsed: int): Stopwatch
  {
    sw.(elapsed := elapsed)
  }

  /** One call on the stopwatch. */
  datatype Call = StartCall | PauseCall | GetCall | ResetCall | RestartCall | SetCall(value: int)

  /**
   * The clock readings one call makes: `at` for start and restart and the first reading of
   * getElapsedTime and pause, `restartAt` for the start() these two call afterwards.
   */
  datatype Clock = Clock(at: int, restartAt: int)

  /** The stopwatch after a call made with the clock readings `c`. */
  function Apply(sw: Stopwatch, call: Call, c: Clock): Stopwatch
  {
    match call
    case StartCall => Start(sw, c.at)
    case PauseCall => Pause(sw, c.at, c.restartAt)
    case GetCall => GetElapsedTime(sw, c.at, c.restartAt).0
    case ResetCall => Reset(sw)
    case RestartCall => Restart(sw, c.at)
    case SetCall(value) => SetElapsedTime(sw, value)
  }

  /** The stopwatch after a series of calls, the i-th made with the clock readings times[i]. */
  function Run(sw: Stopwatch, calls: seq<Call>, times: seq<Clock>): Stopwatch
    requires |calls| == |times|
    decreases |calls|
  {
    if |calls| == 0 then sw else Run(Apply(sw, calls[0], times[0]), calls[1..], times[1..])
  }

  /** The calls that do not throw time away on purpose: start, pause and getElapsedTime. */
  predicate Keeps(call: Call)
  {
    call.StartCall? || call.PauseCall? || call.GetCall?
  }

  /** The clock has not gone back past the moment a running stopwatch last started. */
  predicate Since(sw: Stopwatch, now: int)
  {
    sw.timing ==> sw.lastStart <= now
  }

  /** Clock readings that never go back, within a call and from one call to the next. */
  predicate Ascending(times: seq<Clock>)
  {
    (forall i | 0 <= i < |times| :: times[i].at <= times[i].restartAt) &&
    (forall i, j | 0 <= i < j < |times| :: times[i].restartAt <= times[j].at)
  }

  /**
   * With a clock that does not go back, a call that keeps time never lowers the accumulated
   * time, and leaves the stopwatch consistent with every later clock reading.
   */
  lemma KeepsNeverLoses(sw: Stopwatch, call: Call, c: Clock, later: int)
    requires Keeps(call) && Since(sw, c.at) && c.at <= c.restartAt <= later
    ensures Apply(sw, call, c).elapsed >= sw.elapsed && Since(Apply(sw, call, c), later)
  {
  }

  /**
   * Under a clock that never goes back, a run of start, pause and getElapsedTime calls never
   * lowers the accumulated time: only reset, restart and setElapsedTime can.
   */
  lemma {:induction false} RunNeverLoses(sw: Stopwatch, calls: seq<Call>, times: seq<Clock>, later: int)
    requires |calls| == |times| && Ascending(times) && (forall i | 0 <= i < |calls| :: Keeps(calls[i]))
    requires |times| > 0 ==> Since(sw, times[0].at) && times[|times| - 1].restartAt <= later
    requires |times| == 0 ==> Since(sw, later)
    ensures Run(sw, calls, times).elapsed >= sw.elapsed && Since(Run(sw, calls, times), later)
    decreases |calls|
  {
    if |calls| > 0 {
      var next := if |times| > 1 then times[1].at else later;
      KeepsNeverLoses(sw, calls[0], times[0], next);
      RunNeverLoses(Apply(sw, calls[0], times[0]), calls[1..], times[1..], later);
    }
  }

  /**
   * Once getElapsedTime has reported a time, every later report is at least as large, as
   * long as the clock never goes back and only start, pause and getElapsedTime happen in
   * between.
   */
  lemma ReportsNeverDecrease(sw: Stopwatch, c: Clock, calls: seq<Call>, times: seq<Clock>, last: Clock)
    requires Since(sw, c.at) && c.at <= c.restartAt && |calls| == |times| && Ascending(times)
    requires forall i | 0 <= i < |calls| :: Keeps(calls[i])
    requires |times| > 0 ==> c.restartAt <= times[0].at && times[|times| - 1].restartAt <= last.at
    requires c.restartAt <= last.at
    ensures GetElapsedTime(sw, c.at, c.restartAt).1 <=
            GetElapsedTime(Run(GetElapsedTime(sw, c.at, c.restartAt).0, calls, times), last.at, last.restartAt).1
  {
    var (sw', reported) := GetElapsedTime(sw, c.at, c.restartAt);
    RunNeverLoses(sw', calls, times, last.at);
  }

  /** A paused stopwatch reports the same time at every later reading of the clock. */
  lemma PauseFreezes(sw: Stopwatch, now: int, restartAt: int, later: int)
    ensures Reading(Pause(sw, now, restartAt), later) == Reading(sw, now)
  {
  }

  /**
   * Asking a running stopwatch for the time loses what passes between the two clock readings
   * of getElapsedTime: every later report is that much lower than it would have been. A
   * paused stopwatch loses nothing.
   */
  lemma GetLosesGap(sw: Stopwatch, now: int, restartAt: int, later: int)
    ensures Reading(GetElapsedTime(sw, now, restartAt).0, later) ==
            Reading(sw, later) - (if sw.timing then restartAt - now else 0)
    ensures now <= restartAt ==> Reading(GetElapsedTime(sw, now, restartAt).0, later) <= Reading(sw, later)
  {
  }

  /**
   * Starting a stopwatch that is already running drops the time since it last started that
   * no call has yet added up; starting a paused one loses nothing.
   */
  lemma StartAgainDrops(sw: Stopwatch, now: int, later: int)
    ensures Reading(Start(sw, now), later) == sw.elapsed + (later - now)
    ensures sw.timing ==> Reading(Start(sw, now), later) == Reading(sw, later) - (now - sw.lastStart)
  {
  }

  /**
   * The controller's pattern on every key press, getElapsedTime then start, reads the clock
   * three times; a running stopwatch loses exactly the time from the first reading to the
   * last.
   */
  lemma GetThenStart(sw: Stopwatch, now: int, restartAt: int, startAt: int, later: int)
    requires sw.timing
    ensures Reading(Start(GetElapsedTime(sw, now, restartAt).0, startAt), later) == Reading(sw, later) - (startAt - now)
    ensures now <= startAt ==> Reading(Start(GetElapsedTime(sw, now, restartAt).0, startAt), later) <= Reading(sw, later)
  {
  }
}
