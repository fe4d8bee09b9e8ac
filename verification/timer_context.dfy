/**
 * The timer of the second variant (src/contexts/PomodoroTimerContext.tsx).
 * Durations come from the settings in minutes; the context counts completed
 * work sessions, logs every session it ends (completed or not) through
 * `createSession`, and credits the current task with a pomodoro after a
 * completed work session. Interval ticks, the clock (`Date.now()`) and the
 * asynchronous session and task hooks become explicit calls and parameters;
 * the two hooks' calls are kept as logs on the object.
 */
module TimerContext {
  import opened Wrappers
  import opened Numbers
  import opened PomodoroTypesB
  import PomodoroUtils

  /** `getDuration`: the type's minutes from the settings, in seconds. */
  function Duration(s: Settings, t: SessionType): (r: int)
    ensures t == Work ==> r == s.workDuration * 60
    ensures t == ShortBreak ==> r == s.shortBreakDuration * 60
    ensures t == LongBreak ==> r == s.longBreakDuration * 60
  {
    match t
    case Work => Seconds(s.workDuration)
    case ShortBreak => Seconds(s.shortBreakDuration)
    case LongBreak => Seconds(s.longBreakDuration)
  }

  /**
   * `getNextSessionType`: after work a long break when the count is positive
   * and a multiple of `sessionsUntilLongBreak` (JavaScript's `%`; a zero
   * divisor gives NaN, never 0), otherwise a short break; after any break, work.
   */
  function NextSessionType(s: Settings, t: SessionType, count: int): (r: SessionType)
    ensures t == Work ==> (r == LongBreak <==> count > 0 && JsRem(count, s.sessionsUntilLongBreak) == Some(0))
    ensures t == Work ==> r != Work
    ensures t != Work ==> r == Work
  {
    if t == Work then
      if count > 0 && JsRem(count, s.sessionsUntilLongBreak) == Some(0) then LongBreak else ShortBreak
    else Work
  }

  /** The count after a session of type `t` ends: one more after work only. */
  function CountAfter(t: SessionType, count: int): (r: int)
    ensures t == Work ==> r == count + 1
    ensures t != Work ==> r == count
  {
    if t == Work then count + 1 else count
  }

  /** Whether the next session starts by itself: work with `autoStartPomodoros`, a break with `autoStartBreaks`. */
  predicate AutoStart(s: Settings, next: SessionType) {
    (next == Work && s.autoStartPomodoros) || (next != Work && s.autoStartBreaks)
  }

  /**
   * The state a completed session of type `t` leaves: the next type with its
   * full duration, the count advanced after work, not paused, running exactly
   * when that direction auto-starts; no task in the state.
   */
  function AfterCompletion(s: Settings, t: SessionType, count: int): (r: TimerState)
    ensures r.sessionsCompleted == CountAfter(t, count)
    ensures r.currentSessionType == NextSessionType(s, t, CountAfter(t, count))
    ensures r.timeRemaining == Duration(s, r.currentSessionType)
    ensures r.isRunning <==> AutoStart(s, r.currentSessionType)
    ensures !r.isPaused && r.currentTaskId.None?
  {
    var n := CountAfter(t, count);
    var next := NextSessionType(s, t, n);
    TimerState(AutoStart(s, next), false, next, Duration(s, next), n, None)
  }

  /**
   * The seconds a logged session lasted: the full duration when completed;
   * otherwise the elapsed part of it when a start was recorded (the start
   * reference is positive), else 0.
   */
  function ActualDuration(s: Settings, t: SessionType, completed: bool, startTime: int, remaining: int): (r: int)
    ensures completed ==> r == Duration(s, t)
    ensures !completed && startTime > 0 ==> r + remaining == Duration(s, t)
    ensures !completed && startTime <= 0 ==> r == 0
  {
    if completed then Duration(s, t)
    else if startTime > 0 then Duration(s, t) - remaining
    else 0
  }

  /** `getSessionLabel`. */
  function SessionLabel(t: SessionType): (r: string)
    ensures t == Work <==> r == "Focus Time"
    ensures t == ShortBreak <==> r == "Short Break"
    ensures t == LongBreak <==> r == "Long Break"
  {
    match t
    case Work => "Focus Time"
    case ShortBreak => "Short Break"
    case LongBreak => "Long Break"
  }

  /** The state at mount: stopped, work, the work duration, nothing counted. */
  function InitialState(s: Settings): TimerState {
    TimerState(false, false, Work, Duration(s, Work), 0, None)
  }

  /** The state `handleSkip` leaves when the timer is not running. */
  function SkippedState(s: Settings, st: TimerState): TimerState {
    var n := CountAfter(st.currentSessionType, st.sessionsCompleted);
    var next := NextSessionType(s, st.currentSessionType, n);
    TimerState(false, false, next, Duration(s, next), n, None)
  }

  /**
   * Skipping an idle timer advances exactly as completing its session would,
   * counting a skipped work session as done, except that nothing starts.
   */
  lemma SkipLikeCompletion(s: Settings, st: TimerState)
    ensures SkippedState(s, st) == AfterCompletion(s, st.currentSessionType, st.sessionsCompleted).(isRunning := false)
  {
  }

  /** One `createSession` call: the session's type, seconds, task and whether it ran to its end. */
  datatype SessionRecord = SessionRecord(sessionType: SessionType, duration: int, taskId: Option<string>, completed: bool)

  class Timer {
    var settings: Settings
    var state: TimerState
    var currentTaskId: Option<string>
    /** `startTimeRef.current`: the clock reading of the last start, 0 when none is recorded. */
    var startTime: int
    /** The sessions handed to `createSession`, oldest first. */
    var sessions: seq<SessionRecord>
    /** The task ids handed to `incrementTaskPomodoros`, oldest first. */
    var increments: seq<string>

    constructor(settings: Settings)
      ensures this.settings == settings && state == InitialState(settings)
      ensures currentTaskId.None? && startTime == 0 && sessions == [] && increments == []
    {
      this.settings := settings;
      state := InitialState(settings);
      currentTaskId := None;
      startTime := 0;
      sessions := [];
      increments := [];
    }

    /** New settings from the settings hook; the state is not recomputed. */
    method SettingsChanged(s: Settings)
      modifies this
      ensures settings == s
      ensures state == old(state) && currentTaskId == old(currentTaskId) && startTime == old(startTime)
      ensures sessions == old(sessions) && increments == old(increments)
    {
      settings := s;
    }

    /** `setCurrentTaskId`. */
    method SetCurrentTaskId(id: Option<string>)
      modifies this
      ensures currentTaskId == id
      ensures settings == old(settings) && state == old(state) && startTime == old(startTime)
      ensures sessions == old(sessions) && increments == old(increments)
    {
      currentTaskId := id;
    }

    /**
     * `handleSessionComplete(t, completed)`: logs one session; credits the
     * current task after a completed work session; after a completed session
     * moves to the next one and, when it auto-starts, records `now` as its
     * start. An incomplete session changes nothing but the log.
     */
    method HandleSessionComplete(t: SessionType, completed: bool, now: int)
      modifies this
      ensures sessions == old(sessions) +
        [SessionRecord(t, ActualDuration(settings, t, completed, old(startTime), old(state).timeRemaining), currentTaskId, completed)]
      ensures increments == old(increments) +
        (if completed && t == Work && PomodoroUtils.Truthy(currentTaskId) then [currentTaskId.value] else [])
      ensures completed ==> state == AfterCompletion(settings, t, old(state).sessionsCompleted)
      ensures !completed ==> state == old(state)
      ensures startTime == if completed && AutoStart(settings, state.currentSessionType) then now else old(startTime)
      ensures settings == old(settings) && currentTaskId == old(currentTaskId)
    {
      var duration := ActualDuration(settings, t, completed, startTime, state.timeRemaining);
      sessions := sessions + [SessionRecord(t, duration, currentTaskId, completed)];
      if completed && t == Work && PomodoroUtils.Truthy(currentTaskId) {
        increments := increments + [currentTaskId.value];
      }
      if completed {
        state := AfterCompletion(settings, t, state.sessionsCompleted);
        if AutoStart(settings, state.currentSessionType) {
          startTime := now;
        }
      }
    }

    /**
     * One interval tick. Only a running, unpaused timer ticks. It counts one
     * second down; when that reaches zero or below, the timer stops at 0 and
     * the session completes.
     */
    method Tick(now: int)
      modifies this
      ensures !(old(state).isRunning && !old(state).isPaused) ==>
        state == old(state) && sessions == old(sessions) && increments == old(increments) && startTime == old(startTime)
      ensures old(state).isRunning && !old(state).isPaused && old(state).timeRemaining - 1 > 0 ==>
        && state == old(state).(timeRemaining := old(state).timeRemaining - 1)
        && sessions == old(sessions) && increments == old(increments) && startTime == old(startTime)
      ensures old(state).isRunning && !old(state).isPaused && old(state).timeRemaining - 1 <= 0 ==>
        && var t := old(state).currentSessionType;
        && state == AfterCompletion(settings, t, old(state).sessionsCompleted)
        && sessions == old(sessions) + [SessionRecord(t, Duration(settings, t), currentTaskId, true)]
        && increments == old(increments) + (if t == Work && PomodoroUtils.Truthy(currentTaskId) then [currentTaskId.value] else [])
        && startTime == if AutoStart(settings, state.currentSessionType) then now else old(startTime)
      ensures settings == old(settings) && currentTaskId == old(currentTaskId)
    {
      if !(state.isRunning && !state.isPaused) {
        return;
      }
      var remaining := state.timeRemaining - 1;
      if remaining <= 0 {
        var t := state.currentSessionType;
        state := state.(isRunning := false, timeRemaining := 0);
        HandleSessionComplete(t, true, now);
      } else {
        state := state.(timeRemaining := remaining);
      }
    }

    /** `handleStart`: runs and unpauses; records `now` as the start only when it was not running. */
    method HandleStart(now: int)
      modifies this
      ensures state == old(state).(isRunning := true, isPaused := false)
      ensures startTime == if old(state).isRunning then old(startTime) else now
      ensures settings == old(settings) && currentTaskId == old(currentTaskId)
      ensures sessions == old(sessions) && increments == old(increments)
    {
      if !state.isRunning {
        startTime := now;
      }
      state := state.(isRunning := true, isPaused := false);
    }

    /** `handlePause`: only the paused flag changes; the timer still counts as running. */
    method HandlePause()
      modifies this
      ensures state == old(state).(isPaused := true)
      ensures settings == old(settings) && currentTaskId == old(currentTaskId) && startTime == old(startTime)
      ensures sessions == old(sessions) && increments == old(increments)
    {
      state := state.(isPaused := true);
    }

    /**
     * `handleReset`: when running or a start is recorded, logs the current
     * session as incomplete; then forgets the start and stops with the full
     * duration of the current type, type and count unchanged.
     */
    method HandleReset(now: int)
      modifies this
      ensures old(state).isRunning || old(startTime) > 0 ==>
        sessions == old(sessions) + [SessionRecord(old(state).currentSessionType,
          ActualDuration(settings, old(state).currentSessionType, false, old(startTime), old(state).timeRemaining),
          currentTaskId, false)]
      ensures !(old(state).isRunning || old(startTime) > 0) ==> sessions == old(sessions)
      ensures state == old(state).(isRunning := false, isPaused := false,
        timeRemaining := Duration(settings, old(state).currentSessionType))
      ensures startTime == 0
      ensures settings == old(settings) && currentTaskId == old(currentTaskId) && increments == old(increments)
    {
      if state.isRunning || startTime > 0 {
        HandleSessionComplete(state.currentSessionType, false, now);
      }
      startTime := 0;
      state := state.(isRunning := false, isPaused := false, timeRemaining := Duration(settings, state.currentSessionType));
    }

    /**
     * `handleSkip`: a running timer only logs its session as incomplete and
     * keeps running; an idle one moves to the next type without logging,
     * counting a skipped work session, and does not start.
     */
    method HandleSkip(now: int)
      modifies this
      ensures old(state).isRunning ==>
        && sessions == old(sessions) + [SessionRecord(old(state).currentSessionType,
             ActualDuration(settings, old(state).currentSessionType, false, old(startTime), old(state).timeRemaining),
             currentTaskId, false)]
        && state == old(state)
      ensures !old(state).isRunning ==> sessions == old(sessions) && state == SkippedState(settings, old(state))
      ensures settings == old(settings) && currentTaskId == old(currentTaskId) && startTime == old(startTime)
      ensures increments == old(increments)
    {
      if state.isRunning {
        HandleSessionComplete(state.currentSessionType, false, now);
      } else {
        state := SkippedState(settings, state);
      }
    }

    /**
     * The interval tick as the repository has it. The hook the context imports
     * has no `createSession`, so the completion rejects before it logs or
     * advances anything; only the tick's own update, stopped at 0, stands.
     */
    method TickAsWritten()
      modifies this
      ensures !(old(state).isRunning && !old(state).isPaused) ==> state == old(state)
      ensures old(state).isRunning && !old(state).isPaused && old(state).timeRemaining - 1 > 0 ==>
        state == old(state).(timeRemaining := old(state).timeRemaining - 1)
      ensures old(state).isRunning && !old(state).isPaused && old(state).timeRemaining - 1 <= 0 ==>
        state == Stalled(old(state))
      ensures settings == old(settings) && currentTaskId == old(currentTaskId) && startTime == old(startTime)
      ensures sessions == old(sessions) && increments == old(increments)
    {
      if !(state.isRunning && !state.isPaused) {
        return;
      }
      var remaining := state.timeRemaining - 1;
      if remaining <= 0 {
        state := state.(isRunning := false, timeRemaining := 0);
      } else {
        state := state.(timeRemaining := remaining);
      }
    }

    /**
     * `handleReset` as the repository has it: when running or a start is
     * recorded, the awaited completion rejects and nothing after it runs, so
     * nothing changes; otherwise the reset happens.
     */
    method HandleResetAsWritten()
      modifies this
      ensures old(state).isRunning || old(startTime) > 0 ==> state == old(state) && startTime == old(startTime)
      ensures !(old(state).isRunning || old(startTime) > 0) ==>
        && state == old(state).(isRunning := false, isPaused := false,
             timeRemaining := Duration(settings, old(state).currentSessionType))
        && startTime == 0
      ensures settings == old(settings) && currentTaskId == old(currentTaskId)
      ensures sessions == old(sessions) && increments == old(increments)
    {
      if state.isRunning || startTime > 0 {
        return;
      }
      startTime := 0;
      state := state.(isRunning := false, isPaused := false, timeRemaining := Duration(settings, state.currentSessionType));
    }
  }

/** The state a completion leaves when it rejects: stopped at 0, same session type and count. */
  function Stalled(st: TimerState): (r: TimerState)
    ensures !r.isRunning && r.timeRemaining == 0
    ensures r.currentSessionType == st.currentSessionType && r.sessionsCompleted == st.sessionsCompleted
    ensures r.isPaused == st.isPaused && r.currentTaskId == st.currentTaskId
  {
    st.(isRunning := false, timeRemaining := 0)
  }

  /** A stalled timer is never where a completion would have taken it: the session type differs. */
  lemma StallIsNotCompletion(s: Settings, st: TimerState)
    ensures Stalled(st).currentSessionType != AfterCompletion(s, st.currentSessionType, st.sessionsCompleted).currentSessionType
  {
  }

  /**
   * As written, a timer at its last second stops at 0 in the same session
   * and logs nothing; started again, the next tick stops it there again.
   */
  method StallsAsWritten(t: Timer, now: int)
    modifies t
    requires t.state.isRunning && !t.state.isPaused && t.state.timeRemaining == 1
    ensures t.state == Stalled(old(t.state))
    ensures t.sessions == old(t.sessions) && t.increments == old(t.increments)
  {
    t.TickAsWritten();
    t.HandleStart(now);
    t.TickAsWritten();
  }

  /** As written, once a start is recorded no reset ever takes effect. */
  method ResetStuckAsWritten(t: Timer)
    modifies t
    requires t.startTime > 0
    ensures t.state == old(t.state) && t.startTime == old(t.startTime) && t.sessions == old(t.sessions)
  {
    t.HandleResetAsWritten();
    t.HandleResetAsWritten();
  }

  /** `n` completions in a row from `st`, each advancing from the state before. */
  function Completions(s: Settings, st: TimerState, n: nat): TimerState {
    if n == 0 then st
    else
      var prev := Completions(s, st, n - 1);
      AfterCompletion(s, prev.currentSessionType, prev.sessionsCompleted)
  }

  /**
   * From a work session with a count of zero, work and breaks alternate:
   * after `k` rounds the timer is at work with `k` counted, and the break
   * after the next work session is long exactly when `k + 1` is a multiple of
   * `sessionsUntilLongBreak`.
   */
  lemma {:induction false} CompletionsAlternate(s: Settings, st: TimerState, k: nat)
    requires st.currentSessionType == Work && st.sessionsCompleted == 0
    ensures Completions(s, st, 2 * k).currentSessionType == Work
    ensures Completions(s, st, 2 * k).sessionsCompleted == k
    ensures Completions(s, st, 2 * k + 1).currentSessionType ==
      if JsRem(k + 1, s.sessionsUntilLongBreak) == Some(0) then LongBreak else ShortBreak
    ensures Completions(s, st, 2 * k + 1).sessionsCompleted == k + 1
  {
    if k > 0 {
      CompletionsAlternate(s, st, k - 1);
      assert 2 * k == (2 * (k - 1) + 1) + 1;
    }
  }

  /** With the defaults the first four breaks are short, short, short and long. */
  lemma DefaultCycle()
    ensures var st := InitialState(DefaultSettings);
      && Completions(DefaultSettings, st, 1).currentSessionType == ShortBreak
      && Completions(DefaultSettings, st, 3).currentSessionType == ShortBreak
      && Completions(DefaultSettings, st, 5).currentSessionType == ShortBreak
      && Completions(DefaultSettings, st, 7).currentSessionType == LongBreak
      && Completions(DefaultSettings, st, 8).currentSessionType == Work
  {
    var st := InitialState(DefaultSettings);
    CompletionsAlternate(DefaultSettings, st, 0);
    CompletionsAlternate(DefaultSettings, st, 1);
    CompletionsAlternate(DefaultSettings, st, 2);
    CompletionsAlternate(DefaultSettings, st, 3);
    CompletionsAlternate(DefaultSettings, st, 4);
  }

  /**
   * A completion that does not auto-start keeps the old start reference, so
   * resetting afterwards logs a zero-second incomplete session of the type
   * that was never started.
   */
  method ResetAfterCompletion(now: int, later: int) returns (t: Timer)
    requires now > 0
    ensures fresh(t)
    ensures t.sessions == [SessionRecord(Work, 1500, None, true), SessionRecord(ShortBreak, 0, None, false)]
    ensures t.state == InitialState(DefaultSettings).(currentSessionType := ShortBreak, timeRemaining := 300, sessionsCompleted := 1)
  {
    t := new Timer(DefaultSettings);
    t.HandleStart(now);
    while t.state.timeRemaining > 1
      invariant t.state == InitialState(DefaultSettings).(isRunning := true, timeRemaining := t.state.timeRemaining)
      invariant 1 <= t.state.timeRemaining
      invariant t.settings == DefaultSettings && t.currentTaskId.None? && t.startTime == now
      invariant t.sessions == [] && t.increments == []
      decreases t.state.timeRemaining
    {
      t.Tick(now);
    }
    t.Tick(now);
    t.HandleReset(later);
  }
}
