/**
 * The countdown timer of the first variant (src/hooks/usePomodoroTimer.ts).
 * Durations are in seconds. The timer's state is persisted and survives a
 * reload; the recorded start time is not. Every interval tick and every clock
 * reading is an explicit call with the reading in seconds, and each
 * completed session handed to `publishSession` is appended to a log.
 */
module PomodoroTimer {
  import opened Wrappers
  import opened Numbers
  import opened PomodoroTypes
  import opened PomodoroUtils

  /** `getDuration`: the settings' duration for the mode, 1500 while no settings are loaded. */
  function DurationOf(settings: Option<SettingsValues>, mode: SessionType): (d: int)
    ensures settings.None? ==> d == 1500
    ensures settings.Some? && mode == Pomodoro ==> d == settings.value.pomodoroDuration
    ensures settings.Some? && mode == ShortBreak ==> d == settings.value.shortBreakDuration
    ensures settings.Some? && mode == LongBreak ==> d == settings.value.longBreakDuration
  {
    if settings.None? then 1500
    else match mode
      case Pomodoro => settings.value.pomodoroDuration
      case ShortBreak => settings.value.shortBreakDuration
      case LongBreak => settings.value.longBreakDuration
  }

  /** The completed-pomodoro count after finishing an interval of `mode`. */
  function CountAfter(mode: SessionType, count: int): int {
    if mode == Pomodoro then count + 1 else count
  }

  /**
   * The mode after finishing one of `mode`: a long break when the new count is
   * a multiple of the interval (JavaScript's `%`, which is NaN for an interval
   * of 0), a short break after other pomodoros, a pomodoro after any break.
   */
  function NextMode(mode: SessionType, count: int, interval: int): (m: SessionType)
    ensures mode != Pomodoro ==> m == Pomodoro
    ensures mode == Pomodoro ==> (m == LongBreak <==> JsRem(count + 1, interval) == Some(0))
    ensures mode == Pomodoro ==> m != Pomodoro
  {
    if mode == Pomodoro then
      (if JsRem(CountAfter(mode, count), interval) == Some(0) then LongBreak else ShortBreak)
    else Pomodoro
  }

  /** `shouldAutoStart`: pomodoros auto-start by one flag, breaks by the other. */
  predicate AutoStarts(next: SessionType, s: SettingsValues) {
    (next == Pomodoro && s.autoStartPomodoros) || (next != Pomodoro && s.autoStartBreaks)
  }

  /** The state `handleComplete` sets: the next mode at its full duration, running when it auto-starts. */
  function AfterCompletion(st: TimerState, s: SettingsValues): (r: TimerState)
    ensures r.mode == NextMode(st.mode, st.completedPomodoros, s.longBreakInterval)
    ensures r.completedPomodoros == st.completedPomodoros + (if st.mode == Pomodoro then 1 else 0)
    ensures r.timeRemaining == DurationOf(Some(s), r.mode)
    ensures r.isRunning <==> AutoStarts(r.mode, s)
    ensures !r.isPaused && r.currentTaskNaddr == st.currentTaskNaddr
  {
    var next := NextMode(st.mode, st.completedPomodoros, s.longBreakInterval);
    TimerState(next, DurationOf(Some(s), next), AutoStarts(next, s), false,
      CountAfter(st.mode, st.completedPomodoros), st.currentTaskNaddr)
  }

  /** The session `handleComplete` publishes: the mode's full duration, from the recorded start to `now`. */
  function CompletedSession(st: TimerState, s: SettingsValues, startedAt: int, now: int): SessionParams {
    SessionParams(st.mode, DurationOf(Some(s), st.mode), startedAt, now, st.currentTaskNaddr, None, None)
  }

  /** `!startTime` is false: a start time is recorded and is not 0. */
  predicate Recorded(startTime: Option<int>) {
    startTime.Some? && startTime.value != 0
  }

  const InitialState := TimerState(Pomodoro, 1500, false, false, 0, None)

  class Timer {
    /** The settings query's data; None while it has not loaded (or without a user). */
    var settings: Option<SettingsValues>
    /** The persisted `timerState`. */
    var state: TimerState
    /** `startTime`, in seconds; not persisted. */
    var startTime: Option<int>
    /** The sessions handed to `publishSession`, oldest first. */
    var published: seq<SessionParams>

    /** A first mount: a fresh state whose remaining time is the pomodoro duration of the settings, 1500 without them. */
    constructor(settings: Option<SettingsValues>)
      ensures this.settings == settings && startTime.None? && published == []
      ensures state == InitialState.(timeRemaining := DurationOf(settings, Pomodoro))
    {
      this.settings := settings;
      state := TimerState(Pomodoro, DurationOf(settings, Pomodoro), false, false, 0, None);
      startTime := None;
      published := [];
    }

    /** A mount after a reload: the persisted state comes back, the start time does not. */
    constructor Restore(settings: Option<SettingsValues>, saved: TimerState)
      ensures this.settings == settings && state == saved && startTime.None? && published == []
    {
      this.settings := settings;
      state := saved;
      startTime := None;
      published := [];
    }

    /** `start`: running and not paused; the start time is taken only when the timer was not running. */
    method Start(now: int)
      modifies this
      ensures state == old(state).(isRunning := true, isPaused := false)
      ensures startTime == if old(state.isRunning) then old(startTime) else Some(now)
      ensures settings == old(settings) && published == old(published)
    {
      if !state.isRunning {
        startTime := Some(now);
      }
      state := state.(isRunning := true, isPaused := false);
    }

    /** `pause`: stopped and paused, nothing else changes. */
    method Pause()
      modifies this
      ensures state == old(state).(isRunning := false, isPaused := true)
      ensures settings == old(settings) && startTime == old(startTime) && published == old(published)
    {
      state := state.(isRunning := false, isPaused := true);
    }

    /** `reset`: the full duration of the current mode, stopped, unpaused, no start time. */
    method Reset()
      modifies this
      ensures state == old(state).(timeRemaining := DurationOf(settings, old(state.mode)), isRunning := false, isPaused := false)
      ensures startTime.None?
      ensures settings == old(settings) && published == old(published)
    {
      startTime := None;
      state := state.(timeRemaining := DurationOf(settings, state.mode), isRunning := false, isPaused := false);
    }

    /** `switchMode`: the new mode at its full duration, stopped; count and task are kept. */
    method SwitchMode(mode: SessionType)
      modifies this
      ensures state == TimerState(mode, DurationOf(settings, mode), false, false,
        old(state.completedPomodoros), old(state.currentTaskNaddr))
      ensures startTime.None?
      ensures settings == old(settings) && published == old(published)
    {
      startTime := None;
      state := TimerState(mode, DurationOf(settings, mode), false, false, state.completedPomodoros, state.currentTaskNaddr);
    }

    /** `setCurrentTask`. */
    method SetCurrentTask(taskNaddr: Option<string>)
      modifies this
      ensures state == old(state).(currentTaskNaddr := taskNaddr)
      ensures settings == old(settings) && startTime == old(startTime) && published == old(published)
    {
      state := state.(currentTaskNaddr := taskNaddr);
    }

    /**
     * `handleComplete` at clock reading `now`: nothing without settings or a
     * recorded start; otherwise one session is published and the timer moves
     * on to the next mode, taking a new start time only when that mode
     * auto-starts.
     */
    method HandleComplete(now: int)
      modifies this
      ensures settings == old(settings)
      ensures old(settings).None? || !Recorded(old(startTime)) ==>
        state == old(state) && startTime == old(startTime) && published == old(published)
      ensures old(settings).Some? && Recorded(old(startTime)) ==>
        && published == old(published) + [CompletedSession(old(state), old(settings).value, old(startTime).value, now)]
        && state == AfterCompletion(old(state), old(settings).value)
        && startTime == if state.isRunning then Some(now) else None
    {
      if settings.None? || !Recorded(startTime) {
        return;
      }
      var s := settings.value;
      published := published + [CompletedSession(state, s, startTime.value, now)];
      state := AfterCompletion(state, s);
      startTime := if state.isRunning then Some(now) else None;
    }

    /**
     * One interval tick at `now`, while running: one second less, or, when
     * that would reach zero or below, `handleComplete` in place of the
     * decrement, whose state update is the one that stands. No interval exists
     * while the timer is not running.
     */
    method Tick(now: int)
      modifies this
      ensures !old(state.isRunning) ==> state == old(state) && startTime == old(startTime) && published == old(published)
      ensures old(state.isRunning) && old(state.timeRemaining) > 1 ==>
        state == old(state).(timeRemaining := old(state.timeRemaining) - 1) &&
        startTime == old(startTime) && published == old(published)
      ensures old(state.isRunning) && old(state.timeRemaining) <= 1 && old(settings).Some? && Recorded(old(startTime)) ==>
        && published == old(published) + [CompletedSession(old(state), old(settings).value, old(startTime).value, now)]
        && state == AfterCompletion(old(state), old(settings).value)
        && startTime == if state.isRunning then Some(now) else None
      ensures old(state.isRunning) && old(state.timeRemaining) <= 1 && (old(settings).None? || !Recorded(old(startTime))) ==>
        state == old(state) && startTime == old(startTime) && published == old(published)
      ensures settings == old(settings)
    {
      if state.isRunning {
        var remaining := state.timeRemaining - 1;
        if remaining <= 0 {
          HandleComplete(now);
        } else {
          state := state.(timeRemaining := remaining);
        }
      }
    }

    /** The effect that runs when the settings, the mode or the flags change: an idle timer shows the full duration. */
    method Resync()
      modifies this
      ensures !old(state.isRunning) && !old(state.isPaused) ==>
        state == old(state).(timeRemaining := DurationOf(settings, old(state.mode)))
      ensures old(state.isRunning) || old(state.isPaused) ==> state == old(state)
      ensures settings == old(settings) && startTime == old(startTime) && published == old(published)
    {
      if !state.isRunning && !state.isPaused {
        state := state.(timeRemaining := DurationOf(settings, state.mode));
      }
    }

    /** New settings data arrives; the resync effect follows. */
    method SettingsChanged(s: Option<SettingsValues>)
      modifies this
      ensures settings == s
      ensures !old(state.isRunning) && !old(state.isPaused) ==>
        state == old(state).(timeRemaining := DurationOf(s, old(state.mode)))
      ensures old(state.isRunning) || old(state.isPaused) ==> state == old(state)
      ensures startTime == old(startTime) && published == old(published)
    {
      settings := s;
      Resync();
    }
  }

  /** Completion runs `n` times in a row. */
  function Completions(st: TimerState, s: SettingsValues, n: nat): TimerState {
    if n == 0 then st else AfterCompletion(Completions(st, s, n - 1), s)
  }

  /**
   * From a fresh count, pomodoros and breaks alternate: after `k` full rounds
   * the timer is back at a pomodoro with `k` completed, and the break after
   * the next pomodoro is a long one exactly when `k + 1` is a multiple of the
   * interval — every `longBreakInterval`-th break is long.
   */
  lemma {:induction false} CompletionsAlternate(st: TimerState, s: SettingsValues, k: nat)
    requires st.mode == Pomodoro && st.completedPomodoros == 0
    ensures Completions(st, s, 2 * k).mode == Pomodoro
    ensures Completions(st, s, 2 * k).completedPomodoros == k
    ensures Completions(st, s, 2 * k + 1).mode == if JsRem(k + 1, s.longBreakInterval) == Some(0) then LongBreak else ShortBreak
    ensures Completions(st, s, 2 * k + 1).completedPomodoros == k + 1
    ensures Completions(st, s, 2 * k).currentTaskNaddr == st.currentTaskNaddr
  {
    if k > 0 {
      CompletionsAlternate(st, s, k - 1);
      assert 2 * k == (2 * (k - 1) + 1) + 1;
    }
  }

  /**
   * With the default interval of 4 the breaks after the first four pomodoros
   * are short, short, short and long.
   */
  lemma DefaultCycle(st: TimerState)
    requires st.mode == Pomodoro && st.completedPomodoros == 0
    ensures Completions(st, DefaultSettings, 1).mode == ShortBreak
    ensures Completions(st, DefaultSettings, 3).mode == ShortBreak
    ensures Completions(st, DefaultSettings, 5).mode == ShortBreak
    ensures Completions(st, DefaultSettings, 7).mode == LongBreak
    ensures Completions(st, DefaultSettings, 8).mode == Pomodoro
  {
    CompletionsAlternate(st, DefaultSettings, 0);
    CompletionsAlternate(st, DefaultSettings, 1);
    CompletionsAlternate(st, DefaultSettings, 2);
    CompletionsAlternate(st, DefaultSettings, 3);
    CompletionsAlternate(st, DefaultSettings, 4);
  }

  /**
   * After a reload the persisted state says running but no start time is
   * recorded, so a tick at the last second completes nothing: the state,
   * and the log, stay exactly as they were, tick after tick.
   */
  method RestoredTimerStalls(s: SettingsValues, saved: TimerState, now: int) returns (t: Timer)
    requires saved.isRunning && saved.timeRemaining == 1
    ensures fresh(t) && t.state == saved && t.published == [] && t.startTime.None?
  {
    t := new Timer.Restore(Some(s), saved);
    t.Tick(now);
    t.Tick(now + 1);
  }

  /**
   * Without a signed-in user the settings query is disabled and its data
   * stays undefined, so even a timer started with a recorded start time
   * never completes: at its last second every tick leaves it as it was.
   */
  method SignedOutTimerStalls(saved: TimerState, now: int) returns (t: Timer)
    requires !saved.isRunning && saved.timeRemaining == 1 && now != 0
    ensures fresh(t) && t.settings.None? && t.startTime == Some(now)
    ensures t.state == saved.(isRunning := true, isPaused := false) && t.published == []
  {
    t := new Timer.Restore(None, saved);
    t.Start(now);
    t.Tick(now + 1);
    t.Tick(now + 2);
  }
}
