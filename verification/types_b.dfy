/**
 * The types of the second variant (src/types/pomodoro.ts): hyphenated session
 * types, task statuses, settings whose durations are in MINUTES (sessions
 * record seconds), eight keyboard chords, and the default settings.
 */
module PomodoroTypesB {
  import opened Wrappers

  /** `'work' | 'short-break' | 'long-break'`. */
  datatype SessionType = Work | ShortBreak | LongBreak

  function SessionTypeName(t: SessionType): string {
    match t
    case Work => "work"
    case ShortBreak => "short-break"
    case LongBreak => "long-break"
  }

  /** The inverse of SessionTypeName on the three wire names. */
  function SessionTypeOf(s: string): (r: Option<SessionType>)
    ensures r.Some? <==> s in {"work", "short-break", "long-break"}
  {
    if s == "work" then Some(Work)
    else if s == "short-break" then Some(ShortBreak)
    else if s == "long-break" then Some(LongBreak)
    else None
  }

  /** The wire names are distinct and read back to their session type. */
  lemma SessionTypeNameRoundTrip(t: SessionType)
    ensures SessionTypeOf(SessionTypeName(t)) == Some(t)
  {
  }

  /** `'todo' | 'in-progress' | 'completed'`. */
  datatype TaskStatus = Todo | InProgress | Completed

  function TaskStatusName(s: TaskStatus): string {
    match s
    case Todo => "todo"
    case InProgress => "in-progress"
    case Completed => "completed"
  }

  function TaskStatusOf(s: string): (r: Option<TaskStatus>)
    ensures r.Some? <==> s in {"todo", "in-progress", "completed"}
  {
    if s == "todo" then Some(Todo)
    else if s == "in-progress" then Some(InProgress)
    else if s == "completed" then Some(Completed)
    else None
  }

  lemma TaskStatusNameRoundTrip(s: TaskStatus)
    ensures TaskStatusOf(TaskStatusName(s)) == Some(s)
  {
  }

  /** KeyboardShortcuts: one chord per action. */
  datatype Shortcuts = Shortcuts(
    startTimer: string,
    pauseTimer: string,
    resetTimer: string,
    skipTimer: string,
    openSettings: string,
    openTasks: string,
    openReports: string,
    focusMode: string)

  /** PomodoroSettings; the three durations are minutes. */
  datatype Settings = Settings(
    workDuration: int,
    shortBreakDuration: int,
    longBreakDuration: int,
    sessionsUntilLongBreak: int,
    autoStartBreaks: bool,
    autoStartPomodoros: bool,
    shortcuts: Shortcuts)

  /** Project (the raw event is not kept). */
  datatype Project = Project(id: string, title: string, color: Option<string>, created: int, description: Option<string>)

  /** Task; `completed` is the completion time, `pomodoros` the work sessions done. */
  datatype Task = Task(
    id: string,
    title: string,
    projectId: Option<string>,
    status: TaskStatus,
    pomodoros: int,
    estimatedPomodoros: Option<int>,
    created: int,
    completed: Option<int>,
    description: Option<string>)

  /** PomodoroSession; `duration` is seconds, `timestamp` the event's creation time. */
  datatype Session = Session(
    id: string,
    sessionType: SessionType,
    duration: int,
    taskId: Option<string>,
    projectId: Option<string>,
    completed: bool,
    notes: Option<string>,
    timestamp: int)

  /** TimerState; `timeRemaining` is seconds. */
  datatype TimerState = TimerState(
    isRunning: bool,
    isPaused: bool,
    currentSessionType: SessionType,
    timeRemaining: int,
    sessionsCompleted: int,
    currentTaskId: Option<string>)

  /** ActivitySummary; the two times are minutes, the streak is days. */
  datatype ActivitySummary = ActivitySummary(
    totalSessions: int,
    completedSessions: int,
    totalFocusTime: int,
    totalBreakTime: int,
    tasksCompleted: int,
    currentStreak: int)

  const DefaultShortcuts := Shortcuts("ctrl+space", "ctrl+space", "ctrl+r", "ctrl+s", "ctrl+,", "ctrl+t", "ctrl+h", "ctrl+f")

  /** DEFAULT_SETTINGS. */
  const DefaultSettings := Settings(25, 5, 15, 4, false, false, DefaultShortcuts)

  /** The seven chords the defaults assign, starting and pausing sharing the first. */
  function ShortcutChords(s: Shortcuts): seq<string> {
    [s.pauseTimer, s.resetTimer, s.skipTimer, s.openSettings, s.openTasks, s.openReports, s.focusMode]
  }

  /** Seconds in a duration given in minutes, as the timer converts them. */
  function Seconds(minutes: int): (r: int)
    ensures minutes >= 0 ==> r >= 0
    ensures r % 60 == 0
  {
    minutes * 60
  }

  /**
   * The defaults: 25, 5 and 15 minutes (1500, 300 and 900 seconds), a long
   * break after 4 work sessions, no auto-start; starting and pausing share
   * 'ctrl+space', and apart from that shared chord every action has a chord
   * of its own.
   */
  lemma DefaultSettingsValues()
    ensures DefaultSettings.workDuration == 25 && Seconds(DefaultSettings.workDuration) == 1500
    ensures DefaultSettings.shortBreakDuration == 5 && Seconds(DefaultSettings.shortBreakDuration) == 300
    ensures DefaultSettings.longBreakDuration == 15 && Seconds(DefaultSettings.longBreakDuration) == 900
    ensures DefaultSettings.sessionsUntilLongBreak == 4
    ensures !DefaultSettings.autoStartBreaks && !DefaultSettings.autoStartPomodoros
    ensures DefaultShortcuts.startTimer == DefaultShortcuts.pauseTimer == "ctrl+space"
    ensures var c := ShortcutChords(DefaultShortcuts);
      forall i, j :: 0 <= i < j < |c| ==> c[i] != c[j]
  {
    var c := ShortcutChords(DefaultShortcuts);
    assert c == ["ctrl+space", "ctrl+r", "ctrl+s", "ctrl+,", "ctrl+t", "ctrl+h", "ctrl+f"];
  }
}
