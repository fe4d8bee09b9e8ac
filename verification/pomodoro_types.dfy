/**
 * The data model of the first variant of the app (src/lib/pomodoro-types.ts):
 * durations in seconds, session types pomodoro / short_break / long_break,
 * and one event kind per entity.
 */
module PomodoroTypes {
  import opened Wrappers
  import opened Nostr

  // POMODORO_KINDS
  const SessionKind: int := 3100
  const SettingsKind: int := 10100
  const TaskKind: int := 30100
  const ProjectKind: int := 30101

  /**
   * The four kinds are distinct and fall in the ranges NIP-01 gives them:
   * sessions are regular events, settings a replaceable event, tasks and
   * projects addressable (parameterized replaceable) events.
   */
  lemma KindsFollowNip01()
    ensures |{SessionKind, SettingsKind, TaskKind, ProjectKind}| == 4
    ensures 1000 <= SessionKind < 10000
    ensures 10000 <= SettingsKind < 20000
    ensures 30000 <= TaskKind < 40000 && 30000 <= ProjectKind < 40000
  {
  }

  datatype SessionType = Pomodoro | ShortBreak | LongBreak

  /** The string a session type is written as on the wire. */
  function SessionTypeName(t: SessionType): string {
    match t
    case Pomodoro => "pomodoro"
    case ShortBreak => "short_break"
    case LongBreak => "long_break"
  }

  /** Reading a wire name back; any other string names no session type. */
  function SessionTypeOf(name: string): Option<SessionType> {
    if name == "pomodoro" then Some(Pomodoro)
    else if name == "short_break" then Some(ShortBreak)
    else if name == "long_break" then Some(LongBreak)
    else None
  }

  /** Each of the three names belongs to exactly one session type, and reads back as it. */
  lemma SessionTypeNameRoundTrip(t: SessionType, name: string)
    ensures SessionTypeOf(SessionTypeName(t)) == Some(t)
    ensures SessionTypeOf(name) == Some(t) <==> name == SessionTypeName(t)
  {
  }

  /** A decoded session (kind 3100). The type is whatever string the tag held. */
  datatype Session = Session(
    id: string,
    sessionType: string,
    duration: int,
    startedAt: int,
    completedAt: int,
    taskNaddr: Option<string>,
    projectNaddr: Option<string>,
    notes: Option<string>,
    author: string,
    event: Event)

  /** KeyboardShortcuts: action name to key, every one optional. */
  datatype Shortcuts = Shortcuts(
    startTimer: Option<string>,
    resetTimer: Option<string>,
    switchToPomodoro: Option<string>,
    switchToShortBreak: Option<string>,
    switchToLongBreak: Option<string>,
    toggleSettings: Option<string>,
    openTasks: Option<string>,
    openReports: Option<string>)

  /** `Omit<PomodoroSettings, 'author' | 'event'>`: what the settings event stores. */
  datatype SettingsValues = SettingsValues(
    pomodoroDuration: int,
    shortBreakDuration: int,
    longBreakDuration: int,
    longBreakInterval: int,
    autoStartBreaks: bool,
    autoStartPomodoros: bool,
    notificationSound: bool,
    notificationVolume: int,
    theme: Option<string>,
    shortcuts: Option<Shortcuts>)

  /** Decoded settings (kind 10100): the values, their author and the event they came from. */
  datatype Settings = Settings(values: SettingsValues, author: string, event: Option<Event>)

  const DefaultShortcuts: Shortcuts := Shortcuts(
    Some("space"), Some("r"), Some("1"), Some("2"), Some("3"), Some("s"), Some("t"), Some("o"))

  const DefaultSettings: SettingsValues := SettingsValues(
    1500, 300, 900, 4, false, false, true, 50, Some("default"), Some(DefaultShortcuts))

  /** The keys of a shortcut map in declaration order (start, reset, three switches, settings, tasks, reports). */
  function ShortcutKeys(s: Shortcuts): (keys: seq<Option<string>>)
    ensures |keys| == 8
  {
    [s.startTimer, s.resetTimer, s.switchToPomodoro, s.switchToShortBreak,
     s.switchToLongBreak, s.toggleSettings, s.openTasks, s.openReports]
  }

  /**
   * The defaults: 25, 5 and 15 minutes in seconds, a long break every fourth
   * pomodoro, no auto-start, sound on at a volume inside 0..100, the theme
   * 'default', and eight shortcuts that are all set and pairwise distinct.
   */
  lemma DefaultSettingsValues()
    ensures DefaultSettings.pomodoroDuration == 25 * 60
    ensures DefaultSettings.shortBreakDuration == 5 * 60
    ensures DefaultSettings.longBreakDuration == 15 * 60
    ensures DefaultSettings.longBreakInterval == 4
    ensures !DefaultSettings.autoStartBreaks && !DefaultSettings.autoStartPomodoros
    ensures DefaultSettings.notificationSound
    ensures 0 <= DefaultSettings.notificationVolume <= 100
    ensures DefaultSettings.theme == Some(Themes[0].id)
    ensures forall i :: 0 <= i < 8 ==> ShortcutKeys(DefaultShortcuts)[i].Some?
    ensures forall i, j :: 0 <= i < j < 8 ==> ShortcutKeys(DefaultShortcuts)[i] != ShortcutKeys(DefaultShortcuts)[j]
  {
  }

  /** A decoded task (kind 30100). */
  datatype Task = Task(
    id: string,
    naddr: string,
    title: string,
    projectNaddr: Option<string>,
    estimatedPomodoros: Option<int>,
    completedPomodoros: int,
    completed: bool,
    completedAt: Option<int>,
    createdAt: int,
    order: Option<int>,
    author: string,
    event: Event)

  /** A decoded project (kind 30101). */
  datatype Project = Project(
    id: string,
    naddr: string,
    name: string,
    color: Option<string>,
    createdAt: int,
    order: Option<int>,
    author: string,
    event: Event)

  /** The timer's persisted state. */
  datatype TimerState = TimerState(
    mode: SessionType,
    timeRemaining: int,
    isRunning: bool,
    isPaused: bool,
    completedPomodoros: int,
    currentTaskNaddr: Option<string>)

  datatype ThemeColors = ThemeColors(pomodoro: string, shortBreak: string, longBreak: string, background: string, text: string)

  datatype Theme = Theme(id: string, name: string, colors: ThemeColors)

  const Themes: seq<Theme> := [
    Theme("default", "Default", ThemeColors("#dc2626", "#16a34a", "#2563eb", "#ffffff", "#1f2937")),
    Theme("forest", "Forest", ThemeColors("#15803d", "#84cc16", "#059669", "#f0fdf4", "#14532d")),
    Theme("ocean", "Ocean", ThemeColors("#0284c7", "#06b6d4", "#0891b2", "#f0f9ff", "#0c4a6e")),
    Theme("sunset", "Sunset", ThemeColors("#ea580c", "#f59e0b", "#dc2626", "#fff7ed", "#7c2d12")),
    Theme("midnight", "Midnight", ThemeColors("#7c3aed", "#a78bfa", "#6366f1", "#1e1b4b", "#e0e7ff")),
    Theme("rose", "Rose", ThemeColors("#e11d48", "#f472b6", "#be123c", "#fff1f2", "#881337"))
  ]

  /** Six themes with pairwise distinct ids, the first of them 'default'. */
  lemma ThemeIdsUnique()
    ensures |Themes| == 6 && Themes[0].id == "default"
    ensures forall i, j :: 0 <= i < j < |Themes| ==> Themes[i].id != Themes[j].id
  {
  }
}
