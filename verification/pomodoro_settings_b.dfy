/**
 * The settings hook of the second variant (src/hooks/usePomodoroSettings.ts).
 * Settings live as JSON content of one application-data event (kind 30078,
 * NIP-78) addressed by the d tag "pomodoro-settings". Loading overlays the
 * stored fields on the defaults, the shortcuts one chord at a time; an update
 * overlays the new fields on the cached settings (the defaults while none are
 * cached), publishes the result and caches it. `JSON.parse` and
 * `JSON.stringify` are parameters.
 */
module PomodoroSettingsB {
  import opened Wrappers
  import opened Nostr
  import opened PomodoroTypesB

  const AppDataKind := 30078
  const SettingsAddress := "pomodoro-settings"
  const NotLoggedIn := "User not logged in"

  /** A parsed `shortcuts` object: the chords it names. */
  datatype ShortcutsPatch = ShortcutsPatch(
    startTimer: Option<string>,
    pauseTimer: Option<string>,
    resetTimer: Option<string>,
    skipTimer: Option<string>,
    openSettings: Option<string>,
    openTasks: Option<string>,
    openReports: Option<string>,
    focusMode: Option<string>)

  /** A parsed settings object: the fields it names, its shortcuts possibly partial. */
  datatype StoredSettings = StoredSettings(
    workDuration: Option<int>,
    shortBreakDuration: Option<int>,
    longBreakDuration: Option<int>,
    sessionsUntilLongBreak: Option<int>,
    autoStartBreaks: Option<bool>,
    autoStartPomodoros: Option<bool>,
    shortcuts: Option<ShortcutsPatch>)

  /** `Partial<PomodoroSettings>`: an update names whole fields; shortcuts come as a whole object. */
  datatype SettingsUpdate = SettingsUpdate(
    workDuration: Option<int>,
    shortBreakDuration: Option<int>,
    longBreakDuration: Option<int>,
    sessionsUntilLongBreak: Option<int>,
    autoStartBreaks: Option<bool>,
    autoStartPomodoros: Option<bool>,
    shortcuts: Option<Shortcuts>)

  const NoShortcuts := ShortcutsPatch(None, None, None, None, None, None, None, None)

  /** `{...base, ...p}` on shortcuts: a chord the patch names wins, every other is the base's. */
  function MergeShortcuts(base: Shortcuts, p: ShortcutsPatch): (r: Shortcuts)
    ensures p == NoShortcuts ==> r == base
    ensures p.startTimer.Some? ==> r.startTimer == p.startTimer.value
    ensures p.startTimer.None? ==> r.startTimer == base.startTimer
    ensures p.pauseTimer.Some? ==> r.pauseTimer == p.pauseTimer.value
    ensures p.pauseTimer.None? ==> r.pauseTimer == base.pauseTimer
    ensures p.resetTimer.Some? ==> r.resetTimer == p.resetTimer.value
    ensures p.resetTimer.None? ==> r.resetTimer == base.resetTimer
    ensures p.skipTimer.Some? ==> r.skipTimer == p.skipTimer.value
    ensures p.skipTimer.None? ==> r.skipTimer == base.skipTimer
    ensures p.openSettings.Some? ==> r.openSettings == p.openSettings.value
    ensures p.openSettings.None? ==> r.openSettings == base.openSettings
    ensures p.openTasks.Some? ==> r.openTasks == p.openTasks.value
    ensures p.openTasks.None? ==> r.openTasks == base.openTasks
    ensures p.openReports.Some? ==> r.openReports == p.openReports.value
    ensures p.openReports.None? ==> r.openReports == base.openReports
    ensures p.focusMode.Some? ==> r.focusMode == p.focusMode.value
    ensures p.focusMode.None? ==> r.focusMode == base.focusMode
  {
    Shortcuts(
      p.startTimer.GetOr(base.startTimer),
      p.pauseTimer.GetOr(base.pauseTimer),
      p.resetTimer.GetOr(base.resetTimer),
      p.skipTimer.GetOr(base.skipTimer),
      p.openSettings.GetOr(base.openSettings),
      p.openTasks.GetOr(base.openTasks),
      p.openReports.GetOr(base.openReports),
      p.focusMode.GetOr(base.focusMode))
  }

  /**
   * The load merge: every field the stored object names overrides the
   * default, and the shortcuts are the default chords overridden one by one
   * by the stored ones, so no action is left without a chord.
   */
  function LoadContent(c: StoredSettings): (r: Settings)
    ensures r.workDuration == c.workDuration.GetOr(DefaultSettings.workDuration)
    ensures r.shortBreakDuration == c.shortBreakDuration.GetOr(DefaultSettings.shortBreakDuration)
    ensures r.longBreakDuration == c.longBreakDuration.GetOr(DefaultSettings.longBreakDuration)
    ensures r.sessionsUntilLongBreak == c.sessionsUntilLongBreak.GetOr(DefaultSettings.sessionsUntilLongBreak)
    ensures r.autoStartBreaks == c.autoStartBreaks.GetOr(DefaultSettings.autoStartBreaks)
    ensures r.autoStartPomodoros == c.autoStartPomodoros.GetOr(DefaultSettings.autoStartPomodoros)
    ensures c.shortcuts.None? ==> r.shortcuts == DefaultShortcuts
    ensures c.shortcuts.Some? ==> r.shortcuts == MergeShortcuts(DefaultShortcuts, c.shortcuts.value)
  {
    Settings(
      c.workDuration.GetOr(DefaultSettings.workDuration),
      c.shortBreakDuration.GetOr(DefaultSettings.shortBreakDuration),
      c.longBreakDuration.GetOr(DefaultSettings.longBreakDuration),
      c.sessionsUntilLongBreak.GetOr(DefaultSettings.sessionsUntilLongBreak),
      c.autoStartBreaks.GetOr(DefaultSettings.autoStartBreaks),
      c.autoStartPomodoros.GetOr(DefaultSettings.autoStartPomodoros),
      MergeShortcuts(DefaultShortcuts, c.shortcuts.GetOr(NoShortcuts)))
  }

  /** The filter: the user's kind-30078 event with d "pomodoro-settings", one event. */
  function SettingsFilter(pubkey: string): (f: ReqFilter)
    ensures f.kinds == [AppDataKind] && f.authors == [pubkey] && f.limit == Some(1)
    ensures f.since.None? && f.until.None? && f.tagConditions == [("d", [SettingsAddress])]
  {
    ReqFilter([AppDataKind], [pubkey], Some(1), None, None, [("d", [SettingsAddress])])
  }

  /** An event satisfies the filter exactly when it is the user's application-data event with that d tag. */
  lemma SettingsFilterMatches(pubkey: string, e: Event)
    ensures Matches(SettingsFilter(pubkey), e) <==>
      && e.kind == AppDataKind && e.pubkey == pubkey
      && exists t :: t in e.tags && |t| >= 2 && t[0] == "d" && t[1] == SettingsAddress
  {
    assert SettingsFilter(pubkey).tagConditions[0] == ("d", [SettingsAddress]);
  }

  /**
   * `queryFn`: the defaults without a user, without an event, or when the
   * first event's content does not parse (None also stands for content whose
   * `shortcuts` cannot be read, such as `null`); otherwise the load merge of
   * the parsed content.
   */
  function QuerySettings(user: Option<string>, events: seq<Event>, parse: string -> Option<StoredSettings>): (r: Settings)
    ensures user.None? || events == [] ==> r == DefaultSettings
    ensures user.Some? && events != [] && parse(events[0].content).None? ==> r == DefaultSettings
    ensures user.Some? && events != [] && parse(events[0].content).Some? ==>
      r == LoadContent(parse(events[0].content).value)
  {
    if user.None? || events == [] then DefaultSettings
    else
      match parse(events[0].content)
      case None => DefaultSettings
      case Some(c) => LoadContent(c)
  }

  /** `{...DEFAULT_SETTINGS, ...settings, ...newSettings}`: the update's fields over the cached settings, or over the defaults while none are cached. */
  function Merge(current: Option<Settings>, u: SettingsUpdate): (r: Settings)
    ensures var base := current.GetOr(DefaultSettings);
      && r.workDuration == u.workDuration.GetOr(base.workDuration)
      && r.shortBreakDuration == u.shortBreakDuration.GetOr(base.shortBreakDuration)
      && r.longBreakDuration == u.longBreakDuration.GetOr(base.longBreakDuration)
      && r.sessionsUntilLongBreak == u.sessionsUntilLongBreak.GetOr(base.sessionsUntilLongBreak)
      && r.autoStartBreaks == u.autoStartBreaks.GetOr(base.autoStartBreaks)
      && r.autoStartPomodoros == u.autoStartPomodoros.GetOr(base.autoStartPomodoros)
      && r.shortcuts == u.shortcuts.GetOr(base.shortcuts)
  {
    var base := current.GetOr(DefaultSettings);
    Settings(
      u.workDuration.GetOr(base.workDuration),
      u.shortBreakDuration.GetOr(base.shortBreakDuration),
      u.longBreakDuration.GetOr(base.longBreakDuration),
      u.sessionsUntilLongBreak.GetOr(base.sessionsUntilLongBreak),
      u.autoStartBreaks.GetOr(base.autoStartBreaks),
      u.autoStartPomodoros.GetOr(base.autoStartPomodoros),
      u.shortcuts.GetOr(base.shortcuts))
  }

  /** The event an update publishes: kind 30078, the single tag d "pomodoro-settings", the merged settings as JSON. */
  function SettingsEvent(s: Settings, stringify: Settings -> string): (t: EventTemplate)
    ensures t.kind == AppDataKind && t.tags == [["d", SettingsAddress]] && t.content == stringify(s)
  {
    EventTemplate(AppDataKind, stringify(s), [["d", SettingsAddress]])
  }

  /** Complete settings seen as a parsed JSON object: every field named. */
  function Stored(s: Settings): StoredSettings {
    var k := s.shortcuts;
    StoredSettings(Some(s.workDuration), Some(s.shortBreakDuration), Some(s.longBreakDuration),
      Some(s.sessionsUntilLongBreak), Some(s.autoStartBreaks), Some(s.autoStartPomodoros),
      Some(ShortcutsPatch(Some(k.startTimer), Some(k.pauseTimer), Some(k.resetTimer), Some(k.skipTimer),
        Some(k.openSettings), Some(k.openTasks), Some(k.openReports), Some(k.focusMode))))
  }

  /** An update that names nothing. */
  const NoChange := SettingsUpdate(None, None, None, None, None, None, None)

  /**
   * The load merge leaves complete settings as they are: loading what was
   * stored in full gives it back.
   */
  lemma LoadStored(s: Settings)
    ensures LoadContent(Stored(s)) == s
  {
  }

  /**
   * Round trip: when JSON parsing inverts stringifying on the merged
   * settings, the query over the event an update publishes (signed by the
   * user) loads exactly the merged settings.
   */
  lemma LoadAfterUpdate(pubkey: string, current: Option<Settings>, u: SettingsUpdate,
                        stringify: Settings -> string, parse: string -> Option<StoredSettings>, id: string, at: int)
    requires parse(stringify(Merge(current, u))) == Some(Stored(Merge(current, u)))
    ensures var e := Sign(SettingsEvent(Merge(current, u), stringify), id, pubkey, at);
      && Matches(SettingsFilter(pubkey), e)
      && QuerySettings(Some(pubkey), [e], parse) == Merge(current, u)
  {
    var m := Merge(current, u);
    var e := Sign(SettingsEvent(m, stringify), id, pubkey, at);
    assert e.tags[0] in e.tags;
    SettingsFilterMatches(pubkey, e);
    LoadStored(m);
  }

  /**
   * An update is idempotent: applying it again to its own result changes
   * nothing; and an update naming nothing keeps cached settings as they are.
   */
  lemma MergeIdempotent(current: Option<Settings>, u: SettingsUpdate)
    ensures Merge(Some(Merge(current, u)), u) == Merge(current, u)
    ensures current.Some? ==> Merge(current, NoChange) == current.value
    ensures current.None? ==> Merge(current, NoChange) == DefaultSettings
  {
  }

  /** How an update settles: with the merged settings, or with an error message. */
  datatype Outcome = Saved(settings: Settings) | Failed(message: string)

  /** The hook's state: the query cache entry of the signed-in user and the events handed to the publisher. */
  class SettingsStore {
    const user: Option<string>
    var cache: Option<Settings>
    var published: seq<EventTemplate>

    constructor(user: Option<string>)
      ensures this.user == user && cache == None && published == []
    {
      this.user := user;
      cache := None;
      published := [];
    }

    /** `settings || DEFAULT_SETTINGS`: what the hook exposes. */
    function Current(): (r: Settings)
      reads this
      ensures cache.None? ==> r == DefaultSettings
      ensures cache.Some? ==> r == cache.value
    {
      cache.GetOr(DefaultSettings)
    }

    /** The query runs only with a user (`enabled: !!user`) and caches its result. */
    method Load(events: seq<Event>, parse: string -> Option<StoredSettings>)
      modifies this
      ensures user.Some? ==> cache == Some(QuerySettings(user, events, parse))
      ensures user.None? ==> cache == old(cache)
      ensures published == old(published)
    {
      if user.Some? {
        cache := Some(QuerySettings(user, events, parse));
      }
    }

    /**
     * `updateSettings`: without a user it fails and changes nothing; otherwise
     * it publishes the merge; when the publisher rejects (`publishError`), the
     * update fails with that message and the cache is kept; when it accepts,
     * the cache becomes the merge and the update settles with it.
     */
    method UpdateSettings(u: SettingsUpdate, stringify: Settings -> string, publishError: Option<string>)
      returns (r: Outcome)
      modifies this
      ensures user.None? ==> r == Failed(NotLoggedIn) && cache == old(cache) && published == old(published)
      ensures user.Some? ==> published == old(published) + [SettingsEvent(Merge(old(cache), u), stringify)]
      ensures user.Some? && publishError.Some? ==> r == Failed(publishError.value) && cache == old(cache)
      ensures user.Some? && publishError.None? ==>
        r == Saved(Merge(old(cache), u)) && cache == Some(Merge(old(cache), u))
    {
      if user.None? {
        return Failed(NotLoggedIn);
      }
      var merged := Merge(cache, u);
      published := published + [SettingsEvent(merged, stringify)];
      if publishError.Some? {
        return Failed(publishError.value);
      }
      cache := Some(merged);
      r := Saved(merged);
    }
  }
}
