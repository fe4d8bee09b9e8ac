/**
 * The event codec of the first variant (src/lib/pomodoro-utils.ts): decoding
 * events into sessions, settings, tasks and projects, building the event
 * templates that store them, and the small formatters and session
 * aggregations the report page uses.
 */
module PomodoroUtils {
  import opened Wrappers
  import opened Numbers
  import opened Text
  import opened Nostr
  import opened Seqs
  import opened Grouping
  import opened PomodoroTypes

  /** A string is truthy in JavaScript when it is present and not empty. */
  predicate Truthy(s: Option<string>) {
    s.Some? && s.value != ""
  }

  /** The value a tag holds when it is set and not empty. */
  predicate HasValue(tags: seq<Tag>, name: string) {
    Truthy(GetTagValue(tags, name))
  }

  /** What an optional string field reads back as after a builder skipped it when empty. */
  function NonEmpty(s: Option<string>): (r: Option<string>)
    ensures r.Some? <==> Truthy(s)
    ensures r.Some? ==> r == s
  {
    if Truthy(s) then s else None
  }

  /** `b.toString()`. */
  function BoolToString(b: bool): string {
    if b then "true" else "false"
  }

  /**
   * Stand-in for NIP-19's `naddrEncode({kind, pubkey, identifier})`, a bech32
   * encoding done by a library; only its use as a deterministic key matters here.
   */
  function NaddrEncode(kind: int, pubkey: string, identifier: string): string {
    "naddr1" + IntToString(kind) + ":" + IntToString(|pubkey|) + ":" + pubkey + identifier
  }

  // ---------------------------------------------------------------------------
  // Sessions (kind 3100)

  /**
   * `parseSession`: null unless the kind is 3100 and session_type, duration,
   * started_at and completed_at all hold non-empty values. The session type is
   * taken as written; it is not checked against the three known names.
   */
  function ParseSession(e: Event): (r: Option<Session>)
    ensures r.Some? <==>
      && e.kind == SessionKind
      && HasValue(e.tags, "session_type") && HasValue(e.tags, "duration")
      && HasValue(e.tags, "started_at") && HasValue(e.tags, "completed_at")
    ensures r.Some? ==>
      && r.value.id == e.id && r.value.author == e.pubkey && r.value.event == e
      && Some(r.value.sessionType) == GetTagValue(e.tags, "session_type")
  {
    if e.kind != SessionKind then None
    else
      var sessionType := GetTagValue(e.tags, "session_type");
      var duration := GetTagValue(e.tags, "duration");
      var startedAt := GetTagValue(e.tags, "started_at");
      var completedAt := GetTagValue(e.tags, "completed_at");
      if !Truthy(sessionType) || !Truthy(duration) || !Truthy(startedAt) || !Truthy(completedAt) then None
      else Some(Session(
        e.id,
        sessionType.value,
        ParseNumber(duration.value),
        ParseNumber(startedAt.value),
        ParseNumber(completedAt.value),
        GetTagValue(e.tags, "task"),
        GetTagValue(e.tags, "project"),
        GetTagValue(e.tags, "notes"),
        e.pubkey,
        e))
  }

  /** CreateSessionParams. */
  datatype SessionParams = SessionParams(
    sessionType: SessionType,
    duration: int,
    startedAt: int,
    completedAt: int,
    taskNaddr: Option<string>,
    projectNaddr: Option<string>,
    notes: Option<string>)

  /** The "alt" text of a session: "Completed a <type, first '_' replaced by a space> session". */
  function SessionAlt(t: SessionType): string {
    "Completed a " + ReplaceFirst(SessionTypeName(t), '_', ' ') + " session"
  }

  /** A tag `[name, value]` pushed only when the value is there. */
  function OptionalTag(name: string, v: Option<string>): seq<Tag> {
    if v.Some? then [[name, v.value]] else []
  }

  /** `if (x !== undefined) tags.push([name, x.toString()])`. */
  function DefinedText(v: Option<int>): (r: Option<string>)
    ensures r.Some? <==> v.Some?
  {
    if v.Some? then Some(IntToString(v.value)) else None
  }

  /** `if (x) tags.push([name, x.toString()])` for a number: 0 is skipped. */
  function TruthyText(v: Option<int>): (r: Option<string>)
    ensures r.Some? <==> v.Some? && v.value != 0
  {
    if v.Some? && v.value != 0 then Some(IntToString(v.value)) else None
  }

  /**
   * Pushing an optional tag changes a lookup only when the name is the pushed
   * one, a value is pushed, and no earlier tag already answers it.
   */
  lemma PushOptional(tags: seq<Tag>, name: string, v: Option<string>, q: string)
    ensures GetTagValue(tags + OptionalTag(name, v), q) ==
      if HasTag(tags, q) || q != name then GetTagValue(tags, q) else v
    ensures HasTag(tags + OptionalTag(name, v), q) <==> HasTag(tags, q) || (q == name && v.Some?)
  {
    var o := OptionalTag(name, v);
    GetTagValueAppend(tags, o, q);
    if v.Some? {
      GetTagValueAt(o, name, 0, v.value);
      assert o[0] in tags + o;
    } else {
      assert tags + o == tags;
    }
    if HasTag(tags + o, q) {
      var t :| t in tags + o && Named(t, q);
      assert t in tags || t in o;
    }
    if HasTag(tags, q) {
      var t :| t in tags && Named(t, q);
      assert t in tags + o;
    } else {
      GetTagValueAbsent(tags, q);
      if q != name || v.None? {
        assert !HasTag(o, q);
        GetTagValueAbsent(o, q);
      }
    }
  }

  /** The numbers the parsers fall back on read as themselves. */
  lemma FallbackNumbers()
    ensures ParseInt("0") == Some(0)
    ensures ParseNumber("4") == 4 && ParseNumber("50") == 50
    ensures ParseNumber("300") == 300 && ParseNumber("900") == 900 && ParseNumber("1500") == 1500
    ensures ParseNumber("999999") == 999999
  {
    SmallNumbers();
    BreakNumbers();
    FocusNumber();
    Nines();
    ReadsAs(999999, "999999");
  }

  /** The decimal texts of 0, 4 and 50. */
  lemma SmallNumbers()
    ensures ParseInt("0") == Some(0) && ParseNumber("4") == 4 && ParseNumber("50") == 50
  {
    assert NatToString(0) == "0" && NatToString(4) == "4";
    ReadsAs(0, "0");
    ReadsAs(4, "4");
    assert NatToString(5) == "5" && NatToString(50) == "50";
    ReadsAs(50, "50");
  }

  /** The decimal texts of 300 and 900. */
  lemma BreakNumbers()
    ensures ParseNumber("300") == 300 && ParseNumber("900") == 900
  {
    assert NatToString(3) == "3" && NatToString(30) == "30" && NatToString(300) == "300";
    ReadsAs(300, "300");
    assert NatToString(9) == "9" && NatToString(90) == "90" && NatToString(900) == "900";
    ReadsAs(900, "900");
  }

  /** The decimal text of 1500. */
  lemma FocusNumber()
    ensures ParseNumber("1500") == 1500
  {
    assert NatToString(1) == "1" && NatToString(15) == "15" && NatToString(150) == "150";
    assert NatToString(1500) == "1500";
    ReadsAs(1500, "1500");
  }

  /** The decimal text of 999999. */
  lemma Nines()
    ensures NatToString(999999) == "999999"
  {
    assert NatToString(9) == "9";
    assert NatToString(99) == "99";
    assert NatToString(999) == "999";
    assert NatToString(9999) == "9999";
    assert NatToString(99999) == "99999";
  }

  /** Text `s` naming `n` in decimal parses back to `n`. */
  lemma ReadsAs(n: nat, s: string)
    requires s == NatToString(n)
    ensures ParseInt(s) == Some(n) && ParseNumber(s) == n
  {
    ParseIntToString(n);
  }

  /** The five tags every session event starts with. */
  function SessionBaseTags(p: SessionParams): seq<Tag> {
    [["session_type", SessionTypeName(p.sessionType)],
     ["duration", IntToString(p.duration)],
     ["started_at", IntToString(p.startedAt)],
     ["completed_at", IntToString(p.completedAt)],
     ["alt", SessionAlt(p.sessionType)]]
  }

  /** `createSessionEvent`: the five base tags, then task, project and notes pushed when non-empty. */
  function CreateSessionEvent(p: SessionParams): EventTemplate {
    EventTemplate(SessionKind, "", SessionBaseTags(p)
      + OptionalTag("task", NonEmpty(p.taskNaddr))
      + OptionalTag("project", NonEmpty(p.projectNaddr))
      + OptionalTag("notes", NonEmpty(p.notes)))
  }

  lemma SessionBaseLookups(p: SessionParams)
    ensures GetTagValue(SessionBaseTags(p), "session_type") == Some(SessionTypeName(p.sessionType))
    ensures GetTagValue(SessionBaseTags(p), "duration") == Some(IntToString(p.duration))
    ensures GetTagValue(SessionBaseTags(p), "started_at") == Some(IntToString(p.startedAt))
    ensures GetTagValue(SessionBaseTags(p), "completed_at") == Some(IntToString(p.completedAt))
  {
    var b := SessionBaseTags(p);
    GetTagValueAt(b, "session_type", 0, SessionTypeName(p.sessionType));
    GetTagValueAt(b, "duration", 1, IntToString(p.duration));
    GetTagValueAt(b, "started_at", 2, IntToString(p.startedAt));
    GetTagValueAt(b, "completed_at", 3, IntToString(p.completedAt));
  }

  lemma SessionBaseNames(p: SessionParams)
    ensures HasTag(SessionBaseTags(p), "session_type") && HasTag(SessionBaseTags(p), "duration")
    ensures HasTag(SessionBaseTags(p), "started_at") && HasTag(SessionBaseTags(p), "completed_at")
    ensures !HasTag(SessionBaseTags(p), "task") && !HasTag(SessionBaseTags(p), "project")
    ensures !HasTag(SessionBaseTags(p), "notes")
  {
    var b := SessionBaseTags(p);
    assert b[0] in b && b[1] in b && b[2] in b && b[3] in b;
  }

  /**
   * Whatever a signer makes of a session template decodes to the session it
   * describes: the type's wire name, the three numbers, and task, project and
   * notes exactly when they were non-empty.
   */
  lemma SessionRoundTrip(p: SessionParams, id: string, pubkey: string, at: int)
    ensures var e := Sign(CreateSessionEvent(p), id, pubkey, at);
      ParseSession(e) == Some(Session(id, SessionTypeName(p.sessionType), p.duration, p.startedAt,
        p.completedAt, NonEmpty(p.taskNaddr), NonEmpty(p.projectNaddr), NonEmpty(p.notes), pubkey, e))
  {
    SessionEventLookups(p);
    ParseNumberToString(p.duration);
    ParseNumberToString(p.startedAt);
    ParseNumberToString(p.completedAt);
    assert SessionTypeName(p.sessionType) != "";
  }

  /** Every tag of a session event reads back as written; an optional one is absent when not written. */
  lemma SessionEventLookups(p: SessionParams)
    ensures var t := CreateSessionEvent(p).tags;
      && GetTagValue(t, "session_type") == Some(SessionTypeName(p.sessionType))
      && GetTagValue(t, "duration") == Some(IntToString(p.duration))
      && GetTagValue(t, "started_at") == Some(IntToString(p.startedAt))
      && GetTagValue(t, "completed_at") == Some(IntToString(p.completedAt))
      && GetTagValue(t, "task") == NonEmpty(p.taskNaddr)
      && GetTagValue(t, "project") == NonEmpty(p.projectNaddr)
      && GetTagValue(t, "notes") == NonEmpty(p.notes)
  {
    var base := SessionBaseTags(p);
    var t1 := base + OptionalTag("task", NonEmpty(p.taskNaddr));
    var t2 := t1 + OptionalTag("project", NonEmpty(p.projectNaddr));
    SessionBaseLookups(p);
    SessionBaseNames(p);
    forall q | q in {"session_type", "duration", "started_at", "completed_at"}
      ensures GetTagValue(CreateSessionEvent(p).tags, q) == GetTagValue(base, q)
    {
      PushOptional(base, "task", NonEmpty(p.taskNaddr), q);
      PushOptional(t1, "project", NonEmpty(p.projectNaddr), q);
      PushOptional(t2, "notes", NonEmpty(p.notes), q);
    }
    SessionOptionalLookups(p);
  }

  /**
   * The alt tag of a session event reads back as its description, in which
   * the type's first underscore is shown as a space.
   */
  lemma SessionAltTag(p: SessionParams)
    ensures GetTagValue(CreateSessionEvent(p).tags, "alt") == Some(SessionAlt(p.sessionType))
  {
    var base := SessionBaseTags(p);
    var rest := OptionalTag("task", NonEmpty(p.taskNaddr)) + OptionalTag("project", NonEmpty(p.projectNaddr))
      + OptionalTag("notes", NonEmpty(p.notes));
    assert CreateSessionEvent(p).tags == base + rest;
    GetTagValueAt(base, "alt", 4, SessionAlt(p.sessionType));
    assert base[4] in base;
    GetTagValueAppend(base, rest, "alt");
  }

  /**
   * The type as the description shows it: the first underscore of its wire
   * name becomes a space ("Completed a short break session").
   */
  lemma SessionAltText(t: SessionType)
    ensures t == Pomodoro ==> ReplaceFirst(SessionTypeName(t), '_', ' ') == "pomodoro"
    ensures t == ShortBreak ==> ReplaceFirst(SessionTypeName(t), '_', ' ') == "short break"
    ensures t == LongBreak ==> ReplaceFirst(SessionTypeName(t), '_', ' ') == "long break"
  {
    match t
    case Pomodoro =>
      PlainName("pomodoro");
    case ShortBreak =>
      assert SessionTypeName(t) == "short" + "_" + "break";
      SpacedName("short", "break");
    case LongBreak =>
      assert SessionTypeName(t) == "long" + "_" + "break";
      SpacedName("long", "break");
  }

  /** A name without an underscore is shown as it is. */
  lemma PlainName(name: string)
    requires '_' !in name
    ensures ReplaceFirst(name, '_', ' ') == name
  {
    ReplaceFirstAbsent(name, '_', ' ');
  }

  /** A name `a_b` with no underscore in `a` is shown as `a b`. */
  lemma SpacedName(a: string, b: string)
    requires '_' !in a
    ensures ReplaceFirst(a + "_" + b, '_', ' ') == a + " " + b
  {
    var s := a + "_" + b;
    assert s[..|a|] == a && s[|a|] == '_' && s[|a| + 1..] == b;
    ReplaceFirstAt(s, '_', ' ', |a|);
  }

  lemma SessionOptionalLookups(p: SessionParams)
    ensures var t := CreateSessionEvent(p).tags;
      && GetTagValue(t, "task") == NonEmpty(p.taskNaddr)
      && GetTagValue(t, "project") == NonEmpty(p.projectNaddr)
      && GetTagValue(t, "notes") == NonEmpty(p.notes)
  {
    var base := SessionBaseTags(p);
    var t1 := base + OptionalTag("task", NonEmpty(p.taskNaddr));
    var t2 := t1 + OptionalTag("project", NonEmpty(p.projectNaddr));
    SessionBaseNames(p);
    assert GetTagValue(CreateSessionEvent(p).tags, "task") == NonEmpty(p.taskNaddr) by {
      PushOptional(base, "task", NonEmpty(p.taskNaddr), "task");
      PushOptional(t1, "project", NonEmpty(p.projectNaddr), "task");
      PushOptional(t2, "notes", NonEmpty(p.notes), "task");
    }
    assert GetTagValue(CreateSessionEvent(p).tags, "project") == NonEmpty(p.projectNaddr) by {
      PushOptional(base, "task", NonEmpty(p.taskNaddr), "project");
      PushOptional(t1, "project", NonEmpty(p.projectNaddr), "project");
      PushOptional(t2, "notes", NonEmpty(p.notes), "project");
    }
    PushOptional(base, "task", NonEmpty(p.taskNaddr), "notes");
    PushOptional(t1, "project", NonEmpty(p.projectNaddr), "notes");
    PushOptional(t2, "notes", NonEmpty(p.notes), "notes");
    GetTagValueAbsent(base, "notes");
  }

  // ---------------------------------------------------------------------------
  // Settings (kind 10100)

  /**
   * `parseSettings`: the defaults, with the caller's key as author, for an event
   * of any other kind; otherwise every field read from its tag, the defaults
   * standing in for missing tags. `parse` is `JSON.parse` of the shortcuts tag,
   * None where it throws; both a failed parse and a missing tag give the
   * default shortcuts.
   */
  function ParseSettings(e: Event, userPubkey: string, parse: string -> Option<Shortcuts>): (r: Settings)
    ensures e.kind != SettingsKind ==> r == Settings(DefaultSettings, userPubkey, None)
    ensures e.kind == SettingsKind ==> r.author == e.pubkey && r.event == Some(e)
    ensures r.values.theme.Some? && r.values.shortcuts.Some?
  {
    if e.kind != SettingsKind then Settings(DefaultSettings, userPubkey, None)
    else
      var shortcutsText := GetTagValue(e.tags, "shortcuts");
      var shortcuts: Option<Shortcuts> :=
        if Truthy(shortcutsText) then
          (if parse(shortcutsText.value).Some? then parse(shortcutsText.value) else DefaultSettings.shortcuts)
        else None;
      var values := SettingsValues(
        ParseNumber(GetTagValue(e.tags, "pomodoro_duration").GetOr("1500")),
        ParseNumber(GetTagValue(e.tags, "short_break_duration").GetOr("300")),
        ParseNumber(GetTagValue(e.tags, "long_break_duration").GetOr("900")),
        ParseNumber(GetTagValue(e.tags, "long_break_interval").GetOr("4")),
        GetTagValue(e.tags, "auto_start_breaks") == Some("true"),
        GetTagValue(e.tags, "auto_start_pomodoros") == Some("true"),
        GetTagValue(e.tags, "notification_sound") != Some("false"),
        ParseNumber(GetTagValue(e.tags, "notification_volume").GetOr("50")),
        Some(GetTagValue(e.tags, "theme").GetOr("default")),
        shortcuts.OrElse(DefaultSettings.shortcuts));
      Settings(values, e.pubkey, Some(e))
  }

  /** A settings event without a single tag decodes to the defaults, authored by its signer. */
  lemma ParseSettingsUntagged(e: Event, userPubkey: string, parse: string -> Option<Shortcuts>)
    requires e.kind == SettingsKind && e.tags == []
    ensures ParseSettings(e, userPubkey, parse) == Settings(DefaultSettings, e.pubkey, Some(e))
  {
    FallbackNumbers();
  }

  /** The eight tags every settings event starts with. */
  function SettingsBaseTags(v: SettingsValues): seq<Tag> {
    [["pomodoro_duration", IntToString(v.pomodoroDuration)],
     ["short_break_duration", IntToString(v.shortBreakDuration)],
     ["long_break_duration", IntToString(v.longBreakDuration)],
     ["long_break_interval", IntToString(v.longBreakInterval)],
     ["auto_start_breaks", BoolToString(v.autoStartBreaks)],
     ["auto_start_pomodoros", BoolToString(v.autoStartPomodoros)],
     ["notification_sound", BoolToString(v.notificationSound)],
     ["notification_volume", IntToString(v.notificationVolume)]]
  }

  /**
   * `createSettingsEvent`: the eight base tags, then the theme when non-empty
   * and the shortcuts, as `stringify` (`JSON.stringify`) writes them, when set.
   */
  function CreateSettingsEvent(v: SettingsValues, stringify: Shortcuts -> string): EventTemplate {
    EventTemplate(SettingsKind, "", SettingsBaseTags(v)
      + OptionalTag("theme", NonEmpty(v.theme))
      + OptionalTag("shortcuts", if v.shortcuts.Some? then Some(stringify(v.shortcuts.value)) else None))
  }

  lemma SettingsBaseLookups(v: SettingsValues)
    ensures GetTagValue(SettingsBaseTags(v), "pomodoro_duration") == Some(IntToString(v.pomodoroDuration))
    ensures GetTagValue(SettingsBaseTags(v), "short_break_duration") == Some(IntToString(v.shortBreakDuration))
    ensures GetTagValue(SettingsBaseTags(v), "long_break_duration") == Some(IntToString(v.longBreakDuration))
    ensures GetTagValue(SettingsBaseTags(v), "long_break_interval") == Some(IntToString(v.longBreakInterval))
    ensures GetTagValue(SettingsBaseTags(v), "auto_start_breaks") == Some(BoolToString(v.autoStartBreaks))
    ensures GetTagValue(SettingsBaseTags(v), "auto_start_pomodoros") == Some(BoolToString(v.autoStartPomodoros))
    ensures GetTagValue(SettingsBaseTags(v), "notification_sound") == Some(BoolToString(v.notificationSound))
    ensures GetTagValue(SettingsBaseTags(v), "notification_volume") == Some(IntToString(v.notificationVolume))
  {
    SettingsDurationLookups(v);
    SettingsFlagLookups(v);
  }

  lemma SettingsDurationLookups(v: SettingsValues)
    ensures GetTagValue(SettingsBaseTags(v), "pomodoro_duration") == Some(IntToString(v.pomodoroDuration))
    ensures GetTagValue(SettingsBaseTags(v), "short_break_duration") == Some(IntToString(v.shortBreakDuration))
    ensures GetTagValue(SettingsBaseTags(v), "long_break_duration") == Some(IntToString(v.longBreakDuration))
    ensures GetTagValue(SettingsBaseTags(v), "long_break_interval") == Some(IntToString(v.longBreakInterval))
  {
    var b := SettingsBaseTags(v);
    GetTagValueAt(b, "pomodoro_duration", 0, IntToString(v.pomodoroDuration));
    GetTagValueAt(b, "short_break_duration", 1, IntToString(v.shortBreakDuration));
    GetTagValueAt(b, "long_break_duration", 2, IntToString(v.longBreakDuration));
    GetTagValueAt(b, "long_break_interval", 3, IntToString(v.longBreakInterval));
  }

  lemma SettingsFlagLookups(v: SettingsValues)
    ensures GetTagValue(SettingsBaseTags(v), "auto_start_breaks") == Some(BoolToString(v.autoStartBreaks))
    ensures GetTagValue(SettingsBaseTags(v), "auto_start_pomodoros") == Some(BoolToString(v.autoStartPomodoros))
    ensures GetTagValue(SettingsBaseTags(v), "notification_sound") == Some(BoolToString(v.notificationSound))
    ensures GetTagValue(SettingsBaseTags(v), "notification_volume") == Some(IntToString(v.notificationVolume))
  {
    var b := SettingsBaseTags(v);
    GetTagValueAt(b, "auto_start_breaks", 4, BoolToString(v.autoStartBreaks));
    GetTagValueAt(b, "auto_start_pomodoros", 5, BoolToString(v.autoStartPomodoros));
    GetTagValueAt(b, "notification_sound", 6, BoolToString(v.notificationSound));
    GetTagValueAt(b, "notification_volume", 7, IntToString(v.notificationVolume));
  }

  lemma SettingsBaseNames(v: SettingsValues)
    ensures HasTag(SettingsBaseTags(v), "pomodoro_duration") && HasTag(SettingsBaseTags(v), "short_break_duration")
    ensures HasTag(SettingsBaseTags(v), "long_break_duration") && HasTag(SettingsBaseTags(v), "long_break_interval")
    ensures HasTag(SettingsBaseTags(v), "auto_start_breaks") && HasTag(SettingsBaseTags(v), "auto_start_pomodoros")
    ensures HasTag(SettingsBaseTags(v), "notification_sound") && HasTag(SettingsBaseTags(v), "notification_volume")
  {
    var b := SettingsBaseTags(v);
    assert b[0] in b && b[1] in b && b[2] in b && b[3] in b;
    assert b[4] in b && b[5] in b && b[6] in b && b[7] in b;
  }

  lemma SettingsBaseLacks(v: SettingsValues, q: string)
    requires q == "theme" || q == "shortcuts"
    ensures !HasTag(SettingsBaseTags(v), q)
  {
    var b := SettingsBaseTags(v);
    forall i | 0 <= i < |b| ensures b[i][0] != q {
    }
  }

  /** The optional tags come after the base tags, so they never hide a base tag from a lookup. */
  lemma SettingsLookupBase(v: SettingsValues, stringify: Shortcuts -> string, q: string)
    requires HasTag(SettingsBaseTags(v), q)
    ensures GetTagValue(CreateSettingsEvent(v, stringify).tags, q) == GetTagValue(SettingsBaseTags(v), q)
  {
    var base := SettingsBaseTags(v);
    var sc := if v.shortcuts.Some? then Some(stringify(v.shortcuts.value)) else None;
    var t1 := base + OptionalTag("theme", NonEmpty(v.theme));
    PushOptional(base, "theme", NonEmpty(v.theme), q);
    PushOptional(t1, "shortcuts", sc, q);
  }

  /**
   * Saving settings and reading them back gives the same numbers and flags; an
   * empty or missing theme comes back as 'default', missing shortcuts come back
   * as the defaults, and shortcuts that `parse` reads back from `stringify`'s
   * non-empty text come back as they were.
   */
  lemma SettingsRoundTrip(v: SettingsValues, stringify: Shortcuts -> string, parse: string -> Option<Shortcuts>,
                          id: string, pubkey: string, at: int, userPubkey: string)
    requires v.shortcuts.Some? ==> stringify(v.shortcuts.value) != "" && parse(stringify(v.shortcuts.value)) == v.shortcuts
    ensures var e := Sign(CreateSettingsEvent(v, stringify), id, pubkey, at);
      ParseSettings(e, userPubkey, parse) == Settings(
        v.(theme := Some(if Truthy(v.theme) then v.theme.value else "default"),
           shortcuts := v.shortcuts.OrElse(Some(DefaultShortcuts))),
        pubkey, Some(e))
  {
    var e := Sign(CreateSettingsEvent(v, stringify), id, pubkey, at);
    SettingsEventBaseLookups(v, stringify);
    SettingsEventOptionalLookups(v, stringify);
    ParseNumberToString(v.pomodoroDuration);
    ParseNumberToString(v.shortBreakDuration);
    ParseNumberToString(v.longBreakDuration);
    ParseNumberToString(v.longBreakInterval);
    ParseNumberToString(v.notificationVolume);
  }

  /** Each base tag of a settings event reads back as written. */
  lemma SettingsEventBaseLookups(v: SettingsValues, stringify: Shortcuts -> string)
    ensures var t := CreateSettingsEvent(v, stringify).tags;
      && GetTagValue(t, "pomodoro_duration") == Some(IntToString(v.pomodoroDuration))
      && GetTagValue(t, "short_break_duration") == Some(IntToString(v.shortBreakDuration))
      && GetTagValue(t, "long_break_duration") == Some(IntToString(v.longBreakDuration))
      && GetTagValue(t, "long_break_interval") == Some(IntToString(v.longBreakInterval))
      && GetTagValue(t, "auto_start_breaks") == Some(BoolToString(v.autoStartBreaks))
      && GetTagValue(t, "auto_start_pomodoros") == Some(BoolToString(v.autoStartPomodoros))
      && GetTagValue(t, "notification_sound") == Some(BoolToString(v.notificationSound))
      && GetTagValue(t, "notification_volume") == Some(IntToString(v.notificationVolume))
  {
    SettingsBaseLookups(v);
    SettingsBaseNames(v);
    SettingsLookupBase(v, stringify, "pomodoro_duration");
    SettingsLookupBase(v, stringify, "short_break_duration");
    SettingsLookupBase(v, stringify, "long_break_duration");
    SettingsLookupBase(v, stringify, "long_break_interval");
    SettingsLookupBase(v, stringify, "auto_start_breaks");
    SettingsLookupBase(v, stringify, "auto_start_pomodoros");
    SettingsLookupBase(v, stringify, "notification_sound");
    SettingsLookupBase(v, stringify, "notification_volume");
  }

  /** The theme and shortcuts tags of a settings event read back as written, absent when not written. */
  lemma SettingsEventOptionalLookups(v: SettingsValues, stringify: Shortcuts -> string)
    ensures var t := CreateSettingsEvent(v, stringify).tags;
      && GetTagValue(t, "theme") == NonEmpty(v.theme)
      && GetTagValue(t, "shortcuts") == if v.shortcuts.Some? then Some(stringify(v.shortcuts.value)) else None
  {
    var base := SettingsBaseTags(v);
    var sc := if v.shortcuts.Some? then Some(stringify(v.shortcuts.value)) else None;
    var t1 := base + OptionalTag("theme", NonEmpty(v.theme));
    SettingsBaseLacks(v, "theme");
    SettingsBaseLacks(v, "shortcuts");
    PushOptional(base, "theme", NonEmpty(v.theme), "theme");
    PushOptional(t1, "shortcuts", sc, "theme");
    GetTagValueAbsent(base, "theme");
    PushOptional(base, "theme", NonEmpty(v.theme), "shortcuts");
    PushOptional(t1, "shortcuts", sc, "shortcuts");
    GetTagValueAbsent(base, "shortcuts");
  }

  /** Settings as the decoder returns them (a theme and shortcuts always set) survive saving unchanged when the theme is non-empty. */
  lemma SettingsRoundTripDecoded(v: SettingsValues, stringify: Shortcuts -> string, parse: string -> Option<Shortcuts>,
                                 id: string, pubkey: string, at: int, userPubkey: string)
    requires Truthy(v.theme) && v.shortcuts.Some?
    requires stringify(v.shortcuts.value) != "" && parse(stringify(v.shortcuts.value)) == v.shortcuts
    ensures ParseSettings(Sign(CreateSettingsEvent(v, stringify), id, pubkey, at), userPubkey, parse).values == v
  {
    SettingsRoundTrip(v, stringify, parse, id, pubkey, at, userPubkey);
  }

  // ---------------------------------------------------------------------------
  // Tasks (kind 30100)

  /** `parseInt(x ?? '0', 10) || undefined`: 0 and NaN both mean "no estimate". */
  function EstimateOf(text: Option<string>): (r: Option<int>)
    ensures r.Some? ==> r.value != 0
  {
    var n := ParseInt(text.GetOr("0"));
    if n.Some? && n.value != 0 then n else None
  }

  /**
   * `parseTask`: null unless the kind is 30100 and d, title and
   * created_at_timestamp hold non-empty values. The task's id is its d tag and
   * its address is made of kind, author and d; a missing order reads as 999999.
   */
  function ParseTask(e: Event): (r: Option<Task>)
    ensures r.Some? <==>
      e.kind == TaskKind && HasValue(e.tags, "d") && HasValue(e.tags, "title") && HasValue(e.tags, "created_at_timestamp")
    ensures r.Some? ==>
      && Some(r.value.id) == GetTagValue(e.tags, "d")
      && r.value.naddr == NaddrEncode(TaskKind, e.pubkey, r.value.id)
      && r.value.author == e.pubkey && r.value.event == e && r.value.order.Some?
  {
    if e.kind != TaskKind then None
    else
      var d := GetTagValue(e.tags, "d");
      var title := GetTagValue(e.tags, "title");
      var createdAt := GetTagValue(e.tags, "created_at_timestamp");
      if !Truthy(d) || !Truthy(title) || !Truthy(createdAt) then None
      else
        var completedAt := GetTagValue(e.tags, "completed_at");
        Some(Task(
          d.value,
          NaddrEncode(e.kind, e.pubkey, d.value),
          title.value,
          GetTagValue(e.tags, "project"),
          EstimateOf(GetTagValue(e.tags, "estimated_pomodoros")),
          ParseNumber(GetTagValue(e.tags, "completed_pomodoros").GetOr("0")),
          GetTagValue(e.tags, "completed") == Some("true"),
          if Truthy(completedAt) then Some(ParseNumber(completedAt.value)) else None,
          ParseNumber(createdAt.value),
          Some(ParseNumber(GetTagValue(e.tags, "order").GetOr("999999"))),
          e.pubkey,
          e))
  }

  /** CreateTaskParams. */
  datatype TaskParams = TaskParams(
    id: string,
    title: string,
    projectNaddr: Option<string>,
    estimatedPomodoros: Option<int>,
    completedPomodoros: Option<int>,
    completed: Option<bool>,
    completedAt: Option<int>,
    order: Option<int>)

  /** The five tags every task event starts with; `now` is the clock reading in seconds. */
  function TaskBaseTags(p: TaskParams, now: int): seq<Tag> {
    [["d", p.id],
     ["title", p.title],
     ["completed_pomodoros", IntToString(p.completedPomodoros.GetOr(0))],
     ["completed", BoolToString(p.completed.GetOr(false))],
     ["created_at_timestamp", IntToString(now)]]
  }

  /**
   * `createTaskEvent`: the five base tags, then the project when non-empty, the
   * estimate when given, the completion time when non-zero and the order when given.
   */
  function CreateTaskEvent(p: TaskParams, now: int): EventTemplate {
    EventTemplate(TaskKind, "", TaskBaseTags(p, now)
      + OptionalTag("project", NonEmpty(p.projectNaddr))
      + OptionalTag("estimated_pomodoros", DefinedText(p.estimatedPomodoros))
      + OptionalTag("completed_at", TruthyText(p.completedAt))
      + OptionalTag("order", DefinedText(p.order)))
  }

  lemma TaskBaseLookups(p: TaskParams, now: int)
    ensures GetTagValue(TaskBaseTags(p, now), "d") == Some(p.id)
    ensures GetTagValue(TaskBaseTags(p, now), "title") == Some(p.title)
    ensures GetTagValue(TaskBaseTags(p, now), "completed_pomodoros") == Some(IntToString(p.completedPomodoros.GetOr(0)))
    ensures GetTagValue(TaskBaseTags(p, now), "completed") == Some(BoolToString(p.completed.GetOr(false)))
    ensures GetTagValue(TaskBaseTags(p, now), "created_at_timestamp") == Some(IntToString(now))
  {
    var b := TaskBaseTags(p, now);
    GetTagValueAt(b, "d", 0, p.id);
    GetTagValueAt(b, "title", 1, p.title);
    GetTagValueAt(b, "completed_pomodoros", 2, IntToString(p.completedPomodoros.GetOr(0)));
    GetTagValueAt(b, "completed", 3, BoolToString(p.completed.GetOr(false)));
    GetTagValueAt(b, "created_at_timestamp", 4, IntToString(now));
  }

  lemma TaskBaseNames(p: TaskParams, now: int)
    ensures HasTag(TaskBaseTags(p, now), "d") && HasTag(TaskBaseTags(p, now), "title")
    ensures HasTag(TaskBaseTags(p, now), "completed_pomodoros") && HasTag(TaskBaseTags(p, now), "completed")
    ensures HasTag(TaskBaseTags(p, now), "created_at_timestamp")
  {
    var b := TaskBaseTags(p, now);
    assert b[0] in b && b[1] in b && b[2] in b && b[3] in b && b[4] in b;
  }

  lemma TaskBaseLacks(p: TaskParams, now: int, q: string)
    requires q in {"project", "estimated_pomodoros", "completed_at", "order"}
    ensures !HasTag(TaskBaseTags(p, now), q)
  {
    var b := TaskBaseTags(p, now);
    forall i | 0 <= i < |b| ensures b[i][0] != q {
    }
  }

  /** The tags a task event carries after its base tags. */
  function TaskOptionalTags(p: TaskParams): seq<seq<Tag>> {
    [OptionalTag("project", NonEmpty(p.projectNaddr)),
     OptionalTag("estimated_pomodoros", DefinedText(p.estimatedPomodoros)),
     OptionalTag("completed_at", TruthyText(p.completedAt)),
     OptionalTag("order", DefinedText(p.order))]
  }

  /** Looking up a base tag of a task event reads the base tag. */
  lemma TaskLookupBase(p: TaskParams, now: int, q: string)
    requires HasTag(TaskBaseTags(p, now), q)
    ensures GetTagValue(CreateTaskEvent(p, now).tags, q) == GetTagValue(TaskBaseTags(p, now), q)
  {
    var o := TaskOptionalTags(p);
    var t0 := TaskBaseTags(p, now);
    var t1 := t0 + o[0];
    var t2 := t1 + o[1];
    var t3 := t2 + o[2];
    PushOptional(t0, "project", NonEmpty(p.projectNaddr), q);
    PushOptional(t1, "estimated_pomodoros", DefinedText(p.estimatedPomodoros), q);
    PushOptional(t2, "completed_at", TruthyText(p.completedAt), q);
    PushOptional(t3, "order", DefinedText(p.order), q);
  }

  /** Looking up an optional tag of a task event reads the value pushed under that name, if any. */
  lemma TaskLookupOptional(p: TaskParams, now: int)
    ensures GetTagValue(CreateTaskEvent(p, now).tags, "project") == NonEmpty(p.projectNaddr)
    ensures GetTagValue(CreateTaskEvent(p, now).tags, "estimated_pomodoros") == DefinedText(p.estimatedPomodoros)
    ensures GetTagValue(CreateTaskEvent(p, now).tags, "completed_at") == TruthyText(p.completedAt)
    ensures GetTagValue(CreateTaskEvent(p, now).tags, "order") == DefinedText(p.order)
  {
    var o := TaskOptionalTags(p);
    var t0 := TaskBaseTags(p, now);
    var t1 := t0 + o[0];
    var t2 := t1 + o[1];
    var t3 := t2 + o[2];
    forall q | q in {"project", "estimated_pomodoros", "completed_at", "order"}
      ensures GetTagValue(CreateTaskEvent(p, now).tags, q) ==
        if q == "project" then NonEmpty(p.projectNaddr)
        else if q == "estimated_pomodoros" then DefinedText(p.estimatedPomodoros)
        else if q == "completed_at" then TruthyText(p.completedAt)
        else DefinedText(p.order)
    {
      TaskBaseLacks(p, now, q);
      GetTagValueAbsent(t0, q);
      PushOptional(t0, "project", NonEmpty(p.projectNaddr), q);
      PushOptional(t1, "estimated_pomodoros", DefinedText(p.estimatedPomodoros), q);
      PushOptional(t2, "completed_at", TruthyText(p.completedAt), q);
      PushOptional(t3, "order", DefinedText(p.order), q);
    }
  }

  /** The task a signed task event decodes to, when the id and title are non-empty. */
  function TaskFromParams(p: TaskParams, createdAt: int, e: Event): Task {
    Task(
      p.id,
      NaddrEncode(TaskKind, e.pubkey, p.id),
      p.title,
      NonEmpty(p.projectNaddr),
      if p.estimatedPomodoros.Some? && p.estimatedPomodoros.value != 0 then p.estimatedPomodoros else None,
      p.completedPomodoros.GetOr(0),
      p.completed.GetOr(false),
      if p.completedAt.Some? && p.completedAt.value != 0 then p.completedAt else None,
      createdAt,
      Some(p.order.GetOr(999999)),
      e.pubkey,
      e)
  }

  /** What `parseTask` makes of any task event whose tags read as a task event built from `p` at `now`. */
  lemma ParseTaskOfLookups(e: Event, p: TaskParams, now: int)
    requires e.kind == TaskKind
    requires GetTagValue(e.tags, "d") == Some(p.id)
    requires GetTagValue(e.tags, "title") == Some(p.title)
    requires GetTagValue(e.tags, "created_at_timestamp") == Some(IntToString(now))
    requires GetTagValue(e.tags, "completed") == Some(BoolToString(p.completed.GetOr(false)))
    requires GetTagValue(e.tags, "completed_pomodoros") == Some(IntToString(p.completedPomodoros.GetOr(0)))
    requires GetTagValue(e.tags, "project") == NonEmpty(p.projectNaddr)
    requires GetTagValue(e.tags, "estimated_pomodoros") == DefinedText(p.estimatedPomodoros)
    requires GetTagValue(e.tags, "completed_at") == TruthyText(p.completedAt)
    requires GetTagValue(e.tags, "order") == DefinedText(p.order)
    ensures ParseTask(e) == if p.id != "" && p.title != "" then Some(TaskFromParams(p, now, e)) else None
  {
    if p.id != "" && p.title != "" {
      var r := ParseTask(e).value;
      var t := TaskFromParams(p, now, e);
      assert r.createdAt == now by {
        ParseNumberToString(now);
      }
      assert r.completedPomodoros == t.completedPomodoros by {
        ParseNumberToString(p.completedPomodoros.GetOr(0));
      }
      assert r.estimatedPomodoros == t.estimatedPomodoros by {
        FallbackNumbers();
        if p.estimatedPomodoros.Some? {
          ParseIntToString(p.estimatedPomodoros.value);
        }
      }
      assert r.completedAt == t.completedAt by {
        if p.completedAt.Some? {
          ParseNumberToString(p.completedAt.value);
        }
      }
      assert r.order == t.order by {
        FallbackNumbers();
        if p.order.Some? {
          ParseNumberToString(p.order.value);
        }
      }
      assert r.id == t.id && r.naddr == t.naddr && r.title == t.title && r.projectNaddr == t.projectNaddr;
      assert r.completed == t.completed && r.author == t.author && r.event == t.event;
    }
  }

  /**
   * A signed task event decodes exactly when its id and title are non-empty,
   * and then to the task it describes: created at the clock reading, the
   * project only when non-empty, the estimate only when non-zero, the
   * completion time only when non-zero, and order 999999 when none was given.
   */
  lemma TaskRoundTrip(p: TaskParams, now: int, id: string, pubkey: string, at: int)
    ensures var e := Sign(CreateTaskEvent(p, now), id, pubkey, at);
      ParseTask(e) == if p.id != "" && p.title != "" then Some(TaskFromParams(p, now, e)) else None
  {
    var e := Sign(CreateTaskEvent(p, now), id, pubkey, at);
    TaskBaseLookups(p, now);
    TaskBaseNames(p, now);
    TaskLookupBase(p, now, "d");
    TaskLookupBase(p, now, "title");
    TaskLookupBase(p, now, "completed_pomodoros");
    TaskLookupBase(p, now, "completed");
    TaskLookupBase(p, now, "created_at_timestamp");
    TaskLookupOptional(p, now);
    ParseTaskOfLookups(e, p, now);
  }

  /** `tag[0] === 'created_at_timestamp' ? ['created_at_timestamp', createdAt] : tag`. */
  function ReplaceCreatedAt(tag: Tag, createdAt: int): Tag {
    if Named(tag, "created_at_timestamp") then ["created_at_timestamp", IntToString(createdAt)] else tag
  }

  /** `tags.map(...)` with the replacement above. */
  function ReplaceCreatedAtAll(tags: seq<Tag>, createdAt: int): (r: seq<Tag>)
    ensures |r| == |tags|
    ensures forall i :: 0 <= i < |tags| ==> r[i] == ReplaceCreatedAt(tags[i], createdAt)
  {
    seq(|tags|, i requires 0 <= i < |tags| => ReplaceCreatedAt(tags[i], createdAt))
  }

  /** Partial<CreateTaskParams>: every field optional; an id given here is ignored. */
  datatype TaskUpdate = TaskUpdate(
    id: Option<string>,
    title: Option<string>,
    projectNaddr: Option<string>,
    estimatedPomodoros: Option<int>,
    completedPomodoros: Option<int>,
    completed: Option<bool>,
    completedAt: Option<int>,
    order: Option<int>)

  /** The parameters `updateTaskEvent` builds: each field from the update, else from the task (`??`). */
  function UpdatedTaskParams(task: Task, u: TaskUpdate): TaskParams {
    TaskParams(
      task.id,
      u.title.GetOr(task.title),
      u.projectNaddr.OrElse(task.projectNaddr),
      u.estimatedPomodoros.OrElse(task.estimatedPomodoros),
      Some(u.completedPomodoros.GetOr(task.completedPomodoros)),
      Some(u.completed.GetOr(task.completed)),
      u.completedAt.OrElse(task.completedAt),
      u.order.OrElse(task.order))
  }

  /** `updateTaskEvent`: a fresh task event for the merged fields, with the task's original creation time. */
  function UpdateTaskEvent(task: Task, u: TaskUpdate, now: int): EventTemplate {
    var t := CreateTaskEvent(UpdatedTaskParams(task, u), now);
    t.(tags := ReplaceCreatedAtAll(t.tags, task.createdAt))
  }

  /** The replacement works tag by tag, so it distributes over concatenation. */
  lemma ReplaceAppend(a: seq<Tag>, b: seq<Tag>, c: int)
    ensures ReplaceCreatedAtAll(a + b, c) == ReplaceCreatedAtAll(a, c) + ReplaceCreatedAtAll(b, c)
  {
  }

  /** An optional tag under another name passes the replacement unchanged. */
  lemma ReplaceOptional(name: string, v: Option<string>, c: int)
    requires name != "created_at_timestamp"
    ensures ReplaceCreatedAtAll(OptionalTag(name, v), c) == OptionalTag(name, v)
  {
  }

  /**
   * Updating a task is the same as creating it at its original creation time:
   * the update keeps the task's id and creation time, and the clock reading
   * plays no part in it.
   */
  lemma UpdateTaskIsCreateAtOriginalTime(task: Task, u: TaskUpdate, now: int)
    ensures UpdateTaskEvent(task, u, now) == CreateTaskEvent(UpdatedTaskParams(task, u), task.createdAt)
  {
    var p := UpdatedTaskParams(task, u);
    var o := TaskOptionalTags(p);
    var c := task.createdAt;
    var b0, b1 := TaskBaseTags(p, now), TaskBaseTags(p, c);
    assert ReplaceCreatedAtAll(b0, c) == b1;
    ReplaceOptional("project", NonEmpty(p.projectNaddr), c);
    ReplaceOptional("estimated_pomodoros", DefinedText(p.estimatedPomodoros), c);
    ReplaceOptional("completed_at", TruthyText(p.completedAt), c);
    ReplaceOptional("order", DefinedText(p.order), c);
    ReplaceAppend(b0, o[0], c);
    ReplaceAppend(b0 + o[0], o[1], c);
    ReplaceAppend(b0 + o[0] + o[1], o[2], c);
    ReplaceAppend(b0 + o[0] + o[1] + o[2], o[3], c);
  }

  /**
   * A task updated and signed by its own author decodes, when the merged title
   * is non-empty, to a task with the same id, address and creation time; every
   * other field is the update's where it gave one and the task's otherwise.
   */
  lemma UpdateTaskRoundTrip(task: Task, u: TaskUpdate, now: int, id: string, at: int)
    requires task.id != "" && u.title.GetOr(task.title) != ""
    ensures var e := Sign(UpdateTaskEvent(task, u, now), id, task.author, at);
      && ParseTask(e).Some?
      && ParseTask(e).value == TaskFromParams(UpdatedTaskParams(task, u), task.createdAt, e)
      && ParseTask(e).value.id == task.id
      && ParseTask(e).value.naddr == NaddrEncode(TaskKind, task.author, task.id)
      && ParseTask(e).value.createdAt == task.createdAt
  {
    UpdateTaskIsCreateAtOriginalTime(task, u, now);
    TaskRoundTrip(UpdatedTaskParams(task, u), task.createdAt, id, task.author, at);
  }

  /** The update cannot clear a completion time: with none given, the task's stays. */
  lemma UpdateKeepsCompletedAt(task: Task, u: TaskUpdate)
    requires u.completedAt.None?
    ensures UpdatedTaskParams(task, u).completedAt == task.completedAt
  {
  }

  // ---------------------------------------------------------------------------
  // Projects (kind 30101)

  /**
   * `parseProject`: null unless the kind is 30101 and d, name and
   * created_at_timestamp hold non-empty values; the colour is taken as
   * written and a missing order reads as 999999.
   */
  function ParseProject(e: Event): (r: Option<Project>)
    ensures r.Some? <==>
      e.kind == ProjectKind && HasValue(e.tags, "d") && HasValue(e.tags, "name") && HasValue(e.tags, "created_at_timestamp")
    ensures r.Some? ==>
      && Some(r.value.id) == GetTagValue(e.tags, "d")
      && r.value.naddr == NaddrEncode(ProjectKind, e.pubkey, r.value.id)
      && r.value.author == e.pubkey && r.value.event == e && r.value.order.Some?
  {
    if e.kind != ProjectKind then None
    else
      var d := GetTagValue(e.tags, "d");
      var name := GetTagValue(e.tags, "name");
      var createdAt := GetTagValue(e.tags, "created_at_timestamp");
      if !Truthy(d) || !Truthy(name) || !Truthy(createdAt) then None
      else Some(Project(
        d.value,
        NaddrEncode(e.kind, e.pubkey, d.value),
        name.value,
        GetTagValue(e.tags, "color"),
        ParseNumber(createdAt.value),
        Some(ParseNumber(GetTagValue(e.tags, "order").GetOr("999999"))),
        e.pubkey,
        e))
  }

  /** CreateProjectParams. */
  datatype ProjectParams = ProjectParams(id: string, name: string, color: Option<string>, order: Option<int>)

  function ProjectBaseTags(p: ProjectParams, now: int): seq<Tag> {
    [["d", p.id], ["name", p.name], ["created_at_timestamp", IntToString(now)]]
  }

  /** `createProjectEvent`: d, name and the clock reading, then the colour when non-empty and the order when given. */
  function CreateProjectEvent(p: ProjectParams, now: int): EventTemplate {
    EventTemplate(ProjectKind, "", ProjectBaseTags(p, now)
      + OptionalTag("color", NonEmpty(p.color))
      + OptionalTag("order", DefinedText(p.order)))
  }

  lemma ProjectLookups(p: ProjectParams, now: int)
    ensures GetTagValue(CreateProjectEvent(p, now).tags, "d") == Some(p.id)
    ensures GetTagValue(CreateProjectEvent(p, now).tags, "name") == Some(p.name)
    ensures GetTagValue(CreateProjectEvent(p, now).tags, "created_at_timestamp") == Some(IntToString(now))
    ensures GetTagValue(CreateProjectEvent(p, now).tags, "color") == NonEmpty(p.color)
    ensures GetTagValue(CreateProjectEvent(p, now).tags, "order") == DefinedText(p.order)
  {
    var b := ProjectBaseTags(p, now);
    var t1 := b + OptionalTag("color", NonEmpty(p.color));
    GetTagValueAt(b, "d", 0, p.id);
    GetTagValueAt(b, "name", 1, p.name);
    GetTagValueAt(b, "created_at_timestamp", 2, IntToString(now));
    assert b[0] in b && b[1] in b && b[2] in b;
    assert !HasTag(b, "color") && !HasTag(b, "order") by {
      forall i | 0 <= i < |b| ensures b[i][0] != "color" && b[i][0] != "order" {
      }
    }
    GetTagValueAbsent(b, "color");
    GetTagValueAbsent(b, "order");
    forall q | q in {"d", "name", "created_at_timestamp", "color", "order"}
      ensures GetTagValue(CreateProjectEvent(p, now).tags, q) ==
        if q == "color" then NonEmpty(p.color) else if q == "order" then DefinedText(p.order) else GetTagValue(b, q)
    {
      PushOptional(b, "color", NonEmpty(p.color), q);
      PushOptional(t1, "order", DefinedText(p.order), q);
    }
  }

  /** The project a signed project event decodes to, when the id and name are non-empty. */
  function ProjectFromParams(p: ProjectParams, createdAt: int, e: Event): Project {
    Project(p.id, NaddrEncode(ProjectKind, e.pubkey, p.id), p.name, NonEmpty(p.color), createdAt,
      Some(p.order.GetOr(999999)), e.pubkey, e)
  }

  /**
   * A signed project event decodes exactly when its id and name are
   * non-empty, and then to the project it describes, created at the clock
   * reading, with the colour only when non-empty and order 999999 when none was given.
   */
  lemma ProjectRoundTrip(p: ProjectParams, now: int, id: string, pubkey: string, at: int)
    ensures var e := Sign(CreateProjectEvent(p, now), id, pubkey, at);
      ParseProject(e) == if p.id != "" && p.name != "" then Some(ProjectFromParams(p, now, e)) else None
  {
    var e := Sign(CreateProjectEvent(p, now), id, pubkey, at);
    ProjectLookups(p, now);
    if p.id != "" && p.name != "" {
      var r := ParseProject(e).value;
      var t := ProjectFromParams(p, now, e);
      assert r.createdAt == now by {
        ParseNumberToString(now);
      }
      assert r.order == t.order by {
        FallbackNumbers();
        if p.order.Some? {
          ParseNumberToString(p.order.value);
        }
      }
      assert r.id == t.id && r.naddr == t.naddr && r.name == t.name && r.color == t.color;
    }
  }

  /** Partial<CreateProjectParams>: an id given here is ignored. */
  datatype ProjectUpdate = ProjectUpdate(id: Option<string>, name: Option<string>, color: Option<string>, order: Option<int>)

  function UpdatedProjectParams(project: Project, u: ProjectUpdate): ProjectParams {
    ProjectParams(project.id, u.name.GetOr(project.name), u.color.OrElse(project.color), u.order.OrElse(project.order))
  }

  /** `updateProjectEvent`: a fresh project event for the merged fields, with the original creation time. */
  function UpdateProjectEvent(project: Project, u: ProjectUpdate, now: int): EventTemplate {
    var t := CreateProjectEvent(UpdatedProjectParams(project, u), now);
    t.(tags := ReplaceCreatedAtAll(t.tags, project.createdAt))
  }

  /** Updating a project is creating it at its original creation time; the clock plays no part. */
  lemma UpdateProjectIsCreateAtOriginalTime(project: Project, u: ProjectUpdate, now: int)
    ensures UpdateProjectEvent(project, u, now) == CreateProjectEvent(UpdatedProjectParams(project, u), project.createdAt)
  {
    var p := UpdatedProjectParams(project, u);
    var c := project.createdAt;
    var o1, o2 := OptionalTag("color", NonEmpty(p.color)), OptionalTag("order", DefinedText(p.order));
    var b0, b1 := ProjectBaseTags(p, now), ProjectBaseTags(p, c);
    assert ReplaceCreatedAtAll(b0, c) == b1;
    ReplaceOptional("color", NonEmpty(p.color), c);
    ReplaceOptional("order", DefinedText(p.order), c);
    assert ReplaceCreatedAtAll(b0 + o1 + o2, c) == b1 + o1 + o2;
  }

  /**
   * A project updated and signed by its own author decodes, when the merged
   * name is non-empty, to a project with the same id, address and creation time.
   */
  lemma UpdateProjectRoundTrip(project: Project, u: ProjectUpdate, now: int, id: string, at: int)
    requires project.id != "" && u.name.GetOr(project.name) != ""
    ensures var e := Sign(UpdateProjectEvent(project, u, now), id, project.author, at);
      && ParseProject(e) == Some(ProjectFromParams(UpdatedProjectParams(project, u), project.createdAt, e))
      && ParseProject(e).value.id == project.id
      && ParseProject(e).value.naddr == NaddrEncode(ProjectKind, project.author, project.id)
      && ParseProject(e).value.createdAt == project.createdAt
  {
    UpdateProjectIsCreateAtOriginalTime(project, u, now);
    ProjectRoundTrip(UpdatedProjectParams(project, u), project.createdAt, id, project.author, at);
  }

  // ---------------------------------------------------------------------------
  // Formatting and aggregation

  /** `formatTime`: whole minutes (rounded down) and the remainder (`%`), each padded to two digits. */
  function FormatTime(seconds: int): (r: string)
    ensures |r| >= 5
  {
    var mins := seconds / 60;
    var secs := JsRem(seconds, 60).GetOr(0);
    PadStart2(IntToString(mins)) + ":" + PadStart2(IntToString(secs))
  }

  lemma ShortNumber(n: nat)
    requires n < 100
    ensures |NatToString(n)| <= 2
  {
    if n >= 10 {
      assert NatToString(n) == NatToString(n / 10) + [DigitChar(n % 10)];
    }
  }

  /** On a non-negative count both parts are plain digits: whole minutes, and seconds below 60 padded to two. */
  lemma FormatTimeParts(seconds: nat)
    ensures FormatTime(seconds) == PadStart2(NatToString(seconds / 60)) + ":" + PadStart2(NatToString(seconds % 60))
    ensures |PadStart2(NatToString(seconds % 60))| == 2
    ensures seconds < 6000 ==> |PadStart2(NatToString(seconds / 60))| == 2
  {
    JsRemAgrees(seconds, 60);
    ShortNumber(seconds % 60);
    if seconds < 6000 {
      ShortNumber(seconds / 60);
    }
  }

  /**
   * For a non-negative count, the text is MM:SS: the padded minutes, a colon,
   * and exactly two digits of leftover seconds; the digits read back as the
   * whole minutes and the seconds (so 60 times the first plus the second is
   * the count), and below 100 minutes the minutes take two characters.
   */
  lemma FormatTimeReadBack(seconds: nat)
    ensures var a, b := PadStart2(NatToString(seconds / 60)), PadStart2(NatToString(seconds % 60));
      && FormatTime(seconds) == a + ":" + b
      && AllDigits(a) && AllDigits(b) && |a| >= 2 && |b| == 2
      && DigitsValue(a) == seconds / 60 && DigitsValue(b) == seconds % 60
      && (seconds < 6000 ==> |a| == 2)
  {
    var m, s := seconds / 60, seconds % 60;
    FormatTimeParts(seconds);
    PaddedDigitsValue(m);
    PaddedDigitsValue(s);
  }

  /** `parseInt` of the text reads the whole minutes, and stops at the colon. */
  lemma FormatTimeParse(seconds: nat)
    ensures ParseInt(FormatTime(seconds)) == Some(seconds / 60)
  {
    var a, b := PadStart2(NatToString(seconds / 60)), PadStart2(NatToString(seconds % 60));
    FormatTimeParts(seconds);
    PaddedDigitsValue(seconds / 60);
    ParseBeforeColon(a, b);
  }

  lemma ParseBeforeColon(a: string, b: string)
    requires a != [] && AllDigits(a)
    ensures ParseInt(a + ":" + b) == Some(DigitsValue(a) as int)
  {
    assert a + ":" + b == a + (":" + b);
    ParseIntPrefix(a, ":" + b);
  }

  /** `formatDuration`: "<h>h <m>m" from one hour on, "<m>m" below it. */
  function FormatDuration(seconds: int): string {
    var hours := seconds / 3600;
    var mins := JsRem(seconds, 3600).GetOr(0) / 60;
    if hours > 0 then IntToString(hours) + "h " + IntToString(mins) + "m"
    else IntToString(mins) + "m"
  }

  /**
   * For a non-negative count the text ends in 'm', shows an 'h' exactly from
   * one hour on, and starts with the whole hours (from one hour on) or the
   * whole minutes (below one hour), as `parseInt` reads it.
   */
  lemma FormatDurationReadBack(seconds: nat)
    ensures var r := FormatDuration(seconds);
      && r[|r| - 1] == 'm'
      && ('h' in r <==> seconds >= 3600)
      && ParseInt(r) == Some(if seconds >= 3600 then seconds / 3600 else seconds / 60)
  {
    JsRemAgrees(seconds, 3600);
    var h, m := seconds / 3600, (seconds % 3600) / 60;
    var r := FormatDuration(seconds);
    if seconds >= 3600 {
      assert r == NatToString(h) + ("h " + NatToString(m) + "m");
      ParseIntPrefix(NatToString(h), "h " + NatToString(m) + "m");
      DigitsValueOfNatToString(h);
      assert r[|NatToString(h)|] == 'h';
    } else {
      assert r == NatToString(m) + "m";
      ParseIntPrefix(NatToString(m), "m");
      DigitsValueOfNatToString(m);
      assert seconds / 60 == m;
      forall i | 0 <= i < |r| ensures r[i] != 'h' {
        if i < |r| - 1 {
          assert IsDigit(NatToString(m)[i]);
        }
      }
    }
  }

  predicate IsPomodoro(s: Session) {
    s.sessionType == "pomodoro"
  }

  /** The durations of a list of sessions, added up. */
  function TotalDuration(sessions: seq<Session>): int {
    if sessions == [] then 0 else TotalDuration(sessions[..|sessions| - 1]) + sessions[|sessions| - 1].duration
  }

  lemma {:induction false} TotalDurationAppend(a: seq<Session>, b: seq<Session>)
    ensures TotalDuration(a + b) == TotalDuration(a) + TotalDuration(b)
  {
    if b != [] {
      assert (a + b)[..|a + b| - 1] == a + b[..|b| - 1];
      TotalDurationAppend(a, b[..|b| - 1]);
    } else {
      assert a + b == a;
    }
  }

  /** The seconds spent in pomodoro sessions. */
  function FocusSeconds(sessions: seq<Session>): int {
    TotalDuration(Filter(sessions, IsPomodoro))
  }

  /** `calculateFocusHours`: focus seconds over 3600, as an exact fraction. */
  function CalculateFocusHours(sessions: seq<Session>): (hours: real)
    ensures hours * 3600.0 == FocusSeconds(sessions) as real
  {
    FocusSeconds(sessions) as real / 3600.0
  }

  /** Focus time adds up over a split of the sessions, and breaks never count toward it. */
  lemma FocusSecondsAppend(a: seq<Session>, b: seq<Session>, brk: Session)
    requires !IsPomodoro(brk)
    ensures FocusSeconds(a + b) == FocusSeconds(a) + FocusSeconds(b)
    ensures FocusSeconds(a + [brk]) == FocusSeconds(a)
  {
    FilterAppend(a, b, IsPomodoro);
    TotalDurationAppend(Filter(a, IsPomodoro), Filter(b, IsPomodoro));
    FilterAppend(a, [brk], IsPomodoro);
    assert Filter([brk], IsPomodoro) == [];
    assert Filter(a, IsPomodoro) + [] == Filter(a, IsPomodoro);
  }

  /** The day a session was completed on, as a key. */
  function DayKey(dayOf: int -> string): Session -> string {
    (s: Session) => dayOf(s.completedAt)
  }

  /** Completed on day `day`. */
  function CompletedOn(dayOf: int -> string, day: string): Session -> bool {
    (s: Session) => dayOf(s.completedAt) == day
  }

  /**
   * `groupSessionsByDate`: the sessions collected, in order, under the day
   * each was completed on; `dayOf` is the ISO calendar date (UTC) of a
   * timestamp in seconds.
   */
  method GroupSessionsByDate(sessions: seq<Session>, dayOf: int -> string) returns (grouped: seq<(string, seq<Session>)>)
    ensures grouped == Group(sessions, DayKey(dayOf))
  {
    var key := DayKey(dayOf);
    grouped := [];
    for i := 0 to |sessions|
      invariant grouped == Group(sessions[..i], key)
    {
      var session := sessions[i];
      var date := dayOf(session.completedAt);
      var j := 0;
      while j < |grouped| && grouped[j].0 != date
        invariant j <= |grouped|
        invariant forall m :: 0 <= m < j ==> grouped[m].0 != date
      {
        j := j + 1;
      }
      assert key(session) == date;
      assert Group(sessions[..i + 1], key) == PushTo(grouped, date, session) by {
        assert sessions[..i + 1][..i] == sessions[..i];
      }
      PushToAt(grouped, date, session);
      assert KeyIndex(grouped, date) == j;
      ghost var pushed := PushTo(grouped, date, session);
      if j == |grouped| {
        grouped := grouped + [(date, [])];
        assert [] + [session] == [session];
      }
      grouped := grouped[j := (date, grouped[j].1 + [session])];
      assert grouped == pushed;
    }
    assert sessions[..|sessions|] == sessions;
  }

  /**
   * The grouping files every session exactly once, under its own day and in
   * its original order, and lists each day once.
   */
  lemma GroupSessionsByDateSpec(sessions: seq<Session>, dayOf: int -> string, day: string)
    ensures var g := Group(sessions, DayKey(dayOf));
      && Grouping.DistinctKeys(g)
      && KeySet(g) == (set s | s in sessions :: dayOf(s.completedAt))
      && ListOf(g, day) == Filter(sessions, CompletedOn(dayOf, day))
      && Size(g) == |sessions|
  {
    var key := DayKey(dayOf);
    GroupKeys(sessions, key);
    GroupLists(sessions, key, day);
    FilterExt(sessions, KeyIs(key, day), CompletedOn(dayOf, day));
    GroupSize(sessions, key);
  }

  datatype Period = Today | Week | Month | Year

  /** The start of each period in seconds, as the local calendar gives it at the time of the call. */
  datatype PeriodStarts = PeriodStarts(today: int, week: int, month: int, year: int)

  function Cutoff(period: Period, starts: PeriodStarts): int {
    match period
    case Today => starts.today
    case Week => starts.week
    case Month => starts.month
    case Year => starts.year
  }

  /** Completed at or after `cutoff`. */
  function CompletedSince(cutoff: int): Session -> bool {
    (s: Session) => s.completedAt >= cutoff
  }

  /** `getSessionsForPeriod`: the sessions completed at or after the start of the period, in their order. */
  function GetSessionsForPeriod(sessions: seq<Session>, period: Period, starts: PeriodStarts): (r: seq<Session>)
    ensures forall s :: s in r <==> s in sessions && s.completedAt >= Cutoff(period, starts)
  {
    Filter(sessions, CompletedSince(Cutoff(period, starts)))
  }

  /**
   * A period that starts later selects a sub-list of one that starts earlier:
   * with the calendar's ordering of the starts, today's sessions are among the
   * week's and the month's, and the month's among the year's.
   */
  lemma PeriodsNest(sessions: seq<Session>, starts: PeriodStarts, wide: Period, narrow: Period)
    requires Cutoff(wide, starts) <= Cutoff(narrow, starts)
    ensures GetSessionsForPeriod(sessions, narrow, starts)
      == Filter(GetSessionsForPeriod(sessions, wide, starts), CompletedSince(Cutoff(narrow, starts)))
  {
    FilterFilter(sessions, CompletedSince(Cutoff(wide, starts)), CompletedSince(Cutoff(narrow, starts)));
  }
}
