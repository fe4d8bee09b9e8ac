# stacks-pomodoro in Dafny

A model of the data logic of stacks-pomodoro, a Pomodoro timer that keeps its
sessions, settings, tasks and projects as signed Nostr events. The repository
holds two prototype variants, and they are modelled separately.

- **Variant A** keeps durations in seconds and names its session types
  `pomodoro`, `short_break` and `long_break`. It uses event kinds 3100
  (session), 10100 (settings), 30100 (task) and 30101 (project). The model
  covers:
  - the tag codec: parsers, builders and updaters;
  - the four query hooks, which post-process relay results;
  - the mutation hooks, as a class with a publish log, a stale-key set and a
    notice list;
  - the countdown timer hook, as a class;
  - the aggregations of the report page;
  - the keyboard shortcut dispatch.
- **Variant B** keeps settings durations in minutes and names its session
  types `work`, `short-break` and `long-break`. It stores settings as JSON in a
  kind-30078 application-data event (NIP-78) with `d` = `pomodoro-settings`.
  The model covers:
  - the settings hook, with its load merge and its update;
  - the timer context, as a class that logs sessions and task increments;
  - the reports hook: the summary, the day-streak loop, the focus buckets and
    the getters.

Helper modules:

| module | what it holds |
|---|---|
| `Nostr` | events, templates, `getTagValue` and NIP-01 filter matching |
| `Numbers` | JavaScript's `toString`, `parseInt`, `%`, `Math.round(x/60)` and `padStart` on integers |
| `Text` | ASCII `toLowerCase` and `String.replace` of one character |
| `Seqs` | filter, decode-and-drop, count |
| `Sorting` | an insertion sort by an integer key, proved stable |
| `Tally` | insertion-ordered `Map`s of counts |
| `Grouping` | insertion-ordered dictionaries of lists |

The relay, the clock and the calendar are inputs:

- A query's relay answer is a `seq<Event>`.
- "now" is an integer.
- Day, week, month and year keys, the period cutoffs and the collation order
  of date keys are caller-supplied functions.

Behaviours of the code that the model keeps as written:

- The task and project queries keep every returned version of an addressable
  event. They do not collapse events by `d` and do not filter tombstones
  (`UseTasks.QueryTasksKeepsVersions`).
- In variant A, `pause` sets `isRunning` to false. In variant B, `handlePause`
  sets only `isPaused`.
- Neither timer recomputes elapsed time on reload. A restored variant-A timer
  that says it is running has no start time, so its completion does nothing
  (`PomodoroTimer.RestoredTimerStalls`).
- In variant B, a completion that does not auto-start keeps the old start
  reference. A later reset then logs a zero-second incomplete session
  (`TimerContext.ResetAfterCompletion`).
- In variant A, without a signed-in user the settings query is disabled
  (src/hooks/useSettings.ts:30), so `settings` stays undefined and
  `handleComplete` returns at once (src/hooks/usePomodoroTimer.ts:114). The
  timer then sits at its last second and never completes
  (`PomodoroTimer.SignedOutTimerStalls`).

The repository has no variant-B `useSessions` or `useTasks`. The timer
context (src/contexts/PomodoroTimerContext.tsx:3-4, 30-31) and the reports
hook (src/hooks/useReports.ts:2-3, 8-9) import `useSessions` and `useTasks`
from the variant-A hooks. Those hooks return a `useQuery` result
(src/hooks/useSessions.ts:15-19, src/hooks/useTasks.ts:12-16), which has no
`createSession`, `incrementTaskPomodoros`, `sessions` or `tasks`; its data are
variant-A sessions. As written:

- every `await createSession(...)` (src/contexts/PomodoroTimerContext.tsx:95)
  rejects. A completion leaves the timer stopped at 0 in the same session
  type, its count unchanged and nothing logged. Once a start is recorded, a
  reset (line 182) rejects before it resets anything, and so does every later
  one;
- the reports hook throws at `sessions.length` (src/hooks/useReports.ts:12).

The model assumes hooks with the API the destructuring expects, and the
timer methods use it: `createSession` and `incrementTaskPomodoros` are logs on
the timer object, and the reports functions take the sessions and tasks as
input sequences. The path as written is modelled beside them
(`TimerContext.Timer.TickAsWritten`, `TimerContext.Timer.HandleResetAsWritten`)
and recorded under "## Findings".

## Model

| member | source | states |
|---|---|---|
| PomodoroTypes.KindsFollowNip01 | src/lib/pomodoro-types.ts:4-9 | the four kinds 3100, 10100, 30100, 30101 are distinct and are a regular, a replaceable and two addressable kinds |
| PomodoroTypes.SessionTypeNameRoundTrip | src/lib/pomodoro-types.ts:12 | exactly three wire names; each reads back as its own session type and no other string does |
| PomodoroTypes.DefaultSettingsValues | src/lib/pomodoro-types.ts:57-77 | defaults 1500/300/900 s and interval 4; auto-starts off; sound on; volume in 0..100; theme 'default'; all eight shortcuts set and pairwise distinct |
| PomodoroTypes.ThemeIdsUnique | src/lib/pomodoro-types.ts:147-214 | six themes with pairwise distinct ids, the first 'default' |
| Nostr.GetTagValue | src/lib/pomodoro-utils.ts:14-16 | `find` on the name, then the second entry (no contract; its meaning is stated by the three lemmas below) |
| Nostr.GetTagValueFirst | src/lib/pomodoro-utils.ts:14-16 | the lookup answers from the first tag of that name, whatever follows |
| Nostr.GetTagValueAbsent | src/lib/pomodoro-utils.ts:14-16 | without a tag of that name the lookup gives none |
| Nostr.GetTagValueAppend | src/lib/pomodoro-utils.ts:14-16 | a lookup in `a + b` answers from `a` when `a` has the name, from `b` otherwise |
| PomodoroUtils.NonEmpty | src/lib/pomodoro-utils.ts:171-181 | an optional string reads back exactly when it is truthy, unchanged |
| PomodoroUtils.ParseSession | src/lib/pomodoro-utils.ts:24-48 | decodes iff kind 3100 and session_type, duration, started_at, completed_at all hold non-empty values (fail-closed otherwise); id, author and event come from the event and the type as written |
| PomodoroUtils.PushOptional | src/lib/pomodoro-utils.ts:171-181 | pushing an optional tag changes a lookup only for its own name, when a value is pushed and no earlier tag answers |
| PomodoroUtils.CreateSessionEvent | src/lib/pomodoro-utils.ts:162-188 | kind 3100, empty content, the five base tags, then task, project and notes each when non-empty (no contract; read back by SessionEventLookups and SessionRoundTrip) |
| PomodoroUtils.SessionRoundTrip | src/lib/pomodoro-utils.ts:162-188 | any signed session template decodes to the session it describes: type name, the three numbers, and task/project/notes exactly when non-empty |
| PomodoroUtils.SessionEventLookups | src/lib/pomodoro-utils.ts:163-181 | every tag of a session event reads back as written; an unwritten optional one is absent |
| PomodoroUtils.SessionAltTag | src/lib/pomodoro-utils.ts:168 | the alt tag reads back as "Completed a <type> session" |
| PomodoroUtils.SessionAltText | src/lib/pomodoro-utils.ts:168 | the type shown in alt has its first underscore made a space: "pomodoro", "short break", "long break" |
| PomodoroUtils.FallbackNumbers | src/lib/pomodoro-utils.ts:68-77 | the fallback texts "0", "4", "50", "300", "900", "1500", "999999" parse to themselves |
| PomodoroUtils.ParseSettings | src/lib/pomodoro-utils.ts:51-81 | another kind gives the defaults authored by the caller; kind 10100 is authored by its signer; theme and shortcuts always come back set |
| PomodoroUtils.ParseSettingsUntagged | src/lib/pomodoro-utils.ts:51-81 | a settings event without tags decodes to the defaults, authored by its signer |
| PomodoroUtils.CreateSettingsEvent | src/lib/pomodoro-utils.ts:191-228 | kind 10100, the eight base tags, then the theme when non-empty and the shortcuts when set (no contract; read back by the settings lookup lemmas and SettingsRoundTrip) |
| PomodoroUtils.SettingsEventBaseLookups | src/lib/pomodoro-utils.ts:191-201 | each of the eight base tags of a settings event reads back as written |
| PomodoroUtils.SettingsEventOptionalLookups | src/lib/pomodoro-utils.ts:203-209 | theme is present only when non-empty, shortcuts only when set |
| PomodoroUtils.SettingsLookupBase | src/lib/pomodoro-utils.ts:191-209 | the optional tags never hide a base tag |
| PomodoroUtils.SettingsRoundTrip | src/lib/pomodoro-utils.ts:191-216 | saving and reading back keeps numbers and flags; an empty theme returns 'default' and missing shortcuts the defaults |
| PomodoroUtils.SettingsRoundTripDecoded | src/lib/pomodoro-utils.ts:51-81 | settings as the decoder returns them survive saving unchanged when the theme is non-empty |
| PomodoroUtils.EstimateOf | src/lib/pomodoro-utils.ts:109 | an estimate of 0 (or unreadable) decodes to absent; a present one is never 0 |
| PomodoroUtils.ParseTask | src/lib/pomodoro-utils.ts:84-118 | decodes iff kind 30100 with non-empty d, title and created_at_timestamp; id is d; address is built from kind, signer and d; order always set |
| PomodoroUtils.TaskLookupOptional | src/lib/pomodoro-utils.ts:241-255 | project is present when non-empty, estimate when given, completion time when non-zero, order when given |
| PomodoroUtils.TaskLookupBase | src/lib/pomodoro-utils.ts:233-239 | a base tag of a task event is read from the base tags |
| PomodoroUtils.ParseTaskOfLookups | src/lib/pomodoro-utils.ts:84-118 | any task event whose tags read as those built from the parameters decodes to the described task iff id and title are non-empty |
| PomodoroUtils.CreateTaskEvent | src/lib/pomodoro-utils.ts:230-262 | kind 30100, the five base tags with the clock reading as creation time, then project, estimate, completion time and order under their truthy or defined tests (no contract; read back by the task lookup lemmas and TaskRoundTrip) |
| PomodoroUtils.TaskRoundTrip | src/lib/pomodoro-utils.ts:230-262 | a signed task event decodes iff id and title are non-empty, to its parameters: pomodoros default 0, completed default false, estimate if non-zero, completion if non-zero, order 999999 when unset |
| PomodoroUtils.ReplaceCreatedAtAll | src/lib/pomodoro-utils.ts:280-282 | the map replaces exactly the created_at_timestamp tags, position by position |
| PomodoroUtils.UpdateTaskEvent | src/lib/pomodoro-utils.ts:265-285 | the task event of the merged fields with every created_at_timestamp tag rewritten to the original time (no contract; characterised by UpdateTaskIsCreateAtOriginalTime and UpdateTaskRoundTrip) |
| PomodoroUtils.UpdateTaskIsCreateAtOriginalTime | src/lib/pomodoro-utils.ts:265-285 | an update is the creation of the merged task at its original creation time; the clock plays no part |
| PomodoroUtils.UpdateTaskRoundTrip | src/lib/pomodoro-utils.ts:265-285 | an updated task signed by its author decodes with the same id, address and creation time |
| PomodoroUtils.UpdateKeepsCompletedAt | src/lib/pomodoro-utils.ts:266-275 | a field absent from the update keeps the task's value (completion time) |
| PomodoroUtils.ParseProject | src/lib/pomodoro-utils.ts:121-149 | decodes iff kind 30101 with non-empty d, name and created_at_timestamp; order always set |
| PomodoroUtils.ProjectLookups | src/lib/pomodoro-utils.ts:295-317 | each project tag reads back as written; colour only when non-empty, order only when given |
| PomodoroUtils.CreateProjectEvent | src/lib/pomodoro-utils.ts:295-317 | kind 30101, d, name and the clock reading, then colour when non-empty and order when given (no contract; read back by ProjectLookups and ProjectRoundTrip) |
| PomodoroUtils.ProjectRoundTrip | src/lib/pomodoro-utils.ts:295-317 | a signed project event decodes iff id and name are non-empty, to its parameters with order 999999 when unset |
| PomodoroUtils.UpdateProjectEvent | src/lib/pomodoro-utils.ts:320-336 | the project event of the merged fields with the creation time rewritten to the original (no contract; characterised by UpdateProjectIsCreateAtOriginalTime and UpdateProjectRoundTrip) |
| PomodoroUtils.UpdateProjectIsCreateAtOriginalTime | src/lib/pomodoro-utils.ts:320-336 | a project update is the creation of the merged project at its original time |
| PomodoroUtils.UpdateProjectRoundTrip | src/lib/pomodoro-utils.ts:320-336 | an updated project decodes with the same id, address and creation time |
| PomodoroUtils.FormatTime | src/lib/pomodoro-utils.ts:339-343 | the text is at least five characters |
| PomodoroUtils.FormatTimeReadBack | src/lib/pomodoro-utils.ts:339-343 | for s >= 0 the text is MM:SS: both parts are digits; seconds are two digits and read back as s % 60; minutes read back as s / 60 and take two characters below 100 minutes |
| PomodoroUtils.FormatTimeParse | src/lib/pomodoro-utils.ts:339-343 | `parseInt` of the text gives the whole minutes |
| PomodoroUtils.FormatDuration | src/lib/pomodoro-utils.ts:346-354 | "<h>h <m>m" from one hour on, "<m>m" below (no contract; its shape is proved in FormatDurationReadBack) |
| PomodoroUtils.FormatDurationReadBack | src/lib/pomodoro-utils.ts:346-354 | for s >= 0 the text ends in 'm'; it shows 'h' iff s >= 3600; it starts with the whole hours (or minutes below one hour) |
| PomodoroUtils.CalculateFocusHours | src/lib/pomodoro-utils.ts:357-363 | hours times 3600 is the summed duration of the pomodoro sessions |
| PomodoroUtils.FocusSecondsAppend | src/lib/pomodoro-utils.ts:357-363 | focus time adds up over a split, and a break adds nothing |
| PomodoroUtils.GroupSessionsByDate | src/lib/pomodoro-utils.ts:366-378 | the dictionary filled by the loop is the grouping of the sessions by completion day |
| PomodoroUtils.GroupSessionsByDateSpec | src/lib/pomodoro-utils.ts:366-378 | each day is listed once; the days are those that occur; each day holds exactly its sessions in order; every session is filed once |
| PomodoroUtils.GetSessionsForPeriod | src/lib/pomodoro-utils.ts:381-409 | a session is kept iff it was completed at or after the period's start |
| PomodoroUtils.PeriodsNest | src/lib/pomodoro-utils.ts:381-409 | a later-starting period selects a sub-list of an earlier-starting one |
| Grouping.GroupLists | src/lib/pomodoro-utils.ts:366-378 | a grouping files under each key exactly the elements with that key, in order |
| Grouping.GroupKeys | src/lib/pomodoro-utils.ts:366-378 | grouping keys are distinct and are exactly the keys that occur |
| Grouping.GroupSize | src/lib/pomodoro-utils.ts:366-378 | every element is filed exactly once |
| UseSessions.SessionFilter | src/hooks/useSessions.ts:28-48 | kind 3100 and the user; limit defaults to 100; since/until/#task/#project present iff the option is truthy |
| UseSessions.SessionFilterMatches | src/hooks/useSessions.ts:28-48 | an event satisfies the filter iff it is the user's session event inside the truthy window, tagged with the truthy task and project |
| UseSessions.QuerySessions | src/hooks/useSessions.ts:19-57 | empty without a user; otherwise a permutation of the events that decode, newest completion first |
| UseSessions.QuerySessionsMembers | src/hooks/useSessions.ts:52-55 | a session is listed iff there is a user and some event decodes to it; nothing but the failures is dropped |
| UseSessions.QuerySessionsOfUser | src/hooks/useSessions.ts:28-57 | when the relay honours the filter, every session is the user's and inside the truthy window |
| UseTasks.TaskFilter | src/hooks/useTasks.ts:25-32 | kind 30100 and the user, plus #project only when the project is truthy |
| UseTasks.TaskFilterMatches | src/hooks/useTasks.ts:25-32 | an event satisfies the filter iff it is the user's task event of the given project |
| UseTasks.CompareTasksAgrees | src/hooks/useTasks.ts:46-51 | the comparator orders by (order, createdAt), ties exactly on equal keys |
| UseTasks.QueryTasks | src/hooks/useTasks.ts:18-53 | empty without a user; otherwise a permutation of the decoded tasks minus completed ones unless asked for, sorted by the comparator |
| UseTasks.QueryTasksMembers | src/hooks/useTasks.ts:36-43 | a task is listed iff there is a user, an event decodes to it, and it is open or completed tasks were asked for |
| UseTasks.QueryTasksKeepsVersions | src/hooks/useTasks.ts:36-53 | two returned versions with the same d are both listed: no collapse by d |
| UseProjects.ProjectFilter | src/hooks/useProjects.ts:20-23 | kind 30101 and the user only: no limit, window or tag condition |
| UseProjects.ProjectFilterMatches | src/hooks/useProjects.ts:20-23 | an event satisfies the filter iff it is the user's project event |
| UseProjects.CompareProjectsAgrees | src/hooks/useProjects.ts:30-35 | the comparator orders by (order, createdAt) |
| UseProjects.QueryProjects | src/hooks/useProjects.ts:13-37 | empty without a user; otherwise a permutation of the decoded projects, sorted by the comparator |
| UseProjects.QueryProjectsMembers | src/hooks/useProjects.ts:25-27 | a project is listed iff there is a user and some event decodes to it |
| UseSettings.SettingsFilter | src/hooks/useSettings.ts:19-22 | kind 10100, the user, limit 1 |
| UseSettings.QuerySettings | src/hooks/useSettings.ts:13-28 | defaults authored by '' without a user; defaults authored by the user without events; theme and shortcuts always set |
| UseSettings.QuerySettingsOfUser | src/hooks/useSettings.ts:19-28 | when the relay honours the filter, the result is the user's and records the first event |
| UseSettings.QuerySettingsFirstWins | src/hooks/useSettings.ts:28 | the result is `parseSettings` of the first event; later events never matter |
| PomodoroMutations.Mutate | src/hooks/usePomodoroMutations.ts:19-47 | without a user only an error notice is added; with one, the template is published and its kind's key for the user is marked stale |
| PomodoroMutations.MutateEffects | src/hooks/usePomodoroMutations.ts:26-45 | without a user nothing is published or invalidated and one destructive not-logged-in notice is added; with one, exactly the template is published, exactly that key becomes stale, at most one notice is added |
| PomodoroMutations.Mutations.constructor | src/hooks/usePomodoroMutations.ts:19-23 | the signed-in user, with nothing published, nothing stale and no notice |
| PomodoroMutations.Mutations.Apply | src/hooks/usePomodoroMutations.ts:26-45 | the object's new state is one mutation step applied to its old state |
| PomodoroMutations.Mutations.PublishSession | src/hooks/usePomodoroMutations.ts:19-47 | publishes `createSessionEvent`, invalidates the sessions key, settles with the input (the publish is not awaited) |
| PomodoroMutations.Mutations.UpdateSettings | src/hooks/usePomodoroMutations.ts:50-82 | publishes `createSettingsEvent`, invalidates the settings key, adds the success notice |
| PomodoroMutations.Mutations.CreateTask | src/hooks/usePomodoroMutations.ts:85-117 | publishes `createTaskEvent` at the clock reading, invalidates the tasks key |
| PomodoroMutations.Mutations.UpdateTask | src/hooks/usePomodoroMutations.ts:120-148 | publishes `updateTaskEvent`, invalidates the tasks key |
| PomodoroMutations.Mutations.CompleteTask | src/hooks/usePomodoroMutations.ts:151-186 | publishes the task updated with completed and completedAt = now, invalidates the tasks key |
| PomodoroMutations.Mutations.CreateProject | src/hooks/usePomodoroMutations.ts:189-221 | publishes `createProjectEvent`, invalidates the projects key |
| PomodoroMutations.Mutations.UpdateProject | src/hooks/usePomodoroMutations.ts:224-256 | publishes `updateProjectEvent`, invalidates the projects key |
| PomodoroMutations.CompleteTaskKeepsFields | src/hooks/usePomodoroMutations.ts:163-166 | the completion event decodes to the same task, now completed at `now`: id, address, title, project, estimate (an estimate of 0 reading back as none), counts, order and creation time kept |
| PomodoroTimer.DurationOf | src/hooks/usePomodoroTimer.ts:24-38 | the settings' duration for the mode, 1500 without settings |
| PomodoroTimer.NextMode | src/hooks/usePomodoroTimer.ts:137-155 | after a pomodoro a long break iff the new count % interval is 0 (JavaScript `%`), else a short break; after a break a pomodoro |
| PomodoroTimer.AfterCompletion | src/hooks/usePomodoroTimer.ts:137-182 | count +1 only after a pomodoro; the next mode at its full duration; running iff it auto-starts; not paused; task kept |
| PomodoroTimer.Timer.constructor | src/hooks/usePomodoroTimer.ts:12-20 | a fresh state at the pomodoro duration and no start time |
| PomodoroTimer.Timer.Start | src/hooks/usePomodoroTimer.ts:41-51 | running and not paused; the start time is taken only when it was not running |
| PomodoroTimer.Timer.Pause | src/hooks/usePomodoroTimer.ts:54-60 | stopped and paused, nothing else changes |
| PomodoroTimer.Timer.Reset | src/hooks/usePomodoroTimer.ts:63-77 | the full duration of the current mode, stopped, unpaused, start cleared; mode, count and task kept |
| PomodoroTimer.Timer.SwitchMode | src/hooks/usePomodoroTimer.ts:80-99 | the new mode at its full duration, stopped; count and task kept |
| PomodoroTimer.Timer.SetCurrentTask | src/hooks/usePomodoroTimer.ts:102-110 | only the task changes |
| PomodoroTimer.Timer.HandleComplete | src/hooks/usePomodoroTimer.ts:113-182 | nothing without settings or a start time; otherwise exactly one session of the full duration is published and the state advances |
| PomodoroTimer.Timer.Tick | src/hooks/usePomodoroTimer.ts:193-223 | while running one second less; at the last second completion instead (published session, next state, and a new start time only when the next mode auto-starts), the decrement dropped; nothing while stopped |
| PomodoroTimer.Timer.Resync | src/hooks/usePomodoroTimer.ts:226-233 | an idle timer shows the full duration of its mode; a running or paused one is untouched |
| PomodoroTimer.Timer.SettingsChanged | src/hooks/usePomodoroTimer.ts:226-233 | new settings, then the resync |
| PomodoroTimer.CompletionsAlternate | src/hooks/usePomodoroTimer.ts:137-155 | from a fresh count pomodoros and breaks alternate; after k rounds the count is k, and the next break is long iff (k+1) % interval is 0 |
| PomodoroTimer.DefaultCycle | src/hooks/usePomodoroTimer.ts:137-155 | with interval 4 the breaks go short, short, short, long |
| PomodoroTimer.Timer.Restore | src/hooks/usePomodoroTimer.ts:12-20 | a mount after a reload: the persisted state and the settings come back, no start time, nothing published |
| PomodoroTimer.SignedOutTimerStalls | src/hooks/usePomodoroTimer.ts:113-114 | without settings (no signed-in user), a started timer at its last second ticks without publishing or changing state |
| PomodoroTimer.RestoredTimerStalls | src/hooks/usePomodoroTimer.ts:12-20 | a restored running timer has no start time, so its last-second ticks publish nothing and change nothing |
| KeyboardShortcuts.Dispatch | src/hooks/useKeyboardShortcuts.ts:20-64 | `handleKeyDown`: the action whose branch is taken (no contract; characterised by DispatchSilent, StartOnlyBySpace, DispatchIsFirstHit, DispatchIgnoresCase and UnsetNeverFires) |
| KeyboardShortcuts.DispatchSilent | src/hooks/useKeyboardShortcuts.ts:21-31 | nothing fires when disabled, without shortcuts, or in a form field |
| KeyboardShortcuts.StartOnlyBySpace | src/hooks/useKeyboardShortcuts.ts:36-40 | start fires iff the Space code meets a start binding of 'space' |
| KeyboardShortcuts.DispatchIsFirstHit | src/hooks/useKeyboardShortcuts.ts:43-64 | otherwise the action is that of the highest-priority binding the lower-cased key hits (reset > pomodoro > short > long > settings > tasks > reports) |
| KeyboardShortcuts.KeyChainIsFirstHit | src/hooks/useKeyboardShortcuts.ts:43-64 | the seven-branch chain equals the first-hit rule over the priority list |
| KeyboardShortcuts.FirstHit | src/hooks/useKeyboardShortcuts.ts:43-64 | the first-hit rule chooses an action iff some binding is hit |
| KeyboardShortcuts.FirstHitAt | src/hooks/useKeyboardShortcuts.ts:43-64 | the rule chooses binding i iff i is hit and no earlier binding is |
| KeyboardShortcuts.DispatchIgnoresCase | src/hooks/useKeyboardShortcuts.ts:33 | keys differing only in case choose the same action |
| KeyboardShortcuts.UnsetNeverFires | src/hooks/useKeyboardShortcuts.ts:43-61 | an unset or empty binding is never chosen |
| KeyboardShortcuts.Fires | src/hooks/useKeyboardShortcuts.ts:38-63 | a handler is called iff the chosen action has one |
| KeyboardShortcuts.DefaultBindings | src/lib/pomodoro-types.ts:67-76 | with the defaults Space starts, 'R' in either case resets, '1', '2', '3' switch modes |
| ReportsPage.WorkingSet | src/pages/Reports.tsx:39-45 | a session is in the working set iff it is in the period and of type 'pomodoro' |
| ReportsPage.ComputeStats | src/pages/Reports.tsx:48-62 | sessions = working-set size; average = mean duration, 0 when empty; completed tasks counted; hours = the period's focus seconds / 3600 |
| ReportsPage.Mean | src/pages/Reports.tsx:51-53 | 0 for no sessions, else the exact quotient |
| ReportsPage.FocusHoursOfWorkingSet | src/pages/Reports.tsx:48-49 | the focus hours are the working set's total duration in hours |
| ReportsPage.DateEntries | src/pages/Reports.tsx:66-72 | one entry per day of the grouping, with the day's count and hours |
| ReportsPage.SessionsByDate | src/pages/Reports.tsx:65-74 | a permutation of the per-day entries, sorted by date key, counts summing to the working-set size |
| ReportsPage.DateEntriesMeaning | src/pages/Reports.tsx:65-74 | each entry counts exactly the sessions completed on its day, at least one |
| ReportsPage.SessionCountPermutation | src/pages/Reports.tsx:73 | sorting does not change the total count |
| ReportsPage.SessionCountOfEntries | src/pages/Reports.tsx:66-72 | the entries' counts add up to the sessions grouped |
| ReportsPage.CountBy | src/pages/Reports.tsx:78-86 | the loop's map is the tally by reference of the sessions that carry one |
| ReportsPage.CountByMeaning | src/pages/Reports.tsx:78-86 | each reference's count is the number of sessions referring to it; sessions without one are skipped |
| ReportsPage.FindProject | src/pages/Reports.tsx:89 | the first project with the address, none iff there is none |
| ReportsPage.FindTask | src/pages/Reports.tsx:112 | the first task with the address, none iff there is none |
| ReportsPage.ProjectEntryOf | src/pages/Reports.tsx:88-94 | the found project's name; 'Unknown' when no project has the address; the first chart colour when the project or its colour is missing |
| ReportsPage.TaskEntryOf | src/pages/Reports.tsx:111-116 | the task's title, 'Unknown' when missing |
| ReportsPage.SessionsByProject | src/pages/Reports.tsx:77-97 | a permutation of the per-project rows, counts non-increasing; rows of equal count stay in first-seen order |
| ReportsPage.SessionsByTask | src/pages/Reports.tsx:100-120 | at most ten of the per-task rows, counts non-increasing, none dropped beating one kept; of each count, the rows kept are the first-seen ones |
| ReportsPage.TopTen | src/pages/Reports.tsx:118-119 | sort by count then keep ten: min(n, 10) rows from the input, non-increasing, every dropped row at most every kept one; the rows kept of each count are the first ones of that count in the input |
| Sorting.SortByStable | src/pages/Reports.tsx:96 | the sort is stable: the elements of one key come out in their input order |
| Sorting.SortedPrefixStable | src/pages/Reports.tsx:118-119 | a prefix of the sorted sequence holds, of each key, the first elements of that key in the input, in order |
| PomodoroTypesB.SessionTypeOf | src/types/pomodoro.ts:3 | a name is read iff it is one of work, short-break, long-break |
| PomodoroTypesB.SessionTypeNameRoundTrip | src/types/pomodoro.ts:3 | each session type's name reads back as it |
| PomodoroTypesB.TaskStatusOf | src/types/pomodoro.ts:4 | a name is read iff it is one of todo, in-progress, completed |
| PomodoroTypesB.TaskStatusNameRoundTrip | src/types/pomodoro.ts:4 | each status's name reads back as it |
| PomodoroTypesB.Seconds | src/types/pomodoro.ts:7-9 | minutes convert to a whole number of minutes in seconds, non-negative for non-negative input |
| PomodoroTypesB.DefaultSettingsValues | src/types/pomodoro.ts:95-112 | 25/5/15 minutes (1500/300/900 s); 4 sessions to a long break; auto-starts off; start and pause share 'ctrl+space'; the other chords distinct |
| PomodoroSettingsB.MergeShortcuts | src/hooks/usePomodoroSettings.ts:39-42 | each chord the stored object names wins, every other is the default |
| PomodoroSettingsB.LoadContent | src/hooks/usePomodoroSettings.ts:35-44 | each stored field overrides its default; shortcuts deep-merged so every action keeps a chord |
| PomodoroSettingsB.SettingsFilter | src/hooks/usePomodoroSettings.ts:20-30 | kind 30078, the user, limit 1 and the single tag condition d = 'pomodoro-settings' |
| PomodoroSettingsB.SettingsFilterMatches | src/hooks/usePomodoroSettings.ts:20-30 | an event satisfies the filter iff it is the user's kind-30078 event with d 'pomodoro-settings' |
| PomodoroSettingsB.QuerySettings | src/hooks/usePomodoroSettings.ts:14-50 | defaults without a user, without an event, or on unparsable content; otherwise the load merge of the first event |
| PomodoroSettingsB.Merge | src/hooks/usePomodoroSettings.ts:56 | each field from the update, else from the cache, else the default |
| PomodoroSettingsB.SettingsEvent | src/hooks/usePomodoroSettings.ts:58-62 | kind 30078, tags [[d, pomodoro-settings]], the merged settings as content |
| PomodoroSettingsB.LoadStored | src/hooks/usePomodoroSettings.ts:35-44 | loading complete stored settings gives them back |
| PomodoroSettingsB.LoadAfterUpdate | src/hooks/usePomodoroSettings.ts:52-69 | when JSON round-trips, querying the published event loads exactly the merged settings |
| PomodoroSettingsB.MergeIdempotent | src/hooks/usePomodoroSettings.ts:56 | an update applied twice is applied once; an empty update keeps the cache |
| PomodoroSettingsB.SettingsStore.constructor | src/hooks/usePomodoroSettings.ts:8-12 | the signed-in user, an empty cache and nothing published |
| PomodoroSettingsB.SettingsStore.Current | src/hooks/usePomodoroSettings.ts:72 | the cache, or the defaults when empty |
| PomodoroSettingsB.SettingsStore.Load | src/hooks/usePomodoroSettings.ts:14-50 | with a user the cache becomes the query result; nothing is published |
| PomodoroSettingsB.SettingsStore.UpdateSettings | src/hooks/usePomodoroSettings.ts:52-69 | fails without a user, changing nothing; otherwise publishes the merge, caching it unless the publish fails |
| TimerContext.Duration | src/contexts/PomodoroTimerContext.tsx:46-58 | the type's minutes times 60 |
| TimerContext.NextSessionType | src/contexts/PomodoroTimerContext.tsx:60-70 | after work a long break iff count > 0 and count % sessionsUntilLongBreak is 0 (JavaScript `%`), else short; after a break work |
| TimerContext.AfterCompletion | src/contexts/PomodoroTimerContext.tsx:106-125 | count +1 only after work; next type at its full duration, unpaused, running iff that direction auto-starts |
| TimerContext.ActualDuration | src/contexts/PomodoroTimerContext.tsx:92-93 | the full duration if completed; else the elapsed part when a start was recorded; else 0 |
| TimerContext.SessionLabel | src/contexts/PomodoroTimerContext.tsx:219-228 | Focus Time, Short Break, Long Break, one per type |
| TimerContext.InitialState | src/contexts/PomodoroTimerContext.tsx:35-41 | stopped, work, the work duration in seconds, nothing counted (no contract; used by the constructor's) |
| TimerContext.SkippedState | src/contexts/PomodoroTimerContext.tsx:199-209 | the state an idle skip sets (no contract; SkipLikeCompletion states what it is) |
| TimerContext.SkipLikeCompletion | src/contexts/PomodoroTimerContext.tsx:194-211 | skipping an idle timer advances as a completion would, without starting |
| TimerContext.Timer.constructor | src/contexts/PomodoroTimerContext.tsx:34-44 | stopped, work, the work duration, count 0, no start, empty logs |
| TimerContext.Timer.SettingsChanged | src/contexts/PomodoroTimerContext.tsx:29 | new settings from the settings hook; the state, task, start reference and logs are unchanged, as no effect recomputes them |
| TimerContext.Timer.SetCurrentTaskId | src/contexts/PomodoroTimerContext.tsx:34 | only the task changes |
| TimerContext.Timer.HandleSessionComplete | src/contexts/PomodoroTimerContext.tsx:90-138 | logs one session; credits the task only after completed work with a task set; advances only when completed |
| TimerContext.Timer.Tick | src/contexts/PomodoroTimerContext.tsx:140-167 | only a running, unpaused timer ticks; one second less, or at zero the session completes |
| TimerContext.Timer.HandleStart | src/contexts/PomodoroTimerContext.tsx:169-174 | running and unpaused; start recorded only when not running |
| TimerContext.Timer.HandlePause | src/contexts/PomodoroTimerContext.tsx:176-178 | only the paused flag changes |
| TimerContext.Timer.HandleReset | src/contexts/PomodoroTimerContext.tsx:180-192 | logs an incomplete session if running or started; then stopped at the full duration, type and count kept |
| TimerContext.Timer.HandleSkip | src/contexts/PomodoroTimerContext.tsx:194-211 | running: only logs an incomplete session; idle: advances without logging or starting |
| TimerContext.CompletionsAlternate | src/contexts/PomodoroTimerContext.tsx:60-70 | from work at count 0, work and breaks alternate; the break after round k+1 is long iff (k+1) % interval is 0 |
| TimerContext.DefaultCycle | src/contexts/PomodoroTimerContext.tsx:60-70 | with the defaults the breaks go short, short, short, long |
| TimerContext.Timer.TickAsWritten | src/contexts/PomodoroTimerContext.tsx:140-156 | as written (`createSession` undefined): only the tick's own update stands; at the last second the timer stops at 0 in the same session type, count unchanged, nothing logged |
| TimerContext.Timer.HandleResetAsWritten | src/contexts/PomodoroTimerContext.tsx:180-192 | as written: running or with a start recorded, the rejected completion leaves state and start reference unchanged; otherwise the reset |
| TimerContext.Stalled | src/contexts/PomodoroTimerContext.tsx:147-152 | stopped at 0, same session type, count, pause flag and task |
| TimerContext.StallIsNotCompletion | src/contexts/PomodoroTimerContext.tsx:106-123 | the stalled state's session type always differs from the one a completion moves to |
| TimerContext.StallsAsWritten | src/contexts/PomodoroTimerContext.tsx:140-174 | as written, a timer at its last second stalls, and restarting it stalls it again, with nothing logged |
| TimerContext.ResetStuckAsWritten | src/contexts/PomodoroTimerContext.tsx:180-192 | as written, once a start is recorded, resets change nothing |
| TimerContext.ResetAfterCompletion | src/contexts/PomodoroTimerContext.tsx:90-125 | a reset after a non-auto-started completion logs a zero-second incomplete session |
| UseReports.FocusPlusBreak | src/hooks/useReports.ts:14-19 | focus plus break time is the time of all completed sessions |
| UseReports.Summary | src/hooks/useReports.ts:11-47 | the counts; focus and break minutes rounded from the seconds (within half a minute); tasks whose status is completed |
| UseReports.FocusDays | src/hooks/useReports.ts:22-37 | exactly the days holding a completed work session |
| UseReports.CurrentStreak | src/hooks/useReports.ts:22-37 | every day of the streak ending today is covered and the day before is not; 0 when today is missing; at most the number of days |
| UseReports.StreakUnique | src/hooks/useReports.ts:22-37 | only one length satisfies the loop's postcondition |
| UseReports.ComputeActivitySummary | src/hooks/useReports.ts:11-47 | the summary with the streak over the focus days |
| UseReports.FocusBuckets | src/hooks/useReports.ts:49-80 | each bucket is the tally of completed work by that calendar key, and the four totals equal all focus time |
| UseReports.BucketTotal | src/hooks/useReports.ts:49-80 | whatever the key, a bucket holds all focus time |
| UseReports.FocusFor | src/hooks/useReports.ts:82-101 | the rounded minutes of the current period's bucket, 0 when absent |

## Left out

- Rendering, toasts' wording beyond the notice text, and every component file.
  The report page's charts are not modelled, only the data fed to them.
- Relay I/O, `AbortSignal.timeout`, and react-query's cache engine. A query's
  answer is an input sequence. A publish is an entry in a log, and an
  invalidation is a key in a set.
- Whether the relay honours a filter. The filter-matching lemmas state what
  the filter asks; the query lemmas take the answer as given. NIP-01 defines
  tag conditions only for single-letter tag names, so a relay may ignore or
  reject the `#task` and `#project` conditions of `UseSessions.SessionFilter`
  and `UseTasks.TaskFilter`; for those filters the premise of
  `UseSessions.QuerySessionsOfUser` ("the relay honours the filter") may not
  hold.
- Scheduling: `setInterval`, effects and React batching. Ticks, completions
  and the resync effect are explicit, sequential method calls.
- Audio notifications in both timers.
- The clock and the calendar are parameters: "now", the period cutoffs, the
  day/week/month/year keys and the Monday week start.
- UseReports.CurrentStreak: steps back one day number at a time. The source
  steps back 24 hours of milliseconds, which on a daylight-saving change day
  can land on the same calendar day or skip one; that is not modelled.
- The order of date keys. It is a caller-supplied rank function standing in
  for `localeCompare`.
- Floating point. Hours and averages are exact reals. `Math.round(x/60)` is
  integer rounding of seconds, half up. `toFixed` is not modelled.
- `generateUUID`, which uses `Math.random`.
- NIP-19 `naddrEncode`. It is an uninterpreted stand-in function, not proved
  injective.
- `JSON.parse` and `JSON.stringify`. They are caller-supplied functions, and
  parsing either succeeds or gives none.
- `parseInt` on text that is not optional '-' followed by decimal digits
  (leading whitespace, '+', NaN). Unreadable text counts as 0, so `|| default`
  and `|| undefined` take their fallback.
- Unicode case folding. `toLowerCase` is ASCII only.
- `useLocalStorage` persistence. It is a single slot, modelled by the
  restoring constructor.
- Variant-B `useSessions` and `useTasks` hooks with `createSession`,
  `incrementTaskPomodoros`, `sessions` and `tasks` do not exist in the
  repository; the imports resolve to the variant-A query hooks, which lack
  those members. The model assumes hooks with the expected API: the timer
  context's calls to them are logged on the timer object.
- The timer context's `formatTime` is the same function as
  `PomodoroUtils.FormatTime`, so it is not modelled twice.
- In-place sorts (`tasks.sort`, `projects.sort` and the report sorts) are
  modelled on values. The result is a stable sort by the comparator's key
  (`Sorting.SortByStable`). The model does not capture aliasing of the sorted
  array.
- PomodoroUtils.FormatTime: says nothing for negative input, where JavaScript
  would print a minus sign.
- PomodoroTimer.Timer.Tick: assumes that the state `handleComplete` sets
  stands. In the source the interval's updater calls `handleComplete`, which
  sets the timer state itself, and then returns `prev`; which of the two writes
  lands last depends on the setter of `useLocalStorage`, which is not part of
  this model. A setter that applies the updater and then writes its result
  would let `prev` overwrite the completed state.
- TimerContext.Timer.HandleSessionComplete, TimerContext.Timer.Tick,
  TimerContext.Timer.HandleReset, TimerContext.Timer.HandleSkip: assume a
  `createSession` and an `incrementTaskPomodoros` that exist and resolve. In
  the repository `createSession` is undefined, so every call rejects; that
  path is modelled only for the tick and the reset
  (`TimerContext.Timer.TickAsWritten`, `TimerContext.Timer.HandleResetAsWritten`).
  For a running skip it leaves everything unchanged, which is not stated.
- UseReports.Summary, UseReports.FocusDays, UseReports.ComputeActivitySummary,
  UseReports.FocusBuckets, UseReports.FocusFor: their inputs stand for (or,
  for the buckets, are computed from) the `sessions` and `tasks` of variant-B
  hooks. The imported hooks do not
  return them, so as written the reports hook throws at
  src/hooks/useReports.ts:12 before computing anything.

## Findings

| source | as written | input that shows it | evidently intended | confidence | as-written member | corrected member |
|---|---|---|---|---|---|---|
| src/contexts/PomodoroTimerContext.tsx:31, 95 | `createSession` is read from a `useSessions` that returns a query result, so it is undefined and every completion rejects | a running, unpaused timer with `timeRemaining` 1 ticks: it stops at 0 in the same session type and nothing is logged (`TimerContext.StallsAsWritten`, `TimerContext.StallIsNotCompletion`) | a session hook whose `createSession` logs the session, after which the timer moves to the next session | high, not executed | TimerContext.Timer.TickAsWritten | TimerContext.Timer.Tick |
| src/contexts/PomodoroTimerContext.tsx:180-192 | the awaited completion rejects before `startTimeRef.current = 0` and the state reset | `handleStart` then `handleReset`: state and start reference are unchanged, and every later reset too (`TimerContext.ResetStuckAsWritten`) | an incomplete session is logged, then the timer stops at the full duration with no start recorded | high, not executed | TimerContext.Timer.HandleResetAsWritten | TimerContext.Timer.HandleReset |
