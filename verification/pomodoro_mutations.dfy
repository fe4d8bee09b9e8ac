/**
 * The mutations of the first variant (src/hooks/usePomodoroMutations.ts).
 * Each one refuses without a signed-in user, otherwise builds one event
 * template with the matching builder, hands it to `publish` (not awaited, so
 * its outcome does not matter here), resolves with its input and marks the
 * user's query of that kind stale. Failures only raise a notice; nothing is
 * retried.
 */
module PomodoroMutations {
  import opened Wrappers
  import opened Nostr
  import opened PomodoroTypes
  import opened PomodoroUtils

  /** A react-query key `[name, user?.pubkey]`. */
  datatype QueryKey = QueryKey(name: string, pubkey: Option<string>)

  /** A toast: title, description, and whether it is shown as an error. */
  datatype Notice = Notice(title: string, description: string, destructive: bool)

  /** How a mutation settles: with its input, or with an error message. */
  datatype Outcome<T> = Resolved(value: T) | Rejected(message: string)

  const NotLoggedIn := "User not logged in"

  /** Everything a mutation can change: the events handed to `publish`, the stale keys and the notices. */
  datatype Effects = Effects(published: seq<EventTemplate>, stale: set<QueryKey>, notices: seq<Notice>)

  /**
   * One mutation: without a user only an error notice (`failure` followed by
   * the error's message); with one, the template is published, the key of
   * that kind for the user is invalidated and the success notice, if any, is shown.
   */
  function Mutate(s: Effects, user: Option<string>, template: EventTemplate, query: string,
                  success: Option<Notice>, failure: string): (r: Effects)
    ensures user.None? ==> r == s.(notices := s.notices + [Notice("Error", failure + NotLoggedIn, true)])
    ensures user.Some? ==> r.published == s.published + [template]
    ensures user.Some? ==> r.stale == s.stale + {QueryKey(query, user)}
  {
    if user.None? then s.(notices := s.notices + [Notice("Error", failure + NotLoggedIn, true)])
    else
      var shown := if success.Some? then [success.value] else [];
      Effects(s.published + [template], s.stale + {QueryKey(query, user)}, s.notices + shown)
  }

  /** The settled value: the input with a user, the not-logged-in error without. */
  function Settle<T>(user: Option<string>, input: T): Outcome<T> {
    if user.Some? then Resolved(input) else Rejected(NotLoggedIn)
  }

  const SessionsQuery := "pomodoro-sessions"
  const SettingsQuery := "pomodoro-settings"
  const TasksQuery := "pomodoro-tasks"
  const ProjectsQuery := "pomodoro-projects"

  /** `{completed: true, completedAt: now}`. */
  function CompletionUpdate(now: int): TaskUpdate {
    TaskUpdate(None, None, None, None, None, Some(true), Some(now), None)
  }

  class Mutations {
    /** The signed-in user's public key, if any. */
    const user: Option<string>
    var published: seq<EventTemplate>
    var stale: set<QueryKey>
    var notices: seq<Notice>

    function State(): Effects
      reads this
    {
      Effects(published, stale, notices)
    }

    constructor(user: Option<string>)
      ensures this.user == user && State() == Effects([], {}, [])
    {
      this.user := user;
      published := [];
      stale := {};
      notices := [];
    }

    method Apply(template: EventTemplate, query: string, success: Option<Notice>, failure: string)
      modifies this
      ensures State() == Mutate(old(State()), user, template, query, success, failure)
    {
      var s := Mutate(State(), user, template, query, success, failure);
      published, stale, notices := s.published, s.stale, s.notices;
    }

    /** `usePublishSession`. */
    method PublishSession(p: SessionParams) returns (r: Outcome<SessionParams>)
      modifies this
      ensures State() == Mutate(old(State()), user, CreateSessionEvent(p), SessionsQuery, None, "Failed to save session: ")
      ensures r == Settle(user, p)
    {
      Apply(CreateSessionEvent(p), SessionsQuery, None, "Failed to save session: ");
      r := Settle(user, p);
    }

    /** `useUpdateSettings`; `stringify` is `JSON.stringify` of the shortcuts. */
    method UpdateSettings(v: SettingsValues, stringify: Shortcuts -> string) returns (r: Outcome<SettingsValues>)
      modifies this
      ensures State() == Mutate(old(State()), user, CreateSettingsEvent(v, stringify), SettingsQuery,
        Some(Notice("Settings saved", "Your pomodoro settings have been updated.", false)), "Failed to save settings: ")
      ensures r == Settle(user, v)
    {
      Apply(CreateSettingsEvent(v, stringify), SettingsQuery,
        Some(Notice("Settings saved", "Your pomodoro settings have been updated.", false)), "Failed to save settings: ");
      r := Settle(user, v);
    }

    /** `useCreateTask`; `now` is the clock reading in seconds. */
    method CreateTask(p: TaskParams, now: int) returns (r: Outcome<TaskParams>)
      modifies this
      ensures State() == Mutate(old(State()), user, CreateTaskEvent(p, now), TasksQuery,
        Some(Notice("Task created", "Your task has been added.", false)), "Failed to create task: ")
      ensures r == Settle(user, p)
    {
      Apply(CreateTaskEvent(p, now), TasksQuery,
        Some(Notice("Task created", "Your task has been added.", false)), "Failed to create task: ");
      r := Settle(user, p);
    }

    /** `useUpdateTask`. */
    method UpdateTask(task: Task, u: TaskUpdate, now: int) returns (r: Outcome<(Task, TaskUpdate)>)
      modifies this
      ensures State() == Mutate(old(State()), user, UpdateTaskEvent(task, u, now), TasksQuery, None, "Failed to update task: ")
      ensures r == Settle(user, (task, u))
    {
      Apply(UpdateTaskEvent(task, u, now), TasksQuery, None, "Failed to update task: ");
      r := Settle(user, (task, u));
    }

    /** `useCompleteTask`: the task updated with `completed` set and the completion time stamped `now`. */
    method CompleteTask(task: Task, now: int) returns (r: Outcome<Task>)
      modifies this
      ensures State() == Mutate(old(State()), user, UpdateTaskEvent(task, CompletionUpdate(now), now), TasksQuery,
        Some(Notice("Task completed", "Great job! Task marked as complete.", false)), "Failed to complete task: ")
      ensures r == Settle(user, task)
    {
      Apply(UpdateTaskEvent(task, CompletionUpdate(now), now), TasksQuery,
        Some(Notice("Task completed", "Great job! Task marked as complete.", false)), "Failed to complete task: ");
      r := Settle(user, task);
    }

    /** `useCreateProject`. */
    method CreateProject(p: ProjectParams, now: int) returns (r: Outcome<ProjectParams>)
      modifies this
      ensures State() == Mutate(old(State()), user, CreateProjectEvent(p, now), ProjectsQuery,
        Some(Notice("Project created", "Your project has been added.", false)), "Failed to create project: ")
      ensures r == Settle(user, p)
    {
      Apply(CreateProjectEvent(p, now), ProjectsQuery,
        Some(Notice("Project created", "Your project has been added.", false)), "Failed to create project: ");
      r := Settle(user, p);
    }

    /** `useUpdateProject`. */
    method UpdateProject(project: Project, u: ProjectUpdate, now: int) returns (r: Outcome<(Project, ProjectUpdate)>)
      modifies this
      ensures State() == Mutate(old(State()), user, UpdateProjectEvent(project, u, now), ProjectsQuery,
        Some(Notice("Project updated", "Your project has been updated.", false)), "Failed to update project: ")
      ensures r == Settle(user, (project, u))
    {
      Apply(UpdateProjectEvent(project, u, now), ProjectsQuery,
        Some(Notice("Project updated", "Your project has been updated.", false)), "Failed to update project: ");
      r := Settle(user, (project, u));
    }
  }

  /**
   * Without a user a mutation publishes nothing, invalidates nothing and only
   * adds one error notice carrying the not-logged-in message; with a user it
   * publishes exactly the given template, marks exactly the key of its kind
   * for that user stale, and adds at most one notice.
   */
  lemma MutateEffects(s: Effects, user: Option<string>, template: EventTemplate, query: string,
                      success: Option<Notice>, failure: string)
    ensures var r := Mutate(s, user, template, query, success, failure);
      && (user.None? ==>
            && r.published == s.published && r.stale == s.stale
            && |r.notices| == |s.notices| + 1 && r.notices[|s.notices|].destructive
            && r.notices[|s.notices|].description == failure + NotLoggedIn)
      && (user.Some? ==>
            && |r.published| == |s.published| + 1 && r.published[|s.published|] == template
            && r.stale - s.stale <= {QueryKey(query, user)}
            && QueryKey(query, user) in r.stale
            && |s.notices| <= |r.notices| <= |s.notices| + 1)
  {
  }

  /**
   * Completing a task (signed by its author) publishes an event that decodes
   * to the same task — id, address, title, project, estimate, counts, order
   * and creation time — now completed at `now`; a non-zero `now` reads back as
   * the completion time. An estimate of 0 reads back as none, as the decoder's
   * `|| undefined` maps 0 to undefined.
   */
  lemma CompleteTaskKeepsFields(task: Task, now: int, id: string, at: int)
    requires task.id != "" && task.title != ""
    ensures var e := Sign(UpdateTaskEvent(task, CompletionUpdate(now), now), id, task.author, at);
      && ParseTask(e).Some?
      && var t := ParseTask(e).value;
      && t.id == task.id && t.naddr == NaddrEncode(TaskKind, task.author, task.id)
      && t.title == task.title && t.projectNaddr == NonEmpty(task.projectNaddr)
      && t.estimatedPomodoros == (if task.estimatedPomodoros == Some(0) then None else task.estimatedPomodoros)
      && t.completedPomodoros == task.completedPomodoros
      && t.completed
      && t.completedAt == (if now != 0 then Some(now) else None)
      && t.createdAt == task.createdAt
      && t.order == Some(task.order.GetOr(999999))
  {
    UpdateTaskRoundTrip(task, CompletionUpdate(now), now, id, at);
  }
}
