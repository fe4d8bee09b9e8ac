/**
 * The key-down dispatch of src/hooks/useKeyboardShortcuts.ts, for the
 * shortcut map of the first variant. A key event picks at most one action by
 * an if/else chain: the Space key starts the timer when the start binding is
 * 'space'; otherwise the key, lower-cased, is compared with each set binding,
 * lower-cased, in a fixed priority order. Events aimed at form fields pick
 * nothing, and no listener exists while disabled or without a shortcut map.
 */
module KeyboardShortcuts {
  import opened Wrappers
  import opened Text
  import opened PomodoroTypes
  import PomodoroUtils

  /** The handler an event may call. */
  datatype Action =
    | StartTimer | ResetTimer | SwitchToPomodoro | SwitchToShortBreak | SwitchToLongBreak
    | ToggleSettings | OpenTasks | OpenReports

  /** What kind of element the event is aimed at. */
  datatype Target = InputField | TextArea | Select | OtherElement

  /** A key event: `key` (the character), `code` (the physical key) and the target. */
  datatype KeyEvent = KeyEvent(key: string, code: string, target: Target)

  /** `binding && key === binding.toLowerCase()`, with `key` already lower-cased. */
  predicate Hits(binding: Option<string>, key: string) {
    PomodoroUtils.Truthy(binding) && key == ToLower(binding.value)
  }

  predicate IsFormField(t: Target) {
    t == InputField || t == TextArea || t == Select
  }

  predicate SpaceStarts(s: Shortcuts, e: KeyEvent) {
    e.code == "Space" && s.startTimer == Some("space")
  }

  /**
   * `handleKeyDown`: the action whose branch is taken (and whose event's
   * default is prevented), if any. The handler itself may be absent, in
   * which case nothing is called; see Fires.
   */
  function Dispatch(enabled: bool, shortcuts: Option<Shortcuts>, e: KeyEvent): Option<Action> {
    if !enabled || shortcuts.None? then None
    else if IsFormField(e.target) then None
    else if SpaceStarts(shortcuts.value, e) then Some(StartTimer)
    else KeyChain(shortcuts.value, ToLower(e.key))
  }

  /** The if/else chain after the Space case, on the lower-cased key. */
  function KeyChain(s: Shortcuts, key: string): Option<Action> {
    if Hits(s.resetTimer, key) then Some(ResetTimer)
    else if Hits(s.switchToPomodoro, key) then Some(SwitchToPomodoro)
    else if Hits(s.switchToShortBreak, key) then Some(SwitchToShortBreak)
    else if Hits(s.switchToLongBreak, key) then Some(SwitchToLongBreak)
    else if Hits(s.toggleSettings, key) then Some(ToggleSettings)
    else if Hits(s.openTasks, key) then Some(OpenTasks)
    else if Hits(s.openReports, key) then Some(OpenReports)
    else None
  }

  /** `handlers.onX?.()`: the handler called, when the chosen action has one. */
  function Fires(handlers: set<Action>, chosen: Option<Action>): (r: Option<Action>)
    ensures r.Some? <==> chosen.Some? && chosen.value in handlers
    ensures r.Some? ==> r == chosen
  {
    if chosen.Some? && chosen.value in handlers then chosen else None
  }

  /** The bindings after the Space case, highest priority first. */
  function Priority(s: Shortcuts): seq<(Action, Option<string>)> {
    [(ResetTimer, s.resetTimer), (SwitchToPomodoro, s.switchToPomodoro), (SwitchToShortBreak, s.switchToShortBreak),
     (SwitchToLongBreak, s.switchToLongBreak), (ToggleSettings, s.toggleSettings), (OpenTasks, s.openTasks),
     (OpenReports, s.openReports)]
  }

  /** A reference for the chain: the action of the first binding in `bindings` that the key hits. */
  function FirstHit(bindings: seq<(Action, Option<string>)>, key: string): (r: Option<Action>)
    ensures r.Some? <==> exists i :: 0 <= i < |bindings| && Hits(bindings[i].1, key)
  {
    if bindings == [] then None
    else if Hits(bindings[0].1, key) then Some(bindings[0].0)
    else
      var r := FirstHit(bindings[1..], key);
      assert forall i :: 1 <= i < |bindings| ==> bindings[i] == bindings[1..][i - 1];
      r
  }

  /** FirstHit answers with binding `i` exactly when `i` is hit and no earlier binding is. */
  lemma {:induction false} FirstHitAt(bindings: seq<(Action, Option<string>)>, key: string, i: int)
    requires 0 <= i < |bindings| && Hits(bindings[i].1, key)
    requires forall j :: 0 <= j < i ==> !Hits(bindings[j].1, key)
    ensures FirstHit(bindings, key) == Some(bindings[i].0)
  {
    if i > 0 {
      FirstHitAt(bindings[1..], key, i - 1);
    }
  }

  /**
   * The chain is the first-hit rule over the priority list: outside form
   * fields, with the listener in place and no Space start, the action chosen
   * is the one of the highest-priority binding the lower-cased key hits.
   */
  lemma DispatchIsFirstHit(s: Shortcuts, e: KeyEvent)
    requires !IsFormField(e.target) && !SpaceStarts(s, e)
    ensures Dispatch(true, Some(s), e) == FirstHit(Priority(s), ToLower(e.key))
  {
    KeyChainIsFirstHit(s, ToLower(e.key));
  }

  /** The seven-branch chain picks the first binding of the priority list that the key hits. */
  lemma KeyChainIsFirstHit(s: Shortcuts, key: string)
    ensures KeyChain(s, key) == FirstHit(Priority(s), key)
  {
    var p := Priority(s);
    if Hits(p[0].1, key) { FirstHitAt(p, key, 0); }
    else if Hits(p[1].1, key) { FirstHitAt(p, key, 1); }
    else if Hits(p[2].1, key) { FirstHitAt(p, key, 2); }
    else if Hits(p[3].1, key) { FirstHitAt(p, key, 3); }
    else { KeyChainLater(s, key); }
  }

  /** The same, once the first four bindings are known to miss. */
  lemma KeyChainLater(s: Shortcuts, key: string)
    requires !Hits(s.resetTimer, key) && !Hits(s.switchToPomodoro, key)
    requires !Hits(s.switchToShortBreak, key) && !Hits(s.switchToLongBreak, key)
    ensures KeyChain(s, key) == FirstHit(Priority(s), key)
  {
    var p := Priority(s);
    if Hits(p[4].1, key) { FirstHitAt(p, key, 4); }
    else if Hits(p[5].1, key) { FirstHitAt(p, key, 5); }
    else if Hits(p[6].1, key) { FirstHitAt(p, key, 6); }
    else { assert forall i :: 0 <= i < |p| ==> !Hits(p[i].1, key); }
  }

  /** Nothing is chosen while disabled, without a shortcut map, or for an event aimed at a form field. */
  lemma DispatchSilent(enabled: bool, shortcuts: Option<Shortcuts>, e: KeyEvent)
    requires !enabled || shortcuts.None? || IsFormField(e.target)
    ensures Dispatch(enabled, shortcuts, e) == None
  {
  }

  /**
   * Starting the timer is chosen exactly by the Space key under a start
   * binding of 'space', and then nothing else is.
   */
  lemma StartOnlyBySpace(s: Shortcuts, e: KeyEvent)
    requires !IsFormField(e.target)
    ensures Dispatch(true, Some(s), e) == Some(StartTimer) <==> SpaceStarts(s, e)
  {
  }

  /** Matching ignores case: an event whose key differs only in case chooses the same action. */
  lemma DispatchIgnoresCase(enabled: bool, shortcuts: Option<Shortcuts>, e: KeyEvent, key: string)
    requires ToLower(key) == ToLower(e.key)
    ensures Dispatch(enabled, shortcuts, e.(key := key)) == Dispatch(enabled, shortcuts, e)
  {
  }

  /**
   * A binding that is unset or empty is never chosen, whatever the key; the
   * start binding is the Space case and is never matched by key.
   */
  lemma UnsetNeverFires(s: Shortcuts, e: KeyEvent, i: int)
    requires 0 <= i < 7 && !PomodoroUtils.Truthy(Priority(s)[i].1)
    requires Dispatch(true, Some(s), e).Some?
    ensures Dispatch(true, Some(s), e) != Some(Priority(s)[i].0)
  {
  }

  /**
   * With the default bindings, the Space key starts the timer, 'R' resets it
   * whatever its case, and '1', '2', '3' switch modes.
   */
  lemma DefaultBindings(t: Target)
    requires !IsFormField(t)
    ensures Dispatch(true, Some(DefaultShortcuts), KeyEvent(" ", "Space", t)) == Some(StartTimer)
    ensures Dispatch(true, Some(DefaultShortcuts), KeyEvent("R", "KeyR", t)) == Some(ResetTimer)
    ensures Dispatch(true, Some(DefaultShortcuts), KeyEvent("1", "Digit1", t)) == Some(SwitchToPomodoro)
    ensures Dispatch(true, Some(DefaultShortcuts), KeyEvent("2", "Digit2", t)) == Some(SwitchToShortBreak)
    ensures Dispatch(true, Some(DefaultShortcuts), KeyEvent("3", "Digit3", t)) == Some(SwitchToLongBreak)
  {
    assert ToLower("R") == "r";
    assert ToLower("1") == "1";
    assert ToLower("2") == "2";
    assert ToLower("3") == "3";
  }
}
