/**
 * The settings query (src/hooks/useSettings.ts): the defaults without a user
 * or without a settings event, otherwise the decoding of the first event the
 * relay returns for kind 10100 by the user with a limit of one.
 */
module UseSettings {
  import opened Wrappers
  import opened Nostr
  import opened PomodoroTypes
  import opened PomodoroUtils

  /** The filter: kind 10100 by the user, one event. */
  function SettingsFilter(pubkey: string): (f: ReqFilter)
    ensures f.kinds == [SettingsKind] && f.authors == [pubkey] && f.limit == Some(1)
    ensures f.since.None? && f.until.None? && f.tagConditions == []
  {
    ReqFilter([SettingsKind], [pubkey], Some(1), None, None, [])
  }

  /**
   * `queryFn`: the defaults authored by nobody ('') without a user, the
   * defaults authored by the user when the relay returns nothing, and
   * otherwise the first event decoded with the user as the fallback author.
   * `parse` is `JSON.parse` of the shortcuts tag.
   */
  function QuerySettings(user: Option<string>, events: seq<Event>, parse: string -> Option<Shortcuts>): (r: Settings)
    ensures user.None? ==> r == Settings(DefaultSettings, "", None)
    ensures user.Some? && events == [] ==> r == Settings(DefaultSettings, user.value, None)
    ensures r.values.theme.Some? && r.values.shortcuts.Some?
  {
    if user.None? then Settings(DefaultSettings, "", None)
    else if events == [] then Settings(DefaultSettings, user.value, None)
    else ParseSettings(events[0], user.value, parse)
  }

  /**
   * When the relay honours the filter, the result is always the user's: with
   * an event it comes from the first one returned and records it, and without
   * one it is the defaults.
   */
  lemma QuerySettingsOfUser(pubkey: string, events: seq<Event>, parse: string -> Option<Shortcuts>)
    requires forall e :: e in events ==> Matches(SettingsFilter(pubkey), e)
    ensures QuerySettings(Some(pubkey), events, parse).author == pubkey
    ensures events != [] ==> QuerySettings(Some(pubkey), events, parse).event == Some(events[0])
    ensures events == [] ==> QuerySettings(Some(pubkey), events, parse).values == DefaultSettings
  {
    if events != [] {
      assert events[0] in events;
    }
  }

  /** Only the first event counts: what follows it never changes the result. */
  lemma QuerySettingsFirstWins(pubkey: string, first: Event, rest: seq<Event>, parse: string -> Option<Shortcuts>)
    ensures QuerySettings(Some(pubkey), [first] + rest, parse) == ParseSettings(first, pubkey, parse)
  {
  }
}
