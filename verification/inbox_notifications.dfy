/** The unread-message poller behind the inbox badge: each refresh overwrites
    the count, and a rise in the count plays a chime unless the refresh is
    silent. A fetch is passed in as its outcome: `Some(count)`, or `None` when
    the request failed. The chime itself and the timer are effects the model
    reports rather than performs. */
module InboxNotifications {
  import opened Js

  /** `UnreadState`. A poll id is the value `setInterval` returned. */
  datatype UnreadState = UnreadState(unreadCount: int, initialized: bool, polling: bool, pollId: Option<int>)

  const Initial := UnreadState(0, false, false, None)

  /** `refreshUnread({ silent })`: the new state and whether the chime plays. */
  function Refresh(s: UnreadState, fetched: Option<int>, silent: bool): (r: (UnreadState, bool))
    ensures r.0.unreadCount == (if fetched.Some? then fetched.value else s.unreadCount)
    ensures r.0.initialized
    ensures r.0.polling == s.polling && r.0.pollId == s.pollId
    ensures r.1 <==> s.initialized && !silent && r.0.unreadCount > s.unreadCount
  {
    var count := fetched.GetOr(s.unreadCount);
    var s' := s.(unreadCount := count);
    if !s.initialized then (s'.(initialized := true), false)
    else (s', count - s.unreadCount > 0 && !silent)
  }

  /** A failed fetch keeps the count and never chimes. */
  lemma FailedRefreshKeepsCount(s: UnreadState, silent: bool)
    ensures Refresh(s, None, silent).0.unreadCount == s.unreadCount
    ensures !Refresh(s, None, silent).1
  {
  }

  /** The first refresh only initialises: it never chimes, whatever the count. */
  lemma FirstRefreshSilent(s: UnreadState, fetched: Option<int>, silent: bool)
    requires !s.initialized
    ensures !Refresh(s, fetched, silent).1
    ensures Refresh(s, fetched, silent).0.initialized
  {
  }

  /** `startPolling()`: no-op while polling; otherwise it starts polling with a
      silent first refresh and records the new timer. */
  function StartPolling(s: UnreadState, fetched: Option<int>, timer: int): (r: (UnreadState, bool))
    ensures s.polling ==> r == (s, false)
    ensures !s.polling ==> r.0.polling && r.0.pollId == Some(timer) && !r.1
    ensures !s.polling ==> r.0.unreadCount == (if fetched.Some? then fetched.value else s.unreadCount)
  {
    if s.polling then (s, false)
    else
      var refreshed := Refresh(s.(polling := true), fetched, true);
      (refreshed.0.(pollId := Some(timer)), refreshed.1)
  }

  /** One tick of the poll timer: a refresh that may chime. */
  function Tick(s: UnreadState, fetched: Option<int>): (r: (UnreadState, bool))
    ensures fetched.Some? ==> r.0.unreadCount == fetched.value
    ensures fetched.None? ==> r.0.unreadCount == s.unreadCount
    ensures r.0.initialized && r.0.polling == s.polling && r.0.pollId == s.pollId
    ensures r.1 <==> s.initialized && fetched.Some? && fetched.value > s.unreadCount
  {
    Refresh(s, fetched, false)
  }

  /** Once started, every tick chimes exactly when the count rose, and the
      count may also fall. */
  lemma TickChimesOnRise(s: UnreadState, fetched: Option<int>, timer: int, next: int)
    requires !s.polling
    ensures var started := StartPolling(s, fetched, timer).0;
      && Tick(started, Some(next)).1 == (next > started.unreadCount)
      && Tick(started, Some(next)).0.unreadCount == next
  {
  }

  /** `stopPolling()`: the timer to clear, if the id is truthy, and the new
      state. */
  function StopPolling(s: UnreadState): (r: (UnreadState, Option<int>))
    ensures !r.0.polling
    ensures r.0.unreadCount == s.unreadCount && r.0.initialized == s.initialized
    ensures r.1.Some? <==> s.pollId.Some? && s.pollId.value != 0
    ensures r.1.Some? ==> r.1 == s.pollId && r.0.pollId.None?
    ensures r.1.None? ==> r.0.pollId == s.pollId
  {
    if s.pollId.Some? && s.pollId.value != 0 then (s.(pollId := None, polling := false), s.pollId)
    else (s.(polling := false), None)
  }

  /** Stopping twice is stopping once, and the second stop clears nothing. */
  lemma StopIdempotent(s: UnreadState)
    ensures StopPolling(StopPolling(s).0).0 == StopPolling(s).0
    ensures StopPolling(StopPolling(s).0).1.None?
  {
  }

  /** Stopping and starting again polls afresh with the new timer. */
  lemma RestartAfterStop(s: UnreadState, fetched: Option<int>, timer: int)
    ensures StartPolling(StopPolling(s).0, fetched, timer).0.polling
    ensures StartPolling(StopPolling(s).0, fetched, timer).0.pollId == Some(timer)
  {
  }
}
