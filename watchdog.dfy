/**
  The idle watchdog of rezz/bot.py (`Bot.track_hook`): when the queue has run
  out, the player is stopped and the bot waits, one second per tick, for
  playback to start again; if it never does within the grace window, the bot's
  voice client disconnects. The one-second sleeps are not modelled: `polls[t]`
  is the value of `player.is_playing` seen after the `t + 1`-th sleep.
*/
module Watchdog {
  import opened Maybe
  import opened Session

  /** `inactive_timeout`, in seconds. */
  const InactiveTimeout: nat := 60

  datatype Event = QueueEndEvent | OtherEvent

  /** Playback was seen at one of the first `timeout` polls. */
  predicate ResumedWithin(polls: seq<bool>, timeout: nat)
    requires timeout <= |polls|
  {
    exists t :: 0 <= t < timeout && polls[t]
  }

  /**
    The `while time < inactive_timeout` loop: sleeps and polls until playback is
    seen or the window has passed. `ticks` is the final value of `time`;
    `resumed` tells the loop left by `break` rather than through its `else`.
  */
  method PollUntilPlaying(polls: seq<bool>, timeout: nat) returns (ticks: nat, resumed: bool)
    requires timeout <= |polls|
    ensures ticks <= timeout
    ensures resumed <==> ResumedWithin(polls, timeout)
    ensures resumed ==> 1 <= ticks && polls[ticks - 1]
    ensures !resumed ==> ticks == timeout
    ensures forall t :: 0 <= t < ticks - 1 ==> !polls[t]
  {
    var time := 0;
    resumed := false;
    while time < timeout
      invariant time <= timeout
      invariant forall t :: 0 <= t < time ==> !polls[t]
    {
      time := time + 1;
      if polls[time - 1] {
        resumed := true;
        break;
      }
    }
    ticks := time;
  }

  /**
    `track_hook(event)`. Events other than the end of the queue are ignored. At
    the end of the queue the player is stopped and polled; the voice client's
    `disconnect()` (not forced) is called once, and only if no poll within
    `inactive_timeout` saw playback. With no voice client in the guild the
    source fails at that call and nothing more happens.
  */
  method TrackHook(v: VoiceClient, p: Player, event: Event, polls: seq<bool>) returns (ticks: nat, disconnectCalled: bool)
    requires InactiveTimeout <= |polls|
    modifies v, p
    ensures event != QueueEndEvent ==>
      ticks == 0 && !disconnectCalled && v.State() == old(v.State()) && p.State() == old(p.State())
    ensures event == QueueEndEvent ==>
      && 1 <= ticks <= InactiveTimeout
      && (disconnectCalled <==> !ResumedWithin(polls, InactiveTimeout) && old(v.channel).Some?)
      && (ResumedWithin(polls, InactiveTimeout) ==> polls[ticks - 1])
      && (!ResumedWithin(polls, InactiveTimeout) ==> ticks == InactiveTimeout)
      && forall t :: 0 <= t < ticks - 1 ==> !polls[t]
    ensures event == QueueEndEvent && !(disconnectCalled && old(p.isConnected)) ==>
      v.State() == old(v.State()) && p.State() == old(p.State()).(calls := old(p.calls) + [Stop])
    ensures event == QueueEndEvent && disconnectCalled && old(p.isConnected) ==>
      && v.State() == VoiceState(None, old(v.gatewayCalls) + [ChangeVoiceState(None)])
      && p.State() == old(p.State()).(channelId := None, calls := old(p.calls) + [Stop])
  {
    if event != QueueEndEvent {
      return 0, false;
    }
    p.Stop();
    var resumed;
    ticks, resumed := PollUntilPlaying(polls, InactiveTimeout);
    disconnectCalled := false;
    if !resumed && v.channel.Some? {
      v.Disconnect(p, false);
      disconnectCalled := true;
    }
  }
}
