/** Joining and leaving voice channels: `_join` and the `leave` command of rezz/bot.py. */
module Voice {
  import opened Maybe
  import opened Session

  datatype JoinResult = Joined(channel: ChannelId) | MissingPermissions

  /**
    The voice state after a successful join. An existing voice client is asked
    to move to `c`; its `channel` attribute is only ever assigned by the
    constructor (rezz/bot.py:42), and the class replaces the voice-state handler
    that would refresh it (rezz/bot.py:64-69), so it keeps naming the old
    channel. Without a client, a new one is constructed for `c` and connects.
  */
  ghost function AfterJoin(s: VoiceState, c: ChannelId): VoiceState {
    if s.channel.Some? then VoiceState(s.channel, s.gatewayCalls + [MoveTo(c)])
    else VoiceState(Some(c), s.gatewayCalls + [ChangeVoiceState(Some(c))])
  }

  /**
    `_join`. The bot's connect permission in the user's channel is checked
    before anything changes; an existing voice client is asked to move to the
    user's channel, otherwise a new one connects there.
  */
  method Join(v: VoiceClient, userChannel: ChannelId, canConnect: bool) returns (r: JoinResult)
    modifies v
    ensures !canConnect ==> r == MissingPermissions && v.State() == old(v.State())
    ensures canConnect ==> r == Joined(userChannel) && v.State() == AfterJoin(old(v.State()), userChannel)
  {
    if !canConnect {
      return MissingPermissions;
    }
    if v.channel.Some? {
      v.gatewayCalls := v.gatewayCalls + [MoveTo(userChannel)];
      return Joined(userChannel);
    }
    v.gatewayCalls := v.gatewayCalls + [ChangeVoiceState(Some(userChannel))];
    v.channel := Some(userChannel);
    return Joined(userChannel);
  }

  datatype LeaveResult = Left | NotInSameVoiceChannel | NoVoiceClient

  /**
    `leave`. Refused unless the user is in the bot's voice channel; otherwise the
    player is stopped and the voice client disconnects (not forced). With no
    voice client in the guild the source fails on the channel lookup and nothing
    changes.
  */
  method Leave(v: VoiceClient, p: Player, userChannel: ChannelId) returns (r: LeaveResult)
    modifies v, p
    ensures old(v.channel).None? ==>
      r == NoVoiceClient && v.State() == old(v.State()) && p.State() == old(p.State())
    ensures old(v.channel).Some? && old(v.channel) != Some(userChannel) ==>
      r == NotInSameVoiceChannel && v.State() == old(v.State()) && p.State() == old(p.State())
    ensures old(v.channel) == Some(userChannel) ==> r == Left
    ensures old(v.channel) == Some(userChannel) && old(p.isConnected) ==>
      && v.State() == VoiceState(None, old(v.gatewayCalls) + [ChangeVoiceState(None)])
      && p.State() == old(p.State()).(channelId := None, calls := old(p.calls) + [Stop])
    ensures old(v.channel) == Some(userChannel) && !old(p.isConnected) ==>
      && v.State() == old(v.State())
      && p.State() == old(p.State()).(calls := old(p.calls) + [Stop])
  {
    if v.channel.None? {
      return NoVoiceClient;
    }
    if v.channel != Some(userChannel) {
      return NotInSameVoiceChannel;
    }
    p.Stop();
    v.Disconnect(p, false);
    return Left;
  }
}
