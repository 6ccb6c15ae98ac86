/**
  The per-guild state the command handlers of rezz/bot.py read and change: the
  audio-node player (lavalink's `DefaultPlayer`) and the bot's voice client in
  the guild (`LavalinkVoiceClient`).

  The player library itself is not part of this model. Each call the bot makes
  into it is recorded, in order, in `Player.calls`; `add` appends to the queue,
  `set_pause` sets `paused` and `set_loop` sets `loop`, and the calls whose
  effect happens inside the library (`play`, `stop`, `skip`) change nothing else.
*/
module Session {
  import opened Maybe

  type ChannelId = nat
  type UserId = nat

  /** A queued audio track: display metadata, length and the user who queued it. */
  datatype Track = Track(title: string, uri: string, duration: int, requester: UserId)

  /** A call the bot makes on the player. */
  datatype PlayerCall =
    | Add(track: Track)
    | Play
    | Stop
    | Skip
    | SetPause(pause: bool)
    | SetLoop(mode: int)

  /** Every field of a `Player` at one moment. */
  datatype PlayerState = PlayerState(
    queue: seq<Track>,
    isPlaying: bool,
    paused: bool,
    loop: int,
    channelId: Option<ChannelId>,
    isConnected: bool,
    calls: seq<PlayerCall>)

  /** The state of one guild's player as the bot sees it. */
  class Player {
    var queue: seq<Track>
    var isPlaying: bool
    var paused: bool
    /** 0 is no looping, 1 repeats the track, 2 repeats the queue. */
    var loop: int
    var channelId: Option<ChannelId>
    var isConnected: bool
    var calls: seq<PlayerCall>

    ghost function State(): PlayerState
      reads this
    {
      PlayerState(queue, isPlaying, paused, loop, channelId, isConnected, calls)
    }

    /** `loop` is one of the three modes the player library defines. */
    ghost predicate Valid()
      reads this
    {
      0 <= loop <= 2
    }

    /** `player.add(requester=..., track=...)`: the track, attributed to the requester, goes to the tail. */
    method Add(requester: UserId, track: Track)
      modifies this
      ensures State() == old(State()).(
        queue := old(queue) + [track.(requester := requester)],
        calls := old(calls) + [PlayerCall.Add(track.(requester := requester))])
    {
      var queued := track.(requester := requester);
      queue := queue + [queued];
      calls := calls + [PlayerCall.Add(queued)];
    }

    /** `player.play()`: starts the head of the queue inside the library. */
    method Play()
      modifies this
      ensures State() == old(State()).(calls := old(calls) + [PlayerCall.Play])
    {
      calls := calls + [PlayerCall.Play];
    }

    /** `player.stop()`. */
    method Stop()
      modifies this
      ensures State() == old(State()).(calls := old(calls) + [PlayerCall.Stop])
    {
      calls := calls + [PlayerCall.Stop];
    }

    /** `player.skip()`. */
    method Skip()
      modifies this
      ensures State() == old(State()).(calls := old(calls) + [PlayerCall.Skip])
    {
      calls := calls + [PlayerCall.Skip];
    }

    /** `player.set_pause(pause)`. */
    method SetPause(pause: bool)
      modifies this
      ensures State() == old(State()).(paused := pause, calls := old(calls) + [PlayerCall.SetPause(pause)])
    {
      paused := pause;
      calls := calls + [PlayerCall.SetPause(pause)];
    }

    /** `player.set_loop(mode)`. */
    method SetLoop(mode: int)
      modifies this
      ensures State() == old(State()).(loop := mode, calls := old(calls) + [PlayerCall.SetLoop(mode)])
    {
      loop := mode;
      calls := calls + [PlayerCall.SetLoop(mode)];
    }
  }

  /** A request the bot sends to the chat gateway about its voice connection. */
  datatype GatewayCall =
    | ChangeVoiceState(channel: Option<ChannelId>)
    | MoveTo(destination: ChannelId)

  datatype VoiceState = VoiceState(channel: Option<ChannelId>, gatewayCalls: seq<GatewayCall>)

  /**
    The bot's voice client in one guild. `channel` is the voice channel it is
    in, and `None` when the guild has no voice client (`discord.utils.get` over
    the client's voice clients finds none).
  */
  class VoiceClient {
    var channel: Option<ChannelId>
    var gatewayCalls: seq<GatewayCall>

    ghost function State(): VoiceState
      reads this
    {
      VoiceState(channel, gatewayCalls)
    }

    /**
      `LavalinkVoiceClient.disconnect(force)`: unless forced, nothing happens while
      the player is not connected; otherwise the gateway is told to leave voice,
      the player's channel is cleared and the voice client is cleaned up.
    */
    method Disconnect(player: Player, force: bool)
      modifies this, player
      ensures !force && !old(player.isConnected) ==>
        State() == old(State()) && player.State() == old(player.State())
      ensures force || old(player.isConnected) ==>
        && State() == VoiceState(None, old(gatewayCalls) + [ChangeVoiceState(None)])
        && player.State() == old(player.State()).(channelId := None)
    {
      if !force && !player.isConnected {
        return;
      }
      gatewayCalls := gatewayCalls + [ChangeVoiceState(None)];
      player.channelId := None;
      channel := None;
    }
  }
}
