/**
  The playback commands of rezz/bot.py: `play` (with the callback of its search
  buttons), `pause`, `resume`, `skip`, the loop commands and `shuffle`.
*/
module Playback {
  import opened Maybe
  import opened Session
  import opened Search
  import opened Voice

  /** The tracks as `player.add(requester=user, track=...)` stores them. */
  function Attributed(user: UserId, tracks: seq<Track>): (r: seq<Track>)
    ensures |r| == |tracks|
    ensures forall i :: 0 <= i < |r| ==> r[i] == tracks[i].(requester := user)
  {
    seq(|tracks|, i requires 0 <= i < |tracks| => tracks[i].(requester := user))
  }

  /** The `add` calls that enqueue `tracks` for `user`, in order. */
  function AddCalls(user: UserId, tracks: seq<Track>): (r: seq<PlayerCall>)
    ensures |r| == |tracks|
    ensures forall i :: 0 <= i < |r| ==> r[i] == PlayerCall.Add(tracks[i].(requester := user))
  {
    seq(|tracks|, i requires 0 <= i < |tracks| => PlayerCall.Add(tracks[i].(requester := user)))
  }

  /** The tracks a selection puts on the queue. */
  function Enqueued(s: Selection): seq<Track> {
    match s
    case EnqueueAll(tracks, _) => tracks
    case EnqueueOne(track) => [track]
    case _ => []
  }

  /** `play` starts playback only after enqueueing, and only when nothing is playing. */
  function AutoStart(enqueued: seq<Track>, wasPlaying: bool): seq<PlayerCall> {
    if enqueued != [] && !wasPlaying then [PlayerCall.Play] else []
  }

  datatype PlayReply =
    | JoinRefused
    | WrongVoiceChannel
    | NoTracksFound
    | PlaylistEnqueued(count: nat, playlistName: string)
    | ChooseTrack(choices: seq<Track>)
    | TrackEnqueued(track: Track)
    | NoMatchesFound
    | FailedToLoad
    | UnknownError

  /** The reply `play` sends for a selection; it reports exactly what is enqueued. */
  function Reply(s: Selection): (r: PlayReply)
    ensures r.PlaylistEnqueued? ==> r.count == |Enqueued(s)|
    ensures r.TrackEnqueued? ==> Enqueued(s) == [r.track]
    ensures !r.PlaylistEnqueued? && !r.TrackEnqueued? ==> Enqueued(s) == []
    ensures !r.JoinRefused? && !r.WrongVoiceChannel?
  {
    match s
    case NothingFound => NoTracksFound
    case EnqueueAll(tracks, name) => PlaylistEnqueued(|tracks|, name)
    case Offer(choices) => ChooseTrack(choices)
    case EnqueueOne(track) => TrackEnqueued(track)
    case NoMatches => NoMatchesFound
    case LoadFailed => FailedToLoad
    case UnknownLoadType => UnknownError
  }

  /**
    Enqueues `tracks` one `add` at a time, then starts playback if nothing is
    playing (the playlist branch of `play`).
  */
  method EnqueueAndStart(p: Player, user: UserId, tracks: seq<Track>)
    modifies p
    ensures p.State() == old(p.State()).(
      queue := old(p.queue) + Attributed(user, tracks),
      calls := old(p.calls) + AddCalls(user, tracks) + AutoStart(tracks, old(p.isPlaying)))
  {
    for i := 0 to |tracks|
      invariant p.State() == old(p.State()).(
        queue := old(p.queue) + Attributed(user, tracks[..i]),
        calls := old(p.calls) + AddCalls(user, tracks[..i]))
    {
      p.Add(user, tracks[i]);
      assert Attributed(user, tracks[..i + 1]) == Attributed(user, tracks[..i]) + [tracks[i].(requester := user)];
      assert AddCalls(user, tracks[..i + 1]) == AddCalls(user, tracks[..i]) + [PlayerCall.Add(tracks[i].(requester := user))];
    }
    assert tracks[..|tracks|] == tracks;
    if !p.isPlaying && tracks != [] {
      p.Play();
    }
  }

  /**
    The `match` on the load type in `play`: the reply follows the selection, a
    playlist or a single track is enqueued, and playback starts afterwards only
    when nothing is playing.
  */
  method Dispatch(p: Player, user: UserId, s: Selection) returns (m: PlayReply)
    modifies p
    ensures m == Reply(s)
    ensures p.State() == old(p.State()).(
      queue := old(p.queue) + Attributed(user, Enqueued(s)),
      calls := old(p.calls) + AddCalls(user, Enqueued(s)) + AutoStart(Enqueued(s), old(p.isPlaying)))
  {
    m := Reply(s);
    match s
    case EnqueueAll(tracks, _) =>
      EnqueueAndStart(p, user, tracks);
    case EnqueueOne(track) =>
      EnqueueAndStart(p, user, [track]);
    case _ =>
      assert Attributed(user, []) == [] && AddCalls(user, []) == [];
  }

  /**
    `play(query)`. The bot joins the user's channel first (a missing permission
    ends the command). The command then insists that the guild's voice client
    names the user's channel, which fails after a move because the client keeps
    its old channel; the error is the reply and nothing is enqueued. A query that
    is not a link becomes a YouTube search; the node's answer is sorted by
    `Select`; a playlist enqueues all its tracks in order, a single track
    enqueues that track, a search only offers its choices; playback is started
    after enqueueing only when nothing is playing.
  */
  method Play(v: VoiceClient, p: Player, user: UserId, userChannel: ChannelId, canConnect: bool,
              query: string, node: string -> Option<LoadResult>) returns (m: PlayReply)
    modifies v, p
    ensures !canConnect ==> m == JoinRefused && v.State() == old(v.State()) && p.State() == old(p.State())
    ensures canConnect ==> v.State() == AfterJoin(old(v.State()), userChannel)
    ensures canConnect && old(v.channel).Some? && old(v.channel) != Some(userChannel) ==>
      m == WrongVoiceChannel && p.State() == old(p.State())
    ensures canConnect && (old(v.channel).None? || old(v.channel) == Some(userChannel)) ==>
      m == Reply(Select(node(NormaliseQuery(query))))
    ensures canConnect && (old(v.channel).None? || old(v.channel) == Some(userChannel)) ==>
      var tracks := Enqueued(Select(node(NormaliseQuery(query))));
      p.State() == old(p.State()).(
        queue := old(p.queue) + Attributed(user, tracks),
        calls := old(p.calls) + AddCalls(user, tracks) + AutoStart(tracks, old(p.isPlaying)))
  {
    var joined := Join(v, userChannel, canConnect);
    if joined == MissingPermissions {
      return JoinRefused;
    }
    if v.channel != Some(userChannel) {
      return WrongVoiceChannel;
    }
    m := Dispatch(p, user, Select(node(NormaliseQuery(query))));
  }

  /** The callback of a search-result button: enqueue the chosen track, start if idle. */
  method ChooseResult(p: Player, user: UserId, track: Track) returns (m: PlayReply)
    modifies p
    ensures m == TrackEnqueued(track)
    ensures p.State() == old(p.State()).(
      queue := old(p.queue) + [track.(requester := user)],
      calls := old(p.calls) + [PlayerCall.Add(track.(requester := user))] + AutoStart([track], old(p.isPlaying)))
  {
    p.Add(user, track);
    if !p.isPlaying {
      p.Play();
    }
    m := TrackEnqueued(track);
  }

  /** `stop`: tells the player to stop; the queue is left to the library. */
  method StopCommand(p: Player)
    modifies p
    ensures p.State() == old(p.State()).(calls := old(p.calls) + [PlayerCall.Stop])
  {
    p.Stop();
  }

  datatype PauseReply = Paused | NotPlaying | Resumed | NotPaused

  /** `pause`: pauses only a playing player; otherwise nothing changes. */
  method Pause(p: Player) returns (m: PauseReply)
    modifies p
    ensures old(p.isPlaying) ==>
      m == Paused && p.State() == old(p.State()).(paused := true, calls := old(p.calls) + [PlayerCall.SetPause(true)])
    ensures !old(p.isPlaying) ==> m == NotPlaying && p.State() == old(p.State())
  {
    if p.isPlaying {
      p.SetPause(true);
      return Paused;
    }
    return NotPlaying;
  }

  /** `resume`: resumes only a paused player; otherwise nothing changes. */
  method Resume(p: Player) returns (m: PauseReply)
    modifies p
    ensures old(p.paused) ==>
      m == Resumed && p.State() == old(p.State()).(paused := false, calls := old(p.calls) + [PlayerCall.SetPause(false)])
    ensures !old(p.paused) ==> m == NotPaused && p.State() == old(p.State())
  {
    if p.paused {
      p.SetPause(false);
      return Resumed;
    }
    return NotPaused;
  }

  datatype SkipReply = QueueIsEmpty | AmountTooSmall | Skipped

  /** `n` copies of the same call. */
  function Repeat(c: PlayerCall, n: nat): (r: seq<PlayerCall>)
    ensures |r| == n && forall i :: 0 <= i < n ==> r[i] == c
  {
    seq(n, _ => c)
  }

  /**
    `skip(amount)`: an empty queue is reported before the amount is checked, an
    amount below 1 is refused, and otherwise the player is told to skip exactly
    `amount` times.
  */
  method Skip(p: Player, amount: int) returns (m: SkipReply)
    modifies p
    ensures |old(p.queue)| == 0 ==> m == QueueIsEmpty && p.State() == old(p.State())
    ensures |old(p.queue)| > 0 && amount <= 0 ==> m == AmountTooSmall && p.State() == old(p.State())
    ensures |old(p.queue)| > 0 && amount > 0 ==>
      m == Skipped && p.State() == old(p.State()).(calls := old(p.calls) + Repeat(PlayerCall.Skip, amount))
  {
    if |p.queue| <= 0 {
      return QueueIsEmpty;
    }
    if amount <= 0 {
      return AmountTooSmall;
    }
    for i := 0 to amount
      invariant p.State() == old(p.State()).(calls := old(p.calls) + Repeat(PlayerCall.Skip, i))
    {
      p.Skip();
      assert Repeat(PlayerCall.Skip, i + 1) == Repeat(PlayerCall.Skip, i) + [PlayerCall.Skip];
    }
    return Skipped;
  }

  /** The name the `loop` command shows for a loop mode; any other value shows nothing. */
  function LoopLabel(mode: int): (name: string)
    ensures name != "" <==> 0 <= mode <= 2
  {
    if mode == 0 then "off"
    else if mode == 1 then "track"
    else if mode == 2 then "queue"
    else ""
  }

  /** The three modes are told apart by their labels. */
  lemma LoopLabelsDistinct(a: int, b: int)
    requires 0 <= a <= 2 && 0 <= b <= 2 && a != b
    ensures LoopLabel(a) != LoopLabel(b)
  {
  }

  /** `loop`: reports the current mode and changes nothing. */
  method ShowLoop(p: Player) returns (shown: string)
    ensures shown == LoopLabel(p.loop)
    ensures p.Valid() ==> shown in {"off", "track", "queue"}
  {
    shown := LoopLabel(p.loop);
  }

  /** `loopoff`: afterwards `loop` reports "off". */
  method LoopOff(p: Player)
    modifies p
    ensures p.State() == old(p.State()).(loop := 0, calls := old(p.calls) + [PlayerCall.SetLoop(0)])
    ensures p.Valid() && LoopLabel(p.loop) == "off"
  {
    p.SetLoop(0);
  }

  /** `looptrack`: afterwards `loop` reports "track". */
  method LoopTrack(p: Player)
    modifies p
    ensures p.State() == old(p.State()).(loop := 1, calls := old(p.calls) + [PlayerCall.SetLoop(1)])
    ensures p.Valid() && LoopLabel(p.loop) == "track"
  {
    p.SetLoop(1);
  }

  /** `loopqueue`: afterwards `loop` reports "queue". */
  method LoopQueue(p: Player)
    modifies p
    ensures p.State() == old(p.State()).(loop := 2, calls := old(p.calls) + [PlayerCall.SetLoop(2)])
    ensures p.Valid() && LoopLabel(p.loop) == "queue"
  {
    p.SetLoop(2);
  }

  /**
    The numbers `random.shuffle` draws for a list of `n` items: at step `k` it
    swaps position `n - 1 - k` with a position drawn below `n - k`.
  */
  predicate ValidDraws(n: nat, draws: seq<nat>) {
    && |draws| == (if n == 0 then 0 else n - 1)
    && forall k :: 0 <= k < |draws| ==> draws[k] < n - k
  }

  function Swap<T>(s: seq<T>, i: nat, j: nat): (r: seq<T>)
    requires i < |s| && j < |s|
    ensures |r| == |s|
    ensures r[i] == s[j] && r[j] == s[i]
    ensures forall k :: 0 <= k < |s| && k != i && k != j ==> r[k] == s[k]
  {
    s[i := s[j]][j := s[i]]
  }

  lemma SwapPermutes<T>(s: seq<T>, i: nat, j: nat)
    requires i < |s| && j < |s|
    ensures multiset(Swap(s, i, j)) == multiset(s)
  {
  }

  /** Fisher–Yates from position `i` down to 1, as `random.shuffle` performs it. */
  function ShuffleFrom<T>(s: seq<T>, draws: seq<nat>, i: nat): (r: seq<T>)
    requires i < |s| || i == 0
    requires ValidDraws(|s|, draws)
    ensures |r| == |s|
    ensures forall k :: i < k < |s| ==> r[k] == s[k]
    decreases i
  {
    if i == 0 then s else ShuffleFrom(Swap(s, i, draws[|s| - 1 - i]), draws, i - 1)
  }

  /**
    `random.shuffle(s)` for the draws: the last position receives the item at the
    first draw and no later exchange touches it.
  */
  function Shuffled<T>(s: seq<T>, draws: seq<nat>): (r: seq<T>)
    requires ValidDraws(|s|, draws)
    ensures |r| == |s|
    ensures |s| >= 2 ==> r[|s| - 1] == s[draws[0]]
  {
    if |s| < 2 then s
    else
      var first := Swap(s, |s| - 1, draws[0]);
      assert ShuffleFrom(s, draws, |s| - 1) == ShuffleFrom(first, draws, |s| - 2);
      ShuffleFrom(s, draws, |s| - 1)
  }

  /** Whatever the draws, shuffling only reorders the queue. */
  lemma {:induction false} ShuffleFromPermutes<T>(s: seq<T>, draws: seq<nat>, i: nat)
    requires i < |s| || i == 0
    requires ValidDraws(|s|, draws)
    ensures |ShuffleFrom(s, draws, i)| == |s|
    ensures multiset(ShuffleFrom(s, draws, i)) == multiset(s)
    decreases i
  {
    if i > 0 {
      SwapPermutes(s, i, draws[|s| - 1 - i]);
      ShuffleFromPermutes(Swap(s, i, draws[|s| - 1 - i]), draws, i - 1);
    }
  }

  lemma ShuffledPermutes<T>(s: seq<T>, draws: seq<nat>)
    requires ValidDraws(|s|, draws)
    ensures |Shuffled(s, draws)| == |s| && multiset(Shuffled(s, draws)) == multiset(s)
  {
    ShuffleFromPermutes(s, draws, if |s| == 0 then 0 else |s| - 1);
  }

  /**
    `shuffle`: `random.shuffle(player.queue)` in place, with its random draws
    given as `draws`. Only the queue changes, and only in order.
  */
  method Shuffle(p: Player, draws: seq<nat>)
    requires ValidDraws(|p.queue|, draws)
    modifies p
    ensures p.State() == old(p.State()).(queue := Shuffled(old(p.queue), draws))
    ensures multiset(p.queue) == multiset(old(p.queue))
  {
    ghost var original := p.queue;
    var n := |p.queue|;
    var i: nat := if n == 0 then 0 else n - 1;
    while i > 0
      invariant i < n || i == 0
      invariant |p.queue| == n
      invariant ShuffleFrom(p.queue, draws, i) == Shuffled(original, draws)
      invariant p.State() == old(p.State()).(queue := p.queue)
    {
      var j := draws[n - 1 - i];
      ghost var before := p.queue;
      p.queue := Swap(p.queue, i, j);
      assert ShuffleFrom(before, draws, i) == ShuffleFrom(p.queue, draws, i - 1);
      i := i - 1;
    }
    assert ShuffleFrom(p.queue, draws, 0) == p.queue;
    ShuffledPermutes(original, draws);
  }
}
