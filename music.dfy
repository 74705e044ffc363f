/** The music cog's stateful core: the per-guild player state
    (`GuildMusicState`) and the cog (`MusicV2`) with its registry of guild
    states. Every method is proved to change the fields exactly as the
    matching function of MusicSpec says. */
module Music {
  import opened Common
  import opened MusicSong
  import opened MusicSpec

  class GuildMusicState {
    const guildId: int
    /** The asyncio.Queue's contents, head first. */
    var queue: seq<Song>
    var currentSong: Option<Song>
    var voiceClient: Option<VoiceLink>
    var textChannel: Option<int>
    /** Whether a "Now Playing" message is on display. */
    var nowPlayingMessage: bool
    var isLoopingSong: bool
    /** The volume as a whole percentage. */
    var volume: int
    /** Whether an idle-disconnect task is pending. */
    var idleDisconnectTask: bool

    function View(): GuildView
      reads this
    {
      GuildView(queue, currentSong, voiceClient, textChannel, nowPlayingMessage, isLoopingSong, volume, idleDisconnectTask)
    }

    constructor(guildId: int)
      ensures this.guildId == guildId && View() == InitialView
    {
      this.guildId := guildId;
      queue := [];
      currentSong := None;
      voiceClient := None;
      textChannel := None;
      nowPlayingMessage := false;
      isLoopingSong := false;
      volume := DefaultVolume;
      idleDisconnectTask := false;
    }

    /** `queue.put_nowait`: refused (QueueFull) when the queue holds its maximum. */
    method PutNowait(song: Song) returns (ok: bool)
      modifies this
      ensures ok <==> |old(queue)| < MaxQueueLength
      ensures View() == old(View()).(queue := if ok then old(queue) + [song] else old(queue))
    {
      ok := |queue| < MaxQueueLength;
      if ok {
        queue := queue + [song];
      }
    }

    /** `queue.get_nowait` on a non-empty queue. */
    method GetNowait() returns (song: Song)
      requires queue != []
      modifies this
      ensures song == old(queue)[0]
      ensures View() == old(View()).(queue := old(queue)[1..])
    {
      song := queue[0];
      queue := queue[1..];
    }

    /** `await queue.put` when the queue has room, so that it does not wait. */
    method Put(song: Song)
      requires |queue| < MaxQueueLength
      modifies this
      ensures View() == old(View()).(queue := old(queue) + [song])
    {
      queue := queue + [song];
    }

    /** `clear_queue`: drains the queue one item at a time. */
    method ClearQueue()
      modifies this
      ensures View() == old(View()).(queue := [])
    {
      while queue != []
        invariant View() == old(View()).(queue := queue)
        decreases |queue|
      {
        var _ := GetNowait();
      }
    }

    /** The drain loop of `remove`: `get` until the queue is empty. */
    method Drain() returns (items: seq<Song>)
      modifies this
      ensures items == old(queue)
      ensures View() == old(View()).(queue := [])
    {
      items := [];
      while queue != []
        invariant items + queue == old(queue)
        invariant View() == old(View()).(queue := queue)
        decreases |queue|
      {
        var item := GetNowait();
        items := items + [item];
      }
    }

    /** `for item in items: await queue.put(item)` into an empty queue. */
    method PutAll(items: seq<Song>)
      requires queue == [] && |items| <= MaxQueueLength
      modifies this
      ensures View() == old(View()).(queue := items)
    {
      for i := 0 to |items|
        invariant View() == old(View()).(queue := items[..i])
      {
        Put(items[i]);
        assert items[..i + 1] == items[..i] + [items[i]];
      }
    }

    /** `for item in items: put_nowait(item)` into an empty queue, stopping at
        QueueFull, which cannot happen since the items fit. */
    method PutAllNowait(items: seq<Song>)
      requires queue == [] && |items| <= MaxQueueLength
      modifies this
      ensures View() == old(View()).(queue := items)
    {
      for i := 0 to |items|
        invariant View() == old(View()).(queue := items[..i])
      {
        var ok := PutNowait(items[i]);
        if !ok {
          assert false;
        }
        assert items[..i + 1] == items[..i] + [items[i]];
      }
    }

    /** `cleanup`; `insideIdleTask` says that it runs inside the idle task. */
    method Cleanup(insideIdleTask: bool) returns (disconnected: bool, completed: bool)
      modifies this
      ensures CleanupResult(View(), disconnected, completed) == MusicSpec.Cleanup(old(View()), insideIdleTask)
    {
      ClearQueue();
      currentSong := None;
      disconnected := voiceClient.Some? && voiceClient.value.connected;
      voiceClient := None;
      var cancelsItself := false;
      if idleDisconnectTask {
        cancelsItself := insideIdleTask;
      }
      idleDisconnectTask := false;
      completed := true;
      if nowPlayingMessage {
        if cancelsItself {
          completed := false;
          return;
        }
      }
      nowPlayingMessage := false;
    }
  }

  class MusicV2 {
    var guildStates: map<int, GuildMusicState>

    /** Each registered state belongs to its key and keeps its bounds. */
    ghost predicate Valid()
      reads this, guildStates.Values
    {
      forall g :: g in guildStates ==> guildStates[g].guildId == g && WellFormed(guildStates[g].View())
    }

    /** What `_get_guild_state(g)` would see: the registered state, or a fresh one. */
    function ViewOf(g: int): GuildView
      reads this, guildStates.Values
    {
      if g in guildStates then guildStates[g].View() else InitialView
    }

    /** The state object registered for `g`, if any: all a command on `g` may change. */
    function StateOf(g: int): set<GuildMusicState>
      reads this
    {
      if g in guildStates then {guildStates[g]} else {}
    }

    /** After a command on `g`: `g` is registered, with the object it had or a
        new one, and every other entry is as it was. */
    twostate predicate KeptGuild(g: int)
      reads this
    {
      && g in guildStates
      && guildStates == old(guildStates)[g := guildStates[g]]
      && (g in old(guildStates) ==> guildStates[g] == old(guildStates[g]))
    }

    /** The registry after effect `e` on guild `g`. */
    twostate predicate Applied(g: int, e: Effect)
      reads this, guildStates.Values
    {
      match e
      case Drop => guildStates == old(guildStates) - {g}
      case Keep(v) => KeptGuild(g) && guildStates[g].View() == v
    }

    constructor()
      ensures Valid() && guildStates == map[]
    {
      guildStates := map[];
    }

    /** `_get_guild_state`: the registered state, or a new one registered now. */
    method GetGuildState(g: int) returns (s: GuildMusicState)
      requires Valid()
      modifies this
      ensures Valid() && KeptGuild(g) && s == guildStates[g] && s.guildId == g
      ensures s.View() == old(ViewOf(g))
      ensures g !in old(guildStates) ==> fresh(s)
    {
      if g !in guildStates {
        s := new GuildMusicState(g);
        guildStates := guildStates[g := s];
      } else {
        s := guildStates[g];
      }
    }

    /** `get_current_song_details`: reads the registry without creating a state. */
    function GetCurrentSongDetails(g: int): (r: Option<Song>)
      reads this, guildStates.Values
      ensures g !in guildStates ==> r.None?
      ensures g in guildStates ==> r == guildStates[g].View().current
    {
      if g in guildStates then guildStates[g].currentSong else None
    }

    // -------------------------------------------------------------------------
    // Playback
    // -------------------------------------------------------------------------

    /** `_play_next_song`. */
    method PlayNext(g: int, refetch: Refetch, starts: bool) returns (outcome: Advance)
      requires Valid()
      modifies this, StateOf(g)
      ensures Valid() && KeptGuild(g)
      ensures (guildStates[g].View(), outcome) == MusicSpec.PlayNext(old(ViewOf(g)), refetch, starts)
    {
      var s := GetGuildState(g);
      outcome := PlayNextOn(s, refetch, starts);
    }

    /** The player's end-of-track callback, which runs `_play_next_song`; the
        intro clip ends the same way. */
    method TrackEnded(g: int, refetch: Refetch, starts: bool) returns (outcome: Advance)
      requires Valid()
      modifies this, StateOf(g)
      ensures Valid() && KeptGuild(g)
      ensures (guildStates[g].View(), outcome) == MusicSpec.TrackEnded(old(ViewOf(g)), refetch, starts)
    {
      var s := GetGuildState(g);
      if s.voiceClient.Some? {
        s.voiceClient := Some(s.voiceClient.value.(playing := false));
      }
      outcome := PlayNextOn(s, refetch, starts);
    }

    /** `_play_next_song` on the state it fetched. */
    static method PlayNextOn(s: GuildMusicState, refetch: Refetch, starts: bool) returns (outcome: Advance)
      requires WellFormed(s.View())
      modifies s
      ensures (s.View(), outcome) == MusicSpec.PlayNext(old(s.View()), refetch, starts)
      ensures WellFormed(s.View())
    {
      PlayNextFrame(s.View(), refetch, starts);
      if s.voiceClient.Some? && s.voiceClient.value.playing {
        outcome := AlreadyPlaying;
      } else {
        outcome := AdvanceState(s, refetch, starts);
      }
    }

    /** The part of `_play_next_song` after its is-playing check. */
    static method AdvanceState(s: GuildMusicState, refetch: Refetch, starts: bool) returns (outcome: Advance)
      requires !Playing(s.View())
      modifies s
      ensures (s.View(), outcome) == MusicSpec.PlayNext(old(s.View()), refetch, starts)
    {
      s.idleDisconnectTask := false;
      var song: Song;
      if s.isLoopingSong && s.currentSong.Some? {
        song := s.currentSong.value;
      } else {
        if s.queue == [] {
          s.currentSong := None;
          s.idleDisconnectTask := true;
          return WentIdle;
        }
        song := s.GetNowait();
        s.currentSong := Some(song);
      }
      if s.voiceClient.None? {
        return NoVoice;
      }
      if !s.voiceClient.value.connected {
        var _, _ := s.Cleanup(false);
        return VoiceLost;
      }
      if !HasStream(song) {
        if refetch.RefetchRaised? {
          return PlaybackFailed(song);
        }
        song := song.(sourceUrl := refetch.url);
      }
      s.currentSong := Some(song);
      if !HasStream(song) {
        outcome := NoStreamUrl(song);
      } else if !starts {
        outcome := PlaybackFailed(song);
      } else {
        s.voiceClient := Some(s.voiceClient.value.(playing := true));
        if s.textChannel.Some? {
          s.nowPlayingMessage := true;
        }
        outcome := NowPlaying(song);
      }
    }

    // -------------------------------------------------------------------------
    // Commands that keep the guild's state
    // -------------------------------------------------------------------------

    /** `skip`. */
    method Skip(g: int) returns (reply: Reply)
      requires Valid()
      modifies this, StateOf(g)
      ensures Valid() && KeptGuild(g)
      ensures (guildStates[g].View(), reply) == MusicSpec.Skip(old(ViewOf(g)))
    {
      var s := GetGuildState(g);
      if s.voiceClient.None? || !s.voiceClient.value.connected {
        reply := NotPlayingSkip;
      } else if s.currentSong.None? {
        reply := NothingToSkip;
      } else {
        s.isLoopingSong := false;
        s.voiceClient := Some(s.voiceClient.value.(playing := false));
        reply := Skipped(s.currentSong.value.title);
      }
    }

    /** `loop`. */
    method Loop(g: int) returns (reply: Reply)
      requires Valid()
      modifies this, StateOf(g)
      ensures Valid() && KeptGuild(g)
      ensures (guildStates[g].View(), reply) == ToggleLoop(old(ViewOf(g)))
    {
      var s := GetGuildState(g);
      if s.currentSong.None? {
        reply := LoopNoSong;
      } else {
        s.isLoopingSong := !s.isLoopingSong;
        reply := if s.isLoopingSong then LoopEnabled(s.currentSong.value.title) else LoopDisabled;
      }
    }

    /** `volume`. */
    method Volume(g: int, percent: int) returns (reply: Reply)
      requires Valid()
      modifies this, StateOf(g)
      ensures Valid() && KeptGuild(g)
      ensures (guildStates[g].View(), reply) == SetVolume(old(ViewOf(g)), percent)
    {
      var s := GetGuildState(g);
      if !(MinVolume <= percent <= MaxVolume) {
        reply := VolumeOutOfRange;
      } else {
        s.volume := percent;
        reply := VolumeSet(percent);
      }
    }

    /** `queue`. */
    method QueueCommand(g: int) returns (reply: Reply)
      requires Valid()
      modifies this
      ensures Valid() && KeptGuild(g)
      ensures guildStates[g].View() == old(ViewOf(g))
      ensures reply == ShowQueue(old(ViewOf(g)))
    {
      var s := GetGuildState(g);
      if s.currentSong.None? && s.queue == [] {
        return QueueIsEmpty;
      }
      var shown := PyPrefix(s.queue, QueueDisplayLimit);
      reply := QueueListing(s.currentSong, shown, |s.queue| - |shown|);
    }

    /** `nowplaying`. */
    method NowPlayingCommand(g: int) returns (reply: Reply)
      requires Valid()
      modifies this
      ensures Valid() && KeptGuild(g)
      ensures guildStates[g].View() == old(ViewOf(g))
      ensures reply == NowPlayingReply(old(ViewOf(g)))
    {
      var s := GetGuildState(g);
      if s.currentSong.Some? && s.voiceClient.Some? && s.voiceClient.value.playing {
        reply := ShowNowPlaying(s.currentSong.value);
      } else {
        reply := NothingPlaying;
      }
    }

    /** `remove`. */
    method Remove(g: int, position: int) returns (reply: Reply)
      requires Valid()
      modifies this, StateOf(g)
      ensures Valid() && KeptGuild(g)
      ensures (guildStates[g].View(), reply) == RemoveSong(old(ViewOf(g)), position)
    {
      var s := GetGuildState(g);
      reply := RemoveOn(s, position);
    }

    /** `remove` on the fetched state: drain the queue into a list, then put
        back every song but the removed one. */
    static method RemoveOn(s: GuildMusicState, position: int) returns (reply: Reply)
      requires WellFormed(s.View())
      modifies s
      ensures (s.View(), reply) == RemoveSong(old(s.View()), position)
      ensures WellFormed(s.View())
    {
      RemoveAtProperties(s.queue, position);
      if s.queue == [] {
        return RemoveFromEmpty;
      }
      if position <= 0 {
        return PositionTooLow;
      }
      var temp := s.Drain();
      if position > |temp| {
        s.PutAll(temp);
        return PositionTooHigh;
      }
      var removed := temp[position - 1];
      temp := temp[..position - 1] + temp[position..];
      s.PutAllNowait(temp);
      reply := RemovedSong(removed);
    }

    // -------------------------------------------------------------------------
    // Commands that remove the guild's state
    // -------------------------------------------------------------------------

    /** `stop`. */
    method Stop(g: int) returns (reply: Reply)
      requires Valid()
      modifies this, StateOf(g)
      ensures Valid()
      ensures Applied(g, StopOn(old(ViewOf(g))).0) && reply == StopOn(old(ViewOf(g))).1
    {
      var s := GetGuildState(g);
      if s.voiceClient.Some? {
        var _, _ := s.Cleanup(false);
        guildStates := guildStates - {g};
        reply := Stopped;
      } else {
        reply := NotInVoiceStop;
      }
    }

    /** `leave`. */
    method Leave(g: int) returns (reply: Reply)
      requires Valid()
      modifies this, StateOf(g)
      ensures Valid()
      ensures Applied(g, LeaveOn(old(ViewOf(g))).0) && reply == LeaveOn(old(ViewOf(g))).1
    {
      var s := GetGuildState(g);
      if s.voiceClient.Some? && s.voiceClient.value.connected {
        var _, _ := s.Cleanup(false);
        guildStates := guildStates - {g};
        reply := LeftVoice;
      } else {
        reply := NotInVoice;
      }
    }

    /** `on_voice_state_update`: when the bot itself was disconnected from a
        channel of guild `beforeGuild`, that guild's state is cleaned up and
        forgotten; any other update changes nothing. */
    method OnVoiceStateUpdate(isBot: bool, beforeGuild: Option<int>, afterInChannel: bool)
      requires Valid()
      modifies this, if beforeGuild.Some? then StateOf(beforeGuild.value) else {}
      ensures Valid()
      ensures BotDisconnected(isBot, beforeGuild, afterInChannel) ==> guildStates == old(guildStates) - {beforeGuild.value}
      ensures !BotDisconnected(isBot, beforeGuild, afterInChannel) ==> guildStates == old(guildStates)
    {
      if isBot && beforeGuild.Some? && !afterInChannel {
        var g := beforeGuild.value;
        var s := GetGuildState(g);
        var _, _ := s.Cleanup(false);
        guildStates := guildStates - {g};
      }
    }

    /** The idle-disconnect task of guild `g` fires after its sleep. The timer
        first marks itself as no longer pending, so that the cleanup it runs
        cannot cancel it (MusicSpec.IdleTimeoutAsWritten is the code without
        that step). */
    method IdleTimeout(g: int) returns (disconnected: bool)
      requires Valid()
      modifies this, StateOf(g)
      ensures Valid()
      ensures Applied(g, MusicSpec.IdleTimeout(old(ViewOf(g))).0)
      ensures disconnected == MusicSpec.IdleTimeout(old(ViewOf(g))).1
    {
      var s := GetGuildState(g);
      s.idleDisconnectTask := false;
      disconnected := s.voiceClient.Some? && s.voiceClient.value.connected && !s.voiceClient.value.playing && s.queue == [];
      if disconnected {
        var _, completed := s.Cleanup(true);
        assert completed;
        guildStates := guildStates - {g};
      }
    }

    // -------------------------------------------------------------------------
    // Joining and queueing
    // -------------------------------------------------------------------------

    /** `_ensure_voice_channel`. */
    method EnsureVoiceChannel(g: int, userChannel: Option<int>, textChannel: int,
                              connect: ConnectOutcome, introAvailable: bool)
      returns (ok: bool, replies: seq<Reply>)
      requires Valid()
      modifies this, StateOf(g)
      ensures Valid() && KeptGuild(g)
      ensures (guildStates[g].View(), ok, replies) == EnsureVoice(old(ViewOf(g)), userChannel, textChannel, connect, introAvailable)
    {
      var s := GetGuildState(g);
      ok, replies := EnsureVoiceOn(s, userChannel, textChannel, connect, introAvailable);
    }

    /** `_ensure_voice_channel` (with `_play_intro_if_available`) on the fetched state. */
    static method EnsureVoiceOn(s: GuildMusicState, userChannel: Option<int>, textChannel: int,
                                connect: ConnectOutcome, introAvailable: bool)
      returns (ok: bool, replies: seq<Reply>)
      requires WellFormed(s.View())
      modifies s
      ensures (s.View(), ok, replies) == EnsureVoice(old(s.View()), userChannel, textChannel, connect, introAvailable)
      ensures WellFormed(s.View())
    {
      EnsureVoiceProperties(s.View(), userChannel, textChannel, connect, introAvailable);
      if userChannel.None? {
        ok, replies := false, [UserNotInVoice];
      } else if s.voiceClient.None? || !s.voiceClient.value.connected {
        match connect
        case ConnectTimedOut =>
          ok, replies := false, [ConnectTimeout];
        case ConnectError =>
          ok, replies := false, [ConnectFailed];
        case ConnectOk =>
          s.voiceClient := Some(VoiceLink(userChannel.value, true, false));
          s.textChannel := Some(textChannel);
          if introAvailable && !s.voiceClient.value.playing {
            s.voiceClient := Some(s.voiceClient.value.(playing := true));
          }
          ok, replies := true, [];
      } else if s.voiceClient.value.channel != userChannel.value {
        ok, replies := false, [BotInOtherChannel];
      } else {
        ok, replies := true, [];
      }
    }

    /** `join`. */
    method JoinCommand(g: int, userChannel: Option<int>, textChannel: int,
                       connect: ConnectOutcome, introAvailable: bool) returns (replies: seq<Reply>)
      requires Valid()
      modifies this, StateOf(g)
      ensures Valid() && KeptGuild(g)
      ensures (guildStates[g].View(), replies) == Join(old(ViewOf(g)), userChannel, textChannel, connect, introAvailable)
    {
      var ok;
      ok, replies := EnsureVoiceChannel(g, userChannel, textChannel, connect, introAvailable);
      if ok {
        replies := [JoinedVoice];
      }
    }

    /** `_add_to_queue`. */
    method AddToQueue(g: int, item: QueueItem, refetch: Refetch, starts: bool)
      returns (replies: seq<Reply>, advance: Option<Advance>)
      requires Valid()
      modifies this, StateOf(g)
      ensures Valid() && KeptGuild(g)
      ensures (guildStates[g].View(), replies, advance) == MusicSpec.AddToQueue(old(ViewOf(g)), item, refetch, starts)
    {
      var s := GetGuildState(g);
      replies, advance := AddToQueueOn(s, item, refetch, starts);
    }

    /** `_add_to_queue` on the fetched state: the puts, then `_play_next_song`
        when something was added and nothing plays. */
    static method AddToQueueOn(s: GuildMusicState, item: QueueItem, refetch: Refetch, starts: bool)
      returns (replies: seq<Reply>, advance: Option<Advance>)
      requires WellFormed(s.View())
      modifies s
      ensures (s.View(), replies, advance) == MusicSpec.AddToQueue(old(s.View()), item, refetch, starts)
      ensures WellFormed(s.View())
    {
      var added;
      added, replies := EnqueueOn(s, item);
      if added > 0 && !(s.voiceClient.Some? && s.voiceClient.value.playing) {
        var a := PlayNextOn(s, refetch, starts);
        advance := Some(a);
      } else {
        advance := None;
      }
    }

    /** The puts of `_add_to_queue`, with the replies they send. */
    static method EnqueueOn(s: GuildMusicState, item: QueueItem) returns (added: nat, replies: seq<Reply>)
      requires WellFormed(s.View())
      modifies s
      ensures var (q', n, r) := Enqueue(old(s.queue), item);
              s.View() == old(s.View()).(queue := q') && added == n && replies == r
      ensures WellFormed(s.View())
    {
      EnqueueProperties(s.queue, item);
      match item
      case OneTrack(song) =>
        var ok := s.PutNowait(song);
        if ok {
          replies := [SongAdded(song)];
          added := 1;
        } else {
          replies := [QueueFullSingle(song)];
          added := 0;
        }
      case ManyTracks(songs) =>
        added, replies := EnqueueMany(s, songs);
    }

    /** The playlist branch of `_add_to_queue`: `put_nowait` of each song until
        the queue is full. */
    static method EnqueueMany(s: GuildMusicState, songs: seq<Song>) returns (added: nat, replies: seq<Reply>)
      modifies s
      ensures var (q', n, r) := Enqueue(old(s.queue), ManyTracks(songs));
              s.View() == old(s.View()).(queue := q') && added == n && replies == r
    {
      added := 0;
      replies := [];
      var i := 0;
      while i < |songs|
        invariant 0 <= i <= |songs| && added == i && replies == []
        invariant s.View() == old(s.View()).(queue := s.queue)
        invariant var rest := EnqueueEach(s.queue, songs[i..], MaxQueueLength);
                  EnqueueEach(old(s.queue), songs, MaxQueueLength) == (rest.0, rest.1 + i)
        decreases |songs| - i
      {
        var ok := s.PutNowait(songs[i]);
        if !ok {
          replies := [PlaylistQueueFull(added)];
          break;
        }
        assert songs[i..][0] == songs[i] && songs[i..][1..] == songs[i + 1..];
        added := added + 1;
        i := i + 1;
      }
      assert i == |songs| ==> songs[i..] == [];
      if added > 0 && added == |songs| {
        replies := replies + [PlaylistAdded(added)];
      } else if added == 0 {
        replies := replies + [PlaylistNothingAdded];
      }
    }

    /** `play`: remember the text channel, make sure of the voice connection,
        resolve the query and queue what it found. */
    method PlayCommand(g: int, userChannel: Option<int>, textChannel: int,
                       connect: ConnectOutcome, introAvailable: bool,
                       query: string, requester: Option<int>, extraction: Extraction,
                       refetch: Refetch, starts: bool) returns (replies: seq<Reply>, advance: Option<Advance>)
      requires Valid()
      modifies this, StateOf(g)
      ensures Valid() && KeptGuild(g)
      ensures (guildStates[g].View(), replies, advance)
              == MusicSpec.PlayCommand(old(ViewOf(g)), userChannel, textChannel, connect,
                                       introAvailable, query, requester, extraction, refetch, starts)
    {
      var s := GetGuildState(g);
      replies, advance := PlayOn(s, userChannel, textChannel, connect, introAvailable, query, requester, extraction, refetch, starts);
    }

    /** `play` on the fetched state. */
    static method PlayOn(s: GuildMusicState, userChannel: Option<int>, textChannel: int,
                         connect: ConnectOutcome, introAvailable: bool,
                         query: string, requester: Option<int>, extraction: Extraction,
                         refetch: Refetch, starts: bool) returns (replies: seq<Reply>, advance: Option<Advance>)
      requires WellFormed(s.View())
      modifies s
      ensures (s.View(), replies, advance)
              == MusicSpec.PlayCommand(old(s.View()), userChannel, textChannel, connect,
                                       introAvailable, query, requester, extraction, refetch, starts)
      ensures WellFormed(s.View())
    {
      s.textChannel := Some(textChannel);
      var ok;
      ok, replies := EnsureVoiceOn(s, userChannel, textChannel, connect, introAvailable);
      advance := None;
      if ok {
        ghost var v1 := s.View();
        var resolution := ShapeResolution(query, requester, extraction, AllowPlaylists, MaxPlaylistLength, MaxSongDurationSeconds);
        replies, advance := QueueResolvedOn(s, resolution, refetch, starts);
        assert (s.View(), replies, advance) == QueueResolved(v1, resolution, refetch, starts);
      }
    }

    /** The end of `play` on the fetched state. */
    static method QueueResolvedOn(s: GuildMusicState, resolution: Result<Resolved, ResolveError>, refetch: Refetch, starts: bool)
      returns (replies: seq<Reply>, advance: Option<Advance>)
      requires WellFormed(s.View())
      modifies s
      ensures (s.View(), replies, advance) == QueueResolved(old(s.View()), resolution, refetch, starts)
      ensures WellFormed(s.View())
    {
      match resolution
      case Err(e) =>
        replies, advance := [ResolveFailed(e)], None;
      case Ok(NothingFound) =>
        replies, advance := [NoSongFound], None;
      case Ok(OneSong(song)) =>
        replies, advance := AddToQueueOn(s, OneTrack(song), refetch, starts);
      case Ok(SongList(songs)) =>
        replies, advance := AddToQueueOn(s, ManyTracks(songs), refetch, starts);
    }
  }
}
