/** The music cog's per-guild player state as a value, and the effect of each
    operation of the cog on it. The classes in module Music are proved to
    change their fields exactly as these functions say. */
module MusicSpec {
  import opened Common
  import opened MusicSong

  const MaxQueueLength: nat := 50
  const QueueDisplayLimit: nat := 10
  const MinVolume: int := 0
  const MaxVolume: int := 200
  /** The default volume 0.5, kept as a whole percentage. */
  const DefaultVolume: int := 50

  /** The bot's voice connection in a guild. */
  datatype VoiceLink = VoiceLink(channel: int, connected: bool, playing: bool)

  /** Every field of a GuildMusicState the cog reads or writes.
      `nowPlaying` records whether a "Now Playing" message is on display and
      `idleTimer` whether an idle-disconnect task is pending. */
  datatype GuildView = GuildView(
    queue: seq<Song>,
    current: Option<Song>,
    voice: Option<VoiceLink>,
    textChannel: Option<int>,
    nowPlaying: bool,
    looping: bool,
    volume: int,
    idleTimer: bool)

  const InitialView: GuildView := GuildView([], None, None, None, false, false, DefaultVolume, false)

  predicate Playing(v: GuildView) { v.voice.Some? && v.voice.value.playing }

  predicate Connected(v: GuildView) { v.voice.Some? && v.voice.value.connected }

  /** What asyncio.Queue(maxsize) and the volume range keep true. */
  predicate WellFormed(v: GuildView) {
    |v.queue| <= MaxQueueLength && MinVolume <= v.volume <= MaxVolume
  }

  function Min(a: int, b: int): int { if a < b then a else b }

  // ---------------------------------------------------------------------------
  // The bounded queue
  // ---------------------------------------------------------------------------

  /** `put_nowait` of every item in turn until the queue is full, as the
      playlist branch of `_add_to_queue` does; returns the queue and the
      number of items added. */
  function EnqueueEach<T>(q: seq<T>, items: seq<T>, cap: nat): (seq<T>, nat)
    decreases |items|
  {
    if items == [] || |q| >= cap then (q, 0)
    else
      var rest := EnqueueEach(q + [items[0]], items[1..], cap);
      (rest.0, rest.1 + 1)
  }

  /** Items are appended in order, as many as fit and no more. */
  lemma {:induction false} EnqueueEachClosedForm<T>(q: seq<T>, items: seq<T>, cap: nat)
    requires |q| <= cap
    ensures var n := Min(|items|, cap - |q|);
            EnqueueEach(q, items, cap) == (q + items[..n], n)
    decreases |items|
  {
    if items != [] && |q| < cap {
      EnqueueEachClosedForm(q + [items[0]], items[1..], cap);
      var n := Min(|items|, cap - |q|);
      assert n - 1 == Min(|items[1..]|, cap - |q + [items[0]]|);
      assert q + [items[0]] + items[1..][..n - 1] == q + items[..n];
      var rest := EnqueueEach(q + [items[0]], items[1..], cap);
      assert rest == (q + items[..n], n - 1);
      assert EnqueueEach(q, items, cap) == (rest.0, rest.1 + 1);
    } else {
      assert Min(|items|, cap - |q|) == 0;
      assert q + items[..0] == q;
    }
  }

  /** Removing the k-th (1-based) queued song, as `remove` does. */
  datatype RemoveError = QueueWasEmpty | TooLow | TooHigh

  function RemoveAt<T>(q: seq<T>, position: int): (r: Result<(seq<T>, T), RemoveError>)
  {
    if q == [] then Err(QueueWasEmpty)
    else if position <= 0 then Err(TooLow)
    else if position > |q| then Err(TooHigh)
    else Ok((q[..position - 1] + q[position..], q[position - 1]))
  }

  /** The error cases are exactly the empty queue and the out-of-range
      positions; on success the song at that position is the one removed and
      every other song keeps its relative order. */
  lemma RemoveAtProperties<T>(q: seq<T>, position: int)
    ensures RemoveAt(q, position).Ok? <==> 1 <= position <= |q|
    ensures RemoveAt(q, position) == Err(QueueWasEmpty) <==> q == []
    ensures RemoveAt(q, position) == Err(TooLow) <==> q != [] && position <= 0
    ensures RemoveAt(q, position) == Err(TooHigh) <==> q != [] && position > |q|
    ensures RemoveAt(q, position).Ok? ==>
              var (rest, removed) := RemoveAt(q, position).value;
              && removed == q[position - 1]
              && |rest| == |q| - 1
              && (forall i :: 0 <= i < position - 1 ==> rest[i] == q[i])
              && (forall i :: position - 1 <= i < |rest| ==> rest[i] == q[i + 1])
              && multiset(rest) + multiset{removed} == multiset(q)
  {
    if 1 <= position <= |q| {
      assert q == q[..position - 1] + [q[position - 1]] + q[position..];
    }
  }

  // ---------------------------------------------------------------------------
  // GuildMusicState.cleanup
  // ---------------------------------------------------------------------------

  datatype CleanupResult = CleanupResult(view: GuildView, disconnected: bool, completed: bool)

  /** `cleanup`: the queue is drained, the current song dropped, a connected
      voice client disconnected and forgotten, a pending idle task cancelled
      and the "Now Playing" message deleted. When cleanup runs inside the idle
      task that is still pending, cancelling that task cancels cleanup itself
      at its next suspension point, the message deletion: it then stops there
      (`completed` false) with the message left in place. */
  function Cleanup(v: GuildView, insideIdleTask: bool): CleanupResult {
    var cancelsItself := insideIdleTask && v.idleTimer;
    var base := v.(queue := [], current := None, voice := None, idleTimer := false);
    if v.nowPlaying && cancelsItself then CleanupResult(base, Connected(v), false)
    else CleanupResult(base.(nowPlaying := false), Connected(v), true)
  }

  lemma CleanupProperties(v: GuildView, insideIdleTask: bool)
    ensures var r := Cleanup(v, insideIdleTask);
            && r.view.queue == [] && r.view.current.None? && r.view.voice.None? && !r.view.idleTimer
            && r.view.textChannel == v.textChannel && r.view.looping == v.looping && r.view.volume == v.volume
            && (r.disconnected <==> Connected(v))
            && (r.completed <==> !(insideIdleTask && v.idleTimer && v.nowPlaying))
            && (r.completed ==> !r.view.nowPlaying)
            && (WellFormed(v) ==> WellFormed(r.view))
  {
  }

  // ---------------------------------------------------------------------------
  // _play_next_song
  // ---------------------------------------------------------------------------

  /** What re-resolving a song without a stream URL gave: the `url` field of
      the answer (None when absent or when the answer was empty), or an
      exception. */
  datatype Refetch = RefetchUrl(url: Option<string>) | RefetchRaised

  /** How one call of `_play_next_song` ended. `NoStreamUrl` and
      `PlaybackFailed` schedule another call. */
  datatype Advance =
    | AlreadyPlaying
    | WentIdle
    | NoVoice
    | VoiceLost
    | NoStreamUrl(song: Song)
    | PlaybackFailed(song: Song)
    | NowPlaying(song: Song)

  predicate SchedulesRetry(a: Advance) { a.NoStreamUrl? || a.PlaybackFailed? }

  /** `_play_next_song` on one guild. `refetch` is the resolver's answer when
      the song has no stream URL; `starts` says whether creating the audio
      source and starting the player succeeded. */
  function PlayNext(v: GuildView, refetch: Refetch, starts: bool): (GuildView, Advance) {
    if Playing(v) then (v, AlreadyPlaying)
    else
      var v1 := v.(idleTimer := false);
      if !(v.looping && v.current.Some?) && v.queue == [] then
        (v1.(current := None, idleTimer := true), WentIdle)
      else
        var song := if v.looping && v.current.Some? then v.current.value else v.queue[0];
        var v2 := if v.looping && v.current.Some? then v1 else v1.(queue := v.queue[1..], current := Some(song));
        if v2.voice.None? then (v2, NoVoice)
        else if !v2.voice.value.connected then (Cleanup(v2, false).view, VoiceLost)
        else if !HasStream(song) && refetch.RefetchRaised? then (v2, PlaybackFailed(song))
        else
          var song' := if HasStream(song) then song else song.(sourceUrl := refetch.url);
          var v3 := v2.(current := Some(song'));
          if !HasStream(song') then (v3, NoStreamUrl(song'))
          else if !starts then (v3, PlaybackFailed(song'))
          else
            (v3.(voice := Some(v3.voice.value.(playing := true)),
                 nowPlaying := v3.nowPlaying || v3.textChannel.Some?),
             NowPlaying(song'))
  }

  /** The song a started stream plays: the queued song with the stream URL
      filled in when it had none. */
  function WithStream(s: Song, url: string): Song {
    if HasStream(s) then s else s.(sourceUrl := Some(url))
  }

  /** The song `_play_next_song` keeps as current once it has looked for a
      stream URL: unchanged when it had one or the re-extraction raised,
      otherwise with the re-extracted URL (possibly missing) filled in. */
  function Refetched(s: Song, refetch: Refetch): Song {
    if HasStream(s) || refetch.RefetchRaised? then s else s.(sourceUrl := refetch.url)
  }

  /** When nothing is playing and song looping does not apply, the head of
      the queue becomes the current song (with any re-extracted URL) and
      leaves the queue, whatever the re-extraction and the player do; it is
      started iff it then has a stream URL and the player starts. When the
      queue is empty the cog goes idle and arms the idle timer. */
  lemma PlayNextTakesHead(v: GuildView, refetch: Refetch, starts: bool)
    requires !Playing(v) && Connected(v) && !(v.looping && v.current.Some?)
    ensures var (v', a) := PlayNext(v, refetch, starts);
            && (v.queue == [] <==> a == WentIdle)
            && (v.queue == [] ==> v'.current.None? && v'.idleTimer && v'.queue == [])
            && (v.queue != [] ==>
                  var song := Refetched(v.queue[0], refetch);
                  && v'.queue == v.queue[1..]
                  && v'.current == Some(song)
                  && (HasStream(v.queue[0]) ==> song == v.queue[0])
                  && !v'.idleTimer
                  && (Playing(v') <==> HasStream(song) && starts)
                  && (a == NowPlaying(song) <==> HasStream(song) && starts)
                  && (!HasStream(v.queue[0]) && refetch.RefetchRaised? ==> a == PlaybackFailed(song))
                  && (refetch.RefetchUrl? && !HasStream(song) ==> a == NoStreamUrl(song))
                  && (HasStream(song) && !starts ==> a == PlaybackFailed(song)))
  {
  }

  /** With song looping on, the current song is replayed and the queue is
      left alone. */
  lemma PlayNextLoops(v: GuildView, refetch: Refetch, starts: bool)
    requires !Playing(v) && v.looping && v.current.Some?
    ensures var (v', a) := PlayNext(v, refetch, starts);
            && (Connected(v) ==> v'.queue == v.queue)
            && (Connected(v) && HasStream(v.current.value) && starts ==> a == NowPlaying(v.current.value))
  {
  }

  /** A call while playing changes nothing; any other call cancels a pending
      idle timer unless it is the one that arms a new one; the queue only
      loses its head or is emptied; the bounds are kept. */
  lemma PlayNextFrame(v: GuildView, refetch: Refetch, starts: bool)
    ensures var (v', a) := PlayNext(v, refetch, starts);
            && (Playing(v) <==> a == AlreadyPlaying)
            && (Playing(v) ==> v' == v)
            && (!Playing(v) ==> (v'.idleTimer <==> a == WentIdle))
            && (v'.queue == v.queue || v'.queue == [] || (v.queue != [] && v'.queue == v.queue[1..]))
            && (WellFormed(v) ==> WellFormed(v'))
            && v'.volume == v.volume && v'.looping == v.looping
  {
  }

  /** The player finished its track (naturally or because it was stopped). */
  function EndOfTrack(v: GuildView): GuildView {
    if v.voice.Some? then v.(voice := Some(v.voice.value.(playing := false))) else v
  }

  /** `k` end-of-track events in a row, each followed by `_play_next_song`
      whose stream starts; returns the state and the songs played. */
  function PlayTracks(v: GuildView, k: nat, url: string): (GuildView, seq<Song>)
    decreases k
  {
    if k == 0 then (v, [])
    else
      var (v1, a) := PlayNext(EndOfTrack(v), RefetchUrl(Some(url)), true);
      var (v2, played) := PlayTracks(v1, k - 1, url);
      (v2, (if a.NowPlaying? then [a.song] else []) + played)
  }

  /** First in, first out: without song looping, k track ends on a connected
      player play the first k queued songs in the order they were queued. */
  lemma {:induction false} PlayTracksFifo(v: GuildView, k: nat, url: string)
    requires url != []
    requires Connected(v) && !v.looping && k <= |v.queue|
    ensures var (v', played) := PlayTracks(v, k, url);
            && |played| == k
            && (forall i :: 0 <= i < k ==> played[i] == WithStream(v.queue[i], url))
            && v'.queue == v.queue[k..]
            && Connected(v')
    decreases k
  {
    if k > 0 {
      var e := EndOfTrack(v);
      var (v1, a) := PlayNext(e, RefetchUrl(Some(url)), true);
      assert a == NowPlaying(WithStream(v.queue[0], url)) && v1.queue == v.queue[1..]
             && Connected(v1) && !v1.looping by {
        PlayNextTakesHead(e, RefetchUrl(Some(url)), true);
      }
      PlayTracksFifo(v1, k - 1, url);
      assert v1.queue[k - 1..] == v.queue[k..];
      var (v2, rest) := PlayTracks(v1, k - 1, url);
      forall i | 1 <= i < k
        ensures rest[i - 1] == WithStream(v.queue[i], url)
      {
        assert v1.queue[i - 1] == v.queue[i];
      }
    }
  }

  /** With song looping on and a current song, every track end replays it and
      the queue never moves. */
  lemma {:induction false} PlayTracksLoop(v: GuildView, k: nat, url: string)
    requires Connected(v) && v.looping && v.current.Some? && HasStream(v.current.value)
    ensures var (v', played) := PlayTracks(v, k, url);
            && v'.queue == v.queue && v'.current == v.current
            && |played| == k
            && (forall i :: 0 <= i < k ==> played[i] == v.current.value)
    decreases k
  {
    if k > 0 {
      var e := EndOfTrack(v);
      var (v1, a) := PlayNext(e, RefetchUrl(Some(url)), true);
      PlayTracksLoop(v1, k - 1, url);
    }
  }

  // ---------------------------------------------------------------------------
  // Commands on one guild
  // ---------------------------------------------------------------------------

  /** The replies the cog sends, by meaning rather than wording. */
  datatype Reply =
    | UserNotInVoice | ConnectTimeout | ConnectFailed | BotInOtherChannel | JoinedVoice
    | ResolveFailed(error: ResolveError) | NoSongFound
    | SongAdded(song: Song) | QueueFullSingle(song: Song)
    | PlaylistAdded(count: nat) | PlaylistQueueFull(count: nat) | PlaylistNothingAdded
    | NotPlayingSkip | NothingToSkip | Skipped(title: string)
    | Stopped | NotInVoiceStop | LeftVoice | NotInVoice
    | QueueIsEmpty | QueueListing(current: Option<Song>, upNext: seq<Song>, more: nat)
    | NothingPlaying | ShowNowPlaying(song: Song)
    | LoopNoSong | LoopEnabled(title: string) | LoopDisabled
    | RemoveFromEmpty | PositionTooLow | PositionTooHigh | RemovedSong(song: Song)
    | VolumeOutOfRange | VolumeSet(percent: int)

  datatype ConnectOutcome = ConnectOk | ConnectTimedOut | ConnectError

  /** `_ensure_voice_channel` (with `_play_intro_if_available`): the user must
      be in a voice channel; a missing or disconnected client connects to the
      user's channel (and starts the intro when its file exists and nothing
      plays); a connected client must be in the user's channel. */
  function EnsureVoice(v: GuildView, userChannel: Option<int>, textChannel: int,
                       connect: ConnectOutcome, introAvailable: bool): (GuildView, bool, seq<Reply>)
  {
    if userChannel.None? then (v, false, [UserNotInVoice])
    else if !Connected(v) then
      match connect
      case ConnectTimedOut => (v, false, [ConnectTimeout])
      case ConnectError => (v, false, [ConnectFailed])
      case ConnectOk =>
        (v.(voice := Some(VoiceLink(userChannel.value, true, introAvailable)),
            textChannel := Some(textChannel)), true, [])
    else if v.voice.value.channel != userChannel.value then (v, false, [BotInOtherChannel])
    else (v, true, [])
  }

  lemma EnsureVoiceProperties(v: GuildView, userChannel: Option<int>, textChannel: int,
                              connect: ConnectOutcome, introAvailable: bool)
    ensures var (v', ok, replies) := EnsureVoice(v, userChannel, textChannel, connect, introAvailable);
            && (ok <==> userChannel.Some? &&
                        (if Connected(v) then v.voice.value.channel == userChannel.value else connect == ConnectOk))
            && (ok ==> replies == [] && Connected(v') && v'.voice.value.channel == userChannel.value)
            && (!ok ==> v' == v && |replies| == 1)
            && v'.queue == v.queue && v'.current == v.current && v'.volume == v.volume
            && (WellFormed(v) ==> WellFormed(v'))
  {
  }

  /** The item `_add_to_queue` receives. */
  datatype QueueItem = OneTrack(song: Song) | ManyTracks(songs: seq<Song>)

  /** `_add_to_queue` before it may start playback: the queue after the puts,
      the number added and the replies. */
  function Enqueue(q: seq<Song>, item: QueueItem): (seq<Song>, nat, seq<Reply>) {
    match item
    case OneTrack(s) =>
      if |q| < MaxQueueLength then (q + [s], 1, [SongAdded(s)]) else (q, 0, [QueueFullSingle(s)])
    case ManyTracks(songs) =>
      var (q', n) := EnqueueEach(q, songs, MaxQueueLength);
      var full := if n < |songs| then [PlaylistQueueFull(n)] else [];
      var summary := if n > 0 && n == |songs| then [PlaylistAdded(n)] else if n > 0 then [] else [PlaylistNothingAdded];
      (q', n, full + summary)
  }

  /** `_add_to_queue`: the puts, then `_play_next_song` when something was
      added and nothing plays. */
  function AddToQueue(v: GuildView, item: QueueItem, refetch: Refetch, starts: bool): (GuildView, seq<Reply>, Option<Advance>) {
    var (q', n, replies) := Enqueue(v.queue, item);
    var v1 := v.(queue := q');
    if n > 0 && !Playing(v1) then
      var (v2, a) := PlayNext(v1, refetch, starts);
      (v2, replies, Some(a))
    else (v1, replies, None)
  }

  function ItemSongs(item: QueueItem): seq<Song> {
    match item
    case OneTrack(s) => [s]
    case ManyTracks(songs) => songs
  }

  /** The queue never grows beyond its bound; a playlist adds as many songs as
      fit, in playlist order; the queue-full reply is sent exactly when songs
      did not fit, and the queue-full reply for a single song exactly when
      the queue was full. */
  lemma EnqueueProperties(q: seq<Song>, item: QueueItem)
    requires |q| <= MaxQueueLength
    ensures var (q', n, replies) := Enqueue(q, item);
            && |q'| <= MaxQueueLength
            && n <= |ItemSongs(item)|
            && q' == q + ItemSongs(item)[..n]
            && (item.OneTrack? ==> (n == 1 <==> |q| < MaxQueueLength) && n <= 1)
            && (item.ManyTracks? ==> n == Min(|item.songs|, MaxQueueLength - |q|))
            && (item.ManyTracks? ==> (PlaylistQueueFull(n) in replies <==> n < |item.songs|))
            && (item.ManyTracks? ==> (PlaylistAdded(n) in replies <==> 0 < n == |item.songs|))
  {
    match item
    case OneTrack(s) =>
      if |q| < MaxQueueLength { assert [s][..1] == [s]; } else { assert [s][..0] == []; }
    case ManyTracks(songs) =>
      EnqueueEachClosedForm(q, songs, MaxQueueLength);
  }

  /** `join`: ensure the voice connection and confirm. */
  function Join(v: GuildView, userChannel: Option<int>, textChannel: int,
                connect: ConnectOutcome, introAvailable: bool): (GuildView, seq<Reply>)
  {
    var (v1, ok, replies) := EnsureVoice(v, userChannel, textChannel, connect, introAvailable);
    (v1, if ok then [JoinedVoice] else replies)
  }

  /** `play`: record the text channel, ensure the voice connection, resolve
      the query and hand the song or playlist to `_add_to_queue`. */
  function PlayCommand(v: GuildView, userChannel: Option<int>, textChannel: int,
                       connect: ConnectOutcome, introAvailable: bool,
                       query: string, requester: Option<int>, extraction: Extraction,
                       refetch: Refetch, starts: bool): (GuildView, seq<Reply>, Option<Advance>)
  {
    var v0 := v.(textChannel := Some(textChannel));
    var (v1, ok, replies) := EnsureVoice(v0, userChannel, textChannel, connect, introAvailable);
    if !ok then (v1, replies, None)
    else
      QueueResolved(v1, ShapeResolution(query, requester, extraction, AllowPlaylists, MaxPlaylistLength, MaxSongDurationSeconds),
                    refetch, starts)
  }

  /** The end of `play`: report a resolver error or an empty result, or hand
      the song or playlist to `_add_to_queue`. */
  function QueueResolved(v: GuildView, resolution: Result<Resolved, ResolveError>, refetch: Refetch, starts: bool)
    : (GuildView, seq<Reply>, Option<Advance>)
  {
    match resolution
    case Err(e) => (v, [ResolveFailed(e)], None)
    case Ok(NothingFound) => (v, [NoSongFound], None)
    case Ok(OneSong(song)) => AddToQueue(v, OneTrack(song), refetch, starts)
    case Ok(SongList(songs)) => AddToQueue(v, ManyTracks(songs), refetch, starts)
  }

  /** A request for a track no longer than the ceiling, on a connected
      player with a free queue slot and nothing playing, starts that track. */
  lemma PlayCommandStarts(v: GuildView, userChannel: int, textChannel: int, query: string,
                          requester: Option<int>, e: EntryInfo, url: string)
    requires url != [] && Connected(v) && !Playing(v) && v.voice.value.channel == userChannel
    requires v.queue == [] && !v.looping
    requires e.duration.None? || e.duration.value <= MaxSongDurationSeconds
    ensures var (v', replies, a) :=
              PlayCommand(v, Some(userChannel), textChannel, ConnectOk, false, query, requester,
                          Extracted(Some(Single(e))), RefetchUrl(Some(url)), true);
            && replies == [SongAdded(SongOf(e, query, requester))]
            && a == Some(NowPlaying(WithStream(SongOf(e, query, requester), url)))
            && v'.current == Some(WithStream(SongOf(e, query, requester), url))
            && v'.queue == [] && Playing(v') && v'.textChannel == Some(textChannel)
  {
    var v0 := v.(textChannel := Some(textChannel));
    var song := SongOf(e, query, requester);
    assert EnsureVoice(v0, Some(userChannel), textChannel, ConnectOk, false) == (v0, true, []);
    SingleShaping(query, requester, e, AllowPlaylists, MaxPlaylistLength, MaxSongDurationSeconds);
    var resolution := ShapeResolution(query, requester, Extracted(Some(Single(e))), AllowPlaylists,
                                      MaxPlaylistLength, MaxSongDurationSeconds);
    assert resolution == Ok(OneSong(song));
    assert v0.queue == [] && [] + [song] == [song];
    assert Enqueue(v0.queue, OneTrack(song)) == ([song], 1, [SongAdded(song)]);
    PlayNextTakesHead(v0.(queue := [song]), RefetchUrl(Some(url)), true);
  }

  /** `skip`: needs a connected client and a current song; turns song looping
      off and stops the player, whose end-of-track callback then advances. */
  function Skip(v: GuildView): (GuildView, Reply) {
    if !Connected(v) then (v, NotPlayingSkip)
    else if v.current.None? then (v, NothingToSkip)
    else (EndOfTrack(v.(looping := false)), Skipped(v.current.value.title))
  }

  /** After a skip with songs waiting, the end-of-track advance plays the next
      queued song even if the skipped song was looping. */
  lemma SkipAdvances(v: GuildView, url: string)
    requires url != []
    requires Connected(v) && v.current.Some? && v.queue != []
    ensures var (v1, r) := Skip(v);
            var (v2, a) := PlayNext(v1, RefetchUrl(Some(url)), true);
            && r == Skipped(v.current.value.title) && !v1.looping
            && a == NowPlaying(WithStream(v.queue[0], url)) && v2.queue == v.queue[1..]
  {
    var (v1, r) := Skip(v);
    PlayNextTakesHead(v1, RefetchUrl(Some(url)), true);
  }

  /** `loop`: toggles song looping when there is a current song. */
  function ToggleLoop(v: GuildView): (GuildView, Reply) {
    if v.current.None? then (v, LoopNoSong)
    else if !v.looping then (v.(looping := true), LoopEnabled(v.current.value.title))
    else (v.(looping := false), LoopDisabled)
  }

  /** Toggling twice restores the state; without a current song nothing changes. */
  lemma ToggleLoopInvolution(v: GuildView)
    ensures ToggleLoop(ToggleLoop(v).0).0 == v
    ensures v.current.None? <==> ToggleLoop(v).1 == LoopNoSong
    ensures v.current.Some? ==> ToggleLoop(v).0.looping == !v.looping
  {
  }

  /** `remove`: a failed removal leaves the queue as it was. */
  function RemoveSong(v: GuildView, position: int): (GuildView, Reply) {
    match RemoveAt(v.queue, position)
    case Err(QueueWasEmpty) => (v, RemoveFromEmpty)
    case Err(TooLow) => (v, PositionTooLow)
    case Err(TooHigh) => (v, PositionTooHigh)
    case Ok((rest, removed)) => (v.(queue := rest), RemovedSong(removed))
  }

  /** `volume`: accepted exactly inside the configured range. */
  function SetVolume(v: GuildView, percent: int): (GuildView, Reply) {
    if !(MinVolume <= percent <= MaxVolume) then (v, VolumeOutOfRange)
    else (v.(volume := percent), VolumeSet(percent))
  }

  lemma SetVolumeProperties(v: GuildView, percent: int)
    ensures SetVolume(v, percent).1 == VolumeSet(percent) <==> MinVolume <= percent <= MaxVolume
    ensures SetVolume(v, percent).0.volume == (if MinVolume <= percent <= MaxVolume then percent else v.volume)
    ensures WellFormed(v) ==> WellFormed(SetVolume(v, percent).0)
  {
  }

  /** `queue`: the current song, the first ten queued songs and how many more. */
  function ShowQueue(v: GuildView): Reply {
    if v.current.None? && v.queue == [] then QueueIsEmpty
    else
      var shown := PyPrefix(v.queue, QueueDisplayLimit);
      QueueListing(v.current, shown, |v.queue| - |shown|)
  }

  lemma ShowQueueProperties(v: GuildView)
    ensures ShowQueue(v) == QueueIsEmpty <==> v.current.None? && v.queue == []
    ensures ShowQueue(v).QueueListing? ==>
              var r := ShowQueue(v);
              && r.current == v.current
              && |r.upNext| == Min(|v.queue|, QueueDisplayLimit)
              && r.upNext + v.queue[|r.upNext|..] == v.queue
              && r.more == |v.queue| - |r.upNext|
              && (r.more > 0 <==> |v.queue| > QueueDisplayLimit)
  {
  }

  /** `nowplaying`: only a current song that is actually playing is shown. */
  function NowPlayingReply(v: GuildView): (r: Reply)
    ensures r.ShowNowPlaying? <==> v.current.Some? && Playing(v)
    ensures r.ShowNowPlaying? ==> r.song == v.current.value
  {
    if v.current.Some? && Playing(v) then ShowNowPlaying(v.current.value) else NothingPlaying
  }

  // ---------------------------------------------------------------------------
  // Commands that may remove the guild's entry from MusicV2.guild_states
  // ---------------------------------------------------------------------------

  /** What a command does to its guild's registry entry. */
  datatype Effect = Keep(view: GuildView) | Drop

  /** `stop`: with any voice client the state is cleaned up and forgotten;
      without one the (possibly new) state stays registered unchanged. */
  function StopOn(v: GuildView): (Effect, Reply) {
    if v.voice.Some? then (Drop, Stopped) else (Keep(v), NotInVoiceStop)
  }

  /** `leave`: like stop, but only for a connected client. */
  function LeaveOn(v: GuildView): (Effect, Reply) {
    if Connected(v) then (Drop, LeftVoice) else (Keep(v), NotInVoice)
  }

  /** The test `on_voice_state_update` makes: the bot itself left a channel
      without joining another one. */
  predicate BotDisconnected(isBot: bool, beforeGuild: Option<int>, afterInChannel: bool) {
    isBot && beforeGuild.Some? && !afterInChannel
  }

  /** The condition `_auto_disconnect_if_idle` tests after its sleep. */
  predicate Idle(v: GuildView) { Connected(v) && !Playing(v) && v.queue == [] }

  /** `_auto_disconnect_if_idle` as written: cleanup runs inside the idle task
      while that task is still the pending one, so it cancels itself; when a
      "Now Playing" message is on display the cancellation stops cleanup at
      the deletion and the state is never removed from the registry. Returns
      the effect and whether it disconnected. */
  function IdleTimeoutAsWritten(v: GuildView): (Effect, bool) {
    if !Idle(v) then (Keep(v.(idleTimer := false)), false)
    else
      var c := Cleanup(v, true);
      if c.completed then (Drop, true) else (Keep(c.view), true)
  }

  /** `_auto_disconnect_if_idle` with the timer no longer counted as pending
      once it runs, so that cleanup cannot cancel it. */
  function IdleTimeout(v: GuildView): (Effect, bool) {
    var v1 := v.(idleTimer := false);
    if !Idle(v1) then (Keep(v1), false)
    else (Drop, true)
  }

  /** Stop and leave remove the entry exactly when they act, and keep it
      unchanged otherwise. */
  lemma StopLeaveProperties(v: GuildView)
    ensures StopOn(v).0 == Drop <==> v.voice.Some?
    ensures StopOn(v).0 == Drop <==> StopOn(v).1 == Stopped
    ensures StopOn(v).0 != Drop ==> StopOn(v).0 == Keep(v)
    ensures LeaveOn(v).0 == Drop <==> Connected(v)
    ensures LeaveOn(v).0 == Drop <==> LeaveOn(v).1 == LeftVoice
    ensures LeaveOn(v).0 != Drop ==> LeaveOn(v).0 == Keep(v)
  {
  }

  /** An idle guild whose song ended with a "Now Playing" message on display
      and the idle timer armed, as `_play_next_song` leaves it. */
  const IdleGuildExample: GuildView :=
    GuildView([], None, Some(VoiceLink(1, true, false)), Some(2), true, false, DefaultVolume, true)

  /** As written, the idle timeout of that guild disconnects it but leaves its
      state registered, with the "Now Playing" message still recorded. */
  lemma IdleTimeoutAsWrittenKeepsState()
    ensures var (e, disconnected) := IdleTimeoutAsWritten(IdleGuildExample);
            disconnected && e.Keep? && e.view.nowPlaying && e.view.voice.None?
  {
  }

  /** Corrected: the idle timeout disconnects exactly when the guild is idle,
      and then always removes the guild's state; otherwise it only marks the
      timer as finished. */
  lemma IdleTimeoutRemovesState(v: GuildView)
    ensures var (e, disconnected) := IdleTimeout(v);
            && (disconnected <==> Idle(v))
            && (disconnected <==> e == Drop)
            && (!disconnected ==> e == Keep(v.(idleTimer := false)))
  {
  }

  /** A guild state reached through `play` when the bot was not connected and
      the intro sound exists: the intro plays (without an end-of-track
      callback) while the requested track is queued. */
  function PlayDuringIntro(e: EntryInfo, userChannel: int, textChannel: int): GuildView {
    PlayCommand(InitialView, Some(userChannel), textChannel, ConnectOk, true, "query", None,
                Extracted(Some(Single(e))), RefetchRaised, true).0
  }

  /** A short track. */
  const ShortTrack: EntryInfo := EntryInfo(Some("stream"), Some("page"), Some("title"), Some(180), None)

  /** The intro ends, as written: the player stops and nothing advances. */
  function IntroEndedAsWritten(v: GuildView): GuildView { EndOfTrack(v) }

  /** The intro ends, corrected: the end of the intro advances the queue like
      the end of any track. */
  function IntroEnded(v: GuildView, refetch: Refetch, starts: bool): (GuildView, Advance) {
    TrackEnded(v, refetch, starts)
  }

  /** As written, the first track requested while the intro plays is queued
      but not started when the intro ends: nothing plays, the song is still
      queued and there is no current song, until a later `play` finds the
      player idle and starts the head of the queue. */
  lemma IntroBlocksFirstSong(userChannel: int, textChannel: int)
    ensures var v := IntroEndedAsWritten(PlayDuringIntro(ShortTrack, userChannel, textChannel));
            && v.queue == [SongOf(ShortTrack, "query", None)] && v.current.None? && !Playing(v) && Connected(v)
  {
  }

  /** Corrected, the end of the intro starts the waiting track. */
  lemma IntroEndStartsFirstSong(userChannel: int, textChannel: int)
    ensures var (v, a) := IntroEnded(PlayDuringIntro(ShortTrack, userChannel, textChannel), RefetchRaised, true);
            && a == NowPlaying(SongOf(ShortTrack, "query", None)) && v.queue == [] && Playing(v)
  {
  }

  /** The end-of-track callback: the player has stopped and
      `_play_next_song` runs for the guild (creating its state if it was
      removed meanwhile). The intro, as corrected, ends the same way. */
  function TrackEnded(v: GuildView, refetch: Refetch, starts: bool): (GuildView, Advance) {
    PlayNext(EndOfTrack(v), refetch, starts)
  }
}
