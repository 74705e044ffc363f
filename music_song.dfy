/** The music cog's track value (`Song`), its clock-style duration text and the
    shaping of a resolver answer into one song, a playlist or a typed error. */
module MusicSong {
  import opened Common

  /** A resolved track. Durations are whole seconds; the stream URL may be
      missing for playlist entries and is then resolved again at play time. */
  datatype Song = Song(
    sourceUrl: Option<string>,
    webpageUrl: string,
    title: string,
    duration: Option<int>,
    thumbnail: Option<string>,
    requester: Option<int>)

  /** A stream URL Python treats as present: not None and not empty. */
  predicate HasStream(s: Song) { s.sourceUrl.Some? && s.sourceUrl.value != [] }

  // ---------------------------------------------------------------------------
  // formatted_duration
  // ---------------------------------------------------------------------------

  /** `f"{n:02d}"` for a non-negative integer. */
  function Pad2(n: nat): (s: string)
    ensures |s| >= 2 && AllDigits(s)
    ensures n < 100 ==> |s| == 2
  {
    if n < 10 then "0" + NatToDecimal(n) else NatToDecimal(n)
  }

  /** `Song.formatted_duration`: "N/A" without a duration, "HH:MM:SS" when the
      duration reaches an hour, "MM:SS" otherwise. Python's `divmod` floors,
      which for the divisor 60 is Dafny's `/` and `%`. */
  function FormattedDuration(duration: Option<int>): string {
    match duration
    case None => "N/A"
    case Some(d) =>
      var minutes, seconds := d / 60, d % 60;
      var hours, mins := minutes / 60, minutes % 60;
      if hours > 0 then Pad2(hours) + ":" + Pad2(mins) + ":" + Pad2(seconds)
      else Pad2(mins) + ":" + Pad2(seconds)
  }

  /** Splits a string at every ':'. */
  function SplitColon(s: string): (parts: seq<string>)
    ensures |parts| >= 1
    decreases |s|
  {
    if s == [] then [[]]
    else
      var rest := SplitColon(s[1..]);
      if s[0] == ':' then [[]] + rest else [[s[0]] + rest[0]] + rest[1..]
  }

  predicate IsNumeral(p: string) { p != [] && AllDigits(p) }

  /** Reads "MM:SS" or "HH:MM:SS" back into seconds; the independent inverse
      of FormattedDuration used to state its round trip. */
  function ParseClock(s: string): Option<int> {
    var parts := SplitColon(s);
    if |parts| == 2 && IsNumeral(parts[0]) && IsNumeral(parts[1]) then
      Some(NumeralValue(parts[0], 10) * 60 + NumeralValue(parts[1], 10))
    else if |parts| == 3 && IsNumeral(parts[0]) && IsNumeral(parts[1]) && IsNumeral(parts[2]) then
      Some(NumeralValue(parts[0], 10) * 3600 + NumeralValue(parts[1], 10) * 60 + NumeralValue(parts[2], 10))
    else None
  }

  lemma {:induction false} SplitColonNoColon(a: string, rest: string)
    requires forall i :: 0 <= i < |a| ==> a[i] != ':'
    ensures SplitColon(a + ":" + rest) == [a] + SplitColon(rest)
    decreases |a|
  {
    var s := a + ":" + rest;
    if a == [] {
      assert s[0] == ':' && s[1..] == rest;
    } else {
      assert s[0] == a[0] && s[0] != ':';
      assert s[1..] == a[1..] + ":" + rest;
      SplitColonNoColon(a[1..], rest);
      assert [a[0]] + a[1..] == a;
    }
  }

  lemma {:induction false} SplitColonDigits(a: string)
    requires AllDigits(a)
    ensures SplitColon(a) == [a]
    decreases |a|
  {
    if a != [] {
      assert a[0] != ':' by { assert IsDigit(a[0]); }
      SplitColonDigits(a[1..]);
      assert [a[0]] + a[1..] == a;
    }
  }

  lemma Pad2Value(n: nat)
    ensures AllHexDigits(Pad2(n)) && NumeralValue(Pad2(n), 10) == n
  {
    NatToDecimalValue(n);
    if n < 10 {
      var s := Pad2(n);
      assert s[..|s| - 1] == "0";
      assert NumeralValue("0", 10) == 0 by {
        assert "0"[..0] == [];
      }
    }
  }

  predicate NoColon(s: string) { forall i :: 0 <= i < |s| ==> s[i] != ':' }

  lemma DigitsNoColon(s: string)
    requires AllDigits(s)
    ensures NoColon(s)
  {
    forall i | 0 <= i < |s| ensures s[i] != ':' { assert IsDigit(s[i]); }
  }

  lemma ClockTwo(m: string, s: string)
    requires m != [] && s != [] && AllDigits(m) && AllDigits(s)
    ensures SplitColon(m + ":" + s) == [m, s]
    ensures ParseClock(m + ":" + s) == Some(NumeralValue(m, 10) * 60 + NumeralValue(s, 10))
  {
    DigitsNoColon(m);
    SplitColonDigits(s);
    SplitColonNoColon(m, s);
    var parts := SplitColon(m + ":" + s);
    assert parts == [m, s];
  }

  lemma SplitThree(h: string, m: string, s: string)
    requires h != [] && m != [] && s != [] && AllDigits(h) && AllDigits(m) && AllDigits(s)
    ensures SplitColon(h + ":" + m + ":" + s) == [h, m, s]
  {
    DigitsNoColon(m);
    SplitColonDigits(s);
    SplitColonNoColon(m, s);
    DigitsNoColon(h);
    SplitColonNoColon(h, m + ":" + s);
    assert h + ":" + m + ":" + s == h + ":" + (m + ":" + s);
  }

  lemma ClockThree(h: string, m: string, s: string)
    requires h != [] && m != [] && s != [] && AllDigits(h) && AllDigits(m) && AllDigits(s)
    ensures SplitColon(h + ":" + m + ":" + s) == [h, m, s]
    ensures ParseClock(h + ":" + m + ":" + s) ==
            Some(NumeralValue(h, 10) * 3600 + NumeralValue(m, 10) * 60 + NumeralValue(s, 10))
  {
    SplitThree(h, m, s);
    var parts := SplitColon(h + ":" + m + ":" + s);
    assert parts[0] == h && parts[1] == m && parts[2] == s;
  }

  lemma ClockFields(d: nat)
    ensures d == (d / 60 / 60) * 3600 + (d / 60 % 60) * 60 + d % 60
    ensures d / 60 / 60 > 0 <==> d >= 3600
  {
  }

  /** Reading the formatted duration back gives the duration again, and the
      hours field appears exactly when the duration reaches one hour. */
  lemma FormattedDurationRoundTrip(d: nat)
    ensures ParseClock(FormattedDuration(Some(d))) == Some(d)
    ensures |SplitColon(FormattedDuration(Some(d)))| == (if d >= 3600 then 3 else 2)
  {
    var minutes, seconds := d / 60, d % 60;
    var hours, mins := minutes / 60, minutes % 60;
    ClockFields(d);
    var text := FormattedDuration(Some(d));
    Pad2Value(seconds);
    Pad2Value(mins);
    if hours > 0 {
      assert text == Pad2(hours) + ":" + Pad2(mins) + ":" + Pad2(seconds);
      Pad2Value(hours);
      ClockThree(Pad2(hours), Pad2(mins), Pad2(seconds));
      assert ParseClock(text) == Some(hours * 3600 + mins * 60 + seconds);
    } else {
      assert text == Pad2(mins) + ":" + Pad2(seconds);
      ClockTwo(Pad2(mins), Pad2(seconds));
      assert ParseClock(text) == Some(mins * 60 + seconds);
    }
  }

  // ---------------------------------------------------------------------------
  // _search_and_extract_song_info: shaping the resolver's answer
  // ---------------------------------------------------------------------------

  /** The fields of one non-empty resolver info dictionary the cog reads;
      `None` stands for a missing key. */
  datatype EntryInfo = EntryInfo(
    url: Option<string>,
    webpageUrl: Option<string>,
    title: Option<string>,
    duration: Option<int>,
    thumbnail: Option<string>)

  /** What the resolver returned: a single track, or a playlist whose entries
      may be falsy (`None` stands for a `None` entry or an empty dictionary). */
  datatype Info = Single(entry: EntryInfo) | Playlist(entries: seq<Option<EntryInfo>>)

  /** The outcome of the resolver call itself; `Extracted(None)` is a falsy
      answer (`None` or an empty dictionary). */
  datatype Extraction = Extracted(info: Option<Info>) | DownloadError(message: string) | UnexpectedError

  datatype Resolved = OneSong(song: Song) | SongList(songs: seq<Song>) | NothingFound

  datatype ResolveError = Unavailable | UnsupportedUrl | FetchFailed | Unexpected | PlaylistsDisabled | TooLong

  const MaxPlaylistLength: nat := 50
  const MaxSongDurationSeconds: int := 7200
  const AllowPlaylists: bool := true

  /** The Song built from one info dictionary, with the source's defaults. */
  function SongOf(e: EntryInfo, query: string, requester: Option<int>): (s: Song)
    ensures s.webpageUrl == (if e.webpageUrl.Some? then e.webpageUrl.value else query)
    ensures s.title == (if e.title.Some? then e.title.value else "Unknown Title")
    ensures s.sourceUrl == e.url && s.duration == e.duration && s.requester == requester
  {
    Song(e.url,
         if e.webpageUrl.Some? then e.webpageUrl.value else query,
         if e.title.Some? then e.title.value else "Unknown Title",
         e.duration, e.thumbnail, requester)
  }

  /** True when an entry is skipped by `if not entry: continue`. */
  predicate Skipped(e: Option<EntryInfo>) { e.None? }

  /** Songs for the entries that survive the skip, in playlist order. */
  function PlaylistSongs(entries: seq<Option<EntryInfo>>, query: string, requester: Option<int>): seq<Song>
  {
    if entries == [] then []
    else if Skipped(entries[0]) then PlaylistSongs(entries[1..], query, requester)
    else [SongOf(entries[0].value, query, requester)] + PlaylistSongs(entries[1..], query, requester)
  }

  /** The entries that survive `if not entry: continue`, in playlist order. */
  function Survivors(entries: seq<Option<EntryInfo>>): (r: seq<EntryInfo>)
    ensures |r| <= |entries|
  {
    if entries == [] then []
    else if Skipped(entries[0]) then Survivors(entries[1..])
    else [entries[0].value] + Survivors(entries[1..])
  }

  /** The surviving entries are exactly the present ones. */
  lemma {:induction false} SurvivorsPresent(entries: seq<Option<EntryInfo>>)
    ensures forall x :: x in Survivors(entries) <==> Some(x) in entries
  {
    if entries != [] {
      SurvivorsPresent(entries[1..]);
      assert entries == [entries[0]] + entries[1..];
    }
  }

  /** One song per entry, in order. */
  function SongsOf(entries: seq<EntryInfo>, query: string, requester: Option<int>): (songs: seq<Song>)
    ensures |songs| == |entries|
    ensures forall k :: 0 <= k < |entries| ==> songs[k] == SongOf(entries[k], query, requester)
  {
    if entries == [] then []
    else [SongOf(entries[0], query, requester)] + SongsOf(entries[1..], query, requester)
  }

  /** The playlist loop is a filter followed by a map. */
  lemma {:induction false} PlaylistIsFilterMap(entries: seq<Option<EntryInfo>>, query: string, requester: Option<int>)
    ensures PlaylistSongs(entries, query, requester) == SongsOf(Survivors(entries), query, requester)
  {
    if entries != [] {
      PlaylistIsFilterMap(entries[1..], query, requester);
      if !Skipped(entries[0]) {
        var t := Survivors(entries[1..]);
        assert Survivors(entries) == [entries[0].value] + t;
        assert ([entries[0].value] + t)[1..] == t;
      }
    }
  }

  /** One song per surviving entry, built from that entry, in the same order. */
  lemma PlaylistSongsSurvivors(entries: seq<Option<EntryInfo>>, query: string, requester: Option<int>)
    ensures |PlaylistSongs(entries, query, requester)| == |Survivors(entries)|
    ensures forall k :: 0 <= k < |Survivors(entries)| ==>
              PlaylistSongs(entries, query, requester)[k] == SongOf(Survivors(entries)[k], query, requester)
  {
    PlaylistIsFilterMap(entries, query, requester);
  }

  /** The classification of a DownloadError by its message text. */
  function ClassifyDownloadError(message: string): (e: ResolveError)
    ensures e in {Unavailable, UnsupportedUrl, FetchFailed}
    ensures e == Unavailable <==> Contains(message, "is not available") || Contains(message, "Video unavailable")
    ensures e == UnsupportedUrl <==>
              !Contains(message, "is not available") && !Contains(message, "Video unavailable") &&
              Contains(message, "Unsupported URL")
  {
    if Contains(message, "is not available") || Contains(message, "Video unavailable") then Unavailable
    else if Contains(message, "Unsupported URL") then UnsupportedUrl
    else FetchFailed
  }

  /** The result of `_search_and_extract_song_info` for a given resolver answer. */
  function ShapeResolution(query: string, requester: Option<int>, x: Extraction,
                           allowPlaylists: bool, maxPlaylist: nat, maxDuration: int): Result<Resolved, ResolveError>
  {
    match x
    case DownloadError(msg) => Err(ClassifyDownloadError(msg))
    case UnexpectedError => Err(Unexpected)
    case Extracted(None) => Ok(NothingFound)
    case Extracted(Some(Playlist(entries))) =>
      if !allowPlaylists then Err(PlaylistsDisabled)
      else
        var songs := PlaylistSongs(PyPrefix(entries, maxPlaylist), query, requester);
        if songs == [] then Ok(NothingFound) else Ok(SongList(songs))
    case Extracted(Some(Single(e))) =>
      if e.duration.Some? && e.duration.value != 0 && e.duration.value > maxDuration then Err(TooLong)
      else Ok(OneSong(SongOf(e, query, requester)))
  }

  lemma {:induction false} PlaylistSongsBound(entries: seq<Option<EntryInfo>>, query: string, requester: Option<int>)
    ensures |PlaylistSongs(entries, query, requester)| <= |entries|
    ensures forall e :: 0 <= e < |entries| ==> !Skipped(entries[e]) ==> |PlaylistSongs(entries, query, requester)| > 0
    ensures (forall e :: 0 <= e < |entries| ==> !Skipped(entries[e])) ==>
              |PlaylistSongs(entries, query, requester)| == |entries| &&
              forall i :: 0 <= i < |entries| ==>
                PlaylistSongs(entries, query, requester)[i] == SongOf(entries[i].value, query, requester)
    ensures forall i :: 0 <= i < |PlaylistSongs(entries, query, requester)| ==>
              PlaylistSongs(entries, query, requester)[i].requester == requester
  {
    if entries != [] {
      var tail := entries[1..];
      PlaylistSongsBound(tail, query, requester);
      var r := PlaylistSongs(entries, query, requester);
      var rest := PlaylistSongs(tail, query, requester);
      forall e | 0 <= e < |entries| && !Skipped(entries[e])
        ensures |r| > 0
      {
        if e > 0 { assert tail[e - 1] == entries[e]; }
      }
      if !Skipped(entries[0]) {
        assert r == [SongOf(entries[0].value, query, requester)] + rest;
        if forall e :: 0 <= e < |entries| ==> !Skipped(entries[e]) {
          assert forall e :: 0 <= e < |tail| ==> tail[e] == entries[e + 1];
          forall i | 0 < i < |entries|
            ensures r[i] == SongOf(entries[i].value, query, requester)
          {
            assert r[i] == rest[i - 1];
          }
        }
      }
    }
  }

  /** A playlist answer is one song per present entry of the truncated
      prefix, in order, or nothing found when there is none; it never yields
      more songs than the truncation length; when no entry is skipped, the songs are exactly
      those entries, in order; a disabled playlist feature is reported first. */
  lemma PlaylistShaping(query: string, requester: Option<int>, entries: seq<Option<EntryInfo>>,
                        allowPlaylists: bool, maxPlaylist: nat, maxDuration: int)
    ensures var r := ShapeResolution(query, requester, Extracted(Some(Playlist(entries))), allowPlaylists, maxPlaylist, maxDuration);
            && (!allowPlaylists <==> r == Err(PlaylistsDisabled))
            && (allowPlaylists ==>
                 var kept := Survivors(PyPrefix(entries, maxPlaylist));
                 && (kept == [] <==> r == Ok(NothingFound))
                 && (kept != [] ==>
                       && r.Ok? && r.value.SongList? && |r.value.songs| == |kept|
                       && forall i :: 0 <= i < |kept| ==> r.value.songs[i] == SongOf(kept[i], query, requester)))
            && (r.Ok? && r.value.SongList? ==> |r.value.songs| <= maxPlaylist && |r.value.songs| <= |entries|)
            && (allowPlaylists && entries != [] && (forall e :: 0 <= e < |entries| ==> !Skipped(entries[e])) ==>
                 var n := if |entries| < maxPlaylist then |entries| else maxPlaylist;
                 && (n > 0 ==> r.Ok? && r.value.SongList? && |r.value.songs| == n)
                 && (r.Ok? && r.value.SongList? ==>
                       forall i :: 0 <= i < n ==> r.value.songs[i] == SongOf(entries[i].value, query, requester)))
  {
    var prefix := PyPrefix(entries, maxPlaylist);
    PlaylistSongsBound(prefix, query, requester);
    PlaylistSongsSurvivors(prefix, query, requester);
    if (forall e :: 0 <= e < |entries| ==> !Skipped(entries[e])) {
      assert forall e :: 0 <= e < |prefix| ==> prefix[e] == entries[e];
    }
  }

  /** The duration ceiling: a single track is refused as too long exactly when
      its duration is present, non-zero and above the ceiling; otherwise it is
      returned as one song with the source's defaults filled in. */
  lemma SingleShaping(query: string, requester: Option<int>, e: EntryInfo,
                      allowPlaylists: bool, maxPlaylist: nat, maxDuration: int)
    ensures var r := ShapeResolution(query, requester, Extracted(Some(Single(e))), allowPlaylists, maxPlaylist, maxDuration);
            && (r == Err(TooLong) <==> e.duration.Some? && e.duration.value != 0 && e.duration.value > maxDuration)
            && (r != Err(TooLong) ==> r == Ok(OneSong(SongOf(e, query, requester))))
  {
  }
}
