# Discord bot cogs in Dafny

This project models four cogs of a Discord bot:

- **music** (`cogs/music.py`): per-guild song queues, streaming, looping, skipping, the idle disconnect and voice-channel handling.
- **games** (`cogs/games.py`): the coin ledger, Connect 4 (a 6 x 7 board with wagers), Blackjack and Roulette.
- **store** (`cogs/store.py`): an item catalogue kept in a dictionary, the admin form that adds items, the paginated shop view and purchases.
- **rss** (`cogs/rss.py`): feed subscriptions, the periodic check that collects new articles, and the hourly summary post.

Everything Discord, the network, the clock and the random-number generator would supply becomes a parameter. Examples are the voice-connection outcome, the resolver's answer, the HTTP response, the spin result and the shuffled deck. The model then says what each handler does with those inputs.

The files are:

| file | module | contents |
|---|---|---|
| `common.dfy` | `Common` | Python built-ins the cogs rely on: `str(int)`, `int(str)`, `int(s, 16)` with the whitespace they skip, `lstrip`, `lower`, slicing and `reversed` |
| `economy.dfy` | `Economy` | `EconomyManager` and `common_bet_validation` |
| `music_song.dfy` | `MusicSong` | the `Song` record, `formatted_duration`, and how the resolver's answer is turned into songs |
| `music_spec.dfy` | `MusicSpec` | one guild's music state as a value, each handler as a function over it, and the lemmas about them |
| `music.dfy` | `Music` | the classes `GuildMusicState` and `MusicV2`; each method is proved equal to its `MusicSpec` function |
| `connect4.dfy` | `Connect4` | `Connect4Game` over an `array2`, win detection, `Connect4View` and the `connect4` command |
| `blackjack.dfy` | `Blackjack` | the deck, hand values, dealer play, card conservation, payouts, the view and the command |
| `roulette.dfy` | `Roulette` | colours, payouts, bet strings, the number modal, the view and the command |
| `store.dfy` | `Store` | `StoreManager`, `AddItemModal`, sorting and paging, purchases |
| `rss.dfy` | `Rss` | `RSSFeed` and its dictionary form, entry selection, `RSSCog` |

Constants come from `config.py` where it sets them:

- queue bound 50, display limit 10, volume 0..200 %;
- maximum playlist length 50 and maximum song length 7200 s;
- minimum bets 1, 5 and 10, and a default balance of 100;
- blackjack payouts of 2.5 and 2 times the bet, roulette payouts of 35, 2 and 35 times the bet;
- 2000 characters per message.

Where `config.py` leaves a value unset, the model uses the default the cog passes to `getattr`. Examples are the RSS limits (at most 1 article on a first fetch, summaries need at least 3, at most 15 go into one prompt, descriptions are cut at 300).

Where the cogs' comments and the code disagree, the code is followed. Three examples:

- The blackjack and roulette commands say a bet is "at stake" but never take it (see Findings).
- A nickname purchase deducts the cost and then does nothing further.
- `RSS_HOURLY_SUMMARY_ENABLED` is read with a default of False. That is a parameter of `PostSummary`.

## Model

| member | source | states |
|---|---|---|
| Common.NatToDecimalValue | cogs/games.py:68-73 | the decimal text used as a user's dictionary key reads back as the same number |
| Common.IntToDecimalParses | cogs/games.py:68-87 | `int(str(i)) == i` for every integer, negative ones included |
| Common.Grouped | cogs/store.py:160 | Python's numeral syntax: a digit, then digits each optionally after one underscore |
| Common.UngroupedDigits | cogs/store.py:160 | the digits of a grouped numeral, underscores dropped, are all digits and start with its first digit |
| Common.PlainGrouped | cogs/store.py:160 | a numeral without underscores is grouped and is its own digits |
| Common.GroupedEndsInDigit | cogs/store.py:160 | a grouped numeral ends in a digit |
| Common.ParseInt | cogs/store.py:159-166 | Python's `int()`; it has no contract of its own: ParseIntSyntax, ParseIntValue and UnderscoresIgnored state what it accepts and reads |
| Common.ParseIntSyntax | cogs/store.py:159-166 | `int()` succeeds iff what is left after skipping the whitespace `int()` skips (ASCII tab to carriage return, space, non-ASCII Unicode spaces) and one sign is a grouped decimal numeral |
| Common.ParseIntValue | cogs/store.py:159-166 | on plain digits `int()` reads their decimal value, negated after `-`, unchanged after `+` |
| Common.UnderscoresIgnored | cogs/store.py:160 | a grouped numeral reads as the same number as its digits without underscores |
| Common.SeparatorsNotSkipped | cogs/store.py:160 | `int()` refuses a numeral led by one of the separators U+001C to U+001F and skips a surrounding space and tab |
| Common.HexBody | cogs/store.py:188 | the digits of `int(s, 16)` follow an optional `0x`/`0X` prefix and at most one underscore after it |
| Common.ParseHex | cogs/store.py:186-192 | Python's `int(s, 16)`; it has no contract of its own: ParseHexSyntax, ParseHexDigits, ParseHexPrefixed and ParseHexNegative state what it accepts and reads |
| Common.ParseHexSyntax | cogs/store.py:186-192 | `int(s, 16)` succeeds iff what is left after skipping the same whitespace as `int()`, one sign and the optional prefix is a grouped hexadecimal numeral |
| Common.ParseHexDigits | cogs/store.py:186-192 | on plain hexadecimal digits `int(s, 16)` reads their value |
| Common.ParseHexPrefixed | cogs/store.py:186-192 | after a `0x` or `0X` prefix `int(s, 16)` reads the digits that follow |
| Common.ParseHexNegative | cogs/store.py:186-192 | after a minus sign `int(s, 16)` reads the negated value of the digits |
| Common.LStrip | cogs/store.py:192 | `lstrip('#')` returns a suffix of its input that does not start with `#` |
| Common.LowerAscii | cogs/store.py:156 | `lower()` keeps the length, leaves no letter A-Z, keeps every other character and sends each upper-case letter to the same letter in lower case |
| Common.LowerIdempotent | cogs/store.py:156 | lowering twice is lowering once |
| Common.PyPrefix | cogs/music.py:459 | `s[:k]` is a prefix of `s`, of length `k` when `k` fits, with Python's meaning for negative `k` |
| Common.PyLast | cogs/rss.py:206 | `s[-k:]` is the last `k` elements, and all of `s` when `k` is 0 or at least `len(s)` |
| Common.Reverse | cogs/rss.py:202 | `reversed` keeps the length and puts element `i` at position `len-1-i` |
| Common.ConcatAppend | cogs/rss.py:173-229 | concatenating one more part appends it (used to add up the articles of each feed) |
| Economy.KeyInjective | cogs/games.py:68-87 | two users share a ledger key exactly when they are the same user |
| Economy.Credit | cogs/games.py:75-87 | an update adds the amount to the user's balance (default if absent) and adds only that user's key |
| Economy.CreditOthersUnchanged | cogs/games.py:75-87 | an update never changes another user's balance |
| Economy.CreditTwice | cogs/games.py:75-87 | two updates of one user equal one update by the sum |
| Economy.Stake | cogs/games.py:687-688 | taking a bet lowers the player's balance by exactly the bet |
| Economy.Settle | cogs/games.py:395-396 | a settlement credits a positive payout and leaves the ledger untouched otherwise |
| Economy.EconomyManager.constructor | cogs/games.py:33-55 | the ledger starts as the decoded file, or empty when it is missing or unreadable |
| Economy.EconomyManager.GetBalance | cogs/games.py:68-73 | the stored balance, or the default for a user never seen |
| Economy.EconomyManager.UpdateBalance | cogs/games.py:75-87 | the new balance is the old one plus the amount, is returned, and is what `get_balance` then reports |
| Economy.ValidateBet | cogs/games.py:642-657 | a bet is accepted iff minimum <= bet <= balance; below the minimum is reported before lack of funds |
| Economy.CommonBetValidation | cogs/games.py:642-657 | the method reads the ledger and agrees with ValidateBet on the player's balance |
| MusicSong.Pad2 | cogs/music.py:35-43 | `f"{n:02d}"` is all digits and exactly two of them below 100 |
| MusicSong.SplitColon | cogs/music.py:35-43 | splitting always yields at least one field |
| MusicSong.SplitColonNoColon | cogs/music.py:35-43 | a colon-free field followed by `:` splits off as the first field |
| MusicSong.SplitColonDigits | cogs/music.py:35-43 | a numeral has no colon and splits as a single field |
| MusicSong.Pad2Value | cogs/music.py:35-43 | the padded numeral reads back as `n` |
| MusicSong.DigitsNoColon | cogs/music.py:35-43 | digits contain no colon |
| MusicSong.ClockTwo | cogs/music.py:41-43 | "MM:SS" splits into its two fields and reads back as minutes*60+seconds |
| MusicSong.ClockThree | cogs/music.py:38-40 | "HH:MM:SS" splits into three fields and reads back as hours*3600+minutes*60+seconds |
| MusicSong.ClockFields | cogs/music.py:35-43 | the hour, minute and second fields recombine to the duration, and hours show iff it is at least 3600 s |
| MusicSong.FormattedDurationRoundTrip | cogs/music.py:35-43 | reading the formatted duration back gives the duration; it has three fields iff it is an hour or longer |
| MusicSong.SongOf | cogs/music.py:24-33 | a resolved entry becomes a song with the page URL (else the query), the title (else "Unknown Title"), stream URL, duration and requester |
| MusicSong.ClassifyDownloadError | cogs/music.py:169-180 | "is not available"/"Video unavailable" means unavailable, else "Unsupported URL" means unsupported, else a generic failure |
| MusicSong.PlaylistSongsBound | cogs/music.py:187-206 | at most one song per entry, and at least one when any entry is present; with none skipped the songs are the entries in order; every song carries the requester |
| MusicSong.Survivors | cogs/music.py:195-196 | `if not entry: continue` keeps no more entries than there are |
| MusicSong.SurvivorsPresent | cogs/music.py:195-196 | the entries kept by `if not entry: continue` are exactly the present ones |
| MusicSong.SongsOf | cogs/music.py:197-205 | one song per entry, each built from the entry at the same position |
| MusicSong.PlaylistIsFilterMap | cogs/music.py:195-205 | the playlist loop's songs are the songs of the surviving entries |
| MusicSong.PlaylistSongsSurvivors | cogs/music.py:195-205 | the playlist loop is a filter then a map: one song per surviving entry, built from that entry, in the same order |
| MusicSong.PlaylistShaping | cogs/music.py:187-206 | playlists are refused iff disabled; otherwise the songs are one per present entry of the truncated prefix, in order, and nothing is found iff there is none; at most MUSIC_MAX_PLAYLIST_LENGTH songs are taken, the first ones in order |
| MusicSong.SingleShaping | cogs/music.py:207-221 | a single track is refused as too long exactly when it has a non-zero duration above the limit, and becomes one song otherwise |
| MusicSpec.EnqueueEachClosedForm | cogs/music.py:240-250 | `put_nowait` of each playlist song until the queue is full adds the first min(len, room) songs at the back |
| MusicSpec.RemoveAtProperties | cogs/music.py:499-536 | removal succeeds iff 1 <= position <= length; each error case iff its condition; the rest keeps the order and, with the removed song, the same multiset |
| MusicSpec.CleanupProperties | cogs/music.py:74-94 | cleanup empties queue, current song, voice client and idle timer, keeps channel, loop flag and volume, disconnects iff connected, and stops early only when the idle task cancels itself |
| MusicSpec.PlayNextTakesHead | cogs/music.py:258-336 | not looping and not playing, for every re-extraction outcome and player answer: the head of the queue leaves it and becomes the current song (with a re-extracted URL filled in only when it had no stream URL and the re-extraction returned); it starts iff it then has a stream URL and the player starts, and otherwise the call reports the missing URL or the failed playback; an empty queue goes idle and arms the idle timer |
| MusicSpec.PlayNextLoops | cogs/music.py:286-290 | with looping on, the same song plays again and the queue is left alone |
| MusicSpec.PlayNextFrame | cogs/music.py:258-336 | nothing changes while playing; the idle timer is armed iff the cog went idle; the queue loses at most its head or is cleared; the queue bound and volume range are kept |
| MusicSpec.PlayTracksFifo | cogs/music.py:315-319 | k track ends in a row play the first k queued songs in order, FIFO |
| MusicSpec.PlayTracksLoop | cogs/music.py:315-319 | with looping on, every track end replays the current song and leaves the queue alone |
| MusicSpec.EnsureVoiceProperties | cogs/music.py:115-144 | voice is ensured iff the user is in a channel and the bot is already there or connects; failure changes nothing and sends one reply |
| MusicSpec.EnqueueProperties | cogs/music.py:223-256 | the queue stays within 50; the added songs are the first that fit, in order; the queue-full and added replies are sent exactly when they apply |
| MusicSpec.PlayCommandStarts | cogs/music.py:386-407 | `play` of one short track into an idle connected guild replies "added" and starts that song with an empty queue |
| MusicSpec.SkipAdvances | cogs/music.py:412-424 | a skip clears looping, and the end-of-track step then plays the next queued song |
| MusicSpec.ToggleLoopInvolution | cogs/music.py:486-495 | toggling twice restores the state; with no current song nothing changes; otherwise the flag flips |
| MusicSpec.SetVolumeProperties | cogs/music.py:539-553 | a volume is accepted iff it lies in 0..200, and only then stored |
| MusicSpec.ShowQueueProperties | cogs/music.py:443-473 | the listing is empty iff nothing plays or waits; it shows the first ten queued songs and counts the rest |
| MusicSpec.NowPlayingReply | cogs/music.py:475-481 | the current song is shown iff there is one and it is playing |
| MusicSpec.StopLeaveProperties | cogs/music.py:374-438 | stop drops the guild state iff a voice client exists and leave drops it iff connected; otherwise both leave it unchanged |
| MusicSpec.IdleTimeoutAsWrittenKeepsState | cogs/music.py:352-362 | as written, an idle guild with a now-playing message is disconnected but its state stays registered |
| MusicSpec.IdleTimeoutRemovesState | cogs/music.py:352-362 | corrected: the guild state is removed exactly when the guild is idle |
| MusicSpec.IntroBlocksFirstSong | cogs/music.py:146-159 | as written, a song requested while the intro plays stays queued after the intro and nothing plays |
| MusicSpec.IntroEndStartsFirstSong | cogs/music.py:146-159 | corrected: the end of the intro starts the queued song |
| Music.GuildMusicState.constructor | cogs/music.py:47-59 | a new guild state has an empty queue, no song, no voice client and volume 50 % |
| Music.GuildMusicState.PutNowait | cogs/music.py:231-247 | `put_nowait` appends iff the queue is below its bound, and reports whether it did |
| Music.GuildMusicState.GetNowait | cogs/music.py:66-68 | taking from the queue returns its head and leaves the rest |
| Music.GuildMusicState.Put | cogs/music.py:517 | `put` appends to a queue that has room |
| Music.GuildMusicState.ClearQueue | cogs/music.py:64-72 | the queue is emptied and nothing else changes |
| Music.GuildMusicState.Drain | cogs/music.py:511-512 | the queue is emptied into a list holding its songs in order |
| Music.GuildMusicState.PutAll | cogs/music.py:517 | putting back a list that fits restores that queue |
| Music.GuildMusicState.PutAllNowait | cogs/music.py:522-525 | putting back the remaining songs without waiting restores that queue |
| Music.GuildMusicState.Cleanup | cogs/music.py:74-94 | the object's new state and results are those of MusicSpec.Cleanup |
| Music.MusicV2.constructor | cogs/music.py:97-106 | the cog starts with no guild states |
| Music.MusicV2.GetGuildState | cogs/music.py:108-113 | a guild's state is created on first use and returned unchanged afterwards |
| Music.MusicV2.GetCurrentSongDetails | cogs/music.py:556-560 | the current song of a known guild, and None for an unknown one |
| Music.MusicV2.PlayNext | cogs/music.py:258-336 | the guild's new state and outcome are those of MusicSpec.PlayNext |
| Music.MusicV2.TrackEnded | cogs/music.py:315-319 | the after-callback's new state and outcome are those of MusicSpec.TrackEnded |
| Music.MusicV2.PlayNextOn | cogs/music.py:258-336 | on one guild object: MusicSpec.PlayNext, keeping the queue bound and volume range |
| Music.MusicV2.AdvanceState | cogs/music.py:272-336 | the branch after the already-playing test follows MusicSpec.PlayNext |
| Music.MusicV2.Skip | cogs/music.py:412-424 | the new state and reply are those of MusicSpec.Skip |
| Music.MusicV2.Loop | cogs/music.py:486-495 | the new state and reply are those of ToggleLoop |
| Music.MusicV2.Volume | cogs/music.py:539-553 | the new state and reply are those of SetVolume |
| Music.MusicV2.QueueCommand | cogs/music.py:443-473 | the state is unchanged and the reply is ShowQueue |
| Music.MusicV2.NowPlayingCommand | cogs/music.py:475-481 | the state is unchanged and the reply is NowPlayingReply |
| Music.MusicV2.Remove | cogs/music.py:499-536 | the new state and reply are those of RemoveSong |
| Music.MusicV2.RemoveOn | cogs/music.py:499-536 | drain, pop and put back give RemoveSong's queue and keep the bound |
| Music.MusicV2.Stop | cogs/music.py:429-438 | the guild state is dropped or kept as StopOn says, with its reply |
| Music.MusicV2.Leave | cogs/music.py:374-382 | the guild state is dropped or kept as LeaveOn says, with its reply |
| Music.MusicV2.OnVoiceStateUpdate | cogs/music.py:564-574 | when the bot leaves a channel without joining another, that guild's state is removed, and only then |
| Music.MusicV2.IdleTimeout | cogs/music.py:352-362 | corrected idle handler: drops the guild state exactly when MusicSpec.IdleTimeout says |
| Music.MusicV2.EnsureVoiceChannel | cogs/music.py:115-144 | the new state, verdict and replies are those of EnsureVoice |
| Music.MusicV2.EnsureVoiceOn | cogs/music.py:115-144 | on one guild object: EnsureVoice, keeping the bound |
| Music.MusicV2.JoinCommand | cogs/music.py:368-370 | the new state and replies are those of Join |
| Music.MusicV2.AddToQueue | cogs/music.py:223-256 | the new state, replies and advance are those of MusicSpec.AddToQueue |
| Music.MusicV2.AddToQueueOn | cogs/music.py:223-256 | on one guild object: AddToQueue, keeping the bound |
| Music.MusicV2.EnqueueOn | cogs/music.py:225-250 | the puts give Enqueue's queue, count and replies |
| Music.MusicV2.EnqueueMany | cogs/music.py:240-250 | the playlist loop gives Enqueue's queue, count and replies |
| Music.MusicV2.PlayCommand | cogs/music.py:386-407 | the new state, replies and advance are those of MusicSpec.PlayCommand |
| Music.MusicV2.PlayOn | cogs/music.py:386-407 | on one guild object: PlayCommand, keeping the bound |
| Music.MusicV2.QueueResolvedOn | cogs/music.py:395-407 | a resolver error is reported and a resolved song or playlist is queued, as QueueResolved says |
| Connect4.AheadOpposite | cogs/games.py:114-138 | stepping k cells along the reversed direction is stepping -k along the direction |
| Connect4.Run | cogs/games.py:121-136 | a counted run has at most 3 further pieces |
| Connect4.RunCovers | cogs/games.py:121-136 | the counted cells all hold the piece, and the cell after the run does not |
| Connect4.RunAtLeast | cogs/games.py:121-128 | m pieces in a row ahead make the forward count at least m |
| Connect4.BackRunAtLeast | cogs/games.py:129-136 | s pieces in a row behind make the backward count at least s |
| Connect4.RunsMakeFour | cogs/games.py:114-138 | a line count of 4 or more means four in a row through the dropped piece |
| Connect4.FourMakesRuns | cogs/games.py:114-138 | four in a row through the piece gives a line count of at least 4 |
| Connect4.LineCountIffFour | cogs/games.py:114-138 | the line count reaches 4 iff four in a row pass through the piece along that line |
| Connect4.WinsIffFourInARow | cogs/games.py:114-138 | `check_win` holds iff some line through the piece holds four in a row |
| Connect4.FullTopRowFillsBoard | cogs/games.py:140-145 | on a board where pieces rest on one another, a full top row means a full board, so the draw test is sound |
| Connect4.FilledDown | cogs/games.py:140-145 | below a filled top cell, every cell of that column is filled |
| Connect4.SettledAfterDrop | cogs/games.py:104-112 | a drop onto the lowest empty cell keeps pieces resting on one another |
| Connect4.TakeBetsBalances | cogs/games.py:686-688 | both players pay the bet up front and others are untouched |
| Connect4.RefundBalances | cogs/games.py:221-223 | a draw returns the bet to both players and no one else |
| Connect4.Connect4IsZeroSum | cogs/games.py:213-254 | a win moves exactly one bet from loser to winner; a draw or refund restores every balance |
| Connect4.Connect4Game.Cells | cogs/games.py:92-99 | the grid value is the 6 x 7 board cell for cell |
| Connect4.Connect4Game.constructor | cogs/games.py:92-99 | a game starts on an empty board with the first player to move |
| Connect4.LowestEmpty | cogs/games.py:104-112 | the landing row is absent iff the column is off the board or full; otherwise it is an empty cell with only filled cells beneath |
| Connect4.LowestFrom | cogs/games.py:108-112 | the upward scan from a row with full cells below it finds an empty cell with full cells beneath, or none iff the column is full |
| Connect4.Dropped | cogs/games.py:110 | the new board holds the piece in the one cell and agrees with the old board everywhere else |
| Connect4.DroppedIs | cogs/games.py:110 | a board that differs from the old one only by the piece in one cell is that cell's drop |
| Connect4.Connect4Game.MakeMove | cogs/games.py:104-112 | a drop fails iff the column is off the board or full, leaving the board as it was; otherwise it fills the landing row of the column with the mover's piece and nothing else |
| Connect4.Connect4Game.CountRun | cogs/games.py:121-136 | the inner loop counts the run Run defines |
| Connect4.Connect4Game.CheckWin | cogs/games.py:114-138 | reports a win iff four in a row pass through the last piece, and records the winner |
| Connect4.Connect4Game.FourDirections | cogs/games.py:117-137 | the loop over the four lines finds a win iff Wins holds |
| Connect4.Connect4Game.DirectionWins | cogs/games.py:119-137 | one line wins iff its two runs plus the piece reach 4 |
| Connect4.Connect4Game.CheckDraw | cogs/games.py:140-145 | a draw iff every top cell is filled |
| Connect4.Connect4Game.SwitchPlayer | cogs/games.py:147-148 | the turn passes to the other player |
| Connect4.Connect4View.constructor | cogs/games.py:158-171 | the view holds the game and ledger and is running |
| Connect4.Connect4View.ColumnPressed | cogs/games.py:173-196 | not your turn iff someone else pressed; column full iff the mover pressed a column off the board or full, with nothing changed; otherwise the board gains the mover's piece in the landing row, and the outcome is a win iff that piece completes four in a row (paying twice the bet), a draw iff it does not and the top row is full (refunding both), and otherwise the turn passes |
| Connect4.Connect4View.FinishMove | cogs/games.py:188-196 | after a drop: a win iff four in a row pass through the piece, a draw iff not and the top row is full, otherwise the turn passes; the board is unchanged |
| Connect4.Connect4View.DeclareWin | cogs/games.py:189 | the player to move is paid twice the bet, recorded as the winner, and the view stops |
| Connect4.Connect4View.DrawOrSwitch | cogs/games.py:191-196 | a draw iff the top row is full, refunding both players and stopping; otherwise the turn passes and no coins move |
| Connect4.Connect4View.EndGameWon | cogs/games.py:213-218 | the winner is credited twice the bet and the view stops |
| Connect4.Connect4View.EndGameDrawn | cogs/games.py:219-224 | both players get their bet back and the view stops |
| Connect4.Connect4View.OnTimeout | cogs/games.py:235-254 | an unfinished game refunds both players; a finished one moves no coins |
| Connect4.StartConnect4 | cogs/games.py:669-703 | refuses self-play, bots and bets either player cannot cover; otherwise takes both bets and starts a fresh game |
| Blackjack.FullDeck | cogs/games.py:269-272 | the deck has 52 cards |
| Blackjack.RankOfDeckCard | cogs/games.py:269-285 | cutting the suit off card i gives rank i mod 13 |
| Blackjack.DeckCardPoints | cogs/games.py:279-292 | each deck card scores its rank's points, and only the aces are aces |
| Blackjack.RankNumberInverts | cogs/games.py:269-272 | a rank's position in the rank list is recovered from its text |
| Blackjack.SuitOfDeckCard | cogs/games.py:269-272 | card i ends with suit i div 13 |
| Blackjack.FullDeckDistinct | cogs/games.py:269-272 | no two deck cards are equal |
| Blackjack.HandValueIsBest | cogs/games.py:279-294 | the value is the largest non-bust total over ways of counting aces low, else the all-low total |
| Blackjack.CalculateHandValue | cogs/games.py:279-294 | the loop computes HandValue |
| Blackjack.Popped | cogs/games.py:313-315 | popping k cards yields k cards |
| Blackjack.PoppedAt | cogs/games.py:313-315 | the j-th card popped is the j-th card from the end of the deck |
| Blackjack.PoppedIsReversedEnd | cogs/games.py:313-315 | popping k cards yields the last k cards of the deck in reverse order |
| Blackjack.DealerPlayStops | cogs/games.py:310-315 | the dealer stops at 17 or more or on an empty deck, drawing from the end |
| Blackjack.DealerPlayDraws | cogs/games.py:310-315 | the dealer's hand is the old hand plus the popped cards |
| Blackjack.DealerPlayMinimal | cogs/games.py:310-315 | the dealer never draws past a hand that already reaches 17 |
| Blackjack.StandResult | cogs/games.py:317-328 | dealer bust, player win, dealer win and push each hold iff their comparison holds |
| Blackjack.HitProperties | cogs/games.py:299-308 | hit moves the last deck card to the player, ends the game iff the player busts, and conserves the cards |
| Blackjack.DealerPlayConserves | cogs/games.py:310-315 | the dealer's draws neither create nor lose cards |
| Blackjack.StandProperties | cogs/games.py:310-328 | stand ends the game, plays the dealer to 17, conserves the cards and sets the result from the two values |
| Blackjack.DealInitialHands | cogs/games.py:274-277 | the player gets the 1st and 3rd card from the end and the dealer the 2nd and 4th |
| Blackjack.DealConserves | cogs/games.py:274-277 | dealing keeps every card |
| Blackjack.BlackjackGame.constructor | cogs/games.py:258-268 | a game deals two cards each from the shuffled deck and keeps all 52 cards |
| Blackjack.BlackjackGame.Hit | cogs/games.py:299-308 | the table after the method is HitOn of the old table |
| Blackjack.BlackjackGame.Stand | cogs/games.py:310-328 | the table after the method is StandOn of the old table |
| Blackjack.DealerDraws | cogs/games.py:312-315 | the dealer loop computes DealerPlay |
| Blackjack.TruncDiv | cogs/games.py:370 | `int()` of a quotient truncates toward zero |
| Blackjack.Payout | cogs/games.py:362-377 | a natural win pays int(2.5 x bet), another win 2 x bet, a push the bet, anything else nothing |
| Blackjack.StakeNeverTakenAsWritten | cogs/games.py:705-725 | as written, no game lowers the balance: a loss leaves the ledger unchanged and a push gains the bet |
| Blackjack.StakedNet | cogs/games.py:362-397 | corrected: with the stake taken, the balance moves by -bet, 0, +bet or +1.5 x bet |
| Blackjack.BlackjackView.constructor | cogs/games.py:330-336 | the view holds an unfinished game and is running |
| Blackjack.BlackjackView.EndGame | cogs/games.py:362-397 | the payout is Payout and is settled on the ledger |
| Blackjack.BlackjackView.HitPressed | cogs/games.py:399-410 | someone else's press changes nothing; a bust ends and settles the game; otherwise play continues without coins moving |
| Blackjack.BlackjackView.StandPressed | cogs/games.py:412-419 | the dealer plays and the game is settled |
| Blackjack.BlackjackView.OnTimeout | cogs/games.py:421-431 | an unfinished game ends as timed out; no coins move |
| Blackjack.BlackjackCommandAsWritten | cogs/games.py:705-725 | as written: bet validation as ValidateBet, and the ledger is never charged |
| Blackjack.BlackjackCommand | cogs/games.py:705-725 | corrected: on acceptance the stake is taken before the game starts |
| Roulette.WinningColor | cogs/games.py:468-473 | green iff 0, red iff a red number, black iff a black number |
| Roulette.RedMembers | cogs/games.py:468-473 | the red numbers are the standard eighteen |
| Roulette.BlackMembers | cogs/games.py:468-473 | the black numbers are the standard eighteen |
| Roulette.RedBlackDisjoint | cogs/games.py:468-473 | no number is both red and black, and each colour has 18 |
| Roulette.WheelColours | cogs/games.py:468-473 | every wheel number 0..36 has a colour and nothing else does |
| Roulette.UpTo | cogs/games.py:450 | the text before the first `_` is a prefix without `_` |
| Roulette.ColourPayouts | cogs/games.py:458-463 | red and black pay twice the bet on their colour, green 35 times on zero, else nothing |
| Roulette.MalformedNumberPaysNothing | cogs/games.py:449-455 | a number bet that `int()` cannot read pays nothing |
| Roulette.NoUnderscore | cogs/games.py:450 | a numeral has no `_` |
| Roulette.NumberBetRoundTrip | cogs/games.py:449-455 | the bet string built from n reads back as n and pays 35 x bet iff n comes up |
| Roulette.NumberModal | cogs/games.py:484-496 | text `int()` cannot read is refused, numbers outside 0..36 are refused, others become that number's bet |
| Roulette.RouletteGame.constructor | cogs/games.py:436-442 | a game has the spin, no bet and no payout |
| Roulette.RouletteGame.PlaceBet | cogs/games.py:444-445 | records the bet type and nothing else |
| Roulette.RouletteGame.CalculatePayout | cogs/games.py:447-466 | marks the game over and pays as PayoutFor, nothing without a bet |
| Roulette.RouletteView.constructor | cogs/games.py:501-506 | the view holds the game and ledger and is running |
| Roulette.RouletteView.ProcessBet | cogs/games.py:533-587 | places the bet, spins, credits a positive payout and reports number, colour and payout |
| Roulette.RouletteView.OnInteraction | cogs/games.py:590-598 | other ids are ignored; another user, a finished game or the number button change nothing; a colour button plays that bet |
| Roulette.RouletteView.OnModalSubmit | cogs/games.py:484-496 | a refused number changes nothing; an accepted one plays that number's bet |
| Roulette.RouletteView.OnTimeout | cogs/games.py:600-615 | the view stops and no coins move |
| Roulette.StakeNeverTakenAsWritten | cogs/games.py:727-745 | as written, a roulette game never lowers the balance |
| Roulette.StakedNet | cogs/games.py:565-580 | corrected: with the stake taken, a loss costs the bet, red on red nets the bet and green on zero nets 34 x bet |
| Roulette.RouletteCommandAsWritten | cogs/games.py:727-745 | as written: bet validation as ValidateBet, and the ledger is never charged |
| Roulette.RouletteCommand | cogs/games.py:727-745 | corrected: on acceptance the stake is taken before the game starts |
| Store.Added | cogs/store.py:80-88 | an existing id is refused and nothing changes; otherwise exactly that key is added and the others are kept |
| Store.Removed | cogs/store.py:90-99 | the id is gone, the others are kept, and a missing id changes nothing |
| Store.Lookup | cogs/store.py:101-103 | finds an item iff its id is present |
| Store.AddThenRemove | cogs/store.py:80-103 | adding a new item then removing it restores the store, and the item can be found in between |
| Store.StoreManager.constructor | cogs/store.py:47-68 | the store starts as the decoded file or empty |
| Store.StoreManager.AddItem | cogs/store.py:80-88 | succeeds iff the id is new, with the store as Added |
| Store.StoreManager.RemoveItem | cogs/store.py:90-99 | returns the removed item (None if absent) and leaves the store as Removed |
| Store.StoreManager.GetItem | cogs/store.py:101-103 | `get_item` is Lookup |
| Store.StoreManager.GetAllItems | cogs/store.py:105-107 | returns the store's contents as a copy |
| Store.ValidateItem | cogs/store.py:153-197 | each refusal arises exactly in the order the form checks it; an accepted item has a non-negative cost, a known lowered type, the data its type requires, and colour data without `#` |
| Store.GenerateId | cogs/store.py:198-200 | the id is the first drawn number in 10000..99999 not already in the store |
| Store.AddItemModal.constructor | cogs/store.py:147-150 | the form holds its store |
| Store.AddItemModal.OnSubmit | cogs/store.py:153-216 | a refused form leaves the store alone; an accepted one adds the item under a fresh five-digit id |
| Store.EffectApplied | cogs/store.py:478-598 | a role id or colour that does not parse, or an unknown type, fails; a nickname always succeeds |
| Store.ValidatedItemsApply | cogs/store.py:507-531 | corrected: every item the strict form accepts can be applied |
| Store.BadColorStripped | cogs/store.py:186-192 | "#zzzzzz" passes the length-and-hash test and strips to "zzzzzz" |
| Store.BadColorNotHex | cogs/store.py:188 | "zzzzzz" is not hexadecimal |
| Store.ColorItemValidates | cogs/store.py:153-197 | a colour item with a readable non-negative cost is stored, `#` stripped, iff its data passes the colour check, and is otherwise refused as a bad colour |
| Store.BadColorAcceptedAsWritten | cogs/store.py:186-192 | as written the colour "#zzzzzz" is accepted; the strict check refuses it |
| Store.NameLessAsymmetric | cogs/store.py:233 | name order is asymmetric |
| Store.Insert | cogs/store.py:233 | inserting keeps the order and adds exactly the one entry |
| Store.SortByName | cogs/store.py:233 | the listing is sorted by name and a permutation of its input |
| Store.SortedEntriesInStore | cogs/store.py:229-233 | every listed entry is an entry of the store |
| Store.StoreEntriesSorted | cogs/store.py:229-233 | every store entry is listed |
| Store.PageSlice | cogs/store.py:239-241 | a page holds the items from page x per_page on, at most per_page of them |
| Store.ItemOnItsPage | cogs/store.py:239-241 | item i appears on page i div per_page at position i mod per_page |
| Store.Render | cogs/store.py:235-282 | an empty store shows no buttons; otherwise one buy button per item on the page, Previous iff not on the first page, Next iff more items follow |
| Store.RemoveAllDigits | cogs/store.py:297 | removing "buy_" from a numeral changes nothing |
| Store.BuyButtonResolves | cogs/store.py:266-297 | the buy button's custom id resolves back to the item id |
| Store.NavPage | cogs/store.py:285-293 | navigation moves at most one page and never leaves the valid range |
| Store.NavFollowsButtons | cogs/store.py:272-293 | Next moves on iff the Next button shows, and Previous moves back iff the Previous button shows |
| Store.InRangePageNotEmpty | cogs/store.py:250-252 | a page reachable through the buttons is never empty |
| Store.PurchaseReply | cogs/store.py:296-360 | a missing item, insufficient funds or a purchase each happen iff their condition holds; a purchase reports whether the effect applied |
| Store.BadColorChargedAsWritten | cogs/store.py:352-353 | as written, buying the "zzzzzz" colour charges the buyer and the effect fails |
| Store.StoreView.constructor | cogs/store.py:221-227 | the view starts on page 0 with the sorted listing |
| Store.StoreView.UpdateItemsList | cogs/store.py:229-233 | the items become the sorted listing and the page is kept |
| Store.StoreView.CurrentButtons | cogs/store.py:235-282 | the buttons shown are Render of the current page |
| Store.StoreView.NavPressed | cogs/store.py:285-293 | the page becomes NavPage and the items are kept |
| Store.StoreView.BuyPressed | cogs/store.py:296-360 | the reply is PurchaseReply; a missing item refreshes the list; only a purchase charges the cost, never below zero |
| Rss.RecordDict | cogs/rss.py:62-70 | `to_dict` has exactly the six keys |
| Rss.FromDict | cogs/rss.py:72-81 | fails without "url"; every field comes from its key, and a missing "original_channel_id" falls back to "channel_id" |
| Rss.FromDictToDict | cogs/rss.py:62-81 | `from_dict(to_dict(f))` gives back the same record |
| Rss.LegacyChannelId | cogs/rss.py:76 | an old record with `channel_id` loads with that channel |
| Rss.RSSFeed.constructor | cogs/rss.py:49-60 | a feed holds the record it was made from and no errors |
| Rss.RSSFeed.ToDict | cogs/rss.py:62-81 | the feed's dictionary loads back as its own record |
| Rss.EntryId | cogs/rss.py:132-138 | the id, else the link, else the digest |
| Rss.Truncate | cogs/rss.py:151-152 | text within the limit is kept; longer text becomes its first limit-3 characters plus "..." |
| Rss.ExtractArticle | cogs/rss.py:140-162 | the summary is at most 300 characters, and the link and feed title are carried over |
| Rss.TakeUntilSeen | cogs/rss.py:193-199 | the new entries are the prefix before the last-seen id, which they do not contain |
| Rss.NewlyFetched | cogs/rss.py:193-199 | the loop computes TakeUntilSeen |
| Rss.EntriesToCollect | cogs/rss.py:202-206 | the new entries oldest first, cut to the last max_first on a first fetch |
| Rss.CollectedNewestLast | cogs/rss.py:202-221 | the last entry collected is the feed's newest |
| Rss.FirstFetchBounded | cogs/rss.py:204-206 | a first fetch collects at most max_first entries |
| Rss.SeenFeedCollectsReversed | cogs/rss.py:202 | a feed seen before collects every new entry, in reverse feed order |
| Rss.FirstFetchCollectsNewest | cogs/rss.py:204-206 | a first fetch collects the newest max_first entries, oldest first |
| Rss.LastOfReverse | cogs/rss.py:202-206 | the last m entries of the reversal are the first m entries, reversed |
| Rss.CollectEntries | cogs/rss.py:208-221 | the loop collects Articles and remembers the last entry's id |
| Rss.Articles | cogs/rss.py:211-216 | one article per entry, in order |
| Rss.CheckArticles | cogs/rss.py:175-229 | a failed fetch collects nothing |
| Rss.CheckState | cogs/rss.py:178-221 | a failed fetch adds one to the error count; a fetch resets it and fills a missing title |
| Rss.LastSeenIsNewest | cogs/rss.py:218-221 | after collecting, the last-seen id is the newest entry's |
| Rss.RecheckCollectsNothing | cogs/rss.py:193-221 | checking the same fetch again collects nothing, so no article is collected twice |
| Rss.SeenFeedCollectsAllNew | cogs/rss.py:193-216 | a feed seen before collects all its new entries, oldest first |
| Rss.SummaryBatch | cogs/rss.py:267 | the batch is the first fifteen articles, or all of them |
| Rss.BatchThenRest | cogs/rss.py:267-312 | the batch plus what is kept back is the collected list, so trimming loses nothing unsent |
| Rss.SplitMessage | cogs/rss.py:296-300 | the chunks join to the message, each holds 1 to 2000 characters, and all but the last are full |
| Rss.GuildFeeds | cogs/rss.py:370 | exactly the feeds of this guild, in order |
| Rss.GuildFeedsAppend | cogs/rss.py:370 | selecting a guild's feeds keeps their order: the selection of a joined list is the selection of the first part followed by that of the second |
| Rss.GuildFeedsSingle | cogs/rss.py:370 | a single feed is kept iff it belongs to the guild |
| Rss.FindUrl | cogs/rss.py:375-376 | finds a feed with that URL, or reports that none has it |
| Rss.ResolveFeed | cogs/rss.py:369-376 | a number picks that 1-based position among the guild's feeds; other text finds the guild's feed with that URL |
| Rss.LoadRecords | cogs/rss.py:113 | all records load, or one that fails is named |
| Rss.RSSCog.constructor | cogs/rss.py:86-104 | the cog starts with no feeds and no articles |
| Rss.RSSCog.LoadFeeds | cogs/rss.py:106-119 | a readable file replaces the feeds with its records; a missing or bad file keeps them |
| Rss.RSSCog.CheckFeed | cogs/rss.py:175-229 | one feed's new state is CheckState and its articles are appended |
| Rss.RSSCog.CheckAllFeeds | cogs/rss.py:166-234 | every feed is checked once in order, and the collected list grows by each feed's articles in turn |
| Rss.RSSCog.CheckStep | cogs/rss.py:166-234 | one pass of the loop moves the feed states, the per-feed articles and the collected list from i checked feeds to i + 1 |
| Rss.RSSCog.CheckNext | cogs/rss.py:175-229 | checking feed i changes that feed's state only |
| Rss.RSSCog.PostSummary | cogs/rss.py:237-316 | posts iff enabled, with a channel, at least three articles, a model and a reply; posting trims the sent batch and splits the message into chunks of at most 2000; every skip keeps the articles |
| Rss.RSSCog.AddFeed | cogs/rss.py:333-363 | an existing subscription is refused, an unreachable feed is refused, else one new feed is appended with the parsed title (URL otherwise) |
| Rss.RSSCog.RemoveFeed | cogs/rss.py:367-383 | the feed ResolveFeed names is removed and nothing else |
| Rss.NewFeeds | cogs/rss.py:113 | one fresh, distinct feed object per record |
| Rss.States | cogs/rss.py:175-229 | the state of each feed, position by position |
| Rss.Advanced | cogs/rss.py:175-229 | after n feeds, the first n states advanced and the rest untouched |
| Rss.Gains | cogs/rss.py:175-229 | the articles each of the first n feeds adds, position by position |
| Rss.AdvancedStep | cogs/rss.py:175-229 | advancing one more feed updates exactly that position |
| Rss.IndexOf | cogs/rss.py:379 | `list.remove` finds the first position of the feed |

## Left out

- Discord I/O: embeds, messages, reactions, modals as user interface, and permission and cooldown decorators. Each handler takes Discord's answers as parameters and returns the reply kind it would send.
- asyncio: tasks, locks, sleeps. The idle timer and the "Now Playing" message are flags. Interleavings of concurrent handlers are not modelled.
- The network and external tools: yt-dlp, FFmpeg, aiohttp, feedparser and the Gemini client. Their results are parameters (`Extraction`, `Refetch`, `Fetch`, `reply`).
- Randomness: the shuffled deck, the spin and the drawn item ids are parameters.
- The clock: `last_checked` timestamps and `published_dt` are not modelled.
- Persistence: the JSON files for the ledger, store and feeds. Loading takes the decoded contents as an option; saving is left out.
- Floating point: the volume is an integer percentage (0.5 is 50). The blackjack 2.5 multiplier is computed as `5 * bet / 2` with truncation toward zero.
- HTML cleaning of RSS summaries and the md5 digest: the cleaned summary and the digest are fields of the entry.
- Message texts and config message templates: replies are datatype values.
- The `balance` commands of the games and store cogs only read and format a balance (GetBalance is modelled). The `list`, `collectnow` and `summarizenow` RSS commands only call the modelled operations.
- `_save_feeds`, `before_loops`, `cog_check`, `cog_unload` and the error handlers are I/O or framework glue.
- Store.GenerateId: the source redraws forever when all ids are taken; the model requires that one of the given draws is free.
- Store.SortByName: Python's sort is stable; the model proves sortedness and permutation, not stability. Dictionary order is a parameter (`listing`).
- Rss.EntriesToCollect: with `RSS_MAX_ARTICLES_ON_FIRST_FETCH` at 0, `[-0:]` keeps every entry; the model follows that.
- Rss.RSSCog.CheckAllFeeds: the list of collected articles per feed is a ghost result.
- Store.EffectApplied: Discord-side failures (missing role, permissions, HTTP) are one `discordOk` flag.
- Store nickname purchases: the cost is deducted but the nickname form is never opened.
- Store cog loading and the shared ledger: the Store model assumes the cog loads and debits the same ledger the games credit. As written neither holds. The `Tuple` return annotation at cogs/store.py:235 is evaluated when the class is defined, but cogs/store.py:14 does not import `Tuple`, so importing the cog raises NameError on Python 3.13 and earlier. Nothing sets `bot.economy_manager` (the Games cog keeps its ledger on itself, cogs/games.py:628-632), so the setup at cogs/store.py:638-645 installs a stand-in whose balance is always 0, and every item with a positive cost is refused. The `balance` command with aliases `bal` and `money` at cogs/store.py:388 is already registered by the Games cog (cogs/games.py:658), which loads first (config.py:77-84), so `add_cog` fails.
- Roulette: the modal's submission does not pass through `interaction_check` in the source, and the model follows that.
- Common.ParseInt: reads ASCII digits only. Python's `int()` also reads other Unicode decimal digits (for example Arabic-Indic ones, so `int("١٢")` is 12); the model refuses them. Whitespace (the ASCII tab to carriage return and space, and the non-ASCII Unicode spaces, but not U+001C to U+001F) and underscores follow CPython.
- Common.ParseHex: reads ASCII hexadecimal digits only; Python's `int(s, 16)` also maps other Unicode decimal digits to their values. Whitespace (the same set as `int()`), the `0x` prefix and underscores follow CPython.
- Common.LowerAscii: lowers A-Z only. Python's `lower()` is Unicode-wide (the Kelvin sign lowers to `k`), so an item type typed with such a letter is accepted in Python and refused as an invalid type by the model.
- Config message templates: the model assumes every `.format` call succeeds. As deployed, the templates at config.py:256, 269, 270, 273, 290, 291, 299, 356, 357 and 367 name placeholders (`emoji_success`, `emoji_info`, `emoji_loop`, `emoji_error`) that the code does not pass, so those calls raise KeyError. The model does not show these effects. A single song added by `play` is queued but not started, because music.py:248 raises before music.py:255-256 (music.py:234 and 238 do the same for playlists). A new store item is saved and a purchase is charged, but the confirmation raises (store.py:212, 357). A badge purchase makes `apply_item_effect` return False after the deduction, because store.py:539 raises inside its `try`. Music.MusicV2.AddToQueue and MusicSpec.PlayCommandStarts state the behaviour with working templates.
- Rss.FromDict: refuses a value of the wrong JSON type (for example a `guild_id` stored as a string). rss.py:72-81 loads such a value unchecked into the attribute.
- Roulette.RouletteView.OnInteraction: models the view's `on_interaction` method as the handler of a press, as the source intends. Whether discord.py calls that method for button presses is a property of the library, which is not part of this model.
- Rss.RSSCog.CheckFeed: `Fetch` has no case for an exception raised after a 200 response (while reading the body, parsing or extracting). In the source, such an exception leaves `error_count` at 1 (reset at rss.py:182, then incremented at rss.py:227-229), and any articles already appended stay collected.

## Findings

| source | as written | input that shows it | evidently intended | confidence | as-written member | corrected member |
|---|---|---|---|---|---|---|
| cogs/music.py:352-362 | the idle task calls cleanup while it is still the guild's pending idle task, so cleanup cancels it and, when a "Now Playing" message exists, stops before removing the guild state | an idle connected guild with a now-playing message when the timer fires | after an idle disconnect the guild state is removed | not executed | MusicSpec.IdleTimeoutAsWrittenKeepsState | MusicSpec.IdleTimeoutRemovesState |
| cogs/music.py:146-159 | the intro plays with no after-callback, so a song queued during it is not started when the intro ends (only a later `play` starts it) | `play` while the intro is playing | the queued song starts when the intro ends | not executed | MusicSpec.IntroBlocksFirstSong | MusicSpec.IntroEndStartsFirstSong |
| cogs/games.py:705-725 | the bet is never deducted, so a loss costs nothing and a push gains the bet | a bet of 10 that loses leaves the balance unchanged; a push adds 10 | the stake is taken when the game begins | not executed | Blackjack.StakeNeverTakenAsWritten | Blackjack.StakedNet |
| cogs/games.py:727-745 | the bet is never deducted, so a roulette game can only gain coins | a bet of 10 on red that loses leaves the balance unchanged | the stake is taken when the game begins | not executed | Roulette.StakeNeverTakenAsWritten | Roulette.StakedNet |
| cogs/store.py:186-192 | any seven-character text starting with `#` is accepted without reading its digits | colour data "#zzzzzz" is accepted, and buying the item charges the buyer and then fails | colour data must be hexadecimal | not executed | Store.BadColorAcceptedAsWritten | Store.ValidatedItemsApply |
