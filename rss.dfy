/** RSS subscriptions and the news roundup: each `RSSFeed` remembers the id
    of the newest entry it has collected, a periodic check collects the
    entries published since then as articles, and the roundup posts an AI
    summary of the oldest collected articles and drops them from the list. */
module Rss {
  import opened Common

  // ---------------------------------------------------------------------------
  // Feed records and their dictionary form
  // ---------------------------------------------------------------------------

  /** The JSON values a feed dictionary holds. */
  datatype Json = JNull | JInt(i: int) | JStr(s: string)

  /** The six attributes `to_dict` saves. */
  datatype FeedRecord = FeedRecord(url: string, originalChannelId: Option<int>, guildId: Option<int>,
                                   lastSeenEntryId: Option<string>, feedTitle: Option<string>,
                                   addedBy: Option<int>)

  function IntJson(v: Option<int>): Json {
    if v.Some? then JInt(v.value) else JNull
  }

  function StrJson(v: Option<string>): Json {
    if v.Some? then JStr(v.value) else JNull
  }

  /** `to_dict`. */
  function RecordDict(r: FeedRecord): (d: map<string, Json>)
    ensures d.Keys == {"url", "original_channel_id", "guild_id", "last_seen_entry_id", "feed_title", "added_by"}
  {
    map["url" := JStr(r.url),
        "original_channel_id" := IntJson(r.originalChannelId),
        "guild_id" := IntJson(r.guildId),
        "last_seen_entry_id" := StrJson(r.lastSeenEntryId),
        "feed_title" := StrJson(r.feedTitle),
        "added_by" := IntJson(r.addedBy)]
  }

  /** A JSON value read as an optional integer; None when it is a string. */
  function AsInt(j: Json): Option<Option<int>> {
    match j
    case JNull => Some(None)
    case JInt(i) => Some(Some(i))
    case JStr(_) => None
  }

  function AsStr(j: Json): Option<Option<string>> {
    match j
    case JNull => Some(None)
    case JStr(s) => Some(Some(s))
    case JInt(_) => None
  }

  /** `data.get(key)` read as an optional integer. */
  function GetInt(d: map<string, Json>, key: string): Option<Option<int>> {
    if key in d then AsInt(d[key]) else Some(None)
  }

  function GetStr(d: map<string, Json>, key: string): Option<Option<string>> {
    if key in d then AsStr(d[key]) else Some(None)
  }

  /** `from_dict`: None when `data["url"]` raises KeyError or a value has a
      JSON type the feed's attribute cannot hold. A missing
      `original_channel_id` falls back to the legacy `channel_id`. */
  function FromDict(d: map<string, Json>): (r: Option<FeedRecord>)
    ensures "url" !in d ==> r.None?
    ensures r.Some? ==> d["url"] == JStr(r.value.url)
    ensures r.Some? && "original_channel_id" in d ==> AsInt(d["original_channel_id"]) == Some(r.value.originalChannelId)
    ensures r.Some? && "original_channel_id" !in d ==> GetInt(d, "channel_id") == Some(r.value.originalChannelId)
    ensures r.Some? ==> GetInt(d, "guild_id") == Some(r.value.guildId) && GetInt(d, "added_by") == Some(r.value.addedBy)
    ensures r.Some? ==> (GetStr(d, "last_seen_entry_id") == Some(r.value.lastSeenEntryId)
                     && GetStr(d, "feed_title") == Some(r.value.feedTitle))
  {
    if "url" !in d || !d["url"].JStr? then None
    else
      var original := if "original_channel_id" in d then AsInt(d["original_channel_id"]) else GetInt(d, "channel_id");
      var guild := GetInt(d, "guild_id");
      var lastSeen := GetStr(d, "last_seen_entry_id");
      var title := GetStr(d, "feed_title");
      var addedBy := GetInt(d, "added_by");
      if original.None? || guild.None? || lastSeen.None? || title.None? || addedBy.None? then None
      else Some(FeedRecord(d["url"].s, original.value, guild.value, lastSeen.value, title.value, addedBy.value))
  }

  /** Saving a feed and loading it back gives the same six attributes. */
  lemma FromDictToDict(r: FeedRecord)
    ensures FromDict(RecordDict(r)) == Some(r)
  {
    var d := RecordDict(r);
    assert d["url"] == JStr(r.url);
    assert AsInt(d["original_channel_id"]) == Some(r.originalChannelId);
    assert GetInt(d, "guild_id") == Some(r.guildId);
    assert GetInt(d, "added_by") == Some(r.addedBy);
    assert GetStr(d, "last_seen_entry_id") == Some(r.lastSeenEntryId);
    assert GetStr(d, "feed_title") == Some(r.feedTitle);
  }

  /** A dictionary saved before the attribute was renamed keeps its channel. */
  lemma LegacyChannelId(url: string, channel: int, guild: int)
    ensures FromDict(map["url" := JStr(url), "channel_id" := JInt(channel), "guild_id" := JInt(guild)])
            == Some(FeedRecord(url, Some(channel), Some(guild), None, None, None))
  {
    var d := map["url" := JStr(url), "channel_id" := JInt(channel), "guild_id" := JInt(guild)];
    assert "original_channel_id" !in d && "last_seen_entry_id" !in d && "feed_title" !in d && "added_by" !in d;
  }

  class RSSFeed {
    const url: string
    const originalChannelId: Option<int>
    const guildId: Option<int>
    const addedBy: Option<int>
    var lastSeenEntryId: Option<string>
    var feedTitle: Option<string>
    var errorCount: int

    /** `RSSFeed(...)`, also as `from_dict` calls it; the error count starts at 0. */
    constructor(r: FeedRecord)
      ensures Record() == r && errorCount == 0
    {
      url, originalChannelId, guildId, addedBy := r.url, r.originalChannelId, r.guildId, r.addedBy;
      lastSeenEntryId, feedTitle := r.lastSeenEntryId, r.feedTitle;
      errorCount := 0;
    }

    function Record(): FeedRecord
      reads this
    {
      FeedRecord(url, originalChannelId, guildId, lastSeenEntryId, feedTitle, addedBy)
    }

    /** `to_dict`. */
    function ToDict(): (d: map<string, Json>)
      reads this
      ensures FromDict(d) == Some(Record())
    {
      FromDictToDict(Record());
      RecordDict(Record())
    }

    function State(): FeedState
      reads this
    {
      FeedState(lastSeenEntryId, feedTitle, errorCount)
    }
  }

  // ---------------------------------------------------------------------------
  // Entries and articles
  // ---------------------------------------------------------------------------

  /** A parsed feed entry: the attributes the cog reads, None when absent,
      and `digest`, the md5 hexdigest of its title, summary and date. */
  datatype FeedEntry = FeedEntry(id: Option<string>, link: Option<string>, title: Option<string>,
                                 summary: Option<string>, description: Option<string>, digest: string)

  /** Python truthiness of an optional string. */
  predicate Truthy(s: Option<string>) { s.Some? && s.value != "" }

  /** `get_entry_id`: the id, else the link, else the digest. */
  function EntryId(e: FeedEntry): (id: string)
    ensures Truthy(e.id) ==> id == e.id.value
    ensures !Truthy(e.id) && Truthy(e.link) ==> id == e.link.value
    ensures !Truthy(e.id) && !Truthy(e.link) ==> id == e.digest
  {
    if Truthy(e.id) then e.id.value else if Truthy(e.link) then e.link.value else e.digest
  }

  /** RSS_MAX_DESCRIPTION_LENGTH. */
  const MaxDescriptionLength: int := 300

  /** Cut a summary longer than `maxLen` to `summary[:maxLen-3] + "..."`. */
  function Truncate(s: string, maxLen: int): (r: string)
    ensures |s| <= maxLen ==> r == s
    ensures |s| > maxLen && maxLen >= 3 ==> |r| == maxLen && r[..maxLen - 3] == s[..maxLen - 3]
                                            && r[maxLen - 3..] == "..."
  {
    if |s| > maxLen then PyPrefix(s, maxLen - 3) + "..." else s
  }

  datatype Article = Article(title: string, link: Option<string>, summary: string, feedTitle: string)

  /** `extract_article_data`, with the HTML clean-up left out. */
  function ExtractArticle(e: FeedEntry, feedTitle: string): (a: Article)
    ensures |a.summary| <= MaxDescriptionLength
    ensures a.feedTitle == feedTitle && a.link == e.link
  {
    var raw := if e.summary.Some? then e.summary.value
               else if e.description.Some? then e.description.value
               else "No summary available.";
    Article(if e.title.Some? then e.title.value else "No Title", e.link,
            if raw != "" then Truncate(raw, MaxDescriptionLength) else raw, feedTitle)
  }

  // ---------------------------------------------------------------------------
  // Selecting new entries
  // ---------------------------------------------------------------------------

  /** The entries before the first one whose id is the last seen id. */
  function TakeUntilSeen(entries: seq<FeedEntry>, lastSeen: Option<string>): (r: seq<FeedEntry>)
    ensures |r| <= |entries| && r == entries[..|r|]
    ensures Truthy(lastSeen) ==> forall k :: 0 <= k < |r| ==> EntryId(r[k]) != lastSeen.value
    ensures |r| < |entries| ==> Truthy(lastSeen) && EntryId(entries[|r|]) == lastSeen.value
  {
    if entries == [] then []
    else if Truthy(lastSeen) && EntryId(entries[0]) == lastSeen.value then []
    else [entries[0]] + TakeUntilSeen(entries[1..], lastSeen)
  }

  /** The loop that builds `newly_fetched_entries`, stopping at the last
      seen entry. */
  method NewlyFetched(entries: seq<FeedEntry>, lastSeen: Option<string>) returns (newly: seq<FeedEntry>)
    ensures newly == TakeUntilSeen(entries, lastSeen)
  {
    newly := [];
    var i := 0;
    while i < |entries| && !(Truthy(lastSeen) && EntryId(entries[i]) == lastSeen.value)
      invariant 0 <= i <= |entries| && newly == entries[..i]
      invariant Truthy(lastSeen) ==> forall k :: 0 <= k < i ==> EntryId(entries[k]) != lastSeen.value
    {
      newly := newly + [entries[i]];
      i := i + 1;
    }
  }

  /** RSS_MAX_ARTICLES_ON_FIRST_FETCH. */
  const MaxFirstFetch: nat := 1

  /** `entries_to_collect`: the new entries oldest first, of which only the
      last `maxFirst` are kept on a feed's first fetch. */
  function EntriesToCollect(entries: seq<FeedEntry>, lastSeen: Option<string>, maxFirst: nat): (c: seq<FeedEntry>)
    ensures lastSeen.Some? ==> c == Reverse(TakeUntilSeen(entries, lastSeen))
    ensures lastSeen.None? ==> c == PyLast(Reverse(TakeUntilSeen(entries, lastSeen)), maxFirst)
  {
    var oldestFirst := Reverse(TakeUntilSeen(entries, lastSeen));
    if lastSeen.None? && oldestFirst != [] then PyLast(oldestFirst, maxFirst) else oldestFirst
  }

  /** The most recent entry collected is the first entry of the feed. */
  lemma CollectedNewestLast(entries: seq<FeedEntry>, lastSeen: Option<string>, maxFirst: nat)
    requires EntriesToCollect(entries, lastSeen, maxFirst) != []
    ensures var c := EntriesToCollect(entries, lastSeen, maxFirst);
            entries != [] && c[|c| - 1] == entries[0]
  {
    var newly := TakeUntilSeen(entries, lastSeen);
    var r := Reverse(newly);
    assert r[|r| - 1] == newly[0];
  }

  /** A first fetch collects at most `maxFirst` entries. */
  lemma FirstFetchBounded(entries: seq<FeedEntry>, maxFirst: nat)
    requires maxFirst > 0
    ensures |EntriesToCollect(entries, None, maxFirst)| <= maxFirst
  {
  }

  /** A feed seen before collects all its new entries, oldest first. */
  lemma SeenFeedCollectsReversed(entries: seq<FeedEntry>, lastSeen: Option<string>, maxFirst: nat, k: nat)
    requires lastSeen.Some? && k < |EntriesToCollect(entries, lastSeen, maxFirst)|
    ensures var c := EntriesToCollect(entries, lastSeen, maxFirst);
            var newly := TakeUntilSeen(entries, lastSeen);
            |c| == |newly| && c[k] == newly[|c| - 1 - k]
  {
  }

  /** A first fetch with more than `maxFirst` entries collects the newest
      `maxFirst` of them, oldest first. */
  lemma FirstFetchCollectsNewest(entries: seq<FeedEntry>, maxFirst: nat, k: nat)
    requires 0 < maxFirst < |TakeUntilSeen(entries, None)| && k < maxFirst
    ensures var c := EntriesToCollect(entries, None, maxFirst);
            |c| == maxFirst && c[k] == entries[maxFirst - 1 - k]
  {
    LastOfReverse(TakeUntilSeen(entries, None), maxFirst, k);
  }

  /** The last `m` elements of `Reverse(s)` are the first `m` of `s`, backwards. */
  lemma LastOfReverse<T>(s: seq<T>, m: nat, k: nat)
    requires 0 < m < |s| && k < m
    ensures |PyLast(Reverse(s), m)| == m && PyLast(Reverse(s), m)[k] == s[m - 1 - k]
  {
  }

  /** The loop over `entries_to_collect`: the articles in order and the id
      of the last entry. */
  method CollectEntries(toCollect: seq<FeedEntry>, feedTitle: string) returns (articles: seq<Article>, latest: Option<string>)
    ensures articles == Articles(toCollect, feedTitle)
    ensures latest == if toCollect == [] then None else Some(EntryId(toCollect[|toCollect| - 1]))
  {
    articles := [];
    latest := None;
    for i := 0 to |toCollect|
      invariant articles == Articles(toCollect[..i], feedTitle)
      invariant latest == if i == 0 then None else Some(EntryId(toCollect[i - 1]))
    {
      articles := articles + [ExtractArticle(toCollect[i], feedTitle)];
      latest := Some(EntryId(toCollect[i]));
    }
    assert toCollect[..|toCollect|] == toCollect;
  }

  function Articles(entries: seq<FeedEntry>, feedTitle: string): (a: seq<Article>)
    ensures |a| == |entries|
    ensures forall k :: 0 <= k < |a| ==> a[k] == ExtractArticle(entries[k], feedTitle)
  {
    seq(|entries|, k requires 0 <= k < |entries| => ExtractArticle(entries[k], feedTitle))
  }

  // ---------------------------------------------------------------------------
  // Checking one feed
  // ---------------------------------------------------------------------------

  /** The attributes a check updates. */
  datatype FeedState = FeedState(lastSeen: Option<string>, title: Option<string>, errorCount: int)

  /** What fetching a feed gave: an exception before any response, or a
      response with its status, the parsed feed title and the entries. */
  datatype Fetch = Raised | Response(status: int, title: Option<string>, entries: seq<FeedEntry>)

  predicate Fetched(f: Fetch) { f.Response? && f.status == 200 }

  /** The feed title after the check: a parsed title fills a missing one. */
  function TitleAfter(current: Option<string>, parsed: Option<string>): Option<string> {
    if !Truthy(current) && Truthy(parsed) then parsed else current
  }

  /** The feed title the collected articles carry:
      `feed_title or parsed_feed.feed.get('title', url)`. */
  function ArticleFeedTitle(url: string, title: Option<string>, parsed: Option<string>): string {
    if Truthy(title) then title.value else if parsed.Some? then parsed.value else url
  }

  /** The articles one check collects. */
  function CheckArticles(url: string, s: FeedState, f: Fetch): (a: seq<Article>)
    ensures !Fetched(f) ==> a == []
  {
    if !Fetched(f) then []
    else
      var title := TitleAfter(s.title, f.title);
      Articles(EntriesToCollect(f.entries, s.lastSeen, MaxFirstFetch), ArticleFeedTitle(url, title, f.title))
  }

  /** The feed's attributes after one check. */
  function CheckState(s: FeedState, f: Fetch): (r: FeedState)
    ensures !Fetched(f) ==> r == s.(errorCount := s.errorCount + 1)
    ensures Fetched(f) ==> r.errorCount == 0 && r.title == TitleAfter(s.title, f.title)
  {
    if !Fetched(f) then s.(errorCount := s.errorCount + 1)
    else
      var c := EntriesToCollect(f.entries, s.lastSeen, MaxFirstFetch);
      var lastSeen := if c != [] && EntryId(c[|c| - 1]) != "" then Some(EntryId(c[|c| - 1])) else s.lastSeen;
      FeedState(lastSeen, TitleAfter(s.title, f.title), 0)
  }

  /** After a check that collected something, the last seen id is the id of
      the newest entry of the feed, whatever was fetched before. */
  lemma LastSeenIsNewest(s: FeedState, f: Fetch)
    requires Fetched(f) && EntriesToCollect(f.entries, s.lastSeen, MaxFirstFetch) != []
    requires EntryId(f.entries[0]) != ""
    ensures CheckState(s, f).lastSeen == Some(EntryId(f.entries[0]))
  {
    CollectedNewestLast(f.entries, s.lastSeen, MaxFirstFetch);
  }

  /** Checking the same entries again collects nothing more. */
  lemma RecheckCollectsNothing(url: string, s: FeedState, f: Fetch)
    requires Fetched(f) && EntriesToCollect(f.entries, s.lastSeen, MaxFirstFetch) != []
    requires EntryId(f.entries[0]) != ""
    ensures CheckArticles(url, CheckState(s, f), f) == []
  {
    LastSeenIsNewest(s, f);
    var s1 := CheckState(s, f);
    assert TakeUntilSeen(f.entries, s1.lastSeen) == [];
  }

  /** A feed that has not reached its last seen entry again still shows
      everything new, oldest first. */
  lemma SeenFeedCollectsAllNew(url: string, s: FeedState, f: Fetch)
    requires Fetched(f) && s.lastSeen.Some?
    ensures CheckArticles(url, s, f)
            == Articles(Reverse(TakeUntilSeen(f.entries, s.lastSeen)),
                        ArticleFeedTitle(url, TitleAfter(s.title, f.title), f.title))
  {
  }

  // ---------------------------------------------------------------------------
  // The summary post
  // ---------------------------------------------------------------------------

  /** RSS_MIN_ARTICLES_FOR_SUMMARY, RSS_MAX_ARTICLES_IN_PROMPT_FOR_SUMMARY,
      DISCORD_MESSAGE_MAX_LENGTH and RSS_SUMMARY_POST_HEADER. */
  const MinArticles: nat := 3
  const MaxArticlesInPrompt: nat := 15
  const MessageMaxLength: nat := 2000
  const SummaryHeader: string := "\U{1F4F0} **Hourly News Roundup!**"

  /** The articles one summary covers: `collected[:15]`. */
  function SummaryBatch(collected: seq<Article>): (b: seq<Article>)
    ensures |b| <= MaxArticlesInPrompt && |b| <= |collected| && b == collected[..|b|]
    ensures |collected| >= MaxArticlesInPrompt ==> |b| == MaxArticlesInPrompt
    ensures |collected| < MaxArticlesInPrompt ==> b == collected
  {
    PyPrefix(collected, MaxArticlesInPrompt)
  }

  /** Posting drops exactly the summarised prefix: the batch followed by
      what remains is the list as it was. */
  lemma BatchThenRest(collected: seq<Article>)
    ensures SummaryBatch(collected) + collected[|SummaryBatch(collected)|..] == collected
  {
  }

  /** `for i in range(0, len(message), max_len): message[i:i + max_len]`. */
  method SplitMessage(message: string, maxLen: nat) returns (chunks: seq<string>)
    requires maxLen > 0
    ensures Concat(chunks) == message
    ensures forall k :: 0 <= k < |chunks| ==> 0 < |chunks[k]| <= maxLen
    ensures forall k :: 0 <= k < |chunks| - 1 ==> |chunks[k]| == maxLen
  {
    chunks := [];
    var i := 0;
    while i < |message|
      invariant 0 <= i <= |message| && Concat(chunks) == message[..i]
      invariant forall k :: 0 <= k < |chunks| ==> 0 < |chunks[k]| <= maxLen
      invariant forall k :: 0 <= k < |chunks| ==> |chunks[k]| == maxLen || (k == |chunks| - 1 && i == |message|)
      decreases |message| - i
    {
      var end := if i + maxLen <= |message| then i + maxLen else |message|;
      var chunk := message[i..end];
      ConcatAppend(chunks, chunk);
      assert message[..end] == message[..i] + chunk;
      chunks := chunks + [chunk];
      i := end;
    }
    assert message[..i] == message;
  }

  datatype Skip = Disabled | NoChannel | NothingCollected | TooFew | NoModel | NoSummary

  datatype SummaryOutcome = Skipped(why: Skip) | Posted(chunks: seq<string>)

  datatype AddFeedReply = AlreadyExists | InvalidUrl | FeedAdded

  // ---------------------------------------------------------------------------
  // The cog
  // ---------------------------------------------------------------------------

  /** No feed object is listed twice. */
  predicate Distinct(feeds: seq<RSSFeed>) {
    forall a, b :: 0 <= a < b < |feeds| ==> feeds[a] != feeds[b]
  }

  /** The feeds of one guild, in subscription order. */
  function GuildFeeds(feeds: seq<RSSFeed>, guild: int): (r: seq<RSSFeed>)
    ensures forall k :: 0 <= k < |r| ==> r[k] in feeds && r[k].guildId == Some(guild)
    ensures forall k :: 0 <= k < |feeds| && feeds[k].guildId == Some(guild) ==> feeds[k] in r
    ensures |r| <= |feeds|
  {
    if feeds == [] then []
    else (if feeds[0].guildId == Some(guild) then [feeds[0]] else []) + GuildFeeds(feeds[1..], guild)
  }

  /** Selecting a guild's feeds keeps their order: the feeds of a list
      joined to another are the feeds of the first followed by those of the
      second. */
  lemma {:induction false} GuildFeedsAppend(a: seq<RSSFeed>, b: seq<RSSFeed>, guild: int)
    ensures GuildFeeds(a + b, guild) == GuildFeeds(a, guild) + GuildFeeds(b, guild)
  {
    if a == [] {
      assert a + b == b;
    } else {
      assert (a + b)[0] == a[0] && (a + b)[1..] == a[1..] + b;
      GuildFeedsAppend(a[1..], b, guild);
    }
  }

  /** A single feed is kept iff it belongs to the guild. */
  lemma GuildFeedsSingle(f: RSSFeed, guild: int)
    ensures GuildFeeds([f], guild) == if f.guildId == Some(guild) then [f] else []
  {
    assert [f][1..] == [];
  }

  /** The first of `feeds` with the given url, if any. */
  function FindUrl(feeds: seq<RSSFeed>, url: string): (r: Option<RSSFeed>)
    ensures r.Some? ==> r.value in feeds && r.value.url == url
    ensures r.None? ==> forall k :: 0 <= k < |feeds| ==> feeds[k].url != url
  {
    if feeds == [] then None
    else if feeds[0].url == url then Some(feeds[0])
    else FindUrl(feeds[1..], url)
  }

  /** The feed `remove_feed` picks: a number is a 1-based position among the
      guild's feeds, any other text a url. */
  function ResolveFeed(feeds: seq<RSSFeed>, guild: int, identifier: string): (r: Option<RSSFeed>)
    ensures r.Some? ==> r.value in feeds && r.value.guildId == Some(guild)
    ensures ParseInt(identifier).Some? ==>
              var g := GuildFeeds(feeds, guild);
              var index := ParseInt(identifier).value - 1;
              r == if 0 <= index < |g| then Some(g[index]) else None
    ensures ParseInt(identifier).None? ==> r == FindUrl(GuildFeeds(feeds, guild), identifier)
  {
    var g := GuildFeeds(feeds, guild);
    var n := ParseInt(identifier);
    if n.Some? then
      var index := n.value - 1;
      if 0 <= index < |g| then Some(g[index]) else None
    else FindUrl(g, identifier)
  }

  /** Some feed of the guild already has this url. */
  predicate Subscribed(feeds: seq<RSSFeed>, guild: int, url: string) {
    exists k :: 0 <= k < |feeds| && feeds[k].url == url && feeds[k].guildId == Some(guild)
  }

  /** `from_dict` over a saved list; one bad dictionary ends the load. */
  function LoadRecords(stored: seq<map<string, Json>>): (r: Option<seq<FeedRecord>>)
    ensures r.Some? ==> |r.value| == |stored| && forall k :: 0 <= k < |stored| ==> FromDict(stored[k]) == Some(r.value[k])
    ensures r.None? ==> exists k :: 0 <= k < |stored| && FromDict(stored[k]).None?
  {
    if stored == [] then Some([])
    else
      var first := FromDict(stored[0]);
      var rest := LoadRecords(stored[1..]);
      if first.None? then None
      else if rest.None? then
        assert forall k :: 0 <= k < |stored| - 1 ==> stored[1..][k] == stored[k + 1];
        None
      else Some([first.value] + rest.value)
  }

  class RSSCog {
    var feeds: seq<RSSFeed>
    var collected: seq<Article>

    predicate Valid()
      reads this
    {
      Distinct(feeds)
    }

    constructor()
      ensures Valid() && feeds == [] && collected == []
    {
      feeds := [];
      collected := [];
    }

    /** `_load_feeds`: `stored` is the decoded file, None when it is missing
        or cannot be read. Any failure keeps the feeds as they were. */
    method LoadFeeds(stored: Option<seq<map<string, Json>>>)
      requires Valid()
      modifies this
      ensures Valid() && collected == old(collected)
      ensures stored.None? || LoadRecords(stored.value).None? ==> feeds == old(feeds)
      ensures stored.Some? && LoadRecords(stored.value).Some? ==>
                |feeds| == |stored.value|
                && forall k :: 0 <= k < |feeds| ==> (feeds[k].Record() == LoadRecords(stored.value).value[k]
                                                    && feeds[k].errorCount == 0)
    {
      if stored.None? {
        return;
      }
      var records := LoadRecords(stored.value);
      if records.None? {
        return;
      }
      feeds := NewFeeds(records.value);
    }

    /** One pass of `check_rss_feeds_loop` over `feed`. */
    method CheckFeed(feed: RSSFeed, f: Fetch)
      modifies feed, this
      ensures feed.State() == CheckState(old(feed.State()), f)
      ensures collected == old(collected) + CheckArticles(feed.url, old(feed.State()), f)
      ensures feeds == old(feeds)
    {
      if !f.Response? || f.status != 200 {
        feed.errorCount := feed.errorCount + 1;
        return;
      }
      feed.errorCount := 0;
      ghost var s := old(feed.State());
      var currentTitle := feed.feedTitle;
      if !Truthy(currentTitle) && Truthy(f.title) {
        feed.feedTitle := f.title;
      }
      var newly := NewlyFetched(f.entries, feed.lastSeenEntryId);
      var toCollect := Reverse(newly);
      if feed.lastSeenEntryId.None? && toCollect != [] {
        toCollect := PyLast(toCollect, MaxFirstFetch);
      }
      assert toCollect == EntriesToCollect(f.entries, s.lastSeen, MaxFirstFetch);
      if toCollect != [] {
        var articles, latest := CollectEntries(toCollect, ArticleFeedTitle(feed.url, feed.feedTitle, f.title));
        collected := collected + articles;
        if latest.Some? && latest.value != "" {
          feed.lastSeenEntryId := latest;
        }
      }
    }

    /** `check_rss_feeds_loop`: every feed is checked once, in order, with
        `fetches[k]` the result of fetching `feeds[k]`; `gains[k]` are the
        articles feed `k` adds. */
    method CheckAllFeeds(fetches: seq<Fetch>) returns (ghost gains: seq<seq<Article>>)
      requires Valid() && |fetches| == |feeds|
      modifies this, feeds
      ensures Valid() && feeds == old(feeds)
      ensures States(feeds) == Advanced(old(States(feeds)), fetches, |feeds|)
      ensures collected == old(collected) + Concat(gains)
      ensures gains == Gains(feeds, old(States(feeds)), fetches, |feeds|)
    {
      var list := feeds;
      ghost var before := States(list);
      ghost var start := collected;
      gains := [];
      for i := 0 to |list|
        invariant feeds == list
        invariant States(list) == Advanced(before, fetches, i)
        invariant gains == Gains(list, before, fetches, i)
        invariant collected == start + Concat(gains)
      {
        gains := CheckStep(list, fetches, i, before, start, gains);
      }
    }

    /** One iteration of `CheckAllFeeds`: feed `i` is checked, and the
        loop's account of the states and the collected articles moves on
        from `i` feeds to `i + 1`. */
    method CheckStep(list: seq<RSSFeed>, fetches: seq<Fetch>, i: nat, ghost before: seq<FeedState>,
                     ghost start: seq<Article>, ghost gains: seq<seq<Article>>)
      returns (ghost gains': seq<seq<Article>>)
      requires feeds == list && Distinct(list) && i < |list| == |fetches| == |before|
      requires States(list) == Advanced(before, fetches, i)
      requires gains == Gains(list, before, fetches, i)
      requires collected == start + Concat(gains)
      modifies this, list[i]
      ensures feeds == list
      ensures States(list) == Advanced(before, fetches, i + 1)
      ensures gains' == Gains(list, before, fetches, i + 1)
      ensures collected == start + Concat(gains')
    {
      ghost var pre := States(list);
      ghost var gain := CheckNext(list, i, fetches[i], before[i]);
      gains' := gains + [gain];
      AdvancedStep(before, fetches, i);
      GainsStep(list, before, fetches, i);
      CollectStep(start, gains, gain, old(collected), collected);
    }

    /** Checking feed `i` changes that feed's state only. */
    method CheckNext(list: seq<RSSFeed>, i: nat, f: Fetch, ghost s: FeedState) returns (ghost gain: seq<Article>)
      requires feeds == list && Distinct(list) && i < |list| && list[i].State() == s
      modifies this, list[i]
      ensures feeds == list
      ensures gain == CheckArticles(list[i].url, s, f) && collected == old(collected) + gain
      ensures States(list) == old(States(list))[i := CheckState(s, f)]
    {
      CheckFeed(list[i], f);
      gain := CheckArticles(list[i].url, s, f);
      assert forall k :: 0 <= k < |list| && k != i ==> list[k] != list[i];
    }

    /** `post_hourly_summary_loop`. `reply` is Gemini's answer, None when the
        call raised; sending the chunks does not change the state. */
    method PostSummary(enabled: bool, channelId: int, channelFound: bool, modelReady: bool, reply: Option<string>)
      returns (outcome: SummaryOutcome)
      modifies this
      ensures feeds == old(feeds)
      ensures outcome.Posted? ==> Truthy(reply) && collected == old(collected)[|SummaryBatch(old(collected))|..]
                                  && Concat(outcome.chunks) == SummaryHeader + "\n\n" + reply.value
                                  && forall k :: 0 <= k < |outcome.chunks| ==> |outcome.chunks[k]| <= MessageMaxLength
      ensures outcome.Posted? <==> enabled && channelId != 0 && channelFound && |old(collected)| >= MinArticles
                                   && modelReady && Truthy(reply)
      ensures outcome.Skipped? ==> collected == old(collected)
      ensures outcome == Skipped(TooFew) <==> enabled && channelId != 0 && channelFound
                                              && 0 < |old(collected)| < MinArticles
    {
      if !enabled {
        return Skipped(Disabled);
      }
      if channelId == 0 || !channelFound {
        return Skipped(NoChannel);
      }
      if collected == [] {
        return Skipped(NothingCollected);
      }
      if |collected| < MinArticles {
        return Skipped(TooFew);
      }
      var batch := SummaryBatch(collected);
      if !modelReady {
        return Skipped(NoModel);
      }
      if reply.None? || reply.value == "" {
        return Skipped(NoSummary);
      }
      var chunks := SplitMessage(SummaryHeader + "\n\n" + reply.value, MessageMaxLength);
      collected := collected[|batch|..];
      outcome := Posted(chunks);
    }

    /** `rss add`: `probe` is the validation fetch, None when the url is
        unreachable or not a feed, otherwise the parsed feed title if any. */
    method AddFeed(url: string, guild: int, channel: int, author: int, probe: Option<Option<string>>)
      returns (reply: AddFeedReply)
      requires Valid()
      modifies this
      ensures Valid() && collected == old(collected)
      ensures reply == AlreadyExists <==> Subscribed(old(feeds), guild, url)
      ensures reply == InvalidUrl <==> !Subscribed(old(feeds), guild, url) && probe.None?
      ensures reply != FeedAdded ==> feeds == old(feeds)
      ensures reply == FeedAdded ==>
                |feeds| == |old(feeds)| + 1 && feeds[..|old(feeds)|] == old(feeds) && fresh(feeds[|old(feeds)|])
                && feeds[|old(feeds)|].Record()
                   == FeedRecord(url, Some(channel), Some(guild), None,
                                 Some(if probe.value.Some? then probe.value.value else url), Some(author))
                && feeds[|old(feeds)|].errorCount == 0
    {
      for i := 0 to |feeds|
        invariant forall k :: 0 <= k < i ==> !(feeds[k].url == url && feeds[k].guildId == Some(guild))
      {
        if feeds[i].url == url && feeds[i].guildId == Some(guild) {
          return AlreadyExists;
        }
      }
      if probe.None? {
        return InvalidUrl;
      }
      var title := if probe.value.Some? then probe.value.value else url;
      var feed := new RSSFeed(FeedRecord(url, Some(channel), Some(guild), None, Some(title), Some(author)));
      feeds := feeds + [feed];
      reply := FeedAdded;
    }

    /** `rss remove`: drop the feed the identifier resolves to and no other. */
    method RemoveFeed(guild: int, identifier: string) returns (removed: Option<RSSFeed>)
      requires Valid()
      modifies this
      ensures Valid() && collected == old(collected)
      ensures removed == ResolveFeed(old(feeds), guild, identifier)
      ensures removed.None? ==> feeds == old(feeds)
      ensures removed.Some? ==> exists k :: 0 <= k < |old(feeds)| && old(feeds)[k] == removed.value
                                 && feeds == old(feeds)[..k] + old(feeds)[k + 1..]
    {
      removed := ResolveFeed(feeds, guild, identifier);
      if removed.Some? {
        var k := IndexOf(feeds, removed.value);
        feeds := feeds[..k] + feeds[k + 1..];
      }
    }
  }

  /** `[RSSFeed.from_dict(data) for data in feeds_data]` once every
      dictionary has been read: one new object per record. */
  method NewFeeds(records: seq<FeedRecord>) returns (loaded: seq<RSSFeed>)
    ensures |loaded| == |records| && Distinct(loaded)
    ensures forall k :: 0 <= k < |loaded| ==> fresh(loaded[k])
    ensures forall k :: 0 <= k < |loaded| ==> loaded[k].Record() == records[k] && loaded[k].errorCount == 0
  {
    loaded := [];
    for i := 0 to |records|
      invariant |loaded| == i && Distinct(loaded)
      invariant forall k :: 0 <= k < i ==> fresh(loaded[k])
      invariant forall k :: 0 <= k < i ==> loaded[k].Record() == records[k] && loaded[k].errorCount == 0
    {
      var feed := new RSSFeed(records[i]);
      loaded := loaded + [feed];
    }
  }

  /** The state of each feed. */
  function States(feeds: seq<RSSFeed>): (r: seq<FeedState>)
    reads feeds
    ensures |r| == |feeds| && forall k :: 0 <= k < |feeds| ==> r[k] == feeds[k].State()
  {
    seq(|feeds|, k requires 0 <= k < |feeds| reads feeds => feeds[k].State())
  }

  /** The feed states after the first `n` feeds have been checked. */
  function Advanced(states: seq<FeedState>, fetches: seq<Fetch>, n: nat): (r: seq<FeedState>)
    requires n <= |states| == |fetches|
    ensures |r| == |states|
    ensures forall k :: 0 <= k < n ==> r[k] == CheckState(states[k], fetches[k])
    ensures forall k :: n <= k < |states| ==> r[k] == states[k]
  {
    seq(|states|, k requires 0 <= k < |states| => if k < n then CheckState(states[k], fetches[k]) else states[k])
  }

  /** The articles each of the first `n` feeds adds when checked from
      `states` with `fetches`. */
  function Gains(feeds: seq<RSSFeed>, states: seq<FeedState>, fetches: seq<Fetch>, n: nat): (r: seq<seq<Article>>)
    requires n <= |feeds| == |states| == |fetches|
    ensures |r| == n
    ensures forall k :: 0 <= k < n ==> r[k] == CheckArticles(feeds[k].url, states[k], fetches[k])
  {
    seq(n, k requires 0 <= k < n => CheckArticles(feeds[k].url, states[k], fetches[k]))
  }

  lemma GainsStep(feeds: seq<RSSFeed>, states: seq<FeedState>, fetches: seq<Fetch>, n: nat)
    requires n < |feeds| == |states| == |fetches|
    ensures Gains(feeds, states, fetches, n + 1) == Gains(feeds, states, fetches, n) + [CheckArticles(feeds[n].url, states[n], fetches[n])]
  {
  }

  /** Adding one more feed's articles to the collected list. */
  lemma CollectStep(start: seq<Article>, gains: seq<seq<Article>>, gain: seq<Article>, c0: seq<Article>, c1: seq<Article>)
    requires c0 == start + Concat(gains) && c1 == c0 + gain
    ensures c1 == start + Concat(gains + [gain])
  {
    ConcatAppend(gains, gain);
    assert (start + Concat(gains)) + gain == start + (Concat(gains) + gain);
  }

  lemma AdvancedStep(states: seq<FeedState>, fetches: seq<Fetch>, n: nat)
    requires n < |states| == |fetches|
    ensures Advanced(states, fetches, n + 1) == Advanced(states, fetches, n)[n := CheckState(states[n], fetches[n])]
  {
  }

  /** The position of `f` in `feeds`, as `list.remove` finds it. */
  function IndexOf(feeds: seq<RSSFeed>, f: RSSFeed): (k: nat)
    requires f in feeds
    ensures k < |feeds| && feeds[k] == f
    ensures forall j :: 0 <= j < k ==> feeds[j] != f
  {
    if feeds[0] == f then 0 else 1 + IndexOf(feeds[1..], f)
  }
}
