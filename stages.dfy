/**
 * The stages of `run_all_agents_return_data` (backend_logic.py lines 12-136),
 * each as the loop the pipeline runs, proved against a function that says
 * what the loop produces. The collaborators (scraper, summarizer,
 * classifier, landing-page watcher, handle discovery, social scrapers) are
 * pure functions held in `Agents`.
 */
module Stages {
  import opened Wrappers
  import opened Dicts
  import opened Strings
  import opened Records
  import opened Domains
  import opened Handles

  /** The external agents, each as the function from its inputs to its output. */
  datatype Agents = Agents(
    scrape: seq<Url> -> Dict<Url, string>,
    summarize: (string, Url) -> string,
    classify: (string, Url) -> seq<Item>,
    watch: seq<Url> -> Dict<Url, LandingResult>,
    findTwitter: Url -> Option<string>,
    scrapeTweets: (string, nat) -> seq<Tweet>,
    findYouTube: Url -> Option<string>,
    scrapeVideos: (string, nat) -> seq<Video>)

  /** `max_tweets=5` (line 81) and `max_videos=5` (line 102). */
  const MaxTweets: nat := 5
  const MaxVideos: nat := 5

  // ---------------------------------------------------------------------
  // Summarize and classify (lines 27-42)
  // ---------------------------------------------------------------------

  /**
   * Line 29: the comprehension walks the scraped entries in order; entry `k`
   * of the result is the URL of scraped entry `k` with the summary of its text.
   */
  function Summaries(agents: Agents, scraped: Dict<Url, string>): (r: Dict<Url, string>)
    ensures |Items(r)| == |Items(scraped)|
    ensures forall k | 0 <= k < |Items(r)| ::
      Items(r)[k].0 == Items(scraped)[k].0 &&
      Items(r)[k].1 == agents.summarize(Items(scraped)[k].1, Items(scraped)[k].0)
    ensures r.keys == scraped.keys
    ensures forall u | u in r.items :: u in scraped.items && r.items[u] == agents.summarize(scraped.items[u], u)
  {
    RawDict(scraped.keys, map u | u in scraped.items :: agents.summarize(scraped.items[u], u))
  }

  function Categories(agents: Agents, summaries: Dict<Url, string>, url: Url): seq<Item>
    requires url in summaries.items
  {
    agents.classify(summaries.items[url], url)
  }

  function ItemLines(items: seq<Item>): seq<LogLine> {
    seq(|items|, k requires 0 <= k < |items| => ItemLine(items[k]))
  }

  /** Lines 36-40 for one summarized URL. */
  function ClassifyEntry(agents: Agents, url: Url, summary: string): seq<LogLine> {
    [UrlHeader(url), SummaryText(summary)] + ItemLines(agents.classify(summary, url))
  }

  function ClassifyBlock(agents: Agents): ((Url, string)) -> seq<LogLine> {
    (entry: (Url, string)) => ClassifyEntry(agents, entry.0, entry.1)
  }

  /** The classification log: one block per summarized URL, in the summaries' order. */
  function ClassifyLog(agents: Agents, summaries: Dict<Url, string>): seq<LogLine> {
    Blocks(ClassifyBlock(agents), Items(summaries))
  }

  /** The assignments `classified_data[domain] = categories` in the order they happen. */
  function ClassifyPairs(agents: Agents, summaries: Dict<Url, string>): (ps: seq<(string, seq<Item>)>)
    ensures |ps| == |summaries.keys|
  {
    var keys := summaries.keys;
    seq(|keys|, k requires 0 <= k < |keys| => (DomainKey(keys[k]), Categories(agents, summaries, keys[k])))
  }

  /** No later URL of `keys` has the same domain key as `keys[i]`. */
  predicate LastOfItsDomain(keys: seq<Url>, i: nat)
    requires i < |keys|
  {
    forall j | i < j < |keys| :: DomainKey(keys[j]) != DomainKey(keys[i])
  }

  /** Lines 36-40: log one URL, its summary and its classified items, and return the items. */
  method ClassifyUrl(agents: Agents, url: Url, summary: string, logs: seq<LogLine>)
    returns (logs': seq<LogLine>, categories: seq<Item>)
    ensures logs' == logs + ClassifyEntry(agents, url, summary)
    ensures categories == agents.classify(summary, url)
  {
    logs' := logs + [UrlHeader(url), SummaryText(summary)];
    ghost var headed := logs';
    categories := agents.classify(summary, url);
    var k := 0;
    while k < |categories|
      invariant 0 <= k <= |categories|
      invariant logs' == headed + ItemLines(categories[..k])
    {
      assert ItemLines(categories[..k + 1]) == ItemLines(categories[..k]) + [ItemLine(categories[k])];
      logs' := logs' + [ItemLine(categories[k])];
      k := k + 1;
    }
    assert categories[..k] == categories;
  }

  /** The classifier loop (lines 35-42). */
  method Classify(agents: Agents, summaries: Dict<Url, string>, logs: seq<LogLine>)
    returns (logs': seq<LogLine>, classified: Dict<string, seq<Item>>)
    ensures logs' == logs + ClassifyLog(agents, summaries)
    ensures classified == FromPairs(ClassifyPairs(agents, summaries))
    ensures classified.items.Keys == set u | u in summaries.keys :: DomainKey(u)
    ensures forall i | 0 <= i < |summaries.keys| && LastOfItsDomain(summaries.keys, i) ::
      DomainKey(summaries.keys[i]) in classified.items &&
      classified.items[DomainKey(summaries.keys[i])] == Categories(agents, summaries, summaries.keys[i])
  {
    var keys := summaries.keys;
    ghost var entries := Items(summaries);
    var pairs := ClassifyPairs(agents, summaries);
    logs' := logs;
    classified := Empty();
    var i := 0;
    while i < |keys|
      invariant 0 <= i <= |keys|
      invariant logs' == logs + Blocks(ClassifyBlock(agents), entries[..i])
      invariant classified == FromPairs(pairs[..i])
    {
      var url := keys[i];
      var summary := summaries.items[url];
      ghost var before := logs';
      var categories;
      logs', categories := ClassifyUrl(agents, url, summary, logs');
      BlocksExtend(ClassifyBlock(agents), logs, entries, i, before, logs');
      FromPairsStep(pairs, i);
      classified := Put(classified, DomainKey(url), categories);
      i := i + 1;
    }
    assert entries[..i] == entries;
    assert pairs[..i] == pairs;
    ClassifiedKeys(agents, summaries);
    ClassifiedLastWins(agents, summaries);
  }

  /** The grouped keys are exactly the domain keys of the summarized URLs. */
  lemma ClassifiedKeys(agents: Agents, summaries: Dict<Url, string>)
    ensures FromPairs(ClassifyPairs(agents, summaries)).items.Keys == set u | u in summaries.keys :: DomainKey(u)
  {
    var keys, pairs := summaries.keys, ClassifyPairs(agents, summaries);
    FromPairsKeySet(pairs);
    assert forall k | 0 <= k < |pairs| :: pairs[k].0 == DomainKey(keys[k]);
  }

  /** When URLs share a domain key, the group holds the categories of the last of them. */
  lemma ClassifiedLastWins(agents: Agents, summaries: Dict<Url, string>)
    ensures forall i | 0 <= i < |summaries.keys| && LastOfItsDomain(summaries.keys, i) ::
      DomainKey(summaries.keys[i]) in FromPairs(ClassifyPairs(agents, summaries)).items &&
      FromPairs(ClassifyPairs(agents, summaries)).items[DomainKey(summaries.keys[i])] == Categories(agents, summaries, summaries.keys[i])
  {
    var keys, pairs := summaries.keys, ClassifyPairs(agents, summaries);
    forall i | 0 <= i < |keys| && LastOfItsDomain(keys, i)
      ensures DomainKey(keys[i]) in FromPairs(pairs).items
      ensures FromPairs(pairs).items[DomainKey(keys[i])] == Categories(agents, summaries, keys[i])
    {
      FromPairsLastWins(pairs, i);
    }
  }

  lemma ClassifyEntrySubjects(agents: Agents, url: Url, summary: string)
    ensures Subjects(ClassifyEntry(agents, url, summary)) == [url]
  {
    var rest := [SummaryText(summary)] + ItemLines(agents.classify(summary, url));
    NoSubjects(rest);
    BlockSubjects(UrlHeader(url), rest, url);
    assert ClassifyEntry(agents, url, summary) == [UrlHeader(url)] + rest;
  }

  /** The classification log takes the summarized URLs one block each, in order. */
  lemma ClassifyLogSubjects(agents: Agents, summaries: Dict<Url, string>)
    ensures Subjects(ClassifyLog(agents, summaries)) == summaries.keys
  {
    var entries := Items(summaries);
    forall k | 0 <= k < |entries|
      ensures Subjects(ClassifyBlock(agents)(entries[k])) == [summaries.keys[k]]
    {
      ClassifyEntrySubjects(agents, entries[k].0, entries[k].1);
    }
    BlocksSubjects(ClassifyBlock(agents), entries, summaries.keys);
  }

  // ---------------------------------------------------------------------
  // Landing-page changes (lines 54-68)
  // ---------------------------------------------------------------------

  function DiffLines(diff: seq<string>): seq<LogLine> {
    seq(|diff|, k requires 0 <= k < |diff| => DiffLine(diff[k]))
  }

  /** Lines 60-68 for one URL: a header, then one of three outcomes by `status`. */
  function LandingEntry(url: Url, result: LandingResult): seq<LogLine> {
    [CheckingLanding(url)] +
    if result.status == "changed" then [ChangesDetected] + DiffLines(result.diff)
    else if result.status == "no_change" then [NoChanges]
    else [CheckFailed(url, result.reason.GetOr("unknown error"))]
  }

  function LandingBlock(): ((Url, LandingResult)) -> seq<LogLine> {
    (entry: (Url, LandingResult)) => LandingEntry(entry.0, entry.1)
  }

  /** The landing log: one block per URL the watcher reported on, in the watcher's order. */
  function LandingLog(landing: Dict<Url, LandingResult>): seq<LogLine> {
    Blocks(LandingBlock(), Items(landing))
  }

  /** Lines 60-68: log the watcher's verdict for one URL. */
  method ReportUrl(url: Url, result: LandingResult, logs: seq<LogLine>) returns (logs': seq<LogLine>)
    ensures logs' == logs + LandingEntry(url, result)
  {
    logs' := logs + [CheckingLanding(url)];
    if result.status == "changed" {
      logs' := logs' + [ChangesDetected];
      ghost var headed := logs';
      var k := 0;
      while k < |result.diff|
        invariant 0 <= k <= |result.diff|
        invariant logs' == headed + DiffLines(result.diff[..k])
      {
        assert DiffLines(result.diff[..k + 1]) == DiffLines(result.diff[..k]) + [DiffLine(result.diff[k])];
        logs' := logs' + [DiffLine(result.diff[k])];
        k := k + 1;
      }
      assert result.diff[..k] == result.diff;
    } else if result.status == "no_change" {
      logs' := logs' + [NoChanges];
    } else {
      logs' := logs' + [CheckFailed(url, result.reason.GetOr("unknown error"))];
    }
  }

  /** The logging loop over the watcher's results (lines 59-68). */
  method ReportLanding(landing: Dict<Url, LandingResult>, logs: seq<LogLine>) returns (logs': seq<LogLine>)
    ensures logs' == logs + LandingLog(landing)
  {
    ghost var entries := Items(landing);
    logs' := logs;
    var i := 0;
    while i < |landing.keys|
      invariant 0 <= i <= |landing.keys|
      invariant logs' == logs + Blocks(LandingBlock(), entries[..i])
    {
      var url := landing.keys[i];
      ghost var before := logs';
      logs' := ReportUrl(url, landing.items[url], logs');
      BlocksExtend(LandingBlock(), logs, entries, i, before, logs');
      i := i + 1;
    }
    assert entries[..i] == entries;
  }

  /**
   * Each landing block opens with its URL. "changed" lists every diff line in
   * order, "no_change" adds one line, and any other status adds one failure
   * line carrying the reason, or "unknown error" when there is none.
   */
  lemma LandingEntryOutcomes(url: Url, result: LandingResult)
    ensures LandingEntry(url, result)[0] == CheckingLanding(url)
    ensures result.status == "changed" ==>
      |LandingEntry(url, result)| == 2 + |result.diff| &&
      LandingEntry(url, result)[1] == ChangesDetected &&
      forall k | 0 <= k < |result.diff| :: LandingEntry(url, result)[2 + k] == DiffLine(result.diff[k])
    ensures result.status == "no_change" ==> LandingEntry(url, result) == [CheckingLanding(url), NoChanges]
    ensures result.status != "changed" && result.status != "no_change" ==>
      LandingEntry(url, result) == [CheckingLanding(url), CheckFailed(url, if result.reason.Some? then result.reason.value else "unknown error")]
  {
  }

  /** A result that is not "changed" never reaches the diff lines. */
  lemma UnchangedShowsNoDiff(url: Url, result: LandingResult)
    requires result.status != "changed"
    ensures forall k | 0 <= k < |LandingEntry(url, result)| ::
      !LandingEntry(url, result)[k].DiffLine? && LandingEntry(url, result)[k] != ChangesDetected
  {
  }

  lemma LandingEntrySubjects(url: Url, result: LandingResult)
    ensures Subjects(LandingEntry(url, result)) == [url]
  {
    var rest := LandingEntry(url, result)[1..];
    NoSubjects(rest);
    BlockSubjects(CheckingLanding(url), rest, url);
    assert LandingEntry(url, result) == [CheckingLanding(url)] + rest;
  }

  /** The landing log takes the watcher's URLs one block each, in the watcher's order. */
  lemma LandingLogSubjects(landing: Dict<Url, LandingResult>)
    ensures Subjects(LandingLog(landing)) == landing.keys
  {
    var entries := Items(landing);
    forall k | 0 <= k < |entries|
      ensures Subjects(LandingBlock()(entries[k])) == [landing.keys[k]]
    {
      LandingEntrySubjects(entries[k].0, entries[k].1);
    }
    BlocksSubjects(LandingBlock(), entries, landing.keys);
  }

  // ---------------------------------------------------------------------
  // Twitter (lines 73-88)
  // ---------------------------------------------------------------------

  /** The tweets stored for a URL: the scraper's list for its handle, or [] with no handle. */
  function TweetsFor(agents: Agents, fallback: map<Url, string>, url: Url): seq<Tweet> {
    match Resolve(fallback, agents.findTwitter, url)
    case Some(handle) => agents.scrapeTweets(handle, MaxTweets)
    case None => []
  }

  function TweetsOf(agents: Agents, fallback: map<Url, string>): Url -> seq<Tweet> {
    url => TweetsFor(agents, fallback, url)
  }

  /** Line 84: tweets are numbered from 1. */
  function TweetLines(tweets: seq<Tweet>): seq<LogLine> {
    seq(|tweets|, k requires 0 <= k < |tweets| => TweetLine(k + 1, tweets[k]))
  }

  /** Lines 80-87 for one URL. */
  function TwitterEntry(agents: Agents, fallback: map<Url, string>, url: Url): seq<LogLine> {
    match Resolve(fallback, agents.findTwitter, url)
    case Some(handle) => [FoundTwitter(url, handle)] + TweetLines(agents.scrapeTweets(handle, MaxTweets))
    case None => [NoTwitter(url)]
  }

  function TwitterBlock(agents: Agents, fallback: map<Url, string>): Url -> seq<LogLine> {
    url => TwitterEntry(agents, fallback, url)
  }

  /** The Twitter log: one block per input URL, in input order. */
  function TwitterLog(agents: Agents, fallback: map<Url, string>, urls: seq<Url>): seq<LogLine> {
    Blocks(TwitterBlock(agents, fallback), urls)
  }

  /** For a URL with a handle the stage logs 1 + |tweets| lines, otherwise the single "not found" line. */
  lemma TwitterEntryShape(agents: Agents, fallback: map<Url, string>, url: Url)
    ensures Resolve(fallback, agents.findTwitter, url).Some? ==>
      |TwitterEntry(agents, fallback, url)| == 1 + |TweetsFor(agents, fallback, url)|
    ensures Resolve(fallback, agents.findTwitter, url).None? ==>
      TwitterEntry(agents, fallback, url) == [NoTwitter(url)] && TweetsFor(agents, fallback, url) == []
  {
  }

  lemma TwitterEntrySubjects(agents: Agents, fallback: map<Url, string>, url: Url)
    ensures Subjects(TwitterEntry(agents, fallback, url)) == [url]
  {
    var entry := TwitterEntry(agents, fallback, url);
    NoSubjects(entry[1..]);
    BlockSubjects(entry[0], entry[1..], url);
    assert entry == [entry[0]] + entry[1..];
  }

  /** The Twitter log takes the input URLs one block each, in input order, duplicates included. */
  lemma TwitterLogSubjects(agents: Agents, fallback: map<Url, string>, urls: seq<Url>)
    ensures Subjects(TwitterLog(agents, fallback, urls)) == urls
  {
    forall k | 0 <= k < |urls|
      ensures Subjects(TwitterBlock(agents, fallback)(urls[k])) == [urls[k]]
    {
      TwitterEntrySubjects(agents, fallback, urls[k]);
    }
    BlocksSubjects(TwitterBlock(agents, fallback), urls, urls);
  }

  /** Lines 83-85: one numbered line per scraped tweet; every tweet is kept, in order. */
  method LogTweets(scraped: seq<Tweet>, logs: seq<LogLine>) returns (logs': seq<LogLine>, tweetList: seq<Tweet>)
    ensures logs' == logs + TweetLines(scraped)
    ensures tweetList == scraped
  {
    logs' := logs;
    tweetList := [];
    var k := 0;
    while k < |scraped|
      invariant 0 <= k <= |scraped|
      invariant tweetList == scraped[..k]
      invariant logs' == logs + TweetLines(scraped[..k])
    {
      assert TweetLines(scraped[..k + 1]) == TweetLines(scraped[..k]) + [TweetLine(k + 1, scraped[k])];
      logs' := logs' + [TweetLine(k + 1, scraped[k])];
      tweetList := tweetList + [scraped[k]];
      k := k + 1;
    }
    assert scraped[..k] == scraped;
  }

  /**
   * One URL of the Twitter loop (lines 76-88): resolve the handle, consulting
   * discovery only without a pinned one, then log and collect.
   */
  method TweetsForUrl(agents: Agents, fallback: map<Url, string>, url: Url, logs: seq<LogLine>)
    returns (logs': seq<LogLine>, tweetList: seq<Tweet>, probed: bool)
    ensures logs' == logs + TwitterEntry(agents, fallback, url)
    ensures tweetList == TweetsFor(agents, fallback, url)
    ensures probed == !Pinned(fallback, url)
  {
    var handle := Lookup(fallback, url);
    probed := !Truthy(handle);
    if probed {
      handle := agents.findTwitter(url);
    }
    tweetList := [];
    if Truthy(handle) {
      var scraped := agents.scrapeTweets(handle.value, MaxTweets);
      logs', tweetList := LogTweets(scraped, logs + [FoundTwitter(url, handle.value)]);
    } else {
      logs' := logs + [NoTwitter(url)];
    }
  }

  /** One pass of the Twitter loop keeps the stage's invariant: everything so far is the stage run on urls[..i]. */
  method TwitterPass(agents: Agents, fallback: map<Url, string>, urls: seq<Url>, i: nat, ghost start: seq<LogLine>,
                     logs: seq<LogLine>, tweets: Dict<Url, seq<Tweet>>, probes: seq<Url>)
    returns (logs': seq<LogLine>, tweets': Dict<Url, seq<Tweet>>, probes': seq<Url>)
    requires i < |urls|
    requires logs == start + TwitterLog(agents, fallback, urls[..i])
    requires tweets == Tabulate(urls[..i], TweetsOf(agents, fallback))
    requires probes == Unpinned(fallback, urls[..i])
    ensures logs' == start + TwitterLog(agents, fallback, urls[..i + 1])
    ensures tweets' == Tabulate(urls[..i + 1], TweetsOf(agents, fallback))
    ensures probes' == Unpinned(fallback, urls[..i + 1])
  {
    var url := urls[i];
    var tweetList, probed;
    logs', tweetList, probed := TweetsForUrl(agents, fallback, url, logs);
    BlocksExtend(TwitterBlock(agents, fallback), start, urls, i, logs, logs');
    probes' := probes + if probed then [url] else [];
    UnpinnedStep(fallback, urls, i);
    tweets' := Put(tweets, url, tweetList);
    TabulateStep(urls, TweetsOf(agents, fallback), i);
  }

  /** The Twitter stage (lines 73-88). `probes` records each call of the handle discovery. */
  method CollectTweets(agents: Agents, urls: seq<Url>, fallback: map<Url, string>, logs: seq<LogLine>)
    returns (logs': seq<LogLine>, tweets: Dict<Url, seq<Tweet>>, probes: seq<Url>)
    ensures logs' == logs + TwitterLog(agents, fallback, urls)
    ensures tweets == Tabulate(urls, TweetsOf(agents, fallback))
    ensures tweets.keys == FirstOccurrences(urls)
    ensures tweets.items.Keys == set u | u in urls
    ensures forall u | u in tweets.items :: tweets.items[u] == TweetsFor(agents, fallback, u)
    ensures probes == Unpinned(fallback, urls)
  {
    logs' := logs;
    tweets := Empty();
    probes := [];
    var i := 0;
    while i < |urls|
      invariant 0 <= i <= |urls|
      invariant logs' == logs + TwitterLog(agents, fallback, urls[..i])
      invariant tweets == Tabulate(urls[..i], TweetsOf(agents, fallback))
      invariant probes == Unpinned(fallback, urls[..i])
    {
      logs', tweets, probes := TwitterPass(agents, fallback, urls, i, logs, logs', tweets, probes);
      i := i + 1;
    }
    assert urls[..i] == urls;
    TabulateKeys(urls, TweetsOf(agents, fallback));
    TabulateValues(urls, TweetsOf(agents, fallback));
  }

  // ---------------------------------------------------------------------
  // YouTube (lines 91-113)
  // ---------------------------------------------------------------------

  /** The videos stored for a URL: the scraper's list for its channel, or [] with no channel. */
  function VideosFor(agents: Agents, fallback: map<Url, string>, url: Url): seq<Video> {
    match Resolve(fallback, agents.findYouTube, url)
    case Some(channel) => agents.scrapeVideos(channel, MaxVideos)
    case None => []
  }

  function VideosOf(agents: Agents, fallback: map<Url, string>): Url -> seq<Video> {
    url => VideosFor(agents, fallback, url)
  }

  function CommentLines(comments: seq<string>): seq<LogLine> {
    seq(|comments|, k requires 0 <= k < |comments| => CommentLine(comments[k]))
  }

  /** Lines 105-111 for the `number`-th video. */
  function VideoLines(number: nat, video: Video): seq<LogLine> {
    [VideoTitle(number, video.title), VideoLink(video.url),
     VideoDescription(Truncate(video.description, DescriptionBudget)), CommentsHeader]
    + CommentLines(video.comments) + [VideoSeparator]
  }

  /** The number of comments on the first `n` videos. */
  function CommentCount(videos: seq<Video>, n: nat): nat
    requires n <= |videos|
  {
    if n == 0 then 0 else CommentCount(videos, n - 1) + |videos[n - 1].comments|
  }

  /** The lines for the first `n` videos. */
  function VideosLog(videos: seq<Video>, n: nat): seq<LogLine>
    requires n <= |videos|
  {
    if n == 0 then [] else VideosLog(videos, n - 1) + VideoLines(n, videos[n - 1])
  }

  /** Lines 97-111 for one URL. */
  function YouTubeEntry(agents: Agents, fallback: map<Url, string>, url: Url): seq<LogLine> {
    match Resolve(fallback, agents.findYouTube, url)
    case Some(channel) =>
      var videos := agents.scrapeVideos(channel, MaxVideos);
      [FoundYouTube(url, channel)] + VideosLog(videos, |videos|)
    case None => [NoYouTube(url)]
  }

  function YouTubeBlock(agents: Agents, fallback: map<Url, string>): Url -> seq<LogLine> {
    url => YouTubeEntry(agents, fallback, url)
  }

  /** The YouTube log: one block per input URL, in input order. */
  function YouTubeLog(agents: Agents, fallback: map<Url, string>, urls: seq<Url>): seq<LogLine> {
    Blocks(YouTubeBlock(agents, fallback), urls)
  }

  /**
   * A video takes 5 + |comments| lines; its description line shows at most the
   * first 200 characters, all of them when the description is that short.
   */
  lemma VideoLinesShape(number: nat, video: Video)
    ensures |VideoLines(number, video)| == 5 + |video.comments|
    ensures VideoLines(number, video)[2].VideoDescription?
    ensures var excerpt := VideoLines(number, video)[2].excerpt;
      |excerpt| <= DescriptionBudget && excerpt == video.description[..|excerpt|] &&
      (|video.description| <= DescriptionBudget ==> excerpt == video.description)
  {
  }

  /**
   * With a channel the block opens with the "found" line and logs 5 + |comments|
   * lines per video; without one it is the single "not found" line and no
   * videos are stored.
   */
  lemma YouTubeEntryShape(agents: Agents, fallback: map<Url, string>, url: Url)
    ensures Resolve(fallback, agents.findYouTube, url).Some? ==>
      YouTubeEntry(agents, fallback, url)[0] == FoundYouTube(url, Resolve(fallback, agents.findYouTube, url).value) &&
      |YouTubeEntry(agents, fallback, url)| == 1 + |VideosLog(VideosFor(agents, fallback, url), |VideosFor(agents, fallback, url)|)|
    ensures Resolve(fallback, agents.findYouTube, url).None? ==>
      YouTubeEntry(agents, fallback, url) == [NoYouTube(url)] && VideosFor(agents, fallback, url) == []
  {
  }

  /** The lines for the first `n` videos: 5 + |comments| for each. */
  lemma {:induction false} VideosLogLength(videos: seq<Video>, n: nat)
    requires n <= |videos|
    ensures |VideosLog(videos, n)| == 5 * n + CommentCount(videos, n)
  {
    if n > 0 {
      VideosLogLength(videos, n - 1);
      VideoLinesShape(n, videos[n - 1]);
    }
  }

  lemma {:induction false} VideosLogSubjects(videos: seq<Video>, n: nat)
    requires n <= |videos|
    ensures Subjects(VideosLog(videos, n)) == []
  {
    if n > 0 {
      VideosLogSubjects(videos, n - 1);
      NoSubjects(VideoLines(n, videos[n - 1]));
      SubjectsAppend(VideosLog(videos, n - 1), VideoLines(n, videos[n - 1]));
    }
  }

  lemma YouTubeEntrySubjects(agents: Agents, fallback: map<Url, string>, url: Url)
    ensures Subjects(YouTubeEntry(agents, fallback, url)) == [url]
  {
    match Resolve(fallback, agents.findYouTube, url)
    case Some(channel) =>
      var videos := agents.scrapeVideos(channel, MaxVideos);
      VideosLogSubjects(videos, |videos|);
      BlockSubjects(FoundYouTube(url, channel), VideosLog(videos, |videos|), url);
    case None =>
      BlockSubjects(NoYouTube(url), [], url);
      assert [NoYouTube(url)] + [] == [NoYouTube(url)];
  }

  /** The YouTube log takes the input URLs one block each, in input order; video links open no block. */
  lemma YouTubeLogSubjects(agents: Agents, fallback: map<Url, string>, urls: seq<Url>)
    ensures Subjects(YouTubeLog(agents, fallback, urls)) == urls
  {
    forall k | 0 <= k < |urls|
      ensures Subjects(YouTubeBlock(agents, fallback)(urls[k])) == [urls[k]]
    {
      YouTubeEntrySubjects(agents, fallback, urls[k]);
    }
    BlocksSubjects(YouTubeBlock(agents, fallback), urls, urls);
  }

  /** Lines 105-111: log one video, its comments in order. */
  method LogVideo(number: nat, video: Video, logs: seq<LogLine>) returns (logs': seq<LogLine>)
    ensures logs' == logs + VideoLines(number, video)
  {
    logs' := logs + [VideoTitle(number, video.title)];
    logs' := logs' + [VideoLink(video.url)];
    logs' := logs' + [VideoDescription(Truncate(video.description, DescriptionBudget))];
    logs' := logs' + [CommentsHeader];
    ghost var headed := logs';
    var c := 0;
    while c < |video.comments|
      invariant 0 <= c <= |video.comments|
      invariant logs' == headed + CommentLines(video.comments[..c])
    {
      assert CommentLines(video.comments[..c + 1]) == CommentLines(video.comments[..c]) + [CommentLine(video.comments[c])];
      logs' := logs' + [CommentLine(video.comments[c])];
      c := c + 1;
    }
    assert video.comments[..c] == video.comments;
    logs' := logs' + [VideoSeparator];
  }

  /** Lines 104-112: log every scraped video, numbered from 1; every video is kept, in order. */
  method LogVideos(videos: seq<Video>, logs: seq<LogLine>) returns (logs': seq<LogLine>, videoList: seq<Video>)
    ensures logs' == logs + VideosLog(videos, |videos|)
    ensures videoList == videos
  {
    logs' := logs;
    videoList := [];
    var k := 0;
    while k < |videos|
      invariant 0 <= k <= |videos|
      invariant videoList == videos[..k]
      invariant logs' == logs + VideosLog(videos, k)
    {
      logs' := LogVideo(k + 1, videos[k], logs');
      videoList := videoList + [videos[k]];
      k := k + 1;
    }
    assert videos[..k] == videos;
  }

  /**
   * One URL of the YouTube loop (lines 93-113): resolve the channel,
   * consulting discovery only without a pinned one, then log and collect the
   * videos unmodified.
   */
  method VideosForUrl(agents: Agents, fallback: map<Url, string>, url: Url, logs: seq<LogLine>)
    returns (logs': seq<LogLine>, videoList: seq<Video>, probed: bool)
    ensures logs' == logs + YouTubeEntry(agents, fallback, url)
    ensures videoList == VideosFor(agents, fallback, url)
    ensures probed == !Pinned(fallback, url)
  {
    var channel := Lookup(fallback, url);
    probed := !Truthy(channel);
    if probed {
      channel := agents.findYouTube(url);
    }
    videoList := [];
    if Truthy(channel) {
      logs' := logs + [FoundYouTube(url, channel.value)];
    } else {
      logs' := logs + [NoYouTube(url)];
      channel := None;
    }
    if Truthy(channel) {
      var videos := agents.scrapeVideos(channel.value, MaxVideos);
      logs', videoList := LogVideos(videos, logs');
    }
  }

  /** One pass of the YouTube loop keeps the stage's invariant: everything so far is the stage run on urls[..i]. */
  method YouTubePass(agents: Agents, fallback: map<Url, string>, urls: seq<Url>, i: nat, ghost start: seq<LogLine>,
                     logs: seq<LogLine>, youtube: Dict<Url, seq<Video>>, probes: seq<Url>)
    returns (logs': seq<LogLine>, youtube': Dict<Url, seq<Video>>, probes': seq<Url>)
    requires i < |urls|
    requires logs == start + YouTubeLog(agents, fallback, urls[..i])
    requires youtube == Tabulate(urls[..i], VideosOf(agents, fallback))
    requires probes == Unpinned(fallback, urls[..i])
    ensures logs' == start + YouTubeLog(agents, fallback, urls[..i + 1])
    ensures youtube' == Tabulate(urls[..i + 1], VideosOf(agents, fallback))
    ensures probes' == Unpinned(fallback, urls[..i + 1])
  {
    var url := urls[i];
    var videoList, probed;
    logs', videoList, probed := VideosForUrl(agents, fallback, url, logs);
    BlocksExtend(YouTubeBlock(agents, fallback), start, urls, i, logs, logs');
    probes' := probes + if probed then [url] else [];
    UnpinnedStep(fallback, urls, i);
    youtube' := Put(youtube, url, videoList);
    TabulateStep(urls, VideosOf(agents, fallback), i);
  }

  /** The YouTube stage (lines 91-113). `probes` records each call of the channel discovery. */
  method CollectVideos(agents: Agents, urls: seq<Url>, fallback: map<Url, string>, logs: seq<LogLine>)
    returns (logs': seq<LogLine>, youtube: Dict<Url, seq<Video>>, probes: seq<Url>)
    ensures logs' == logs + YouTubeLog(agents, fallback, urls)
    ensures youtube == Tabulate(urls, VideosOf(agents, fallback))
    ensures youtube.keys == FirstOccurrences(urls)
    ensures youtube.items.Keys == set u | u in urls
    ensures forall u | u in youtube.items :: youtube.items[u] == VideosFor(agents, fallback, u)
    ensures probes == Unpinned(fallback, urls)
  {
    logs' := logs;
    youtube := Empty();
    probes := [];
    var i := 0;
    while i < |urls|
      invariant 0 <= i <= |urls|
      invariant logs' == logs + YouTubeLog(agents, fallback, urls[..i])
      invariant youtube == Tabulate(urls[..i], VideosOf(agents, fallback))
      invariant probes == Unpinned(fallback, urls[..i])
    {
      logs', youtube, probes := YouTubePass(agents, fallback, urls, i, logs, logs', youtube, probes);
      i := i + 1;
    }
    assert urls[..i] == urls;
    TabulateKeys(urls, VideosOf(agents, fallback));
    TabulateValues(urls, VideosOf(agents, fallback));
  }
}
