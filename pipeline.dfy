/**
 * `run_all_agents_return_data` (backend_logic.py lines 12-136): the stages in
 * order, one progress log threaded through all of them, and the record
 * returned to the front end.
 */
module Pipeline {
  import opened Dicts
  import opened Records
  import opened Domains
  import opened Handles
  import opened Stages
  import opened Notion

  /** The dictionary returned on line 129. */
  datatype PipelineResult = PipelineResult(
    logLines: seq<LogLine>,
    classified: Dict<string, seq<Item>>,
    landingChanges: Dict<Url, LandingResult>,
    tweets: Dict<Url, seq<Tweet>>,
    youtube: Dict<Url, seq<Video>>,
    notionStatus: string)

  /**
   * What the run does to the world besides returning: the value written to
   * the results file, the Notion calls in order, and the URLs for which each
   * handle discovery was called, in order.
   */
  datatype Effects = Effects(
    saved: Dict<string, seq<Item>>,
    notionCalls: seq<Update>,
    twitterProbes: seq<Url>,
    youtubeProbes: seq<Url>)

  /** Lines 22-29: the scraper's texts, each summarized under its URL. */
  function SummariesOf(agents: Agents, urls: seq<Url>): Dict<Url, string> {
    Summaries(agents, agents.scrape(urls))
  }

  /** Lines 35-42: the classifier's items grouped by domain key. */
  function ClassifiedOf(agents: Agents, urls: seq<Url>): Dict<string, seq<Item>> {
    FromPairs(ClassifyPairs(agents, SummariesOf(agents, urls)))
  }

  /** The whole progress log of a run that completes. */
  function RunLog(agents: Agents, urls: seq<Url>, twitterFallback: map<Url, string>,
                  youtubeFallback: map<Url, string>, savedPath: string): seq<LogLine>
  {
    [Starting] + [RunningScraper] + [RunningSummarizer] + [RunningClassifier]
    + ClassifyLog(agents, SummariesOf(agents, urls))
    + [Saved(savedPath)] + [RunningLandingDetector]
    + LandingLog(agents.watch(urls))
    + [RunningTwitter]
    + TwitterLog(agents, twitterFallback, urls)
    + [RunningYouTube]
    + YouTubeLog(agents, youtubeFallback, urls)
    + [PushingToNotion] + [PushedToNotion] + [AllDone]
  }

  /**
   * The pipeline. `savedPath` stands for the resolved path of the results
   * file, which depends on the working directory.
   */
  method RunAllAgents(agents: Agents, urls: seq<Url>, twitterFallback: map<Url, string>,
                      youtubeFallback: map<Url, string>, savedPath: string)
    returns (result: PipelineResult, effects: Effects)
    ensures result.logLines == RunLog(agents, urls, twitterFallback, youtubeFallback, savedPath)
    ensures result.classified == ClassifiedOf(agents, urls)
    ensures result.classified.items.Keys == set u | u in agents.scrape(urls).keys :: DomainKey(u)
    ensures result.landingChanges == agents.watch(urls)
    ensures result.tweets == Tabulate(urls, TweetsOf(agents, twitterFallback))
    ensures result.tweets.items.Keys == set u | u in urls
    ensures result.youtube == Tabulate(urls, VideosOf(agents, youtubeFallback))
    ensures result.youtube.items.Keys == set u | u in urls
    ensures result.notionStatus == "Success"
    ensures effects.saved == result.classified
    ensures effects.notionCalls == Updates(result.classified)
    ensures effects.twitterProbes == Unpinned(twitterFallback, urls)
    ensures effects.youtubeProbes == Unpinned(youtubeFallback, urls)
  {
    var logs := [Starting];

    logs := logs + [RunningScraper];
    var scraped := agents.scrape(urls);

    logs := logs + [RunningSummarizer];
    var summaries := Summaries(agents, scraped);

    logs := logs + [RunningClassifier];
    var classified;
    logs, classified := Classify(agents, summaries, logs);

    var saved := classified;
    logs := logs + [Saved(savedPath)];

    logs := logs + [RunningLandingDetector];
    var landing := agents.watch(urls);
    logs := ReportLanding(landing, logs);

    logs := logs + [RunningTwitter];
    var tweets, twitterProbes;
    logs, tweets, twitterProbes := CollectTweets(agents, urls, twitterFallback, logs);

    logs := logs + [RunningYouTube];
    var youtube, youtubeProbes;
    logs, youtube, youtubeProbes := CollectVideos(agents, urls, youtubeFallback, logs);

    logs := logs + [PushingToNotion];
    var calls := PushUpdates(classified);
    logs := logs + [PushedToNotion];

    logs := logs + [AllDone];

    result := PipelineResult(logs, classified, landing, tweets, youtube, "Success");
    effects := Effects(saved, calls, twitterProbes, youtubeProbes);
  }

  /** The log opens with the start line and, on completion, closes with the success line. */
  lemma LogFrame(agents: Agents, urls: seq<Url>, twitterFallback: map<Url, string>,
                 youtubeFallback: map<Url, string>, savedPath: string)
    ensures var log := RunLog(agents, urls, twitterFallback, youtubeFallback, savedPath);
      |log| >= 11 && log[0] == Starting && log[|log| - 1] == AllDone
  {
  }
}
