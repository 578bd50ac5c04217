/** The values the pipeline passes around and the lines of its progress log. */
module Records {
  import opened Wrappers

  type Url = string
  type Tweet = string

  /** One `{category, text}` entry produced by the classifier. */
  datatype Item = Item(category: string, text: string)

  /** One video as the YouTube scraper returns it. */
  datatype Video = Video(title: string, url: string, description: string, comments: seq<string>)

  /**
   * The landing-page watcher's verdict for one URL: `status` is "changed"
   * (with the `diff` lines), "no_change", or anything else (a failure,
   * with an optional `reason`).
   */
  datatype LandingResult = LandingResult(status: string, diff: seq<string>, reason: Option<string>)

  /** How many characters of a video description the log shows. */
  const DescriptionBudget: nat := 200

  /**
   * One entry of the progress log. Each constructor stands for one
   * `logs.append(...)` of the pipeline and carries the values it prints.
   */
  datatype LogLine =
    | Starting                                  // line 18
    | RunningScraper                            // line 21
    | RunningSummarizer                         // line 27
    | RunningClassifier                         // line 32
    | UrlHeader(url: Url)                       // line 36
    | SummaryText(summary: string)              // line 37
    | ItemLine(item: Item)                      // line 40
    | Saved(path: string)                       // line 49
    | RunningLandingDetector                    // line 54
    | CheckingLanding(url: Url)                 // line 60
    | ChangesDetected                           // line 62
    | DiffLine(text: string)                    // line 64
    | NoChanges                                 // line 66
    | CheckFailed(url: Url, reason: string)     // line 68
    | RunningTwitter                            // line 73
    | FoundTwitter(url: Url, handle: string)    // line 80
    | TweetLine(number: nat, tweet: Tweet)      // line 84
    | NoTwitter(url: Url)                       // line 87
    | RunningYouTube                            // line 91
    | FoundYouTube(url: Url, channel: string)   // line 97
    | NoYouTube(url: Url)                       // line 99
    | VideoTitle(number: nat, title: string)    // line 105
    | VideoLink(link: string)                   // line 106
    | VideoDescription(excerpt: string)         // line 107
    | CommentsHeader                            // line 108
    | CommentLine(comment: string)              // line 110
    | VideoSeparator                            // line 111
    | PushingToNotion                           // line 116
    | PushedToNotion                            // line 124
    | AllDone                                   // line 126

  /** The line opens the block of one input URL (the line's `url`). */
  predicate OpensBlock(line: LogLine) {
    line.UrlHeader? || line.CheckingLanding? || line.FoundTwitter? || line.NoTwitter? ||
    line.FoundYouTube? || line.NoYouTube?
  }

  /** The URLs of a log's per-URL blocks, in the order the blocks appear. */
  function Subjects(log: seq<LogLine>): seq<Url>
    decreases |log|
  {
    if log == [] then []
    else
      var init := Subjects(log[..|log| - 1]);
      if OpensBlock(log[|log| - 1]) then init + [log[|log| - 1].url] else init
  }

  lemma {:induction false} SubjectsAppend(a: seq<LogLine>, b: seq<LogLine>)
    ensures Subjects(a + b) == Subjects(a) + Subjects(b)
    decreases |b|
  {
    if b == [] {
      assert a + b == a;
    } else {
      SubjectsAppend(a, b[..|b| - 1]);
      assert (a + b)[..|a + b| - 1] == a + b[..|b| - 1];
    }
  }

  /**
   * The log of a stage that writes one block per element of `xs`, in order:
   * `entry(x)` is the block written for `x`.
   */
  function Blocks<T>(entry: T -> seq<LogLine>, xs: seq<T>): seq<LogLine>
    decreases |xs|
  {
    if xs == [] then []
    else Blocks(entry, xs[..|xs| - 1]) + entry(xs[|xs| - 1])
  }

  /** Writing the block of the next element extends the stage's log by exactly that block. */
  lemma BlocksExtend<T>(entry: T -> seq<LogLine>, logs: seq<LogLine>, xs: seq<T>, i: nat,
                        before: seq<LogLine>, after: seq<LogLine>)
    requires i < |xs|
    requires before == logs + Blocks(entry, xs[..i])
    requires after == before + entry(xs[i])
    ensures after == logs + Blocks(entry, xs[..i + 1])
  {
    assert xs[..i + 1][..i] == xs[..i];
    assert (logs + Blocks(entry, xs[..i])) + entry(xs[i]) == logs + (Blocks(entry, xs[..i]) + entry(xs[i]));
  }

  /** When each block names its own subject, the stage's log names them all, in order. */
  lemma {:induction false} BlocksSubjects<T>(entry: T -> seq<LogLine>, xs: seq<T>, subjects: seq<Url>)
    requires |subjects| == |xs|
    requires forall k | 0 <= k < |xs| :: Subjects(entry(xs[k])) == [subjects[k]]
    ensures Subjects(Blocks(entry, xs)) == subjects
    decreases |xs|
  {
    if xs != [] {
      var n := |xs| - 1;
      BlocksSubjects(entry, xs[..n], subjects[..n]);
      SubjectsAppend(Blocks(entry, xs[..n]), entry(xs[n]));
      assert subjects == subjects[..n] + [subjects[n]];
    }
  }

  lemma {:induction false} NoSubjects(log: seq<LogLine>)
    requires forall k | 0 <= k < |log| :: !OpensBlock(log[k])
    ensures Subjects(log) == []
    decreases |log|
  {
    if log != [] {
      NoSubjects(log[..|log| - 1]);
    }
  }


  /** A block that opens with a line for `url` and opens nothing else belongs to `url` alone. */
  lemma BlockSubjects(first: LogLine, rest: seq<LogLine>, url: Url)
    requires OpensBlock(first) && first.url == url
    requires Subjects(rest) == []
    ensures Subjects([first] + rest) == [url]
  {
    SubjectsAppend([first], rest);
    assert [first][..0] == [];
  }
}
