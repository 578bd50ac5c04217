# TrackTect agent pipeline, modelled in Dafny

This project models `run_all_agents_return_data` from `backend_logic.py`, the
orchestrator of TrackTect's competitor-tracking agents. The function runs
seven stages over a list of company URLs, one after the other:

1. scrape the pages;
2. summarize each page;
3. classify each summary and group the items by a domain key derived from
   the URL, then save the grouping;
4. report the landing-page watcher's verdict for each URL;
5. resolve a Twitter handle per URL (a caller-pinned override first, then
   discovery) and collect the tweets;
6. do the same for YouTube channels and videos;
7. publish one Notion update per domain.

Every step is recorded in one append-only progress log, and the result is
returned as a record.

The model is imperative where the Python is. Each loop of the function is a
Dafny `method` with its loop and invariants, proved against a function that
says what the loop produces (the stage's log, the dictionary it builds, the
calls it makes). Separate lemmas then prove what the pipeline promises about
those functions.

The external agents (scraper, summarizer, classifier, landing-page watcher,
handle discovery, tweet and video scrapers) are pure functions held in the
datatype `Stages.Agents`. Notion calls, the saved JSON value and the URLs for
which discovery ran are returned as the `Pipeline.Effects` record. Log lines
are constructors of `Records.LogLine` that carry the values each line prints,
not the emoji text.

A Python `dict` is modelled by `Dicts.Dict`: its keys in insertion order plus
a map. Assigning to an existing key keeps that key's place.

Modules:
- `Wrappers`: `Option`.
- `Dicts`: insertion-ordered dictionaries.
- `Strings`: `replace`, slicing, `join` and `split`.
- `Domains`: the domain key of line 41 and the title name of line 119.
- `Records`: the values and the log lines.
- `Handles`: resolving a handle with `or`.
- `Stages`: stages 2-6.
- `Notion`: stage 7.
- `Pipeline`: the whole function.

Three consequences of lines 41-42 and 61-68 that are easy to miss:
- **Domain key.** Line 41 takes the last piece of a left-to-right `split("//")`: the pieces are cut at the leftmost "//" first, so `a///b` ends in `/b` and `a////b` in `b`. For `https:///a.com` the key is empty (`Domains.TripleSlashKey`). Ports and a query that directly follows the host stay in the key.
- **Landing statuses.** Any status other than `changed` and `no_change` is reported as a failure, not only `failed`.
- **Key collisions.** Distinct hosts can share a key (`a_b.com` and `a.b.com`), and then the later URL's items replace the earlier one's.

## Model

| member | source | states |
|---|---|---|
| Dicts.Items | backend_logic.py:35 | `d.items()` lists every stored key once, in insertion order, each with the value stored under it; its keys are distinct and cover every stored key |
| Dicts.ItemsRoundTrip | backend_logic.py:35 | rebuilding a dict from its `items()` by assignment gives back the same dict: same keys, same order, same values |
| Dicts.FromPairsKeyOrder | backend_logic.py:34-42 | after a sequence of assignments to an empty dict, the keys are the assigned keys in the order of their first assignment |
| Dicts.FromPairsKeySet | backend_logic.py:34-42 | a key is present exactly when some assignment used it |
| Dicts.FromPairsLastWins | backend_logic.py:42 | a key assigned several times holds the value of its last assignment |
| Dicts.TabulateKeys | backend_logic.py:88 | assigning `d[u] = f(u)` for each input URL gives one key per distinct URL, in first-occurrence order, and the key set is the set of inputs |
| Dicts.TabulateValues | backend_logic.py:88 | every stored value is `f` of its key, duplicates in the input notwithstanding |
| Strings.Replace | backend_logic.py:41 | `replace` keeps the length and leaves no occurrence of the replaced character |
| Strings.ReplaceBack | backend_logic.py:119 | replacing back restores the text when the target character did not occur in it |
| Strings.Truncate | backend_logic.py:107 | `[:n]` is a prefix of at most `n` characters, the whole text when it is that short, exactly `n` otherwise |
| Strings.JoinStartsWithFirst | backend_logic.py:122 | a newline join starts with its first line |
| Strings.SplitJoin | backend_logic.py:122 | splitting a join gives the lines back when none contains the separator |
| Domains.LastPiece | backend_logic.py:41 | `split("//")[-1]` is a suffix of the URL containing no "//", and is the whole URL when it holds no "//" |
| Domains.LastPieceSkipsPrefix | backend_logic.py:41 | the split cuts at the leftmost "//": a prefix without "//" and not ending in "/", with the "//" after it, does not change the last piece |
| Domains.FourSlashesPiece | backend_logic.py:41 | a run of four slashes after such a prefix yields an empty piece and then the rest, so `a////b` ends in `b` |
| Domains.FirstSegment | backend_logic.py:41 | `split("/")[0]` is the prefix up to the first "/", and contains none |
| Domains.DomainKey | backend_logic.py:41 | the key contains no "." and no "/" and is as long as the host it is made from |
| Domains.HostOfUrl | backend_logic.py:41 | for `scheme//host/...` with no further "//", the host is exactly `host` |
| Domains.ExampleKey | backend_logic.py:41 | `https://example.com/page` has key `example_com` |
| Domains.KeyKeepsPortAndQuery | backend_logic.py:41 | a port and a query directly after the host stay in the key |
| Domains.TripleSlashKey | backend_logic.py:41 | `https:///a.com` has the empty key, because the split is left to right |
| Domains.DistinctHostsShareKey | backend_logic.py:41-42 | two different hosts can share a key, so one grouping overwrites the other |
| Domains.DisplayName | backend_logic.py:119 | the title name contains no "_" |
| Domains.DisplayNameRestoresHost | backend_logic.py:119 | the title name is the URL's host when the host had no "_" |
| Domains.DisplayNameLosesUnderscores | backend_logic.py:119 | the title name differs from the host when the host had a "_" |
| Handles.Resolve | backend_logic.py:76-79 | a handle the stage goes on with is never empty |
| Handles.OverrideWins | backend_logic.py:76 | a non-empty pinned handle is the one used |
| Handles.PinnedIgnoresDiscovery | backend_logic.py:76 | with a pinned handle, the outcome is the same whatever discovery would say |
| Handles.UnpinnedUsesDiscovery | backend_logic.py:93 | without a pinned handle (absent or empty), the discovered handle is used when it is non-empty, otherwise none |
| Handles.UnpinnedExactly | backend_logic.py:76 | discovery is called for a URL exactly when it is an input without a non-empty pinned handle |
| Stages.Summaries | backend_logic.py:29 | entry `k` of the summaries is the URL of scraped entry `k` with the summary of that entry's text under that URL; same number of entries, same order |
| Stages.ClassifyUrl | backend_logic.py:36-40 | logs the URL, its summary and one line per classified item, and returns the classifier's items |
| Stages.Classify | backend_logic.py:34-42 | the log gets one block per summarized URL in order; the grouping is the assignments `classified[key] = items` in order; its keys are the domain keys of the summarized URLs; a URL that is the last of its key has its items stored |
| Stages.ClassifiedKeys | backend_logic.py:35-42 | the grouped keys are exactly the domain keys of the summarized URLs |
| Stages.ClassifiedLastWins | backend_logic.py:41-42 | when URLs share a domain key, the group holds the items of the last of them |
| Stages.ClassifyLogSubjects | backend_logic.py:35-40 | the classification log has one block per summarized URL, in order |
| Stages.ReportUrl | backend_logic.py:60-68 | appends the landing block of one URL and nothing else |
| Stages.ReportLanding | backend_logic.py:59-68 | appends the landing blocks of all reported URLs, in the watcher's order |
| Stages.LandingEntryOutcomes | backend_logic.py:60-68 | a block opens with its URL; "changed" adds the header and every diff line in order; "no_change" adds one line; any other status adds one failure line with the reason, or "unknown error" without one |
| Stages.UnchangedShowsNoDiff | backend_logic.py:61-68 | a status other than "changed" shows no diff line and no change header |
| Stages.LandingLogSubjects | backend_logic.py:59-60 | the landing log has one block per reported URL, in order |
| Stages.TwitterEntryShape | backend_logic.py:79-87 | with a handle, a URL's block is 1 + (number of tweets) lines; without one, it is the single "not found" line and no tweets are stored |
| Stages.TwitterLogSubjects | backend_logic.py:75-87 | the Twitter log has one block per input URL, in input order, duplicates included |
| Stages.LogTweets | backend_logic.py:83-85 | one numbered line per tweet, numbered from 1, and every tweet kept in order |
| Stages.TweetsForUrl | backend_logic.py:76-88 | appends the URL's Twitter block, returns the scraper's tweets for the resolved handle (or none), and calls discovery exactly when no handle is pinned |
| Stages.TwitterPass | backend_logic.py:75-88 | one pass of the loop extends the log, the dictionary and the discovery trace by exactly the next URL |
| Stages.CollectTweets | backend_logic.py:73-88 | `tweets_by_url` has one key per input URL (first-occurrence order, key set = inputs), each holding the scraper's tweets for its handle or `[]`; the log gets the blocks in input order; discovery runs for the unpinned URLs, in order |
| Stages.VideoLinesShape | backend_logic.py:105-111 | a video takes 5 + (number of comments) lines; its description line shows at most 200 characters, a prefix of the description, all of it when it is that short |
| Stages.VideosLogLength | backend_logic.py:104-112 | the videos of a channel take 5 lines each plus one per comment |
| Stages.YouTubeEntryShape | backend_logic.py:95-112 | with a channel, the block opens with the "found" line followed by the video lines; without one, it is the single "not found" line and no videos are stored |
| Stages.YouTubeLogSubjects | backend_logic.py:92-112 | the YouTube log has one block per input URL, in input order; video lines open no block |
| Stages.LogVideo | backend_logic.py:105-111 | appends exactly the lines of one video, comments in order |
| Stages.LogVideos | backend_logic.py:104-112 | appends the lines of every video, numbered from 1, and keeps every video unmodified in order |
| Stages.VideosForUrl | backend_logic.py:93-113 | appends the URL's YouTube block, returns the scraper's videos for the resolved channel (or none), and calls discovery exactly when no channel is pinned |
| Stages.YouTubePass | backend_logic.py:92-113 | one pass of the loop extends the log, the dictionary and the discovery trace by exactly the next URL |
| Stages.CollectVideos | backend_logic.py:91-113 | `youtube_by_url` has one key per input URL, each holding the scraper's videos for its channel or `[]`; the log gets the blocks in input order; discovery runs for the unpinned URLs, in order |
| Notion.Format | backend_logic.py:119-122 | the content is the title line and one bullet per item, joined by newlines |
| Notion.PushUpdates | backend_logic.py:118-123 | makes exactly the calls of `Updates`, one per domain in the grouping's order |
| Notion.OneUpdatePerDomain | backend_logic.py:118-123 | the update titles are exactly the domain keys, in order, each once; each update carries the content made from that key's items |
| Notion.ContentStartsWithTitle | backend_logic.py:119-122 | every content opens with its title line |
| Notion.ContentLines | backend_logic.py:119-122 | without newlines in the domain and items, the content splits into the title line and one bullet per item: 1 + (number of items) lines |
| Notion.TitleShowsHost | backend_logic.py:119 | the title shows the URL's host exactly when the host had no "_" |
| Pipeline.RunAllAgents | backend_logic.py:12-136 | the log is the stages' logs in stage order between the fixed lines; `classified` is the grouping, with the scraped URLs' domain keys as its keys; `landing_changes` is the watcher's result; `tweets` and `youtube` have the input URLs as keys; the status is "Success"; the saved value is `classified`; Notion gets one update per domain; discovery runs only for unpinned URLs |
| Pipeline.LogFrame | backend_logic.py:18-126 | the log starts with the start line and ends with the success line |

## Left out

- The agents' own behaviour (scraping, summarizing, classifying, diffing, browsing, the YouTube and Notion APIs) is not modelled. Each agent is a pure function, so a second call with the same input returns the same result.
- The JSON file write and the directory creation (lines 45-48) are not modelled. Only the value written is recorded, as `Effects.saved`.
- The resolved path in the "saved" line (line 49) depends on the working directory, so it is the parameter `savedPath`.
- Exceptions are not modelled: a failing agent, a Notion error that stops the run after some updates, or a missing `status`, `diff`, `title` or `comments` key. Every landing result carries a status and a diff list, and every video carries all four fields.
- Log text is not modelled byte for byte (emoji, "Summary:" prefixes, the `'-' * 40` rule). Each line is a constructor holding the values it prints.
- `max_tweets=5` and `max_videos=5` are passed to the scrapers, but the model does not assume that the scrapers respect them. The pipeline itself does not enforce them either.
- Override and discovery values are strings or nothing. Python truthiness of other value types is not modelled.
- `Pipeline.LogFrame` does not state the log's subjects across stage boundaries. The order of URLs within each stage is stated by the stage lemmas (`Stages.ClassifyLogSubjects`, `Stages.LandingLogSubjects`, `Stages.TwitterLogSubjects`, `Stages.YouTubeLogSubjects`). The stage order follows from the log in `Pipeline.RunAllAgents`.
