/** The job scrapers (`JobScraper` and its four subclasses) and `JobAggregator`: the post
    classifier, the recency test, the shape of the records each provider yields, and how a
    failing provider, query or item is isolated. Every HTTP response is a parameter: a fetch
    that raises or answers with a non-200 status is `Raised` or an empty listing. */
module JobSources {
  import opened Records
  import opened Text

  const SecondsPerDay: int := 86400

  /** The default `max_days` of `is_recent_post`. */
  const DefaultMaxDays: int := 30

  /** The length every scraper truncates post content to. */
  const ContentLimit: nat := 500

  const SkipPhrases: seq<string> := ["for hire", "looking for work", "seeking employment", "available for"]

  const HiringIndicators: seq<string> :=
    ["hiring", "looking for", "seeking", "need", "wanted", "join our team", "we are hiring"]

  const Subreddits: seq<string> := ["forhire", "freelance", "remotework", "jobsearch", "hiring", "startups"]

  const GitHubQueries: seq<string> := [
    "hiring backend developer", "looking for node.js developer", "remote software engineer",
    "full stack developer position", "python developer job"]

  const AngelListTerms: seq<string> := ["backend", "frontend", "fullstack", "python", "javascript"]

  /** How many comments of the hiring thread are examined, and cards per search term. */
  const HackerNewsCommentLimit: nat := 50
  const AngelListCardLimit: nat := 10

  // ---------------------------------------------------------------------------------------
  // Classification

  /** A creation date as a provider delivers it: an ISO string together with the instant it
      parses to (`None` when `fromisoformat` raises), or a Unix timestamp. */
  datatype CreatedDate = Iso(text: string, parsed: Option<Instant>) | Epoch(seconds: int)

  /** `is_recent_post`: an unparsable date counts as recent; otherwise the age in whole days
      (rounded down, as `timedelta.days` is) must not exceed `maxDays`. That is a plain
      threshold on the creation instant: the post was created less than `maxDays + 1` whole
      days before `now`, or at any later time. */
  function IsRecentPost(created: CreatedDate, now: Instant, maxDays: int := DefaultMaxDays): (r: bool)
    ensures created.Iso? && created.parsed.None? ==> r
    ensures created.Iso? && created.parsed.Some? ==> (r <==> now - created.parsed.value < (maxDays + 1) * SecondsPerDay)
    ensures created.Epoch? ==> (r <==> now - created.seconds < (maxDays + 1) * SecondsPerDay)
  {
    match created
    case Iso(_, None) => true
    case Iso(_, Some(t)) => DayThreshold(now - t, maxDays); (now - t) / SecondsPerDay <= maxDays
    case Epoch(t) => DayThreshold(now - t, maxDays); (now - t) / SecondsPerDay <= maxDays
  }

  /** At most `maxDays` whole days (rounded down) is less than `maxDays + 1` days. */
  lemma DayThreshold(d: int, maxDays: int)
    ensures d / SecondsPerDay <= maxDays <==> d < (maxDays + 1) * SecondsPerDay
  {
    var q, r := d / SecondsPerDay, d % SecondsPerDay;
    assert d == q * SecondsPerDay + r && 0 <= r < SecondsPerDay;
    if q <= maxDays {
      assert (q + 1) * SecondsPerDay <= (maxDays + 1) * SecondsPerDay;
    } else {
      assert q * SecondsPerDay >= (maxDays + 1) * SecondsPerDay;
    }
  }

  /** `filter_hiring_post`: a job seeker's title rules the post out; otherwise a hiring
      indicator and a configured keyword must each occur in the lower-cased title or content.
      Keywords are not lower-cased. */
  function FilterHiringPost(title: string, content: string, keywords: seq<string>): (r: bool)
    ensures ContainsAny(Lower(title), SkipPhrases) ==> !r
    ensures r ==> ContainsAny(Lower(title), HiringIndicators) || ContainsAny(Lower(content), HiringIndicators)
    ensures r ==> ContainsAny(Lower(title), keywords) || ContainsAny(Lower(content), keywords)
  {
    var t, c := Lower(title), Lower(content);
    !ContainsAny(t, SkipPhrases)
    && (exists h | h in HiringIndicators :: Contains(t, h) || Contains(c, h))
    && (exists k | k in keywords :: Contains(t, k) || Contains(c, k))
  }

  /** Without a seeker's phrase in the title, a post is accepted exactly when some indicator
      and some keyword each occur, at some position, in the lower-cased title or content. */
  lemma FilterHiringPostIff(title: string, content: string, keywords: seq<string>)
    requires !ContainsAny(Lower(title), SkipPhrases)
    ensures FilterHiringPost(title, content, keywords) <==>
      (exists h | h in HiringIndicators :: Occurs(Lower(title), h) || Occurs(Lower(content), h))
      && (exists k | k in keywords :: Occurs(Lower(title), k) || Occurs(Lower(content), k))
  {
    forall p | p in HiringIndicators || p in keywords
      ensures (Contains(Lower(title), p) <==> Occurs(Lower(title), p))
      ensures (Contains(Lower(content), p) <==> Occurs(Lower(content), p))
    {
      ContainsIff(Lower(title), p);
      ContainsIff(Lower(content), p);
    }
  }

  /** `p` occurs somewhere in `s`. */
  ghost predicate Occurs(s: string, p: string)
  {
    exists i :: OccursAt(s, p, i)
  }

  /** The classifier ignores case in the post... */
  lemma FilterIgnoresCase(title: string, content: string, keywords: seq<string>)
    ensures FilterHiringPost(Lower(title), Lower(content), keywords) == FilterHiringPost(title, content, keywords)
  {
    LowerIdempotent(title);
    LowerIdempotent(content);
  }

  /** ...but not in the keywords: a keyword with an upper-case letter can never match, so a
      list made only of such keywords rejects every post. */
  lemma UpperCaseKeywordsNeverMatch(title: string, content: string, keywords: seq<string>)
    requires forall k | k in keywords :: exists i :: 0 <= i < |k| && IsUpper(k[i])
    ensures !FilterHiringPost(title, content, keywords)
  {
    forall k | k in keywords
      ensures !Contains(Lower(title), k) && !Contains(Lower(content), k)
    {
      var i :| 0 <= i < |k| && IsUpper(k[i]);
      UpperPatternNeverMatches(title, k, i);
      UpperPatternNeverMatches(content, k, i);
    }
  }

  /** The shipped keyword list is written in lower case, so the trap above does not fire on it. */
  lemma DefaultKeywordsLowerCase()
    ensures forall k | k in DefaultKeywords :: forall i | 0 <= i < |k| :: !IsUpper(k[i])
  {
    var kws := DefaultKeywords;
    assert forall j | 0 <= j < |kws| :: forall i | 0 <= i < |kws[j]| :: !IsUpper(kws[j][i]);
  }

  // ---------------------------------------------------------------------------------------
  // Collecting records: a listing per key (subreddit, query, comment id, search term)

  function Picked(o: Option<LeadData>): seq<LeadData>
  {
    if o.Some? then [o.value] else []
  }

  /** The records one listing yields, in listing order: `pick` classifies an item and builds
      its record. */
  function Harvest<K, T>(key: K, items: seq<T>, pick: (K, T) -> Option<LeadData>): seq<LeadData>
    decreases |items|
  {
    if items == [] then []
    else Harvest(key, items[..|items| - 1], pick) + Picked(pick(key, items[|items| - 1]))
  }

  /** The records of a loop over keys whose every iteration sits in its own `try`: a key whose
      fetch raised contributes nothing and the loop goes on. */
  function Sweep<K, T>(keys: seq<K>, fetch: K -> Outcome<seq<T>>, pick: (K, T) -> Option<LeadData>): seq<LeadData>
    decreases |keys|
  {
    if keys == [] then []
    else
      var k := keys[|keys| - 1];
      Sweep(keys[..|keys| - 1], fetch, pick) + (if fetch(k).Returned? then Harvest(k, fetch(k).value, pick) else [])
  }

  /** A listing yields exactly the records its picked items build, at most one per item. */
  lemma {:induction false} HarvestMembers<K, T>(key: K, items: seq<T>, pick: (K, T) -> Option<LeadData>, j: LeadData)
    ensures j in Harvest(key, items, pick) <==> exists t :: t in items && pick(key, t) == Some(j)
    ensures |Harvest(key, items, pick)| <= |items|
    decreases |items|
  {
    if items != [] {
      var init, last := items[..|items| - 1], items[|items| - 1];
      HarvestMembers(key, init, pick, j);
      assert items == init + [last];
      if exists t :: t in items && pick(key, t) == Some(j) {
        var t :| t in items && pick(key, t) == Some(j);
        if t != last {
          assert t in init;
        }
      }
    }
  }

  /** A sweep yields exactly the records of the listings whose fetch did not raise. */
  lemma {:induction false} SweepMembers<K, T>(keys: seq<K>, fetch: K -> Outcome<seq<T>>, pick: (K, T) -> Option<LeadData>, j: LeadData)
    ensures j in Sweep(keys, fetch, pick) <==>
      exists k :: k in keys && fetch(k).Returned? && j in Harvest(k, fetch(k).value, pick)
    decreases |keys|
  {
    if keys != [] {
      var init, last := keys[..|keys| - 1], keys[|keys| - 1];
      SweepMembers(init, fetch, pick, j);
      assert keys == init + [last];
      if exists k :: k in keys && fetch(k).Returned? && j in Harvest(k, fetch(k).value, pick) {
        var k :| k in keys && fetch(k).Returned? && j in Harvest(k, fetch(k).value, pick);
        if k != last {
          assert k in init;
        }
      }
    }
  }

  /** The inner loop of each scraper: classify the items of one listing in order. */
  method Scan<K, T>(key: K, items: seq<T>, pick: (K, T) -> Option<LeadData>) returns (found: seq<LeadData>)
    ensures found == Harvest(key, items, pick)
  {
    found := [];
    for n := 0 to |items|
      invariant found == Harvest(key, items[..n], pick)
    {
      assert items[..n + 1][..n] == items[..n];
      var record := pick(key, items[n]);
      if record.Some? {
        found := found + [record.value];
      }
    }
    assert items[..|items|] == items;
  }

  /** The nested loop of `RedditScraper.get_jobs` and `GitHubScraper.get_jobs`: one `try` per
      key around the fetch and the scan of its listing. */
  method Collect<K, T>(keys: seq<K>, fetch: K -> Outcome<seq<T>>, pick: (K, T) -> Option<LeadData>) returns (jobs: seq<LeadData>)
    ensures jobs == Sweep(keys, fetch, pick)
  {
    jobs := [];
    for i := 0 to |keys|
      invariant jobs == Sweep(keys[..i], fetch, pick)
    {
      assert keys[..i + 1][..i] == keys[..i];
      var response := fetch(keys[i]);
      if response.Returned? {
        var found := Scan(keys[i], response.value, pick);
        jobs := jobs + found;
      }
    }
    assert keys[..|keys|] == keys;
  }

  // ---------------------------------------------------------------------------------------
  // Reddit

  /** The fields of a post the scraper reads; `selftext` may be absent. */
  datatype RedditPost = RedditPost(title: string, author: string, selftext: Option<string>, permalink: string, createdUtc: int)

  function RedditPick(sub: string, p: RedditPost, now: Instant, keywords: seq<string>): Option<LeadData>
  {
    var text := p.selftext.GetOr("");
    if IsRecentPost(Epoch(p.createdUtc), now) && FilterHiringPost(p.title, text, keywords) then
      Some(LeadData("Reddit", "r/" + sub, p.title, p.author, Take(text, ContentLimit),
                    "https://reddit.com" + p.permalink, At(p.createdUtc)))
    else None
  }

  function RedditJobs(fetch: string -> Outcome<seq<RedditPost>>, now: Instant, keywords: seq<string>): seq<LeadData>
  {
    Sweep(Subreddits, fetch, (sub, p) => RedditPick(sub, p, now, keywords))
  }

  /** `RedditScraper.get_jobs`. */
  method RedditGetJobs(fetch: string -> Outcome<seq<RedditPost>>, now: Instant, keywords: seq<string>) returns (jobs: seq<LeadData>)
    ensures jobs == RedditJobs(fetch, now, keywords)
  {
    jobs := Collect(Subreddits, fetch, (sub, p) => RedditPick(sub, p, now, keywords));
  }

  /** Every Reddit record comes from a recent hiring post of one of the six subreddits: its
      source names the subreddit, its content is the first 500 characters of the post's text,
      and its url is the site address followed by the permalink. Conversely every such post
      of a listing that was fetched yields its record. */
  lemma RedditJobsFaithful(fetch: string -> Outcome<seq<RedditPost>>, now: Instant, keywords: seq<string>, j: LeadData)
    ensures j in RedditJobs(fetch, now, keywords) <==>
      exists sub, p :: sub in Subreddits && fetch(sub).Returned? && p in fetch(sub).value
        && IsRecentPost(Epoch(p.createdUtc), now) && FilterHiringPost(p.title, p.selftext.GetOr(""), keywords)
        && j == LeadData("Reddit", "r/" + sub, p.title, p.author, Take(p.selftext.GetOr(""), ContentLimit),
                         "https://reddit.com" + p.permalink, At(p.createdUtc))
  {
    var pick := (sub, p) => RedditPick(sub, p, now, keywords);
    SweepMembers(Subreddits, fetch, pick, j);
    forall sub | sub in Subreddits && fetch(sub).Returned? {
      HarvestMembers(sub, fetch(sub).value, pick, j);
    }
  }

  /** A Reddit record's content never exceeds 500 characters and is a prefix of the post. */
  lemma RedditContentBounded(fetch: string -> Outcome<seq<RedditPost>>, now: Instant, keywords: seq<string>, j: LeadData)
    requires j in RedditJobs(fetch, now, keywords)
    ensures |j.content| <= ContentLimit && j.platform == "Reddit"
  {
    RedditJobsFaithful(fetch, now, keywords, j);
  }

  // ---------------------------------------------------------------------------------------
  // GitHub

  /** The `body` of an issue: absent from the JSON, JSON `null`, or a string. */
  datatype Body = Absent | Null | Present(text: string)

  datatype GitHubIssue = GitHubIssue(
    title: string, login: string, body: Body, htmlUrl: string,
    repositoryUrl: Option<string>, createdAt: string, parsedCreatedAt: Option<Instant>)

  /** `(item.get('body') or '')`: absent and null both read as the empty string. */
  function BodyText(b: Body): string
  {
    if b.Present? then b.text else ""
  }

  function GitHubCreated(issue: GitHubIssue): CreatedDate
  {
    Iso(issue.createdAt, issue.parsedCreatedAt)
  }

  /** The record of an issue the scraper keeps. */
  function GitHubRecord(issue: GitHubIssue): (r: LeadData)
    ensures '/' !in r.source && |r.content| <= ContentLimit
  {
    LeadData("GitHub", LastSegment(issue.repositoryUrl.GetOr("Unknown"), '/'), issue.title, issue.login,
             Take(BodyText(issue.body), ContentLimit), issue.htmlUrl, Verbatim(issue.createdAt))
  }

  /** The classification as written: `item.get('body', '')` passes a JSON null through, and
      `filter_hiring_post` then raises on `None.lower()`; `and` skips it for an old issue. */
  function GitHubKeepAsWritten(issue: GitHubIssue, now: Instant, keywords: seq<string>): Outcome<bool>
  {
    if !IsRecentPost(GitHubCreated(issue), now) then Returned(false)
    else match issue.body
      case Null => Raised
      case Absent => Returned(FilterHiringPost(issue.title, "", keywords))
      case Present(text) => Returned(FilterHiringPost(issue.title, text, keywords))
  }

  /** One query's listing as written: the records appended before an item raises are kept, the
      rest of the listing is abandoned (the `try` encloses the whole scan). */
  function GitHubListingAsWritten(items: seq<GitHubIssue>, now: Instant, keywords: seq<string>): seq<LeadData>
    decreases |items|
  {
    if items == [] then []
    else match GitHubKeepAsWritten(items[0], now, keywords)
      case Raised => []
      case Returned(keep) =>
        (if keep then [GitHubRecord(items[0])] else []) + GitHubListingAsWritten(items[1..], now, keywords)
  }

  /** The classification with a null body read as empty, as the record's own content does. */
  function GitHubPick(query: string, issue: GitHubIssue, now: Instant, keywords: seq<string>): Option<LeadData>
  {
    if IsRecentPost(GitHubCreated(issue), now) && FilterHiringPost(issue.title, BodyText(issue.body), keywords) then
      Some(GitHubRecord(issue))
    else None
  }

  function GitHubJobs(fetch: string -> Outcome<seq<GitHubIssue>>, now: Instant, keywords: seq<string>): seq<LeadData>
  {
    Sweep(GitHubQueries, fetch, (q, issue) => GitHubPick(q, issue, now, keywords))
  }

  /** `GitHubScraper.get_jobs`, with a null body read as empty. */
  method GitHubGetJobs(fetch: string -> Outcome<seq<GitHubIssue>>, now: Instant, keywords: seq<string>) returns (jobs: seq<LeadData>)
    ensures jobs == GitHubJobs(fetch, now, keywords)
  {
    jobs := Collect(GitHubQueries, fetch, (q, issue) => GitHubPick(q, issue, now, keywords));
  }

  /** Every GitHub record is built from a recent issue of a fetched listing that the classifier
      accepts, and every such issue yields one; its source is the repository name, the last
      `/`-separated segment of the repository url ("Unknown" without one). */
  lemma GitHubJobsFaithful(fetch: string -> Outcome<seq<GitHubIssue>>, now: Instant, keywords: seq<string>, j: LeadData)
    ensures j in GitHubJobs(fetch, now, keywords) <==>
      exists q, issue :: q in GitHubQueries && fetch(q).Returned? && issue in fetch(q).value
        && IsRecentPost(GitHubCreated(issue), now) && FilterHiringPost(issue.title, BodyText(issue.body), keywords)
        && j == GitHubRecord(issue)
    ensures j in GitHubJobs(fetch, now, keywords) ==>
      j.platform == "GitHub" && '/' !in j.source && |j.content| <= ContentLimit
  {
    var pick := (q, issue) => GitHubPick(q, issue, now, keywords);
    SweepMembers(GitHubQueries, fetch, pick, j);
    forall q | q in GitHubQueries && fetch(q).Returned? {
      HarvestMembers(q, fetch(q).value, pick, j);
    }
  }

  /** Where the listing has no null body the two readings agree. */
  lemma {:induction false} GitHubAsWrittenAgreesWithoutNull(query: string, items: seq<GitHubIssue>, now: Instant, keywords: seq<string>)
    requires forall i | 0 <= i < |items| :: !items[i].body.Null?
    ensures GitHubListingAsWritten(items, now, keywords) == Harvest(query, items, (q, issue) => GitHubPick(q, issue, now, keywords))
    decreases |items|
  {
    var pick := (q, issue) => GitHubPick(q, issue, now, keywords);
    if items != [] {
      GitHubAsWrittenAgreesWithoutNull(query, items[1..], now, keywords);
      HarvestPrepend(query, items[0], items[1..], pick);
      assert items == [items[0]] + items[1..];
      GitHubKeepWithoutNull(query, items[0], now, keywords);
    }
  }

  /** On an issue whose body is not `null`, the filter as written keeps exactly what the
      corrected pick keeps. */
  lemma GitHubKeepWithoutNull(query: string, issue: GitHubIssue, now: Instant, keywords: seq<string>)
    requires !issue.body.Null?
    ensures GitHubKeepAsWritten(issue, now, keywords) == Returned(GitHubPick(query, issue, now, keywords).Some?)
    ensures (if GitHubPick(query, issue, now, keywords).Some? then [GitHubRecord(issue)] else [])
      == Picked(GitHubPick(query, issue, now, keywords))
  {
    var keep := IsRecentPost(GitHubCreated(issue), now) && FilterHiringPost(issue.title, BodyText(issue.body), keywords);
    assert GitHubPick(query, issue, now, keywords) == if keep then Some(GitHubRecord(issue)) else None;
    if IsRecentPost(GitHubCreated(issue), now) {
      assert issue.body.Absent? ==> BodyText(issue.body) == "";
    }
  }

  /** `GitHubScraper.get_jobs` as written: the loop over the queries, each listing read by
      `GitHubListingAsWritten`. */
  function GitHubSweepAsWritten(queries: seq<string>, fetch: string -> Outcome<seq<GitHubIssue>>, now: Instant,
                                keywords: seq<string>): seq<LeadData>
    decreases |queries|
  {
    if queries == [] then []
    else
      var q := queries[|queries| - 1];
      GitHubSweepAsWritten(queries[..|queries| - 1], fetch, now, keywords)
        + (if fetch(q).Returned? then GitHubListingAsWritten(fetch(q).value, now, keywords) else [])
  }

  function GitHubJobsAsWritten(fetch: string -> Outcome<seq<GitHubIssue>>, now: Instant, keywords: seq<string>): seq<LeadData>
  {
    GitHubSweepAsWritten(GitHubQueries, fetch, now, keywords)
  }

  /** When no fetched listing holds a null body, `get_jobs` as written yields exactly the
      records of the corrected reading. */
  lemma {:induction false} GitHubSweepAgreesWithoutNull(queries: seq<string>, fetch: string -> Outcome<seq<GitHubIssue>>,
                                                        now: Instant, keywords: seq<string>)
    requires forall q, i | q in queries && fetch(q).Returned? && 0 <= i < |fetch(q).value| :: !fetch(q).value[i].body.Null?
    ensures GitHubSweepAsWritten(queries, fetch, now, keywords) == Sweep(queries, fetch, (q, issue) => GitHubPick(q, issue, now, keywords))
    decreases |queries|
  {
    if queries != [] {
      var q := queries[|queries| - 1];
      GitHubSweepAgreesWithoutNull(queries[..|queries| - 1], fetch, now, keywords);
      if fetch(q).Returned? {
        GitHubAsWrittenAgreesWithoutNull(q, fetch(q).value, now, keywords);
      }
    }
  }

  lemma GitHubJobsAgreeWithoutNull(fetch: string -> Outcome<seq<GitHubIssue>>, now: Instant, keywords: seq<string>)
    requires forall q, i | q in GitHubQueries && fetch(q).Returned? && 0 <= i < |fetch(q).value| :: !fetch(q).value[i].body.Null?
    ensures GitHubJobsAsWritten(fetch, now, keywords) == GitHubJobs(fetch, now, keywords)
  {
    GitHubSweepAgreesWithoutNull(GitHubQueries, fetch, now, keywords);
  }

  /** A listing with one item in front yields that item's record first. */
  lemma {:induction false} HarvestPrepend<K, T>(key: K, t: T, rest: seq<T>, pick: (K, T) -> Option<LeadData>)
    ensures Harvest(key, [t] + rest, pick) == Picked(pick(key, t)) + Harvest(key, rest, pick)
    decreases |rest|
  {
    if rest == [] {
      assert [t] + rest == [t];
      assert Harvest(key, [t][..0], pick) == [];
    } else {
      var s := [t] + rest;
      assert s[..|s| - 1] == [t] + rest[..|rest| - 1];
      HarvestPrepend(key, t, rest[..|rest| - 1], pick);
    }
  }

  /** The discrepancy: a recent issue whose body is JSON null, followed by any issue the
      classifier accepts, yields no record as written, although the accepted issue yields one. */
  lemma NullBodyDropsListing(first: GitHubIssue, second: GitHubIssue, now: Instant, keywords: seq<string>)
    requires first.body.Null? && IsRecentPost(GitHubCreated(first), now)
    requires GitHubPick("", second, now, keywords).Some?
    ensures GitHubListingAsWritten([first, second], now, keywords) == []
    ensures GitHubRecord(second) in Harvest("", [first, second], (q, issue) => GitHubPick(q, issue, now, keywords))
  {
    var items := [first, second];
    assert items[0] == first && GitHubKeepAsWritten(first, now, keywords) == Raised;
    var pick := (q, issue) => GitHubPick(q, issue, now, keywords);
    assert GitHubPick("", second, now, keywords).value == GitHubRecord(second);
    assert second in items && pick("", second) == Some(GitHubRecord(second));
    HarvestMembers("", items, pick, GitHubRecord(second));
  }

  // ---------------------------------------------------------------------------------------
  // Hacker News

  /** A comment of the hiring thread: `text`, `by` (here `author`) and `time` may each be absent. */
  datatype HnComment = HnComment(text: Option<string>, author: Option<string>, time: Option<int>)

  /** A comment counts when its text alone passes the classifier (used as the title, with
      empty content). */
  function HackerNewsPick(kid: nat, c: HnComment, keywords: seq<string>): Option<LeadData>
  {
    var text := c.text.GetOr("");
    if FilterHiringPost(text, "", keywords) then
      Some(LeadData("HackerNews", "Who is Hiring", "HN Job Post", c.author.GetOr("Unknown"), Take(text, ContentLimit),
                    "https://news.ycombinator.com/item?id=" + Decimal(kid), At(c.time.GetOr(0))))
    else None
  }

  /** A comment fetch as a one-item listing: a comment that raised or did not answer 200 is skipped. */
  function CommentListing(comment: nat -> Outcome<HnComment>): nat -> Outcome<seq<HnComment>>
  {
    (kid: nat) => if comment(kid).Returned? then Returned([comment(kid).value]) else Raised
  }

  /** The first 50 child ids of the thread, or none when the thread itself failed or has none. */
  function ThreadKids(thread: Outcome<Option<seq<nat>>>): seq<nat>
  {
    if thread.Returned? && thread.value.Some? then Take(thread.value.value, HackerNewsCommentLimit) else []
  }

  function HackerNewsJobs(thread: Outcome<Option<seq<nat>>>, comment: nat -> Outcome<HnComment>, keywords: seq<string>): seq<LeadData>
  {
    Sweep(ThreadKids(thread), CommentListing(comment), (kid: nat, c: HnComment) => HackerNewsPick(kid, c, keywords))
  }

  /** `HackerNewsScraper.get_jobs`. */
  method HackerNewsGetJobs(thread: Outcome<Option<seq<nat>>>, comment: nat -> Outcome<HnComment>, keywords: seq<string>) returns (jobs: seq<LeadData>)
    ensures jobs == HackerNewsJobs(thread, comment, keywords)
  {
    jobs := [];
    if thread.Raised? || thread.value.None? {
      return;
    }
    var kids := Take(thread.value.value, HackerNewsCommentLimit);
    var pick := (kid: nat, c: HnComment) => HackerNewsPick(kid, c, keywords);
    for i := 0 to |kids|
      invariant jobs == Sweep(kids[..i], CommentListing(comment), pick)
    {
      assert kids[..i + 1][..i] == kids[..i];
      var response := comment(kids[i]);
      if response.Returned? {
        var found := HackerNewsPick(kids[i], response.value, keywords);
        assert Harvest(kids[i], [response.value], pick) == Picked(found) by {
          assert [response.value][..0] == [];
        }
        if found.Some? {
          jobs := jobs + [found.value];
        }
      }
    }
    assert kids[..|kids|] == kids;
  }

  /** At most 50 comments are examined, each yields at most one record, and records of
      different comments have different urls (so the lead store keeps them apart). */
  lemma HackerNewsRecordsDistinct(thread: Outcome<Option<seq<nat>>>, comment: nat -> Outcome<HnComment>, keywords: seq<string>, j1: LeadData, j2: LeadData)
    requires j1 in HackerNewsJobs(thread, comment, keywords) && j2 in HackerNewsJobs(thread, comment, keywords)
    ensures j1.platform == "HackerNews" && j1.content == Take(j1.content, ContentLimit)
    ensures j1.url == j2.url ==> j1.author == j2.author && j1.createdAt == j2.createdAt && j1.content == j2.content
  {
    var k1 := HackerNewsSource(thread, comment, keywords, j1);
    var k2 := HackerNewsSource(thread, comment, keywords, j2);
    if j1.url == j2.url {
      var prefix := "https://news.ycombinator.com/item?id=";
      assert j1.url[|prefix|..] == Decimal(k1) && j2.url[|prefix|..] == Decimal(k2);
      DecimalInjective(k1, k2);
    }
  }

  /** Every Hacker News record is the pick of the comment of one of the thread's children. */
  lemma HackerNewsSource(thread: Outcome<Option<seq<nat>>>, comment: nat -> Outcome<HnComment>, keywords: seq<string>, j: LeadData)
    returns (kid: nat)
    requires j in HackerNewsJobs(thread, comment, keywords)
    ensures kid in ThreadKids(thread) && comment(kid).Returned?
    ensures HackerNewsPick(kid, comment(kid).value, keywords) == Some(j)
  {
    var kids, listing := ThreadKids(thread), CommentListing(comment);
    var pick := (kid: nat, c: HnComment) => HackerNewsPick(kid, c, keywords);
    SweepMembers(kids, listing, pick, j);
    kid :| kid in kids && listing(kid).Returned? && j in Harvest(kid, listing(kid).value, pick);
    HarvestMembers(kid, listing(kid).value, pick, j);
  }

  /** The thread's comment list is capped at 50, so is the number of records. */
  lemma HackerNewsAtMostFifty(thread: Outcome<Option<seq<nat>>>, comment: nat -> Outcome<HnComment>, keywords: seq<string>)
    ensures |HackerNewsJobs(thread, comment, keywords)| <= HackerNewsCommentLimit
  {
    SweepAtMostOnePerKey(ThreadKids(thread), CommentListing(comment), (kid: nat, c: HnComment) => HackerNewsPick(kid, c, keywords));
  }

  /** A sweep over one-item listings yields at most one record per key. */
  lemma {:induction false} SweepAtMostOnePerKey<K, T>(keys: seq<K>, fetch: K -> Outcome<seq<T>>, pick: (K, T) -> Option<LeadData>)
    requires forall k | k in keys && fetch(k).Returned? :: |fetch(k).value| <= 1
    ensures |Sweep(keys, fetch, pick)| <= |keys|
    decreases |keys|
  {
    if keys != [] {
      var last := keys[|keys| - 1];
      SweepAtMostOnePerKey(keys[..|keys| - 1], fetch, pick);
      if fetch(last).Returned? {
        HarvestMembers(last, fetch(last).value, pick, LeadData("", "", "", "", "", "", At(0)));
      }
    }
  }

  // ---------------------------------------------------------------------------------------
  // AngelList

  /** A job card: the texts of its `h3` and `h4` elements, when present. */
  datatype Card = Card(title: Option<string>, company: Option<string>)

  function AngelListPick(term: string, card: Card, now: Instant): Option<LeadData>
  {
    if card.title.Some? && card.company.Some? then
      var company := Strip(card.company.value);
      Some(LeadData("AngelList", company, Strip(card.title.value), company, "Remote job opportunity",
                    "https://angel.co/jobs/" + term, At(now)))
    else None
  }

  /** All search terms share one `try`: the first fetch that raises ends the search, keeping
      the records of the terms before it. */
  function AngelListJobs(terms: seq<string>, fetch: string -> Outcome<seq<Card>>, now: Instant): seq<LeadData>
    decreases |terms|
  {
    if terms == [] then []
    else match fetch(terms[0])
      case Raised => []
      case Returned(cards) => AngelListTermJobs(terms[0], cards, now) + AngelListJobs(terms[1..], fetch, now)
  }

  /** The records of one search term: the picks among its first ten cards. */
  function AngelListTermJobs(term: string, cards: seq<Card>, now: Instant): seq<LeadData>
  {
    Harvest(term, Take(cards, AngelListCardLimit), (t, c) => AngelListPick(t, c, now))
  }

  /** The card loop of one search term. */
  method AngelListTerm(term: string, cards: seq<Card>, now: Instant) returns (found: seq<LeadData>)
    ensures found == AngelListTermJobs(term, cards, now)
  {
    found := Scan(term, Take(cards, AngelListCardLimit), (t, c) => AngelListPick(t, c, now));
  }

  /** `AngelListScraper.get_jobs`. */
  method AngelListGetJobs(fetch: string -> Outcome<seq<Card>>, now: Instant) returns (jobs: seq<LeadData>)
    ensures jobs == AngelListJobs(AngelListTerms, fetch, now)
  {
    jobs := AngelListSearch(AngelListTerms, fetch, now);
  }

  /** The loop over search terms inside the scraper's single `try`. */
  method AngelListSearch(terms: seq<string>, fetch: string -> Outcome<seq<Card>>, now: Instant) returns (jobs: seq<LeadData>)
    ensures jobs == AngelListJobs(terms, fetch, now)
  {
    jobs := [];
    var i := 0;
    while i < |terms|
      invariant 0 <= i <= |terms|
      invariant jobs + AngelListJobs(terms[i..], fetch, now) == AngelListJobs(terms, fetch, now)
    {
      var response := fetch(terms[i]);
      if response.Raised? {
        return;
      }
      var found := AngelListTerm(terms[i], response.value, now);
      assert terms[i..][1..] == terms[i + 1..];
      jobs := jobs + found;
      i := i + 1;
    }
  }

  /** Every record of one search term has the same url, the search page of the term. */
  lemma AngelListSharedUrl(term: string, cards: seq<Card>, now: Instant, j: LeadData)
    requires j in Harvest(term, cards, (t, c) => AngelListPick(t, c, now))
    ensures j.url == "https://angel.co/jobs/" + term && j.platform == "AngelList"
  {
    HarvestMembers(term, cards, (t, c) => AngelListPick(t, c, now), j);
  }

  /** A search term whose fetch raises ends the search: the result is what the terms before it
      gave. */
  lemma {:induction false} AngelListRaiseEndsSearch(terms: seq<string>, fetch: string -> Outcome<seq<Card>>, now: Instant, i: int)
    requires 0 <= i < |terms| && fetch(terms[i]).Raised?
    ensures AngelListJobs(terms, fetch, now) == AngelListJobs(terms[..i], fetch, now)
    decreases i
  {
    var prefix := terms[..i];
    if i == 0 {
      assert prefix == [];
    } else {
      assert prefix[0] == terms[0];
      match fetch(terms[0])
      case Raised =>
      case Returned(cards) =>
        assert terms[1..][i - 1] == terms[i];
        AngelListRaiseEndsSearch(terms[1..], fetch, now, i - 1);
        assert prefix[1..] == terms[1..][..i - 1];
        calc {
          AngelListJobs(terms, fetch, now);
          AngelListTermJobs(terms[0], cards, now) + AngelListJobs(terms[1..], fetch, now);
          AngelListTermJobs(terms[0], cards, now) + AngelListJobs(prefix[1..], fetch, now);
          AngelListJobs(prefix, fetch, now);
        }
    }
  }

  // ---------------------------------------------------------------------------------------
  // JobAggregator

  /** `JobAggregator.get_all_jobs`: the outputs of the scrapers, in order, skipping any that raised. */
  method GetAllJobs(outcomes: seq<Outcome<seq<LeadData>>>) returns (all: seq<LeadData>)
    ensures all == Gathered(outcomes)
  {
    all := [];
    for i := 0 to |outcomes|
      invariant all == Gathered(outcomes[..i])
    {
      var one := [outcomes[i]];
      assert outcomes[..i + 1] == outcomes[..i] + one;
      GatheredAppend(outcomes[..i], one);
      assert Gathered(one) == (if outcomes[i].Returned? then outcomes[i].value else []) + Gathered(one[1..]);
      if outcomes[i].Returned? {
        all := all + outcomes[i].value;
      }
    }
    assert outcomes[..|outcomes|] == outcomes;
  }
}
