# JobPulse core in Dafny

JobPulse is a bot that collects job posts and companies and sends applications and outreach
messages. This project models the bookkeeping between the scrapers and the SMTP server and
proves properties of it:

- the lead store (`LeadManager`). It admits leads keyed by URL, appends companies, selects
  records for outreach, marks them contacted and counts them.
- the sender (`EmailSender`). It keeps a daily quota of 25 that resets lazily on the first
  check of a new day, logs every attempt, and tries a list of addresses until one accepts.
- the bot's cycles (`JobHuntingBot`). Ingestion admits scraped jobs and counts the new ones.
  Discovery stores the enriched companies that have addresses. Outreach handles at most 5 new
  leads and then 3 companies, stops when the quota is used up, and marks a record with the
  first address it offered.
- the company finder's decision logic: the address filter `_is_relevant_email`, the union of
  the address sources, the two first-wins de-duplication passes and the enrichment loop.
- the job scrapers: the post classifier, the recency test, the record each provider builds, and
  how a failing provider, query or item is isolated. `JobAggregator` is included.
- the chat monitor's `process_message`.

Modules follow the source files: `Text` holds the Python string operations used,
`Records` the record shapes, and then `DataManager`, `EmailManager`, `JobSources`,
`CompanyFinder`, `DiscordMonitor` and `Bot` (for `main.py`).

The two stateful objects and the bot are Dafny classes with the source's fields. Each method
that changes them is proved against a pure transition function of the old state, for example
`AdmitLead`, `SendOnce`, `TryEach`, `LeadRound` and `Outreach`. The properties are lemmas
about those functions.

Every outside input is a parameter:

- HTTP responses, Hunter.io answers, page scraping and the e-mail regular expression;
- the clock, given as `today` and `now`;
- the SMTP server, given as a script of answers, one per attempt in order;
- the JSON files, given as optional snapshots.

Points about how the code behaves that the model keeps:

- Marking a record contacted does not check its status. A second mark overwrites the address and the time.
- An outreach pass tries up to three addresses. The record is marked with the first address, whichever one accepted.
- A failed send uses no quota, and a refused send records no attempt.
- `seen_urls` is saved and loaded as its own field. It is not rebuilt from the leads.

## Model

| member | source | states |
|---|---|---|
| Text.Lower | job_sources.py:31 | `str.lower()` keeps the length and lower-cases each ASCII letter in place |
| Text.ContainsIff | job_sources.py:36 | Python's substring test `p in s` holds exactly when `p` occurs at some index of `s` |
| Text.UpperPatternNeverMatches | company_finder.py:306-311 | a pattern that holds an upper-case letter never occurs in a lower-cased string |
| Text.LastSegment | job_sources.py:110 | `s.split(c)[-1]` is the suffix of `s` after the last `c`; it holds no `c`, and it is all of `s` when `c` does not occur |
| Text.Take | job_sources.py:71 | the slice `s[:n]` is the prefix of length `min(n, len(s))` |
| Text.DecimalInjective | job_sources.py:151 | different ids render to different decimal strings, so ids in URLs keep records apart |
| Records.GatheredMembers | job_sources.py:214-225 | a gathered job comes from a scraper that returned it, and every job a non-raising scraper returned is gathered |
| Records.GatheredAppend | job_sources.py:217-223 | a raising scraper contributes nothing and does not disturb the scrapers after it |
| JobSources.IsRecentPost | job_sources.py:18-28 | an unparsable date is always recent; otherwise a post is recent iff it was created less than `max_days + 1` whole days before now |
| JobSources.FilterHiringPost | job_sources.py:30-46 | a job seeker's phrase in the title rejects the post whatever the content; an accepted post has a hiring indicator and a keyword, each in the lower-cased title or content |
| DataManager.LeadManager.constructor | data_manager.py:9-15 | a new store is empty |
| DataManager.LeadManager.IsDuplicate | data_manager.py:33-34 | in any state, the answer is membership in `seen_urls`; in a valid store, a URL is a duplicate exactly when a stored lead has it |
| DataManager.LeadManager.AddLead | data_manager.py:36-50 | `add_lead` performs the admission transition and returns its verdict |
| DataManager.AdmitLeadValid | data_manager.py:36-50 | admission keeps ids 1..n, URLs unique and `seen_urls` equal to the leads' URLs; it succeeds iff no stored lead has the URL; an admitted lead is appended with id n+1 and status new; a refused one changes nothing |
| DataManager.AdmitTwice | data_manager.py:36-38 | admitting the same URL again returns false and changes nothing |
| DataManager.AdmittedOnce | data_manager.py:44-45 | after admission the URL is seen and exactly one stored lead carries it |
| DataManager.NoDuplicatesCounted | data_manager.py:158 | in a valid store `len(seen_urls) == len(leads)`, so `duplicates_prevented` is always 0 |
| DataManager.LeadManager.AddCompany | data_manager.py:52-60 | `add_company` always appends with the next id and status new, and returns true |
| DataManager.AppendCompanyTwice | data_manager.py:52-60 | the same company added twice becomes two records, with ids n+1 and n+2, and the store stays valid |
| DataManager.NewLeads | data_manager.py:109-110 | `get_new_leads` returns exactly the leads with status new, in insertion order, one per such lead |
| DataManager.OutreachCompanies | data_manager.py:112-114 | `get_companies_for_outreach` returns exactly the new companies with a present, non-empty `real_emails`, in insertion order |
| DataManager.LeadManager.MarkLeadContacted | data_manager.py:116-122 | the scan marks the first lead with the id and changes nothing else |
| DataManager.MarkLeadEffect | data_manager.py:116-122 | only the first lead with the id changes: it becomes contacted with the address and time, whatever its status; an unknown id changes nothing |
| DataManager.MarkLeadValid | data_manager.py:116-122 | in a valid store the lead with id k sits at index k-1; marking it changes that record only and keeps the store valid |
| DataManager.LeadManager.MarkCompanyContacted | data_manager.py:124-130 | the scan marks the first company with the id and changes nothing else |
| DataManager.MarkCompanyEffect | data_manager.py:124-130 | only the first company with the id changes, to contacted with the address and time; an unknown id changes nothing |
| DataManager.MarkCompanyValid | data_manager.py:124-130 | the company with id k is the one marked, and the store stays valid |
| DataManager.LeadManager.GetStatistics | data_manager.py:132-159 | the totals, the counts by status, the platform breakdown built by the loop, and `len(seen_urls) - len(leads)` |
| DataManager.LeadCountsAddUp | data_manager.py:133-135 | new + contacted == total for leads |
| DataManager.CompanyCountsAddUp | data_manager.py:137-139 | new + contacted == total for companies |
| DataManager.BumpEffect | data_manager.py:144 | `d[p] = d.get(p, 0) + 1` adds one to p's count only, keeps one entry per platform, and adds one to the sum |
| DataManager.BreakdownCounts | data_manager.py:141-144 | `by_platform` has one entry per platform among the leads, holding that platform's number of leads; the counts sum to the number of leads |
| DataManager.LeadManager.SaveData | data_manager.py:161-170 | the snapshot holds the leads, companies and seen URLs |
| DataManager.LeadManager.LoadData | data_manager.py:172-181 | a missing file leaves the store unchanged; otherwise the store becomes the snapshot |
| DataManager.SaveAndRestart | data_manager.py:161-181 | `save_data` followed by `load_data` into a new store gives a store with the same leads, seen URLs and companies |
| DataManager.RestartRefusesSavedUrls | data_manager.py:33-50 | a store restored from a valid one counts no prevented duplicates and refuses every URL it admitted before the restart |
| EmailManager.EmailSender.constructor | email_manager.py:67-76 | a new sender has zero counters, no attempts, and last reset today |
| EmailManager.FreshSenderTallied | email_manager.py:70-76 | a new sender's counters agree with its log, and its daily count is within the quota |
| EmailManager.EmailSender.ResetDailyCount | email_manager.py:78-82 | only a new day zeroes `daily_count` and moves `last_reset`; on the same day nothing changes |
| EmailManager.NewDayResets | email_manager.py:78-82 | the first check on a new day finds the counter at zero, so sending is allowed |
| EmailManager.EmailSender.CanSendEmail | email_manager.py:84-86 | the reset is applied, then the answer is `daily_count < limit` |
| EmailManager.EmailSender.SendEmail | email_manager.py:88-135 | `send_email` performs the send transition for the server's answer to this attempt |
| EmailManager.BlockedSendChangesNothing | email_manager.py:89-91 | at the limit, `send_email` returns false and changes no counter and no log entry |
| EmailManager.SendOnceEffect | email_manager.py:93-135 | a permitted send appends one attempt for the address; success adds one to `sent` and `daily_count`; failure adds one to `failed` and uses no quota |
| EmailManager.SendOnceTallied | email_manager.py:108-132 | `sent` and `failed` stay equal to the success and failure counts of the log |
| EmailManager.TalliedBalances | email_manager.py:108-132 | with tallied counters, `sent + failed == len(attempts)` |
| EmailManager.SendOnceWithinQuota | email_manager.py:84-109 | `daily_count` never passes 25, because it grows only after the `< limit` check |
| EmailManager.SameDaySendCounts | email_manager.py:108-109 | on the day of the last reset, a permitted send adds its success to the daily count |
| EmailManager.EmailSender.SendToFirstAccepting | email_manager.py:140-144 | the address loop sends to each address in turn and returns at the first success |
| EmailManager.EmailSender.SendJobApplication | email_manager.py:137-144 | `send_job_application` is that loop with the job as context |
| EmailManager.EmailSender.SendCompanyOutreach | email_manager.py:146-153 | `send_company_outreach` is that loop with the company as context |
| EmailManager.BlockedTryEach | email_manager.py:140-144 | at the limit, trying a list of addresses changes nothing and returns false |
| EmailManager.TryEachEffect | email_manager.py:137-153 | new attempts are for the list's first addresses, in order, at most one per address; the result is true iff one succeeded, and then it is the last attempt; `sent` grows by one exactly then |
| EmailManager.TryEachTriesAll | email_manager.py:137-153 | while the quota is open, a list where no address accepts gets one failed attempt per address: no address is skipped |
| EmailManager.TryEachKeepsInvariants | email_manager.py:137-153 | the address loop keeps the counters tallied and the daily count within the quota |
| EmailManager.Recent | email_manager.py:165 | `attempts[-10:]` is the last min(10, n) attempts, in order |
| EmailManager.EmailSender.GetStatistics | email_manager.py:155-166 | the sent, failed and daily counters, and the last min(10, n) attempts |
| EmailManager.EmailSender.SaveStats | email_manager.py:168-170 | the snapshot holds the counters and the log |
| EmailManager.EmailSender.LoadStats | email_manager.py:172-177 | a missing file leaves the counters unchanged; otherwise they become the snapshot |
| JobSources.FilterHiringPostIff | job_sources.py:39-46 | otherwise a post is accepted iff some hiring indicator and some keyword each occur in the lower-cased title or content |
| JobSources.FilterIgnoresCase | job_sources.py:30-32 | the classifier gives the same answer on a lower-cased post |
| JobSources.UpperCaseKeywordsNeverMatch | job_sources.py:44 | keywords are not lower-cased, so keywords that each hold an upper-case letter reject every post |
| JobSources.DefaultKeywordsLowerCase | config.py:34-39 | no keyword of the default list holds an upper-case letter, so the case trap above does not fire on it |
| JobSources.HarvestMembers | job_sources.py:60-74 | a listing yields exactly the records of its accepted items, at most one per item |
| JobSources.SweepMembers | job_sources.py:53-79 | a loop of per-key `try` blocks yields exactly the records of the listings whose fetch did not raise |
| JobSources.Scan | job_sources.py:60-74 | the item loop appends the records of the accepted items in listing order |
| JobSources.Collect | job_sources.py:53-80 | the key loop skips a key whose fetch raised and goes on |
| JobSources.RedditGetJobs | job_sources.py:49-80 | `RedditScraper.get_jobs` collects over the six subreddits |
| JobSources.RedditJobsFaithful | job_sources.py:63-74 | a Reddit record is exactly the record of a recent accepted post of a fetched subreddit: source `r/` + subreddit, content the first 500 characters of the text, url `https://reddit.com` + permalink |
| JobSources.RedditContentBounded | job_sources.py:71 | Reddit content never exceeds 500 characters |
| JobSources.GitHubRecord | job_sources.py:108-116 | a GitHub record's source holds no `/` and its content at most 500 characters |
| JobSources.GitHubGetJobs | job_sources.py:83-122 | `GitHubScraper.get_jobs` collects over the five queries, with a null body read as empty |
| JobSources.GitHubJobsFaithful | job_sources.py:104-116 | a GitHub record is exactly the record of a recent accepted issue of a fetched query; its source is the last `/` segment of the repository URL, or `Unknown` |
| JobSources.GitHubKeepWithoutNull | job_sources.py:105-106 | on an issue without a null body, the filter as written keeps exactly what the corrected one keeps |
| JobSources.GitHubAsWrittenAgreesWithoutNull | job_sources.py:104-120 | on a listing without a null body, the scan as written yields exactly the corrected scan's records |
| JobSources.GitHubSweepAgreesWithoutNull | job_sources.py:96-120 | the same over any list of queries, each in its own `try` |
| JobSources.NullBodyDropsListing | job_sources.py:104-120 | a recent issue with a null body, followed by an accepted issue, yields nothing as written, though the accepted issue should yield a record |
| JobSources.GitHubJobsAgreeWithoutNull | job_sources.py:83-122 | when no fetched listing holds a null body, `get_jobs` as written yields exactly the records of the corrected reading |
| JobSources.HackerNewsGetJobs | job_sources.py:125-161 | `HackerNewsScraper.get_jobs`: nothing when the thread fails or has no kids; otherwise the picks of the first 50 comments that answered |
| JobSources.HackerNewsSource | job_sources.py:135-144 | every Hacker News record is built from the comment of one of the first 50 kids, classified with its text as title and empty content |
| JobSources.HackerNewsAtMostFifty | job_sources.py:135 | at most 50 Hacker News records per run |
| JobSources.HackerNewsRecordsDistinct | job_sources.py:145-153 | Hacker News records have platform `HackerNews` and content within 500 characters; two with the same URL come from the same comment |
| JobSources.AngelListTerm | job_sources.py:180-196 | one term's card loop keeps the cards with a title and a company among the first ten |
| JobSources.AngelListSearch | job_sources.py:170-198 | the term loop inside the single `try` stops at the first fetch that raises |
| JobSources.AngelListGetJobs | job_sources.py:164-202 | `AngelListScraper.get_jobs` runs that search over the five terms |
| JobSources.AngelListSharedUrl | job_sources.py:192 | every record of one search term has the URL `https://angel.co/jobs/` + term |
| JobSources.AngelListRaiseEndsSearch | job_sources.py:166-200 | a term whose fetch raises ends the search, keeping exactly the records of the terms before it |
| JobSources.GetAllJobs | job_sources.py:214-225 | `get_all_jobs` concatenates, in order, the outputs of the scrapers that did not raise |
| CompanyFinder.IsRelevantEmail | company_finder.py:282-359 | an address is accepted exactly when it has one `@`, a dot in the domain and a listed TLD, holds none of the extension, junk or skip patterns, and then shows one of the six strong patterns if its domain is gmail, yahoo, hotmail or outlook, or one of the business patterns otherwise |
| CompanyFinder.AcceptedEmailShape | company_finder.py:338-359 | an accepted address shows a business pattern, because the strong patterns a free-mail address needs are business patterns too |
| CompanyFinder.RgbNeverMatches | company_finder.py:306-312 | the upper-case `RGB` pattern can never match the lower-cased address |
| CompanyFinder.TldIsCaseAndSpaceSensitive | company_finder.py:318-326 | the TLD is compared as given, so an address ending in an upper-case letter or a space is refused |
| CompanyFinder.ValidTldsEndLowerCase | company_finder.py:324 | every listed TLD ends in a lower-case letter |
| CompanyFinder.AddNew | company_finder.py:145-161 | `set.update` gives a duplicate-free list holding exactly the old and the new elements |
| CompanyFinder.Relevant | company_finder.py:236-238 | the filter keeps exactly the relevant addresses of its input |
| CompanyFinder.ExtractEmails | company_finder.py:144-161 | the result is duplicate-free and holds exactly the relevant addresses scraped or listed by Hunter.io; Hunter.io counts only with a key and a name; the directories add nothing |
| CompanyFinder.DedupSound | company_finder.py:851-867 | a first-wins pass keeps admitted items of the input, in order, with pairwise different keys not seen before |
| CompanyFinder.DedupComplete | company_finder.py:851-867 | every admitted item's key is represented in the output |
| CompanyFinder.DedupFirstWins | company_finder.py:851-867 | each kept item has no admitted item with its key before it in the input |
| CompanyFinder.DedupLoop | company_finder.py:853-867 | the loop over a `seen` set computes the first-wins pass |
| CompanyFinder.RemoveDuplicates | company_finder.py:851-867 | `_remove_duplicates` is the pass keyed by trimmed, lower-case `name|website`, dropping empty names |
| CompanyFinder.RemoveDuplicatesFaithful | company_finder.py:851-867 | order kept, only named companies, one per key, every key represented, the first company of each key kept |
| CompanyFinder.DedupByWebsite | company_finder.py:388-397 | the `search_companies` block, with a `None` website read as empty, is the pass keyed by lower-case website, dropping empty websites |
| CompanyFinder.DedupByWebsiteFaithful | company_finder.py:388-397 | order kept, only companies with a website, one per lower-case website, every website represented, the first company of each kept |
| CompanyFinder.NoneWebsiteLosesBatch | company_finder.py:374-397 | as written, one record with a `None` website makes the search raise, and `find_all_companies` gathers nothing from any directory |
| CompanyFinder.DirectoryBatchFaithful | company_finder.py:374-397 | read correctly, the search keeps one company per lower-cased website, each from a record with a link, and represents every record with a link |
| CompanyFinder.Enrich | company_finder.py:877-898 | every company gets `real_emails` and `email_count == len(real_emails)` |
| CompanyFinder.EnrichFacts | company_finder.py:877-898 | only the two address fields change; no website gives `[]`; the addresses are distinct and each passes the filter |
| CompanyFinder.EnrichAllFaithful | company_finder.py:869-909 | every input company comes back, in order, with only its address fields set, and these are consistent |
| CompanyFinder.ExtractRealEmails | company_finder.py:869-909 | the loop enriches every company in order |
| CompanyFinder.EnrichCompany | company_finder.py:874-900 | one pass of that loop |
| DiscordMonitor.ProcessMessage | discord_monitor.py:29-53 | messages of bots never reach the callback; a lead has a job indicator and a keyword in its lower-cased text, platform `Discord`, that text, the author and the current time; a direct message's lead has URL and source `DM` |
| DiscordMonitor.ProcessMessageFires | discord_monitor.py:29-53 | the callback fires iff a human author's lower-cased text holds a job indicator and a keyword; the lead has platform `Discord`, the lower-cased text, the author and the current time |
| DiscordMonitor.UpperCaseKeywordNeverMatches | discord_monitor.py:33-40 | a keyword with an upper-case letter never matches the lower-cased text |
| DiscordMonitor.LeadUrls | discord_monitor.py:45-49 | direct-message leads have URL and source `DM`, so all share one URL; server leads with the same URL come from messages with the same id |
| DiscordMonitor.UrlEndsInId | discord_monitor.py:49 | a server message link ends in the message id |
| Bot.JobHuntingBot.constructor | main.py:17-29 | the store and sender start empty and then load their files |
| Bot.JobHuntingBot.ScanJobSources | main.py:35-46 | the scan offers every gathered job to `add_lead` in order and counts the true answers |
| Bot.AdmitAllEffect | main.py:38-45 | a scan keeps the store valid, only appends, makes every job's URL seen, and counts exactly the URLs not seen before, so `new_jobs <= len(jobs)` |
| Bot.AdmitOneMore | main.py:41-43 | one more `add_lead` keeps that relation |
| Bot.AdmitOneNew | main.py:41-43 | a new URL adds one lead and one count |
| Bot.SharedUrlAdmitsAtMostOne | main.py:41-43 | jobs that share one URL add at most one lead |
| Bot.PartialFailureScenario | main.py:38-43 | with a raising middle scraper and a repeated URL, exactly the two distinct URLs are admitted |
| Bot.WithEmails | main.py:59 | the filter keeps exactly the companies with `email_count > 0` |
| Bot.AppendAllEffect | main.py:61-64 | each kept company is appended in order as a new record with the next id |
| Bot.JobHuntingBot.DiscoverCompanies | main.py:48-67 | discovery stores the enriched companies that have addresses, and counts them |
| Bot.DiscoveredCompaniesEligible | main.py:52-64 | every stored company is due for outreach, and every found company that got addresses is stored |
| Bot.ResetKeepsSound | email_manager.py:78-82 | the daily reset keeps the counters tallied and within the quota |
| Bot.LeadVisitOutcome | main.py:76-93 | a refused pass ends the loop with only the reset; a lead without addresses is skipped with no send attempt; a pass without success leaves the store unchanged; a success offered addresses, adds one to `sent` and marks the lead with the first address |
| Bot.CompanyVisitOutcome | main.py:99-107 | the same for a company and its first three `real_emails`; a company without them is skipped with no send attempt |
| Bot.LeadRoundEffect | main.py:76-93 | the lead loop keeps the store valid, touches only offered leads with addresses, counts exactly the successes (each one in `sent`), and keeps the sender sound |
| Bot.CompanyRoundEffect | main.py:99-107 | the company loop does the same for companies |
| Bot.RefusedRoundChangesNothing | main.py:76-78 | when the first quota check refuses, either loop ends at once with only the daily reset, and nothing is counted |
| Bot.LeadRoundRefusedAt | main.py:76-93 | the lead loop stops at the first refused quota check: the round equals the round over the earlier offers, followed by the reset |
| Bot.CompanyRoundRefusedAt | main.py:99-107 | the company loop stops at the first refused quota check in the same way |
| Bot.LeadsAfterRefusalUntouched | main.py:76-93 | after a refusal at offer k, every lead not offered before k, including every later candidate, is exactly as it was |
| Bot.CompaniesAfterRefusalUntouched | main.py:99-107 | after a refusal at company k, every company not offered before k is exactly as it was |
| Bot.LeadBatchTouch | main.py:73-92 | a record touched by the lead batch was new and is marked with the first address offered to it |
| Bot.CompanyBatchTouch | main.py:96-105 | a record touched by the company batch was new and is marked with its first address |
| Bot.QuotaExhaustedCycle | main.py:69-112 | with the quota used up, a cycle sends nothing and changes no record |
| Bot.OutreachEffect | main.py:69-112 | a cycle sends at most 5 applications and 3 company messages, each counted once in `sent`; only new records change, each marked with its first offered address; the store stays valid and the sender sound |
| Bot.JobHuntingBot.ProcessOutreach | main.py:69-112 | `process_outreach` performs the cycle, and saves the statistics only when something was sent |
| Bot.JobHuntingBot.LeadLoop | main.py:76-93 | the lead loop stops at the first refused quota check |
| Bot.JobHuntingBot.LeadStep | main.py:77-93 | one pass: the quota check, the application, and the mark on success |
| Bot.JobHuntingBot.CompanyLoop | main.py:99-107 | the company loop stops at the first refused quota check |
| Bot.JobHuntingBot.CompanyStep | main.py:100-107 | one pass over a company |
| Bot.JobHuntingBot.HandleDiscordMessage | main.py:31-33 | a qualifying chat message is offered to `add_lead` |
| Bot.SecondDirectMessageRefused | discord_monitor.py:45-49 | after one direct message becomes a lead, every later direct message is refused as a duplicate |

## Left out

- HTTP, Selenium and BeautifulSoup scraping, Hunter.io, and every company source (Google Maps, directories, Y Combinator, GitHub, ProductHunt, BuiltWith, AngelList) are not modelled. Their answers are parameters: a listing or `Raised`.
- The e-mail regular expression in `process_output` and on company pages is a parameter, `Extractor`. `urlparse` in `extract_domain` is left out.
- The lead batch's addresses are extracted before the loop instead of inside each pass. Extraction is pure, so the result is the same.
- SMTP is a script of answers, one per attempt in order. An attempt past the end of the script is refused.
- `time.sleep` pacing, the scheduler, threads, asyncio, the Discord client and the health server are concurrency and I/O, and are not modelled.
- CSV and Google Sheets appends are output only, and are not modelled.
- The JSON files are optional snapshots of the whole state. `load_stats` merges keys with `dict.update` and may keep keys the file lacks; the model replaces the whole state.
- After `load_stats`, `last_reset` is a string, so the first check always resets. This needs a model of the file format, which is not included.
- The floating-point `success_rate` is left out.
- `datetime.now()` gives one `today` and one `now` per call. Every step of a cycle uses the same instant.
- Instants, such as Reddit's `created_utc` and `now`, are whole seconds. The source's fractional seconds and microseconds can change the `.days <= max_days` test in the second next to the boundary, and the model does not capture that.
- Time zones and ISO date parsing: a date string comes with the instant it parses to, or none.
- `list(set)` returns addresses in an unspecified order. The model keeps them in order of first appearance.
- CompanyFinder.DedupByWebsite: the method reads a `None` website as empty and drops only that company. As written, the `None` makes `search_companies` raise, and the whole directory batch is lost; this is the second finding below. `_remove_duplicates` never sees a `None` website.
- A Hacker News comment whose text is JSON null makes the classifier raise, and the comment is skipped. The model has no null text; such a comment is one whose fetch failed.
- A Reddit post or GitHub issue missing a key the scraper reads, such as `title`, raises inside the query's `try`. The records before it are kept and the rest of that listing is lost. The model's items always carry those keys, so every listing is scanned to the end.
- `EmailTemplate` message bodies are fixed prose and are not modelled.
- `Text.Lower` lower-cases ASCII letters only. `Text.Strip` removes every character Python counts as white space.
- Text.Strip: the contract states only that no character is added. The exact trimming is in `TrimLeft` and `TrimRight`.

## Findings

| source | as written | input that shows it | evidently intended | confidence | as-written member | corrected member |
|---|---|---|---|---|---|---|
| job_sources.py:106 | `item.get('body', '')` passes a JSON `null` body through as `None`. `filter_hiring_post` then raises on `None.lower()`, and the query's `try` drops the rest of that listing | a query listing a recent issue whose `body` is `null`, followed by an issue the classifier accepts: no record for either | a null body reads as empty, as the record's own `(item.get('body') or '')` does at line 113 | not executed | JobSources.NullBodyDropsListing | JobSources.GitHubJobsFaithful |
| company_finder.py:392 | `company.get('website', '').lower()` raises on a `None` website. BBB always builds one (line 506), and Yelp, YellowPages and Clutch build one when a page shows no link (lines 424, 474, 542). The `except` at lines 826-827 then drops the whole directory batch | a directory batch with a Clutch company linking to `https://acme.io` and any BBB company: nothing from any directory is kept | a `None` website reads as empty, so only that company is dropped | not executed | CompanyFinder.NoneWebsiteLosesBatch | CompanyFinder.DirectoryBatchFaithful |
