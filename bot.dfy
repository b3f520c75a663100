/** The bot (`JobHuntingBot`): the ingestion cycle that admits scraped leads, the discovery
    cycle that stores companies with addresses, the outreach cycle that sends a capped batch of
    applications and company messages within the daily quota, and the chat callback. The
    scrapers, the company finder, the clock and the SMTP server are parameters. */
module Bot {
  import opened Records
  import opened Text
  import opened DataManager
  import opened EmailManager
  import JobSources
  import CompanyFinder
  import DiscordMonitor

  /** At most this many new leads are considered per outreach cycle. */
  const LeadBatch: nat := 5

  /** At most this many companies are considered per outreach cycle. */
  const CompanyBatch: nat := 3

  /** At most this many addresses are offered per lead or company. */
  const AddressesPerEntity: nat := 3

  /** The addresses the job-post regular expression finds in a text. */
  type Extractor = string -> seq<string>

  // ---------------------------------------------------------------------------------------
  // Ingestion: `scan_job_sources` and `handle_discord_job`

  /** The store after `add_lead` on each job in turn, and how many calls returned true. */
  function AdmitAll(s: StoreState, jobs: seq<LeadData>, now: Instant): (StoreState, nat)
    decreases |jobs|
  {
    if jobs == [] then (s, 0)
    else
      var (s1, n) := AdmitAll(s, jobs[..|jobs| - 1], now);
      var (s2, added) := AdmitLead(s1, jobs[|jobs| - 1], now);
      (s2, n + if added then 1 else 0)
  }

  /** Admitting one more job: the step of the ingestion loop. */
  lemma AdmitAllStep(s: StoreState, jobs: seq<LeadData>, i: nat, now: Instant)
    requires i < |jobs|
    ensures var (s1, n) := AdmitAll(s, jobs[..i], now);
      var (s2, added) := AdmitLead(s1, jobs[i], now);
      AdmitAll(s, jobs[..i + 1], now) == (s2, n + if added then 1 else 0)
  {
    assert jobs[..i + 1][..i] == jobs[..i];
  }

  /** The URLs of a list of scraped jobs. */
  function JobUrls(jobs: seq<LeadData>): set<string>
    decreases |jobs|
  {
    if jobs == [] then {} else JobUrls(jobs[..|jobs| - 1]) + {jobs[|jobs| - 1].url}
  }

  /** `s'` and the count `n` are what admitting `jobs` into `s` may leave: a valid store that
      only appended leads, in which every job's URL is seen, and `n` is exactly the number of
      URLs that were not seen before. */
  predicate AdmittedFrom(s: StoreState, s': StoreState, jobs: seq<LeadData>, n: nat)
  {
    && Valid(s')
    && s'.seenUrls == s.seenUrls + JobUrls(jobs)
    && n == |s'.seenUrls - s.seenUrls| <= |jobs|
    && |s'.leads| == |s.leads| + n
    && s'.leads[..|s.leads|] == s.leads
    && s'.companies == s.companies
  }

  /** An ingestion cycle keeps the store valid, only appends leads, makes every job's URL seen,
      and reports exactly the number of URLs that were not seen before. */
  lemma {:induction false} AdmitAllEffect(s: StoreState, jobs: seq<LeadData>, now: Instant)
    requires Valid(s)
    ensures AdmittedFrom(s, AdmitAll(s, jobs, now).0, jobs, AdmitAll(s, jobs, now).1)
    decreases |jobs|
  {
    if jobs != [] {
      var init, last := jobs[..|jobs| - 1], jobs[|jobs| - 1];
      AdmitAllEffect(s, init, now);
      assert init + [last] == jobs;
      AdmitOneMore(s, AdmitAll(s, init, now).0, init, AdmitAll(s, init, now).1, last, now);
    }
  }

  /** One more `add_lead` keeps `AdmittedFrom`. */
  lemma AdmitOneMore(s: StoreState, s1: StoreState, init: seq<LeadData>, n1: nat, last: LeadData, now: Instant)
    requires Valid(s) && AdmittedFrom(s, s1, init, n1)
    ensures var (s2, added) := AdmitLead(s1, last, now);
      AdmittedFrom(s, s2, init + [last], n1 + if added then 1 else 0)
  {
    var jobs := init + [last];
    assert jobs[..|jobs| - 1] == init;
    assert JobUrls(jobs) == JobUrls(init) + {last.url};
    if last.url !in s1.seenUrls {
      AdmitOneNew(s, s1, init, n1, last, now);
    }
  }

  /** The case of `AdmitOneMore` where the URL is new: the count and the new URLs grow by one. */
  lemma AdmitOneNew(s: StoreState, s1: StoreState, init: seq<LeadData>, n1: nat, last: LeadData, now: Instant)
    requires Valid(s) && AdmittedFrom(s, s1, init, n1) && last.url !in s1.seenUrls
    ensures var s2 := AdmitLead(s1, last, now).0;
      && Valid(s2)
      && s2.seenUrls == s1.seenUrls + {last.url}
      && |s2.seenUrls - s.seenUrls| == n1 + 1 <= |init| + 1
      && |s2.leads| == |s.leads| + n1 + 1
      && s2.leads[..|s.leads|] == s.leads
      && s2.companies == s.companies
  {
    AdmitLeadValid(s1, last, now);
    var s2 := AdmitLead(s1, last, now).0;
    var fresh1 := s1.seenUrls - s.seenUrls;
    assert last.url !in fresh1;
    assert s2.seenUrls - s.seenUrls == fresh1 + {last.url};
    assert s2.leads[..|s.leads|] == s1.leads[..|s.leads|];
  }

  /** Jobs that all share one URL (the records of one AngelList search term, or the direct
      messages of the chat monitor) add at most one lead. */
  lemma SharedUrlAdmitsAtMostOne(s: StoreState, jobs: seq<LeadData>, now: Instant, url: string)
    requires Valid(s) && forall j | j in jobs :: j.url == url
    ensures AdmitAll(s, jobs, now).1 <= 1
  {
    AdmitAllEffect(s, jobs, now);
    SharedUrls(jobs, url);
    var s' := AdmitAll(s, jobs, now).0;
    var added := s'.seenUrls - s.seenUrls;
    assert added <= {url};
    if added != {} {
      assert added == {url};
    }
  }

  lemma {:induction false} SharedUrls(jobs: seq<LeadData>, url: string)
    requires forall j | j in jobs :: j.url == url
    ensures JobUrls(jobs) <= {url}
    decreases |jobs|
  {
    if jobs != [] {
      assert forall j | j in jobs[..|jobs| - 1] :: j in jobs;
      SharedUrls(jobs[..|jobs| - 1], url);
    }
  }

  /** Isolation of a failing scraper, on three scrapers of which the second raises and the
      third repeats the URL of the first: from an empty store, exactly two leads are admitted,
      one per URL. */
  lemma PartialFailureScenario(a: LeadData, b: LeadData, a2: LeadData, now: Instant)
    requires a.url == a2.url && a.url != b.url
    ensures var jobs := Gathered([Returned([a]), Raised, Returned([b, a2])]);
      var (s', n) := AdmitAll(EmptyStore, jobs, now);
      n == 2 && s'.seenUrls == {a.url, b.url} && |s'.leads| == 2
  {
    var outs: seq<Outcome<seq<LeadData>>> := [Returned([a]), Raised, Returned([b, a2])];
    assert outs[1..][1..][1..] == [];
    assert Gathered(outs[2..]) == [b, a2];
    assert Gathered(outs[1..]) == [b, a2];
    var jobs := Gathered(outs);
    assert jobs == [a, b, a2];
    assert JobUrls(jobs) == {a.url, b.url} by {
      var ab: seq<LeadData> := [a, b];
      assert [a][..0] == [];
      assert JobUrls([a]) == {a.url};
      assert ab[..1] == [a];
      assert JobUrls(ab) == {a.url, b.url};
      assert jobs[..2] == ab;
    }
    AdmitAllEffect(EmptyStore, jobs, now);
    assert {a.url, b.url} - {} == {a.url, b.url};
  }

  // ---------------------------------------------------------------------------------------
  // Discovery: `discover_companies`

  /** `[c for c in enriched if c.get('email_count', 0) > 0]`. */
  function WithEmails(cs: seq<CompanyInfo>): (r: seq<CompanyInfo>)
    ensures forall c :: c in r <==> c in cs && c.emailCount.GetOr(0) > 0
    decreases |cs|
  {
    if cs == [] then []
    else
      var init := WithEmails(cs[..|cs| - 1]);
      var last := cs[|cs| - 1];
      assert cs == cs[..|cs| - 1] + [last];
      if last.emailCount.GetOr(0) > 0 then init + [last] else init
  }

  /** The store after `add_company` on each company in turn. */
  function AppendAll(s: StoreState, cs: seq<CompanyInfo>, now: Instant): StoreState
    decreases |cs|
  {
    if cs == [] then s else AppendCompany(AppendAll(s, cs[..|cs| - 1], now), cs[|cs| - 1], now)
  }

  /** Appending companies keeps the store valid and stores each, in order, as a `New` record
      with the next id. */
  lemma {:induction false} AppendAllEffect(s: StoreState, cs: seq<CompanyInfo>, now: Instant)
    requires Valid(s)
    ensures var s' := AppendAll(s, cs, now);
      && Valid(s') && s'.leads == s.leads && s'.seenUrls == s.seenUrls
      && |s'.companies| == |s.companies| + |cs| && s'.companies[..|s.companies|] == s.companies
      && forall k | 0 <= k < |cs| :: s'.companies[|s.companies| + k] == StoredCompany(|s.companies| + k + 1, cs[k], now, New, None)
    decreases |cs|
  {
    if cs != [] {
      AppendAllEffect(s, cs[..|cs| - 1], now);
      var s1 := AppendAll(s, cs[..|cs| - 1], now);
      assert s1.companies + [StoredCompany(|s1.companies| + 1, cs[|cs| - 1], now, New, None)] == AppendAll(s, cs, now).companies;
    }
  }

  /** Every company a discovery cycle stores has addresses and is due for outreach, and every
      found company that turned out to have addresses is stored. */
  lemma DiscoveredCompaniesEligible(s: StoreState, found: seq<CompanyInfo>, lookup: CompanyFinder.Lookup, now: Instant)
    requires Valid(s)
    ensures var added := WithEmails(CompanyFinder.EnrichAll(found, lookup));
      var s' := AppendAll(s, added, now);
      && Valid(s') && |s'.companies| == |s.companies| + |added|
      && (forall k | |s.companies| <= k < |s'.companies| :: OutreachEligible(s'.companies[k]))
      && (forall i | 0 <= i < |found| :: CompanyFinder.Enrich(found[i], lookup).realEmails.value != [] ==>
            CompanyFinder.Enrich(found[i], lookup) in added)
  {
    var enriched := CompanyFinder.EnrichAll(found, lookup);
    MappedPointwise(found, c => CompanyFinder.Enrich(c, lookup));
    var added := WithEmails(enriched);
    AppendAllEffect(s, added, now);
    var s' := AppendAll(s, added, now);
    forall k | |s.companies| <= k < |s'.companies| ensures OutreachEligible(s'.companies[k]) {
      var c := added[k - |s.companies|];
      assert c in added;
      assert c in enriched;
      var i :| 0 <= i < |enriched| && enriched[i] == c;
      assert c == CompanyFinder.Enrich(found[i], lookup);
    }
    forall i | 0 <= i < |found| && CompanyFinder.Enrich(found[i], lookup).realEmails.value != []
      ensures CompanyFinder.Enrich(found[i], lookup) in added
    {
      assert enriched[i] in enriched;
    }
  }

  // ---------------------------------------------------------------------------------------
  // Outreach: `process_outreach`

  /** The addresses offered to a lead: the first three found in its content. */
  function LeadAddresses(l: StoredLead, extract: Extractor): seq<string>
  {
    Take(extract(l.data.content), AddressesPerEntity)
  }

  /** The addresses offered to a company: the first three of its `real_emails`, if any. */
  function CompanyAddresses(c: StoredCompany): seq<string>
  {
    if c.info.realEmails.Some? then Take(c.info.realEmails.value, AddressesPerEntity) else []
  }

  /** A lead of the batch with the addresses offered to it. */
  datatype LeadOffer = LeadOffer(lead: StoredLead, emails: seq<string>)

  /** The offers of a batch of leads, in order. */
  function LeadOffers(batch: seq<StoredLead>, extract: Extractor): seq<LeadOffer>
  {
    Mapped(batch, l => LeadOffer(l, LeadAddresses(l, extract)))
  }

  function Plus(r: (StoreState, SenderState, nat), k: nat): (StoreState, SenderState, nat)
  {
    (r.0, r.1, r.2 + k)
  }

  /** The outcome of one pass of an outreach loop: the new store and sender state, whether the
      quota allowed the pass, and whether a message got through. */
  datatype Visit = Visit(st: StoreState, se: SenderState, permitted: bool, ok: bool)

  /** One pass of the lead loop: the quota check (which applies the daily reset) ends the loop
      when the quota is used up; a lead without addresses is skipped; a lead that gets a message
      through is marked contacted with the first address offered. */
  function LeadVisit(st: StoreState, se: SenderState, o: LeadOffer, today: Date, now: Instant, channel: Channel): Visit
  {
    var se0 := ResetDaily(se, today);
    if !(se0.dailyCount < DefaultDailyLimit) then Visit(st, se0, false, false)
    else if o.emails == [] then Visit(st, se0, true, false)
    else
      var (se1, ok) := TryEach(se0, o.emails, JobApplication(o.lead), today, now, channel);
      Visit(if ok then st.(leads := WithLeadContacted(st.leads, o.lead.id, o.emails[0], now)) else st, se1, true, ok)
  }

  /** One pass of the company loop, in the same shape. */
  function CompanyVisit(st: StoreState, se: SenderState, company: StoredCompany, today: Date, now: Instant,
                        channel: Channel): Visit
  {
    var se0 := ResetDaily(se, today);
    if !(se0.dailyCount < DefaultDailyLimit) then Visit(st, se0, false, false)
    else
      var emails := CompanyAddresses(company);
      if emails == [] then Visit(st, se0, true, false)
      else
        var (se1, ok) := TryEach(se0, emails, CompanyOutreach(company), today, now, channel);
        Visit(if ok then st.(companies := WithCompanyContacted(st.companies, company.id, emails[0], now)) else st, se1, true, ok)
  }

  /** What one pass promises: a pass the quota refuses changes nothing but the daily reset; a
      pass that gets no message through leaves the store as it was; an entity without
      addresses is skipped without a send attempt; a pass that gets a message through has
      offered at least one address and adds exactly one to `sent`. */
  lemma LeadVisitOutcome(st: StoreState, se: SenderState, o: LeadOffer, today: Date, now: Instant, channel: Channel)
    ensures var v := LeadVisit(st, se, o, today, now, channel);
      && (!v.permitted ==> v == Visit(st, ResetDaily(se, today), false, false))
      && (!v.ok ==> v.st == st)
      && (o.emails == [] ==>
            v == Visit(st, ResetDaily(se, today), ResetDaily(se, today).dailyCount < DefaultDailyLimit, false))
      && (v.ok ==>
            v.permitted && o.emails != [] && v.se.sent == se.sent + 1
            && v.st.leads == WithLeadContacted(st.leads, o.lead.id, o.emails[0], now))
  {
    var se0 := ResetDaily(se, today);
    if se0.dailyCount < DefaultDailyLimit && o.emails != [] {
      TryEachEffect(se0, o.emails, JobApplication(o.lead), today, now, channel);
    }
  }

  lemma CompanyVisitOutcome(st: StoreState, se: SenderState, company: StoredCompany, today: Date, now: Instant, channel: Channel)
    ensures var v := CompanyVisit(st, se, company, today, now, channel);
      && (!v.permitted ==> v == Visit(st, ResetDaily(se, today), false, false))
      && (!v.ok ==> v.st == st)
      && (CompanyAddresses(company) == [] ==>
            v == Visit(st, ResetDaily(se, today), ResetDaily(se, today).dailyCount < DefaultDailyLimit, false))
      && (v.ok ==>
            v.permitted && CompanyAddresses(company) != [] && v.se.sent == se.sent + 1
            && v.st.companies == WithCompanyContacted(st.companies, company.id, CompanyAddresses(company)[0], now))
  {
    var se0 := ResetDaily(se, today);
    var emails := CompanyAddresses(company);
    if se0.dailyCount < DefaultDailyLimit && emails != [] {
      TryEachEffect(se0, emails, CompanyOutreach(company), today, now, channel);
    }
  }

  /** The lead loop over a batch: the new store and sender state and the number of successful
      applications. */
  function LeadRound(st: StoreState, se: SenderState, batch: seq<LeadOffer>, today: Date, now: Instant,
                     channel: Channel): (StoreState, SenderState, nat)
    decreases |batch|
  {
    if batch == [] then (st, se, 0)
    else
      var v := LeadVisit(st, se, batch[0], today, now, channel);
      if !v.permitted then (v.st, v.se, 0)
      else Plus(LeadRound(v.st, v.se, batch[1..], today, now, channel), if v.ok then 1 else 0)
  }

  /** The company loop over a batch. */
  function CompanyRound(st: StoreState, se: SenderState, batch: seq<StoredCompany>, today: Date, now: Instant,
                        channel: Channel): (StoreState, SenderState, nat)
    decreases |batch|
  {
    if batch == [] then (st, se, 0)
    else
      var v := CompanyVisit(st, se, batch[0], today, now, channel);
      if !v.permitted then (v.st, v.se, 0)
      else Plus(CompanyRound(v.st, v.se, batch[1..], today, now, channel), if v.ok then 1 else 0)
  }

  /** The lead loop has run every pass of `batch`: no quota check refused one. */
  predicate LeadRoundFinishes(st: StoreState, se: SenderState, batch: seq<LeadOffer>, today: Date, now: Instant,
                              channel: Channel)
    decreases |batch|
  {
    batch == []
    || (var v := LeadVisit(st, se, batch[0], today, now, channel);
        v.permitted && LeadRoundFinishes(v.st, v.se, batch[1..], today, now, channel))
  }

  predicate CompanyRoundFinishes(st: StoreState, se: SenderState, batch: seq<StoredCompany>, today: Date, now: Instant,
                                 channel: Channel)
    decreases |batch|
  {
    batch == []
    || (var v := CompanyVisit(st, se, batch[0], today, now, channel);
        v.permitted && CompanyRoundFinishes(v.st, v.se, batch[1..], today, now, channel))
  }

  /** A quota check that refuses the first pass ends the loop at once: nothing but the daily
      reset happens and nothing is counted. */
  lemma RefusedRoundChangesNothing(st: StoreState, se: SenderState, leads: seq<LeadOffer>, companies: seq<StoredCompany>,
                                   today: Date, now: Instant, channel: Channel)
    requires !(ResetDaily(se, today).dailyCount < DefaultDailyLimit)
    ensures leads != [] ==> LeadRound(st, se, leads, today, now, channel) == (st, ResetDaily(se, today), 0)
    ensures companies != [] ==> CompanyRound(st, se, companies, today, now, channel) == (st, ResetDaily(se, today), 0)
  {
  }

  /** The loop stops at the first refused quota check: when the passes before index `k` all ran
      and the check at `k` refuses, the whole round is the round over `batch[..k]` followed by
      the daily reset, so no later offer is tried. */
  lemma {:induction false} LeadRoundRefusedAt(st: StoreState, se: SenderState, batch: seq<LeadOffer>, k: nat,
                                              today: Date, now: Instant, channel: Channel)
    requires k < |batch| && LeadRoundFinishes(st, se, batch[..k], today, now, channel)
    requires !(ResetDaily(LeadRound(st, se, batch[..k], today, now, channel).1, today).dailyCount < DefaultDailyLimit)
    ensures var r := LeadRound(st, se, batch[..k], today, now, channel);
      LeadRound(st, se, batch, today, now, channel) == (r.0, ResetDaily(r.1, today), r.2)
    decreases k
  {
    if k > 0 {
      var v := LeadVisit(st, se, batch[0], today, now, channel);
      assert batch[..k][0] == batch[0] && batch[..k][1..] == batch[1..][..k - 1];
      LeadRoundRefusedAt(v.st, v.se, batch[1..], k - 1, today, now, channel);
    }
  }

  lemma {:induction false} CompanyRoundRefusedAt(st: StoreState, se: SenderState, batch: seq<StoredCompany>, k: nat,
                                                 today: Date, now: Instant, channel: Channel)
    requires k < |batch| && CompanyRoundFinishes(st, se, batch[..k], today, now, channel)
    requires !(ResetDaily(CompanyRound(st, se, batch[..k], today, now, channel).1, today).dailyCount < DefaultDailyLimit)
    ensures var r := CompanyRound(st, se, batch[..k], today, now, channel);
      CompanyRound(st, se, batch, today, now, channel) == (r.0, ResetDaily(r.1, today), r.2)
    decreases k
  {
    if k > 0 {
      var v := CompanyVisit(st, se, batch[0], today, now, channel);
      assert batch[..k][0] == batch[0] && batch[..k][1..] == batch[1..][..k - 1];
      CompanyRoundRefusedAt(v.st, v.se, batch[1..], k - 1, today, now, channel);
    }
  }

  /** One outreach cycle: the first five new leads, then the first three companies due for
      outreach in the store as the lead loop left it. */
  function Outreach(st: StoreState, se: SenderState, today: Date, now: Instant, channel: Channel, extract: Extractor)
    : (StoreState, SenderState, nat, nat)
  {
    var (st1, se1, jobs) := LeadRound(st, se, LeadOffers(Take(NewLeads(st.leads), LeadBatch), extract), today, now, channel);
    var (st2, se2, comps) := CompanyRound(st1, se1, Take(OutreachCompanies(st1.companies), CompanyBatch), today, now, channel);
    (st2, se2, jobs, comps)
  }

  /** `after` differs from `before` only at leads whose id is that of an offered lead with
      addresses, and such a lead is marked contacted with the first address offered to it. */
  ghost predicate LeadsTouched(before: seq<StoredLead>, after: seq<StoredLead>, batch: seq<LeadOffer>, now: Instant)
  {
    |after| == |before|
    && forall k | 0 <= k < |before| ::
      after[k] == before[k]
      || exists o | o in batch :: o.lead.id == before[k].id && o.emails != []
           && after[k] == MarkedLead(before[k], o.emails[0], now)
  }

  ghost predicate CompaniesTouched(before: seq<StoredCompany>, after: seq<StoredCompany>, batch: seq<StoredCompany>, now: Instant)
  {
    |after| == |before|
    && forall k | 0 <= k < |before| ::
      after[k] == before[k]
      || exists b | b in batch :: b.id == before[k].id && CompanyAddresses(b) != []
           && after[k] == MarkedCompany(before[k], CompanyAddresses(b)[0], now)
  }

  /** The sender-side invariants a cycle keeps: the counters agree with the log and the daily
      counter is within the quota. */
  predicate SenderSound(se: SenderState)
  {
    Tallied(se) && se.dailyCount <= DefaultDailyLimit
  }

  lemma ResetKeepsSound(se: SenderState, today: Date)
    requires SenderSound(se)
    ensures SenderSound(ResetDaily(se, today)) && ResetDaily(se, today).sent == se.sent
  {
  }

  /** The lead loop keeps the store valid, touches only the leads of the batch, counts exactly
      the successful applications (each adds one to `sent`), and keeps the sender sound. */
  lemma {:induction false} LeadRoundEffect(st: StoreState, se: SenderState, batch: seq<LeadOffer>, today: Date, now: Instant,
                                           channel: Channel)
    requires Valid(st) && SenderSound(se)
    ensures var (st', se', n) := LeadRound(st, se, batch, today, now, channel);
      && Valid(st') && st'.seenUrls == st.seenUrls && st'.companies == st.companies
      && LeadsTouched(st.leads, st'.leads, batch, now)
      && n <= |batch| && se'.sent == se.sent + n && SenderSound(se')
    decreases |batch|
  {
    if batch != [] {
      var se0 := ResetDaily(se, today);
      ResetKeepsSound(se, today);
      if se0.dailyCount < DefaultDailyLimit {
        var o := batch[0];
        if o.emails == [] {
          LeadRoundEffect(st, se0, batch[1..], today, now, channel);
          LeadsTouchedWiden(st.leads, LeadRound(st, se0, batch[1..], today, now, channel).0.leads, batch, now);
        } else {
          TryEachEffect(se0, o.emails, JobApplication(o.lead), today, now, channel);
          TryEachKeepsInvariants(se0, o.emails, JobApplication(o.lead), today, now, channel);
          var (se1, ok) := TryEach(se0, o.emails, JobApplication(o.lead), today, now, channel);
          var st1 := if ok then st.(leads := WithLeadContacted(st.leads, o.lead.id, o.emails[0], now)) else st;
          if ok {
            MarkLeadValid(st, o.lead.id, o.emails[0], now);
          }
          LeadRoundEffect(st1, se1, batch[1..], today, now, channel);
          var st' := LeadRound(st1, se1, batch[1..], today, now, channel).0;
          forall k | 0 <= k < |st.leads|
            ensures st'.leads[k] == st.leads[k]
              || exists o' | o' in batch :: o'.lead.id == st.leads[k].id && o'.emails != []
                   && st'.leads[k] == MarkedLead(st.leads[k], o'.emails[0], now)
          {
            if st'.leads[k] != st1.leads[k] {
              var o' :| o' in batch[1..] && o'.lead.id == st1.leads[k].id && o'.emails != []
                && st'.leads[k] == MarkedLead(st1.leads[k], o'.emails[0], now);
              assert o' in batch;
            } else if st1.leads[k] != st.leads[k] {
              assert o in batch;
            }
          }
        }
      }
    }
  }

  /** A touch by the tail of a batch is a touch by the batch. */
  lemma LeadsTouchedWiden(before: seq<StoredLead>, after: seq<StoredLead>, batch: seq<LeadOffer>, now: Instant)
    requires batch != [] && LeadsTouched(before, after, batch[1..], now)
    ensures LeadsTouched(before, after, batch, now)
  {
    forall k | 0 <= k < |before| && after[k] != before[k]
      ensures exists o | o in batch :: o.lead.id == before[k].id && o.emails != []
                && after[k] == MarkedLead(before[k], o.emails[0], now)
    {
      var o :| o in batch[1..] && o.lead.id == before[k].id && o.emails != []
        && after[k] == MarkedLead(before[k], o.emails[0], now);
      assert o in batch;
    }
  }

  lemma CompaniesTouchedWiden(before: seq<StoredCompany>, after: seq<StoredCompany>, batch: seq<StoredCompany>, now: Instant)
    requires batch != [] && CompaniesTouched(before, after, batch[1..], now)
    ensures CompaniesTouched(before, after, batch, now)
  {
    forall k | 0 <= k < |before| && after[k] != before[k]
      ensures exists b | b in batch :: b.id == before[k].id && CompanyAddresses(b) != []
                && after[k] == MarkedCompany(before[k], CompanyAddresses(b)[0], now)
    {
      var b :| b in batch[1..] && b.id == before[k].id && CompanyAddresses(b) != []
        && after[k] == MarkedCompany(before[k], CompanyAddresses(b)[0], now);
      assert b in batch;
    }
  }

  /** The company loop, likewise. */
  lemma {:induction false} CompanyRoundEffect(st: StoreState, se: SenderState, batch: seq<StoredCompany>, today: Date, now: Instant,
                                              channel: Channel)
    requires Valid(st) && SenderSound(se)
    ensures var (st', se', n) := CompanyRound(st, se, batch, today, now, channel);
      && Valid(st') && st'.seenUrls == st.seenUrls && st'.leads == st.leads
      && CompaniesTouched(st.companies, st'.companies, batch, now)
      && n <= |batch| && se'.sent == se.sent + n && SenderSound(se')
    decreases |batch|
  {
    if batch != [] {
      var se0 := ResetDaily(se, today);
      ResetKeepsSound(se, today);
      if se0.dailyCount < DefaultDailyLimit {
        var company := batch[0];
        var emails := CompanyAddresses(company);
        if emails == [] {
          CompanyRoundEffect(st, se0, batch[1..], today, now, channel);
          CompaniesTouchedWiden(st.companies, CompanyRound(st, se0, batch[1..], today, now, channel).0.companies, batch, now);
        } else {
          TryEachEffect(se0, emails, CompanyOutreach(company), today, now, channel);
          TryEachKeepsInvariants(se0, emails, CompanyOutreach(company), today, now, channel);
          var (se1, ok) := TryEach(se0, emails, CompanyOutreach(company), today, now, channel);
          var st1 := if ok then st.(companies := WithCompanyContacted(st.companies, company.id, emails[0], now)) else st;
          if ok {
            MarkCompanyValid(st, company.id, emails[0], now);
          }
          CompanyRoundEffect(st1, se1, batch[1..], today, now, channel);
          var st' := CompanyRound(st1, se1, batch[1..], today, now, channel).0;
          forall k | 0 <= k < |st.companies|
            ensures st'.companies[k] == st.companies[k]
              || exists b | b in batch :: b.id == st.companies[k].id && CompanyAddresses(b) != []
                   && st'.companies[k] == MarkedCompany(st.companies[k], CompanyAddresses(b)[0], now)
          {
            if st'.companies[k] != st1.companies[k] {
              var b :| b in batch[1..] && b.id == st1.companies[k].id && CompanyAddresses(b) != []
                && st'.companies[k] == MarkedCompany(st1.companies[k], CompanyAddresses(b)[0], now);
              assert b in batch;
            } else if st1.companies[k] != st.companies[k] {
              assert company in batch;
            }
          }
        }
      }
    }
  }

  /** After the quota check refuses the pass at index `k`, every lead whose id was not offered
      before `k` is exactly as it was: the later candidates of the batch are neither tried nor
      marked, and so stay `New`. */
  lemma LeadsAfterRefusalUntouched(st: StoreState, se: SenderState, batch: seq<LeadOffer>, k: nat, i: int,
                                   today: Date, now: Instant, channel: Channel)
    requires Valid(st) && SenderSound(se)
    requires k < |batch| && LeadRoundFinishes(st, se, batch[..k], today, now, channel)
    requires !(ResetDaily(LeadRound(st, se, batch[..k], today, now, channel).1, today).dailyCount < DefaultDailyLimit)
    requires 0 <= i < |st.leads| && forall j | 0 <= j < k :: batch[j].lead.id != st.leads[i].id
    ensures |LeadRound(st, se, batch, today, now, channel).0.leads| == |st.leads|
    ensures LeadRound(st, se, batch, today, now, channel).0.leads[i] == st.leads[i]
  {
    LeadRoundRefusedAt(st, se, batch, k, today, now, channel);
    LeadRoundEffect(st, se, batch[..k], today, now, channel);
    assert forall o | o in batch[..k] :: o.lead.id != st.leads[i].id;
  }

  lemma CompaniesAfterRefusalUntouched(st: StoreState, se: SenderState, batch: seq<StoredCompany>, k: nat, i: int,
                                       today: Date, now: Instant, channel: Channel)
    requires Valid(st) && SenderSound(se)
    requires k < |batch| && CompanyRoundFinishes(st, se, batch[..k], today, now, channel)
    requires !(ResetDaily(CompanyRound(st, se, batch[..k], today, now, channel).1, today).dailyCount < DefaultDailyLimit)
    requires 0 <= i < |st.companies| && forall j | 0 <= j < k :: batch[j].id != st.companies[i].id
    ensures |CompanyRound(st, se, batch, today, now, channel).0.companies| == |st.companies|
    ensures CompanyRound(st, se, batch, today, now, channel).0.companies[i] == st.companies[i]
  {
    CompanyRoundRefusedAt(st, se, batch, k, today, now, channel);
    CompanyRoundEffect(st, se, batch[..k], today, now, channel);
    assert forall b | b in batch[..k] :: b.id != st.companies[i].id;
  }

  /** Once the day's quota is used up, a cycle sends nothing and changes no record; the only
      effect is the daily reset the first check applies. */
  lemma QuotaExhaustedCycle(st: StoreState, se: SenderState, today: Date, now: Instant, channel: Channel, extract: Extractor)
    requires !(ResetDaily(se, today).dailyCount < DefaultDailyLimit)
    ensures Outreach(st, se, today, now, channel, extract) == (st, ResetDaily(se, today), 0, 0)
  {
  }

  /** A lead record that was `New` and is now marked contacted with the first address offered
      to it; all its other fields are kept. */
  ghost predicate LeadContactedNow(before: StoredLead, after: StoredLead, extract: Extractor, now: Instant)
  {
    before.status == New && LeadAddresses(before, extract) != []
    && after == MarkedLead(before, LeadAddresses(before, extract)[0], now)
  }

  ghost predicate CompanyContactedNow(before: StoredCompany, after: StoredCompany, now: Instant)
  {
    before.status == New && CompanyAddresses(before) != []
    && after == MarkedCompany(before, CompanyAddresses(before)[0], now)
  }

  lemma TakeMembers<T>(s: seq<T>, n: nat, x: T)
    requires x in Take(s, n)
    ensures x in s
  {
    var t := Take(s, n);
    var i :| 0 <= i < |t| && t[i] == x;
    assert s[i] == x;
  }

  /** In a valid store, a touch by a batch of `New` stored leads can only change a `New` lead
      into a contacted one. */
  lemma LeadBatchTouch(st: StoreState, after: seq<StoredLead>, batch: seq<LeadOffer>, extract: Extractor, now: Instant)
    requires Valid(st) && LeadsTouched(st.leads, after, batch, now)
    requires forall o | o in batch :: o.lead in st.leads && o.lead.status == New && o.emails == LeadAddresses(o.lead, extract)
    ensures forall k | 0 <= k < |st.leads| :: after[k] == st.leads[k] || LeadContactedNow(st.leads[k], after[k], extract, now)
  {
    forall k | 0 <= k < |st.leads| && after[k] != st.leads[k]
      ensures LeadContactedNow(st.leads[k], after[k], extract, now)
    {
      var o :| o in batch && o.lead.id == st.leads[k].id && o.emails != []
        && after[k] == MarkedLead(st.leads[k], o.emails[0], now);
      var m :| 0 <= m < |st.leads| && st.leads[m] == o.lead;
      assert m == k;
    }
  }

  lemma CompanyBatchTouch(st: StoreState, after: seq<StoredCompany>, batch: seq<StoredCompany>, now: Instant)
    requires Valid(st) && CompaniesTouched(st.companies, after, batch, now)
    requires forall b | b in batch :: b in st.companies && b.status == New
    ensures forall k | 0 <= k < |st.companies| :: after[k] == st.companies[k] || CompanyContactedNow(st.companies[k], after[k], now)
  {
    forall k | 0 <= k < |st.companies| && after[k] != st.companies[k]
      ensures CompanyContactedNow(st.companies[k], after[k], now)
    {
      var b :| b in batch && b.id == st.companies[k].id && CompanyAddresses(b) != []
        && after[k] == MarkedCompany(st.companies[k], CompanyAddresses(b)[0], now);
      var m :| 0 <= m < |st.companies| && st.companies[m] == b;
      assert m == k;
    }
  }

  /** What an outreach cycle promises: at most five applications and three company messages,
      each counted once in `sent`; the store stays valid and keeps its size; the only records
      that change are `New` ones, each marked contacted with the first address offered to it,
      so a contacted record is never written again; the sender stays sound. */
  lemma OutreachEffect(st: StoreState, se: SenderState, today: Date, now: Instant, channel: Channel, extract: Extractor)
    requires Valid(st) && SenderSound(se)
    ensures var r := Outreach(st, se, today, now, channel, extract);
      Valid(r.0) && r.0.seenUrls == st.seenUrls && r.2 <= LeadBatch && r.3 <= CompanyBatch
    ensures var r := Outreach(st, se, today, now, channel, extract);
      r.1.sent == se.sent + r.2 + r.3 && SenderSound(r.1)
    ensures var r := Outreach(st, se, today, now, channel, extract);
      |r.0.leads| == |st.leads| &&
      forall k | 0 <= k < |st.leads| :: r.0.leads[k] == st.leads[k] || LeadContactedNow(st.leads[k], r.0.leads[k], extract, now)
    ensures var r := Outreach(st, se, today, now, channel, extract);
      |r.0.companies| == |st.companies| &&
      forall k | 0 <= k < |st.companies| :: r.0.companies[k] == st.companies[k] || CompanyContactedNow(st.companies[k], r.0.companies[k], now)
  {
    var leadBatch := Take(NewLeads(st.leads), LeadBatch);
    var offers := LeadOffers(leadBatch, extract);
    MappedPointwise(leadBatch, l => LeadOffer(l, LeadAddresses(l, extract)));
    LeadRoundEffect(st, se, offers, today, now, channel);
    var r1 := LeadRound(st, se, offers, today, now, channel);
    forall o | o in offers ensures o.lead in st.leads && o.lead.status == New && o.emails == LeadAddresses(o.lead, extract) {
      var i :| 0 <= i < |offers| && offers[i] == o;
      assert leadBatch[i] in leadBatch;
      TakeMembers(NewLeads(st.leads), LeadBatch, leadBatch[i]);
    }
    LeadBatchTouch(st, r1.0.leads, offers, extract, now);
    var companyBatch := Take(OutreachCompanies(r1.0.companies), CompanyBatch);
    CompanyRoundEffect(r1.0, r1.1, companyBatch, today, now, channel);
    var r2 := CompanyRound(r1.0, r1.1, companyBatch, today, now, channel);
    forall b | b in companyBatch ensures b in st.companies && b.status == New {
      TakeMembers(OutreachCompanies(st.companies), CompanyBatch, b);
    }
    CompanyBatchTouch(st, r2.0.companies, companyBatch, now);
    assert Outreach(st, se, today, now, channel, extract) == (r2.0, r2.1, r1.2, r2.2);
  }

  // ---------------------------------------------------------------------------------------

  /** `JobHuntingBot`, holding the lead store and the sender it drives. */
  class JobHuntingBot {
    const store: LeadManager
    const sender: EmailSender
    const keywords: seq<string>

    /** `__init__`: builds the store and the sender, then loads their files. */
    constructor (today: Date, keywords: seq<string>, storeFile: Option<StoreState>, statsFile: Option<SenderState>)
      ensures fresh(store) && fresh(sender) && this.keywords == keywords
      ensures store.State() == storeFile.GetOr(EmptyStore) && store.saved == None
      ensures sender.State() == statsFile.GetOr(FreshSender(today)) && sender.saved == None
    {
      this.keywords := keywords;
      var s := new LeadManager();
      s.LoadData(storeFile);
      var e := new EmailSender(today);
      e.LoadStats(statsFile);
      store := s;
      sender := e;
    }

    /** `scan_job_sources`: gathers the scrapers' outputs and admits each job, counting the
        admissions. */
    method ScanJobSources(scrapers: seq<Outcome<seq<LeadData>>>, now: Instant) returns (newJobs: nat)
      modifies store
      ensures (store.State(), newJobs) == AdmitAll(old(store.State()), Gathered(scrapers), now)
      ensures store.saved == old(store.saved)
    {
      var jobs := JobSources.GetAllJobs(scrapers);
      newJobs := 0;
      for i := 0 to |jobs|
        invariant (store.State(), newJobs) == AdmitAll(old(store.State()), jobs[..i], now)
        invariant store.saved == old(store.saved)
      {
        AdmitAllStep(old(store.State()), jobs, i, now);
        var added := store.AddLead(jobs[i], now);
        if added {
          newJobs := newJobs + 1;
        }
      }
      assert jobs[..|jobs|] == jobs;
    }

    /** `discover_companies`: enriches the found companies and stores those with addresses. */
    method DiscoverCompanies(found: seq<CompanyInfo>, lookup: CompanyFinder.Lookup, now: Instant) returns (newCompanies: nat)
      modifies store
      ensures store.State() == AppendAll(old(store.State()), WithEmails(CompanyFinder.EnrichAll(found, lookup)), now)
      ensures newCompanies == |WithEmails(CompanyFinder.EnrichAll(found, lookup))|
      ensures store.saved == old(store.saved)
    {
      var enriched := CompanyFinder.ExtractRealEmails(found, lookup);
      var withEmails := WithEmails(enriched);
      newCompanies := 0;
      for i := 0 to |withEmails|
        invariant store.State() == AppendAll(old(store.State()), withEmails[..i], now)
        invariant newCompanies == i && store.saved == old(store.saved)
      {
        assert withEmails[..i + 1][..i] == withEmails[..i];
        var added := store.AddCompany(withEmails[i], now);
        if added {
          newCompanies := newCompanies + 1;
        }
      }
      assert withEmails[..|withEmails|] == withEmails;
    }

    /** `process_outreach`: the lead loop, the company loop, and a save of the sender's
        statistics when anything was sent. */
    method ProcessOutreach(today: Date, now: Instant, channel: Channel, extract: Extractor)
      returns (jobsSent: nat, companiesSent: nat)
      modifies store, sender
      ensures (store.State(), sender.State(), jobsSent, companiesSent) == Outreach(old(store.State()), old(sender.State()), today, now, channel, extract)
      ensures sender.saved == if jobsSent + companiesSent > 0 then Some(sender.State()) else old(sender.saved)
      ensures store.saved == old(store.saved)
    {
      var offers := LeadOffers(Take(store.GetNewLeads(), LeadBatch), extract);
      jobsSent := LeadLoop(offers, today, now, channel);
      var companies := Take(store.GetCompaniesForOutreach(), CompanyBatch);
      companiesSent := CompanyLoop(companies, today, now, channel);
      if jobsSent + companiesSent > 0 {
        sender.SaveStats();
      }
    }

    /** The loop over the offers of the lead batch, which ends when the quota is used up. */
    method LeadLoop(offers: seq<LeadOffer>, today: Date, now: Instant, channel: Channel) returns (sent: nat)
      modifies store, sender
      ensures (store.State(), sender.State(), sent) == LeadRound(old(store.State()), old(sender.State()), offers, today, now, channel)
      ensures store.saved == old(store.saved) && sender.saved == old(sender.saved)
    {
      sent := 0;
      var i := 0;
      while i < |offers|
        invariant 0 <= i <= |offers|
        invariant LeadRound(old(store.State()), old(sender.State()), offers, today, now, channel)
          == Plus(LeadRound(store.State(), sender.State(), offers[i..], today, now, channel), sent)
        invariant store.saved == old(store.saved) && sender.saved == old(sender.saved)
      {
        assert offers[i..][1..] == offers[i + 1..];
        var permitted, ok := LeadStep(offers[i], today, now, channel);
        if !permitted {
          return;
        }
        sent := sent + if ok then 1 else 0;
        i := i + 1;
      }
    }

    /** One pass of the lead loop. */
    method LeadStep(o: LeadOffer, today: Date, now: Instant, channel: Channel) returns (permitted: bool, ok: bool)
      modifies store, sender
      ensures Visit(store.State(), sender.State(), permitted, ok) == LeadVisit(old(store.State()), old(sender.State()), o, today, now, channel)
      ensures store.saved == old(store.saved) && sender.saved == old(sender.saved)
    {
      ok := false;
      permitted := sender.CanSendEmail(today);
      if !permitted {
        return;
      }
      if o.emails != [] {
        ok := sender.SendJobApplication(o.lead, o.emails, today, now, channel);
        if ok {
          store.MarkLeadContacted(o.lead.id, o.emails[0], now);
        }
      }
    }

    /** The loop over the company batch, in the same shape. */
    method CompanyLoop(companies: seq<StoredCompany>, today: Date, now: Instant, channel: Channel) returns (sent: nat)
      modifies store, sender
      ensures (store.State(), sender.State(), sent) == CompanyRound(old(store.State()), old(sender.State()), companies, today, now, channel)
      ensures store.saved == old(store.saved) && sender.saved == old(sender.saved)
    {
      sent := 0;
      var i := 0;
      while i < |companies|
        invariant 0 <= i <= |companies|
        invariant CompanyRound(old(store.State()), old(sender.State()), companies, today, now, channel)
          == Plus(CompanyRound(store.State(), sender.State(), companies[i..], today, now, channel), sent)
        invariant store.saved == old(store.saved) && sender.saved == old(sender.saved)
      {
        assert companies[i..][1..] == companies[i + 1..];
        var permitted, ok := CompanyStep(companies[i], today, now, channel);
        if !permitted {
          return;
        }
        sent := sent + if ok then 1 else 0;
        i := i + 1;
      }
    }

    /** One pass of the company loop. */
    method CompanyStep(company: StoredCompany, today: Date, now: Instant, channel: Channel)
      returns (permitted: bool, ok: bool)
      modifies store, sender
      ensures Visit(store.State(), sender.State(), permitted, ok) == CompanyVisit(old(store.State()), old(sender.State()), company, today, now, channel)
      ensures store.saved == old(store.saved) && sender.saved == old(sender.saved)
    {
      ok := false;
      permitted := sender.CanSendEmail(today);
      if !permitted {
        return;
      }
      var emails := CompanyAddresses(company);
      if emails != [] {
        ok := sender.SendCompanyOutreach(company, emails, today, now, channel);
        if ok {
          store.MarkCompanyContacted(company.id, emails[0], now);
        }
      }
    }

    /** `handle_discord_job`, fed by `process_message`: a qualifying message is offered to the
        store as a lead. */
    method HandleDiscordMessage(msg: DiscordMonitor.Message, now: Instant) returns (added: bool)
      modifies store
      ensures var lead := DiscordMonitor.ProcessMessage(msg, keywords, now);
        (store.State(), added) == if lead.Some? then AdmitLead(old(store.State()), lead.value, now) else (old(store.State()), false)
      ensures store.saved == old(store.saved)
    {
      var lead := DiscordMonitor.ProcessMessage(msg, keywords, now);
      added := false;
      if lead.Some? {
        added := store.AddLead(lead.value, now);
      }
    }
  }

  /** Once one direct message has become a lead, no later direct message is admitted: they
      all share the url "DM". */
  lemma SecondDirectMessageRefused(s: StoreState, m1: DiscordMonitor.Message, m2: DiscordMonitor.Message,
                                   keywords: seq<string>, now1: Instant, now2: Instant)
    requires Valid(s) && m1.guild.None? && m2.guild.None?
    requires DiscordMonitor.ProcessMessage(m1, keywords, now1).Some? && DiscordMonitor.ProcessMessage(m2, keywords, now2).Some?
    ensures var s1 := AdmitLead(s, DiscordMonitor.ProcessMessage(m1, keywords, now1).value, now1).0;
      AdmitLead(s1, DiscordMonitor.ProcessMessage(m2, keywords, now2).value, now2) == (s1, false)
  {
    DiscordMonitor.LeadUrls(m1, m2, keywords, now1, now2);
  }
}
