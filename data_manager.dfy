/** The lead store (`LeadManager`): admits leads keyed by URL, appends companies, hands out
    the records still awaiting outreach, marks records contacted and counts them. CSV and
    spreadsheet appends are not modelled; the JSON file becomes an optional snapshot. */
module DataManager {
  import opened Records

  /** The three collections a `LeadManager` holds. */
  datatype StoreState = StoreState(
    leads: seq<StoredLead>,
    seenUrls: set<string>,
    companies: seq<StoredCompany>)

  const EmptyStore: StoreState := StoreState([], {}, [])

  /** The URLs of a list of leads. */
  function UrlsOf(leads: seq<StoredLead>): set<string>
    decreases |leads|
  {
    if leads == [] then {} else UrlsOf(leads[..|leads| - 1]) + {leads[|leads| - 1].data.url}
  }

  /** What every store reachable from the empty one satisfies: lead and company ids are
      1..n in insertion order, no two leads share a URL, and `seen_urls` is exactly the set of
      the stored leads' URLs. */
  predicate Valid(s: StoreState)
  {
    && (forall i :: 0 <= i < |s.leads| ==> s.leads[i].id == i + 1)
    && (forall i, j :: 0 <= i < j < |s.leads| ==> s.leads[i].data.url != s.leads[j].data.url)
    && s.seenUrls == UrlsOf(s.leads)
    && (forall i :: 0 <= i < |s.companies| ==> s.companies[i].id == i + 1)
  }

  /** `add_lead`: a lead whose URL was seen before is refused and nothing changes; otherwise it
      is appended with the next id and status `New`, and its URL becomes seen. */
  function AdmitLead(s: StoreState, data: LeadData, now: Instant): (StoreState, bool)
  {
    if data.url in s.seenUrls then (s, false)
    else
      var lead := StoredLead(|s.leads| + 1, data, now, New, None);
      (s.(leads := s.leads + [lead], seenUrls := s.seenUrls + {data.url}), true)
  }

  /** `add_company`: always appends, with the next id and status `New`; there is no
      duplicate check. */
  function AppendCompany(s: StoreState, info: CompanyInfo, now: Instant): StoreState
  {
    s.(companies := s.companies + [StoredCompany(|s.companies| + 1, info, now, New, None)])
  }

  function MarkedLead(l: StoredLead, email: string, now: Instant): StoredLead
  {
    l.(status := Contacted, contact := Some(Contact(email, now)))
  }

  function MarkedCompany(c: StoredCompany, email: string, now: Instant): StoredCompany
  {
    c.(status := Contacted, contact := Some(Contact(email, now)))
  }

  /** `mark_lead_contacted` on the list: the first lead with the id is marked, whatever its
      status was. */
  function WithLeadContacted(leads: seq<StoredLead>, id: int, email: string, now: Instant): seq<StoredLead>
    decreases |leads|
  {
    if leads == [] then []
    else if leads[0].id == id then [MarkedLead(leads[0], email, now)] + leads[1..]
    else [leads[0]] + WithLeadContacted(leads[1..], id, email, now)
  }

  /** `mark_company_contacted` on the list. */
  function WithCompanyContacted(cs: seq<StoredCompany>, id: int, email: string, now: Instant): seq<StoredCompany>
    decreases |cs|
  {
    if cs == [] then []
    else if cs[0].id == id then [MarkedCompany(cs[0], email, now)] + cs[1..]
    else [cs[0]] + WithCompanyContacted(cs[1..], id, email, now)
  }

  /** Index `j` holds the first record with the given id. */
  predicate FirstLeadWithId(leads: seq<StoredLead>, id: int, j: int)
  {
    0 <= j < |leads| && leads[j].id == id && forall i :: 0 <= i < j ==> leads[i].id != id
  }

  predicate FirstCompanyWithId(cs: seq<StoredCompany>, id: int, j: int)
  {
    0 <= j < |cs| && cs[j].id == id && forall i :: 0 <= i < j ==> cs[i].id != id
  }

  function CountLeads(leads: seq<StoredLead>, st: Status): nat
    decreases |leads|
  {
    if leads == [] then 0 else (if leads[0].status == st then 1 else 0) + CountLeads(leads[1..], st)
  }

  function CountCompanies(cs: seq<StoredCompany>, st: Status): nat
    decreases |cs|
  {
    if cs == [] then 0 else (if cs[0].status == st then 1 else 0) + CountCompanies(cs[1..], st)
  }

  /** `get_new_leads`: the leads with status `New`, all of them, in insertion order. */
  function NewLeads(leads: seq<StoredLead>): (r: seq<StoredLead>)
    ensures forall l :: l in r <==> l in leads && l.status == New
    ensures IsSubsequence(r, leads)
    ensures |r| == CountLeads(leads, New)
    decreases |leads|
  {
    if leads == [] then []
    else if leads[0].status == New then [leads[0]] + NewLeads(leads[1..])
    else NewLeads(leads[1..])
  }

  /** A company `get_companies_for_outreach` selects: still `New`, with a present and
      non-empty `real_emails`. */
  predicate OutreachEligible(c: StoredCompany)
  {
    c.status == New && c.info.realEmails.Some? && c.info.realEmails.value != []
  }

  function CountEligible(cs: seq<StoredCompany>): nat
    decreases |cs|
  {
    if cs == [] then 0 else (if OutreachEligible(cs[0]) then 1 else 0) + CountEligible(cs[1..])
  }

  /** `get_companies_for_outreach`: the eligible companies, all of them, in insertion order. */
  function OutreachCompanies(cs: seq<StoredCompany>): (r: seq<StoredCompany>)
    ensures forall c :: c in r <==> c in cs && OutreachEligible(c)
    ensures IsSubsequence(r, cs)
    ensures |r| == CountEligible(cs)
    decreases |cs|
  {
    if cs == [] then []
    else if OutreachEligible(cs[0]) then [cs[0]] + OutreachCompanies(cs[1..])
    else OutreachCompanies(cs[1..])
  }

  /** The platform breakdown is an insertion-ordered dictionary from platform to count. */
  type Breakdown = seq<(string, nat)>

  /** `d.get(p, 0)`. */
  function Lookup(bd: Breakdown, p: string): nat
    decreases |bd|
  {
    if bd == [] then 0 else if bd[0].0 == p then bd[0].1 else Lookup(bd[1..], p)
  }

  /** `d[p] = d.get(p, 0) + 1` on an insertion-ordered dictionary. */
  function Bump(bd: Breakdown, p: string): Breakdown
    decreases |bd|
  {
    if bd == [] then [(p, 1)]
    else if bd[0].0 == p then [(p, bd[0].1 + 1)] + bd[1..]
    else [bd[0]] + Bump(bd[1..], p)
  }

  /** The breakdown the statistics loop builds over `leads`. */
  function PlatformBreakdown(leads: seq<StoredLead>): Breakdown
    decreases |leads|
  {
    if leads == [] then [] else Bump(PlatformBreakdown(leads[..|leads| - 1]), leads[|leads| - 1].data.platform)
  }

  /** The sum of the breakdown's counts. */
  function Total(bd: Breakdown): nat
    decreases |bd|
  {
    if bd == [] then 0 else bd[0].1 + Total(bd[1..])
  }

  /** The platforms that have an entry. */
  function Keys(bd: Breakdown): set<string>
    decreases |bd|
  {
    if bd == [] then {} else {bd[0].0} + Keys(bd[1..])
  }

  /** No platform has two entries. */
  predicate DistinctKeys(bd: Breakdown)
    decreases |bd|
  {
    bd == [] || (bd[0].0 !in Keys(bd[1..]) && DistinctKeys(bd[1..]))
  }

  /** The platforms of a list of leads. */
  function Platforms(leads: seq<StoredLead>): set<string>
    decreases |leads|
  {
    if leads == [] then {} else Platforms(leads[..|leads| - 1]) + {leads[|leads| - 1].data.platform}
  }

  /** The number of leads from platform `p`. */
  function PlatformCount(leads: seq<StoredLead>, p: string): nat
    decreases |leads|
  {
    if leads == [] then 0
    else PlatformCount(leads[..|leads| - 1], p) + (if leads[|leads| - 1].data.platform == p then 1 else 0)
  }

  datatype LeadCounts = LeadCounts(total: nat, newCount: nat, contactedCount: nat, byPlatform: Breakdown)
  datatype CompanyCounts = CompanyCounts(total: nat, newCount: nat, contactedCount: nat)
  datatype StoreStatistics = StoreStatistics(leads: LeadCounts, companies: CompanyCounts, duplicatesPrevented: int)

  // ---------------------------------------------------------------------------------------
  // Lemmas about the store

  lemma {:induction false} UrlsOfMembers(leads: seq<StoredLead>, u: string)
    ensures u in UrlsOf(leads) <==> exists i :: 0 <= i < |leads| && leads[i].data.url == u
    decreases |leads|
  {
    if leads != [] {
      var init := leads[..|leads| - 1];
      UrlsOfMembers(init, u);
      if exists i :: 0 <= i < |init| && init[i].data.url == u {
        var i :| 0 <= i < |init| && init[i].data.url == u;
        assert leads[i] == init[i];
      }
      if exists i :: 0 <= i < |leads| && leads[i].data.url == u {
        var i :| 0 <= i < |leads| && leads[i].data.url == u;
        if i < |init| {
          assert init[i] == leads[i];
        }
      }
    }
  }

  /** Pairwise distinct URLs make as many URLs as leads. */
  lemma {:induction false} DistinctUrlsCount(leads: seq<StoredLead>)
    requires forall i, j :: 0 <= i < j < |leads| ==> leads[i].data.url != leads[j].data.url
    ensures |UrlsOf(leads)| == |leads|
    decreases |leads|
  {
    if leads != [] {
      var init := leads[..|leads| - 1];
      DistinctUrlsCount(init);
      var last := leads[|leads| - 1].data.url;
      assert forall i :: 0 <= i < |init| ==> init[i].data.url != last by {
        forall i | 0 <= i < |init| ensures init[i].data.url != last {
          assert init[i] == leads[i];
        }
      }
      UrlsOfMembers(init, last);
    }
  }

  /** In a valid store `seen_urls` has exactly one URL per lead, so the statistic
      `duplicates_prevented` is always 0, however many duplicates were refused. */
  lemma NoDuplicatesCounted(s: StoreState)
    requires Valid(s)
    ensures |s.seenUrls| == |s.leads|
    ensures |s.seenUrls| - |s.leads| == 0
  {
    DistinctUrlsCount(s.leads);
  }

  /** Admission keeps the store valid, and it succeeds exactly when no stored lead has the
      URL; an admitted lead is the new last one, with id n+1 and status `New`. */
  lemma AdmitLeadValid(s: StoreState, data: LeadData, now: Instant)
    requires Valid(s)
    ensures Valid(AdmitLead(s, data, now).0)
    ensures AdmitLead(s, data, now).1 <==> forall i :: 0 <= i < |s.leads| ==> s.leads[i].data.url != data.url
    ensures var s' := AdmitLead(s, data, now).0;
      if AdmitLead(s, data, now).1
      then |s'.leads| == |s.leads| + 1 && s'.leads[..|s.leads|] == s.leads
        && s'.leads[|s.leads|] == StoredLead(|s.leads| + 1, data, now, New, None)
      else s' == s
  {
    UrlsOfMembers(s.leads, data.url);
    if data.url !in s.seenUrls {
      var lead := StoredLead(|s.leads| + 1, data, now, New, None);
      var leads := s.leads + [lead];
      assert leads[..|leads| - 1] == s.leads;
      assert UrlsOf(leads) == s.seenUrls + {data.url};
      assert forall i :: 0 <= i < |s.leads| ==> leads[i] == s.leads[i];
      assert forall i, j :: 0 <= i < j < |leads| ==> leads[i].data.url != leads[j].data.url by {
        forall i, j | 0 <= i < j < |leads|
          ensures leads[i].data.url != leads[j].data.url
        {
          if j == |s.leads| {
            assert leads[i].data.url == s.leads[i].data.url;
          }
        }
      }
    }
  }

  /** Admitting the same lead twice stores it once: the second call returns false and
      leaves the store as the first call left it. */
  lemma AdmitTwice(s: StoreState, data: LeadData, now1: Instant, now2: Instant)
    requires Valid(s)
    ensures var (s1, _) := AdmitLead(s, data, now1);
      AdmitLead(s1, data, now2) == (s1, false)
  {
  }

  /** After admission the URL is seen and exactly one stored lead carries it. */
  lemma AdmittedOnce(s: StoreState, data: LeadData, now: Instant)
    requires Valid(s)
    ensures var s' := AdmitLead(s, data, now).0;
      data.url in s'.seenUrls
      && (exists i :: 0 <= i < |s'.leads| && s'.leads[i].data.url == data.url
            && forall j :: 0 <= j < |s'.leads| && s'.leads[j].data.url == data.url ==> j == i)
  {
    AdmitLeadValid(s, data, now);
    var s' := AdmitLead(s, data, now).0;
    UrlsOfMembers(s'.leads, data.url);
  }

  /** `add_company` keeps the store valid; the same company added twice becomes two records,
      with ids n+1 and n+2. */
  lemma AppendCompanyTwice(s: StoreState, info: CompanyInfo, now1: Instant, now2: Instant)
    requires Valid(s)
    ensures var s2 := AppendCompany(AppendCompany(s, info, now1), info, now2);
      Valid(s2) && |s2.companies| == |s.companies| + 2
      && s2.companies[|s.companies|].info == info && s2.companies[|s.companies|].id == |s.companies| + 1
      && s2.companies[|s.companies| + 1].info == info && s2.companies[|s.companies| + 1].id == |s.companies| + 2
  {
  }

  /** Marking changes only the first lead with the id: it becomes `Contacted` with the
      given email and time; an unknown id changes nothing. */
  lemma {:induction false} MarkLeadEffect(leads: seq<StoredLead>, id: int, email: string, now: Instant)
    ensures |WithLeadContacted(leads, id, email, now)| == |leads|
    ensures forall j :: 0 <= j < |leads| ==>
      WithLeadContacted(leads, id, email, now)[j]
        == if FirstLeadWithId(leads, id, j) then MarkedLead(leads[j], email, now) else leads[j]
    decreases |leads|
  {
    if leads != [] && leads[0].id != id {
      MarkLeadEffect(leads[1..], id, email, now);
      var r := WithLeadContacted(leads, id, email, now);
      forall j | 0 <= j < |leads|
        ensures r[j] == if FirstLeadWithId(leads, id, j) then MarkedLead(leads[j], email, now) else leads[j]
      {
        if j > 0 {
          assert leads[1..][j - 1] == leads[j];
          assert FirstLeadWithId(leads, id, j) <==> FirstLeadWithId(leads[1..], id, j - 1);
        }
      }
    }
  }

  lemma {:induction false} MarkCompanyEffect(cs: seq<StoredCompany>, id: int, email: string, now: Instant)
    ensures |WithCompanyContacted(cs, id, email, now)| == |cs|
    ensures forall j :: 0 <= j < |cs| ==>
      WithCompanyContacted(cs, id, email, now)[j]
        == if FirstCompanyWithId(cs, id, j) then MarkedCompany(cs[j], email, now) else cs[j]
    decreases |cs|
  {
    if cs != [] && cs[0].id != id {
      MarkCompanyEffect(cs[1..], id, email, now);
      var r := WithCompanyContacted(cs, id, email, now);
      forall j | 0 <= j < |cs|
        ensures r[j] == if FirstCompanyWithId(cs, id, j) then MarkedCompany(cs[j], email, now) else cs[j]
      {
        if j > 0 {
          assert cs[1..][j - 1] == cs[j];
          assert FirstCompanyWithId(cs, id, j) <==> FirstCompanyWithId(cs[1..], id, j - 1);
        }
      }
    }
  }

  /** In a valid store the lead with id k sits at index k-1: marking it changes that one
      record and keeps the store valid. */
  lemma MarkLeadValid(s: StoreState, id: int, email: string, now: Instant)
    requires Valid(s)
    ensures var s' := s.(leads := WithLeadContacted(s.leads, id, email, now));
      Valid(s') && |s'.leads| == |s.leads|
      && forall j :: 0 <= j < |s.leads| ==>
        s'.leads[j] == if j == id - 1 then MarkedLead(s.leads[j], email, now) else s.leads[j]
  {
    MarkLeadEffect(s.leads, id, email, now);
    var r := WithLeadContacted(s.leads, id, email, now);
    assert forall j :: 0 <= j < |s.leads| ==> (FirstLeadWithId(s.leads, id, j) <==> j == id - 1);
    assert forall j :: 0 <= j < |r| ==> r[j].data == s.leads[j].data && r[j].id == s.leads[j].id;
    assert r[..|r|] == r;
    UrlsSame(s.leads, r);
  }

  lemma {:induction false} UrlsSame(a: seq<StoredLead>, b: seq<StoredLead>)
    requires |a| == |b| && forall j :: 0 <= j < |a| ==> a[j].data.url == b[j].data.url
    ensures UrlsOf(a) == UrlsOf(b)
    decreases |a|
  {
    if a != [] {
      UrlsSame(a[..|a| - 1], b[..|b| - 1]);
    }
  }

  /** The company with id k sits at index k-1 in a valid store. */
  lemma MarkCompanyValid(s: StoreState, id: int, email: string, now: Instant)
    requires Valid(s)
    ensures var s' := s.(companies := WithCompanyContacted(s.companies, id, email, now));
      Valid(s') && |s'.companies| == |s.companies|
      && forall j :: 0 <= j < |s.companies| ==>
        s'.companies[j] == if j == id - 1 then MarkedCompany(s.companies[j], email, now) else s.companies[j]
  {
    MarkCompanyEffect(s.companies, id, email, now);
    assert forall j :: 0 <= j < |s.companies| ==> (FirstCompanyWithId(s.companies, id, j) <==> j == id - 1);
  }

  /** Every stored lead is `New` or `Contacted`, so the two counts add up to the total. */
  lemma {:induction false} LeadCountsAddUp(leads: seq<StoredLead>)
    ensures CountLeads(leads, New) + CountLeads(leads, Contacted) == |leads|
    decreases |leads|
  {
    if leads != [] {
      LeadCountsAddUp(leads[1..]);
    }
  }

  lemma {:induction false} CompanyCountsAddUp(cs: seq<StoredCompany>)
    ensures CountCompanies(cs, New) + CountCompanies(cs, Contacted) == |cs|
    decreases |cs|
  {
    if cs != [] {
      CompanyCountsAddUp(cs[1..]);
    }
  }

  lemma {:induction false} BumpEffect(bd: Breakdown, p: string)
    requires DistinctKeys(bd)
    ensures DistinctKeys(Bump(bd, p))
    ensures Keys(Bump(bd, p)) == Keys(bd) + {p}
    ensures Total(Bump(bd, p)) == Total(bd) + 1
    ensures forall q :: Lookup(Bump(bd, p), q) == Lookup(bd, q) + if q == p then 1 else 0
    decreases |bd|
  {
    if bd != [] && bd[0].0 != p {
      BumpEffect(bd[1..], p);
      assert Bump(bd, p)[1..] == Bump(bd[1..], p);
    } else if bd != [] {
      assert Bump(bd, p)[1..] == bd[1..];
    }
  }

  /** The `by_platform` breakdown has exactly one entry per platform that occurs among the
      leads, holding that platform's number of leads, and its counts sum to the number of leads. */
  lemma {:induction false} BreakdownCounts(leads: seq<StoredLead>)
    ensures DistinctKeys(PlatformBreakdown(leads))
    ensures Keys(PlatformBreakdown(leads)) == Platforms(leads)
    ensures Total(PlatformBreakdown(leads)) == |leads|
    ensures forall q :: Lookup(PlatformBreakdown(leads), q) == PlatformCount(leads, q)
    decreases |leads|
  {
    if leads != [] {
      BreakdownCounts(leads[..|leads| - 1]);
      BumpEffect(PlatformBreakdown(leads[..|leads| - 1]), leads[|leads| - 1].data.platform);
    }
  }

  // ---------------------------------------------------------------------------------------

  /** `LeadManager`: the lead store. `saved` stands for the `job_data.json` file. */
  class LeadManager {
    var leads: seq<StoredLead>
    var seenUrls: set<string>
    var companies: seq<StoredCompany>
    var saved: Option<StoreState>

    function State(): StoreState
      reads this
    {
      StoreState(leads, seenUrls, companies)
    }

    constructor ()
      ensures State() == EmptyStore && saved == None
    {
      leads, seenUrls, companies, saved := [], {}, [], None;
    }

    /** `is_duplicate`: membership in `seen_urls`, in any state; in a valid store, a URL is a
        duplicate exactly when a stored lead has it. */
    function IsDuplicate(url: string): (r: bool)
      reads this
      ensures r == (url in seenUrls)
      ensures Valid(State()) ==> (r <==> exists i :: 0 <= i < |leads| && leads[i].data.url == url)
    {
      UrlsOfMembers(leads, url);
      url in seenUrls
    }

    /** `add_lead`. */
    method AddLead(data: LeadData, now: Instant) returns (added: bool)
      modifies this
      ensures (State(), added) == AdmitLead(old(State()), data, now)
      ensures saved == old(saved)
    {
      if data.url in seenUrls {
        return false;
      }
      leads := leads + [StoredLead(|leads| + 1, data, now, New, None)];
      seenUrls := seenUrls + {data.url};
      added := true;
    }

    /** `add_company`: always reports success. */
    method AddCompany(info: CompanyInfo, now: Instant) returns (added: bool)
      modifies this
      ensures added
      ensures State() == AppendCompany(old(State()), info, now)
      ensures saved == old(saved)
    {
      companies := companies + [StoredCompany(|companies| + 1, info, now, New, None)];
      added := true;
    }

    function GetNewLeads(): seq<StoredLead>
      reads this
    {
      NewLeads(leads)
    }

    function GetCompaniesForOutreach(): seq<StoredCompany>
      reads this
    {
      OutreachCompanies(companies)
    }

    /** `mark_lead_contacted`: scans for the first lead with the id and marks it. */
    method MarkLeadContacted(leadId: int, email: string, now: Instant)
      modifies this
      ensures leads == WithLeadContacted(old(leads), leadId, email, now)
      ensures seenUrls == old(seenUrls) && companies == old(companies) && saved == old(saved)
    {
      MarkLeadEffect(leads, leadId, email, now);
      var i := 0;
      while i < |leads|
        invariant 0 <= i <= |leads| && leads == old(leads)
        invariant forall k :: 0 <= k < i ==> leads[k].id != leadId
      {
        if leads[i].id == leadId {
          assert FirstLeadWithId(leads, leadId, i);
          leads := leads[i := MarkedLead(leads[i], email, now)];
          return;
        }
        i := i + 1;
      }
    }

    /** `mark_company_contacted`. */
    method MarkCompanyContacted(companyId: int, email: string, now: Instant)
      modifies this
      ensures companies == WithCompanyContacted(old(companies), companyId, email, now)
      ensures leads == old(leads) && seenUrls == old(seenUrls) && saved == old(saved)
    {
      MarkCompanyEffect(companies, companyId, email, now);
      var i := 0;
      while i < |companies|
        invariant 0 <= i <= |companies| && companies == old(companies)
        invariant forall k :: 0 <= k < i ==> companies[k].id != companyId
      {
        if companies[i].id == companyId {
          assert FirstCompanyWithId(companies, companyId, i);
          companies := companies[i := MarkedCompany(companies[i], email, now)];
          return;
        }
        i := i + 1;
      }
    }

    /** `get_statistics`: the counts by status, the platform breakdown built by a loop over
        the leads, and `len(seen_urls) - len(leads)`. */
    method GetStatistics() returns (st: StoreStatistics)
      ensures st.leads.total == |leads| && st.companies.total == |companies|
      ensures st.leads.newCount == CountLeads(leads, New)
      ensures st.leads.contactedCount == CountLeads(leads, Contacted)
      ensures st.companies.newCount == CountCompanies(companies, New)
      ensures st.companies.contactedCount == CountCompanies(companies, Contacted)
      ensures st.leads.byPlatform == PlatformBreakdown(leads)
      ensures st.duplicatesPrevented == |seenUrls| - |leads|
    {
      var breakdown: Breakdown := [];
      var i := 0;
      while i < |leads|
        invariant 0 <= i <= |leads|
        invariant breakdown == PlatformBreakdown(leads[..i])
      {
        assert leads[..i + 1][..i] == leads[..i];
        breakdown := Bump(breakdown, leads[i].data.platform);
        i := i + 1;
      }
      assert leads[..i] == leads;
      st := StoreStatistics(
        LeadCounts(|leads|, CountLeads(leads, New), CountLeads(leads, Contacted), breakdown),
        CompanyCounts(|companies|, CountCompanies(companies, New), CountCompanies(companies, Contacted)),
        |seenUrls| - |leads|);
    }

    /** `save_data`: the snapshot holds the three collections. */
    method SaveData()
      modifies this`saved
      ensures saved == Some(State())
    {
      saved := Some(State());
    }

    /** `load_data`: a missing file leaves the store as it is; otherwise the store becomes the
        snapshot. */
    method LoadData(file: Option<StoreState>)
      modifies this
      ensures State() == if file.Some? then file.value else old(State())
      ensures saved == old(saved)
    {
      if file.Some? {
        leads, seenUrls, companies := file.value.leads, file.value.seenUrls, file.value.companies;
      }
    }
  }

  /** A restart: the store is saved to the file and a new store is loaded from it. The new
      store holds exactly the old one's leads, seen URLs and companies. */
  method SaveAndRestart(m: LeadManager) returns (m': LeadManager)
    modifies m
    ensures fresh(m') && m'.State() == old(m.State())
    ensures m.State() == old(m.State()) && m.saved == Some(m'.State())
  {
    m.SaveData();
    m' := new LeadManager();
    m'.LoadData(m.saved);
  }

  /** What a restart preserves, about the store `SaveAndRestart` restores: it is valid if the
      saved one was, still counts no prevented duplicates, and refuses every URL admitted
      before the restart, whatever the rest of the offered lead. */
  lemma RestartRefusesSavedUrls(s: StoreState, i: int, data: LeadData, now: Instant)
    requires Valid(s) && 0 <= i < |s.leads| && data.url == s.leads[i].data.url
    ensures |s.seenUrls| == |s.leads|
    ensures AdmitLead(s, data, now) == (s, false)
  {
    NoDuplicatesCounted(s);
    UrlsOfMembers(s.leads, data.url);
  }
}
