/** The decision logic of the company finder: the address filter of `EnhancedEmailExtractor`,
    the union of the address sources, the two first-wins de-duplication passes and the
    enrichment loop of `CompanyOutreachManager`. Page fetches, Hunter.io calls and address
    extraction by regular expression are parameters. */
module CompanyFinder {
  import opened Records
  import opened Text

  // ---------------------------------------------------------------------------------------
  // `_is_relevant_email`

  const ImageExtensions: seq<string> := [
    ".jpg", ".jpeg", ".png", ".gif", ".webp", ".svg", ".ico", ".bmp",
    ".webm", ".mp4", ".mov", ".avi", ".pdf", ".doc", ".zip", ".tar",
    ".css", ".js", ".html", ".xml", ".json", ".txt"]

  const InvalidPatterns: seq<string> := [
    "2x.", "@2x", "logo-", "img-", "icon-", "hero-", "cover-",
    "still-", "video-", "updated_", "monochrome", "RGB"]

  const ValidTlds: seq<string> := ["com", "org", "net", "edu", "gov", "io", "co", "app", "dev", "ai", "ly", "me"]

  const SkipPatterns: seq<string> := [
    "noreply", "no-reply", "donotreply", "example.com", "test.com",
    "webmaster@", "admin@", "postmaster@", "abuse@", "spam@",
    "robot@", "bot@", "automatic@", "newsletter@", "marketing@",
    "notifications@", "alerts@", "system@", "daemon@", "u003e"]

  const BusinessPatterns: seq<string> := [
    "contact", "info", "hello", "careers", "jobs", "hr", "hiring",
    "sales", "business", "partnerships", "support", "team",
    "founder", "ceo", "cto", "director", "manager", "lead"]

  const FreeDomains: seq<string> := ["gmail.com", "yahoo.com", "hotmail.com", "outlook.com"]

  /** The patterns a free-mail address must show. */
  const StrongPatterns: seq<string> := ["careers", "hiring", "jobs", "business", "sales", "partnerships"]

  /** `email.lower().strip()`, the string every pattern is looked for in. */
  function Normalized(email: string): string
  {
    Strip(Lower(email))
  }

  /** The part after the one `@` of the address as given (neither lower-cased nor stripped). */
  function DomainPart(email: string): string
  {
    LastSegment(email, '@')
  }

  /** The last dot-separated label of the domain part, compared case-sensitively. */
  function Tld(email: string): string
  {
    LastSegment(DomainPart(email), '.')
  }

  /** `_is_relevant_email`. The `@` count is taken on the address as given, the patterns on its
      normalized form, the top-level domain on the raw domain part. */
  function IsRelevantEmail(email: string): (r: bool)
    ensures r ==> Count(email, '@') == 1 && '.' in DomainPart(email) && Tld(email) in ValidTlds
    ensures r ==> !ContainsAny(Normalized(email), ImageExtensions) && !ContainsAny(Normalized(email), InvalidPatterns)
    ensures r ==> !ContainsAny(Normalized(email), SkipPatterns)
    ensures Lower(DomainPart(email)) in FreeDomains && !ContainsAny(Normalized(email), StrongPatterns) ==> !r
    ensures Count(email, '@') == 1 && '.' in DomainPart(email) && Tld(email) in ValidTlds
            && !ContainsAny(Normalized(email), ImageExtensions) && !ContainsAny(Normalized(email), InvalidPatterns)
            && !ContainsAny(Normalized(email), SkipPatterns)
            && (if Lower(DomainPart(email)) in FreeDomains then ContainsAny(Normalized(email), StrongPatterns)
                else ContainsAny(Normalized(email), BusinessPatterns))
            ==> r
  {
    var key := Normalized(email);
    var domain := DomainPart(email);
    if Count(email, '@') != 1 then false
    else if ContainsAny(key, ImageExtensions) || ContainsAny(key, InvalidPatterns) then false
    else if domain == [] || '.' !in domain then false
    else if Tld(email) !in ValidTlds then false
    else if ContainsAny(key, SkipPatterns) then false
    else if Lower(domain) in FreeDomains then ContainsAny(key, StrongPatterns)
    else ContainsAny(key, BusinessPatterns)
  }

  /** An accepted address shows at least one business pattern: the strong patterns a free-mail
      address needs are business patterns too. */
  lemma AcceptedEmailShape(email: string)
    requires IsRelevantEmail(email)
    ensures ContainsAny(Normalized(email), BusinessPatterns)
  {
    var key := Normalized(email);
    if Lower(DomainPart(email)) in FreeDomains {
      var p :| p in StrongPatterns && Contains(key, p);
      assert p in BusinessPatterns;
    }
  }

  /** The upper-case `RGB` entry can never match: it is looked for in a lower-cased string. */
  lemma RgbNeverMatches(email: string)
    ensures !Contains(Normalized(email), "RGB")
  {
    var key := Normalized(email);
    if Contains(key, "RGB") {
      ContainsChar(key, "RGB", 0);
      assert 'R' in Lower(email);
      LowerHasNoUpper(email, 'R');
    }
  }

  /** The top-level domain is compared as given: an address whose domain part ends in
      upper-case letters, or in white space that `strip` would have removed from the
      normalized form, is refused. */
  lemma TldIsCaseAndSpaceSensitive(email: string, c: char)
    requires c == ' ' || IsUpper(c)
    ensures !IsRelevantEmail(email + [c])
  {
    TldOfExtended(email, c);
  }

  lemma TldOfExtended(email: string, c: char)
    requires c == ' ' || IsUpper(c)
    ensures Tld(email + [c]) !in ValidTlds
  {
    LastSegmentExtend(email, c, '@');
    LastSegmentExtend(DomainPart(email), c, '.');
    var tld := Tld(email + [c]);
    assert tld == Tld(email) + [c];
    assert tld[|tld| - 1] == c;
    ValidTldsEndLowerCase();
  }

  /** Every listed top-level domain ends in a lower-case letter. */
  lemma ValidTldsEndLowerCase()
    ensures forall v | v in ValidTlds :: v != [] && 'a' <= v[|v| - 1] <= 'z'
  {
    var tlds := ValidTlds;
    assert forall k | 0 <= k < |tlds| :: tlds[k] != [] && 'a' <= tlds[k][|tlds[k]| - 1] <= 'z';
  }

  // ---------------------------------------------------------------------------------------
  // `extract_emails_from_website`

  /** `_search_public_directories`: its search loop has an empty body, so it finds nothing. */
  function PublicDirectoryEmails(website: string, companyName: string): seq<string>
  {
    []
  }

  /** `xs` holds no element twice. */
  predicate NoDuplicates<T(==)>(xs: seq<T>)
  {
    forall i, j | 0 <= i < j < |xs| :: xs[i] != xs[j]
  }

  /** `acc` followed by the elements of `xs` it does not hold yet (`set.update`, in an order of
      the model's choosing: the source returns `list(set)`). */
  function AddNew(acc: seq<string>, xs: seq<string>): (r: seq<string>)
    requires NoDuplicates(acc)
    ensures NoDuplicates(r)
    ensures forall e :: e in r <==> e in acc || e in xs
    decreases |xs|
  {
    if xs == [] then acc
    else
      var init := AddNew(acc, xs[..|xs| - 1]);
      var last := xs[|xs| - 1];
      assert xs == xs[..|xs| - 1] + [last];
      if last in init then init else init + [last]
  }

  /** The addresses of one company: the relevant addresses Hunter.io lists (asked only with an
      API key and a company name; a failing call gives none), the relevant addresses scraped
      from the site's pages, and the directories' (none), without repetition. */
  function ExtractEmails(hasHunterKey: bool, website: string, companyName: string,
                         hunter: Outcome<seq<string>>, scraped: seq<string>): (r: seq<string>)
    ensures NoDuplicates(r)
    ensures forall e :: e in r <==>
      IsRelevantEmail(e) && (e in scraped || (hasHunterKey && companyName != [] && hunter.Returned? && e in hunter.value))
  {
    var fromHunter := if hasHunterKey && companyName != [] && hunter.Returned? then Relevant(hunter.value) else [];
    var found := AddNew(AddNew([], fromHunter), Relevant(scraped));
    AddNew(found, PublicDirectoryEmails(website, companyName))
  }

  /** The relevant addresses of a list, in order (the filters of `_get_emails_from_hunter` and
      `_scrape_emails_from_website`; an empty address is never relevant). */
  function Relevant(xs: seq<string>): (r: seq<string>)
    ensures forall e :: e in r <==> e in xs && IsRelevantEmail(e)
  {
    FilteredMembers(xs, IsRelevantEmail);
    Filtered(xs, IsRelevantEmail)
  }

  // ---------------------------------------------------------------------------------------
  // First-wins de-duplication

  /** The items of `xs`, in order, that `admit` accepts and whose key is neither in `seen` nor
      the key of an earlier kept item: the loop over a `seen` set that both passes run. */
  function Dedup<T>(xs: seq<T>, key: T -> string, admit: T -> bool, seen: set<string>): seq<T>
    decreases |xs|
  {
    if xs == [] then []
    else if admit(xs[0]) && key(xs[0]) !in seen then [xs[0]] + Dedup(xs[1..], key, admit, seen + {key(xs[0])})
    else Dedup(xs[1..], key, admit, seen)
  }

  /** The kept items are admitted items of the input, in input order, with pairwise different
      keys none of which was already seen. */
  lemma {:induction false} DedupSound<T>(xs: seq<T>, key: T -> string, admit: T -> bool, seen: set<string>)
    ensures var r := Dedup(xs, key, admit, seen);
      && IsSubsequence(r, xs)
      && (forall y | y in r :: admit(y) && key(y) !in seen)
      && (forall i, j | 0 <= i < j < |r| :: key(r[i]) != key(r[j]))
    decreases |xs|
  {
    if xs != [] {
      var x := xs[0];
      if admit(x) && key(x) !in seen {
        DedupSound(xs[1..], key, admit, seen + {key(x)});
        var rest := Dedup(xs[1..], key, admit, seen + {key(x)});
        var r := [x] + rest;
        assert r[1..] == rest;
        forall i, j | 0 <= i < j < |r| ensures key(r[i]) != key(r[j]) {
          if i == 0 {
            assert r[j] == rest[j - 1];
            assert r[j] in rest;
          } else {
            assert r[i] == rest[i - 1] && r[j] == rest[j - 1];
          }
        }
      } else {
        DedupSound(xs[1..], key, admit, seen);
        SubsequenceSkip(Dedup(xs[1..], key, admit, seen), x, xs[1..]);
        assert [x] + xs[1..] == xs;
      }
    }
  }

  /** Putting an element in front of `b` keeps a subsequence of `b` one. */
  lemma {:induction false} SubsequenceSkip<T>(a: seq<T>, x: T, b: seq<T>)
    requires IsSubsequence(a, b)
    ensures IsSubsequence(a, [x] + b)
    decreases |b|, 1
  {
    assert ([x] + b)[1..] == b;
    if a != [] && a[0] == x {
      SubsequenceTail(a, b);
    }
  }

  /** A subsequence stays one after losing its first element. */
  lemma {:induction false} SubsequenceMembers<T>(a: seq<T>, b: seq<T>, x: T)
    requires IsSubsequence(a, b) && x in a
    ensures x in b
    decreases |b|
  {
    if a[0] == b[0] {
      if x != a[0] {
        assert x in a[1..];
        SubsequenceMembers(a[1..], b[1..], x);
      }
    } else {
      SubsequenceMembers(a, b[1..], x);
    }
  }

  lemma {:induction false} SubsequenceTail<T>(a: seq<T>, b: seq<T>)
    requires a != [] && IsSubsequence(a, b)
    ensures IsSubsequence(a[1..], b)
    decreases |b|, 0
  {
    assert [b[0]] + b[1..] == b;
    if a[0] == b[0] {
      SubsequenceSkip(a[1..], b[0], b[1..]);
    } else {
      SubsequenceTail(a, b[1..]);
      SubsequenceSkip(a[1..], b[0], b[1..]);
    }
  }

  /** Every admitted item of the input is represented: its key was seen before, or some kept
      item has it. */
  lemma {:induction false} DedupComplete<T>(xs: seq<T>, key: T -> string, admit: T -> bool, seen: set<string>, x: T)
    requires x in xs && admit(x)
    ensures key(x) in seen || exists y | y in Dedup(xs, key, admit, seen) :: key(y) == key(x)
    decreases |xs|
  {
    var x0 := xs[0];
    if x == x0 {
    } else {
      assert x in xs[1..];
      if admit(x0) && key(x0) !in seen {
        DedupComplete(xs[1..], key, admit, seen + {key(x0)}, x);
      } else {
        DedupComplete(xs[1..], key, admit, seen, x);
      }
    }
  }

  /** The first admitted item with a given key wins: each kept item occurs in the input with no
      admitted item of the same key before it. */
  lemma {:induction false} DedupFirstWins<T>(xs: seq<T>, key: T -> string, admit: T -> bool, seen: set<string>, k: int)
    requires 0 <= k < |Dedup(xs, key, admit, seen)|
    ensures var y := Dedup(xs, key, admit, seen)[k];
      exists i :: 0 <= i < |xs| && xs[i] == y && forall j | 0 <= j < i && admit(xs[j]) :: key(xs[j]) != key(y)
    decreases |xs|
  {
    var x0 := xs[0];
    var y := Dedup(xs, key, admit, seen)[k];
    if admit(x0) && key(x0) !in seen && k == 0 {
      assert xs[0] == y;
    } else {
      var seen' := if admit(x0) && key(x0) !in seen then seen + {key(x0)} else seen;
      var k' := if admit(x0) && key(x0) !in seen then k - 1 else k;
      assert y == Dedup(xs[1..], key, admit, seen')[k'];
      DedupFirstWins(xs[1..], key, admit, seen', k');
      var i :| 0 <= i < |xs[1..]| && xs[1..][i] == y && forall j | 0 <= j < i && admit(xs[1..][j]) :: key(xs[1..][j]) != key(y);
      if admit(x0) {
        DedupSound(xs[1..], key, admit, seen');
        assert y in Dedup(xs[1..], key, admit, seen');
      }
      FirstWinsShift(xs, key, admit, y, i);
    }
  }

  /** A witness for the tail is one position further on in the whole sequence, provided the
      head does not claim the key first. */
  lemma FirstWinsShift<T>(xs: seq<T>, key: T -> string, admit: T -> bool, y: T, i: int)
    requires 0 <= i < |xs| - 1 && xs[1..][i] == y
    requires forall j | 0 <= j < i && admit(xs[1..][j]) :: key(xs[1..][j]) != key(y)
    requires admit(xs[0]) ==> key(xs[0]) != key(y)
    ensures xs[i + 1] == y && forall j | 0 <= j < i + 1 && admit(xs[j]) :: key(xs[j]) != key(y)
  {
    forall j | 0 <= j < i + 1 && admit(xs[j]) ensures key(xs[j]) != key(y) {
      if j > 0 {
        assert xs[j] == xs[1..][j - 1];
      }
    }
  }


  /** The loop both passes run, over a `seen` set and an output list. */
  method DedupLoop<T>(xs: seq<T>, key: T -> string, admit: T -> bool) returns (unique: seq<T>)
    ensures unique == Dedup(xs, key, admit, {})
  {
    var seen: set<string> := {};
    unique := [];
    for i := 0 to |xs|
      invariant unique + Dedup(xs[i..], key, admit, seen) == Dedup(xs, key, admit, {})
    {
      assert xs[i..][1..] == xs[i + 1..];
      var k := key(xs[i]);
      if admit(xs[i]) && k !in seen {
        seen := seen + {k};
        unique := unique + [xs[i]];
      }
    }
  }

  /** The identifier of `_remove_duplicates`: trimmed lower-case name and website. */
  function NameWebsiteKey(c: CompanyInfo): string
  {
    Normalized(c.name) + "|" + Normalized(c.website)
  }

  predicate HasName(c: CompanyInfo)
  {
    Normalized(c.name) != []
  }

  /** `CompanyOutreachManager._remove_duplicates`. */
  method RemoveDuplicates(companies: seq<CompanyInfo>) returns (unique: seq<CompanyInfo>)
    ensures unique == Dedup(companies, NameWebsiteKey, HasName, {})
  {
    unique := DedupLoop(companies, NameWebsiteKey, HasName);
  }

  function WebsiteKey(c: CompanyInfo): string
  {
    Lower(c.website)
  }

  predicate HasWebsite(c: CompanyInfo)
  {
    c.website != []
  }

  /** The de-duplication block of `BusinessDirectoryFinder.search_companies`. */
  method DedupByWebsite(companies: seq<CompanyInfo>) returns (unique: seq<CompanyInfo>)
    ensures unique == Dedup(companies, WebsiteKey, HasWebsite, {})
  {
    unique := DedupLoop(companies, WebsiteKey, HasWebsite);
  }

  /** What the two passes promise: order kept, only named (or only website-bearing) companies,
      one company per identifier, every identifier of the input represented, and the first
      company of each identifier kept. */
  lemma RemoveDuplicatesFaithful(companies: seq<CompanyInfo>, c: CompanyInfo, k: int)
    requires c in companies && HasName(c) && 0 <= k < |Dedup(companies, NameWebsiteKey, HasName, {})|
    ensures var r := Dedup(companies, NameWebsiteKey, HasName, {});
      && IsSubsequence(r, companies)
      && (forall y | y in r :: HasName(y))
      && (forall i, j | 0 <= i < j < |r| :: NameWebsiteKey(r[i]) != NameWebsiteKey(r[j]))
      && (exists y | y in r :: NameWebsiteKey(y) == NameWebsiteKey(c))
      && exists i :: 0 <= i < |companies| && companies[i] == r[k]
           && forall j | 0 <= j < i && HasName(companies[j]) :: NameWebsiteKey(companies[j]) != NameWebsiteKey(r[k])
  {
    DedupSound(companies, NameWebsiteKey, HasName, {});
    DedupComplete(companies, NameWebsiteKey, HasName, {}, c);
    DedupFirstWins(companies, NameWebsiteKey, HasName, {}, k);
  }

  lemma DedupByWebsiteFaithful(companies: seq<CompanyInfo>, c: CompanyInfo, k: int)
    requires c in companies && HasWebsite(c) && 0 <= k < |Dedup(companies, WebsiteKey, HasWebsite, {})|
    ensures var r := Dedup(companies, WebsiteKey, HasWebsite, {});
      && IsSubsequence(r, companies)
      && (forall y | y in r :: y.website != [])
      && (forall i, j | 0 <= i < j < |r| :: Lower(r[i].website) != Lower(r[j].website))
      && (exists y | y in r :: Lower(y.website) == Lower(c.website))
      && exists i :: 0 <= i < |companies| && companies[i] == r[k]
           && forall j | 0 <= j < i && HasWebsite(companies[j]) :: Lower(companies[j].website) != Lower(r[k].website)
  {
    DedupSound(companies, WebsiteKey, HasWebsite, {});
    DedupComplete(companies, WebsiteKey, HasWebsite, {}, c);
    DedupFirstWins(companies, WebsiteKey, HasWebsite, {}, k);
  }

  // ---------------------------------------------------------------------------------------
  // `BusinessDirectoryFinder.search_companies` on the directories' own records

  /** A record a business directory builds. Its `website` key is always there, holding a link
      or `None`: always `None` for BBB, and for Yelp, YellowPages and Clutch when the page
      shows no link. */
  datatype DirectoryRecord = DirectoryRecord(name: string, website: Option<string>, source: string)

  /** The record as a company, with a `None` website read as the empty string. */
  function AsCompany(d: DirectoryRecord): CompanyInfo
  {
    CompanyInfo(d.name, d.website.GetOr(""), "", d.source, None, None)
  }

  /** `search_companies` as written: `company.get('website', '').lower()` raises on a record
      whose website is `None`, which loses the whole batch; without one it is the pass keyed
      by the lower-cased website. */
  function SearchCompaniesAsWritten(records: seq<DirectoryRecord>): Outcome<seq<CompanyInfo>>
  {
    if exists d | d in records :: d.website.None? then Raised
    else Returned(Dedup(Mapped(records, AsCompany), WebsiteKey, HasWebsite, {}))
  }

  /** `search_companies` with a `None` website read as empty: that record alone is dropped. */
  function SearchCompanies(records: seq<DirectoryRecord>): seq<CompanyInfo>
  {
    Dedup(Mapped(records, AsCompany), WebsiteKey, HasWebsite, {})
  }

  /** The discrepancy: one record with a `None` website (any BBB record) makes the directory
      search raise, and `find_all_companies`, whose `try` catches it, then gathers nothing from
      any directory: the batch contributes exactly what it would if it were absent. */
  lemma NoneWebsiteLosesBatch(before: seq<Outcome<seq<CompanyInfo>>>, records: seq<DirectoryRecord>,
                              after: seq<Outcome<seq<CompanyInfo>>>, d: DirectoryRecord)
    requires d in records && d.website.None?
    ensures SearchCompaniesAsWritten(records) == Raised
    ensures Gathered(before + [SearchCompaniesAsWritten(records)] + after) == Gathered(before) + Gathered(after)
  {
    assert exists e | e in records :: e.website.None?;
    assert SearchCompaniesAsWritten(records) == Raised;
    var lost: seq<Outcome<seq<CompanyInfo>>> := [Raised];
    GatheredAppend(before + lost, after);
    GatheredAppend(before, lost);
    assert Gathered(lost) == Gathered(lost[1..]);
  }

  /** The corrected search keeps, in order, one company per lower-cased website, each built
      from a record with a link, and represents every record that has a link; a record with
      a `None` website is the only thing dropped. */
  lemma DirectoryBatchFaithful(records: seq<DirectoryRecord>, d: DirectoryRecord)
    requires d in records
    ensures var r := SearchCompanies(records);
      && (forall y | y in r :: y.website != [] && exists e | e in records :: y == AsCompany(e) && e.website == Some(y.website))
      && (forall i, j | 0 <= i < j < |r| :: Lower(r[i].website) != Lower(r[j].website))
      && (d.website.Some? && d.website.value != [] ==> exists y | y in r :: Lower(y.website) == Lower(d.website.value))
  {
    var xs := Mapped(records, AsCompany);
    MappedPointwise(records, AsCompany);
    DedupSound(xs, WebsiteKey, HasWebsite, {});
    var r := SearchCompanies(records);
    forall y | y in r
      ensures exists e | e in records :: y == AsCompany(e) && e.website == Some(y.website)
    {
      SubsequenceMembers(r, xs, y);
      var i :| 0 <= i < |xs| && xs[i] == y;
      assert records[i] in records && y == AsCompany(records[i]);
    }
    if d.website.Some? && d.website.value != [] {
      var i :| 0 <= i < |records| && records[i] == d;
      assert xs[i] == AsCompany(d) && xs[i] in xs;
      DedupComplete(xs, WebsiteKey, HasWebsite, {}, AsCompany(d));
    }
  }

  // ---------------------------------------------------------------------------------------
  // `extract_real_emails`

  /** What the extractor's collaborators answer for a site: Hunter.io's list (or a failure) for
      a site and company name, and the addresses found on the site's pages. */
  datatype Lookup = Lookup(hasHunterKey: bool, hunter: (string, string) -> Outcome<seq<string>>, scraped: string -> seq<string>)

  /** One company after enrichment: its addresses when it has a website, none otherwise. */
  function Enrich(c: CompanyInfo, lookup: Lookup): (r: CompanyInfo)
    ensures r.realEmails.Some? && r.emailCount == Some(|r.realEmails.value|)
  {
    var emails := if c.website != [] then
      ExtractEmails(lookup.hasHunterKey, c.website, c.name, lookup.hunter(c.website, c.name), lookup.scraped(c.website))
    else [];
    c.(realEmails := Some(emails), emailCount := Some(|emails|))
  }

  /** Enrichment changes only the address fields; a company without a website gets none, and
      the addresses it gets are distinct and each passes the address filter. */
  lemma EnrichFacts(c: CompanyInfo, lookup: Lookup)
    ensures var r := Enrich(c, lookup);
      && r.(realEmails := c.realEmails, emailCount := c.emailCount) == c
      && (c.website == [] ==> r.realEmails == Some([]))
      && NoDuplicates(r.realEmails.value) && forall e | e in r.realEmails.value :: IsRelevantEmail(e)
  {
  }

  /** What `extract_real_emails` hands back: every company, in order, enriched. */
  function EnrichAll(companies: seq<CompanyInfo>, lookup: Lookup): seq<CompanyInfo>
  {
    Mapped(companies, c => Enrich(c, lookup))
  }

  /** Every company comes back, in order, with only its address fields set: a list of
      distinct relevant addresses and its length, and no addresses without a website. */
  lemma EnrichAllFaithful(companies: seq<CompanyInfo>, lookup: Lookup)
    ensures var r := EnrichAll(companies, lookup);
      && |r| == |companies|
      && forall i | 0 <= i < |companies| ::
        && r[i].(realEmails := companies[i].realEmails, emailCount := companies[i].emailCount) == companies[i]
        && r[i].realEmails.Some? && r[i].emailCount == Some(|r[i].realEmails.value|)
        && (companies[i].website == [] ==> r[i].realEmails == Some([]))
        && NoDuplicates(r[i].realEmails.value)
  {
    MappedPointwise(companies, c => Enrich(c, lookup));
    forall i | 0 <= i < |companies| {
      EnrichFacts(companies[i], lookup);
    }
  }

  /** `CompanyOutreachManager.extract_real_emails`. */
  method ExtractRealEmails(companies: seq<CompanyInfo>, lookup: Lookup) returns (enriched: seq<CompanyInfo>)
    ensures enriched == EnrichAll(companies, lookup)
  {
    enriched := [];
    for i := 0 to |companies|
      invariant enriched == EnrichAll(companies[..i], lookup)
    {
      var r := EnrichCompany(companies[i], lookup);
      assert companies[..i + 1][..i] == companies[..i];
      enriched := enriched + [r];
    }
    assert companies[..|companies|] == companies;
  }

  /** The body of the loop of `extract_real_emails`: one company's addresses. */
  method EnrichCompany(c: CompanyInfo, lookup: Lookup) returns (r: CompanyInfo)
    ensures r == Enrich(c, lookup)
  {
    var emails: seq<string> := [];
    if c.website != [] {
      emails := ExtractEmails(lookup.hasHunterKey, c.website, c.name, lookup.hunter(c.website, c.name), lookup.scraped(c.website));
    }
    r := c.(realEmails := Some(emails), emailCount := Some(|emails|));
  }
}
