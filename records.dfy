/** The record shapes that flow through the pipeline: a job lead and a company as the
    scrapers produce them, and the same records once the lead store has admitted them. */
module Records {

  datatype Option<+T> = None | Some(value: T) {
    function GetOr(default: T): T
    {
      match this
      case Some(v) => v
      case None => default
    }
  }

  /** What a call into an external collaborator yields: its value, or an exception. */
  datatype Outcome<+T> = Raised | Returned(value: T)

  /** Wall-clock time in whole seconds (the value `datetime.now()` would give). */
  type Instant = int

  /** A calendar date as a day number (the value `datetime.now().date()` would give). */
  type Date = int

  /** A `created_at` field: either the ISO rendering of an instant, or a string taken verbatim
      from the source. */
  datatype Stamp = At(instant: Instant) | Verbatim(text: string)

  /** The only two values the `status` field ever takes. */
  datatype Status = New | Contacted

  /** `contacted_email` and `contacted_at`, which are always set together. */
  datatype Contact = Contact(email: string, at: Instant)

  /** A job lead as a scraper or the chat monitor builds it. */
  datatype LeadData = LeadData(
    platform: string,
    source: string,
    title: string,
    author: string,
    content: string,
    url: string,
    createdAt: Stamp)

  /** A lead after admission: the store adds `id`, `timestamp` and `status`, and marking it
      contacted adds `contacted_email` and `contacted_at`. */
  datatype StoredLead = StoredLead(
    id: int,
    data: LeadData,
    timestamp: Instant,
    status: Status,
    contact: Option<Contact>)

  /** A company as a finder builds it. `realEmails` and `emailCount` are absent until the
      email-extraction pass sets them; an absent website is the empty string. */
  datatype CompanyInfo = CompanyInfo(
    name: string,
    website: string,
    description: string,
    source: string,
    realEmails: Option<seq<string>>,
    emailCount: Option<nat>)

  /** A company after `add_company`. */
  datatype StoredCompany = StoredCompany(
    id: int,
    info: CompanyInfo,
    discoveredAt: Instant,
    status: Status,
    contact: Option<Contact>)

  /** The keyword list the bot is configured with when none is given. */
  const DefaultKeywords: seq<string> := [
    "backend developer", "backend engineer", "node.js", "typescript",
    "python developer", "api developer", "microservices", "rest api",
    "database", "aws", "docker", "kubernetes", "react developer",
    "full stack", "software engineer", "web developer", "remote"]

  /** The concatenation, in order, of the lists returned by the collaborators that did not raise. */
  function Gathered<T>(outs: seq<Outcome<seq<T>>>): seq<T>
    decreases |outs|
  {
    if outs == [] then []
    else (if outs[0].Returned? then outs[0].value else []) + Gathered(outs[1..])
  }

  /** Gathering distributes over concatenation of the collaborator list: a collaborator that
      raises contributes nothing and does not disturb the ones after it. */
  lemma {:induction false} GatheredAppend<T>(a: seq<Outcome<seq<T>>>, b: seq<Outcome<seq<T>>>)
    ensures Gathered(a + b) == Gathered(a) + Gathered(b)
    decreases |a|
  {
    if a == [] {
      assert a + b == b;
    } else {
      assert (a + b)[1..] == a[1..] + b;
      GatheredAppend(a[1..], b);
    }
  }

  /** Every gathered record comes from a collaborator that returned it, and every record
      a non-raising collaborator returned is gathered. */
  lemma {:induction false} GatheredMembers<T>(outs: seq<Outcome<seq<T>>>, x: T)
    ensures x in Gathered(outs) <==> exists k :: 0 <= k < |outs| && outs[k].Returned? && x in outs[k].value
    decreases |outs|
  {
    if outs != [] {
      GatheredMembers(outs[1..], x);
      if x in Gathered(outs[1..]) {
        var k :| 0 <= k < |outs[1..]| && outs[1..][k].Returned? && x in outs[1..][k].value;
        assert outs[k + 1] == outs[1..][k];
      }
      if exists k :: 0 <= k < |outs| && outs[k].Returned? && x in outs[k].value {
        var k :| 0 <= k < |outs| && outs[k].Returned? && x in outs[k].value;
        if k > 0 {
          assert outs[1..][k - 1] == outs[k];
        }
      }
    }
  }

  /** `a` can be obtained from `b` by deleting elements: `b`'s order is kept. */
  predicate IsSubsequence<T(==)>(a: seq<T>, b: seq<T>)
    decreases |b|
  {
    a == [] || (b != [] && if a[0] == b[0] then IsSubsequence(a[1..], b[1..]) else IsSubsequence(a, b[1..]))
  }

  /** `f` applied to every element, in order. */
  function Mapped<A, B>(xs: seq<A>, f: A -> B): seq<B>
    decreases |xs|
  {
    if xs == [] then [] else Mapped(xs[..|xs| - 1], f) + [f(xs[|xs| - 1])]
  }

  lemma {:induction false} MappedPointwise<A, B>(xs: seq<A>, f: A -> B)
    ensures |Mapped(xs, f)| == |xs|
    ensures forall i | 0 <= i < |xs| :: Mapped(xs, f)[i] == f(xs[i])
    decreases |xs|
  {
    if xs != [] {
      MappedPointwise(xs[..|xs| - 1], f);
    }
  }

  /** The elements of `xs` that satisfy `keep`, in order. */
  function Filtered<T>(xs: seq<T>, keep: T -> bool): seq<T>
    decreases |xs|
  {
    if xs == [] then []
    else Filtered(xs[..|xs| - 1], keep) + (if keep(xs[|xs| - 1]) then [xs[|xs| - 1]] else [])
  }

  lemma {:induction false} FilteredMembers<T>(xs: seq<T>, keep: T -> bool)
    ensures forall x :: x in Filtered(xs, keep) <==> x in xs && keep(x)
    decreases |xs|
  {
    if xs != [] {
      FilteredMembers(xs[..|xs| - 1], keep);
      assert xs == xs[..|xs| - 1] + [xs[|xs| - 1]];
    }
  }
}
