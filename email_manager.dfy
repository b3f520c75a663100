/** The sender (`EmailSender`): a daily send quota that resets lazily on the first check of a
    new day, the bookkeeping of every SMTP attempt, and the "try each address until one is
    accepted" loops. The SMTP exchange itself is a parameter: a script of the server's answers,
    one per attempt in the order the attempts are made. */
module EmailManager {
  import opened Records

  /** The default argument of `can_send_email`, and so the quota `send_email` enforces. */
  const DefaultDailyLimit: int := 25

  datatype AttemptStatus = Success | Failed

  /** The `context` recorded with an attempt (`context or {}` when none is given). */
  datatype Context = NoContext | JobApplication(job: StoredLead) | CompanyOutreach(company: StoredCompany)

  /** One entry of `stats['attempts']`; `error` is present only on a failed attempt. */
  datatype Attempt = Attempt(email: string, status: AttemptStatus, error: Option<string>, timestamp: Instant, context: Context)

  /** What the SMTP exchange yields: accepted, or an exception with its message. */
  datatype Delivery = Delivered | Rejected(reason: string)

  /** The SMTP server's answers, the n-th to the n-th attempt overall (the address of that
      attempt is fixed by the run, so the script can answer per address too). */
  datatype Channel = Script(answers: seq<Delivery>)

  /** The answer to the n-th attempt; an attempt past the end of the script finds the server
      unreachable. */
  function Answer(channel: Channel, n: nat): Delivery
  {
    if n < |channel.answers| then channel.answers[n] else Rejected("unreachable")
  }

  /** `self.stats`. */
  datatype SenderState = SenderState(sent: nat, failed: nat, dailyCount: nat, lastReset: Date, attempts: seq<Attempt>)

  /** The counters a fresh sender starts with on day `today`. */
  function FreshSender(today: Date): SenderState
  {
    SenderState(0, 0, 0, today, [])
  }

  /** `reset_daily_count`: only a new day zeroes the counter and moves `last_reset`. */
  function ResetDaily(s: SenderState, today: Date): SenderState
  {
    if today != s.lastReset then s.(dailyCount := 0, lastReset := today) else s
  }

  /** `send_email`: refused without any bookkeeping once the day's quota is used up; otherwise
      an accepted message counts as sent and uses one unit of quota, and a rejected one counts
      as failed and uses none. Either way exactly one attempt is recorded. */
  function SendOnce(s: SenderState, to: string, ctx: Context, today: Date, now: Instant, answer: Delivery): (SenderState, bool)
  {
    var s1 := ResetDaily(s, today);
    if !(s1.dailyCount < DefaultDailyLimit) then (s1, false)
    else match answer
      case Delivered =>
        (s1.(sent := s1.sent + 1, dailyCount := s1.dailyCount + 1,
             attempts := s1.attempts + [Attempt(to, Success, None, now, ctx)]), true)
      case Rejected(reason) =>
        (s1.(failed := s1.failed + 1,
             attempts := s1.attempts + [Attempt(to, Failed, Some(reason), now, ctx)]), false)
  }

  /** The loop of `send_job_application` and `send_company_outreach`: send to each address in
      turn and stop at the first one accepted. */
  function TryEach(s: SenderState, emails: seq<string>, ctx: Context, today: Date, now: Instant, channel: Channel): (SenderState, bool)
    decreases |emails|
  {
    if emails == [] then (s, false)
    else
      var (s1, ok) := SendOnce(s, emails[0], ctx, today, now, Answer(channel, |s.attempts|));
      if ok then (s1, true) else TryEach(s1, emails[1..], ctx, today, now, channel)
  }

  function CountAttempts(attempts: seq<Attempt>, st: AttemptStatus): nat
    decreases |attempts|
  {
    if attempts == [] then 0
    else CountAttempts(attempts[..|attempts| - 1], st) + (if attempts[|attempts| - 1].status == st then 1 else 0)
  }

  /** The counters agree with the attempt log: `sent` counts its successes and `failed` its failures. */
  predicate Tallied(s: SenderState)
  {
    s.sent == CountAttempts(s.attempts, Success) && s.failed == CountAttempts(s.attempts, Failed)
  }

  /** Python's slice `xs[-10:]`: the last ten attempts, or all of them when there are fewer. */
  function Recent(attempts: seq<Attempt>): (r: seq<Attempt>)
    ensures |r| == if |attempts| < 10 then |attempts| else 10
    ensures attempts == attempts[..|attempts| - |r|] + r
  {
    if |attempts| < 10 then attempts else attempts[|attempts| - 10..]
  }

  // ---------------------------------------------------------------------------------------
  // Lemmas about the quota and the attempt log

  /** Every attempt is a success or a failure, so a tallied log has `sent + failed` entries. */
  lemma {:induction false} TalliedBalances(s: SenderState)
    requires Tallied(s)
    ensures s.sent + s.failed == |s.attempts|
  {
    CountsCover(s.attempts);
  }

  lemma {:induction false} CountsCover(attempts: seq<Attempt>)
    ensures CountAttempts(attempts, Success) + CountAttempts(attempts, Failed) == |attempts|
    decreases |attempts|
  {
    if attempts != [] {
      CountsCover(attempts[..|attempts| - 1]);
    }
  }

  /** A fresh sender is tallied and within quota. */
  lemma FreshSenderTallied(today: Date)
    ensures Tallied(FreshSender(today)) && FreshSender(today).dailyCount <= DefaultDailyLimit
  {
  }

  /** Once the day's quota is used up, `send_email` changes nothing at all and reports failure. */
  lemma BlockedSendChangesNothing(s: SenderState, to: string, ctx: Context, today: Date, now: Instant, answer: Delivery)
    requires !(ResetDaily(s, today).dailyCount < DefaultDailyLimit)
    ensures SendOnce(s, to, ctx, today, now, answer) == (s, false)
  {
  }

  /** A permitted send records exactly one attempt with the answer's status; a success
      increments `sent` and the daily counter by one, a failure increments `failed` only. */
  lemma SendOnceEffect(s: SenderState, to: string, ctx: Context, today: Date, now: Instant, answer: Delivery)
    requires ResetDaily(s, today).dailyCount < DefaultDailyLimit
    ensures var (s', ok) := SendOnce(s, to, ctx, today, now, answer);
      var before := ResetDaily(s, today);
      && ok == answer.Delivered?
      && s'.lastReset == today
      && |s'.attempts| == |s.attempts| + 1 && s'.attempts[..|s.attempts|] == s.attempts
      && s'.attempts[|s.attempts|].email == to
      && s'.attempts[|s.attempts|].status == (if ok then Success else Failed)
      && s'.sent == s.sent + (if ok then 1 else 0)
      && s'.failed == s.failed + (if ok then 0 else 1)
      && s'.dailyCount == before.dailyCount + (if ok then 1 else 0)
  {
    var (s', ok) := SendOnce(s, to, ctx, today, now, answer);
    assert s'.attempts[..|s.attempts|] == s.attempts;
  }

  /** `send_email` keeps the counters in agreement with the attempt log. */
  lemma SendOnceTallied(s: SenderState, to: string, ctx: Context, today: Date, now: Instant, answer: Delivery)
    requires Tallied(s)
    ensures Tallied(SendOnce(s, to, ctx, today, now, answer).0)
  {
    var s' := SendOnce(s, to, ctx, today, now, answer).0;
    if |s'.attempts| != |s.attempts| {
      assert s'.attempts[..|s'.attempts| - 1] == s.attempts;
    }
  }

  /** The daily counter never passes the quota: it grows only after the `< limit` check passes. */
  lemma SendOnceWithinQuota(s: SenderState, to: string, ctx: Context, today: Date, now: Instant, answer: Delivery)
    requires s.dailyCount <= DefaultDailyLimit
    ensures SendOnce(s, to, ctx, today, now, answer).0.dailyCount <= DefaultDailyLimit
  {
  }

  /** On the day the counter was last reset, permitted sends add their successes to it. */
  lemma SameDaySendCounts(s: SenderState, to: string, ctx: Context, now: Instant, answer: Delivery)
    requires s.dailyCount < DefaultDailyLimit
    ensures var (s', ok) := SendOnce(s, to, ctx, s.lastReset, now, answer);
      s'.dailyCount == s.dailyCount + (if ok then 1 else 0) && s'.lastReset == s.lastReset
  {
  }

  /** The first check on a new day finds the counter at zero, whatever it was. */
  lemma NewDayResets(s: SenderState, today: Date)
    requires today != s.lastReset
    ensures ResetDaily(s, today).dailyCount == 0 && ResetDaily(s, today).lastReset == today
    ensures ResetDaily(s, today).dailyCount < DefaultDailyLimit
  {
  }

  /** When the quota is used up, trying a list of addresses changes nothing and fails. */
  lemma {:induction false} BlockedTryEach(s: SenderState, emails: seq<string>, ctx: Context, today: Date, now: Instant, channel: Channel)
    requires !(ResetDaily(s, today).dailyCount < DefaultDailyLimit)
    ensures TryEach(s, emails, ctx, today, now, channel) == (s, false)
    decreases |emails|
  {
    if emails != [] {
      BlockedTryEach(s, emails[1..], ctx, today, now, channel);
    }
  }

  /** Trying a list of addresses: the new attempts are for the first addresses of the list, in
      order, at most one per address; the result is true exactly when one of them succeeded,
      and then it is the last one and all before it failed. */
  lemma {:induction false} TryEachEffect(s: SenderState, emails: seq<string>, ctx: Context, today: Date, now: Instant, channel: Channel)
    ensures var (s', ok) := TryEach(s, emails, ctx, today, now, channel);
      && |s.attempts| <= |s'.attempts| <= |s.attempts| + |emails|
      && s'.attempts[..|s.attempts|] == s.attempts
      && s'.sent == s.sent + (if ok then 1 else 0)
      && var added := s'.attempts[|s.attempts|..];
      && (forall k :: 0 <= k < |added| ==> added[k].email == emails[k])
      && (forall k :: 0 <= k < |added| ==> (added[k].status == Success <==> ok && k == |added| - 1))
      && (ok ==> |added| > 0)
    decreases |emails|
  {
    if emails != [] {
      var s0 := ResetDaily(s, today);
      if !(s0.dailyCount < DefaultDailyLimit) {
        BlockedTryEach(s, emails, ctx, today, now, channel);
      } else {
        var answer := Answer(channel, |s.attempts|);
        SendOnceEffect(s, emails[0], ctx, today, now, answer);
        var (s1, ok1) := SendOnce(s, emails[0], ctx, today, now, answer);
        if !ok1 {
          TryEachEffect(s1, emails[1..], ctx, today, now, channel);
          var (s', ok) := TryEach(s1, emails[1..], ctx, today, now, channel);
          var added := s'.attempts[|s.attempts|..];
          var added1 := s'.attempts[|s1.attempts|..];
          assert added == [s1.attempts[|s.attempts|]] + added1;
          assert s'.attempts[..|s.attempts|] == s1.attempts[..|s1.attempts|][..|s.attempts|];
        }
      }
    }
  }

  /** With the quota open, no address is skipped: when none accepts, every address of the list
      gets one failed attempt, since a failed send uses no quota and the next check passes too. */
  lemma {:induction false} TryEachTriesAll(s: SenderState, emails: seq<string>, ctx: Context, today: Date, now: Instant, channel: Channel)
    requires ResetDaily(s, today).dailyCount < DefaultDailyLimit
    ensures var (s', ok) := TryEach(s, emails, ctx, today, now, channel);
      !ok ==> |s'.attempts| == |s.attempts| + |emails|
    decreases |emails|
  {
    if emails != [] {
      var answer := Answer(channel, |s.attempts|);
      SendOnceEffect(s, emails[0], ctx, today, now, answer);
      var (s1, ok1) := SendOnce(s, emails[0], ctx, today, now, answer);
      if !ok1 {
        assert ResetDaily(s1, today) == s1;
        TryEachTriesAll(s1, emails[1..], ctx, today, now, channel);
      }
    }
  }

  /** Trying a list of addresses keeps the counters tallied and the daily counter within quota. */
  lemma {:induction false} TryEachKeepsInvariants(s: SenderState, emails: seq<string>, ctx: Context, today: Date, now: Instant, channel: Channel)
    requires Tallied(s) && s.dailyCount <= DefaultDailyLimit
    ensures Tallied(TryEach(s, emails, ctx, today, now, channel).0)
    ensures TryEach(s, emails, ctx, today, now, channel).0.dailyCount <= DefaultDailyLimit
    decreases |emails|
  {
    if emails != [] {
      var answer := Answer(channel, |s.attempts|);
      SendOnceTallied(s, emails[0], ctx, today, now, answer);
      var (s1, ok1) := SendOnce(s, emails[0], ctx, today, now, answer);
      if !ok1 {
        TryEachKeepsInvariants(s1, emails[1..], ctx, today, now, channel);
      }
    }
  }

  datatype EmailStatistics = EmailStatistics(emailsSent: nat, emailsFailed: nat, dailyCount: nat, recentAttempts: seq<Attempt>)

  // ---------------------------------------------------------------------------------------

  /** `EmailSender`. `saved` stands for the `email_stats.json` file. */
  class EmailSender {
    var sent: nat
    var failed: nat
    var dailyCount: nat
    var lastReset: Date
    var attempts: seq<Attempt>
    var saved: Option<SenderState>

    function State(): SenderState
      reads this
    {
      SenderState(sent, failed, dailyCount, lastReset, attempts)
    }

    constructor (today: Date)
      ensures State() == FreshSender(today) && saved == None
    {
      sent, failed, dailyCount, lastReset, attempts := 0, 0, 0, today, [];
      saved := None;
    }

    /** `reset_daily_count`. */
    method ResetDailyCount(today: Date)
      modifies this
      ensures State() == ResetDaily(old(State()), today)
      ensures saved == old(saved)
    {
      if today != lastReset {
        dailyCount := 0;
        lastReset := today;
      }
    }

    /** `can_send_email`: applies the reset, then compares the counter with the limit. */
    method CanSendEmail(today: Date, limit: int := DefaultDailyLimit) returns (ok: bool)
      modifies this
      ensures State() == ResetDaily(old(State()), today)
      ensures ok <==> dailyCount < limit
      ensures saved == old(saved)
    {
      ResetDailyCount(today);
      ok := dailyCount < limit;
    }

    /** `send_email`, with the SMTP exchange answered by `channel`. */
    method SendEmail(to: string, ctx: Context, today: Date, now: Instant, channel: Channel) returns (ok: bool)
      modifies this
      ensures (State(), ok) == SendOnce(old(State()), to, ctx, today, now, Answer(channel, |old(attempts)|))
      ensures saved == old(saved)
    {
      var answer := Answer(channel, |attempts|);
      var permitted := CanSendEmail(today);
      if !permitted {
        return false;
      }
      match answer {
        case Delivered =>
          sent := sent + 1;
          dailyCount := dailyCount + 1;
          attempts := attempts + [Attempt(to, Success, None, now, ctx)];
          ok := true;
        case Rejected(reason) =>
          failed := failed + 1;
          attempts := attempts + [Attempt(to, Failed, Some(reason), now, ctx)];
          ok := false;
      }
    }

    /** The loop shared by `send_job_application` and `send_company_outreach`. */
    method SendToFirstAccepting(emails: seq<string>, ctx: Context, today: Date, now: Instant, channel: Channel) returns (ok: bool)
      modifies this
      ensures (State(), ok) == TryEach(old(State()), emails, ctx, today, now, channel)
      ensures saved == old(saved)
    {
      var i := 0;
      while i < |emails|
        invariant 0 <= i <= |emails| && saved == old(saved)
        invariant TryEach(old(State()), emails, ctx, today, now, channel) == TryEach(State(), emails[i..], ctx, today, now, channel)
      {
        assert emails[i..][1..] == emails[i + 1..];
        var accepted := SendEmail(emails[i], ctx, today, now, channel);
        if accepted {
          return true;
        }
        i := i + 1;
      }
      return false;
    }

    /** `send_job_application`. */
    method SendJobApplication(job: StoredLead, emails: seq<string>, today: Date, now: Instant, channel: Channel) returns (ok: bool)
      modifies this
      ensures (State(), ok) == TryEach(old(State()), emails, JobApplication(job), today, now, channel)
      ensures saved == old(saved)
    {
      ok := SendToFirstAccepting(emails, JobApplication(job), today, now, channel);
    }

    /** `send_company_outreach`. */
    method SendCompanyOutreach(company: StoredCompany, emails: seq<string>, today: Date, now: Instant, channel: Channel) returns (ok: bool)
      modifies this
      ensures (State(), ok) == TryEach(old(State()), emails, CompanyOutreach(company), today, now, channel)
      ensures saved == old(saved)
    {
      ok := SendToFirstAccepting(emails, CompanyOutreach(company), today, now, channel);
    }

    /** `get_statistics`, without the floating-point success rate. */
    function GetStatistics(): (r: EmailStatistics)
      reads this
      ensures r.emailsSent == sent && r.emailsFailed == failed && r.dailyCount == dailyCount
      ensures |r.recentAttempts| == if |attempts| < 10 then |attempts| else 10
      ensures attempts == attempts[..|attempts| - |r.recentAttempts|] + r.recentAttempts
    {
      EmailStatistics(sent, failed, dailyCount, Recent(attempts))
    }

    /** `save_stats`. */
    method SaveStats()
      modifies this`saved
      ensures saved == Some(State())
    {
      saved := Some(State());
    }

    /** `load_stats`: a missing file leaves the counters as they are. */
    method LoadStats(file: Option<SenderState>)
      modifies this
      ensures State() == if file.Some? then file.value else old(State())
      ensures saved == old(saved)
    {
      if file.Some? {
        sent, failed, dailyCount, lastReset, attempts :=
          file.value.sent, file.value.failed, file.value.dailyCount, file.value.lastReset, file.value.attempts;
      }
    }
  }
}
