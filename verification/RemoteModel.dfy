/** The governed model gateway: classification, redaction, size cap, token budget
    and rate limit. Every request that reached a backend is kept in a history with
    what came of it, and the bounds are proved of every history the gateway can
    produce, whatever the clock does. */
module RemoteModel {
  import opened Wrappers

  datatype Classification = Public | Internal | Sensitive | Restricted | Secret

  datatype Budget = Budget(dailyTokens: int, ratePerMinute: int, promptCap: int)

  const DEFAULT_BUDGET := Budget(500000, 10, 32000)

  /** Clocks tick in microseconds. */
  const MINUTE := 60000000

  /** The replies are what the two backends would answer; None for a raised error. */
  datatype Request = Request(
    prompt: string, classification: Classification, now: int, preferRemote: bool,
    localReply: Option<string>, remoteReply: Option<string>)

  datatype Alert = NoAlert | BudgetWarn | BudgetDegrade

  datatype ModelError = SecretNeverSent | RestrictedDenied | PromptTooLarge | ZeroBudget | BackendFailed

  /** A request that reached a backend: the text it sent, and the reply unless the
      backend failed. */
  datatype Exchange = Exchange(
    request: Request, remote: bool, degraded: bool, redacted: bool, alert: Alert, text: string,
    tokens: nat, reply: Option<string>)

  /** What is recorded of a served call if an audit sink is configured. */
  datatype CallRecord = CallRecord(
    classification: Classification, remote: bool, redacted: bool, degraded: bool, alert: Alert,
    tokens: nat)

  datatype Settings = Settings(
    budget: Budget, hasRemote: bool, audited: bool, redact: string -> string)

  /** Four characters a token, rounded down, but at least one token. */
  function EstimateTokens(text: string): (n: nat)
    ensures n >= 1 && |text| <= 4 * n + 3 && (n > 1 ==> 4 * n <= |text|)
  {
    if |text| / 4 < 1 then 1 else |text| / 4
  }

  /** The tokens of the calls that were served. */
  function TokensUsed(h: seq<Exchange>): nat {
    if h == [] then 0
    else
      var last := h[|h| - 1];
      TokensUsed(h[..|h| - 1]) + if last.reply.Some? then last.tokens else 0
  }

  function RequestTimes(h: seq<Exchange>): seq<int> {
    if h == [] then []
    else
      var last := h[|h| - 1];
      RequestTimes(h[..|h| - 1]) + if last.reply.Some? then [last.request.now] else []
  }

  function AuditOf(c: Settings, h: seq<Exchange>): seq<CallRecord> {
    if h == [] then []
    else
      var last := h[|h| - 1];
      AuditOf(c, h[..|h| - 1])
        + if c.audited && last.reply.Some? then [RecordOf(last)] else []
  }

  function RecordOf(x: Exchange): CallRecord {
    CallRecord(x.request.classification, x.remote, x.redacted, x.degraded, x.alert, x.tokens)
  }

  /** How many of the times lie at or after `start`. */
  function CountSince(ts: seq<int>, start: int): nat {
    if ts == [] then 0
    else CountSince(ts[..|ts| - 1], start) + if ts[|ts| - 1] >= start then 1 else 0
  }

  function TextSent(c: Settings, r: Request): string {
    if r.classification == Sensitive then c.redact(r.prompt) else r.prompt
  }

  predicate OverLimit(c: Settings, used: nat, times: seq<int>, now: int, estimate: nat) {
    || CountSince(times, now - MINUTE) >= c.budget.ratePerMinute
    || used + estimate > c.budget.dailyTokens
  }

  function AlertFor(projected: int, budget: int): Alert
    requires budget != 0
  {
    var ratio := projected as real / budget as real;
    if ratio >= 1.0 then BudgetDegrade
    else if ratio >= 0.8 then BudgetWarn
    else NoAlert
  }

  /** What becomes of a request after the exchanges so far: refused before anything is
      sent, or an exchange with a backend. */
  function Answer(c: Settings, h: seq<Exchange>, r: Request): Result<Exchange, ModelError> {
    var text := TextSent(c, r);
    var estimate := EstimateTokens(text);
    var wanted := r.preferRemote && c.hasRemote;
    var degraded := wanted && OverLimit(c, TokensUsed(h), RequestTimes(h), r.now, estimate);
    if r.classification == Secret then Failure(SecretNeverSent)
    else if r.classification == Restricted then Failure(RestrictedDenied)
    else if |text| > c.budget.promptCap then Failure(PromptTooLarge)
    else if c.budget.dailyTokens == 0 then Failure(ZeroBudget)
    else
      var remote := wanted && !degraded;
      Success(Exchange(r, remote, degraded, r.classification == Sensitive,
                       AlertFor(TokensUsed(h) + estimate, c.budget.dailyTokens), text, estimate,
                       if remote then r.remoteReply else r.localReply))
  }

  /** Every exchange of the history is what had to become of its request after those
      before it. */
  ghost predicate Lawful(c: Settings, h: seq<Exchange>) {
    forall i {:trigger Follows(c, h[..i], h[i])} | 0 <= i < |h| :: Follows(c, h[..i], h[i])
  }

  ghost predicate Follows(c: Settings, h: seq<Exchange>, x: Exchange) {
    Answer(c, h, x.request) == Success(x)
  }

  // -------------------------------------------------------------------- gateway

  class RemoteModelGateway {
    const settings: Settings
    var tokensUsed: nat
    var requestTimes: seq<int>
    var audit: seq<CallRecord>
    ghost var history: seq<Exchange>

    ghost predicate Valid()
      reads this
    {
      && Lawful(settings, history)
      && tokensUsed == TokensUsed(history) && requestTimes == RequestTimes(history)
      && audit == AuditOf(settings, history)
    }

    constructor (settings: Settings)
      ensures Valid() && this.settings == settings && history == []
    {
      this.settings := settings;
      tokensUsed, requestTimes, audit, history := 0, [], [], [];
    }

    /** A refused call sends nothing and changes nothing. Every other call is one
        exchange with the backend it had to go to; a backend that fails raises, and
        the call counts for nothing. */
    method Call(r: Request) returns (answer: Result<Exchange, ModelError>)
      requires Valid()
      modifies this
      ensures Valid()
      ensures match Answer(settings, old(history), r)
        case Failure(e) => answer == Failure(e) && history == old(history)
        case Success(x) =>
          && history == old(history) + [x]
          && answer == (if x.reply.Some? then Success(x) else Failure(BackendFailed))
    {
      hide CountSince, TokensUsed, RequestTimes, AuditOf, AlertFor, EstimateTokens, Lawful, OverLimit;
      if r.classification == Secret {
        return Failure(SecretNeverSent);
      }
      if r.classification == Restricted {
        return Failure(RestrictedDenied);
      }
      var text, redacted := r.prompt, false;
      if r.classification == Sensitive {
        text := settings.redact(r.prompt);
        redacted := true;
      }
      if |text| > settings.budget.promptCap {
        return Failure(PromptTooLarge);
      }
      var estimate := EstimateTokens(text);
      var useRemote, degraded := r.preferRemote && settings.hasRemote, false;
      if useRemote {
        var limited := RateExceeded(r.now);
        LimitIs(estimate, r.now);
        if limited || tokensUsed + estimate > settings.budget.dailyTokens {
          useRemote, degraded := false, true;
        }
      }
      if settings.budget.dailyTokens == 0 {
        return Failure(ZeroBudget);
      }
      var alert := AlertFor(tokensUsed + estimate, settings.budget.dailyTokens);
      var reply := if useRemote then r.remoteReply else r.localReply;
      var x := Exchange(r, useRemote, degraded, redacted, alert, text, estimate, reply);
      LawfulMore(settings, history, x);
      HistoryMore(settings, history, x);
      history := history + [x];
      if reply.None? {
        return Failure(BackendFailed);
      }
      tokensUsed := tokensUsed + estimate;
      requestTimes := requestTimes + [r.now];
      if settings.audited {
        audit := audit + [CallRecord(r.classification, useRemote, redacted, degraded, alert, estimate)];
      }
      return Success(x);
    }

    lemma LimitIs(estimate: nat, now: int)
      requires Valid()
      ensures OverLimit(settings, TokensUsed(history), RequestTimes(history), now, estimate)
         <==> || CountSince(requestTimes, now - MINUTE) >= settings.budget.ratePerMinute
              || tokensUsed + estimate > settings.budget.dailyTokens
    {
    }

    method RateExceeded(now: int) returns (b: bool)
      ensures b <==> CountSince(requestTimes, now - MINUTE) >= settings.budget.ratePerMinute
    {
      var recent := 0;
      for i := 0 to |requestTimes|
        invariant recent == CountSince(requestTimes[..i], now - MINUTE)
      {
        assert requestTimes[..i + 1][..i] == requestTimes[..i];
        if requestTimes[i] >= now - MINUTE {
          recent := recent + 1;
        }
      }
      assert requestTimes[..|requestTimes|] == requestTimes;
      return recent >= settings.budget.ratePerMinute;
    }
  }

  lemma LawfulMore(c: Settings, h: seq<Exchange>, x: Exchange)
    requires Lawful(c, h) && Follows(c, h, x)
    ensures Lawful(c, h + [x])
  {
    hide Follows;
    forall i | 0 <= i <= |h| ensures Follows(c, (h + [x])[..i], (h + [x])[i]) {
      assert (h + [x])[..i] == h[..i];
      if i == |h| {
        assert h[..i] == h;
      } else {
        assert Follows(c, h[..i], h[i]);
      }
    }
  }

  lemma HistoryMore(c: Settings, h: seq<Exchange>, x: Exchange)
    ensures TokensUsed(h + [x]) == TokensUsed(h) + if x.reply.Some? then x.tokens else 0
    ensures RequestTimes(h + [x])
         == RequestTimes(h) + if x.reply.Some? then [x.request.now] else []
    ensures AuditOf(c, h + [x])
         == AuditOf(c, h) + if c.audited && x.reply.Some? then [RecordOf(x)] else []
  {
    assert (h + [x])[..|h|] == h;
  }

  lemma LawfulAt(c: Settings, h: seq<Exchange>, n: nat)
    requires Lawful(c, h) && n < |h|
    ensures Follows(c, h[..n], h[n])
  {
  }

  lemma LawfulPrefix(c: Settings, h: seq<Exchange>)
    requires Lawful(c, h) && h != []
    ensures Lawful(c, h[..|h| - 1]) && Follows(c, h[..|h| - 1], h[|h| - 1])
  {
    hide Follows;
    var front := h[..|h| - 1];
    LawfulAt(c, h, |h| - 1);
    forall i | 0 <= i < |front| ensures Follows(c, front[..i], front[i]) {
      assert front[..i] == h[..i];
      LawfulAt(c, h, i);
    }
  }

  // ----------------------------------------------------------------- governance

  /** What any request that reached a backend was, and what it sent: in no history is
      it secret or restricted, sensitive text is the redactor's output and all other
      text the prompt, nothing is over the cap, and nothing goes to the remote backend
      unasked. */
  lemma OnlyGovernedTextIsSent(c: Settings, h: seq<Exchange>, i: nat)
    requires Lawful(c, h) && i < |h|
    ensures
      var x := h[i];
      var r := x.request;
      && r.classification in {Public, Internal, Sensitive}
      && x.text == (if r.classification == Sensitive then c.redact(r.prompt) else r.prompt)
      && (x.redacted <==> r.classification == Sensitive)
      && |x.text| <= c.budget.promptCap
      && (x.remote ==> r.preferRemote && c.hasRemote)
      && x.reply == (if x.remote then r.remoteReply else r.localReply)
  {
    hide Lawful;
    LawfulAt(c, h, i);
  }

  /** Which requests are refused before anything is sent, and why: the first reason in
      this order. */
  lemma RefusedExactly(c: Settings, h: seq<Exchange>, r: Request)
    ensures
      var text := if r.classification == Sensitive then c.redact(r.prompt) else r.prompt;
      var error := if r.classification == Secret then Some(SecretNeverSent)
                   else if r.classification == Restricted then Some(RestrictedDenied)
                   else if |text| > c.budget.promptCap then Some(PromptTooLarge)
                   else if c.budget.dailyTokens == 0 then Some(ZeroBudget)
                   else None;
      if error.Some? then Answer(c, h, r) == Failure(error.value) else Answer(c, h, r).Success?
  {
  }

  function TokensAudited(rs: seq<CallRecord>): nat {
    if rs == [] then 0 else TokensAudited(rs[..|rs| - 1]) + rs[|rs| - 1].tokens
  }

  function RemoteTokensAudited(rs: seq<CallRecord>): nat {
    if rs == [] then 0
    else
      RemoteTokensAudited(rs[..|rs| - 1]) + if rs[|rs| - 1].remote then rs[|rs| - 1].tokens else 0
  }

  /** The books balance: with an audit sink the records add up to the tokens used, in
      all and remotely, one record to each call that counts for the rate; none is of
      secret or restricted data, and those of sensitive data are marked as redacted. */
  lemma {:induction false} AuditAddsUp(c: Settings, h: seq<Exchange>)
    requires Lawful(c, h) && c.audited
    ensures
      var rs := AuditOf(c, h);
      && TokensAudited(rs) == TokensUsed(h) && RemoteTokensAudited(rs) == RemoteTokens(h)
      && |rs| == |RequestTimes(h)|
      && forall r | r in rs ::
           && r.classification in {Public, Internal, Sensitive}
           && (r.redacted <==> r.classification == Sensitive)
  {
    hide Lawful, TokensAudited, RemoteTokensAudited, Follows;
    if h == [] {
      NothingAudited();
    } else {
      var front, last := h[..|h| - 1], h[|h| - 1];
      LawfulPrefix(c, h);
      AuditAddsUp(c, front);
      OnlyGovernedTextIsSent(c, h, |h| - 1);
      TimesAfter(h);
      AuditedMore(AuditOf(c, front), RecordOf(last));
      assert AuditOf(c, front) + [] == AuditOf(c, front);
    }
  }

  lemma NothingAudited()
    ensures TokensAudited([]) == RemoteTokensAudited([]) == 0
  {
  }

  lemma AuditedMore(rs: seq<CallRecord>, r: CallRecord)
    ensures TokensAudited(rs + [r]) == TokensAudited(rs) + r.tokens
    ensures RemoteTokensAudited(rs + [r])
         == RemoteTokensAudited(rs) + if r.remote then r.tokens else 0
  {
    assert (rs + [r])[..|rs|] == rs;
  }

  // --------------------------------------------------------------------- bounds

  predicate InWindow(x: Exchange, from: int) {
    from <= x.request.now <= from + 60000000
  }

  /** The calls served by the remote backend in the closed minute from `from`, clocks
      ticking in microseconds. */
  function ServedInWindow(h: seq<Exchange>, from: int): nat {
    if h == [] then 0
    else
      var last := h[|h| - 1];
      ServedInWindow(h[..|h| - 1], from)
        + if last.remote && last.reply.Some? && InWindow(last, from) then 1 else 0
  }

  /** The requests the remote backend failed on in it. */
  function FailedInWindow(h: seq<Exchange>, from: int): nat {
    if h == [] then 0
    else
      var last := h[|h| - 1];
      FailedInWindow(h[..|h| - 1], from)
        + if last.remote && last.reply.None? && InWindow(last, from) then 1 else 0
  }

  /** All requests sent to the remote backend in it. */
  function SentInWindow(h: seq<Exchange>, from: int): nat {
    if h == [] then 0
    else
      var last := h[|h| - 1];
      SentInWindow(h[..|h| - 1], from) + if last.remote && InWindow(last, from) then 1 else 0
  }

  function RemoteTokens(h: seq<Exchange>): nat {
    if h == [] then 0
    else
      var last := h[|h| - 1];
      RemoteTokens(h[..|h| - 1]) + if last.remote && last.reply.Some? then last.tokens else 0
  }

  function AtLeastZero(n: int): nat {
    if n < 0 then 0 else n
  }

  lemma CountMore(ts: seq<int>, t: int, start: int)
    ensures CountSince(ts + [t], start) == CountSince(ts, start) + if t >= start then 1 else 0
  {
    assert (ts + [t])[..|ts|] == ts;
  }

  lemma {:induction false} WindowIsRecent(h: seq<Exchange>, from: int, start: int)
    requires start <= from
    ensures ServedInWindow(h, from) <= CountSince(RequestTimes(h), start)
  {
    hide CountSince, RequestTimes;
    if h != [] {
      var front, last := h[..|h| - 1], h[|h| - 1];
      WindowIsRecent(front, from, start);
      TimesAfter(h);
      CountMore(RequestTimes(front), last.request.now, start);
    }
  }

  lemma TimesAfter(h: seq<Exchange>)
    requires h != []
    ensures
      var front, last := h[..|h| - 1], h[|h| - 1];
      RequestTimes(h) == if last.reply.Some? then RequestTimes(front) + [last.request.now] else RequestTimes(front)
  {
  }

  lemma RemoteAnswer(c: Settings, h: seq<Exchange>, x: Exchange)
    requires Follows(c, h, x) && x.remote
    ensures CountSince(RequestTimes(h), x.request.now - MINUTE) < c.budget.ratePerMinute
    ensures TokensUsed(h) + x.tokens <= c.budget.dailyTokens
    ensures x.tokens >= 1
  {
  }

  /** The rate bound: no closed minute of any history holds more remote-served calls
      than the limit, even if the clock jumps back and forth. */
  lemma {:induction false} RateBound(c: Settings, h: seq<Exchange>, from: int)
    requires Lawful(c, h)
    ensures ServedInWindow(h, from) <= AtLeastZero(c.budget.ratePerMinute)
  {
    hide Follows, Lawful;
    if h != [] {
      var front, last := h[..|h| - 1], h[|h| - 1];
      LawfulPrefix(c, h);
      RateBound(c, front, from);
      if last.remote && InWindow(last, from) {
        RemoteAnswer(c, front, last);
        WindowIsRecent(front, from, last.request.now - MINUTE);
      }
    }
  }

  lemma {:induction false} SentAreServedOrFailed(h: seq<Exchange>, from: int)
    ensures SentInWindow(h, from) == ServedInWindow(h, from) + FailedInWindow(h, from)
  {
    if h != [] {
      SentAreServedOrFailed(h[..|h| - 1], from);
    }
  }

  /** What is sent to the remote backend in a closed minute exceeds the limit at most
      by the requests it failed on: without a failure the limit holds of everything
      sent. */
  lemma SendBound(c: Settings, h: seq<Exchange>, from: int)
    requires Lawful(c, h)
    ensures SentInWindow(h, from)
         <= AtLeastZero(c.budget.ratePerMinute) + FailedInWindow(h, from)
  {
    RateBound(c, h, from);
    SentAreServedOrFailed(h, from);
  }

  /** Some request can reach the remote backend at all. */
  predicate RemoteReachable(c: Settings) {
    c.hasRemote && c.budget.ratePerMinute >= 1 && c.budget.dailyTokens >= 1 && c.budget.promptCap >= 0
  }

  /** A request that can, and that the remote backend fails on. */
  const FAILING_REQUEST := Request("", Public, 0, true, None, None)

  /** n such requests, one after another at the same time: the history they make. */
  lemma {:induction false} RepeatedFailures(c: Settings, n: nat) returns (h: seq<Exchange>)
    requires RemoteReachable(c)
    ensures Lawful(c, h) && |h| == n && SentInWindow(h, 0) == n
    ensures TokensUsed(h) == 0 && RequestTimes(h) == []
  {
    hide Lawful, Follows, RemoteReachable;
    if n == 0 {
      h := [];
      NothingSentYet(c);
    } else {
      var front := RepeatedFailures(c, n - 1);
      var x := FailsAgain(c, front);
      h := front + [x];
      LawfulMore(c, front, x);
      HistoryMore(c, front, x);
      SentMore(front, x);
    }
  }

  lemma NothingSentYet(c: Settings)
    ensures Lawful(c, []) && SentInWindow([], 0) == TokensUsed([]) == 0 && RequestTimes([]) == []
  {
  }

  lemma SentMore(h: seq<Exchange>, x: Exchange)
    ensures SentInWindow(h + [x], 0) == SentInWindow(h, 0) + if x.remote && InWindow(x, 0) then 1 else 0
  {
    assert (h + [x])[..|h|] == h;
  }

  lemma FailsAgain(c: Settings, h: seq<Exchange>) returns (x: Exchange)
    requires RemoteReachable(c) && TokensUsed(h) == 0 && RequestTimes(h) == []
    ensures Follows(c, h, x) && x.remote && x.reply.None? && InWindow(x, 0)
  {
    hide AlertFor, TokensUsed, RequestTimes;
    assert EstimateTokens("") == 1 && CountSince([], FAILING_REQUEST.now - MINUTE) == 0;
    x := Answer(c, h, FAILING_REQUEST).value;
  }

  lemma {:induction false} NothingRemote(c: Settings, h: seq<Exchange>, from: int)
    requires Lawful(c, h) && !RemoteReachable(c)
    ensures SentInWindow(h, from) == 0
  {
    hide Lawful;
    if h != [] {
      LawfulPrefix(c, h);
      NothingRemote(c, h[..|h| - 1], from);
      Unreachable(c, h[..|h| - 1], h[|h| - 1]);
    }
  }

  lemma Unreachable(c: Settings, h: seq<Exchange>, x: Exchange)
    requires Follows(c, h, x) && !RemoteReachable(c)
    ensures !x.remote
  {
  }

  ghost predicate SendsWithin(c: Settings, h: seq<Exchange>, from: int) {
    SentInWindow(h, from) <= AtLeastZero(c.budget.ratePerMinute)
  }

  /** With failures the limit is one of what is served, not of what is sent: it holds of
      the requests sent in every minute of every history only if none can be sent. */
  lemma SendLimitHolds(c: Settings)
    ensures (forall h, from | Lawful(c, h) :: SendsWithin(c, h, from)) <==> !RemoteReachable(c)
  {
    hide Lawful, RemoteReachable;
    if RemoteReachable(c) {
      var h := RepeatedFailures(c, AtLeastZero(c.budget.ratePerMinute) + 1);
      assert Lawful(c, h) && !SendsWithin(c, h, 0);
    } else {
      forall h, from | Lawful(c, h) ensures SendsWithin(c, h, from) {
        NothingRemote(c, h, from);
      }
    }
  }

  lemma {:induction false} RemoteWithinUsed(h: seq<Exchange>)
    ensures RemoteTokens(h) <= TokensUsed(h)
  {
    if h != [] {
      RemoteWithinUsed(h[..|h| - 1]);
    }
  }

  /** The token bound: all remote-served tokens of a gateway's life together stay
      within what is called its daily budget. */
  lemma {:induction false} TokenBound(c: Settings, h: seq<Exchange>)
    requires Lawful(c, h)
    ensures RemoteTokens(h) <= AtLeastZero(c.budget.dailyTokens)
  {
    hide Follows, Lawful;
    if h != [] {
      var front, last := h[..|h| - 1], h[|h| - 1];
      LawfulPrefix(c, h);
      TokenBound(c, front);
      if last.remote {
        RemoteAnswer(c, front, last);
        RemoteWithinUsed(front);
      }
    }
  }

  /** The characters that served remote requests sent, and how many these were. */
  function RemoteCharacters(h: seq<Exchange>): nat {
    if h == [] then 0
    else
      var last := h[|h| - 1];
      RemoteCharacters(h[..|h| - 1]) + if last.remote && last.reply.Some? then |last.text| else 0
  }

  function RemoteServed(h: seq<Exchange>): nat {
    if h == [] then 0
    else
      var last := h[|h| - 1];
      RemoteServed(h[..|h| - 1]) + if last.remote && last.reply.Some? then 1 else 0
  }

  lemma {:induction false} CharactersPerToken(c: Settings, h: seq<Exchange>)
    requires Lawful(c, h)
    ensures RemoteCharacters(h) <= 4 * RemoteTokens(h) + 3 * RemoteServed(h)
    ensures RemoteServed(h) <= RemoteTokens(h)
  {
    hide Lawful;
    if h != [] {
      LawfulPrefix(c, h);
      CharactersPerToken(c, h[..|h| - 1]);
    }
  }

  /** What the token bound comes to in characters: over a gateway's life its remote
      backend serves four of them per token of the budget, and three more a request. */
  lemma CharacterBound(c: Settings, h: seq<Exchange>)
    requires Lawful(c, h)
    ensures RemoteCharacters(h) <= 4 * AtLeastZero(c.budget.dailyTokens) + 3 * RemoteServed(h)
    ensures RemoteServed(h) <= AtLeastZero(c.budget.dailyTokens)
  {
    hide Lawful;
    CharactersPerToken(c, h);
    TokenBound(c, h);
  }

  // -------------------------------------------------------------------- routing

  /** The calls served, by either backend, with a clock at or after `from`. */
  function ServedSince(h: seq<Exchange>, from: int): nat {
    if h == [] then 0
    else
      var last := h[|h| - 1];
      ServedSince(h[..|h| - 1], from) + if last.reply.Some? && from <= last.request.now then 1 else 0
  }

  lemma {:induction false} ServedAreCounted(h: seq<Exchange>, from: int)
    ensures CountSince(RequestTimes(h), from) == ServedSince(h, from)
  {
    hide CountSince, RequestTimes;
    if h == [] {
      NoneCounted(from);
    } else {
      var front, last := h[..|h| - 1], h[|h| - 1];
      ServedAreCounted(front, from);
      TimesAfter(h);
      CountMore(RequestTimes(front), last.request.now, from);
    }
  }

  lemma NoneCounted(from: int)
    ensures CountSince(RequestTimes([]), from) == 0
  {
  }

  /** Where each request of a history went, and what alert it drew: to the remote
      backend exactly if asked for, there is one, fewer calls than the limit were
      served since a minute before, and the budget holds the request too; degraded
      exactly if asked for in vain; warned from four fifths of the budget on, and
      alerted as degraded from all of it. */
  lemma RoutedExactly(c: Settings, h: seq<Exchange>, i: nat)
    requires Lawful(c, h) && i < |h|
    ensures
      var x, before := h[i], h[..i];
      var used := TokensUsed(before) + x.tokens;
      && (x.remote <==>
            && x.request.preferRemote && c.hasRemote
            && ServedSince(before, x.request.now - 60000000) < c.budget.ratePerMinute
            && used <= c.budget.dailyTokens)
      && (x.degraded <==> x.request.preferRemote && c.hasRemote && !x.remote)
      && (c.budget.dailyTokens > 0 ==>
            && (x.alert == BudgetDegrade <==> used >= c.budget.dailyTokens)
            && (x.alert == BudgetWarn
                <==> 5 * used >= 4 * c.budget.dailyTokens && used < c.budget.dailyTokens))
  {
    hide Lawful, CountSince, RequestTimes, TokensUsed;
    LawfulAt(c, h, i);
    ServedAreCounted(h[..i], h[i].request.now - 60000000);
    if c.budget.dailyTokens > 0 {
      AlertIs(TokensUsed(h[..i]) + h[i].tokens, c.budget.dailyTokens);
    }
  }

  lemma AlertIs(used: int, budget: int)
    requires budget > 0
    ensures AlertFor(used, budget) == BudgetDegrade <==> used >= budget
    ensures AlertFor(used, budget) == BudgetWarn <==> 5 * used >= 4 * budget && used < budget
  {
    RatioIsOne(used, budget);
    RatioIsFourFifths(used, budget);
  }

  lemma Scaled(x: real, y: real, b: real)
    requires b > 0.0
    ensures x >= y <==> x * b >= y * b
  {
    if x >= y {
      assert (x - y) * b >= 0.0;
    } else {
      assert (y - x) * b > 0.0;
    }
  }

  lemma RatioIsFourFifths(a: int, b: int)
    requires b > 0
    ensures a as real / b as real >= 0.8 <==> 5 * a >= 4 * b
  {
    var q := a as real / b as real;
    assert q * b as real == a as real;
    Scaled(q, 0.8, b as real);
    assert (5 * a - 4 * b) as real == 5.0 * (a as real - 0.8 * b as real);
  }

  /** The budget is never renewed: once it is used up nothing is sent to the remote
      backend any more, on that day or any other. */
  lemma SpentForGood(c: Settings, h: seq<Exchange>, later: seq<Exchange>, i: nat)
    requires Lawful(c, h + later) && TokensUsed(h) >= c.budget.dailyTokens && i < |later|
    ensures !later[i].remote
  {
    hide Follows, Lawful;
    var all := h + later;
    var n := |h| + i;
    LawfulAt(c, all, n);
    assert all[n] == later[i] && all[..|h|] == h;
    TokensGrow(all, |h|, n);
    if later[i].remote {
      RemoteAnswer(c, all[..n], all[n]);
    }
  }

  lemma {:induction false} TokensGrow(h: seq<Exchange>, m: nat, n: nat)
    requires m <= n <= |h|
    ensures TokensUsed(h[..m]) <= TokensUsed(h[..n])
    decreases n
  {
    if m < n {
      TokensGrow(h, m, n - 1);
      assert h[..n][..n - 1] == h[..n - 1];
    }
  }

  /** The "degrade" alert and degradation are not the same: a request sent to the
      remote backend is alerted as degraded exactly if it uses up the budget exactly. */
  lemma DegradeAlertSentRemotely(c: Settings, h: seq<Exchange>, i: nat)
    requires Lawful(c, h) && i < |h| && h[i].remote
    ensures h[i].alert == BudgetDegrade
       <==> TokensUsed(h[..i]) + h[i].tokens == c.budget.dailyTokens
  {
    hide Lawful;
    LawfulAt(c, h, i);
    RemoteAnswer(c, h[..i], h[i]);
    RatioIsOne(TokensUsed(h[..i]) + h[i].tokens, c.budget.dailyTokens);
  }

  lemma RatioIsOne(a: int, b: int)
    requires b > 0
    ensures a as real / b as real >= 1.0 <==> a >= b
  {
    var q := a as real / b as real;
    assert q * b as real == a as real;
    if q >= 1.0 {
      assert q * b as real >= 1.0 * b as real;
    }
    if a >= b && q < 1.0 {
      assert false;
    }
  }

  /** A daily budget of zero does not mean "never remote": no request reaches any
      backend, for want of a division. */
  lemma ZeroBudgetServesNothing(c: Settings, h: seq<Exchange>)
    requires c.budget.dailyTokens == 0 && Lawful(c, h)
    ensures h == []
  {
    if h != [] {
      LawfulAt(c, h, 0);
      assert false;
    }
  }
}
