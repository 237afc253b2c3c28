/** One API request with its retries: 429 and 5xx back off, the first 401 refreshes the token, the rest ends it. */
module Retry {
  import opened Basics
  import opened JsonValues

  // ---------------------------------------------------------------- backoff

  const U64_MAX: nat := 0xFFFF_FFFF_FFFF_FFFF

  function Min(a: nat, b: nat): nat {
    if a < b then a else b
  }

  function SaturatingMul(a: nat, b: nat): nat {
    Min(a * b, U64_MAX)
  }

  function SaturatingPow(base: nat, exponent: nat): nat {
    if exponent == 0 then 1 else SaturatingMul(SaturatingPow(base, exponent - 1), base)
  }

  function Pow2(n: nat): nat {
    if n == 0 then 1 else 2 * Pow2(n - 1)
  }

  /** `exponential_backoff`, in milliseconds. */
  function Backoff(attempt: nat, capMs: nat): nat {
    Min(SaturatingMul(30_000, SaturatingPow(2, Min(attempt, 5))), capMs)
  }

  lemma {:induction false} SmallPowers(n: nat)
    requires n <= 5
    ensures SaturatingPow(2, n) == Pow2(n) <= 32
    ensures n > 0 ==> Pow2(n - 1) <= 16
  {
    if n > 0 {
      SmallPowers(n - 1);
    }
    assert Pow2(0) == 1 && Pow2(1) == 2 && Pow2(2) == 4 && Pow2(3) == 8 && Pow2(4) == 16 && Pow2(5) == 32;
  }

  /** The saturating arithmetic never saturates, and waiting never gets shorter from one attempt to the next. */
  lemma BackoffDoublesUpToTheCap(attempt: nat, capMs: nat)
    ensures Backoff(attempt, capMs) == Min(30_000 * Pow2(Min(attempt, 5)), capMs)
    ensures 30_000 * Pow2(Min(attempt, 5)) <= 960_000
    ensures Backoff(attempt, capMs) <= Backoff(attempt + 1, capMs) <= capMs
  {
    SmallPowers(Min(attempt, 5));
    SmallPowers(Min(attempt + 1, 5));
  }

  /** The waits of the first `retries` attempts, none of them dictated by the server. */
  function Ladder(retries: nat, capMs: nat): nat {
    if retries == 0 then 0 else Ladder(retries - 1, capMs) + Backoff(retries, capMs)
  }

  // ---------------------------------------------------------------- responses

  datatype Payload = Unreadable | NotJson | Parsed(body: Json)

  datatype Response = NoResponse | Response(status: nat, retryAfter: Option<nat>, payload: Payload)

  datatype Outcome = Got(body: Json) | Inaccessible(message: string) | Transient | Fatal

  predicate Throttled(r: Response) { r.Response? && r.status == 429 }

  predicate ServerError(r: Response) { r.Response? && 500 <= r.status < 600 }

  predicate Retriable(r: Response) { Throttled(r) || ServerError(r) }

  predicate Refused(r: Response) { r.Response? && r.status == 401 }

  predicate Success(r: Response) { r.Response? && 200 <= r.status < 300 }

  /** The field of that name if it is a string, else a default. */
  function StringOr(value: Json, name: string, default: string): string {
    var field := value.Field(name);
    if field.Some? && field.value.String? then field.value.s else default
  }

  /** The message of an error that arrives with status 200. */
  function DetailMessage(detail: Json, show: Json -> string): string {
    match detail
    case String(s) => s
    case Object(_) => StringOr(detail, "code", "api_error") + ": " + StringOr(detail, "message", "")
    case _ => show(detail)
  }

  predicate SaysInaccessible(message: string) {
    Contains(message, "inaccessible") || Contains(message, "not_found")
  }

  /**
   A structured error counts as inaccessible exactly when its code or its message says so; a code that is missing or
   no string reads `api_error`, such a message is empty, and other fields do not matter.
   */
  lemma StructuredDetail(detail: Json, show: Json -> string)
    requires detail.Object?
    ensures SaysInaccessible(DetailMessage(detail, show))
            <==> || SaysInaccessible(StringOr(detail, "code", "api_error"))
                 || SaysInaccessible(StringOr(detail, "message", ""))
  {
    ContainsJoined(StringOr(detail, "code", "api_error"), ": ", StringOr(detail, "message", ""), "inaccessible");
    ContainsJoined(StringOr(detail, "code", "api_error"), ": ", StringOr(detail, "message", ""), "not_found");
  }

  /** What a response means once no retry is left for it. */
  function Verdict(r: Response, show: Json -> string): Outcome {
    if Retriable(r) then Transient
    else if !Success(r) || !r.payload.Parsed? then Fatal
    else
      match r.payload.body.Field("detail")
      case None => Got(r.payload.body)
      case Some(detail) =>
        var message := DetailMessage(detail, show);
        if SaysInaccessible(message) then Inaccessible(message) else Fatal
  }

  function ErrorReply(detail: Json): Response {
    Response(200, None, Parsed(Object(map["detail" := detail])))
  }

  /** A text is its own message; an object's is its code and its message, as far as they are strings. */
  lemma DetailMessageMeans(detail: Json, show: Json -> string)
    ensures detail.String? ==> DetailMessage(detail, show) == detail.s
    ensures detail.Object? ==>
              var code := if "code" in detail.fields && detail.fields["code"].String? then detail.fields["code"].s
                          else "api_error";
              var message := if "message" in detail.fields && detail.fields["message"].String?
                             then detail.fields["message"].s else "";
              DetailMessage(detail, show) == code + ": " + message
    ensures !detail.String? && !detail.Object? ==> DetailMessage(detail, show) == show(detail)
  {
  }

  /** A text, and an object with a code, that say the conversation cannot be had. */
  lemma RefusalsAreRecognised(show: Json -> string)
    ensures Verdict(ErrorReply(String("conversation_not_found")), show) == Inaccessible("conversation_not_found")
    ensures Verdict(ErrorReply(Object(map["code" := String("conversation_inaccessible")])), show)
            == Inaccessible("conversation_inaccessible: ")
  {
    RefusalIs(String("conversation_not_found"), show, "conversation_not_found", "not_found", 13);
    CodeOnly("conversation_inaccessible", show);
    RefusalIs(Object(map["code" := String("conversation_inaccessible")]), show, "conversation_inaccessible: ",
              "inaccessible", 13);
  }

  lemma RefusalIs(detail: Json, show: Json -> string, message: string, pattern: string, i: nat)
    requires DetailMessage(detail, show) == message && (pattern == "inaccessible" || pattern == "not_found")
    requires OccursAt(message, pattern, i)
    ensures Verdict(ErrorReply(detail), show) == Inaccessible(message)
  {
    assert Contains(message, pattern);
    assert ErrorReply(detail).payload.body.Field("detail") == Some(detail);
  }

  lemma CodeOnly(code: string, show: Json -> string)
    ensures DetailMessage(Object(map["code" := String(code)]), show) == code + ": "
  {
    var detail := Object(map["code" := String(code)]);
    assert "code"[0] == 'c' && "message"[0] == 'm';
    assert StringOr(detail, "code", "api_error") == code && StringOr(detail, "message", "") == "";
    assert code + ": " + "" == code + ": ";
  }

  /** An error object that says nothing is fatal. */
  lemma OtherErrorsAreFatal(show: Json -> string)
    ensures Verdict(ErrorReply(Object(map[])), show) == Fatal
  {
    var detail := Object(map[]);
    assert ErrorReply(detail).payload.body.Field("detail") == Some(detail);
    assert StringOr(detail, "code", "api_error") == "api_error" && StringOr(detail, "message", "") == "";
    assert DetailMessage(detail, show) == "api_error: ";
    PlainErrorSaysNothing();
  }

  lemma PlainErrorSaysNothing()
    ensures !SaysInaccessible("api_error: ")
  {
    var plain := "api_error: ";
    forall i | 0 <= i <= |plain| ensures !OccursAt(plain, "inaccessible", i) && !OccursAt(plain, "not_found", i) {
      if i + |"not_found"| <= |plain| {
        OccursAtChars(plain, "not_found", i);
        assert i <= 2 && plain[i] in {'a', 'p', 'i'} && "not_found"[0] == 'n';
      }
    }
  }

  /** Status by status: 429 and the five hundreds are transient, a readable success without `detail` is its own body. */
  lemma VerdictMeans(r: Response, show: Json -> string)
    ensures var o := Verdict(r, show);
            && (o.Transient? <==> r.Response? && (r.status == 429 || 500 <= r.status < 600))
            && (o.Got? <==>
                  && r.Response? && 200 <= r.status < 300 && r.payload.Parsed?
                  && (r.payload.body.Object? ==> "detail" !in r.payload.body.fields))
            && (o.Got? ==> o.body == r.payload.body)
            && (o.Inaccessible? <==>
                  && r.Response? && 200 <= r.status < 300 && r.payload.Parsed?
                  && r.payload.body.Object? && "detail" in r.payload.body.fields
                  && var message := DetailMessage(r.payload.body.fields["detail"], show);
                     Contains(message, "inaccessible") || Contains(message, "not_found"))
            && (o.Inaccessible? ==> o.message == DetailMessage(r.payload.body.fields["detail"], show))
  {
  }

  // ---------------------------------------------------------------- the response sequence

  function Retries(responses: int -> Response, n: nat): nat {
    if n == 0 then 0 else Retries(responses, n - 1) + if Retriable(responses(n - 1)) then 1 else 0
  }

  function Refusals(responses: int -> Response, n: nat): nat {
    if n == 0 then 0 else Refusals(responses, n - 1) + if Refused(responses(n - 1)) then 1 else 0
  }

  /**
   The first `n` responses can all be absorbed: failures within the budget, one refusal if the token can be renewed.
   */
  ghost predicate Absorbed(responses: int -> Response, n: nat, maxRetries: nat, renewable: bool) {
    && (forall i :: 0 <= i < n ==> Retriable(responses(i)) || Refused(responses(i)))
    && Retries(responses, n) <= maxRetries
    && Refusals(responses, n) <= (if renewable then 1 else 0)
  }

  /** Request number `n` (from 0) is the last one. */
  ghost predicate Final(responses: int -> Response, n: nat, maxRetries: nat, renewable: bool) {
    Absorbed(responses, n, maxRetries, renewable) && !Absorbed(responses, n + 1, maxRetries, renewable)
  }

  lemma {:induction false} AbsorbedPrefix(responses: int -> Response, n: nat, m: nat, maxRetries: nat, renewable: bool)
    requires m <= n && Absorbed(responses, n, maxRetries, renewable)
    ensures Absorbed(responses, m, maxRetries, renewable)
    decreases n
  {
    if m < n {
      AbsorbedPrefix(responses, n - 1, m, maxRetries, renewable);
    }
  }

  /** Every sequence of responses has at most one last request, so it fixes the outcome. */
  lemma FinalIsUnique(responses: int -> Response, n: nat, m: nat, maxRetries: nat, renewable: bool)
    requires Final(responses, n, maxRetries, renewable) && Final(responses, m, maxRetries, renewable)
    ensures n == m
  {
    if n < m {
      AbsorbedPrefix(responses, m, n + 1, maxRetries, renewable);
    } else if m < n {
      AbsorbedPrefix(responses, n, m + 1, maxRetries, renewable);
    }
  }

  lemma {:induction false} AbsorbedCount(responses: int -> Response, n: nat)
    requires forall i :: 0 <= i < n ==> Retriable(responses(i)) || Refused(responses(i))
    ensures Retries(responses, n) + Refusals(responses, n) == n
  {
    if n > 0 {
      AbsorbedCount(responses, n - 1);
    }
  }

  /**
   A request ends as transient exactly when, at most one renewed refusal aside, more failures in a row
   came than the budget allows; and then exactly one more than the budget.
   */
  lemma TransientMeansBudgetSpent(responses: int -> Response, n: nat, maxRetries: nat, renewable: bool,
                                  show: Json -> string)
    requires Final(responses, n, maxRetries, renewable)
    ensures Verdict(responses(n), show).Transient? <==> Retries(responses, n + 1) == maxRetries + 1
  {
  }

  // ---------------------------------------------------------------- waiting

  /** The waits the client chose itself over the first `n` responses: all but those a 429 dictated. */
  function ChosenWait(responses: int -> Response, n: nat, capMs: nat): nat {
    if n == 0 then 0
    else
      var r := responses(n - 1);
      ChosenWait(responses, n - 1, capMs)
      + if Retriable(r) && !(Throttled(r) && r.retryAfter.Some?) then Backoff(Retries(responses, n), capMs) else 0
  }

  lemma {:induction false} ChosenWaitIsBounded(responses: int -> Response, n: nat, capMs: nat)
    ensures ChosenWait(responses, n, capMs) <= Ladder(Retries(responses, n), capMs)
  {
    if n > 0 {
      ChosenWaitIsBounded(responses, n - 1, capMs);
    }
  }

  /** If no response dictates a wait, the client has waited for every rung of the ladder. */
  lemma {:induction false} ChosenWaitIsExact(responses: int -> Response, n: nat, capMs: nat)
    requires forall i :: 0 <= i < n && responses(i).Response? ==> responses(i).retryAfter.None?
    ensures ChosenWait(responses, n, capMs) == Ladder(Retries(responses, n), capMs)
  {
    if n > 0 {
      ChosenWaitIsExact(responses, n - 1, capMs);
    }
  }

  /** If every retried response is a 429 that dictates its wait, the client has chosen none. */
  lemma {:induction false} DictatedWaitsAreNotChosen(responses: int -> Response, n: nat, capMs: nat)
    requires forall i :: 0 <= i < n && Retriable(responses(i)) ==>
               responses(i).status == 429 && responses(i).retryAfter.Some?
    ensures ChosenWait(responses, n, capMs) == 0
  {
    if n > 0 {
      DictatedWaitsAreNotChosen(responses, n - 1, capMs);
    }
  }

  /** The ladder in figures: one minute, then twice as long each time, up to the sixth attempt. */
  lemma {:induction false} LadderDoubles(retries: nat, capMs: nat)
    requires retries <= 5 && capMs >= 960_000
    ensures Ladder(retries, capMs) == 60_000 * (Pow2(retries) - 1)
  {
    if retries > 0 {
      LadderDoubles(retries - 1, capMs);
      BackoffDoublesUpToTheCap(retries, capMs);
    }
  }

  lemma {:induction false} LadderGrows(a: nat, b: nat, capMs: nat)
    requires a <= b
    ensures Ladder(a, capMs) <= Ladder(b, capMs)
    decreases b
  {
    if a < b {
      LadderGrows(a, b - 1, capMs);
    }
  }

  /** The client's own counters after `n` absorbed responses. */
  ghost predicate Counted(responses: int -> Response, n: nat, attempt: nat, refreshes: nat, chosenMs: nat, capMs: nat) {
    && attempt == Retries(responses, n) && refreshes == Refusals(responses, n)
    && chosenMs == ChosenWait(responses, n, capMs)
  }

  lemma AbsorbOne(responses: int -> Response, n: nat, maxRetries: nat, renewable: bool, capMs: nat)
    requires Absorbed(responses, n, maxRetries, renewable)
    ensures ChosenWait(responses, n, capMs) <= Ladder(maxRetries, capMs)
    ensures n == Retries(responses, n) + Refusals(responses, n)
    ensures Absorbed(responses, n + 1, maxRetries, renewable) <==>
              || (Retriable(responses(n)) && Retries(responses, n) < maxRetries)
              || (Refused(responses(n)) && Refusals(responses, n) == 0 && renewable)
  {
    ChosenWaitIsBounded(responses, n, capMs);
    LadderGrows(Retries(responses, n), maxRetries, capMs);
    AbsorbedCount(responses, n);
  }

  // ---------------------------------------------------------------- the client

  /** The session endpoint's answer: a token only when the response is a success that carries a non-empty one. */
  datatype SessionReply = SessionReply(ok: bool, accessToken: Option<string>) {
    function Token(): Option<string> {
      if ok && accessToken.Some? && accessToken.value != "" then accessToken else None
    }
  }

  function TokenAfter(session: SessionReply, before: string, refusals: nat): string {
    if refusals > 0 && session.Token().Some? then session.Token().value else before
  }

  /** The tokens the first `n` requests carried: the old one up to the first refusal, the new one after it. */
  function TokensSent(responses: int -> Response, n: nat, session: SessionReply, before: string): seq<string> {
    if n == 0 then []
    else TokensSent(responses, n - 1, session, before) + [TokenAfter(session, before, Refusals(responses, n - 1))]
  }

  /** Each request carries the old token until a 401 has come back and the session endpoint has given a new one. */
  lemma {:induction false} TokenOfRequest(responses: int -> Response, n: nat, session: SessionReply, before: string,
                                          i: nat)
    requires i < n
    ensures |TokensSent(responses, n, session, before)| == n
    ensures TokensSent(responses, n, session, before)[i]
            == if (exists j :: 0 <= j < i && responses(j).Response? && responses(j).status == 401)
                  && session.ok && session.accessToken.Some? && session.accessToken.value != ""
               then session.accessToken.value else before
  {
    SentLength(responses, n - 1, session, before);
    if i < n - 1 {
      TokenOfRequest(responses, n - 1, session, before, i);
    } else {
      RefusalSeen(responses, i);
    }
  }

  lemma {:induction false} SentLength(responses: int -> Response, n: nat, session: SessionReply, before: string)
    ensures |TokensSent(responses, n, session, before)| == n
  {
    if n > 0 {
      SentLength(responses, n - 1, session, before);
    }
  }

  lemma {:induction false} RefusalSeen(responses: int -> Response, n: nat)
    ensures Refusals(responses, n) > 0 <==>
              exists j :: 0 <= j < n && responses(j).Response? && responses(j).status == 401
  {
    if n > 0 {
      RefusalSeen(responses, n - 1);
      assert Refused(responses(n - 1)) <==> responses(n - 1).Response? && responses(n - 1).status == 401;
    }
  }

  class ChatsApiClient {
    var token: string

    constructor (token: string)
      ensures this.token == token
    {
      this.token := token;
    }

    method RefreshToken(session: SessionReply) returns (ok: bool)
      modifies this
      ensures ok == session.Token().Some?
      ensures ok <==> session.ok && session.accessToken.Some? && session.accessToken.value != ""
      ensures token == if ok then session.accessToken.value else old(token)
    {
      ok := session.Token().Some?;
      if ok {
        token := session.Token().value;
      }
    }

    /** A response that is neither retried nor refused ends the request. */
    method Settle(r: Response, show: Json -> string) returns (outcome: Outcome)
      requires !Retriable(r) && !Refused(r)
      ensures outcome == Verdict(r, show)
    {
      if !Success(r) || !r.payload.Parsed? {
        return Fatal;
      }
      var detail := r.payload.body.Field("detail");
      if detail.None? {
        return Got(r.payload.body);
      }
      var message := DetailMessage(detail.value, show);
      if SaysInaccessible(message) {
        return Inaccessible(message);
      }
      outcome := Fatal;
    }

    /**
     `get_json`. Its outcome is the verdict on the one final response; it makes at most `maxRetries + 2`
     requests and one refresh, and its own choice of waiting is bounded whatever the responses are.
     */
    method GetJson(responses: int -> Response, session: SessionReply, maxRetries: nat, capMs: nat, show: Json -> string)
      returns (outcome: Outcome, requests: nat, refreshes: nat, chosenMs: nat, ghost sent: seq<string>)
      modifies this
      ensures 1 <= requests <= maxRetries + 2
      ensures Final(responses, requests - 1, maxRetries, session.Token().Some?)
      ensures outcome == Verdict(responses(requests - 1), show)
      ensures refreshes == Min(Refusals(responses, requests), 1)
      ensures chosenMs == ChosenWait(responses, requests - 1, capMs) <= Ladder(maxRetries, capMs)
      ensures token == TokenAfter(session, old(token), Refusals(responses, requests))
      ensures sent == TokensSent(responses, requests, session, old(token))
    {
      var attempt, refreshedOnce := 0, false;
      requests, refreshes, chosenMs, sent := 0, 0, 0, [];
      while true
        invariant Absorbed(responses, requests, maxRetries, session.Token().Some?)
        invariant Counted(responses, requests, attempt, refreshes, chosenMs, capMs)
        invariant requests == attempt + refreshes && attempt <= maxRetries
        invariant refreshes == if refreshedOnce then 1 else 0
        invariant token == TokenAfter(session, old(token), refreshes)
        invariant sent == TokensSent(responses, requests, session, old(token))
        decreases maxRetries + 1 - requests
      {
        AbsorbOne(responses, requests, maxRetries, session.Token().Some?, capMs);
        var r := responses(requests);
        requests, sent := requests + 1, sent + [token];
        if Throttled(r) {
          attempt := attempt + 1;
          if attempt > maxRetries {
            return Transient, requests, refreshes, chosenMs, sent;
          }
          chosenMs := chosenMs + if r.retryAfter.None? then Backoff(attempt, capMs) else 0;
        } else if Refused(r) {
          if refreshedOnce {
            return Fatal, requests, refreshes, chosenMs, sent;
          }
          refreshedOnce, refreshes := true, refreshes + 1;
          var ok := RefreshToken(session);
          if !ok {
            return Fatal, requests, refreshes, chosenMs, sent;
          }
        } else if ServerError(r) {
          attempt := attempt + 1;
          if attempt > maxRetries {
            return Transient, requests, refreshes, chosenMs, sent;
          }
          chosenMs := chosenMs + Backoff(attempt, capMs);
        } else {
          outcome := Settle(r, show);
          return;
        }
      }
    }
  }
}
