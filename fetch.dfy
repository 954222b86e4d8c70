/**
 * The request handler: one `request(url)` waits out the minimum request
 * interval, sends a GET, and on a transport error retries after a fixed
 * delay until the retry count exceeds the maximum, when it re-raises.
 *
 * Time is the `Clock` object, which `Sleep` and the network calls advance.
 * `requests.get` is an oracle: `net[k]` is what the k-th attempt of a
 * call does (raise, or return a response) and how long it takes.
 */
module Fetch {
  import opened Wrappers
  import opened Reports

  /** A response of the HTTP library: status code and length of the body in bytes. */
  datatype Response = Response(status: int, contentLength: nat)

  /** Python truthiness of a response: false for client and server errors (status 400 to 599). */
  predicate IsOk(r: Response)
  {
    !(400 <= r.status < 600)
  }

  /** One attempt of `requests.get`: it raises, or it returns a response, after `elapsed` seconds. */
  datatype Outcome = Fail(elapsed: real) | Ok(elapsed: real, response: Response)

  /** The exception a call ends with: the transport error of the given attempt, or `sleep` refusing a negative delay. */
  datatype Failure = TransportError(attempt: nat) | SleepError

  /** What `request` does in the end: return the response, return None for a falsy response, or raise. */
  datatype Reply = Returned(response: Response) | NoResponse | Raised(failure: Failure)

  /** How one attempt ends: a response, giving up, `sleep` refusing the delay, or going on to the next attempt. */
  datatype Step = Answered(response: Response) | GaveUp | SleepFailed | Retrying

  /** One GET sent: the URL and the clock reading just before it, which becomes `last_request_timestamp`. */
  datatype Get = Get(url: string, at: real)

  /**
   * The result of the attempts of one call: the reply, the final retry
   * count, the start of the last attempt, the clock at the end, the GETs
   * sent and the logger calls made, and how long the last attempt took.
   */
  datatype Trial = Trial(reply: Reply, retryCount: int, lastStart: real, clock: real,
                         gets: seq<Get>, notes: seq<Note>, elapsed: real)

  /** The wait computed once at the start of a call: what is left of the interval since the last request, or 0. */
  function GateWait(last: real, interval: real, now: real): (w: real)
    ensures w >= 0.0 && now + w >= last + interval
    ensures w > 0.0 <==> now < last + interval
    ensures w > 0.0 ==> now + w == last + interval
  {
    if now < last + interval then last + interval - now else 0.0
  }

  /**
   * Attempt `k` of a call and the ones after it.  `wait` is slept before
   * every attempt when it is positive; `gets` and `notes` are what the
   * earlier attempts produced.
   */
  function Attempts(maxRetry: int, delay: real, wait: real, url: string, net: seq<Outcome>,
                    k: nat, clock: real, gets: seq<Get>, notes: seq<Note>): Trial
    requires k < |net| && maxRetry < |net|
    decreases |net| - k
  {
    var gate := if wait > 0.0 then [Note(IntervalWait(wait), Some("d"), None)] else [];
    var start := clock + wait;
    var sent := gets + [Get(url, start)];
    var told := notes + gate + [Note(RequestSent(url), Some("d"), None)];
    var done := start + net[k].elapsed;
    match net[k]
    case Ok(e, response) =>
      if IsOk(response) then
        Trial(Returned(response), k, start, done, sent, told + [Note(ResponseReceived(e), Some("d"), None)], e)
      else
        Trial(NoResponse, k, start, done, sent, told, e)
    case Fail(e) =>
      if k + 1 > maxRetry then
        Trial(Raised(TransportError(k)), k + 1, start, done, sent, told + [Note(RetrieveError, Some("cl"), Some("red"))], e)
      else
        var warned := told + [Note(RetryWarning(k + 1), Some("cl"), Some("yellow"))];
        if delay < 0.0 then Trial(Raised(SleepError), k + 1, start, done, sent, warned, e)
        else Attempts(maxRetry, delay, wait, url, net, k + 1, done + delay, sent, warned)
  }

  /** Attempt `k` got a response: the call ends with it. */
  lemma AttemptAnswered(maxRetry: int, delay: real, wait: real, url: string, net: seq<Outcome>,
                        k: nat, clock: real, gets: seq<Get>, notes: seq<Note>)
    requires k < |net| && maxRetry < |net| && net[k].Ok?
    ensures var r := net[k].response;
            Attempts(maxRetry, delay, wait, url, net, k, clock, gets, notes)
            == Trial(if IsOk(r) then Returned(r) else NoResponse, k, clock + wait, clock + wait + net[k].elapsed,
                     gets + [Get(url, clock + wait)],
                     notes + Announcements(wait, url)
                     + (if IsOk(r) then [Note(ResponseReceived(net[k].elapsed), Some("d"), None)] else []),
                     net[k].elapsed)
  {
    assert notes + (if wait > 0.0 then [Note(IntervalWait(wait), Some("d"), None)] else [])
           + [Note(RequestSent(url), Some("d"), None)] == notes + Announcements(wait, url);
  }

  /** Attempt `k` failed with no retry left: the call raises after logging the error. */
  lemma AttemptGaveUp(maxRetry: int, delay: real, wait: real, url: string, net: seq<Outcome>,
                      k: nat, clock: real, gets: seq<Get>, notes: seq<Note>)
    requires k < |net| && maxRetry < |net| && net[k].Fail? && k + 1 > maxRetry
    ensures Attempts(maxRetry, delay, wait, url, net, k, clock, gets, notes)
            == Trial(Raised(TransportError(k)), k + 1, clock + wait, clock + wait + net[k].elapsed,
                     gets + [Get(url, clock + wait)],
                     notes + Announcements(wait, url) + [Note(RetrieveError, Some("cl"), Some("red"))],
                     net[k].elapsed)
  {
    assert notes + (if wait > 0.0 then [Note(IntervalWait(wait), Some("d"), None)] else [])
           + [Note(RequestSent(url), Some("d"), None)] == notes + Announcements(wait, url);
  }

  /** Attempt `k` failed, a retry is left, and the negative retry delay makes `sleep` raise. */
  lemma AttemptSleepFailed(maxRetry: int, delay: real, wait: real, url: string, net: seq<Outcome>,
                           k: nat, clock: real, gets: seq<Get>, notes: seq<Note>)
    requires k < |net| && maxRetry < |net| && net[k].Fail? && k + 1 <= maxRetry && delay < 0.0
    ensures Attempts(maxRetry, delay, wait, url, net, k, clock, gets, notes)
            == Trial(Raised(SleepError), k + 1, clock + wait, clock + wait + net[k].elapsed,
                     gets + [Get(url, clock + wait)],
                     notes + Announcements(wait, url) + [Note(RetryWarning(k + 1), Some("cl"), Some("yellow"))],
                     net[k].elapsed)
  {
    assert notes + (if wait > 0.0 then [Note(IntervalWait(wait), Some("d"), None)] else [])
           + [Note(RequestSent(url), Some("d"), None)] == notes + Announcements(wait, url);
  }

  /** Attempt `k` failed and a retry is left: the call goes on with attempt `k + 1` after the retry delay. */
  lemma AttemptRetried(maxRetry: int, delay: real, wait: real, url: string, net: seq<Outcome>,
                       k: nat, clock: real, gets: seq<Get>, notes: seq<Note>)
    requires k < |net| && maxRetry < |net| && net[k].Fail? && k + 1 <= maxRetry && delay >= 0.0
    ensures Attempts(maxRetry, delay, wait, url, net, k, clock, gets, notes)
            == Attempts(maxRetry, delay, wait, url, net, k + 1, clock + wait + net[k].elapsed + delay,
                        gets + [Get(url, clock + wait)],
                        notes + Announcements(wait, url) + [Note(RetryWarning(k + 1), Some("cl"), Some("yellow"))])
  {
    assert notes + (if wait > 0.0 then [Note(IntervalWait(wait), Some("d"), None)] else [])
           + [Note(RequestSent(url), Some("d"), None)] == notes + Announcements(wait, url);
  }

  /**
   * What the earlier attempts produced is only carried along: starting from
   * longer traces prefixes the same trial's traces.
   */
  lemma {:induction false} AttemptsPrefix(maxRetry: int, delay: real, wait: real, url: string, net: seq<Outcome>,
                                          k: nat, clock: real, gets: seq<Get>, notes: seq<Note>,
                                          gets0: seq<Get>, notes0: seq<Note>)
    requires k < |net| && maxRetry < |net|
    ensures var t := Attempts(maxRetry, delay, wait, url, net, k, clock, gets, notes);
            Attempts(maxRetry, delay, wait, url, net, k, clock, gets0 + gets, notes0 + notes)
            == t.(gets := gets0 + t.gets, notes := notes0 + t.notes)
    decreases |net| - k
  {
    var start := clock + wait;
    var told := notes + Announcements(wait, url);
    assert (gets0 + gets) + [Get(url, start)] == gets0 + (gets + [Get(url, start)]);
    assert (notes0 + notes) + Announcements(wait, url) == notes0 + told;
    match net[k]
    case Ok(e, response) =>
      AttemptAnswered(maxRetry, delay, wait, url, net, k, clock, gets, notes);
      AttemptAnswered(maxRetry, delay, wait, url, net, k, clock, gets0 + gets, notes0 + notes);
      if IsOk(response) {
        assert (notes0 + told) + [Note(ResponseReceived(e), Some("d"), None)]
               == notes0 + (told + [Note(ResponseReceived(e), Some("d"), None)]);
      } else {
        assert (notes0 + told) + [] == notes0 + (told + []);
      }
    case Fail(e) =>
      var warn := Note(RetryWarning(k + 1), Some("cl"), Some("yellow"));
      if k + 1 > maxRetry {
        AttemptGaveUp(maxRetry, delay, wait, url, net, k, clock, gets, notes);
        AttemptGaveUp(maxRetry, delay, wait, url, net, k, clock, gets0 + gets, notes0 + notes);
        assert (notes0 + told) + [Note(RetrieveError, Some("cl"), Some("red"))]
               == notes0 + (told + [Note(RetrieveError, Some("cl"), Some("red"))]);
      } else if delay < 0.0 {
        AttemptSleepFailed(maxRetry, delay, wait, url, net, k, clock, gets, notes);
        AttemptSleepFailed(maxRetry, delay, wait, url, net, k, clock, gets0 + gets, notes0 + notes);
        assert (notes0 + told) + [warn] == notes0 + (told + [warn]);
      } else {
        AttemptRetried(maxRetry, delay, wait, url, net, k, clock, gets, notes);
        AttemptRetried(maxRetry, delay, wait, url, net, k, clock, gets0 + gets, notes0 + notes);
        assert (notes0 + told) + [warn] == notes0 + (told + [warn]);
        AttemptsPrefix(maxRetry, delay, wait, url, net, k + 1, start + e + delay, gets + [Get(url, start)],
                       told + [warn], gets0, notes0);
      }
  }

  /** max(m, 0) */
  function Floor0(m: int): nat
  {
    if m < 0 then 0 else m
  }

  /** One whole `request` call from the handler's last timestamp and the clock at entry. */
  function Call(maxRetry: int, interval: real, delay: real, last: real, now: real, url: string, net: seq<Outcome>): Trial
    requires Floor0(maxRetry) < |net|
  {
    Attempts(maxRetry, delay, GateWait(last, interval, now), url, net, 0, now, [], [])
  }

  /**
   * The GETs of a call: at most max(k, maxRetry) + 1 attempts in all, the
   * earlier GETs kept, every new one to the same URL, and the last one's
   * time is the last request timestamp.
   */
  lemma {:induction false} AttemptsGets(maxRetry: int, delay: real, wait: real, url: string, net: seq<Outcome>,
                                        k: nat, clock: real, gets: seq<Get>, notes: seq<Note>)
    requires k < |net| && maxRetry < |net| && |gets| == k
    ensures var t := Attempts(maxRetry, delay, wait, url, net, k, clock, gets, notes);
            && k < |t.gets| <= (if maxRetry < k then k else maxRetry) + 1
            && t.gets[..k] == gets
            && (forall i :: k <= i < |t.gets| ==> t.gets[i].url == url)
            && t.lastStart == t.gets[|t.gets| - 1].at
    decreases |net| - k
  {
    var start := clock + wait;
    match net[k]
    case Ok(_, _) =>
      AttemptAnswered(maxRetry, delay, wait, url, net, k, clock, gets, notes);
    case Fail(e) =>
      if k + 1 > maxRetry {
        AttemptGaveUp(maxRetry, delay, wait, url, net, k, clock, gets, notes);
      } else if delay < 0.0 {
        AttemptSleepFailed(maxRetry, delay, wait, url, net, k, clock, gets, notes);
      } else {
        AttemptRetried(maxRetry, delay, wait, url, net, k, clock, gets, notes);
        var sent := gets + [Get(url, start)];
        var warned := notes + Announcements(wait, url) + [Note(RetryWarning(k + 1), Some("cl"), Some("yellow"))];
        AttemptsGets(maxRetry, delay, wait, url, net, k + 1, start + e + delay, sent, warned);
        var t := Attempts(maxRetry, delay, wait, url, net, k + 1, start + e + delay, sent, warned);
        assert t.gets[..k] == t.gets[..k + 1][..k];
      }
  }

  /**
   * The counting behaviour: every attempt but the last failed; the call
   * raises exactly when the last one failed, and then the retry count is the
   * number of attempts and, for a transport error, exceeds maxRetry;
   * otherwise the last response is returned when truthy and None when falsy.
   */
  lemma {:induction false} AttemptsOutcome(maxRetry: int, delay: real, wait: real, url: string, net: seq<Outcome>,
                                           k: nat, clock: real, gets: seq<Get>, notes: seq<Note>)
    requires k < |net| && maxRetry < |net| && |gets| == k
    ensures var t := Attempts(maxRetry, delay, wait, url, net, k, clock, gets, notes);
            && k < |t.gets| <= |net|
            && (forall i :: k <= i < |t.gets| - 1 ==> net[i].Fail?)
            && (t.reply.Raised? <==> net[|t.gets| - 1].Fail?)
            && t.retryCount == (if t.reply.Raised? then |t.gets| else |t.gets| - 1)
            && (t.reply.Raised? && t.reply.failure.TransportError? ==>
                  t.reply.failure.attempt == |t.gets| - 1 && |t.gets| > maxRetry)
            && (t.reply == Raised(SleepError) ==> delay < 0.0)
            && (!t.reply.Raised? ==>
                  t.reply == if IsOk(net[|t.gets| - 1].response) then Returned(net[|t.gets| - 1].response) else NoResponse)
    decreases |net| - k
  {
    var start := clock + wait;
    match net[k]
    case Ok(_, _) =>
      AttemptAnswered(maxRetry, delay, wait, url, net, k, clock, gets, notes);
    case Fail(e) =>
      if k + 1 > maxRetry {
        AttemptGaveUp(maxRetry, delay, wait, url, net, k, clock, gets, notes);
      } else if delay < 0.0 {
        AttemptSleepFailed(maxRetry, delay, wait, url, net, k, clock, gets, notes);
      } else {
        AttemptRetried(maxRetry, delay, wait, url, net, k, clock, gets, notes);
        var sent := gets + [Get(url, start)];
        var warned := notes + Announcements(wait, url) + [Note(RetryWarning(k + 1), Some("cl"), Some("yellow"))];
        AttemptsOutcome(maxRetry, delay, wait, url, net, k + 1, start + e + delay, sent, warned);
      }
  }

  /**
   * The timing: attempt k starts `wait` after the clock, and each later
   * attempt starts the previous attempt's duration, the retry delay and the
   * same `wait` after the previous one.  The clock ends when the last
   * attempt, which started at the last request timestamp, ends.
   */
  lemma {:induction false} AttemptsTiming(maxRetry: int, delay: real, wait: real, url: string, net: seq<Outcome>,
                                          k: nat, clock: real, gets: seq<Get>, notes: seq<Note>)
    requires k < |net| && maxRetry < |net| && |gets| == k
    ensures var t := Attempts(maxRetry, delay, wait, url, net, k, clock, gets, notes);
            && k < |t.gets| <= |net|
            && t.gets[k].at == clock + wait
            && (forall i :: k <= i < |t.gets| - 1 ==> t.gets[i + 1].at == t.gets[i].at + net[i].elapsed + delay + wait)
            && t.elapsed == net[|t.gets| - 1].elapsed
            && t.clock == t.lastStart + t.elapsed
    decreases |net| - k
  {
    var start := clock + wait;
    var sent := gets + [Get(url, start)];
    assert sent[k] == Get(url, start);
    match net[k]
    case Ok(_, _) =>
      AttemptAnswered(maxRetry, delay, wait, url, net, k, clock, gets, notes);
    case Fail(e) =>
      if k + 1 > maxRetry {
        AttemptGaveUp(maxRetry, delay, wait, url, net, k, clock, gets, notes);
      } else if delay < 0.0 {
        AttemptSleepFailed(maxRetry, delay, wait, url, net, k, clock, gets, notes);
      } else {
        AttemptRetried(maxRetry, delay, wait, url, net, k, clock, gets, notes);
        var warned := notes + Announcements(wait, url) + [Note(RetryWarning(k + 1), Some("cl"), Some("yellow"))];
        AttemptsTiming(maxRetry, delay, wait, url, net, k + 1, start + e + delay, sent, warned);
        AttemptsGets(maxRetry, delay, wait, url, net, k + 1, start + e + delay, sent, warned);
        var t := Attempts(maxRetry, delay, wait, url, net, k + 1, start + e + delay, sent, warned);
        assert t.gets[k] == sent[k];
      }
  }

  /** How many "waiting" messages a list of logger calls holds. */
  function CountWaits(notes: seq<Note>): nat
  {
    if notes == [] then 0
    else CountWaits(notes[..|notes| - 1]) + (if notes[|notes| - 1].message.IntervalWait? then 1 else 0)
  }

  lemma {:induction false} CountWaitsAppend(a: seq<Note>, b: seq<Note>)
    ensures CountWaits(a + b) == CountWaits(a) + CountWaits(b)
    decreases |b|
  {
    if b == [] {
      assert a + b == a;
    } else {
      assert (a + b)[..|a + b| - 1] == a + b[..|b| - 1];
      assert (a + b)[|a + b| - 1] == b[|b| - 1];
      CountWaitsAppend(a, b[..|b| - 1]);
    }
  }

  /** The logger calls an attempt makes before its GET: the wait notice when the wait is positive, then "request sent". */
  function Announcements(wait: real, url: string): seq<Note>
  {
    (if wait > 0.0 then [Note(IntervalWait(wait), Some("d"), None)] else []) + [Note(RequestSent(url), Some("d"), None)]
  }

  /** An attempt announces a wait once when it is positive, never otherwise, and only the call's own wait. */
  lemma AnnouncedWait(wait: real, url: string)
    ensures CountWaits(Announcements(wait, url)) == if wait > 0.0 then 1 else 0
    ensures forall n :: n in Announcements(wait, url) && n.message.IntervalWait? ==> n.message.wait == wait
  {
    var gate := if wait > 0.0 then [Note(IntervalWait(wait), Some("d"), None)] else [];
    CountWaitsAppend(gate, [Note(RequestSent(url), Some("d"), None)]);
    assert CountWaits([Note(RequestSent(url), Some("d"), None)]) == 0;
  }

  /** The calls logged after an attempt's GET never announce a wait. */
  lemma NoWaitAfterGet(e: real, k: nat)
    ensures CountWaits([Note(ResponseReceived(e), Some("d"), None)]) == 0
    ensures CountWaits([Note(RetrieveError, Some("cl"), Some("red"))]) == 0
    ensures CountWaits([Note(RetryWarning(k), Some("cl"), Some("yellow"))]) == 0
  {
  }

  /**
   * The wait is computed once per call: a positive wait is announced (and
   * slept) before every attempt, retries included; a wait that is not
   * positive is never announced.
   */
  lemma {:induction false} WaitBeforeEveryAttempt(maxRetry: int, delay: real, wait: real, url: string, net: seq<Outcome>,
                                                  k: nat, clock: real, gets: seq<Get>, notes: seq<Note>)
    requires k < |net| && maxRetry < |net| && |gets| == k
    ensures var t := Attempts(maxRetry, delay, wait, url, net, k, clock, gets, notes);
            CountWaits(t.notes) == CountWaits(notes) + (if wait > 0.0 then |t.gets| - k else 0)
    decreases |net| - k
  {
    if net[k].Fail? && k + 1 <= maxRetry && delay >= 0.0 {
      var warned := notes + Announcements(wait, url) + [Note(RetryWarning(k + 1), Some("cl"), Some("yellow"))];
      WaitBeforeEveryAttempt(maxRetry, delay, wait, url, net, k + 1, clock + wait + net[k].elapsed + delay,
                             gets + [Get(url, clock + wait)], warned);
      WaitsRetried(maxRetry, delay, wait, url, net, k, clock, gets, notes);
    } else {
      WaitsLast(maxRetry, delay, wait, url, net, k, clock, gets, notes);
    }
  }

  /** An attempt announces the call's wait once, and its closing log calls announce none. */
  lemma WaitsAnnounced(wait: real, url: string, e: real, k: nat, notes: seq<Note>)
    ensures CountWaits(notes + Announcements(wait, url)) == CountWaits(notes) + (if wait > 0.0 then 1 else 0)
    ensures var told := notes + Announcements(wait, url);
            && CountWaits(told + [Note(ResponseReceived(e), Some("d"), None)]) == CountWaits(told)
            && CountWaits(told + [Note(RetrieveError, Some("cl"), Some("red"))]) == CountWaits(told)
            && CountWaits(told + [Note(RetryWarning(k), Some("cl"), Some("yellow"))]) == CountWaits(told)
  {
    var told := notes + Announcements(wait, url);
    CountWaitsAppend(notes, Announcements(wait, url));
    AnnouncedWait(wait, url);
    NoWaitAfterGet(e, k);
    CountWaitsAppend(told, [Note(ResponseReceived(e), Some("d"), None)]);
    CountWaitsAppend(told, [Note(RetrieveError, Some("cl"), Some("red"))]);
    CountWaitsAppend(told, [Note(RetryWarning(k), Some("cl"), Some("yellow"))]);
  }

  /** The wait count of an attempt that ends the call. */
  lemma WaitsLast(maxRetry: int, delay: real, wait: real, url: string, net: seq<Outcome>,
                  k: nat, clock: real, gets: seq<Get>, notes: seq<Note>)
    requires k < |net| && maxRetry < |net| && |gets| == k
    requires !(net[k].Fail? && k + 1 <= maxRetry && delay >= 0.0)
    ensures var t := Attempts(maxRetry, delay, wait, url, net, k, clock, gets, notes);
            CountWaits(t.notes) == CountWaits(notes) + (if wait > 0.0 then |t.gets| - k else 0)
  {
    var t := Attempts(maxRetry, delay, wait, url, net, k, clock, gets, notes);
    var told := notes + Announcements(wait, url);
    WaitsAnnounced(wait, url, net[k].elapsed, k + 1, notes);
    if net[k].Ok? {
      AttemptAnswered(maxRetry, delay, wait, url, net, k, clock, gets, notes);
      if IsOk(net[k].response) {
        assert t.notes == told + [Note(ResponseReceived(net[k].elapsed), Some("d"), None)];
      } else {
        assert told + [] == told;
        assert t.notes == told;
      }
    } else if k + 1 > maxRetry {
      AttemptGaveUp(maxRetry, delay, wait, url, net, k, clock, gets, notes);
      assert t.notes == told + [Note(RetrieveError, Some("cl"), Some("red"))];
    } else {
      AttemptSleepFailed(maxRetry, delay, wait, url, net, k, clock, gets, notes);
      assert t.notes == told + [Note(RetryWarning(k + 1), Some("cl"), Some("yellow"))];
    }
    assert |t.gets| == k + 1;
  }

  /** A retried attempt adds the call's wait once to the count of the attempts after it. */
  lemma WaitsRetried(maxRetry: int, delay: real, wait: real, url: string, net: seq<Outcome>,
                     k: nat, clock: real, gets: seq<Get>, notes: seq<Note>)
    requires k < |net| && maxRetry < |net| && |gets| == k
    requires net[k].Fail? && k + 1 <= maxRetry && delay >= 0.0
    requires var warned := notes + Announcements(wait, url) + [Note(RetryWarning(k + 1), Some("cl"), Some("yellow"))];
             var rest := Attempts(maxRetry, delay, wait, url, net, k + 1, clock + wait + net[k].elapsed + delay,
                                  gets + [Get(url, clock + wait)], warned);
             CountWaits(rest.notes) == CountWaits(warned) + (if wait > 0.0 then |rest.gets| - (k + 1) else 0)
    ensures var t := Attempts(maxRetry, delay, wait, url, net, k, clock, gets, notes);
            CountWaits(t.notes) == CountWaits(notes) + (if wait > 0.0 then |t.gets| - k else 0)
  {
    AttemptRetried(maxRetry, delay, wait, url, net, k, clock, gets, notes);
    WaitsAnnounced(wait, url, net[k].elapsed, k + 1, notes);
  }

  /** The logger calls made from attempt `k` on announce no wait but the call's own. */
  lemma {:induction false} FreshWaits(maxRetry: int, delay: real, wait: real, url: string, net: seq<Outcome>,
                                      k: nat, clock: real, gets: seq<Get>)
    requires k < |net| && maxRetry < |net|
    ensures forall n :: n in Attempts(maxRetry, delay, wait, url, net, k, clock, gets, []).notes && n.message.IntervalWait?
                        ==> n.message.wait == wait
    decreases |net| - k
  {
    var ann := Announcements(wait, url);
    AnnouncedWait(wait, url);
    var told: seq<Note> := [] + ann;
    var start := clock + wait;
    match net[k]
    case Ok(_, _) =>
      AttemptAnswered(maxRetry, delay, wait, url, net, k, clock, gets, []);
    case Fail(e) =>
      if k + 1 > maxRetry {
        AttemptGaveUp(maxRetry, delay, wait, url, net, k, clock, gets, []);
      } else if delay < 0.0 {
        AttemptSleepFailed(maxRetry, delay, wait, url, net, k, clock, gets, []);
      } else {
        var warned := told + [Note(RetryWarning(k + 1), Some("cl"), Some("yellow"))];
        var sent := gets + [Get(url, start)];
        AttemptRetried(maxRetry, delay, wait, url, net, k, clock, gets, []);
        AttemptsPrefix(maxRetry, delay, wait, url, net, k + 1, start + e + delay, sent, [], [], warned);
        assert [] + sent == sent && warned + [] == warned;
        FreshWaits(maxRetry, delay, wait, url, net, k + 1, start + e + delay, sent);
      }
  }

  /** Every wait announced during a call is the one computed at its start; earlier logger calls are kept. */
  lemma SameWaitEveryAttempt(maxRetry: int, delay: real, wait: real, url: string, net: seq<Outcome>,
                             k: nat, clock: real, gets: seq<Get>, notes: seq<Note>)
    requires k < |net| && maxRetry < |net|
    ensures var t := Attempts(maxRetry, delay, wait, url, net, k, clock, gets, notes);
            && |t.notes| >= |notes| && t.notes[..|notes|] == notes
            && (forall n :: n in t.notes[|notes|..] && n.message.IntervalWait? ==> n.message.wait == wait)
  {
    AttemptsPrefix(maxRetry, delay, wait, url, net, k, clock, gets, [], [], notes);
    assert [] + gets == gets && notes + [] == notes;
    var later := Attempts(maxRetry, delay, wait, url, net, k, clock, gets, []).notes;
    FreshWaits(maxRetry, delay, wait, url, net, k, clock, gets);
    var t := Attempts(maxRetry, delay, wait, url, net, k, clock, gets, notes);
    assert t.notes == notes + later;
    assert t.notes[|notes|..] == later;
  }

  /**
   * The first attempt of a call starts no earlier than the previous
   * `last_request_timestamp` plus the interval, and no earlier than the
   * clock at entry: it starts at the later of the two.
   */
  lemma FirstAttemptGated(maxRetry: int, interval: real, delay: real, last: real, now: real, url: string, net: seq<Outcome>)
    requires Floor0(maxRetry) < |net|
    ensures var t := Call(maxRetry, interval, delay, last, now, url, net);
            && |t.gets| > 0 && t.gets[0].at >= last + interval && t.gets[0].at >= now
            && t.gets[0].at == if now < last + interval then last + interval else now
  {
    AttemptsTiming(maxRetry, delay, GateWait(last, interval, now), url, net, 0, now, [], []);
  }

  /**
   * An endpoint whose every attempt fails gets exactly maxRetry + 1 attempts
   * (one if maxRetry is negative), after which the last error is re-raised.
   */
  lemma AlwaysFailing(maxRetry: int, interval: real, delay: real, last: real, now: real, url: string, net: seq<Outcome>)
    requires Floor0(maxRetry) < |net| && delay >= 0.0
    requires forall i :: 0 <= i < |net| ==> net[i].Fail?
    ensures var t := Call(maxRetry, interval, delay, last, now, url, net);
            && |t.gets| == Floor0(maxRetry) + 1
            && t.reply == Raised(TransportError(Floor0(maxRetry)))
            && t.retryCount == Floor0(maxRetry) + 1
  {
    AttemptsGets(maxRetry, delay, GateWait(last, interval, now), url, net, 0, now, [], []);
    AttemptsOutcome(maxRetry, delay, GateWait(last, interval, now), url, net, 0, now, [], []);
    var t := Call(maxRetry, interval, delay, last, now, url, net);
    assert net[|t.gets| - 1].Fail?;
    assert t.reply.Raised? && t.reply != Raised(SleepError);
    assert t.reply.failure.attempt == |t.gets| - 1;
  }

  /**
   * The first transport success ends the call: no further attempt is made,
   * the retry count is the number of failures before it, and the response
   * is returned when truthy and replaced by None when falsy.
   */
  lemma FirstSuccessEndsCall(maxRetry: int, interval: real, delay: real, last: real, now: real, url: string,
                             net: seq<Outcome>, j: nat)
    requires Floor0(maxRetry) < |net| && delay >= 0.0
    requires j < |net| && j <= maxRetry && net[j].Ok?
    requires forall i :: 0 <= i < j ==> net[i].Fail?
    ensures var t := Call(maxRetry, interval, delay, last, now, url, net);
            && |t.gets| == j + 1
            && t.retryCount == j
            && t.reply == (if IsOk(net[j].response) then Returned(net[j].response) else NoResponse)
  {
    AttemptsGets(maxRetry, delay, GateWait(last, interval, now), url, net, 0, now, [], []);
    AttemptsOutcome(maxRetry, delay, GateWait(last, interval, now), url, net, 0, now, [], []);
  }

  /**
   * The interval is not enforced between the attempts of one call: with the
   * sample interval of 1 second and a retry delay of 0.1 second, a call
   * entered long after the last request retries 0.1 second after its first
   * attempt.
   */
  lemma RetriesNotSpacedByInterval(url: string)
    ensures var net := [Fail(0.0), Fail(0.0), Ok(0.0, Response(200, 0))];
            var t := Call(2, 1.0, 0.1, 0.0, 10.0, url, net);
            && t.reply == Returned(Response(200, 0))
            && |t.gets| == 3
            && t.gets[1].at - t.gets[0].at < 1.0
            && t.clock - 10.0 < 2.0 * 1.0 + 2.0 * 0.1
  {
    var net := [Fail(0.0), Fail(0.0), Ok(0.0, Response(200, 0))];
    AttemptsTiming(2, 0.1, 0.0, url, net, 0, 10.0, [], []);
    FirstSuccessEndsCall(2, 1.0, 0.1, 0.0, 10.0, url, net, 2);
  }

  /** With the shipped settings (interval 1, 3 retries, delay 5) a dead endpoint is tried 4 times, 5 seconds plus the call's wait apart. */
  lemma SampleSettingsDeadEndpoint(last: real, now: real, url: string, net: seq<Outcome>)
    requires |net| == 4 && forall i :: 0 <= i < 4 ==> net[i] == Fail(0.0)
    ensures var t := Call(3, 1.0, 5.0, last, now, url, net);
            && |t.gets| == 4
            && t.reply == Raised(TransportError(3))
            && forall i :: 0 <= i < 3 ==> t.gets[i + 1].at == t.gets[i].at + 5.0 + GateWait(last, 1.0, now)
  {
    AlwaysFailing(3, 1.0, 5.0, last, now, url, net);
    AttemptsTiming(3, 5.0, GateWait(last, 1.0, now), url, net, 0, now, [], []);
  }

  /** The reply a call ends with after the loop stopped at attempt `k` with `step`. */
  function Ending(step: Step, k: nat): Reply
  {
    match step
    case Answered(response) => if IsOk(response) then Returned(response) else NoResponse
    case GaveUp => Raised(TransportError(k))
    case SleepFailed => Raised(SleepError)
    case Retrying => NoResponse
  }

  /** The logger call that follows the loop: "response received" exactly for a truthy response. */
  function Received(step: Step, elapsed: real): seq<Note>
  {
    if step.Answered? && IsOk(step.response) then [Note(ResponseReceived(elapsed), Some("d"), None)] else []
  }

  /** The process clock. */
  class Clock {
    var time: real

    constructor (start: real)
      ensures time == start
    {
      time := start;
    }

    /** `time.sleep`: a negative duration raises ValueError and does not sleep. */
    method Sleep(seconds: real) returns (raised: bool)
      modifies this
      ensures raised == (seconds < 0.0)
      ensures time == old(time) + (if raised then 0.0 else seconds)
    {
      raised := seconds < 0.0;
      if !raised {
        time := time + seconds;
      }
    }

    /** Time passing while a network call is in progress. */
    method Pass(seconds: real)
      modifies this
      ensures time == old(time) + seconds
    {
      time := time + seconds;
    }
  }

  /**
   * The request handler.  `sent` is the trace of GETs and `notes` the trace
   * of logger calls.  The GET's redirect flag, timeout and headers are the
   * configuration fields, which no method changes.
   */
  class RequestHandler {
    var maxRetry: int
    var redirectsAllowed: bool
    var responseTimeout: real
    var requestHeaders: Option<map<string, string>>
    var minRequestInterval: Option<real>
    var delayOnRetry: Option<real>
    var lastRequestTimestamp: real
    var retryCount: int
    var responseDuration: real
    var responseSizeKb: real
    var sent: seq<Get>
    var notes: seq<Note>

    constructor (maxRetry: int, redirectsAllowed: bool, responseTimeout: real, requestHeaders: Option<map<string, string>>,
                 minRequestInterval: Option<real>, delayOnRetry: Option<real>)
      ensures this.maxRetry == maxRetry && this.redirectsAllowed == redirectsAllowed
      ensures this.responseTimeout == responseTimeout && this.requestHeaders == requestHeaders
      ensures this.minRequestInterval == minRequestInterval && this.delayOnRetry == delayOnRetry
      ensures lastRequestTimestamp == 0.0 && responseDuration == 0.0 && responseSizeKb == 0.0
      ensures sent == [] && notes == []
    {
      this.maxRetry := maxRetry;
      this.redirectsAllowed := redirectsAllowed;
      this.responseTimeout := responseTimeout;
      this.requestHeaders := requestHeaders;
      this.minRequestInterval := minRequestInterval;
      this.delayOnRetry := delayOnRetry;
      lastRequestTimestamp := 0.0;
      retryCount := 0;
      responseDuration := 0.0;
      responseSizeKb := 0.0;
      sent := [];
      notes := [];
    }

    /** The configuration fields, which `request` and `retry` never change. */
    ghost predicate SameConfig(maxRetry0: int, redirects0: bool, timeout0: real, headers0: Option<map<string, string>>,
                               interval0: Option<real>, delay0: Option<real>)
      reads this
    {
      maxRetry == maxRetry0 && redirectsAllowed == redirects0 && responseTimeout == timeout0
      && requestHeaders == headers0 && minRequestInterval == interval0 && delayOnRetry == delay0
    }

    /**
     * `retry`: count one more failure; give up when the count exceeds
     * `max_retry`, otherwise warn and sleep the retry delay.
     */
    method Retry(clock: Clock) returns (retrying: bool, sleepRaised: bool)
      requires delayOnRetry.Some?
      modifies this`retryCount, this`notes, clock
      ensures retryCount == old(retryCount) + 1
      ensures retrying == (retryCount <= maxRetry)
      ensures !retrying ==> !sleepRaised && notes == old(notes) && clock.time == old(clock.time)
      ensures retrying ==>
                && notes == old(notes) + [Note(RetryWarning(retryCount), Some("cl"), Some("yellow"))]
                && sleepRaised == (delayOnRetry.value < 0.0)
                && clock.time == old(clock.time) + (if sleepRaised then 0.0 else delayOnRetry.value)
    {
      retryCount := retryCount + 1;
      if retryCount > maxRetry {
        return false, false;
      }
      notes := notes + [Note(RetryWarning(retryCount), Some("cl"), Some("yellow"))];
      sleepRaised := clock.Sleep(delayOnRetry.value);
      retrying := true;
    }

    /**
     * The part of one attempt before its GET: sleep the wait computed at the
     * start of the call if it is positive, log, and take the timestamp.
     */
    method Announce(nextAllowedRequest: real, currentTime: real, url: string, clock: Clock)
      modifies this`notes, this`lastRequestTimestamp, this`sent, clock
      ensures var wait := if currentTime < nextAllowedRequest then nextAllowedRequest - currentTime else 0.0;
              && notes == old(notes) + Announcements(wait, url)
              && clock.time == old(clock.time) + wait
              && lastRequestTimestamp == clock.time
              && sent == old(sent) + [Get(url, clock.time)]
    {
      if currentTime < nextAllowedRequest {
        var waitTime := nextAllowedRequest - currentTime;
        notes := notes + [Note(IntervalWait(waitTime), Some("d"), None)];
        var _ := clock.Sleep(waitTime);
      }
      notes := notes + [Note(RequestSent(url), Some("d"), None)];
      lastRequestTimestamp := clock.time;
      sent := sent + [Get(url, clock.time)];
    }

    /**
     * `request(url)`.  Both `min_request_interval` and `delay_on_retry`
     * must be numbers (they default to None, which the arithmetic and
     * `sleep` reject); `net` lists what every attempt the call can make does.
     */
    method Request(url: string, clock: Clock, net: seq<Outcome>) returns (reply: Reply)
      requires minRequestInterval.Some? && delayOnRetry.Some?
      requires Floor0(maxRetry) < |net|
      modifies this, clock
      ensures SameConfig(old(maxRetry), old(redirectsAllowed), old(responseTimeout), old(requestHeaders),
                         old(minRequestInterval), old(delayOnRetry))
      ensures var t := Call(maxRetry, minRequestInterval.value, delayOnRetry.value,
                            old(lastRequestTimestamp), old(clock.time), url, net);
              && reply == t.reply
              && retryCount == t.retryCount
              && lastRequestTimestamp == t.lastStart
              && clock.time == t.clock
              && sent == old(sent) + t.gets
              && notes == old(notes) + t.notes
              && (t.reply.Returned? ==>
                    responseDuration == t.elapsed && responseSizeKb == t.reply.response.contentLength as real / 1024.0)
              && (t.reply == NoResponse ==> responseDuration == 0.0 && responseSizeKb == 0.0)
              && (t.reply.Raised? ==>
                    responseDuration == old(responseDuration) && responseSizeKb == old(responseSizeKb))
    {
      var nextAllowedRequest := lastRequestTimestamp + minRequestInterval.value;
      var currentTime := clock.time;
      retryCount := 0;
      ghost var wait := GateWait(lastRequestTimestamp, minRequestInterval.value, currentTime);
      assert wait == if currentTime < nextAllowedRequest then nextAllowedRequest - currentTime else 0.0;
      AttemptsPrefix(maxRetry, delayOnRetry.value, wait, url, net, 0, currentTime, [], [], sent, notes);
      assert sent + [] == sent && notes + [] == notes;
      ghost var t := Attempts(maxRetry, delayOnRetry.value, wait, url, net, 0, currentTime, sent, notes);
      var step, k := Loop(url, clock, net, nextAllowedRequest, currentTime, t);
      if step.Answered? {
        reply := Conclude(step.response, clock.time);
      } else if step == GaveUp {
        reply := Raised(TransportError(k));
      } else {
        reply := Raised(SleepError);
      }
    }

    /**
     * The `while True` loop of `request`: attempts until one gets a response,
     * `retry` gives up (logging the error) or its sleep raises.  The wait is
     * the one computed from `nextAllowedRequest` and `currentTime` at the
     * start of the call.
     */
    method Loop(url: string, clock: Clock, net: seq<Outcome>, nextAllowedRequest: real, currentTime: real,
                ghost t: Trial)
      returns (step: Step, k: nat)
      requires delayOnRetry.Some? && Floor0(maxRetry) < |net| && retryCount == 0
      requires t == Attempts(maxRetry, delayOnRetry.value,
                             if currentTime < nextAllowedRequest then nextAllowedRequest - currentTime else 0.0,
                             url, net, 0, clock.time, sent, notes)
      modifies this`notes, this`lastRequestTimestamp, this`sent, this`retryCount, clock
      ensures step != Retrying
      ensures var elapsed := clock.time - lastRequestTimestamp;
              t == Trial(Ending(step, k), retryCount, lastRequestTimestamp, clock.time, sent,
                         notes + Received(step, elapsed), elapsed)
    {
      ghost var m, d := maxRetry, delayOnRetry.value;
      ghost var wait := if currentTime < nextAllowedRequest then nextAllowedRequest - currentTime else 0.0;
      k := 0;
      while true
        invariant k < |net| && retryCount == k && (k == 0 || k <= m)
        invariant Attempts(m, d, wait, url, net, k, clock.time, sent, notes) == t
        decreases |net| - k
      {
        step := Iteration(url, clock, net, nextAllowedRequest, currentTime, k, t);
        if step != Retrying {
          return;
        }
        k := k + 1;
      }
    }

    /**
     * One pass of the loop body: attempt `k` and, when no retry follows, the
     * error logged before re-raising.  `t` is the call's trial from this
     * attempt on.
     */
    method Iteration(url: string, clock: Clock, net: seq<Outcome>, nextAllowedRequest: real, currentTime: real,
                     k: nat, ghost t: Trial)
      returns (step: Step)
      requires delayOnRetry.Some? && maxRetry < |net| && k < |net| && retryCount == k
      requires t == Attempts(maxRetry, delayOnRetry.value,
                             if currentTime < nextAllowedRequest then nextAllowedRequest - currentTime else 0.0,
                             url, net, k, clock.time, sent, notes)
      modifies this`notes, this`lastRequestTimestamp, this`sent, this`retryCount, clock
      ensures step == Retrying ==>
                && k + 1 < |net| && k + 1 <= maxRetry && retryCount == k + 1
                && t == Attempts(maxRetry, delayOnRetry.value,
                                 if currentTime < nextAllowedRequest then nextAllowedRequest - currentTime else 0.0,
                                 url, net, k + 1, clock.time, sent, notes)
      ensures var elapsed := clock.time - lastRequestTimestamp;
              step != Retrying ==>
                t == Trial(Ending(step, k), retryCount, lastRequestTimestamp, clock.time, sent,
                           notes + Received(step, elapsed), elapsed)
    {
      ghost var m, d := maxRetry, delayOnRetry.value;
      ghost var wait := if currentTime < nextAllowedRequest then nextAllowedRequest - currentTime else 0.0;
      ghost var clockAtStart, sentBefore, notesBefore := clock.time, sent, notes;
      step := Attempt(url, clock, nextAllowedRequest, currentTime, net[k]);
      if step.Answered? {
        AttemptAnswered(m, d, wait, url, net, k, clockAtStart, sentBefore, notesBefore);
      } else if step == GaveUp {
        AttemptGaveUp(m, d, wait, url, net, k, clockAtStart, sentBefore, notesBefore);
        notes := notes + [Note(RetrieveError, Some("cl"), Some("red"))];
      } else if step == SleepFailed {
        AttemptSleepFailed(m, d, wait, url, net, k, clockAtStart, sentBefore, notesBefore);
      } else {
        AttemptRetried(m, d, wait, url, net, k, clockAtStart, sentBefore, notesBefore);
      }
    }

    /**
     * One attempt: the wait, the GET (whose outcome is `outcome`) and, after
     * a transport error, `retry`.
     */
    method Attempt(url: string, clock: Clock, nextAllowedRequest: real, currentTime: real, outcome: Outcome)
      returns (step: Step)
      requires delayOnRetry.Some?
      modifies this`notes, this`lastRequestTimestamp, this`sent, this`retryCount, clock
      ensures var wait := if currentTime < nextAllowedRequest then nextAllowedRequest - currentTime else 0.0;
              var start := old(clock.time) + wait;
              var told := old(notes) + Announcements(wait, url);
              && lastRequestTimestamp == start
              && sent == old(sent) + [Get(url, start)]
              && (outcome.Ok? ==>
                    step == Answered(outcome.response) && retryCount == old(retryCount)
                    && notes == told && clock.time == start + outcome.elapsed)
              && (outcome.Fail? && old(retryCount) + 1 > maxRetry ==>
                    step == GaveUp && retryCount == old(retryCount) + 1
                    && notes == told && clock.time == start + outcome.elapsed)
              && (outcome.Fail? && old(retryCount) + 1 <= maxRetry ==>
                    && step == (if delayOnRetry.value < 0.0 then SleepFailed else Retrying)
                    && retryCount == old(retryCount) + 1
                    && notes == told + [Note(RetryWarning(retryCount), Some("cl"), Some("yellow"))]
                    && clock.time == start + outcome.elapsed + (if delayOnRetry.value < 0.0 then 0.0 else delayOnRetry.value))
    {
      Announce(nextAllowedRequest, currentTime, url, clock);
      clock.Pass(outcome.elapsed);
      if outcome.Ok? {
        return Answered(outcome.response);
      }
      var retrying, sleepRaised := Retry(clock);
      step := if !retrying then GaveUp else if sleepRaised then SleepFailed else Retrying;
    }

    /**
     * The end of a call that got a response: a truthy one is returned and
     * its duration and size recorded; a falsy one yields None and resets both to 0.
     */
    method Conclude(response: Response, receivedAt: real) returns (reply: Reply)
      modifies this`responseDuration, this`responseSizeKb, this`notes
      ensures IsOk(response) ==>
                && reply == Returned(response)
                && responseDuration == receivedAt - lastRequestTimestamp
                && responseSizeKb == response.contentLength as real / 1024.0
                && notes == old(notes) + [Note(ResponseReceived(receivedAt - lastRequestTimestamp), Some("d"), None)]
      ensures !IsOk(response) ==>
                reply == NoResponse && responseDuration == 0.0 && responseSizeKb == 0.0 && notes == old(notes)
    {
      if IsOk(response) {
        responseDuration := receivedAt - lastRequestTimestamp;
        responseSizeKb := response.contentLength as real / 1024.0;
        notes := notes + [Note(ResponseReceived(responseDuration), Some("d"), None)];
        return Returned(response);
      }
      responseDuration := 0.0;
      responseSizeKb := 0.0;
      reply := NoResponse;
    }
  }
}
