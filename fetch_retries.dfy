/**
 * `fetch_data_with_retries(url, retries, delay, timeout)`: a fixed-delay
 * retry loop around one HTTP GET. What one attempt does (the request, the
 * status check, the decoding of the body) is an oracle `outcome(attempt)`;
 * the requests made and the sleeps taken are recorded as a trace in place
 * of the network and the clock.
 */
module FetchRetries {
  import opened JsonValue

  /** The exception classes the loop tells apart: the two it catches and
      every other one. `raise_for_status` raises an HTTPError, a
      RequestException. */
  datatype ExceptionKind = RequestException | ConnectionResetError | OtherException

  datatype Exception = Exception(kind: ExceptionKind, message: string)

  /** What one attempt does: the decoded body of a successful response, or
      the exception raised on the way. */
  datatype Attempt = Responded(body: Json) | Raised(error: Exception)

  /** What a call ends with: a returned body, the `None` of a loop that never
      ran, or an exception that escapes. */
  datatype Outcome = Returned(body: Json) | ReturnedNone | Raises(error: Exception)

  /** One entry of the trace: a request for an attempt, or a sleep. */
  datatype Step = Request(attempt: nat) | Sleep(seconds: nat)

  /** The `except (RequestException, ConnectionResetError)` clause. */
  predicate Caught(e: Exception) {
    e.kind == RequestException || e.kind == ConnectionResetError
  }

  /** An attempt the loop retries (or re-raises on the last round). */
  predicate Retryable(a: Attempt) {
    a.Raised? && Caught(a.error)
  }

  /** What the loop makes of the attempt it stops at. */
  function Settle(a: Attempt): Outcome {
    match a
    case Responded(body) => Returned(body)
    case Raised(e) => Raises(e)
  }

  /** The attempt the loop stops at when it starts at attempt `from`: the
      first one that is not retryable, or the last one there is. */
  function StopsAt(outcome: nat -> Attempt, retries: int, from: nat): (k: nat)
    requires from < retries
    ensures from <= k < retries
    ensures forall m | from <= m < k :: Retryable(outcome(m))
    ensures k < retries - 1 ==> !Retryable(outcome(k))
    decreases retries - from
  {
    if !Retryable(outcome(from)) || from == retries - 1 then from else StopsAt(outcome, retries, from + 1)
  }

  /** Requests for attempts `from` .. `last`, a sleep of `delay` between
      each two. */
  function Schedule(from: nat, last: nat, delay: nat): (trace: seq<Step>)
    requires from <= last
    ensures |trace| == 2 * (last - from) + 1
    decreases last - from
  {
    if from == last then [Request(last)] else [Request(from), Sleep(delay)] + Schedule(from + 1, last, delay)
  }

  /** The loop from attempt `from` on, one round per call: the outcome and
      the trace of requests and sleeps. */
  function Run(outcome: nat -> Attempt, retries: int, delay: nat, from: nat): (Outcome, seq<Step>)
    decreases retries - from
  {
    if retries <= from then (ReturnedNone, [])
    else
      var a := outcome(from);
      if Retryable(a) && from < retries - 1 then
        var rest := Run(outcome, retries, delay, from + 1);
        (rest.0, [Request(from), Sleep(delay)] + rest.1)
      else (Settle(a), [Request(from)])
  }

  /** The loop. `trace` holds, in order, the request of every attempt made
      and the sleep after every attempt that is retried. */
  method FetchWithRetries(outcome: nat -> Attempt, retries: int, delay: nat) returns (r: Outcome, trace: seq<Step>)
    ensures (r, trace) == Run(outcome, retries, delay, 0)
  {
    trace := [];
    var attempt: nat := 0;
    while attempt < retries
      invariant Run(outcome, retries, delay, 0).0 == Run(outcome, retries, delay, attempt).0
      invariant Run(outcome, retries, delay, 0).1 == trace + Run(outcome, retries, delay, attempt).1
      decreases retries - attempt
    {
      RunStep(outcome, retries, delay, attempt);
      var a := outcome(attempt);
      // On each return, this round is the last one of `Run`.
      if a.Responded? {
        assert Run(outcome, retries, delay, 0) == (Settle(a), trace + [Request(attempt)]);
        return Returned(a.body), trace + [Request(attempt)];
      }
      if !Caught(a.error) {
        assert Run(outcome, retries, delay, 0) == (Settle(a), trace + [Request(attempt)]);
        return Raises(a.error), trace + [Request(attempt)];
      }
      if attempt < retries - 1 {
        trace := trace + [Request(attempt), Sleep(delay)];
      } else {
        assert Run(outcome, retries, delay, 0) == (Settle(a), trace + [Request(attempt)]);
        return Raises(a.error), trace + [Request(attempt)];
      }
      attempt := attempt + 1;
    }
    assert Run(outcome, retries, delay, attempt) == (ReturnedNone, []);
    assert trace + [] == trace;
    r := ReturnedNone;
  }

  /** One round of the loop. */
  lemma RunStep(outcome: nat -> Attempt, retries: int, delay: nat, from: nat)
    requires from < retries
    ensures var a, run := outcome(from), Run(outcome, retries, delay, from);
            && (Retryable(a) && from < retries - 1 ==>
                  var rest := Run(outcome, retries, delay, from + 1);
                  run == (rest.0, [Request(from), Sleep(delay)] + rest.1))
            && (!Retryable(a) || from == retries - 1 ==> run == (Settle(a), [Request(from)]))
  {
  }

  /** With `retries <= 0` no request is made and the call returns None. */
  lemma NoRetriesNoRequest(outcome: nat -> Attempt, retries: int, delay: nat)
    requires retries <= 0
    ensures Run(outcome, retries, delay, 0) == (ReturnedNone, [])
  {
  }

  /** Otherwise the loop stops at attempt k = StopsAt: every earlier attempt
      failed with a caught exception and was followed by a sleep of exactly
      `delay`, attempt k is the last request, and the call ends with what
      attempt k did — its body, or its exception re-raised. */
  lemma {:induction false} RunStopsAt(outcome: nat -> Attempt, retries: int, delay: nat, from: nat)
    requires from < retries
    ensures var k := StopsAt(outcome, retries, from);
            Run(outcome, retries, delay, from) == (Settle(outcome(k)), Schedule(from, k, delay))
    decreases retries - from
  {
    if Retryable(outcome(from)) && from < retries - 1 {
      RunStopsAt(outcome, retries, delay, from + 1);
    }
  }

  /** The shape of a schedule: the request for attempt `from + m` at
      position 2m, and after it, unless it is the last, a sleep of `delay`. */
  lemma {:induction false} ScheduleAt(from: nat, last: nat, delay: nat, m: nat)
    requires from + m <= last
    ensures Schedule(from, last, delay)[2 * m] == Request(from + m)
    ensures from + m < last ==> Schedule(from, last, delay)[2 * m + 1] == Sleep(delay)
    decreases last - from
  {
    if 0 < m {
      ScheduleAt(from + 1, last, delay, m - 1);
    }
  }

  /** The number of sleeps in a trace. */
  function Sleeps(trace: seq<Step>): nat {
    if trace == [] then 0 else (if trace[0].Sleep? then 1 else 0) + Sleeps(trace[1..])
  }

  /** The number of requests in a trace. */
  function Requests(trace: seq<Step>): nat {
    if trace == [] then 0 else (if trace[0].Request? then 1 else 0) + Requests(trace[1..])
  }

  /** A schedule up to attempt `last` holds one request per attempt and one
      sleep fewer. */
  lemma {:induction false} ScheduleCounts(from: nat, last: nat, delay: nat)
    requires from <= last
    ensures Requests(Schedule(from, last, delay)) == last - from + 1
    ensures Sleeps(Schedule(from, last, delay)) == last - from
    decreases last - from
  {
    var trace := Schedule(from, last, delay);
    if from < last {
      ScheduleCounts(from + 1, last, delay);
      assert trace[1..][1..] == Schedule(from + 1, last, delay);
    }
  }

  /** At most `retries` requests are made, and one sleep fewer. */
  lemma AttemptsBounded(outcome: nat -> Attempt, retries: int, delay: nat)
    ensures retries <= 0 ==> Requests(Run(outcome, retries, delay, 0).1) == 0
    ensures 0 < retries ==> 1 <= Requests(Run(outcome, retries, delay, 0).1) <= retries
    ensures 0 < retries ==> Sleeps(Run(outcome, retries, delay, 0).1) == Requests(Run(outcome, retries, delay, 0).1) - 1
  {
    if 0 < retries {
      RunStopsAt(outcome, retries, delay, 0);
      ScheduleCounts(0, StopsAt(outcome, retries, 0), delay);
    }
  }

  /** The default arguments `retries=5` and `delay=10`. */
  const DefaultRetries := 5
  const DefaultDelay := 10

  /** With the defaults a call makes one to five requests and sleeps at most
      four times, 10 seconds each. */
  lemma DefaultBudget(outcome: nat -> Attempt)
    ensures var trace := Run(outcome, DefaultRetries, DefaultDelay, 0).1;
            1 <= Requests(trace) <= 5 && Sleeps(trace) <= 4
    ensures forall n | 0 <= n < |Run(outcome, DefaultRetries, DefaultDelay, 0).1| ::
              Run(outcome, DefaultRetries, DefaultDelay, 0).1[n].Sleep? ==>
              Run(outcome, DefaultRetries, DefaultDelay, 0).1[n] == Sleep(10)
  {
    AttemptsBounded(outcome, DefaultRetries, DefaultDelay);
    RunStopsAt(outcome, DefaultRetries, DefaultDelay, 0);
    ScheduleSleeps(0, StopsAt(outcome, DefaultRetries, 0), DefaultDelay);
  }

  /** Every sleep in a schedule lasts `delay`. */
  lemma {:induction false} ScheduleSleeps(from: nat, last: nat, delay: nat)
    requires from <= last
    ensures forall n | 0 <= n < |Schedule(from, last, delay)| ::
              Schedule(from, last, delay)[n].Sleep? ==> Schedule(from, last, delay)[n] == Sleep(delay)
    decreases last - from
  {
    if from < last {
      ScheduleSleeps(from + 1, last, delay);
      var trace, rest := Schedule(from, last, delay), Schedule(from + 1, last, delay);
      assert forall n | 2 <= n < |trace| :: trace[n] == rest[n - 2];
    }
  }

  /** The first successful attempt, after k caught failures, ends the loop:
      its body is returned after k + 1 requests and k sleeps. */
  lemma FirstSuccessReturned(outcome: nat -> Attempt, retries: int, delay: nat, k: nat)
    requires k < retries
    requires forall m | 0 <= m < k :: Retryable(outcome(m))
    requires outcome(k).Responded?
    ensures Run(outcome, retries, delay, 0).0 == Returned(outcome(k).body)
    ensures Requests(Run(outcome, retries, delay, 0).1) == k + 1
    ensures Sleeps(Run(outcome, retries, delay, 0).1) == k
  {
    StopsAtFirst(outcome, retries, 0, k);
    RunStopsAt(outcome, retries, delay, 0);
    ScheduleCounts(0, k, delay);
  }

  /** An exception outside the caught pair, after k caught failures,
      escapes at once: k + 1 requests, k sleeps, none after it. */
  lemma UncaughtPropagates(outcome: nat -> Attempt, retries: int, delay: nat, k: nat)
    requires k < retries
    requires forall m | 0 <= m < k :: Retryable(outcome(m))
    requires outcome(k).Raised? && !Caught(outcome(k).error)
    ensures Run(outcome, retries, delay, 0).0 == Raises(outcome(k).error)
    ensures Requests(Run(outcome, retries, delay, 0).1) == k + 1
    ensures Sleeps(Run(outcome, retries, delay, 0).1) == k
  {
    StopsAtFirst(outcome, retries, 0, k);
    RunStopsAt(outcome, retries, delay, 0);
    ScheduleCounts(0, k, delay);
  }

  /** When every one of the `retries` attempts fails with a caught exception,
      the last one's exception is re-raised after `retries` requests and
      `retries - 1` sleeps. */
  lemma AllFailedReraisesLast(outcome: nat -> Attempt, retries: int, delay: nat)
    requires 0 < retries
    requires forall m | 0 <= m < retries :: Retryable(outcome(m))
    ensures Run(outcome, retries, delay, 0).0.Raises?
    ensures Run(outcome, retries, delay, 0).0 == Settle(outcome(retries - 1))
    ensures Requests(Run(outcome, retries, delay, 0).1) == retries
    ensures Sleeps(Run(outcome, retries, delay, 0).1) == retries - 1
  {
    assert Retryable(outcome(retries - 1));
    StopsAtFirst(outcome, retries, 0, retries - 1);
    RunStopsAt(outcome, retries, delay, 0);
    ScheduleCounts(0, retries - 1, delay);
  }

  /** The trace position by position: attempt m is requested at position 2m,
      in order, and every attempt but the last is followed by a sleep of
      exactly `delay` seconds. */
  lemma RunTraceAt(outcome: nat -> Attempt, retries: int, delay: nat, m: nat)
    requires 0 < retries && m <= StopsAt(outcome, retries, 0)
    ensures |Run(outcome, retries, delay, 0).1| == 2 * StopsAt(outcome, retries, 0) + 1
    ensures Run(outcome, retries, delay, 0).1[2 * m] == Request(m)
    ensures m < StopsAt(outcome, retries, 0) ==> Run(outcome, retries, delay, 0).1[2 * m + 1] == Sleep(delay)
  {
    RunStopsAt(outcome, retries, delay, 0);
    ScheduleAt(0, StopsAt(outcome, retries, 0), delay, m);
  }

  /** StopsAt is the first attempt that is not retryable, or the last one. */
  lemma {:induction false} StopsAtFirst(outcome: nat -> Attempt, retries: int, from: nat, k: nat)
    requires from <= k < retries
    requires forall m | from <= m < k :: Retryable(outcome(m))
    requires !Retryable(outcome(k)) || k == retries - 1
    ensures StopsAt(outcome, retries, from) == k
    decreases k - from
  {
    if from < k {
      assert Retryable(outcome(from));
      StopsAtFirst(outcome, retries, from + 1, k);
    }
  }
}
