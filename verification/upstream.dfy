/**
  The bounded retry loop of the `/chat` handler. The network and `JSON.parse`
  are abstracted away: `upstream[k]` is what the k-th `fetch` call would
  produce, and `parse` is the parser as an oracle on the extracted text. Waits
  are returned as millisecond values instead of being slept.
 */
module Upstream {
  import opened Options
  import opened Json
  import Text

  const MaxAttempts: nat := 3
  const BaseDelayMs: nat := 1000

  /** The body of a 2xx reply: `Unreadable` when reading it throws, that is when
      it is not JSON, or when it is JSON `null` so that `apiData.candidates`
      throws a TypeError; otherwise an envelope whose
      `candidates[0].content.parts[0].text` is present or not. */
  datatype Body = Unreadable(message: string) | Envelope(text: Option<string>)

  /** What one `fetch` of the generation endpoint produced. */
  datatype Attempt = NetworkFailure(message: string) | Reply(status: int, body: Body)

  /** What `JSON.parse` makes of the extracted text. */
  datatype ParseOutcome = SyntaxError | Parsed(value: Value)

  /** The outcome of one attempt: the parsed value, or the message of the error thrown inside it. */
  datatype Step = Succeeded(value: Value) | Failed(message: string)

  /** A whole retry loop: calls made, waits in order, and how it ended. */
  datatype Run = Run(attempts: nat, delays: seq<nat>, result: Step)

  const NoTextMessage := "Invalid response structure from Gemini API (No text content)."
  const ParseFailureMessage := "Failed to parse AI response as JSON."

  function HttpErrorMessage(status: int): string
  {
    "Gemini API HTTP error! status: " + Text.IntToString(status)
  }

  /** `Response.ok`. */
  predicate IsOk(status: int)
  {
    200 <= status <= 299
  }

  /** The body of the `try` block: every way it can throw becomes `Failed`. */
  function RunAttempt(a: Attempt, parse: string -> ParseOutcome): Step
  {
    match a
    case NetworkFailure(message) => Failed(message)
    case Reply(status, body) =>
      if !IsOk(status) then Failed(HttpErrorMessage(status))
      else
        match body
        case Unreadable(message) => Failed(message)
        case Envelope(text) =>
          if text.None? || text.value == "" then Failed(NoTextMessage)
          else
            match parse(text.value)
            case SyntaxError => Failed(ParseFailureMessage)
            case Parsed(v) => Succeeded(v)
  }

  function Pow2(k: nat): nat
  {
    if k == 0 then 1 else 2 * Pow2(k - 1)
  }

  /** The wait after the `failures`-th failed attempt: `1000 * 2^failures` ms. */
  function Backoff(failures: nat): nat
  {
    BaseDelayMs * Pow2(failures)
  }

  /**
    The loop from attempt `done` on, after `done` failed attempts. It stops at
    the first attempt that succeeds or after the last allowed one, and waits
    `Backoff(k)` after the k-th failure unless that failure was the last.
   */
  function RetryFrom(upstream: seq<Attempt>, parse: string -> ParseOutcome, done: nat): (r: Run)
    requires done < MaxAttempts <= |upstream|
    ensures done < r.attempts <= MaxAttempts
    ensures forall j :: done <= j < r.attempts - 1 ==> RunAttempt(upstream[j], parse).Failed?
    ensures r.result == RunAttempt(upstream[r.attempts - 1], parse)
    ensures r.result.Failed? ==> r.attempts == MaxAttempts
    ensures |r.delays| == r.attempts - 1 - done
    ensures forall j :: 0 <= j < |r.delays| ==> r.delays[j] == Backoff(done + 1 + j)
    decreases MaxAttempts - done
  {
    match RunAttempt(upstream[done], parse)
    case Succeeded(v) => Run(done + 1, [], Succeeded(v))
    case Failed(message) =>
      if done + 1 >= MaxAttempts then Run(done + 1, [], Failed(message))
      else
        var rest := RetryFrom(upstream, parse, done + 1);
        Run(rest.attempts, [Backoff(done + 1)] + rest.delays, rest.result)
  }

  /** The whole loop, starting with no failed attempt. */
  function Retry(upstream: seq<Attempt>, parse: string -> ParseOutcome): Run
    requires MaxAttempts <= |upstream|
  {
    RetryFrom(upstream, parse, 0)
  }

  function Sum(xs: seq<nat>): nat
  {
    if |xs| == 0 then 0 else xs[0] + Sum(xs[1..])
  }

  /**
    The loop as the handler writes it: attempt, and on failure count it, give
    up after the third, otherwise wait and attempt again.
   */
  method RetryLoop(upstream: seq<Attempt>, parse: string -> ParseOutcome) returns (r: Run)
    requires MaxAttempts <= |upstream|
    ensures r == Retry(upstream, parse)
  {
    var failures: nat := 0;
    var delays: seq<nat> := [];
    var step := RunAttempt(upstream[0], parse);
    while step.Failed? && failures + 1 < MaxAttempts
      invariant failures < MaxAttempts
      invariant step == RunAttempt(upstream[failures], parse)
      invariant var rest := RetryFrom(upstream, parse, failures);
                Retry(upstream, parse) == Run(rest.attempts, delays + rest.delays, rest.result)
      decreases MaxAttempts - failures
    {
      failures := failures + 1;
      delays := delays + [Backoff(failures)];
      step := RunAttempt(upstream[failures], parse);
    }
    r := Run(failures + 1, delays, step);
  }

  /**
    The loop stops at the first attempt that succeeds: the number of calls is
    one more than its index, the waits are those after each earlier failure,
    and the result is what that attempt parsed.
   */
  lemma StopsAtFirstSuccess(upstream: seq<Attempt>, parse: string -> ParseOutcome, i: nat)
    requires i < MaxAttempts <= |upstream|
    requires RunAttempt(upstream[i], parse).Succeeded?
    requires forall j :: 0 <= j < i ==> RunAttempt(upstream[j], parse).Failed?
    ensures Retry(upstream, parse).attempts == i + 1
    ensures Retry(upstream, parse).result == RunAttempt(upstream[i], parse)
    ensures Retry(upstream, parse).delays == [2000, 4000][..i]
  {
    assert Backoff(1) == 2000 && Backoff(2) == 4000;
  }

  /**
    When all three attempts fail the loop makes exactly three calls, waits
    2000 ms and then 4000 ms (6000 ms in all, nothing after the last failure),
    and reports the error of the third attempt.
   */
  lemma ExhaustsAfterThreeFailures(upstream: seq<Attempt>, parse: string -> ParseOutcome)
    requires MaxAttempts <= |upstream|
    requires forall j :: 0 <= j < MaxAttempts ==> RunAttempt(upstream[j], parse).Failed?
    ensures Retry(upstream, parse).attempts == MaxAttempts
    ensures Retry(upstream, parse).delays == [2000, 4000]
    ensures Sum(Retry(upstream, parse).delays) == 6000
    ensures Retry(upstream, parse).result == Failed(RunAttempt(upstream[MaxAttempts - 1], parse).message)
  {
    var r := Retry(upstream, parse);
    assert Backoff(1) == 2000 && Backoff(2) == 4000;
    assert r.delays == [2000, 4000];
    assert Sum([2000, 4000]) == 6000 by {
      assert [2000, 4000][1..] == [4000];
      assert [4000][1..] == [];
    }
  }

  /**
    Every cause of failure is retried alike: the number of calls and the waits
    depend only on which attempts failed, not on why (HTTP status, unreadable
    body, missing or empty text, unparsable text, network error).
   */
  lemma {:induction false} FailureCausesAreRetriedAlike(
    u1: seq<Attempt>, u2: seq<Attempt>, parse: string -> ParseOutcome, done: nat)
    requires done < MaxAttempts <= |u1| && MaxAttempts <= |u2|
    requires forall j :: done <= j < MaxAttempts ==>
               RunAttempt(u1[j], parse).Failed? == RunAttempt(u2[j], parse).Failed?
    ensures RetryFrom(u1, parse, done).attempts == RetryFrom(u2, parse, done).attempts
    ensures RetryFrom(u1, parse, done).delays == RetryFrom(u2, parse, done).delays
    ensures RetryFrom(u1, parse, done).result.Failed? == RetryFrom(u2, parse, done).result.Failed?
    decreases MaxAttempts - done
  {
    if RunAttempt(u1[done], parse).Failed? && done + 1 < MaxAttempts {
      FailureCausesAreRetriedAlike(u1, u2, parse, done + 1);
    }
  }
}
