/**
 * The bounded retry loop around one HTTP POST (`post_request_with_retries`).
 *
 * The network is an oracle: attempt `i` of the loop sees `outcomes[i]`, which is
 * either a response with a status code or a transport-level exception
 * (connection error, timeout). The loop makes at most `max_retries` attempts:
 * status 200 returns the response at once, status 502 sleeps a fixed delay and
 * goes on to the next attempt, any other status or a `RequestException` stops
 * the loop, and every other way out the model covers yields no response.
 * Exceptions of other kinds propagate out of the source's loop; they are not
 * outcomes here.
 */
module Retry {
  import opened Wrappers

  const StatusOk: int := 200
  const StatusBadGateway: int := 502
  /** Seconds slept after each 502 before the loop goes on. */
  const RetryDelaySeconds: nat := 5
  /** The default of the `max_retries` parameter. */
  const DefaultMaxRetries: int := 3

  /** What a completed POST hands back: its status code and an opaque body. */
  datatype Response = Response(statusCode: int, body: string)

  /** What one attempt produces, among the outcomes the source's `try` handles. */
  datatype Outcome = Responded(response: Response) | RequestException

  predicate IsOk(o: Outcome) {
    o.Responded? && o.response.statusCode == StatusOk
  }

  predicate IsBadGateway(o: Outcome) {
    o.Responded? && o.response.statusCode == StatusBadGateway
  }

  /** The number of iterations of `range(max_retries)`: none when it is not positive. */
  function Budget(maxRetries: int): nat {
    if maxRetries <= 0 then 0 else maxRetries
  }

  /**
   * What a run of the loop amounts to: the value returned, the number of POSTs
   * made and the number of delays slept.
   */
  datatype Trace = Trace(result: Option<Response>, posts: nat, delays: nat)

  /** The seconds slept over a run: one fixed delay per 502. */
  function SleptSeconds(t: Trace): nat {
    t.delays * RetryDelaySeconds
  }

  /** A trace preceded by `k` attempts that each answered 502. */
  function AfterBadGateways(t: Trace, k: nat): Trace {
    Trace(t.result, t.posts + k, t.delays + k)
  }

  /**
   * Reference semantics of the loop, one attempt at a time, with `budget`
   * attempts left and `outcomes[0]` the next answer.
   */
  function Run(outcomes: seq<Outcome>, budget: nat): (t: Trace)
    requires budget <= |outcomes|
    ensures t.posts <= budget
    ensures t.result.Some? ==> t.result.value.statusCode == StatusOk
    ensures t.delays <= t.posts
    decreases budget
  {
    if budget == 0 then Trace(None, 0, 0)
    else if IsOk(outcomes[0]) then Trace(Some(outcomes[0].response), 1, 0)
    else if IsBadGateway(outcomes[0]) then AfterBadGateways(Run(outcomes[1..], budget - 1), 1)
    else Trace(None, 1, 0)
  }

  /**
   * `p` is the number of POSTs the loop makes: all attempts but the last one
   * answered 502, and the loop stopped before its budget ran out only on an
   * answer that was not 502. At least one attempt is made when the budget allows.
   */
  predicate PostCount(outcomes: seq<Outcome>, budget: nat, p: nat)
    requires budget <= |outcomes|
  {
    && p <= budget
    && (budget > 0 ==> p > 0)
    && (forall i :: 0 <= i < p - 1 ==> IsBadGateway(outcomes[i]))
    && (0 < p < budget ==> !IsBadGateway(outcomes[p - 1]))
  }

  /** Run makes exactly the number of POSTs that PostCount characterises, and no other. */
  lemma {:induction false} RunPosts(outcomes: seq<Outcome>, budget: nat, p: nat)
    requires budget <= |outcomes|
    ensures Run(outcomes, budget).posts == p <==> PostCount(outcomes, budget, p)
  {
    // Uniqueness: two counts that differ cannot both hold, since the smaller
    // one stopped early on an answer the larger one counts among its 502s.
    RunPostCount(outcomes, budget);
  }

  lemma {:induction false} RunPostCount(outcomes: seq<Outcome>, budget: nat)
    requires budget <= |outcomes|
    ensures PostCount(outcomes, budget, Run(outcomes, budget).posts)
  {
    if budget > 0 && IsBadGateway(outcomes[0]) {
      var rest := outcomes[1..];
      RunPostCount(rest, budget - 1);
      var p := Run(outcomes, budget).posts;
      forall i | 0 <= i < p - 1
        ensures IsBadGateway(outcomes[i])
      {
        if i > 0 {
          assert outcomes[i] == rest[i - 1];
        }
      }
      if 1 < p < budget {
        assert outcomes[p - 1] == rest[p - 2];
      }
    }
  }

  /**
   * The value returned and the delays slept, in terms of the last attempt made:
   * the response when that attempt answered 200, no response otherwise; one
   * delay for every 502, including a 502 on the final attempt.
   */
  lemma {:induction false} RunResult(outcomes: seq<Outcome>, budget: nat)
    requires budget <= |outcomes|
    ensures var t := Run(outcomes, budget);
      && t.result == (if t.posts > 0 && IsOk(outcomes[t.posts - 1])
                      then Some(outcomes[t.posts - 1].response) else None)
      && t.delays == (if t.posts > 0 && !IsBadGateway(outcomes[t.posts - 1])
                      then t.posts - 1 else t.posts)
  {
    if budget > 0 && IsBadGateway(outcomes[0]) {
      var rest := outcomes[1..];
      RunResult(rest, budget - 1);
      var r := Run(rest, budget - 1);
      if r.posts > 0 {
        assert outcomes[r.posts] == rest[r.posts - 1];
      }
    }
  }

  /**
   * An attempt that answers 200 after nothing but 502s ends the loop with that
   * response; it is the POST numbered k + 1. With k == 0: a first answer of 200
   * returns it after exactly one POST.
   */
  lemma {:induction false} OkAfterBadGateways(outcomes: seq<Outcome>, budget: nat, k: nat)
    requires k < budget <= |outcomes|
    requires forall i :: 0 <= i < k ==> IsBadGateway(outcomes[i])
    requires IsOk(outcomes[k])
    ensures Run(outcomes, budget) == Trace(Some(outcomes[k].response), k + 1, k)
  {
    StopsAt(outcomes, budget, k);
  }

  /**
   * A status other than 200 and 502 after nothing but 502s ends the loop after
   * that attempt, with no further POST and no response.
   */
  lemma {:induction false} StopsOnOtherStatus(outcomes: seq<Outcome>, budget: nat, k: nat)
    requires k < budget <= |outcomes|
    requires forall i :: 0 <= i < k ==> IsBadGateway(outcomes[i])
    requires outcomes[k].Responded?
    requires outcomes[k].response.statusCode != StatusOk
    requires outcomes[k].response.statusCode != StatusBadGateway
    ensures Run(outcomes, budget) == Trace(None, k + 1, k)
  {
    StopsAt(outcomes, budget, k);
  }

  /** A transport exception after nothing but 502s ends the loop at once, with no response. */
  lemma {:induction false} StopsOnException(outcomes: seq<Outcome>, budget: nat, k: nat)
    requires k < budget <= |outcomes|
    requires forall i :: 0 <= i < k ==> IsBadGateway(outcomes[i])
    requires outcomes[k] == RequestException
    ensures Run(outcomes, budget) == Trace(None, k + 1, k)
  {
    StopsAt(outcomes, budget, k);
  }

  /** 502 on every attempt: the whole budget is spent, one delay after each, and no response. */
  lemma {:induction false} ExhaustsOnBadGateways(outcomes: seq<Outcome>, budget: nat)
    requires budget <= |outcomes|
    requires forall i :: 0 <= i < budget ==> IsBadGateway(outcomes[i])
    ensures Run(outcomes, budget) == Trace(None, budget, budget)
    ensures SleptSeconds(Run(outcomes, budget)) == RetryDelaySeconds * budget
  {
    RunPosts(outcomes, budget, budget);
    RunResult(outcomes, budget);
  }

  /** A response is returned only when it answered 200 and every earlier attempt answered 502. */
  lemma {:induction false} ResponseOnlyAfterBadGateways(outcomes: seq<Outcome>, budget: nat)
    requires budget <= |outcomes|
    requires Run(outcomes, budget).result.Some?
    ensures var t := Run(outcomes, budget);
      && 0 < t.posts
      && outcomes[t.posts - 1] == Responded(t.result.value)
      && t.result.value.statusCode == StatusOk
      && (forall i :: 0 <= i < t.posts - 1 ==> IsBadGateway(outcomes[i]))
      && t.delays == t.posts - 1
  {
    var t := Run(outcomes, budget);
    RunPosts(outcomes, budget, t.posts);
    RunResult(outcomes, budget);
  }

  /** The loop stops at attempt k when that is the first answer other than 502. */
  lemma {:induction false} StopsAt(outcomes: seq<Outcome>, budget: nat, k: nat)
    requires k < budget <= |outcomes|
    requires forall i :: 0 <= i < k ==> IsBadGateway(outcomes[i])
    requires !IsBadGateway(outcomes[k])
    ensures Run(outcomes, budget).posts == k + 1
    ensures Run(outcomes, budget).delays == k
    ensures Run(outcomes, budget).result
      == if IsOk(outcomes[k]) then Some(outcomes[k].response) else None
  {
    RunPosts(outcomes, budget, k + 1);
    RunResult(outcomes, budget);
  }

  /**
   * The loop itself, mirroring `for attempt in range(max_retries)` with an early
   * `return` on 200 and a `break` on any other status or an exception. It
   * returns the response (or none), the POSTs made and the delays slept.
   */
  method PostRequestWithRetries(outcomes: seq<Outcome>, maxRetries: int := DefaultMaxRetries)
    returns (result: Option<Response>, posts: nat, delays: nat)
    requires Budget(maxRetries) <= |outcomes|
    ensures Trace(result, posts, delays) == Run(outcomes, Budget(maxRetries))
    ensures posts <= Budget(maxRetries)
    ensures maxRetries <= 0 ==> posts == 0 && result == None
    ensures result.Some? ==> result.value.statusCode == StatusOk
  {
    ghost var budget := Budget(maxRetries);
    result, posts, delays := None, 0, 0;
    var attempt := 0;
    while attempt < maxRetries
      invariant 0 <= attempt <= budget
      invariant posts == attempt && delays == attempt && result == None
      invariant Run(outcomes, budget) == AfterBadGateways(Run(outcomes[attempt..], budget - attempt), attempt)
    {
      ghost var rest := outcomes[attempt..];
      assert rest[0] == outcomes[attempt];
      posts := posts + 1;
      match outcomes[attempt] {
        case RequestException =>
          break;
        case Responded(response) =>
          if response.statusCode == StatusOk {
            result := Some(response);
            return;
          } else if response.statusCode == StatusBadGateway {
            delays := delays + 1;
          } else {
            break;
          }
      }
      assert rest[1..] == outcomes[attempt + 1..];
      attempt := attempt + 1;
    }
  }
}
