/** The retry policy wrapped around the completion call: at most three
    attempts, the first one that answers wins. */
module Retry {

  import opened Wrappers
  import opened SharedModels

  /** `maximum_attempts` of the retry policy. */
  const MaxAttempts: nat := 3

  /** The outcome of one attempt: the response, or `None` when the attempt
      failed (an error raised by the call, or the per-attempt timeout). */
  type Attempt = Option<ClaudeResponse>

  /** The first attempt that produced a response, scanning in order. */
  function FirstSuccess(attempts: seq<Attempt>): (r: Attempt)
    ensures r.None? <==> forall k :: 0 <= k < |attempts| ==> attempts[k].None?
    ensures r.Some? ==> exists k :: 0 <= k < |attempts| && attempts[k] == r &&
                         forall j :: 0 <= j < k ==> attempts[j].None?
    decreases |attempts|
  {
    if attempts == [] then None
    else if attempts[0].Some? then attempts[0]
    else
      var r := FirstSuccess(attempts[1..]);
      assert forall k :: 1 <= k < |attempts| ==> attempts[k] == attempts[1..][k - 1];
      r
  }

  /** The attempts the policy actually makes: the first `MaxAttempts` of
      the outcomes the service would give (missing entries count as
      failures). */
  function Made(attempts: seq<Attempt>): (r: seq<Attempt>)
    ensures |r| <= MaxAttempts && r <= attempts
    ensures |r| == if |attempts| < MaxAttempts then |attempts| else MaxAttempts
  {
    if |attempts| <= MaxAttempts then attempts else attempts[..MaxAttempts]
  }

  /** The result of the retry-wrapped call: the first response among the
      attempts that are made, or `None` once the attempt budget is spent. */
  function CallOutcome(attempts: seq<Attempt>): (r: Attempt)
    ensures r.None? <==> forall k :: 0 <= k < |attempts| && k < MaxAttempts ==> attempts[k].None?
    ensures r.Some? ==> exists k :: 0 <= k < |attempts| && k < MaxAttempts && attempts[k] == r &&
                         forall j :: 0 <= j < k ==> attempts[j].None?
  {
    var made := Made(attempts);
    assert forall k :: 0 <= k < |made| ==> made[k] == attempts[k];
    FirstSuccess(made)
  }

  /** Two failures followed by a response still give that response. */
  lemma SucceedsOnThirdAttempt(resp: ClaudeResponse, rest: seq<Attempt>)
    ensures CallOutcome([None, None, Some(resp)] + rest) == Some(resp)
  {
    var a := [None, None, Some(resp)] + rest;
    var made: seq<Attempt> := [None, None, Some(resp)];
    assert Made(a) == made;
    assert made[1..][1..] == [Some(resp)];
    assert FirstSuccess([Some(resp)]) == Some(resp);
    assert FirstSuccess(made[1..]) == Some(resp);
  }

  /** Three failures exhaust the budget, whatever a fourth attempt would
      have returned. */
  lemma ExhaustedAfterThreeFailures(rest: seq<Attempt>)
    ensures CallOutcome([None, None, None] + rest) == None
  {
  }
}
