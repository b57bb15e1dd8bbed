/** ChatwootMcpAdapter._post_with_retry: how many POSTs one tool call makes, and how it
  * ends.  The provider's answers are an arbitrary sequence. */
module McpRetry {
  import opened Basics

  /** What one POST came back with. */
  datatype Response =
    | RetryableStatus       // 429, 500, 502, 503, 504
    | ClientError           // any other status >= 400
    | ToolError             // JSON-RPC error or isError=true
    | Success               // anything else, JSON or not
    | NetworkError          // timeout or connection failure
    | OtherException
  {
    predicate Transient() { RetryableStatus? || NetworkError? }
  }

  /** _max_retries as the constructor stores it. */
  function EffectiveRetries(maxRetries: int): (r: nat)
    ensures maxRetries >= 1 ==> r == maxRetries
    ensures maxRetries < 1 ==> r == 1
  {
    Max(1, maxRetries)
  }

  /** min(2**attempt, 30) */
  function Wait(attempt: nat): (w: nat)
    ensures 1 <= w <= 30
  {
    Min(Pow2(attempt), 30)
  }

  /** Index of the first answer that is not transient, or limit. */
  function FirstFinal(answers: nat -> Response, from: nat, limit: nat): (k: nat)
    requires from <= limit
    ensures from <= k <= limit
    ensures forall i :: from <= i < k ==> answers(i).Transient()
    ensures k < limit ==> !answers(k).Transient()
    decreases limit - from
  {
    if from == limit || !answers(from).Transient() then from else FirstFinal(answers, from + 1, limit)
  }

  /** Number of POSTs one tool call sends. */
  function Posts(answers: nat -> Response, retries: nat): (n: nat)
    ensures n <= retries
  {
    Min(FirstFinal(answers, 0, retries) + 1, retries)
  }

  /** Whether it ends without an exception. */
  predicate Succeeds(answers: nat -> Response, retries: nat) {
    var k := FirstFinal(answers, 0, retries);
    k < retries && answers(k).Success?
  }

  /** Seconds slept after the first n answers, if all were transient. */
  function TotalWait(n: nat): nat {
    if n == 0 then 0 else TotalWait(n - 1) + Wait(n - 1)
  }

  /** 1 + 2 + 4 + 8 + 16, and 30 each from the sixth on. */
  lemma {:induction false} TotalWaitIs(n: nat)
    ensures TotalWait(n) == if n <= 5 then Pow2(n) - 1 else 31 + 30 * (n - 5)
  {
    if n > 0 {
      TotalWaitIs(n - 1);
      Pow2Monotone(Min(n - 1, 5), n - 1);
      assert Pow2(4) == 16 && Pow2(5) == 32;
    }
  }

  method PostWithRetry(answers: nat -> Response, maxRetries: int) returns (posts: nat, waited: nat, ok: bool)
    // At least one POST, never more than the effective limit.
    ensures 1 <= posts <= EffectiveRetries(maxRetries)
    ensures posts == Posts(answers, EffectiveRetries(maxRetries))
    // Exactly the retryable statuses and the network errors are retried, while any are left.
    ensures forall i :: 0 <= i < posts - 1 ==> answers(i).RetryableStatus? || answers(i).NetworkError?
    ensures posts < EffectiveRetries(maxRetries) ==>
              !answers(posts - 1).RetryableStatus? && !answers(posts - 1).NetworkError?
    ensures ok <==> answers(posts - 1).Success?
    ensures ok == Succeeds(answers, EffectiveRetries(maxRetries))
    // It sleeps after every transient answer, the last one included.
    ensures waited ==
              TotalWait(if answers(posts - 1).RetryableStatus? || answers(posts - 1).NetworkError? then posts
                        else posts - 1)
  {
    var limit := EffectiveRetries(maxRetries);
    posts, waited, ok := 0, 0, false;
    for attempt := 0 to limit
      invariant posts == attempt && !ok && waited == TotalWait(attempt)
      invariant forall i :: 0 <= i < attempt ==> answers(i).Transient()
    {
      var answer := answers(attempt);
      posts := posts + 1;
      if answer.Transient() {
        waited := waited + Wait(attempt);
      } else {
        ok := answer.Success?;
        return;
      }
    }
  }
}
