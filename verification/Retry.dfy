/** `complete` of src/llm/openai.rs: retrying a rate-limited request. */
module Retry {
  import opened Wrappers
  import opened Json
  import opened LlmTypes
  import opened ResponseBody

  /** What one request meets: no connection, a reply that is not JSON, or a reply. */
  datatype Reply =
    | NoReply(error: string)
    | Status(status: nat, retryAfter: Option<nat>, body: string, json: Result<Json, string>)

  /** `2u64.pow` panics when the result does not fit, where overflow checks are on, and wraps elsewhere. */
  datatype Outcome = Returned(result: Result<CompletionResponse, LlmError>) | Overflowed

  predicate Limited(r: Reply) {
    r.Status? && r.status == 429
  }

  function Pow2(n: nat): (p: nat)
    ensures p >= 1
  {
    if n == 0 then 1 else 2 * Pow2(n - 1)
  }

  function Wrapped(n: nat): nat {
    Pow2(n) % 0x1_0000_0000_0000_0000
  }

  function Backoff(server: nat -> Reply, n: nat): nat {
    var r := server(n);
    (if r.Status? then r.retryAfter else None).GetOr(Wrapped(n))
  }

  function Slept(server: nat -> Reply, n: nat): nat {
    if n == 0 then 0 else Slept(server, n - 1) + Backoff(server, n - 1)
  }

  /** The first `n` replies are all rate limits. */
  ghost predicate AllLimited(server: nat -> Reply, n: nat) {
    forall i: nat | i < n :: Limited(server(i))
  }

  function Final(codec: Codec, r: Reply): Result<CompletionResponse, LlmError> {
    match r
    case NoReply(error) => Err(Http(error))
    case Status(status, retryAfter, body, json) =>
      if status == 429 then Err(RateLimited(retryAfter))
      else if !(200 <= status < 300) then Err(Api(status, body))
      else if json.Err? then Err(Http(json.error))
      else if Choice(json.value).None? then Err(StreamError("No choices in response"))
      else Ok(ResponseOf(codec, WholeOf(json.value)))
  }

  method Complete(codec: Codec, server: nat -> Reply, maxRetries: nat, overflowChecks: bool)
    returns (outcome: Outcome, requests: nat, slept: nat)
    ensures 1 <= requests <= maxRetries + 1
    ensures AllLimited(server, requests - 1) && slept == Slept(server, requests - 1)
    ensures outcome.Returned? ==>
              && outcome.result == Final(codec, server(requests - 1))
              && (Limited(server(requests - 1)) ==> requests == maxRetries + 1)
    ensures outcome.Overflowed? <==> overflowChecks && maxRetries > 64 && AllLimited(server, 65)
    ensures outcome.Overflowed? ==> requests == 65
  {
    hide Pow2, Choice, WholeOf, ResponseOf;
    var retries: nat := 0;
    slept := 0;
    while true
      invariant retries <= maxRetries && AllLimited(server, retries) && slept == Slept(server, retries)
      invariant overflowChecks ==> retries <= 64
      decreases maxRetries - retries
    {
      var resp := server(retries);
      requests := retries + 1;
      if resp.NoReply? {
        return Returned(Err(Http(resp.error))), requests, slept;
      }
      if resp.status == 429 {
        if retries >= maxRetries {
          return Returned(Err(RateLimited(resp.retryAfter))), requests, slept;
        }
        // The argument of `unwrap_or` is evaluated even when there is a header.
        PowFitsExactly(retries);
        if overflowChecks && Pow2(retries) >= 0x1_0000_0000_0000_0000 {
          return Overflowed, requests, slept;
        }
        var backoff := resp.retryAfter.GetOr(Pow2(retries) % 0x1_0000_0000_0000_0000);
        slept := slept + backoff;
        retries := retries + 1;
        continue;
      }
      if !(200 <= resp.status < 300) {
        return Returned(Err(Api(resp.status, resp.body))), requests, slept;
      }
      if resp.json.Err? {
        return Returned(Err(Http(resp.json.error))), requests, slept;
      }
      var parsed := ParseResponseBody(codec, resp.json.value);
      return Returned(parsed), requests, slept;
    }
  }

  lemma {:induction false} PowMonotone(a: nat, b: nat)
    requires a <= b
    ensures Pow2(a) <= Pow2(b)
    decreases b
  {
    if a < b {
      PowMonotone(a, b - 1);
    }
  }

  lemma PowAt8()
    ensures Pow2(7) == 128 && Pow2(8) == 256
  {
    assert Pow2(1) == 2 && Pow2(2) == 4 && Pow2(3) == 8 && Pow2(4) == 16;
    assert Pow2(5) == 32 && Pow2(6) == 64;
  }

  lemma PowAt64()
    ensures Pow2(63) == 0x8000_0000_0000_0000 && Pow2(64) == 0x1_0000_0000_0000_0000
  {
    hide Pow2;
    PowAt8();
    PowSum(8, 7);
    PowSum(8, 8);
    PowSum(16, 15);
    PowSum(16, 16);
    PowSum(32, 31);
    PowSum(32, 32);
  }

  lemma {:induction false} PowSum(a: nat, b: nat)
    ensures Pow2(a + b) == Pow2(a) * Pow2(b)
    decreases a
  {
    if a > 0 {
      PowSum(a - 1, b);
    }
  }

  /** The power fits in 64 bits exactly up to 63 retries. */
  lemma PowFitsExactly(n: nat)
    ensures Pow2(n) < 0x1_0000_0000_0000_0000 <==> n <= 63
  {
    PowAt64();
    if n <= 63 {
      PowMonotone(n, 63);
    } else {
      PowMonotone(64, n);
    }
  }

  /** A retry-after header is slept exactly; without one the wait is the power of two, where it fits 64 bits. */
  lemma WaitsExactly(server: nat -> Reply, n: nat)
    ensures server(n).Status? && server(n).retryAfter.Some? ==> Slept(server, n + 1) == Slept(server, n) + server(n).retryAfter.value
    ensures server(n).Status? && server(n).retryAfter.None? && n <= 63 ==> Slept(server, n + 1) == Slept(server, n) + Pow2(n)
    ensures server(n).Status? && server(n).retryAfter.None? && n > 63 ==> Slept(server, n + 1) == Slept(server, n)
    ensures Slept(server, 0) == 0
  {
    hide Pow2;
    PowFitsExactly(n);
    if n > 63 {
      WrapsToZero(n);
    }
  }

  lemma {:induction false} WrapsToZero(n: nat)
    requires n >= 64
    ensures Wrapped(n) == 0
  {
    hide Pow2;
    PowAt64();
    PowSum(64, n - 64);
    ZeroMod(Pow2(n - 64));
  }

  lemma ZeroMod(k: nat)
    ensures (0x1_0000_0000_0000_0000 * k) % 0x1_0000_0000_0000_0000 == 0
  {
  }

  /** The result by the last reply: its status decides first, then whether its body is JSON, then its choices. */
  lemma ResultByReply(codec: Codec, r: Reply)
    ensures r.NoReply? ==> Final(codec, r) == Err(Http(r.error))
    ensures r.Status? && r.status == 429 ==> Final(codec, r) == Err(RateLimited(r.retryAfter))
    ensures r.Status? && r.status != 429 && !(200 <= r.status < 300) ==> Final(codec, r) == Err(Api(r.status, r.body))
    ensures r.Status? && 200 <= r.status < 300 && r.json.Err? ==> Final(codec, r) == Err(Http(r.json.error))
    ensures r.Status? && 200 <= r.status < 300 && r.json.Ok? && Choice(r.json.value).None? ==>
              Final(codec, r) == Err(StreamError("No choices in response"))
    ensures r.Status? && 200 <= r.status < 300 && r.json.Ok? && Choice(r.json.value).Some? ==>
              Final(codec, r) == Ok(ResponseOf(codec, WholeOf(r.json.value)))
  {
  }

  ghost predicate NoHeaders(server: nat -> Reply) {
    forall i: nat :: server(i).Status? ==> server(i).retryAfter.None?
  }

  /** Without retry-after headers the waits add up to one second less than the next power of two. */
  lemma {:induction false} TotalBackoff(server: nat -> Reply, n: nat)
    requires NoHeaders(server) && n <= 64
    ensures Slept(server, n) == Pow2(n) - 1
  {
    if n > 0 {
      TotalBackoff(server, n - 1);
      PowFitsExactly(n - 1);
      NoHeaderBackoff(server, n - 1);
    }
  }

  lemma NoHeaderBackoff(server: nat -> Reply, n: nat)
    requires NoHeaders(server)
    ensures Backoff(server, n) == Wrapped(n) && (Pow2(n) < 0x1_0000_0000_0000_0000 ==> Wrapped(n) == Pow2(n))
    ensures Wrapped(n) <= Pow2(n)
  {
    hide Pow2;
  }

  /** Whatever the server does, at most `2^maxRetries - 1` seconds are slept, wrapped powers included. */
  lemma {:induction false} BackoffBound(server: nat -> Reply, maxRetries: nat, n: nat)
    requires NoHeaders(server) && n <= maxRetries
    ensures Slept(server, n) <= Pow2(maxRetries) - 1
    decreases n
  {
    hide Backoff, Wrapped;
    PowMonotone(n, maxRetries);
    if n > 0 {
      BackoffBound(server, n - 1, n - 1);
      NoHeaderBackoff(server, n - 1);
    }
  }
}
