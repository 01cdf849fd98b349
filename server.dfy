/**
 * The request-level rules of src/main.rs: reading the rate-limit quota from
 * the environment (`get_limit!` and the quota chosen in
 * `global_ratelimiter`), the rate-limit middleware itself, and the `log`
 * middleware that masks server errors. Governor's bucket algorithm is not
 * part of this model: its verdict for a key is an input.
 */
module Server {
  import opened Wrappers
  import opened Ints
  import opened OnceCells

  // ---------------------------------------------------------------- `str::parse::<u32>`

  predicate IsDigit(c: char) {
    '0' <= c <= '9'
  }

  predicate AllDigits(s: string) {
    forall k :: 0 <= k < |s| ==> IsDigit(s[k])
  }

  function DigitValue(c: char): nat
    requires IsDigit(c)
  {
    c as int - '0' as int
  }

  function DigitChar(d: nat): char
    requires d < 10
  {
    (d + '0' as int) as char
  }

  /** The number a string of decimal digits denotes. */
  function Value(ds: string): nat
    requires AllDigits(ds)
  {
    if ds == [] then 0 else Value(ds[..|ds| - 1]) * 10 + DigitValue(ds[|ds| - 1])
  }

  /** `n.to_string()`: the decimal digits of `n`, without leading zeros. */
  function Show(n: nat): (s: string)
    ensures |s| >= 1 && AllDigits(s)
  {
    if n < 10 then [DigitChar(n)] else Show(n / 10) + [DigitChar(n % 10)]
  }

  /**
   * `s.parse::<u32>()`: an optional leading `+`, then at least one decimal
   * digit; a `-`, any other character or a value of 2^32 or more is an error.
   */
  function ParseU32(s: string): (r: Option<u32>)
    ensures r.Some? ==>
      |s| >= 1 && (IsDigit(s[0]) || (s[0] == '+' && |s| >= 2)) &&
      forall k :: 1 <= k < |s| ==> IsDigit(s[k])
  {
    var body := if s != [] && s[0] == '+' then s[1..] else s;
    if body == [] || !AllDigits(body) then None
    else if Value(body) < TWO_TO_THE_32 then Some(Value(body))
    else None
  }

  /** Reading back what `Show` wrote gives the number again. */
  lemma {:induction false} ShowValue(n: nat)
    ensures Value(Show(n)) == n
  {
    if n >= 10 {
      ShowValue(n / 10);
      var s := Show(n);
      assert s[..|s| - 1] == Show(n / 10);
    }
  }

  /** Every `u32` survives printing and parsing, with or without a `+` sign. */
  lemma ParseShow(n: u32)
    ensures ParseU32(Show(n)) == Some(n)
    ensures ParseU32("+" + Show(n)) == Some(n)
  {
    ShowValue(n);
    assert ("+" + Show(n))[1..] == Show(n);
  }

  /** A printed number of 2^32 or more does not parse. */
  lemma ParseOverflow(n: nat)
    requires n >= TWO_TO_THE_32
    ensures ParseU32(Show(n)) == None
  {
    ShowValue(n);
  }

  /** An unsigned number never starts with `-`, and a lone `+` is no number. */
  lemma ParseRejectsSigns(t: string)
    ensures ParseU32("-" + t) == None
    ensures ParseU32("+") == None
  {
    assert !IsDigit(("-" + t)[0]);
  }

  // ---------------------------------------------------------------- `get_limit!`

  const PER_SEC: string := "RATELIMITER_QUOTA_PER_SEC"
  const PER_MIN: string := "RATELIMITER_QUOTA_PER_MIN"
  const PER_HOUR: string := "RATELIMITER_QUOTA_PER_HOUR"
  const BURST: string := "RATELIMITER_QUOTA_BURST"

  /**
   * `get_limit!(name)`: the variable's value as a `NonZeroU32`, or nothing
   * when it is unset, does not parse as a `u32`, or is zero.
   */
  function GetLimit(env: map<string, string>, name: string): (r: Option<u32>)
    ensures r.Some? <==> name in env && ParseU32(env[name]).Some? && ParseU32(env[name]).value != 0
    ensures r.Some? ==> r.value > 0 && r.value == ParseU32(env[name]).value
  {
    if name !in env then None
    else match ParseU32(env[name])
      case None => None
      case Some(n) => if n == 0 then None else Some(n)
  }

  /** A variable set to a printed positive number yields it; one set to zero yields nothing. */
  lemma GetLimitOfShown(env: map<string, string>, name: string, n: u32)
    ensures n > 0 ==> GetLimit(env[name := Show(n)], name) == Some(n)
    ensures GetLimit(env[name := Show(0)], name) == None
  {
    ParseShow(n);
    ParseShow(0);
  }

  // ---------------------------------------------------------------- quota

  /**
   * A governor `Quota`: `cells` cells replenished evenly over `window`
   * seconds (one cell every `window / cells` seconds), with a burst of
   * `burst` cells.
   */
  datatype Quota = Quota(window: nat, cells: u32, burst: u32)

  /** `Quota::per_second(n)`, `per_minute(n)` and `per_hour(n)`: the burst is `n`. */
  function PerSecond(n: u32): Quota { Quota(1, n, n) }
  function PerMinute(n: u32): Quota { Quota(60, n, n) }
  function PerHour(n: u32): Quota { Quota(3600, n, n) }

  /** `quota.allow_burst(b)`. */
  function AllowBurst(q: Quota, b: u32): Quota { q.(burst := b) }

  /**
   * The quota `global_ratelimiter` builds: per second, else per minute, else
   * per hour, else 120 per minute; then a burst override when one is set.
   */
  function ChooseQuota(env: map<string, string>): (q: Quota)
    ensures q.cells > 0 && q.burst > 0
    ensures GetLimit(env, PER_SEC).Some? ==> q.window == 1 && q.cells == GetLimit(env, PER_SEC).value
    ensures GetLimit(env, PER_SEC).None? && GetLimit(env, PER_MIN).Some? ==>
      q.window == 60 && q.cells == GetLimit(env, PER_MIN).value
    ensures GetLimit(env, PER_SEC).None? && GetLimit(env, PER_MIN).None? && GetLimit(env, PER_HOUR).Some? ==>
      q.window == 3600 && q.cells == GetLimit(env, PER_HOUR).value
    ensures GetLimit(env, PER_SEC).None? && GetLimit(env, PER_MIN).None? && GetLimit(env, PER_HOUR).None? ==>
      q.window == 60 && q.cells == 120
    ensures q.burst == GetLimit(env, BURST).GetOr(q.cells)
  {
    var quota :=
      if GetLimit(env, PER_SEC).Some? then PerSecond(GetLimit(env, PER_SEC).value)
      else if GetLimit(env, PER_MIN).Some? then PerMinute(GetLimit(env, PER_MIN).value)
      else if GetLimit(env, PER_HOUR).Some? then PerHour(GetLimit(env, PER_HOUR).value)
      else PerMinute(120);
    match GetLimit(env, BURST)
    case Some(b) => AllowBurst(quota, b)
    case None => quota
  }

  /** With nothing configured the limiter allows 120 requests a minute, 120 at once. */
  lemma DefaultQuota()
    ensures ChooseQuota(map[]) == Quota(60, 120, 120)
  {
  }

  /** A variable whose value is unusable counts as unset. */
  lemma UnusableLimitIgnored(env: map<string, string>, name: string)
    requires GetLimit(env, name).None?
    ensures ChooseQuota(env) == ChooseQuota(env - {name})
  {
    var rest := env - {name};
    assert forall v :: v != name ==> GetLimit(env, v) == GetLimit(rest, v);
    assert GetLimit(rest, name).None?;
  }

  /** A usable per-second limit wins over whatever per-minute and per-hour limits say. */
  lemma PerSecondWins(env: map<string, string>, n: u32)
    requires n > 0
    ensures var q := ChooseQuota(env[PER_SEC := Show(n)]);
      q.window == 1 && q.cells == n && q.burst == GetLimit(env, BURST).GetOr(n)
  {
    GetLimitOfShown(env, PER_SEC, n);
    assert GetLimit(env[PER_SEC := Show(n)], BURST) == GetLimit(env, BURST);
  }

  // ---------------------------------------------------------------- requests and responses

  datatype Request = Request(verb: string, path: string, headers: map<string, string>)

  datatype Response = Response(status: nat, headers: map<string, string>, body: string)

  /** A `poem::Error`: the status and message its response carries. */
  datatype HttpError = HttpError(status: nat, message: string)

  /** `e.into_response()` for an error. */
  function ErrorResponse(e: HttpError): Response {
    Response(e.status, map[], e.message)
  }

  /** The downstream endpoint: answers each request with a given result and records what it was asked. */
  class Endpoint {
    var calls: seq<Request>
    const reply: Request -> Result<Response, HttpError>

    constructor (reply0: Request -> Result<Response, HttpError>)
      ensures calls == [] && reply == reply0
    {
      calls := [];
      reply := reply0;
    }

    /** `next.call(req)`. */
    method Call(req: Request) returns (r: Result<Response, HttpError>)
      modifies this
      ensures calls == old(calls) + [req] && r == reply(req)
    {
      calls := calls + [req];
      r := reply(req);
    }
  }

  // ---------------------------------------------------------------- `global_ratelimiter`

  const CLIENT_IP: string := "CF-Connecting-IP"
  const REMAINING: string := "ratelimit-burst-remaining"
  const REPLENISHED: string := "ratelimit-burst-replenished-in"
  const TOO_MANY_REQUESTS: nat := 429

  /** The keyed limiter, as far as this model sees it: its quota. */
  datatype Ratelimiter = Ratelimiter(quota: Quota)

  /**
   * What `check_key` reports for an admitted key: the remaining burst and
   * the burst-replenish time already printed in seconds.
   */
  datatype Snapshot = Snapshot(remainingBurst: u32, replenishedIn: string)

  /** The answer to a rejected key: 429 with governor's explanation as the body. */
  function Rejection(detail: string): (res: Response)
    ensures res.status == TOO_MANY_REQUESTS && res.body == detail && res.headers == map[]
  {
    Response(TOO_MANY_REQUESTS, map[], detail)
  }

  /**
   * The two rate-limit headers inserted into an admitted request's response;
   * an existing header of the same name is replaced.
   */
  function WithRateHeaders(res: Response, snap: Snapshot): (r: Response)
    ensures r.status == res.status && r.body == res.body
    ensures r.headers.Keys == res.headers.Keys + {REMAINING, REPLENISHED}
    ensures ParseU32(r.headers[REMAINING]) == Some(snap.remainingBurst)
    ensures r.headers[REPLENISHED] == snap.replenishedIn
    ensures forall h :: h in res.headers && h != REMAINING && h != REPLENISHED ==> r.headers[h] == res.headers[h]
  {
    ParseShow(snap.remainingBurst);
    res.(headers := res.headers[REMAINING := Show(snap.remainingBurst)][REPLENISHED := snap.replenishedIn])
  }

  /**
   * `global_ratelimiter(next, req)`. The limiter is built on the first
   * request from the environment as it is then and kept afterwards; `check`
   * stands for governor's verdict on a key under a quota. A request without
   * a client address goes straight through; a rejected one is answered with
   * 429 and never reaches `next`; an admitted one gets the rate-limit
   * headers on a successful response, and an error from `next` passes
   * through untouched.
   */
  method GlobalRatelimiter(cell: OnceCell<Ratelimiter>, env: map<string, string>,
                           check: (Quota, string) -> Result<Snapshot, string>,
                           next: Endpoint, req: Request)
    returns (r: Result<Response, HttpError>)
    modifies cell, next
    ensures cell.value == if old(cell.value).Some? then old(cell.value) else Some(Ratelimiter(ChooseQuota(env)))
    ensures CLIENT_IP !in req.headers ==> next.calls == old(next.calls) + [req] && r == next.reply(req)
    ensures CLIENT_IP in req.headers ==>
      var verdict := check(cell.value.value.quota, req.headers[CLIENT_IP]);
      (verdict.Err? ==> next.calls == old(next.calls) && r == Ok(Rejection(verdict.error))) &&
      (verdict.Ok? ==>
        (next.calls == old(next.calls) + [req] &&
         r == match next.reply(req)
           case Ok(res) => Ok(WithRateHeaders(res, verdict.value))
           case Err(e) => Err(e)))
  {
    var limiter := cell.GetOrInit(Ratelimiter(ChooseQuota(env)));
    if CLIENT_IP in req.headers {
      var verdict := check(limiter.quota, req.headers[CLIENT_IP]);
      if verdict.Err? {
        return Ok(Rejection(verdict.error));
      }
      var answer := next.Call(req);
      match answer {
        case Ok(res) => r := Ok(WithRateHeaders(res, verdict.value));
        case Err(e) => r := Err(e);
      }
    } else {
      r := next.Call(req);
    }
  }

  // ---------------------------------------------------------------- `log`

  const INTERNAL_ERROR_BODY: string := "An internal server error has occurred."

  /** The response an endpoint's result turns into: errors become their own responses. */
  function Settle(res: Result<Response, HttpError>): (r: Response)
    ensures res.Ok? ==> r == res.value
    ensures res.Err? ==> r.status == res.error.status && r.body == res.error.message
  {
    match res
    case Ok(v) => v
    case Err(e) => ErrorResponse(e)
  }

  /** What `log` does to a response: a status of 500 or more keeps its status and headers but not its body. */
  function Mask(res: Response): (m: Response)
    ensures m.status == res.status && m.headers == res.headers
    ensures res.status >= 500 ==> m.body == INTERNAL_ERROR_BODY
    ensures res.status < 500 ==> m == res
  {
    if res.status >= 500 then res.(body := INTERNAL_ERROR_BODY) else res
  }

  /** Masking twice is masking once. */
  lemma MaskIdempotent(res: Response)
    ensures Mask(Mask(res)) == Mask(res)
  {
  }

  /** A rate-limit rejection passes `log` unchanged, since 429 is below 500. */
  lemma RejectionNotMasked(detail: string)
    ensures Mask(Rejection(detail)) == Rejection(detail)
  {
  }

  /**
   * `log(next, req)`: calls `next` once, turns an error into its response,
   * masks server errors and always succeeds.
   */
  method Log(next: Endpoint, req: Request) returns (r: Result<Response, HttpError>)
    modifies next
    ensures next.calls == old(next.calls) + [req]
    ensures r == Ok(Mask(Settle(next.reply(req))))
  {
    var res := next.Call(req);
    var resp := Settle(res);
    if resp.status >= 500 {
      resp := resp.(body := INTERNAL_ERROR_BODY);
    }
    r := Ok(resp);
  }
}
