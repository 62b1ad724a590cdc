/**
 * The policy of the Spotify Web API client: the bounded retry loop, the backoff
 * delay, token refresh, device discovery and selection, and the one-shot
 * recovery of `playUri`.
 *
 * The network is a `Transport` whose server is an oracle: the response to the
 * n-th request the client sends, as a function of n and the request.  `random()`
 * is an `Rng` that hands out the values of a fixed source in order.  Every
 * operation is specified by a pure function over the client's fields (a
 * `Session`), the server and the number of requests already sent; the methods of
 * `Client` are proved to act as those functions say.
 */
module SpotifyClient {
  import opened Arduino
  import opened SpotifyTypes

  const SPOTIFY_TOKEN_URL: string := "https://accounts.spotify.com/api/token"
  const SPOTIFY_API_BASE_URL: string := "https://api.spotify.com/v1"
  const SPOTIFY_DEVICES_URL: string := SPOTIFY_API_BASE_URL + "/me/player/devices"
  const SPOTIFY_PLAY_URL: string := SPOTIFY_API_BASE_URL + "/me/player/play"
  const SPOTIFY_NEXT_URL: string := SPOTIFY_API_BASE_URL + "/me/player/next"
  const SPOTIFY_SHUFFLE_URL: string := SPOTIFY_API_BASE_URL + "/me/player/shuffle"

  /** Capacity of the device arrays `setDeviceById` and `setDeviceByName` use. */
  const MAX_DEVICES: nat := 10

  datatype HttpMethod = Get | Post | Put

  /** The resources the client talks to; the device id is the `device_id` query parameter. */
  datatype Endpoint =
    | TokenEndpoint
    | DevicesEndpoint
    | PlayEndpoint(deviceId: string)
    | NextEndpoint(deviceId: string)
    | ShuffleEndpoint(deviceId: string)

  /** The URL each endpoint is reached at. */
  function Url(e: Endpoint): string
  {
    match e
    case TokenEndpoint => SPOTIFY_TOKEN_URL
    case DevicesEndpoint => SPOTIFY_DEVICES_URL
    case PlayEndpoint(id) => SPOTIFY_PLAY_URL + "?device_id=" + id
    case NextEndpoint(id) => SPOTIFY_NEXT_URL + "?device_id=" + id
    case ShuffleEndpoint(id) => SPOTIFY_SHUFFLE_URL + "?state=true&device_id=" + id
  }

  /**
   * Request bodies: none, the JSON object that starts playback of a context,
   * and a form-encoded text (the refresh-token grant of section 6 of RFC 6749).
   */
  datatype Body = NoBody | PlayContext(contextUri: string) | Form(text: string)

  /** How a form is read on the other end: its `&`-separated parameters, in order. */
  function FormParams(form: string): (ps: seq<string>)
    ensures |ps| >= 1
    ensures forall i :: 0 <= i < |ps| ==> '&' !in ps[i]
  {
    if form == [] then [""]
    else
      var rest := FormParams(form[1..]);
      if form[0] == '&' then [""] + rest else [[form[0]] + rest[0]] + rest[1..]
  }

  /** The parameters joined with `&`. */
  function JoinParams(ps: seq<string>): string
    requires |ps| >= 1
  {
    if |ps| == 1 then ps[0] else ps[0] + "&" + JoinParams(ps[1..])
  }

  /** Splitting a form and joining the parameters gives the form back. */
  lemma {:induction false} JoinFormParams(form: string)
    ensures JoinParams(FormParams(form)) == form
  {
    if form != [] {
      var rest := FormParams(form[1..]);
      JoinFormParams(form[1..]);
      if form[0] == '&' {
        assert JoinParams([""] + rest) == "" + "&" + JoinParams(rest) by {
          assert ([""] + rest)[1..] == rest;
        }
        assert form == "&" + form[1..];
      } else {
        var ps := [[form[0]] + rest[0]] + rest[1..];
        if |rest| > 1 {
          assert ps[1..] == rest[1..];
          assert JoinParams(rest) == rest[0] + "&" + JoinParams(rest[1..]);
        }
        assert form == [form[0]] + form[1..];
      }
    }
  }

  /** Joining parameters free of `&` and splitting the result gives them back. */
  lemma {:induction false} FormParamsOfJoin(ps: seq<string>)
    requires |ps| >= 1 && forall i :: 0 <= i < |ps| ==> '&' !in ps[i]
    ensures FormParams(JoinParams(ps)) == ps
  {
    if |ps| == 1 {
      FormParamsOfPlain(ps[0], "");
      assert ps[0] + "" == ps[0];
    } else {
      var tail := JoinParams(ps[1..]);
      FormParamsOfJoin(ps[1..]);
      FormParamsOfPlain(ps[0], "&" + tail);
      assert ps[0] + "&" + tail == ps[0] + ("&" + tail);
      assert ("&" + tail)[1..] == tail;
      assert ps[0] + "" == ps[0];
    }
  }

  /** A text without `&` is a prefix of the first parameter it starts. */
  lemma {:induction false} FormParamsOfPlain(x: string, tail: string)
    requires '&' !in x
    ensures var rest := FormParams(tail);
            FormParams(x + tail) == [x + rest[0]] + rest[1..]
  {
    if x != [] {
      FormParamsOfPlain(x[1..], tail);
      assert (x + tail)[1..] == x[1..] + tail;
      assert [x[0]] + (x[1..] + FormParams(tail)[0]) == x + FormParams(tail)[0];
    } else {
      var rest := FormParams(tail);
      assert x + tail == tail && x + rest[0] == rest[0];
      assert rest == [rest[0]] + rest[1..];
    }
  }

  /** The form `fetchAccessToken` posts: the grant type, then the refresh token as it is, unescaped. */
  function GrantText(refreshToken: string): string
  {
    "grant_type=refresh_token&refresh_token=" + refreshToken
  }

  /**
   * The grant reads back as exactly the two parameters `grant_type=refresh_token`
   * and `refresh_token=<token>` if and only if the token holds no `&`; a token
   * with one is cut short, since it is sent without escaping.
   */
  lemma GrantParams(refreshToken: string)
    ensures FormParams(GrantText(refreshToken)) == ["grant_type=refresh_token", "refresh_token=" + refreshToken]
            <==> '&' !in refreshToken
  {
    var ps := ["grant_type=refresh_token", "refresh_token=" + refreshToken];
    if '&' !in refreshToken {
      assert JoinParams(ps) == GrantText(refreshToken) by {
        assert ps[1..] == [ps[1]];
      }
      FormParamsOfJoin(ps);
    } else {
      var i :| 0 <= i < |refreshToken| && refreshToken[i] == '&';
      assert ps[1][|"refresh_token="| + i] == '&';
    }
  }

  /**
   * The `Authorization` header: the access token on every API call, and the
   * client credentials `id:secret` (sent Base64-encoded) on the token request.
   */
  datatype Authorization = Bearer(accessToken: string) | Basic(credentials: string)

  datatype Request = Request(verb: HttpMethod, endpoint: Endpoint, body: Body, auth: Authorization)

  function DevicesRequest(accessToken: string): Request
  {
    Request(Get, DevicesEndpoint, NoBody, Bearer(accessToken))
  }

  function TokenRequest(clientId: string, clientSecret: string, refreshToken: string): Request
  {
    Request(Post, TokenEndpoint, Form(GrantText(refreshToken)), Basic(clientId + ":" + clientSecret))
  }

  /**
   * The token request is a POST to the token endpoint that carries the client
   * credentials and a form whose parameters are the refresh-token grant for
   * the stored token, as long as that token holds no `&`.
   */
  lemma TokenRequestShape(clientId: string, clientSecret: string, refreshToken: string)
    ensures var r := TokenRequest(clientId, clientSecret, refreshToken);
            r.verb == Post && r.endpoint == TokenEndpoint && Url(r.endpoint) == SPOTIFY_TOKEN_URL &&
            r.auth == Basic(clientId + ":" + clientSecret) && r.body.Form? &&
            ('&' !in refreshToken ==>
               FormParams(r.body.text) == ["grant_type=refresh_token", "refresh_token=" + refreshToken])
  {
    GrantParams(refreshToken);
  }

  function PlayRequest(accessToken: string, deviceId: string, contextUri: string): Request
  {
    Request(Put, PlayEndpoint(deviceId), PlayContext(contextUri), Bearer(accessToken))
  }

  function ShuffleRequest(accessToken: string, deviceId: string): Request
  {
    Request(Put, ShuffleEndpoint(deviceId), NoBody, Bearer(accessToken))
  }

  function NextRequest(accessToken: string, deviceId: string): Request
  {
    Request(Post, NextEndpoint(deviceId), NoBody, Bearer(accessToken))
  }

  /** The server: the response to the n-th request sent. */
  type Server = (nat, Request) -> HttpResult

  /** The client's fields that its operations read and write. */
  datatype Session = Session(clientId: string, clientSecret: string, refreshToken: string,
                             accessToken: string, deviceName: string, deviceId: string,
                             retryCount: byte)

  // ---------------------------------------------------------------------------
  // Sequences of requests
  // ---------------------------------------------------------------------------

  /** `k` copies of one request. */
  function Repeat(req: Request, k: nat): (rs: seq<Request>)
    ensures |rs| == k
  {
    if k == 0 then [] else Repeat(req, k - 1) + [req]
  }

  lemma RepeatGrows(prefix: seq<Request>, req: Request, k: nat)
    ensures (prefix + Repeat(req, k)) + [req] == prefix + Repeat(req, k + 1)
  {
    assert Repeat(req, k + 1) == Repeat(req, k) + [req];
  }

  lemma AppendAssoc(a: seq<Request>, b: seq<Request>, c: seq<Request>)
    ensures (a + b) + c == a + (b + c)
  {
  }

  /** How many requests of each kind a sequence holds. */
  datatype Tally = Tally(token: nat, devices: nat, play: nat, shuffle: nat, next: nat)

  function Plus(a: Tally, b: Tally): Tally
  {
    Tally(a.token + b.token, a.devices + b.devices, a.play + b.play, a.shuffle + b.shuffle, a.next + b.next)
  }

  lemma PlusAssoc(x: Tally, y: Tally, z: Tally)
    ensures Plus(Plus(x, y), z) == Plus(x, Plus(y, z))
  {
  }

  /** The tally of a single request. */
  function Unit(r: Request): Tally
  {
    match r.endpoint
    case TokenEndpoint => Tally(1, 0, 0, 0, 0)
    case DevicesEndpoint => Tally(0, 1, 0, 0, 0)
    case PlayEndpoint(_) => Tally(0, 0, 1, 0, 0)
    case ShuffleEndpoint(_) => Tally(0, 0, 0, 1, 0)
    case NextEndpoint(_) => Tally(0, 0, 0, 0, 1)
  }

  /** The tally of the first `k` requests of `rs`. */
  function TallyUpTo(rs: seq<Request>, k: nat): Tally
    requires k <= |rs|
  {
    if k == 0 then Tally(0, 0, 0, 0, 0) else Plus(TallyUpTo(rs, k - 1), Unit(rs[k - 1]))
  }

  function TallyOf(rs: seq<Request>): Tally
  {
    TallyUpTo(rs, |rs|)
  }

  /** The tally of the first `k` requests depends on those requests only. */
  lemma {:induction false} TallyUpToPrefix(rs: seq<Request>, qs: seq<Request>, k: nat)
    requires k <= |rs| && k <= |qs| && forall i :: 0 <= i < k ==> rs[i] == qs[i]
    ensures TallyUpTo(rs, k) == TallyUpTo(qs, k)
  {
    if k > 0 {
      TallyUpToPrefix(rs, qs, k - 1);
    }
  }

  /** Appending `b` adds the tally of `b`, one request at a time. */
  lemma {:induction false} TallyUpToAppend(a: seq<Request>, b: seq<Request>, j: nat)
    requires j <= |b|
    ensures TallyUpTo(a + b, |a| + j) == Plus(TallyUpTo(a, |a|), TallyUpTo(b, j))
  {
    if j == 0 {
      TallyUpToPrefix(a + b, a, |a|);
    } else {
      TallyUpToAppend(a, b, j - 1);
      assert (a + b)[|a| + j - 1] == b[j - 1];
      PlusAssoc(TallyUpTo(a, |a|), TallyUpTo(b, j - 1), Unit(b[j - 1]));
    }
  }

  lemma TallyAppend(a: seq<Request>, b: seq<Request>)
    ensures TallyOf(a + b) == Plus(TallyOf(a), TallyOf(b))
  {
    TallyUpToAppend(a, b, |b|);
  }

  lemma TallySingle(r: Request)
    ensures TallyOf([r]) == Unit(r)
  {
    assert [r][0] == r;
    assert TallyUpTo([r], 0) == Tally(0, 0, 0, 0, 0);
    assert TallyOf([r]) == Plus(Tally(0, 0, 0, 0, 0), Unit(r));
  }

  /** The tally of `k` requests of the kind of `req`. */
  function Times(req: Request, k: nat): Tally
  {
    match req.endpoint
    case TokenEndpoint => Tally(k, 0, 0, 0, 0)
    case DevicesEndpoint => Tally(0, k, 0, 0, 0)
    case PlayEndpoint(_) => Tally(0, 0, k, 0, 0)
    case ShuffleEndpoint(_) => Tally(0, 0, 0, k, 0)
    case NextEndpoint(_) => Tally(0, 0, 0, 0, k)
  }

  lemma TimesStep(req: Request, k: nat)
    requires k > 0
    ensures Times(req, k) == Plus(Times(req, k - 1), Unit(req))
  {
  }

  /** `k` copies of a request count `k` times, all of its kind. */
  lemma {:induction false} TallyRepeat(req: Request, k: nat)
    ensures TallyOf(Repeat(req, k)) == Times(req, k)
  {
    if k > 0 {
      assert TallyOf(Repeat(req, k)) == Plus(TallyOf(Repeat(req, k - 1)), Unit(req)) by {
        assert Repeat(req, k) == Repeat(req, k - 1) + [req];
        TallyAppend(Repeat(req, k - 1), [req]);
        TallySingle(req);
      }
      TallyRepeat(req, k - 1);
      TimesStep(req, k);
    } else {
      assert Repeat(req, k) == [];
    }
  }

  // ---------------------------------------------------------------------------
  // callApiWithRetry
  // ---------------------------------------------------------------------------

  /** The outcome of a retried call: the result returned, the calls made, `currentRetryCount_`. */
  datatype Retried = Retried(result: HttpResult, attempts: nat, retryCount: byte)

  /**
   * The retry loop from attempt `k` on, with the next request numbered `n` and
   * `rc` the retry counter field on entry.  A final response ends the loop and
   * clears the counter; a retryable one is retried until `maxRetries` retries
   * were made, and the counter then holds the number of retries.
   */
  function RetryLoop(server: Server, n: nat, req: Request, maxRetries: byte, k: nat, rc: byte): (r: Retried)
    requires k <= maxRetries
    ensures 1 <= r.attempts <= maxRetries - k + 1
    decreases maxRetries - k
  {
    var result := server(n, req);
    if result.IsFinal() then Retried(result, 1, 0)
    else if k < maxRetries then
      var rest := RetryLoop(server, n + 1, req, maxRetries, k + 1, (k + 1) as byte);
      Retried(rest.result, rest.attempts + 1, rest.retryCount)
    else Retried(result, 1, rc)
  }

  /**
   * The loop returns the response to its last call; every earlier response was
   * retryable; a final response clears the counter, and a retryable last
   * response means every retry was used.
   */
  lemma {:induction false} RetryLoopShape(server: Server, n: nat, req: Request, maxRetries: byte, k: nat, rc: byte)
    requires k <= maxRetries
    ensures var r := RetryLoop(server, n, req, maxRetries, k, rc);
            r.result == server(n + r.attempts - 1, req) &&
            (forall j :: n <= j < n + r.attempts - 1 ==> !server(j, req).IsFinal()) &&
            (r.result.IsFinal() ==> r.retryCount == 0) &&
            (!r.result.IsFinal() ==>
               r.attempts == maxRetries - k + 1 && r.retryCount == (if k == maxRetries then rc else maxRetries))
    decreases maxRetries - k
  {
    if !server(n, req).IsFinal() && k < maxRetries {
      RetryLoopShape(server, n + 1, req, maxRetries, k + 1, (k + 1) as byte);
    }
  }

  /** `callApiWithRetry` with configuration `cfg`, starting at request number `n`. */
  function Retry(server: Server, n: nat, req: Request, cfg: RetryConfig, rc: byte): (r: Retried)
    ensures 1 <= r.attempts <= cfg.maxRetries + 1
  {
    RetryLoop(server, n, req, cfg.maxRetries, 0, rc)
  }

  /** The whole loop's outcome seen from attempt `k`, after `k` retryable responses. */
  function Resume(server: Server, n: nat, req: Request, maxRetries: byte, k: nat, rc: byte): Retried
    requires k <= maxRetries
  {
    var rest := RetryLoop(server, n + k, req, maxRetries, k, rc);
    Retried(rest.result, rest.attempts + k, rest.retryCount)
  }

  /** One step of the loop: a retryable response with retries left moves on to attempt `k + 1`. */
  lemma ResumeStep(server: Server, n: nat, req: Request, maxRetries: byte, k: nat, rc: byte)
    requires k < maxRetries && !server(n + k, req).IsFinal()
    ensures Resume(server, n, req, maxRetries, k, rc) == Resume(server, n, req, maxRetries, k + 1, (k + 1) as byte)
  {
    assert n + k + 1 == n + (k + 1);
  }

  /** The first final response ends the loop: a 2xx, 401 or 404 is never retried. */
  lemma RetryStopsAtFinal(server: Server, n: nat, req: Request, cfg: RetryConfig, rc: byte)
    requires server(n, req).IsFinal()
    ensures Retry(server, n, req, cfg, rc) == Retried(server(n, req), 1, 0)
  {
  }

  /** Without a final response the loop makes exactly `maxRetries + 1` calls. */
  lemma RetryExhausts(server: Server, n: nat, req: Request, cfg: RetryConfig, rc: byte)
    requires forall j :: n <= j <= n + cfg.maxRetries ==> !server(j, req).IsFinal()
    ensures var r := Retry(server, n, req, cfg, rc);
            r.attempts == cfg.maxRetries + 1 && !r.result.IsFinal() &&
            r.retryCount == (if cfg.maxRetries == 0 then rc else cfg.maxRetries)
  {
    var r := Retry(server, n, req, cfg, rc);
    RetryLoopShape(server, n, req, cfg.maxRetries, 0, rc);
    assert !server(n + r.attempts - 1, req).IsFinal();
  }

  // ---------------------------------------------------------------------------
  // calculateBackoffDelay
  // ---------------------------------------------------------------------------

  function Pow(b: nat, e: nat): (p: nat)
  {
    if e == 0 then 1 else b * Pow(b, e - 1)
  }

  function Min(a: int, b: int): int
  {
    if a <= b then a else b
  }

  /**
   * The delay the doubling loop reaches from `delay` with `remaining` rounds to
   * go: each round multiplies, and the first product above the maximum is
   * replaced by the maximum and ends the loop.
   */
  function BackoffFrom(cfg: RetryConfig, delay: nat, remaining: nat): (d: nat)
    ensures remaining == 0 ==> d == delay
    ensures remaining > 0 ==> d <= cfg.maxDelayMs || d == Pow(cfg.backoffMultiplier, remaining) * delay
    decreases remaining
  {
    if remaining == 0 then delay
    else if delay * cfg.backoffMultiplier > cfg.maxDelayMs then cfg.maxDelayMs
    else BackoffFrom(cfg, delay * cfg.backoffMultiplier, remaining - 1)
  }

  /** One doubling round: the delay times the multiplier. */
  function Scaled(delay: nat, multiplier: nat): (d: nat)
    ensures multiplier >= 1 ==> delay <= d
    ensures multiplier == 0 ==> d == 0
  {
    GrowsByFactor(delay, multiplier);
    delay * multiplier
  }

  /** One round of the doubling loop: cap and stop, or go on from the product. */
  lemma BackoffFromStep(cfg: RetryConfig, delay: nat, remaining: nat)
    requires remaining > 0
    ensures Scaled(delay, cfg.backoffMultiplier) > cfg.maxDelayMs ==>
              BackoffFrom(cfg, delay, remaining) == cfg.maxDelayMs
    ensures Scaled(delay, cfg.backoffMultiplier) <= cfg.maxDelayMs ==>
              BackoffFrom(cfg, delay, remaining) == BackoffFrom(cfg, Scaled(delay, cfg.backoffMultiplier), remaining - 1)
  {
  }

  /** The delay before jitter for retry number `k`. */
  function BackoffBase(cfg: RetryConfig, k: nat): nat
  {
    BackoffFrom(cfg, cfg.initialDelayMs, k)
  }

  lemma PowPositive(b: nat, e: nat)
    requires b >= 1
    ensures Pow(b, e) >= 1
  {
  }

  lemma {:induction false} BackoffFromClosedForm(cfg: RetryConfig, delay: nat, remaining: nat)
    requires cfg.backoffMultiplier >= 1 && remaining >= 1
    ensures BackoffFrom(cfg, delay, remaining)
            == Min(delay * Pow(cfg.backoffMultiplier, remaining), cfg.maxDelayMs)
    decreases remaining
  {
    var m := cfg.backoffMultiplier;
    assert Pow(m, remaining) == m * Pow(m, remaining - 1);
    PowPositive(m, remaining - 1);
    var rest := Pow(m, remaining - 1);
    assert delay * Pow(m, remaining) == (delay * m) * rest;
    assert (delay * m) * rest >= delay * m by {
      assert (delay * m) * rest == delay * m + (delay * m) * (rest - 1);
    }
    if delay * m <= cfg.maxDelayMs && remaining > 1 {
      BackoffFromClosedForm(cfg, delay * m, remaining - 1);
    }
  }

  /**
   * With a multiplier of at least one, retry `k >= 1` waits `initial * mult^k`
   * capped at the maximum; retry 0 waits the initial delay even above the maximum.
   */
  lemma BackoffClosedForm(cfg: RetryConfig, k: nat)
    requires cfg.backoffMultiplier >= 1
    ensures BackoffBase(cfg, k)
            == if k == 0 then cfg.initialDelayMs
               else Min(cfg.initialDelayMs * Pow(cfg.backoffMultiplier, k), cfg.maxDelayMs)
  {
    if k > 0 {
      BackoffFromClosedForm(cfg, cfg.initialDelayMs, k);
    }
  }

  /** The backoff delay never decreases from one retry to the next (multiplier at least one). */
  lemma BackoffMonotone(cfg: RetryConfig, k: nat)
    requires cfg.backoffMultiplier >= 1 && cfg.initialDelayMs <= cfg.maxDelayMs
    ensures BackoffBase(cfg, k) <= BackoffBase(cfg, k + 1) <= cfg.maxDelayMs
  {
    var i, m, cap := cfg.initialDelayMs, cfg.backoffMultiplier, cfg.maxDelayMs;
    BackoffClosedForm(cfg, k);
    BackoffClosedForm(cfg, k + 1);
    var a := i * Pow(m, k);
    var b := i * Pow(m, k + 1);
    assert b == m * a by {
      assert Pow(m, k + 1) == m * Pow(m, k);
      MulSwap(i, m, Pow(m, k));
    }
    GrowsByFactor(a, m);
    var now := BackoffBase(cfg, k);
    var next := BackoffBase(cfg, k + 1);
    assert next == Min(b, cap);
    if k == 0 {
      assert now == i;
      assert a == i;
    } else {
      assert now == Min(a, cap);
    }
    assert now <= next <= cap;
  }

  lemma MulSwap(x: nat, y: nat, z: nat)
    ensures x * (y * z) == y * (x * z)
  {
  }

  lemma GrowsByFactor(a: nat, m: nat)
    ensures m >= 1 ==> a <= m * a && a <= a * m
  {
    assert m * a == a + (m - 1) * a;
  }

  /** `random(howbig)` on the next source value: 0 without a draw when `howbig` is 0. */
  function RandomValue(source: nat -> nat, pos: nat, howbig: nat): (r: nat)
    ensures howbig > 0 ==> r < howbig
    ensures howbig == 0 ==> r == 0
  {
    if howbig == 0 then 0 else source(pos) % howbig
  }

  /** The source position after `random(howbig)`. */
  function RandomNext(pos: nat, howbig: nat): nat
  {
    if howbig == 0 then pos else pos + 1
  }

  /** The jitter step: add or subtract, in 32-bit unsigned arithmetic. */
  function Jittered(delay: uint32, jitter: nat, add: bool): (d: uint32)
    requires jitter <= delay
    ensures add && delay + jitter < UINT32_MODULUS ==> d == delay + jitter
    ensures !add ==> d == delay - jitter
  {
    if add then (delay + jitter) % UINT32_MODULUS else delay - jitter
  }

  /** A jitter of at most a quarter keeps the delay within 25% of the base. */
  lemma JitterBand(delay: uint32, jitter: nat, add: bool)
    requires jitter <= delay / 4 && delay + delay / 4 < UINT32_MODULUS
    ensures delay - delay / 4 <= Jittered(delay, jitter, add) <= delay + delay / 4
  {
  }

  /** The delay `calculateBackoffDelay(k)` returns, and the source position after it. */
  function BackoffDelay(cfg: RetryConfig, k: nat, source: nat -> nat, pos: nat): (r: (uint32, nat))
    ensures cfg.initialDelayMs + cfg.initialDelayMs / 4 < UINT32_MODULUS &&
            cfg.maxDelayMs + cfg.maxDelayMs / 4 < UINT32_MODULUS ==>
              BackoffBase(cfg, k) - BackoffBase(cfg, k) / 4 <= r.0 <= BackoffBase(cfg, k) + BackoffBase(cfg, k) / 4
  {
    var base: uint32 := BackoffBaseBound(cfg, k);
    var jitter := RandomValue(source, pos, base / 4);
    var pos1 := RandomNext(pos, base / 4);
    var add := RandomValue(source, pos1, 2) == 0;
    var delay := Jittered(base, jitter, add);
    assert base + base / 4 < UINT32_MODULUS ==> base - base / 4 <= delay <= base + base / 4 by {
      if base + base / 4 < UINT32_MODULUS {
        JitterBand(base, jitter, add);
      }
    }
    (delay, pos1 + 1)
  }

  /** `delay` and the source position `pos1` are what `calculateBackoffDelay(k)` gives from `pos`. */
  predicate DrawnDelay(cfg: RetryConfig, k: nat, source: nat -> nat, pos: nat, delay: uint32, pos1: nat)
  {
    (delay, pos1) == BackoffDelay(cfg, k, source, pos)
  }

  /** The base delay is a 32-bit value: the initial delay, or at most the maximum. */
  function BackoffBaseBound(cfg: RetryConfig, k: nat): (base: uint32)
    ensures base == BackoffBase(cfg, k)
    ensures base <= cfg.initialDelayMs || base <= cfg.maxDelayMs
    ensures base <= cfg.maxDelayMs || k == 0
  {
    BackoffFromBelow(cfg, cfg.initialDelayMs, k);
    BackoffBase(cfg, k)
  }

  lemma {:induction false} BackoffFromBelow(cfg: RetryConfig, delay: nat, remaining: nat)
    ensures BackoffFrom(cfg, delay, remaining) <= cfg.maxDelayMs || remaining == 0
    decreases remaining
  {
    if remaining > 0 && delay * cfg.backoffMultiplier <= cfg.maxDelayMs {
      BackoffFromBelow(cfg, delay * cfg.backoffMultiplier, remaining - 1);
    }
  }

  // ---------------------------------------------------------------------------
  // Device lists
  // ---------------------------------------------------------------------------

  /** The entries of a device list that have an id, in order. */
  function WithIds(devices: seq<DeviceRecord>): (kept: seq<DeviceRecord>)
    ensures |kept| <= |devices|
    ensures forall i :: 0 <= i < |kept| ==> kept[i].id != ""
  {
    if devices == [] then []
    else (if devices[0].id != "" then [devices[0]] else []) + WithIds(devices[1..])
  }

  lemma {:induction false} WithIdsAppend(a: seq<DeviceRecord>, b: seq<DeviceRecord>)
    ensures WithIds(a + b) == WithIds(a) + WithIds(b)
  {
    if a == [] {
      assert a + b == b;
    } else {
      assert (a + b)[1..] == a[1..] + b;
      WithIdsAppend(a[1..], b);
    }
  }

  /**
   * The records `parseDevicesJson` stores: the entries with an id, at most
   * `maxDevices` of them; nothing for a body that is not JSON.
   */
  function ParsedDevices(payload: Payload, maxDevices: int): (ds: seq<DeviceRecord>)
    ensures |ds| <= if maxDevices <= 0 then 0 else maxDevices
  {
    match payload
    case NotJson => []
    case Json(devices, _) =>
      var kept := WithIds(devices);
      if maxDevices <= 0 then [] else kept[..Min(|kept|, maxDevices)]
  }

  /**
   * The stored records all have an id and are, in order, the first entries of
   * the list that have one; all of them when they fit.
   */
  lemma ParsedDevicesKept(payload: Payload, maxDevices: int)
    ensures var ds := ParsedDevices(payload, maxDevices);
            (forall i :: 0 <= i < |ds| ==> ds[i].id != "") &&
            (payload.Json? ==> ds <= WithIds(payload.devices)) &&
            (payload.Json? && 0 <= maxDevices && |WithIds(payload.devices)| <= maxDevices ==>
               ds == WithIds(payload.devices))
  {
  }

  /** Scanning one more entry keeps it when it has an id. */
  lemma WithIdsStep(list: seq<DeviceRecord>, i: nat)
    requires i < |list|
    ensures WithIds(list[..i + 1]) == WithIds(list[..i]) + (if list[i].id != "" then [list[i]] else [])
  {
    assert list[..i + 1] == list[..i] + [list[i]];
    WithIdsAppend(list[..i], [list[i]]);
    assert [list[i]][1..] == [];
  }

  /**
   * Where the scan of `parseDevicesJson` stops (at the end, or once `maxDevices`
   * records are kept), the records kept so far are exactly `ParsedDevices`.
   */
  lemma ParsedDevicesStop(payload: Payload, i: nat, count: int, maxDevices: int)
    requires payload.Json? && i <= |payload.devices|
    requires count == |WithIds(payload.devices[..i])| && (count <= maxDevices || i == 0)
    requires i == |payload.devices| || count >= maxDevices
    ensures WithIds(payload.devices[..i]) == ParsedDevices(payload, maxDevices)
  {
    var list := payload.devices;
    assert list[..i] + list[i..] == list;
    WithIdsAppend(list[..i], list[i..]);
    if i == |list| {
      assert list[i..] == [];
    }
  }

  /** Index of the first device named `name` (exact, case-sensitive), or -1. */
  function FirstNamed(devices: seq<DeviceRecord>, name: string): (i: int)
    ensures -1 <= i < |devices|
  {
    if devices == [] then -1
    else if devices[0].name == name then 0
    else var i := FirstNamed(devices[1..], name); if i == -1 then -1 else i + 1
  }

  /** Index of the first device with id `id`, or -1. */
  function FirstWithId(devices: seq<DeviceRecord>, id: string): (i: int)
    ensures -1 <= i < |devices|
  {
    if devices == [] then -1
    else if devices[0].id == id then 0
    else var i := FirstWithId(devices[1..], id); if i == -1 then -1 else i + 1
  }

  /** A scan that stops at the first match finds what `FirstNamed` finds. */
  /** `FirstNamed` finds the first match, and -1 only when there is none. */
  lemma {:induction false} FirstNamedFinds(devices: seq<DeviceRecord>, name: string)
    ensures var i := FirstNamed(devices, name);
            (i >= 0 ==> devices[i].name == name && forall j :: 0 <= j < i ==> devices[j].name != name) &&
            (i == -1 ==> forall j :: 0 <= j < |devices| ==> devices[j].name != name)
  {
    if devices != [] && devices[0].name != name {
      FirstNamedFinds(devices[1..], name);
    }
  }

  lemma FirstNamedIs(devices: seq<DeviceRecord>, name: string, i: nat)
    requires i <= |devices| && forall j :: 0 <= j < i ==> devices[j].name != name
    requires i == |devices| || devices[i].name == name
    ensures FirstNamed(devices, name) == if i == |devices| then -1 else i
  {
    FirstNamedFinds(devices, name);
  }

  /** A scan that stops at the first match finds what `FirstWithId` finds. */
  /** `FirstWithId` finds the first match, and -1 only when there is none. */
  lemma {:induction false} FirstWithIdFinds(devices: seq<DeviceRecord>, id: string)
    ensures var i := FirstWithId(devices, id);
            (i >= 0 ==> devices[i].id == id && forall j :: 0 <= j < i ==> devices[j].id != id) &&
            (i == -1 ==> forall j :: 0 <= j < |devices| ==> devices[j].id != id)
  {
    if devices != [] && devices[0].id != id {
      FirstWithIdFinds(devices[1..], id);
    }
  }

  lemma FirstWithIdIs(devices: seq<DeviceRecord>, id: string, i: nat)
    requires i <= |devices| && forall j :: 0 <= j < i ==> devices[j].id != id
    requires i == |devices| || devices[i].id == id
    ensures FirstWithId(devices, id) == if i == |devices| then -1 else i
  {
    FirstWithIdFinds(devices, id);
  }

  /** `extractDeviceId`: the id of the first device named `deviceName`, or "". */
  function ExtractDeviceId(payload: Payload, deviceName: string): (id: string)
    ensures payload.NotJson? ==> id == ""
  {
    match payload
    case NotJson => ""
    case Json(devices, _) =>
      var i := FirstNamed(devices, deviceName);
      if i == -1 then "" else devices[i].id
  }

  /**
   * A non-empty id comes from the first device with the configured name; an
   * empty one means no such device has an id (none is named so, or the first
   * one named so has an empty id).
   */
  lemma ExtractDeviceIdFinds(payload: Payload, deviceName: string)
    ensures var id := ExtractDeviceId(payload, deviceName);
            (id != "" ==> payload.Json? &&
                          exists i :: 0 <= i < |payload.devices| &&
                            payload.devices[i].name == deviceName && payload.devices[i].id == id &&
                            forall j :: 0 <= j < i ==> payload.devices[j].name != deviceName) &&
            (payload.Json? && id == "" ==>
               forall i :: 0 <= i < |payload.devices| && payload.devices[i].name == deviceName &&
                           payload.devices[i].id != "" ==>
                             exists j :: 0 <= j < i && payload.devices[j].name == deviceName)
  {
    if payload.Json? {
      FirstNamedFinds(payload.devices, deviceName);
    }
  }

  // ---------------------------------------------------------------------------
  // Operations over the session
  // ---------------------------------------------------------------------------

  /** What an operation returns, the session after it, and the requests it sent. */
  datatype Outcome = Outcome(ok: bool, session: Session, sent: seq<Request>)

  /** `fetchAccessToken`: one token request; a 200 with a decodable body stores its token. */
  function FetchTokenSpec(server: Server, n: nat, s: Session): Outcome
  {
    var req := TokenRequest(s.clientId, s.clientSecret, s.refreshToken);
    var r := server(n, req);
    if r.httpCode != 200 || r.payload.NotJson? then Outcome(false, s, [req])
    else Outcome(r.payload.accessToken != "", s.(accessToken := r.payload.accessToken), [req])
  }

  /**
   * A token refresh sends exactly the grant for the stored refresh token and
   * changes at most the access token; it succeeds exactly when the answer is a
   * 200 whose body carries a non-empty token, which is then stored.
   */
  lemma FetchTokenFacts(server: Server, n: nat, s: Session)
    ensures var o := FetchTokenSpec(server, n, s);
            var r := server(n, TokenRequest(s.clientId, s.clientSecret, s.refreshToken));
            o.sent == [TokenRequest(s.clientId, s.clientSecret, s.refreshToken)] &&
            o.session.(accessToken := s.accessToken) == s &&
            (o.ok <==> r.httpCode == 200 && r.payload.Json? && r.payload.accessToken != "") &&
            (o.ok ==> o.session.accessToken == r.payload.accessToken) &&
            (r.httpCode != 200 ==> o.session == s)
  {
  }

  /** `discoverDevice`: a retried device-list request, then the id of the configured device. */
  function DiscoverSpec(server: Server, n: nat, s: Session, cfg: RetryConfig): Outcome
  {
    var rt := Retry(server, n, DevicesRequest(s.accessToken), cfg, s.retryCount);
    var s1 := s.(retryCount := rt.retryCount);
    var sent := Repeat(DevicesRequest(s.accessToken), rt.attempts);
    if !rt.result.IsSuccess() then Outcome(false, s1, sent)
    else
      var id := ExtractDeviceId(rt.result.payload, s.deviceName);
      Outcome(id != "", s1.(deviceId := id), sent)
  }

  /**
   * Discovery only sends device-list requests and changes at most the device id
   * (and the retry counter); it succeeds exactly when the list was fetched and
   * holds a device with the configured name, whose id is then stored.
   */
  lemma DiscoverFacts(server: Server, n: nat, s: Session, cfg: RetryConfig)
    ensures var o := DiscoverSpec(server, n, s, cfg);
            var rt := Retry(server, n, DevicesRequest(s.accessToken), cfg, s.retryCount);
            o.sent == Repeat(DevicesRequest(s.accessToken), rt.attempts) &&
            o.session.(deviceId := s.deviceId, retryCount := s.retryCount) == s &&
            (o.ok <==> rt.result.IsSuccess() && ExtractDeviceId(rt.result.payload, s.deviceName) != "") &&
            (rt.result.IsSuccess() ==> o.session.deviceId == ExtractDeviceId(rt.result.payload, s.deviceName)) &&
            (!rt.result.IsSuccess() ==> o.session.deviceId == s.deviceId)
  {
  }

  /** `begin`: a token, then the device. */
  function BeginSpec(server: Server, n: nat, s: Session, cfg: RetryConfig): Outcome
  {
    var f := FetchTokenSpec(server, n, s);
    if !f.ok then f
    else
      var d := DiscoverSpec(server, n + 1, f.session, cfg);
      Outcome(d.ok, d.session, f.sent + d.sent)
  }

  /**
   * `begin` starts with the token request, stops there when it fails, and on
   * success leaves the client authenticated and with a device.
   */
  lemma BeginFacts(server: Server, n: nat, s: Session, cfg: RetryConfig)
    ensures var o := BeginSpec(server, n, s, cfg);
            |o.sent| >= 1 && o.sent[0] == TokenRequest(s.clientId, s.clientSecret, s.refreshToken) &&
            (!FetchTokenSpec(server, n, s).ok ==> !o.ok && |o.sent| == 1) &&
            (o.ok ==> o.session.accessToken != "" && o.session.deviceId != "")
  {
    var f := FetchTokenSpec(server, n, s);
    FetchTokenFacts(server, n, s);
    if f.ok {
      DiscoverFacts(server, n + 1, f.session, cfg);
    }
  }

  /** `enableShuffle` and `nextTrack`: one retried call; the answer is its success. */
  function SimpleCallSpec(server: Server, n: nat, s: Session, cfg: RetryConfig, req: Request): Outcome
  {
    var rt := Retry(server, n, req, cfg, s.retryCount);
    Outcome(rt.result.IsSuccess(), s.(retryCount := rt.retryCount), Repeat(req, rt.attempts))
  }

  /** A simple call sends between one and `maxRetries + 1` copies of its request. */
  lemma SimpleCallSent(server: Server, n: nat, s: Session, cfg: RetryConfig, req: Request)
    ensures var o := SimpleCallSpec(server, n, s, cfg, req);
            1 <= |o.sent| <= cfg.maxRetries + 1 && o.sent == Repeat(req, |o.sent|)
  {
  }

  /** Turning shuffle on sends shuffle requests only. */
  lemma ShuffleCallTally(server: Server, n: nat, s: Session, cfg: RetryConfig, accessToken: string, deviceId: string)
    ensures var o := SimpleCallSpec(server, n, s, cfg, ShuffleRequest(accessToken, deviceId));
            |o.sent| >= 1 && TallyOf(o.sent) == Tally(0, 0, 0, |o.sent|, 0)
  {
    var req := ShuffleRequest(accessToken, deviceId);
    TallyRepeat(req, Retry(server, n, req, cfg, s.retryCount).attempts);
  }



  /** The state of `playUri` after the recovery step: its result, session and requests. */
  datatype Played = Played(result: HttpResult, session: Session, sent: seq<Request>)

  /**
   * A retried play request on the session's device, sent after the requests
   * `prefix`; the first of them was request number `n`.
   */
  function Replay(server: Server, n: nat, s: Session, cfg: RetryConfig,
                  contextUri: string, prefix: seq<Request>): Played
  {
    var req := PlayRequest(s.accessToken, s.deviceId, contextUri);
    var rt := Retry(server, n + |prefix|, req, cfg, s.retryCount);
    Played(rt.result, s.(retryCount := rt.retryCount), prefix + Repeat(req, rt.attempts))
  }

  /**
   * The recovery step of `playUri` after the first play result `first`, with
   * the next request numbered `n`: on 404 rediscover the device and, if found,
   * play once more on the new id; on 401 refresh the token and, if that works,
   * play once more on the same id; otherwise keep the first result.
   */
  function RecoverSpec(server: Server, n: nat, s: Session, cfg: RetryConfig,
                       contextUri: string, first: HttpResult): Played
  {
    if first.IsNotFound() then
      var d := DiscoverSpec(server, n, s, cfg);
      if d.ok then Replay(server, n, d.session, cfg, contextUri, d.sent)
      else Played(first, d.session, d.sent)
    else if first.IsUnauthorized() then
      var f := FetchTokenSpec(server, n, s);
      if f.ok then Replay(server, n, f.session, cfg, contextUri, f.sent)
      else Played(first, f.session, f.sent)
    else Played(first, s, [])
  }

  /**
   * The end of `playUri` once the recovery step is done, with `p.sent` every
   * request so far and `n` the number of the next one: after a 2xx, turn
   * shuffle on and report success; otherwise report failure.
   */
  function Finish(server: Server, n: nat, cfg: RetryConfig, p: Played): Outcome
  {
    if p.result.IsSuccess() then
      var sh := SimpleCallSpec(server, n, p.session, cfg, ShuffleRequest(p.session.accessToken, p.session.deviceId));
      Outcome(true, sh.session, p.sent + sh.sent)
    else Outcome(false, p.session, p.sent)
  }

  /** The first round of play requests with outcome `rt`, then the recovery step. */
  function PlayBefore(server: Server, n: nat, s: Session, cfg: RetryConfig, contextUri: string, rt: Retried): Played
  {
    var p := RecoverSpec(server, n + rt.attempts, s.(retryCount := rt.retryCount), cfg, contextUri, rt.result);
    Played(p.result, p.session, Repeat(PlayRequest(s.accessToken, s.deviceId, contextUri), rt.attempts) + p.sent)
  }

  lemma PlayBeforeParts(server: Server, n: nat, s: Session, cfg: RetryConfig, contextUri: string, rt: Retried)
    ensures var p := RecoverSpec(server, n + rt.attempts, s.(retryCount := rt.retryCount), cfg, contextUri, rt.result);
            PlayBefore(server, n, s, cfg, contextUri, rt)
              == Played(p.result, p.session, Repeat(PlayRequest(s.accessToken, s.deviceId, contextUri), rt.attempts) + p.sent)
  {
  }

  /** `playUri` after a first round of play requests with outcome `rt`. */
  function PlayAfter(server: Server, n: nat, s: Session, cfg: RetryConfig, contextUri: string, rt: Retried): Outcome
  {
    var b := PlayBefore(server, n, s, cfg, contextUri, rt);
    Finish(server, n + |b.sent|, cfg, b)
  }

  /** `playUri`: play, recover once, and turn shuffle on after a success. */
  function PlayUriSpec(server: Server, n: nat, s: Session, cfg: RetryConfig, contextUri: string): Outcome
  {
    PlayAfter(server, n, s, cfg, contextUri, Retry(server, n, PlayRequest(s.accessToken, s.deviceId, contextUri), cfg, s.retryCount))
  }

  /** The two shapes of `Finish`. */
  lemma FinishUnfold(server: Server, n: nat, cfg: RetryConfig, p: Played)
    ensures p.result.IsSuccess() ==>
              var sh := SimpleCallSpec(server, n, p.session, cfg, ShuffleRequest(p.session.accessToken, p.session.deviceId));
              Finish(server, n, cfg, p) == Outcome(true, sh.session, p.sent + sh.sent)
    ensures !p.result.IsSuccess() ==> Finish(server, n, cfg, p) == Outcome(false, p.session, p.sent)
  {
  }

  /**
   * `PlayUriSpec` as the method computes it: a first round `rt` that leaves
   * `sent1` sent, the recovery `p` that leaves `sent2`, then a shuffle call
   * after a 2xx that leaves `sent3` and `session`.
   */
  lemma PlayUriSteps(server: Server, n: nat, s: Session, cfg: RetryConfig, contextUri: string, rt: Retried, p: Played,
                     sent0: seq<Request>, sent1: seq<Request>, sent2: seq<Request>,
                     ok: bool, session: Session, sent3: seq<Request>)
    requires |sent0| == n
    requires rt == Retry(server, n, PlayRequest(s.accessToken, s.deviceId, contextUri), cfg, s.retryCount)
    requires sent1 == sent0 + Repeat(PlayRequest(s.accessToken, s.deviceId, contextUri), rt.attempts)
    requires p == RecoverSpec(server, |sent1|, s.(retryCount := rt.retryCount), cfg, contextUri, rt.result)
    requires sent2 == sent1 + p.sent
    requires ok == p.result.IsSuccess()
    requires ok ==> var sh := SimpleCallSpec(server, |sent2|, p.session, cfg, ShuffleRequest(p.session.accessToken, p.session.deviceId));
                    session == sh.session && sent3 == sent2 + sh.sent
    requires !ok ==> session == p.session && sent3 == sent2
    ensures var o := PlayUriSpec(server, n, s, cfg, contextUri);
            ok == o.ok && session == o.session && sent3 == sent0 + o.sent
  {
    var first := Repeat(PlayRequest(s.accessToken, s.deviceId, contextUri), rt.attempts);
    var before := PlayBefore(server, n, s, cfg, contextUri, rt);
    assert |sent1| == n + rt.attempts;
    assert p == RecoverSpec(server, n + rt.attempts, s.(retryCount := rt.retryCount), cfg, contextUri, rt.result);
    assert before == Played(p.result, p.session, first + p.sent);
    assert PlayUriSpec(server, n, s, cfg, contextUri) == Finish(server, n + |before.sent|, cfg, before);
    AppendAssoc(sent0, first, p.sent);
    FinishSteps(server, n + |before.sent|, cfg, before, sent0, sent2, ok, session, sent3);
  }

  /** `Finish` as the method computes it, after `sent2 == sent0 + p.sent` was sent. */
  lemma FinishSteps(server: Server, m: nat, cfg: RetryConfig, p: Played, sent0: seq<Request>, sent2: seq<Request>,
                    ok: bool, session: Session, sent3: seq<Request>)
    requires sent2 == sent0 + p.sent && m == |sent2|
    requires ok == p.result.IsSuccess()
    requires ok ==> var sh := SimpleCallSpec(server, |sent2|, p.session, cfg, ShuffleRequest(p.session.accessToken, p.session.deviceId));
                    session == sh.session && sent3 == sent2 + sh.sent
    requires !ok ==> session == p.session && sent3 == sent2
    ensures var o := Finish(server, m, cfg, p);
            ok == o.ok && session == o.session && sent3 == sent0 + o.sent
  {
    if ok {
      var sh := SimpleCallSpec(server, |sent2|, p.session, cfg, ShuffleRequest(p.session.accessToken, p.session.deviceId));
      AppendAssoc(sent0, p.sent, sh.sent);
    }
  }

  /** The HTTP result `playUri` bases its answer on. */
  function PlayUriResult(server: Server, n: nat, s: Session, cfg: RetryConfig, contextUri: string): HttpResult
  {
    var rt := Retry(server, n, PlayRequest(s.accessToken, s.deviceId, contextUri), cfg, s.retryCount);
    RecoverSpec(server, n + rt.attempts, s.(retryCount := rt.retryCount), cfg, contextUri, rt.result).result
  }

  /** `getAvailableDevices`: a retried device-list request and the parsed list, or nothing. */
  function AvailableDevices(rt: Retried, maxDevices: int): (ds: seq<DeviceRecord>)
    ensures |ds| <= if maxDevices <= 0 then 0 else maxDevices
    ensures forall i :: 0 <= i < |ds| ==> ds[i].id != ""
    ensures !rt.result.IsSuccess() ==> ds == []
  {
    if rt.result.IsSuccess() then ParsedDevices(rt.result.payload, maxDevices) else []
  }

  /**
   * `setDeviceById`: an empty id is refused without a request; otherwise the
   * device list is fetched and the id is selected, with the name listed for it,
   * only when the list holds it.
   */
  function SetDeviceByIdSpec(server: Server, n: nat, s: Session, cfg: RetryConfig, id: string): Outcome
  {
    if id == "" then Outcome(false, s, [])
    else
      var rt := Retry(server, n, DevicesRequest(s.accessToken), cfg, s.retryCount);
      var list := AvailableDevices(rt, MAX_DEVICES);
      var k := FirstWithId(list, id);
      var s1 := s.(retryCount := rt.retryCount);
      Outcome(k >= 0, if k >= 0 then s1.(deviceId := id, deviceName := list[k].name) else s1,
              Repeat(DevicesRequest(s.accessToken), rt.attempts))
  }

  /**
   * `setDeviceByName`: fetch the device list and select the first device with
   * exactly this name, taking its id.
   */
  function SetDeviceByNameSpec(server: Server, n: nat, s: Session, cfg: RetryConfig, name: string): Outcome
  {
    var rt := Retry(server, n, DevicesRequest(s.accessToken), cfg, s.retryCount);
    var list := AvailableDevices(rt, MAX_DEVICES);
    var k := FirstNamed(list, name);
    var s1 := s.(retryCount := rt.retryCount);
    Outcome(k >= 0, if k >= 0 then s1.(deviceId := list[k].id, deviceName := list[k].name) else s1,
            Repeat(DevicesRequest(s.accessToken), rt.attempts))
  }

  /**
   * Selecting by id succeeds exactly when a 2xx device list holds a device with
   * that (non-empty) id; it then stores that id and the name listed with it, and
   * otherwise leaves the device untouched.  Only device-list requests are sent.
   */
  lemma SetDeviceByIdFacts(server: Server, n: nat, s: Session, cfg: RetryConfig, id: string)
    ensures var o := SetDeviceByIdSpec(server, n, s, cfg, id);
            var rt := Retry(server, n, DevicesRequest(s.accessToken), cfg, s.retryCount);
            var list := AvailableDevices(rt, MAX_DEVICES);
            (o.ok <==> id != "" && exists j :: 0 <= j < |list| && list[j].id == id) &&
            (o.ok ==> rt.result.IsSuccess() && o.session.deviceId == id &&
                      exists j :: 0 <= j < |list| && list[j].id == id && list[j].name == o.session.deviceName) &&
            (!o.ok ==> o.session.deviceId == s.deviceId && o.session.deviceName == s.deviceName) &&
            (id == "" ==> o.sent == [] && o.session == s) &&
            o.sent == Repeat(DevicesRequest(s.accessToken), |o.sent|)
  {
    if id != "" {
      var rt := Retry(server, n, DevicesRequest(s.accessToken), cfg, s.retryCount);
      var list := AvailableDevices(rt, MAX_DEVICES);
      FirstWithIdFinds(list, id);
    } else {
      assert Repeat(DevicesRequest(s.accessToken), 0) == [];
    }
  }

  /**
   * Selecting by name succeeds exactly when a 2xx device list names such a
   * device; the id it then stores is that of the first such device and is
   * never empty; otherwise the device is left untouched.
   */
  lemma SetDeviceByNameFacts(server: Server, n: nat, s: Session, cfg: RetryConfig, name: string)
    ensures var o := SetDeviceByNameSpec(server, n, s, cfg, name);
            var rt := Retry(server, n, DevicesRequest(s.accessToken), cfg, s.retryCount);
            var list := AvailableDevices(rt, MAX_DEVICES);
            (o.ok <==> exists j :: 0 <= j < |list| && list[j].name == name) &&
            (o.ok ==> rt.result.IsSuccess() && o.session.deviceName == name && o.session.deviceId != "" &&
                      exists j :: 0 <= j < |list| && list[j].name == name && list[j].id == o.session.deviceId &&
                                   forall i :: 0 <= i < j ==> list[i].name != name) &&
            (!o.ok ==> o.session.deviceId == s.deviceId && o.session.deviceName == s.deviceName) &&
            o.sent == Repeat(DevicesRequest(s.accessToken), |o.sent|)
  {
    var rt := Retry(server, n, DevicesRequest(s.accessToken), cfg, s.retryCount);
    var list := AvailableDevices(rt, MAX_DEVICES);
    FirstNamedFinds(list, name);
  }

  // ---------------------------------------------------------------------------
  // Properties of playUri
  // ---------------------------------------------------------------------------

  /** Discovery sends device-list requests only. */
  lemma DiscoverTally(server: Server, n: nat, s: Session, cfg: RetryConfig)
    ensures var d := DiscoverSpec(server, n, s, cfg);
            TallyOf(d.sent) == Tally(0, |d.sent|, 0, 0, 0)
  {
    TallyRepeat(DevicesRequest(s.accessToken), Retry(server, n, DevicesRequest(s.accessToken), cfg, s.retryCount).attempts);
  }

  /** A token refresh sends one token request. */
  lemma FetchTokenTally(server: Server, n: nat, s: Session)
    ensures TallyOf(FetchTokenSpec(server, n, s).sent) == Tally(1, 0, 0, 0, 0)
  {
    TallySingle(TokenRequest(s.clientId, s.clientSecret, s.refreshToken));
  }

  /** A replay adds one round of play requests and nothing else to what came before. */
  lemma ReplayTally(server: Server, n: nat, s: Session, cfg: RetryConfig,
                    contextUri: string, prefix: seq<Request>)
    ensures var p := Replay(server, n, s, cfg, contextUri, prefix);
            var k := |p.sent| - |prefix|;
            1 <= k <= cfg.maxRetries + 1 && p.sent[..|prefix|] == prefix &&
            TallyOf(p.sent) == Plus(TallyOf(prefix), Tally(0, 0, k, 0, 0))
  {
    var req := PlayRequest(s.accessToken, s.deviceId, contextUri);
    var rt := Retry(server, n + |prefix|, req, cfg, s.retryCount);
    TallyAppendPlays(prefix, req, rt.attempts);
  }

  lemma TallyAppendPlays(prefix: seq<Request>, req: Request, k: nat)
    requires req.endpoint.PlayEndpoint?
    ensures (prefix + Repeat(req, k))[..|prefix|] == prefix
    ensures TallyOf(prefix + Repeat(req, k)) == Plus(TallyOf(prefix), Tally(0, 0, k, 0, 0))
  {
    TallyAppend(prefix, Repeat(req, k));
    TallyRepeat(req, k);
    assert (prefix + Repeat(req, k))[..|prefix|] == prefix;
  }

  /**
   * The recovery step sends no shuffle request, at most one round of play
   * requests, device-list requests only after a 404 and a token request only
   * after a 401 (so never both), and nothing at all after any other result.
   */
  lemma RecoverTally(server: Server, n: nat, s: Session, cfg: RetryConfig,
                     contextUri: string, first: HttpResult)
    ensures var t := TallyOf(RecoverSpec(server, n, s, cfg, contextUri, first).sent);
            t.shuffle == 0 && t.next == 0 && t.play <= cfg.maxRetries + 1 &&
            t.token <= 1 && (t.token == 0 || t.devices == 0)
  {
    RecoverTallyCases(server, n, s, cfg, contextUri, first);
  }

  lemma RecoverTallyCases(server: Server, n: nat, s: Session, cfg: RetryConfig,
                     contextUri: string, first: HttpResult)
    ensures var t := TallyOf(RecoverSpec(server, n, s, cfg, contextUri, first).sent);
            t.shuffle == 0 && t.next == 0 && t.play <= cfg.maxRetries + 1
    ensures var p := RecoverSpec(server, n, s, cfg, contextUri, first);
            var t := TallyOf(p.sent);
            (first.IsNotFound() ==> t.token == 0) &&
            (first.IsUnauthorized() ==> t.devices == 0 && t.token == 1) &&
            (!first.IsNotFound() && !first.IsUnauthorized() ==> p == Played(first, s, []))
  {
    if first.IsNotFound() {
      var d := DiscoverSpec(server, n, s, cfg);
      DiscoverTally(server, n, s, cfg);
      if d.ok {
        ReplayTally(server, n, d.session, cfg, contextUri, d.sent);
      }
    } else if first.IsUnauthorized() {
      var f := FetchTokenSpec(server, n, s);
      FetchTokenTally(server, n, s);
      if f.ok {
        ReplayTally(server, n, f.session, cfg, contextUri, f.sent);
      }
    } else {
      assert TallyOf([]) == Tally(0, 0, 0, 0, 0);
    }
  }

  /** Finishing adds a round of shuffle requests after a success and nothing otherwise. */
  lemma FinishTally(server: Server, n: nat, cfg: RetryConfig, p: Played)
    ensures var o := Finish(server, n, cfg, p);
            var k := |o.sent| - |p.sent|;
            (o.ok <==> p.result.IsSuccess()) && o.sent[..|p.sent|] == p.sent &&
            (o.ok ==> 1 <= k && TallyOf(o.sent) == Plus(TallyOf(p.sent), Tally(0, 0, 0, k, 0))) &&
            (!o.ok ==> o.sent == p.sent)
  {
    if p.result.IsSuccess() {
      var sreq := ShuffleRequest(p.session.accessToken, p.session.deviceId);
      var sh := SimpleCallSpec(server, n, p.session, cfg, sreq);
      ShuffleCallTally(server, n, p.session, cfg, p.session.accessToken, p.session.deviceId);
      TallyAppend(p.sent, sh.sent);
      assert (p.sent + sh.sent)[..|p.sent|] == p.sent;
    }
  }

  /**
   * What the first round and the recovery step of `playUri` send together: at
   * most one token request, never both a token request and a device-list
   * request, one or two rounds of play requests, and no shuffle or skip request.
   */
  predicate PlayRecoverCounts(t: Tally, maxRetries: nat)
  {
    t.token <= 1 && (t.token == 0 || t.devices == 0) &&
    1 <= t.play <= 2 * (maxRetries + 1) && t.next == 0 && t.shuffle == 0
  }

  /** What all of `playUri` sends: as above, plus shuffle requests exactly when it succeeds. */
  predicate PlayUriCounts(t: Tally, ok: bool, maxRetries: nat)
  {
    t.token <= 1 && (t.token == 0 || t.devices == 0) &&
    1 <= t.play <= 2 * (maxRetries + 1) && t.next == 0 && (ok <==> t.shuffle > 0)
  }

  /** The first round of `rt.attempts` play requests followed by the recovery step. */
  lemma PlayAndRecoverTally(server: Server, n: nat, s: Session, cfg: RetryConfig, contextUri: string, rt: Retried)
    requires 1 <= rt.attempts <= cfg.maxRetries + 1
    ensures PlayRecoverCounts(TallyOf(PlayBefore(server, n, s, cfg, contextUri, rt).sent), cfg.maxRetries)
  {
    var req := PlayRequest(s.accessToken, s.deviceId, contextUri);
    var p := RecoverSpec(server, n + rt.attempts, s.(retryCount := rt.retryCount), cfg, contextUri, rt.result);
    var b := PlayBefore(server, n, s, cfg, contextUri, rt);
    PlayBeforeParts(server, n, s, cfg, contextUri, rt);
    TallyRepeat(req, rt.attempts);
    RecoverTally(server, n + rt.attempts, s.(retryCount := rt.retryCount), cfg, contextUri, rt.result);
    TallyAppend(Repeat(req, rt.attempts), p.sent);
    assert TallyOf(b.sent) == Plus(Tally(0, 0, rt.attempts, 0, 0), TallyOf(p.sent));
    PlaysThenRecovery(rt.attempts, TallyOf(p.sent), cfg.maxRetries);
  }

  lemma PlaysThenRecovery(k: nat, t: Tally, maxRetries: nat)
    requires 1 <= k <= maxRetries + 1
    requires t.shuffle == 0 && t.next == 0 && t.play <= maxRetries + 1
    requires t.token <= 1 && (t.token == 0 || t.devices == 0)
    ensures PlayRecoverCounts(Plus(Tally(0, 0, k, 0, 0), t), maxRetries)
  {
  }

  /**
   * `playUri` sends at most one token request, never both a token request and a
   * device-list request, one or two rounds of play requests, no skip request,
   * and shuffle requests exactly when it reports success.
   */
  lemma PlayUriRequests(server: Server, n: nat, s: Session, cfg: RetryConfig, contextUri: string)
    ensures var o := PlayUriSpec(server, n, s, cfg, contextUri);
            PlayUriCounts(TallyOf(o.sent), o.ok, cfg.maxRetries)
  {
    PlayAfterTally(server, n, s, cfg, contextUri, Retry(server, n, PlayRequest(s.accessToken, s.deviceId, contextUri), cfg, s.retryCount));
  }

  /** `PlayUriRequests` for any first round of between one and `maxRetries + 1` calls. */
  lemma PlayAfterTally(server: Server, n: nat, s: Session, cfg: RetryConfig, contextUri: string, rt: Retried)
    requires 1 <= rt.attempts <= cfg.maxRetries + 1
    ensures var o := PlayAfter(server, n, s, cfg, contextUri, rt);
            PlayUriCounts(TallyOf(o.sent), o.ok, cfg.maxRetries)
  {
    var before := PlayBefore(server, n, s, cfg, contextUri, rt);
    PlayAndRecoverTally(server, n, s, cfg, contextUri, rt);
    FinishCounts(server, n + |before.sent|, cfg, before);
  }

  /** Finishing keeps the bounds of the part before and adds shuffle requests exactly on success. */
  lemma FinishCounts(server: Server, n: nat, cfg: RetryConfig, p: Played)
    requires PlayRecoverCounts(TallyOf(p.sent), cfg.maxRetries)
    ensures var o := Finish(server, n, cfg, p);
            PlayUriCounts(TallyOf(o.sent), o.ok, cfg.maxRetries)
  {
    var o := Finish(server, n, cfg, p);
    FinishTally(server, n, cfg, p);
    var k := |o.sent| - |p.sent|;
    assert o.ok ==> TallyOf(o.sent) == Plus(TallyOf(p.sent), Tally(0, 0, 0, k, 0));
  }

  /** `playUri` reports success exactly when the play result it ends with is a 2xx. */
  lemma PlayUriAnswer(server: Server, n: nat, s: Session, cfg: RetryConfig, contextUri: string)
    ensures PlayUriSpec(server, n, s, cfg, contextUri).ok
            <==> PlayUriResult(server, n, s, cfg, contextUri).IsSuccess()
  {
    var rt := Retry(server, n, PlayRequest(s.accessToken, s.deviceId, contextUri), cfg, s.retryCount);
    var b := PlayBefore(server, n, s, cfg, contextUri, rt);
    FinishUnfold(server, n + |b.sent|, cfg, b);
  }

  /**
   * The first request of `playUri` plays on the current device; the credentials
   * and the device name never change; the device id changes only after a 404
   * and the access token only after a 401.
   */
  lemma PlayUriSession(server: Server, n: nat, s: Session, cfg: RetryConfig, contextUri: string)
    ensures var o := PlayUriSpec(server, n, s, cfg, contextUri);
            var first := Retry(server, n, PlayRequest(s.accessToken, s.deviceId, contextUri), cfg, s.retryCount).result;
            |o.sent| >= 1 && o.sent[0] == PlayRequest(s.accessToken, s.deviceId, contextUri) &&
            o.session.clientId == s.clientId && o.session.clientSecret == s.clientSecret &&
            o.session.refreshToken == s.refreshToken && o.session.deviceName == s.deviceName &&
            (first.IsNotFound() || o.session.deviceId == s.deviceId) &&
            (first.IsUnauthorized() || o.session.accessToken == s.accessToken)
  {
    var req := PlayRequest(s.accessToken, s.deviceId, contextUri);
    var rt := Retry(server, n, req, cfg, s.retryCount);
    var s1 := s.(retryCount := rt.retryCount);
    var p := RecoverSpec(server, n + rt.attempts, s1, cfg, contextUri, rt.result);
    var b := PlayBefore(server, n, s, cfg, contextUri, rt);
    PlayBeforeParts(server, n, s, cfg, contextUri, rt);
    assert b.sent[0] == req by {
      RepeatFirst(req, rt.attempts);
    }
    FinishUnfold(server, n + |b.sent|, cfg, b);
    if rt.result.IsNotFound() {
      DiscoverFacts(server, n + rt.attempts, s1, cfg);
    } else if rt.result.IsUnauthorized() {
      FetchTokenFacts(server, n + rt.attempts, s1);
    }
  }

  lemma {:induction false} RepeatFirst(req: Request, k: nat)
    requires k >= 1
    ensures Repeat(req, k)[0] == req
  {
    if k > 1 {
      RepeatFirst(req, k - 1);
    }
  }

  /**
   * A token that expired: the first play answers 401, the refresh succeeds and
   * the second play, made with the new token, answers 204.  `playUri` then
   * reports success after exactly play, token, play, shuffle, and the last two
   * carry the new token.
   */
  lemma ExpiredTokenScenario(server: Server, n: nat, s: Session, cfg: RetryConfig, contextUri: string, token: string)
    requires server(n, PlayRequest(s.accessToken, s.deviceId, contextUri)).httpCode == 401
    requires server(n + 1, TokenRequest(s.clientId, s.clientSecret, s.refreshToken)) == HttpResult(200, Json([], token))
    requires token != ""
    requires server(n + 2, PlayRequest(token, s.deviceId, contextUri)).httpCode == 204
    requires server(n + 3, ShuffleRequest(token, s.deviceId)).httpCode == 200
    ensures var o := PlayUriSpec(server, n, s, cfg, contextUri);
            o.ok && o.session.accessToken == token &&
            o.sent == [PlayRequest(s.accessToken, s.deviceId, contextUri),
                       TokenRequest(s.clientId, s.clientSecret, s.refreshToken),
                       PlayRequest(token, s.deviceId, contextUri), ShuffleRequest(token, s.deviceId)]
  {
    var req := PlayRequest(s.accessToken, s.deviceId, contextUri);
    var again := PlayRequest(token, s.deviceId, contextUri);
    RetryStopsAtFinal(server, n, req, cfg, s.retryCount);
    RetryStopsAtFinal(server, n + 2, again, cfg, 0);
    RetryStopsAtFinal(server, n + 3, ShuffleRequest(token, s.deviceId), cfg, 0);
    assert Repeat(req, 1) == [req];
    assert Repeat(again, 1) == [again];
    assert Repeat(ShuffleRequest(token, s.deviceId), 1) == [ShuffleRequest(token, s.deviceId)];
  }

  /**
   * The recovery step after a 401: the token request goes out with the client
   * credentials, and when the refresh works every play request that follows
   * carries the new access token, on the same device.
   */
  lemma RecoverUsesFreshToken(server: Server, n: nat, s: Session, cfg: RetryConfig, contextUri: string,
                              first: HttpResult)
    requires first.IsUnauthorized()
    ensures var p := RecoverSpec(server, n, s, cfg, contextUri, first);
            var f := FetchTokenSpec(server, n, s);
            |p.sent| >= 1 && p.sent[0] == TokenRequest(s.clientId, s.clientSecret, s.refreshToken) &&
            p.sent[0].auth == Basic(s.clientId + ":" + s.clientSecret) &&
            (!f.ok ==> |p.sent| == 1) &&
            (f.ok ==> |p.sent| >= 2 &&
                      forall i :: 1 <= i < |p.sent| ==>
                        p.sent[i] == PlayRequest(f.session.accessToken, s.deviceId, contextUri) &&
                        p.sent[i].auth == Bearer(p.session.accessToken))
  {
    var f := FetchTokenSpec(server, n, s);
    FetchTokenFacts(server, n, s);
    if f.ok {
      var req := PlayRequest(f.session.accessToken, f.session.deviceId, contextUri);
      var rt := Retry(server, n + |f.sent|, req, cfg, f.session.retryCount);
      RepeatAll(req, rt.attempts);
    }
  }

  lemma {:induction false} RepeatAll(req: Request, k: nat)
    ensures forall i :: 0 <= i < k ==> Repeat(req, k)[i] == req
  {
    if k > 0 {
      RepeatAll(req, k - 1);
    }
  }

  // ---------------------------------------------------------------------------
  // The transport and the random source
  // ---------------------------------------------------------------------------

  /** The HTTP connection: requests go out in order and the server answers each. */
  class Transport {
    const server: Server
    /** Every request sent so far, oldest first. */
    var sent: seq<Request>

    constructor (server: Server)
      ensures this.server == server && sent == []
    {
      this.server := server;
      sent := [];
    }

    /** Send one request and return the server's answer to it. */
    method Exchange(req: Request) returns (r: HttpResult)
      modifies this
      ensures sent == old(sent) + [req]
      ensures r == server(|old(sent)|, req)
    {
      r := server(|sent|, req);
      sent := sent + [req];
    }
  }

  /** `random()`: the values of a fixed source, handed out in order. */
  class Rng {
    const source: nat -> nat
    var pos: nat

    constructor (source: nat -> nat)
      ensures this.source == source && pos == 0
    {
      this.source := source;
      pos := 0;
    }

    /** `random(howbig)`: 0 when `howbig` is 0, else the next value modulo `howbig`. */
    method Random(howbig: nat) returns (r: nat)
      modifies this
      ensures r == RandomValue(source, old(pos), howbig)
      ensures pos == RandomNext(old(pos), howbig)
    {
      r := RandomValue(source, pos, howbig);
      pos := RandomNext(pos, howbig);
    }
  }

  // ---------------------------------------------------------------------------
  // The client
  // ---------------------------------------------------------------------------

  class Client {
    var clientId: string
    var clientSecret: string
    var refreshToken: string
    var accessToken: string
    var deviceName: string
    var deviceId: string
    var retryConfig: RetryConfig
    var currentRetryCount: byte
    const http: Transport
    const rng: Rng

    /** The fields as one value. */
    function Fields(): Session
      reads this
    {
      Session(clientId, clientSecret, refreshToken, accessToken, deviceName, deviceId, currentRetryCount)
    }

    /** An unconfigured client with the default retry configuration. */
    constructor (http: Transport, rng: Rng)
      ensures this.http == http && this.rng == rng
      ensures Fields() == Session("", "", "", "", "", "", 0)
      ensures retryConfig == DefaultRetryConfig()
    {
      this.http := http;
      this.rng := rng;
      clientId, clientSecret, refreshToken := "", "", "";
      accessToken, deviceName, deviceId := "", "", "";
      retryConfig := DefaultRetryConfig();
      currentRetryCount := 0;
    }

    /** `setCredentials`: replace the four credentials and forget the token and the device id. */
    method SetCredentials(clientId: string, clientSecret: string, deviceName: string, refreshToken: string)
      modifies this`clientId, this`clientSecret, this`deviceName, this`refreshToken,
               this`accessToken, this`deviceId
      ensures Fields() == Session(clientId, clientSecret, refreshToken, "", deviceName, "", old(currentRetryCount))
      ensures HasCredentials() <==> clientId != "" && clientSecret != "" && refreshToken != "" && deviceName != ""
      ensures !IsAuthenticated() && !IsDeviceAvailable()
    {
      this.clientId := clientId;
      this.clientSecret := clientSecret;
      this.deviceName := deviceName;
      this.refreshToken := refreshToken;
      accessToken := "";
      deviceId := "";
    }

    method SetRetryConfig(config: RetryConfig)
      modifies this`retryConfig
      ensures retryConfig == config && Fields() == old(Fields())
    {
      retryConfig := config;
    }

    /** All four credentials are set. */
    predicate HasCredentials()
      reads this
    {
      clientId != "" && clientSecret != "" && refreshToken != "" && deviceName != ""
    }

    predicate IsAuthenticated()
      reads this
    {
      accessToken != ""
    }

    predicate IsDeviceAvailable()
      reads this
    {
      deviceId != ""
    }

    /** `calculateBackoffDelay`: the doubling loop, then the random jitter. */
    method CalculateBackoffDelay(retryCount: byte) returns (delay: uint32)
      modifies rng
      ensures DrawnDelay(retryConfig, retryCount, rng.source, old(rng.pos), delay, rng.pos)
    {
      var d: nat := retryConfig.initialDelayMs;
      var i := 0;
      while i < retryCount
        invariant 0 <= i <= retryCount
        invariant BackoffFrom(retryConfig, d, retryCount - i) == BackoffBase(retryConfig, retryCount)
        invariant d == retryConfig.initialDelayMs || d <= retryConfig.maxDelayMs
        invariant unchanged(rng)
      {
        BackoffFromStep(retryConfig, d, retryCount - i);
        d := Scaled(d, retryConfig.backoffMultiplier);
        if d > retryConfig.maxDelayMs {
          d := retryConfig.maxDelayMs;
          break;
        }
        i := i + 1;
      }
      assert d == BackoffBaseBound(retryConfig, retryCount);
      var base: uint32 := d;
      ghost var pos0 := rng.pos;
      var jitter := rng.Random(base / 4);
      var coin := rng.Random(2);
      delay := Jittered(base, jitter, coin == 0);
      assert (delay, rng.pos) == BackoffDelay(retryConfig, retryCount, rng.source, pos0);
    }

    /**
     * `callApiWithRetry`: call until the response is final or `maxRetries`
     * retries were made, waiting the backoff delay before each retry.
     */
    method CallApiWithRetry(req: Request) returns (result: HttpResult)
      modifies this`currentRetryCount, http, rng
      ensures var rt := Retry(http.server, |old(http.sent)|, req, retryConfig, old(currentRetryCount));
              result == rt.result && http.sent == old(http.sent) + Repeat(req, rt.attempts) &&
              currentRetryCount == rt.retryCount
    {
      ghost var n := |http.sent|;
      ghost var goal := Retry(http.server, n, req, retryConfig, currentRetryCount);
      var retryCount: byte := 0;
      result := HttpResult(0, NotJson);
      while retryCount <= retryConfig.maxRetries
        invariant retryCount <= retryConfig.maxRetries
        invariant http.sent == old(http.sent) + Repeat(req, retryCount)
        invariant retryCount > 0 ==> currentRetryCount == retryCount
        invariant goal == Resume(http.server, n, req, retryConfig.maxRetries, retryCount, currentRetryCount)
        decreases retryConfig.maxRetries - retryCount
      {
        result := http.Exchange(req);
        RepeatGrows(old(http.sent), req, retryCount);
        if result.IsFinal() {
          currentRetryCount := 0;
          return;
        }
        if retryCount < retryConfig.maxRetries {
          ResumeStep(http.server, n, req, retryConfig.maxRetries, retryCount, currentRetryCount);
          var delayMs := CalculateBackoffDelay(retryCount);
          retryCount := retryCount + 1;
          currentRetryCount := retryCount;
        } else {
          break;
        }
      }
    }

    /** `fetchAccessToken`: the refresh-token grant of section 6 of RFC 6749. */
    method FetchAccessToken() returns (ok: bool)
      modifies this`accessToken, http
      ensures var o := FetchTokenSpec(http.server, |old(http.sent)|, old(Fields()));
              ok == o.ok && Fields() == o.session && http.sent == old(http.sent) + o.sent
    {
      var r := http.Exchange(TokenRequest(clientId, clientSecret, refreshToken));
      if r.httpCode != 200 {
        return false;
      }
      if r.payload.NotJson? {
        return false;
      }
      accessToken := r.payload.accessToken;
      ok := accessToken != "";
    }

    /** `discoverDevice`: find the configured device name in the device list. */
    method DiscoverDevice() returns (ok: bool)
      modifies this`currentRetryCount, this`deviceId, http, rng
      ensures var o := DiscoverSpec(http.server, |old(http.sent)|, old(Fields()), retryConfig);
              ok == o.ok && Fields() == o.session && http.sent == old(http.sent) + o.sent
    {
      var result := CallApiWithRetry(DevicesRequest(accessToken));
      if !result.IsSuccess() {
        return false;
      }
      deviceId := ExtractDeviceId(result.payload, deviceName);
      ok := deviceId != "";
    }

    /** `begin`: obtain a token, then the device id. */
    method Begin() returns (ok: bool)
      modifies this`currentRetryCount, this`accessToken, this`deviceId, http, rng
      ensures var o := BeginSpec(http.server, |old(http.sent)|, old(Fields()), retryConfig);
              ok == o.ok && Fields() == o.session && http.sent == old(http.sent) + o.sent
    {
      ok := FetchAccessToken();
      if !ok {
        return;
      }
      ok := DiscoverDevice();
    }

    /** `enableShuffle`. */
    method EnableShuffle() returns (ok: bool)
      modifies this`currentRetryCount, http, rng
      ensures var o := SimpleCallSpec(http.server, |old(http.sent)|, old(Fields()), retryConfig,
                                      ShuffleRequest(old(accessToken), old(deviceId)));
              ok == o.ok && Fields() == o.session && http.sent == old(http.sent) + o.sent
    {
      var result := CallApiWithRetry(ShuffleRequest(accessToken, deviceId));
      ok := result.IsSuccess();
    }

    /** `nextTrack`. */
    method NextTrack() returns (ok: bool)
      modifies this`currentRetryCount, http, rng
      ensures var o := SimpleCallSpec(http.server, |old(http.sent)|, old(Fields()), retryConfig,
                                      NextRequest(old(accessToken), old(deviceId)));
              ok == o.ok && Fields() == o.session && http.sent == old(http.sent) + o.sent
    {
      var result := CallApiWithRetry(NextRequest(accessToken, deviceId));
      ok := result.IsSuccess();
    }

    /**
     * The recovery step of `playUri` after the first round of play requests
     * ended with `first`: on 404 rediscover the device and play on the new id,
     * on 401 refresh the token and play again.
     */
    method RecoverPlay(contextUri: string, first: HttpResult) returns (result: HttpResult)
      modifies this`currentRetryCount, this`accessToken, this`deviceId, http, rng
      ensures var p := RecoverSpec(http.server, |old(http.sent)|, old(Fields()), retryConfig, contextUri, first);
              result == p.result && Fields() == p.session && http.sent == old(http.sent) + p.sent
    {
      ghost var sent0, s0 := http.sent, Fields();
      result := first;
      if result.IsNotFound() {
        var found := DiscoverDevice();
        if found {
          ghost var prefix := DiscoverSpec(http.server, |sent0|, s0, retryConfig).sent;
          ghost var req := PlayRequest(accessToken, deviceId, contextUri);
          ghost var rt := Retry(http.server, |http.sent|, req, retryConfig, currentRetryCount);
          result := CallApiWithRetry(PlayRequest(accessToken, deviceId, contextUri));
          AppendAssoc(sent0, prefix, Repeat(req, rt.attempts));
        }
      } else if result.IsUnauthorized() {
        var refreshed := FetchAccessToken();
        if refreshed {
          ghost var prefix := FetchTokenSpec(http.server, |sent0|, s0).sent;
          ghost var req := PlayRequest(accessToken, deviceId, contextUri);
          ghost var rt := Retry(http.server, |http.sent|, req, retryConfig, currentRetryCount);
          result := CallApiWithRetry(PlayRequest(accessToken, deviceId, contextUri));
          AppendAssoc(sent0, prefix, Repeat(req, rt.attempts));
        }
      }
    }

    /** `playUri`: start playback of a context, recovering once from 404 or 401. */
    method PlayUri(contextUri: string) returns (ok: bool)
      modifies this`currentRetryCount, this`accessToken, this`deviceId, http, rng
      ensures var o := PlayUriSpec(http.server, |old(http.sent)|, old(Fields()), retryConfig, contextUri);
              ok == o.ok && Fields() == o.session && http.sent == old(http.sent) + o.sent
    {
      ghost var n, s := |http.sent|, Fields();
      var req := PlayRequest(accessToken, deviceId, contextUri);
      var result := CallApiWithRetry(req);
      ghost var rt := Retry(http.server, n, req, retryConfig, s.retryCount);
      ghost var sent1 := http.sent;
      result := RecoverPlay(contextUri, result);
      ghost var p := RecoverSpec(http.server, |sent1|, s.(retryCount := rt.retryCount), retryConfig, contextUri, rt.result);
      ghost var sent2 := http.sent;
      if result.IsSuccess() {
        var _ := EnableShuffle();
        ok := true;
      } else {
        ok := false;
      }
      PlayUriSteps(http.server, n, s, retryConfig, contextUri, rt, p, old(http.sent), sent1, sent2, ok, Fields(), http.sent);
    }

    /**
     * `parseDevicesJson`: store the devices that have an id into `devices`, at
     * most `maxDevices` of them.  A skipped entry is written to the next free
     * slot before its id is checked, so that slot may hold it afterwards.
     */
    method ParseDevicesJson(payload: Payload, devices: array<DeviceRecord>, maxDevices: int) returns (count: int)
      requires maxDevices <= devices.Length
      modifies devices
      ensures count == |ParsedDevices(payload, maxDevices)|
      ensures devices[..count] == ParsedDevices(payload, maxDevices)
      ensures count < devices.Length ==> devices[count] == old(devices[count]) || devices[count].id == ""
      ensures forall j :: count < j < devices.Length ==> devices[j] == old(devices[j])
    {
      count := 0;
      if payload.NotJson? {
        return;
      }
      var list := payload.devices;
      var i := 0;
      while i < |list|
        invariant 0 <= i <= |list|
        invariant 0 <= count <= devices.Length
        invariant count == |WithIds(list[..i])| && (count <= maxDevices || i == 0)
        invariant devices[..count] == WithIds(list[..i])
        invariant count < devices.Length ==> devices[count] == old(devices[count]) || devices[count].id == ""
        invariant forall j :: count < j < devices.Length ==> devices[j] == old(devices[j])
      {
        if count >= maxDevices {
          break;
        }
        devices[count] := list[i];
        WithIdsStep(list, i);
        if list[i].id != "" {
          count := count + 1;
        }
        i := i + 1;
      }
      ParsedDevicesStop(payload, i, count, maxDevices);
    }

    /** `getAvailableDevices`: fetch the device list and store it with `parseDevicesJson`. */
    method GetAvailableDevices(devices: array<DeviceRecord>, maxDevices: int) returns (count: int)
      requires maxDevices <= devices.Length
      modifies this`currentRetryCount, http, rng, devices
      ensures var rt := Retry(http.server, |old(http.sent)|, DevicesRequest(accessToken), retryConfig, old(currentRetryCount));
              http.sent == old(http.sent) + Repeat(DevicesRequest(accessToken), rt.attempts) &&
              Fields() == old(Fields()).(retryCount := rt.retryCount) &&
              count == |AvailableDevices(rt, maxDevices)| &&
              devices[..count] == AvailableDevices(rt, maxDevices)
    {
      var result := CallApiWithRetry(DevicesRequest(accessToken));
      if !result.IsSuccess() {
        return 0;
      }
      count := ParseDevicesJson(result.payload, devices, maxDevices);
    }

    /** `setDeviceById`: select a listed device by its id. */
    method SetDeviceById(id: string) returns (ok: bool)
      modifies this`currentRetryCount, this`deviceId, this`deviceName, http, rng
      ensures var o := SetDeviceByIdSpec(http.server, |old(http.sent)|, old(Fields()), retryConfig, id);
              ok == o.ok && Fields() == o.session && http.sent == old(http.sent) + o.sent
    {
      if id == "" {
        return false;
      }
      ghost var rt := Retry(http.server, |http.sent|, DevicesRequest(accessToken), retryConfig, currentRetryCount);
      var devices := new DeviceRecord[MAX_DEVICES](_ => BLANK_DEVICE);
      var count := GetAvailableDevices(devices, MAX_DEVICES);
      ghost var list := devices[..count];
      assert list == AvailableDevices(rt, MAX_DEVICES);
      var i := 0;
      label Scan:
      while i < count
        invariant 0 <= i <= count
        invariant forall j :: 0 <= j < i ==> list[j].id != id
        invariant unchanged@Scan(this, http, devices)
      {
        if devices[i].id == id {
          FirstWithIdIs(list, id, i);
          deviceId := id;
          deviceName := devices[i].name;
          return true;
        }
        i := i + 1;
      }
      FirstWithIdIs(list, id, i);
      ok := false;
    }

    /** `setDeviceByName`: select the first listed device with exactly this name. */
    method SetDeviceByName(name: string) returns (ok: bool)
      modifies this`currentRetryCount, this`deviceId, this`deviceName, http, rng
      ensures var o := SetDeviceByNameSpec(http.server, |old(http.sent)|, old(Fields()), retryConfig, name);
              ok == o.ok && Fields() == o.session && http.sent == old(http.sent) + o.sent
    {
      ghost var rt := Retry(http.server, |http.sent|, DevicesRequest(accessToken), retryConfig, currentRetryCount);
      var devices := new DeviceRecord[MAX_DEVICES](_ => BLANK_DEVICE);
      var count := GetAvailableDevices(devices, MAX_DEVICES);
      ghost var list := devices[..count];
      assert list == AvailableDevices(rt, MAX_DEVICES);
      var i := 0;
      label Scan:
      while i < count
        invariant 0 <= i <= count
        invariant forall j :: 0 <= j < i ==> list[j].name != name
        invariant unchanged@Scan(this, http, devices)
      {
        if devices[i].name == name {
          FirstNamedIs(list, name, i);
          deviceId := devices[i].id;
          deviceName := devices[i].name;
          return true;
        }
        i := i + 1;
      }
      FirstNamedIs(list, name, i);
      ok := false;
    }
  }
}
