/**
 * The first, stand-alone Spotify client of the firmware (the top-level
 * `SpotifyClient.cpp`): two hand-written readers that walk a JSON text with a
 * cursor, the body of the play request, the dispatch of `CallAPI` on its
 * method name, and the retry-once policy of `PlaySpotifyUri`.
 *
 * The network is a server oracle: the response to the n-th request sent.  The
 * Base64 encoding of the token request's credentials is not modelled; the
 * request records the unencoded `clientId:clientSecret`.
 */
module LegacyClient {
  import opened Arduino

  // ---------------------------------------------------------------------------
  // ParseJson
  // ---------------------------------------------------------------------------

  /** The longest prefix of `s` without `"` or `,`. */
  function Until(s: string): (u: string)
    ensures |u| <= |s| && u == s[..|u|]
    ensures Lacks(u, '"') && Lacks(u, ',')
    ensures |u| == |s| || s[|u|] == '"' || s[|u|] == ','
  {
    if s == [] || s[0] == '"' || s[0] == ',' then "" else [s[0]] + Until(s[1..])
  }

  /**
   * The cursor walk of `ParseJson` from position `i`: before the first `:`
   * nothing is copied; the colon switches copying on and skips one `"` right
   * after it; copying stops at `"`, `,` or the end of the text.
   */
  function ScanValue(json: string, i: nat, copy: bool): string
    decreases |json| - i
  {
    if i >= |json| then ""
    else if copy then
      if json[i] == '"' || json[i] == ',' then "" else [json[i]] + ScanValue(json, i + 1, true)
    else if json[i] == ':' then
      ScanValue(json, if CharAt(json, i + 1) == '"' then i + 2 else i + 1, true)
    else ScanValue(json, i + 1, false)
  }

  /** `ParseJson`: "" unless `key` occurs at a position after the first. */
  function ParseJsonSpec(key: string, json: string): string
  {
    var index := IndexOf(json, key, 0);
    if index > 0 then ScanValue(json, index, false) else ""
  }

  /** Where copying starts after a colon at `c`: one further on, two when a quote follows. */
  function ValueStart(json: string, c: nat): (st: nat)
    requires c < |json|
    ensures st <= |json|
  {
    if CharAt(json, c + 1) == '"' then c + 2 else c + 1
  }

  lemma {:induction false} ScanCopying(json: string, i: nat)
    requires i <= |json|
    ensures ScanValue(json, i, true) == Until(json[i..])
    decreases |json| - i
  {
    if i < |json| && json[i] != '"' && json[i] != ',' {
      ScanCopying(json, i + 1);
      assert json[i..][1..] == json[i + 1..];
    }
  }

  lemma {:induction false} ScanSeeking(json: string, i: nat)
    requires i <= |json|
    ensures var c := FindFrom(json, ":", i);
      ScanValue(json, i, false) == if c < 0 then "" else Until(json[ValueStart(json, c)..])
    decreases |json| - i
  {
    if i < |json| {
      assert json[i..i + 1] == [json[i]];
      if json[i] == ':' {
        assert OccursAt(json, ":", i);
        ScanCopying(json, ValueStart(json, i));
      } else {
        assert !OccursAt(json, ":", i);
        ScanSeeking(json, i + 1);
      }
    }
  }

  /**
   * What `ParseJson` returns: "" when the key is missing or first found at
   * position 0, or when no `:` follows it; otherwise the longest run without
   * `"` or `,` after the first colon that follows the key (past one quote).
   * The value therefore never holds `"` or `,`, and a closing `}` is kept.
   */
  lemma ParseJsonMeaning(key: string, json: string)
    ensures var index := IndexOf(json, key, 0);
      var r := ParseJsonSpec(key, json);
      && (index <= 0 ==> r == "")
      && (index > 0 ==>
            var c := FindFrom(json, ":", index);
            r == if c < 0 then "" else Until(json[ValueStart(json, c)..]))
      && Lacks(r, '"') && Lacks(r, ',')
  {
    var index := IndexOf(json, key, 0);
    if index > 0 {
      ScanSeeking(json, index);
    }
  }

  /** A number followed by the closing brace keeps the brace. */
  lemma ParseJsonKeepsBrace()
    ensures ParseJsonSpec("a", "{\"a\":5}") == "5}"
  {
    var json := "{\"a\":5}";
    assert json[0] == '{' && json[1] == '"' && json[2] == 'a';
    assert !OccursAt(json, "a", 0) && !OccursAt(json, "a", 1) && OccursAt(json, "a", 2);
    assert IndexOf(json, "a", 0) == 2;
    assert ScanValue(json, 5, true) == "5}";
  }

  // ---------------------------------------------------------------------------
  // GetDeviceId
  // ---------------------------------------------------------------------------

  /** The walk back from `i` to the nearest `{` at or before it, stopping at 0. */
  function BackToBrace(json: string, i: nat): (r: nat)
    ensures r <= i
    ensures r == 0 || CharAt(json, r) == '{'
    ensures forall k :: r < k <= i ==> CharAt(json, k) != '{'
  {
    if i == 0 || CharAt(json, i) == '{' then i else BackToBrace(json, i - 1)
  }

  /** True when `"id"` starts at `i` and a character follows it. */
  predicate IdMarkerAt(json: string, i: nat)
  {
    i + 3 < |json| && json[i] == '"' && json[i + 1] == 'i' && json[i + 2] == 'd' && json[i + 3] == '"'
  }

  /**
   * The walk forward from `i`: it stops on a `}`, or just past the first
   * `"id"` met, or at the end.
   */
  function ToId(json: string, i: nat): (r: nat)
    requires i <= |json|
    ensures i <= r <= |json|
    ensures forall k :: i <= k < r ==> json[k] != '}'
    ensures forall k :: i <= k && k + 4 <= r && IdMarkerAt(json, k) ==> k + 4 == r
    ensures r == |json| || json[r] == '}' || (i + 4 <= r && IdMarkerAt(json, r - 4))
    decreases |json| - i
  {
    if i >= |json| then i
    else if json[i] == '}' then i
    else if IdMarkerAt(json, i) then i + 4
    else ToId(json, i + 1)
  }

  /** The walk forward from `i` to just past the next `"`, or to the end. */
  function PastQuote(json: string, i: nat): (r: nat)
    requires i <= |json|
    ensures i <= r <= |json|
    ensures (r > i && json[r - 1] == '"') || (r == |json| && forall k :: i <= k < r ==> json[k] != '"')
    ensures forall k :: i <= k < r - 1 ==> json[k] != '"'
    decreases |json| - i
  {
    if i >= |json| then i
    else if json[i] == '"' then i + 1
    else PastQuote(json, i + 1)
  }

  /** The characters from `i` up to the next `"` or the end. */
  function CopyId(json: string, i: nat): string
    requires i <= |json|
    decreases |json| - i
  {
    if i >= |json| || json[i] == '"' then "" else [json[i]] + CopyId(json, i + 1)
  }

  /** What `CopyId` copies: the quote-free run of the text that starts at `i`. */
  lemma {:induction false} CopyIdRun(json: string, i: nat)
    requires i <= |json|
    ensures QuoteFreeRunAt(json, i, CopyId(json, i))
    decreases |json| - i
  {
    if i < |json| && json[i] != '"' {
      CopyIdRun(json, i + 1);
      var rest := CopyId(json, i + 1);
      assert json[i..i + 1 + |rest|] == [json[i]] + json[i + 1..i + 1 + |rest|];
    }
  }

  /**
   * `GetDeviceId`: "" unless the device name occurs (as any substring) at a
   * position after the first; otherwise back to the `{` before it, forward to
   * `"id"`, past the next quote, and the characters up to the following quote.
   */
  function GetDeviceIdSpec(deviceName: string, json: string): string
  {
    var index := IndexOf(json, deviceName, 0);
    if index > 0 then
      var start := BackToBrace(json, index);
      assert start <= index < |json|;
      CopyId(json, PastQuote(json, ToId(json, start)))
    else ""
  }

  /**
   * The device id is "" when the name is missing or found at position 0;
   * otherwise it is a quote-free stretch of the text that runs up to a quote
   * or the end.
   */
  lemma GetDeviceIdMeaning(deviceName: string, json: string)
    ensures var index := IndexOf(json, deviceName, 0);
      var id := GetDeviceIdSpec(deviceName, json);
      && (index <= 0 ==> id == "")
      && Lacks(id, '"')
      && (index > 0 ==>
            exists p :: QuoteFreeRunAt(json, p, id))
  {
    var index := IndexOf(json, deviceName, 0);
    if index > 0 {
      var p := PastQuote(json, ToId(json, BackToBrace(json, index)));
      CopyIdRun(json, p);
    }
  }

  /** True when `id` is found at `p` in `json`, without quotes, and ends at a quote or the end. */
  predicate QuoteFreeRunAt(json: string, p: nat, id: string)
  {
    && p + |id| <= |json| && id == json[p..p + |id|] && Lacks(id, '"')
    && (p + |id| == |json| || json[p + |id|] == '"')
  }

  /** The first loop of `GetDeviceId`: back from `index` to a `{` or to 0. */
  method WalkBackToBrace(json: string, index: nat) returns (i: nat)
    requires index < |json|
    ensures i == BackToBrace(json, index) && i < |json|
  {
    i := index;
    while i > 0
      invariant i <= index
      invariant BackToBrace(json, i) == BackToBrace(json, index)
    {
      if CharAt(json, i) == '{' {
        break;
      }
      i := i - 1;
    }
  }

  /** The second loop of `GetDeviceId`: forward to a `}`, or past `"id"`. */
  method WalkToId(json: string, start: nat) returns (i: nat)
    requires start <= |json|
    ensures i == ToId(json, start)
  {
    i := start;
    while i < |json|
      invariant start <= i <= |json|
      invariant ToId(json, i) == ToId(json, start)
      decreases |json| - i
    {
      if json[i] == '}' {
        break;
      }
      if i + 3 < |json| && json[i] == '"' && json[i + 1] == 'i' && json[i + 2] == 'd' && json[i + 3] == '"' {
        i := i + 4;
        break;
      }
      i := i + 1;
    }
  }

  /** The third loop of `GetDeviceId`: forward past the next `"`. */
  method WalkPastQuote(json: string, start: nat) returns (i: nat)
    requires start <= |json|
    ensures i == PastQuote(json, start)
  {
    i := start;
    while i < |json|
      invariant start <= i <= |json|
      invariant PastQuote(json, i) == PastQuote(json, start)
      decreases |json| - i
    {
      if json[i] == '"' {
        i := i + 1;
        break;
      }
      i := i + 1;
    }
  }

  /** The last loop of `GetDeviceId`: the characters up to the next `"`. */
  method CopyUntilQuote(json: string, from: nat) returns (id: string)
    requires from <= |json|
    ensures id == CopyId(json, from)
  {
    id := "";
    var i := from;
    while i < |json|
      invariant from <= i <= |json|
      invariant id + CopyId(json, i) == CopyId(json, from)
      decreases |json| - i
    {
      if json[i] != '"' {
        id := id + [json[i]];
      } else {
        break;
      }
      i := i + 1;
    }
  }

  // ---------------------------------------------------------------------------
  // Requests
  // ---------------------------------------------------------------------------

  datatype Verb = Get | Post | Put

  /** The resources the client talks to; the device id is the `device_id` query parameter. */
  datatype Target =
    | TokenTarget
    | DevicesTarget
    | PlayTarget(deviceId: string)
    | NextTarget(deviceId: string)
    | ShuffleTarget(deviceId: string)

  /** The URL of each target. */
  function Url(t: Target): string
  {
    match t
    case TokenTarget => "https://accounts.spotify.com/api/token"
    case DevicesTarget => "https://api.spotify.com/v1/me/player/devices"
    case PlayTarget(id) => "https://api.spotify.com/v1/me/player/play?device_id=" + id
    case NextTarget(id) => "https://api.spotify.com/v1/me/player/next?device_id=" + id
    case ShuffleTarget(id) => "https://api.spotify.com/v1/me/player/shuffle?state=true&device_id=" + id
  }

  /** The `Authorization` header: a bearer token, or the client credentials of the token request. */
  datatype Authorization = Bearer(token: string) | Basic(credentials: string)

  /** A request as it goes on the wire. */
  datatype Call = Call(verb: Verb, target: Target, body: string, auth: Authorization)

  /** What the server sends back: the status code, the announced body size and the body. */
  datatype Response = Response(code: int, size: int, body: string)

  /** The server: the response to the n-th request sent. */
  type Server = (nat, Call) -> Response

  /** `HttpResult`. */
  datatype HttpResult = HttpResult(httpCode: int, payload: string)

  /** The body of the play request: the context to play, from its first track. */
  function PlayBody(contextUri: string): string
  {
    "{\"context_uri\":\"" + contextUri + "\",\"offset\":{\"position\":0,\"position_ms\":0}}"
  }

  /** The refresh-token grant of section 6 of RFC 6749, the token unescaped. */
  function GrantBody(refreshToken: string): string
  {
    "grant_type=refresh_token&refresh_token=" + refreshToken
  }

  /** The verb `CallAPI` sends for a method name, if any. */
  function VerbOf(requestMethod: string): (v: Option<Verb>)
    ensures v.Some? <==> requestMethod in {"PUT", "POST", "GET"}
  {
    if requestMethod == "PUT" then Some(Put)
    else if requestMethod == "POST" then Some(Post)
    else if requestMethod == "GET" then Some(Get)
    else None
  }

  datatype Option<T> = None | Some(value: T)

  /** What a call returns and which requests it sent. */
  datatype Exchanged = Exchanged(result: HttpResult, calls: seq<Call>)

  /**
   * `CallAPI`: an unknown method name sends nothing and returns code 0 with an
   * empty payload; otherwise one request goes out (a GET without its body) and
   * the payload is kept only for a positive code and a positive size.
   */
  function CallApiSpec(server: Server, n: nat, requestMethod: string, t: Target, body: string,
                       accessToken: string): (e: Exchanged)
    ensures VerbOf(requestMethod).None? ==> e.result == HttpResult(0, "") && e.calls == []
    ensures VerbOf(requestMethod).Some? ==>
              && |e.calls| == 1 && e.calls[0].target == t && e.calls[0].auth == Bearer(accessToken)
              && e.result.httpCode == server(n, e.calls[0]).code
  {
    match VerbOf(requestMethod)
    case None => Exchanged(HttpResult(0, ""), [])
    case Some(v) =>
      var call := Call(v, t, if v == Get then "" else body, Bearer(accessToken));
      var resp := server(n, call);
      Exchanged(HttpResult(resp.code, if resp.code > 0 && resp.size > 0 then resp.body else ""), [call])
  }

  // ---------------------------------------------------------------------------
  // The client's operations as functions
  // ---------------------------------------------------------------------------

  /** The client's fixed settings. */
  datatype Settings = Settings(clientId: string, clientSecret: string, refreshToken: string,
                               deviceName: string)

  /** The fields the operations update. */
  datatype Session = Session(accessToken: string, deviceId: string)

  /** An operation's result: the status code it reports, the new fields and the requests sent. */
  datatype Outcome = Outcome(code: int, s: Session, calls: seq<Call>)

  function TokenCall(cfg: Settings): Call
  {
    Call(Post, TokenTarget, GrantBody(cfg.refreshToken), Basic(cfg.clientId + ":" + cfg.clientSecret))
  }

  /** `FetchToken`: the grant is always sent; a 200 answer replaces the access token. */
  function FetchTokenSpec(server: Server, n: nat, cfg: Settings, s: Session): (o: Outcome)
    ensures o.calls == [TokenCall(cfg)] && o.s.deviceId == s.deviceId
  {
    var resp := server(n, TokenCall(cfg));
    Outcome(resp.code,
            s.(accessToken := if resp.code == 200 then ParseJsonSpec("access_token", resp.body) else s.accessToken),
            [TokenCall(cfg)])
  }

  /** `GetDevices`: the device id becomes whatever `GetDeviceId` reads from the answer. */
  function GetDevicesSpec(server: Server, n: nat, cfg: Settings, s: Session): (o: Outcome)
    ensures |o.calls| == 1 && o.calls[0].target == DevicesTarget && o.s.accessToken == s.accessToken
  {
    var e := CallApiSpec(server, n, "GET", DevicesTarget, "", s.accessToken);
    Outcome(e.result.httpCode, s.(deviceId := GetDeviceIdSpec(cfg.deviceName, e.result.payload)), e.calls)
  }

  /** `Play`: one PUT to the current device with the play body. */
  function PlaySpec(server: Server, n: nat, s: Session, contextUri: string): (o: Outcome)
    ensures o.s == s && |o.calls| == 1
    ensures o.calls[0] == Call(Put, PlayTarget(s.deviceId), PlayBody(contextUri), Bearer(s.accessToken))
  {
    var e := CallApiSpec(server, n, "PUT", PlayTarget(s.deviceId), PlayBody(contextUri), s.accessToken);
    Outcome(e.result.httpCode, s, e.calls)
  }

  /** `Shuffle`: one PUT to the current device's shuffle switch. */
  function ShuffleSpec(server: Server, n: nat, s: Session): (o: Outcome)
    ensures o.s == s && o.calls == [Call(Put, ShuffleTarget(s.deviceId), "", Bearer(s.accessToken))]
  {
    var e := CallApiSpec(server, n, "PUT", ShuffleTarget(s.deviceId), "", s.accessToken);
    Outcome(e.result.httpCode, s, e.calls)
  }

  /** `Next`: one POST to skip to the next track on the current device. */
  function NextSpec(server: Server, n: nat, s: Session): (o: Outcome)
    ensures o.s == s && o.calls == [Call(Post, NextTarget(s.deviceId), "", Bearer(s.accessToken))]
  {
    var e := CallApiSpec(server, n, "POST", NextTarget(s.deviceId), "", s.accessToken);
    Outcome(e.result.httpCode, s, e.calls)
  }

  /** Play, then shuffle, from the `n`-th request on. */
  function PlayShuffle(server: Server, n: nat, s: Session, contextUri: string): (o: Outcome)
    ensures o.s == s && |o.calls| == 2 && o.code == PlaySpec(server, n, s, contextUri).code
    ensures o.calls[0].target == PlayTarget(s.deviceId) && o.calls[1].target == ShuffleTarget(s.deviceId)
  {
    var p := PlaySpec(server, n, s, contextUri);
    var sh := ShuffleSpec(server, n + 1, s);
    Outcome(p.code, s, p.calls + sh.calls)
  }

  /**
   * `PlaySpotifyUri`: play and shuffle; on 404 read the devices again and
   * play and shuffle once more; on 401 fetch a token and play and shuffle once
   * more.  The reported code is that of the first play.
   */
  function PlaySpotifyUriSpec(server: Server, n: nat, cfg: Settings, s: Session, contextUri: string): Outcome
  {
    var first := PlayShuffle(server, n, s, contextUri);
    if first.code == 404 || first.code == 401 then
      var fix := if first.code == 404 then GetDevicesSpec(server, n + 2, cfg, s)
                 else FetchTokenSpec(server, n + 2, cfg, s);
      var again := PlayShuffle(server, n + 3, fix.s, contextUri);
      Outcome(first.code, fix.s, first.calls + fix.calls + again.calls)
    else first
  }

  // ---------------------------------------------------------------------------
  // Properties
  // ---------------------------------------------------------------------------

  /** The play body carries its context back to `ParseJson`, when the context holds no `"` or `,`. */
  lemma PlayBodyCarriesUri(contextUri: string)
    requires Lacks(contextUri, '"') && Lacks(contextUri, ',')
    ensures ParseJsonSpec("context_uri", PlayBody(contextUri)) == contextUri
  {
    var body := PlayBody(contextUri);
    var rest := "\",\"offset\":{\"position\":0,\"position_ms\":0}}";
    var head := "{\"context_uri\":\"";
    assert body == head + (contextUri + rest);
    KeyAfterBrace(body, head);
    ColonAfterKey(body, head);
    ScanSeeking(body, 2);
    assert body[16..] == contextUri + rest;
    UntilStops(contextUri, rest);
  }

  lemma KeyAfterBrace(body: string, head: string)
    requires head == "{\"context_uri\":\"" && |body| > |head| && body[..|head|] == head
    ensures IndexOf(body, "context_uri", 0) == 2
  {
    assert body[0] == head[0] && body[1] == head[1];
    assert !OccursAt(body, "context_uri", 0) by { assert body[0..11][0] != "context_uri"[0]; }
    assert !OccursAt(body, "context_uri", 1) by { assert body[1..12][0] != "context_uri"[0]; }
    assert body[2..13] == head[2..13] == "context_uri";
    assert OccursAt(body, "context_uri", 2);
  }

  lemma ColonAfterKey(body: string, head: string)
    requires head == "{\"context_uri\":\"" && |body| > |head| && body[..|head|] == head
    ensures FindFrom(body, ":", 2) == 14 && ValueStart(body, 14) == 16
  {
    forall p | 2 <= p < 14
      ensures !OccursAt(body, ":", p)
    {
      assert body[p] == head[p];
      assert body[p..p + 1] == [body[p]];
    }
    assert body[14] == head[14] && body[15] == head[15];
    assert body[14..15] == ":";
    assert OccursAt(body, ":", 14);
  }

  lemma {:induction false} UntilStops(u: string, rest: string)
    requires Lacks(u, '"') && Lacks(u, ',') && |rest| > 0 && rest[0] == '"'
    ensures Until(u + rest) == u
  {
    if u != [] {
      assert (u + rest)[0] == u[0];
      assert (u + rest)[1..] == u[1..] + rest;
      UntilStops(u[1..], rest);
    }
  }

  /** Which requests `PlaySpotifyUri` sends, in order, by target. */
  function Targets(calls: seq<Call>): seq<Target>
  {
    seq(|calls|, i requires 0 <= i < |calls| => calls[i].target)
  }

  /**
   * `PlaySpotifyUri` always plays then shuffles; a 404 adds a device lookup, a
   * play and a shuffle on the device id it found, a 401 adds a token request,
   * a play and a shuffle; anything else adds nothing.  There are at most two
   * plays.
   */
  lemma PlaySpotifyUriRequests(server: Server, n: nat, cfg: Settings, s: Session, contextUri: string)
    ensures var o := PlaySpotifyUriSpec(server, n, cfg, s, contextUri);
      var code := PlaySpec(server, n, s, contextUri).code;
      var d := o.s.deviceId;
      && o.code == code
      && (code == 404 ==>
            Targets(o.calls) == [PlayTarget(s.deviceId), ShuffleTarget(s.deviceId), DevicesTarget,
                                 PlayTarget(d), ShuffleTarget(d)]
            && o.s.accessToken == s.accessToken)
      && (code == 401 ==>
            Targets(o.calls) == [PlayTarget(s.deviceId), ShuffleTarget(s.deviceId), TokenTarget,
                                 PlayTarget(s.deviceId), ShuffleTarget(s.deviceId)]
            && o.s.deviceId == s.deviceId)
      && (code != 404 && code != 401 ==>
            Targets(o.calls) == [PlayTarget(s.deviceId), ShuffleTarget(s.deviceId)] && o.s == s)
  {
    var first := PlayShuffle(server, n, s, contextUri);
    if first.code == 404 || first.code == 401 {
      var fix := if first.code == 404 then GetDevicesSpec(server, n + 2, cfg, s)
                 else FetchTokenSpec(server, n + 2, cfg, s);
      var again := PlayShuffle(server, n + 3, fix.s, contextUri);
      TargetsOfFive(first.calls, fix.calls, again.calls);
    } else {
      assert Targets(first.calls) == [first.calls[0].target, first.calls[1].target];
    }
  }

  lemma TargetsOfFive(a: seq<Call>, b: seq<Call>, c: seq<Call>)
    requires |a| == 2 && |b| == 1 && |c| == 2
    ensures Targets(a + b + c) == [a[0].target, a[1].target, b[0].target, c[0].target, c[1].target]
  {
  }

  /**
   * After a 401 the second play goes out with the token the refresh fetched
   * when the token endpoint answered 200, and with the old one otherwise.
   */
  lemma RetryUsesFreshToken(server: Server, n: nat, cfg: Settings, s: Session, contextUri: string)
    requires PlaySpec(server, n, s, contextUri).code == 401
    ensures var o := PlaySpotifyUriSpec(server, n, cfg, s, contextUri);
      var resp := server(n + 2, TokenCall(cfg));
      && |o.calls| == 5 && o.calls[2] == TokenCall(cfg)
      && o.calls[3].auth == Bearer(if resp.code == 200 then ParseJsonSpec("access_token", resp.body)
                                   else s.accessToken)
  {
  }

  lemma Regroup<T>(a: seq<T>, b: seq<T>, c: seq<T>)
    ensures a + b + c == a + (b + c)
  {
  }

  /** A method name other than PUT, POST or GET sends nothing and reports code 0. */
  lemma UnknownMethodSendsNothing(server: Server, n: nat, requestMethod: string, t: Target, body: string, token: string)
    requires requestMethod !in {"PUT", "POST", "GET"}
    ensures CallApiSpec(server, n, requestMethod, t, body, token) == Exchanged(HttpResult(0, ""), [])
  {
  }

  // ---------------------------------------------------------------------------
  // The client
  // ---------------------------------------------------------------------------

  /** `SpotifyClient` (the stand-alone version). */
  class SpotifyClient {
    const clientId: string
    const clientSecret: string
    const refreshToken: string
    const deviceName: string
    var accessToken: string
    var deviceId: string
    /** The network. */
    const server: Server
    /** Every request sent so far, oldest first. */
    var sent: seq<Call>

    function Setup(): Settings
      reads this
    {
      Settings(clientId, clientSecret, refreshToken, deviceName)
    }

    function Fields(): Session
      reads this
    {
      Session(accessToken, deviceId)
    }

    constructor (clientId: string, clientSecret: string, deviceName: string, refreshToken: string,
                 server: Server)
      ensures Setup() == Settings(clientId, clientSecret, refreshToken, deviceName)
      ensures Fields() == Session("", "") && this.server == server && sent == []
    {
      this.clientId := clientId;
      this.clientSecret := clientSecret;
      this.refreshToken := refreshToken;
      this.deviceName := deviceName;
      this.server := server;
      accessToken := "";
      deviceId := "";
      sent := [];
    }

    /** `ParseJson`. */
    method ParseJson(key: string, json: string) returns (retVal: string)
      ensures retVal == ParseJsonSpec(key, json)
    {
      retVal := "";
      var index := IndexOf(json, key, 0);
      if index > 0 {
        var copy := false;
        var i := index;
        while i < |json|
          invariant index <= i <= |json|
          invariant retVal + ScanValue(json, i, copy) == ScanValue(json, index, false)
          decreases |json| - i
        {
          if copy {
            if json[i] == '"' || json[i] == ',' {
              break;
            } else {
              retVal := retVal + [json[i]];
            }
          } else if json[i] == ':' {
            copy := true;
            if CharAt(json, i + 1) == '"' {
              i := i + 1;
            }
          }
          i := i + 1;
        }
      }
    }

    /** `GetDeviceId`: the four phases of its walk, one loop each. */
    method GetDeviceId(json: string) returns (id: string)
      ensures id == GetDeviceIdSpec(deviceName, json)
    {
      id := "";
      var index := IndexOf(json, deviceName, 0);
      if index > 0 {
        var i := WalkBackToBrace(json, index);
        i := WalkToId(json, i);
        i := WalkPastQuote(json, i);
        id := CopyUntilQuote(json, i);
      }
    }

    /** `CallAPI`. */
    method CallAPI(requestMethod: string, t: Target, body: string) returns (result: HttpResult)
      modifies this`sent
      ensures var e := CallApiSpec(server, |old(sent)|, requestMethod, t, body, accessToken);
        result == e.result && sent == old(sent) + e.calls
    {
      result := HttpResult(0, "");
      var verb := VerbOf(requestMethod);
      if verb.Some? {
        var call := Call(verb.value, t, if verb.value == Get then "" else body, Bearer(accessToken));
        var resp := server(|sent|, call);
        sent := sent + [call];
        result := result.(httpCode := resp.code);
        if result.httpCode > 0 {
          if resp.size > 0 {
            result := result.(payload := resp.body);
          }
        }
      }
    }

    /** `FetchToken`. */
    method FetchToken()
      modifies this`accessToken, this`sent
      ensures var o := FetchTokenSpec(server, |old(sent)|, Setup(), old(Fields()));
        Fields() == o.s && sent == old(sent) + o.calls
    {
      var call := TokenCall(Setup());
      var resp := server(|sent|, call);
      sent := sent + [call];
      if resp.code > 0 {
        if resp.code == 200 {
          accessToken := ParseJson("access_token", resp.body);
        }
      }
    }

    /** `GetDevices`. */
    method GetDevices()
      modifies this`deviceId, this`sent
      ensures var o := GetDevicesSpec(server, |old(sent)|, Setup(), old(Fields()));
        Fields() == o.s && sent == old(sent) + o.calls
    {
      var result := CallAPI("GET", DevicesTarget, "");
      deviceId := GetDeviceId(result.payload);
    }

    /** `Play`. */
    method Play(contextUri: string) returns (code: int)
      modifies this`sent
      ensures var o := PlaySpec(server, |old(sent)|, Fields(), contextUri);
        code == o.code && sent == old(sent) + o.calls
    {
      var body := "{\"context_uri\":\"" + contextUri + "\",\"offset\":{\"position\":0,\"position_ms\":0}}";
      var result := CallAPI("PUT", PlayTarget(deviceId), body);
      code := result.httpCode;
    }

    /** `Next`. */
    method Next() returns (code: int)
      modifies this`sent
      ensures var o := NextSpec(server, |old(sent)|, Fields());
        code == o.code && sent == old(sent) + o.calls
    {
      var result := CallAPI("POST", NextTarget(deviceId), "");
      code := result.httpCode;
    }

    /** `Shuffle`. */
    method Shuffle() returns (code: int)
      modifies this`sent
      ensures var o := ShuffleSpec(server, |old(sent)|, Fields());
        code == o.code && sent == old(sent) + o.calls
    {
      var result := CallAPI("PUT", ShuffleTarget(deviceId), "");
      code := result.httpCode;
    }

    /** `PlaySpotifyUri`. */
    method PlaySpotifyUri(contextUri: string)
      modifies this`accessToken, this`deviceId, this`sent
      ensures var o := PlaySpotifyUriSpec(server, |old(sent)|, Setup(), old(Fields()), contextUri);
        Fields() == o.s && sent == old(sent) + o.calls
    {
      ghost var n, s, cfg := |sent|, Fields(), Setup();
      var code := Play(contextUri);
      var _ := Shuffle();
      ghost var first := PlayShuffle(server, n, s, contextUri);
      assert code == first.code && sent == old(sent) + first.calls;
      if code == 404 || code == 401 {
        if code == 404 {
          GetDevices();
        } else {
          FetchToken();
        }
        ghost var fix := if code == 404 then GetDevicesSpec(server, n + 2, cfg, s)
                         else FetchTokenSpec(server, n + 2, cfg, s);
        assert Fields() == fix.s && sent == old(sent) + first.calls + fix.calls;
        ghost var mid := sent;
        assert |mid| == n + 3;
        var _ := Play(contextUri);
        ghost var p2, sh2 := PlaySpec(server, n + 3, fix.s, contextUri), ShuffleSpec(server, n + 4, fix.s);
        assert sent == mid + p2.calls;
        var _ := Shuffle();
        assert sent == mid + p2.calls + sh2.calls;
        ghost var again := PlayShuffle(server, n + 3, fix.s, contextUri);
        assert again.calls == p2.calls + sh2.calls;
        Regroup(mid, p2.calls, sh2.calls);
        Regroup(old(sent) + first.calls, fix.calls, again.calls);
        Regroup(old(sent), first.calls, fix.calls + again.calls);
        Regroup(first.calls, fix.calls, again.calls);
        assert sent == old(sent) + (first.calls + fix.calls + again.calls);
        assert PlaySpotifyUriSpec(server, n, cfg, s, contextUri)
            == Outcome(first.code, fix.s, first.calls + fix.calls + again.calls);
      } else {
        assert PlaySpotifyUriSpec(server, n, cfg, s, contextUri) == first;
      }
    }
  }
}
