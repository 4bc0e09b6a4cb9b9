/**
 * The score-submission endpoint of the climber game: a per-client sliding-window
 * rate limiter kept in instance memory, validation of the submitted player name,
 * score and level, HTML escaping of the name, and the mapping of each outcome to
 * an HTTP status code. The clock (`Date.now()`) and the backend call are inputs.
 */
module SubmitScore {
  import opened Wrappers

  // ---------------------------------------------------------------------------
  // Rate limiting
  // ---------------------------------------------------------------------------

  /** Length of the sliding window, in milliseconds. */
  const WindowMs: int := 60 * 1000
  /** Requests allowed inside one window. */
  const MaxRequests: nat := 5

  /** The client address used as the key: `None` stands for `undefined`. */
  type ClientIp = Option<string>

  /** The per-instance request log: for each client, the timestamps it has recorded. */
  type Store = map<ClientIp, seq<int>>

  /** A timestamp still inside the window that ends at `now`. */
  predicate IsRecent(time: int, now: int) {
    time > now - WindowMs
  }

  /** `requests.filter(time => time > now - windowMs)`: the recent timestamps, in their order. */
  function Recent(times: seq<int>, now: int): (r: seq<int>)
    ensures |r| <= |times|
    ensures forall t :: t in r <==> t in times && IsRecent(t, now)
  {
    if times == [] then []
    else (if IsRecent(times[0], now) then [times[0]] else []) + Recent(times[1..], now)
  }

  /** `requestStore.get(ip) || []` */
  function Lookup(store: Store, ip: ClientIp): seq<int> {
    if ip in store then store[ip] else []
  }

  /** The answer of the limiter: at least `MaxRequests` earlier requests fall inside the window. */
  predicate Limited(store: Store, ip: ClientIp, now: int): (r: bool)
    ensures r ==> |Lookup(store, ip)| >= MaxRequests
    ensures ip !in store ==> !r
  {
    |Recent(Lookup(store, ip), now)| >= MaxRequests
  }

  /** The log after a request of `ip` at `now`: old entries of `ip` pruned, `now` appended. */
  function Recorded(store: Store, ip: ClientIp, now: int): (r: Store)
    ensures r.Keys == store.Keys + {ip}
    ensures |r[ip]| > 0 && r[ip][|r[ip]| - 1] == now
    ensures forall t :: t in r[ip] <==> t == now || (t in Lookup(store, ip) && IsRecent(t, now))
    ensures forall k :: k in store && k != ip ==> r[k] == store[k]
  {
    store[ip := Recent(Lookup(store, ip), now) + [now]]
  }

  /** One request seen by the limiter. */
  datatype Call = Call(ip: ClientIp, time: int)

  /** The log after the limiter has seen `calls`, in order. */
  function Replay(store: Store, calls: seq<Call>): Store {
    if calls == [] then store
    else
      var last := calls[|calls| - 1];
      Recorded(Replay(store, calls[..|calls| - 1]), last.ip, last.time)
  }

  /** How many of `calls` come from `ip` and lie inside the window ending at `now`. */
  function CountRecent(calls: seq<Call>, ip: ClientIp, now: int): nat {
    if calls == [] then 0
    else
      var last := calls[|calls| - 1];
      CountRecent(calls[..|calls| - 1], ip, now) + (if last.ip == ip && IsRecent(last.time, now) then 1 else 0)
  }

  /** Filtering distributes over concatenation: the filter keeps the original order. */
  lemma {:induction false} RecentAppend(a: seq<int>, b: seq<int>, now: int)
    ensures Recent(a + b, now) == Recent(a, now) + Recent(b, now)
  {
    if a == [] {
      assert a + b == b;
    } else {
      assert (a + b)[1..] == a[1..] + b;
      RecentAppend(a[1..], b, now);
    }
  }

  /** Pruning at an earlier time never removes a timestamp that is recent at a later time. */
  lemma {:induction false} RecentTwice(times: seq<int>, earlier: int, now: int)
    requires earlier <= now
    ensures Recent(Recent(times, earlier), now) == Recent(times, now)
  {
    if times != [] {
      var head := if IsRecent(times[0], earlier) then [times[0]] else [];
      RecentAppend(head, Recent(times[1..], earlier), now);
      RecentTwice(times[1..], earlier, now);
    }
  }

  /**
   * The sliding-window count: after any sequence of requests made no later than `now`,
   * the entries of `ip` that are recent at `now` are exactly the ones that were recent
   * in the initial log plus the requests of `ip` inside the window. Rejected requests
   * are counted too, because the limiter records them.
   */
  lemma {:induction false} ReplayCount(store: Store, calls: seq<Call>, ip: ClientIp, now: int)
    requires forall i :: 0 <= i < |calls| ==> calls[i].time <= now
    ensures |Recent(Lookup(Replay(store, calls), ip), now)|
         == |Recent(Lookup(store, ip), now)| + CountRecent(calls, ip, now)
  {
    if calls != [] {
      var prefix := calls[..|calls| - 1];
      var last := calls[|calls| - 1];
      ReplayCount(store, prefix, ip, now);
      var before := Lookup(Replay(store, prefix), ip);
      assert Replay(store, calls) == Recorded(Replay(store, prefix), last.ip, last.time);
      assert CountRecent(calls, ip, now)
          == CountRecent(prefix, ip, now) + (if last.ip == ip && IsRecent(last.time, now) then 1 else 0);
      if last.ip == ip {
        var pruned := Recent(before, last.time);
        assert Lookup(Replay(store, calls), ip) == pruned + [last.time];
        RecentAppend(pruned, [last.time], now);
        RecentTwice(before, last.time, now);
      } else {
        assert Lookup(Replay(store, calls), ip) == before;
      }
    }
  }

  /**
   * The rate limit as a property of the request history: a request of `ip` at `now` is
   * refused exactly when at least five recorded requests of `ip` fall in the last minute.
   */
  lemma SlidingWindow(store: Store, calls: seq<Call>, ip: ClientIp, now: int)
    requires forall i :: 0 <= i < |calls| ==> calls[i].time <= now
    ensures Limited(Replay(store, calls), ip, now)
        <==> |Recent(Lookup(store, ip), now)| + CountRecent(calls, ip, now) >= MaxRequests
  {
    ReplayCount(store, calls, ip, now);
  }

  /**
   * From a fresh instance: the first five requests of a client within a minute are let
   * through, and every later one within that minute is refused.
   */
  lemma FreshInstanceLimit(calls: seq<Call>, ip: ClientIp, now: int)
    requires forall i :: 0 <= i < |calls| ==> calls[i].time <= now
    ensures Limited(Replay(map[], calls), ip, now) <==> CountRecent(calls, ip, now) >= MaxRequests
  {
    ReplayCount(map[], calls, ip, now);
  }

  // ---------------------------------------------------------------------------
  // Submitted values
  // ---------------------------------------------------------------------------

  /** A JavaScript number: `NaN`, a finite value, or an infinity. Rounding is not modelled. */
  datatype Num = NaN | Finite(value: real) | Infinite(negative: bool)

  /** A JavaScript value as it can come out of parsing the request body. */
  datatype JsValue = Undefined | Null | Boolean(b: bool) | Number(n: Num) | Str(s: string) | Compound

  /** JavaScript truthiness (`!v` is its negation). */
  predicate Truthy(v: JsValue) {
    match v
    case Undefined => false
    case Null => false
    case Boolean(b) => b
    case Number(n) => n.Infinite? || (n.Finite? && n.value != 0.0)
    case Str(s) => s != []
    case Compound => true
  }

  /** The fields destructured from the body; `score` is already `Number(score)`. */
  datatype Submission = Submission(playerName: JsValue, score: Num, level: JsValue)

  const MaxNameLength: nat := 50
  const MaxScore: real := 9999.0
  const ValidLevels: seq<string> := ["AGround", "Wood", "Brick", "Sand", "Marble", "Obsidian", "Sleep"]

  /** One character of the class `[a-zA-Z0-9-_. ]`. */
  predicate IsNameChar(c: char) {
    ('a' <= c <= 'z') || ('A' <= c <= 'Z') || ('0' <= c <= '9') || c == '-' || c == '_' || c == '.' || c == ' '
  }

  /** The test `/^[a-zA-Z0-9-_. ]+$/`, matched one character at a time. */
  function MatchesNamePattern(s: string): (r: bool)
    ensures r <==> |s| >= 1 && forall c :: c in s ==> IsNameChar(c)
  {
    |s| >= 1 && IsNameChar(s[0]) && (|s| == 1 || MatchesNamePattern(s[1..]))
  }

  /** The player-name guard as written; it rejects exactly what is not a short, plain, non-empty string. */
  predicate InvalidName(v: JsValue): (r: bool)
    ensures !r <==>
      v.Str? && 1 <= |v.s| <= MaxNameLength && forall c :: c in v.s ==> IsNameChar(c)
  {
    !Truthy(v) || !v.Str? || |v.s| > MaxNameLength || !MatchesNamePattern(v.s)
  }

  /** JavaScript `n < k` for a finite `k`: false whenever `n` is `NaN`. */
  predicate JsLess(n: Num, k: real) {
    match n
    case NaN => false
    case Finite(v) => v < k
    case Infinite(negative) => negative
  }

  /** JavaScript `n > k` for a finite `k`: false whenever `n` is `NaN`. */
  predicate JsGreater(n: Num, k: real) {
    match n
    case NaN => false
    case Finite(v) => v > k
    case Infinite(negative) => !negative
  }

  /** The score guard as written; it accepts exactly the finite numbers from 0 to 9999. */
  predicate InvalidScore(n: Num): (r: bool)
    ensures !r <==> n.Finite? && 0.0 <= n.value <= MaxScore
  {
    n.NaN? || JsLess(n, 0.0) || JsGreater(n, MaxScore)
  }

  /** `!validLevels.includes(level)`: `includes` compares strings by value and nothing else matches. */
  predicate InvalidLevel(v: JsValue): (r: bool)
    ensures !r ==> v.Str? && 4 <= |v.s| <= 8
  {
    !(v.Str? && v.s in ValidLevels)
  }

  /** Every accepted level would also pass the player-name guard. */
  lemma ValidLevelsArePlainNames(v: JsValue)
    requires !InvalidLevel(v)
    ensures !InvalidName(v)
  {
    var s := v.s;
    assert forall c :: c in s ==> IsNameChar(c);
  }

  /** All three guards pass. */
  predicate Accepted(sub: Submission) {
    !InvalidName(sub.playerName) && !InvalidScore(sub.score) && !InvalidLevel(sub.level)
  }

  /** The three guards in their order; the first one that fails names the error. */
  function Validate(sub: Submission): (r: Option<string>)
    ensures r.None? <==> Accepted(sub)
    ensures InvalidName(sub.playerName) ==> r == Some("Invalid player name")
    ensures !InvalidName(sub.playerName) && InvalidScore(sub.score) ==> r == Some("Invalid score")
    ensures !InvalidName(sub.playerName) && !InvalidScore(sub.score) && InvalidLevel(sub.level)
            ==> r == Some("Invalid level")
  {
    if InvalidName(sub.playerName) then Some("Invalid player name")
    else if InvalidScore(sub.score) then Some("Invalid score")
    else if InvalidLevel(sub.level) then Some("Invalid level")
    else None
  }

  // ---------------------------------------------------------------------------
  // Escaping the player name
  // ---------------------------------------------------------------------------

  const Amp: string := "&amp;"
  const Lt: string := "&lt;"
  const Gt: string := "&gt;"
  const Quot: string := "&quot;"
  const Apos: string := "&#039;"

  /** `s.replace(/c/g, entity)` for a single character `c`. */
  function ReplaceAll(s: string, c: char, entity: string): (r: string)
    ensures forall d :: d in r ==> (d in s && d != c) || d in entity
    ensures c !in s ==> r == s
  {
    if s == [] then []
    else (if s[0] == c then entity else [s[0]]) + ReplaceAll(s[1..], c, entity)
  }

  /** The five chained replacements, ampersand first. */
  function Sanitize(name: string): (r: string)
    ensures '<' !in r && '>' !in r && '"' !in r && '\'' !in r
  {
    var s1 := ReplaceAll(name, '&', Amp);
    var s2 := ReplaceAll(s1, '<', Lt);
    assert '<' !in s2;
    var s3 := ReplaceAll(s2, '>', Gt);
    assert '<' !in s3 && '>' !in s3;
    var s4 := ReplaceAll(s3, '"', Quot);
    assert '<' !in s4 && '>' !in s4 && '"' !in s4;
    ReplaceAll(s4, '\'', Apos)
  }

  /** The entity for one character, or the character itself. */
  function EscapeChar(c: char): string {
    match c
    case '&' => Amp
    case '<' => Lt
    case '>' => Gt
    case '"' => Quot
    case '\'' => Apos
    case _ => [c]
  }

  /** Character-by-character escaping: the reference the chained replacements are compared with. */
  function Escape(s: string): string {
    if s == [] then [] else EscapeChar(s[0]) + Escape(s[1..])
  }

  /** `t` begins with one of the five entities. */
  predicate StartsEntity(t: string) {
    Amp <= t || Lt <= t || Gt <= t || Quot <= t || Apos <= t
  }

  /** Decoding of the five entities, left to right. */
  function Unescape(t: string): string
    decreases |t|
  {
    if t == [] then []
    else if Amp <= t then "&" + Unescape(t[|Amp|..])
    else if Lt <= t then "<" + Unescape(t[|Lt|..])
    else if Gt <= t then ">" + Unescape(t[|Gt|..])
    else if Quot <= t then "\"" + Unescape(t[|Quot|..])
    else if Apos <= t then "'" + Unescape(t[|Apos|..])
    else [t[0]] + Unescape(t[1..])
  }

  lemma {:induction false} ReplaceAllAppend(a: string, b: string, c: char, entity: string)
    ensures ReplaceAll(a + b, c, entity) == ReplaceAll(a, c, entity) + ReplaceAll(b, c, entity)
  {
    if a == [] {
      assert a + b == b;
    } else {
      assert (a + b)[1..] == a[1..] + b;
      ReplaceAllAppend(a[1..], b, c, entity);
    }
  }

  lemma SanitizeAppend(a: string, b: string)
    ensures Sanitize(a + b) == Sanitize(a) + Sanitize(b)
  {
    var a1, b1 := ReplaceAll(a, '&', Amp), ReplaceAll(b, '&', Amp);
    ReplaceAllAppend(a, b, '&', Amp);
    var a2, b2 := ReplaceAll(a1, '<', Lt), ReplaceAll(b1, '<', Lt);
    ReplaceAllAppend(a1, b1, '<', Lt);
    var a3, b3 := ReplaceAll(a2, '>', Gt), ReplaceAll(b2, '>', Gt);
    ReplaceAllAppend(a2, b2, '>', Gt);
    var a4, b4 := ReplaceAll(a3, '"', Quot), ReplaceAll(b3, '"', Quot);
    ReplaceAllAppend(a3, b3, '"', Quot);
    ReplaceAllAppend(a4, b4, '\'', Apos);
  }

  lemma ReplaceAllOne(d: char, c: char, entity: string)
    ensures ReplaceAll([d], c, entity) == if d == c then entity else [d]
  {
    assert [d][1..] == [];
  }

  lemma SanitizeChar(c: char)
    ensures Sanitize([c]) == EscapeChar(c)
  {
    ReplaceAllOne(c, '&', Amp);
    if c == '&' {
      assert '<' !in Amp && '>' !in Amp && '"' !in Amp && '\'' !in Amp;
    } else {
      ReplaceAllOne(c, '<', Lt);
      if c == '<' {
        assert '>' !in Lt && '"' !in Lt && '\'' !in Lt;
      } else {
        ReplaceAllOne(c, '>', Gt);
        if c == '>' {
          assert '"' !in Gt && '\'' !in Gt;
        } else {
          ReplaceAllOne(c, '"', Quot);
          if c == '"' {
            assert '\'' !in Quot;
          } else {
            ReplaceAllOne(c, '\'', Apos);
          }
        }
      }
    }
  }

  /**
   * Because `&` is replaced first, the chained replacements escape every character
   * exactly once: no entity produced by one step is rewritten by a later one.
   */
  lemma {:induction false} SanitizeIsEscape(s: string)
    ensures Sanitize(s) == Escape(s)
  {
    if s == [] {
    } else {
      assert s == [s[0]] + s[1..];
      SanitizeAppend([s[0]], s[1..]);
      SanitizeChar(s[0]);
      SanitizeIsEscape(s[1..]);
    }
  }

  lemma {:induction false} EscapeEntities(s: string)
    ensures forall i :: 0 <= i < |Escape(s)| && Escape(s)[i] == '&' ==> StartsEntity(Escape(s)[i..])
  {
    if s != [] {
      EscapeEntities(s[1..]);
      var head, tail := EscapeChar(s[0]), Escape(s[1..]);
      var e := Escape(s);
      assert e == head + tail;
      forall i | 0 <= i < |e| && e[i] == '&'
        ensures StartsEntity(e[i..])
      {
        if i < |head| {
          assert i == 0 && head <= e;
          assert e[i..] == e;
        } else {
          assert e[i..] == tail[i - |head|..];
        }
      }
    }
  }

  /** Every ampersand of an escaped name begins one of the five entities. */
  lemma SanitizeEntities(s: string)
    ensures forall i :: 0 <= i < |Sanitize(s)| && Sanitize(s)[i] == '&' ==> StartsEntity(Sanitize(s)[i..])
  {
    SanitizeIsEscape(s);
    EscapeEntities(s);
  }

  lemma {:induction false} UnescapeEscape(s: string)
    ensures Unescape(Escape(s)) == s
  {
    if s != [] {
      var head, tail := EscapeChar(s[0]), Escape(s[1..]);
      var e := Escape(s);
      assert e == head + tail;
      assert e[|head|..] == tail;
      UnescapeEscape(s[1..]);
      assert s == [s[0]] + s[1..];
      if s[0] in "&<>\"'" {
        assert head <= e;
        assert e[..|head|] == head;
        assert s[0] != '&' ==> e[1] != Amp[1] && !(Amp <= e);
        assert s[0] !in "&<" ==> e[1] != Lt[1] && !(Lt <= e);
        assert s[0] !in "&<>" ==> e[1] != Gt[1] && !(Gt <= e);
        assert s[0] == '\'' ==> e[1] != Quot[1] && !(Quot <= e);
      } else {
        assert head == [s[0]] && e[0] == s[0] != '&';
        assert !StartsEntity(e);
      }
    }
  }

  /** Escaping loses nothing: decoding the five entities gives the name back. */
  lemma UnescapeSanitize(s: string)
    ensures Unescape(Sanitize(s)) == s
  {
    SanitizeIsEscape(s);
    UnescapeEscape(s);
  }

  /** A name that passed validation holds none of `&<>"'`, so escaping leaves it as it is. */
  lemma SanitizeKeepsValidName(v: JsValue)
    requires !InvalidName(v)
    ensures Sanitize(v.s) == v.s
  {
    assert !IsNameChar('&') && !IsNameChar('<') && !IsNameChar('>') && !IsNameChar('"') && !IsNameChar('\'');
  }

  /** The level is forwarded without escaping, which is harmless: no accepted level holds markup. */
  lemma LevelNeedsNoEscaping(v: JsValue)
    requires !InvalidLevel(v)
    ensures Sanitize(v.s) == v.s
  {
    ValidLevelsArePlainNames(v);
    SanitizeKeepsValidName(v);
  }

  // ---------------------------------------------------------------------------
  // The handler
  // ---------------------------------------------------------------------------

  /** The request body: `JSON.parse` and the destructuring either threw or gave the fields. */
  datatype Body = Malformed | Fields(submission: Submission)

  datatype Event = Event(httpMethod: string, headers: map<string, string>, body: Body)

  /** What the backend call ended with: a parsed ok response, a non-ok status, or a thrown error. */
  datatype Backend = Ok | NotOk(status: int) | Threw

  /** The record sent to the backend; the score is kept as the number `toString` would print. */
  datatype Payload = Payload(playerName: string, score: real, lastLevel: string)

  /** A call to the backend: the payload and the `X-Client-IP` header. */
  datatype Forward = Forward(payload: Payload, clientIp: ClientIp)

  datatype Response = Response(statusCode: int, body: string, headers: map<string, string>)

  /** The response and the backend request made on the way, if any. */
  datatype Outcome = Outcome(response: Response, forwarded: Option<Forward>)

  /** `headers['client-ip'] || headers['x-forwarded-for']` */
  function ClientIpOf(headers: map<string, string>): (ip: ClientIp)
    ensures "client-ip" in headers && headers["client-ip"] != "" ==> ip == Some(headers["client-ip"])
    ensures ip.None? <==> ("client-ip" !in headers || headers["client-ip"] == "") && "x-forwarded-for" !in headers
    ensures ("client-ip" !in headers || headers["client-ip"] == "") && "x-forwarded-for" in headers
            ==> ip == Some(headers["x-forwarded-for"])
  {
    if "client-ip" in headers && headers["client-ip"] != "" then Some(headers["client-ip"])
    else if "x-forwarded-for" in headers then Some(headers["x-forwarded-for"])
    else None
  }

  function JsonHeaders(): map<string, string> {
    map["Content-Type" := "application/json"]
  }

  function ErrorResponse(status: int, message: string): Response {
    Response(status, "{\"error\":\"" + message + "\"}", JsonHeaders())
  }

  function SuccessResponse(): Response {
    Response(200, "{\"message\":\"Score submitted successfully\"}", JsonHeaders()["Cache-Control" := "no-store"])
  }

  /** A POST request that the rate limiter let through. */
  predicate Admitted(event: Event, limited: bool) {
    event.httpMethod == "POST" && !limited
  }

  /**
   * The handler's decision, given the rate limiter's answer and the backend's result:
   * 405, then 429, then 400 with the first failing guard, then 500 or 200.
   */
  function Respond(event: Event, limited: bool, backend: Backend): (r: Outcome)
    ensures r.response.statusCode == 405 <==> event.httpMethod != "POST"
    ensures r.response.statusCode == 429 <==> event.httpMethod == "POST" && limited
    ensures r.response.statusCode == 400 <==>
      Admitted(event, limited) && event.body.Fields? && !Accepted(event.body.submission)
    ensures r.response.statusCode == 500 <==>
      Admitted(event, limited) &&
      (event.body.Malformed? || (Accepted(event.body.submission) && !backend.Ok?))
    ensures r.response.statusCode == 200 <==>
      Admitted(event, limited) && event.body.Fields? && Accepted(event.body.submission) && backend.Ok?
    ensures r.forwarded.Some? <==> Admitted(event, limited) && event.body.Fields? && Accepted(event.body.submission)
    ensures r.forwarded.Some? ==>
      var sub := event.body.submission;
      r.forwarded.value == Forward(Payload(sub.playerName.s, sub.score.value, sub.level.s), ClientIpOf(event.headers))
    ensures r.response.statusCode == 400 ==>
      r.response.body == "{\"error\":\"" + Validate(event.body.submission).value + "\"}"
  {
    if event.httpMethod != "POST" then Outcome(ErrorResponse(405, "Method not allowed"), None)
    else if limited then Outcome(ErrorResponse(429, "Too many requests"), None)
    else match event.body
      case Malformed => Outcome(ErrorResponse(500, "Internal server error"), None)
      case Fields(sub) =>
        match Validate(sub)
        case Some(message) => Outcome(ErrorResponse(400, message), None)
        case None =>
          SanitizeKeepsValidName(sub.playerName);
          var payload := Payload(Sanitize(sub.playerName.s), sub.score.value, sub.level.s);
          var forward := Some(Forward(payload, ClientIpOf(event.headers)));
          if backend.Ok? then Outcome(SuccessResponse(), forward)
          else Outcome(ErrorResponse(500, "Internal server error"), forward)
  }

  /** One serverless instance: the module-level request log and the handler. */
  class ScoreEndpoint {
    var requestStore: Store

    constructor ()
      ensures requestStore == map[]
    {
      requestStore := map[];
    }

    /** Records the request and tells whether the client had already used up its window. */
    method IsRateLimited(ip: ClientIp, now: int) returns (limited: bool)
      modifies this`requestStore
      ensures requestStore == Recorded(old(requestStore), ip, now)
      ensures limited == Limited(old(requestStore), ip, now)
    {
      var requests := if ip in requestStore then requestStore[ip] else [];
      var recentRequests := Recent(requests, now);
      requestStore := requestStore[ip := recentRequests + [now]];
      limited := |recentRequests| >= MaxRequests;
    }

    /** Handles one event; only a POST reaches the rate limiter. */
    method Handler(event: Event, now: int, backend: Backend) returns (outcome: Outcome)
      modifies this`requestStore
      ensures event.httpMethod != "POST" ==> requestStore == old(requestStore)
      ensures event.httpMethod == "POST" ==>
        requestStore == Recorded(old(requestStore), ClientIpOf(event.headers), now)
      ensures outcome == Respond(event,
        event.httpMethod == "POST" && Limited(old(requestStore), ClientIpOf(event.headers), now), backend)
    {
      if event.httpMethod != "POST" {
        outcome := Respond(event, false, backend);
        return;
      }
      var clientIp := ClientIpOf(event.headers);
      var limited := IsRateLimited(clientIp, now);
      outcome := Respond(event, limited, backend);
    }
  }
}
