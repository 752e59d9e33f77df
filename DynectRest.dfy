/**
 * `Dynect::Client` of the REST library: session login, resource
 * normalisation and the bounded retry loop that follows job redirects.
 * The HTTP layer is an oracle: `replies[k]` is what attempt k + 1 receives,
 * and the trace records every request sent, each marked with whether the
 * 5-second pause came before it. The loop is specified on the requests it
 * makes (verb and resource); `Wire` turns them into the URLs it sends.
 */
module DynectRest {
  import opened Wrappers
  import opened RubyText
  import opened JsonValues
  import opened DynectResponse

  const BaseUrl: string := "https://api2.dynect.net"

  /** The retry budget of `rest_call`. */
  const MaxTries: nat := 12

  datatype Verb = Get | Post | Put | Delete

  /** A resource as callers hand it over: a path string or its segments. */
  datatype Resource = Path(text: string) | Segments(parts: seq<string>)

  datatype HeaderKey = ContentType | Accept | AuthToken

  /** Request headers; `:json` is written `Str("json")`. */
  type Headers = map<HeaderKey, Json>

  const DefaultHeaders: Headers := map[ContentType := Str("json"), Accept := Str("json")]

  /** What one HTTP request yields: a body with `JSON.parse`'s verdict on it, or a library exception. */
  datatype Reply =
    | Delivered(body: string, parsed: Option<map<string, Json>>)
    | TransportFailure(detail: string)

  /** One request `rest_call` makes, before its resource becomes a URL; `paused` says the 5-second sleep came first. */
  datatype Request = Ask(paused: bool, verb: Verb, resource: Resource, payload: Option<Json>, headers: Headers)

  /** One request `rest_call` sends over HTTP. */
  datatype Event = Send(paused: bool, verb: Verb, url: string, payload: Option<Json>, headers: Headers)

  /** `resource.split('/')` for a string, the array itself otherwise. */
  function SegmentsOf(r: Resource): seq<string> {
    match r
    case Path(t) => Split(t, '/')
    case Segments(p) => p
  }

  /** `Array#delete('')`: the non-empty segments, in order. */
  function WithoutEmpty(s: seq<string>): seq<string> {
    if s == [] then []
    else if s[0] == "" then WithoutEmpty(s[1..])
    else [s[0]] + WithoutEmpty(s[1..])
  }

  /** No empty segment survives `delete('')`. */
  lemma {:induction false} WithoutEmptyNonEmpty(s: seq<string>)
    ensures forall i :: 0 <= i < |WithoutEmpty(s)| ==> WithoutEmpty(s)[i] != ""
  {
    if s != [] {
      WithoutEmptyNonEmpty(s[1..]);
    }
  }

  /** `delete('')` removes every empty segment and nothing else. */
  lemma {:induction false} WithoutEmptyContents(s: seq<string>)
    ensures multiset(WithoutEmpty(s)) == multiset(s)[("") := 0]
  {
    if s != [] {
      WithoutEmptyContents(s[1..]);
      assert s == [s[0]] + s[1..];
    }
  }

  /** The segments `resource_to_url` joins: empties dropped, `REST` put in front when missing. */
  function Normalized(segs: seq<string>): seq<string> {
    var kept := WithoutEmpty(segs);
    if |kept| > 0 && kept[0] == "REST" then kept else ["REST"] + kept
  }

  /** The joined segments start at the `REST` root, hold no empty segment, and differ from the kept ones at most by that root. */
  lemma NormalizedShape(segs: seq<string>)
    ensures var r := Normalized(segs);
      && |r| > 0 && r[0] == "REST"
      && (forall i :: 0 <= i < |r| ==> r[i] != "")
      && (WithoutEmpty(segs) == r || WithoutEmpty(segs) == r[1..])
      && (|WithoutEmpty(segs)| > 0 && WithoutEmpty(segs)[0] == "REST" ==> r == WithoutEmpty(segs))
  {
    WithoutEmptyNonEmpty(segs);
  }

  /** The URL `resource_to_url` builds. */
  function UrlFor(base: string, resource: Resource): string {
    base + "/" + Join(Normalized(SegmentsOf(resource)), "/") + "/"
  }

  /** The event that puts a request on the wire: its resource becomes `resource_to_url`'s URL. */
  function OnWire(base: string, q: Request): Event {
    Send(q.paused, q.verb, UrlFor(base, q.resource), q.payload, q.headers)
  }

  /** The events a sequence of requests sends, one each, in order. */
  function Wire(base: string, qs: seq<Request>): (es: seq<Event>)
    ensures |es| == |qs|
  {
    if qs == [] then [] else Wire(base, qs[..|qs| - 1]) + [OnWire(base, qs[|qs| - 1])]
  }

  /** Event `i` on the wire is request `i` with its URL. */
  lemma {:induction false} WireAt(base: string, qs: seq<Request>, i: nat)
    requires i < |qs|
    ensures Wire(base, qs)[i] == OnWire(base, qs[i])
  {
    if i < |qs| - 1 {
      WireAt(base, qs[..|qs| - 1], i);
    }
  }

  /** One more request puts one more event on the wire. */
  lemma WireSnoc(base: string, qs: seq<Request>, q: Request)
    ensures Wire(base, qs + [q]) == Wire(base, qs) + [OnWire(base, q)]
  {
    assert (qs + [q])[..|qs|] == qs;
  }

  lemma {:induction false} WithoutEmptyKeeps(s: seq<string>)
    requires forall i :: 0 <= i < |s| ==> s[i] != ""
    ensures WithoutEmpty(s) == s
  {
    if s != [] {
      WithoutEmptyKeeps(s[1..]);
    }
  }

  /** Normalising twice is normalising once: there is never a second `REST`. */
  lemma NormalizedIdempotent(segs: seq<string>)
    ensures Normalized(Normalized(segs)) == Normalized(segs)
  {
    NormalizedShape(segs);
    WithoutEmptyKeeps(Normalized(segs));
  }

  lemma {:induction false} WithoutEmptyFrom(s: seq<string>)
    ensures forall i :: 0 <= i < |WithoutEmpty(s)| ==> WithoutEmpty(s)[i] in s
  {
    if s != [] {
      WithoutEmptyFrom(s[1..]);
    }
  }

  /**
   * Between the base URL and the closing slash lies exactly the normalised
   * path: feeding that path back in as a resource yields the same URL.
   */
  lemma UrlIsFixpoint(base: string, resource: Resource)
    requires forall i :: 0 <= i < |SegmentsOf(resource)| ==> '/' !in SegmentsOf(resource)[i]
    ensures UrlFor(base, Path(Join(Normalized(SegmentsOf(resource)), "/"))) == UrlFor(base, resource)
  {
    var segs := SegmentsOf(resource);
    var n := Normalized(segs);
    NormalizedShape(segs);
    WithoutEmptyFrom(segs);
    assert forall i :: 0 <= i < |n| ==> '/' !in n[i];
    PiecesOfJoin(n, '/');
    assert "/" == ['/'];
    assert n[|n| - 1] != "";
    assert DropTrailingEmpty(Pieces(Join(n, "/"), '/')) == n;
    assert Split(Join(n, "/"), '/') == n;
    WithoutEmptyKeeps(n);
    assert Normalized(n) == n;
  }

  /** The request body: the arguments for POST and PUT, none otherwise. */
  function Payload(verb: Verb, args: Json): Option<Json> {
    if verb == Post || verb == Put then Some(args) else None
  }

  /** What the block handed to the HTTP library returns or raises for one reply. */
  function Outcome(reply: Reply): Result<Response, DynectError> {
    match reply
    case Delivered(body, parsed) => Classify(body, parsed)
    case TransportFailure(d) => Failure(TransportError(d))
  }

  /** Hands one reply to `Response.new`, or raises the library's exception. */
  method Receive(reply: Reply) returns (out: Result<Response, DynectError>)
    ensures out == Outcome(reply)
  {
    match reply
    case Delivered(body, parsed) =>
      out := NewResponse(body, parsed);
    case TransportFailure(d) =>
      out := Failure(TransportError(d));
  }

  /** The outcome of every reply, in the order the attempts receive them. */
  function Decoded(replies: seq<Reply>): (outs: seq<Result<Response, DynectError>>)
    ensures |outs| == |replies|
  {
    if replies == [] then [] else [Outcome(replies[0])] + Decoded(replies[1..])
  }

  /** Attempt `i + 1` sees the outcome of reply `i`. */
  lemma {:induction false} DecodedAt(replies: seq<Reply>, i: nat)
    requires i < |replies|
    ensures Decoded(replies)[i] == Outcome(replies[i])
  {
    if i > 0 {
      DecodedAt(replies[1..], i - 1);
    }
  }

  /** The outcome asks to poll a job. */
  predicate Redirects(out: Result<Response, DynectError>) {
    out.Failure? && out.error.RedirectError?
  }

  /** The `OperationTimedOut` message; 12 is `MaxTries`. */
  function TimeoutMessage(resource: string): string {
    "Maximum number of tries (12) exceeded on resource: " + resource
  }

  /** How a loop that stopped at attempt `n`, polling `job`, ends: that attempt's outcome, or the timeout when the twelfth was redirected too. */
  function Finish(outs: seq<Result<Response, DynectError>>, n: nat, job: string): Result<Response, DynectError>
    requires 1 <= n <= |outs|
  {
    if n < MaxTries || !Redirects(outs[n - 1]) then outs[n - 1]
    else Failure(OperationTimedOut(TimeoutMessage(job)))
  }

  /** Attempts `attempt` to 12, each a GET of the job path after a pause. */
  function Poll(headers: Headers, job: string, attempt: nat, outs: seq<Result<Response, DynectError>>)
    : (Result<Response, DynectError>, seq<Request>)
    requires 2 <= attempt <= MaxTries <= |outs|
    decreases MaxTries - attempt
  {
    var sent := [Ask(true, Get, Path(job), None, headers)];
    var out := outs[attempt - 1];
    if !Redirects(out) then (out, sent)
    else if attempt < MaxTries then
      var next := Poll(headers, out.error.message, attempt + 1, outs);
      (next.0, sent + next.1)
    else (Failure(OperationTimedOut(TimeoutMessage(job))), sent)
  }

  /** The result and trace of `rest_call(verb, resource, args)`. */
  function RestCallRun(headers: Headers, verb: Verb, resource: Resource, args: Json, outs: seq<Result<Response, DynectError>>)
    : (Result<Response, DynectError>, seq<Request>)
    requires MaxTries <= |outs|
  {
    var sent := [Ask(false, verb, resource, Payload(verb, args), headers)];
    var out := outs[0];
    if !Redirects(out) then (out, sent)
    else
      var next := Poll(headers, out.error.message, 2, outs);
      (next.0, sent + next.1)
  }

  /** The job path a redirect names; empty for any other outcome. */
  function JobPath(out: Result<Response, DynectError>): string {
    if Redirects(out) then out.error.message else ""
  }

  /** The attempt that ends the loop when attempt `from` is reached: the first one not redirected, or the last. */
  function AttemptsUsed(outs: seq<Result<Response, DynectError>>, from: nat): (n: nat)
    requires 1 <= from <= MaxTries <= |outs|
    ensures from <= n <= MaxTries
    decreases MaxTries - from
  {
    if !Redirects(outs[from - 1]) || from == MaxTries then from else AttemptsUsed(outs, from + 1)
  }

  /** `AttemptsUsed` is the first attempt from `from` on that is not redirected, or the twelfth. */
  lemma {:induction false} AttemptsUsedIsFirst(outs: seq<Result<Response, DynectError>>, from: nat)
    requires 1 <= from <= MaxTries <= |outs|
    decreases MaxTries - from
    ensures var n := AttemptsUsed(outs, from);
      && (forall k :: from - 1 <= k < n - 1 ==> Redirects(outs[k]))
      && (n < MaxTries ==> !Redirects(outs[n - 1]))
  {
    if Redirects(outs[from - 1]) && from < MaxTries {
      AttemptsUsedIsFirst(outs, from + 1);
    }
  }

  /** The job the outcome of attempt `k + 1` redirects to; empty past the replies. */
  function TargetAt(outs: seq<Result<Response, DynectError>>, k: int): string {
    if 0 <= k < |outs| then JobPath(outs[k]) else ""
  }

  /** The job polled by attempt `k` of a poll that starts at attempt `a` with `job`. */
  function PolledJob(job: string, a: nat, k: nat, outs: seq<Result<Response, DynectError>>): string {
    if k == a then job else TargetAt(outs, k - 2)
  }

  /** Event `i` of a poll from attempt `a`: the GET, after a pause, of the job attempt `a + i` polls. */
  function PollEvent(headers: Headers, job: string, a: nat, outs: seq<Result<Response, DynectError>>, i: nat): Request {
    Ask(true, Get, Path(PolledJob(job, a, a + i, outs)), None, headers)
  }

  /** A poll that moves on to attempt `a + 1` shifts its events by one. */
  lemma PollEventShift(headers: Headers, job: string, a: nat, outs: seq<Result<Response, DynectError>>, i: nat)
    requires 2 <= a && i >= 1
    ensures PollEvent(headers, TargetAt(outs, a - 1), a + 1, outs, i - 1) == PollEvent(headers, job, a, outs, i)
  {
  }

  /** A poll from attempt `a` ends at attempt `AttemptsUsed`, with that attempt's outcome or the timeout. */
  lemma {:induction false} PollOutcome(headers: Headers, job: string, a: nat, outs: seq<Result<Response, DynectError>>)
    requires 2 <= a <= MaxTries <= |outs|
    decreases MaxTries - a
    ensures var n := AttemptsUsed(outs, a);
      var p := Poll(headers, job, a, outs);
      && |p.1| == n - a + 1
      && p.0 == Finish(outs, n, PolledJob(job, a, n, outs))
  {
    var p := Poll(headers, job, a, outs);
    var sent := [Ask(true, Get, Path(job), None, headers)];
    if Redirects(outs[a - 1]) && a < MaxTries {
      var job' := outs[a - 1].error.message;
      var next := Poll(headers, job', a + 1, outs);
      PollOutcome(headers, job', a + 1, outs);
      assert p == (next.0, sent + next.1);
      var n := AttemptsUsed(outs, a);
      assert n == AttemptsUsed(outs, a + 1);
      assert PolledJob(job', a + 1, n, outs) == PolledJob(job, a, n, outs);
    } else if Redirects(outs[a - 1]) {
      assert p == (Failure(OperationTimedOut(TimeoutMessage(job))), sent);
    } else {
      assert p == (outs[a - 1], sent);
    }
  }

  /** Each attempt of a poll adds the GET of the job the previous attempt was redirected to. */
  lemma {:induction false} PollEvents(headers: Headers, job: string, a: nat, outs: seq<Result<Response, DynectError>>)
    requires 2 <= a <= MaxTries <= |outs|
    decreases MaxTries - a
    ensures var p := Poll(headers, job, a, outs);
      forall i :: 0 <= i < |p.1| ==> p.1[i] == PollEvent(headers, job, a, outs, i)
  {
    var p := Poll(headers, job, a, outs);
    var sent := [Ask(true, Get, Path(job), None, headers)];
    assert PollEvent(headers, job, a, outs, 0) == sent[0];
    if Redirects(outs[a - 1]) && a < MaxTries {
      var next := Poll(headers, TargetAt(outs, a - 1), a + 1, outs);
      PollEvents(headers, TargetAt(outs, a - 1), a + 1, outs);
      assert p.1 == sent + next.1;
      forall i | 1 <= i < |p.1| ensures p.1[i] == PollEvent(headers, job, a, outs, i) {
        assert p.1[i] == next.1[i - 1];
        PollEventShift(headers, job, a, outs, i);
      }
    }
  }

  /** Event `i >= 1` of `rest_call`: the GET, after a pause, of the job attempt `i` was redirected to. */
  function CallEvent(headers: Headers, outs: seq<Result<Response, DynectError>>, i: nat): Request {
    Ask(true, Get, Path(TargetAt(outs, i - 1)), None, headers)
  }

  /** What `rest_call` returns: the outcome of its last attempt, or the timeout when the twelfth was redirected too. */
  function CallResult(outs: seq<Result<Response, DynectError>>): Result<Response, DynectError>
    requires MaxTries <= |outs|
  {
    var n := AttemptsUsed(outs, 1);
    Finish(outs, n, TargetAt(outs, n - 2))
  }

  /**
   * `rest_call` makes `n` attempts, every one before the last redirected,
   * and sends one request plus one pause and one GET per redirect; the
   * result is the last attempt's outcome, or the timeout naming the job the
   * twelfth attempt polled when that one was redirected as well.
   */
  lemma {:induction false} RestCallOutcome(headers: Headers, verb: Verb, resource: Resource, args: Json,
                                           outs: seq<Result<Response, DynectError>>)
    requires MaxTries <= |outs|
    ensures |RestCallRun(headers, verb, resource, args, outs).1| == AttemptsUsed(outs, 1)
    ensures forall k :: 0 <= k < AttemptsUsed(outs, 1) - 1 ==> Redirects(outs[k])
    ensures AttemptsUsed(outs, 1) < MaxTries ==> !Redirects(outs[AttemptsUsed(outs, 1) - 1])
    ensures RestCallRun(headers, verb, resource, args, outs).0 == CallResult(outs)
  {
    AttemptsUsedIsFirst(outs, 1);
    var run := RestCallRun(headers, verb, resource, args, outs);
    var first := Ask(false, verb, resource, Payload(verb, args), headers);
    var n := AttemptsUsed(outs, 1);
    if Redirects(outs[0]) {
      var job := outs[0].error.message;
      var p := Poll(headers, job, 2, outs);
      PollOutcome(headers, job, 2, outs);
      assert run == (p.0, [first] + p.1);
      assert n == AttemptsUsed(outs, 2);
      assert |run.1| == 1 + |p.1| == n;
      assert PolledJob(job, 2, n, outs) == TargetAt(outs, n - 2);
      assert p.0 == CallResult(outs);
      assert run.0 == CallResult(outs);
    } else {
      assert run == (outs[0], [first]);
      assert n == 1;
      assert run.0 == CallResult(outs);
    }
  }

  /** The first event is the caller's request, sent at once; each later one is the GET, after a pause, of the job the attempt before was redirected to. */
  lemma {:induction false} RestCallEvents(headers: Headers, verb: Verb, resource: Resource, args: Json,
                       outs: seq<Result<Response, DynectError>>)
    requires MaxTries <= |outs|
    ensures var run := RestCallRun(headers, verb, resource, args, outs);
      && |run.1| > 0
      && run.1[0] == Ask(false, verb, resource, Payload(verb, args), headers)
      && (forall i :: 1 <= i < |run.1| ==> run.1[i] == CallEvent(headers, outs, i))
  {
    var run := RestCallRun(headers, verb, resource, args, outs);
    var first := Ask(false, verb, resource, Payload(verb, args), headers);
    if Redirects(outs[0]) {
      var job := TargetAt(outs, 0);
      var p := Poll(headers, job, 2, outs);
      PollEvents(headers, job, 2, outs);
      assert run == (p.0, [first] + p.1);
      forall i | 1 <= i < |run.1| ensures run.1[i] == CallEvent(headers, outs, i) {
        assert run.1[i] == p.1[i - 1];
      }
    } else {
      assert run == (outs[0], [first]);
    }
  }

  /** A first reply that is not a redirect is the whole story: one request, its outcome. */
  lemma NoRedirectOneRequest(headers: Headers, verb: Verb, resource: Resource, args: Json,
                             outs: seq<Result<Response, DynectError>>)
    requires MaxTries <= |outs| && !Redirects(outs[0])
    ensures RestCallRun(headers, verb, resource, args, outs)
      == (outs[0], [Ask(false, verb, resource, Payload(verb, args), headers)])
  {
  }

  /** Twelve redirects in a row raise `OperationTimedOut` for the job the twelfth attempt polled, after twelve requests. */
  lemma {:induction false} TwelveRedirectsTimeOut(headers: Headers, verb: Verb, resource: Resource, args: Json,
                               outs: seq<Result<Response, DynectError>>)
    requires MaxTries <= |outs|
    requires forall k :: 0 <= k < MaxTries ==> Redirects(outs[k])
    ensures var run := RestCallRun(headers, verb, resource, args, outs);
      && run.0 == Failure(OperationTimedOut(TimeoutMessage(TargetAt(outs, MaxTries - 2))))
      && |run.1| == MaxTries
  {
    RestCallOutcome(headers, verb, resource, args, outs);
  }

  /** Eleven redirects and then an envelope: the envelope is returned, after twelve requests. */
  lemma {:induction false} ElevenRedirectsThenEnvelope(headers: Headers, verb: Verb, resource: Resource, args: Json,
                                                       outs: seq<Result<Response, DynectError>>)
    requires MaxTries <= |outs|
    requires forall k :: 0 <= k < MaxTries - 1 ==> Redirects(outs[k])
    requires outs[MaxTries - 1].Success?
    ensures var run := RestCallRun(headers, verb, resource, args, outs);
      && run.0 == outs[MaxTries - 1]
      && |run.1| == MaxTries
  {
    RestCallOutcome(headers, verb, resource, args, outs);
  }

  /** What is left of the loop from attempt `t` on, for the request that attempt sends. */
  function Remaining(headers: Headers, t: nat, action: Verb, res: Resource, args: Json, outs: seq<Result<Response, DynectError>>)
    : (Result<Response, DynectError>, seq<Request>)
    requires 1 <= t <= MaxTries <= |outs|
    requires t > 1 ==> res.Path?
  {
    if t == 1 then RestCallRun(headers, action, res, args, outs)
    else Poll(headers, res.text, t, outs)
  }

  /**
   * The state of the retry loop before attempt `t`: that attempt's request is
   * the caller's or a poll, and what it and the attempts after it add comes
   * after the events so far.
   */
  predicate Pending(headers: Headers, t: nat, action: Verb, res: Resource, args: Json,
                    outs: seq<Result<Response, DynectError>>, run: (Result<Response, DynectError>, seq<Request>), sofar: seq<Request>)
  {
    && 1 <= t <= MaxTries <= |outs|
    && (t > 1 ==> action == Get && res.Path? && args == Null)
    && var rest := Remaining(headers, t, action, res, args, outs);
       run.0 == rest.0 && run.1 == sofar + rest.1
  }

  /** The request of attempt `t`, paused after the first try. */
  function Asked(headers: Headers, t: nat, action: Verb, res: Resource, args: Json): Request {
    Ask(t > 1, action, res, Payload(action, args), headers)
  }

  /** An attempt whose outcome is not a redirect ends the loop with that outcome. */
  lemma AttemptEnds(headers: Headers, t: nat, action: Verb, res: Resource, args: Json, outs: seq<Result<Response, DynectError>>)
    requires 1 <= t <= MaxTries <= |outs|
    requires t > 1 ==> action == Get && res.Path? && args == Null
    requires !Redirects(outs[t - 1])
    ensures Remaining(headers, t, action, res, args, outs)
      == (outs[t - 1], [Asked(headers, t, action, res, args)])
  {
    if t > 1 {
      assert res == Path(res.text);
      assert [Asked(headers, t, action, res, args)] == [Ask(true, Get, Path(res.text), None, headers)];
    } else {
      assert [Asked(headers, t, action, res, args)] == [Ask(false, action, res, Payload(action, args), headers)];
    }
  }

  /** A redirect before the last attempt makes the next attempt a GET of the job path. */
  lemma AttemptRedirects(headers: Headers, t: nat, action: Verb, res: Resource, args: Json, outs: seq<Result<Response, DynectError>>)
    requires 1 <= t < MaxTries <= |outs|
    requires t > 1 ==> action == Get && res.Path? && args == Null
    requires Redirects(outs[t - 1])
    ensures var next := Remaining(headers, t + 1, Get, Path(outs[t - 1].error.message), Null, outs);
      Remaining(headers, t, action, res, args, outs)
        == (next.0, [Asked(headers, t, action, res, args)] + next.1)
  {
    if t > 1 {
      assert res == Path(res.text);
      assert [Asked(headers, t, action, res, args)] == [Ask(true, Get, Path(res.text), None, headers)];
    } else {
      assert [Asked(headers, t, action, res, args)] == [Ask(false, action, res, Payload(action, args), headers)];
    }
  }

  /** A redirect on the last attempt times out, naming the job polled last. */
  lemma AttemptTimesOut(headers: Headers, action: Verb, res: Resource, args: Json, outs: seq<Result<Response, DynectError>>)
    requires MaxTries <= |outs|
    requires action == Get && res.Path? && args == Null
    requires Redirects(outs[MaxTries - 1])
    ensures Remaining(headers, MaxTries, action, res, args, outs)
      == (Failure(OperationTimedOut(TimeoutMessage(res.text))), [Asked(headers, MaxTries, action, res, args)])
  {
    assert res == Path(res.text);
    assert [Asked(headers, MaxTries, action, res, args)] == [Ask(true, Get, Path(res.text), None, headers)];
  }

  /** `response['data']['token']`. */
  function TokenOf(response: Response): Result<Json, DynectError> {
    match response.Get("data")
    case Obj(f) => Success(if "token" in f then f["token"] else Null)
    // String#[] with a String argument: the substring itself, or nil
    case Str(s) => Success(if Contains(s, "token") then Str("token") else Null)
    // nil, numbers, booleans and arrays have no String-keyed []
    case _ => Failure(Malformed)
  }

  /** What logging in yields: the session token, or the error that aborted it. */
  function LoginResult(out: Result<Response, DynectError>): Result<Json, DynectError> {
    match out
    case Success(response) => TokenOf(response)
    case Failure(e) => Failure(e)
  }

  class Client {
    const baseUrl: string
    var headers: Headers

    /** The endpoint and the JSON headers every client starts with. */
    constructor ()
      ensures baseUrl == BaseUrl && headers == DefaultHeaders
    {
      baseUrl := BaseUrl;
      headers := DefaultHeaders;
    }

    /** Logs in with `POST Session` and stores the token as the `Auth-Token` header. */
    method LogIn(params: Json, replies: seq<Reply>) returns (token: Result<Json, DynectError>, trace: seq<Event>)
      requires MaxTries <= |replies|
      modifies this
      ensures var run := RestCallRun(old(headers), Post, Path("Session"), params, Decoded(replies));
        trace == Wire(baseUrl, run.1) && token == LoginResult(run.0)
      ensures headers == if token.Success? then old(headers)[AuthToken := token.value] else old(headers)
    {
      var response;
      response, trace := RestCall(Post, Path("Session"), params, replies);
      token := LoginResult(response);
      if token.Success? {
        headers := headers[AuthToken := token.value];
      }
    }

    /** `resource_to_url`: split, drop empty segments, ensure the `REST` root, wrap in the base URL. */
    method ResourceToUrl(resource: Resource) returns (url: string)
      ensures url == UrlFor(baseUrl, resource)
    {
      var segs := SegmentsOf(resource);
      var kept: seq<string> := [];
      var i := 0;
      while i < |segs|
        invariant 0 <= i <= |segs|
        invariant kept + WithoutEmpty(segs[i..]) == WithoutEmpty(segs)
      {
        assert segs[i..] == [segs[i]] + segs[i + 1..];
        if segs[i] != "" {
          kept := kept + [segs[i]];
        }
        i := i + 1;
      }
      assert segs[i..] == [];
      assert kept == WithoutEmpty(segs);
      if |kept| == 0 || kept[0] != "REST" {
        kept := ["REST"] + kept;
      }
      assert kept == Normalized(segs);
      url := baseUrl + "/" + Join(kept, "/") + "/";
    }

    /**
     * One pass of the retry loop: pause after the first try, build the URL,
     * send, decode; then stop, or rewrite the request into a poll of the job.
     */
    method Attempt(tryCounter: nat, action: Verb, res: Resource, args: Json, reply: Reply,
                   ghost outs: seq<Result<Response, DynectError>>,
                   ghost run: (Result<Response, DynectError>, seq<Request>), ghost before: seq<Request>)
      returns (sent: Event, done: bool, result: Result<Response, DynectError>, job: string)
      requires 1 <= tryCounter <= MaxTries <= |outs|
      requires outs[tryCounter - 1] == Outcome(reply)
      requires Pending(headers, tryCounter, action, res, args, outs, run, before)
      ensures sent == OnWire(baseUrl, Asked(headers, tryCounter, action, res, args))
      ensures Wire(baseUrl, before + [Asked(headers, tryCounter, action, res, args)]) == Wire(baseUrl, before) + [sent]
      ensures done ==> result == run.0 && before + [Asked(headers, tryCounter, action, res, args)] == run.1
      ensures !done ==> tryCounter < MaxTries
      ensures !done ==> Pending(headers, tryCounter + 1, Get, Path(job), Null, outs, run, before + [Asked(headers, tryCounter, action, res, args)])
    {
      var url := ResourceToUrl(res);
      sent := Send(tryCounter > 1, action, url, Payload(action, args), headers);
      WireSnoc(baseUrl, before, Asked(headers, tryCounter, action, res, args));
      var out := Receive(reply);
      job := "";
      if out.Success? || !out.error.RedirectError? {
        AttemptEnds(headers, tryCounter, action, res, args, outs);
        done, result := true, out;
      } else if tryCounter < MaxTries {
        AttemptRedirects(headers, tryCounter, action, res, args, outs);
        done, result, job := false, out, out.error.message;
        ghost var next := Remaining(headers, tryCounter + 1, Get, Path(job), Null, outs);
        AppendAssociates(before, [Asked(headers, tryCounter, action, res, args)], next.1);
      } else {
        AttemptTimesOut(headers, action, res, args, outs);
        done, result := true, Failure(OperationTimedOut(TimeoutMessage(res.text)));
      }
    }

    /**
     * `rest_call`: up to twelve attempts; a redirect turns the next attempt
     * into a GET of the job path without body, a redirect on the last one
     * times out, anything else ends the loop.
     */
    method RestCall(verb: Verb, resource: Resource, arguments: Json, replies: seq<Reply>)
      returns (result: Result<Response, DynectError>, trace: seq<Event>)
      requires MaxTries <= |replies|
      ensures var run := RestCallRun(headers, verb, resource, arguments, Decoded(replies));
        result == run.0 && trace == Wire(baseUrl, run.1)
    {
      ghost var outs := Decoded(replies);
      ghost var run := RestCallRun(headers, verb, resource, arguments, outs);
      var action, res, args := verb, resource, arguments;
      var tryCounter := 1;
      var done := false;
      result, trace := Failure(Malformed), [];
      ghost var asked: seq<Request> := [];
      while !done
        invariant 1 <= tryCounter <= MaxTries
        invariant trace == Wire(baseUrl, asked)
        invariant done ==> result == run.0 && asked == run.1
        invariant !done ==> Pending(headers, tryCounter, action, res, args, outs, run, asked)
        decreases MaxTries - tryCounter, if done then 0 else 1
      {
        DecodedAt(replies, tryCounter - 1);
        var sent, stop, out, job := Attempt(tryCounter, action, res, args, replies[tryCounter - 1], outs, run, asked);
        trace, asked := trace + [sent], asked + [Asked(headers, tryCounter, action, res, args)];
        if stop {
          result, done := out, true;
        } else {
          action, res, args := Get, Path(job), Null;
          tryCounter := tryCounter + 1;
        }
      }
    }
  }
}
