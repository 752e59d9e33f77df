/**
 * `Dynect::Response` and the error classes of the REST library: a reply
 * body is decoded, turned into a job redirect or a parse error when it is
 * not JSON, and otherwise scanned for the first message whose `ERR_CD` is
 * one of the provider's twelve error codes.
 */
module DynectResponse {
  import opened Wrappers
  import opened RubyText
  import opened JsonValues

  /** One error class per provider error code. */
  datatype ApiErrorKind =
    | IllegalOperation | InternalError | InvalidData | InvalidRequest
    | InvalidVersion | MissingData | NotFound | OperationFailed
    | PermissionDenied | ServiceUnavailable | TargetExists | UnknownError

  /** The `when` branches of `case msg['ERR_CD']`, in the order they are tried. */
  const CaseTable: seq<(string, ApiErrorKind)> := [
    ("ILLEGAL_OPERATION", IllegalOperation), ("INTERNAL_ERROR", InternalError),
    ("INVALID_DATA", InvalidData), ("INVALID_REQUEST", InvalidRequest),
    ("INVALID_VERSION", InvalidVersion), ("MISSING_DATA", MissingData),
    ("NOT_FOUND", NotFound), ("OPERATION_FAILED", OperationFailed),
    ("PERMISSION_DENIED", PermissionDenied), ("SERVICE_UNAVAILABLE", ServiceUnavailable),
    ("TARGET_EXISTS", TargetExists), ("UNKNOWN_ERROR", UnknownError)]

  /** The kind of the first branch of `table` that matches `code`. */
  function KindAmong(code: string, table: seq<(string, ApiErrorKind)>): Option<ApiErrorKind> {
    if table == [] then None
    else if table[0].0 == code then Some(table[0].1)
    else KindAmong(code, table[1..])
  }

  /** The `case msg['ERR_CD']` statement: the kind a code raises, if any. */
  function KindOfCode(code: string): Option<ApiErrorKind> {
    KindAmong(code, CaseTable)
  }

  lemma {:induction false} KindAmongSound(code: string, table: seq<(string, ApiErrorKind)>)
    ensures KindAmong(code, table).Some? ==> (code, KindAmong(code, table).value) in table
  {
    if table != [] && table[0].0 != code {
      KindAmongSound(code, table[1..]);
    }
  }

  lemma {:induction false} KindAmongFinds(code: string, k: ApiErrorKind, table: seq<(string, ApiErrorKind)>)
    requires (code, k) in table
    requires forall i :: 0 <= i < |table| && table[i].0 == code ==> table[i].1 == k
    ensures KindAmong(code, table) == Some(k)
  {
    if table[0].0 != code {
      assert forall i :: 1 <= i < |table| ==> table[i] == table[1..][i - 1];
      KindAmongFinds(code, k, table[1..]);
    }
  }

  /** Length, first and ninth letter tell the twelve codes apart. */
  function CodeKey(code: string): (int, char, char)
    requires |code| > 8
  {
    (|code|, code[0], code[8])
  }

  /** No two branches share a code. */
  lemma CaseTableDistinct()
    ensures forall i, j :: 0 <= i < j < |CaseTable| ==> CaseTable[i].0 != CaseTable[j].0
  {
    var keys := [(17, 'I', 'O'), (14, 'I', '_'), (12, 'I', 'D'), (15, 'I', 'R'),
                 (15, 'I', 'V'), (12, 'M', 'D'), (9, 'N', 'D'), (16, 'O', 'N'),
                 (17, 'P', 'O'), (19, 'S', 'U'), (13, 'T', 'X'), (13, 'U', 'E')];
    assert CodeKey(CaseTable[0].0) == keys[0];
    assert CodeKey(CaseTable[1].0) == keys[1];
    assert CodeKey(CaseTable[2].0) == keys[2];
    assert CodeKey(CaseTable[3].0) == keys[3];
    assert CodeKey(CaseTable[4].0) == keys[4];
    assert CodeKey(CaseTable[5].0) == keys[5];
    assert CodeKey(CaseTable[6].0) == keys[6];
    assert CodeKey(CaseTable[7].0) == keys[7];
    assert CodeKey(CaseTable[8].0) == keys[8];
    assert CodeKey(CaseTable[9].0) == keys[9];
    assert CodeKey(CaseTable[10].0) == keys[10];
    assert CodeKey(CaseTable[11].0) == keys[11];
  }

  /** A code raises exactly the kind of its branch, and only the table's codes raise. */
  lemma KindOfCodeIsTable(code: string, k: ApiErrorKind)
    ensures KindOfCode(code) == Some(k) <==> (code, k) in CaseTable
  {
    KindAmongSound(code, CaseTable);
    if (code, k) in CaseTable {
      CaseTableDistinct();
      KindAmongFinds(code, k, CaseTable);
    }
  }

  /** Everything the REST client can raise. */
  datatype DynectError =
    /** Not JSON, but naming a job resource: poll it (caught by the retry loop). */
    | RedirectError(message: string)
    /** Twelve tries used up while still redirected. */
    | OperationTimedOut(message: string)
    /** A message carried one of the twelve error codes; `info` is its `INFO`. */
    | ApiError(kind: ApiErrorKind, info: Json)
    /** `JSON::ParserError` re-raised for a body that is neither JSON nor a job path. */
    | ParseError(body: string)
    /** The NoMethodError or TypeError Ruby raises on a decoded value of the wrong shape. */
    | Malformed
    /** An exception of the HTTP library itself (connection refused, timeout, ...). */
    | TransportError(detail: string)

  /** A decoded envelope; `Response#[]` looks keys up in it. */
  datatype Response = Response(hash: map<string, Json>) {

    /** `response[key]`: the decoded value, `nil` when the key is absent. */
    function Get(key: string): (v: Json)
      ensures key in hash ==> v == hash[key]
      ensures key !in hash ==> v == Null
    {
      if key in hash then hash[key] else Null
    }
  }

  predicate IsDigit(c: char) {
    '0' <= c <= '9'
  }

  /** `REST/Job/` followed by a digit starts at index `i` of `body`. */
  predicate JobPathAt(body: string, i: int) {
    OccursAt(body, "REST/Job/", i) && i + 9 < |body| && IsDigit(body[i + 9])
  }

  /** `body =~ /REST\/Job\/[0-9]+/`. */
  predicate HasJobPath(body: string) {
    exists i | 0 <= i < |body| :: JobPathAt(body, i)
  }

  /** What the `msgs` loop does with one message. */
  function MessageError(msg: Json): Option<DynectError> {
    match msg
    case Obj(f) =>
      if "ERR_CD" in f && f["ERR_CD"].Str? && KindOfCode(f["ERR_CD"].s).Some? then
        Some(ApiError(KindOfCode(f["ERR_CD"].s).value, if "INFO" in f then f["INFO"] else Null))
      else None
    // String#[] answers a substring or nil, never one of the codes
    case Str(_) => None
    // nil, numbers, booleans and arrays have no String-keyed []
    case _ => Some(Malformed)
  }

  /** Only a hash whose `ERR_CD` is one of the codes raises an API error, of that code's kind. */
  lemma MessageErrorCoded(msg: Json)
    ensures var e := MessageError(msg);
      e.Some? && e.value.ApiError? ==>
        msg.Obj? && "ERR_CD" in msg.fields && msg.fields["ERR_CD"].Str?
        && (msg.fields["ERR_CD"].s, e.value.kind) in CaseTable
  {
    var e := MessageError(msg);
    if e.Some? && e.value.ApiError? {
      KindOfCodeIsTable(msg.fields["ERR_CD"].s, e.value.kind);
    }
  }

  /** The error raised by the first message that raises one, scanning in order. */
  function FirstError(msgs: seq<Json>): Option<DynectError> {
    if msgs == [] then None
    else if MessageError(msgs[0]).Some? then MessageError(msgs[0])
    else FirstError(msgs[1..])
  }

  /** `FirstError` is `None` exactly when no message raises, and otherwise the error of the first one that does. */
  lemma {:induction false} FirstErrorIsFirst(msgs: seq<Json>)
    ensures FirstError(msgs).None? <==> forall i :: 0 <= i < |msgs| ==> MessageError(msgs[i]).None?
    ensures FirstError(msgs).Some? ==> exists k :: (0 <= k < |msgs| && MessageError(msgs[k]) == FirstError(msgs)
      && forall j :: 0 <= j < k ==> MessageError(msgs[j]).None?)
  {
    if msgs != [] && MessageError(msgs[0]).None? {
      FirstErrorIsFirst(msgs[1..]);
      assert forall i :: 1 <= i < |msgs| ==> msgs[i] == msgs[1..][i - 1];
      if FirstError(msgs).Some? {
        var k :| 0 <= k < |msgs[1..]| && MessageError(msgs[1..][k]) == FirstError(msgs[1..])
          && forall j :: 0 <= j < k ==> MessageError(msgs[1..][j]).None?;
        assert MessageError(msgs[k + 1]) == FirstError(msgs);
      }
    }
  }

  /** `Response.new(body)`, with `parsed` the outcome of `JSON.parse(body)`. */
  function Classify(body: string, parsed: Option<map<string, Json>>): Result<Response, DynectError> {
    match parsed
    case None =>
      if HasJobPath(body) then Failure(RedirectError(body)) else Failure(ParseError(body))
    case Some(h) =>
      if "msgs" !in h then Success(Response(h))
      else
        match h["msgs"]
        case Arr(items) =>
          (match FirstError(items)
           case None => Success(Response(h))
           case Some(e) => Failure(e))
        // Hash#each yields [key, value] arrays, which have no String-keyed []
        case Obj(m) => if |m| == 0 then Success(Response(h)) else Failure(Malformed)
        // Ruby 1.8's String#each yields lines, and `line['ERR_CD']` is a substring or nil, never a code
        case Str(_) => Success(Response(h))
        // nil, numbers and booleans have no #each
        case _ => Failure(Malformed)
  }

  /** `Response#initialize`: decode, then raise on the first error-coded message. */
  method NewResponse(body: string, parsed: Option<map<string, Json>>) returns (r: Result<Response, DynectError>)
    ensures r == Classify(body, parsed)
  {
    if parsed.None? {
      if HasJobPath(body) {
        return Failure(RedirectError(body));
      }
      return Failure(ParseError(body));
    }
    var h := parsed.value;
    if "msgs" in h {
      match h["msgs"]
      case Arr(items) =>
        var i := 0;
        while i < |items|
          invariant 0 <= i <= |items|
          invariant FirstError(items) == FirstError(items[i..])
        {
          var e := MessageError(items[i]);
          if e.Some? {
            return Failure(e.value);
          }
          assert items[i..][1..] == items[i + 1..];
          i := i + 1;
        }
      case Obj(m) =>
        if |m| > 0 {
          return Failure(Malformed);
        }
      case Str(_) =>
      case _ =>
        return Failure(Malformed);
    }
    return Success(Response(h));
  }

  /** A body that is not JSON becomes a redirect exactly when it names a job, and carries the whole body. */
  lemma UnparsedBody(body: string)
    ensures Classify(body, None) == Failure(RedirectError(body)) <==> HasJobPath(body)
    ensures !HasJobPath(body) ==> Classify(body, None) == Failure(ParseError(body))
  {
  }

  /** Sample bodies for the job-path pattern. */
  lemma JobPathSamples()
    ensures HasJobPath("/REST/Job/4021")
    ensures !HasJobPath("REST/Job/")
    ensures !HasJobPath("REST/Job/x7")
  {
    assert JobPathAt("/REST/Job/4021", 1);
    var b := "REST/Job/x7";
    forall i | 0 <= i < |b| ensures !JobPathAt(b, i) {
      if i >= 1 && i <= |b| - 9 {
        assert b[i..i + 9][0] == b[i];
      }
    }
  }

  /** Without a `msgs` key nothing is raised. */
  lemma NoMessagesNoError(body: string, h: map<string, Json>)
    requires "msgs" !in h
    ensures Classify(body, Some(h)) == Success(Response(h))
  {
  }

  /** The first message carrying one of the twelve codes decides the error; earlier unknown or null codes are skipped. */
  lemma {:induction false} FirstCodedMessageRaises(body: string, h: map<string, Json>, items: seq<Json>, k: nat)
    requires "msgs" in h && h["msgs"] == Arr(items)
    requires k < |items| && MessageError(items[k]).Some?
    requires forall j :: 0 <= j < k ==> MessageError(items[j]).None?
    ensures Classify(body, Some(h)) == Failure(MessageError(items[k]).value)
  {
    FirstErrorIsFirst(items);
    var e := FirstError(items);
    var k' :| 0 <= k' < |items| && MessageError(items[k']) == e
      && forall j :: 0 <= j < k' ==> MessageError(items[j]).None?;
    assert k' == k;
  }

  /** Messages whose codes are unknown or null raise nothing. */
  lemma UncodedMessagesPass(body: string, h: map<string, Json>, items: seq<Json>)
    requires "msgs" in h && h["msgs"] == Arr(items)
    requires forall i :: 0 <= i < |items| ==>
      (items[i].Obj? &&
       ("ERR_CD" !in items[i].fields || !items[i].fields["ERR_CD"].Str?
        || KindOfCode(items[i].fields["ERR_CD"].s).None?))
    ensures Classify(body, Some(h)) == Success(Response(h))
  {
    assert forall i :: 0 <= i < |items| ==> MessageError(items[i]).None?;
    FirstErrorIsFirst(items);
  }

  /** A `msgs` string raises nothing: its lines have no `ERR_CD` entry that is one of the codes. */
  lemma StringMessagesPass(body: string, h: map<string, Json>, text: string)
    requires "msgs" in h && h["msgs"] == Str(text)
    ensures Classify(body, Some(h)) == Success(Response(h))
  {
  }

  /** `status` is never consulted: rewriting it changes neither the outcome nor the error. */
  lemma StatusIgnored(body: string, h: map<string, Json>, status: Json)
    ensures Classify(body, Some(h[("status") := status])).Failure? == Classify(body, Some(h)).Failure?
    ensures Classify(body, Some(h)).Failure? ==>
      Classify(body, Some(h[("status") := status])) == Classify(body, Some(h))
  {
    assert "status" != "msgs";
  }
}
