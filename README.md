# dynect4r in Dafny

dynect4r is a pair of Ruby clients for the Dynect DNS API. This project models
their core and proves what they do.

- **The REST library** (`lib/dynect4r.rb`). `Dynect::Client` logs in and
  stores the session token as the `Auth-Token` header. It turns a resource
  into a URL rooted at `REST`. Its `rest_call` makes at most twelve attempts:
  it pauses before every attempt after the first, and follows job redirects
  by polling the job path with a bodiless GET. `Dynect::Response` decodes a
  reply body. A body that is not JSON becomes a redirect or a parse error.
  Otherwise the first message carrying one of twelve provider error codes is
  raised as that code's error class. `rtype_to_resource` and `args_for_rtype`
  map a record type to its resource name and its positional field names.
- **The SOAP command-line client** (`dynect4r.rb`). It has its own field table
  (`rdata_hash_opts`) and the `response_messages` summary. Its script
  reconciles one node and record type:
  - it derives the zone and the list of rdata entries;
  - when rdata is given, it makes sure the node exists;
  - it queries the existing records of the type and deletes every one;
  - it checks each entry's field count, then formats and creates it;
  - when no rdata is given, it deletes the node if the node holds nothing;
  - in a dry run it only announces the changes it would make.

## Modules

- `Wrappers`: `Option`, `Result`, and one sequence-associativity lemma.
- `RubyText`: Ruby's awk-style `split`, `split(c)`, `join`, ASCII `upcase`
  and substring search.
- `OrderedHash`: a Ruby Hash as an insertion-ordered list. Holds the
  `memo[names[memo.length]] = value` fold that both field formatters use.
- `JsonValues`: decoded JSON values.
- `DynectResponse`: the error classes, the code table, `Response.new` and `Response#[]`.
- `DynectRest`: `Dynect::Client` of the REST library, as a class.
- `DynectRecords`: `rtype_to_resource` and `args_for_rtype`.
- `SoapClient`: `rdata_hash_opts` and `response_messages`.
- `CliInput`: the zone default, the rdata list, the count check and `rdata_formatted`.
- `Reconcile`: the reconciliation script.

## How the outside world is modelled

- **HTTP.** The REST client's HTTP traffic is a sequence of replies: reply
  `k` is what attempt `k + 1` receives. `RestCall` returns the result and the
  requests it sent; each request says whether the 5-second pause came
  before it.
- **JSON parsing.** `JSON.parse` is given as the parser's verdict on the body
  (`None` for a body that does not parse).
- **SOAP.** The SOAP API is a function from a call to a reply. A reply holds
  the success flag, the shape of `:records][:item]` and the
  `response_messages` text. The script's `Soap` object records every call it
  makes and every line it logs in `trace`.
- **Outcomes.** `Process.exit(1)` is the outcome `Aborted`. The
  `NoMethodError` raised deriving the zone of a node without a dot is the
  outcome `Crashed`.

The model follows Ruby 1.8.7, the version the script runs on. Line 255 of
`dynect4r.rb` compares `item.type` with `Hash`; `Object#type` exists only in
Ruby 1.8, and the `-W0` of the script's first line silences its deprecation
warning. On Ruby 1.9 and later every successful query would raise
`NoMethodError` there. Ruby 1.8 semantics also decide two smaller cases: a
`msgs` string is iterated line by line and raises nothing, and `upcase` is
ASCII-only.

Notes on the code:

- The script talks to the API through its own SOAP client, not through the
  REST library.
- The library sends TXT rdata whole, as `{txtdata => rdata}`. The script
  splits it into tokens and sends `txtdata => ['', tok1, ..., tokN]`.
- `args_for_rtype` has no field-count check; only the script checks counts.
- The script runs the empty-node cleanup only when no arguments were given
  at all. Arguments that split into no entries (a lone `,`) skip both the
  creates and the cleanup.
- The library's SOA row is `['rname']` alone, and its LOC row has six names
  (see Findings).

## Model

| member | source | states |
|---|---|---|
| DynectResponse.Classify | lib/dynect4r.rb:91-135 | `Response.new`: a body that does not parse is a redirect or a parse error; otherwise a `msgs` array raises the first message's error, a missing key, an empty hash or a string raises nothing, and any other shape is malformed |
| DynectResponse.HasJobPath | lib/dynect4r.rb:97 | `body =~ /REST\/Job\/[0-9]+/`: `REST/Job/` followed by a digit occurs in the body |
| DynectResponse.MessageError | lib/dynect4r.rb:107-132 | a hash message raises the kind of its `ERR_CD` when that is one of the codes; a string raises nothing; any other shape is malformed |
| DynectResponse.FirstError | lib/dynect4r.rb:106-133 | the error of the first message in `msgs` that raises one |
| DynectResponse.KindOfCodeIsTable | lib/dynect4r.rb:107-132 | a code raises kind k exactly when (code, k) is a branch of the twelve-code `case`; any other code raises nothing |
| DynectResponse.CaseTableDistinct | lib/dynect4r.rb:107-132 | no two branches of the `case` share a code |
| DynectResponse.KindAmongSound | lib/dynect4r.rb:107-132 | a matched kind comes from a table row with that code |
| DynectResponse.KindAmongFinds | lib/dynect4r.rb:107-132 | a code with a single kind in the table is matched to that kind |
| DynectResponse.Response.Get | lib/dynect4r.rb:137-139 | `response[key]` is the decoded value under the key, and `nil` when the key is absent |
| DynectResponse.MessageErrorCoded | lib/dynect4r.rb:106-133 | a message raises an API error only when it is a hash whose `ERR_CD` string is in the table, and the error has that code's kind |
| DynectResponse.FirstErrorIsFirst | lib/dynect4r.rb:106-133 | the scan finds no error exactly when no message raises; otherwise the error is that of the first message that raises |
| DynectResponse.NewResponse | lib/dynect4r.rb:91-135 | the `msgs` loop returns exactly the classification of the body: decode failure, the first raising message, or the response |
| DynectResponse.UnparsedBody | lib/dynect4r.rb:94-102 | an unparseable body is a `RedirectError` carrying the whole body exactly when it contains `REST/Job/` and a digit; otherwise the parse error is raised again |
| DynectResponse.JobPathSamples | lib/dynect4r.rb:97 | `/REST/Job/4021` matches the job pattern; `REST/Job/` and `REST/Job/x7` do not |
| DynectResponse.NoMessagesNoError | lib/dynect4r.rb:105 | without a `msgs` key the decoded hash is returned and nothing is raised |
| DynectResponse.FirstCodedMessageRaises | lib/dynect4r.rb:105-134 | when message k is the first that raises, `Response.new` raises message k's error; earlier unknown or null codes are skipped |
| DynectResponse.UncodedMessagesPass | lib/dynect4r.rb:105-134 | messages whose codes are missing, not strings, or unknown raise nothing |
| DynectResponse.StringMessagesPass | lib/dynect4r.rb:105-134 | a `msgs` string raises nothing |
| DynectResponse.StatusIgnored | lib/dynect4r.rb:91-135 | rewriting `status` changes neither whether an error is raised nor which one |
| DynectRest.Normalized | lib/dynect4r.rb:70-81 | the segments without empty ones, with `REST` put in front when the first is not `REST` |
| DynectRest.UrlFor | lib/dynect4r.rb:68-85 | the base URL, `/`, the normalised segments joined with `/`, and `/` |
| DynectRest.Poll | lib/dynect4r.rb:23-59 | attempts from the second on: a paused GET of the job path; a redirect moves to the next job, and a redirect on attempt 12 times out |
| DynectRest.RestCallRun | lib/dynect4r.rb:19-63 | the result and the requests of `rest_call`: the caller's request first, then polls while redirected |
| DynectRest.TokenOf | lib/dynect4r.rb:15 | `response['data']['token']`, with Ruby's `[]` on a hash, on a string, and on anything else |
| DynectRest.LoginResult | lib/dynect4r.rb:14-15 | the session call's error, or the token of its response |
| DynectRest.WithoutEmptyNonEmpty | lib/dynect4r.rb:76 | no empty segment survives `delete('')` |
| DynectRest.WithoutEmptyContents | lib/dynect4r.rb:76 | `delete('')` removes every empty segment and nothing else (as multisets) |
| DynectRest.NormalizedShape | lib/dynect4r.rb:68-85 | the joined segments start with `REST` and hold no empty segment; they are the kept segments, with `REST` prepended only when the first one is not already `REST` |
| DynectRest.NormalizedIdempotent | lib/dynect4r.rb:76-81 | normalising twice is normalising once, so `REST` is never doubled |
| DynectRest.UrlIsFixpoint | lib/dynect4r.rb:68-85 | giving the normalised path back as a string resource builds the same URL |
| DynectRest.Client.ResourceToUrl | lib/dynect4r.rb:68-85 | the URL is the base, `/`, the normalised segments joined with `/`, and a closing `/` |
| DynectRest.WireAt | lib/dynect4r.rb:30-43 | the i-th HTTP request carries the i-th attempt's verb, payload, headers and pause, with `resource_to_url` of its resource |
| DynectRest.WireSnoc | lib/dynect4r.rb:30-43 | one more attempt puts one more request on the wire, at the end |
| DynectRest.Receive | lib/dynect4r.rb:34-43 | one reply yields `Response.new` of the body, or the HTTP library's exception |
| DynectRest.DecodedAt | lib/dynect4r.rb:34-43 | attempt i + 1 sees the outcome of reply i |
| DynectRest.AttemptsUsedIsFirst | lib/dynect4r.rb:23-59 | the number of attempts is the first attempt that is not redirected, or 12 |
| DynectRest.PollOutcome | lib/dynect4r.rb:23-59 | a poll from attempt a ends at that attempt, with its outcome or with the timeout |
| DynectRest.PollEvents | lib/dynect4r.rb:49-54 | each polling attempt is a paused, bodiless GET of the job the attempt before was redirected to |
| DynectRest.PollEventShift | lib/dynect4r.rb:49-54 | moving the poll on by one attempt shifts its requests by one |
| DynectRest.RestCallOutcome | lib/dynect4r.rb:19-63 | `rest_call` sends one request per attempt and at most 12; every attempt before the last was redirected, and the last is not unless it is the twelfth; the result is the last outcome, or `OperationTimedOut` |
| DynectRest.RestCallEvents | lib/dynect4r.rb:22-54 | the first request is the caller's, sent without a pause; every later one is paused and is a bodiless GET of the job path the previous attempt was sent to, so there are at most 11 pauses |
| DynectRest.NoRedirectOneRequest | lib/dynect4r.rb:33-46 | an outcome that is not a redirect, success or any other error, ends the call on the first attempt with that outcome |
| DynectRest.TwelveRedirectsTimeOut | lib/dynect4r.rb:50-56 | twelve redirects in a row make twelve requests and raise `OperationTimedOut`, naming 12 and the last job polled |
| DynectRest.ElevenRedirectsThenEnvelope | lib/dynect4r.rb:23-62 | eleven redirects and then an envelope return that envelope after twelve requests |
| DynectRest.AttemptEnds | lib/dynect4r.rb:33-46 | an attempt whose outcome is not a redirect ends the loop with that outcome, after its own request |
| DynectRest.AttemptRedirects | lib/dynect4r.rb:49-53 | a redirect on attempt t < 12 makes attempt t + 1 a GET of the redirect's message with no arguments |
| DynectRest.AttemptTimesOut | lib/dynect4r.rb:54-56 | a redirect on attempt 12 raises `OperationTimedOut` naming the resource of that attempt |
| DynectRest.Client.Attempt | lib/dynect4r.rb:25-57 | one pass of the loop sends the attempt's request, then either ends with the run's result or leaves the loop pending at the next attempt, with the job path as its resource |
| DynectRest.Client.RestCall | lib/dynect4r.rb:19-63 | the loop returns exactly the specified result and sends exactly the specified requests |
| DynectRest.Client.constructor | lib/dynect4r.rb:12-13 | a client starts at `https://api2.dynect.net` with the JSON content-type and accept headers |
| DynectRest.Client.LogIn | lib/dynect4r.rb:14-15 | `POST Session` with the credentials; on success `response['data']['token']` becomes the `Auth-Token` header and no other header changes |
| DynectRecords.RtypeToResource | lib/dynect4r.rb:174-176 | `rtype.upcase + 'Record'` |
| DynectRecords.SchemaWith | lib/dynect4r.rb:181-208 | the `case rtype` table of field names for a given LOC row, `[]` for any other type |
| DynectRecords.ArgsWith | lib/dynect4r.rb:210-214 | TXT maps the first name to the whole rdata; other types fold the whitespace tokens onto the names by position |
| DynectRecords.ArgsForRtype | lib/dynect4r.rb:179-215 | `args_for_rtype` with the table as written |
| DynectRecords.ArgsForRtypeFixed | lib/dynect4r.rb:179-215 | `args_for_rtype` with the seven-name LOC row |
| DynectRecords.RtypeToResourceShape | lib/dynect4r.rb:174-176 | the resource is the type upcased character by character, followed by `Record` |
| DynectRecords.RtypeToResourceCaseBlind | lib/dynect4r.rb:174-176 | two types name the same resource exactly when they agree up to case |
| DynectRecords.SchemaDistinct | lib/dynect4r.rb:181-208 | no row of the field table names a field twice |
| DynectRecords.LocAsWrittenDistinct | lib/dynect4r.rb:191 | the six LOC names as written are distinct |
| DynectRecords.LocIntendedDistinct | lib/dynect4r.rb:191 | the seven intended LOC names are distinct |
| DynectRecords.TxtArgsVerbatim | lib/dynect4r.rb:210-211 | TXT rdata is stored whole under `txtdata`, whatever whitespace it holds |
| DynectRecords.ArgsZipTokens | lib/dynect4r.rb:212-213 | for other types with no more tokens than names, token i is stored under name i and nothing else is stored |
| DynectRecords.ArgsOverflow | lib/dynect4r.rb:212-213 | there is no count check: surplus tokens go under one `nil` key holding the last token |
| DynectRecords.ArgsFixedZipTokens | lib/dynect4r.rb:181-213 | the corrected table pairs tokens with names in the same way |
| DynectRecords.UnknownTypeArgs | lib/dynect4r.rb:206-207 | a type outside the table has no names, so its tokens collapse into one `nil` key holding the last token |
| DynectRecords.LocAsWrittenMisfiles | lib/dynect4r.rb:191 | seven LOC values as written: the fourth is stored under `vert_prelatitude`, the seventh under `nil`, and `latitude` is never a key |
| DynectRecords.LocFixedFiles | lib/dynect4r.rb:191 | with seven names the seven LOC values land under their seven names, `latitude` fifth |
| RubyText.Words | dynect4r.rb:286 | `split` / `split(' ')`: the maximal runs of non-whitespace, in order |
| RubyText.Split | dynect4r.rb:209 | `split(c)`: the pieces between separators, trailing empty pieces dropped |
| OrderedHash.PositionalFold | lib/dynect4r.rb:213 | `inject({}) { memo[names[memo.length]] = v }` over the values |
| RubyText.WordsAreTokens | dynect4r.rb:286 | every token of the whitespace split is non-empty and holds no whitespace |
| RubyText.WordsOfJoin | dynect4r.rb:208-209 | splitting tokens joined by single spaces gives the tokens back |
| RubyText.JoinPieces | dynect4r.rb:209 | joining the comma pieces with commas gives the string back |
| RubyText.DropTrailingEmptyTrims | dynect4r.rb:209 | `split` drops exactly the trailing empty pieces |
| RubyText.SplitAvoids | dynect4r.rb:209 | no field of `split(c)` contains `c` |
| RubyText.PiecesOfJoin | lib/dynect4r.rb:72 | joining pieces that lack the separator and cutting again at it gives them back |
| RubyText.SplitNoSeparator | dynect4r.rb:209 | a non-empty string without the separator splits into itself alone |
| RubyText.UpcaseIdempotent | lib/dynect4r.rb:175 | upcasing twice is upcasing once |
| OrderedHash.PositionalFoldZips | lib/dynect4r.rb:213 | with distinct names and at most as many values, the fold pairs value i with name i |
| OrderedHash.PositionalFoldOverflows | lib/dynect4r.rb:213 | with more values than names, every name gets its value and the surplus collapses into one `nil` key holding the last value |
| SoapClient.RdataHashOpts | dynect4r.rb:107-132 | the SOAP field names per record type, `[]` for any other type |
| SoapClient.MessageList | dynect4r.rb:89-100 | the `key: value` entries of the messages, then of the errors |
| SoapClient.RdataHashOptsDistinct | dynect4r.rb:107-132 | no row of the SOAP field table names a field twice |
| SoapClient.TablesDisagree | dynect4r.rb:107-132 | unlike the library, the SOAP table has no DS, RP or DNSKEY row, wants seven SOA fields, and starts LOC with `latitude` |
| SoapClient.TablesAgree | dynect4r.rb:107-132 | A, AAAA, CNAME, KEY, MX, NS, PTR, SRV and TXT have the same rows in both tables |
| SoapClient.EntriesAt | dynect4r.rb:92-94 | entry i renders pair i as `key: value` |
| SoapClient.MessageListOrder | dynect4r.rb:89-100 | every message comes before every error, in hash order, each as `key: value`; a missing hash adds nothing |
| SoapClient.AppendEntries | dynect4r.rb:92-99 | the loop appends one `key: value` entry per pair, in order |
| SoapClient.ResponseMessages | dynect4r.rb:89-101 | `response_messages` is the messages' then the errors' entries joined with `", "` |
| CliInput.FirstDot | dynect4r.rb:206 | `index('.')`, which lies inside the string |
| CliInput.ZoneOf | dynect4r.rb:206 | the text after the first dot, or none when there is no dot |
| CliInput.RdataList | dynect4r.rb:208-210 | `ARGV.join(' ').split(',')` when there are arguments, none otherwise |
| CliInput.Accepted | dynect4r.rb:286 | the token count equals the number of fields, or the type is TXT |
| CliInput.Formatted | dynect4r.rb:293-304 | `rdata_formatted`: TXT maps the first field to `''` and the tokens; other types fold the tokens onto the fields |
| CliInput.FirstDotIsFirst | dynect4r.rb:206 | `index('.')` is `nil` exactly when there is no dot; otherwise it is a dot with none before it |
| CliInput.ZoneOfSuffix | dynect4r.rb:205-207 | the default zone exists exactly when the node has a dot, and is what follows the node's first label and dot |
| CliInput.RdataListEntries | dynect4r.rb:208-210 | the list exists exactly when there are arguments; no entry holds a comma; arguments without a comma make one entry, their space-joined text |
| CliInput.TxtFormatted | dynect4r.rb:295-299 | a TXT entry becomes `txtdata => ['', tok1, ..., tokN]` |
| CliInput.AcceptedFormatted | dynect4r.rb:300-303 | an accepted entry of another type pairs token i with field i, an exact zip |
| CliInput.FormatRdata | dynect4r.rb:293-304 | the two `each` loops build exactly `rdata_formatted` |
| CliInput.SinglesAt | dynect4r.rb:301-303 | each token is stored as a single value |
| Reconcile.EnsureNode | dynect4r.rb:216-240 | `NodeGet`; when it fails, "Will create node" in a dry run, else `NodeAdd` with its log line; only a failed `NodeAdd` stops the run |
| Reconcile.RecordsOf | dynect4r.rb:254-259 | a Hash item is one record, an Array item the records, anything else none |
| Reconcile.DeleteOne | dynect4r.rb:265-277 | "Will delete record" in a dry run, else `RecordDelete` and a deleted or failed line |
| Reconcile.DeleteAll | dynect4r.rb:262-278 | the delete steps of each record, in order |
| Reconcile.Rejection | dynect4r.rb:286-288 | the error line naming the type, its fields and the tokens given |
| Reconcile.LevelOf | dynect4r.rb:223-356 | the failed node creation, the failed query, the count error and the failed record creation are errors; every other line is a warning |
| Reconcile.CreateOne | dynect4r.rb:286-325 | the rejection, "Will create record" in a dry run, or `RecordAdd` with a created or failed line |
| Reconcile.CreateAll | dynect4r.rb:283-329 | the create steps of each entry, in order |
| Reconcile.Cleanup | dynect4r.rb:334-361 | the node-wide `RecordGet`; when it has no `:item`, `NodeGet`; when that succeeds, "Will delete node" in a dry run, else `NodeDelete` and its line |
| Reconcile.AfterQuery | dynect4r.rb:262-363 | the deletes, then the creates when rdata is given, else the cleanup |
| Reconcile.Reconciled | dynect4r.rb:215-363 | the node step when rdata is given, the query, then the rest; a failed node creation or query aborts |
| Reconcile.Script | dynect4r.rb:205-363 | the zone default, then the run with the type's SOAP fields and the rdata list |
| Reconcile.CallsAppend | dynect4r.rb:215-363 | the calls of two traces in a row are the calls of the first, then those of the second |
| Reconcile.AddCallsAppend | dynect4r.rb:283-325 | the adds of two entry lists in a row are the adds of the first, then those of the second |
| Reconcile.EnsureNodeCalls | dynect4r.rb:216-240 | the node step calls `NodeGet`, and `NodeAdd` only when the node is missing and this is no dry run |
| Reconcile.DeleteAllCalls | dynect4r.rb:262-278 | without a dry run every listed record is deleted, in order, and nothing else is called |
| Reconcile.DryDeletesAnnounce | dynect4r.rb:265-267 | in a dry run each record gets one "Will delete record" line, in order, and nothing else happens |
| Reconcile.AcceptedEntriesFilter | dynect4r.rb:286 | the count check keeps exactly the entries it accepts, in order; when it accepts all, it keeps them all |
| Reconcile.CreateAllCalls | dynect4r.rb:283-325 | without a dry run the create loop adds exactly the accepted entries, formatted, in order, and calls nothing else |
| Reconcile.DryCreatesAnnounce | dynect4r.rb:286-309 | in a dry run each entry gets one line: its rejection, or "Will create record" for it |
| Reconcile.RejectionsLogged | dynect4r.rb:286-288 | every entry that fails the count check is logged at error level with the expected and given fields, and the loop goes on |
| Reconcile.CleanupCalls | dynect4r.rb:331-363 | the cleanup lists the node and stops when it has an `:item`; otherwise it looks the node up and deletes it only when it exists and this is no dry run |
| Reconcile.HeadCalls | dynect4r.rb:215-247 | before the query's outcome is known, the run calls the node step (when rdata is given) and then the query |
| Reconcile.AfterQueryCalls | dynect4r.rb:262-363 | after the query come the deletes, unless this is a dry run, and then the adds or the cleanup |
| Reconcile.FinishedCalls | dynect4r.rb:215-363 | a run that reaches the end had a successful query and calls: the node step, the query, the deletes (unless dry), then the adds or the cleanup |
| Reconcile.AbortedCalls | dynect4r.rb:234-250 | a run that stops early has called the node step, and the query unless the node could not be created |
| Reconcile.ReconciledOutcome | dynect4r.rb:215-250 | the run never crashes once the zone is known; it aborts exactly when the node cannot be created or the query fails, and then its last step is an error line |
| Reconcile.DeleteCallsAreDeletes | dynect4r.rb:269 | the delete block holds only `RecordDelete` calls |
| Reconcile.AddCallsAreAdds | dynect4r.rb:311-317 | the create block holds only `RecordAdd` calls |
| Reconcile.PreKinds | dynect4r.rb:216-247 | before the deletes there are only lookups, a node creation and the query; the creation is there exactly when rdata is given, the node is missing and this is no dry run |
| Reconcile.TailKinds | dynect4r.rb:281-363 | after the deletes there are only adds and the cleanup; a node deletion is the last call, and it is there exactly when no rdata is given, the node has no items, it exists, and this is no dry run |
| Reconcile.DeletesBeforeCreates | dynect4r.rb:262-325 | every `RecordDelete` of a run comes before every `RecordAdd` |
| Reconcile.NodeAddedIff | dynect4r.rb:216-229 | `NodeAdd` is issued exactly when rdata is given, `NodeGet` fails and this is no dry run |
| Reconcile.NodeDeletedIff | dynect4r.rb:331-351 | `NodeDelete` is issued exactly when the run gets there, no rdata is given, the node-wide list has no `:item`, `NodeGet` succeeds and this is no dry run |
| Reconcile.NodeDeleteLast | dynect4r.rb:331-363 | a node deletion is always the run's last call |
| Reconcile.NodeDeleteBlocks | dynect4r.rb:331-363 | in a finished run a node deletion comes from the cleanup alone, as its last call |
| Reconcile.DeleteCallsAll | dynect4r.rb:262-269 | the k-th delete is for the k-th listed record |
| Reconcile.AddCallsAll | dynect4r.rb:283-317 | the k-th add is for the k-th entry |
| Reconcile.FinishedReplaces | dynect4r.rb:253-325 | a finished run that is not dry deletes every listed record, in order, right after the query, then adds one formatted record per accepted entry, in order, and calls nothing more |
| Reconcile.DryRunReadOnly | dynect4r.rb:215-363 | a dry run only makes `NodeGet` and `RecordGet` calls and never a mutating one |
| Reconcile.DryFinishedReads | dynect4r.rb:215-363 | a dry run that reaches the end has made only `NodeGet` and `RecordGet` calls |
| Reconcile.DryAbortedReads | dynect4r.rb:216-250 | a dry run that stops early has made only the node lookup and the query |
| Reconcile.DryNodeAnnounced | dynect4r.rb:222-346 | a dry run logs "Will create node" for a missing node, and ends with "Will delete node" for an empty existing one |
| Reconcile.ScriptStarts | dynect4r.rb:205-210 | the script dies before any call exactly when no zone is given and the node has no dot; otherwise it reconciles the given or derived zone with the type's fields and the rdata list of the arguments |
| Reconcile.ScriptDryRunReadOnly | dynect4r.rb:205-363 | a dry run of the whole script never makes a mutating call |
| Reconcile.Soap.constructor | dynect4r.rb:213 | a client starts with an empty trace and answers through the given API |
| Reconcile.Soap.SoapCall | dynect4r.rb:51-104 | a call returns the API's reply to it and is appended to the trace |
| Reconcile.Soap.Log | dynect4r.rb:223-356 | a log line is appended to the trace |
| Reconcile.EnsureNodeExists | dynect4r.rb:216-240 | makes exactly the node step's calls and logs, and reports whether the run may go on |
| Reconcile.DeleteRecord | dynect4r.rb:265-277 | deletes or announces one record, logging how the delete went |
| Reconcile.DeleteRecords | dynect4r.rb:262-278 | the loop appends the delete steps of every record, in order |
| Reconcile.CreateRecord | dynect4r.rb:286-325 | rejects, announces or creates one entry, logging the result |
| Reconcile.CreateRecords | dynect4r.rb:283-327 | the loop appends the create steps of every entry, in order |
| Reconcile.RemoveEmptyNode | dynect4r.rb:331-363 | appends exactly the cleanup's calls and logs |
| Reconcile.FinishRun | dynect4r.rb:262-363 | appends the deletes, then the creates or the cleanup |
| Reconcile.Reconcile | dynect4r.rb:215-363 | returns the run's outcome and appends exactly its steps |
| Reconcile.DefaultZone | dynect4r.rb:205-207 | the zone is `-z` when given, else the text after the node's first dot, and none when there is no dot |
| Reconcile.Run | dynect4r.rb:205-363 | the script's outcome and its whole trace are those of `Script` |

## Left out

- HTTP and SOAP transport (RestClient, Savon, the WSDL namespaces, the
  action-name capitalisation, the per-call credentials) are foreign
  libraries and network I/O. The REST client's traffic is a sequence of
  replies; the SOAP API is a function from a call to a reply.
- Because the SOAP API is a function, identical calls get identical
  replies, and a reply does not depend on the mutations made before it.
  Properties about the zone's state after a run, such as running the same
  reconciliation twice converging, are therefore out of reach.
- `JSON.parse` and `to_json` are library calls. Parsing is the parser's
  verdict on the body, and only top-level objects are modelled as parsed;
  a top-level array is not.
- `sleep(5)` is timing only. It appears as the `paused` flag of each request.
- Logging is outside the model too: `Dynect::Logger`, the logger setup and
  the `eval` of the level. Log lines are kept as structured notes with
  their level, not as formatted text.
- Option parsing, the credentials file and the hostname lookup are command
  line and operating-system I/O. Their results are parameters.
  `Process.exit(1)` is the outcome `Aborted`.
- Reconcile.Options: `ttl` is a string. The script's default is the Integer
  `86400` (line 149), and only `-s` makes it a string; the model does not
  tell the two apart.
- The extraction of the SOAP response hash (`dynect4r.rb:79-88`) depends on
  Savon's hash shape. The script sees only the success flag, the record-item
  shape and the messages text.
- DynectRest.Client.LogIn: `Client#initialize` both sets the headers and
  logs in. Here the constructor sets the headers and `LogIn` makes the
  session call, because a constructor cannot hand back the requests it sent.
- Reconcile.RecordsOf: a query reply whose `:records` is `nil` makes the
  script raise `NoMethodError` at line 255. The model has no such case: a
  reply always carries an item shape, possibly none.
- Reconcile.Cleanup / Reconcile.CleanupCalls: the node-wide `RecordGet` at
  line 334 is not checked for success, and a reply without `:records` makes
  `has_key?` at line 338 raise `NoMethodError`. The model has no such reply,
  so the cleanup never crashes.
- Reconcile.Soap.SoapCall: `raise_errors = false` (line 196) silences only
  SOAP faults and HTTP error statuses. A network error still raises out of
  `soap_call` and ends the script, possibly after some deletes and before
  the creates. Every modelled call returns a reply, so
  Reconcile.ReconciledOutcome's "never crashes once the zone is known" holds
  only in this model.
- DynectResponse.MessageError: the Ruby runtime errors that an ill-shaped
  decoded value raises (`NoMethodError`, `TypeError`) are collapsed into
  one `Malformed` error. The zone-derivation crash is likewise `Crashed`
  only.
- DynectRest.Client.ResourceToUrl: `delete('')` and `unshift` (lib lines 76
  and 80) change a caller's Array resource in place. The model works on a
  copy of the segments, so the caller's array is not changed.
- DynectResponse.Classify: Ruby 1.9 and later would make a `msgs` string
  raise `NoMethodError` (`String#each` is gone); the model gives it Ruby
  1.8's result, no error.
- DynectRest.Client.RestCall: the twelve replies are required up front,
  though a call may use fewer. Names of the HTTP library's own exceptions
  are kept only as a detail string.

## Findings

| source | as written | input that shows it | evidently intended | confidence | as-written member | corrected member |
|---|---|---|---|---|---|---|
| lib/dynect4r.rb:191 | `'vert_pre' 'latitude'` has no comma between the two literals. Ruby concatenates them, so the LOC row is six names including `vert_prelatitude`. | `args_for_rtype('LOC', "0 1 2 3 4 5 6")`: `3` goes under `vert_prelatitude`, `6` under `nil`, and no value is stored under `latitude` | the seven names `version, size, horiz_pre, vert_pre, latitude, longitude, altitude`, with value i under name i | high, not executed | DynectRecords.LocAsWrittenMisfiles | DynectRecords.LocFixedFiles |
