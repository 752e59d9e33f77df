/**
 * The command-line client's reconciliation run: make sure the node exists
 * when records are to be created, query the node's records of the type,
 * delete every one of them, then create one record per accepted rdata
 * entry, or, when no rdata was given, delete the node if it is empty.
 *
 * The SOAP API is an oracle `api: Call -> Reply`; the run yields a trace
 * of the calls it makes and the log lines it writes, and an outcome that
 * says whether it ran to the end, stopped where the script calls
 * `Process.exit(1)`, or died deriving the zone.
 */
module Reconcile {
  import opened Wrappers
  import opened RubyText
  import opened SoapClient
  import opened CliInput

  /** An existing record as `RecordGet` lists it. */
  datatype Record = Record(node: string, recordId: string)

  /** `response_hash[:records][:item]`: no such key, one record (a Hash), several (an Array), or anything else. */
  datatype Item = NoItem | OneRecord(record: Record) | RecordList(records: seq<Record>) | OtherItem

  /** What the script reads from a reply: `:status == 'success'`, the records' `:item`, and `response_messages`. */
  datatype Reply = Reply(success: bool, item: Item, messages: string)

  datatype Call =
    | NodeGet(zone: string, node: string)
    | NodeAdd(zone: string, node: string)
    | RecordGet(zone: string, node: string, ofType: Option<string>)
    | RecordDelete(recordId: string)
    | RecordAdd(zone: string, node: string, rtype: string, ttl: string, rdata: RdataHash)
    | NodeDelete(zone: string, node: string)

  /** The calls that change the zone. */
  predicate Mutates(c: Call) {
    c.NodeAdd? || c.RecordDelete? || c.RecordAdd? || c.NodeDelete?
  }

  datatype Level = Warn | Error

  /** A log line, as the values it interpolates. */
  datatype Note =
    | WillCreateNode(zone: string, node: string)
    | CreatedNode(zone: string, node: string)
    | NodeNotCreated(zone: string, node: string, messages: string)
    | QueryFailed(messages: string)
    | WillDeleteRecord(node: string, rtype: string, recordId: string)
    | DeletedRecord(node: string, rtype: string, recordId: string)
    | RecordNotDeleted(node: string, rtype: string, recordId: string, messages: string)
    | WrongCount(rtype: string, expected: nat, fields: string, given: nat, tokens: string)
    | WillCreateRecord(zone: string, node: string, ttl: string, rtype: string, rdata: string)
    | CreatedRecord(zone: string, node: string, ttl: string, rtype: string, rdata: string)
    | RecordNotCreated(zone: string, node: string, ttl: string, rtype: string, rdata: string, messages: string)
    | WillDeleteNode(zone: string, node: string)
    | DeletedNode(zone: string, node: string)
    | NodeNotDeleted(zone: string, node: string, messages: string)

  /** `log.error` for a failed node creation, a failed query, a wrong field count and a failed record creation; `log.warn` otherwise. */
  function LevelOf(n: Note): Level {
    if n.NodeNotCreated? || n.QueryFailed? || n.WrongCount? || n.RecordNotCreated? then Error else Warn
  }

  datatype Step = Called(call: Call) | Logged(note: Note)

  /** `Finished`: the script ran to its end; `Aborted`: it called `Process.exit(1)`; `Crashed`: the zone default raised. */
  datatype Outcome = Finished | Aborted | Crashed

  /** The parsed options the run reads. */
  datatype Options = Options(zone: Option<string>, node: string, ttl: string, rtype: string, dryRun: bool)

  type Api = Call -> Reply

  /** `-z` when given, else the text after the node's first dot. */
  function Zone(o: Options): Option<string> {
    if o.zone.Some? then o.zone else ZoneOf(o.node)
  }

  /** Lines 216-240: look the node up, and create it unless this is a dry run. */
  function EnsureNode(zone: string, node: string, dryRun: bool, api: Api): (bool, seq<Step>) {
    var get := NodeGet(zone, node);
    if api(get).success then (true, [Called(get)])
    else if dryRun then (true, [Called(get), Logged(WillCreateNode(zone, node))])
    else
      var add := NodeAdd(zone, node);
      if api(add).success then (true, [Called(get), Called(add), Logged(CreatedNode(zone, node))])
      else (false, [Called(get), Called(add), Logged(NodeNotCreated(zone, node, api(add).messages))])
  }

  /** Lines 254-259: a Hash is one record, an Array is the records, anything else is none. */
  function RecordsOf(item: Item): seq<Record> {
    match item
    case OneRecord(r) => [r]
    case RecordList(rs) => rs
    case _ => []
  }

  /** Lines 265-277: delete one record, or announce it in a dry run. */
  function DeleteOne(r: Record, rtype: string, dryRun: bool, api: Api): seq<Step> {
    if dryRun then [Logged(WillDeleteRecord(r.node, rtype, r.recordId))]
    else
      var del := RecordDelete(r.recordId);
      [Called(del), Logged(if api(del).success then DeletedRecord(r.node, rtype, r.recordId)
                           else RecordNotDeleted(r.node, rtype, r.recordId, api(del).messages))]
  }

  /** The delete loop over the records, in order. */
  function DeleteAll(rs: seq<Record>, rtype: string, dryRun: bool, api: Api): seq<Step> {
    if rs == [] then []
    else DeleteAll(rs[..|rs| - 1], rtype, dryRun, api) + DeleteOne(rs[|rs| - 1], rtype, dryRun, api)
  }

  /** The `RecordAdd` one accepted entry sends. */
  function AddCall(o: Options, zone: string, fields: seq<string>, entry: string): Call {
    RecordAdd(zone, o.node, o.rtype, o.ttl, Formatted(o.rtype, fields, entry))
  }

  /** The error logged for an entry with the wrong field count (lines 286-288). */
  function Rejection(rtype: string, fields: seq<string>, entry: string): Note {
    var tokens := Words(entry);
    WrongCount(rtype, |fields|, Join(fields, ", "), |tokens|, Join(tokens, ", "))
  }

  /** Lines 285-325: reject an entry with the wrong field count, else create the record or announce it. */
  function CreateOne(o: Options, zone: string, fields: seq<string>, entry: string, api: Api): seq<Step> {
    if !Accepted(o.rtype, fields, entry) then [Logged(Rejection(o.rtype, fields, entry))]
    else if o.dryRun then [Logged(WillCreateRecord(zone, o.node, o.ttl, o.rtype, entry))]
    else
      var add := AddCall(o, zone, fields, entry);
      [Called(add), Logged(if api(add).success then CreatedRecord(zone, o.node, o.ttl, o.rtype, entry)
                           else RecordNotCreated(zone, o.node, o.ttl, o.rtype, entry, api(add).messages))]
  }

  /** The create loop over the rdata entries, in order. */
  function CreateAll(o: Options, zone: string, fields: seq<string>, entries: seq<string>, api: Api): seq<Step> {
    if entries == [] then []
    else CreateAll(o, zone, fields, entries[..|entries| - 1], api) + CreateOne(o, zone, fields, entries[|entries| - 1], api)
  }

  /** Lines 333-361: list the whole node, and delete it when it holds nothing and exists. */
  function Cleanup(zone: string, node: string, dryRun: bool, api: Api): seq<Step> {
    var list := RecordGet(zone, node, None);
    if !api(list).item.NoItem? then [Called(list)]
    else
      var get := NodeGet(zone, node);
      if !api(get).success then [Called(list), Called(get)]
      else if dryRun then [Called(list), Called(get), Logged(WillDeleteNode(zone, node))]
      else
        var del := NodeDelete(zone, node);
        [Called(list), Called(get), Called(del),
         Logged(if api(del).success then DeletedNode(zone, node) else NodeNotDeleted(zone, node, api(del).messages))]
  }

  /** Lines 262-363, once the query has listed `records`: delete them, then create the entries or clean up. */
  function AfterQuery(o: Options, zone: string, fields: seq<string>, rdata: Option<seq<string>>, records: seq<Record>, api: Api): seq<Step> {
    DeleteAll(records, o.rtype, o.dryRun, api)
      + if rdata.Some? then CreateAll(o, zone, fields, rdata.value, api)
        else Cleanup(zone, o.node, o.dryRun, api)
  }

  /** Lines 215-363 for a known zone, field list and rdata list. */
  function Reconciled(o: Options, zone: string, fields: seq<string>, rdata: Option<seq<string>>, api: Api): (Outcome, seq<Step>) {
    var ensure := if rdata.Some? then EnsureNode(zone, o.node, o.dryRun, api) else (true, []);
    if !ensure.0 then (Aborted, ensure.1)
    else
      var query := RecordGet(zone, o.node, Some(o.rtype));
      var head := ensure.1 + [Called(query)];
      if !api(query).success then (Aborted, head + [Logged(QueryFailed(api(query).messages))])
      else (Finished, head + AfterQuery(o, zone, fields, rdata, RecordsOf(api(query).item), api))
  }

  /** The run from the zone default to the end of the script (lines 205-363). */
  function Script(o: Options, argv: seq<string>, api: Api): (Outcome, seq<Step>) {
    match Zone(o)
    case None => (Crashed, [])
    case Some(zone) => Reconciled(o, zone, RdataHashOpts(o.rtype), RdataList(argv), api)
  }

  // ---------------------------------------------------------------------
  // The calls a trace makes

  /** The calls of a trace, in order. */
  function Calls(steps: seq<Step>): (cs: seq<Call>)
    ensures |cs| <= |steps|
  {
    if steps == [] then []
    else Calls(steps[..|steps| - 1]) + (if steps[|steps| - 1].Called? then [steps[|steps| - 1].call] else [])
  }

  lemma {:induction false} CallsAppend(a: seq<Step>, b: seq<Step>)
    ensures Calls(a + b) == Calls(a) + Calls(b)
    decreases |b|
  {
    if b == [] {
      assert a + b == a;
    } else {
      assert (a + b)[..|a + b| - 1] == a + b[..|b| - 1];
      CallsAppend(a, b[..|b| - 1]);
    }
  }

  /** The deletes of the records, one per record, in order. */
  function DeleteCalls(rs: seq<Record>): (cs: seq<Call>)
    ensures |cs| == |rs|
  {
    if rs == [] then [] else DeleteCalls(rs[..|rs| - 1]) + [RecordDelete(rs[|rs| - 1].recordId)]
  }

  /** The entries that pass the count check, in order. */
  function AcceptedEntries(rtype: string, fields: seq<string>, entries: seq<string>): seq<string> {
    if entries == [] then []
    else
      var last := entries[|entries| - 1];
      AcceptedEntries(rtype, fields, entries[..|entries| - 1]) + (if Accepted(rtype, fields, last) then [last] else [])
  }

  /** One `RecordAdd` per entry. */
  function AddCalls(o: Options, zone: string, fields: seq<string>, entries: seq<string>): (cs: seq<Call>)
    ensures |cs| == |entries|
  {
    if entries == [] then []
    else AddCalls(o, zone, fields, entries[..|entries| - 1]) + [AddCall(o, zone, fields, entries[|entries| - 1])]
  }

  lemma {:induction false} AddCallsAppend(o: Options, zone: string, fields: seq<string>, a: seq<string>, b: seq<string>)
    ensures AddCalls(o, zone, fields, a + b) == AddCalls(o, zone, fields, a) + AddCalls(o, zone, fields, b)
    decreases |b|
  {
    if b == [] {
      assert a + b == a;
    } else {
      assert (a + b)[..|a + b| - 1] == a + b[..|b| - 1];
      AddCallsAppend(o, zone, fields, a, b[..|b| - 1]);
    }
  }

  lemma CallsOfLog(n: Note)
    ensures Calls([Logged(n)]) == []
  {
    assert [Logged(n)][..0] == [];
  }

  lemma CallsOfCallAndLog(c: Call, n: Note)
    ensures Calls([Called(c), Logged(n)]) == [c]
  {
    var s := [Called(c), Logged(n)];
    assert s[..1] == [Called(c)] && s[..1][..0] == [];
  }

  /** Without a dry run the delete loop deletes every record, in order, and calls nothing else. */
  lemma {:induction false} DeleteAllCalls(rs: seq<Record>, rtype: string, dryRun: bool, api: Api)
    ensures Calls(DeleteAll(rs, rtype, dryRun, api)) == if dryRun then [] else DeleteCalls(rs)
  {
    if rs != [] {
      var init, last := rs[..|rs| - 1], rs[|rs| - 1];
      var one := DeleteOne(last, rtype, dryRun, api);
      DeleteAllCalls(init, rtype, dryRun, api);
      CallsAppend(DeleteAll(init, rtype, dryRun, api), one);
      if dryRun {
        CallsOfLog(one[0].note);
      } else {
        CallsOfCallAndLog(RecordDelete(last.recordId), one[1].note);
      }
    }
  }

  /** Without a dry run the create loop adds exactly the accepted entries, in order, formatted, and calls nothing else. */
  lemma {:induction false} CreateAllCalls(o: Options, zone: string, fields: seq<string>, entries: seq<string>, api: Api)
    ensures Calls(CreateAll(o, zone, fields, entries, api))
      == if o.dryRun then [] else AddCalls(o, zone, fields, AcceptedEntries(o.rtype, fields, entries))
  {
    if entries != [] {
      var init, last := entries[..|entries| - 1], entries[|entries| - 1];
      var one := CreateOne(o, zone, fields, last, api);
      CreateAllCalls(o, zone, fields, init, api);
      CallsAppend(CreateAll(o, zone, fields, init, api), one);
      var accepted := Accepted(o.rtype, fields, last);
      if !accepted || o.dryRun {
        CallsOfLog(one[0].note);
      } else {
        CallsOfCallAndLog(AddCall(o, zone, fields, last), one[1].note);
      }
      if !o.dryRun {
        var more := if accepted then [last] else [];
        AddCallsAppend(o, zone, fields, AcceptedEntries(o.rtype, fields, init), more);
        assert accepted ==> AddCalls(o, zone, fields, more) == [AddCall(o, zone, fields, last)];
      }
    }
  }

  lemma EnsureNodeCalls(zone: string, node: string, dryRun: bool, api: Api)
    ensures var get, add := NodeGet(zone, node), NodeAdd(zone, node);
      Calls(EnsureNode(zone, node, dryRun, api).1) == if api(get).success || dryRun then [get] else [get, add]
  {
    var s := EnsureNode(zone, node, dryRun, api).1;
    assert Calls(s[..1]) == Calls(s[..0]) + [NodeGet(zone, node)];
    if |s| == 3 {
      assert s[..2][..1] == s[..1];
      assert Calls(s[..2]) == Calls(s[..1]) + (if s[1].Called? then [s[1].call] else []);
    }
    assert s[..|s|] == s && s[..|s| - 1] == s[..|s| - 1][..|s| - 1];
  }

  lemma CleanupCalls(zone: string, node: string, dryRun: bool, api: Api)
    ensures var list, get, del := RecordGet(zone, node, None), NodeGet(zone, node), NodeDelete(zone, node);
      Calls(Cleanup(zone, node, dryRun, api)) ==
        if !api(list).item.NoItem? then [list]
        else if !api(get).success || dryRun then [list, get]
        else [list, get, del]
  {
    var s := Cleanup(zone, node, dryRun, api);
    assert Calls(s[..1]) == Calls(s[..0]) + [s[0].call];
    if |s| >= 2 {
      assert s[..2][..1] == s[..1];
      assert Calls(s[..2]) == Calls(s[..1]) + [s[1].call];
    }
    if |s| >= 3 {
      assert s[..3][..2] == s[..2];
      assert Calls(s[..3]) == Calls(s[..2]) + (if s[2].Called? then [s[2].call] else []);
    }
    if |s| == 4 {
      assert s[..4] == s;
      assert s[..3] == s[..|s| - 1];
    }
  }

  /** The count check keeps exactly the entries it accepts, in their order. */
  lemma {:induction false} AcceptedEntriesFilter(rtype: string, fields: seq<string>, entries: seq<string>)
    ensures forall e :: e in AcceptedEntries(rtype, fields, entries) <==> e in entries && Accepted(rtype, fields, e)
    ensures |AcceptedEntries(rtype, fields, entries)| <= |entries|
    ensures (forall e :: e in entries ==> Accepted(rtype, fields, e)) ==> AcceptedEntries(rtype, fields, entries) == entries
  {
    if entries != [] {
      var init := entries[..|entries| - 1];
      AcceptedEntriesFilter(rtype, fields, init);
      assert entries == init + [entries[|entries| - 1]];
    }
  }

  /** In a dry run the delete loop announces every record, in order, and does nothing else. */
  lemma {:induction false} DryDeletesAnnounce(rs: seq<Record>, rtype: string, api: Api)
    ensures var steps := DeleteAll(rs, rtype, true, api);
      && |steps| == |rs|
      && forall k :: 0 <= k < |rs| ==> steps[k] == Logged(WillDeleteRecord(rs[k].node, rtype, rs[k].recordId))
  {
    if rs != [] {
      DryDeletesAnnounce(rs[..|rs| - 1], rtype, api);
    }
  }

  /** In a dry run the create loop writes one line per entry: the rejection, or the announcement of the record it would create. */
  lemma {:induction false} DryCreatesAnnounce(o: Options, zone: string, fields: seq<string>, entries: seq<string>, api: Api)
    requires o.dryRun
    ensures var steps := CreateAll(o, zone, fields, entries, api);
      && |steps| == |entries|
      && forall k :: 0 <= k < |entries| ==>
           steps[k] == Logged(if Accepted(o.rtype, fields, entries[k]) then WillCreateRecord(zone, o.node, o.ttl, o.rtype, entries[k])
                              else Rejection(o.rtype, fields, entries[k]))
  {
    if entries != [] {
      DryCreatesAnnounce(o, zone, fields, entries[..|entries| - 1], api);
    }
  }

  /** Every entry that fails the count check is reported, at error level, whether or not this is a dry run. */
  lemma {:induction false} RejectionsLogged(o: Options, zone: string, fields: seq<string>, entries: seq<string>, api: Api)
    ensures forall e :: e in entries && !Accepted(o.rtype, fields, e) ==>
      Logged(Rejection(o.rtype, fields, e)) in CreateAll(o, zone, fields, entries, api) && LevelOf(Rejection(o.rtype, fields, e)) == Error
  {
    if entries != [] {
      var init := entries[..|entries| - 1];
      RejectionsLogged(o, zone, fields, init, api);
      assert entries == init + [entries[|entries| - 1]];
    }
  }

  /** The node lookup and creation of lines 216-240, as calls. */
  function EnsureCallsOf(zone: string, node: string, dryRun: bool, rdata: Option<seq<string>>, api: Api): seq<Call> {
    var get := NodeGet(zone, node);
    if rdata.None? then [] else if api(get).success || dryRun then [get] else [get, NodeAdd(zone, node)]
  }

  /** The listing, lookup and deletion of the empty node of lines 331-363, as calls. */
  function CleanupCallsOf(zone: string, node: string, dryRun: bool, api: Api): seq<Call> {
    var list, get := RecordGet(zone, node, None), NodeGet(zone, node);
    if !api(list).item.NoItem? then [list]
    else if !api(get).success || dryRun then [list, get]
    else [list, get, NodeDelete(zone, node)]
  }

  /** After the query: the deletes unless this is a dry run, then the adds of the accepted entries or the cleanup. */
  function TailCallsOf(o: Options, zone: string, fields: seq<string>, rdata: Option<seq<string>>, api: Api): seq<Call> {
    if rdata.None? then CleanupCallsOf(zone, o.node, o.dryRun, api)
    else if o.dryRun then []
    else AddCalls(o, zone, fields, AcceptedEntries(o.rtype, fields, rdata.value))
  }

  /** The steps before the query's outcome is known: the node check when rdata is given, then the query. */
  function HeadOf(o: Options, zone: string, rdata: Option<seq<string>>, api: Api): seq<Step> {
    (if rdata.Some? then EnsureNode(zone, o.node, o.dryRun, api).1 else []) + [Called(RecordGet(zone, o.node, Some(o.rtype)))]
  }

  lemma HeadCalls(o: Options, zone: string, rdata: Option<seq<string>>, api: Api)
    ensures Calls(HeadOf(o, zone, rdata, api)) == EnsureCallsOf(zone, o.node, o.dryRun, rdata, api) + [RecordGet(zone, o.node, Some(o.rtype))]
  {
    var query := RecordGet(zone, o.node, Some(o.rtype));
    var e := if rdata.Some? then EnsureNode(zone, o.node, o.dryRun, api).1 else [];
    if rdata.Some? {
      EnsureNodeCalls(zone, o.node, o.dryRun, api);
    }
    CallsOfCall(query);
    CallsAppend(e, [Called(query)]);
  }

  lemma AfterQueryCalls(o: Options, zone: string, fields: seq<string>, rdata: Option<seq<string>>, records: seq<Record>, api: Api)
    ensures Calls(AfterQuery(o, zone, fields, rdata, records, api))
      == (if o.dryRun then [] else DeleteCalls(records)) + TailCallsOf(o, zone, fields, rdata, api)
  {
    var tail := if rdata.Some? then CreateAll(o, zone, fields, rdata.value, api) else Cleanup(zone, o.node, o.dryRun, api);
    if rdata.Some? {
      CreateAllCalls(o, zone, fields, rdata.value, api);
    } else {
      CleanupCalls(zone, o.node, o.dryRun, api);
    }
    DeleteAllCalls(records, o.rtype, o.dryRun, api);
    CallsAppend(DeleteAll(records, o.rtype, o.dryRun, api), tail);
  }

  /**
   * The calls of a run that reaches the end: the node lookup (and
   * creation) when rdata is given, the query, then, unless this is a dry
   * run, one delete per listed record, and either one add per accepted
   * entry or the empty-node cleanup.
   */
  lemma FinishedCalls(o: Options, zone: string, fields: seq<string>, rdata: Option<seq<string>>, api: Api)
    requires Reconciled(o, zone, fields, rdata, api).0 == Finished
    ensures var query := RecordGet(zone, o.node, Some(o.rtype));
      && api(query).success
      && Calls(Reconciled(o, zone, fields, rdata, api).1) ==
        EnsureCallsOf(zone, o.node, o.dryRun, rdata, api) + [query]
          + (if o.dryRun then [] else DeleteCalls(RecordsOf(api(query).item)))
          + TailCallsOf(o, zone, fields, rdata, api)
  {
    var query := RecordGet(zone, o.node, Some(o.rtype));
    var head, rest := HeadOf(o, zone, rdata, api), AfterQuery(o, zone, fields, rdata, RecordsOf(api(query).item), api);
    assert Reconciled(o, zone, fields, rdata, api).1 == head + rest;
    HeadCalls(o, zone, rdata, api);
    AfterQueryCalls(o, zone, fields, rdata, RecordsOf(api(query).item), api);
    CallsAppend(head, rest);
    AppendAssociates(Calls(head), if o.dryRun then [] else DeleteCalls(RecordsOf(api(query).item)), TailCallsOf(o, zone, fields, rdata, api));
  }

  lemma CallsOfCall(c: Call)
    ensures Calls([Called(c)]) == [c]
  {
    assert [Called(c)][..0] == [];
  }

  /** The outcome of a run: it stops early exactly when the node cannot be created or the query fails, and then with an error. */
  lemma ReconciledOutcome(o: Options, zone: string, fields: seq<string>, rdata: Option<seq<string>>, api: Api)
    ensures var get, add, query := NodeGet(zone, o.node), NodeAdd(zone, o.node), RecordGet(zone, o.node, Some(o.rtype));
      var creationFails := rdata.Some? && !api(get).success && !o.dryRun && !api(add).success;
      var run := Reconciled(o, zone, fields, rdata, api);
      && run.0 != Crashed
      && (run.0 == Aborted <==> creationFails || !api(query).success)
      && (run.0 == Aborted ==> |run.1| > 0 && run.1[|run.1| - 1].Logged? && LevelOf(run.1[|run.1| - 1].note) == Error)
  {
  }

  /** Whether the node creation of lines 226-237 fails, which ends the run. */
  predicate CreationFails(o: Options, zone: string, rdata: Option<seq<string>>, api: Api) {
    rdata.Some? && !api(NodeGet(zone, o.node)).success && !o.dryRun && !api(NodeAdd(zone, o.node)).success
  }

  /** The calls of a run that stops early: the node check, and the query unless the node could not be created. */
  lemma AbortedCalls(o: Options, zone: string, fields: seq<string>, rdata: Option<seq<string>>, api: Api)
    requires Reconciled(o, zone, fields, rdata, api).0 == Aborted
    ensures Calls(Reconciled(o, zone, fields, rdata, api).1) ==
      EnsureCallsOf(zone, o.node, o.dryRun, rdata, api)
        + (if CreationFails(o, zone, rdata, api) then [] else [RecordGet(zone, o.node, Some(o.rtype))])
  {
    var run := Reconciled(o, zone, fields, rdata, api);
    if CreationFails(o, zone, rdata, api) {
      EnsureNodeCalls(zone, o.node, o.dryRun, api);
    } else {
      var note := QueryFailed(api(RecordGet(zone, o.node, Some(o.rtype))).messages);
      assert run.1 == HeadOf(o, zone, rdata, api) + [Logged(note)];
      HeadCalls(o, zone, rdata, api);
      CallsAppend(HeadOf(o, zone, rdata, api), [Logged(note)]);
      CallsOfLog(note);
    }
  }

  lemma {:induction false} DeleteCallsAreDeletes(rs: seq<Record>)
    ensures forall c :: c in DeleteCalls(rs) ==> c.RecordDelete?
  {
    if rs != [] {
      DeleteCallsAreDeletes(rs[..|rs| - 1]);
    }
  }

  lemma {:induction false} AddCallsAreAdds(o: Options, zone: string, fields: seq<string>, entries: seq<string>)
    ensures forall c :: c in AddCalls(o, zone, fields, entries) ==> c.RecordAdd?
  {
    if entries != [] {
      AddCallsAreAdds(o, zone, fields, entries[..|entries| - 1]);
    }
  }

  /** The calls before the deletes are lookups, a node creation and the query; the creation is there exactly when it is attempted. */
  lemma PreKinds(zone: string, node: string, dryRun: bool, rdata: Option<seq<string>>, api: Api, query: Call)
    requires query.RecordGet?
    ensures var pre := EnsureCallsOf(zone, node, dryRun, rdata, api) + [query];
      && (forall c :: c in pre ==> c.NodeGet? || c.NodeAdd? || c.RecordGet?)
      && (NodeAdd(zone, node) in pre <==> rdata.Some? && !api(NodeGet(zone, node)).success && !dryRun)
      && (dryRun ==> forall c :: c in pre ==> c.NodeGet? || c.RecordGet?)
  {
  }

  /** The calls after the deletes are adds, or the cleanup, whose node deletion is its last call and happens exactly when the node is empty and exists. */
  lemma TailKinds(o: Options, zone: string, fields: seq<string>, rdata: Option<seq<string>>, api: Api)
    ensures var tail := TailCallsOf(o, zone, fields, rdata, api);
      && (forall c :: c in tail ==> c.RecordAdd? || c.RecordGet? || c.NodeGet? || c.NodeDelete?)
      && (forall i :: 0 <= i < |tail| && tail[i].NodeDelete? ==> i == |tail| - 1)
      && (NodeDelete(zone, o.node) in tail <==>
            rdata.None? && api(RecordGet(zone, o.node, None)).item.NoItem? && api(NodeGet(zone, o.node)).success && !o.dryRun)
      && (o.dryRun ==> forall c :: c in tail ==> c.RecordGet? || c.NodeGet?)
  {
    var tail := TailCallsOf(o, zone, fields, rdata, api);
    if rdata.Some? {
      AddCallsAreAdds(o, zone, fields, AcceptedEntries(o.rtype, fields, rdata.value));
    }
    forall i | 0 <= i < |tail|
      ensures tail[i].NodeDelete? ==> i == |tail| - 1
    {
      assert tail[i] in tail;
    }
  }

  /** Positions in a three-block sequence. */
  lemma BlocksAt<T>(a: seq<T>, b: seq<T>, c: seq<T>)
    ensures var s := a + b + c;
      && |s| == |a| + |b| + |c|
      && (forall k :: 0 <= k < |a| ==> s[k] == a[k])
      && (forall k :: 0 <= k < |b| ==> s[|a| + k] == b[k])
      && (forall k :: 0 <= k < |c| ==> s[|a| + |b| + k] == c[k])
  {
  }

  /** Every delete comes before every create. */
  lemma DeletesBeforeCreates(o: Options, zone: string, fields: seq<string>, rdata: Option<seq<string>>, api: Api)
    ensures var cs := Calls(Reconciled(o, zone, fields, rdata, api).1);
      forall i, j :: 0 <= i < |cs| && 0 <= j < |cs| && cs[j].RecordDelete? && cs[i].RecordAdd? ==> j < i
  {
    var run := Reconciled(o, zone, fields, rdata, api);
    var query := RecordGet(zone, o.node, Some(o.rtype));
    var pre := EnsureCallsOf(zone, o.node, o.dryRun, rdata, api) + [query];
    if run.0 == Finished {
      FinishedCalls(o, zone, fields, rdata, api);
      var dels := if o.dryRun then [] else DeleteCalls(RecordsOf(api(query).item));
      DeleteCallsAreDeletes(RecordsOf(api(query).item));
      PreKinds(zone, o.node, o.dryRun, rdata, api, query);
      TailKinds(o, zone, fields, rdata, api);
      BlocksOrdered(pre, dels, TailCallsOf(o, zone, fields, rdata, api));
    } else {
      AbortedCalls(o, zone, fields, rdata, api);
    }
  }

  lemma BlocksOrdered(pre: seq<Call>, dels: seq<Call>, tail: seq<Call>)
    requires forall c :: c in pre ==> !c.RecordDelete? && !c.RecordAdd?
    requires forall c :: c in dels ==> c.RecordDelete?
    requires forall c :: c in tail ==> !c.RecordDelete?
    ensures var cs := pre + dels + tail;
      forall i, j :: 0 <= i < |cs| && 0 <= j < |cs| && cs[j].RecordDelete? && cs[i].RecordAdd? ==> j < i
  {
    var cs := pre + dels + tail;
    forall i | 0 <= i < |pre|
      ensures !cs[i].RecordDelete? && !cs[i].RecordAdd?
    {
      assert cs[i] == pre[i] && pre[i] in pre;
    }
    forall i | |pre| <= i < |pre| + |dels|
      ensures cs[i].RecordDelete?
    {
      assert cs[i] == dels[i - |pre|] && dels[i - |pre|] in dels;
    }
    forall i | |pre| + |dels| <= i < |cs|
      ensures !cs[i].RecordDelete?
    {
      assert cs[i] == tail[i - |pre| - |dels|] && tail[i - |pre| - |dels|] in tail;
    }
  }

  /** Only the last block holds a node deletion, and there only as its last element. */
  lemma LastBlockLast(pre: seq<Call>, dels: seq<Call>, tail: seq<Call>)
    requires forall c :: c in pre + dels ==> !c.NodeDelete?
    requires forall i :: 0 <= i < |tail| && tail[i].NodeDelete? ==> i == |tail| - 1
    ensures var cs := pre + dels + tail;
      && (forall c: Call :: c.NodeDelete? ==> (c in cs <==> c in tail))
      && (forall i :: 0 <= i < |cs| && cs[i].NodeDelete? ==> i == |cs| - 1)
  {
    var cs := pre + dels + tail;
    forall i | 0 <= i < |pre| + |dels|
      ensures !cs[i].NodeDelete?
    {
      assert cs[i] == (pre + dels)[i];
      assert (pre + dels)[i] in pre + dels;
    }
    forall i | |pre| + |dels| <= i < |cs|
      ensures cs[i] == tail[i - |pre| - |dels|]
    {
    }
  }

  /** The node is created exactly when rdata is given, it does not exist, and this is no dry run. */
  lemma NodeAddedIff(o: Options, zone: string, fields: seq<string>, rdata: Option<seq<string>>, api: Api)
    ensures NodeAdd(zone, o.node) in Calls(Reconciled(o, zone, fields, rdata, api).1)
      <==> rdata.Some? && !api(NodeGet(zone, o.node)).success && !o.dryRun
  {
    var query := RecordGet(zone, o.node, Some(o.rtype));
    PreKinds(zone, o.node, o.dryRun, rdata, api, query);
    if Reconciled(o, zone, fields, rdata, api).0 == Finished {
      FinishedCalls(o, zone, fields, rdata, api);
      DeleteCallsAreDeletes(RecordsOf(api(query).item));
      TailKinds(o, zone, fields, rdata, api);
    } else {
      AbortedCalls(o, zone, fields, rdata, api);
    }
  }

  /**
   * The node is deleted exactly when no rdata is given, the run gets that
   * far, the node holds nothing, it exists, and this is no dry run.
   */
  lemma NodeDeletedIff(o: Options, zone: string, fields: seq<string>, rdata: Option<seq<string>>, api: Api)
    ensures var run := Reconciled(o, zone, fields, rdata, api);
      NodeDelete(zone, o.node) in Calls(run.1) <==>
        run.0 == Finished && rdata.None? && api(RecordGet(zone, o.node, None)).item.NoItem?
        && api(NodeGet(zone, o.node)).success && !o.dryRun
  {
    var run := Reconciled(o, zone, fields, rdata, api);
    var query := RecordGet(zone, o.node, Some(o.rtype));
    var pre := EnsureCallsOf(zone, o.node, o.dryRun, rdata, api) + [query];
    PreKinds(zone, o.node, o.dryRun, rdata, api, query);
    if run.0 == Finished {
      NodeDeleteBlocks(o, zone, fields, rdata, api);
      TailKinds(o, zone, fields, rdata, api);
    } else {
      AbortedCalls(o, zone, fields, rdata, api);
      assert forall c :: c in Calls(run.1) ==> c in pre;
    }
  }

  /** A node deletion is always the run's last call. */
  lemma NodeDeleteLast(o: Options, zone: string, fields: seq<string>, rdata: Option<seq<string>>, api: Api)
    ensures var cs := Calls(Reconciled(o, zone, fields, rdata, api).1);
      forall i :: 0 <= i < |cs| && cs[i].NodeDelete? ==> i == |cs| - 1
  {
    var run := Reconciled(o, zone, fields, rdata, api);
    var query := RecordGet(zone, o.node, Some(o.rtype));
    var pre := EnsureCallsOf(zone, o.node, o.dryRun, rdata, api) + [query];
    PreKinds(zone, o.node, o.dryRun, rdata, api, query);
    if run.0 == Finished {
      NodeDeleteBlocks(o, zone, fields, rdata, api);
    } else {
      AbortedCalls(o, zone, fields, rdata, api);
      var cs := Calls(run.1);
      forall i | 0 <= i < |cs|
        ensures !cs[i].NodeDelete?
      {
        assert cs[i] in pre;
      }
    }
  }

  /** In a finished run a node deletion can only come from the cleanup, as its last call. */
  lemma NodeDeleteBlocks(o: Options, zone: string, fields: seq<string>, rdata: Option<seq<string>>, api: Api)
    requires Reconciled(o, zone, fields, rdata, api).0 == Finished
    ensures var cs, tail := Calls(Reconciled(o, zone, fields, rdata, api).1), TailCallsOf(o, zone, fields, rdata, api);
      && (forall c: Call :: c.NodeDelete? ==> (c in cs <==> c in tail))
      && (forall i :: 0 <= i < |cs| && cs[i].NodeDelete? ==> i == |cs| - 1)
  {
    var query := RecordGet(zone, o.node, Some(o.rtype));
    var pre := EnsureCallsOf(zone, o.node, o.dryRun, rdata, api) + [query];
    var dels := if o.dryRun then [] else DeleteCalls(RecordsOf(api(query).item));
    FinishedCalls(o, zone, fields, rdata, api);
    PreKinds(zone, o.node, o.dryRun, rdata, api, query);
    DeleteCallsAreDeletes(RecordsOf(api(query).item));
    TailKinds(o, zone, fields, rdata, api);
    LastBlockLast(pre, dels, TailCallsOf(o, zone, fields, rdata, api));
  }

  /** One delete per record, the k-th for the k-th record. */
  lemma {:induction false} DeleteCallsAll(rs: seq<Record>)
    ensures forall k :: 0 <= k < |rs| ==> DeleteCalls(rs)[k] == RecordDelete(rs[k].recordId)
  {
    if rs != [] {
      DeleteCallsAll(rs[..|rs| - 1]);
    }
  }

  /** One `RecordAdd` per entry, the k-th for the k-th entry. */
  lemma {:induction false} AddCallsAll(o: Options, zone: string, fields: seq<string>, entries: seq<string>)
    ensures forall k :: 0 <= k < |entries| ==> AddCalls(o, zone, fields, entries)[k] == AddCall(o, zone, fields, entries[k])
  {
    if entries != [] {
      AddCallsAll(o, zone, fields, entries[..|entries| - 1]);
    }
  }

  /**
   * Without a dry run a finished run deletes every listed record, in their
   * order, right after the query, and then adds one formatted record per
   * accepted entry, in theirs, and calls nothing more.
   */
  lemma FinishedReplaces(o: Options, zone: string, fields: seq<string>, entries: seq<string>, api: Api)
    requires !o.dryRun && Reconciled(o, zone, fields, Some(entries), api).0 == Finished
    ensures var cs := Calls(Reconciled(o, zone, fields, Some(entries), api).1);
      var records := RecordsOf(api(RecordGet(zone, o.node, Some(o.rtype))).item);
      var accepted := AcceptedEntries(o.rtype, fields, entries);
      var p := |EnsureCallsOf(zone, o.node, o.dryRun, Some(entries), api)| + 1;
      && |cs| == p + |records| + |accepted|
      && (forall k :: 0 <= k < |records| ==> cs[p + k] == RecordDelete(records[k].recordId))
      && (forall k :: 0 <= k < |accepted| ==> cs[p + |records| + k] == AddCall(o, zone, fields, accepted[k]))
  {
    var query := RecordGet(zone, o.node, Some(o.rtype));
    var records := RecordsOf(api(query).item);
    var accepted := AcceptedEntries(o.rtype, fields, entries);
    FinishedCalls(o, zone, fields, Some(entries), api);
    DeleteCallsAll(records);
    AddCallsAll(o, zone, fields, accepted);
    BlocksAt(EnsureCallsOf(zone, o.node, o.dryRun, Some(entries), api) + [query], DeleteCalls(records), AddCalls(o, zone, fields, accepted));
  }

  /** A dry run that reaches the end calls only the lookups, the query and the cleanup's lookups. */
  lemma DryFinishedReads(o: Options, zone: string, fields: seq<string>, rdata: Option<seq<string>>, api: Api)
    requires o.dryRun && Reconciled(o, zone, fields, rdata, api).0 == Finished
    ensures forall c :: c in Calls(Reconciled(o, zone, fields, rdata, api).1) ==> c.NodeGet? || c.RecordGet?
  {
    var query := RecordGet(zone, o.node, Some(o.rtype));
    var pre := EnsureCallsOf(zone, o.node, o.dryRun, rdata, api) + [query];
    PreKinds(zone, o.node, o.dryRun, rdata, api, query);
    FinishedCalls(o, zone, fields, rdata, api);
    TailKinds(o, zone, fields, rdata, api);
    assert Calls(Reconciled(o, zone, fields, rdata, api).1) == pre + TailCallsOf(o, zone, fields, rdata, api);
  }

  /** A dry run that stops early has called only the node lookup and the query. */
  lemma DryAbortedReads(o: Options, zone: string, fields: seq<string>, rdata: Option<seq<string>>, api: Api)
    requires o.dryRun && Reconciled(o, zone, fields, rdata, api).0 != Finished
    ensures forall c :: c in Calls(Reconciled(o, zone, fields, rdata, api).1) ==> c.NodeGet? || c.RecordGet?
  {
    var query := RecordGet(zone, o.node, Some(o.rtype));
    var pre := EnsureCallsOf(zone, o.node, o.dryRun, rdata, api) + [query];
    PreKinds(zone, o.node, o.dryRun, rdata, api, query);
    ReconciledOutcome(o, zone, fields, rdata, api);
    AbortedCalls(o, zone, fields, rdata, api);
    assert forall c :: c in Calls(Reconciled(o, zone, fields, rdata, api).1) ==> c in pre;
  }

  /** A dry run only reads: every call it makes is a lookup or a query. */
  lemma DryRunReadOnly(o: Options, zone: string, fields: seq<string>, rdata: Option<seq<string>>, api: Api)
    requires o.dryRun
    ensures forall c :: c in Calls(Reconciled(o, zone, fields, rdata, api).1) ==> !Mutates(c) && (c.NodeGet? || c.RecordGet?)
  {
    if Reconciled(o, zone, fields, rdata, api).0 == Finished {
      DryFinishedReads(o, zone, fields, rdata, api);
    } else {
      DryAbortedReads(o, zone, fields, rdata, api);
    }
  }

  /** A dry run announces the node it would create and the empty node it would delete. */
  lemma DryNodeAnnounced(o: Options, zone: string, fields: seq<string>, rdata: Option<seq<string>>, api: Api)
    requires o.dryRun
    ensures var run, get := Reconciled(o, zone, fields, rdata, api), NodeGet(zone, o.node);
      && (rdata.Some? && !api(get).success ==> Logged(WillCreateNode(zone, o.node)) in run.1)
      && (rdata.None? && api(RecordGet(zone, o.node, Some(o.rtype))).success
          && api(RecordGet(zone, o.node, None)).item.NoItem? && api(get).success ==>
            run.1[|run.1| - 1] == Logged(WillDeleteNode(zone, o.node)))
  {
    var run, query := Reconciled(o, zone, fields, rdata, api), RecordGet(zone, o.node, Some(o.rtype));
    if rdata.Some? && !api(NodeGet(zone, o.node)).success {
      assert HeadOf(o, zone, rdata, api)[1] == Logged(WillCreateNode(zone, o.node));
      assert run.1[1] == HeadOf(o, zone, rdata, api)[1];
    }
  }

  /**
   * The script dies before any call exactly when no zone was given and the
   * node has no dot; otherwise it runs on the given or derived zone, with
   * the field list of the record type and the rdata list of the arguments.
   */
  lemma ScriptStarts(o: Options, argv: seq<string>, api: Api)
    ensures Script(o, argv, api).0 == Crashed <==> o.zone.None? && '.' !in o.node
    ensures Script(o, argv, api).0 == Crashed ==> Script(o, argv, api).1 == []
    ensures Zone(o).Some? ==>
      Script(o, argv, api) == Reconciled(o, Zone(o).value, RdataHashOpts(o.rtype), RdataList(argv), api)
  {
    ZoneOfSuffix(o.node);
    if Zone(o).Some? {
      ReconciledOutcome(o, Zone(o).value, RdataHashOpts(o.rtype), RdataList(argv), api);
    }
  }

  /** A dry run of the whole script never changes the zone. */
  lemma ScriptDryRunReadOnly(o: Options, argv: seq<string>, api: Api)
    requires o.dryRun
    ensures forall c :: c in Calls(Script(o, argv, api).1) ==> !Mutates(c)
  {
    if Zone(o).Some? {
      DryRunReadOnly(o, Zone(o).value, RdataHashOpts(o.rtype), RdataList(argv), api);
    }
  }

  // ---------------------------------------------------------------------
  // The script, step by step

  /** The SOAP client as the script uses it: each call is answered by `api` and recorded, as is each log line. */
  class Soap {
    const api: Api
    var trace: seq<Step>

    constructor (api: Api)
      ensures this.api == api && trace == []
    {
      this.api := api;
      trace := [];
    }

    /** `soap_call`: send the call and keep its reply. */
    method SoapCall(c: Call) returns (r: Reply)
      modifies this
      ensures r == api(c) && trace == old(trace) + [Called(c)]
    {
      r := api(c);
      trace := trace + [Called(c)];
    }

    /** `log.warn` / `log.error`. */
    method Log(n: Note)
      modifies this
      ensures trace == old(trace) + [Logged(n)]
    {
      trace := trace + [Logged(n)];
    }
  }

  /** Lines 216-240. */
  method EnsureNodeExists(s: Soap, zone: string, node: string, dryRun: bool) returns (ok: bool)
    modifies s
    ensures var e := EnsureNode(zone, node, dryRun, s.api); ok == e.0 && s.trace == old(s.trace) + e.1
  {
    var r := s.SoapCall(NodeGet(zone, node));
    ok := true;
    if !r.success {
      if dryRun {
        s.Log(WillCreateNode(zone, node));
      } else {
        r := s.SoapCall(NodeAdd(zone, node));
        if r.success {
          s.Log(CreatedNode(zone, node));
        } else {
          s.Log(NodeNotCreated(zone, node, r.messages));
          ok := false;
        }
      }
    }
  }

  /** The body of the delete loop, lines 265-277. */
  method DeleteRecord(s: Soap, r: Record, rtype: string, dryRun: bool)
    modifies s
    ensures s.trace == old(s.trace) + DeleteOne(r, rtype, dryRun, s.api)
  {
    if dryRun {
      s.Log(WillDeleteRecord(r.node, rtype, r.recordId));
    } else {
      var reply := s.SoapCall(RecordDelete(r.recordId));
      if reply.success {
        s.Log(DeletedRecord(r.node, rtype, r.recordId));
      } else {
        s.Log(RecordNotDeleted(r.node, rtype, r.recordId, reply.messages));
      }
    }
  }

  /** `records.each`, lines 262-278. */
  method DeleteRecords(s: Soap, records: seq<Record>, rtype: string, dryRun: bool)
    modifies s
    ensures s.trace == old(s.trace) + DeleteAll(records, rtype, dryRun, s.api)
  {
    var i := 0;
    while i < |records|
      invariant 0 <= i <= |records|
      invariant s.trace == old(s.trace) + DeleteAll(records[..i], rtype, dryRun, s.api)
    {
      assert records[..i + 1][..i] == records[..i];
      DeleteRecord(s, records[i], rtype, dryRun);
      AppendAssociates(old(s.trace), DeleteAll(records[..i], rtype, dryRun, s.api), DeleteOne(records[i], rtype, dryRun, s.api));
      i := i + 1;
    }
    assert records[..i] == records;
  }

  /** The body of the create loop, lines 285-325. */
  method CreateRecord(s: Soap, o: Options, zone: string, fields: seq<string>, entry: string)
    modifies s
    ensures s.trace == old(s.trace) + CreateOne(o, zone, fields, entry, s.api)
  {
    var tokens := Words(entry);
    if |tokens| != |fields| && o.rtype != "TXT" {
      s.Log(WrongCount(o.rtype, |fields|, Join(fields, ", "), |tokens|, Join(tokens, ", ")));
    } else {
      var rdata := FormatRdata(o.rtype, fields, entry);
      if o.dryRun {
        s.Log(WillCreateRecord(zone, o.node, o.ttl, o.rtype, entry));
      } else {
        var reply := s.SoapCall(RecordAdd(zone, o.node, o.rtype, o.ttl, rdata));
        if reply.success {
          s.Log(CreatedRecord(zone, o.node, o.ttl, o.rtype, entry));
        } else {
          s.Log(RecordNotCreated(zone, o.node, o.ttl, o.rtype, entry, reply.messages));
        }
      }
    }
  }

  /** `options[:rdata].each`, lines 282-327. */
  method CreateRecords(s: Soap, o: Options, zone: string, fields: seq<string>, entries: seq<string>)
    modifies s
    ensures s.trace == old(s.trace) + CreateAll(o, zone, fields, entries, s.api)
  {
    var i := 0;
    while i < |entries|
      invariant 0 <= i <= |entries|
      invariant s.trace == old(s.trace) + CreateAll(o, zone, fields, entries[..i], s.api)
    {
      assert entries[..i + 1][..i] == entries[..i];
      CreateRecord(s, o, zone, fields, entries[i]);
      AppendAssociates(old(s.trace), CreateAll(o, zone, fields, entries[..i], s.api), CreateOne(o, zone, fields, entries[i], s.api));
      i := i + 1;
    }
    assert entries[..i] == entries;
  }

  /** Lines 331-363. */
  method RemoveEmptyNode(s: Soap, zone: string, node: string, dryRun: bool)
    modifies s
    ensures s.trace == old(s.trace) + Cleanup(zone, node, dryRun, s.api)
  {
    var r := s.SoapCall(RecordGet(zone, node, None));
    if r.item.NoItem? {
      r := s.SoapCall(NodeGet(zone, node));
      if r.success {
        if dryRun {
          s.Log(WillDeleteNode(zone, node));
        } else {
          r := s.SoapCall(NodeDelete(zone, node));
          if r.success {
            s.Log(DeletedNode(zone, node));
          } else {
            s.Log(NodeNotDeleted(zone, node, r.messages));
          }
        }
      }
    }
  }

  /** Lines 262-363. */
  method FinishRun(s: Soap, o: Options, zone: string, fields: seq<string>, rdata: Option<seq<string>>, records: seq<Record>)
    modifies s
    ensures s.trace == old(s.trace) + AfterQuery(o, zone, fields, rdata, records, s.api)
  {
    ghost var before := s.trace;
    DeleteRecords(s, records, o.rtype, o.dryRun);
    ghost var deletes := DeleteAll(records, o.rtype, o.dryRun, s.api);
    if rdata.Some? {
      CreateRecords(s, o, zone, fields, rdata.value);
      AppendAssociates(before, deletes, CreateAll(o, zone, fields, rdata.value, s.api));
    } else {
      RemoveEmptyNode(s, zone, o.node, o.dryRun);
      AppendAssociates(before, deletes, Cleanup(zone, o.node, o.dryRun, s.api));
    }
  }

  /** Lines 215-363. */
  method Reconcile(s: Soap, o: Options, zone: string, fields: seq<string>, rdata: Option<seq<string>>) returns (outcome: Outcome)
    modifies s
    ensures var run := Reconciled(o, zone, fields, rdata, s.api); outcome == run.0 && s.trace == old(s.trace) + run.1
  {
    ghost var before := s.trace;
    ghost var ensure := if rdata.Some? then EnsureNode(zone, o.node, o.dryRun, s.api) else (true, []);
    if rdata.Some? {
      var ok := EnsureNodeExists(s, zone, o.node, o.dryRun);
      if !ok {
        return Aborted;
      }
    }
    var query := RecordGet(zone, o.node, Some(o.rtype));
    var reply := s.SoapCall(query);
    ghost var head := ensure.1 + [Called(query)];
    AppendAssociates(before, ensure.1, [Called(query)]);
    if !reply.success {
      s.Log(QueryFailed(reply.messages));
      AppendAssociates(before, head, [Logged(QueryFailed(reply.messages))]);
      return Aborted;
    }
    FinishRun(s, o, zone, fields, rdata, RecordsOf(reply.item));
    AppendAssociates(before, head, AfterQuery(o, zone, fields, rdata, RecordsOf(reply.item), s.api));
    outcome := Finished;
  }

  /** Lines 205-207: `-z`, or the text after the node's first dot. */
  method DefaultZone(o: Options) returns (zone: Option<string>)
    ensures zone == Zone(o)
  {
    zone := o.zone;
    if zone.None? {
      var i := FirstDot(o.node);
      if i.Some? {
        zone := Some(o.node[i.value + 1..]);
      }
    }
  }

  /** The script from the zone default to its end, lines 205-363. */
  method Run(o: Options, argv: seq<string>, s: Soap) returns (outcome: Outcome)
    modifies s
    ensures var run := Script(o, argv, s.api); outcome == run.0 && s.trace == old(s.trace) + run.1
  {
    var zone := DefaultZone(o);
    if zone.None? {
      return Crashed;
    }
    var rdata := RdataList(argv);
    outcome := Reconcile(s, o, zone.value, RdataHashOpts(o.rtype), rdata);
  }
}
