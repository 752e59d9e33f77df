/**
 * The pieces of the command-line client's `Dynect::Client` that do not
 * talk to SOAP: the field order it sends per record type, and the
 * `response_messages` summary built from a reply's messages and errors.
 */
module SoapClient {
  import opened Wrappers
  import opened RubyText
  import opened OrderedHash
  import DynectRecords

  /** `rdata_hash_opts`: the SOAP field names per record type, in order; unknown types have none. */
  function RdataHashOpts(rtype: string): seq<string> {
    if rtype == "A" || rtype == "AAAA" then ["address"]
    else if rtype == "CNAME" then ["cname"]
    else if rtype == "KEY" then ["flags", "protocol", "algorithm", "public_key"]
    else if rtype == "LOC" then ["latitude", "longitude", "altitude", "size", "horiz_pre", "vert_pre"]
    else if rtype == "MX" then ["preference", "exchange"]
    else if rtype == "NS" then ["nsdname"]
    else if rtype == "PTR" then ["ptrdname"]
    else if rtype == "SOA" then ["mname", "rname", "serial", "refresh", "retry", "expire", "minimum"]
    else if rtype == "SRV" then ["priority", "weight", "port", "target"]
    else if rtype == "TXT" then ["txtdata"]
    else []
  }

  /** No row names a field twice, so folding tokens onto a row never overwrites one. */
  lemma RdataHashOptsDistinct(rtype: string)
    ensures Distinct(RdataHashOpts(rtype))
  {
    var f := RdataHashOpts(rtype);
    if rtype == "KEY" {
      assert f == ["flags", "protocol", "algorithm", "public_key"];
      assert |f[0]| == 5 && |f[1]| == 8 && |f[2]| == 9 && |f[3]| == 10;
    } else if rtype == "LOC" {
      assert f == ["latitude", "longitude", "altitude", "size", "horiz_pre", "vert_pre"];
      assert |f[0]| == 8 && |f[1]| == 9 && |f[2]| == 8 && |f[3]| == 4 && |f[4]| == 9 && |f[5]| == 8;
      assert f[0][0] == 'l' && f[1][0] == 'l' && f[2][0] == 'a' && f[4][0] == 'h' && f[5][0] == 'v';
    } else if rtype == "MX" {
      assert |f[0]| == 10 && |f[1]| == 8;
    } else if rtype == "SOA" {
      assert f == ["mname", "rname", "serial", "refresh", "retry", "expire", "minimum"];
      assert |f[0]| == 5 && |f[1]| == 5 && |f[2]| == 6 && |f[3]| == 7 && |f[4]| == 5 && |f[5]| == 6 && |f[6]| == 7;
      assert f[0][0] == 'm' && f[1][0] == 'r' && f[4][0] == 'r' && f[1][1] == 'n' && f[4][1] == 'e';
      assert f[2][0] == 's' && f[5][0] == 'e' && f[3][0] == 'r' && f[6][0] == 'm';
    } else if rtype == "SRV" {
      assert f == ["priority", "weight", "port", "target"];
      assert |f[0]| == 8 && |f[1]| == 6 && |f[2]| == 4 && f[1][0] == 'w' && f[3][0] == 't';
    }
  }

  /**
   * Where this table and the REST library's disagree: it has no DS, RP or
   * DNSKEY row, wants all seven SOA fields, and orders LOC by position
   * first.
   */
  lemma TablesDisagree()
    ensures RdataHashOpts("DS") == [] && |DynectRecords.LibFields("DS")| == 4
    ensures RdataHashOpts("RP") == [] && |DynectRecords.LibFields("RP")| == 2
    ensures RdataHashOpts("DNSKEY") == [] && |DynectRecords.LibFields("DNSKEY")| == 4
    ensures |RdataHashOpts("SOA")| == 7 && DynectRecords.LibFields("SOA") == ["rname"]
    ensures RdataHashOpts("LOC")[0] == "latitude" && DynectRecords.LibFields("LOC")[0] == "version"
  {
  }

  /** Every other row of the two tables is the same. */
  lemma TablesAgree(t: string)
    requires t in ["A", "AAAA", "CNAME", "KEY", "MX", "NS", "PTR", "SRV", "TXT"]
    ensures RdataHashOpts(t) == DynectRecords.LibFields(t)
  {
  }

  /** `"%s: %s" % [k, v]`. */
  function Entry(kv: (string, string)): string {
    kv.0 + ": " + kv.1
  }

  /** One entry per pair, in the hash's order. */
  function Entries(kvs: Hash<string, string>): (es: seq<string>)
    ensures |es| == |kvs|
  {
    if kvs == [] then [] else Entries(kvs[..|kvs| - 1]) + [Entry(kvs[|kvs| - 1])]
  }

  /** Entry i renders pair i. */
  lemma {:induction false} EntriesAt(kvs: Hash<string, string>, i: nat)
    requires i < |kvs|
    ensures Entries(kvs)[i] == Entry(kvs[i])
  {
    if i < |kvs| - 1 {
      EntriesAt(kvs[..|kvs| - 1], i);
    }
  }

  /** A missing (`nil`) hash contributes nothing. */
  function Present(kvs: Option<Hash<string, string>>): Hash<string, string> {
    if kvs.Some? then kvs.value else []
  }

  /** The entries `soap_call` collects: the messages first, then the errors. */
  function MessageList(messages: Option<Hash<string, string>>, errors: Option<Hash<string, string>>): seq<string> {
    Entries(Present(messages)) + Entries(Present(errors))
  }

  /** Every message comes before every error, each rendered as `key: value`. */
  lemma MessageListOrder(messages: Option<Hash<string, string>>, errors: Option<Hash<string, string>>)
    ensures var m, e, l := Present(messages), Present(errors), MessageList(messages, errors);
      && |l| == |m| + |e|
      && (forall i :: 0 <= i < |m| ==> l[i] == Entry(m[i]))
      && (forall j :: 0 <= j < |e| ==> l[|m| + j] == Entry(e[j]))
  {
    var m, e := Present(messages), Present(errors);
    forall i | 0 <= i < |m|
      ensures MessageList(messages, errors)[i] == Entry(m[i])
    {
      EntriesAt(m, i);
    }
    forall j | 0 <= j < |e|
      ensures MessageList(messages, errors)[|m| + j] == Entry(e[j])
    {
      EntriesAt(e, j);
    }
  }

  /** Appends one entry per pair to `list`. */
  method AppendEntries(list: seq<string>, kvs: Hash<string, string>) returns (out: seq<string>)
    ensures out == list + Entries(kvs)
  {
    out := list;
    var i := 0;
    while i < |kvs|
      invariant 0 <= i <= |kvs|
      invariant out == list + Entries(kvs[..i])
    {
      assert kvs[..i + 1][..i] == kvs[..i];
      out := out + [Entry(kvs[i])];
      i := i + 1;
    }
    assert kvs[..i] == kvs;
  }

  /** `response_messages`: the collected entries joined with `", "`. */
  method ResponseMessages(messages: Option<Hash<string, string>>, errors: Option<Hash<string, string>>)
    returns (text: string)
    ensures text == Join(MessageList(messages, errors), ", ")
  {
    var list: seq<string> := [];
    if messages.Some? {
      list := AppendEntries(list, messages.value);
    }
    assert list == Entries(Present(messages));
    if errors.Some? {
      list := AppendEntries(list, errors.value);
    }
    assert list == MessageList(messages, errors);
    text := Join(list, ", ");
  }
}
