/**
 * What the command-line client derives from its arguments before and while
 * it talks to the API: the default zone, the list of rdata entries, the
 * per-entry field-count check and the rdata hash sent with `RecordAdd`.
 */
module CliInput {
  import opened Wrappers
  import opened RubyText
  import opened OrderedHash
  import opened SoapClient

  /** `s.index('.')`: the position of the first dot, or `nil`. */
  function FirstDot(s: string): (r: Option<nat>)
    ensures r.Some? ==> r.value < |s|
  {
    if s == [] then None
    else if s[0] == '.' then Some(0)
    else match FirstDot(s[1..])
      case None => None
      case Some(i) => Some(i + 1)
  }

  /** `index` finds the first dot, and finds none only when there is none. */
  lemma {:induction false} FirstDotIsFirst(s: string)
    ensures FirstDot(s).None? <==> '.' !in s
    ensures FirstDot(s).Some? ==> s[FirstDot(s).value] == '.' && '.' !in s[..FirstDot(s).value]
  {
    if s != [] && s[0] != '.' {
      FirstDotIsFirst(s[1..]);
      assert s == [s[0]] + s[1..];
      if FirstDot(s).Some? {
        assert s[..FirstDot(s).value] == [s[0]] + s[1..][..FirstDot(s[1..]).value];
      }
    }
  }

  /** `node[(node.index('.') + 1)..-1]`; `None` is the `NoMethodError` a node without a dot raises. */
  function ZoneOf(node: string): Option<string> {
    match FirstDot(node)
    case None => None
    case Some(i) => Some(node[i + 1..])
  }

  /** The default zone is what follows the node's first label, and exists exactly when the node has a dot. */
  lemma ZoneOfSuffix(node: string)
    ensures ZoneOf(node).Some? <==> '.' in node
    ensures ZoneOf(node).Some? ==>
      var z := ZoneOf(node).value;
      var host := node[..|node| - |z| - 1];
      node == host + "." + z && '.' !in host
  {
    FirstDotIsFirst(node);
    if ZoneOf(node).Some? {
      var i := FirstDot(node).value;
      assert node == node[..i] + "." + node[i + 1..];
    }
  }

  /** `ARGV.join(' ').split(',')` when arguments were given, `nil` otherwise. */
  function RdataList(argv: seq<string>): Option<seq<string>> {
    if |argv| > 0 then Some(Split(Join(argv, " "), ',')) else None
  }

  /**
   * The list exists exactly when there are arguments; no entry holds a
   * comma; and arguments without commas make one entry, their
   * space-joined text.
   */
  lemma RdataListEntries(argv: seq<string>)
    ensures RdataList(argv).Some? <==> |argv| > 0
    ensures RdataList(argv).Some? ==>
      forall i :: 0 <= i < |RdataList(argv).value| ==> ',' !in RdataList(argv).value[i]
    ensures |argv| > 0 && ',' !in Join(argv, " ") && Join(argv, " ") != "" ==>
      RdataList(argv) == Some([Join(argv, " ")])
  {
    SplitAvoids(Join(argv, " "), ',');
    if |argv| > 0 && ',' !in Join(argv, " ") && Join(argv, " ") != "" {
      SplitNoSeparator(Join(argv, " "), ',');
    }
  }

  /** The count check: an entry is used when its token count matches the schema, and always for TXT. */
  predicate Accepted(rtype: string, fields: seq<string>, entry: string) {
    |Words(entry)| == |fields| || rtype == "TXT"
  }

  /** A value of the rdata hash: one token, or the token list of a TXT record. */
  datatype RdataValue = Single(text: string) | Quoted(parts: seq<string>)

  /** The rdata hash `RecordAdd` receives. */
  type RdataHash = Hash<Option<string>, RdataValue>

  /** Each token as a single value. */
  function Singles(tokens: seq<string>): (vs: seq<RdataValue>)
    ensures |vs| == |tokens|
  {
    if tokens == [] then [] else [Single(tokens[0])] + Singles(tokens[1..])
  }

  lemma {:induction false} SinglesAt(tokens: seq<string>, i: nat)
    requires i < |tokens|
    ensures Singles(tokens)[i] == Single(tokens[i])
  {
    if i > 0 {
      SinglesAt(tokens[1..], i - 1);
    }
  }

  /** `rdata_formatted`: TXT puts `''` and then every token under the first field; other types fold the tokens onto the fields. */
  function Formatted(rtype: string, fields: seq<string>, entry: string): RdataHash {
    var tokens := Words(entry);
    if rtype == "TXT" then [(At(fields, 0), Quoted([""] + tokens))]
    else PositionalFold(fields, [], Singles(tokens))
  }

  /** A TXT entry becomes `txtdata => ['', token1, ..., tokenN]`. */
  lemma TxtFormatted(entry: string)
    ensures Formatted("TXT", RdataHashOpts("TXT"), entry) == [(Some("txtdata"), Quoted([""] + Words(entry)))]
  {
  }

  /** An accepted entry of any other type pairs token i with field i, an exact zip. */
  lemma AcceptedFormatted(rtype: string, entry: string)
    requires rtype != "TXT" && Accepted(rtype, RdataHashOpts(rtype), entry)
    ensures var f, fields, tokens := Formatted(rtype, RdataHashOpts(rtype), entry), RdataHashOpts(rtype), Words(entry);
      && |f| == |fields|
      && forall i :: 0 <= i < |f| ==> f[i] == (Some(fields[i]), Single(tokens[i]))
  {
    var fields, tokens := RdataHashOpts(rtype), Words(entry);
    RdataHashOptsDistinct(rtype);
    PositionalFoldZips(fields, Singles(tokens));
    forall i | 0 <= i < |tokens|
      ensures Singles(tokens)[i] == Single(tokens[i])
    {
      SinglesAt(tokens, i);
    }
  }

  /** Builds `rdata_formatted` with the script's two `each` loops. */
  method FormatRdata(rtype: string, fields: seq<string>, entry: string) returns (f: RdataHash)
    ensures f == Formatted(rtype, fields, entry)
  {
    var tokens := Words(entry);
    var i := 0;
    if rtype == "TXT" {
      var parts := [""];
      while i < |tokens|
        invariant 0 <= i <= |tokens|
        invariant parts == [""] + tokens[..i]
      {
        assert tokens[..i + 1] == tokens[..i] + [tokens[i]];
        parts := parts + [tokens[i]];
        i := i + 1;
      }
      assert tokens[..i] == tokens;
      f := [(At(fields, 0), Quoted(parts))];
    } else {
      f := [];
      while i < |tokens|
        invariant 0 <= i <= |tokens|
        invariant PositionalFold(fields, f, Singles(tokens[i..])) == PositionalFold(fields, [], Singles(tokens))
      {
        assert tokens[i..][1..] == tokens[i + 1..];
        f := Put(f, At(fields, |f|), Single(tokens[i]));
        i := i + 1;
      }
      assert tokens[i..] == [];
    }
  }
}
