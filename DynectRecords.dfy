/**
 * The record-type helpers of the REST library: the resource name of a
 * record type and the positional argument hash built from its rdata.
 */
module DynectRecords {
  import opened Wrappers
  import opened RubyText
  import opened OrderedHash

  /** `rtype_to_resource`: the upcased type followed by `Record`. */
  function RtypeToResource(rtype: string): string {
    Upcase(rtype) + "Record"
  }

  /** The resource is the upcased type with `Record` appended, character by character. */
  lemma RtypeToResourceShape(rtype: string)
    ensures var r := RtypeToResource(rtype);
      && |r| == |rtype| + 6
      && r[|rtype|..] == "Record"
      && (forall i :: 0 <= i < |rtype| ==> r[i] == UpcaseChar(rtype[i]))
  {
    assert RtypeToResource(rtype)[|rtype|..] == "Record";
  }

  /** Two record types name the same resource exactly when they agree up to case. */
  lemma RtypeToResourceCaseBlind(a: string, b: string)
    ensures RtypeToResource(a) == RtypeToResource(b) <==> Upcase(a) == Upcase(b)
  {
    if RtypeToResource(a) == RtypeToResource(b) {
      assert |a| == |b|;
      assert Upcase(a) == RtypeToResource(a)[..|a|];
      assert Upcase(b) == RtypeToResource(b)[..|b|];
    }
  }

  /** The LOC names as the library writes them: a missing comma fuses `vert_pre` and `latitude`. */
  const LocFieldsAsWritten: seq<string> :=
    ["version", "size", "horiz_pre", "vert_pre" + "latitude", "longitude", "altitude"]

  /** The seven LOC names the list evidently means. */
  const LocFieldsIntended: seq<string> :=
    ["version", "size", "horiz_pre", "vert_pre", "latitude", "longitude", "altitude"]

  /** The schema table of `args_for_rtype`, with `loc` in the LOC row; unknown types have no fields. */
  function SchemaWith(loc: seq<string>, rtype: string): seq<string> {
    if rtype == "A" || rtype == "AAAA" then ["address"]
    else if rtype == "CNAME" then ["cname"]
    else if rtype == "DNSKEY" || rtype == "KEY" then ["flags", "protocol", "algorithm", "public_key"]
    else if rtype == "DS" then ["keytag", "algorithm", "digtype", "digest"]
    else if rtype == "LOC" then loc
    else if rtype == "MX" then ["preference", "exchange"]
    else if rtype == "NS" then ["nsdname"]
    else if rtype == "PTR" then ["ptrdname"]
    else if rtype == "RP" then ["mbox", "txtdname"]
    else if rtype == "SOA" then ["rname"]
    else if rtype == "SRV" then ["priority", "weight", "port", "target"]
    else if rtype == "TXT" then ["txtdata"]
    else []
  }

  /** The field names of `args_for_rtype` as written. */
  function LibFields(rtype: string): seq<string> {
    SchemaWith(LocFieldsAsWritten, rtype)
  }

  /** The same table with the LOC row as intended. */
  function LibFieldsFixed(rtype: string): seq<string> {
    SchemaWith(LocFieldsIntended, rtype)
  }

  /** `args_for_rtype` over a given table: TXT keeps the rdata whole, other types fold its tokens onto the names. */
  function ArgsWith(fields: seq<string>, rtype: string, rdata: string): Hash<Option<string>, string> {
    if rtype == "TXT" then [(At(fields, 0), rdata)]
    else PositionalFold(fields, [], Words(rdata))
  }

  /** `args_for_rtype(rtype, rdata)` as written. */
  function ArgsForRtype(rtype: string, rdata: string): Hash<Option<string>, string> {
    ArgsWith(LibFields(rtype), rtype, rdata)
  }

  /** `args_for_rtype` with the LOC row as intended. */
  function ArgsForRtypeFixed(rtype: string, rdata: string): Hash<Option<string>, string> {
    ArgsWith(LibFieldsFixed(rtype), rtype, rdata)
  }

  /** Every row of the table names each field once, whichever LOC row it holds. */
  lemma SchemaDistinct(loc: seq<string>, rtype: string)
    requires Distinct(loc)
    ensures Distinct(SchemaWith(loc, rtype))
  {
    var f := SchemaWith(loc, rtype);
    if rtype == "DNSKEY" || rtype == "KEY" {
      assert f == ["flags", "protocol", "algorithm", "public_key"];
      assert |f[0]| == 5 && |f[1]| == 8 && |f[2]| == 9 && |f[3]| == 10;
    } else if rtype == "DS" {
      assert f == ["keytag", "algorithm", "digtype", "digest"];
      assert |f[0]| == 6 && |f[1]| == 9 && |f[2]| == 7 && f[3][1] == 'i' && f[0][1] == 'e';
    } else if rtype == "MX" {
      assert |f[0]| == 10 && |f[1]| == 8;
    } else if rtype == "RP" {
      assert |f[0]| == 4 && |f[1]| == 8;
    } else if rtype == "SRV" {
      assert f == ["priority", "weight", "port", "target"];
      assert |f[0]| == 8 && |f[1]| == 6 && |f[2]| == 4 && f[1][0] == 'w' && f[3][0] == 't';
    }
  }

  lemma LocAsWrittenDistinct()
    ensures Distinct(LocFieldsAsWritten)
  {
    var f := LocFieldsAsWritten;
    assert |f[0]| == 7 && |f[1]| == 4 && |f[2]| == 9 && |f[3]| == 16 && |f[4]| == 9 && |f[5]| == 8;
    assert f[2][0] == 'h' && f[4][0] == 'l';
  }

  lemma LocIntendedDistinct()
    ensures Distinct(LocFieldsIntended)
  {
    var f := LocFieldsIntended;
    assert |f[0]| == 7 && |f[1]| == 4 && |f[2]| == 9 && |f[3]| == 8 && |f[4]| == 8 && |f[5]| == 9 && |f[6]| == 8;
    assert f[2][0] == 'h' && f[5][0] == 'l' && f[3][0] == 'v' && f[4][0] == 'l' && f[6][0] == 'a';
  }

  /** TXT rdata is passed through whole under `txtdata`, whatever whitespace it holds. */
  lemma TxtArgsVerbatim(rdata: string)
    ensures ArgsForRtype("TXT", rdata) == [(Some("txtdata"), rdata)]
    ensures ArgsForRtypeFixed("TXT", rdata) == [(Some("txtdata"), rdata)]
  {
  }

  /** Other types: with no more tokens than names, token i is stored under name i and nothing else. */
  lemma ArgsZipTokens(rtype: string, rdata: string)
    requires rtype != "TXT" && |Words(rdata)| <= |LibFields(rtype)|
    ensures ArgsForRtype(rtype, rdata) == Zip(LibFields(rtype), Words(rdata))
  {
    LocAsWrittenDistinct();
    SchemaDistinct(LocFieldsAsWritten, rtype);
    PositionalFoldZips(LibFields(rtype), Words(rdata));
  }

  /** There is no count check: surplus tokens collapse into one `nil` key holding the last of them. */
  lemma ArgsOverflow(rtype: string, rdata: string)
    requires rtype != "TXT" && |Words(rdata)| > |LibFields(rtype)|
    ensures var ws := Words(rdata);
      ArgsForRtype(rtype, rdata) == Zip(LibFields(rtype), ws[..|LibFields(rtype)|]) + [(None, ws[|ws| - 1])]
  {
    LocAsWrittenDistinct();
    SchemaDistinct(LocFieldsAsWritten, rtype);
    PositionalFoldOverflows(LibFields(rtype), Words(rdata));
  }

  /** The corrected table pairs tokens with names the same way. */
  lemma ArgsFixedZipTokens(rtype: string, rdata: string)
    requires rtype != "TXT" && |Words(rdata)| <= |LibFieldsFixed(rtype)|
    ensures ArgsForRtypeFixed(rtype, rdata) == Zip(LibFieldsFixed(rtype), Words(rdata))
  {
    LocIntendedDistinct();
    SchemaDistinct(LocFieldsIntended, rtype);
    PositionalFoldZips(LibFieldsFixed(rtype), Words(rdata));
  }

  /** A type outside the table has no fields, so all its tokens end up under one `nil` key. */
  lemma UnknownTypeArgs(rtype: string, rdata: string)
    requires rtype !in ["A", "AAAA", "CNAME", "DNSKEY", "KEY", "DS", "LOC", "MX", "NS", "PTR", "RP", "SOA", "SRV", "TXT"]
    ensures LibFields(rtype) == []
    ensures var ws := Words(rdata);
      ArgsForRtype(rtype, rdata) == if ws == [] then [] else [(None, ws[|ws| - 1])]
  {
    assert LibFields(rtype) == [];
    if Words(rdata) != [] {
      ArgsOverflow(rtype, rdata);
      assert Zip([], Words(rdata)[..0]) == [];
    }
  }

  /**
   * The library's LOC row has six names: for the seven values of a LOC
   * record the fourth is stored under `vert_prelatitude` and the seventh
   * under `nil`, and `latitude` is never a key.
   */
  lemma LocAsWrittenMisfiles(ws: seq<string>)
    requires |ws| == 7 && forall i :: 0 <= i < 7 ==> IsToken(ws[i])
    ensures var args := ArgsForRtype("LOC", Join(ws, " "));
      && args == Zip(LocFieldsAsWritten, ws[..6]) + [(None, ws[6])]
      && args[3] == (Some("vert_prelatitude"), ws[3])
      && forall i :: 0 <= i < |args| ==> args[i].0 != Some("latitude")
  {
    WordsOfJoin(ws);
    ArgsOverflow("LOC", Join(ws, " "));
    var args := ArgsForRtype("LOC", Join(ws, " "));
    assert "vert_pre" + "latitude" == "vert_prelatitude";
    forall i | 0 <= i < |args|
      ensures args[i].0 != Some("latitude")
    {
      if i < 6 {
        assert args[i].0 == Some(LocFieldsAsWritten[i]);
        assert |LocFieldsAsWritten[i]| != 8 || LocFieldsAsWritten[i][0] != 'l';
      }
    }
  }

  /** With the intended row the seven values land under the seven names, `latitude` fifth. */
  lemma LocFixedFiles(ws: seq<string>)
    requires |ws| == 7 && forall i :: 0 <= i < 7 ==> IsToken(ws[i])
    ensures var args := ArgsForRtypeFixed("LOC", Join(ws, " "));
      && args == Zip(LocFieldsIntended, ws)
      && args[4] == (Some("latitude"), ws[4])
  {
    WordsOfJoin(ws);
    ArgsFixedZipTokens("LOC", Join(ws, " "));
  }
}
