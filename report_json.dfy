/** The JSON object the entry point dumps: `{"file": ..., "results": [...]}`
    with one `{"shortname", "sim_score", "sim_type", "description"}` object per
    record. Objects are maps, so key order (the dump sorts keys) does not
    arise; text layout is not modelled. Decoding is the exact inverse of
    encoding on both sides. */
module ReportJson {
  import opened Wrappers
  import opened Agents
  import opened Cli

  datatype Json = JString(str: string) | JNumber(num: real) | JArray(items: seq<Json>) | JObject(fields: map<string, Json>)

  const RECORD_KEYS: set<string> := {"shortname", "sim_score", "sim_type", "description"}
  const REPORT_KEYS: set<string> := {"file", "results"}

  function RecordToJson(r: MatchRecord): (j: Json)
    ensures j.JObject? && j.fields.Keys == RECORD_KEYS
  {
    JObject(map["shortname" := JString(r.shortname), "sim_score" := JNumber(r.simScore),
                "sim_type" := JString(r.simType), "description" := JString(r.description)])
  }

  function RecordFromJson(j: Json): (r: Option<MatchRecord>)
    ensures r.Some? ==> j.JObject? && j.fields.Keys == RECORD_KEYS
  {
    if && j.JObject? && j.fields.Keys == RECORD_KEYS
       && j.fields["shortname"].JString? && j.fields["sim_score"].JNumber?
       && j.fields["sim_type"].JString? && j.fields["description"].JString?
    then Some(MatchRecord(j.fields["shortname"].str, j.fields["sim_score"].num,
                          j.fields["sim_type"].str, j.fields["description"].str))
    else None
  }

  /** The results array, one object per record in the same order. */
  function RecordsToJson(rs: seq<MatchRecord>): (js: seq<Json>)
    ensures |js| == |rs|
    ensures forall i :: 0 <= i < |rs| ==> js[i] == RecordToJson(rs[i])
  {
    if rs == [] then [] else [RecordToJson(rs[0])] + RecordsToJson(rs[1..])
  }

  function RecordsFromJson(js: seq<Json>): (r: Option<seq<MatchRecord>>)
    ensures r.Some? ==> |r.value| == |js|
  {
    if js == [] then Some([])
    else
      match RecordFromJson(js[0])
      case None => None
      case Some(first) =>
        match RecordsFromJson(js[1..])
        case None => None
        case Some(rest) => Some([first] + rest)
  }

  function ReportToJson(rep: Report): (j: Json)
    ensures j.JObject? && j.fields.Keys == REPORT_KEYS
    ensures j.fields["file"] == JString(rep.file)
    ensures j.fields["results"].JArray? && |j.fields["results"].items| == |rep.results|
  {
    JObject(map["file" := JString(rep.file), "results" := JArray(RecordsToJson(rep.results))])
  }

  function ReportFromJson(j: Json): (r: Option<Report>)
    ensures r.Some? ==> j.JObject? && j.fields.Keys == REPORT_KEYS
  {
    if && j.JObject? && j.fields.Keys == REPORT_KEYS
       && j.fields["file"].JString? && j.fields["results"].JArray?
    then
      match RecordsFromJson(j.fields["results"].items)
      case None => None
      case Some(results) => Some(Report(j.fields["file"].str, results))
    else None
  }

  lemma RecordRoundTrip(r: MatchRecord)
    ensures RecordFromJson(RecordToJson(r)) == Some(r)
  {
  }

  lemma RecordDecodeInverse(j: Json, r: MatchRecord)
    requires RecordFromJson(j) == Some(r)
    ensures RecordToJson(r) == j
  {
    assert RecordToJson(r).fields == j.fields;
  }

  lemma {:induction false} RecordsRoundTrip(rs: seq<MatchRecord>)
    ensures RecordsFromJson(RecordsToJson(rs)) == Some(rs)
  {
    if rs != [] {
      var js := RecordsToJson(rs);
      assert js[1..] == RecordsToJson(rs[1..]);
      RecordRoundTrip(rs[0]);
      RecordsRoundTrip(rs[1..]);
      assert [rs[0]] + rs[1..] == rs;
    }
  }

  lemma {:induction false} RecordsDecodeInverse(js: seq<Json>, rs: seq<MatchRecord>)
    requires RecordsFromJson(js) == Some(rs)
    ensures RecordsToJson(rs) == js
  {
    if js != [] {
      var first := RecordFromJson(js[0]).value;
      var rest := RecordsFromJson(js[1..]).value;
      assert rs == [first] + rest;
      RecordDecodeInverse(js[0], first);
      RecordsDecodeInverse(js[1..], rest);
      assert rs[1..] == rest;
      assert js == [js[0]] + js[1..];
    }
  }

  /** Parsing the dumped object gives back the same file and the same records in
      the same order. */
  lemma ReportRoundTrip(rep: Report)
    ensures ReportFromJson(ReportToJson(rep)) == Some(rep)
  {
    RecordsRoundTrip(rep.results);
  }

  /** Every object that parses as a report is exactly the dump of that report. */
  lemma ReportDecodeInverse(j: Json, rep: Report)
    requires ReportFromJson(j) == Some(rep)
    ensures ReportToJson(rep) == j
  {
    RecordsDecodeInverse(j.fields["results"].items, rep.results);
    assert ReportToJson(rep).fields == j.fields;
  }
}
