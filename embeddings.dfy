/** The embedding generator of api/generate-embeddings.ts: the text each record is embedded
    from, the batch loop over the records needing an embedding, the counters of each batch
    and the handler's responses. The embedding call, the database update and the tracking
    insert are not modelled; each record's fate is given with it as an `Outcome`. */
module GenerateEmbeddings {
  import opened Wrappers
  import Str
  import Seqs
  import Js

  /** The columns of a companies or businesses row that feed the embedding text. */
  datatype EmbeddingRecord = EmbeddingRecord(
    name: Option<string>, industry: Option<string>, sector: Option<string>, naics: Option<string>,
    businessType: Option<string>, headquarters: Option<string>,
    neighborhood: Option<string>, city: Option<string>, state: Option<string>,
    parentCompanyId: Option<string>, yearEstablished: Option<int>, employees: Option<int>,
    revenue: Option<int>, description: Option<string>)

  const DESCRIPTION_LIMIT := 500

  /** A description over 500 characters is cut to 500 and marked with "...". */
  function Shorten(d: string): (r: string)
    ensures |d| <= DESCRIPTION_LIMIT ==> r == d
    ensures |d| > DESCRIPTION_LIMIT ==> r == d[..DESCRIPTION_LIMIT] + "..." && |r| == DESCRIPTION_LIMIT + 3
    ensures |r| <= DESCRIPTION_LIMIT + 3
  {
    if |d| > DESCRIPTION_LIMIT then Str.Substring(d, 0, DESCRIPTION_LIMIT) + "..." else d
  }

  /** `[neighborhood, city, state].filter(Boolean).join(", ")`. */
  function Place(r: EmbeddingRecord): string {
    Str.Join((if Js.Filled(r.neighborhood) then [r.neighborhood.value] else [])
             + (if Js.Filled(r.city) then [r.city.value] else [])
             + (if Js.Filled(r.state) then [r.state.value] else []), ", ")
  }

  /** The location line: the headquarters when there is one, otherwise the
      neighbourhood/city/state place, but only when neighbourhood or city is given. */
  function Location(r: EmbeddingRecord): Option<string> {
    if Js.Filled(r.headquarters) then Some(r.headquarters.value)
    else if Js.Filled(r.neighborhood) || Js.Filled(r.city) then
      var place := Place(r);
      if place != "" then Some(place) else None
    else None
  }

  function Labelled(tag: string, v: Option<string>): Option<string> {
    if Js.Filled(v) then Some(tag + v.value) else None
  }

  function LabelledNumber(tag: string, v: Option<int>): Option<string> {
    if Js.Nonzero(v) then Some(tag + Str.IntToString(v.value)) else None
  }

  /** A candidate part: its text, or nothing when the column is falsy. */
  function Opt(c: Option<string>): (r: seq<string>)
    ensures |r| <= 1
  {
    if c.Some? then [c.value] else []
  }

  function DescriptionPart(r: EmbeddingRecord): Option<string> {
    if Js.Filled(r.description) then Some("Description: " + Shorten(r.description.value)) else None
  }

  /** The parts in their fixed order: name, industry, sector, NAICS code, type, location,
      parent company, year established, employees, revenue, description. */
  function EmbeddingParts(r: EmbeddingRecord): (parts: seq<string>)
    ensures |parts| <= 11
  {
    Opt(Labelled("", r.name)) + Opt(Labelled("Industry: ", r.industry)) + Opt(Labelled("Sector: ", r.sector))
    + Opt(Labelled("NAICS: ", r.naics)) + Opt(Labelled("Type: ", r.businessType))
    + Opt(Labelled("Location: ", Location(r))) + Opt(Labelled("Parent Company ID: ", r.parentCompanyId))
    + Opt(LabelledNumber("Established: ", r.yearEstablished)) + Opt(LabelledNumber("Employees: ", r.employees))
    + Opt(LabelledNumber("Revenue: ", r.revenue)) + Opt(DescriptionPart(r))
  }

  /** `if (value) parts.push(tag + value)`. */
  method PushText(parts: seq<string>, tag: string, value: Option<string>) returns (parts': seq<string>)
    ensures parts' == parts + Opt(Labelled(tag, value))
  {
    parts' := parts;
    if Js.Filled(value) {
      parts' := parts' + [tag + value.value];
    }
  }

  /** `if (value) parts.push(`${tag}${value}`)` for a number. */
  method PushNumber(parts: seq<string>, tag: string, value: Option<int>) returns (parts': seq<string>)
    ensures parts' == parts + Opt(LabelledNumber(tag, value))
  {
    parts' := parts;
    if Js.Nonzero(value) {
      parts' := parts' + [tag + Str.IntToString(value.value)];
    }
  }

  /** `createEmbeddingText`: the present parts pushed one by one, then joined with ". ". */
  method CreateEmbeddingText(record: EmbeddingRecord) returns (text: string)
    ensures text == Str.Join(EmbeddingParts(record), ". ")
  {
    var parts: seq<string> := [];
    parts := PushText(parts, "", record.name);
    assert parts == Opt(Labelled("", record.name));
    parts := PushText(parts, "Industry: ", record.industry);
    parts := PushText(parts, "Sector: ", record.sector);
    parts := PushText(parts, "NAICS: ", record.naics);
    parts := PushText(parts, "Type: ", record.businessType);
    ghost var head := parts;
    if Js.Filled(record.headquarters) {
      parts := parts + ["Location: " + record.headquarters.value];
    } else if Js.Filled(record.neighborhood) || Js.Filled(record.city) {
      var location := Place(record);
      if location != "" {
        parts := parts + ["Location: " + location];
      }
    }
    assert parts == head + Opt(Labelled("Location: ", Location(record)));
    parts := PushText(parts, "Parent Company ID: ", record.parentCompanyId);
    parts := PushNumber(parts, "Established: ", record.yearEstablished);
    parts := PushNumber(parts, "Employees: ", record.employees);
    parts := PushNumber(parts, "Revenue: ", record.revenue);
    ghost var middle := parts;
    if Js.Filled(record.description) {
      var description := Shorten(record.description.value);
      parts := parts + ["Description: " + description];
    }
    assert parts == middle + Opt(DescriptionPart(record));
    assert parts == EmbeddingParts(record);
    text := Str.Join(parts, ". ");
  }

  /** Falsy columns are left out: a revenue or employee count of 0 adds no part, exactly as
      a missing one. */
  lemma ZeroOmitted(r: EmbeddingRecord)
    ensures EmbeddingParts(r.(revenue := Some(0))) == EmbeddingParts(r.(revenue := None))
    ensures EmbeddingParts(r.(employees := Some(0))) == EmbeddingParts(r.(employees := None))
    ensures EmbeddingParts(r.(name := Some(""))) == EmbeddingParts(r.(name := None))
  {
    RevenueZeroOmitted(r);
    EmployeesZeroOmitted(r);
    EmptyNameOmitted(r);
  }

  lemma RevenueZeroOmitted(r: EmbeddingRecord)
    ensures EmbeddingParts(r.(revenue := Some(0))) == EmbeddingParts(r.(revenue := None))
  {
    assert LabelledNumber("Revenue: ", Some(0)) == LabelledNumber("Revenue: ", None);
  }

  lemma EmployeesZeroOmitted(r: EmbeddingRecord)
    ensures EmbeddingParts(r.(employees := Some(0))) == EmbeddingParts(r.(employees := None))
  {
    assert LabelledNumber("Employees: ", Some(0)) == LabelledNumber("Employees: ", None);
  }

  lemma EmptyNameOmitted(r: EmbeddingRecord)
    ensures EmbeddingParts(r.(name := Some(""))) == EmbeddingParts(r.(name := None))
  {
    assert Labelled("", Some("")) == Labelled("", None);
  }

  /** A headquarters makes the neighbourhood, city and state irrelevant. */
  lemma HeadquartersFirst(r: EmbeddingRecord, n: Option<string>, c: Option<string>, s: Option<string>)
    requires Js.Filled(r.headquarters)
    ensures EmbeddingParts(r) == EmbeddingParts(r.(neighborhood := n, city := c, state := s))
    ensures "Location: " + r.headquarters.value in EmbeddingParts(r)
  {
    var loc := Opt(Labelled("Location: ", Location(r)));
    assert loc == ["Location: " + r.headquarters.value];
    var before := Opt(Labelled("", r.name)) + Opt(Labelled("Industry: ", r.industry)) + Opt(Labelled("Sector: ", r.sector))
      + Opt(Labelled("NAICS: ", r.naics)) + Opt(Labelled("Type: ", r.businessType));
    assert EmbeddingParts(r)[|before|] == "Location: " + r.headquarters.value;
  }

  /** Without a headquarters, a state alone gives no location. */
  lemma StateAloneNoLocation(r: EmbeddingRecord)
    requires !Js.Filled(r.headquarters) && !Js.Filled(r.neighborhood) && !Js.Filled(r.city)
    ensures Location(r).None?
  {
  }

  /** The name, when there is one, opens the text. */
  lemma NameFirst(r: EmbeddingRecord)
    requires Js.Filled(r.name)
    ensures EmbeddingParts(r)[0] == r.name.value
    ensures Str.StartsWith(Str.Join(EmbeddingParts(r), ". "), r.name.value)
  {
    assert Opt(Labelled("", r.name)) == [r.name.value] by { assert "" + r.name.value == r.name.value; }
    var t := EmbeddingParts(r)[1..];
    assert EmbeddingParts(r) == [r.name.value] + t;
    if t != [] {
      Str.JoinCons(r.name.value, t, ". ");
    }
  }

  // ---------------------------------------------------------------- processBatch and the loop

  /** What became of one record: its embedding stored, the embedding call failing, or the
      update failing. A failing tracking insert is only logged and counts as stored. */
  datatype Outcome = Embedded | EmbedFailed(message: string) | UpdateFailed(message: string)

  type Job = (EmbeddingRecord, Outcome)

  /** `${record.name}`: the name, or "null" for a row whose name column is NULL. */
  function NameText(r: EmbeddingRecord): (t: string)
    ensures r.name.Some? ==> t == r.name.value
    ensures r.name.None? ==> t == "null"
  {
    r.name.GetOr("null")
  }

  /** The message `processBatch` collects for a failed record. */
  function ErrorText(job: Job, tableName: string): string
    requires !job.1.Embedded?
  {
    var name := NameText(job.0);
    match job.1
    case EmbedFailed(m) => name + ": " + m
    case UpdateFailed(m) => name + ": Failed to update " + tableName + " record " + name + ": " + m
  }

  function Successes(jobs: seq<Job>): nat
    decreases |jobs|
  {
    if jobs == [] then 0 else Successes(jobs[..|jobs| - 1]) + (if jobs[|jobs| - 1].1.Embedded? then 1 else 0)
  }

  function Errors(jobs: seq<Job>, tableName: string): seq<string>
    decreases |jobs|
  {
    if jobs == [] then []
    else
      var last := jobs[|jobs| - 1];
      Errors(jobs[..|jobs| - 1], tableName) + (if last.1.Embedded? then [] else [ErrorText(last, tableName)])
  }

  /** Every record is either counted as processed or reported once as an error. */
  lemma {:induction false} EveryRecordAccounted(jobs: seq<Job>, tableName: string)
    ensures Successes(jobs) + |Errors(jobs, tableName)| == |jobs|
    decreases |jobs|
  {
    if jobs != [] {
      EveryRecordAccounted(jobs[..|jobs| - 1], tableName);
    }
  }

  lemma {:induction false} CountersAppend(a: seq<Job>, b: seq<Job>, tableName: string)
    ensures Successes(a + b) == Successes(a) + Successes(b)
    ensures Errors(a + b, tableName) == Errors(a, tableName) + Errors(b, tableName)
    decreases |b|
  {
    if b == [] {
      assert a + b == a;
    } else {
      assert (a + b)[..|a + b| - 1] == a + b[..|b| - 1];
      assert (a + b)[|a + b| - 1] == b[|b| - 1];
      CountersAppend(a, b[..|b| - 1], tableName);
    }
  }

  datatype Results = Results(processed: nat, skipped: nat, errors: seq<string>)

  /** `processBatch`, with the records taken one after the other. */
  method ProcessBatch(batch: seq<Job>, tableName: string) returns (results: Results)
    ensures results == Results(Successes(batch), 0, Errors(batch, tableName))
    ensures results.processed + |results.errors| == |batch|
  {
    results := Results(0, 0, []);
    var k := 0;
    while k < |batch|
      invariant 0 <= k <= |batch|
      invariant results == Results(Successes(batch[..k]), 0, Errors(batch[..k], tableName))
    {
      var job := batch[k];
      assert batch[..k + 1][..k] == batch[..k];
      if job.1.Embedded? {
        results := results.(processed := results.processed + 1);
      } else {
        results := results.(errors := results.errors + [ErrorText(job, tableName)]);
      }
      k := k + 1;
    }
    assert batch[..k] == batch;
    EveryRecordAccounted(batch, tableName);
  }

  lemma AddBatch(records: seq<Job>, i: nat, end: nat, tableName: string)
    requires i <= end <= |records|
    ensures Successes(records[..end]) == Successes(records[..i]) + Successes(records[i..end])
    ensures Errors(records[..end], tableName) == Errors(records[..i], tableName) + Errors(records[i..end], tableName)
  {
    assert records[..end] == records[..i] + records[i..end];
    CountersAppend(records[..i], records[i..end], tableName);
  }

  /** What the batch loop has done once the records before `i` are processed: the batches
      visited so far, followed by the ones still to come, are all the batches, and the
      totals are those of the records visited. */
  ghost predicate BatchesDone(records: seq<Job>, batchSize: nat, tableName: string, i: nat,
                              batches: seq<seq<Job>>, results: Results)
    requires batchSize > 0
  {
    var done := Seqs.Min(i, |records|);
    && batches + Seqs.Batches(records[done..], batchSize) == Seqs.Batches(records, batchSize)
    && results == Results(Successes(records[..done]), 0, Errors(records[..done], tableName))
  }

  /** One more batch processed and added to the totals. */
  lemma BatchDone(records: seq<Job>, batchSize: nat, tableName: string, i: nat,
                  batches: seq<seq<Job>>, results: Results, batchResults: Results)
    requires batchSize > 0 && i < |records|
    requires BatchesDone(records, batchSize, tableName, i, batches, results)
    requires var end := Seqs.Min(i + batchSize, |records|);
      batchResults == Results(Successes(records[i..end]), 0, Errors(records[i..end], tableName))
    ensures BatchesDone(records, batchSize, tableName, i + batchSize,
      batches + [records[i..Seqs.Min(i + batchSize, |records|)]],
      Results(results.processed + batchResults.processed, results.skipped + batchResults.skipped,
              results.errors + batchResults.errors))
  {
    var end := Seqs.Min(i + batchSize, |records|);
    assert Seqs.Min(i, |records|) == i;
    AddBatch(records, i, end, tableName);
    Seqs.BatchesStep(records, batchSize, i, batches);
    assert Seqs.Min(i + batchSize, |records|) == end;
  }

  /** The batch loop of `handler`: each batch processed in turn and its counters added to
      the totals. */
  method RunBatches(records: seq<Job>, batchSize: int, tableName: string)
    returns (results: Results, ghost batches: seq<seq<Job>>)
    requires batchSize > 0
    ensures results == Results(Successes(records), 0, Errors(records, tableName))
    ensures batches == Seqs.Batches(records, batchSize)
  {
    results := Results(0, 0, []);
    batches := [];
    var i := 0;
    assert records[0..] == records;
    while i < |records|
      invariant 0 <= i
      invariant BatchesDone(records, batchSize, tableName, i, batches, results)
      decreases |records| - i
    {
      var end := Seqs.Min(i + batchSize, |records|);
      var batch := records[i..end];
      var batchResults := ProcessBatch(batch, tableName);
      BatchDone(records, batchSize, tableName, i, batches, results, batchResults);
      results := Results(results.processed + batchResults.processed, results.skipped + batchResults.skipped,
                         results.errors + batchResults.errors);
      batches := batches + [batch];
      i := i + batchSize;
    }
    assert records[..Seqs.Min(i, |records|)] == records;
    assert records[Seqs.Min(i, |records|)..] == [];
  }

  // ---------------------------------------------------------------- the handler

  /** The POST body; absent members take their defaults. */
  datatype EmbeddingBody = EmbeddingBody(batchSize: Option<int>, forceRegenerate: Option<bool>, tableName: Option<string>)

  datatype Reply =
    | NoContent
    | Failure(error: string, details: Option<string>)
    | NothingToDo(message: string, processed: nat, skipped: nat, errors: seq<string>)
    | Completed(message: string, tableName: string, totalRecords: nat, processed: nat, skipped: nat, errors: seq<string>)

  datatype Response = Response(status: int, reply: Reply)

  predicate Missing(v: Option<string>) { v.None? || v.value == "" }

  /** The table the records come from; anything but "businesses" reads companies. */
  function TableOf(body: EmbeddingBody): string { body.tableName.GetOr("businesses") }

  function FetchError(tableName: string, message: string): string {
    if tableName == "businesses" then "Failed to fetch businesses: " + message
    else "Failed to fetch companies: " + message
  }

  /** The configuration failure of `handler`, checked in order; the OpenAI key is trimmed. */
  function ConfigError(supabaseUrl: Option<string>, serviceKey: Option<string>, openaiKey: Option<string>): (r: Option<string>)
    ensures r.None? <==> !Missing(supabaseUrl) && !Missing(serviceKey) && openaiKey.Some? && !Str.IsBlank(openaiKey.value)
  {
    if Missing(supabaseUrl) then Some("SUPABASE_URL environment variable is required")
    else if Missing(serviceKey) then Some("SUPABASE_SERVICE_ROLE_KEY environment variable is required")
    else if openaiKey.None? then Some("OPENAI_API_KEY not configured")
    else
      Str.TrimEmptyIffBlank(openaiKey.value);
      if Str.Trim(openaiKey.value) == "" then Some("OPENAI_API_KEY not configured") else None
  }

  /** `handler`: `fetched` is what the lookup of records needing embeddings returned,
      its rows or the database's error message. */
  method Handler(requestMethod: string, body: EmbeddingBody,
                 supabaseUrl: Option<string>, serviceKey: Option<string>, openaiKey: Option<string>,
                 fetched: Result<seq<Job>>) returns (r: Response)
    requires body.batchSize.GetOr(10) > 0
    ensures requestMethod == "OPTIONS" <==> r == Response(200, NoContent)
    ensures requestMethod != "OPTIONS" && requestMethod != "POST" <==> r == Response(405, Failure("Method not allowed", None))
    ensures requestMethod == "POST" && ConfigError(supabaseUrl, serviceKey, openaiKey).Some? ==>
      r == Response(500, Failure("Service configuration error", ConfigError(supabaseUrl, serviceKey, openaiKey)))
    ensures requestMethod == "POST" && ConfigError(supabaseUrl, serviceKey, openaiKey).None? && fetched.Err? ==>
      r == Response(500, Failure("Failed to generate embeddings", Some(FetchError(TableOf(body), fetched.msg))))
    ensures requestMethod == "POST" && ConfigError(supabaseUrl, serviceKey, openaiKey).None? && fetched == Ok([]) ==>
      r == Response(200, NothingToDo("All " + TableOf(body) + " already have embeddings", 0, 0, []))
    ensures requestMethod == "POST" && ConfigError(supabaseUrl, serviceKey, openaiKey).None? && fetched.Ok? && fetched.value != [] ==>
      r == Response(200, Completed("Embedding generation completed", TableOf(body), |fetched.value|,
                                   Successes(fetched.value), 0, Errors(fetched.value, TableOf(body))))
  {
    if requestMethod == "OPTIONS" {
      return Response(200, NoContent);
    }
    if requestMethod != "POST" {
      return Response(405, Failure("Method not allowed", None));
    }
    var configError := ConfigError(supabaseUrl, serviceKey, openaiKey);
    if configError.Some? {
      return Response(500, Failure("Service configuration error", configError));
    }
    var batchSize := body.batchSize.GetOr(10);
    var tableName := TableOf(body);
    if fetched.Err? {
      return Response(500, Failure("Failed to generate embeddings", Some(FetchError(tableName, fetched.msg))));
    }
    var records := fetched.value;
    if |records| == 0 {
      return Response(200, NothingToDo("All " + tableName + " already have embeddings", 0, 0, []));
    }
    var results, batches := RunBatches(records, batchSize, tableName);
    r := Response(200, Completed("Embedding generation completed", tableName, |records|,
                                 results.processed, results.skipped, results.errors));
  }
}
