/** The diagnostics endpoint of api/diagnose.ts: the OpenAI key checks, the Supabase
    checks, the recommendations and the report status with its HTTP status code. The
    environment variables are optional strings, and the outcomes of the two network
    calls (the Supabase queries and the OpenAI completion) are parameters. */
module Diagnose {
  import opened Wrappers
  import Str
  import OpenAIClient

  datatype Status = Healthy | Degraded | Critical

  function Rank(s: Status): nat {
    match s case Healthy => 0 case Degraded => 1 case Critical => 2
  }

  /** The status after an update towards `level`: `status = "critical"` for a critical
      finding, `if (status === "healthy") status = "degraded"` for a warning. */
  function Raise(s: Status, level: Status): (r: Status)
    ensures Rank(r) == if Rank(s) >= Rank(level) then Rank(s) else Rank(level)
  {
    match level
    case Healthy => s
    case Degraded => if s == Healthy then Degraded else s
    case Critical => Critical
  }

  /** `Boolean(value)` on an optional string. */
  predicate Present(v: Option<string>) { v.Some? && v.value != "" }

  datatype OpenAIKeyCheck = OpenAIKeyCheck(
    hasKey: bool, keyLength: nat, expectedLength: nat, lengthValid: bool,
    format: Option<string>, isProjectKey: bool, needsTrim: bool,
    validation: OpenAIClient.ConfigCheck)

  function Prefix(s: string, n: nat): (r: string)
    ensures |r| <= n && Str.StartsWith(s, r)
  {
    if |s| <= n then s else s[..n]
  }

  /** The inline validation of the handler: `validateOpenAIConfig` with shorter
      error messages. */
  function InlineValidation(raw: Option<string>): OpenAIClient.ConfigCheck {
    var apiKey := OpenAIClient.TrimmedKey(raw);
    var isProjectKey := apiKey.Some? && Str.StartsWith(apiKey.value, OpenAIClient.PROJECT_PREFIX);
    var isValid := apiKey.Some? && Str.StartsWith(apiKey.value, OpenAIClient.KEY_PREFIX);
    OpenAIClient.ConfigCheck(
      isValid, apiKey.Some?, if apiKey.Some? then |apiKey.value| else 0, isProjectKey,
      if isProjectKey then 164 else 51,
      if apiKey.None? then Some("OPENAI_API_KEY not found")
      else if !isValid then Some("Invalid key format") else None)
  }

  /** Check 1 on `OPENAI_API_KEY`. The reported length is the raw one; the comparison
      with the expected length uses the trimmed key. */
  function CheckOpenAIKey(raw: Option<string>): (r: OpenAIKeyCheck)
    ensures r.hasKey <==> Present(raw)
    ensures r.keyLength == if raw.Some? then |raw.value| else 0
    ensures r.expectedLength == 164 <==> raw.Some? && Str.StartsWith(Str.Trim(raw.value), OpenAIClient.PROJECT_PREFIX)
    ensures r.expectedLength == 164 || r.expectedLength == 51
    ensures r.needsTrim <==> raw.Some? && raw.value != Str.Trim(raw.value)
    ensures r.lengthValid <==> raw.Some? && Str.Trim(raw.value) != "" && |Str.Trim(raw.value)| == r.expectedLength
  {
    var trimmed := if raw.Some? then Some(Str.Trim(raw.value)) else None;
    var expectedLength := if trimmed.Some? && Str.StartsWith(trimmed.value, OpenAIClient.PROJECT_PREFIX) then 164 else 51;
    OpenAIKeyCheck(
      Present(raw), if raw.Some? then |raw.value| else 0, expectedLength,
      trimmed.Some? && trimmed.value != "" && |trimmed.value| == expectedLength,
      if Present(raw) then Some(Prefix(raw.value, 12) + "...") else None,
      trimmed.Some? && Str.StartsWith(trimmed.value, OpenAIClient.PROJECT_PREFIX),
      raw.Some? && raw.value != trimmed.value,
      InlineValidation(raw))
  }

  /** The handler's inline validation agrees with `validateOpenAIConfig` on every field
      except the wording of the error, and except that a missing key is reported with the
      expected length 51 instead of 164. */
  lemma InlineAgrees(raw: Option<string>)
    ensures var a := CheckOpenAIKey(raw).validation; var b := OpenAIClient.ValidateOpenAIConfig(raw);
      && (a.error.None? <==> b.error.None?)
      && (OpenAIClient.TrimmedKey(raw).Some? ==> a.(error := b.error) == b)
      && (OpenAIClient.TrimmedKey(raw).None? ==> a.expectedLength == 51 && a.(error := b.error, expectedLength := 164) == b)
  {
    var k := OpenAIClient.TrimmedKey(raw);
    if k.Some? && !Str.StartsWith(k.value, OpenAIClient.KEY_PREFIX) {
      OpenAIClient.NotKeyNotProject(k.value);
    }
  }

  /** A key of white space alone counts as present: it draws the white-space warning,
      not the missing-key one. */
  lemma BlankKeyNeedsTrim(raw: string)
    requires raw != "" && Str.IsBlank(raw)
    ensures CheckOpenAIKey(Some(raw)).hasKey && CheckOpenAIKey(Some(raw)).needsTrim
    ensures !CheckOpenAIKey(Some(raw)).lengthValid
    ensures KeyAdvice(CheckOpenAIKey(Some(raw))) == ([WhitespaceKey], Degraded)
  {
    Str.TrimEmptyIffBlank(raw);
  }

  /** The Supabase connection check result. */
  datatype Connection = Connection(success: bool, error: string, companyCount: Option<int>)

  /** The outcome of the Supabase calls: the test query failed, the count query answered
      (with `count || 0` and the error's text, if any), or a call threw. */
  datatype SupabaseReply =
    | TestFailed(message: string)
    | Counted(count: int, countError: Option<string>)
    | Threw(thrown: string)

  function ConnectionOf(reply: SupabaseReply): (r: Connection)
    ensures r.success <==> reply.Counted? && reply.countError.None?
    ensures r.companyCount.None? <==> reply.Threw?
  {
    match reply
    case TestFailed(m) => Connection(false, "Connection test failed: " + m, Some(0))
    case Counted(n, e) => Connection(e.None?, e.GetOr("No error details"), Some(n))
    case Threw(m) => Connection(false, m, None)
  }

  datatype SupabaseCheck = SupabaseCheck(
    hasUrl: bool, hasAnonKey: bool, hasServiceKey: bool, urlValue: Option<string>,
    connection: Option<Connection>)

  /** The OpenAI connection test result. */
  datatype OpenAIConnection = OpenAIConnection(
    success: bool, response: Option<string>, model: Option<string>, error: Option<string>)

  /** The outcome of the completion call: the reply's content and model, or the error. */
  datatype OpenAIReply = Answer(content: string, model: string) | Failure(message: string)

  function OpenAIConnectionOf(reply: OpenAIReply): (r: OpenAIConnection)
    ensures r.success <==> reply.Answer?
    ensures reply.Answer? ==> r.response == Some(if reply.content == "" then "OK" else reply.content)
  {
    match reply
    case Answer(c, m) => OpenAIConnection(true, Some(if c == "" then "OK" else c), Some(m), None)
    case Failure(e) => OpenAIConnection(false, None, None, Some(e))
  }

  /** One recommendation of the report. */
  datatype Advice =
    | MissingKey
    | WhitespaceKey
    | LengthMismatch(keyLength: nat, expectedLength: nat)
    | InvalidKey
    | OpenAIFailed(openaiError: Option<string>)
    | NoSupabaseUrl
    | NoServiceKey
    | SupabaseFailed(supabaseError: string)
    | NoCompanies
    | OpenAIOk
    | SupabaseConnected(companyCount: Option<int>)
    | AllOk

  function ErrorText(e: Option<string>): string { e.GetOr("undefined") }

  function CountText(n: Option<int>): string {
    match n case Some(k) => Str.IntToString(k) case None => "undefined"
  }

  /** The text of a recommendation in the report. */
  function Text(a: Advice): string {
    match a
    case MissingKey => "❌ CRITICAL: Add OPENAI_API_KEY to Vercel environment variables"
    case WhitespaceKey => "⚠️ WARNING: OpenAI key has whitespace - code handles trimming but check Vercel dashboard"
    case LengthMismatch(n, e) =>
      "⚠️ WARNING: OpenAI key length (" + Str.NatToString(n) + ") doesn't match expected (" + Str.NatToString(e) + ")"
    case InvalidKey => "❌ CRITICAL: OpenAI key is invalid - verify key in OpenAI dashboard"
    case OpenAIFailed(e) => "⚠️ WARNING: OpenAI connection failed: " + ErrorText(e)
    case NoSupabaseUrl => "❌ CRITICAL: Supabase URL not found - check environment variables"
    case NoServiceKey => "❌ CRITICAL: Supabase service role key not found"
    case SupabaseFailed(e) => "⚠️ WARNING: Supabase connection failed: " + e
    case NoCompanies => "⚠️ INFO: No companies found in database"
    case OpenAIOk => "✅ OpenAI API connection successful"
    case SupabaseConnected(n) => "✅ Supabase connected (" + CountText(n) + " companies)"
    case AllOk => "✅ All systems operational"
  }

  /** The key recommendation, at most one by `else if` precedence, and the level it
      raises the status to. */
  function KeyAdvice(o: OpenAIKeyCheck): (seq<Advice>, Status) {
    if !o.hasKey then ([MissingKey], Critical)
    else if o.needsTrim then ([WhitespaceKey], Degraded)
    else if !o.lengthValid then ([LengthMismatch(o.keyLength, o.expectedLength)], Degraded)
    else ([], Healthy)
  }

  function ConnectionAdvice(oc: Option<OpenAIConnection>): (seq<Advice>, Status) {
    if oc.Some? && !oc.value.success then
      if Str.Contains(oc.value.error.GetOr(""), "401") then ([InvalidKey], Critical)
      else ([OpenAIFailed(oc.value.error)], Degraded)
    else ([], Healthy)
  }

  function SupabaseAdvice(s: SupabaseCheck): (seq<Advice>, Status) {
    var url := if s.hasUrl then [] else [NoSupabaseUrl];
    var key := if s.hasServiceKey then [] else [NoServiceKey];
    var conn :=
      if s.connection.Some? && !s.connection.value.success then [SupabaseFailed(s.connection.value.error)]
      else if s.connection.Some? && s.connection.value.companyCount == Some(0) then [NoCompanies]
      else [];
    (url + key + conn,
     if !s.hasUrl || !s.hasServiceKey then Critical
     else if s.connection.Some? && !s.connection.value.success then Degraded
     else Healthy)
  }

  function SuccessNotes(oc: Option<OpenAIConnection>, s: SupabaseCheck): seq<Advice> {
    (if oc.Some? && oc.value.success then [OpenAIOk] else [])
    + (if s.connection.Some? && s.connection.value.success then [SupabaseConnected(s.connection.value.companyCount)]
       else [])
  }

  /** Every recommendation other than the closing "all operational" one, in order. */
  function AdviceOf(o: OpenAIKeyCheck, oc: Option<OpenAIConnection>, s: SupabaseCheck): seq<Advice> {
    KeyAdvice(o).0 + ConnectionAdvice(oc).0 + SupabaseAdvice(s).0 + SuccessNotes(oc, s)
  }

  function Recommendations(o: OpenAIKeyCheck, oc: Option<OpenAIConnection>, s: SupabaseCheck): seq<Advice> {
    var a := AdviceOf(o, oc, s);
    if a == [] then [AllOk] else a
  }

  /** The report status: the highest level any finding raises it to. */
  function FinalStatus(o: OpenAIKeyCheck, oc: Option<OpenAIConnection>, s: SupabaseCheck): Status {
    Raise(Raise(Raise(Healthy, KeyAdvice(o).1), ConnectionAdvice(oc).1), SupabaseAdvice(s).1)
  }

  /** The status is critical exactly for a missing key, a rejected key or missing Supabase
      settings; healthy exactly when no check raised a warning either. */
  lemma StatusMeaning(o: OpenAIKeyCheck, oc: Option<OpenAIConnection>, s: SupabaseCheck)
    ensures FinalStatus(o, oc, s) == Critical <==>
      !o.hasKey || (oc.Some? && !oc.value.success && Str.Contains(oc.value.error.GetOr(""), "401"))
      || !s.hasUrl || !s.hasServiceKey
    ensures FinalStatus(o, oc, s) == Healthy <==>
      o.hasKey && !o.needsTrim && o.lengthValid && (oc.None? || oc.value.success)
      && s.hasUrl && s.hasServiceKey && (s.connection.None? || s.connection.value.success)
  {
  }

  /** No finding ever lowers the status. */
  lemma RaiseNeverLowers(s: Status, level: Status)
    ensures Rank(Raise(s, level)) >= Rank(s) && Rank(Raise(s, level)) >= Rank(level)
    ensures Raise(Raise(s, level), level) == Raise(s, level)
  {
  }

  /** At most one key recommendation, and none exactly when the key is present, needs no
      trimming and has the expected length. */
  lemma KeyAdviceAtMostOne(o: OpenAIKeyCheck)
    ensures |KeyAdvice(o).0| <= 1
    ensures KeyAdvice(o).0 == [] <==> o.hasKey && !o.needsTrim && o.lengthValid
    ensures MissingKey in KeyAdvice(o).0 <==> !o.hasKey
    ensures WhitespaceKey in KeyAdvice(o).0 <==> o.hasKey && o.needsTrim
  {
  }

  /** "All systems operational" appears exactly when nothing else was recommended, and
      then alone. */
  lemma AllOkIff(o: OpenAIKeyCheck, oc: Option<OpenAIConnection>, s: SupabaseCheck)
    ensures AllOk in Recommendations(o, oc, s) <==> AdviceOf(o, oc, s) == []
    ensures AllOk in Recommendations(o, oc, s) ==> Recommendations(o, oc, s) == [AllOk]
  {
  }

  /** The OpenAI key recommendation, pushed and applied to the status. */
  method AdviseKey(o: OpenAIKeyCheck, recommendations: seq<Advice>, status: Status)
    returns (recommendations': seq<Advice>, status': Status)
    ensures recommendations' == recommendations + KeyAdvice(o).0
    ensures status' == Raise(status, KeyAdvice(o).1)
  {
    recommendations', status' := recommendations, status;
    if !o.hasKey {
      recommendations' := recommendations' + [MissingKey];
      status' := Critical;
    } else if o.needsTrim {
      recommendations' := recommendations' + [WhitespaceKey];
      if status' == Healthy { status' := Degraded; }
    } else if !o.lengthValid {
      recommendations' := recommendations' + [LengthMismatch(o.keyLength, o.expectedLength)];
      if status' == Healthy { status' := Degraded; }
    }
  }

  /** The OpenAI connection recommendation. */
  method AdviseConnection(oc: Option<OpenAIConnection>, recommendations: seq<Advice>, status: Status)
    returns (recommendations': seq<Advice>, status': Status)
    ensures recommendations' == recommendations + ConnectionAdvice(oc).0
    ensures status' == Raise(status, ConnectionAdvice(oc).1)
  {
    recommendations', status' := recommendations, status;
    if oc.Some? && !oc.value.success {
      if Str.Contains(oc.value.error.GetOr(""), "401") {
        recommendations' := recommendations' + [InvalidKey];
        status' := Critical;
      } else {
        recommendations' := recommendations' + [OpenAIFailed(oc.value.error)];
        if status' == Healthy { status' := Degraded; }
      }
    }
  }

  /** The Supabase recommendations. */
  method AdviseSupabase(s: SupabaseCheck, recommendations: seq<Advice>, status: Status)
    returns (recommendations': seq<Advice>, status': Status)
    ensures recommendations' == recommendations + SupabaseAdvice(s).0
    ensures status' == Raise(status, SupabaseAdvice(s).1)
  {
    recommendations', status' := recommendations, status;
    if !s.hasUrl {
      recommendations' := recommendations' + [NoSupabaseUrl];
      status' := Critical;
    }
    if !s.hasServiceKey {
      recommendations' := recommendations' + [NoServiceKey];
      status' := Critical;
    }
    if s.connection.Some? && !s.connection.value.success {
      recommendations' := recommendations' + [SupabaseFailed(s.connection.value.error)];
      if status' == Healthy { status' := Degraded; }
    } else if s.connection.Some? && s.connection.value.companyCount == Some(0) {
      recommendations' := recommendations' + [NoCompanies];
    }
  }

  /** The recommendation pass of the handler, pushing in order and updating the status. */
  method Recommend(o: OpenAIKeyCheck, oc: Option<OpenAIConnection>, s: SupabaseCheck)
    returns (recommendations: seq<Advice>, status: Status)
    ensures recommendations == Recommendations(o, oc, s)
    ensures status == FinalStatus(o, oc, s)
  {
    var r1, s1 := AdviseKey(o, [], Healthy);
    assert r1 == KeyAdvice(o).0;
    var r2, s2 := AdviseConnection(oc, r1, s1);
    var r3, s3 := AdviseSupabase(s, r2, s2);
    assert s3 == FinalStatus(o, oc, s);
    recommendations, status := r3, s3;
    if oc.Some? && oc.value.success {
      recommendations := recommendations + [OpenAIOk];
    }
    if s.connection.Some? && s.connection.value.success {
      recommendations := recommendations + [SupabaseConnected(s.connection.value.companyCount)];
    }
    assert recommendations == r3 + SuccessNotes(oc, s);
    assert recommendations == AdviceOf(o, oc, s);
    if |recommendations| == 0 {
      recommendations := recommendations + [AllOk];
    }
  }

  /** `res.status(...)`: 500 for critical, 503 for degraded, 200 for healthy. */
  function StatusCode(s: Status): (code: int)
    ensures code == 500 <==> s == Critical
    ensures code == 503 <==> s == Degraded
    ensures code == 200 <==> s == Healthy
  {
    match s case Critical => 500 case Degraded => 503 case Healthy => 200
  }

  datatype Report = Report(
    openai: OpenAIKeyCheck, supabase: SupabaseCheck, openaiConnection: Option<OpenAIConnection>,
    recommendations: seq<Advice>, status: Status)

  datatype Response = Response(statusCode: int, body: Option<Report>)

  datatype EnvVars = EnvVars(
    openaiKey: Option<string>, supabaseUrl: Option<string>, supabaseAnonKey: Option<string>,
    supabaseServiceKey: Option<string>)

  /** `handler`. An OPTIONS request is answered with 200 and no body; a missing Supabase URL
      or service key throws; otherwise the checks run and the report is returned with the
      status code of its status. */
  method Handler(requestMethod: string, env: EnvVars, supabaseReply: SupabaseReply, openaiReply: OpenAIReply)
    returns (r: Result<Response>)
    ensures requestMethod == "OPTIONS" ==> r == Ok(Response(200, None))
    ensures requestMethod != "OPTIONS" && !Present(env.supabaseUrl) ==>
      r == Err("SUPABASE_URL environment variable is required")
    ensures requestMethod != "OPTIONS" && Present(env.supabaseUrl) && !Present(env.supabaseServiceKey) ==>
      r == Err("SUPABASE_SERVICE_ROLE_KEY environment variable is required")
    ensures r.Ok? && requestMethod != "OPTIONS" ==> r.value.body.Some?
    ensures r.Ok? && r.value.body.Some? ==>
      var rep := r.value.body.value;
      && r.value.statusCode == StatusCode(rep.status)
      && rep.openai == CheckOpenAIKey(env.openaiKey)
      && rep.recommendations == Recommendations(rep.openai, rep.openaiConnection, rep.supabase)
      && rep.status == FinalStatus(rep.openai, rep.openaiConnection, rep.supabase)
      && rep.supabase.connection == Some(ConnectionOf(supabaseReply))
      && (rep.openaiConnection.Some? <==> OpenAIClient.ValidateOpenAIConfig(env.openaiKey).isValid)
      // the Supabase checks run only once both settings are known to be present
      && rep.supabase.hasUrl && rep.supabase.hasServiceKey
      && NoSupabaseUrl !in rep.recommendations && NoServiceKey !in rep.recommendations
      // the connection result always yields a recommendation, so the closing one never appears
      && AllOk !in rep.recommendations
  {
    if requestMethod == "OPTIONS" {
      return Ok(Response(200, None));
    }
    var openai := CheckOpenAIKey(env.openaiKey);

    if !Present(env.supabaseUrl) {
      return Err("SUPABASE_URL environment variable is required");
    }
    if !Present(env.supabaseServiceKey) {
      return Err("SUPABASE_SERVICE_ROLE_KEY environment variable is required");
    }
    var url := env.supabaseUrl.value;
    var supabase := SupabaseCheck(true, Present(env.supabaseAnonKey), true, Some(Prefix(url, 50)), None);
    supabase := supabase.(connection := Some(ConnectionOf(supabaseReply)));

    var openaiConnection: Option<OpenAIConnection> := None;
    var trimmed := OpenAIClient.TrimmedKey(env.openaiKey);
    if trimmed.Some? && Str.StartsWith(trimmed.value, OpenAIClient.KEY_PREFIX) {
      openaiConnection := Some(OpenAIConnectionOf(openaiReply));
    }

    var recommendations, status := Recommend(openai, openaiConnection, supabase);
    AllOkIff(openai, openaiConnection, supabase);
    SupabaseNeverMissing(openai, openaiConnection, supabase);
    var report := Report(openai, supabase, openaiConnection, recommendations, status);
    return Ok(Response(StatusCode(status), Some(report)));
  }

  /** With both Supabase settings present and a connection result, the advice is never
      empty and holds neither "not found" recommendation. */
  lemma SupabaseNeverMissing(o: OpenAIKeyCheck, oc: Option<OpenAIConnection>, s: SupabaseCheck)
    requires s.hasUrl && s.hasServiceKey && s.connection.Some?
    ensures AdviceOf(o, oc, s) != []
    ensures NoSupabaseUrl !in Recommendations(o, oc, s) && NoServiceKey !in Recommendations(o, oc, s)
  {
    var k, c, sa, sn := KeyAdvice(o).0, ConnectionAdvice(oc).0, SupabaseAdvice(s).0, SuccessNotes(oc, s);
    assert AdviceOf(o, oc, s) == k + c + sa + sn;
    assert |sa| + |sn| >= 1;
    assert NoSupabaseUrl !in k && NoServiceKey !in k;
    assert NoSupabaseUrl !in c && NoServiceKey !in c;
    assert NoSupabaseUrl !in sa && NoServiceKey !in sa;
    assert NoSupabaseUrl !in sn && NoServiceKey !in sn;
  }
}
