/** The OpenAI client singleton of lib/openai-singleton.ts: API-key classification and the
    lazily created, cached client. The environment variable `OPENAI_API_KEY` is passed in
    as an optional string; creating the client itself is not modelled beyond the options
    it is given. */
module OpenAIClient {
  import opened Wrappers
  import Str

  const PROJECT_PREFIX := "sk-proj-"
  const KEY_PREFIX := "sk-"

  /** `process.env.OPENAI_API_KEY?.trim()`, with undefined and "" both absent. */
  function TrimmedKey(raw: Option<string>): (r: Option<string>)
    ensures r.Some? ==> r.value != "" && raw.Some? && r.value == Str.Trim(raw.value)
    ensures r.None? <==> raw.None? || Str.IsBlank(raw.value)
  {
    match raw
    case None => None
    case Some(k) =>
      Str.TrimEmptyIffBlank(k);
      if Str.Trim(k) == "" then None else Some(Str.Trim(k))
  }

  /** The key length expected for a project key and for a legacy key. */
  function ExpectedLength(key: string): (r: nat)
    ensures r == 164 || r == 51
    ensures r == 164 <==> Str.StartsWith(key, PROJECT_PREFIX)
  {
    if Str.StartsWith(key, PROJECT_PREFIX) then 164 else 51
  }

  /** A project key is in particular an `sk-` key. */
  lemma ProjectIsKey(key: string)
    requires Str.StartsWith(key, PROJECT_PREFIX)
    ensures Str.StartsWith(key, KEY_PREFIX)
  {
    assert key[..3] == PROJECT_PREFIX[..3];
  }

  datatype ConfigCheck = ConfigCheck(
    isValid: bool, hasKey: bool, keyLength: nat, isProjectKey: bool, expectedLength: nat,
    error: Option<string>)

  /** `validateOpenAIConfig`. */
  function ValidateOpenAIConfig(raw: Option<string>): (r: ConfigCheck)
    // a missing or blank key
    ensures TrimmedKey(raw).None? ==>
      r == ConfigCheck(false, false, 0, false, 164, Some("OPENAI_API_KEY not found in environment"))
    // a key that is not an `sk-` key
    ensures TrimmedKey(raw).Some? && !Str.StartsWith(TrimmedKey(raw).value, KEY_PREFIX) ==>
      !r.isValid && r.hasKey && !r.isProjectKey && r.error == Some("Invalid key format - must start with sk-")
    // the key's length and the expected length are reported, never checked against each other
    ensures TrimmedKey(raw).Some? ==>
      r.hasKey && r.keyLength == |TrimmedKey(raw).value| && r.expectedLength == ExpectedLength(TrimmedKey(raw).value)
    ensures r.isValid <==> TrimmedKey(raw).Some? && Str.StartsWith(TrimmedKey(raw).value, KEY_PREFIX)
    ensures r.isValid ==> r.error.None? && (r.isProjectKey <==> Str.StartsWith(TrimmedKey(raw).value, PROJECT_PREFIX))
    ensures r.isProjectKey ==> r.isValid && r.expectedLength == 164
  {
    match TrimmedKey(raw)
    case None => ConfigCheck(false, false, 0, false, 164, Some("OPENAI_API_KEY not found in environment"))
    case Some(apiKey) =>
      var isProjectKey := Str.StartsWith(apiKey, PROJECT_PREFIX);
      var expectedLength := ExpectedLength(apiKey);
      if !Str.StartsWith(apiKey, KEY_PREFIX) then
        NotKeyNotProject(apiKey);
        ConfigCheck(false, true, |apiKey|, false, expectedLength, Some("Invalid key format - must start with sk-"))
      else ConfigCheck(true, true, |apiKey|, isProjectKey, expectedLength, None)
  }

  /** A valid key of any length: the length mismatch is reported but does not invalidate
      the key, for project and legacy keys alike. */
  lemma AnyLengthValid(key: string)
    requires Str.StartsWith(key, KEY_PREFIX) && !Str.IsSpace(key[|key| - 1])
    ensures ValidateOpenAIConfig(Some(key)).isValid
    ensures ValidateOpenAIConfig(Some(key)).keyLength == |key|
  {
    Str.TrimNoOuterSpace(key);
  }

  /** Only the trimmed key matters: white space around it changes nothing. */
  lemma TrimInvariant(key: string)
    ensures ValidateOpenAIConfig(Some(Str.Trim(key))) == ValidateOpenAIConfig(Some(key))
  {
    Str.TrimShape(key);
    Str.TrimNoOuterSpace(Str.Trim(key));
    Str.TrimEmptyIffBlank(key);
    Str.TrimEmptyIffBlank(Str.Trim(key));
  }

  lemma NotKeyNotProject(key: string)
    requires !Str.StartsWith(key, KEY_PREFIX)
    ensures !Str.StartsWith(key, PROJECT_PREFIX)
  {
    if Str.StartsWith(key, PROJECT_PREFIX) { ProjectIsKey(key); }
  }

  /** The message of the error `getOpenAIClient` throws for a key, if it throws. */
  function ClientError(raw: Option<string>): (r: Option<string>)
    ensures r.None? <==> ValidateOpenAIConfig(raw).isValid
  {
    match TrimmedKey(raw)
    case None => Some("OPENAI_API_KEY not configured in environment variables")
    case Some(apiKey) =>
      if !Str.StartsWith(apiKey, KEY_PREFIX) then
        Some("Invalid OpenAI key format: key should start with 'sk-' but starts with '"
             + apiKey[..if |apiKey| < 3 then |apiKey| else 3] + "'")
      else None
  }

  /** The client as constructed: its key and options. */
  class Client {
    const apiKey: string
    const maxRetries: nat
    const timeout: nat

    constructor (apiKey: string)
      ensures this.apiKey == apiKey && maxRetries == 3 && timeout == 30000
    {
      this.apiKey := apiKey;
      maxRetries := 3;
      timeout := 30000;
    }
  }

  /** The module-level `cachedClient`. */
  class ClientCache {
    var cachedClient: Option<Client>

    constructor ()
      ensures cachedClient.None?
    {
      cachedClient := None;
    }

    /** `getOpenAIClient`: the cached client when there is one, whatever the key now is;
        otherwise a new client for the trimmed key, which is cached, or the error. */
    method GetOpenAIClient(raw: Option<string>) returns (r: Result<Client>)
      modifies this
      ensures old(cachedClient).Some? ==> r == Ok(old(cachedClient).value) && cachedClient == old(cachedClient)
      ensures old(cachedClient).None? && ClientError(raw).Some? ==>
        r == Err(ClientError(raw).value) && cachedClient.None?
      ensures old(cachedClient).None? && ClientError(raw).None? ==>
        r.Ok? && fresh(r.value) && r.value.apiKey == TrimmedKey(raw).value
        && r.value.maxRetries == 3 && r.value.timeout == 30000 && cachedClient == Some(r.value)
    {
      if cachedClient.None? {
        var e := ClientError(raw);
        if e.Some? {
          return Err(e.value);
        }
        var c := new Client(TrimmedKey(raw).value);
        cachedClient := Some(c);
      }
      return Ok(cachedClient.value);
    }

    /** `resetOpenAIClient`. */
    method ResetOpenAIClient()
      modifies this
      ensures cachedClient.None?
    {
      cachedClient := None;
    }
  }

  /** Two calls without a reset between them return the same client even when the key
      changed in between; a failed first call leaves nothing cached. */
  method CachedTwice(cache: ClientCache, first: Option<string>, second: Option<string>)
    returns (a: Result<Client>, b: Result<Client>)
    modifies cache
    ensures a.Ok? ==> b == a
    ensures a.Err? ==> cache.cachedClient.None? == b.Err?
  {
    a := cache.GetOpenAIClient(first);
    b := cache.GetOpenAIClient(second);
  }
}
