# HurtHubV2 core, modelled in Dafny

HurtHubV2 is a business-intelligence application for economic development in Charlotte. It holds a
directory of local businesses and companies. It offers semantic and keyword search over them, an AI
chat assistant whose answers mark up database businesses with light XML-like tags, and analytics
endpoints. A Redux client store keeps the page state.

This project models the parts of that system that compute something definite. Each source file
of the core has one Dafny module:

- the demo-data report script (`DemoReport`);
- the chat-message scanner and the parsed-message queries (`MessageFormatting`, `ParsedMessage`);
- the input validators, the CSV export, the environment configuration and the OpenAI client
  singleton (`Validators`, `CsvExport`, `EnvConfig`, `OpenAIClient`);
- the diagnostics endpoint, the businesses endpoint, the embedding generator, the import and
  id-repair scripts (`Diagnose`, `Businesses`, `GenerateEmbeddings`, `ImportData`, `FixCorruptedIds`);
- the domain entities and the services built on them (`BusinessEntity`, `ConversationEntity`,
  `BusinessService`, `BusinessIntelligence`, `AIBusinessService`, `EmbeddingService`,
  `ConversationService`);
- the API endpoints for context, unified search, AI search, data queries, business analytics,
  analysis, domain knowledge and search debugging (`ContextApi`, `UnifiedSearch`, `AiSearch`,
  `DataQuery`, `BusinessAnalytics`, `Analyze`, `DomainKnowledge`, `DebugSearch`);
- the preview service, the two React hooks and the four store slices (`BusinessPreview`,
  `Gpt5Chat`, `BusinessSearch`, `UiSlice`, `CompaniesSlice`, `DashboardSlice`, `AuthSlice`).

Shared modules hold the language semantics the sources rely on:

- `Wrappers`: optional values and results;
- `Str`: JavaScript string built-ins;
- `Js`: JavaScript values and truthiness;
- `Seqs`: filtering and batching;
- `Ranking`: stable sorts and top-n;
- `Tally`: counters;
- `Dedupe`: keep-first de-duplication;
- `Grouping`: reduce-into-object grouping;
- `Companies`: `companies` table rows and their PostgREST filters.

Code that changes state in place is imperative Dafny. The store slices, the search log, the preview
cache, the client singleton, the environment object and the chat and search hooks are classes. Their
methods give the new state and keep their invariants. The scanning, counting and repair loops are
methods proved equal to recursive specification functions, and the properties are lemmas about those
functions. The database, the language models, the clock, random choices and browser storage are
parameters. Each module's header comment says which.

## Model

| member | source | states |
|---|---|---|
| DemoReport.Get | analyze_demo_data.py:19-21 | `d.get(key, default)`: the default when the key is absent, otherwise a value stored under the key |
| DemoReport.CountIdTypes | analyze_demo_data.py:46-54 | the ID loop: the `id_types` Counter equals the bucket tally of all records, or the loop stops with the AttributeError of the first record that is not a dict |
| DemoReport.IdKindBuckets | analyze_demo_data.py:48-54 | a record lands in exactly one bucket: "Professional (prof-)" iff the id text starts with "prof-", "Numeric" iff it is all digits (and not "prof-"), "Other" otherwise; a missing id is "Other" |
| DemoReport.IdTableCounts | analyze_demo_data.py:46-57 | the three bucket counts sum to the number of records, each count is the number of records in that bucket, and no other label appears |
| DemoReport.TallyProps | analyze_demo_data.py:59-69 | industry and neighbourhood tallies sum to the record count, a missing value counts as "Unknown", at most 10 are printed in non-increasing count with their exact occurrence counts, and no omitted category outnumbers a printed one |
| DemoReport.DuplicateProps | analyze_demo_data.py:71-81 | a name is listed as duplicate iff it occurs more than once (missing name = ""), with its occurrence count, in the order the names were first seen (the count table is keyed in first-seen order and the duplicates are a subsequence of it); at most 10 are listed |
| DemoReport.RepeatedKeeps | analyze_demo_data.py:75 | the dict comprehension keeps every entry whose count is above 1 |
| DemoReport.RepeatedOrder | analyze_demo_data.py:75 | the comprehension is the filter of the count table on counts above 1: it keeps exactly those entries, in the table's insertion order |
| DemoReport.AnyHas | analyze_demo_data.py:98 | `has_embedding` holds iff some record has the "embedding" key, whatever its value |
| DemoReport.AgeProps | analyze_demo_data.py:101-105 | age buckets are printed sorted ascending by key, at most 10, each with its occurrence count; numbers mixed with strings (such as the "Unknown" default) make `sorted` raise |
| DemoReport.AgeLeTotalPreorder | analyze_demo_data.py:104 | the key order used by `sorted` on ages is a total preorder |
| DemoReport.ReportShape | analyze_demo_data.py:9-120 | the printed output is never empty, only its last line can be an error line, and it is one exactly when the footer's last value line was not printed |
| DemoReport.FileErrors | analyze_demo_data.py:115-118 | a missing file and malformed JSON each print exactly one line, the matching error line |
| DemoReport.NoBusinessesKey | analyze_demo_data.py:107-120 | without a "businesses" key the footer prints the claimed total and then the generic handler reports the unbound name |
| DemoReport.SummaryIsDemo | analyze_demo_data.py:111 | the footer's demo flag is "Unknown" for an empty array and False when the first record lacks `isDemo` |
| MessageFormatting.ParseAIResponse | src/core/services/MessageFormattingService.ts:13-16 | the parsed message holds exactly the segments `parseXMLTags` produces for the content |
| MessageFormatting.ParseXmlTags | src/core/services/MessageFormattingService.ts:22-96 | the cursor loop pushes exactly the segments of the round-by-round specification `Xml`; every round strictly advances `position`, so the loop terminates |
| MessageFormatting.BlankInput | src/core/services/MessageFormattingService.ts:26-29 | empty or whitespace-only input yields exactly one TEXT segment "No response available"; other input is scanned from index 0 |
| MessageFormatting.PlainInput | src/core/services/MessageFormattingService.ts:82-92 | non-blank input without '<' yields exactly one TEXT segment equal to the whole input |
| MessageFormatting.UnclosedTag | src/core/services/MessageFormattingService.ts:35-39 | a '<' with no later '>' turns the rest of the input into one TEXT segment and ends the scan |
| MessageFormatting.ParagraphTag | src/core/services/MessageFormattingService.ts:46-58 | any tag whose name starts with 'p' opens a paragraph: the text up to the first later `</p>` is parsed inline, followed by TEXT "\n\n", and scanning resumes after `</p>` |
| MessageFormatting.ClosingTag | src/core/services/MessageFormattingService.ts:74-76 | a stray `</p>`, `</list>`, `</item>` or `</business>` is dropped and scanning resumes after it |
| MessageFormatting.UnknownTag | src/core/services/MessageFormattingService.ts:77-81 | any other tag is emitted verbatim as TEXT and scanning resumes after its '>' |
| MessageFormatting.ListTypeSpec | src/core/services/MessageFormattingService.ts:61-62 | the list is numbered iff the leftmost `type="numbered\|bullet"` match is "numbered"; otherwise, including when no type is given, it is a bullet list |
| MessageFormatting.ParseListContent | src/core/services/MessageFormattingService.ts:101-138 | the item loop produces, for each complete `<item>…</item>` in order, its marker, its inline segments and TEXT "\n" |
| MessageFormatting.RenderSnoc | src/core/services/MessageFormattingService.ts:116-132 | each item appends its marker (numbered with its position), its inline segments and TEXT "\n" to the list's segments |
| MessageFormatting.ListNumbering | src/core/services/MessageFormattingService.ts:103-125 | in a numbered list the NUMBERED_LIST markers are numbered 1, 2, 3, … in item order and there are no bullets; any other type gives one bullet per item and no numbered marker |
| MessageFormatting.ParseInlineContent | src/core/services/MessageFormattingService.ts:143-203 | the business-tag loop pushes exactly the segments of the round-by-round specification `InlineFrom` |
| MessageFormatting.DatabaseBusiness | src/core/services/MessageFormattingService.ts:172-185 | `<business db="true">X</business>` becomes a DATABASE_INDICATOR with content "" and businessName trim(X) |
| MessageFormatting.PlainBusiness | src/core/services/MessageFormattingService.ts:186-192 | `<business>X</business>` without `db="true"` becomes TEXT trim(X) |
| MessageFormatting.MalformedBusiness | src/core/services/MessageFormattingService.ts:195-199 | a `<business` never closed emits TEXT "<business" and resumes 9 characters later |
| MessageFormatting.InlineBuilt | src/core/services/MessageFormattingService.ts:143-203 | inline parsing yields only TEXT and DATABASE_INDICATOR segments, never whitespace-only text except an empty trimmed name |
| MessageFormatting.XmlBuilt | src/core/services/MessageFormattingService.ts:28-199 | only TEXT, NUMBERED_LIST, BULLET and DATABASE_INDICATOR segments are built (never BOLD or ITALIC); markers have empty content; the only whitespace texts are "\n\n", "\n" and an empty trimmed name |
| ParsedMessage.BusinessName | src/core/valueObjects/ParsedMessage.ts:38-43 | `getBusinessName` gives a value iff the segment is a DATABASE_INDICATOR carrying a name, and then it is that name; undefined otherwise |
| ParsedMessage.ListNumber | src/core/valueObjects/ParsedMessage.ts:48-53 | `getListNumber` gives a value iff the segment is a NUMBERED_LIST carrying a number, and then it is that number; undefined otherwise |
| ParsedMessage.HasDatabaseReferencesIff | src/core/valueObjects/ParsedMessage.ts:70-74 | `hasDatabaseReferences()` holds iff filtering for DATABASE_INDICATOR keeps some segment, and holds whenever a business name is listed |
| ParsedMessage.NamesOfProps | src/core/valueObjects/ParsedMessage.ts:79-84 | a name is listed iff some DATABASE_INDICATOR segment carries it (undefined names omitted); the list is no longer than the segments |
| ParsedMessage.NamesOfAppend | src/core/valueObjects/ParsedMessage.ts:79-84 | the filter-map-filter chain keeps order and multiplicity: the names of joined segment lists are the joined names, and each segment adds its one name or none |
| ParsedMessage.SegmentsByTypeProps | src/core/valueObjects/ParsedMessage.ts:89-91 | `getSegmentsByType(t)` keeps exactly the segments of type t, as a subsequence in their original order |
| ParsedMessage.SegmentsByTypeAppend | src/core/valueObjects/ParsedMessage.ts:89-91 | filtering by type distributes over concatenation |
| ParsedMessage.SegmentsByTypeNone | src/core/valueObjects/ParsedMessage.ts:89-91 | with no segment of type t the filter is empty |
| ParsedMessage.PlainTextAppend | src/core/valueObjects/ParsedMessage.ts:96-111 | `toPlainText` is one piece per segment joined with "": the text of a concatenation is the concatenation of the texts |
| ParsedMessage.PlainTextOfText | src/core/valueObjects/ParsedMessage.ts:106-110 | with no indicator or list marker, the plain text is the segment contents joined in order |
| ParsedMessage.IsEmptyIff | src/core/valueObjects/ParsedMessage.ts:116-127 | `isEmpty()` holds iff every segment is a TEXT/BOLD/ITALIC segment with whitespace-only content (so any marker or indicator makes it non-empty) |
| Validators.EmailAccepts | src/utils/validators.ts:8-11 | every `local@host.top` whose three parts are non-empty and free of whitespace and '@' is accepted |
| Validators.EmailSplits | src/utils/validators.ts:8-11 | every accepted address splits as `local@host.top` with non-empty parts free of whitespace and '@' (with EmailAccepts: exactly the regular expression's language) |
| Validators.EmailOneAt | src/utils/validators.ts:8-11 | an accepted address has no whitespace and exactly one '@' |
| Validators.ParsePhoneSound | src/utils/validators.ts:16-19 | what the phone matcher accepts is a well-formed number (optional "+1" and one space, 3-digit area code bare or parenthesised, optional separator, 3 digits, optional separator, 4 digits) and renders back to the input |
| Validators.ParsePhoneComplete | src/utils/validators.ts:16-19 | every well-formed phone number is accepted and parsing recovers its parts |
| Validators.IsValidPassword | src/utils/validators.ts:36-66 | the errors are the messages of the failing checks in check order, and isValid holds iff errors is empty iff all five checks pass |
| Validators.FailedProps | src/utils/validators.ts:42-60 | each check's message appears iff that check fails, at most once, and messages keep the order length, lowercase, uppercase, digit, special |
| Validators.SanitizeIsEscape | src/utils/validators.ts:71-79 | because '&' is replaced first, the chain of six replacements escapes every character exactly once (equals a single-pass escape) |
| Validators.SanitizeEscapes | src/utils/validators.ts:71-79 | the output contains none of `< > " ' /`, and every '&' in it starts one of the six entities |
| Validators.UnescapeSanitize | src/utils/validators.ts:71-79 | decoding the six entities in the sanitised text gives back the input |
| Validators.ZipAccepts | src/utils/validators.ts:84-87 | every 5-digit code, optionally followed by '-' and 4 digits, is accepted |
| Validators.ZipSplits | src/utils/validators.ts:84-87 | every accepted ZIP code is such a rendering (exactly the regular expression's language) |
| Validators.IsEmptyIff | src/utils/validators.ts:92-94 | `isEmpty` holds iff the value is null/undefined or trims to "" |
| Validators.IntegerInRange | src/utils/validators.ts:99-116 | for an integer value the result is true iff it respects each given min and max bound |
| Validators.RejectsFractions | src/utils/validators.ts:110-111 | with `allowFloat: false` a non-integer is rejected whatever the bounds, and NaN is always rejected |
| CsvExport.ExportCsv | export-companies-to-csv.mjs:33-58 | nothing is exported iff the list is empty; otherwise the text is the header of the first company's keys followed by one row per company, in order |
| CsvExport.Cells | export-companies-to-csv.mjs:46-56 | every data row has exactly one field per header column |
| CsvExport.PlainQuote | export-companies-to-csv.mjs:51-55 | a value without ',', '\n' or '"' is emitted unchanged |
| CsvExport.ReadFieldQuote | export-companies-to-csv.mjs:49-55 | reading a written field back (dropping the outer quotes and turning "" into ") gives the original text, as in section 2 (rules 6-7) of RFC 4180 |
| CsvExport.ReadHeader | export-companies-to-csv.mjs:39-42 | the header line reads back as the first company's keys in order, ending at its '\n' |
| CsvExport.ReadOneRow | export-companies-to-csv.mjs:45-58 | one exported row reads back as the company's cell texts (null/undefined as ""), one per column, ending at its '\n' |
| CsvExport.ReadExport | export-companies-to-csv.mjs:38-58 | reading the whole exported text gives the header's columns followed by each company's cell texts, in order |
| CsvExport.IndustrySummaryProps | export-companies-to-csv.mjs:69-81 | the industry summary (missing industry as "Unknown") lists every industry once in non-increasing count, and the counts sum to the number of companies |
| EnvConfig.OrDefault | src/config/env.ts:46-57 | `value \|\| fallback`: the fallback exactly when the variable is undefined or "", the value otherwise |
| EnvConfig.Strip | src/config/env.ts:102 | removing `" ' \r \n` leaves none of them and keeps every other character in order |
| EnvConfig.ParseBooleanProps | src/config/env.ts:94-105 | the default is used only for undefined; a defined value does not depend on the default, "true" in any letter case parses as true, and quotes wrapped around the word do not change the result |
| EnvConfig.DefaultConfig | src/config/env.ts:43-92 | with no variables set the configuration is development with the listed URL and flag defaults, and it passes validation |
| EnvConfig.EnvironmentExclusive | src/config/env.ts:226-236 | each of the three APP_ENV values makes exactly its own predicate true; any other (unchecked) value makes all three false |
| EnvConfig.ServiceChecks | src/config/env.ts:239-255 | `hasAnalytics` iff GOOGLE_ANALYTICS_ID is non-empty and ENABLE_ANALYTICS is set; `hasOpenAI` equals ENABLE_AI_FEATURES; Mapbox and Sentry need a non-empty token |
| EnvConfig.ConfigErrors | src/config/env.ts:108-119 | at most two errors, and some error iff the environment is production and the API URL lacks "https://" or the WebSocket URL lacks "wss://" |
| EnvConfig.Environment.ValidateConfig | src/config/env.ts:107-139 | throws iff production and a URL scheme check fails, with the errors joined under the fixed heading; outside production it never throws |
| EnvConfig.Load | src/config/env.ts:38-41 | constructing the environment fails iff validation throws; otherwise the configuration is the loaded one |
| EnvConfig.Environment.UpdateFeatureFlag | src/config/env.ts:263-278 | in development the flag is set to the value; otherwise the configuration is unchanged |
| EnvConfig.SetFlagOnly | src/config/env.ts:273 | setting one flag changes that flag alone; other flags, the environment name and the URLs keep their values |
| EnvConfig.Environment.constructor | src/config/env.ts:38-41 | an environment that construction does not reject holds the loaded configuration; construction is only defined where validation does not throw |
| OpenAIClient.TrimmedKey | lib/openai-singleton.ts:80-82 | the trimmed key is absent iff the variable is missing or blank; when present it is the non-empty trimmed value |
| OpenAIClient.ExpectedLength | lib/openai-singleton.ts:93-94 | 164 iff the key starts with "sk-proj-", otherwise 51 |
| OpenAIClient.ValidateOpenAIConfig | lib/openai-singleton.ts:71-124 | a missing or blank key gives isValid=false, hasKey=false, keyLength 0, expectedLength 164; a key not starting with "sk-" is invalid with isProjectKey=false; isValid iff the trimmed key starts with "sk-"; isProjectKey iff valid and "sk-proj-" |
| OpenAIClient.AnyLengthValid | lib/openai-singleton.ts:96-113 | any "sk-" key is valid whatever its length, which is reported as keyLength |
| OpenAIClient.TrimInvariant | lib/openai-singleton.ts:80 | surrounding whitespace never changes the validation result |
| OpenAIClient.ClientError | lib/openai-singleton.ts:19-28 | `getOpenAIClient` throws (for a missing or non-"sk-" key) exactly when `validateOpenAIConfig` reports the key invalid; a length mismatch never throws |
| OpenAIClient.ClientCache.GetOpenAIClient | lib/openai-singleton.ts:16-58 | a cached client is returned unchanged whatever the current key; otherwise the error is returned with nothing cached, or a new client for the trimmed key (3 retries, 30000 ms) is created and cached |
| OpenAIClient.ClientCache.ResetOpenAIClient | lib/openai-singleton.ts:63-65 | the cache is cleared |
| OpenAIClient.CachedTwice | lib/openai-singleton.ts:16-58 | two calls without a reset return the same client even when the key changed in between |
| OpenAIClient.ClientCache.constructor | lib/openai-singleton.ts:9 | no client is cached at first |
| OpenAIClient.Client.constructor | lib/openai-singleton.ts:50-54 | the client keeps the key it is given, with 3 retries and a 30000 ms timeout |
| Diagnose.Raise | api/diagnose.ts:246-296 | a status update moves to the higher of the current status and the finding's level: critical is set unconditionally, a warning moves healthy to degraded only |
| Diagnose.RaiseNeverLowers | api/diagnose.ts:241-299 | no update ever lowers the status, and repeating an update changes nothing |
| Diagnose.CheckOpenAIKey | api/diagnose.ts:89-105 | hasKey iff the raw key is non-empty; keyLength is the raw length; expectedLength is 164 iff the trimmed key starts with "sk-proj-", else 51; needsTrim iff raw differs from trimmed; lengthValid iff the non-empty trimmed length equals expectedLength |
| Diagnose.InlineAgrees | api/diagnose.ts:109-135 | the inline validation agrees with `validateOpenAIConfig` except for the error wording, and except that a missing key reports expectedLength 51 instead of 164 |
| Diagnose.BlankKeyNeedsTrim | api/diagnose.ts:92-105 | a whitespace-only key counts as present and draws the whitespace warning (degraded), not the missing-key one |
| Diagnose.KeyAdviceAtMostOne | api/diagnose.ts:242-257 | at most one of the three key recommendations is added, by else-if precedence; none iff the key is present, needs no trim and has the expected length |
| Diagnose.AdviseKey | api/diagnose.ts:242-257 | the key recommendation is appended and the status raised to its level |
| Diagnose.AdviseConnection | api/diagnose.ts:259-274 | a failed OpenAI connection appends the invalid-key advice (critical) when its error mentions "401", else the failure warning (degraded) |
| Diagnose.AdviseSupabase | api/diagnose.ts:276-299 | missing URL and missing service key are each critical; a failed connection is a warning; an empty company table adds the info line without changing the status |
| Diagnose.Recommend | api/diagnose.ts:239-316 | the recommendation pass produces the recommendations in source order and the highest status any finding raises |
| Diagnose.StatusMeaning | api/diagnose.ts:241-299 | the status is critical iff the key is missing, the connection error mentions "401", or a Supabase setting is missing; healthy iff no check raised a warning either |
| Diagnose.AllOkIff | api/diagnose.ts:312-314 | "All systems operational" is added iff no other recommendation was produced, and then it is the only one |
| Diagnose.StatusCode | api/diagnose.ts:319-324 | the HTTP status is 500 for critical, 503 for degraded and 200 for healthy |
| Diagnose.Handler | api/diagnose.ts:57-327 | OPTIONS answers 200; a missing SUPABASE_URL or service key throws before any check; otherwise the report carries the key check, the recommendations and status of the pass and the matching status code, the OpenAI connection is tested iff the key is valid, and neither "not found" recommendation nor "All systems operational" can appear |
| Diagnose.SupabaseNeverMissing | api/diagnose.ts:277-314 | once both Supabase settings are present and a connection result exists, some recommendation is always produced and neither "not found" branch fires |
| Businesses.ParseAddress | api/businesses.ts:272-329 | a blank headquarters gives line1 "Address not available" with every other field empty; three or more comma parts give street, city, state and an optional zip; two parts give street and city in NC; a single part is a city when shorter than 50 characters without digits, else a street; line2 is always empty |
| Businesses.ParseRendered | api/businesses.ts:272-329 | parsing "street, city, state" built from clean parts gives back exactly that street, city and state |
| Businesses.WithZipCode | api/businesses.ts:237-240 | an address with a truthy zip_code and no truthy zipCode gains zipCode equal to zip_code and keeps every other key; any other value is returned unchanged |
| Businesses.TransformFields | api/businesses.ts:233-270 | the transformed record's address is the joined or parsed address, employees is employees_count and yearEstablished is founded_year |
| Businesses.TransformEmployees | api/businesses.ts:245-246 | employees is copied from employees_count |
| Businesses.TransformYear | api/businesses.ts:265-266 | yearEstablished is copied from founded_year |
| Businesses.TransformAddressField | api/businesses.ts:233-247 | the address field is the joined address with zipCode added, or the parsed headquarters |
| Businesses.TransformReviews | api/businesses.ts:251-268 | reviewCount is ext_financials.reviewCount unless that is nullish, else the number of reviews (0 when absent); reviews defaults to an empty array |
| Businesses.TransformKeeps | api/businesses.ts:242-243 | every property the transform does not override is carried over unchanged by the spread |
| Businesses.TransformAddress | api/businesses.ts:234-240 | a joined address with only zip_code gets the same zipCode; with no joined address the address parsed from headquarters is used |
| Businesses.JoinedZip | api/businesses.ts:234-240 | whatever the fallback, a joined address with only zip_code ends with zipCode equal to it |
| Businesses.ListParam | api/businesses.ts:76-85 | an absent or empty parameter gives no list; a single value a one-element list; a repeated parameter its list of values |
| Businesses.NormalizeGet | api/businesses.ts:61-104 | the GET query string becomes a request: industry is absent iff the parameter is absent or empty; page, limit, sortBy and sortOrder default to 1, 20, "revenue" and "desc"; a decimal page parses to its value |
| Businesses.FromBody | api/businesses.ts:110-136 | a POST body's page and limit are used as given, defaulting to 1 and 20 |
| Businesses.SortField | api/businesses.ts:190-200 | the ordering column is always one of the allowed sort fields: the requested one when it is allowed, else "revenue" |
| Businesses.PagesTile | api/businesses.ts:204-206 | page p of size l asks for exactly l rows, starting right after page p-1; page 1 is rows 0 to l-1 and no page of p >= 1 starts below 0 |
| Businesses.BuildQuery | api/businesses.ts:138-206 | the clauses the method appends are exactly the query of the specification function |
| Businesses.QueryShape | api/businesses.ts:138-206 | the query always starts with status = active, has no other equality clause, and ends with the order on the sort field (ascending iff sortOrder is "asc") and the page range |
| Businesses.QueryTextual | api/businesses.ts:150-173 | an industry, location or search-text `.or` clause appears exactly when that filter is given and non-empty, with the search text trimmed, and no other `.or` clause appears |
| Businesses.BoundsApart | api/businesses.ts:175-187 | each of the four numeric bounds contributes its clause exactly when it is given and non-zero, and never one of the other bounds' clauses |
| Businesses.ComparisonsAreBounds | api/businesses.ts:175-187 | a comparison clause is in the query iff it is one of the four bounds' clauses |
| Businesses.QueryNumeric | api/businesses.ts:175-187 | the revenue and employee bounds appear iff given and not 0, and every comparison is on revenue or employees_count |
| Businesses.TotalPages | api/businesses.ts:226 | the page count is finite iff the limit is a non-zero number; for a positive limit it is the least n with n·limit >= count |
| Businesses.LastPageHoldsLastRow | api/businesses.ts:204-226 | for a non-empty result, the last page exists and its range contains the last row |
| Businesses.NonEmpty | api/businesses.ts:351-352 | `.filter(Boolean)` keeps exactly the non-empty strings |
| Businesses.UniqueSortedProps | api/businesses.ts:346-348 | `[...new Set(v)].sort()` is sorted, duplicate-free and has exactly the elements of v |
| Businesses.LocationOptionsProps | api/businesses.ts:351-353 | the locations are sorted, duplicate-free and are exactly the non-empty cities and states of the addresses |
| Businesses.LocationOptionsMember | api/businesses.ts:351-353 | a string is offered as a location iff it is non-empty and the city or state of some address |
| Businesses.FilterOptionsProps | api/businesses.ts:331-359 | industries are the sorted distinct industry values, locations the sorted distinct non-empty cities and states, neighborhoods and businessTypes repeat them and clusters is empty |
| Businesses.FilterOptionsMissing | api/businesses.ts:346-371 | missing lookups and a failed lookup both give empty option lists instead of an error |
| Businesses.OrUnknown | api/businesses.ts:425-447 | the key is "Unknown" iff the value is missing, empty or itself "Unknown" |
| Businesses.AnalyticsQueryWeaker | api/businesses.ts:374-392 | the analytics query keeps only the status and industry clauses of the main query, so it sees a superset of the listed companies |
| Businesses.RevenueTotalIsSum | api/businesses.ts:414-421 | the revenue and employee totals are the sums over all companies, missing values counting 0 |
| Businesses.IndustryGroupsProps | api/businesses.ts:424-433 | every company is in exactly one industry group ("Unknown" when missing): group counts add to the number of companies, revenues and employees to the totals, groups appear in first-seen order and each counts exactly the companies with its key |
| Businesses.TopIndustriesProps | api/businesses.ts:435-443 | topIndustries has at most 10 entries in non-increasing count, each with the count, revenue and employees of exactly its companies, and no industry left out has more companies than one kept |
| Businesses.TopOfEntries | api/businesses.ts:446-469 | the ten largest neighbourhood entries are sorted by count, each counting and rating exactly the companies of its city |
| Businesses.TopNeighborhoodsProps | api/businesses.ts:446-469 | topNeighborhoods has at most 10 cities in non-increasing count, each with the number of its companies and the mean of their truthy ratings (0 when none) |
| Businesses.NeighborhoodEntryAt | api/businesses.ts:446-467 | each neighbourhood entry counts and rates exactly the companies of its city |
| Businesses.AnalyticsAverages | api/businesses.ts:396-477 | no companies give the all-zero analytics; otherwise totalCompanies is the number of rows and the averages times it give back the totals |
| Businesses.AnalyticsNone | api/businesses.ts:396-477 | a missing or empty result gives the all-zero analytics |
| Businesses.AnalyticsMeans | api/businesses.ts:396-477 | for a non-empty result, the averages times the number of companies give back the revenue and employee totals |
| Businesses.GetBusinesses | api/businesses.ts:128-231 | a database error gives "Database query failed: " plus its message; otherwise the page carries the transformed rows, page, limit, the filter options, the analytics and source "database", and, since the query asks for no count, a total of 0 and the page count of 0 rows |
| Businesses.TotalAsWritten | api/businesses.ts:208-226 | a successful query that returns rows still reports a total of 0 and 0 pages for any positive limit |
| Businesses.GetBusinessesCounted | api/businesses.ts:223-226 | with the exact count of matching rows, the page reports that count as its total and its page count |
| Businesses.CountedPagesCover | api/businesses.ts:204-226 | with the exact count, every matching row lies in the range of one of the pages 1..totalPages |
| Businesses.RowOnPage | api/businesses.ts:204-205 | row j lies in the range requested for page j / limit + 1, which is among the first n pages when j < n·limit |
| Businesses.Handler | api/businesses.ts:24-126 | OPTIONS is answered 200 with no body before anything else; a missing SUPABASE_URL, then a missing service key, gives 500 with its message; other methods than GET and POST give 405; a page is served iff the method is GET or POST, both variables are set and the query succeeded |
| Businesses.HandlerServes | api/businesses.ts:61-114 | a served page is the one `getBusinesses` computes from the normalised query string of a GET or from the body of a POST, with status 200 |
| GenerateEmbeddings.Shorten | api/generate-embeddings.ts:311-317 | a description of at most 500 characters is kept; a longer one is cut to its first 500 characters followed by "...", so never more than 503 |
| GenerateEmbeddings.PushText | api/generate-embeddings.ts:261-300 | a text column is appended with its label exactly when it is truthy, and the parts are otherwise unchanged |
| GenerateEmbeddings.PushNumber | api/generate-embeddings.ts:303-308 | a numeric column is appended with its label exactly when it is non-zero |
| GenerateEmbeddings.EmbeddingParts | api/generate-embeddings.ts:257-318 | at most eleven parts, in the fixed order name, industry, sector, NAICS, type, location, parent company, year, employees, revenue, description |
| GenerateEmbeddings.CreateEmbeddingText | api/generate-embeddings.ts:257-321 | the text built by pushing the present parts one by one is the parts joined with ". " |
| GenerateEmbeddings.ZeroOmitted | api/generate-embeddings.ts:261-308 | a revenue or employee count of 0, or an empty name, adds no part, exactly as a missing one |
| GenerateEmbeddings.HeadquartersFirst | api/generate-embeddings.ts:284-290 | with a headquarters the location part is "Location: " plus it, whatever the neighbourhood, city and state |
| GenerateEmbeddings.StateAloneNoLocation | api/generate-embeddings.ts:286-290 | without a headquarters, neighbourhood or city there is no location part even when a state is given |
| GenerateEmbeddings.NameFirst | api/generate-embeddings.ts:261-320 | a record with a name has it as its first part, so the text starts with the name |
| GenerateEmbeddings.NameText | api/generate-embeddings.ts:227-247 | a record's name as a template literal renders it: the name itself, or "null" for a NULL name column |
| GenerateEmbeddings.EveryRecordAccounted | api/generate-embeddings.ts:200-254 | every record of a batch is either counted as processed or reported by exactly one error message |
| GenerateEmbeddings.CountersAppend | api/generate-embeddings.ts:111-123 | the processed count and the error list of two consecutive record runs are the sums and the concatenation of each run's |
| GenerateEmbeddings.ProcessBatch | api/generate-embeddings.ts:200-254 | the batch's result counts the embedded records, skips none and lists one "name: message" error per failed record, so processed plus errors is the batch size |
| GenerateEmbeddings.AddBatch | api/generate-embeddings.ts:111-123 | the counters of a prefix extended by one batch are the prefix's plus that batch's |
| GenerateEmbeddings.RunBatches | api/generate-embeddings.ts:103-127 | processing the records in slices of batchSize gives the same processed count and error list as processing them all at once, and the slices are exactly the batches of the records |
| GenerateEmbeddings.ConfigError | api/generate-embeddings.ts:35-68 | the configuration is accepted iff SUPABASE_URL and the service key are set and the trimmed OpenAI key is non-empty |
| GenerateEmbeddings.Handler | api/generate-embeddings.ts:17-143 | OPTIONS is answered 200 empty; anything but POST 405; a configuration error 500 with its message; a failed lookup 500 with "Failed to fetch <table>: "; no records 200 with nothing done; otherwise 200 with the total, the processed count and the errors of all records |
| ImportData.ValidateBusiness | scripts/import-improved-data.mjs:71-80 | the problems are exactly "Missing id" for a falsy id and "Missing name" for a falsy name, in that order, and none iff both are given |
| ImportData.OrNull | scripts/import-improved-data.mjs:90-93 | `v \|\| null` keeps a non-empty text and gives null otherwise |
| ImportData.OrNullCoordinate | scripts/import-improved-data.mjs:94-95 | `v \|\| null` keeps a non-zero coordinate and gives null for 0 or a missing one |
| ImportData.TransformAddressProps | scripts/import-improved-data.mjs:87-98 | the address row keeps line 1, city and state, stores zipCode as zip_code, and holds no empty text or zero coordinate in its optional columns |
| ImportData.TransformAddressFalsyAlike | scripts/import-improved-data.mjs:87-98 | addresses differing only in an empty versus a missing zip code or second line give the same row, so the upsert sees one key |
| ImportData.Round | scripts/import-improved-data.mjs:109 | `Math.round` gives the integer nearest to x, halves rounded up |
| ImportData.RoundWhole | scripts/import-improved-data.mjs:109 | rounding a whole number gives it back |
| ImportData.OrText | scripts/import-improved-data.mjs:106-111 | a non-empty text is used as is, a missing or empty one falls back to the default |
| ImportData.TransformBusinessProps | scripts/import-improved-data.mjs:100-139 | the company row has external_id the business id, status "active", the given address id, industry defaulting to "Other", sector the cluster else the business type else "Other", the rounded revenue (0 when missing), a non-empty description and headquarters that are the business's own when present, no logo and reviewCount defaulting to 0 |
| ImportData.DatePart | scripts/import-improved-data.mjs:151 | the review date is the part of the ISO text before its first 'T', a prefix without 'T' |
| ImportData.TransformReviews | scripts/import-improved-data.mjs:141-153 | no reviews give no rows; otherwise one row per review |
| ImportData.TransformReviewsAt | scripts/import-improved-data.mjs:146-152 | each row belongs to the company and carries its review's rating, its text else its comment, and the date part of its date or null |
| ImportData.InsertRunProps | scripts/import-improved-data.mjs:228-239 | the batches are inserted in order until the first failure: all of them exactly when none fails, otherwise those up to and including the failing one, whose error is reported |
| ImportData.InsertRunAfter | scripts/import-improved-data.mjs:230-239 | batches that all succeeded are followed by the run over the remaining batches |
| ImportData.InsertReviewBatches | scripts/import-improved-data.mjs:228-239 | the insert loop over slices of 500 performs exactly the run of the specification over the review batches |
| ImportData.ReplaceReviews | scripts/import-improved-data.mjs:219-240 | the review step's outcome and writes are those of the specification: delete the old reviews when there are new ones, then insert them batch by batch |
| ImportData.SaveCompany | scripts/import-improved-data.mjs:186-240 | the company step updates the existing company or inserts a new one, then replaces its reviews, as the specification says |
| ImportData.ImportBusiness | scripts/import-improved-data.mjs:155-247 | the whole import performs exactly the writes and reports exactly the outcome of the specification |
| ImportData.ValidationFailsFirst | scripts/import-improved-data.mjs:157-161 | an invalid business writes nothing and fails with "Validation failed: " and its problems joined by ", " |
| ImportData.ImportedIff | scripts/import-improved-data.mjs:155-247 | a business is imported iff it is valid, its complete address (if any) is upserted, its company row saved and every review batch inserted |
| ImportData.SaveOrder | scripts/import-improved-data.mjs:163-216 | a complete address is upserted first; the next write saves the transformed business linked to that address, as an update of the existing company iff there is one |
| ImportData.InsertedAppend | scripts/import-improved-data.mjs:230-239 | the reviews inserted by two write runs are those of each, concatenated |
| ImportData.InsertedInserts | scripts/import-improved-data.mjs:230-234 | inserting the batches inserts their concatenation |
| ImportData.InsertedSingle | scripts/import-improved-data.mjs:232-234 | a single write inserts its batch when it is a review insert and nothing otherwise |
| ImportData.ReviewStageInserted | scripts/import-improved-data.mjs:219-240 | when every batch goes in, the reviews are inserted exactly once and in order, after the old ones are deleted, in ceil(n/500) non-empty batches of at most 500 |
| ImportData.ReviewStageWrites | scripts/import-improved-data.mjs:219-240 | a successful review step inserts exactly the rows, and deletes the old reviews first when there are rows |
| ImportData.ImportedReviews | scripts/import-improved-data.mjs:219-242 | an imported business reports as its review count the number of its reviews, all inserted exactly once in order, with the old ones deleted when it has any |
| ImportData.SuccessCountBound | scripts/import-improved-data.mjs:261-282 | at most every business counts as a success, and all do iff every import succeeded |
| ImportData.CountStep | scripts/import-improved-data.mjs:268-282 | one more outcome adds 1 to the successes and its review count to the total when it is a success |
| ImportData.ImportAll | scripts/import-improved-data.mjs:261-282 | the loop's successCount and totalReviews are those of all outcomes, and successCount plus errorCount is the number of businesses |
| FixCorruptedIds.Lookup | scripts/fix-corrupted-ids.js:51-67 | a name found in the parent-company map gives its mapped id; otherwise no entry has that name |
| FixCorruptedIds.RecreationHasLower | scripts/fix-corrupted-ids.js:121-124 | a text containing "Recreation" contains a lower-case letter |
| FixCorruptedIds.NoLowerNoRecreation | scripts/fix-corrupted-ids.js:121-124 | a text without lower-case letters cannot contain "Recreation" |
| FixCorruptedIds.MappedNoLower | scripts/fix-corrupted-ids.js:51-62 | none of the ten mapped parent ids has a lower-case letter |
| FixCorruptedIds.GeneratedIdProps | scripts/fix-corrupted-ids.js:67 | a generated parent id starts with "REC_" and has no white space and no lower-case letter |
| FixCorruptedIds.ParentIdProps | scripts/fix-corrupted-ids.js:67 | the parent id is the mapped one when the name is mapped, else "REC_" plus the upper-cased name with white-space runs replaced by "_"; either way it has no lower-case letter and so never contains "Recreation" |
| FixCorruptedIds.CorruptedIndices | scripts/fix-corrupted-ids.js:22-34 | the corrupted list holds exactly the in-range positions whose original id is one of the two corrupted texts |
| FixCorruptedIds.AddIndexNames | scripts/fix-corrupted-ids.js:37-40 | pushing an index adds the name as a new group at the end only when it is not already a group |
| FixCorruptedIds.AddIndexFlat | scripts/fix-corrupted-ids.js:37-40 | pushing an index adds exactly that index to the groups' indices |
| FixCorruptedIds.AddIndexFits | scripts/fix-corrupted-ids.js:37-40 | pushing the index of a business into its name's group keeps every index pointing at a business of its group's name |
| FixCorruptedIds.GroupsOfNames | scripts/fix-corrupted-ids.js:22-48 | the groups' names are the corrupted businesses' distinct names in first-seen order, which is what `Object.keys(businessGroups)` counts |
| FixCorruptedIds.GroupsOfFits | scripts/fix-corrupted-ids.js:36-41 | every index of a group points at a business of the group's name |
| FixCorruptedIds.AddIndexDistinct | scripts/fix-corrupted-ids.js:37-40 | adding a new index to duplicate-free groups keeps them duplicate-free and adds just that index |
| FixCorruptedIds.GroupsOfIndices | scripts/fix-corrupted-ids.js:22-45 | the groups' indices appear once each and are exactly the positions whose original id is corrupted |
| FixCorruptedIds.RenumberAndGroup | scripts/fix-corrupted-ids.js:22-45 | the first pass gives every business its 1-based position as id, and its corruption test and groups are those of the original ids |
| FixCorruptedIds.RepairIndices | scripts/fix-corrupted-ids.js:69-93 | each business of a group is repaired exactly once with the group's parent id and no other business changes |
| FixCorruptedIds.RepairedStep | scripts/fix-corrupted-ids.js:66-96 | repairing one more group whose indices are not yet done extends the repaired positions by them |
| FixCorruptedIds.RepairGroups | scripts/fix-corrupted-ids.js:66-96 | the second pass repairs every grouped business once, with its name's parent id, its note and its industry restored, and leaves every other business as it was |
| FixCorruptedIds.Corrected | scripts/fix-corrupted-ids.js:22-96 | the repaired file has as many businesses as the original |
| FixCorruptedIds.FixIds | scripts/fix-corrupted-ids.js:22-108 | the array ends as the specification's repaired file; totalFixed is the number of corrupted businesses and uniqueBusinesses the number of their distinct names |
| FixCorruptedIds.PositionsRange | scripts/fix-corrupted-ids.js:128-130 | the ids 1..n have maximum n and minimum 1 |
| FixCorruptedIds.CorrectedIds | scripts/fix-corrupted-ids.js:116-127 | after the repair every id is the business's position, neither corrupted nor missing, and parses back to that position |
| FixCorruptedIds.CorrectedParent | scripts/fix-corrupted-ids.js:67-124 | a repaired business's parent id never contains "Recreation"; every other business keeps its own |
| FixCorruptedIds.CorrectedPositions | scripts/fix-corrupted-ids.js:116-130 | after the repair the parsed ids are exactly 1, 2, ..., n and no id is corrupted or missing |
| FixCorruptedIds.CorrectedParents | scripts/fix-corrupted-ids.js:121-124 | after the repair no parent id contains "Recreation" iff no business that was not repaired had one that did |
| FixCorruptedIds.CorrectedVerifies | scripts/fix-corrupted-ids.js:115-132 | the script's final check passes iff the file holds 294 businesses and no unrepaired business has a parent id containing "Recreation" |
| BusinessEntity.NumericQuartersProps | src/core/domain/entities/Business.ts:160-165 | the quarters kept are exactly those of q1..q4 that are numbers: one value per numeric quarter, in quarter order |
| BusinessEntity.PresentIsFilter | src/core/domain/entities/Business.ts:165 | keeping the values of the present entries of any list is `filter(typeof v === 'number')`: the same length, and each kept entry is the value at that position |
| BusinessEntity.FromDatabaseProps | src/core/domain/entities/Business.ts:23-54 | the row's columns land under their domain names (employees as employeeCount, year_established as yearFounded); a missing or empty city or state falls back to Charlotte and NC, so neither is ever empty |
| BusinessEntity.OperatingHoursIff | src/core/domain/entities/Business.ts:57-69 | the entity has operating hours exactly when hours_monday is set and non-empty, and they are then the seven hours columns unchanged |
| BusinessEntity.LowerLower | src/core/domain/entities/Business.ts:74 | lower-casing twice is lower-casing once |
| BusinessEntity.IsOpenOnProps | src/core/domain/entities/Business.ts:72-76 | without hours no day is open; with hours each of the seven day names is open iff that day's column is set and not "Closed", and an unknown day name counts as open; the day name is compared case-insensitively |
| BusinessEntity.AgeInYears | src/core/domain/entities/Business.ts:78-81 | null exactly when the founding year is null or 0, and otherwise the years that add back to the current year |
| BusinessEntity.SizeCategory | src/core/domain/entities/Business.ts:83-89 | "Unknown" iff the head count is null or 0, "Micro" below 10, "Small" from 10 to 49, "Medium" from 50 to 249 and "Large" from 250 on |
| BusinessEntity.NetMarginProps | src/core/domain/entities/Business.ts:97-106 | the net margin exists exactly for a positive revenue; multiplied by the revenue it gives 100 times the yearly profit after twelve months of rent, payroll and utilities; it is 100 with no costs and never above 100 with non-negative costs |
| BusinessEntity.QuotientAtMostOne | src/core/domain/entities/Business.ts:104-105 | a profit not above a positive revenue gives a ratio of at most 1 |
| BusinessEntity.SumBounds | src/core/domain/entities/Business.ts:168 | a sum of values within [lo, hi] lies between count·lo and count·hi |
| BusinessEntity.RevenueGrowthProps | src/core/domain/entities/Business.ts:160-170 | the revenue growth is null exactly when no quarter is a number, and otherwise lies between the smallest and the largest numeric quarter |
| BusinessEntity.MeanBounds | src/core/domain/entities/Business.ts:167-169 | the mean of values within [lo, hi] is within [lo, hi] |
| BusinessEntity.TruthyOrNull | src/core/domain/entities/Business.ts:129-143 | `x \|\| null` keeps a non-zero number and turns 0 or null into null |
| BusinessEntity.TruthyOrNullInt | src/core/domain/entities/Business.ts:137 | `x \|\| null` on a count keeps a non-zero count and turns 0 or null into null |
| BusinessEntity.ToJsonProps | src/core/domain/entities/Business.ts:113-155 | the response keeps id and raw figures, formats headquarters as "city, state" (which splits back at the comma when the city has none), takes age and size category from the entity's own methods and status "active"; an operating margin of 0 gives grossMargin 0 but operatingMargin null |
| BusinessEntity.RoundTripFigures | src/core/domain/entities/Business.ts:113-155 | building an entity from a row and rendering it: the employees column fixes the size category and employeeCount, the founding year fixes the age (present iff non-zero, current year minus it) and the quarters fix revenueGrowth |
| ConversationEntity.FromDatabase | src/core/domain/entities/AIConversation.ts:14-24 | the snake_case columns land under their camelCase names unchanged |
| ConversationEntity.CreateNew | src/core/domain/entities/AIConversation.ts:27-43 | a new conversation has an empty id, the given session, messages, embedding and metadata, the current time, and a user id that is null iff none or an empty one was given |
| ConversationEntity.JoinLength | src/core/domain/entities/AIConversation.ts:47-49 | a joined text is as long as its parts together plus one separator between each neighbouring pair |
| ConversationEntity.MessageTextProps | src/core/domain/entities/AIConversation.ts:46-50 | no messages give ""; otherwise the text is as long as the contents plus one space between neighbours, and when no content holds a space, splitting it at spaces gives the contents back |
| ConversationEntity.ToJsonProps | src/core/domain/entities/AIConversation.ts:53-69 | messageCount equals the number of messages carried, and the other fields give the conversation back |
| ConversationEntity.CreateStoreRead | src/core/domain/entities/AIConversation.ts:14-55 | a conversation created and read back from its stored row has the same session and messages, the database's id, their count and their text |
| BusinessService.GetBusinessById | src/core/services/BusinessService.ts:8-14 | the repository's business when it finds one, else the error "Business not found: " plus the id |
| BusinessService.LowerKeepsSpaces | src/core/services/BusinessService.ts:41 | lower-casing changes no character's being white space |
| BusinessService.NormalizeIndustryProps | src/core/services/BusinessService.ts:39-43 | normalising twice is normalising once; the name has no outer white space and no upper-case letter; names differing only in case and outer white space agree |
| BusinessService.LocationQuery | src/core/services/BusinessService.ts:45-55 | the city and state asked for are the given ones when non-empty, else Charlotte and NC, never empty; the neighbourhood is passed on unchanged |
| BusinessService.SizeRangesTile | src/core/services/BusinessService.ts:57-68 | each size range is non-empty, the ranges follow each other without gap from 1 to 99999, no count is in two ranges, and a count in a range gets the entity's size category of the same name |
| BusinessService.TopPerformersProps | src/core/services/BusinessService.ts:70-91 | at most limit businesses from the repository's list, without repetition, in non-increasing metric (null as 0), none left out outranking one kept; "growth" ranks exactly as "revenue" |
| BusinessService.WithoutId | src/core/services/BusinessService.ts:101-102 | exactly the businesses whose id differs from the given one |
| BusinessService.Recommendations | src/core/services/BusinessService.ts:93-104 | an unknown business gives the not-found error; otherwise the first (up to) five businesses of its industry other than itself, in the repository's order, and five whenever there are that many |
| BusinessService.CalculateAnalytics | src/core/services/BusinessService.ts:106-139 | the analytics the forEach over the industry map builds are those of the specification over the industry groups |
| BusinessService.TotalsAreSums | src/core/services/BusinessService.ts:108-109 | the revenue and employee totals are the sums over all businesses, null counting as 0 |
| BusinessService.IndustryGroupsProps | src/core/services/BusinessService.ts:112-119 | every business lands in exactly one industry group ("Unknown" when missing): counts add to the number of businesses, revenues and employees to the totals, groups in first-seen order, each counting exactly its businesses |
| BusinessService.AnalyticsTotals | src/core/services/BusinessService.ts:131-138 | the analytics count every business and add their revenue and employees; no businesses give averages 0 and no top industries, otherwise the averages times the count give back the totals |
| BusinessService.TopIndustriesProps | src/core/services/BusinessService.ts:121-129 | topIndustries holds at most five industries in non-increasing count, each with the count, revenue and employees of exactly its businesses, and no industry left out has more businesses than one kept |
| BusinessIntelligence.IsCompetitorIff | src/core/services/BusinessIntelligenceService.ts:53-64 | a competitor is another business of the same city whose head count (null or 0 as 1) is within a factor of two of the business's, in both directions |
| BusinessIntelligence.MulLess | src/core/services/BusinessIntelligenceService.ts:57-58 | multiplying both sides by a positive number keeps a strict comparison |
| BusinessIntelligence.QuotientBelow | src/core/services/BusinessIntelligenceService.ts:57-58 | comparing two quotients of positive denominators is comparing the cross products |
| BusinessIntelligence.QuotientAbove | src/core/services/BusinessIntelligenceService.ts:57-58 | a quotient exceeds k iff the numerator exceeds k times the denominator |
| BusinessIntelligence.Competitors | src/core/services/BusinessIntelligenceService.ts:53-64 | exactly the industry's businesses that pass the competitor test |
| BusinessIntelligence.CountAbove | src/core/services/BusinessIntelligenceService.ts:119-124 | the number of elements whose key is above v, at most the length |
| BusinessIntelligence.CountAboveInsert | src/core/services/BusinessIntelligenceService.ts:121-122 | inserting an element adds one to the count above v iff its key is above v |
| BusinessIntelligence.CountAboveSort | src/core/services/BusinessIntelligenceService.ts:121-122 | sorting does not change how many keys are above v |
| BusinessIntelligence.CountAboveNone | src/core/services/BusinessIntelligenceService.ts:121-122 | no element is above a bound on every key |
| BusinessIntelligence.InsertAt | src/core/services/BusinessIntelligenceService.ts:121-122 | in a list sorted by descending key, the stable insertion of x lands right after the elements whose key is above its own |
| BusinessIntelligence.FindId | src/core/services/BusinessIntelligenceService.ts:123 | `findIndex` gives the first position holding the id, or none when no element has it |
| BusinessIntelligence.RevenueRankIs | src/core/services/BusinessIntelligenceService.ts:119-124 | the stable sort puts the business first among equal revenues, so its rank is one more than the number of competitors with strictly higher revenue (null as 0) |
| BusinessIntelligence.OthersBefore | src/core/services/BusinessIntelligenceService.ts:120-123 | spliced into a reordering of the competitors, none of which shares its id, the business is the first element with its id |
| BusinessIntelligence.PositionLabelIff | src/core/services/BusinessIntelligenceService.ts:125-130 | the label in whole numbers: Market Leader iff 4(n-rank) >= 3n, Strong Competitor iff 3n > 4(n-rank) >= 2n, Emerging Player iff 2n > 4(n-rank) >= n, Niche Player below that |
| BusinessIntelligence.ThresholdIff | src/core/services/BusinessIntelligenceService.ts:125-129 | a percentile threshold on the real quotient is the same comparison on whole numbers |
| BusinessIntelligence.MarketPositionExtremes | src/core/services/BusinessIntelligenceService.ts:119-131 | a business without competitors is a Niche Player; one with at least three competitors, none out-earning it, is the Market Leader |
| BusinessIntelligence.CountWhere | src/core/services/BusinessIntelligenceService.ts:137-148 | the number of competitors satisfying a test, positive iff some competitor does |
| BusinessIntelligence.Threats | src/core/services/BusinessIntelligenceService.ts:133-152 | at most two messages: the larger-competitors message iff some competitor earns more than 1.5 times the business; the new-entrants message, last, iff some competitor is under three years old; none iff neither holds |
| BusinessIntelligence.MessagesDiffer | src/core/services/BusinessIntelligenceService.ts:139-148 | the two threat messages never coincide |
| BusinessIntelligence.Opportunities | src/core/services/BusinessIntelligenceService.ts:154-172 | at most two opportunities, and none when there are no competitors (the mean rating is then NaN and a set of no neighbourhoods has size 0) |
| BusinessIntelligence.MarketMaturityIff | src/core/services/BusinessIntelligenceService.ts:107-117 | in whole numbers, for n businesses with total age t (unknown as 0): emerging iff t < 5n, growing iff 5n <= t < 10n, mature iff 10n <= t < 20n, declining otherwise |
| BusinessIntelligence.AverageBelow | src/core/services/BusinessIntelligenceService.ts:108-116 | a mean is below t iff the total is below t times the count |
| BusinessIntelligence.CompetitionIntensity | src/core/services/BusinessIntelligenceService.ts:174-179 | low below 3 competitors, medium from 3 to 9, high from 10 to 19, very high from 20 on |
| BusinessIntelligence.IntensityMonotone | src/core/services/BusinessIntelligenceService.ts:174-179 | more competitors never lowers the intensity |
| BusinessIntelligence.CompetitiveLandscape | src/core/services/BusinessIntelligenceService.ts:43-81 | an unknown business gives "Business not found: " plus its id |
| BusinessIntelligence.LandscapeProps | src/core/services/BusinessIntelligenceService.ts:43-81 | a found business's landscape lists, as JSON and in order, exactly the same-industry businesses with another id, the same city and a head count within a factor two (null or 0 read as 1); its position is the label of its revenue rank among them (one more than the number of competitors with higher revenue) and its intensity that of their number |
| AIBusinessService.AnalyzeQueryIntent | src/core/services/AIBusinessService.ts:87-110 | the search is structured exactly when the lower-cased query contains "industry:", "revenue:" or "employees:", and only then carries parsed filters; the query is passed on unchanged |
| AIBusinessService.WordRunEnd | src/core/services/AIBusinessService.ts:116 | `\w+` matches greedily: every character up to the end is a word character and the next one, if any, is not |
| AIBusinessService.IndustryMatch | src/core/services/AIBusinessService.ts:116 | the match is the leftmost position at which `/industry:(\w+)/i` matches, or none when it matches nowhere |
| AIBusinessService.IndustryWord | src/core/services/AIBusinessService.ts:116-119 | the captured industry is a non-empty run of word characters |
| AIBusinessService.OperatorAt | src/core/services/AIBusinessService.ts:121 | `([><]=?)(\d+)` matches at j when s[j] is '>' or '<', optionally followed by '=', and then a digit; the operator says whether it is '>' |
| AIBusinessService.RevenueMatch | src/core/services/AIBusinessService.ts:121 | the match is the leftmost position at which `/revenue:([><]=?)(\d+)/i` matches, or none when it matches nowhere |
| AIBusinessService.LowerSlice | src/core/services/AIBusinessService.ts:93-121 | lower-casing a slice is slicing the lower-cased text, so the case-insensitive match reads the original's characters |
| AIBusinessService.FiltersImplyStructured | src/core/services/AIBusinessService.ts:96-131 | a filter is only ever parsed from a query the intent check calls structured |
| AIBusinessService.IndustryWordOf | src/core/services/AIBusinessService.ts:116-119 | "industry:" followed by a word gives exactly that word as the one-element industry list |
| AIBusinessService.WordRunAll | src/core/services/AIBusinessService.ts:116 | a run of word characters to the end of the text ends at the end |
| AIBusinessService.DigitRunAll | src/core/services/AIBusinessService.ts:121 | a run of digits to the end of the text ends at the end |
| AIBusinessService.RevenueFilterOf | src/core/services/AIBusinessService.ts:121-128 | ">" and ">=" followed by a number set a minimum, "<" and "<=" a maximum, of exactly the written value |
| AIBusinessService.RevenueWithoutOperator | src/core/services/AIBusinessService.ts:121-128 | "revenue:" with a number but no operator sets no bound |
| AIBusinessService.HeaderNoBreak | src/core/services/AIBusinessService.ts:143 | the header line holds no line break |
| AIBusinessService.ContextSplit | src/core/services/AIBusinessService.ts:138-143 | when no shown line holds a break, splitting the context at line breaks gives the header and the lines of the first five businesses |
| AIBusinessService.ContextLineStarts | src/core/services/AIBusinessService.ts:139 | each business's line starts with "- " and its name |
| AIBusinessService.ContextNotEmpty | src/core/services/AIBusinessService.ts:133-144 | some businesses never give the no-results message |
| AIBusinessService.ContextProps | src/core/services/AIBusinessService.ts:133-144 | the no-results message is given iff there are no businesses; otherwise the header reports the full count and one line follows for each of the first five businesses, in order, opening with its name |
| AIBusinessService.PiecesStart | src/core/services/AIBusinessService.ts:138-143 | the header and the lines of the first five hold one line per business shown, each opening with its name |
| AIBusinessService.EnhanceBusinessQuery | src/core/services/AIBusinessService.ts:19-38 | a semantic query takes the semantic search's results, a structured one the repository search with the query and its parsed filters; the context is generated from the businesses returned |
| AIBusinessService.BusinessInsights | src/core/services/AIBusinessService.ts:40-76 | an unknown business gives "Business not found: " plus its id; otherwise the model's non-empty reply, or the fixed fallback text, never empty |
| EmbeddingService.GenerateEmbedding | src/core/services/EmbeddingService.ts:49-60 | the first vector of a reply with data; a thrown error, or a reply without data, becomes an error prefixed "Failed to generate embedding: " with the error's message, or "Unknown error" for a non-Error |
| EmbeddingService.NonEmpty | src/core/services/EmbeddingService.ts:63-69 | `.filter(Boolean)` keeps exactly the non-empty parts |
| EmbeddingService.CreateBusinessTextProps | src/core/services/EmbeddingService.ts:62-72 | the text is never empty (the state part is at least "NC"), and when no part holds a space, splitting it at spaces gives back exactly the non-empty parts, in order |
| EmbeddingService.JoinNonEmpty | src/core/services/EmbeddingService.ts:71 | a join whose first part is non-empty is non-empty |
| EmbeddingService.Stored | src/core/services/EmbeddingService.ts:23-40 | no more businesses are stored than tried |
| EmbeddingService.StoredStep | src/core/services/EmbeddingService.ts:23-40 | trying one more business appends its id to the stored ones exactly when its attempt succeeds |
| EmbeddingService.GenerateBusinessEmbeddings | src/core/services/EmbeddingService.ts:11-47 | every business is tried once, in order; processed plus errors is the total number of businesses, and processed is the number of successful stores |
| EmbeddingService.StoredIff | src/core/services/EmbeddingService.ts:23-40 | an id is stored exactly when the attempt for some business with that id succeeded |
| EmbeddingService.StoredHas | src/core/services/EmbeddingService.ts:23-40 | a business whose embedding and update both succeed has its id stored |
| EmbeddingService.StoredFrom | src/core/services/EmbeddingService.ts:23-40 | every stored id belongs to a business whose embedding and update both succeeded |
| EmbeddingService.AllStored | src/core/services/EmbeddingService.ts:23-40 | when the model and the repository never fail, every business is stored |
| ConversationService.StoreConversation | src/core/services/AIConversationService.ts:11-31 | the conversation handed to the repository has an embedding iff there is a message, namely that of the contents joined with spaces (empty when the call failed), an empty id, the given session, messages, metadata and time, and the given user id when non-empty |
| ConversationService.AllMessagesAppend | src/core/services/AIConversationService.ts:41 | flattening distributes over concatenation, so messages come conversation by conversation in repository order |
| ConversationService.AllMessagesEmpty | src/core/services/AIConversationService.ts:41 | the flattened messages are empty exactly when every conversation's are |
| ConversationService.RetrieveConversation | src/core/services/AIConversationService.ts:33-47 | the result carries the conversations found and, for a single conversation, exactly its messages |
| ConversationService.CollectHits | src/core/services/AIConversationService.ts:67-81 | the pushes collect the semantic hits, then the keyword hits, then the recent hits, each sub-search limited to ceil(limit/2) except the recent one |
| ConversationService.SearchConversations | src/core/services/AIConversationService.ts:49-96 | the results are the merged hits de-duplicated, sorted by relevance and cut to limit; the strategy is "enhanced" iff there is a result, else "fallback"; totalResults counts the results and queryTerms are the extracted terms |
| ConversationService.SearchProps | src/core/services/AIConversationService.ts:49-96 | at most limit results in non-increasing relevance, one per (session, strategy) pair, each found by one of the strategies; none only when limit is 0 or no strategy found anything |
| ConversationService.SummarizeConversation | src/core/services/AIConversationService.ts:98-142 | a session without messages fails with "No messages found for session" and a failed completion with its error; otherwise the completion's text (or "") with its key topics, the sentiment of the messages and their number |
| ConversationSearch.StripNonWord | src/core/services/AIConversationService.ts:246 | removing `[^\w]` leaves the term's word characters in order, and leaves a term of word characters unchanged |
| ConversationSearch.LongTokens | src/core/services/AIConversationService.ts:245 | exactly the tokens longer than two characters |
| ConversationSearch.LongTokensOrder | src/core/services/AIConversationService.ts:245 | the long tokens keep their order |
| ConversationSearch.SplitWsChars | src/core/services/AIConversationService.ts:244 | every character of a piece of the split is a character of the text |
| ConversationSearch.SearchTermsProps | src/core/services/AIConversationService.ts:241-247 | no more terms than white-space separated tokens; each term is a stripped lower-case token longer than two characters and holds only lower-case word characters |
| ConversationSearch.TermChar | src/core/services/AIConversationService.ts:241-247 | every character of a term is a word character and not upper case |
| ConversationSearch.PieceChar | src/core/services/AIConversationService.ts:244 | a character of a piece of the split occurs in the text |
| ConversationSearch.LowerNoUpper | src/core/services/AIConversationService.ts:243 | a lower-cased text holds no upper-case letter |
| ConversationSearch.StripAfterLengthTest | src/core/services/AIConversationService.ts:245-246 | the length test reads the raw token, so a kept token can shrink: "a!!" becomes "a" and "!!!" the empty term |
| ConversationSearch.CountFromBound | src/core/services/AIConversationService.ts:208 | the non-overlapping matches of a literal from an index fit in the rest of the text |
| ConversationSearch.MulStep | src/core/services/AIConversationService.ts:208 | one more match adds the pattern's length |
| ConversationSearch.MatchCountProps | src/core/services/AIConversationService.ts:208 | a non-empty literal matches at least once exactly when the text contains it, and at most \|s\|/\|t\| times; the empty pattern always matches |
| ConversationSearch.WordHitsZero | src/core/services/AIConversationService.ts:207-210 | the words have no hits at all exactly when none of them matches |
| ConversationSearch.SentimentLabel | src/core/services/AIConversationService.ts:315-317 | positive iff 2·pos > 3·neg, negative iff 2·neg > 3·pos, neutral otherwise, and neutral when there are no hits |
| ConversationSearch.AnalyzeSentiment | src/core/services/AIConversationService.ts:295-318 | the two counters accumulated word by word give the sentiment of the specification |
| ConversationSearch.NoSentimentWordsNeutral | src/core/services/AIConversationService.ts:295-318 | messages containing none of the twelve words are neutral |
| ConversationSearch.GroupStart | src/core/services/AIConversationService.ts:277-281 | when a cue matches at i, the capture starts after it at a character of the capture's class |
| ConversationSearch.GroupEnd | src/core/services/AIConversationService.ts:277-281 | the greedy run ends at the first character outside the class, or at the end |
| ConversationSearch.Captures | src/core/services/AIConversationService.ts:283-290 | every capture is non-empty and made of the class's characters |
| ConversationSearch.KeyTopicsProps | src/core/services/AIConversationService.ts:275-293 | at most five distinct topics, each a trimmed capture, in first-found order, and five whenever five distinct ones were found |
| ConversationSearch.CapturesNone | src/core/services/AIConversationService.ts:283-290 | a pattern that never matches gives no captures |
| ConversationSearch.NoCueNoTopics | src/core/services/AIConversationService.ts:275-293 | a summary without any of "discussed ", "topic: ", "topics: " or "about " in any case has no key topics |
| ConversationSearch.LowerCue | src/core/services/AIConversationService.ts:278 | the cue "discussed " is already lower case |
| ConversationSearch.CueMatches | src/core/services/AIConversationService.ts:278 | "discussed " followed by a word character starts a capture right after the cue |
| ConversationSearch.GroupEndAll | src/core/services/AIConversationService.ts:278-280 | a run of class characters to the end of the text ends at the end |
| ConversationSearch.DiscussedWord | src/core/services/AIConversationService.ts:278-290 | "discussed " followed by one word captures exactly that word |
| ConversationSearch.WordRunToEnd | src/core/services/AIConversationService.ts:278 | after "discussed " a word runs to the end of the text |
| ConversationSearch.HitKeyInjective | src/core/services/AIConversationService.ts:249-257 | two hits share a de-duplication key exactly when they share session and strategy |
| ConversationSearch.ByRelevanceTotal | src/core/services/AIConversationService.ts:85 | ordering by relevance is a total preorder |
| ConversationSearch.BestProps | src/core/services/AIConversationService.ts:189-226 | a sub-search keeps min(limit, candidates) of its candidates in non-increasing relevance |
| ConversationSearch.SortedByRelevance | src/core/services/AIConversationService.ts:85 | the sort by relevance yields a list sorted by relevance |
| ConversationSearch.TakeOrdered | src/core/services/AIConversationService.ts:86 | a prefix of a relevance-sorted list is relevance-sorted |
| ConversationSearch.TakeMembers | src/core/services/AIConversationService.ts:86 | a prefix of a reordering holds only original elements |
| ConversationSearch.SemanticCandidates | src/core/services/AIConversationService.ts:169-189 | exactly the rows with an embedding whose similarity exceeds 0.3, each with relevance 0.8 times its similarity |
| ConversationSearch.RecencyBoost | src/core/services/AIConversationService.ts:213-214 | the boost is between 0 and 0.2, above only for a date in the future |
| ConversationSearch.KeywordThreshold | src/core/services/AIConversationService.ts:203-224 | a row clears the 0.05 threshold exactly when some term matches its text or it is less than fifteen days old |
| ConversationSearch.ScaleBelow | src/core/services/AIConversationService.ts:213-214 | multiplying by a positive number keeps a strict comparison |
| ConversationSearch.KeywordCandidates | src/core/services/AIConversationService.ts:201-224 | exactly the rows whose keyword relevance exceeds 0.05, each with similarity equal to that relevance |
| ConversationSearch.Ceil | src/core/services/AIConversationService.ts:71-80 | `Math.ceil(n / d)` is the least r with r·d >= n |
| ConversationSearch.RankProps | src/core/services/AIConversationService.ts:83-86 | at most limit results in non-increasing relevance, one per (session, strategy) pair, each a merged hit, and none only when limit is 0 or nothing was merged |
| ContextApi.QuickSummaryText | api/context.ts:526-529 | the first 200 characters (all when shorter) of the newline-joined lines, followed by "..." |
| ContextApi.LastFive | api/context.ts:513 | `slice(-5)` is the last five messages, or all of them when there are fewer |
| ContextApi.StoreContext | api/context.ts:85-129 | no messages gives 400 "No messages to store"; a failed insert the 500 with "Failed to store context: " and its message; otherwise the row is inserted with one embedding per message, the summary refreshed from the last five, and 200 reports the message count |
| ContextApi.SessionRows | api/context.ts:140-153 | exactly the rows of the session |
| ContextApi.RowMessagesIn | api/context.ts:147 | the flattened history holds exactly the messages of the rows |
| ContextApi.RetrieveContext | api/context.ts:131-167 | a failed select gives the 500 with "Failed to retrieve context: " and its message; otherwise 200 with the messages of the session's first limit rows in order, their count and the stored summary |
| ContextApi.ForUser | api/context.ts:254-256 | without a user id every row; with one exactly that user's rows |
| ContextApi.CollectHits | api/context.ts:200-231 | the pushes collect the semantic, keyword and recent hits, in that order, of the specification |
| ContextApi.PerformEnhancedSearch | api/context.ts:200-241 | the pushed hits de-duplicated by "sessionId-type", sorted by relevance and cut to limit |
| ContextApi.SemanticSize | api/context.ts:244-287 | the semantic sub-search returns at most the number asked |
| ContextApi.KeywordSize | api/context.ts:293-347 | the keyword sub-search returns at most the number asked |
| ContextApi.RecentSize | api/context.ts:353-385 | the recent sub-search returns at most twice the number asked, and exactly that many when the user has enough rows |
| ContextApi.TakeIn | api/context.ts:142 | a row of a prefix is a row |
| ContextApi.HitsFromRows | api/context.ts:200-231 | every pushed hit is about a row the user filter let through |
| ContextApi.EnhancedSearchProps | api/context.ts:200-241 | at most limit hits, in non-increasing relevance, one per (session, strategy) pair, all about rows of the requesting user |
| ContextApi.SearchContext | api/context.ts:169-198 | 200 with the query, the ranked hits, "enhanced" iff there is a hit else "fallback", their count and the query's terms |
| ContextApi.SummarizeContext | api/context.ts:405-469 | a failed select or completion gives the 500 with "Failed to summarize context: " and the message; a session without messages gives 404; otherwise the completion's text (or "") is stored with its key topics and the messages' sentiment and reported with the message count |
| ContextApi.Handle | api/context.ts:45-83 | OPTIONS is answered 200 at once; the action picks store, retrieve, search or summarize (a search answers 200 with the query, the ranked merged hits, their number, the strategy "enhanced" or "fallback" by whether any hit was found, and the query terms; a summary is 200 iff the session read succeeds, has messages and the completion succeeds, is 404 for a session without messages, is a 500 with detail "Failed to summarize context: " and the read or completion error when either fails, and on 200 answers the session id, the summary text and the message count and stores the summary with its key topics and sentiment); an unknown action gives 400 "Invalid action"; every 500 reads "Failed to process context request"; nothing is written unless the answer is 200 |
| ContextApi.BadRequestIff | api/context.ts:73-93 | among store and retrieve, the answer is 400 exactly for a store without messages |
| UnifiedSearch.AnyMentionsOne | api/unified-search.ts:318-330 | a field passes a list of needles iff it holds one of them, ignoring case |
| UnifiedSearch.PassesIff | api/unified-search.ts:301-333 | the chain of early returns accepts exactly the rows whose revenue and employees lie within the truthy bounds, with a missing value as 0, and whose industry and headquarters hold one of the requested names when a list is given |
| UnifiedSearch.ApplyFiltersProps | api/unified-search.ts:301-334 | the kept rows are exactly the admitted ones, in their order, and filtering twice is filtering once |
| UnifiedSearch.FilterTwice | api/unified-search.ts:301-334 | applying the filters to their own output changes nothing |
| UnifiedSearch.NoFiltersKeepAll | api/unified-search.ts:301-334 | the default empty filters keep every row |
| UnifiedSearch.KeywordTermsProps | api/unified-search.ts:237-241 | the keyword terms are exactly the white-space pieces of the lower-cased query longer than two characters |
| UnifiedSearch.TakeIn | api/unified-search.ts:216-282 | a row of a prefix is a row |
| UnifiedSearch.SemanticSearchProps | api/unified-search.ts:183-226 | at most limit semantic results, each a match that passes the filters, tagged "semantic"; a failed call gives none |
| UnifiedSearch.KeywordSearchProps | api/unified-search.ts:228-297 | at most limit keyword results, each an active row of the table matching a term and the bounds, in non-increasing revenue with rows without revenue last; a failed query gives none |
| UnifiedSearch.SharesCover | api/unified-search.ts:122-124 | ceil(0.7 limit) and ceil(0.3 limit) never exceed limit and together reach it |
| UnifiedSearch.HybridProps | api/unified-search.ts:120-144 | the hybrid result holds at most limit rows with distinct ids, each taken from the semantic results followed by the keyword results, and exactly limit rows when those hold at least limit distinct ids |
| UnifiedSearch.KeySetSize | api/unified-search.ts:337-344 | rows with distinct ids have as many ids as rows |
| UnifiedSearch.NonEmpty | api/unified-search.ts:350 | the non-empty pieces of a list, and no others |
| UnifiedSearch.KeywordRelevanceProps | api/unified-search.ts:347-366 | without a similarity the score lies in [0, 1], and is 0 exactly when no query term occurs in the row's text and the name does not hold the query |
| UnifiedSearch.WordHitsAtLeast | api/unified-search.ts:355-358 | the total hit count is at least the hits of any one term |
| UnifiedSearch.NoHits | api/unified-search.ts:355-358 | a text without the first letter of any term has no hits |
| UnifiedSearch.LeadingSpaceAsWritten | api/unified-search.ts:350-358 | as written, a query opening with white space yields the empty term, which matches at every position of the text |
| UnifiedSearch.UnrelatedText | api/unified-search.ts:351-352 | the row text of the example company is "acme  " |
| UnifiedSearch.UnrelatedMisses | api/unified-search.ts:355-363 | no non-empty term of " zzz" occurs in the example text and its name does not hold the query |
| UnifiedSearch.PieceHead | api/unified-search.ts:350 | a non-empty white-space piece opens with a non-space character of the text |
| UnifiedSearch.PieceMisses | api/unified-search.ts:355-358 | no non-empty piece of " zzz" occurs in "acme  " |
| UnifiedSearch.ZNotInRow | api/unified-search.ts:355-358 | the letters of " zzz" do not occur in "acme  " |
| UnifiedSearch.EmptyTermInflatesScore | api/unified-search.ts:347-366 | the unrelated row "acme" scores at least 0.7 for the query " zzz" as written, and 0 when only non-empty terms count |
| UnifiedSearch.LowerPlain | api/unified-search.ts:350-352 | lower-casing a text without upper-case letters changes nothing |
| UnifiedSearch.Enhance | api/unified-search.ts:369-415 | one result per result, same company and method; on a reply each gets its reply line or the default text and is marked enhanced, on a failure each is marked not enhanced |
| UnifiedSearch.EnhanceLines | api/unified-search.ts:399-407 | a reply of one non-empty line per result gives result k line k |
| UnifiedSearch.Average | api/unified-search.ts:436-437 | the average times the count is the total |
| UnifiedSearch.SearchAnalytics | api/unified-search.ts:418-419 | no analytics exactly for no results |
| UnifiedSearch.SearchAnalyticsTotals | api/unified-search.ts:418-438 | the count, the sums with missing values as 0, and the averages as those sums over the count |
| UnifiedSearch.TopIndustriesProps | api/unified-search.ts:427-443 | at most five industries, in non-increasing count, each with its number of results, none below an industry left out |
| UnifiedSearch.RelevanceScore | api/unified-search.ts:345-366 | a row's score is its similarity when it has one; otherwise the keyword relevance as written, between 0 and 1, and at least 0.5 when the lower-cased name contains the lower-cased query |
| UnifiedSearch.Scores | api/unified-search.ts:163-167 | each result keeps its row and carries its similarity when it has one; otherwise its keyword relevance as written, which lies in [0, 1] and is at least 0.5 when the lower-cased name contains the lower-cased query |
| UnifiedSearch.RunHybrid | api/unified-search.ts:120-144 | the hybrid branch computes the hybrid specification |
| UnifiedSearch.Handle | api/unified-search.ts:25-181 | OPTIONS gives 200; another verb than POST 405; a missing Supabase URL, service key or OpenAI key 500 "Service configuration error" with that message; a blank query 400 "Query is required"; otherwise 200 with the answer |
| UnifiedSearch.AnswerProps | api/unified-search.ts:99-170 | at most limit results and a count equal to their number; hybrid results have distinct ids; analytics exactly when asked for and there are results |
| UnifiedSearch.SearchedBounded | api/unified-search.ts:102-144 | whichever search runs, at most limit results |
| UnifiedSearch.AnswerBounded | api/unified-search.ts:146-170 | the count and the bound of the answer, and its analytics |
| UnifiedSearch.AnswerDistinct | api/unified-search.ts:120-144 | hybrid answers hold distinct ids |
| AiSearch.AnalyzeSearchIntent | api/ai-search.ts:163-207 | the parsed reply, or the empty intent when the reply has no content; every failure rethrown as "Failed to analyze search intent: " with its message |
| AiSearch.LimitSplit | api/ai-search.ts:222-249 | the semantic search takes at most ceil(0.7 limit), never more than limit, so the keyword slots are never negative; together they make limit once there were semantic hits |
| AiSearch.KeywordSearch | api/ai-search.ts:345-421 | a database error is rethrown with its message; otherwise the answer is the query's rows |
| AiSearch.KeywordRows | api/ai-search.ts:345-421 | the query keeps at most limit active rows matching the intent, highest revenue first (rows without revenue last); a matching row left out ranks no higher than every kept row, and only when limit rows were kept |
| AiSearch.KeywordSearchProps | api/ai-search.ts:345-421 | a successful keyword search returns exactly those rows, each tagged "keyword" and unannotated |
| AiSearch.ScoreFirstTotal | api/ai-search.ts:273-276 | the comparator by similarity, else revenue, else 0, is a total preorder |
| AiSearch.PerformSmartSearch | api/ai-search.ts:210-295 | the steps, with the Set-driven de-duplication, compute the smart search specification |
| AiSearch.RankProps | api/ai-search.ts:424-431 | the ranked list holds at most limit rows with distinct ids, in non-increasing score, each one of the merged rows |
| AiSearch.SemanticOrigin | api/ai-search.ts:298-328 | a semantic hit is one of the database function's matches, tagged "semantic" |
| AiSearch.KeywordOrigin | api/ai-search.ts:345-421 | a keyword hit is an active row matching the intent, tagged "keyword" |
| AiSearch.SmartSearchRanks | api/ai-search.ts:266-277 | a successful smart search is the ranking of hits that all come from one of the two searches |
| AiSearch.SmartSearchProps | api/ai-search.ts:210-295 | the smart search fails only with the keyword query's error, and otherwise returns at most limit distinct rows in non-increasing score, each a semantic match or a matching active row |
| AiSearch.EnhanceWithAI | api/ai-search.ts:434-483 | nothing changes for no results or a failed completion; otherwise every result is kept and annotated with the fixed relevance text and the completion's content |
| AiSearch.EnhanceKeepsRanking | api/ai-search.ts:126-134 | annotating keeps every row, search type, id and score, so ranking and distinct ids survive it |
| AiSearch.CountType | api/ai-search.ts:137-138 | the number of rows of one search type is at most the number of rows |
| AiSearch.CountTypesCover | api/ai-search.ts:137-138 | the semantic and keyword counts add up to all rows when each row came from one of the two searches |
| AiSearch.KeyError | api/ai-search.ts:33-39 | the OpenAI key passes iff its trimmed value is present and starts with "sk-" |
| AiSearch.DatabaseError | api/ai-search.ts:55-67 | the database configuration passes iff the URL and the service-role key are both set |
| AiSearch.Handle | api/ai-search.ts:17-160 | OPTIONS gives 200; a bad key gives 500 "AI service configuration error", a missing database setting 500 "Database configuration error", another verb 405, a blank query 400; a failed intent analysis or keyword query 500 "Search failed" with its message; otherwise 200 with the intent and the (enhanced) results, and exactly then the activity is logged |
| AiSearch.SmartSearchFailure | api/ai-search.ts:236-253 | a failed smart search carries the keyword query's message |
| AiSearch.AnswerProps | api/ai-search.ts:126-150 | a successful answer holds at most limit distinct rows in non-increasing score, and the logged semantic and keyword counts add up to the result count |
| DataQuery.SelectProps | api/data-query.ts:120-222 | a read returns the matching rows of the table in its order, as many as the limit allows, and no matching row left out comes before one returned |
| DataQuery.RevenueDescTotal | api/data-query.ts:148-150 | the order PostgREST applies for `order("revenue", { ascending: false })`: rows without revenue first (NULLs sort first in a descending order), then highest revenue first; it is a total preorder |
| DataQuery.QueryCompanies | api/data-query.ts:120-155 | a company read fails exactly when the table read fails |
| DataQuery.QueryCompaniesProps | api/data-query.ts:120-155 | at most the filter's limit, else 50, active companies matching the filters and the query, in revenue order, none left out ranking above one kept |
| DataQuery.NewestFirstTotal | api/data-query.ts:191-194 | newest publication first is a total preorder |
| DataQuery.QueryDevelopments | api/data-query.ts:157-198 | a development read fails exactly when the table read fails |
| DataQuery.QueryDevelopmentsProps | api/data-query.ts:157-198 | at most the filter's limit, else 20, developments in the date range, of the company, matching the query, newest first, none left out newer than one kept |
| DataQuery.LatestFirstTotal | api/data-query.ts:216-218 | latest date first is a total preorder |
| DataQuery.QueryIndicators | api/data-query.ts:200-223 | an indicator read fails exactly when the table read fails |
| DataQuery.QueryIndicatorsProps | api/data-query.ts:200-223 | at most the filter's limit, else 12, indicators in the date range, latest first, none left out later than one kept |
| DataQuery.TopIndustriesOf | api/data-query.ts:297-309 | at most five industries in non-increasing count, each counted as often as it is a company's industry or "Unknown", none left out with more companies |
| DataQuery.RecentActivityProps | api/data-query.ts:311-325 | at most three dated developments, newest first, none left out newer than one kept |
| DataQuery.AnalyzeEconomicTrends | api/data-query.ts:327-340 | nothing for fewer than two indicators; otherwise the unemployment change from the previous to the latest, and the trend positive iff the latest GDP growth is above 0 |
| DataQuery.GenerateMarketSummary | api/data-query.ts:278-295 | the overview counts the companies and developments and carries the latest indicator exactly when there is one |
| DataQuery.TopMatchesKinds | api/data-query.ts:265-272 | at most six top matches, the companies (up to three) first |
| DataQuery.IntelligentSearchProps | api/data-query.ts:225-276 | a search needs a query, reads at most five companies, five developments and three indicators, indicators only for an economic query, counts every row read and lists at most six top matches, companies first |
| DataQuery.FetchShape | api/data-query.ts:71-118 | only the five query types succeed, and each fills exactly its own lists |
| DataQuery.GetResultCount | api/data-query.ts:342-356 | the counter ends at the number of records in every list present |
| DataQuery.ResultCountAgrees | api/data-query.ts:342-356 | the count equals the search's total, and for a comprehensive query the overview's totals plus the indicators |
| DataQuery.HandlePost | api/data-query.ts:44-68 | a thrown read is a 500 "Failed to query business data" with its message; a success carries the data and its count |
| DataQuery.Handle | api/data-query.ts:30-69 | OPTIONS gives 200, another verb than POST 405 "Method not allowed", and a POST the answer of the POST path |
| BusinessAnalytics.Ensure | api/business-analytics.ts:26-67 | after the check-and-set the key has an entry |
| BusinessAnalytics.GroupByProps | api/business-analytics.ts:23-73 | one key per value the key function takes on the rows, each inserted once, each entry holding exactly that key's businesses with their count, totals and set, and the counts adding up to the number of rows |
| BusinessAnalytics.InGroupMembers | api/business-analytics.ts:40-71 | an entry's business list holds exactly the rows of its key |
| BusinessAnalytics.GroupBySnoc | api/business-analytics.ts:23-73 | visiting one more row is one more insertion into the map |
| BusinessAnalytics.ScanGroups | api/business-analytics.ts:23-73 | the single pass fills each of the three maps as grouping by that map's key alone would |
| BusinessAnalytics.GroupBusinesses | api/business-analytics.ts:18-73 | the loop computes the three groupings of the rows |
| BusinessAnalytics.Averaged | api/business-analytics.ts:76-79 | the averages times the count give the totals; nothing else in the entry changes |
| BusinessAnalytics.WithAverages | api/business-analytics.ts:76-79 | the averaged map has the same keys in the same order |
| BusinessAnalytics.FillAverages | api/business-analytics.ts:76-79 | the loop writes the averages of every industry entry |
| BusinessAnalytics.CollectProps | api/business-analytics.ts:85-111 | a loop over a map pushes at most one record per key, exactly the records its test yields |
| BusinessAnalytics.FindRelationships | api/business-analytics.ts:82-111 | the expansions followed by the hubs |
| BusinessAnalytics.PushExpansions | api/business-analytics.ts:85-98 | the loop appends one expansion per industry spread over several neighbourhoods, in map order |
| BusinessAnalytics.PushHubs | api/business-analytics.ts:101-111 | the loop appends one hub per neighbourhood with more than three industries, in map order |
| BusinessAnalytics.IndustryAnalysis | api/business-analytics.ts:19-79 | the averaged industry map keeps the grouping's keys and order |
| BusinessAnalytics.IndustryEntry | api/business-analytics.ts:36-79 | an industry's entry holds its rows, their count (positive) and their revenue and employee totals, and its average revenue and average employees times the count give those totals |
| BusinessAnalytics.IndustryListed | api/business-analytics.ts:25-35 | every row's industry (or "Other") has an entry |
| BusinessAnalytics.NeighborhoodEntry | api/business-analytics.ts:43-56 | a neighbourhood's entry holds its rows and the set of their industries |
| BusinessAnalytics.ExpansionSound | api/business-analytics.ts:86-96 | an expansion is about its industry, which has several rows over several raw neighbourhood values, listed in first-seen order |
| BusinessAnalytics.ExpansionsProps | api/business-analytics.ts:85-98 | an expansion opportunity is reported for exactly the industries with more than one business spanning more than one raw neighbourhood value, with those values in first-seen order |
| BusinessAnalytics.HubMembers | api/business-analytics.ts:102-108 | a hub lists more than three distinct industries |
| BusinessAnalytics.HubsProps | api/business-analytics.ts:101-111 | a collaboration hub is reported for exactly the neighbourhoods with more than three industries, listing each of them once |
| BusinessAnalytics.FindMarketGaps | api/business-analytics.ts:123-136 | the nested loops list the gaps of the specification, with the presence test of line 125 as written (raw `neighborhood` field against the defaulted key) |
| BusinessAnalytics.GapsForProps | api/business-analytics.ts:124-135 | an industry's gaps are the established neighbourhoods where it has no business |
| BusinessAnalytics.AllGapsProps | api/business-analytics.ts:123-136 | the gaps are exactly the pairs of a top industry and an established neighbourhood without a business of the industry |
| BusinessAnalytics.IndustryEntryListed | api/business-analytics.ts:40 | an industry's business list holds exactly its rows |
| BusinessAnalytics.GapSound | api/business-analytics.ts:115-135 | under the corrected presence test, a gap's industry is a top industry with no row in the neighbourhood, its market size is the neighbourhood's business count (more than five), and its potential revenue the industry's average |
| BusinessAnalytics.GapsComplete | api/business-analytics.ts:115-135 | under the corrected presence test, every top industry absent from an established neighbourhood yields a gap |
| BusinessAnalytics.RawGapSound | api/business-analytics.ts:115-135 | as written, a gap's industry is a top industry, its market size is the neighbourhood's business count (more than five), no business of the industry has that raw neighbourhood value, and its potential revenue is the industry's average |
| BusinessAnalytics.RawGapCorrect | api/business-analytics.ts:125 | a gap reported as written in any neighbourhood other than "Unknown" is also a gap of the corrected test |
| BusinessAnalytics.ReportedGapsAsWritten | api/business-analytics.ts:113-151 | the analysis reports at most ten gaps, each sound as written, and each outside "Unknown" also a corrected gap |
| BusinessAnalytics.TopRevenueProps | api/business-analytics.ts:115-117 | at most five industries by total revenue descending, none left out earning more than one kept |
| BusinessAnalytics.ReportedGapsSound | api/business-analytics.ts:151 | under the corrected presence test, at most ten gaps are reported, each sound |
| BusinessAnalytics.MarketGapsProps | api/business-analytics.ts:113-151 | under the corrected presence test, at most ten gaps, from the top five industries by revenue, each an established neighbourhood without a business of the industry |
| BusinessAnalytics.SingleKey | api/business-analytics.ts:23-73 | rows that share one key group under that key alone |
| BusinessAnalytics.UnplacedEntry | api/business-analytics.ts:25-40 | rows that are all unplaced "Tech" businesses form one industry entry |
| BusinessAnalytics.UnplacedTop | api/business-analytics.ts:115-117 | that industry is the only top industry |
| BusinessAnalytics.UnplacedEstablished | api/business-analytics.ts:119-121 | their neighbourhood "Unknown" is the only established one, of size the number of rows |
| BusinessAnalytics.UnplacedGapAsWritten | api/business-analytics.ts:125 | six unplaced "Tech" businesses make "Unknown" established, yet the raw test finds the industry absent there and reports a gap; the corrected test reports none |
| BusinessAnalytics.SizeDistribution | api/business-analytics.ts:198-206 | the nested loops tally every industry's businesses by size |
| BusinessAnalytics.SizeTallyTotal | api/business-analytics.ts:200-205 | each business visited adds one to the tally |
| BusinessAnalytics.SizesCover | api/business-analytics.ts:198-206 | the small, medium and large counts add up to the number of businesses |
| BusinessAnalytics.AvgFirstTotal | api/business-analytics.ts:166 | higher average revenue first is a total preorder |
| BusinessAnalytics.GenerateBusinessInsights | api/business-analytics.ts:161-216 | the insights are those of the specification |
| BusinessAnalytics.InsightsProps | api/business-analytics.ts:163-196 | at most three top industries by average revenue, none left out higher; at most three emerging neighbourhoods with at least three businesses and three industries, most diverse first, none left out more diverse |
| BusinessAnalytics.TopAverageProps | api/business-analytics.ts:163-167 | the top-industries half of the insights |
| BusinessAnalytics.EmergingProps | api/business-analytics.ts:181-184 | the emerging-areas half of the insights |
| BusinessAnalytics.AnalyzeBusinessRelationships | api/business-analytics.ts:10-158 | no rows gives null; otherwise the analysis of the rows |
| BusinessAnalytics.GroupCountsProps | api/business-analytics.ts:23-73 | each map keys every business under its defaulted key, and each map's counts add up to the number of businesses |
| BusinessAnalytics.GroupCovers | api/business-analytics.ts:23-73 | every row's key is in its map and the counts add up to the rows |
| BusinessAnalytics.Handle | api/business-analytics.ts:218-248 | OPTIONS gives 204, another verb than GET 405, an empty analysis 500 "Failed to generate business analysis", otherwise 200 with the analysis |
| Analyze.DepthOf | api/analyze.ts:39 | only a missing depth takes the default "standard"; any other value is kept |
| Analyze.SettingsProps | api/analyze.ts:45-56 | "deep" runs on gpt-5-pro with temperature 0.3 and 12000 tokens; every other depth, the default included, on gpt-5 with 0.5 and 6000 |
| Analyze.AnalysisPrompt | api/analyze.ts:84-136 | a prompt exists exactly for the four analysis types, and opens with the base text and the depth's guideline |
| Analyze.AnalysisPromptProps | api/analyze.ts:85-135 | a prompt opens with the base text, names the depth and carries the depth's guideline |
| Analyze.Payload | api/analyze.ts:141-146 | object-like data is sent as its JSON text; any other defined value as its `toString()` text; undefined fails |
| Analyze.FormatData | api/analyze.ts:139-155 | the user prompt fails exactly when the data is undefined |
| Analyze.FormatDataProps | api/analyze.ts:139-155 | the user prompt opens with the type, carries the payload, adds the context section exactly for a truthy context and ends with the instruction |
| Analyze.NextBreak | api/analyze.ts:169 | the first newline followed by an upper-case letter at or after a position, if any |
| Analyze.Sections | api/analyze.ts:169 | splitting yields at least one section |
| Analyze.FirstSectionUpper | api/analyze.ts:169 | a text opening with an upper-case letter has a first section opening with it |
| Analyze.SectionsProps | api/analyze.ts:169 | joining the sections with newlines gives back the text; no section holds a break; every section after the first opens with an upper-case letter |
| Analyze.OneSection | api/analyze.ts:169 | a text without a break is one section |
| Analyze.PickedProps | api/analyze.ts:171-184 | a list holds the trimmed text of exactly the sections its test accepts, at most one entry per section |
| Analyze.Priority | api/analyze.ts:186-191 | "high" iff the text says critical or urgent; else "low" iff it says low priority or minor; else "medium" |
| Analyze.ExtractInsights | api/analyze.ts:157-193 | the pass over the sections builds the insights of the specification |
| Analyze.InsightsProps | api/analyze.ts:157-193 | the findings, recommendations, risks and opportunities lists hold exactly the trimmed sections containing their words; metrics stay empty |
| Analyze.Handle | api/analyze.ts:24-82 | OPTIONS gives 200; another verb than POST 405; a POST without data 500 "Failed to perform analysis" before any call; otherwise the request to the model carries the depth's settings, prompt and data, and a reply gives 200 with its text, the insights and the metadata while a failure gives 500 with its message |
| DomainKnowledge.Parts | api/ai-domain-knowledge.ts:154-180 | the template has eight blocks separated by blank lines |
| DomainKnowledge.JoinLayout | api/ai-domain-knowledge.ts:154-180 | in a join every block appears whole at its offset, each starting after the previous one ends |
| DomainKnowledge.DomainAwarePromptOrder | api/ai-domain-knowledge.ts:153-183 | the prompt holds the intro, ecosystem, data context, relationship patterns, economic guide, response style, module guidelines and closing, whole and in that order |
| DomainKnowledge.DataContextEmbedded | api/ai-domain-knowledge.ts:158-159 | the database context is embedded verbatim under its heading |
| DomainKnowledge.GuidanceEmbedded | api/ai-domain-knowledge.ts:174-177 | business intelligence gets the market and competitive guidelines, every other module the recommendation guidelines |
| DomainKnowledge.FirstCovered | api/ai-domain-knowledge.ts:185-186 | the first key, in declaration order, whose lower-cased text the lower-cased industry contains, if any |
| DomainKnowledge.IndustryContextProps | api/ai-domain-knowledge.ts:184-194 | the notes returned belong to a key the industry covers with no earlier key covered; with no covered key the answer is "" |
| DomainKnowledge.DeclaredFound | api/ai-domain-knowledge.ts:184-194 | with the four declared keys, a covered key always yields its notes |
| DebugSearch.PrependProps | api/debug-search.ts:8-18 | logging puts the new entry first, keeps the older ones in order after it, and drops only the oldest once there are more than 50 |
| DebugSearch.LogOfNewest | api/debug-search.ts:4-18 | after a run of logging into the empty log it holds the 50 newest entries, newest first |
| DebugSearch.SearchLog.constructor | api/debug-search.ts:4 | the log starts empty |
| DebugSearch.SearchLog.LogSearchActivity | api/debug-search.ts:8-18 | the entry, stamped with the current time, is put first and the log cut to 50 |
| DebugSearch.SearchLog.Handle | api/debug-search.ts:20-65 | OPTIONS gives 200; another verb than GET 405; GET answers 200 with the statistics of the whole log and the first limit entries, in full when details is "true" and summarised otherwise |
| DebugSearch.RequestLimit | api/debug-search.ts:37 | the limit is never 0, and 10 when the parameter is missing or does not parse |
| DebugSearch.JsSlice | api/debug-search.ts:41 | the first limit entries; a negative limit counts back from the end |
| DebugSearch.Timed | api/debug-search.ts:80 | exactly the entries reporting a duration |
| DebugSearch.Round | api/debug-search.ts:84-126 | the nearest integer to the quotient, halves up |
| DebugSearch.RoundBetween | api/debug-search.ts:84 | rounding a quotient between two integers stays between them |
| DebugSearch.SumStep | api/debug-search.ts:83 | one more entry adds its duration to the total |
| DebugSearch.CalculateAverageResponseTime | api/debug-search.ts:78-85 | the reduce computes the average duration of the timed entries, 0 without any |
| DebugSearch.AverageWithin | api/debug-search.ts:78-85 | when every timed entry took between lo and hi ms, so does the average |
| DebugSearch.SumWithin | api/debug-search.ts:83 | the total of durations each between lo and hi lies between lo and hi times their number |
| DebugSearch.QueryKeysNormal | api/debug-search.ts:90-95 | each counted query is the lower-cased, trimmed query of some entry |
| DebugSearch.CommonQueriesProps | api/debug-search.ts:87-101 | at most five queries in non-increasing count, each a normalised query of some entry counted as often as it occurs |
| DebugSearch.GetSearchMethodStats | api/debug-search.ts:103-121 | the loop computes the three bucket counts |
| DebugSearch.MethodStatsSum | api/debug-search.ts:110-118 | each entry lands in at most one bucket; the counts add up to the entries with a positive semantic or keyword count |
| DebugSearch.FailuresBound | api/debug-search.ts:125 | the failures are at most the entries, and none exactly when every search succeeded |
| DebugSearch.ErrorRate | api/debug-search.ts:123-124 | an empty log has rate 0 |
| DebugSearch.ErrorRateProps | api/debug-search.ts:123-127 | the rate lies in [0, 100]: 0 when nothing failed, 100 when everything did |
| DebugSearch.AllFailed | api/debug-search.ts:125 | when no search succeeded, every entry is a failure |
| DebugSearch.SummarizeActivity | api/debug-search.ts:67-76 | the query cut to its first 50 characters; the time, result count and success kept |
| BusinessPreview.PreviewOf | src/application/services/BusinessPreviewService.ts:55-65 | every preview is verified; a missing name becomes "Unknown Business", a missing industry or neighbourhood "Unknown", a missing number 0 |
| BusinessPreview.DropAll | src/application/services/BusinessPreviewService.ts:148 | removing a marker never lengthens the name |
| BusinessPreview.DropPairs | src/application/services/BusinessPreviewService.ts:149-150 | removing doubled marks never lengthens the name |
| BusinessPreview.DropMarks | src/application/services/BusinessPreviewService.ts:151 | removing single marks never lengthens the name |
| BusinessPreview.DropAllChars | src/application/services/BusinessPreviewService.ts:148 | removing a marker only removes characters |
| BusinessPreview.DropPairsChars | src/application/services/BusinessPreviewService.ts:149-150 | removing doubled marks only removes characters |
| BusinessPreview.DropMarksProps | src/application/services/BusinessPreviewService.ts:151 | no '*' or '_' is left, and only characters of the input |
| BusinessPreview.TrimChars | src/application/services/BusinessPreviewService.ts:152 | trimming only removes characters |
| BusinessPreview.CleanNameProps | src/application/services/BusinessPreviewService.ts:146-153 | a cleaned name holds no '*' or '_', has no white space at either end, and uses only characters of the original |
| BusinessPreview.OccurrenceDropped | src/application/services/BusinessPreviewService.ts:148 | an occurrence met by the case-insensitive scan is dropped whole, the text before it kept and the scan going on after it |
| BusinessPreview.DropHit | src/application/services/BusinessPreviewService.ts:148 | a scan that meets the occurrence at its start skips all of it |
| BusinessPreview.DropSkip | src/application/services/BusinessPreviewService.ts:148 | a character that cannot start the occurrence is kept and the scan goes on after it |
| BusinessPreview.MarkerDropped | src/application/services/BusinessPreviewService.ts:148 | "(from our database)" is dropped whole in any letter case, the text before it kept |
| BusinessPreview.KeepAllowed | src/application/services/BusinessPreviewService.ts:161 | only lower-case letters, digits and white space are kept |
| BusinessPreview.CollapseChars | src/application/services/BusinessPreviewService.ts:162 | collapsing white space keeps text made of allowed characters normal |
| BusinessPreview.CollapseFirst | src/application/services/BusinessPreviewService.ts:162 | collapsing keeps a first character that is not white space |
| BusinessPreview.CollapseNoDouble | src/application/services/BusinessPreviewService.ts:162 | collapsing leaves no two spaces in a row |
| BusinessPreview.TrimNormal | src/application/services/BusinessPreviewService.ts:163 | trimming normal text without double spaces gives normal text |
| BusinessPreview.NormalizeProps | src/application/services/BusinessPreviewService.ts:158-164 | a normalised name is lower-case letters, digits and single inner spaces |
| BusinessPreview.CollapseFixed | src/application/services/BusinessPreviewService.ts:162 | text whose only white space is single spaces is left unchanged |
| BusinessPreview.NormalFixed | src/application/services/BusinessPreviewService.ts:158-164 | normal text normalises to itself |
| BusinessPreview.NormalizeIdempotent | src/application/services/BusinessPreviewService.ts:158-164 | normalising twice is normalising once |
| BusinessPreview.FirstWhere | src/application/services/BusinessPreviewService.ts:125-139 | `find` over the normalised names: the first index from a start on whose name satisfies the test, with none before it satisfying it; nothing only when no name from the start on does |
| BusinessPreview.FindIn | src/application/services/BusinessPreviewService.ts:124-140 | whatever the three `find` calls return is an index within the list |
| BusinessPreview.FirstWhereIs | src/application/services/BusinessPreviewService.ts:125-139 | an index whose name passes the test, with none before it passing, is exactly what `find` returns |
| BusinessPreview.FirstWhereNone | src/application/services/BusinessPreviewService.ts:125-139 | `find` returns nothing when no name from the start on passes the test |
| BusinessPreview.FindExact | src/application/services/BusinessPreviewService.ts:124-128 | the first name equal to the normalised search name is the one found |
| BusinessPreview.FindPrefix | src/application/services/BusinessPreviewService.ts:130-134 | with no exact match, the first name starting with the search name is the one found |
| BusinessPreview.FindHolding | src/application/services/BusinessPreviewService.ts:136-140 | with no name starting with the search name (so none equal to it), the first name containing it is the one found |
| BusinessPreview.FindFound | src/application/services/BusinessPreviewService.ts:124-140 | nothing is found exactly when no normalised name contains the search name, and whatever is found contains it |
| BusinessPreview.FindIndex | src/application/services/BusinessPreviewService.ts:120-141 | the business found for a name, if any, is within the list of all businesses |
| BusinessPreview.ExactInside | src/application/services/BusinessPreviewService.ts:126-132 | a name equal to the search name also starts with it, so the prefix test would accept it too |
| BusinessPreview.PrefixedInside | src/application/services/BusinessPreviewService.ts:132-138 | a name starting with the search name also contains it |
| BusinessPreview.FindProps | src/application/services/BusinessPreviewService.ts:124-140 | over the normalised names, an exact match wins, then a match at the start, then one anywhere, each the first of its kind; nothing is found exactly when no normalised name contains the search name |
| BusinessPreview.Unexpired | src/application/services/BusinessPreviewService.ts:192-199 | eviction keeps exactly the entries at most five minutes old |
| BusinessPreview.LookupProps | src/application/services/BusinessPreviewService.ts:169-180 | a lookup answers only with an entry at most five minutes old, deletes an expired entry it meets and nothing else, and ignores letter case |
| BusinessPreview.StoredProps | src/application/services/BusinessPreviewService.ts:185-200 | a stored preview is found fresh at once; at or below 100 entries nothing else changes; past it exactly the expired entries go |
| BusinessPreview.NothingExpired | src/application/services/BusinessPreviewService.ts:192-199 | when nothing has expired, eviction removes nothing |
| BusinessPreview.ByNameProps | src/application/services/BusinessPreviewService.ts:38-71 | a fresh cached preview is answered without a search; otherwise the preview of the business found, which is then cached, or nothing |
| BusinessPreview.IndexBy | src/application/services/BusinessPreviewService.ts:81-83 | every key of the businesses seen is in the index, and each maps to the last business seen under that key (a later entry replaces an earlier one) |
| BusinessPreview.ByNormProps | src/application/services/BusinessPreviewService.ts:80-83 | a key is in the index exactly when it is a business's normalised name, and maps to the last business in the list with that name |
| BusinessPreview.PreviewsOfProps | src/application/services/BusinessPreviewService.ts:85-105 | a name gets a preview exactly when its normalised form is indexed, and the preview is of the indexed business |
| BusinessPreview.MultiplePreviewsSound | src/application/services/BusinessPreviewService.ts:76-108 | every answered key is the cleaned form of one of the names, and its preview is of the last business in the list whose normalised name equals that form normalised |
| BusinessPreview.MultiplePreviewsComplete | src/application/services/BusinessPreviewService.ts:76-108 | every name whose cleaned, normalised form is some business's normalised name is answered |
| BusinessPreview.PreviewService.constructor | src/application/services/BusinessPreviewService.ts:27-32 | the cache starts empty |
| BusinessPreview.PreviewService.ClearCache | src/application/services/BusinessPreviewService.ts:113-115 | the cache is emptied |
| BusinessPreview.PreviewService.GetCached | src/application/services/BusinessPreviewService.ts:169-180 | the answer and the new cache are those of the lookup |
| BusinessPreview.PreviewService.CachePreview | src/application/services/BusinessPreviewService.ts:185-200 | the eviction loop leaves the cache of the specification |
| BusinessPreview.PreviewService.GetPreviewByName | src/application/services/BusinessPreviewService.ts:38-71 | the answer and the new cache are those of the by-name specification |
| BusinessPreview.PreviewService.GetMultiplePreviews | src/application/services/BusinessPreviewService.ts:76-108 | the previews and the new cache are those of the specification |
| BusinessPreview.PreviewService.StoreEach | src/application/services/BusinessPreviewService.ts:85-105 | the loop stores and caches each indexed name's preview |
| Gpt5Chat.AnyKeyword | src/hooks/useGPT5Chat.ts:303-305 | true exactly when one of the keywords occurs in the text |
| Gpt5Chat.NeedsAnalysisProps | src/hooks/useGPT5Chat.ts:291-306 | a message goes to deep analysis exactly when its lower-cased text contains one of the nine keywords |
| Gpt5Chat.AnalysisTypeProps | src/hooks/useGPT5Chat.ts:308-315 | the first test that holds decides: "code" or "technical", then "market", then "compet", and business otherwise, all case-sensitive |
| Gpt5Chat.KindAccepted | src/hooks/useGPT5Chat.ts:308-315 | the kind sent is one the analysis endpoint accepts, and reads back as the same kind |
| Gpt5Chat.AppendBullets | src/hooks/useGPT5Chat.ts:322-331 | one bullet line per item is appended, in order |
| Gpt5Chat.FormatAnalysisResponse | src/hooks/useGPT5Chat.ts:317-339 | the text grown with += is the rendering of the specification |
| Gpt5Chat.BulletListed | src/hooks/useGPT5Chat.ts:322-331 | every item of a list is rendered as a bullet |
| Gpt5Chat.FormattedStart | src/hooks/useGPT5Chat.ts:317-332 | the reply opens with the analysis, then the findings when there are some, else the recommendations |
| Gpt5Chat.FormattedHigh | src/hooks/useGPT5Chat.ts:334-336 | the reply ends with the HIGH-priority line exactly when the priority is "high" |
| Gpt5Chat.FormattedBare | src/hooks/useGPT5Chat.ts:317-339 | with nothing to list and no high priority the reply is the analysis text alone |
| Gpt5Chat.FindingsListed | src/hooks/useGPT5Chat.ts:320-325 | every finding is shown as a bullet |
| Gpt5Chat.RecommendationsListed | src/hooks/useGPT5Chat.ts:327-332 | every recommendation is shown as a bullet |
| Gpt5Chat.FollowUpQuestions | src/hooks/useGPT5Chat.ts:341-360 | the pushes and the slice compute the follow-up specification |
| Gpt5Chat.FollowUpsProps | src/hooks/useGPT5Chat.ts:341-360 | at most three questions: the opportunity question when there is an opportunity, the risk question when there is a risk, then the fixed questions in order, cut at three |
| Gpt5Chat.WelcomeProps | src/hooks/useGPT5Chat.ts:83-109 | the welcome opens with the module's greeting and ends with its closing, and the feature sentence follows the greeting exactly when the model name contains "gpt-5" |
| Gpt5Chat.SuggestedQuestions | src/hooks/useGPT5Chat.ts:111-129 | five questions per module |
| Gpt5Chat.ChatSession.constructor | src/hooks/useGPT5Chat.ts:39-81 | the session starts with the restored context followed by the welcome message, an empty input and no loading |
| Gpt5Chat.ChatSession.SetInput | src/hooks/useGPT5Chat.ts:40 | only the input changes |
| Gpt5Chat.ChatSession.Send | src/hooks/useGPT5Chat.ts:131-176 | a blank input or a pending request is ignored; otherwise the trimmed text is added as the user's message, the input cleared, loading started, and deep analysis chosen exactly by the keyword rule |
| Gpt5Chat.ChatSession.ReceiveAnalysis | src/hooks/useGPT5Chat.ts:151-167 | the rendered reply is appended with its follow-up questions; nothing else changes |
| Gpt5Chat.ChatSession.ReceiveChat | src/hooks/useGPT5Chat.ts:261-289 | the assistant's reply is appended and a session id in the reply replaces the current one |
| Gpt5Chat.ChatSession.Fail | src/hooks/useGPT5Chat.ts:362-370 | an error message is appended; nothing else changes |
| Gpt5Chat.ChatSession.Settle | src/hooks/useGPT5Chat.ts:183-186 | loading stops; nothing else changes |
| Gpt5Chat.ChatSession.Summarize | src/hooks/useGPT5Chat.ts:372-392 | runs exactly with a session id and at least three messages; then the summary is stored and shown and loading ends |
| Gpt5Chat.ChatSession.ClearConversation | src/hooks/useGPT5Chat.ts:394-398 | the messages and summary are dropped and a new session starts with the restored context and the welcome |
| BusinessSearch.Remove | src/hooks/useBusinessSearch.ts:92-98 | the copy keeps exactly the entries with another key |
| BusinessSearch.RemoveAbsent | src/hooks/useBusinessSearch.ts:94-96 | deleting an absent key changes nothing |
| BusinessSearch.RemoveProps | src/hooks/useBusinessSearch.ts:92-98 | clearing a filter removes exactly that key; every other key reads as before |
| BusinessSearch.SetDistinct | src/hooks/useBusinessSearch.ts:82-98 | both edits keep the filter keys distinct |
| BusinessSearch.ActiveCountProps | src/hooks/useBusinessSearch.ts:105-114 | the count is at most the number of keys, and 0 exactly when no value is in effect |
| BusinessSearch.SetCount | src/hooks/useBusinessSearch.ts:82-114 | setting a key replaces that key's share of the count by the new value's |
| BusinessSearch.RemoveCount | src/hooks/useBusinessSearch.ts:92-114 | clearing a key takes away exactly that key's share of the count |
| BusinessSearch.EmptyResult | src/hooks/useBusinessSearch.ts:46-57 | the empty answer has no businesses, total 0, page 1, no pages and the searched filters |
| BusinessSearch.EffectSemantic | src/hooks/useBusinessSearch.ts:33-76 | with a non-blank query the effect's search is a semantic search for the trimmed query, 20 results |
| BusinessSearch.SearchKeys | src/hooks/useBusinessSearch.ts:39-73 | adding the query key changes nothing about the other keys |
| BusinessSearch.EffectBlank | src/hooks/useBusinessSearch.ts:39-76 | with a blank query the search is filtered on page 1 when some other key is set, and the empty answer otherwise |
| BusinessSearch.SearchHook.constructor | src/hooks/useBusinessSearch.ts:11-21 | no query, no filters, no results, not loading, page 1 |
| BusinessSearch.SearchHook.SetQuery | src/hooks/useBusinessSearch.ts:11 | only the query changes |
| BusinessSearch.SearchHook.HandleFilterChange | src/hooks/useBusinessSearch.ts:82-90 | one key is set, the others kept; nothing else changes |
| BusinessSearch.SearchHook.ClearFilter | src/hooks/useBusinessSearch.ts:92-98 | one key is removed, the others kept; nothing else changes |
| BusinessSearch.SearchHook.ClearAllFilters | src/hooks/useBusinessSearch.ts:100-103 | no filters and no query; nothing else changes |
| BusinessSearch.SearchHook.Refresh | src/hooks/useBusinessSearch.ts:72-80 | with a non-blank query or some filter key a search of the combined filters on page 1 is started and the page reset; otherwise the results are dropped |
| BusinessSearch.SearchHook.PerformSearch | src/hooks/useBusinessSearch.ts:27-70 | the branch picks semantic, filtered or no search; the reply becomes the results, a failure leaves them as they were, and loading is off afterwards |
| UiSlice.ParseTheme | src/store/slices/uiSlice.ts:32 | a theme exactly for the three theme names |
| UiSlice.InitialThemeProps | src/store/slices/uiSlice.ts:30-36 | a saved theme name comes back as that theme; anything else, or nothing, gives "system" |
| UiSlice.ThemeIndex | src/store/slices/uiSlice.ts:69-70 | the theme's position in the cycle |
| UiSlice.ToggleCycle | src/store/slices/uiSlice.ts:68-74 | toggling cycles light, dark, system and back, so three toggles change nothing |
| UiSlice.PrependedProps | src/store/slices/uiSlice.ts:91-103 | the new notification comes first, followed by the newest of the old ones, at most 50 kept |
| UiSlice.FirstWithId | src/store/slices/uiSlice.ts:105 | the first position holding the id, none before it |
| UiSlice.MarkedReadProps | src/store/slices/uiSlice.ts:104-109 | only the first notification with the id is marked read; every other entry, later duplicates included, is unchanged |
| UiSlice.WithoutIdProps | src/store/slices/uiSlice.ts:115-117 | every entry with the id goes and every other stays; the result is a subsequence of the list (order kept); with no such entry the list is unchanged |
| UiSlice.WithModalProps | src/store/slices/uiSlice.ts:123-128 | opening or closing a modal sets that flag and no other |
| UiSlice.ToastDuration | src/store/slices/uiSlice.ts:156 | 0 and an absent duration both give 5000; any other duration is kept |
| UiSlice.Hidden | src/store/slices/uiSlice.ts:159-163 | a toast is hidden and otherwise kept; no toast stays none |
| UiSlice.ToggledProps | src/store/slices/uiSlice.ts:80-88 | a toggle flips its own flag and no other, and toggling twice restores the state |
| UiSlice.ResetProps | src/store/slices/uiSlice.ts:183-187 | a reset keeps the theme and layout, restores everything else, and resetting again changes nothing |
| UiSlice.UiStore.constructor | src/store/slices/uiSlice.ts:38-57 | the initial state with the theme from start-up storage |
| UiSlice.UiStore.SetTheme | src/store/slices/uiSlice.ts:64-67 | only the theme changes |
| UiSlice.UiStore.ToggleTheme | src/store/slices/uiSlice.ts:68-74 | the theme moves to the next in the cycle; nothing else changes |
| UiSlice.UiStore.SetSidebarOpen | src/store/slices/uiSlice.ts:77-79 | only the sidebar flag changes |
| UiSlice.UiStore.ToggleSidebar | src/store/slices/uiSlice.ts:80-82 | the sidebar flag flips; nothing else changes |
| UiSlice.UiStore.SetSidebarCollapsed | src/store/slices/uiSlice.ts:83-85 | only the collapsed flag changes |
| UiSlice.UiStore.ToggleSidebarCollapsed | src/store/slices/uiSlice.ts:86-88 | the collapsed flag flips; nothing else changes |
| UiSlice.UiStore.AddNotification | src/store/slices/uiSlice.ts:91-103 | an unread notification with the fresh id and time is put first and the list cut to 50 |
| UiSlice.UiStore.MarkNotificationRead | src/store/slices/uiSlice.ts:104-109 | the search marks the first notification with the id; nothing else changes |
| UiSlice.UiStore.MarkAllNotificationsRead | src/store/slices/uiSlice.ts:110-114 | the loop marks every notification read; nothing else changes |
| UiSlice.UiStore.RemoveNotification | src/store/slices/uiSlice.ts:115-117 | the notifications with the id go; nothing else changes |
| UiSlice.UiStore.ClearNotifications | src/store/slices/uiSlice.ts:118-120 | no notifications are left; nothing else changes |
| UiSlice.UiStore.OpenModal | src/store/slices/uiSlice.ts:123-125 | that modal is open; nothing else changes |
| UiSlice.UiStore.CloseModal | src/store/slices/uiSlice.ts:126-128 | that modal is closed; nothing else changes |
| UiSlice.UiStore.CloseAllModals | src/store/slices/uiSlice.ts:129-133 | the loop closes every modal; nothing else changes |
| UiSlice.UiStore.SetGlobalLoading | src/store/slices/uiSlice.ts:136-138 | only the global loading flag changes |
| UiSlice.UiStore.SetPageLoading | src/store/slices/uiSlice.ts:139-141 | only the page loading flag changes |
| UiSlice.UiStore.ShowToast | src/store/slices/uiSlice.ts:144-158 | a visible toast with the given or default duration; nothing else changes |
| UiSlice.UiStore.HideToast | src/store/slices/uiSlice.ts:159-163 | the toast, if any, is hidden; nothing else changes |
| UiSlice.UiStore.ClearToast | src/store/slices/uiSlice.ts:164-166 | no toast; nothing else changes |
| UiSlice.UiStore.SetCompactMode | src/store/slices/uiSlice.ts:169-171 | only the compact flag changes |
| UiSlice.UiStore.ToggleCompactMode | src/store/slices/uiSlice.ts:172-174 | the compact flag flips; nothing else changes |
| UiSlice.UiStore.SetGridView | src/store/slices/uiSlice.ts:175-177 | only the grid flag changes |
| UiSlice.UiStore.ToggleGridView | src/store/slices/uiSlice.ts:178-180 | the grid flag flips; nothing else changes |
| UiSlice.UiStore.ResetUI | src/store/slices/uiSlice.ts:183-187 | the state is reset, theme and layout kept |
| CompaniesSlice.FirstWithId | src/store/slices/companiesSlice.ts:55 | the first position, from an index on, holding the id, none before it |
| CompaniesSlice.ReplacedProps | src/store/slices/companiesSlice.ts:54-58 | the first company with the payload's id is replaced by the payload and every other entry, later ones with that id included, stays; with no such company the list is unchanged |
| CompaniesSlice.RemovedProps | src/store/slices/companiesSlice.ts:63-64 | every company with the id goes, every other stays; the result is a subsequence of the list (order kept); with no such company the list is unchanged |
| CompaniesSlice.Deselected | src/store/slices/companiesSlice.ts:65-67 | the selection is cleared exactly when it has the removed id |
| CompaniesSlice.Reselected | src/store/slices/companiesSlice.ts:59-61 | the selection becomes the payload exactly when it has the payload's id |
| CompaniesSlice.MergedProps | src/store/slices/companiesSlice.ts:87-89 | a key the patch holds takes the patch's value; every other key keeps its value |
| CompaniesSlice.PushedProps | src/store/slices/companiesSlice.ts:98-101 | the query is put first, followed by the first nine earlier entries that differ from it, in their earlier order; at most ten entries; when fewer than ten are kept, no earlier entry other than the query is lost |
| CompaniesSlice.PushedNoRepeats | src/store/slices/companiesSlice.ts:98-101 | putting a query first and dropping its other copies keeps a history free of repeats |
| CompaniesSlice.RecentAddedProps | src/store/slices/companiesSlice.ts:95-107 | a blank query leaves the history alone; otherwise the trimmed query comes first, followed by the first nine earlier entries that differ from it, in their earlier order, at most ten in all; a history without repeats stays so |
| CompaniesSlice.RecentAddedAgain | src/store/slices/companiesSlice.ts:95-107 | searching again for the most recent query changes nothing |
| CompaniesSlice.WhereNoRepeats | src/store/slices/companiesSlice.ts:100 | filtering out the query keeps a history without repeats |
| CompaniesSlice.CompaniesStore.constructor | src/store/slices/companiesSlice.ts:14-24 | the initial state with the stored history |
| CompaniesSlice.CompaniesStore.SetLoading | src/store/slices/companiesSlice.ts:31-36 | the loading flag is set, and starting to load clears the error; nothing else changes |
| CompaniesSlice.CompaniesStore.SetError | src/store/slices/companiesSlice.ts:37-40 | the error is recorded and loading stops; nothing else changes |
| CompaniesSlice.CompaniesStore.ClearError | src/store/slices/companiesSlice.ts:41-43 | the error is cleared; nothing else changes |
| CompaniesSlice.CompaniesStore.SetCompanies | src/store/slices/companiesSlice.ts:46-50 | the list is replaced, loading stops and the error clears |
| CompaniesSlice.CompaniesStore.AddCompany | src/store/slices/companiesSlice.ts:51-53 | the company goes first; nothing else changes |
| CompaniesSlice.CompaniesStore.UpdateCompany | src/store/slices/companiesSlice.ts:54-62 | the first company with the id and a selection with that id are replaced; nothing else changes |
| CompaniesSlice.CompaniesStore.RemoveCompany | src/store/slices/companiesSlice.ts:63-68 | the companies with the id go and a selection with that id is cleared |
| CompaniesSlice.CompaniesStore.SetSelectedCompany | src/store/slices/companiesSlice.ts:71-73 | only the selection changes |
| CompaniesSlice.CompaniesStore.SetSearchResults | src/store/slices/companiesSlice.ts:76-80 | the page is stored, loading stops and the error clears |
| CompaniesSlice.CompaniesStore.ClearSearchResults | src/store/slices/companiesSlice.ts:81-83 | no page; nothing else changes |
| CompaniesSlice.CompaniesStore.SetFilters | src/store/slices/companiesSlice.ts:84-86 | only the filters change |
| CompaniesSlice.CompaniesStore.UpdateFilters | src/store/slices/companiesSlice.ts:87-89 | the filters are merged with the patch; nothing else changes |
| CompaniesSlice.CompaniesStore.ClearFilters | src/store/slices/companiesSlice.ts:90-92 | no filters; nothing else changes |
| CompaniesSlice.CompaniesStore.AddRecentSearch | src/store/slices/companiesSlice.ts:95-107 | the history gets the query as specified; nothing else changes |
| CompaniesSlice.CompaniesStore.ClearRecentSearches | src/store/slices/companiesSlice.ts:108-111 | the history is emptied; nothing else changes |
| CompaniesSlice.CompaniesStore.SetCompaniesFromSearch | src/store/slices/companiesSlice.ts:114-122 | the page is stored, and becomes the company list when that is empty; loading stops and the error clears |
| DashboardSlice.WithProps | src/store/slices/dashboardSlice.ts:9-23 | writing one section's entry sets that entry and leaves the other two sections' entries alone |
| DashboardSlice.All | src/store/slices/dashboardSlice.ts:126-130 | the same value for every section |
| DashboardSlice.LoadingProps | src/store/slices/dashboardSlice.ts:56-61 | the section's loading flag takes the value, starting to load clears that section's error, the other sections are untouched and nothing besides loading and errors changes |
| DashboardSlice.FailedProps | src/store/slices/dashboardSlice.ts:68-71 | the section's error is the message and it stops loading; the other sections and the data are untouched |
| DashboardSlice.SettledProps | src/store/slices/dashboardSlice.ts:62-67 | the section stops loading, has no error and was updated at the given time; the other sections are untouched |
| DashboardSlice.NewsAddedProps | src/store/slices/dashboardSlice.ts:108-114 | the new item comes first, the older items follow in order, and at most 50 are kept |
| DashboardSlice.RefreshingProps | src/store/slices/dashboardSlice.ts:143-154 | every section is loading with no error, nothing else changes, and refreshing twice is refreshing once |
| DashboardSlice.DashboardStore.constructor | src/store/slices/dashboardSlice.ts:28-49 | the initial state: nothing loaded, no errors, a five-minute refresh interval, auto-refresh on |
| DashboardSlice.DashboardStore.SetLoading | src/store/slices/dashboardSlice.ts:56-61 | `setStatsLoading`, `setTrendsLoading` and `setNewsLoading` as the one loading reducer of the section |
| DashboardSlice.DashboardStore.SetError | src/store/slices/dashboardSlice.ts:68-71 | `setStatsError`, `setTrendsError` and `setNewsError` as the one failure reducer of the section |
| DashboardSlice.DashboardStore.SetStatsSuccess | src/store/slices/dashboardSlice.ts:62-67 | the stats are stored and the stats section settles at the given time |
| DashboardSlice.DashboardStore.SetTrendsSuccess | src/store/slices/dashboardSlice.ts:80-85 | the trends are stored and the trends section settles at the given time |
| DashboardSlice.DashboardStore.SetNewsSuccess | src/store/slices/dashboardSlice.ts:98-103 | the news list is replaced and the news section settles at the given time |
| DashboardSlice.DashboardStore.AddNewsItem | src/store/slices/dashboardSlice.ts:108-114 | the news list gets the item as specified; nothing else changes |
| DashboardSlice.DashboardStore.SetRefreshInterval | src/store/slices/dashboardSlice.ts:117-119 | only the refresh interval changes |
| DashboardSlice.DashboardStore.SetAutoRefresh | src/store/slices/dashboardSlice.ts:120-122 | only the auto-refresh flag changes |
| DashboardSlice.DashboardStore.ClearErrors | src/store/slices/dashboardSlice.ts:125-131 | every section's error is cleared; nothing else changes |
| DashboardSlice.DashboardStore.ClearError | src/store/slices/dashboardSlice.ts:132-140 | one section's error is cleared; nothing else changes |
| DashboardSlice.DashboardStore.RefreshAllData | src/store/slices/dashboardSlice.ts:143-154 | the state becomes the refreshing state |
| DashboardSlice.DashboardStore.ResetDashboard | src/store/slices/dashboardSlice.ts:157 | the state is the initial state again |
| AuthSlice.Pick | src/store/slices/authSlice.ts:53 | a field of the patch wins over the current value; an absent field keeps it |
| AuthSlice.PatchedProps | src/store/slices/authSlice.ts:51-55 | the empty patch changes nothing, a full patch gives the patch's user, a field is the patch's exactly when the patch has it, and patching twice is patching once |
| AuthSlice.ReduceProps | src/store/slices/authSlice.ts:24-61 | login start loads and clears the error; login success signs in with the user and token; login failure and logout sign out and drop user and token, failure recording the message; updating the profile touches only the user and does nothing when signed out |
| AuthSlice.ReduceConsistent | src/store/slices/authSlice.ts:24-61 | no reducer leaves the store authenticated without a user |
| AuthSlice.ReachableConsistent | src/store/slices/authSlice.ts:12-61 | every state reached from the initial state by any run of actions is authenticated only with a user |
| AuthSlice.AllConsistent | src/store/slices/authSlice.ts:24-61 | any run of actions from a consistent state ends in a consistent state |
| AuthSlice.AuthStore.constructor | src/store/slices/authSlice.ts:12-18 | the initial state, signed out, with the token read from storage |
| AuthSlice.AuthStore.LoginStart | src/store/slices/authSlice.ts:24-27 | the state after `loginStart`, kept consistent |
| AuthSlice.AuthStore.LoginSuccess | src/store/slices/authSlice.ts:28-35 | the state after `loginSuccess`, kept consistent |
| AuthSlice.AuthStore.LoginFailure | src/store/slices/authSlice.ts:36-43 | the state after `loginFailure`, kept consistent |
| AuthSlice.AuthStore.Logout | src/store/slices/authSlice.ts:44-50 | the state after `logout`, kept consistent |
| AuthSlice.AuthStore.UpdateUser | src/store/slices/authSlice.ts:51-55 | the state after `updateUser`, kept consistent |
| AuthSlice.AuthStore.ClearError | src/store/slices/authSlice.ts:56-58 | the state after `clearError`, kept consistent |
| AuthSlice.AuthStore.SetLoading | src/store/slices/authSlice.ts:59-61 | the state after `setLoading`, kept consistent |
| Companies.RevenueFirstTotal | api/unified-search.ts:281 | the revenue order, nulls last, is a total preorder |
| Companies.ByRevenueProps | api/ai-search.ts:399 | the ordered rows are the same rows, highest revenue first, rows without a revenue last |

## Left out

- Network, database and model calls are not executed. What Supabase, PostgREST and OpenAI return (rows, errors, completions, embeddings) is a parameter of each operation. The Supabase query builder is modelled as the list of clauses applied to it.
- `Promise.all` in the embedding batches and in the search endpoints is modelled as sequential evaluation; concurrency and timing are not modelled.
- The clock (`Date.now()`, `new Date()`), `crypto.randomUUID`, `Math.random` and browser `localStorage` reads are parameters. `localStorage` writes (the token in the auth slice, the theme in the UI slice, the recent searches in the companies slice) are not modelled.
- `process.env` and `import.meta.env` are a map from name to value, or an optional string for one variable.
- Floating point: similarity and relevance scores are reals or scaled integers, not IEEE doubles. `Math.round` is exact, so a double that lands just beside a half may round differently. `Math.ceil(limit * 0.7)` is modelled as the integer ceiling of 7·limit/10.
- `cosineSimilarity`, the Herfindahl index and the Shannon diversity of `generateMarketAnalysis`, and the `toFixed`/`toLocaleString` formatting are not modelled. `generateMarketAnalysis` in src/core/services/BusinessIntelligenceService.ts:7-41 is left out for that reason.
- Request limits are natural numbers. Negative, fractional and NaN limits are not modelled, except in the page count of the businesses endpoint, which models NaN, zero and negative limits.
- `Object.entries` and `Object.keys` are modelled in insertion order. JavaScript lists integer-like keys first; that is not modelled.
- Case mapping (`toLowerCase`, `toUpperCase`) covers ASCII letters only. Python's `str.isdigit` is modelled on ASCII digits, although it also accepts other Unicode digits.
- Regular expressions built from user text (`new RegExp(term, "g")`) are modelled as literal substring matches; a term holding regular-expression syntax is not modelled.
- `isValidUrl` (src/utils/validators.ts:24-31) depends on the `URL` constructor's parsing and is not modelled.
- `BusinessService.getAllBusinesses` and `searchBusinesses` (src/core/services/BusinessService.ts:16-37) only pass the repository's answer through, so they are not modelled.
- The streaming reply of the chat hook (`handleStreamingChat` and `stopStreaming`, src/hooks/useGPT5Chat.ts:189-259) is left out: it reads a stream chunk by chunk.
- Gpt5Chat.ChatSession.Summarize: a summary call that fails is caught and logged, and only the loading flag changes. That path is not modelled; the summary text is given.
- The filter-options loading of the business search hook is not modelled; only the search state is.
- GenerateEmbeddings.Handler and GenerateEmbeddings.RunBatches require a positive batch size. The source loops forever when the batch size is zero or negative.
- DemoReport: Python's `str()` rendering of printed values is not modelled. Report lines are structured values. In `Counter`, Python merges the keys `True` and `1`; that is not modelled. The error raised by slicing a dict is an abstract error kind, because its message differs between Python versions.
- AiSearch: the `intent` field of the search-log entry is not carried, since nothing reads it back.
- UnifiedSearch: the outer "Search failed" 500 response is not reached in the model. In the source it is reached when a query term holds regular-expression syntax (a query such as "c++" makes `new RegExp` throw during scoring); the model matches terms literally, so scoring cannot fail.
- Numeric columns: revenue, employee counts and ratings are integers in Businesses.AnalyticsRow, BusinessEntity.Business, BusinessAnalytics.Business, BusinessPreview.Business and Companies.Company, although the database types (src/types/database.types.ts:21) give them as JavaScript numbers. Fractional values (a 4.5 rating, a revenue with cents) are not modelled; sums, comparisons and averages over them are exact.
- ImportData.DatePart: the review date is cut at its first 'T', which matches the source only for text already in ISO form. The source re-renders the date with `new Date(review.date).toISOString()` (scripts/import-improved-data.mjs:151), so another date format is normalised first and an invalid date throws a RangeError that fails the import. Neither is modelled.
- ImportData: the rich-data columns of the company row (`features`, `metrics` and every `ext_financials` field but `reviewCount`, scripts/import-improved-data.mjs:115-137) are copied JSON and are not modelled. The `--clean` mode (lines 41-56), which deletes every review, company and address first, and the closing sample queries (lines 294-335), which only log, are not modelled either.
- Validators.IsValidNumber: only a number argument is modelled. A string argument goes through `parseFloat`, and that path is not modelled.
- Validators.Num: a number is NaN or a finite real; `Infinity` and `-Infinity` are not modelled.
- Str.LessEq: strings compare and measure by character. JavaScript's `<`, `length` and `substring` count UTF-16 code units, so text outside the Basic Multilingual Plane may order, measure or cut differently.
- Str.ParseInt: decimal digits with an optional sign. The hexadecimal form that `parseInt` accepts after a "0x" prefix is not modelled.
- Companies.Mentions: an `ilike` pattern's `%` and `_` inside the user's text are taken literally. PostgreSQL reads them as wildcards.
- AuthSlice.UserPatch: a patch key is either absent or set; a key present with the value `undefined`, which the spread would copy, is not modelled.
- BusinessSearch.SearchHook.PerformSearch: a failed search keeps the old results and clears the loading flag; rethrowing the error to the caller is not modelled. The analytics of the empty result are a given value, so a failing `getAnalytics` is not modelled.
- Gpt5Chat: the `storeContext` call after each message when memory is enabled (src/hooks/useGPT5Chat.ts:177-180) is a network write and is not modelled.
- ContextApi.RetrieveContext: the answer carries the session's summary but not its `keyTopics` and `sentiment` (api/context.ts:159-161).
- BusinessPreview.PreviewService.GetMultiplePreviews: the answer is a map, so the insertion order of the source's `Map` is not modelled.
- Analyze.Handle, ContextApi.Handle, DataQuery.Handle: these three modules throw when they are loaded if a variable they need is unset: OPENAI_API_KEY for api/analyze.ts:4-7; SUPABASE_URL, SUPABASE_SERVICE_ROLE_KEY and OPENAI_API_KEY for api/context.ts:6-20; SUPABASE_URL and SUPABASE_SERVICE_ROLE_KEY for api/data-query.ts:5-13. Every request to such an endpoint then fails before its handler runs. The three handlers take no environment and always answer, so that failure is not modelled.
- Analyze: the `timestamp` of the answer's metadata (api/analyze.ts:72) comes from the clock and is not modelled.
- CsvExport.ExportCsv: the fetch-error branch of the export script (export-companies-to-csv.mjs:21-29), which logs and returns, is not modelled; the model starts from the fetched list.
- The React components, hooks' rendering and the network client modules around this core are not part of this model.

## Findings

| source | as written | input that shows it | evidently intended | confidence | as-written member | corrected member |
|---|---|---|---|---|---|---|
| api/business-analytics.ts:125 | an industry's presence in a neighbourhood compares the raw `b.neighborhood` with a key that was defaulted to "Unknown" | six or more "Tech" businesses with no neighbourhood: "Unknown" is established, yet "Tech" is reported with a gap there | presence is tested on the same defaulted key that built the neighbourhood groups | not executed | BusinessAnalytics.UnplacedGapAsWritten | BusinessAnalytics.MarketGapsProps |
| api/businesses.ts:208-226 | the main query (built at lines 137-206) asks for no count, since `select` is called without `{ count: "exact" }`; supabase-js then answers `count: null`, and the total, which falls back to 0 for a null count, is always 0 | any filter matching at least one company, limit 20: the page lists the companies yet reports total 0 and totalPages 0 | total is the number of matching companies and totalPages the number of pages that hold them | not executed | Businesses.TotalAsWritten | Businesses.CountedPagesCover |
| api/unified-search.ts:349-356 | splitting the lower-cased query on `\s+` without trimming yields an empty term, and an empty pattern matches at every position of the text | the query " zzz" against the row named "acme": the empty term scores about 0.1 per position, so the score reaches at least 0.7 although no word of the query occurs | only the query's words are counted, so an unrelated row scores 0 | not executed | UnifiedSearch.EmptyTermInflatesScore | UnifiedSearch.KeywordRelevanceProps |
