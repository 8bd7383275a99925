# pica-langchain client core in Dafny

This project models the client core of the Pica LangChain integration. Three parts of the package are covered:

- `PicaClient`, in `pica_langchain/client.py`. Its job:
  - load the connection registry into the object;
  - walk paginated list endpoints;
  - look up actions and shape answers into envelopes that never raise;
  - run one action through the passthrough API.
- The record shapes the client exchanges, in `pica_langchain/models.py`.
- The system-prompt composer, in `pica_langchain/prompts/__init__.py`.

The Pica API is not called. Each endpoint becomes a parameter:

- each list endpoint (connections, connection definitions, actions) is a function from a `GetRequest` to its decoded outcome: rows and a total, or the text of the exception raised on the way;
- the passthrough call is a function from the `RequestConfig` to a decoded body or an error.

Every method of the client class is proved against a specification function:

- `Initialize` and the constructor are stated in terms of `Registry` functions;
- `Paginate` is stated in terms of `Pagination.Walk`;
- `Execute`, `ResolvePath` and `BuildConfig` are stated in terms of `Execution.ExecuteSpec`, `Execution.Reconcile` and `Execution.BuildRequest`.

Lemmas then establish the properties the client promises. Composing the prompt is a pure function. Its current time is an `Instant` parameter, so the same inputs always give the same prompt.

Modules, one file each:

| module | file | role |
|---|---|---|
| `Wrappers` | `wrappers.dfy` | `Option`, `Result` |
| `Text` | `text.dfy` | Python string operations: `join`, `in`, `find`, `lower`, `str(int)`, `strip` |
| `Lists` | `lists.dfy` | order-preserving `Filter` (list comprehensions with a condition) |
| `Models` | `models.dfy` | records, literals, defaults, the mutable `ExecuteParams` |
| `PathTemplate` | `path_template.dfy` | `{{name}}` placeholders: finding and substituting |
| `Pagination` | `pagination.dfy` | the offset/limit walk |
| `Http` | `http.dfy` | endpoints, headers, log masking, passthrough URL |
| `Registry` | `registry.dfy` | the fetches and summaries of `initialize` |
| `Catalog` | `catalog.dfy` | action lookup and the two agent-facing envelopes |
| `Execution` | `execution.dfy` | one `execute` call as a function |
| `Prompts` | `prompts.dfy` | `generate_full_system_prompt` |
| `Client` | `client.dfy` | `class PicaClient` |

## Model

| member | source | states |
|---|---|---|
| Models.PyStr | pica_langchain/client.py:444 | `str(value)`: a string is itself; an int, a bool and `None` print as Python prints them |
| Models.ParseIdentityType | pica_langchain/models.py:268-271 | exactly `"user"`, `"team"` and `"organization"` are accepted, each as the value that prints back to it |
| Models.IdentityTypeRoundTrip | pica_langchain/models.py:268 | every identity type parses back from its own name |
| Models.ParseOperation | pica_langchain/models.py:38 | exactly the seven operation literals are accepted, each as the value that prints back to it |
| Models.EmptyAvailableAction | pica_langchain/models.py:51-59 | every action field defaults to absent, except `tags`, which defaults to an empty list |
| Models.BareExecuteResponse | pica_langchain/models.py:217-246 | an envelope built from `success` alone has every other field absent |
| Models.DefaultOptions | pica_langchain/models.py:254-275 | the option defaults: server URL `https://api.picaos.com`, no connectors, no identity filters, AuthKit off |
| Models.ExecuteParams.constructor | pica_langchain/models.py:200-210 | the four required fields as given; `data`, `path_variables`, `query_params` and `headers` absent; both flags false |
| Models.ExecuteParams.Full | pica_langchain/models.py:200-210 | every field as given |
| PathTemplate.Tokenize | pica_langchain/client.py:446 | the scan only ever yields placeholder names that are non-empty and contain no `}` |
| PathTemplate.TokenizeRoundTrip | pica_langchain/client.py:446 | the scan loses nothing: its tokens spell the path |
| PathTemplate.Placeholders | pica_langchain/client.py:471 | `re.findall` of the placeholder pattern: every name is non-empty and has no `}` |
| PathTemplate.SubstituteOutcome | pica_langchain/client.py:440-446 | substitution succeeds exactly when every placeholder has a value; otherwise it fails with "Missing value for path variable: " and the first placeholder, in path order, that has no value |
| PathTemplate.Substitute | pica_langchain/client.py:423-446 | `_replace_path_variables`: succeeds exactly when no placeholder lacks a value; otherwise the error names the first one without a value |
| PathTemplate.NoPlaceholdersUnchanged | pica_langchain/client.py:446 | a path without placeholders is returned unchanged |
| PathTemplate.SubstitutionIsSinglePass | pica_langchain/client.py:446 | substituted text is not expanded again: values spelling `{{name}}` reproduce the path |
| PathTemplate.SubstituteLiteralPrefix | pica_langchain/client.py:446 | text before the first `{` is copied through |
| PathTemplate.SubstituteLeadingPlaceholder | pica_langchain/client.py:440-446 | a leading placeholder becomes `str` of its value, or the error naming it |
| PathTemplate.PlaceholdersLiteralPrefix | pica_langchain/client.py:471 | text before the first `{` holds no placeholder |
| PathTemplate.PlaceholdersLeading | pica_langchain/client.py:471 | a leading placeholder is the first name found |
| PathTemplate.TwoPlaceholders | pica_langchain/client.py:440-446 | `a{{x}}b{{y}}` becomes `a str(x) b str(y)`, or fails naming `y` when only `y` is missing |
| PathTemplate.UsersReposExample | pica_langchain/client.py:440-446 | `/users/{{id}}/repos/{{owner}}` resolves to `/users/42/repos/acme`, and without `owner` it fails naming it |
| Pagination.PageRequest | pica_langchain/client.py:260-270 | request `k` carries the base parameters plus `skip = k*limit` and `limit`, and the client headers |
| Pagination.Walk | pica_langchain/client.py:259-282 | the `while True` loop of `_paginate_results`: a finished walk keeps the rows gathered before it as a prefix of its result |
| Pagination.WalkOutcomeFrom | pica_langchain/client.py:259-285 | the inductive step of `WalkOutcome`, from any page reached with the rows gathered so far |
| Pagination.WalkOutcome | pica_langchain/client.py:259-285 | a finished walk made some `n` requests, each page before the last asking for more. It then returns either the in-order rows of pages `0..n-1`, whose count reached the last page's total, or the failure of request `n-1`, with nothing partial |
| Pagination.SlicedWalkFrom | pica_langchain/client.py:259-282 | the inductive step of `SlicedServerWalk` |
| Pagination.SlicedServerWalk | pica_langchain/client.py:259-282 | against a server that pages a fixed list and reports its length, the walk returns exactly that list after ⌈length/limit⌉ requests (at least one) |
| Pagination.FirstPageEnough | pica_langchain/client.py:274-280 | a first page whose rows reach its total, such as a page reporting `total 0`, ends the walk after one request with those rows |
| Pagination.PagesForCeiling | pica_langchain/client.py:278-280 | the request count of `SlicedServerWalk` is ⌈size/limit⌉ for a non-empty list, and one for an empty list |
| Http.GenerateHeaders | pica_langchain/client.py:209-214 | exactly the two headers: JSON content type, and the secret |
| Http.MaskHeaders | pica_langchain/client.py:543-544 | the logged copy has the same names, masking a value exactly when the lower-cased name contains `secret` or `key` |
| Http.MaskingHidesExactlySensitive | pica_langchain/client.py:543-544 | a value is logged as it is exactly when its name is not sensitive or the value is the mask itself |
| Http.NoKeyLetters | pica_langchain/client.py:543-544 | a name without any letter that lower-cases to `s` or `k` is not masked |
| Http.SecretHeaderMasked | pica_langchain/client.py:543-544 | `x-pica-secret` is masked |
| Http.ConnectionKeyHeaderMasked | pica_langchain/client.py:543-544 | `x-pica-connection-key` is masked |
| Http.PlainHeadersShown | pica_langchain/client.py:543-544 | `Content-Type` and `x-pica-action-id` are logged as they are |
| Http.PassthroughUrl | pica_langchain/client.py:514 | base + `/v1/passthrough` + path, with `/` inserted only when the path lacks one |
| Http.PassthroughUrlShape | pica_langchain/client.py:514 | every URL is base + `/v1/passthrough/` + the path without at most one leading slash |
| Registry.SystemPrompt | pica_langchain/client.py:135-144 | the AuthKit template when AuthKit is on, the default template otherwise, applied to the two summaries |
| Registry.NextFilter | pica_langchain/client.py:89-92 | the `"*"` wildcard clears the filter; any other filter is kept |
| Registry.ConnectionsRequest | pica_langchain/client.py:156-169 | connections URL and client headers; `limit=300`; `identity` only when non-empty; `identityType` only when set; nothing else |
| Registry.DefinitionsRequest | pica_langchain/client.py:188-191 | the definitions URL with `limit=500`, no query parameters, the client headers |
| Http.ConnectionsUrl | pica_langchain/client.py:56 | the connections URL: the base URL and `/v1/vault/connections` |
| Http.KnowledgeUrl | pica_langchain/client.py:57 | the actions URL: the base URL and `/v1/knowledge` |
| Http.DefinitionsUrl | pica_langchain/client.py:58 | the definitions URL: the base URL and `/v1/public/connection-definitions?limit=500` |
| Registry.RowsOrEmpty | pica_langchain/client.py:177-182 | a failed fetch leaves an empty list; a successful one gives its rows |
| Registry.Listed | pica_langchain/client.py:102-109 | a connection is listed exactly when it is active and, for a non-empty filter, its key is in the filter |
| Registry.IsActive | pica_langchain/client.py:102 | a connection counts as active by its `active` flag alone |
| Registry.ConnectionLine | pica_langchain/client.py:114 | the line `{platform} - Key: {key}` of one connection |
| Registry.Lines | pica_langchain/client.py:114-117 | one line per item, in order |
| Registry.ConnectionsInfo | pica_langchain/client.py:112-119 | the literal "No connections available" when none is listed; otherwise starts with a bullet |
| Registry.JoinPrefixed | pica_langchain/client.py:113-114 | a leading bullet plus a join on `"\n\t* "` equals bulleting every item and joining on `"\n"` |
| Registry.ConnectionsInfoBullets | pica_langchain/client.py:112-119 | the summary is one `\t* {platform} - Key: {key}` line per listed connection, in order |
| Registry.WildcardListsAllActive | pica_langchain/client.py:89-109 | with the wildcard, every active connection is listed |
| Registry.ListedAppend | pica_langchain/client.py:102-109 | listing keeps fetched order: the listing of `xs + ys` is the listing of `xs` followed by that of `ys` |
| Registry.Offered | pica_langchain/client.py:122-127 | definitions are narrowed to the AuthKit list only when AuthKit is on and the list is non-empty; otherwise all are kept |
| Registry.PlatformsInfo | pica_langchain/client.py:130-133 | empty for no definitions; a single definition gives its one line with no bullet |
| Registry.DefinitionLine | pica_langchain/client.py:131 | the line `{platform} ({title})` of one definition |
| Registry.PlatformsInfoSnoc | pica_langchain/client.py:130-133 | each further definition adds `"\n\t* {platform} ({title})"` after the previous ones |
| Catalog.AllActionsParams | pica_langchain/client.py:298-301 | exactly `supported=true` and `connectionPlatform` |
| Catalog.SingleActionRequest | pica_langchain/client.py:325-332 | the knowledge URL, only `_id` as parameter, the client headers |
| Catalog.SingleAction | pica_langchain/client.py:341-351 | the first row exactly when the call succeeded with rows; otherwise "Failed to fetch action" |
| Catalog.AllActions | pica_langchain/client.py:303-311 | the walked rows, or "Failed to fetch all available actions" whatever failed |
| Catalog.Summarize | pica_langchain/client.py:367-374 | an action's entry carries its `_id`, title and tags |
| Catalog.ActionsEnvelope | pica_langchain/client.py:363-391 | success exactly when the actions came back. Then one summary per action in order, the platform, and "Found N available actions for P". Otherwise the failure title, with `message = raw = str(e)` and no platform |
| Catalog.KnowledgeEnvelope | pica_langchain/client.py:404-421 | success exactly when the action was found. The platform is reported either way. Success gives "Found knowledge for action: T". Failure gives its title and `message = raw = str(e)` |
| Catalog.ActionsFailureMessage | pica_langchain/client.py:303-311 | the actions envelope fails exactly when the walk failed, and always with the one generic message |
| Catalog.KnowledgeFailureMessage | pica_langchain/client.py:341-351 | the knowledge envelope fails exactly when the lookup failed or found no row, always with "Failed to fetch action" |
| Execution.Missing | pica_langchain/client.py:485 | a name is missing exactly when it is a placeholder that neither source supplies; none is missing exactly when all are supplied |
| Execution.MissingMessage | pica_langchain/client.py:487 | the error text listing the missing names joined by `, ` |
| Execution.MovedSpec | pica_langchain/client.py:492-499 | the path variables become the explicit ones plus every placeholder only `data` supplies, with its `data` value. `data` loses exactly those keys and keeps every other entry |
| Execution.Moved | pica_langchain/client.py:493-499 | the loop over the placeholders: no key is added to `data` and none is removed from the path variables (the full effect is `MovedSpec`) |
| Execution.Reconcile | pica_langchain/client.py:470-503 | a path without placeholders leaves everything as given, and neither `data` nor `path_variables` appears or disappears |
| Execution.MissingReported | pica_langchain/client.py:485-489 | unsupplied placeholders give one error that lists exactly them, and the caller's dictionaries are left alone |
| Execution.ReconciledPathResolves | pica_langchain/client.py:492-502 | once every placeholder is supplied by one of the two sources, the path resolves |
| Execution.ExplicitWins | pica_langchain/client.py:494 | a placeholder in both sources takes the explicit value and stays in `data` |
| Execution.BaseHeaders | pica_langchain/client.py:505-512 | exactly the four headers; the content type is form data when asked for, and the caller's `headers` are not used |
| Execution.FormPartOf | pica_langchain/client.py:528-531 | a nested object becomes a JSON part; anything else becomes `str(value)` |
| Execution.FormParts | pica_langchain/client.py:526-531 | one form part per `data` key |
| Execution.RequestBody | pica_langchain/client.py:523-538 | a body exactly when the method is not GET in any letter case and `data` is non-empty: multipart when asked for, JSON otherwise |
| Execution.BuildRequest | pica_langchain/client.py:505-538 | passthrough URL, method, query parameters, body and headers. A multipart body turns the content type into one that carries the boundary |
| Execution.Failure | pica_langchain/client.py:591-596 | the failure envelope: its title, `message = raw = str(e)`, nothing else |
| Execution.HasConnection | pica_langchain/client.py:462 | `any(conn.key == key …)` holds exactly when some loaded connection, active or not, has the key |
| Execution.NotFoundMessage | pica_langchain/client.py:463 | the error text naming the platform |
| Execution.ScalarParams | pica_langchain/models.py:72 | query parameters pass validation exactly when absent or each value is a string, an integer or a boolean |
| Execution.Success | pica_langchain/client.py:571-580 | the success envelope: data, connection key, platform, action title, request, knowledge and "Executed T via P" |
| Execution.ExecuteSpec | pica_langchain/client.py:448-596 | never raises. Success has no message; failure has the title and `message = raw` and no data, request or content |
| Execution.UnknownConnectionRejected | pica_langchain/client.py:462-465 | an unknown key fails with "Connection not found…" before any fetch, whatever the lookup and transport, and leaves the arguments unchanged |
| Execution.InactiveConnectionAccepted | pica_langchain/client.py:462 | an inactive connection passes the key check |
| Execution.SuccessIffAllStages | pica_langchain/client.py:462-580 | success exactly when the key is known, the action is found, the path resolves, the transport answers and the query values are scalars. The reported request is the one built from the reconciled path and `data` |
| Execution.IgnoredArguments | pica_langchain/client.py:505-509 | `headers` and `is_url_encoded` change nothing |
| Execution.ItemsExample | pica_langchain/client.py:470-538 | `/items/{{id}}` with `data {"id": "7", "note": "hi"}` gives path `/items/7` and `data {"note": "hi"}`, which a POST sends as JSON |
| Prompts.Two | pica_langchain/prompts/__init__.py:57 | a two-digit zero-padded field reads back as its value |
| Prompts.FourDigits | pica_langchain/prompts/__init__.py:57 | a four-digit year prints as four characters |
| Prompts.FormatTime | pica_langchain/prompts/__init__.py:57 | `YYYY-MM-DD HH:MM:SS`: 19 characters with separators in place, each field reading back as its value |
| Prompts.FirstBlockAt | pica_langchain/prompts/__init__.py:28-32 | a found block lies inside the text, its closing tag after its opening tag |
| Prompts.RemoveBlocks | pica_langchain/prompts/__init__.py:37-42 | removing blocks never lengthens the text |
| Prompts.Extract | pica_langchain/prompts/__init__.py:26-42 | no prompt, an empty one or one without a block is left alone with nothing extracted; after an extraction the user text is stripped |
| Prompts.ExtractWith | pica_langchain/prompts/__init__.py:28-42 | the same for any pair of tags |
| Prompts.NextSentence | pica_langchain/prompts/__init__.py:47-51 | the scan always moves forward; it moves by one character where no match starts |
| Prompts.InjectAll | pica_langchain/prompts/__init__.py:47-51 | the substitution only inserts text: the result is never shorter |
| Prompts.Inject | pica_langchain/prompts/__init__.py:45-51 | absent or empty supported connections leave the Pica prompt unchanged |
| Prompts.Middle | pica_langchain/prompts/__init__.py:54-60 | the fixed lines begin with the banner's `=` and end with the heading's `-` |
| Prompts.Compose | pica_langchain/prompts/__init__.py:53-62 | stripping touches only the user text before the banner and the Pica prompt after it; the result has no whitespace at either end |
| Prompts.FullSystemPrompt | pica_langchain/prompts/__init__.py:10-63 | the result has no whitespace at either end and always holds the banner lines with the current time |
| Prompts.ComposeHasMiddle | pica_langchain/prompts/__init__.py:53-62 | stripping never cuts into the banner lines |
| Prompts.FirstBlock | pica_langchain/prompts/__init__.py:28-42 | in `x open m close y` with the first block shown, the block is found and removal leaves `x` + (blocks of `y` removed) |
| Prompts.ExtractWithFirstBlock | pica_langchain/prompts/__init__.py:28-42 | the extracted text is `m` stripped; the user text is `x` + (blocks of `y` removed), stripped |
| Prompts.ExtractWithFound | pica_langchain/prompts/__init__.py:35-42 | with the block and the removal known, the extraction is their two stripped texts |
| Prompts.ExtractFirstBlock | pica_langchain/prompts/__init__.py:26-42 | a user prompt `x <SUPPORTED CONNECTIONS>m</SUPPORTED CONNECTIONS> y` yields `m` stripped, and the user text `x` + (blocks of `y` removed), stripped |
| Prompts.SentenceFound | pica_langchain/prompts/__init__.py:47-51 | a lead followed on the same line by the tail is matched, and the scan resumes after the tail |
| Prompts.InjectAfter | pica_langchain/prompts/__init__.py:47-51 | the text goes right after the first such sentence, after a blank line, and the scan continues in the rest |
| Prompts.InjectAfterSentence | pica_langchain/prompts/__init__.py:45-51 | the supported connections appear right after the IMPORTANT "supported connections" sentence, separated by a blank line |
| Prompts.NoSentenceAll | pica_langchain/prompts/__init__.py:47-51 | where no lead is followed by the tail on the same line, the substitution changes nothing |
| Prompts.NoSentenceUnchanged | pica_langchain/prompts/__init__.py:45-51 | a Pica prompt in which no IMPORTANT opening is followed on its own line by the closing words, including one without the opening at all, is unchanged |
| Prompts.NoBlockUnchanged | pica_langchain/prompts/__init__.py:26-51 | with no user prompt, or no block in it, the Pica prompt is embedded unchanged and the user prompt as given |
| Prompts.BlockMovedIntoSentence | pica_langchain/prompts/__init__.py:26-62 | with a first block `m` in the user prompt and a first IMPORTANT sentence in the Pica prompt, the result composes the user text without the blocks, stripped, with the Pica prompt carrying `m` stripped right after that sentence and a blank line |
| Prompts.BlankBlockRemoved | pica_langchain/prompts/__init__.py:26-45 | a block with only whitespace inside is removed from the user text and the Pica prompt is used as given |
| Prompts.RStripSpaces | pica_langchain/prompts/__init__.py:62 | `rstrip` removes only trailing whitespace after a non-space character |
| Prompts.LStripSpaces | pica_langchain/prompts/__init__.py:62 | `lstrip` removes only leading whitespace before a non-space character |
| Prompts.UserPartLayout | pica_langchain/prompts/__init__.py:53-62 | the user text loses its leading whitespace only |
| Prompts.SystemPartLayout | pica_langchain/prompts/__init__.py:53-62 | the Pica prompt loses its trailing whitespace only |
| Prompts.ComposeLayout | pica_langchain/prompts/__init__.py:53-62 | in order: the user text, a line break, the banner, the description, the current time, the tools heading, a line break and the Pica prompt |
| Client.PicaClient.constructor | pica_langchain/client.py:29-79 | keeps the options and initializes. The filter, connections and definitions are those of the first `initialize`, and the client is valid |
| Client.PicaClient.Initialize | pica_langchain/client.py:81-150 | a second call changes nothing; a first call always ends initialized, even when both fetches failed. Connections are fetched only for a non-empty filter, and the wildcard is cleared. The prompt describes the loaded registry (`Valid`) |
| Client.PicaClient.InitializeConnections | pica_langchain/client.py:152-182 | the fetched rows, or none on any failure |
| Client.PicaClient.InitializeConnectionDefinitions | pica_langchain/client.py:184-207 | the fetched rows, or none on any failure |
| Client.PicaClient.GenerateSystemPrompt | pica_langchain/client.py:216-229 | initializes when needed, then composes the full prompt from the current system prompt |
| Client.PicaClient.Paginate | pica_langchain/client.py:236-285 | the loop returns `Walk`'s outcome (see `Pagination.WalkOutcome`) |
| Client.PicaClient.GetAllAvailableActions | pica_langchain/client.py:287-311 | 100 per page over the knowledge URL with the platform query; any failure gives the one generic error |
| Client.PicaClient.GetSingleAction | pica_langchain/client.py:313-351 | the lookup's first row, or "Failed to fetch action" |
| Client.PicaClient.GetAvailableActions | pica_langchain/client.py:353-391 | the actions envelope of the walk's outcome |
| Client.PicaClient.GetActionKnowledge | pica_langchain/client.py:393-421 | the knowledge envelope of the lookup's outcome |
| Client.PicaClient.BuildFormFields | pica_langchain/client.py:526-531 | the loop over `data` builds exactly `FormParts(data)` |
| Client.PicaClient.Execute | pica_langchain/client.py:448-596 | the envelope and the caller's `data` and `path_variables` afterwards are those `ExecuteSpec` gives for the arguments on entry |
| Client.PicaClient.ResolvePath | pica_langchain/client.py:470-503 | the resolved path or its error, and `data` and `path_variables` as `Reconcile` leaves them |
| Client.PicaClient.BuildConfig | pica_langchain/client.py:505-538 | the request built step by step is `BuildRequest`'s |
| Client.PicaClient.MoveVariables | pica_langchain/client.py:492-499 | `data` becomes `Moved`'s copy. The caller's `path_variables` receives the moved entries only when it is the non-empty dictionary being updated |

Notes on the model, where it follows the code:

- `execute` accepts any loaded connection with the key, active or not (client.py:462).
- The caller's `headers` and `is_url_encoded` are never used (client.py:505-509). `Execution.IgnoredArguments` proves this.
- `path_variables or {}` keeps the caller's dictionary only when it is non-empty. So a non-empty dictionary passed by the caller receives the moved entries in place, while `data` is always replaced by a fresh copy (client.py:472, 495-499).
- Empty `data` gives no body (client.py:538).
- `get_single_action` raises "Action with ID … not found" inside its own `try`. That text is replaced by "Failed to fetch action" (client.py:341-351).
- The connection-definitions request sends no query parameters besides the `limit=500` in its URL (client.py:191). The AuthKit-parameter assertions in tests/test_client.py:241-242 disagree; the model follows the code.
- An action's summary id is the row's `_id` (client.py:369). The declared `_id` is a pydantic private attribute, so it is always unset, and the source falls back to the dumped row.
- `RequestConfig(**request_config)` is validated only after the transport answers (client.py:577). Its `params` accept only string, integer and boolean values, so other query values turn a successful call into a failure envelope.

## Left out
- Models.Value: has no float. A float in `data`, `path_variables` or `query_params`, and its `str()`, cannot be represented; nor can pydantic turning a whole float in `query_params` into an int and rejecting any other float (models.py:72), so `Execution.ScalarParams` covers only non-float values.
- Text.LowerChar: lower-cases ASCII letters only, where `str.lower` follows Unicode (U+212A becomes `k`). The names it is applied to are the fixed header names and HTTP methods.

- HTTP transport, `raise_for_status`, JSON-versus-text decoding and pydantic validation of fetched rows are not modelled. Each call is a function parameter giving rows and a total, a decoded body, or the text of the exception raised (client.py:169-177, 548-560).
- The multipart byte encoding is not modelled. `MultipartEncoder` is a foreign library, so the model keeps only the form fields and takes the boundary as a parameter (client.py:533-535).
- Logging, `print`, `log_request_response` and `sys.exit` are not modelled. The missing-secret exit (client.py:41-44) is the constructor's precondition `secret != ""`.
- `datetime.now(timezone.utc)` is not called: the instant is the parameter `now`, with years 1000-9999, where `%Y` gives four digits.
- The text of `get_default_system_prompt` and `get_authkit_system_prompt` is not modelled. These come from modules that are not part of this model, so the two templates are opaque functions of the two summaries (`Registry.Templates`). The constructor's "Loading connections..." placeholder prompt is overwritten by the `initialize` that ends the constructor.
- Prompts.Inject: the supported-connections text is spliced in literally. `re.sub` would also interpret backslash escapes in it.
- The JSON text of request bodies and nested values is not modelled. Bodies stay structured (`Body`), and top-level dictionaries are maps, so their key order is not modelled.
- `repr` of nested strings (`Models.Repr`) uses single quotes without escaping.
- A `RequestConfig` rejected by validation reports the constant `RequestConfigRejected`, not pydantic's full message.
- Client.PicaClient.Paginate: modelled only for walks that end within a ghost `fuel` bound of requests (`requires Walk(…).Some?`). An endless walk, where the total is never reached, is not modelled. The same precondition carries over to GetAllAvailableActions and GetAvailableActions.
- `authkit_supported_platforms` is read at client.py:77 but not declared in `PicaClientOptions` (models.py:254-280). The model gives it an optional field in the options record.
- `ActionsResponse.actions` is modelled as typed `ActionSummary` entries rather than free dictionaries.
- `ManageEntityParams` is the only type kept from the entity-management part of models.py. `mcp.py`, `utils.py`, the package `__init__`, `setup.py` and the examples are LangChain/MCP wiring or demo I/O and are not part of this model.
- Asynchrony is not modelled: `generate_system_prompt` is an ordinary method.
