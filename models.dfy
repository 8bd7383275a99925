/** The record shapes the client exchanges with the Pica API and with its
    callers (pica_langchain/models.py). Pydantic validation, field aliases and
    `extra="allow"` are not modelled: each record is a plain datatype holding
    the fields the client reads or fills. */
module Models {
  import opened Wrappers
  import opened Text

  /** A decoded JSON value, or any Python value the client stringifies.
      JSON objects keep their key order, as Python dicts do. */
  datatype Value =
    | VStr(s: string)
    | VInt(i: int)
    | VBool(b: bool)
    | VNull
    | VList(items: seq<Value>)
    | VObject(fields: seq<(string, Value)>)

  /** `repr(v)`; strings are shown in single quotes without escaping. */
  function Repr(v: Value): string
    decreases v, 1
  {
    match v
    case VStr(s) => "'" + s + "'"
    case VInt(i) => IntToString(i)
    case VBool(b) => if b then "True" else "False"
    case VNull => "None"
    case VList(items) =>
      "[" + Join(seq(|items|, k requires 0 <= k < |items| => Repr(items[k])), ", ") + "]"
    case VObject(fields) =>
      "{" + Join(seq(|fields|, k requires 0 <= k < |fields| =>
                       "'" + fields[k].0 + "': " + Repr(fields[k].1)), ", ") + "}"
  }

  /** `str(v)`: a string is itself, anything else is its `repr`. */
  function PyStr(v: Value): (r: string)
    ensures v.VStr? ==> r == v.s
    ensures v.VInt? ==> r == IntToString(v.i)
    ensures v.VBool? ==> r == (if v.b then "True" else "False")
    ensures v.VNull? ==> r == "None"
  {
    if v.VStr? then v.s else Repr(v)
  }

  /** `str(x)` for an optional string field: `None` prints as "None". */
  function OptStr(x: Option<string>): string {
    match x
    case Some(s) => s
    case None => "None"
  }

  // ---------------------------------------------------------------------------
  // Literal types

  /** `PicaClientOptions.identity_type` (models.py:268). */
  datatype IdentityType = User | Team | Organization {
    function Name(): string {
      match this
      case User => "user"
      case Team => "team"
      case Organization => "organization"
    }
  }

  /** Validation of an `identity_type` string: exactly the three literals are
      accepted, each as the value that prints back to it. */
  function ParseIdentityType(s: string): (r: Option<IdentityType>)
    ensures r.Some? <==> s in ["user", "team", "organization"]
    ensures r.Some? ==> r.value.Name() == s
  {
    if s == "user" then Some(User)
    else if s == "team" then Some(Team)
    else if s == "organization" then Some(Organization)
    else None
  }

  lemma {:induction false} IdentityTypeRoundTrip(t: IdentityType)
    ensures ParseIdentityType(t.Name()) == Some(t)
  {
    match t
    case User =>
    case Team =>
    case Organization =>
  }

  /** `ManageEntityParams.operation` (models.py:38). */
  datatype Operation = List | Get | Create | Update | Delete | Count | Capabilities {
    function Name(): string {
      match this
      case List => "list"
      case Get => "get"
      case Create => "create"
      case Update => "update"
      case Delete => "delete"
      case Count => "count"
      case Capabilities => "capabilities"
    }
  }

  const OperationNames: seq<string> :=
    ["list", "get", "create", "update", "delete", "count", "capabilities"]

  /** Validation of an `operation` string: exactly the seven literals. */
  function ParseOperation(s: string): (r: Option<Operation>)
    ensures r.Some? <==> s in OperationNames
    ensures r.Some? ==> r.value.Name() == s
  {
    if s == "list" then Some(List)
    else if s == "get" then Some(Get)
    else if s == "create" then Some(Create)
    else if s == "update" then Some(Update)
    else if s == "delete" then Some(Delete)
    else if s == "count" then Some(Count)
    else if s == "capabilities" then Some(Capabilities)
    else None
  }

  datatype ManageEntityParams = ManageEntityParams(
    operation: Operation,
    entityType: string,
    connectionKey: string,
    id: Option<string>,
    data: Option<map<string, Value>>,
    filters: Option<map<string, Value>>)

  // ---------------------------------------------------------------------------
  // Records fetched from the API

  /** A credentialed link to one platform (models.py:161-188). */
  datatype Connection = Connection(
    id: string,
    platformVersion: string,
    connectionDefinitionId: Option<string>,
    name: Option<string>,
    key: string,
    environment: string,
    platform: string,
    secretsServiceId: Option<string>,
    settings: Option<Value>,
    throughput: Option<Value>,
    createdAt: int,
    updatedAt: int,
    updated: bool,
    version: string,
    lastModifiedBy: string,
    deleted: bool,
    tags: Option<seq<string>>,
    active: bool,
    deprecated: bool)

  datatype FrontendSpec = FrontendSpec(
    title: string, description: string, platform: string,
    category: string, image: string, tags: seq<string>)

  datatype ConnectionForm = ConnectionForm(name: string, description: string, formData: seq<Value>)

  datatype Frontend = Frontend(spec: FrontendSpec, connectionForm: ConnectionForm)

  /** A platform's integration surface (models.py:129-158). */
  datatype ConnectionDefinition = ConnectionDefinition(
    authMethod: Option<Value>,
    id: string,
    platformVersion: string,
    platform: string,
    kind: string,
    name: string,
    frontend: Frontend,
    hidden: bool,
    createdAt: int,
    updatedAt: int,
    version: string,
    deleted: bool,
    tags: Option<seq<string>>,
    active: bool,
    deprecated: bool)

  /** An action of a platform (models.py:51-65); every field may be absent. */
  datatype AvailableAction = AvailableAction(
    id: Option<string>,
    title: Option<string>,
    connectionPlatform: Option<string>,
    knowledge: Option<string>,
    path: Option<string>,
    baseUrl: Option<string>,
    tags: Option<seq<string>>)

  /** `AvailableAction()` built with no fields: everything absent, `tags` an
      empty list (models.py:53-59). */
  function EmptyAvailableAction(): (a: AvailableAction)
    ensures a.id.None? && a.title.None? && a.connectionPlatform.None?
    ensures a.knowledge.None? && a.path.None? && a.baseUrl.None?
    ensures a.tags == Some([])
  {
    AvailableAction(None, None, None, None, None, None, Some([]))
  }

  /** The action reference an execution request names (models.py:191-197). */
  datatype ActionToExecute = ActionToExecute(id: string, path: string)

  // ---------------------------------------------------------------------------
  // Requests and responses

  /** One multipart form field: a nested object is sent as its JSON text with
      an `application/json` part type, anything else as `str(value)`. */
  datatype FormPart = JsonPart(json: Value) | TextPart(text: string)

  /** The body of a passthrough request, before byte encoding. */
  datatype Body = JsonBody(fields: map<string, Value>) | MultipartBody(parts: map<string, FormPart>)

  /** The request configuration reported back to the caller (models.py:68-77). */
  datatype RequestConfig = RequestConfig(
    url: string,
    httpMethod: Option<string>,
    headers: map<string, string>,
    params: Option<map<string, Value>>,
    data: Option<Body>)

  /** One entry of the action list returned to the agent. */
  datatype ActionSummary = ActionSummary(id: Option<string>, title: Option<string>, tags: Option<seq<string>>)

  /** The envelopes (models.py:217-251): `success` is required, every other
      field defaults to absent. */
  datatype ActionsResponse = ActionsResponse(
    success: bool,
    content: Option<string>, message: Option<string>, raw: Option<string>, title: Option<string>,
    actions: Option<seq<ActionSummary>>,
    platform: Option<string>)

  datatype ActionKnowledgeResponse = ActionKnowledgeResponse(
    success: bool,
    content: Option<string>, message: Option<string>, raw: Option<string>, title: Option<string>,
    platform: string,
    action: Option<AvailableAction>)

  datatype ExecuteResponse = ExecuteResponse(
    success: bool,
    content: Option<string>, message: Option<string>, raw: Option<string>, title: Option<string>,
    data: Option<Value>,
    connectionKey: Option<string>,
    platform: Option<string>,
    action: Option<string>,
    requestConfig: Option<RequestConfig>,
    knowledge: Option<string>)

  /** `ExecuteResponse(success=...)` with every other field left at its default. */
  function BareExecuteResponse(success: bool): (r: ExecuteResponse)
    ensures r.success == success
    ensures r.content.None? && r.message.None? && r.raw.None? && r.title.None?
    ensures r.data.None? && r.connectionKey.None? && r.platform.None? && r.action.None?
    ensures r.requestConfig.None? && r.knowledge.None?
  {
    ExecuteResponse(success, None, None, None, None, None, None, None, None, None, None)
  }

  // ---------------------------------------------------------------------------
  // Calls to the Pica API, seen from the client

  /** One GET: URL, query parameters and headers. */
  datatype GetRequest = GetRequest(url: string, params: map<string, Value>, headers: map<string, string>)

  /** What a GET gives back once decoded: the `rows` (default `[]`) and the
      `total` (default `0`) of the JSON body, or the text of the exception
      raised on the way (transport, HTTP status, decoding or validation). */
  datatype GetOutcome<T> = Rows(rows: seq<T>, total: int) | Failed(error: string)

  /** What the passthrough call gives back: the decoded body (JSON, or the
      raw text as a string), or the text of the exception raised. */
  datatype HttpOutcome = Responded(body: Value) | HttpFailed(error: string)

  // ---------------------------------------------------------------------------
  // Configuration

  /** Client configuration (models.py:254-280), with the AuthKit platform
      allow-list that the client reads (client.py:77). */
  datatype PicaClientOptions = PicaClientOptions(
    serverUrl: string,
    connectors: seq<string>,
    identity: Option<string>,
    identityType: Option<IdentityType>,
    authkit: bool,
    authkitSupportedPlatforms: Option<seq<string>>)

  /** `PicaClientOptions()` with no arguments. */
  function DefaultOptions(): (o: PicaClientOptions)
    ensures o.serverUrl == "https://api.picaos.com"
    ensures o.connectors == []
    ensures o.identity.None? && o.identityType.None?
    ensures !o.authkit
    ensures o.authkitSupportedPlatforms.None?
  {
    PicaClientOptions("https://api.picaos.com", [], None, None, false, None)
  }

  /** The field values of an `ExecuteParams` object at one moment. */
  datatype ExecuteArgs = ExecuteArgs(
    platform: string,
    action: ActionToExecute,
    httpMethod: string,
    connectionKey: string,
    data: Option<map<string, Value>>,
    pathVariables: Option<map<string, Value>>,
    queryParams: Option<map<string, Value>>,
    headers: Option<map<string, Value>>,
    isFormData: bool,
    isUrlEncoded: bool)

  /** The arguments of one `execute` call (models.py:200-214). The object is
      mutable: `execute` replaces `data` and updates `path_variables` in place. */
  class ExecuteParams {
    const platform: string
    const action: ActionToExecute
    const httpMethod: string
    const connectionKey: string
    var data: Option<map<string, Value>>
    var pathVariables: Option<map<string, Value>>
    const queryParams: Option<map<string, Value>>
    const headers: Option<map<string, Value>>
    const isFormData: bool
    const isUrlEncoded: bool

    /** The current field values. */
    function Args(): ExecuteArgs
      reads this
    {
      ExecuteArgs(platform, action, httpMethod, connectionKey, data, pathVariables,
                  queryParams, headers, isFormData, isUrlEncoded)
    }

    /** `ExecuteParams(platform=…, action=…, method=…, connection_key=…)`:
        the four required fields, everything else at its default. */
    constructor (platform: string, action: ActionToExecute, httpMethod: string, connectionKey: string)
      ensures this.platform == platform && this.action == action
      ensures this.httpMethod == httpMethod && this.connectionKey == connectionKey
      ensures data.None? && pathVariables.None? && queryParams.None? && headers.None?
      ensures !isFormData && !isUrlEncoded
    {
      this.platform := platform;
      this.action := action;
      this.httpMethod := httpMethod;
      this.connectionKey := connectionKey;
      data := None;
      pathVariables := None;
      queryParams := None;
      headers := None;
      isFormData := false;
      isUrlEncoded := false;
    }

    /** `ExecuteParams` with every field given. */
    constructor Full(platform: string, action: ActionToExecute, httpMethod: string, connectionKey: string,
                     data: Option<map<string, Value>>, pathVariables: Option<map<string, Value>>,
                     queryParams: Option<map<string, Value>>, headers: Option<map<string, Value>>,
                     isFormData: bool, isUrlEncoded: bool)
      ensures this.platform == platform && this.action == action
      ensures this.httpMethod == httpMethod && this.connectionKey == connectionKey
      ensures this.data == data && this.pathVariables == pathVariables
      ensures this.queryParams == queryParams && this.headers == headers
      ensures this.isFormData == isFormData && this.isUrlEncoded == isUrlEncoded
    {
      this.platform := platform;
      this.action := action;
      this.httpMethod := httpMethod;
      this.connectionKey := connectionKey;
      this.data := data;
      this.pathVariables := pathVariables;
      this.queryParams := queryParams;
      this.headers := headers;
      this.isFormData := isFormData;
      this.isUrlEncoded := isUrlEncoded;
    }
  }
}
