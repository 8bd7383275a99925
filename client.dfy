/** `PicaClient` (client.py:25-596): the configuration it keeps, the
    connection registry `initialize` loads into it, and its operations. The
    Pica API is reached through function parameters: one per list endpoint,
    the action lookup and the passthrough transport. Each method is proved
    against the specification function of the module that defines what it
    computes. */
module Client {
  import opened Wrappers
  import opened Text
  import opened Models
  import opened Http
  import opened PathTemplate
  import opened Pagination
  import opened Registry
  import opened Catalog
  import opened Execution
  import opened Prompts

  class PicaClient {
    const secret: string
    const baseUrl: string
    const templates: Templates
    const identityFilter: Option<string>
    const identityTypeFilter: Option<IdentityType>
    const useAuthkit: bool
    const authkitSupportedPlatforms: Option<seq<string>>

    var connections: seq<Connection>
    var connectionDefinitions: seq<ConnectionDefinition>
    var connectorsFilter: seq<string>
    var systemPrompt: string
    var initialized: bool

    /** The prompt the loaded registry calls for. */
    function ExpectedPrompt(): string
      reads this
    {
      SystemPrompt(templates, useAuthkit,
                   ConnectionsInfo(Listed(connections, connectorsFilter)),
                   PlatformsInfo(Offered(connectionDefinitions, useAuthkit, authkitSupportedPlatforms)))
    }

    /** Once initialized, the prompt describes the loaded registry and the
        `"*"` wildcard has been cleared from the filter. */
    predicate Valid()
      reads this
    {
      initialized ==> systemPrompt == ExpectedPrompt() && "*" !in connectorsFilter
    }

    /** `PicaClient(secret, options)`: keeps the configuration and initializes
        at once (client.py:29-79). The source exits the process on an empty
        secret, which is a precondition here. */
    constructor (secret: string, options: PicaClientOptions, templates: Templates,
                 connectionsApi: GetRequest -> GetOutcome<Connection>,
                 definitionsApi: GetRequest -> GetOutcome<ConnectionDefinition>)
      requires secret != ""
      ensures Valid() && initialized
      ensures this.secret == secret && baseUrl == options.serverUrl && this.templates == templates
      ensures identityFilter == options.identity && identityTypeFilter == options.identityType
      ensures useAuthkit == options.authkit && authkitSupportedPlatforms == options.authkitSupportedPlatforms
      ensures connections ==
        if FetchesConnections(options.connectors)
        then RowsOrEmpty(connectionsApi(ConnectionsRequest(options.serverUrl, secret, options.identity, options.identityType)))
        else []
      ensures connectionDefinitions == RowsOrEmpty(definitionsApi(DefinitionsRequest(options.serverUrl, secret)))
      ensures connectorsFilter == NextFilter(options.connectors)
    {
      this.secret := secret;
      baseUrl := options.serverUrl;
      this.templates := templates;
      identityFilter := options.identity;
      identityTypeFilter := options.identityType;
      useAuthkit := options.authkit;
      authkitSupportedPlatforms := options.authkitSupportedPlatforms;
      connections := [];
      connectionDefinitions := [];
      connectorsFilter := options.connectors;
      systemPrompt := SystemPrompt(templates, options.authkit, "Loading connections...", "");
      initialized := false;
      new;
      Initialize(connectionsApi, definitionsApi);
    }

    /** `initialize()` (client.py:81-150): a second call does nothing; the
        first loads the connections (only with a non-empty filter) and the
        definitions, clears a wildcard filter and builds the system prompt. */
    method Initialize(connectionsApi: GetRequest -> GetOutcome<Connection>,
                      definitionsApi: GetRequest -> GetOutcome<ConnectionDefinition>)
      modifies this
      requires Valid()
      ensures Valid() && initialized
      ensures old(initialized) ==> unchanged(this)
      ensures !old(initialized) ==>
        && connections ==
             (if FetchesConnections(old(connectorsFilter))
              then RowsOrEmpty(connectionsApi(ConnectionsRequest(baseUrl, secret, identityFilter, identityTypeFilter)))
              else [])
        && connectionDefinitions == RowsOrEmpty(definitionsApi(DefinitionsRequest(baseUrl, secret)))
        && connectorsFilter == NextFilter(old(connectorsFilter))
    {
      if initialized {
        return;
      }
      if |connectorsFilter| > 0 && "*" in connectorsFilter {
        InitializeConnections(connectionsApi);
        connectorsFilter := [];
      } else if |connectorsFilter| > 0 {
        InitializeConnections(connectionsApi);
      } else {
        connections := [];
      }
      InitializeConnectionDefinitions(definitionsApi);
      var listed := Listed(connections, connectorsFilter);
      var connectionsInfo := ConnectionsInfo(listed);
      var offered := Offered(connectionDefinitions, useAuthkit, authkitSupportedPlatforms);
      var platformsInfo := PlatformsInfo(offered);
      systemPrompt := SystemPrompt(templates, useAuthkit, connectionsInfo, platformsInfo);
      initialized := true;
    }

    /** `_initialize_connections()` (client.py:152-182): the fetched rows, or
        none when anything fails. */
    method InitializeConnections(connectionsApi: GetRequest -> GetOutcome<Connection>)
      modifies this`connections
      ensures connections == RowsOrEmpty(connectionsApi(ConnectionsRequest(baseUrl, secret, identityFilter, identityTypeFilter)))
    {
      var outcome := connectionsApi(ConnectionsRequest(baseUrl, secret, identityFilter, identityTypeFilter));
      match outcome
      case Rows(rows, _) => connections := rows;
      case Failed(_) => connections := [];
    }

    /** `_initialize_connection_definitions()` (client.py:184-207). */
    method InitializeConnectionDefinitions(definitionsApi: GetRequest -> GetOutcome<ConnectionDefinition>)
      modifies this`connectionDefinitions
      ensures connectionDefinitions == RowsOrEmpty(definitionsApi(DefinitionsRequest(baseUrl, secret)))
    {
      var outcome := definitionsApi(DefinitionsRequest(baseUrl, secret));
      match outcome
      case Rows(rows, _) => connectionDefinitions := rows;
      case Failed(_) => connectionDefinitions := [];
    }

    /** The `system` property (client.py:230-233). */
    function System(): string
      reads this
    {
      systemPrompt
    }

    /** `generate_system_prompt(user_system_prompt)` at time `now`
        (client.py:216-228): initializes first when needed. */
    method GenerateSystemPrompt(user: Option<string>, now: Instant,
                                connectionsApi: GetRequest -> GetOutcome<Connection>,
                                definitionsApi: GetRequest -> GetOutcome<ConnectionDefinition>) returns (r: string)
      modifies this
      requires Valid() && now.Valid()
      ensures Valid() && initialized
      ensures old(initialized) ==> unchanged(this)
      ensures r == FullSystemPrompt(systemPrompt, user, now)
    {
      if !initialized {
        Initialize(connectionsApi, definitionsApi);
      }
      r := FullSystemPrompt(systemPrompt, user, now);
    }

    /** `_paginate_results(url, params, limit)` (client.py:236-285): requests
        pages until the gathered rows reach the reported total; any failure
        ends the walk with that failure. Modelled for walks that end within
        `fuel` requests. */
    method Paginate<T>(server: GetRequest -> GetOutcome<T>, url: string, params: map<string, Value>,
                       limit: int, ghost fuel: nat) returns (r: Result<seq<T>>)
      requires Walk(server, url, params, GenerateHeaders(secret), limit, 0, [], fuel).Some?
      ensures r == Walk(server, url, params, GenerateHeaders(secret), limit, 0, [], fuel).value
    {
      var skip := 0;
      var all: seq<T> := [];
      ghost var k: nat := 0;
      while true
        invariant skip == k * limit && k <= fuel
        invariant Walk(server, url, params, GenerateHeaders(secret), limit, k, all, fuel - k)
                  == Walk(server, url, params, GenerateHeaders(secret), limit, 0, [], fuel)
        decreases fuel - k
      {
        var current := params["skip" := VInt(skip)]["limit" := VInt(limit)];
        var outcome := server(GetRequest(url, current, GenerateHeaders(secret)));
        assert GetRequest(url, current, GenerateHeaders(secret)) == PageRequest(url, params, GenerateHeaders(secret), limit, k);
        if outcome.Failed? {
          return Err(outcome.error);
        }
        all := all + outcome.rows;
        skip := skip + limit;
        k := k + 1;
        if |all| >= outcome.total {
          return Ok(all);
        }
      }
    }

    /** `get_all_available_actions(platform)` (client.py:287-311): 100 actions
        per page; any failure becomes the one generic error. */
    method GetAllAvailableActions(lookup: GetRequest -> GetOutcome<AvailableAction>, platform: string,
                                  ghost fuel: nat) returns (r: Result<seq<AvailableAction>>)
      requires Walk(lookup, KnowledgeUrl(baseUrl), AllActionsParams(platform), GenerateHeaders(secret), 100, 0, [], fuel).Some?
      ensures r == AllActions(Walk(lookup, KnowledgeUrl(baseUrl), AllActionsParams(platform), GenerateHeaders(secret), 100, 0, [], fuel).value)
    {
      var walked := Paginate(lookup, KnowledgeUrl(baseUrl), AllActionsParams(platform), 100, fuel);
      if walked.Err? {
        return Err(AllActionsFailure);
      }
      r := Ok(walked.value);
    }

    /** `get_single_action(action_id)` (client.py:313-351). */
    method GetSingleAction(lookup: GetRequest -> GetOutcome<AvailableAction>, actionId: string)
      returns (r: Result<AvailableAction>)
      ensures r == SingleAction(lookup(SingleActionRequest(baseUrl, secret, actionId)))
    {
      var outcome := lookup(SingleActionRequest(baseUrl, secret, actionId));
      if outcome.Failed? || |outcome.rows| == 0 {
        return Err(ActionFailure);
      }
      r := Ok(outcome.rows[0]);
    }

    /** `get_available_actions(platform)` (client.py:353-391). */
    method GetAvailableActions(lookup: GetRequest -> GetOutcome<AvailableAction>, platform: string,
                               ghost fuel: nat) returns (r: ActionsResponse)
      requires Walk(lookup, KnowledgeUrl(baseUrl), AllActionsParams(platform), GenerateHeaders(secret), 100, 0, [], fuel).Some?
      ensures r == ActionsEnvelope(platform,
                   AllActions(Walk(lookup, KnowledgeUrl(baseUrl), AllActionsParams(platform), GenerateHeaders(secret), 100, 0, [], fuel).value))
    {
      var actions := GetAllAvailableActions(lookup, platform, fuel);
      r := ActionsEnvelope(platform, actions);
    }

    /** `get_action_knowledge(platform, action_id)` (client.py:393-421). */
    method GetActionKnowledge(lookup: GetRequest -> GetOutcome<AvailableAction>, platform: string, actionId: string)
      returns (r: ActionKnowledgeResponse)
      ensures r == KnowledgeEnvelope(platform, SingleAction(lookup(SingleActionRequest(baseUrl, secret, actionId))))
    {
      var action := GetSingleAction(lookup, actionId);
      r := KnowledgeEnvelope(platform, action);
    }

    /** The multipart fields of `data`, built key by key (client.py:526-531). */
    method BuildFormFields(data: map<string, Value>) returns (fields: map<string, FormPart>)
      ensures fields == FormParts(data)
    {
      fields := map[];
      var left := data.Keys;
      while left != {}
        invariant left <= data.Keys
        invariant fields == map k | k in data.Keys - left :: FormPartOf(data[k])
        decreases left
      {
        var key :| key in left;
        fields := fields[key := FormPartOf(data[key])];
        left := left - {key};
      }
    }

    /** `execute(params)` (client.py:448-596): the returned envelope, and the
        caller's `data` and `path_variables` afterwards, are those of
        `ExecuteSpec` for the arguments as they were on entry. */
    method Execute(params: ExecuteParams, lookup: GetRequest -> GetOutcome<AvailableAction>,
                   transport: RequestConfig -> HttpOutcome, boundary: string) returns (r: ExecuteResponse)
      modifies params
      ensures var ex := ExecuteSpec(baseUrl, secret, connections, old(params.Args()), lookup, transport, boundary);
              r == ex.response && params.data == ex.data && params.pathVariables == ex.pathVariables
    {
      var args := params.Args();
      if !HasConnection(connections, params.connectionKey) {
        return Failure(NotFoundMessage(params.platform));
      }
      var fullAction := GetSingleAction(lookup, params.action.id);
      if fullAction.Err? {
        return Failure(fullAction.error);
      }
      var path := ResolvePath(params);
      if path.Err? {
        return Failure(path.error);
      }
      var config := BuildConfig(args, path.value, params.data, boundary);
      var answer := transport(config);
      if answer.HttpFailed? {
        return Failure(answer.error);
      }
      if !ScalarParams(params.queryParams) {
        return Failure(RequestConfigRejected);
      }
      r := Success(args, fullAction.value, config, answer.body);
    }

    /** The path-variable stage of `execute` (client.py:468-503): the resolved
        path or the error raised, with the caller's `data` and
        `path_variables` left as `Reconcile` says. */
    method ResolvePath(params: ExecuteParams) returns (path: Result<string>)
      modifies params
      ensures var rec := Reconcile(old(params.Args()));
              path == rec.path && params.data == rec.data && params.pathVariables == rec.pathVariables
    {
      var args := params.Args();
      var template := params.action.path;
      var required := Placeholders(template);
      var pathVariables := params.pathVariables.GetOr(map[]);
      // `path_variables or {}` keeps the caller's dictionary only when it is non-empty.
      var shared := params.pathVariables.Some? && params.pathVariables.value != map[];
      if required == [] {
        return Ok(template);
      }
      var combined := if params.data.Some? then params.data.value + pathVariables else pathVariables;
      var missing := Missing(required, combined);
      if missing != [] {
        return Err(MissingMessage(missing));
      }
      if params.data.Some? {
        MoveVariables(params, required, shared);
        pathVariables := Moved(required, args.data.value, pathVariables).1;
      }
      path := Substitute(template, pathVariables);
    }

    /** The request `execute` sends (client.py:505-538): headers, URL, query
        parameters and body, for the reconciled `path` and `data`. */
    method BuildConfig(args: ExecuteArgs, path: string, data: Option<map<string, Value>>, boundary: string)
      returns (config: RequestConfig)
      ensures config == BuildRequest(baseUrl, secret, args, path, data, boundary)
    {
      var headers := GenerateHeaders(secret)["x-pica-connection-key" := args.connectionKey]["x-pica-action-id" := args.action.id];
      if args.isFormData {
        headers := headers["Content-Type" := "multipart/form-data"];
      }
      var url := PassthroughUrl(baseUrl, path);
      var body: Option<Body> := None;
      if Lower(args.httpMethod) != "get" {
        if args.isFormData && data.Some? && data.value != map[] {
          var fields := BuildFormFields(data.value);
          headers := headers["Content-Type" := "multipart/form-data; boundary=" + boundary];
          body := Some(MultipartBody(fields));
        } else if data.Some? && data.value != map[] {
          body := Some(JsonBody(data.value));
        }
      }
      config := RequestConfig(url, Some(args.httpMethod), headers, args.queryParams, body);
    }

    /** The loop of client.py:493-499: each placeholder that `data` supplies
        and the path variables lack is moved over, `data` being replaced by a
        copy without it. The path variables are written back to the caller's
        object only when `shared`, i.e. when the caller's dictionary is the one
        being updated. */
    method MoveVariables(params: ExecuteParams, required: seq<string>, shared: bool)
      modifies params
      requires params.data.Some?
      requires shared <==> params.pathVariables.Some? && params.pathVariables.value != map[]
      ensures var moved := Moved(required, old(params.data).value, old(params.pathVariables).GetOr(map[]));
              && params.data == Some(moved.0)
              && params.pathVariables == (if shared then Some(moved.1) else old(params.pathVariables))
    {
      var pathVariables := params.pathVariables.GetOr(map[]);
      ghost var data0 := params.data.value;
      ghost var pv0 := pathVariables;
      var i := 0;
      while i < |required|
        invariant 0 <= i <= |required|
        invariant params.data.Some?
        invariant (params.data.value, pathVariables) == Moved(required[..i], data0, pv0)
        invariant params.pathVariables == (if shared then Some(pathVariables) else old(params.pathVariables))
      {
        var v := required[i];
        assert required[..i + 1][..i] == required[..i];
        if v in params.data.value && v !in pathVariables {
          pathVariables := pathVariables[v := params.data.value[v]];
          if shared {
            params.pathVariables := Some(pathVariables);
          }
          var copy := params.data.value - {v};
          params.data := Some(copy);
        }
        i := i + 1;
      }
      assert required[..|required|] == required;
    }
  }
}
