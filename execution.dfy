/** What one `execute` call does (client.py:448-596), as a function of the
    loaded connections, the call's arguments, the action lookup and the
    passthrough transport: the envelope it returns and what it leaves in the
    caller's `data` and `path_variables`. The client's `Execute` method is
    proved against `ExecuteSpec`. */
module Execution {
  import opened Wrappers
  import opened Text
  import opened Lists
  import opened Models
  import opened Http
  import opened PathTemplate
  import opened Catalog

  // ---------------------------------------------------------------------------
  // Connection precheck

  /** `any(conn.key == key for conn in connections)`: some loaded connection
      has the key; whether it is active does not matter (client.py:462). */
  function HasConnection(connections: seq<Connection>, key: string): (r: bool)
    ensures r <==> exists c :: c in connections && c.key == key
  {
    if connections == [] then false
    else connections[0].key == key || HasConnection(connections[1..], key)
  }

  function NotFoundMessage(platform: string): string {
    "Connection not found. Please add a " + platform + " connection first."
  }

  // ---------------------------------------------------------------------------
  // Path-variable reconciliation

  /** The placeholders that neither source supplies, in path order and with
      repetitions (client.py:485). */
  function Missing(required: seq<string>, combined: map<string, Value>): (missing: seq<string>)
    ensures forall n :: n in missing <==> n in required && n !in combined
    ensures missing == [] <==> forall n :: n in required ==> n in combined
  {
    Filter(required, (n: string) => n !in combined)
  }

  function MissingMessage(missing: seq<string>): string {
    "Missing required path variables: " + Join(missing, ", ") + ". Please provide values for these variables."
  }

  /** The loop of client.py:493-499 over the first `|required|` placeholders:
      a placeholder found in the current `data` but not in `path_variables`
      is copied over and dropped from a fresh copy of `data`. The pair is
      (data, path variables). */
  function Moved(required: seq<string>, data: map<string, Value>, pv: map<string, Value>)
    : (r: (map<string, Value>, map<string, Value>))
    ensures r.0.Keys <= data.Keys && pv.Keys <= r.1.Keys
    decreases |required|
  {
    if required == [] then (data, pv)
    else
      var prev := Moved(required[..|required| - 1], data, pv);
      var v := required[|required| - 1];
      if v in prev.0 && v !in prev.1 then (prev.0 - {v}, prev.1[v := prev.0[v]]) else prev
  }

  /** After the loop: the path variables are the explicit ones, unchanged, plus
      every placeholder that only `data` supplied, with its `data` value; `data`
      has lost exactly those keys and keeps every other entry as it was. */
  lemma {:induction false} MovedSpec(required: seq<string>, data: map<string, Value>, pv: map<string, Value>)
    ensures Moved(required, data, pv).1.Keys == pv.Keys + (set n | n in required && n in data)
    ensures forall n :: n in pv ==> n in Moved(required, data, pv).1 && Moved(required, data, pv).1[n] == pv[n]
    ensures forall n :: n in required && n in data && n !in pv ==>
      n in Moved(required, data, pv).1 && Moved(required, data, pv).1[n] == data[n]
    ensures Moved(required, data, pv).0.Keys == data.Keys - (set n | n in required && n !in pv)
    ensures forall n :: n in Moved(required, data, pv).0 ==> Moved(required, data, pv).0[n] == data[n]
    decreases |required|
  {
    if required != [] {
      var init := required[..|required| - 1];
      var v := required[|required| - 1];
      MovedSpec(init, data, pv);
      assert required == init + [v];
      assert forall n :: n in required <==> n in init || n == v;
    }
  }

  /** The outcome of reconciliation: the resolved path (or the error raised
      while resolving it) and the caller-visible `data` and `path_variables`
      afterwards. */
  datatype Reconciled = Reconciled(path: Result<string>, data: Option<map<string, Value>>,
                                   pathVariables: Option<map<string, Value>>)

  /** client.py:470-503. `path_variables or {}` makes a fresh dictionary when
      the caller's is absent or empty, so only a non-empty caller dictionary
      sees the moved entries; `data` is replaced by a copy, never changed. */
  function Reconcile(args: ExecuteArgs): (r: Reconciled)
    ensures Placeholders(args.action.path) == [] ==>
      r == Reconciled(Ok(args.action.path), args.data, args.pathVariables)
    ensures r.data.Some? <==> args.data.Some?
    ensures r.pathVariables.Some? <==> args.pathVariables.Some?
  {
    var required := Placeholders(args.action.path);
    var pv := args.pathVariables.GetOr(map[]);
    if required == [] then Reconciled(Ok(args.action.path), args.data, args.pathVariables)
    else
      var combined := if args.data.Some? then args.data.value + pv else pv;
      var missing := Missing(required, combined);
      if missing != [] then Reconciled(Err(MissingMessage(missing)), args.data, args.pathVariables)
      else
        var moved := if args.data.Some? then Moved(required, args.data.value, pv) else (map[], pv);
        var data := if args.data.Some? then Some(moved.0) else None;
        var visible := if args.pathVariables.Some? && args.pathVariables.value != map[] then Some(moved.1)
                       else args.pathVariables;
        Reconciled(Substitute(args.action.path, moved.1), data, visible)
  }

  /** Every placeholder that neither `data` nor `path_variables` supplies is
      named in the one error, and nothing else is; the caller's dictionaries
      are left alone. */
  lemma MissingReported(args: ExecuteArgs)
    requires Placeholders(args.action.path) != []
    requires Missing(Placeholders(args.action.path),
                     (if args.data.Some? then args.data.value else map[]) + args.pathVariables.GetOr(map[])) != []
    ensures Reconcile(args).path.Err?
    ensures Reconcile(args).data == args.data && Reconcile(args).pathVariables == args.pathVariables
    ensures exists missing: seq<string> ::
      && Reconcile(args).path.error == MissingMessage(missing)
      && (forall n :: n in missing <==>
            (n in Placeholders(args.action.path)
             && (args.data.None? || n !in args.data.value)
             && (args.pathVariables.None? || n !in args.pathVariables.value)))
  {
    var pv := args.pathVariables.GetOr(map[]);
    var combined := if args.data.Some? then args.data.value + pv else pv;
    assert (if args.data.Some? then args.data.value else map[]) + pv == combined;
    var missing := Missing(Placeholders(args.action.path), combined);
    assert Reconcile(args).path.error == MissingMessage(missing);
  }

  /** Once every placeholder is supplied by one of the two sources, resolving
      the path cannot fail: the moved entries complete the path variables. */
  lemma ReconciledPathResolves(args: ExecuteArgs)
    requires forall n :: n in Placeholders(args.action.path) ==>
      (args.data.Some? && n in args.data.value) || (args.pathVariables.Some? && n in args.pathVariables.value)
    ensures Reconcile(args).path.Ok?
  {
    var required := Placeholders(args.action.path);
    if required != [] {
      var pv := args.pathVariables.GetOr(map[]);
      var combined := if args.data.Some? then args.data.value + pv else pv;
      forall n | n in required ensures n in combined {
      }
      var moved := if args.data.Some? then Moved(required, args.data.value, pv) else (map[], pv);
      if args.data.Some? {
        MovedSpec(required, args.data.value, pv);
      }
      assert forall n :: n in required ==> n in moved.1;
      SubstituteOutcome(args.action.path, moved.1);
    }
  }

  /** A placeholder given both in `data` and in `path_variables` takes the
      explicit value, and stays in `data`. */
  lemma ExplicitWins(required: seq<string>, data: map<string, Value>, pv: map<string, Value>, n: string)
    requires n in required && n in data && n in pv
    ensures n in Moved(required, data, pv).1 && Moved(required, data, pv).1[n] == pv[n]
    ensures n in Moved(required, data, pv).0 && Moved(required, data, pv).0[n] == data[n]
  {
    MovedSpec(required, data, pv);
  }

  // ---------------------------------------------------------------------------
  // Request construction

  /** The headers before the body is known (client.py:505-512): the client's
      two, the connection key and the action id; the caller's own `headers`
      are not used. */
  function BaseHeaders(secret: string, args: ExecuteArgs): (h: map<string, string>)
    ensures h.Keys == {"Content-Type", "x-pica-secret", "x-pica-connection-key", "x-pica-action-id"}
    ensures h["Content-Type"] == if args.isFormData then "multipart/form-data" else "application/json"
    ensures h["x-pica-secret"] == secret
    ensures h["x-pica-connection-key"] == args.connectionKey && h["x-pica-action-id"] == args.action.id
  {
    var h := GenerateHeaders(secret)["x-pica-connection-key" := args.connectionKey]["x-pica-action-id" := args.action.id];
    if args.isFormData then h["Content-Type" := "multipart/form-data"] else h
  }

  /** One multipart field (client.py:528-531). */
  function FormPartOf(v: Value): (p: FormPart)
    ensures v.VObject? <==> p.JsonPart?
    ensures p.JsonPart? ==> p.json == v
    ensures p.TextPart? ==> p.text == PyStr(v)
  {
    if v.VObject? then JsonPart(v) else TextPart(PyStr(v))
  }

  function FormParts(data: map<string, Value>): (parts: map<string, FormPart>)
    ensures parts.Keys == data.Keys
    ensures forall k :: k in data ==> parts[k] == FormPartOf(data[k])
  {
    map k | k in data :: FormPartOf(data[k])
  }

  /** The body (client.py:523-538): none for GET in any letter case; a
      multipart form when asked for and `data` is non-empty; otherwise the JSON
      of non-empty `data`, or none. */
  function RequestBody(httpMethod: string, isFormData: bool, data: Option<map<string, Value>>): (b: Option<Body>)
    ensures b.Some? <==> Lower(httpMethod) != "get" && data.Some? && data.value != map[]
    ensures b.Some? && isFormData ==> b.value == MultipartBody(FormParts(data.value))
    ensures b.Some? && !isFormData ==> b.value == JsonBody(data.value)
  {
    if Lower(httpMethod) == "get" then None
    else if data.Some? && data.value != map[] then
      if isFormData then Some(MultipartBody(FormParts(data.value))) else Some(JsonBody(data.value))
    else None
  }

  /** The request configuration; a multipart body also rewrites the content
      type to carry the encoder's boundary (client.py:514-535). */
  function BuildRequest(baseUrl: string, secret: string, args: ExecuteArgs, path: string,
                        data: Option<map<string, Value>>, boundary: string): (rc: RequestConfig)
    ensures rc.url == PassthroughUrl(baseUrl, path)
    ensures rc.httpMethod == Some(args.httpMethod) && rc.params == args.queryParams
    ensures rc.data == RequestBody(args.httpMethod, args.isFormData, data)
    ensures rc.headers.Keys == BaseHeaders(secret, args).Keys
    ensures forall k :: k in rc.headers && k != "Content-Type" ==> rc.headers[k] == BaseHeaders(secret, args)[k]
    ensures rc.headers["Content-Type"] ==
      if rc.data.Some? && rc.data.value.MultipartBody? then "multipart/form-data; boundary=" + boundary
      else BaseHeaders(secret, args)["Content-Type"]
  {
    var body := RequestBody(args.httpMethod, args.isFormData, data);
    var base := BaseHeaders(secret, args);
    var headers := if body.Some? && body.value.MultipartBody? then base["Content-Type" := "multipart/form-data; boundary=" + boundary]
                   else base;
    RequestConfig(PassthroughUrl(baseUrl, path), Some(args.httpMethod), headers, args.queryParams, body)
  }

  /** `RequestConfig` accepts only strings, integers and booleans as query
      parameter values (models.py:68-77). */
  predicate ScalarParams(params: Option<map<string, Value>>) {
    params.None? || forall k :: k in params.value ==> params.value[k].VStr? || params.value[k].VInt? || params.value[k].VBool?
  }

  const RequestConfigRejected := "1 validation error for RequestConfig"

  // ---------------------------------------------------------------------------
  // The envelope

  /** The failure envelope: the exception text as message and raw text. */
  function Failure(e: string): (r: ExecuteResponse)
    ensures !r.success && r.title == Some("Failed to execute action")
    ensures r.message == Some(e) && r.raw == Some(e)
    ensures r.content.None? && r.data.None? && r.connectionKey.None? && r.platform.None?
    ensures r.action.None? && r.requestConfig.None? && r.knowledge.None?
  {
    BareExecuteResponse(false).(title := Some("Failed to execute action"), message := Some(e), raw := Some(e))
  }

  /** The success envelope (client.py:571-580). */
  function Success(args: ExecuteArgs, action: AvailableAction, rc: RequestConfig, body: Value): (r: ExecuteResponse)
    ensures r.success && r.data == Some(body) && r.requestConfig == Some(rc)
    ensures r.connectionKey == Some(args.connectionKey) && r.platform == Some(args.platform)
    ensures r.action == action.title && r.knowledge == action.knowledge
    ensures r.content == Some("Executed " + OptStr(action.title) + " via " + args.platform)
    ensures r.message.None? && r.raw.None? && r.title.None?
  {
    BareExecuteResponse(true).(data := Some(body), connectionKey := Some(args.connectionKey),
                               platform := Some(args.platform), action := action.title,
                               requestConfig := Some(rc), knowledge := action.knowledge,
                               content := Some("Executed " + OptStr(action.title) + " via " + args.platform))
  }

  /** The returned envelope and the caller's `data` and `path_variables`
      afterwards. */
  datatype Execution = Execution(response: ExecuteResponse, data: Option<map<string, Value>>,
                                 pathVariables: Option<map<string, Value>>)

  /** One `execute` call. Every failure is caught and turned into the failure
      envelope; changes made to the arguments before the failure stay. */
  function ExecuteSpec(baseUrl: string, secret: string, connections: seq<Connection>, args: ExecuteArgs,
                       lookup: GetRequest -> GetOutcome<AvailableAction>, transport: RequestConfig -> HttpOutcome,
                       boundary: string): (ex: Execution)
    ensures ex.response.success ==> ex.response.message.None? && ex.response.raw.None? && ex.response.title.None?
    ensures !ex.response.success ==>
      && ex.response.title == Some("Failed to execute action")
      && ex.response.message.Some? && ex.response.raw == ex.response.message
      && ex.response.data.None? && ex.response.requestConfig.None? && ex.response.content.None?
  {
    if !HasConnection(connections, args.connectionKey) then
      Execution(Failure(NotFoundMessage(args.platform)), args.data, args.pathVariables)
    else match SingleAction(lookup(SingleActionRequest(baseUrl, secret, args.action.id)))
      case Err(e) => Execution(Failure(e), args.data, args.pathVariables)
      case Ok(action) =>
        var rec := Reconcile(args);
        match rec.path
        case Err(e) => Execution(Failure(e), rec.data, rec.pathVariables)
        case Ok(path) =>
          var rc := BuildRequest(baseUrl, secret, args, path, rec.data, boundary);
          match transport(rc)
          case HttpFailed(e) => Execution(Failure(e), rec.data, rec.pathVariables)
          case Responded(body) =>
            if ScalarParams(args.queryParams) then Execution(Success(args, action, rc, body), rec.data, rec.pathVariables)
            else Execution(Failure(RequestConfigRejected), rec.data, rec.pathVariables)
  }

  // ---------------------------------------------------------------------------
  // Properties of one call

  /** An unknown connection key is rejected before anything is fetched or sent:
      the outcome does not depend on the lookup or the transport, and the
      arguments are untouched. */
  lemma UnknownConnectionRejected(baseUrl: string, secret: string, connections: seq<Connection>, args: ExecuteArgs,
                                  lookup: GetRequest -> GetOutcome<AvailableAction>, transport: RequestConfig -> HttpOutcome,
                                  boundary: string)
    requires forall c :: c in connections ==> c.key != args.connectionKey
    ensures ExecuteSpec(baseUrl, secret, connections, args, lookup, transport, boundary)
            == Execution(Failure(NotFoundMessage(args.platform)), args.data, args.pathVariables)
  {
  }

  /** An inactive connection passes the precheck like an active one. */
  lemma InactiveConnectionAccepted(connections: seq<Connection>, c: Connection)
    requires c in connections && !c.active
    ensures HasConnection(connections, c.key)
  {
  }

  /** The call succeeds exactly when every stage does: the key is known, the
      action is found, the path resolves, the transport answers and the query
      parameters are scalars; the request it reports is then the one built from
      the resolved path and the reconciled `data`. */
  lemma SuccessIffAllStages(baseUrl: string, secret: string, connections: seq<Connection>, args: ExecuteArgs,
                            lookup: GetRequest -> GetOutcome<AvailableAction>, transport: RequestConfig -> HttpOutcome,
                            boundary: string)
    ensures var ex := ExecuteSpec(baseUrl, secret, connections, args, lookup, transport, boundary);
            var action := SingleAction(lookup(SingleActionRequest(baseUrl, secret, args.action.id)));
            var rec := Reconcile(args);
            ex.response.success <==>
              && HasConnection(connections, args.connectionKey)
              && action.Ok?
              && rec.path.Ok?
              && transport(BuildRequest(baseUrl, secret, args, rec.path.value, rec.data, boundary)).Responded?
              && ScalarParams(args.queryParams)
    ensures var ex := ExecuteSpec(baseUrl, secret, connections, args, lookup, transport, boundary);
            var rec := Reconcile(args);
            ex.response.success ==>
              && rec.path.Ok?
              && ex.response.requestConfig == Some(BuildRequest(baseUrl, secret, args, rec.path.value, rec.data, boundary))
              && ex.data == rec.data && ex.pathVariables == rec.pathVariables
  {
  }

  /** The caller's `headers` and `is_url_encoded` have no effect at all. */
  lemma IgnoredArguments(baseUrl: string, secret: string, connections: seq<Connection>, args: ExecuteArgs,
                         lookup: GetRequest -> GetOutcome<AvailableAction>, transport: RequestConfig -> HttpOutcome,
                         boundary: string, headers: Option<map<string, Value>>, isUrlEncoded: bool)
    ensures ExecuteSpec(baseUrl, secret, connections, args.(headers := headers, isUrlEncoded := isUrlEncoded), lookup, transport, boundary)
            == ExecuteSpec(baseUrl, secret, connections, args, lookup, transport, boundary)
  {
    var other := args.(headers := headers, isUrlEncoded := isUrlEncoded);
    assert Reconcile(other) == Reconcile(args);
    assert BaseHeaders(secret, other) == BaseHeaders(secret, args);
  }

  /** The templated key moves from the body into the path: with
      `data = {"id": "7", "note": "hi"}` and path `/items/{{id}}`, the path
      becomes `/items/7`, the caller's `data` is replaced by `{"note": "hi"}`,
      and that is the JSON body a POST sends. */
  lemma ItemsExample(args: ExecuteArgs)
    requires args.action.path == "/items/{{id}}"
    requires args.data == Some(map["id" := VStr("7"), "note" := VStr("hi")])
    requires args.pathVariables.None? && !args.isFormData && args.httpMethod == "POST"
    ensures Reconcile(args).path == Ok("/items/7")
    ensures Reconcile(args).data == Some(map["note" := VStr("hi")])
    ensures RequestBody(args.httpMethod, args.isFormData, Reconcile(args).data) == Some(JsonBody(map["note" := VStr("hi")]))
  {
    var path := args.action.path;
    var data := args.data.value;
    var tail := "{{" + "id" + "}}" + "";
    assert path == "/items/" + tail;
    PlaceholdersLiteralPrefix("/items/", tail);
    PlaceholdersLeading("id", "");
    assert Placeholders("") == [];
    assert Placeholders(path) == ["id"];
    assert Missing(["id"], data) == [];
    MovedSpec(["id"], data, map[]);
    var moved := Moved(["id"], data, map[]);
    assert moved.1 == map["id" := VStr("7")];
    assert moved.0 == map["note" := VStr("hi")];
    SubstituteLiteralPrefix("/items/", tail, moved.1);
    SubstituteLeadingPlaceholder("id", "", moved.1);
    assert Substitute("", moved.1) == Ok("");
    assert PyStr(moved.1["id"]) == "7";
    assert "/items/" + ("7" + "") == "/items/7";
    assert Lower("POST") != "get" by {
      assert |Lower("POST")| == 4;
    }
    assert "note" in moved.0;
  }
}
