/** The connection registry built by `initialize` (client.py:81-207): which
    connections are fetched, which of them the system prompt lists, which
    platforms it offers, and the two summary strings. The client class applies
    these to its fields. */
module Registry {
  import opened Wrappers
  import opened Text
  import opened Lists
  import opened Models
  import opened Http

  /** The two prompt templates of the client. Their text lives outside this
      model; each is a function of the connections summary and the platforms
      summary. */
  datatype Templates = Templates(default: (string, string) -> string, authkit: (string, string) -> string)

  /** The template in use, applied to the two summaries (client.py:135-144). */
  function SystemPrompt(templates: Templates, useAuthkit: bool, connectionsInfo: string, platformsInfo: string): (p: string)
    ensures useAuthkit ==> p == templates.authkit(connectionsInfo, platformsInfo)
    ensures !useAuthkit ==> p == templates.default(connectionsInfo, platformsInfo)
  {
    if useAuthkit then templates.authkit(connectionsInfo, platformsInfo)
    else templates.default(connectionsInfo, platformsInfo)
  }

  // ---------------------------------------------------------------------------
  // Fetching

  /** Connections are fetched only when the connectors filter is non-empty
      (client.py:89-98). */
  predicate FetchesConnections(connectors: seq<string>) {
    |connectors| > 0
  }

  /** The filter after `initialize`: the `"*"` wildcard clears it, anything
      else is kept (client.py:89-92). */
  function NextFilter(connectors: seq<string>): (f: seq<string>)
    ensures "*" in connectors ==> f == []
    ensures "*" !in connectors ==> f == connectors
  {
    if "*" in connectors then [] else connectors
  }

  /** The query of `_initialize_connections`: `limit=300`, then `identity`
      when it is a non-empty string and `identityType` when it is set
      (client.py:156-169). */
  function ConnectionsRequest(baseUrl: string, secret: string,
                              identity: Option<string>, identityType: Option<IdentityType>): (r: GetRequest)
    ensures r.url == ConnectionsUrl(baseUrl) && r.headers == GenerateHeaders(secret)
    ensures "limit" in r.params && r.params["limit"] == VInt(300)
    ensures "identity" in r.params <==> identity.Some? && identity.value != ""
    ensures "identity" in r.params ==> r.params["identity"] == VStr(identity.value)
    ensures "identityType" in r.params <==> identityType.Some?
    ensures "identityType" in r.params ==> r.params["identityType"] == VStr(identityType.value.Name())
    ensures r.params.Keys <= {"limit", "identity", "identityType"}
  {
    var base := map["limit" := VInt(300)];
    var withIdentity := if identity.Some? && identity.value != "" then base["identity" := VStr(identity.value)] else base;
    var params := if identityType.Some? then withIdentity["identityType" := VStr(identityType.value.Name())] else withIdentity;
    GetRequest(ConnectionsUrl(baseUrl), params, GenerateHeaders(secret))
  }

  /** The request of `_initialize_connection_definitions`: no query parameters
      besides the `limit=500` written into the URL (client.py:188-191). */
  function DefinitionsRequest(baseUrl: string, secret: string): (r: GetRequest)
    ensures r.url == DefinitionsUrl(baseUrl) && r.params == map[] && r.headers == GenerateHeaders(secret)
  {
    GetRequest(DefinitionsUrl(baseUrl), map[], GenerateHeaders(secret))
  }

  /** The rows of a single fetch; any failure leaves an empty list
      (client.py:177-182, 199-207). */
  function RowsOrEmpty<T>(outcome: GetOutcome<T>): (rows: seq<T>)
    ensures outcome.Failed? ==> rows == []
    ensures outcome.Rows? ==> rows == outcome.rows
  {
    match outcome
    case Rows(rows, _) => rows
    case Failed(_) => []
  }

  // ---------------------------------------------------------------------------
  // Connections summary

  predicate IsActive(c: Connection) {
    c.active
  }

  /** The connections the prompt lists: the active ones, and when the filter is
      non-empty only those whose key is in it, in fetched order
      (client.py:102-109). */
  function Listed(connections: seq<Connection>, connectors: seq<string>): (r: seq<Connection>)
    ensures forall c :: c in r <==> c in connections && c.active && (connectors == [] || c.key in connectors)
  {
    var active := Filter(connections, IsActive);
    if connectors != [] then Filter(active, (c: Connection) => c.key in connectors) else active
  }

  function ConnectionLine(c: Connection): string {
    c.platform + " - Key: " + c.key
  }

  function Lines<T>(xs: seq<T>, line: T -> string): (r: seq<string>)
    ensures |r| == |xs|
    ensures forall i :: 0 <= i < |xs| ==> r[i] == line(xs[i])
  {
    seq(|xs|, i requires 0 <= i < |xs| => line(xs[i]))
  }

  /** The connections summary (client.py:112-119). */
  function ConnectionsInfo(listed: seq<Connection>): (info: string)
    ensures listed == [] ==> info == "No connections available"
    ensures listed != [] ==> StartsWith(info, "\t* ")
  {
    if listed != [] then "\t* " + Join(Lines(listed, ConnectionLine), "\n\t* ")
    else "No connections available"
  }

  /** Prefixing every item equals prefixing the whole join when the separator
      carries the prefix too. */
  lemma {:induction false} JoinPrefixed(items: seq<string>, prefix: string, sep: string)
    requires |items| > 0
    ensures prefix + Join(items, sep + prefix)
            == Join(seq(|items|, i requires 0 <= i < |items| => prefix + items[i]), sep)
  {
    var bullets := seq(|items|, i requires 0 <= i < |items| => prefix + items[i]);
    if |items| > 1 {
      var rest := seq(|items| - 1, i requires 0 <= i < |items| - 1 => prefix + items[1..][i]);
      assert bullets[1..] == rest;
      JoinPrefixed(items[1..], prefix, sep);
      calc {
        prefix + Join(items, sep + prefix);
        prefix + (items[0] + (sep + prefix) + Join(items[1..], sep + prefix));
        (prefix + items[0]) + sep + (prefix + Join(items[1..], sep + prefix));
        bullets[0] + sep + Join(rest, sep);
        Join(bullets, sep);
      }
    }
  }

  /** The summary is one line per listed connection, in order, each a bullet
      `\t* {platform} - Key: {key}`. */
  lemma ConnectionsInfoBullets(listed: seq<Connection>)
    requires listed != []
    ensures ConnectionsInfo(listed)
            == Join(seq(|listed|, i requires 0 <= i < |listed| => "\t* " + ConnectionLine(listed[i])), "\n")
  {
    var lines := Lines(listed, ConnectionLine);
    assert "\n" + "\t* " == "\n\t* ";
    assert ConnectionsInfo(listed) == "\t* " + Join(lines, "\n" + "\t* ");
    JoinPrefixed(lines, "\t* ", "\n");
    assert seq(|lines|, i requires 0 <= i < |lines| => "\t* " + lines[i])
        == seq(|listed|, i requires 0 <= i < |listed| => "\t* " + ConnectionLine(listed[i]));
  }

  /** With the `"*"` wildcard every active connection is listed: the cleared
      filter narrows nothing. */
  lemma WildcardListsAllActive(connections: seq<Connection>, connectors: seq<string>)
    requires "*" in connectors
    ensures Listed(connections, NextFilter(connectors)) == Filter(connections, IsActive)
  {
  }

  /** Listing goes connection by connection: the order of the fetched rows is
      kept. */
  lemma ListedAppend(xs: seq<Connection>, ys: seq<Connection>, connectors: seq<string>)
    ensures Listed(xs + ys, connectors) == Listed(xs, connectors) + Listed(ys, connectors)
  {
    FilterAppend(xs, ys, IsActive);
    if connectors != [] {
      FilterAppend(Filter(xs, IsActive), Filter(ys, IsActive), (c: Connection) => c.key in connectors);
    }
  }

  // ---------------------------------------------------------------------------
  // Platforms summary

  /** The definitions offered: narrowed to the AuthKit platform list only when
      AuthKit is on and the list is present and non-empty (client.py:122-127). */
  function Offered(definitions: seq<ConnectionDefinition>, useAuthkit: bool,
                   supported: Option<seq<string>>): (r: seq<ConnectionDefinition>)
    ensures !(useAuthkit && supported.Some? && supported.value != []) ==> r == definitions
    ensures useAuthkit && supported.Some? && supported.value != [] ==>
      forall d :: d in r <==> d in definitions && d.platform in supported.value
  {
    if useAuthkit && supported.Some? && supported.value != [] then
      Filter(definitions, (d: ConnectionDefinition) => d.platform in supported.value)
    else definitions
  }

  function DefinitionLine(d: ConnectionDefinition): string {
    d.platform + " (" + d.frontend.spec.title + ")"
  }

  /** The platforms summary: `{platform} ({title})` lines joined by
      `"\n\t* "`, with no bullet before the first (client.py:130-133). */
  function PlatformsInfo(offered: seq<ConnectionDefinition>): (info: string)
    ensures offered == [] ==> info == ""
    ensures |offered| == 1 ==> info == DefinitionLine(offered[0])
  {
    Join(Lines(offered, DefinitionLine), "\n\t* ")
  }

  /** Each offered definition adds its line after the previous ones. */
  lemma PlatformsInfoSnoc(offered: seq<ConnectionDefinition>, d: ConnectionDefinition)
    requires offered != []
    ensures PlatformsInfo(offered + [d]) == PlatformsInfo(offered) + "\n\t* " + DefinitionLine(d)
  {
    assert Lines(offered + [d], DefinitionLine) == Lines(offered, DefinitionLine) + [DefinitionLine(d)];
    JoinSnoc(Lines(offered, DefinitionLine), DefinitionLine(d), "\n\t* ");
  }
}
