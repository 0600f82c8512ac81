/** The rustc_serialize-based client in `jira.rs`: the request
    bodies it builds, the headers it attaches, and how each operation
    turns the tracker's replies into a result. The network, URL joining,
    JSON text rendering and JSON text parsing are parameters. */
module JiraClient {
  import opened Common
  import opened JsonValue
  import opened UrlModel
  import opened Issues

  // ---------------------------------------------------------------------
  // Request bodies
  // ---------------------------------------------------------------------

  /** The body of a search request in `jira.rs` (no page size). */
  datatype JqlQuery = JqlQuery(jql: string, fields: seq<string>)

  /** `JQLQuery::new`. */
  function NewJqlQuery(query: string): (q: JqlQuery)
    ensures q.jql == query
    ensures q.fields == ["summary", "status", "assignee", "reporter", "labels"]
  {
    JqlQuery(query, ["summary", "status", "assignee", "reporter", "labels"])
  }

  function EncodeJqlQuery(q: JqlQuery): Json
  {
    Object(map["jql" := Str(q.jql), "fields" := Array(EncodeStrings(q.fields))])
  }

  function StringMember(obj: map<string, Json>, name: string): Option<string>
  {
    if name in obj && obj[name].Str? then Some(obj[name].s) else None
  }

  function DecodeJqlQuery(j: Json): Option<JqlQuery>
  {
    if !j.Object? || StringMember(j.members, "jql").None?
      || "fields" !in j.members || !j.members["fields"].Array?
    then None
    else
      match DecodeStrings(j.members["fields"].items)
      case None => None
      case Some(fields) => Some(JqlQuery(j.members["jql"].s, fields))
  }

  /** The search body on the wire: `{jql, fields: [...]}` and nothing
      else, in particular no page size. */
  lemma NewJqlQueryWire(query: string)
    ensures EncodeJqlQuery(NewJqlQuery(query)) == Object(map[
      "jql" := Str(query),
      "fields" := Array([Str("summary"), Str("status"), Str("assignee"), Str("reporter"), Str("labels")])
    ])
  {
    var fields := ["summary", "status", "assignee", "reporter", "labels"];
    assert EncodeStrings(fields) == [Str("summary"), Str("status"), Str("assignee"), Str("reporter"), Str("labels")];
  }

  /** Serialising a query and reading it back is lossless. */
  lemma JqlQueryRoundTrip(q: JqlQuery)
    ensures DecodeJqlQuery(EncodeJqlQuery(q)) == Some(q)
  {
    StringsRoundTrip(q.fields);
  }

  datatype AssigneeFields = AssigneeFields(name: string)
  datatype ProjectFields = ProjectFields(key: string)
  datatype IssueTypeFields = IssueTypeFields(name: string)
  datatype IssueFields = IssueFields(
    summary: string,
    assignee: AssigneeFields,
    labels: seq<string>,
    project: ProjectFields,
    issuetype: IssueTypeFields
  )
  datatype CreateIssueRequest = CreateIssueRequest(fields: IssueFields)

  /** `CreateIssueRequest::new`: the caller's values, and always the
      issue type `Bug`. */
  function NewCreateIssueRequest(projectKey: string, summary: string, assignee: string, labels: seq<string>): (r: CreateIssueRequest)
    ensures r.fields.project.key == projectKey
    ensures r.fields.summary == summary
    ensures r.fields.assignee.name == assignee
    ensures r.fields.labels == labels
    ensures r.fields.issuetype.name == "Bug"
  {
    CreateIssueRequest(IssueFields(
      summary, AssigneeFields(assignee), labels, ProjectFields(projectKey), IssueTypeFields("Bug")))
  }

  function EncodeCreateIssueRequest(req: CreateIssueRequest): Json
  {
    var f := req.fields;
    Object(map["fields" := Object(map[
      "summary" := Str(f.summary),
      "assignee" := Object(map["name" := Str(f.assignee.name)]),
      "labels" := Array(EncodeStrings(f.labels)),
      "project" := Object(map["key" := Str(f.project.key)]),
      "issuetype" := Object(map["name" := Str(f.issuetype.name)])
    ])])
  }

  /** The string member `inner` of the object member `outer`. */
  function NestedString(obj: map<string, Json>, outer: string, inner: string): Option<string>
  {
    if outer in obj && obj[outer].Object? then StringMember(obj[outer].members, inner) else None
  }

  function DecodeCreateIssueRequest(j: Json): Option<CreateIssueRequest>
  {
    if !j.Object? || "fields" !in j.members || !j.members["fields"].Object? then None
    else
      var o := j.members["fields"].members;
      var summary := StringMember(o, "summary");
      var assignee := NestedString(o, "assignee", "name");
      var project := NestedString(o, "project", "key");
      var issuetype := NestedString(o, "issuetype", "name");
      var labels := if "labels" in o && o["labels"].Array? then DecodeStrings(o["labels"].items) else None;
      if summary.None? || assignee.None? || labels.None? || project.None? || issuetype.None? then None
      else
        Some(CreateIssueRequest(IssueFields(
          summary.value, AssigneeFields(assignee.value), labels.value,
          ProjectFields(project.value), IssueTypeFields(issuetype.value))))
  }

  /** A create request survives serialisation unchanged. */
  lemma CreateIssueRequestRoundTrip(projectKey: string, summary: string, assignee: string, labels: seq<string>)
    ensures
      var req := NewCreateIssueRequest(projectKey, summary, assignee, labels);
      DecodeCreateIssueRequest(EncodeCreateIssueRequest(req)) == Some(req)
  {
    StringsRoundTrip(labels);
  }

  // ---------------------------------------------------------------------
  // Authenticated client
  // ---------------------------------------------------------------------

  /** Header name to header value. */
  type Headers = map<string, string>

  /** The content type `application/json; charset=utf-8`. */
  const JsonUtf8: string := "application/json; charset=utf-8"

  datatype Verb = Get | Post

  /** A request as handed to the transport. */
  datatype Request = Request(verb: Verb, url: Url, headers: Headers, body: Option<string>)

  datatype AuthedClient = AuthedClient(headers: Headers)

  /** `AuthedClient::new`: basic authorisation with the stored token, and
      a JSON content type. */
  function NewAuthedClient(auth: string): (c: AuthedClient)
    ensures c.headers.Keys == {"Authorization", "Content-Type"}
    ensures c.headers["Authorization"] == "Basic " + auth
    ensures c.headers["Content-Type"] == JsonUtf8
  {
    AuthedClient(map["Authorization" := "Basic " + auth, "Content-Type" := JsonUtf8])
  }

  /** `AuthedClient::get`: a GET carrying a copy of the client's headers. */
  function GetRequest(c: AuthedClient, url: Url): (r: Request)
    ensures r.verb == Get && r.url == url && r.body.None?
    ensures r.headers == c.headers
  {
    Request(Get, url, c.headers, None)
  }

  /** `AuthedClient::post(..).body(..)`: a POST carrying a copy of the
      client's headers. */
  function PostRequest(c: AuthedClient, url: Url, body: string): (r: Request)
    ensures r.verb == Post && r.url == url && r.body == Some(body)
    ensures r.headers == c.headers
  {
    Request(Post, url, c.headers, Some(body))
  }

  // ---------------------------------------------------------------------
  // Operations
  // ---------------------------------------------------------------------

  /** `JiraError`, each variant carrying the library error's text. */
  datatype JiraError =
    | IoError(message: string)
    | ParseError(message: string)
    | BuilderError(message: string)
    | EncoderError(message: string)
    | RequestError(message: string)
    | Unexpected(message: string)

  /** What the transport does with a request: fail to send it (`send`),
      fail to read the reply (`read_to_string`), or deliver the body. */
  datatype Reply = NotSent(error: string) | Unreadable(error: string) | Body(text: string)

  /** The library and network behaviour the client depends on. */
  datatype Platform = Platform(
    helpers: Helpers,
    join: (Url, string) -> Result<Url, string>,
    render: Json -> Result<string, string>,
    transport: Request -> Reply,
    parseJson: string -> Result<Json, string>
  )

  datatype Jira = Jira(client: AuthedClient, baseUrl: Url)

  /** The end of an operation: a value, an error, or a panic. */
  datatype Outcome<T> = Done(value: T) | Fail(error: JiraError) | Panic(message: string)

  /** An operation's outcome together with the requests it sent, in order. */
  datatype Run<T> = Run(outcome: Outcome<T>, sent: seq<Request>)

  /** `Jira::new`: fails exactly when the base URL does not parse. */
  function NewJira(p: Platform, auth: string, baseUrl: string): (r: Result<Jira, JiraError>)
    ensures r.Err? <==> p.helpers.parseUrl(baseUrl).Err?
    ensures r.Err? ==> r.error == ParseError(p.helpers.parseUrl(baseUrl).error)
    ensures r.Ok? ==> r.value.baseUrl == p.helpers.parseUrl(baseUrl).value
    ensures r.Ok? ==> r.value.client == NewAuthedClient(auth)
  {
    match p.helpers.parseUrl(baseUrl)
    case Err(e) => Err(ParseError(e))
    case Ok(url) => Ok(Jira(NewAuthedClient(auth), url))
  }

  /** Send one request, read its body and parse it as JSON; each failing
      step becomes its own error variant. */
  function Exchange(p: Platform, req: Request): (r: Result<(string, Json), JiraError>)
    ensures p.transport(req).NotSent? ==> r == Err(RequestError(p.transport(req).error))
    ensures p.transport(req).Unreadable? ==> r == Err(IoError(p.transport(req).error))
    ensures p.transport(req).Body? && p.parseJson(p.transport(req).text).Err? ==>
      r == Err(BuilderError(p.parseJson(p.transport(req).text).error))
    ensures r.Ok? <==> p.transport(req).Body? && p.parseJson(p.transport(req).text).Ok?
    ensures r.Ok? ==> r.value == (p.transport(req).text, p.parseJson(p.transport(req).text).value)
  {
    match p.transport(req)
    case NotSent(e) => Err(RequestError(e))
    case Unreadable(e) => Err(IoError(e))
    case Body(text) =>
      match p.parseJson(text)
      case Err(e) => Err(BuilderError(e))
      case Ok(data) => Ok((text, data))
  }

  /** The search request `query` sends, when it gets as far as sending. */
  function SearchRequest(p: Platform, jira: Jira, query: string): Option<Request>
  {
    match p.join(jira.baseUrl, "rest/api/2/search")
    case Err(_) => None
    case Ok(url) =>
      match p.render(EncodeJqlQuery(NewJqlQuery(query)))
      case Err(_) => None
      case Ok(body) => Some(PostRequest(jira.client, url, body))
  }

  /** The create request `create_issue` sends, when it gets as far as
      sending. */
  function CreateRequest(p: Platform, jira: Jira, projectKey: string, summary: string, assignee: string, labels: seq<string>): Option<Request>
  {
    match p.join(jira.baseUrl, "rest/api/2/issue")
    case Err(_) => None
    case Ok(url) =>
      match p.render(EncodeCreateIssueRequest(NewCreateIssueRequest(projectKey, summary, assignee, labels)))
      case Err(_) => None
      case Ok(body) => Some(PostRequest(jira.client, url, body))
  }

  /** `Jira::query`: one POST of the search body; the parsed reply goes
      through the normaliser, whose "no issues array" answer is a
      successful `None`, not an error. */
  function Query(p: Platform, jira: Jira, query: string): (r: Run<Option<IssueVec>>)
    ensures !r.outcome.Panic?
    ensures p.join(jira.baseUrl, "rest/api/2/search").Err? ==>
      r == Run(Fail(ParseError(p.join(jira.baseUrl, "rest/api/2/search").error)), [])
    ensures p.join(jira.baseUrl, "rest/api/2/search").Ok? && p.render(EncodeJqlQuery(NewJqlQuery(query))).Err? ==>
      r == Run(Fail(EncoderError(p.render(EncodeJqlQuery(NewJqlQuery(query))).error)), [])
    ensures r.sent == [] <==> SearchRequest(p, jira, query).None?
    ensures r.sent != [] ==> r.sent == [SearchRequest(p, jira, query).value]
    ensures r.sent != [] ==>
      var req := r.sent[0];
      && req.verb == Post
      && req.headers == jira.client.headers
      && req.url == p.join(jira.baseUrl, "rest/api/2/search").value
      && req.body == Some(p.render(EncodeJqlQuery(JqlQuery(query, ["summary", "status", "assignee", "reporter", "labels"]))).value)
    ensures forall req :: req in r.sent ==> req.headers == jira.client.headers
    ensures r.outcome.Done? <==> r.sent != [] && Exchange(p, r.sent[0]).Ok?
    ensures r.outcome.Done? ==> r.outcome.value == IssuesFromResponse(p.helpers, Exchange(p, r.sent[0]).value.1)
    ensures r.sent != [] && Exchange(p, r.sent[0]).Err? ==> r.outcome == Fail(Exchange(p, r.sent[0]).error)
  {
    match p.join(jira.baseUrl, "rest/api/2/search")
    case Err(e) => Run(Fail(ParseError(e)), [])
    case Ok(url) =>
      match p.render(EncodeJqlQuery(NewJqlQuery(query)))
      case Err(e) => Run(Fail(EncoderError(e)), [])
      case Ok(body) =>
        var req := PostRequest(jira.client, url, body);
        match Exchange(p, req)
        case Err(e) => Run(Fail(e), [req])
        case Ok((_, data)) => Run(Done(IssuesFromResponse(p.helpers, data)), [req])
  }

  /** `Jira::issue`: one GET of the issue; a parsed reply always yields
      an issue, never `None`. */
  function GetIssue(p: Platform, jira: Jira, key: string): (r: Run<Option<Issue>>)
    ensures !r.outcome.Panic?
    ensures r.outcome.Done? ==> r.outcome.value.Some?
    ensures |r.sent| <= 1
    ensures forall req :: req in r.sent ==> req.headers == jira.client.headers
    ensures r.sent == [] <==> p.join(jira.baseUrl, "rest/api/2/issue/" + key).Err?
    ensures p.join(jira.baseUrl, "rest/api/2/issue/" + key).Err? ==>
      r == Run(Fail(ParseError(p.join(jira.baseUrl, "rest/api/2/issue/" + key).error)), [])
    ensures r.sent != [] ==>
      r.sent[0] == Request(Get, p.join(jira.baseUrl, "rest/api/2/issue/" + key).value, jira.client.headers, None)
    ensures r.sent != [] && Exchange(p, r.sent[0]).Ok? ==>
      r.outcome == Done(Some(FromData(p.helpers, Exchange(p, r.sent[0]).value.1)))
    ensures r.sent != [] && Exchange(p, r.sent[0]).Err? ==> r.outcome == Fail(Exchange(p, r.sent[0]).error)
  {
    match p.join(jira.baseUrl, "rest/api/2/issue/" + key)
    case Err(e) => Run(Fail(ParseError(e)), [])
    case Ok(url) =>
      var req := GetRequest(jira.client, url);
      match Exchange(p, req)
      case Err(e) => Run(Fail(e), [req])
      case Ok((_, data)) => Run(Done(Some(FromData(p.helpers, data))), [req])
  }

  /** The prefix of the error reported when the create reply has no key. */
  const MissingKeyMessage: string := "Jira response did not contain new issue key: "

  /** `Jira::create_issue`: POST the create body; a reply with a string
      `key` is followed by exactly the `issue` operation for that key; a
      reply without `key` is an `Unexpected` error quoting the reply; a
      non-string `key` panics (`unwrap` on `as_string`). */
  function CreateIssue(p: Platform, jira: Jira, projectKey: string, summary: string, assignee: string, labels: seq<string>): (r: Run<Option<Issue>>)
    ensures |r.sent| <= 2
    ensures forall req :: req in r.sent ==> req.headers == jira.client.headers
    ensures r.sent == [] <==> CreateRequest(p, jira, projectKey, summary, assignee, labels).None?
    ensures p.join(jira.baseUrl, "rest/api/2/issue").Err? ==>
      r == Run(Fail(ParseError(p.join(jira.baseUrl, "rest/api/2/issue").error)), [])
    ensures (p.join(jira.baseUrl, "rest/api/2/issue").Ok?
      && p.render(EncodeCreateIssueRequest(NewCreateIssueRequest(projectKey, summary, assignee, labels))).Err?) ==>
      r == Run(Fail(EncoderError(p.render(EncodeCreateIssueRequest(NewCreateIssueRequest(projectKey, summary, assignee, labels))).error)), [])
    ensures r.sent != [] ==>
      var req := r.sent[0];
      && req == CreateRequest(p, jira, projectKey, summary, assignee, labels).value
      && req.verb == Post
      && req.headers == jira.client.headers
      && req.url == p.join(jira.baseUrl, "rest/api/2/issue").value
      && req.body == Some(p.render(EncodeCreateIssueRequest(NewCreateIssueRequest(projectKey, summary, assignee, labels))).value)
    ensures |r.sent| >= 1 && Exchange(p, r.sent[0]).Err? ==> r == Run(Fail(Exchange(p, r.sent[0]).error), r.sent[..1])
    ensures |r.sent| >= 1 && Exchange(p, r.sent[0]).Ok? ==>
      var (text, data) := Exchange(p, r.sent[0]).value;
      match FindPath(data, ["key"])
      case None => r == Run(Fail(Unexpected(MissingKeyMessage + text)), r.sent[..1])
      case Some(Str(k)) => r.outcome == GetIssue(p, jira, k).outcome && r.sent[1..] == GetIssue(p, jira, k).sent
      case Some(_) => r.outcome.Panic? && |r.sent| == 1
    ensures r.outcome.Done? ==> |r.sent| == 2 && r.sent[1].verb == Get
  {
    match p.join(jira.baseUrl, "rest/api/2/issue")
    case Err(e) => Run(Fail(ParseError(e)), [])
    case Ok(url) =>
      match p.render(EncodeCreateIssueRequest(NewCreateIssueRequest(projectKey, summary, assignee, labels)))
      case Err(e) => Run(Fail(EncoderError(e)), [])
      case Ok(body) =>
        var req := PostRequest(jira.client, url, body);
        match Exchange(p, req)
        case Err(e) => Run(Fail(e), [req])
        case Ok((text, data)) =>
          match FindPath(data, ["key"])
          case None => Run(Fail(Unexpected(MissingKeyMessage + text)), [req])
          case Some(obj) =>
            match AsString(obj)
            case None => Run(Panic("called `Option::unwrap()` on a `None` value"), [req])
            case Some(key) =>
              var follow := GetIssue(p, jira, key);
              Run(follow.outcome, [req] + follow.sent)
  }

  /** `Jira::browse_url_for`: the base URL joined with `browse/<key>`. */
  function BrowseUrlFor(p: Platform, jira: Jira, issue: Issue): Result<Url, string>
  {
    p.join(jira.baseUrl, "browse/" + issue.key)
  }

  /** A search reply that parses but has no `issues` array is a
      successful empty answer (`Ok(None)`), not an error. */
  lemma QueryWithoutIssuesIsNone(p: Platform, jira: Jira, query: string)
    requires SearchRequest(p, jira, query).Some?
    requires Exchange(p, SearchRequest(p, jira, query).value).Ok?
    requires Find(Exchange(p, SearchRequest(p, jira, query).value).value.1, "issues").None?
    ensures Query(p, jira, query).outcome == Done(None)
  {
  }

  /** A create reply carrying key `k` leads to exactly one follow-up GET,
      of `rest/api/2/issue/<k>`, when that URL can be formed, and the
      operation's result is that of `issue(k)`. */
  lemma CreateIssueFollowsUpOnce(
    p: Platform, jira: Jira, projectKey: string, summary: string, assignee: string,
    labels: seq<string>, k: string
  )
    requires
      var r := CreateIssue(p, jira, projectKey, summary, assignee, labels);
      |r.sent| >= 1 && Exchange(p, r.sent[0]).Ok? && FindPath(Exchange(p, r.sent[0]).value.1, ["key"]) == Some(Str(k))
    requires p.join(jira.baseUrl, "rest/api/2/issue/" + k).Ok?
    ensures
      var r := CreateIssue(p, jira, projectKey, summary, assignee, labels);
      && |r.sent| == 2
      && r.sent[0].verb == Post
      && r.sent[1] == GetRequest(jira.client, p.join(jira.baseUrl, "rest/api/2/issue/" + k).value)
      && r.outcome == GetIssue(p, jira, k).outcome
  {
  }

  // ---------------------------------------------------------------------
  // Which step failed
  // ---------------------------------------------------------------------

  /** Each error variant of an exchange names exactly one failing step of
      the transport or the JSON parser, and no other variant occurs. */
  lemma ExchangeFailureNamesStep(p: Platform, req: Request)
    ensures var r := Exchange(p, req); var reply := p.transport(req);
      && (r.Err? && r.error.RequestError? <==> reply.NotSent?)
      && (r.Err? && r.error.IoError? <==> reply.Unreadable?)
      && (r.Err? && r.error.BuilderError? <==> reply.Body? && p.parseJson(reply.text).Err?)
      && (r.Err? ==> !r.error.ParseError? && !r.error.EncoderError? && !r.error.Unexpected?)
  {
  }

  /** `query`'s error variant names the step that failed, in both
      directions: URL join, body rendering, sending, reading, or parsing
      the reply. */
  lemma QueryFailureNamesStep(p: Platform, jira: Jira, query: string)
    ensures
      var r := Query(p, jira, query);
      var url := p.join(jira.baseUrl, "rest/api/2/search");
      var body := p.render(EncodeJqlQuery(NewJqlQuery(query)));
      var reply := if url.Ok? && body.Ok? then p.transport(PostRequest(jira.client, url.value, body.value)) else NotSent("");
      && ((r.outcome.Fail? && r.outcome.error.ParseError?) <==> url.Err?)
      && ((r.outcome.Fail? && r.outcome.error.EncoderError?) <==> url.Ok? && body.Err?)
      && ((r.outcome.Fail? && r.outcome.error.RequestError?) <==> url.Ok? && body.Ok? && reply.NotSent?)
      && ((r.outcome.Fail? && r.outcome.error.IoError?) <==> url.Ok? && body.Ok? && reply.Unreadable?)
      && ((r.outcome.Fail? && r.outcome.error.BuilderError?) <==> url.Ok? && body.Ok? && reply.Body? && p.parseJson(reply.text).Err?)
      && !(r.outcome.Fail? && r.outcome.error.Unexpected?)
  {
  }


  /** `issue`'s error variant names the step that failed, in both
      directions; a request that gets through always yields an issue. */
  lemma GetIssueFailureNamesStep(p: Platform, jira: Jira, key: string)
    ensures
      var r := GetIssue(p, jira, key);
      var url := p.join(jira.baseUrl, "rest/api/2/issue/" + key);
      var reply := if url.Ok? then p.transport(GetRequest(jira.client, url.value)) else NotSent("");
      && ((r.outcome.Fail? && r.outcome.error.ParseError?) <==> url.Err?)
      && ((r.outcome.Fail? && r.outcome.error.RequestError?) <==> url.Ok? && reply.NotSent?)
      && ((r.outcome.Fail? && r.outcome.error.IoError?) <==> url.Ok? && reply.Unreadable?)
      && ((r.outcome.Fail? && r.outcome.error.BuilderError?) <==> url.Ok? && reply.Body? && p.parseJson(reply.text).Err?)
      && (r.outcome.Done? <==> url.Ok? && reply.Body? && p.parseJson(reply.text).Ok?)
      && !(r.outcome.Fail? && (r.outcome.error.EncoderError? || r.outcome.error.Unexpected?))
  {
  }


  /** `create_issue`'s own steps: an `EncoderError` means exactly that the
      body could not be rendered, `Unexpected` exactly that the parsed
      reply has no `key`, and a panic exactly that the key is not a
      string. */
  lemma CreateIssueFailureNamesStep(
    p: Platform, jira: Jira, projectKey: string, summary: string, assignee: string, labels: seq<string>
  )
    ensures
      var r := CreateIssue(p, jira, projectKey, summary, assignee, labels);
      var url := p.join(jira.baseUrl, "rest/api/2/issue");
      var body := p.render(EncodeCreateIssueRequest(NewCreateIssueRequest(projectKey, summary, assignee, labels)));
      var reply := if url.Ok? && body.Ok? then p.transport(PostRequest(jira.client, url.value, body.value)) else NotSent("");
      var parsed := if reply.Body? then p.parseJson(reply.text) else Err("");
      && (r.sent == [] && (r.outcome.Fail? && r.outcome.error.ParseError?) <==> url.Err?)
      && ((r.outcome.Fail? && r.outcome.error.EncoderError?) <==> url.Ok? && body.Err?)
      && ((r.outcome.Fail? && r.outcome.error.Unexpected?) <==>
            url.Ok? && body.Ok? && parsed.Ok? && FindPath(parsed.value, ["key"]).None?)
      && (r.outcome.Panic? <==>
            url.Ok? && body.Ok? && parsed.Ok? && FindPath(parsed.value, ["key"]).Some?
            && !FindPath(parsed.value, ["key"]).value.Str?)
  {
  }


  /** A client built by `Jira::new` authorises every search and fetch
      with the stored token and addresses them relative to the parsed
      base URL. */
  lemma NewJiraAddressesRequests(p: Platform, auth: string, baseUrl: string, query: string, key: string)
    requires NewJira(p, auth, baseUrl).Ok?
    ensures
      var jira := NewJira(p, auth, baseUrl).value;
      var base := p.helpers.parseUrl(baseUrl).value;
      var search := Query(p, jira, query).sent;
      var fetch := GetIssue(p, jira, key).sent;
      && (forall req :: req in search + fetch ==> req.headers["Authorization"] == "Basic " + auth)
      && (search != [] ==> search[0].url == p.join(base, "rest/api/2/search").value)
      && (fetch != [] ==> fetch[0].url == p.join(base, "rest/api/2/issue/" + key).value)
  {
  }

}
