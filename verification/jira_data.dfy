/** The serde-based wire schema in `jira_data.rs`: the request
    bodies it builds and the tolerant decoding of the tracker's issue
    objects (absent or null members replaced by sentinels). Decoding and
    encoding follow serde's derived behaviour for JSON objects. */
module JiraData {
  import opened Common
  import opened JsonValue

  /** Rust's `u16`. */
  type U16 = x: int | 0 <= x < 0x1_0000

  /** Why a document was rejected. Which error is reported when several
      members are wrong is not part of the model's promises. */
  datatype DecodeError =
    | NotAnObject(shape: string)
    | MissingField(field: string)
    | InvalidType(field: string)

  // ---------------------------------------------------------------------
  // Member readers (serde's rules for one field of a derived struct)
  // ---------------------------------------------------------------------

  /** A member that is absent or JSON `null`. */
  predicate Missing(j: Json, name: string)
  {
    match Find(j, name)
    case None => true
    case Some(v) => v.Null?
  }

  /** A required `String` field. */
  function RequiredString(obj: map<string, Json>, name: string): (r: Result<string, DecodeError>)
    ensures r.Ok? <==> name in obj && obj[name].Str?
    ensures r.Ok? ==> obj[name] == Str(r.value)
  {
    if name !in obj then Err(MissingField(name))
    else if obj[name].Str? then Ok(obj[name].s)
    else Err(InvalidType(name))
  }

  /** A required `Vec<String>` field. */
  function RequiredStrings(obj: map<string, Json>, name: string): (r: Result<seq<string>, DecodeError>)
    ensures r.Ok? <==> name in obj && obj[name].Array? && DecodeStrings(obj[name].items).Some?
    ensures r.Ok? ==> DecodeStrings(obj[name].items) == Some(r.value)
  {
    if name !in obj then Err(MissingField(name))
    else if !obj[name].Array? then Err(InvalidType(name))
    else
      match DecodeStrings(obj[name].items)
      case None => Err(InvalidType(name))
      case Some(xs) => Ok(xs)
  }

  /** A required `u16` field: an integer outside 0..65535 is rejected. */
  function RequiredU16(obj: map<string, Json>, name: string): (r: Result<U16, DecodeError>)
    ensures r.Ok? <==> name in obj && obj[name].Number? && 0 <= obj[name].n < 0x1_0000
    ensures r.Ok? ==> obj[name] == Number(r.value)
  {
    if name !in obj then Err(MissingField(name))
    else if obj[name].Number? && 0 <= obj[name].n < 0x1_0000 then Ok(obj[name].n)
    else Err(InvalidType(name))
  }

  /** An `Option<String>` field: absent and null both read as `None`. */
  function OptionalString(obj: map<string, Json>, name: string): (r: Result<Option<string>, DecodeError>)
    ensures r.Ok? <==> name !in obj || obj[name].Null? || obj[name].Str?
    ensures r == Ok(None) <==> name !in obj || obj[name].Null?
    ensures r.Ok? && r.value.Some? ==> obj[name] == Str(r.value.value)
  {
    if name !in obj || obj[name].Null? then Ok(None)
    else if obj[name].Str? then Ok(Some(obj[name].s))
    else Err(InvalidType(name))
  }

  // ---------------------------------------------------------------------
  // JQLQuery
  // ---------------------------------------------------------------------

  /** The body of a search request. */
  datatype JqlQuery = JqlQuery(jql: string, fields: seq<string>, maxResults: U16)

  /** `JQLQuery::new`: the caller's query, the five fields the issue list
      needs, and a page of at most 200 results. */
  function NewJqlQuery(query: string): (q: JqlQuery)
    ensures q.jql == query
    ensures q.fields == ["summary", "status", "assignee", "reporter", "labels"]
    ensures q.maxResults == 200
  {
    JqlQuery(query, ["summary", "status", "assignee", "reporter", "labels"], 200)
  }

  function EncodeJqlQuery(q: JqlQuery): Json
  {
    Object(map[
      "jql" := Str(q.jql),
      "fields" := Array(EncodeStrings(q.fields)),
      "maxResults" := Number(q.maxResults)
    ])
  }

  function DecodeJqlQuery(j: Json): Result<JqlQuery, DecodeError>
  {
    if !j.Object? then Err(NotAnObject("JQLQuery"))
    else
      var jql :- RequiredString(j.members, "jql");
      var fields :- RequiredStrings(j.members, "fields");
      var maxResults :- RequiredU16(j.members, "maxResults");
      Ok(JqlQuery(jql, fields, maxResults))
  }

  /** Serialising a query and reading it back is lossless. */
  lemma JqlQueryRoundTrip(q: JqlQuery)
    ensures DecodeJqlQuery(EncodeJqlQuery(q)) == Ok(q)
  {
    StringsRoundTrip(q.fields);
  }

  /** The search body on the wire: `{jql, fields: [...], maxResults: 200}`. */
  lemma NewJqlQueryWire(query: string)
    ensures EncodeJqlQuery(NewJqlQuery(query)) == Object(map[
      "jql" := Str(query),
      "fields" := Array([Str("summary"), Str("status"), Str("assignee"), Str("reporter"), Str("labels")]),
      "maxResults" := Number(200)
    ])
  {
    var fields := ["summary", "status", "assignee", "reporter", "labels"];
    assert EncodeStrings(fields) == [Str("summary"), Str("status"), Str("assignee"), Str("reporter"), Str("labels")];
  }

  // ---------------------------------------------------------------------
  // Issue fields
  // ---------------------------------------------------------------------

  datatype UserFields = UserFields(name: string, displayName: Option<string>)
  datatype Status = Status(name: string)
  datatype ProjectFields = ProjectFields(key: string)
  datatype IssueTypeFields = IssueTypeFields(name: string)
  datatype SelectListFields = SelectListFields(id: string)

  /** `reporter` and `status` are read but never written; `extra` (the
      tracker's custom select-list fields, flattened into the object) is
      written but never read. */
  datatype IssueFields = IssueFields(
    summary: string,
    description: string,
    assignee: UserFields,
    labels: seq<string>,
    project: ProjectFields,
    issuetype: IssueTypeFields,
    reporter: Option<UserFields>,
    status: Option<Status>,
    extra: map<string, SelectListFields>
  )

  datatype CreateIssueRequest = CreateIssueRequest(fields: IssueFields)
  datatype IssueResponse = IssueResponse(fields: IssueFields, key: string, selfUrl: string)
  datatype IssueResponseList = IssueResponseList(issues: seq<IssueResponse>)

  function DefaultUser(): UserFields
  {
    UserFields("<unknown>", None)
  }

  function DefaultDescription(): string
  {
    "Unknown"
  }

  function DefaultProject(): ProjectFields
  {
    ProjectFields("Unknown")
  }

  function DefaultIssueType(): IssueTypeFields
  {
    IssueTypeFields("Unknown")
  }

  /** `UserFields::display_name`. */
  function DisplayName(u: UserFields): (r: string)
    ensures u.displayName.Some? ==> r == u.displayName.value
    ensures u.displayName.None? ==> r == "Unknown"
  {
    match u.displayName
    case Some(name) => name
    case None => "Unknown"
  }

  function DecodeUserFields(j: Json): (r: Result<UserFields, DecodeError>)
    ensures r.Ok? <==> j.Object? && RequiredString(j.members, "name").Ok? && OptionalString(j.members, "displayName").Ok?
    ensures r.Ok? ==> Find(j, "name") == Some(Str(r.value.name))
    ensures r.Ok? ==> (r.value.displayName.None? <==> Missing(j, "displayName"))
    ensures r.Ok? && r.value.displayName.Some? ==> Find(j, "displayName") == Some(Str(r.value.displayName.value))
  {
    if !j.Object? then Err(NotAnObject("UserFields"))
    else
      var name :- RequiredString(j.members, "name");
      var displayName :- OptionalString(j.members, "displayName");
      Ok(UserFields(name, displayName))
  }

  /** `nullable_user_fields`: null becomes the sentinel user. */
  function NullableUserFields(j: Json): (r: Result<UserFields, DecodeError>)
    ensures j.Null? ==> r == Ok(UserFields("<unknown>", None))
    ensures !j.Null? ==> r == DecodeUserFields(j)
  {
    if j.Null? then Ok(DefaultUser()) else DecodeUserFields(j)
  }

  /** `nullable_description`: null becomes `"Unknown"`. */
  function NullableDescription(j: Json): (r: Result<string, DecodeError>)
    ensures j.Null? ==> r == Ok("Unknown")
    ensures j.Str? ==> r == Ok(j.s)
    ensures r.Ok? <==> j.Null? || j.Str?
  {
    if j.Null? then Ok(DefaultDescription())
    else if j.Str? then Ok(j.s)
    else Err(InvalidType("description"))
  }

  function DecodeStatus(j: Json): (r: Result<Status, DecodeError>)
    ensures r.Ok? <==> j.Object? && RequiredString(j.members, "name").Ok?
    ensures r.Ok? ==> Find(j, "name") == Some(Str(r.value.name))
  {
    if !j.Object? then Err(NotAnObject("Status"))
    else
      var name :- RequiredString(j.members, "name");
      Ok(Status(name))
  }

  function DecodeProject(j: Json): (r: Result<ProjectFields, DecodeError>)
    ensures r.Ok? <==> j.Object? && RequiredString(j.members, "key").Ok?
    ensures r.Ok? ==> Find(j, "key") == Some(Str(r.value.key))
  {
    if !j.Object? then Err(NotAnObject("ProjectFields"))
    else
      var key :- RequiredString(j.members, "key");
      Ok(ProjectFields(key))
  }

  function DecodeIssueType(j: Json): (r: Result<IssueTypeFields, DecodeError>)
    ensures r.Ok? <==> j.Object? && RequiredString(j.members, "name").Ok?
    ensures r.Ok? ==> Find(j, "name") == Some(Str(r.value.name))
  {
    if !j.Object? then Err(NotAnObject("IssueTypeFields"))
    else
      var name :- RequiredString(j.members, "name");
      Ok(IssueTypeFields(name))
  }

  /** The `description` member: `default_description` when absent,
      `nullable_description` otherwise. */
  function DescriptionMember(obj: map<string, Json>): (r: Result<string, DecodeError>)
    ensures r.Ok? <==> "description" !in obj || obj["description"].Null? || obj["description"].Str?
    ensures r.Ok? && ("description" !in obj || obj["description"].Null?) ==> r.value == "Unknown"
    ensures r.Ok? && "description" in obj && !obj["description"].Null? ==> obj["description"] == Str(r.value)
  {
    if "description" in obj then NullableDescription(obj["description"]) else Ok(DefaultDescription())
  }

  /** The `assignee` member: `default_user` when absent,
      `nullable_user_fields` otherwise. */
  function AssigneeMember(obj: map<string, Json>): (r: Result<UserFields, DecodeError>)
    ensures "assignee" !in obj || obj["assignee"].Null? ==> r == Ok(UserFields("<unknown>", None))
    ensures "assignee" in obj && !obj["assignee"].Null? ==> r == DecodeUserFields(obj["assignee"])
  {
    if "assignee" in obj then NullableUserFields(obj["assignee"]) else Ok(DefaultUser())
  }

  /** The `project` member: `default_project` only when absent; null is
      not absence. */
  function ProjectMember(obj: map<string, Json>): (r: Result<ProjectFields, DecodeError>)
    ensures "project" !in obj ==> r == Ok(ProjectFields("Unknown"))
    ensures "project" in obj ==> r == DecodeProject(obj["project"])
  {
    if "project" in obj then DecodeProject(obj["project"]) else Ok(DefaultProject())
  }

  /** The `issuetype` member: `default_issuetype` only when absent. */
  function IssueTypeMember(obj: map<string, Json>): (r: Result<IssueTypeFields, DecodeError>)
    ensures "issuetype" !in obj ==> r == Ok(IssueTypeFields("Unknown"))
    ensures "issuetype" in obj ==> r == DecodeIssueType(obj["issuetype"])
  {
    if "issuetype" in obj then DecodeIssueType(obj["issuetype"]) else Ok(DefaultIssueType())
  }

  /** An `Option<UserFields>` field. */
  function OptionalUser(obj: map<string, Json>, name: string): (r: Result<Option<UserFields>, DecodeError>)
    ensures r.Ok? <==> name !in obj || obj[name].Null? || DecodeUserFields(obj[name]).Ok?
    ensures r.Ok? ==> (r.value.None? <==> name !in obj || obj[name].Null?)
    ensures r.Ok? && r.value.Some? ==> DecodeUserFields(obj[name]) == Ok(r.value.value)
  {
    if name !in obj || obj[name].Null? then Ok(None)
    else
      var u :- DecodeUserFields(obj[name]);
      Ok(Some(u))
  }

  /** An `Option<Status>` field. */
  function OptionalStatus(obj: map<string, Json>, name: string): (r: Result<Option<Status>, DecodeError>)
    ensures r.Ok? <==> name !in obj || obj[name].Null? || DecodeStatus(obj[name]).Ok?
    ensures r.Ok? ==> (r.value.None? <==> name !in obj || obj[name].Null?)
    ensures r.Ok? && r.value.Some? ==> DecodeStatus(obj[name]) == Ok(r.value.value)
  {
    if name !in obj || obj[name].Null? then Ok(None)
    else
      var s :- DecodeStatus(obj[name]);
      Ok(Some(s))
  }

  /** When an `IssueFields` object is accepted: `summary` and `labels`
      are required; `description` and `assignee` may also be absent or
      null; `project` and `issuetype` may be absent but not null;
      `reporter` and `status` may be absent or null. Every member that is
      present and not tolerated as missing must have its own shape. */
  predicate IssueFieldsAccepted(obj: map<string, Json>)
  {
    && RequiredString(obj, "summary").Ok?
    && ("description" !in obj || obj["description"].Null? || obj["description"].Str?)
    && ("assignee" !in obj || obj["assignee"].Null? || DecodeUserFields(obj["assignee"]).Ok?)
    && RequiredStrings(obj, "labels").Ok?
    && ("project" !in obj || DecodeProject(obj["project"]).Ok?)
    && ("issuetype" !in obj || DecodeIssueType(obj["issuetype"]).Ok?)
    && ("reporter" !in obj || obj["reporter"].Null? || DecodeUserFields(obj["reporter"]).Ok?)
    && ("status" !in obj || obj["status"].Null? || DecodeStatus(obj["status"]).Ok?)
  }

  /** Deserialising `IssueFields` from a JSON object, with the
      `default` / `deserialize_with` / `skip_deserializing` attributes of
      the struct. Unknown members are ignored. */
  function DecodeIssueFields(j: Json): (r: Result<IssueFields, DecodeError>)
    ensures r.Ok? <==> j.Object? && IssueFieldsAccepted(j.members)
    ensures r.Ok? ==> r.value.extra == map[]
    ensures r.Ok? ==> Find(j, "summary") == Some(Str(r.value.summary))
    ensures r.Ok? && Missing(j, "description") ==> r.value.description == "Unknown"
    ensures r.Ok? && !Missing(j, "description") ==> Find(j, "description") == Some(Str(r.value.description))
    ensures r.Ok? && Missing(j, "assignee") ==> r.value.assignee == UserFields("<unknown>", None)
    ensures r.Ok? && !Missing(j, "assignee") ==> DecodeUserFields(j.members["assignee"]) == Ok(r.value.assignee)
    ensures r.Ok? ==> RequiredStrings(j.members, "labels") == Ok(r.value.labels)
    ensures r.Ok? && Find(j, "project").None? ==> r.value.project == ProjectFields("Unknown")
    ensures r.Ok? && Find(j, "issuetype").None? ==> r.value.issuetype == IssueTypeFields("Unknown")
    ensures r.Ok? && "project" in j.members ==> DecodeProject(j.members["project"]) == Ok(r.value.project)
    ensures r.Ok? && "issuetype" in j.members ==> DecodeIssueType(j.members["issuetype"]) == Ok(r.value.issuetype)
    ensures r.Ok? && !Missing(j, "reporter") ==> r.value.reporter.Some? && DecodeUserFields(j.members["reporter"]) == Ok(r.value.reporter.value)
    ensures r.Ok? && !Missing(j, "status") ==> r.value.status.Some? && DecodeStatus(j.members["status"]) == Ok(r.value.status.value)
    ensures r.Ok? ==> (r.value.reporter.None? <==> Missing(j, "reporter"))
    ensures r.Ok? ==> (r.value.status.None? <==> Missing(j, "status"))
    ensures Find(j, "project") == Some(Null) ==> r.Err?
    ensures Find(j, "issuetype") == Some(Null) ==> r.Err?
    ensures Find(j, "summary").None? || Find(j, "labels").None? ==> r.Err?
  {
    if !j.Object? then Err(NotAnObject("IssueFields"))
    else
      var obj := j.members;
      var summary :- RequiredString(obj, "summary");
      var description :- DescriptionMember(obj);
      var assignee :- AssigneeMember(obj);
      var labels :- RequiredStrings(obj, "labels");
      var project :- ProjectMember(obj);
      var issuetype :- IssueTypeMember(obj);
      var reporter :- OptionalUser(obj, "reporter");
      var status :- OptionalStatus(obj, "status");
      Ok(IssueFields(summary, description, assignee, labels, project, issuetype, reporter, status, map[]))
  }

  /** The members serialisation always writes. */
  const EncodedKeys: set<string> := {"summary", "description", "assignee", "labels", "project", "issuetype"}

  /** Every member name the struct declares. */
  const FieldNames: set<string> := EncodedKeys + {"reporter", "status"}

  /** Serialising `UserFields`: `displayName` is `skip_serializing`. */
  function EncodeUserFields(u: UserFields): Json
  {
    Object(map["name" := Str(u.name)])
  }

  function EncodeSelectList(s: SelectListFields): Json
  {
    Object(map["id" := Str(s.id)])
  }

  /** Serialising `IssueFields`: `reporter` and `status` are skipped and
      the `extra` entries are flattened into the object; an `extra` key
      equal to a declared member replaces that member. */
  function EncodeIssueFields(f: IssueFields): (j: Json)
    ensures j.Object?
    ensures j.members.Keys == EncodedKeys + f.extra.Keys
    ensures "reporter" in j.members ==> "reporter" in f.extra
    ensures "status" in j.members ==> "status" in f.extra
    ensures j.members["assignee"].Object? && "displayName" !in j.members["assignee"].members
    ensures forall k :: k in f.extra ==> j.members[k] == Object(map["id" := Str(f.extra[k].id)])
  {
    var fixed := map[
      "summary" := Str(f.summary),
      "description" := Str(f.description),
      "assignee" := EncodeUserFields(f.assignee),
      "labels" := Array(EncodeStrings(f.labels)),
      "project" := Object(map["key" := Str(f.project.key)]),
      "issuetype" := Object(map["name" := Str(f.issuetype.name)])
    ];
    var extra := map k | k in f.extra :: EncodeSelectList(f.extra[k]);
    assert fixed.Keys == EncodedKeys;
    assert extra.Keys == f.extra.Keys;
    var all := fixed + extra;
    assert all["assignee"] == (if "assignee" in f.extra then EncodeSelectList(f.extra["assignee"]) else EncodeUserFields(f.assignee));
    Object(all)
  }

  /** What of a value survives serialisation followed by deserialisation:
      everything except the write-only `extra`, the read-only `reporter`
      and `status`, and the assignee's `displayName`. */
  function WireView(f: IssueFields): IssueFields
  {
    f.(assignee := UserFields(f.assignee.name, None), reporter := None, status := None, extra := map[])
  }

  /** Encoding then decoding yields the wire view, provided no custom
      field shadows a declared member. */
  lemma IssueFieldsRoundTrip(f: IssueFields)
    requires f.extra.Keys !! FieldNames
    ensures DecodeIssueFields(EncodeIssueFields(f)) == Ok(WireView(f))
  {
    var j := EncodeIssueFields(f);
    var obj := j.members;
    assert obj["summary"] == Str(f.summary);
    assert obj["description"] == Str(f.description);
    assert obj["assignee"] == EncodeUserFields(f.assignee);
    assert obj["labels"] == Array(EncodeStrings(f.labels));
    assert obj["project"] == Object(map["key" := Str(f.project.key)]);
    assert obj["issuetype"] == Object(map["name" := Str(f.issuetype.name)]);
    assert "reporter" !in obj && "status" !in obj;
    StringsRoundTrip(f.labels);
  }

  // ---------------------------------------------------------------------
  // Requests and responses
  // ---------------------------------------------------------------------

  /** `CreateIssueRequest::new`: the caller's values verbatim, no
      read-only parts, and each custom field value wrapped as `{id}`. */
  function NewCreateIssueRequest(
    projectKey: string, issueType: string, summary: string, description: string,
    assignee: string, labels: seq<string>, extraFields: map<string, string>
  ): (r: CreateIssueRequest)
    ensures r.fields.project.key == projectKey
    ensures r.fields.issuetype.name == issueType
    ensures r.fields.summary == summary
    ensures r.fields.description == description
    ensures r.fields.assignee == UserFields(assignee, None)
    ensures r.fields.labels == labels
    ensures r.fields.reporter.None? && r.fields.status.None?
    ensures r.fields.extra.Keys == extraFields.Keys
    ensures forall k :: k in extraFields ==> r.fields.extra[k] == SelectListFields(extraFields[k])
  {
    CreateIssueRequest(IssueFields(
      summary, description, UserFields(assignee, None), labels,
      ProjectFields(projectKey), IssueTypeFields(issueType), None, None,
      map k | k in extraFields :: SelectListFields(extraFields[k])))
  }

  function EncodeCreateIssueRequest(req: CreateIssueRequest): Json
  {
    Object(map["fields" := EncodeIssueFields(req.fields)])
  }

  function DecodeCreateIssueRequest(j: Json): Result<CreateIssueRequest, DecodeError>
  {
    if !j.Object? then Err(NotAnObject("CreateIssueRequest"))
    else if "fields" !in j.members then Err(MissingField("fields"))
    else
      var fields :- DecodeIssueFields(j.members["fields"]);
      Ok(CreateIssueRequest(fields))
  }

  /** A built create request reads back as itself minus the custom
      fields, which are never decoded. */
  lemma CreateIssueRequestRoundTrip(
    projectKey: string, issueType: string, summary: string, description: string,
    assignee: string, labels: seq<string>, extraFields: map<string, string>
  )
    requires extraFields.Keys !! FieldNames
    ensures
      var req := NewCreateIssueRequest(projectKey, issueType, summary, description, assignee, labels, extraFields);
      DecodeCreateIssueRequest(EncodeCreateIssueRequest(req)) == Ok(CreateIssueRequest(req.fields.(extra := map[])))
  {
    var req := NewCreateIssueRequest(projectKey, issueType, summary, description, assignee, labels, extraFields);
    IssueFieldsRoundTrip(req.fields);
  }

  /** `IssueResponse`: the issue's `fields`, its `key`, and its `self`
      link (renamed to `self_url`). */
  function DecodeIssueResponse(j: Json): (r: Result<IssueResponse, DecodeError>)
    ensures r.Ok? <==> (j.Object? && "fields" in j.members && DecodeIssueFields(j.members["fields"]).Ok?
      && RequiredString(j.members, "key").Ok? && RequiredString(j.members, "self").Ok?)
    ensures r.Ok? ==> DecodeIssueFields(j.members["fields"]) == Ok(r.value.fields)
    ensures r.Ok? ==> j.members["key"] == Str(r.value.key) && j.members["self"] == Str(r.value.selfUrl)
  {
    if !j.Object? then Err(NotAnObject("IssueResponse"))
    else if "fields" !in j.members then Err(MissingField("fields"))
    else
      var fields :- DecodeIssueFields(j.members["fields"]);
      var key :- RequiredString(j.members, "key");
      var selfUrl :- RequiredString(j.members, "self");
      Ok(IssueResponse(fields, key, selfUrl))
  }

  /** A `Vec<IssueResponse>`: every element must decode, order is kept. */
  function DecodeIssueResponses(js: seq<Json>): (r: Result<seq<IssueResponse>, DecodeError>)
    ensures r.Ok? <==> forall i :: 0 <= i < |js| ==> DecodeIssueResponse(js[i]).Ok?
    ensures r.Ok? ==> |r.value| == |js|
    ensures r.Ok? ==> forall i :: 0 <= i < |js| ==> DecodeIssueResponse(js[i]) == Ok(r.value[i])
  {
    if |js| == 0 then Ok([])
    else
      var first :- DecodeIssueResponse(js[0]);
      var rest :- DecodeIssueResponses(js[1..]);
      Ok([first] + rest)
  }

  /** `IssueResponseList`: an object whose `issues` array decodes element
      by element, in order. */
  function DecodeIssueResponseList(j: Json): (r: Result<IssueResponseList, DecodeError>)
    ensures r.Ok? <==> (j.Object? && "issues" in j.members && j.members["issues"].Array?
      && DecodeIssueResponses(j.members["issues"].items).Ok?)
    ensures r.Ok? ==> |r.value.issues| == |j.members["issues"].items|
    ensures r.Ok? ==> forall i :: 0 <= i < |r.value.issues| ==>
      DecodeIssueResponse(j.members["issues"].items[i]) == Ok(r.value.issues[i])
  {
    if !j.Object? then Err(NotAnObject("IssueResponseList"))
    else if "issues" !in j.members then Err(MissingField("issues"))
    else if !j.members["issues"].Array? then Err(InvalidType("issues"))
    else
      var issues :- DecodeIssueResponses(j.members["issues"].items);
      Ok(IssueResponseList(issues))
  }

  /** The tolerant members never make decoding fail by being absent or
      null: an object with a string `summary`, a string-array `labels`,
      absent or null `description`, `assignee`, `reporter` and `status`,
      and absent `project` and `issuetype`, decodes to the sentinels. */
  lemma {:induction false} MissingMembersTakeDefaults(j: Json, summary: string, labels: seq<string>)
    requires Find(j, "summary") == Some(Str(summary))
    requires Find(j, "labels") == Some(Array(EncodeStrings(labels)))
    requires Missing(j, "description") && Missing(j, "assignee")
    requires Missing(j, "reporter") && Missing(j, "status")
    requires Find(j, "project").None? && Find(j, "issuetype").None?
    ensures DecodeIssueFields(j) == Ok(IssueFields(
      summary, "Unknown", UserFields("<unknown>", None), labels,
      ProjectFields("Unknown"), IssueTypeFields("Unknown"), None, None, map[]))
  {
    StringsRoundTrip(labels);
  }

  /** An issue whose assignee is absent or null is shown as assigned to
      `"Unknown"`. */
  lemma MissingAssigneeDisplaysUnknown(j: Json)
    requires DecodeIssueFields(j).Ok?
    requires Missing(j, "assignee")
    ensures DisplayName(DecodeIssueFields(j).value.assignee) == "Unknown"
  {
  }
}
