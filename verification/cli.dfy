/** The command-line layer's own decisions: the query string and the
    columns of each listing command, and how `new` fills in missing
    arguments from the configured defaults. Argument parsing, the
    editor, the browser and printing are outside the model. */
module Cli {
  import opened Common
  import opened Issues

  /** What a listing command runs and shows. */
  datatype Listing = Listing(query: string, columns: seq<string>)

  /** The clause selecting the configured projects. */
  function ProjectClause(projects: string): string
  {
    "project in (" + projects + ")"
  }

  /** The condition selecting issues that are still open. */
  const Unresolved: string := " AND status not in (Resolved, Closed)"

  /** `list`: open issues of the configured projects. */
  function List(projects: string): (r: Listing)
    ensures r.query == "project in (" + projects + ")" + " AND status not in (Resolved, Closed)"
    ensures r.columns == ["key", "reporter", "assignee", "status", "summary"]
  {
    Listing(ProjectClause(projects) + Unresolved, ["key", "reporter", "assignee", "status", "summary"])
  }

  /** `current`: open issues of the configured projects assigned to the
      configured user. */
  function Current(projects: string, username: string): (r: Listing)
    ensures r.query == "project in (" + projects + ")" + " AND assignee = " + username + " AND status not in (Resolved, Closed)"
    ensures r.columns == ["key", "reporter", "status", "summary"]
  {
    Listing(ProjectClause(projects) + " AND assignee = " + username + Unresolved, ["key", "reporter", "status", "summary"])
  }

  /** `next`: issues in status Open assigned to one of the placeholder
      users. */
  function Next(projects: string, npcUsers: string): (r: Listing)
    ensures r.query == "project in (" + projects + ")" + " AND status = Open AND assignee in (" + npcUsers + ")"
    ensures r.columns == ["key", "reporter", "summary"]
  {
    Listing(ProjectClause(projects) + " AND status = Open AND assignee in (" + npcUsers + ")", ["key", "reporter", "summary"])
  }

  /** `jql`: the user's query verbatim; only key and browse URL with the
      `url` flag, otherwise the unfiltered table's columns. */
  function Jql(query: string, url: bool): (r: Listing)
    ensures r.query == query
    ensures url ==> r.columns == ["key", "browse_url"]
    ensures !url ==> r.columns == ["key", "reporter", "assignee", "status", "summary", "labels"]
  {
    Listing(query, if url then ["key", "browse_url"] else DefaultColumns)
  }

  /** The project list a `list` query was built from. */
  function ProjectsOf(query: string): Option<string>
  {
    var prefix := "project in (";
    var suffix := ")" + Unresolved;
    if |prefix| + |suffix| <= |query| && StartsWith(query, prefix) && EndsWith(query, suffix)
    then Some(query[|prefix|..|query| - |suffix|])
    else None
  }

  /** The `list` query determines the project list it was built from. */
  lemma ListQueryRoundTrip(projects: string)
    ensures ProjectsOf(List(projects).query) == Some(projects)
  {
    var q := List(projects).query;
    var prefix := "project in (";
    var suffix := ")" + Unresolved;
    assert q == prefix + projects + suffix;
    assert q[..|prefix|] == prefix;
    assert q[|q| - |suffix|..] == suffix;
    assert q[|prefix|..|q| - |suffix|] == projects;
  }

  /** The placeholder-user list a `next` query for `projects` was built
      from. */
  function NpcUsersOf(projects: string, query: string): Option<string>
  {
    var prefix := ProjectClause(projects) + " AND status = Open AND assignee in (";
    if |prefix| + 1 <= |query| && StartsWith(query, prefix) && query[|query| - 1] == ')'
    then Some(query[|prefix|..|query| - 1])
    else None
  }

  /** The `next` query determines the placeholder-user list it was built
      from. */
  lemma NextQueryRoundTrip(projects: string, npcUsers: string)
    ensures NpcUsersOf(projects, Next(projects, npcUsers).query) == Some(npcUsers)
  {
  }


  /** `current` is `list` with the assignee condition inserted before the
      status condition, and without the assignee column. */
  lemma CurrentRefinesList(projects: string, username: string)
    ensures
      var l := List(projects).query;
      var cut := |l| - |Unresolved|;
      && 0 <= cut
      && l[cut..] == Unresolved
      && Current(projects, username).query == l[..cut] + " AND assignee = " + username + l[cut..]
    ensures Current(projects, username).columns == Without(List(projects).columns, "assignee")
  {
  }

  /** The elements of `xs` other than `x`, in order. */
  function Without(xs: seq<string>, x: string): seq<string>
  {
    if |xs| == 0 then []
    else if xs[0] == x then Without(xs[1..], x)
    else [xs[0]] + Without(xs[1..], x)
  }

  /** All three listing queries select the configured projects first. */
  lemma ListingsShareProjectClause(projects: string, username: string, npcUsers: string)
    ensures StartsWith(List(projects).query, ProjectClause(projects))
    ensures StartsWith(Current(projects, username).query, ProjectClause(projects))
    ensures StartsWith(Next(projects, npcUsers).query, ProjectClause(projects))
  {
  }

  /** Every column a command asks for is one an issue offers, so its
      tables never show the missing-key placeholder in place of a field. */
  lemma ListingColumnsAreOffered(l: Listing, v: IssueVec)
    requires l.columns in {
      List("").columns, Current("", "").columns, Next("", "").columns,
      Jql("", true).columns, Jql("", false).columns }
    ensures forall c :: c in l.columns ==> c in HashMapKeys
    ensures
      var t := FilteredTable(v, l.columns);
      forall k, j :: 0 <= k < |t.rows| && 0 <= j < |l.columns| ==>
        t.rows[k][j] == ColumnValue(v.issues[k], l.columns[j]).value
  {
  }

  /** Without the `url` flag, `jql` renders exactly the unfiltered table. */
  lemma JqlTableIsAsTable(query: string, v: IssueVec)
    ensures FilteredTable(v, Jql(query, false).columns) == AsTable(v)
  {
  }

  // ---------------------------------------------------------------------
  // new
  // ---------------------------------------------------------------------

  /** The arguments of `new` as parsed (`None` when not given). */
  datatype NewArgs = NewArgs(
    project: Option<string>,
    summary: string,
    assignee: Option<string>,
    labels: Option<seq<string>>,
    description: Option<string>,
    longDescription: bool
  )

  /** The configured defaults for new issues. */
  datatype CreateDefaults = CreateDefaults(projectKey: string, assignee: string, labels: seq<string>)

  /** The values `new` creates an issue with. */
  datatype NewIssue = NewIssue(project: string, summary: string, description: string, assignee: string, labels: seq<string>)

  /** The prefix of the message `new` exits with when the editor fails. */
  const EditorFailure: string := "Failed to get description from editor: "

  /** `new`: the values for the create call. Project and assignee fall
      back to the defaults only when not given; given labels replace the
      default labels; the description is empty unless given, and the
      editor's text replaces it with `long_description`. `editor` is what
      the editor prompt returns; it is consulted only with
      `long_description`, and its failure ends the command. */
  function PlanNew(args: NewArgs, defaults: CreateDefaults, editor: Result<string, string>): (r: Result<NewIssue, string>)
    ensures r.Err? <==> args.longDescription && editor.Err?
    ensures r.Err? ==> r.error == EditorFailure + editor.error
    ensures r.Ok? ==> r.value.summary == args.summary
    ensures r.Ok? ==> r.value.project == args.project.GetOr(defaults.projectKey)
    ensures r.Ok? ==> r.value.assignee == args.assignee.GetOr(defaults.assignee)
    ensures r.Ok? ==> r.value.labels == args.labels.GetOr(defaults.labels)
    ensures r.Ok? && args.longDescription ==> r.value.description == editor.value
    ensures r.Ok? && !args.longDescription ==> r.value.description == args.description.GetOr("")
  {
    var description := if args.description.Some? then args.description.value else "";
    var description :-
      if !args.longDescription then Ok(description)
      else match editor
        case Ok(text) => Ok(text)
        case Err(why) => Err(EditorFailure + why);
    Ok(NewIssue(
      if args.project.Some? then args.project.value else defaults.projectKey,
      args.summary,
      description,
      if args.assignee.Some? then args.assignee.value else defaults.assignee,
      match args.labels
      case Some(labels) => labels
      case None => defaults.labels))
  }

  /** Defaults matter only for what the command line leaves out: with
      project, assignee and labels all given, two configurations yield the
      same issue (given labels are not merged with the defaults). */
  lemma NewIgnoresDefaultsWhenGiven(args: NewArgs, d1: CreateDefaults, d2: CreateDefaults, editor: Result<string, string>)
    requires args.project.Some? && args.assignee.Some? && args.labels.Some?
    ensures PlanNew(args, d1, editor) == PlanNew(args, d2, editor)
  {
  }

  /** With `long_description`, the `--description` text is discarded. */
  lemma EditorOverridesDescription(args: NewArgs, defaults: CreateDefaults, text: string)
    requires args.longDescription
    ensures PlanNew(args, defaults, Ok(text)) == PlanNew(args.(description := None), defaults, Ok(text))
    ensures PlanNew(args, defaults, Ok(text)).value.description == text
  {
  }
}
