/** The issue normaliser and the tabular projection of issues: how one
    raw issue document becomes an `Issue`, how a search response becomes
    a (reversed) `IssueVec`, and which strings end up in the cells of the
    tables and of the single-issue view. */
module Issues {
  import opened Common
  import opened JsonValue
  import opened UrlModel

  /** Library and helper code the normaliser calls but whose source is
      not part of this model: `util::extract_string`,
      `util::extract_string_array` (both reading a value at a path of
      member names) and `Url::parse`. */
  datatype Helpers = Helpers(
    extractString: (Json, seq<string>) -> string,
    extractStringArray: (Json, seq<string>) -> seq<string>,
    parseUrl: string -> Result<Url, string>
  )

  /** The normalised issue: every field is a plain string (or list). */
  datatype Issue = Issue(
    selfUrl: string,
    key: string,
    summary: string,
    status: string,
    assignee: string,
    reporter: string,
    labels: seq<string>,
    browseUrl: string
  )

  /** An ordered list of issues. */
  datatype IssueVec = IssueVec(issues: seq<Issue>)

  /** The cell strings of a table: a title row and one row per item. */
  datatype Table = Table(titles: seq<string>, rows: seq<seq<string>>)

  // ---------------------------------------------------------------------
  // Normalisation
  // ---------------------------------------------------------------------

  /** The human-facing page of an issue: the self link with its path
      replaced by `browse/<key>`, or `""` when the self link does not
      parse. */
  function BrowseUrl(h: Helpers, selfUrl: string, key: string): (r: string)
    ensures r == "" <==> h.parseUrl(selfUrl).Err?
    ensures h.parseUrl(selfUrl).Ok? ==>
      var u := h.parseUrl(selfUrl).value;
      r == u.origin + "/" + "browse/" + key + u.rest
  {
    match h.parseUrl(selfUrl)
    case Ok(u) =>
      assert !StartsWith("browse/" + key, "/") by {
        assert ("browse/" + key)[0] == 'b';
      }
      Serialize(SetPath(u, "browse/" + key))
    case Err(_) => ""
  }

  /** `Issue::from_data`: never fails; reads each field at its path. */
  function FromData(h: Helpers, data: Json): (r: Issue)
    ensures r.key == h.extractString(data, ["key"])
    ensures r.selfUrl == h.extractString(data, ["self"])
    ensures r.summary == h.extractString(data, ["fields", "summary"])
    ensures r.status == h.extractString(data, ["fields", "status", "name"])
    ensures r.assignee == h.extractString(data, ["fields", "assignee", "displayName"])
    ensures r.reporter == h.extractString(data, ["fields", "reporter", "displayName"])
    ensures r.labels == h.extractStringArray(data, ["fields", "labels"])
    ensures r.browseUrl == "" <==> h.parseUrl(r.selfUrl).Err?
    ensures h.parseUrl(r.selfUrl).Ok? ==>
      var u := h.parseUrl(r.selfUrl).value;
      r.browseUrl == u.origin + "/" + "browse/" + r.key + u.rest
  {
    var key := h.extractString(data, ["key"]);
    var selfUrl := h.extractString(data, ["self"]);
    Issue(
      selfUrl,
      key,
      h.extractString(data, ["fields", "summary"]),
      h.extractString(data, ["fields", "status", "name"]),
      h.extractString(data, ["fields", "assignee", "displayName"]),
      h.extractString(data, ["fields", "reporter", "displayName"]),
      h.extractStringArray(data, ["fields", "labels"]),
      BrowseUrl(h, selfUrl, key))
  }

  /** The raw issues normalised, last raw issue first. */
  function FromDataReversed(h: Helpers, xs: seq<Json>): (r: seq<Issue>)
    ensures |r| == |xs|
    ensures forall i :: 0 <= i < |xs| ==> r[i] == FromData(h, xs[|xs| - 1 - i])
  {
    MapReversed(x => FromData(h, x), xs)
  }

  /** `Issue::issues_from_response`: nothing unless the document has an
      `issues` member holding an array; otherwise that array normalised
      and reversed (an empty array gives an empty list). */
  function IssuesFromResponse(h: Helpers, data: Json): (r: Option<IssueVec>)
    ensures r.None? <==> Find(data, "issues").None? || !Find(data, "issues").value.Array?
    ensures r.Some? ==>
      var raw := Find(data, "issues").value.items;
      && |r.value.issues| == |raw|
      && forall i :: 0 <= i < |raw| ==> r.value.issues[i] == FromData(h, raw[|raw| - 1 - i])
  {
    match Find(data, "issues")
    case Some(raw) =>
      if raw.Array? then Some(IssueVec(FromDataReversed(h, raw.items))) else None
    case None => None
  }

  /** The reversal is exactly "reverse, then normalise each". */
  lemma FromDataReversedIsReverseThenMap(h: Helpers, xs: seq<Json>)
    ensures FromDataReversed(h, xs) == seq(|xs|, i requires 0 <= i < |xs| => FromData(h, Reverse(xs)[i]))
  {
  }

  // ---------------------------------------------------------------------
  // Tabular projection
  // ---------------------------------------------------------------------

  /** The column names an issue offers. */
  const HashMapKeys: set<string> :=
    {"self_url", "key", "summary", "status", "assignee", "reporter", "labels", "browse_url"}

  /** The placeholder shown for a column an issue does not offer. */
  const KeyMissing: string := "<key missing>"

  /** The columns of the unfiltered table, in order. */
  const DefaultColumns: seq<string> := ["key", "reporter", "assignee", "status", "summary", "labels"]

  /** `Issue::as_hash_map`: one entry per field, labels joined by `", "`. */
  function AsHashMap(i: Issue): (m: map<string, string>)
    ensures m.Keys == HashMapKeys
  {
    map[
      "self_url" := i.selfUrl,
      "key" := i.key,
      "summary" := i.summary,
      "status" := i.status,
      "assignee" := i.assignee,
      "reporter" := i.reporter,
      "labels" := Join(i.labels, ", "),
      "browse_url" := i.browseUrl
    ]
  }

  /** The value shown in a column, field by field: a reference definition
      that the map-based projection is checked against. */
  function ColumnValue(i: Issue, name: string): Option<string>
  {
    if name == "self_url" then Some(i.selfUrl)
    else if name == "key" then Some(i.key)
    else if name == "summary" then Some(i.summary)
    else if name == "status" then Some(i.status)
    else if name == "assignee" then Some(i.assignee)
    else if name == "reporter" then Some(i.reporter)
    else if name == "labels" then Some(Join(i.labels, ", "))
    else if name == "browse_url" then Some(i.browseUrl)
    else None
  }

  /** The map holds exactly the columns the reference offers, with the
      same values. */
  lemma HashMapMatchesColumns(i: Issue)
    ensures forall name :: name in AsHashMap(i) <==> ColumnValue(i, name).Some?
    ensures forall name :: name in AsHashMap(i) ==> AsHashMap(i)[name] == ColumnValue(i, name).value
  {
  }

  /** The scalar fields can be read back from the map; the labels only up
      to their joined form. */
  lemma HashMapLossless(a: Issue, b: Issue)
    requires AsHashMap(a) == AsHashMap(b)
    ensures a.(labels := b.labels) == b
    ensures Join(a.labels, ", ") == Join(b.labels, ", ")
  {
  }

  function Lookup(m: map<string, string>, name: string): string
  {
    if name in m then m[name] else KeyMissing
  }

  /** One data row of `as_filtered_table`: a cell per requested column. */
  function Row(i: Issue, fields: seq<string>): (r: seq<string>)
    ensures |r| == |fields|
    ensures forall j :: 0 <= j < |fields| ==> r[j] == ColumnValue(i, fields[j]).GetOr(KeyMissing)
  {
    var m := AsHashMap(i);
    HashMapMatchesColumns(i);
    seq(|fields|, j requires 0 <= j < |fields| => Lookup(m, fields[j]))
  }

  /** `IssueVec::as_filtered_table`: the requested columns as titles and
      one row per issue, in list order. */
  function FilteredTable(v: IssueVec, fields: seq<string>): (t: Table)
    ensures t.titles == fields
    ensures |t.rows| == |v.issues|
    ensures forall k :: 0 <= k < |t.rows| ==> |t.rows[k]| == |fields|
    ensures forall k, j :: 0 <= k < |t.rows| && 0 <= j < |fields| ==>
      t.rows[k][j] == ColumnValue(v.issues[k], fields[j]).GetOr(KeyMissing)
  {
    Table(fields, seq(|v.issues|, k requires 0 <= k < |v.issues| => Row(v.issues[k], fields)))
  }

  /** `IssueVec::as_table`: the unfiltered table shows key, reporter,
      assignee, status, summary and the joined labels of each issue. */
  function AsTable(v: IssueVec): (t: Table)
    ensures t.titles == ["key", "reporter", "assignee", "status", "summary", "labels"]
    ensures |t.rows| == |v.issues|
    ensures forall k :: 0 <= k < |v.issues| ==>
      var i := v.issues[k];
      t.rows[k] == [i.key, i.reporter, i.assignee, i.status, i.summary, Join(i.labels, ", ")]
  {
    FilteredTable(v, DefaultColumns)
  }

  // ---------------------------------------------------------------------
  // Single-issue view and one-line form
  // ---------------------------------------------------------------------

  /** The fields `print_tty` shows, in order; `labels` only when there
      are labels. */
  function TtyColumns(i: Issue): seq<string>
  {
    ["summary", "browse_url", "key", "status", "reporter", "assignee"]
      + (if |i.labels| == 0 then [] else ["labels"])
  }

  /** The rows of `Issue::print_tty`: a caption and a value each. */
  function TtyRows(i: Issue): (r: seq<seq<string>>)
    ensures |r| == (if |i.labels| == 0 then 6 else 7)
    ensures forall k :: 0 <= k < |r| ==> |r[k]| == 2
    ensures r[0][0] == "Summary" && r[1][0] == "Url" && r[2][0] == "Key"
    ensures r[3][0] == "Status" && r[4][0] == "Reporter" && r[5][0] == "Assignee"
    ensures |r| == 7 ==> r[6][0] == "Labels"
  {
    [["Summary", i.summary], ["Url", i.browseUrl], ["Key", i.key], ["Status", i.status],
     ["Reporter", i.reporter], ["Assignee", i.assignee]]
      + (if |i.labels| == 0 then [] else [["Labels", Join(i.labels, ", ")]])
  }

  /** The single-issue view shows the same strings as the table columns
      of the same names. */
  lemma TtyRowsAgreeWithHashMap(i: Issue)
    ensures |TtyRows(i)| == |TtyColumns(i)|
    ensures forall k :: 0 <= k < |TtyRows(i)| ==>
      TtyColumns(i)[k] in AsHashMap(i) && TtyRows(i)[k][1] == AsHashMap(i)[TtyColumns(i)[k]]
  {
  }

  /** `Display for Issue`: `"<key>: <summary> assigned: <assignee> status: <status>"`. */
  function Display(i: Issue): (r: string)
    ensures StartsWith(r, i.key + ": ")
    ensures EndsWith(r, " status: " + i.status)
    ensures |r| == |i.key| + |i.summary| + |i.assignee| + |i.status| + 22
    ensures r[|i.key| + 2 .. |i.key| + 2 + |i.summary|] == i.summary
    ensures r[|i.key| + 2 + |i.summary| .. |i.key| + 13 + |i.summary|] == " assigned: "
    ensures r[|i.key| + 13 + |i.summary| .. |i.key| + 13 + |i.summary| + |i.assignee|] == i.assignee
  {
    var head := i.key + ": ";
    var middle := i.summary + " assigned: " + i.assignee;
    var r := head + middle + (" status: " + i.status);
    assert r[|head| .. |head| + |middle|] == middle;
    assert middle[..|i.summary|] == i.summary;
    assert middle[|i.summary| .. |i.summary| + 11] == " assigned: ";
    assert middle[|i.summary| + 11 ..] == i.assignee;
    r
  }

  /** The text before the first `:`. */
  function UpToColon(s: string): string
  {
    if |s| == 0 || s[0] == ':' then "" else [s[0]] + UpToColon(s[1..])
  }

  lemma {:induction false} UpToColonOfPrefix(a: string, b: string)
    requires ':' !in a
    requires |b| > 0 && b[0] == ':'
    ensures UpToColon(a + b) == a
    decreases |a|
  {
    if |a| == 0 {
      assert a + b == b;
    } else {
      assert (a + b)[1..] == a[1..] + b;
      UpToColonOfPrefix(a[1..], b);
    }
  }

  /** A key without a colon can be read back from the one-line form. */
  lemma DisplayKeyRecoverable(i: Issue)
    requires ':' !in i.key
    ensures UpToColon(Display(i)) == i.key
  {
    var tail := ": " + i.summary + " assigned: " + i.assignee + " status: " + i.status;
    assert Display(i) == i.key + tail;
    UpToColonOfPrefix(i.key, tail);
  }
}
