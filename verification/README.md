# oh-bother: a Dafny model of the tracker client's core

`oh-bother` is a command-line client for a Jira issue tracker. This
project models the pure logic between the tracker's JSON and the
terminal, and proves properties of it:

- **Wire schema** (`jira_data.dfy`, module `JiraData`): the serde-based
  request bodies (`JQLQuery`, `CreateIssueRequest`) and the
  tolerant decoding of `IssueFields`. An absent or null `assignee` becomes
  the sentinel user `<unknown>`. An absent or null `description` becomes
  `"Unknown"`. An absent `project` or `issuetype` becomes `"Unknown"`.
  `reporter` and `status` are read-only. The custom `extra` fields are
  write-only.
- **Issue normaliser and tables** (`issue.dfy`, module `Issues`):
  `Issue::from_data`, including the browse-URL derivation and its
  empty-string fallback. The deliberately reversed `issues_from_response`.
  `as_hash_map`, and the cell strings of `as_filtered_table`, `as_table`,
  `print_tty` and `Display`.
- **Older client** (`jira.dfy`, module `JiraClient`): the
  rustc_serialize-based request bodies and authorisation headers. How
  `query`, `issue` and `create_issue` turn replies into results, including
  `create_issue`'s follow-up fetch and its `Unexpected` error.
- **Command line** (`cli.dfy`, module `Cli`): the query strings and
  column lists of `list`, `current`, `next` and `jql`, and how `new` falls
  back to the configured defaults.
- Shared pieces: `common.dfy` (Option, Result, `join`, `rev`), `json.dfy`
  (a JSON tree with `find` / `find_path` / `as_string`) and `url.dfy` (the
  origin/path/rest view of a parsed URL and `set_path`).

Library and helper code that the core calls but does not define enters as
function-valued fields of two records:

- `Issues.Helpers` holds `util::extract_string`,
  `util::extract_string_array` and `Url::parse`.
- `JiraClient.Platform` holds those helpers plus four more. These are
  `Url::join`, rendering JSON to text (`json::encode`), the transport (the
  HTTP send and the body read) and `Json::from_str`.

Nothing is assumed about these parameters. Every property holds for all of
them. Each client operation returns its outcome together with the requests
it sent, in order. The outcome is a value, a `JiraError`, or a panic.

`jira.rs` and `jira_data.rs` define two request schemas, so each file is
modelled as its own module. `jira.rs` has no `maxResults` and hard-codes
the issue type `Bug`. `jira_data.rs` has both a `maxResults` and an
issue-type argument. `main.rs` calls `util::perform_query`,
`config.projects()` and `config.defaults`, which `util.rs` and `config.rs`
do not define. The model takes their results as plain parameters: the
project list string, the placeholder-user string and the defaults record.

Three behaviours of the code are worth stating plainly, and the model
follows the code in each:

- `query` answers `Ok(None)` for a reply without an `issues` array. It
  does not report a decode error.
- The key of a normalised issue is whatever `extract_string` returns.
  Nothing enforces that it is non-empty.
- `IssueVec` has no `get` or `is_empty` methods.

## Model

| member | source | states |
|---|---|---|
| JiraData.NewJqlQuery | src/jira_data.rs:29-42 | the query text is kept, the fields are exactly summary, status, assignee, reporter, labels in that order, and the page size is 200 |
| JiraData.NewJqlQueryWire | src/jira_data.rs:21-42 | the search body on the wire is `{jql, fields:[5 names], maxResults: 200}` and has no other members |
| JiraData.JqlQueryRoundTrip | src/jira_data.rs:21-27 | decoding an encoded `JQLQuery` gives back the same query, for every query |
| JiraData.DisplayName | src/jira_data.rs:130-137 | a user's display name is its `displayName` when present, else `"Unknown"` |
| JiraData.DecodeUserFields | src/jira_data.rs:123-128 | a user object decodes exactly when `name` is a string and `displayName` is a string, null or absent; `displayName` is `None` exactly when it is null or absent |
| JiraData.NullableUserFields | src/jira_data.rs:80-95 | null becomes the sentinel user `{name: "<unknown>", displayName: None}`; any other value is decoded as a user object |
| JiraData.NullableDescription | src/jira_data.rs:97-109 | null becomes `"Unknown"`, a string passes through, and anything else is an error |
| JiraData.DecodeIssueFields | src/jira_data.rs:67-121 | decoding succeeds exactly when `IssueFieldsAccepted` holds: `summary` is a string and `labels` a string array; `description` and `assignee` are absent, null or well-formed; `project` and `issuetype` are absent or well-formed, and null is an error; `reporter` and `status` are absent, null or well-formed. An absent/null assignee gives the sentinel user. An absent/null description gives `"Unknown"`. An absent project/issuetype gives `"Unknown"`. Each present member decodes to the matching field. Reporter/status are `None` exactly when absent or null. `extra` is always empty |
| JiraData.MissingMembersTakeDefaults | src/jira_data.rs:70-121 | an object with only a string `summary` and a string-array `labels`, where every tolerated member is absent or null, decodes successfully to all the sentinels: description `"Unknown"`, assignee `<unknown>`, project and issue type `"Unknown"`, no reporter or status |
| JiraData.EncodeIssueFields | src/jira_data.rs:67-78 | the six declared writable members plus the `extra` keys are written; `reporter` and `status` appear only if an `extra` key has that name; the assignee object never carries `displayName`; each `extra` value is written as `{id}` |
| JiraData.IssueFieldsRoundTrip | src/jira_data.rs:67-78 | if no custom key shadows a declared member, decoding the encoding gives the value minus `extra`, reporter, status and the assignee's display name |
| JiraData.NewCreateIssueRequest | src/jira_data.rs:159-189 | project key, issue type, summary, description, assignee and labels are copied verbatim; displayName, reporter and status are `None`; `extra` has exactly the input's keys, each value `v` becoming `{id: v}` |
| JiraData.CreateIssueRequestRoundTrip | src/jira_data.rs:45-48 | a built create request reads back as itself with an empty `extra`, when no custom key shadows a declared member |
| JiraData.DecodeIssueResponse | src/jira_data.rs:55-60 | an issue response decodes exactly when it is an object whose `fields` decode as issue fields and whose `key` and `self` are strings; the result holds those fields, that key, and the `self` member as its self URL |
| JiraData.DecodeIssueResponses | src/jira_data.rs:55-65 | a list of issue responses decodes exactly when every element does; order and length are kept |
| JiraData.DecodeIssueResponseList | src/jira_data.rs:62-65 | a response list decodes exactly when it is an object whose `issues` member is an array of decodable issue responses; the result keeps the array's length and order |
| JiraData.MissingAssigneeDisplaysUnknown | src/jira_data.rs:71-95 | an issue whose assignee is absent or null shows `"Unknown"` as its assignee's display name |
| Issues.BrowseUrl | src/issue.rs:37-43 | the browse URL is `""` exactly when the self link does not parse; otherwise it is the self link's origin, then `/browse/<key>`, then the self link's query and fragment |
| Issues.FromData | src/issue.rs:34-54 | key, self, summary, status, assignee, reporter and labels are read from the paths `key`, `self`, `fields.summary`, `fields.status.name`, `fields.assignee.displayName`, `fields.reporter.displayName` and `fields.labels`; the browse URL is derived as above; it never fails |
| Issues.FromDataReversed | src/issue.rs:59-64 | the result has the input's length and element i is the normalised input element n-1-i |
| Issues.IssuesFromResponse | src/issue.rs:56-69 | the result is `None` exactly when `issues` is missing or not an array; otherwise it has the array's length and element i is the normalised element n-1-i (so an empty array gives an empty list) |
| Issues.FromDataReversedIsReverseThenMap | src/issue.rs:59-64 | the reversed normalisation equals reversing the raw list and then normalising each element |
| Issues.AsHashMap | src/issue.rs:71-83 | the map has exactly the eight keys self_url, key, summary, status, assignee, reporter, labels, browse_url |
| Issues.HashMapMatchesColumns | src/issue.rs:71-83 | each map entry equals the matching field of the issue, and `labels` maps to the labels joined with `", "` |
| Issues.HashMapLossless | src/issue.rs:71-83 | two issues with the same map agree on every field except the labels, and their labels have the same joined form |
| Issues.Row | src/issue.rs:143-156 | a data row has one cell per requested column; a column the issue offers shows that field, and any other column shows `"<key missing>"` |
| Issues.FilteredTable | src/issue.rs:126-158 | the title row equals the requested columns; there is one data row per issue in list order; each row has one cell per column, with the content stated for `Row` |
| Issues.AsTable | src/issue.rs:121-124 | the unfiltered table's titles are key, reporter, assignee, status, summary, labels; there is one row per issue in list order, and row k shows exactly those fields of issue k, with the labels joined by `", "` |
| Issues.TtyRows | src/issue.rs:94-107 | the single-issue view has rows Summary, Url, Key, Status, Reporter, Assignee in that order, and a seventh row Labels exactly when there are labels |
| Issues.TtyRowsAgreeWithHashMap | src/issue.rs:94-107 | each row of the single-issue view shows the same string as the table column of the same field |
| Issues.Display | src/issue.rs:22-31 | the one-line form is `<key>: `, then the summary, then ` assigned: `, then the assignee, then ` status: <status>`; each segment sits at the position its predecessors' lengths fix, and the total length is the four fields' lengths plus the 22 characters of the separators |
| Issues.DisplayKeyRecoverable | src/issue.rs:22-31 | in the one-line form `<key>: <summary> assigned: <assignee> status: <status>`, a key without a colon is exactly the text before the first colon |
| JiraClient.NewJqlQuery | src/jira.rs:23-34 | the query text is kept and the fields are exactly summary, status, assignee, reporter, labels in that order; there is no page size |
| JiraClient.NewJqlQueryWire | src/jira.rs:17-34 | the search body on the wire is `{jql, fields:[summary, status, assignee, reporter, labels]}` and has no other members, so no page size is sent |
| JiraClient.JqlQueryRoundTrip | src/jira.rs:17-21 | decoding an encoded query gives back the same query |
| JiraClient.NewCreateIssueRequest | src/jira.rs:66-78 | project key, summary, assignee and labels are copied, and the issue type is always `Bug` |
| JiraClient.CreateIssueRequestRoundTrip | src/jira.rs:37-64 | a built create request survives encoding and decoding unchanged |
| JiraClient.NewAuthedClient | src/jira.rs:86-96 | the headers are exactly `Authorization: Basic <auth>` and `Content-Type: application/json; charset=utf-8` |
| JiraClient.GetRequest | src/jira.rs:102-104 | a GET request goes to the given URL with no body and a copy of the client's headers |
| JiraClient.PostRequest | src/jira.rs:98-100 | a POST request goes to the given URL with the given body and a copy of the client's headers |
| JiraClient.NewJira | src/jira.rs:174-180 | client construction fails with `ParseError` exactly when the base URL does not parse; otherwise it holds the parsed URL and the client built from the token |
| JiraClient.Exchange | src/jira.rs:119-153 | a send failure becomes `RequestError`, a read failure `IoError`, and a JSON parse failure `BuilderError`; otherwise the result is the body text and its parse |
| JiraClient.Query | src/jira.rs:182-191 | a join failure is a `ParseError` with nothing sent; a render failure is an `EncoderError` with nothing sent; otherwise exactly one POST of the 5-field search body goes to `rest/api/2/search`; a failed exchange is passed on; a successful one gives `Ok(issues_from_response(data))`; every request sent carries the client's headers; it never panics |
| JiraClient.QueryWithoutIssuesIsNone | src/jira.rs:189-190 | a parsed search reply without an `issues` member gives a successful `None`, not an error |
| JiraClient.ExchangeFailureNamesStep | src/jira.rs:119-153 | in both directions, `RequestError` means the request was not sent, `IoError` that the body could not be read, and `BuilderError` that the body is not JSON; an exchange never reports any other variant |
| JiraClient.QueryFailureNamesStep | src/jira.rs:182-191 | in both directions, `query` fails with `ParseError` exactly when the URL join fails and with `EncoderError` exactly when rendering fails. It fails with `RequestError`, `IoError` or `BuilderError` exactly when the transport or JSON parse fails on the search POST. It never fails with `Unexpected` |
| JiraClient.GetIssue | src/jira.rs:219-226 | a URL join failure is a `ParseError` with nothing sent; otherwise exactly one GET is sent, to `rest/api/2/issue/<key>`, carrying the client's headers; a parsed reply always gives `Ok(Some(from_data(data)))` and never `Ok(None)`; failures are passed on |
| JiraClient.GetIssueFailureNamesStep | src/jira.rs:219-226 | in both directions, `issue` fails with `ParseError` exactly when the URL join fails. It fails with `RequestError`, `IoError` or `BuilderError` exactly when the transport or JSON parse fails on the GET. It succeeds exactly when the reply parses. It never reports `EncoderError` or `Unexpected` |
| JiraClient.CreateIssue | src/jira.rs:193-217 | a URL join failure is a `ParseError` and a render failure an `EncoderError`, both with nothing sent. Otherwise the create body is POSTed to `rest/api/2/issue`. A reply without `key` gives `Unexpected("Jira response did not contain new issue key: " + body)` with no further request. A string key `k` gives exactly the result and requests of `issue(k)`. A non-string key panics. Every request carries the client's headers. Success always takes exactly two requests, the second a GET |
| JiraClient.CreateIssueFollowsUpOnce | src/jira.rs:210-212 | for a reply carrying key `k`, when the URL `rest/api/2/issue/<k>` can be joined to the base URL, exactly one follow-up GET of that URL is sent, and the result is that of `issue(k)` |
| JiraClient.CreateIssueFailureNamesStep | src/jira.rs:193-217 | in both directions: a failure with nothing sent is a `ParseError` exactly when the URL join fails. `EncoderError` means exactly that the body could not be rendered. `Unexpected` means exactly that the parsed reply has no `key`. A panic means exactly that `key` is present but not a string |
| JiraClient.NewJiraAddressesRequests | src/jira.rs:174-226 | a client built by `Jira::new` sends every search and fetch with `Authorization: Basic <auth>`, to the parsed base URL joined with `rest/api/2/search` or `rest/api/2/issue/<key>` |
| Cli.List | src/main.rs:135-142 | the query is `project in (P) AND status not in (Resolved, Closed)` and the columns are key, reporter, assignee, status, summary |
| Cli.Current | src/main.rs:144-152 | the query is `project in (P) AND assignee = U AND status not in (Resolved, Closed)` and the columns are key, reporter, status, summary |
| Cli.Next | src/main.rs:154-162 | the query is `project in (P) AND status = Open AND assignee in (N)` and the columns are key, reporter, summary |
| Cli.Jql | src/main.rs:203-217 | the user's query is used verbatim; with `url` the columns are key and browse_url, otherwise they are the unfiltered table's columns |
| Cli.ListQueryRoundTrip | src/main.rs:136-139 | the project list can be read back from the `list` query |
| Cli.NextQueryRoundTrip | src/main.rs:154-160 | given the project list, the placeholder-user list can be read back from the `next` query |
| Cli.CurrentRefinesList | src/main.rs:136-150 | the `current` query is the `list` query with ` AND assignee = U` inserted before the status clause, and its columns are `list`'s without assignee |
| Cli.ListingsShareProjectClause | src/main.rs:135-161 | all three listing queries begin with the clause `project in (P)` |
| Cli.ListingColumnsAreOffered | src/main.rs:123-161 | every column that `list`, `current`, `next` or `jql` requests is one an issue offers, so every cell of their tables shows the issue's field |
| Cli.JqlTableIsAsTable | src/main.rs:211-217 | without `url`, `jql` renders exactly the unfiltered table |
| Cli.PlanNew | src/main.rs:164-189 | project and assignee fall back to the defaults only when absent; given labels replace the defaults; description is `""` unless given; with `long_description` the editor's text replaces it, and an editor failure ends the command with its message |
| Cli.NewIgnoresDefaultsWhenGiven | src/main.rs:170-181 | when project, assignee and labels are all given, the configured defaults do not affect the result, so labels are not merged |
| Cli.EditorOverridesDescription | src/main.rs:183-189 | with `long_description`, any `--description` text is discarded and the editor's text is used |

## Left out

- HTTP transport (hyper `Client`, `send`, `read_to_string`), and the debug `println!` of the create body. These are network I/O and output. The transport is the `Platform.transport` parameter. Each operation reports the requests it sends.
- JSON text: `Json::from_str`, `json::encode` and the serde/rustc_serialize derive machinery. These are library code. The model works on a JSON tree. Text rendering and parsing are the `render` and `parseJson` parameters.
- JSON numbers are integers only. Floating-point numbers are not modelled.
- JSON objects are maps, so duplicate member names and member order are not modelled.
- serde can also decode a struct from a JSON array in field order. That form is not modelled, and such input decodes as an error here.
- When several members are wrong, which decode error serde reports is not modelled. Only whether decoding fails is stated.
- JiraData.EncodeIssueFields: the flattened `extra` entries follow `serde_json::to_value` semantics, where a custom key equal to a declared member replaces it. `to_string` would instead write both members.
- URL handling (`Url::parse`, `join`, `into_string`) is library code. Parsing and joining are parameters. `set_path` is modelled for hierarchical `http`/`https` URLs only, without percent-encoding or dot-segment handling.
- Issues.FromData: `util::extract_string` and `util::extract_string_array` are not part of this model. The contract states which paths are read, not what is found there. So what a missing path reads as is not stated at this level.
- Table rendering (prettytable formats, padding, separators, colour and the printing in `print_tty` and `Display for IssueVec`) is output formatting. Only the cell strings are modelled.
- JiraClient.BrowseUrlFor is modelled without a contract. It is a single call of the library's URL join and promises nothing beyond it.
- `JiraError`'s `Display` only forwards to the library errors' own text, so it is not modelled.
- `AuthRequest`, `AuthResponse` and `Session` in `src/jira_data.rs` are plain required-field records. The login handshake that would use them is not part of this model.
- `src/config.rs` is not modelled: YAML and file I/O, interactive prompts, base64 encoding and the config template.
- `src/error.rs` (the `error_chain!` macro and `UnwrapOrExit`) and `util::exit` are not modelled. They are macros and process termination.
- CLI glue in `src/main.rs` is not modelled. This covers clap parsing, the home directory, subcommand dispatch, printing and browser opening. The editor prompt enters `Cli.PlanNew` as its result parameter.
- `util::perform_query`, `util::render_issues`, `util::prompt_for_issue`, `util::open_in_browser`, `config.projects()` and `config.npc_users()` are not part of this model. Their results are parameters.
- The `start`, `stop` and `close` subcommands only print "not implemented".
