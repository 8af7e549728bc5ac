# HANA monitoring dashboard: a Dafny model of its JSON envelope

The dashboard is a small Flask server (`app.py`) and one browser script
(`static/js/script.js`). They talk to each other in JSON. The server asks an
SAP HANA database for a few key performance indicators (KPIs), runs ad-hoc
scripts, lists sessions and tables, keeps a history of samples and runs a
two-query health check. The browser turns each response into widgets and
table rows.

This project models the decision and serialisation logic on both sides of
that envelope and proves its properties.

**Server side:**

- the KPI record with its `N/A` and `Error` placeholders;
- the rule that decides whether a sample is logged;
- the SELECT-or-command classification of a script, and its response;
- the `dict(zip(columns, row))` records;
- the health-check report;
- the three parallel history lists.

**Browser side:**

- the results panel and its table builder;
- the dashboard gauges;
- the session, table and health-check rows;
- the kill action.

**How the model treats the database and the page.**

- The database is an oracle. Each query is an input datatype that says what the driver did: it raised an `HdbError`, or it returned these rows. These are `Fetch`/`Probe`, `Execution`, `Query` and `CheckOutcome`.
- Numbers stay opaque. A float is carried by the text JavaScript shows for it (`Json.Value.Float`), and the CPU percentage is an input. `decimal.Decimal` and `datetime` values are `Opaque`: jsonify writes them as strings.
- Every JSON value is a `Json.Value`. The model spells out both languages' rules for them: Python's `isinstance(v, (int, float))` (which admits `bool`) and its truthiness; JavaScript's truthiness, `===`, `String(v)` and the `textContent` setter.
- The page is values. A widget is a record of text, width and danger flag (`ClientDashboard.Gauge`). A table body is a sequence of rows and cells (`ClientLists.Listing`). The result table is a `Grid` plus the HTML string the loops build.
- DOM mutation stays imperative:
  - the dashboard is a class whose method updates its fields;
  - the results panel is a class that `ExecuteHanaScript` and `KillSession` modify;
  - every `forEach` / `for` loop that appends is a method with a loop, proved against a function.

| file | module | models |
|---|---|---|
| json.dfy | `Json`, `Wire` | values, the two languages' views of them, the JSON bodies |
| rows.dfy | `Rows` | `dict(zip(columns, row))` |
| server_kpis.dfy | `ServerKpis` | `get_hana_kpis`, `log_kpi_job` |
| server_script.dfy | `ServerScript` | `execute_script` |
| server_lists.dfy | `ServerLists` | `api_sessions`, `api_tables`, `api_historical_kpis`, `api_health_check` |
| client_panel.dfy | `ClientPanel` | `executeHanaScript`, `killSession` |
| client_dashboard.dfy | `ClientDashboard` | `updateDashboardUI` |
| client_lists.dfy | `ClientLists` | `loadSessions`, `loadTables`, the health-check rows |
| end_to_end.dfy | `EndToEnd` | each server body fed to the browser code that reads it |

**Where the code decides.** In these places the code behaves in ways that
are easy to miss, and the model follows the code:

- `if (result.rows)` tests whether `rows` is present. An empty array is truthy, so a SELECT that finds nothing renders a table with only its header. The success alert appears only for a command, whose response has no `rows`.
- `loadTables` has no "none found" row. An empty table list leaves the body empty, unlike the sessions page.
- The memory query's `[NULL, …]` row keeps the `N/A` default, but the session count falls back to `N/A` only on an empty result. A `[NULL]` count row gives `null`, which the counter shows as blank.
- `dict(zip(...))` keeps the last value when two columns share a name, and stops at the shorter of the two lists.

## Model

| member | source | states |
|---|---|---|
| `Json.Js` | app.py:151 | after the JSON round trip an Opaque value becomes the string jsonify writes, every other value is unchanged, and truthiness is kept (integers taken within ±2^53, see Left out) |
| `Json.Truthy` | static/js/script.js:152 | a truthy value is neither null nor undefined; a string is truthy iff it is not empty, an integer iff it does not show as 0 |
| `Json.Show` | static/js/script.js:32 | `String(v)`: a string shows as itself, a float or an Opaque value as its text, an integer as digits that read back as it, after a minus sign when negative |
| `Json.IntToString` | app.py:167 | the text of an integer is its decimal digits reading back as it, after a minus sign when negative |
| `Json.TextContent` | static/js/script.js:106 | the `textContent` setter shows null and undefined as empty text, anything else as `String(v)` |
| `Json.NatToString` | app.py:167 | the decimal text of a count is non-empty, all digits, without a leading zero |
| `Json.NatToStringRoundTrip` | app.py:167 | reading the digits back gives the number, so no two counts print alike |
| `Rows.Zip` | app.py:163 | the record's keys are the column names of the first min(#columns, #values) positions |
| `Rows.Records` | app.py:163 | one record per cursor row, in the cursor's order, each the zip of that row |
| `Rows.ZipLast` | app.py:163 | the value stored under a name is the one at the last position carrying that name |
| `Rows.ZipDistinct` | app.py:162-163 | with distinct column names, record[columns[j]] is the row's j-th value |
| `Rows.RecordKeys` | app.py:162-163 | a full-width row's record has exactly the column names as keys |
| `Rows.DuplicateColumnLosesValue` | app.py:163 | two columns named alike keep only the later value |
| `ServerKpis.KpiRecord` | app.py:56-108 | error is set iff no connection, no cursor or a failing cursor close, with the source's texts; without a probe every metric stays N/A; cpu_usage is Error iff its query raised, N/A iff nothing came back, else the value read; memory and sessions are Error when theirs raised, N/A when nothing came back, else the value read |
| `ServerKpis.ShouldLog` | app.py:116 | a sample is logged only when error is absent or empty, and cpu_usage and memory used are numbers, never strings |
| `ServerKpis.GetHanaKpis` | app.py:54-108 | the field-by-field updates give the record KpiRecord describes; no error means the probe connected and every step ran |
| `ServerKpis.NoConnectionKeepsDefaults` | app.py:56-65 | without a connection error is set and every metric stays N/A |
| `ServerKpis.CpuFailureIsolated` | app.py:80-82 | a raising CPU query sets only cpu_usage to Error, whatever the query would otherwise have given |
| `ServerKpis.MemoryFailureIsolated` | app.py:90-92 | a raising memory query sets both used and total to Error and changes nothing else |
| `ServerKpis.SessionsFailureIsolated` | app.py:100-102 | a raising session query sets only active_sessions to Error |
| `ServerKpis.MissingValuesKeepDefaults` | app.py:70-99 | no row or a null first value keeps CPU and memory at N/A; only an empty result keeps the session count at N/A, and a `[NULL]` row gives null |
| `ServerKpis.LogKpiJob` | app.py:116-122 | a sample is stored exactly when error is falsy and both metrics are Python numbers, holding those two numbers |
| `ServerKpis.PlaceholdersNeverLogged` | app.py:116 | a record with a placeholder in either metric is never stored |
| `ServerKpis.LoggedOnlyAfterCleanProbe` | app.py:54-122 | a stored sample comes from a probe whose connection, cursor, CPU and memory queries all succeeded with a value, and whose memory value was a number |
| `ServerScript.LStrip` | app.py:161 | strips exactly the leading Python white space: what is removed is white space, what remains is a suffix not starting with it |
| `ServerScript.RStrip` | app.py:161 | strips exactly the trailing Python white space and keeps a prefix |
| `ServerScript.Strip` | app.py:161 | the result is the part of the script between its leading and trailing white space, and starts and ends with something else |
| `ServerScript.IsQuery` | app.py:161 | a query iff the stripped script has six or more characters and its first six upper-case to SELECT |
| `ServerScript.Upper` | app.py:161 | same length, each character upper-cased on its own |
| `ServerScript.SpaceIsNotALetter` | app.py:161 | upper-casing leaves white space unchanged, and no white space is a letter of SELECT |
| `ServerScript.RStripKeepsSelect` | app.py:161 | a text whose upper-cased form starts with SELECT still does after its trailing space is trimmed |
| `ServerScript.IsQueryByLeadingText` | app.py:161 | a script is a query iff its text after the leading white space upper-cases to something starting with SELECT |
| `ServerScript.LStripSkips` | app.py:161 | stripping removes exactly the white space before the first other character |
| `ServerScript.CommandByFirstLetter` | app.py:161 | a script whose first non-blank character is no form of s is a command |
| `ServerScript.ExecuteScript` | app.py:153-169 | the envelope is well formed; no success key iff no connection; status 200 iff success; rows present iff the script ran and is a query, holding the zipped rows; otherwise the "n rows affected." message or the "Execution failed: " error |
| `ServerLists.ListEndpoint` | app.py:171-196 | an error body with status 500 iff no connection or the query raised, with the fixed or prefixed text, never empty; otherwise status 200 and one zipped record per row, in order |
| `ServerLists.ApiSessions` | app.py:171-183 | the no-connection error and the "Failed to fetch sessions: " error with status 500, else status 200 and the zipped records |
| `ServerLists.ApiTables` | app.py:185-196 | the no-connection error and the "Failed to fetch tables: " error with status 500, else status 200 and the zipped records |
| `ServerLists.TwoDigits` | app.py:203 | two decimal digits reading back as the number |
| `ServerLists.Label` | app.py:203 | `%H:%M` is five characters, a colon in the middle, digits reading back as the hour and the minute |
| `ServerLists.HistoricalKpis` | app.py:202-206 | labels, cpu and memory have the length of the data and position i of each comes from row i |
| `ServerLists.HistoricalExtends` | app.py:201-205 | the series of a concatenated history is the concatenation of the series, list by list |
| `ServerLists.CheckEntry` | app.py:219-228 | Error iff the query raised, Warning iff it returned rows (details give the count and the first row), OK iff it returned none |
| `ServerLists.RunChecks` | app.py:218-228 | one entry per check, in check order, each the entry for that check's outcome |
| `ServerLists.ApiHealthCheck` | app.py:208-230 | the single Connection error without a connection, else the report of the checks in order; every status is OK, Warning or Error |
| `ClientPanel.Tabulate` | static/js/script.js:26-35 | the header is the columns in order; one body row per record in order; cell (i, j) is `String(rows[i][columns[j]])` |
| `ClientPanel.Cells` | static/js/script.js:28 | a non-empty list of cells is at least one open and close tag long and ends with the closing tag |
| `ClientPanel.BodyRows` | static/js/script.js:30-34 | a non-empty body ends with `</tr>` and is at least an empty `<tr></tr>` long |
| `ClientPanel.Markup` | static/js/script.js:27-35 | a table's markup starts with the table opening and ends with the table closing, around the header and body |
| `ClientPanel.Throws` | static/js/script.js:26-28 | the table branch throws exactly on a success with rows but no columns, which is never a well-formed envelope |
| `ClientPanel.BuildHeader` | static/js/script.js:28 | the header loop's string is one `<th>` cell per column, in order |
| `ClientPanel.BuildRow` | static/js/script.js:32 | the inner loop's string is one `<td>` cell per column holding `String(row[col])`, in order |
| `ClientPanel.RowCells` | static/js/script.js:32 | one cell text per column, in order, each `String(row[col])` |
| `ClientPanel.BuildResultTable` | static/js/script.js:27-36 | the string built by the nested loops is the markup of that grid |
| `ClientPanel.Rendered` | static/js/script.js:25-42 | the spinner stays iff the table branch throws; a table iff success with rows and columns, holding their markup; the success alert with the message iff success without rows; the danger alert with the error iff not success |
| `ClientPanel.FailureIgnoresPayload` | static/js/script.js:25-42 | outside success the panel shows the error alert and does not depend on rows, columns or message |
| `ClientPanel.RenderedBranches` | static/js/script.js:25-42 | a table iff success with rows present, the success alert iff success without rows, the danger alert iff not success |
| `ClientPanel.ExecuteHanaScript` | static/js/script.js:4-44 | sends the script and returns the response; with a panel it is shown with the rendering, and with a panel it throws iff a success with rows lacks columns |
| `ClientPanel.KillCommand` | static/js/script.js:254 | the statement is `ALTER SYSTEM DISCONNECT SESSION '` then the id then `';`, with nothing else |
| `ClientPanel.KillCommandRoundTrip` | static/js/script.js:254 | the kill statement reads back as the connection id it was built for |
| `ClientPanel.KillCommandInjective` | static/js/script.js:254 | different ids give different kill statements |
| `ClientPanel.KillOutcome` | static/js/script.js:252-266 | asks about the id; sends the statement iff confirmed; acknowledges unless the panel threw; schedules the one-second reload iff it acknowledged on the sessions page |
| `ClientPanel.RefreshEitherWay` | static/js/script.js:256-264 | a success and a failure schedule the same reload and differ only in the acknowledgement text |
| `ClientPanel.KillSession` | static/js/script.js:252-266 | the effect is KillOutcome; the panel is rendered only when confirmed and untouched otherwise |
| `ClientDashboard.IsPlaceholder` | static/js/script.js:71-103 | a value is taken for a placeholder iff it is the server's Error or N/A, or a value jsonify writes as one of those strings |
| `ClientDashboard.CpuGauge` | static/js/script.js:71-81 | bg-danger iff the value is Error or N/A, which gives the full red Error bar; otherwise text and width are the value as a percentage |
| `ClientDashboard.MemoryGauge` | static/js/script.js:86-99 | the same rule on used; otherwise "used GB / total GB", bar text "used GB" and the used/total width |
| `ClientDashboard.SessionsText` | static/js/script.js:103-107 | a placeholder shows X, any other value as `textContent` shows it |
| `ClientDashboard.ErrorText` | static/js/script.js:61-63 | the banner text exists iff error is truthy, and is "Database Error: " + error |
| `ClientDashboard.Dashboard.UpdateDashboardUI` | static/js/script.js:52-108 | a truthy error shows the banner and leaves every widget as it was; otherwise the banner is hidden and each widget is its gauge |
| `ClientLists.OrNA` | static/js/script.js:152 | a truthy value shows as `String(v)`, a falsy one as N/A |
| `ClientLists.SessionRow` | static/js/script.js:149-156 | id, "host (ip)" with N/A for a falsy part, status badge, and a Kill button for the id |
| `ClientLists.SessionListing` | static/js/script.js:139-157 | one danger row for an error, the "No active sessions found." row for an empty list, else one row per session in order |
| `ClientLists.LoadSessions` | static/js/script.js:136-158 | the body the handler builds is SessionListing of the response |
| `ClientLists.Localizable` | static/js/script.js:181-182 | `toLocaleString` succeeds on the value after the JSON round trip iff it is neither null nor undefined |
| `ClientLists.TableRow` | static/js/script.js:177-184 | schema and name as text, record count and size as formatted values, in that order |
| `ClientLists.TableRows` | static/js/script.js:176-185 | the rows appended are the table rows of a prefix of the records, all formattable; the throw happens iff a record cannot be formatted, at the first such |
| `ClientLists.TableListing` | static/js/script.js:171-185 | one danger row for an error, and `{error: ""}` (a falsy error over a non-array) throws with no rows; an empty list gives an empty body; a list gives the rows of TableRows |
| `ClientLists.LoadTables` | static/js/script.js:168-186 | the body the handler builds is TableListing of the response |
| `ClientLists.StaysThrown` | static/js/script.js:176-185 | once a prefix threw, every longer list gives the same rows |
| `ClientLists.StatusClass` | static/js/script.js:226-228 | text-warning iff Warning, text-danger iff Error, text-success otherwise |
| `ClientLists.HealthRow` | static/js/script.js:230-236 | the name, the status in the class StatusClass gives it, and the details, in that order |
| `ClientLists.RenderHealthReport` | static/js/script.js:223-237 | one row per report entry, in order, with the entry's name, coloured status and details |
| `EndToEnd.OutageShowsBanner` | app.py:63-105 | no connection or no cursor always shows the banner, with the server's text |
| `EndToEnd.MissingMetricsDrawAsErrors` | static/js/script.js:71-107 | a raising or empty CPU or memory query draws the red Error gauge; a raising or empty session query shows X |
| `EndToEnd.NullSessionCountShowsBlank` | static/js/script.js:103-107 | a `[NULL]` session count shows as a blank counter |
| `EndToEnd.NumberIsNotPlaceholder` | static/js/script.js:71 | a number is never taken for a placeholder |
| `EndToEnd.LoggedRecordDrawsNormally` | app.py:116 | a record that would be logged shows no banner and no red bar |
| `EndToEnd.QueryRendersResultSet` | static/js/script.js:25-36 | a query's response renders the table of its columns and zipped rows |
| `EndToEnd.ResultSetCells` | static/js/script.js:28-34 | with distinct column names the header is the columns and cell (i, j) is the cursor's value at row i, column j |
| `EndToEnd.EmptyQueryRendersHeader` | static/js/script.js:26 | a query with zero rows renders a table with only its header |
| `EndToEnd.CommandRendersRowCount` | app.py:166-167 | a committed command renders the success alert "n rows affected." |
| `EndToEnd.FailuresRenderDanger` | static/js/script.js:40-42 | no connection and execution failures render the danger alert with the server's text |
| `EndToEnd.ServerEnvelopeNeverThrows` | static/js/script.js:26-28 | the server's rows always come with columns, so the panel never throws on them |
| `EndToEnd.KillIsCommand` | static/js/script.js:254 | the kill statement is classified as a command |
| `EndToEnd.KillEndToEnd` | static/js/script.js:252-266 | a kill the server runs renders "n rows affected.", is acknowledged, and on the sessions page is followed by the reload |
| `EndToEnd.SessionsPageEndToEnd` | static/js/script.js:139-147 | no connection and query failures give one danger row with the server's text; no sessions gives the "none found" row |
| `EndToEnd.SessionColumnsDistinct` | app.py:178 | the session query's four column names are distinct |
| `EndToEnd.SessionRowsFromCursor` | static/js/script.js:148-157 | row i of the sessions page holds the cursor's id, host, IP and status of session i, with a Kill button for its id |
| `EndToEnd.TablesPageEndToEnd` | static/js/script.js:171-185 | an empty table list gives no rows; no connection and failures give one danger row |
| `EndToEnd.TableColumnsDistinct` | app.py:191 | the table query's four column names are distinct |
| `EndToEnd.TableRowsFromCursor` | static/js/script.js:176-185 | the tables page throws iff some table's record count or size is null; otherwise row i holds schema, name and the two counts of cursor row i |
| `EndToEnd.HealthRowsFollowOutcomes` | static/js/script.js:225-237 | each health row is text-danger iff its check raised, text-warning iff it found rows, text-success iff it found none; without a connection the one row is text-danger |

## Left out

- Json.Js: integers are taken to be exact in the browser. `response.json()` reads numbers as IEEE doubles, so an integer beyond ±2^53 arrives rounded, and one of 10^21 or more shows in exponent form. For such values the result-table cells, the session and table cells and the session counter show JavaScript's text, not the digits `Json.Show` gives.

- HTTP, Flask routing, `render_template`, `jsonify` and `fetch`: a response is a status and a body value. The `request.json` read is the `script` parameter, and a missing `script` is not modelled.
- `hdbcli` connections and cursors: each becomes an input. `get_hana_connection` is the `connected` flag, or `Probe.NoConnection`. The SQL texts are not modelled.
- `get_hana_kpis` CPU parsing: the text split, `float(...)`, the division and `round` (app.py:76-79) are arithmetic on floats. The percentage is the input `cpuPercent`. The `IndexError`/`ValueError` these lines can raise escapes the handler and is not modelled.
- The `HdbError` that `conn.cursor()` itself can raise is the `CursorFailed` probe. One raised while closing the cursor is `closeError`. `conn.close()` is not modelled.
- `api_health_check`: an error from opening the cursor is outside its try and is not modelled. The report entries take `str(rows[0])` as the input text `firstRow`, and `conn.close()` is left out.
- `log_kpi_job`: the database insert and commit are left out. The model returns the sample that would be stored.
- `api_historical_kpis`: the SQLAlchemy query, the one-day filter and the ordering are left out. The model takes the rows the query returns, in order.
- The memory width `memUsed / memTotal * 100` (static/js/script.js:94) is float arithmetic. It stays the symbolic `UsageRatio(used, total)`.
- Timers and polling (`setInterval`, `setTimeout`, APScheduler): the kill's reload is the delay it schedules.
- `confirm` and `alert`: the answer is the input `confirmed`, and the alert text is an output.
- The Chart.js history chart, clipboard copying and `toLocaleString` are library calls. A tables-page cell records the value it formats, and the throw on null or undefined is modelled.
- `updateDashboardUI` creating the error box when the page lacks one: the model's dashboard always has its box.
- The health-check spinner row shown while the request is out, and the spinner of the results panel, are not modelled as separate states. The panel's spinner is the `Spinner` content it keeps on a throw.
- `alert_history` (app.py:26) is never appended to. The alerts page is not modelled.
- `ServerScript.Upper`: `str.upper()` is modelled for the ASCII letters and the long s only. The long s upper-cases to S. Other Unicode mappings are not modelled, including those that lengthen a string, such as ẗ to T followed by a combining diaeresis. A script ending its SELECT in such a character is classified as a command by the model, though Python takes it as a query.
- HTML escaping: the code does none, and the model states none.
