/** The script result panel (`executeHanaScript`, static/js/script.js
    lines 4-44) and the kill action built on it (`killSession`, lines
    252-266). */
module ClientPanel {
  import opened Json
  import opened Wire

  /** The result table: header cells and one row of cells per record. */
  datatype Grid = Grid(header: seq<string>, body: seq<seq<string>>)

  /** The text of one cell: `${row[col]}`. */
  function CellText(row: Record, col: string): string {
    Show(Field(row, col))
  }

  /** The cells of one record: `row[col]` for each column, in order. */
  function RowCells(columns: seq<string>, row: Record): (cs: seq<string>)
    ensures |cs| == |columns|
    ensures forall j :: 0 <= j < |columns| ==> cs[j] == CellText(row, columns[j])
  {
    seq(|columns|, j requires 0 <= j < |columns| => CellText(row, columns[j]))
  }

  /** The table the panel shows: one header cell per column and, for every
      record, one cell per column holding `row[col]`, all in order. */
  function Tabulate(columns: seq<string>, rows: seq<Record>): (g: Grid)
    ensures g.header == columns
    ensures |g.body| == |rows|
    ensures forall i :: 0 <= i < |rows| ==> |g.body[i]| == |columns|
    ensures forall i, j :: 0 <= i < |rows| && 0 <= j < |columns| ==> g.body[i][j] == CellText(rows[i], columns[j])
  {
    Grid(columns, seq(|rows|, i requires 0 <= i < |rows| => RowCells(columns, rows[i])))
  }

  const TableOpen := "<div class=\"table-responsive\"><table class=\"table table-sm table-bordered\"><thead><tr>"
  const HeadClose := "</tr></thead><tbody>"
  const TableClose := "</tbody></table></div>"

  /** Cells wrapped in one tag pair, concatenated in order. */
  function Cells(open: string, close: string, xs: seq<string>): (r: string)
    ensures xs != [] ==> |r| >= |open| + |close| && r[|r| - |close|..] == close
  {
    if xs == [] then "" else Cells(open, close, xs[..|xs| - 1]) + open + xs[|xs| - 1] + close
  }

  /** The body rows, each `<tr>` and its cells and `</tr>`, in order. */
  function BodyRows(body: seq<seq<string>>): (r: string)
    ensures body != [] ==> |r| >= 9 && r[|r| - 5..] == "</tr>"
  {
    if body == [] then "" else BodyRows(body[..|body| - 1]) + "<tr>" + Cells("<td>", "</td>", body[|body| - 1]) + "</tr>"
  }

  /** The HTML string of a result table. */
  function Markup(g: Grid): (r: string)
    ensures |r| >= |TableOpen| + |HeadClose| + |TableClose|
    ensures r[..|TableOpen|] == TableOpen && r[|r| - |TableClose|..] == TableClose
  {
    TableOpen + Cells("<th>", "</th>", g.header) + HeadClose + BodyRows(g.body) + TableClose
  }

  /** The header loop: `table += <th>col</th>` for each column. */
  method BuildHeader(columns: seq<string>) returns (header: string)
    ensures header == Cells("<th>", "</th>", columns)
  {
    header := "";
    for i := 0 to |columns|
      invariant header == Cells("<th>", "</th>", columns[..i])
    {
      assert columns[..i + 1][..i] == columns[..i];
      header := header + "<th>" + columns[i] + "</th>";
    }
    assert columns[..|columns|] == columns;
  }

  /** The inner loop: `table += <td>row[col]</td>` for each column. */
  method BuildRow(columns: seq<string>, row: Record) returns (cells: string)
    ensures cells == Cells("<td>", "</td>", RowCells(columns, row))
  {
    ghost var cs := RowCells(columns, row);
    cells := "";
    for j := 0 to |columns|
      invariant cells == Cells("<td>", "</td>", cs[..j])
    {
      assert cs[..j + 1][..j] == cs[..j];
      cells := cells + "<td>" + CellText(row, columns[j]) + "</td>";
    }
    assert cs[..|columns|] == cs;
  }

  /** The table builder: `+=` inside nested forEach loops over the columns
      and the rows. */
  method BuildResultTable(columns: seq<string>, rows: seq<Record>) returns (table: string)
    ensures table == Markup(Tabulate(columns, rows))
  {
    ghost var g := Tabulate(columns, rows);
    var header := BuildHeader(columns);
    var body := "";
    for k := 0 to |rows|
      invariant body == BodyRows(g.body[..k])
    {
      assert g.body[..k + 1][..k] == g.body[..k];
      assert g.body[k] == RowCells(columns, rows[k]);
      var cells := BuildRow(columns, rows[k]);
      body := body + "<tr>" + cells + "</tr>";
    }
    assert g.body[..|rows|] == g.body;
    table := TableOpen + header + HeadClose + body + TableClose;
  }

  /** What the results panel holds. */
  datatype Content =
    | Spinner                    // "Executing...", shown while the request is out
    | TableView(html: string)
    | SuccessAlert(text: string)
    | DangerAlert(text: string)

  /** The render branch throws when `success` is true and `rows` is there
      but `columns` is not (`undefined.forEach`). */
  predicate Throws(result: Envelope)
    ensures Throws(result) ==> !WellFormed(result)
  {
    result.success == Some(true) && result.rows.Some? && result.columns.None?
  }

  /** The panel after the response came back. `if (result.rows)` tests
      presence: an empty array is truthy, so zero rows still give a table.
      On a throw the spinner stays. */
  function Rendered(result: Envelope): (c: Content)
    ensures c == Spinner <==> Throws(result)
    ensures c.TableView? <==> result.success == Some(true) && result.rows.Some? && result.columns.Some?
    ensures c.TableView? ==> c.html == Markup(Tabulate(result.columns.value, result.rows.value))
    ensures c.SuccessAlert? <==> result.success == Some(true) && result.rows.None?
    ensures c.SuccessAlert? ==> c.text == OptText(result.message)
    ensures c.DangerAlert? <==> result.success != Some(true)
    ensures c.DangerAlert? ==> c.text == OptText(result.error)
  {
    if result.success == Some(true) then
      if result.rows.Some? then
        if result.columns.Some? then TableView(Markup(Tabulate(result.columns.value, result.rows.value)))
        else Spinner
      else SuccessAlert(OptText(result.message))
    else DangerAlert(OptText(result.error))
  }

  /** Outside a successful response, the panel shows `error` and does not
      depend on `rows`, `columns` or `message`. */
  lemma FailureIgnoresPayload(result: Envelope, message: Option<string>, columns: Option<seq<string>>, rows: Option<seq<Record>>)
    requires result.success != Some(true)
    ensures Rendered(result) == DangerAlert(OptText(result.error))
    ensures Rendered(result.(message := message, columns := columns, rows := rows)) == Rendered(result)
  {
  }

  /** The three outcomes of a response that does not throw. */
  lemma RenderedBranches(result: Envelope)
    requires !Throws(result)
    ensures Rendered(result).TableView? <==> result.success == Some(true) && result.rows.Some?
    ensures Rendered(result).SuccessAlert? <==> result.success == Some(true) && result.rows.None?
    ensures Rendered(result).DangerAlert? <==> result.success != Some(true)
  {
  }

  /** The card and its content element, when the page has them. */
  class ResultsPanel {
    var visible: bool
    var content: Content
  }

  /** executeHanaScript: sends `{script}` and returns the parsed response;
      on a page with a results panel it first shows the spinner and then
      the rendering. `threw` is the TypeError of the render branch, after
      which the caller sees a rejected promise. */
  method ExecuteHanaScript(panel: ResultsPanel?, script: string, response: Envelope)
    returns (sent: string, result: Envelope, threw: bool)
    modifies panel
    ensures sent == script && result == response
    ensures threw <==> panel != null && Throws(response)
    ensures panel != null ==> panel.visible && panel.content == Rendered(response)
  {
    sent := script;
    result := response;
    threw := false;
    if panel == null {
      return;
    }
    panel.content := Spinner;
    panel.visible := true;
    if response.success == Some(true) {
      if response.rows.Some? {
        if response.columns.None? {
          threw := true;
          return;
        }
        var table := BuildResultTable(response.columns.value, response.rows.value);
        panel.content := TableView(table);
      } else {
        panel.content := SuccessAlert(OptText(response.message));
      }
    } else {
      panel.content := DangerAlert(OptText(response.error));
    }
  }

  const KillPrefix := "ALTER SYSTEM DISCONNECT SESSION '"
  const KillSuffix := "';"

  /** The statement killSession sends for a connection id: the id between
      the fixed prefix and suffix. */
  function KillCommand(connectionId: string): (c: string)
    ensures |c| == |KillPrefix| + |connectionId| + |KillSuffix|
    ensures c[..|KillPrefix|] == KillPrefix
    ensures c[|KillPrefix|..|c| - |KillSuffix|] == connectionId
    ensures c[|c| - |KillSuffix|..] == KillSuffix
  {
    KillPrefix + connectionId + KillSuffix
  }

  /** Reading the connection id back out of a kill statement. */
  function KilledSession(command: string): Option<string> {
    if |KillPrefix| + |KillSuffix| <= |command|
       && command[..|KillPrefix|] == KillPrefix
       && command[|command| - |KillSuffix|..] == KillSuffix
    then Some(command[|KillPrefix|..|command| - |KillSuffix|])
    else None
  }

  /** The kill statement names exactly the session it was built for. */
  lemma KillCommandRoundTrip(connectionId: string)
    ensures KilledSession(KillCommand(connectionId)) == Some(connectionId)
  {
    var c := KillCommand(connectionId);
    assert c[..|KillPrefix|] == KillPrefix;
    assert c[|c| - |KillSuffix|..] == KillSuffix;
    assert c[|KillPrefix|..|c| - |KillSuffix|] == connectionId;
  }

  /** Different sessions give different statements. */
  lemma KillCommandInjective(a: string, b: string)
    requires KillCommand(a) == KillCommand(b)
    ensures a == b
  {
    KillCommandRoundTrip(a);
    KillCommandRoundTrip(b);
  }

  /** What one click on Kill does beyond the panel. `sent` is the statement
      posted; `alert` the acknowledgement shown; `refreshAfter` the delay in
      milliseconds of the scheduled session-list reload. */
  datatype KillEffect = KillEffect(question: string, sent: Option<string>, alert: Option<string>, refreshAfter: Option<nat>)

  const RefreshDelay: nat := 1000

  /** The effect of killSession for a confirmation answer and a response;
      `sessionsPage` says whether `window.loadSessions` exists, `hasPanel`
      whether the page has a results panel. */
  function KillOutcome(connectionId: string, confirmed: bool, response: Envelope, sessionsPage: bool, hasPanel: bool): (e: KillEffect)
    ensures e.question == "Are you sure you want to kill session " + connectionId + "?"
    ensures e.sent.Some? <==> confirmed
    ensures e.sent.Some? ==> e.sent.value == KillCommand(connectionId)
    ensures e.alert.Some? <==> confirmed && !(hasPanel && Throws(response))
    ensures e.refreshAfter.Some? <==> e.alert.Some? && sessionsPage
    ensures e.refreshAfter.Some? ==> e.refreshAfter.value == RefreshDelay
  {
    var question := "Are you sure you want to kill session " + connectionId + "?";
    if !confirmed then KillEffect(question, None, None, None)
    else if hasPanel && Throws(response) then KillEffect(question, Some(KillCommand(connectionId)), None, None)
    else
      var alert := if response.success == Some(true)
                   then "Kill command for session " + connectionId + " sent successfully!"
                   else "Failed to kill session: " + OptText(response.error);
      KillEffect(question, Some(KillCommand(connectionId)), Some(alert), if sessionsPage then Some(RefreshDelay) else None)
  }

  /** Success or failure, the session list is reloaded all the same: two
      responses differ only in the text of the acknowledgement. */
  lemma RefreshEitherWay(connectionId: string, ok: Envelope, failed: Envelope, sessionsPage: bool, hasPanel: bool)
    requires ok.success == Some(true) && failed.success != Some(true)
    requires !(hasPanel && Throws(ok))
    ensures KillOutcome(connectionId, true, ok, sessionsPage, hasPanel).refreshAfter
         == KillOutcome(connectionId, true, failed, sessionsPage, hasPanel).refreshAfter
    ensures KillOutcome(connectionId, true, ok, sessionsPage, hasPanel).alert
         == Some("Kill command for session " + connectionId + " sent successfully!")
    ensures KillOutcome(connectionId, true, failed, sessionsPage, hasPanel).alert
         == Some("Failed to kill session: " + OptText(failed.error))
  {
  }

  /** killSession: ask, and only on confirmation send the statement,
      acknowledge the outcome and schedule the reload. */
  method KillSession(panel: ResultsPanel?, connectionId: string, confirmed: bool, response: Envelope, sessionsPage: bool)
    returns (effect: KillEffect)
    modifies panel
    ensures effect == KillOutcome(connectionId, confirmed, response, sessionsPage, panel != null)
    ensures panel != null && confirmed ==> panel.visible && panel.content == Rendered(response)
    ensures panel != null && !confirmed ==> panel.visible == old(panel.visible) && panel.content == old(panel.content)
  {
    var question := "Are you sure you want to kill session " + connectionId + "?";
    effect := KillEffect(question, None, None, None);
    if confirmed {
      var script := KillCommand(connectionId);
      var sent, result, threw := ExecuteHanaScript(panel, script, response);
      effect := effect.(sent := Some(sent));
      if threw {
        return;
      }
      if result.success == Some(true) {
        effect := effect.(alert := Some("Kill command for session " + connectionId + " sent successfully!"));
      } else {
        effect := effect.(alert := Some("Failed to kill session: " + OptText(result.error)));
      }
      if sessionsPage {
        effect := effect.(refreshAfter := Some(RefreshDelay));
      }
    }
  }
}
