/** What the browser shows for what the server sends: each server body fed
    to the renderer that reads it. */
module EndToEnd {
  import opened Json
  import opened Wire
  import opened Rows
  import opened ServerKpis
  import opened ServerScript
  import opened ServerLists
  import opened ClientPanel
  import opened ClientDashboard
  import opened ClientLists

  // --- dashboard ---

  /** Without a connection, or when the cursor cannot be opened, the banner
      is shown and (by UpdateDashboardUI) no widget is touched. */
  lemma OutageShowsBanner(p: Probe)
    requires p.NoConnection? || p.CursorFailed?
    ensures ErrorText(KpiRecord(p)).Some?
    ensures p.NoConnection? ==> ErrorText(KpiRecord(p)) == Some("Database Error: " + ConnectionFailed)
    ensures p.CursorFailed? ==> ErrorText(KpiRecord(p)) == Some("Database Error: " + (CriticalPrefix + p.error))
  {
  }

  /** A failed or empty CPU or memory query draws that gauge as a full red
      "Error" bar; a failed or empty session count shows X. */
  lemma MissingMetricsDrawAsErrors(p: Probe)
    requires p.Probed? && WellShaped(p) && p.closeError.None?
    ensures ErrorText(KpiRecord(p)).None?
    ensures p.cpu.Raised? || !HasFirstValue(p.cpu.row) ==> CpuGauge(KpiRecord(p).cpuUsage) == ErrorGauge
    ensures p.memory.Raised? || !HasFirstValue(p.memory.row) ==> MemoryGauge(KpiRecord(p).memoryUsage) == ErrorGauge
    ensures p.sessions.Raised? || !HasRow(p.sessions.row) ==> SessionsText(KpiRecord(p).activeSessions) == "X"
  {
  }

  /** A session count that is NULL is not a placeholder: the counter goes blank. */
  lemma NullSessionCountShowsBlank(p: Probe)
    requires p.Probed? && WellShaped(p) && p.sessions == Fetched(Some([Null]))
    ensures SessionsText(KpiRecord(p).activeSessions) == ""
  {
  }

  /** A number is never a placeholder. */
  lemma NumberIsNotPlaceholder(v: Value)
    requires IsNumber(v)
    ensures !IsPlaceholder(v)
  {
  }

  /** A record the job would store draws without banner and without red bars. */
  lemma LoggedRecordDrawsNormally(k: Kpis)
    requires ShouldLog(k)
    ensures ErrorText(k).None?
    ensures !CpuGauge(k.cpuUsage).bar.danger && !MemoryGauge(k.memoryUsage).bar.danger
  {
    NumberIsNotPlaceholder(k.cpuUsage);
    NumberIsNotPlaceholder(k.memoryUsage.used);
  }

  // --- script panel ---

  /** A query's response renders the table of its zipped rows. */
  lemma QueryRendersResultSet(script: string, columns: seq<string>, rows: seq<seq<Value>>, rowCount: int, commitError: Option<string>)
    requires IsQuery(script)
    ensures Rendered(ExecuteScript(true, script, Executed(columns, rows, rowCount, commitError)).body)
         == TableView(Markup(Tabulate(columns, Records(columns, rows))))
  {
    var body := ExecuteScript(true, script, Executed(columns, rows, rowCount, commitError)).body;
    assert body.columns == Some(columns) && body.rows == Some(Records(columns, rows));
  }

  /** When the columns have distinct names, the table has one header cell
      per column and, for row i and column j, the cursor's value at (i, j). */
  lemma ResultSetCells(columns: seq<string>, rows: seq<seq<Value>>)
    requires Distinct(columns)
    requires forall i :: 0 <= i < |rows| ==> |rows[i]| == |columns|
    ensures Tabulate(columns, Records(columns, rows)).header == columns
    ensures |Tabulate(columns, Records(columns, rows)).body| == |rows|
    ensures forall i, j :: 0 <= i < |rows| && 0 <= j < |columns| ==>
      Tabulate(columns, Records(columns, rows)).body[i][j] == Show(rows[i][j])
  {
    var records := Records(columns, rows);
    var g := Tabulate(columns, records);
    forall i, j | 0 <= i < |rows| && 0 <= j < |columns|
      ensures g.body[i][j] == Show(rows[i][j])
    {
      assert records[i] == Zip(columns, rows[i]);
      ZipDistinct(columns, rows[i], j);
      assert g.body[i][j] == Show(Field(records[i], columns[j]));
    }
  }

  /** A query with zero rows still renders a table, with the header only. */
  lemma EmptyQueryRendersHeader(script: string, columns: seq<string>, rowCount: int, commitError: Option<string>)
    requires IsQuery(script)
    ensures Rendered(ExecuteScript(true, script, Executed(columns, [], rowCount, commitError)).body)
         == TableView(Markup(Grid(columns, [])))
  {
  }

  /** A command that commits renders the success alert with the row count. */
  lemma CommandRendersRowCount(script: string, columns: seq<string>, rows: seq<seq<Value>>, rowCount: int)
    requires !IsQuery(script)
    ensures Rendered(ExecuteScript(true, script, Executed(columns, rows, rowCount, None)).body)
         == SuccessAlert(IntToString(rowCount) + " rows affected.")
  {
  }

  /** Every failure renders the danger alert with the server's text. */
  lemma FailuresRenderDanger(script: string, run: Execution)
    ensures Rendered(ExecuteScript(false, script, run).body) == DangerAlert(NoConnectionError)
    ensures Failure(script, run).Some? ==>
      Rendered(ExecuteScript(true, script, run).body) == DangerAlert(FailurePrefix + Failure(script, run).value)
  {
  }

  /** The server's envelope never makes the panel throw. */
  lemma ServerEnvelopeNeverThrows(connected: bool, script: string, run: Execution)
    ensures !Throws(ExecuteScript(connected, script, run).body)
  {
  }

  /** The kill statement is a command, never a query. */
  lemma KillIsCommand(connectionId: string)
    ensures !IsQuery(KillCommand(connectionId))
  {
    var c := KillCommand(connectionId);
    assert c[0] == 'A';
    CommandByFirstLetter(c, 0);
  }

  /** A kill the server carries out is acknowledged as sent and, on the
      sessions page, followed by a reload one second later; the panel, if
      any, shows the row count. */
  lemma KillEndToEnd(connectionId: string, rowCount: int, sessionsPage: bool, hasPanel: bool)
    ensures var resp := ExecuteScript(true, KillCommand(connectionId), Executed([], [], rowCount, None));
      && Rendered(resp.body) == SuccessAlert(IntToString(rowCount) + " rows affected.")
      && KillOutcome(connectionId, true, resp.body, sessionsPage, hasPanel)
         == KillEffect("Are you sure you want to kill session " + connectionId + "?",
                       Some(KillCommand(connectionId)),
                       Some("Kill command for session " + connectionId + " sent successfully!"),
                       if sessionsPage then Some(RefreshDelay) else None)
  {
    KillIsCommand(connectionId);
  }

  // --- list pages ---

  /** The sessions page for each server outcome: one danger row per failure,
      the "none found" row for no sessions, else one row per session with
      the cursor's values in place. */
  lemma SessionsPageEndToEnd(connected: bool, q: Query)
    ensures !connected ==> SessionListing(ApiSessions(connected, q).body)
                           == Listing([Notice(4, TextDanger, ListNoConnection)], false)
    ensures connected && q.QueryFailed? ==>
      SessionListing(ApiSessions(connected, q).body)
      == Listing([Notice(4, TextDanger, "Failed to fetch sessions: " + q.error)], false)
    ensures connected && q.QueryRows? && q.rows == [] ==>
      SessionListing(ApiSessions(connected, q).body) == Listing([Notice(4, TextMuted, NoSessions)], false)
  {
  }

  lemma SessionColumnsDistinct()
    ensures Distinct(SessionColumns)
  {
  }

  /** With the session query's four columns, row i of the page holds the
      id, "host (ip)" with N/A for a falsy part, the status and a Kill
      button for the id. */
  lemma SessionRowsFromCursor(rows: seq<seq<Value>>)
    requires rows != [] && forall i :: 0 <= i < |rows| ==> |rows[i]| == 4
    ensures var l := SessionListing(ApiSessions(true, QueryRows(SessionColumns, rows)).body);
      && !l.threw && |l.rows| == |rows|
      && forall i :: 0 <= i < |rows| ==>
           l.rows[i] == Cells([Plain(Show(rows[i][0])),
                               Plain(OrNA(rows[i][1]) + " (" + OrNA(rows[i][2]) + ")"),
                               Badge(Show(rows[i][3])),
                               KillButton(Show(rows[i][0]))])
  {
    SessionColumnsDistinct();
    var l := SessionListing(ApiSessions(true, QueryRows(SessionColumns, rows)).body);
    forall i | 0 <= i < |rows|
      ensures l.rows[i] == Cells([Plain(Show(rows[i][0])),
                                  Plain(OrNA(rows[i][1]) + " (" + OrNA(rows[i][2]) + ")"),
                                  Badge(Show(rows[i][3])),
                                  KillButton(Show(rows[i][0]))])
    {
      var r := Zip(SessionColumns, rows[i]);
      ZipDistinct(SessionColumns, rows[i], 0);
      ZipDistinct(SessionColumns, rows[i], 1);
      ZipDistinct(SessionColumns, rows[i], 2);
      ZipDistinct(SessionColumns, rows[i], 3);
      assert Field(r, "CONNECTION_ID") == rows[i][0];
      assert Field(r, "CLIENT_HOST") == rows[i][1];
      assert Field(r, "CLIENT_IP") == rows[i][2];
      assert Field(r, "CONNECTION_STATUS") == rows[i][3];
    }
  }

  /** The tables page has no "none found" state: no tables, no rows; a
      failure still gives its danger row. Rows from the cursor are
      TableRowsFromCursor. */
  lemma TablesPageEndToEnd(connected: bool, q: Query)
    ensures connected && q.QueryRows? && q.rows == [] ==> TableListing(ApiTables(connected, q).body) == Listing([], false)
    ensures !connected ==> TableListing(ApiTables(connected, q).body) == Listing([Notice(4, TextDanger, ListNoConnection)], false)
    ensures connected && q.QueryFailed? ==>
      TableListing(ApiTables(connected, q).body)
      == Listing([Notice(4, TextDanger, "Failed to fetch tables: " + q.error)], false)
  {
  }

  lemma TableColumnsDistinct()
    ensures Distinct(TableColumns)
  {
  }

  /** With the table query's four columns, the tables page throws exactly
      when some table's RECORD_COUNT or MEMORY_MB is null; otherwise row i
      holds the schema, the name and the two counts of cursor row i. */
  lemma TableRowsFromCursor(rows: seq<seq<Value>>)
    requires forall i :: 0 <= i < |rows| ==> |rows[i]| == 4
    ensures var l := TableListing(ApiTables(true, QueryRows(TableColumns, rows)).body);
      && (l.threw <==> exists i :: 0 <= i < |rows| && !(Localizable(rows[i][2]) && Localizable(rows[i][3])))
      && (!l.threw ==> |l.rows| == |rows| && forall i :: 0 <= i < |rows| ==>
            l.rows[i] == Cells([Plain(Show(rows[i][0])), Plain(Show(rows[i][1])),
                                Localized(rows[i][2]), Localized(rows[i][3])]))
  {
    TableColumnsDistinct();
    var records := Records(TableColumns, rows);
    var l := TableListing(ApiTables(true, QueryRows(TableColumns, rows)).body);
    assert l == TableRows(records);
    forall i | 0 <= i < |rows|
      ensures Field(records[i], "SCHEMA_NAME") == rows[i][0]
      ensures Field(records[i], "TABLE_NAME") == rows[i][1]
      ensures Field(records[i], "RECORD_COUNT") == rows[i][2]
      ensures Field(records[i], "MEMORY_MB") == rows[i][3]
    {
      assert records[i] == Zip(TableColumns, rows[i]);
      ZipDistinct(TableColumns, rows[i], 0);
      ZipDistinct(TableColumns, rows[i], 1);
      ZipDistinct(TableColumns, rows[i], 2);
      ZipDistinct(TableColumns, rows[i], 3);
    }
    if l.threw {
      var k := |l.rows|;
      assert !TableRowRenders(records[k]);
    }
  }

  /** Each rendered health row carries the class of its check's outcome:
      danger for a failed query, warning when it found rows, success when
      it found none; without a connection the single row is danger. */
  lemma HealthRowsFollowOutcomes(connected: bool, outcomes: seq<CheckOutcome>, report: seq<HealthEntry>)
    requires |outcomes| == |CheckNames| && IsHealthReport(connected, outcomes, report)
    ensures !connected ==> |report| == 1 && StatusClass(report[0].status) == "text-danger"
    ensures connected ==> |report| == |outcomes| && forall i :: 0 <= i < |outcomes| ==>
      && (StatusClass(report[i].status) == "text-danger" <==> outcomes[i].CheckFailed?)
      && (StatusClass(report[i].status) == "text-warning" <==> outcomes[i].CheckReturned? && outcomes[i].count > 0)
      && (StatusClass(report[i].status) == "text-success" <==> outcomes[i].CheckReturned? && outcomes[i].count == 0)
  {
  }
}
