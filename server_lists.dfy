/** The server's list endpoints: sessions and tables (app.py lines 171-196),
    the historical KPI series (lines 198-206) and the health-check report
    (lines 208-230). */
module ServerLists {
  import opened Json
  import opened Wire
  import opened Rows

  /** What a list query did: an HdbError, or the description's column
      names and the fetched rows. */
  datatype Query = QueryFailed(error: string) | QueryRows(columns: seq<string>, rows: seq<seq<Value>>)

  const ListNoConnection := "DB connection failed"

  /** The shared shape of /api/sessions and /api/tables. */
  function ListEndpoint(connected: bool, q: Query, failurePrefix: string): (resp: Response<ListBody>)
    requires failurePrefix != ""
    ensures resp.body.ErrorBody? <==> !connected || q.QueryFailed?
    ensures resp.status == (if resp.body.ErrorBody? then 500 else 200)
    ensures resp.body.ErrorBody? ==> resp.body.error != ""
    ensures !connected ==> resp.body == ErrorBody(ListNoConnection)
    ensures connected && q.QueryFailed? ==> resp.body == ErrorBody(failurePrefix + q.error)
    ensures resp.body.Items? ==>
      |resp.body.records| == |q.rows|
      && forall i :: 0 <= i < |q.rows| ==> resp.body.records[i] == Zip(q.columns, q.rows[i])
  {
    if !connected then Response(500, ErrorBody(ListNoConnection))
    else match q
      case QueryFailed(e) => Response(500, ErrorBody(failurePrefix + e))
      case QueryRows(columns, rows) => Response(200, Items(Records(columns, rows)))
  }

  /** The columns the session query selects, in order. */
  const SessionColumns := ["CONNECTION_ID", "CLIENT_HOST", "CLIENT_IP", "CONNECTION_STATUS"]
  /** The columns the table query selects, in order. */
  const TableColumns := ["SCHEMA_NAME", "TABLE_NAME", "RECORD_COUNT", "MEMORY_MB"]

  /** /api/sessions. */
  function ApiSessions(connected: bool, q: Query): (resp: Response<ListBody>)
    ensures !connected ==> resp == Response(500, ErrorBody(ListNoConnection))
    ensures connected && q.QueryFailed? ==> resp == Response(500, ErrorBody("Failed to fetch sessions: " + q.error))
    ensures connected && q.QueryRows? ==> resp.status == 200 && resp.body == Items(Records(q.columns, q.rows))
  {
    ListEndpoint(connected, q, "Failed to fetch sessions: ")
  }

  /** /api/tables. */
  function ApiTables(connected: bool, q: Query): (resp: Response<ListBody>)
    ensures !connected ==> resp == Response(500, ErrorBody(ListNoConnection))
    ensures connected && q.QueryFailed? ==> resp == Response(500, ErrorBody("Failed to fetch tables: " + q.error))
    ensures connected && q.QueryRows? ==> resp.status == 200 && resp.body == Items(Records(q.columns, q.rows))
  {
    ListEndpoint(connected, q, "Failed to fetch tables: ")
  }

  // --- historical KPIs ---

  type Hour = h: int | 0 <= h < 24
  type Minute = m: int | 0 <= m < 60

  /** A KpiHistory timestamp; only the time of day reaches the labels. */
  datatype Timestamp = Timestamp(day: int, hour: Hour, minute: Minute, second: int)

  /** One stored KpiHistory row. */
  datatype HistoryRow = HistoryRow(timestamp: Timestamp, cpuUsage: Value, memoryUsage: Value)

  function TwoDigits(n: nat): (s: string)
    requires n < 100
    ensures |s| == 2 && IsDigits(s) && DigitsValue(s) == n
  {
    var s := [Digit(n / 10), Digit(n % 10)];
    assert s[..1] == [Digit(n / 10)] && s[..1][..0] == [];
    assert DigitsValue(s[..1]) == n / 10;
    s
  }

  /** `strftime('%H:%M')`. */
  function Label(t: Timestamp): (s: string)
    ensures |s| == 5 && s[2] == ':'
    ensures IsDigits(s[..2]) && DigitsValue(s[..2]) == t.hour
    ensures IsDigits(s[3..]) && DigitsValue(s[3..]) == t.minute
  {
    var s := TwoDigits(t.hour) + ":" + TwoDigits(t.minute);
    assert s[..2] == TwoDigits(t.hour) && s[3..] == TwoDigits(t.minute);
    s
  }

  /** The three lists of /api/historical-kpis, each derived element-wise
      from the same ordered rows. */
  function HistoricalKpis(data: seq<HistoryRow>): (r: Series)
    ensures |r.labels| == |data| && |r.cpu| == |data| && |r.memory| == |data|
    ensures forall i :: 0 <= i < |data| ==>
      r.labels[i] == Label(data[i].timestamp) && r.cpu[i] == data[i].cpuUsage && r.memory[i] == data[i].memoryUsage
  {
    Series(seq(|data|, i requires 0 <= i < |data| => Label(data[i].timestamp)),
           seq(|data|, i requires 0 <= i < |data| => data[i].cpuUsage),
           seq(|data|, i requires 0 <= i < |data| => data[i].memoryUsage))
  }

  /** The series of a longer history extends the series of its first part:
      each position depends on its own row only. */
  lemma HistoricalExtends(a: seq<HistoryRow>, b: seq<HistoryRow>)
    ensures HistoricalKpis(a + b).labels == HistoricalKpis(a).labels + HistoricalKpis(b).labels
    ensures HistoricalKpis(a + b).cpu == HistoricalKpis(a).cpu + HistoricalKpis(b).cpu
    ensures HistoricalKpis(a + b).memory == HistoricalKpis(a).memory + HistoricalKpis(b).memory
  {
    var whole, left, right := HistoricalKpis(a + b), HistoricalKpis(a), HistoricalKpis(b);
    forall i | 0 <= i < |a| + |b|
      ensures whole.labels[i] == (left.labels + right.labels)[i]
      ensures whole.cpu[i] == (left.cpu + right.cpu)[i]
      ensures whole.memory[i] == (left.memory + right.memory)[i]
    {
      if i < |a| {
        assert (a + b)[i] == a[i];
      } else {
        assert (a + b)[i] == b[i - |a|];
      }
    }
  }

  // --- health check ---

  /** What one health-check query did: an HdbError, or the number of rows
      fetchall returned and the text Python prints for the first of them. */
  datatype CheckOutcome = CheckFailed(error: string) | CheckReturned(count: nat, firstRow: string)

  const CheckNames: seq<string> := ["Last Successful Data Backup", "Active Transactions"]

  const ConnectionEntry := HealthEntry("Connection", "Error", "Could not connect to HANA DB.")

  /** The report entry of one check. */
  function CheckEntry(name: string, outcome: CheckOutcome): (e: HealthEntry)
    ensures e.name == name
    ensures e.status == "Error" <==> outcome.CheckFailed?
    ensures e.status == "Warning" <==> outcome.CheckReturned? && outcome.count > 0
    ensures e.status == "OK" <==> outcome.CheckReturned? && outcome.count == 0
    ensures e.status == "Warning" ==> e.details == NatToString(outcome.count) + " issue(s) found. First row: " + outcome.firstRow
    ensures e.status == "Error" ==> e.details == "Query failed: " + outcome.error
  {
    match outcome
    case CheckFailed(err) => HealthEntry(name, "Error", "Query failed: " + err)
    case CheckReturned(count, firstRow) =>
      if count > 0 then HealthEntry(name, "Warning", NatToString(count) + " issue(s) found. First row: " + firstRow)
      else HealthEntry(name, "OK", "No issues found.")
  }

  /** What api_health_check returns: one Connection error without a
      connection, else one entry per check, in check order. */
  predicate IsHealthReport(connected: bool, outcomes: seq<CheckOutcome>, report: seq<HealthEntry>)
    requires |outcomes| == |CheckNames|
  {
    if !connected then report == [ConnectionEntry]
    else |report| == |CheckNames| && forall i :: 0 <= i < |CheckNames| ==> report[i] == CheckEntry(CheckNames[i], outcomes[i])
  }

  /** The `for check in checks` loop: append one entry per check. */
  method RunChecks(names: seq<string>, outcomes: seq<CheckOutcome>) returns (report: seq<HealthEntry>)
    requires |names| == |outcomes|
    ensures |report| == |names|
    ensures forall i :: 0 <= i < |names| ==> report[i] == CheckEntry(names[i], outcomes[i])
  {
    report := [];
    for i := 0 to |names|
      invariant |report| == i
      invariant forall k :: 0 <= k < i ==> report[k] == CheckEntry(names[k], outcomes[k])
    {
      match outcomes[i] {
        case CheckFailed(err) =>
          report := report + [HealthEntry(names[i], "Error", "Query failed: " + err)];
        case CheckReturned(count, firstRow) =>
          if count > 0 {
            report := report + [HealthEntry(names[i], "Warning", NatToString(count) + " issue(s) found. First row: " + firstRow)];
          } else {
            report := report + [HealthEntry(names[i], "OK", "No issues found.")];
          }
      }
    }
  }

  /** /api/health-check. */
  method ApiHealthCheck(connected: bool, outcomes: seq<CheckOutcome>) returns (report: seq<HealthEntry>)
    requires |outcomes| == |CheckNames|
    ensures IsHealthReport(connected, outcomes, report)
    ensures forall i :: 0 <= i < |report| ==> report[i].status in {"OK", "Warning", "Error"}
  {
    if !connected {
      return [ConnectionEntry];
    }
    report := RunChecks(CheckNames, outcomes);
  }
}
