/** The list pages: active sessions (`loadSessions`, static/js/script.js
    lines 136-158), the table explorer (`loadTables`, lines 168-186) and the
    health-check report (lines 217-238). Each clears its table body and
    then appends rows with `innerHTML +=`; a body is modelled as its
    sequence of rows. */
module ClientLists {
  import opened Json
  import opened Wire

  datatype Tone = TextDanger | TextMuted

  datatype Cell =
    | Plain(text: string)             // <td>text</td>
    | Badge(text: string)             // <td><span class="badge bg-secondary">text</span></td>
    | KillButton(target: string)      // <td><button ... onclick="killSession(target)">Kill</button></td>
    | Localized(value: Value)         // <td>value.toLocaleString()</td>
    | Strong(cls: string, text: string) // <td class="cls"><strong>text</strong></td>, no class when cls is empty
    | Small(text: string)             // <td><small class="text-muted">text</small></td>

  datatype Row =
    | Notice(colspan: nat, tone: Tone, text: string) // one centred cell across the table
    | Cells(cells: seq<Cell>)

  /** A table body after a load: its rows, and whether the handler threw
      part-way (the rows appended before the throw stay). */
  datatype Listing = Listing(rows: seq<Row>, threw: bool)

  const NoSessions := "No active sessions found."

  /** `${v || 'N/A'}`: a falsy value (null, the empty string, 0) shows as N/A. */
  function OrNA(v: Value): (s: string)
    ensures Truthy(v) ==> s == Show(v)
    ensures !Truthy(v) ==> s == "N/A"
  {
    if Truthy(v) then Show(v) else "N/A"
  }

  /** One session row: id, "host (ip)", status badge and a Kill button for the id. */
  function SessionRow(s: Record): (r: Row)
    ensures r.Cells? && |r.cells| == 4
    ensures r.cells[0] == Plain(Show(Field(s, "CONNECTION_ID")))
    ensures r.cells[3] == KillButton(Show(Field(s, "CONNECTION_ID")))
    ensures r.cells[1] == Plain(OrNA(Field(s, "CLIENT_HOST")) + " (" + OrNA(Field(s, "CLIENT_IP")) + ")")
    ensures r.cells[2] == Badge(Show(Field(s, "CONNECTION_STATUS")))
  {
    Cells([Plain(Show(Field(s, "CONNECTION_ID"))),
           Plain(OrNA(Field(s, "CLIENT_HOST")) + " (" + OrNA(Field(s, "CLIENT_IP")) + ")"),
           Badge(Show(Field(s, "CONNECTION_STATUS"))),
           KillButton(Show(Field(s, "CONNECTION_ID")))])
  }

  /** The session body for a response: one error row, one "none found" row,
      or one row per session in order. An `{error: ""}` object is falsy
      there and leaves the body empty with a TypeError. */
  function SessionListing(data: ListBody): (l: Listing)
    ensures data.ErrorBody? && data.error != "" ==> l == Listing([Notice(4, TextDanger, data.error)], false)
    ensures data == ErrorBody("") ==> l == Listing([], true)
    ensures data == Items([]) ==> l == Listing([Notice(4, TextMuted, NoSessions)], false)
    ensures data.Items? && data.records != [] ==>
      !l.threw && |l.rows| == |data.records| && forall i :: 0 <= i < |data.records| ==> l.rows[i] == SessionRow(data.records[i])
  {
    match data
    case ErrorBody(e) => if e != "" then Listing([Notice(4, TextDanger, e)], false) else Listing([], true)
    case Items(records) =>
      if records == [] then Listing([Notice(4, TextMuted, NoSessions)], false)
      else Listing(seq(|records|, i requires 0 <= i < |records| => SessionRow(records[i])), false)
  }

  /** loadSessions: clear the body, then the two early returns, then one
      `innerHTML +=` per session. */
  method LoadSessions(data: ListBody) returns (body: Listing)
    ensures body == SessionListing(data)
  {
    body := Listing([], false);
    if data.ErrorBody? && data.error != "" {
      body := Listing([Notice(4, TextDanger, data.error)], false);
      return;
    }
    if data.ErrorBody? {
      body := body.(threw := true);
      return;
    }
    if |data.records| == 0 {
      body := Listing([Notice(4, TextMuted, NoSessions)], false);
      return;
    }
    var rows: seq<Row> := [];
    for i := 0 to |data.records|
      invariant |rows| == i
      invariant forall k :: 0 <= k < i ==> rows[k] == SessionRow(data.records[k])
    {
      rows := rows + [SessionRow(data.records[i])];
    }
    body := Listing(rows, false);
  }

  /** `toLocaleString()` throws on null and undefined. */
  predicate Localizable(v: Value)
    ensures Localizable(v) <==> !v.Null? && !v.Undefined?
  {
    !Js(v).Null? && !Js(v).Undefined?
  }

  predicate TableRowRenders(t: Record) {
    Localizable(Field(t, "RECORD_COUNT")) && Localizable(Field(t, "MEMORY_MB"))
  }

  /** One table row: schema, name, and the two counts, formatted. */
  function TableRow(t: Record): (r: Row)
    ensures r.Cells? && |r.cells| == 4
    ensures r.cells[0] == Plain(Show(Field(t, "SCHEMA_NAME")))
    ensures r.cells[1] == Plain(Show(Field(t, "TABLE_NAME")))
    ensures r.cells[2] == Localized(Field(t, "RECORD_COUNT"))
    ensures r.cells[3] == Localized(Field(t, "MEMORY_MB"))
  {
    Cells([Plain(Show(Field(t, "SCHEMA_NAME"))), Plain(Show(Field(t, "TABLE_NAME"))),
           Localized(Field(t, "RECORD_COUNT")), Localized(Field(t, "MEMORY_MB"))])
  }

  /** The rows forEach appends before the first record whose counts cannot
      be formatted; `threw` says whether there was one. */
  function TableRows(records: seq<Record>): (l: Listing)
    ensures |l.rows| <= |records|
    ensures forall i :: 0 <= i < |l.rows| ==> l.rows[i] == TableRow(records[i]) && TableRowRenders(records[i])
    ensures !l.threw ==> |l.rows| == |records|
    ensures l.threw ==> |l.rows| < |records| && !TableRowRenders(records[|l.rows|])
  {
    if records == [] then Listing([], false)
    else
      var before := TableRows(records[..|records| - 1]);
      var last := records[|records| - 1];
      if before.threw then before
      else if !TableRowRenders(last) then before.(threw := true)
      else before.(rows := before.rows + [TableRow(last)])
  }

  /** The table body for a response. Unlike the session page there is no
      "none found" row: an empty list leaves the body empty. */
  function TableListing(data: ListBody): (l: Listing)
    ensures data.ErrorBody? && data.error != "" ==> l == Listing([Notice(4, TextDanger, data.error)], false)
    ensures data == ErrorBody("") ==> l == Listing([], true)
    ensures data == Items([]) ==> l == Listing([], false)
    ensures data.Items? ==> l == TableRows(data.records)
  {
    match data
    case ErrorBody(e) => if e != "" then Listing([Notice(4, TextDanger, e)], false) else Listing([], true)
    case Items(records) => TableRows(records)
  }

  /** loadTables: clear the body, the error return, then one `innerHTML +=`
      per table until a record cannot be formatted. */
  method LoadTables(data: ListBody) returns (body: Listing)
    ensures body == TableListing(data)
  {
    body := Listing([], false);
    if data.ErrorBody? {
      if data.error != "" {
        body := Listing([Notice(4, TextDanger, data.error)], false);
      } else {
        body := body.(threw := true);
      }
      return;
    }
    var records := data.records;
    var i := 0;
    while i < |records| && !body.threw
      invariant 0 <= i <= |records|
      invariant body == TableRows(records[..i])
      invariant body.threw ==> TableRows(records[..i]) == TableRows(records)
    {
      assert records[..i + 1][..i] == records[..i];
      if TableRowRenders(records[i]) {
        body := body.(rows := body.rows + [TableRow(records[i])]);
      } else {
        body := body.(threw := true);
        StaysThrown(records, i + 1);
      }
      i := i + 1;
    }
    if !body.threw {
      assert records[..i] == records;
    }
  }

  /** Once a prefix has thrown, the longer lists give the same listing. */
  lemma {:induction false} StaysThrown(records: seq<Record>, n: nat)
    requires n <= |records| && TableRows(records[..n]).threw
    ensures TableRows(records) == TableRows(records[..n])
    decreases |records| - n
  {
    if n < |records| {
      assert records[..n + 1][..n] == records[..n];
      StaysThrown(records, n + 1);
    } else {
      assert records[..n] == records;
    }
  }

  /** The class of a status cell. */
  function StatusClass(status: string): (c: string)
    ensures c == "text-warning" <==> status == "Warning"
    ensures c == "text-danger" <==> status == "Error"
    ensures c == "text-success" <==> status != "Warning" && status != "Error"
  {
    if status == "Error" then "text-danger"
    else if status == "Warning" then "text-warning"
    else "text-success"
  }

  /** One health-check row: the name, the status in its class, the details. */
  function HealthRow(check: HealthEntry): (r: Row)
    ensures r.Cells? && |r.cells| == 3
    ensures r.cells[0] == Strong("", check.name)
    ensures r.cells[1] == Strong(StatusClass(check.status), check.status)
    ensures r.cells[2] == Small(check.details)
  {
    Cells([Strong("", check.name), Strong(StatusClass(check.status), check.status), Small(check.details)])
  }

  /** The health-check click handler after the report arrived: clear the
      body, then one row per entry, in report order. */
  method RenderHealthReport(report: seq<HealthEntry>) returns (rows: seq<Row>)
    ensures |rows| == |report|
    ensures forall i :: 0 <= i < |report| ==> rows[i] == HealthRow(report[i])
  {
    rows := [];
    for i := 0 to |report|
      invariant |rows| == i
      invariant forall k :: 0 <= k < i ==> rows[k] == HealthRow(report[k])
    {
      var check := report[i];
      var statusClass := "text-success";
      if check.status == "Warning" { statusClass := "text-warning"; }
      if check.status == "Error" { statusClass := "text-danger"; }
      rows := rows + [Cells([Strong("", check.name), Strong(statusClass, check.status), Small(check.details)])];
    }
  }
}
