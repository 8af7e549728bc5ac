/** The KPI record the server assembles from three guarded queries
    (`get_hana_kpis`) and the rule that decides whether the scheduled job
    stores a sample of it (`log_kpi_job`). */
module ServerKpis {
  import opened Json
  import opened Wire

  /** What one `execute` + `fetchone` gave: an HdbError, or the row (None
      when the result set was empty). */
  datatype Fetch = Raised(error: string) | Fetched(row: Option<seq<Value>>)

  /** What the database did during one call of get_hana_kpis. */
  datatype Probe =
    | NoConnection
      // get_hana_connection returned None
    | CursorFailed(error: string)
      // opening the cursor raised, before any query ran
    | Probed(cpu: Fetch, cpuPercent: Value, memory: Fetch, sessions: Fetch, closeError: Option<string>)
      // the three queries ran; cpuPercent is the percentage lines 76-79
      // compute from the CPU text; closeError is an HdbError raised when
      // the cursor closed at the end of the `with` block

  const ConnectionFailed := "Database connection failed. Please check .env file and network."
  const CriticalPrefix := "A critical SQL error occurred: "

  /** `row and row[0] is not None`: a row with a first value that is not null. */
  predicate HasFirstValue(row: Option<seq<Value>>) {
    row.Some? && |row.value| > 0 && row.value[0] != Null
  }

  /** Python truthiness of a row: present and not empty. */
  predicate HasRow(row: Option<seq<Value>>) {
    row.Some? && |row.value| > 0
  }

  /** The CPU percentage is `round(...)`, a float, or the int 0. */
  predicate IsPercent(v: Value) {
    v.Float? || v == Int(0)
  }

  /** What the queries' shapes guarantee: the memory query selects two
      columns, and the CPU arithmetic yields a percentage. */
  predicate WellShaped(p: Probe) {
    p.Probed? ==>
      && IsPercent(p.cpuPercent)
      && (p.memory.Fetched? && HasFirstValue(p.memory.row) ==> |p.memory.row.value| >= 2)
  }

  const Defaults := Kpis(NotAvailable, Memory(NotAvailable, NotAvailable), NotAvailable, None)

  function CpuUsage(f: Fetch, percent: Value): Value {
    match f
    case Raised(_) => ErrorMark
    case Fetched(row) => if HasFirstValue(row) then percent else NotAvailable
  }

  function MemoryUsage(f: Fetch): Memory
    requires f.Fetched? && HasFirstValue(f.row) ==> |f.row.value| >= 2
  {
    match f
    case Raised(_) => Memory(ErrorMark, ErrorMark)
    case Fetched(row) =>
      if HasFirstValue(row) then Memory(row.value[0], row.value[1]) else Memory(NotAvailable, NotAvailable)
  }

  function ActiveSessions(f: Fetch): Value {
    match f
    case Raised(_) => ErrorMark
    case Fetched(row) => if HasRow(row) then row.value[0] else NotAvailable
  }

  /** The record get_hana_kpis returns, field by field: error is set exactly
      when no connection, no cursor, or a failure closing the cursor; each
      metric is Error when its query raised, N/A when nothing came back or
      no query ran, and the value read otherwise. */
  function KpiRecord(p: Probe): (k: Kpis)
    requires WellShaped(p)
    ensures k.error.Some? <==> !p.Probed? || p.closeError.Some?
    ensures p.NoConnection? ==> k.error == Some(ConnectionFailed)
    ensures p.CursorFailed? ==> k.error == Some(CriticalPrefix + p.error)
    ensures p.Probed? && p.closeError.Some? ==> k.error == Some(CriticalPrefix + p.closeError.value)
    ensures !p.Probed? ==> k == Defaults.(error := k.error)
    ensures p.Probed? ==>
      && (k.cpuUsage == ErrorMark <==> p.cpu.Raised?)
      && (k.cpuUsage == NotAvailable <==> p.cpu.Fetched? && !HasFirstValue(p.cpu.row))
      && (p.cpu.Fetched? && HasFirstValue(p.cpu.row) ==> k.cpuUsage == p.cpuPercent)
    ensures p.Probed? ==>
      && (p.memory.Raised? ==> k.memoryUsage == Memory(ErrorMark, ErrorMark))
      && (p.memory.Fetched? && !HasFirstValue(p.memory.row) ==> k.memoryUsage == Memory(NotAvailable, NotAvailable))
      && (p.memory.Fetched? && HasFirstValue(p.memory.row) ==> k.memoryUsage == Memory(p.memory.row.value[0], p.memory.row.value[1]))
    ensures p.Probed? ==>
      && (p.sessions.Raised? ==> k.activeSessions == ErrorMark)
      && (p.sessions.Fetched? && !HasRow(p.sessions.row) ==> k.activeSessions == NotAvailable)
      && (p.sessions.Fetched? && HasRow(p.sessions.row) ==> k.activeSessions == p.sessions.row.value[0])
  {
    match p
    case NoConnection => Defaults.(error := Some(ConnectionFailed))
    case CursorFailed(e) => Defaults.(error := Some(CriticalPrefix + e))
    case Probed(cpu, percent, memory, sessions, closeError) =>
      Kpis(CpuUsage(cpu, percent), MemoryUsage(memory), ActiveSessions(sessions),
           if closeError.Some? then Some(CriticalPrefix + closeError.value) else None)
  }

  /** get_hana_kpis: start from the defaults and overwrite one field per
      guarded step, in the source's order. */
  method GetHanaKpis(p: Probe) returns (kpis: Kpis)
    requires WellShaped(p)
    ensures kpis == KpiRecord(p)
    ensures kpis.error.None? ==> p.Probed?
  {
    kpis := Defaults;
    if p.NoConnection? {
      kpis := kpis.(error := Some(ConnectionFailed));
      return;
    }
    if p.CursorFailed? {
      kpis := kpis.(error := Some(CriticalPrefix + p.error));
      return;
    }
    // KPI 1: CPU
    match p.cpu {
      case Raised(_) =>
        kpis := kpis.(cpuUsage := ErrorMark);
      case Fetched(row) =>
        if row.Some? && |row.value| > 0 && row.value[0] != Null {
          kpis := kpis.(cpuUsage := p.cpuPercent);
        }
    }
    // KPI 2: memory
    match p.memory {
      case Raised(_) =>
        kpis := kpis.(memoryUsage := Memory(ErrorMark, ErrorMark));
      case Fetched(row) =>
        if row.Some? && |row.value| > 0 && row.value[0] != Null {
          kpis := kpis.(memoryUsage := Memory(row.value[0], row.value[1]));
        }
    }
    // KPI 3: active sessions
    match p.sessions {
      case Raised(_) =>
        kpis := kpis.(activeSessions := ErrorMark);
      case Fetched(row) =>
        if row.Some? && |row.value| > 0 {
          kpis := kpis.(activeSessions := row.value[0]);
        }
    }
    if p.closeError.Some? {
      kpis := kpis.(error := Some(CriticalPrefix + p.closeError.value));
    }
  }

  /** Without a connection only `error` is set; every metric stays N/A. */
  lemma NoConnectionKeepsDefaults()
    ensures KpiRecord(NoConnection).error == Some(ConnectionFailed)
    ensures KpiRecord(NoConnection).cpuUsage == NotAvailable
    ensures KpiRecord(NoConnection).memoryUsage == Memory(NotAvailable, NotAvailable)
    ensures KpiRecord(NoConnection).activeSessions == NotAvailable
  {
  }

  /** A failing CPU query marks only cpu_usage: whatever the query would
      otherwise have given, every other field is the same. */
  lemma CpuFailureIsolated(p: Probe, e: string, other: Fetch)
    requires p.Probed? && WellShaped(p)
    ensures KpiRecord(p.(cpu := Raised(e))) == KpiRecord(p.(cpu := other)).(cpuUsage := ErrorMark)
  {
  }

  /** A failing memory query marks only memory_usage, both of its members. */
  lemma MemoryFailureIsolated(p: Probe, e: string, other: Fetch)
    requires p.Probed? && WellShaped(p) && WellShaped(p.(memory := other))
    ensures KpiRecord(p.(memory := Raised(e))) == KpiRecord(p.(memory := other)).(memoryUsage := Memory(ErrorMark, ErrorMark))
  {
  }

  /** A failing session-count query marks only active_sessions. */
  lemma SessionsFailureIsolated(p: Probe, e: string, other: Fetch)
    requires p.Probed? && WellShaped(p)
    ensures KpiRecord(p.(sessions := Raised(e))) == KpiRecord(p.(sessions := other)).(activeSessions := ErrorMark)
  {
  }

  /** An empty result or a null first value leaves CPU and memory at N/A;
      for the session count only an empty result does. */
  lemma MissingValuesKeepDefaults(p: Probe)
    requires p.Probed? && WellShaped(p)
    ensures p.cpu.Fetched? && !HasFirstValue(p.cpu.row) ==> KpiRecord(p).cpuUsage == NotAvailable
    ensures p.memory.Fetched? && !HasFirstValue(p.memory.row) ==> KpiRecord(p).memoryUsage == Memory(NotAvailable, NotAvailable)
    ensures p.sessions.Fetched? && !HasRow(p.sessions.row) ==> KpiRecord(p).activeSessions == NotAvailable
    ensures p.sessions == Fetched(Some([Null])) ==> KpiRecord(p).activeSessions == Null
  {
  }

  /** One row of the KpiHistory table. */
  datatype Sample = Sample(cpuUsage: Value, memoryUsage: Value)

  /** log_kpi_job's guard: no error, and both metrics numeric. */
  predicate ShouldLog(k: Kpis)
    ensures ShouldLog(k) ==> k.error.None? || k.error == Some("")
    ensures ShouldLog(k) ==> !k.cpuUsage.Str? && !k.memoryUsage.used.Str? && !k.memoryUsage.used.Opaque?
  {
    !TruthyText(k.error) && IsNumber(k.cpuUsage) && IsNumber(k.memoryUsage.used)
  }

  /** The sample log_kpi_job adds to the database, if any. */
  function LogKpiJob(k: Kpis): (s: Option<Sample>)
    ensures s.Some? <==> ShouldLog(k)
    ensures s.Some? ==> s.value.cpuUsage == k.cpuUsage && s.value.memoryUsage == k.memoryUsage.used
    ensures s.Some? ==> IsNumber(s.value.cpuUsage) && IsNumber(s.value.memoryUsage)
  {
    if ShouldLog(k) then Some(Sample(k.cpuUsage, k.memoryUsage.used)) else None
  }

  /** A placeholder is never logged, in either metric. */
  lemma PlaceholdersNeverLogged(k: Kpis)
    requires k.cpuUsage in {NotAvailable, ErrorMark} || k.memoryUsage.used in {NotAvailable, ErrorMark}
    ensures LogKpiJob(k) == None
  {
  }

  /** A sample is stored only when the connection, the cursor and both the
      CPU and memory queries succeeded and returned a value, and the memory
      value is a Python number; a decimal.Decimal (an Opaque value) is not. */
  lemma LoggedOnlyAfterCleanProbe(p: Probe)
    requires WellShaped(p)
    requires LogKpiJob(KpiRecord(p)).Some?
    ensures p.Probed? && p.closeError.None?
    ensures p.cpu.Fetched? && HasFirstValue(p.cpu.row)
    ensures p.memory.Fetched? && HasFirstValue(p.memory.row) && IsNumber(p.memory.row.value[0])
  {
  }
}
