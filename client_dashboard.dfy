/** The live dashboard (`updateDashboardUI`, static/js/script.js lines
    52-108): a top-level error banner, then a CPU gauge, a memory gauge and
    an active-sessions counter, each with its own placeholder handling. */
module ClientDashboard {
  import opened Json
  import opened Wire

  /** `style.width` of a progress bar. The memory percentage is float
      arithmetic and stays symbolic. */
  datatype Width =
    | Percent(text: string)            // `${text}%`
    | UsageRatio(used: Value, total: Value) // `${total > 0 ? used / total * 100 : 0}%`

  /** A progress bar: its text, its width and whether it carries bg-danger. */
  datatype Bar = Bar(text: string, width: Width, danger: bool)

  /** A metric's caption text and its bar. */
  datatype Gauge = Gauge(text: string, bar: Bar)

  /** The error box: its `display` and its text. */
  datatype Banner = Banner(visible: bool, text: string)

  /** `v === 'Error' || v === 'N/A'`: the server's two placeholders, or a
      value jsonify writes as one of those strings. */
  predicate IsPlaceholder(v: Value)
    ensures IsPlaceholder(v) <==> v in {ErrorMark, NotAvailable, Opaque("Error"), Opaque("N/A")}
  {
    JsEquals(v, "Error") || JsEquals(v, "N/A")
  }

  const ErrorGauge := Gauge("Error", Bar("Error", Percent("100"), true))

  /** The CPU gauge: a placeholder gives a full red "Error" bar; any other
      value is shown as a percentage without bg-danger. */
  function CpuGauge(cpu: Value): (g: Gauge)
    ensures g.bar.danger <==> IsPlaceholder(cpu)
    ensures IsPlaceholder(cpu) ==> g == ErrorGauge
    ensures !IsPlaceholder(cpu) ==> g.text == Show(cpu) + "%" && g.bar.text == g.text && g.bar.width == Percent(Show(cpu))
  {
    if IsPlaceholder(cpu) then ErrorGauge
    else Gauge(Show(cpu) + "%", Bar(Show(cpu) + "%", Percent(Show(cpu)), false))
  }

  /** The memory gauge: the same rule on `used`; otherwise "used GB / total GB". */
  function MemoryGauge(m: Memory): (g: Gauge)
    ensures g.bar.danger <==> IsPlaceholder(m.used)
    ensures IsPlaceholder(m.used) ==> g == ErrorGauge
    ensures !IsPlaceholder(m.used) ==>
      g.text == Show(m.used) + "GB / " + Show(m.total) + "GB" && g.bar.text == Show(m.used) + "GB"
      && g.bar.width == UsageRatio(m.used, m.total)
  {
    if IsPlaceholder(m.used) then ErrorGauge
    else Gauge(Show(m.used) + "GB / " + Show(m.total) + "GB", Bar(Show(m.used) + "GB", UsageRatio(m.used, m.total), false))
  }

  /** The session counter: a placeholder shows as X, any other value verbatim. */
  function SessionsText(sessions: Value): (s: string)
    ensures IsPlaceholder(sessions) ==> s == "X"
    ensures !IsPlaceholder(sessions) ==> s == TextContent(sessions)
  {
    if IsPlaceholder(sessions) then "X" else TextContent(sessions)
  }

  /** The banner text when `data.error` is truthy. */
  function ErrorText(data: Kpis): (t: Option<string>)
    ensures t.Some? <==> TruthyText(data.error)
    ensures t.Some? ==> t.value == "Database Error: " + data.error.value
  {
    if TruthyText(data.error) then Some("Database Error: " + data.error.value) else None
  }

  /** The dashboard's widgets. The error box is created hidden when the page
      lacks one, so it is always there by the time it is written. */
  class Dashboard {
    var banner: Banner
    var cpu: Gauge
    var memory: Gauge
    var sessions: string

    /** updateDashboardUI: a truthy `error` shows the banner and leaves every
        widget as it was; otherwise the banner is hidden and each widget is
        redrawn from its own field. */
    method UpdateDashboardUI(data: Kpis)
      modifies this
      ensures ErrorText(data).Some? ==>
        banner == Banner(true, ErrorText(data).value)
        && cpu == old(cpu) && memory == old(memory) && sessions == old(sessions)
      ensures ErrorText(data).None? ==>
        banner == old(banner).(visible := false)
        && cpu == CpuGauge(data.cpuUsage)
        && memory == MemoryGauge(data.memoryUsage)
        && sessions == SessionsText(data.activeSessions)
    {
      if data.error.Some? && data.error.value != "" {
        banner := Banner(true, "Database Error: " + data.error.value);
        return;
      }
      banner := banner.(visible := false);

      if JsEquals(data.cpuUsage, "Error") || JsEquals(data.cpuUsage, "N/A") {
        cpu := Gauge("Error", Bar("Error", Percent("100"), true));
      } else {
        cpu := Gauge(Show(data.cpuUsage) + "%", Bar(Show(data.cpuUsage) + "%", Percent(Show(data.cpuUsage)), false));
      }

      var used, total := data.memoryUsage.used, data.memoryUsage.total;
      if JsEquals(used, "Error") || JsEquals(used, "N/A") {
        memory := Gauge("Error", Bar("Error", Percent("100"), true));
      } else {
        memory := Gauge(Show(used) + "GB / " + Show(total) + "GB", Bar(Show(used) + "GB", UsageRatio(used, total), false));
      }

      if JsEquals(data.activeSessions, "Error") || JsEquals(data.activeSessions, "N/A") {
        sessions := "X";
      } else {
        sessions := TextContent(data.activeSessions);
      }
    }
  }
}
