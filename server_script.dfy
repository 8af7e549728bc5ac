/** The ad-hoc script endpoint (`execute_script`, app.py lines 153-169):
    it classifies the script as a query or a command by its text and
    builds the success or error envelope. */
module ServerScript {
  import opened Json
  import opened Wire
  import opened Rows

  /** Python's `str.isspace`, which `str.strip()` trims. */
  predicate IsSpace(c: char) {
    || c == ' ' || ('\t' <= c <= '\r') || ('\U{1C}' <= c <= '\U{1F}')
    || c == '\U{85}' || c == '\U{A0}' || c == '\U{1680}'
    || ('\U{2000}' <= c <= '\U{200A}') || c == '\U{2028}' || c == '\U{2029}'
    || c == '\U{202F}' || c == '\U{205F}' || c == '\U{3000}'
  }

  function LStrip(s: string): (r: string)
    ensures |r| <= |s| && r == s[|s| - |r|..]
    ensures forall i :: 0 <= i < |s| - |r| ==> IsSpace(s[i])
    ensures r != [] ==> !IsSpace(r[0])
  {
    if s != [] && IsSpace(s[0]) then LStrip(s[1..]) else s
  }

  function RStrip(s: string): (r: string)
    ensures |r| <= |s| && r == s[..|r|]
    ensures forall i :: |r| <= i < |s| ==> IsSpace(s[i])
    ensures r != [] ==> !IsSpace(r[|r| - 1])
  {
    if s != [] && IsSpace(s[|s| - 1]) then RStrip(s[..|s| - 1]) else s
  }

  /** `str.strip()`: the part of `s` between its leading and its trailing
      white space. */
  function Strip(s: string): (r: string)
    ensures var lead := |s| - |LStrip(s)|;
      && lead + |r| <= |s| && r == s[lead..lead + |r|]
      && (forall i :: 0 <= i < lead ==> IsSpace(s[i]))
      && (forall i :: lead + |r| <= i < |s| ==> IsSpace(s[i]))
    ensures r != [] ==> !IsSpace(r[0]) && !IsSpace(r[|r| - 1])
  {
    RStrip(LStrip(s))
  }

  /** `str.upper()` for one character: the ASCII letters, and the long s,
      whose upper-case form is S. */
  function UpperChar(c: char): char {
    if 'a' <= c <= 'z' then (c as int - 32) as char
    else if c == '\U{17F}' then 'S'
    else c
  }

  function Upper(s: string): (r: string)
    ensures |r| == |s|
    ensures forall i :: 0 <= i < |s| ==> r[i] == UpperChar(s[i])
  {
    seq(|s|, i requires 0 <= i < |s| => UpperChar(s[i]))
  }

  predicate StartsWith(s: string, prefix: string) {
    |prefix| <= |s| && s[..|prefix|] == prefix
  }

  const Select := "SELECT"

  /** `script.strip().upper().startswith('SELECT')`: the stripped script has
      at least six characters and they upper-case to S, E, L, E, C, T. */
  predicate IsQuery(script: string)
    ensures IsQuery(script) <==>
      6 <= |Strip(script)| && forall i :: 0 <= i < 6 ==> UpperChar(Strip(script)[i]) == Select[i]
  {
    StartsWith(Upper(Strip(script)), Select)
  }

  /** Upper-casing leaves white space alone, so no letter of SELECT comes from a space. */
  lemma SpaceIsNotALetter(c: char)
    requires IsSpace(c)
    ensures UpperChar(c) == c && c !in Select
  {
  }

  /** A prefix that upper-cases to SELECT survives trimming the end. */
  lemma RStripKeepsSelect(t: string)
    requires StartsWith(Upper(t), Select)
    ensures StartsWith(Upper(RStrip(t)), Select)
  {
    var r := RStrip(t);
    assert Upper(t)[5] == 'T';
    if |r| < 6 {
      SpaceIsNotALetter(t[5]);
      assert false;
    }
    forall i | 0 <= i < 6 ensures Upper(r)[i] == Upper(t)[i] {
      assert r[i] == t[i];
    }
  }

  /** Trimming the end never matters: a script is a query exactly when its
      first six characters after the leading white space read SELECT in
      any case. */
  lemma IsQueryByLeadingText(script: string)
    ensures IsQuery(script) <==> StartsWith(Upper(LStrip(script)), Select)
  {
    var t := LStrip(script);
    var r := RStrip(t);
    if StartsWith(Upper(t), Select) {
      RStripKeepsSelect(t);
    }
    if IsQuery(script) {
      forall i | 0 <= i < 6 ensures Upper(t)[i] == Upper(r)[i] {
        assert r[i] == t[i];
      }
    }
  }

  /** The leading white space `LStrip` removes ends at the first other character. */
  lemma {:induction false} LStripSkips(s: string, lead: nat)
    requires lead < |s|
    requires forall i :: 0 <= i < lead ==> IsSpace(s[i])
    requires !IsSpace(s[lead])
    ensures LStrip(s) == s[lead..]
  {
    if lead > 0 {
      LStripSkips(s[1..], lead - 1);
      assert s[1..][lead - 1..] == s[lead..];
    }
  }

  /** A script whose first non-blank character is not s, S or the long s is a command. */
  lemma CommandByFirstLetter(script: string, lead: nat)
    requires lead < |script|
    requires forall i :: 0 <= i < lead ==> IsSpace(script[i])
    requires !IsSpace(script[lead]) && UpperChar(script[lead]) != 'S'
    ensures !IsQuery(script)
  {
    var t := LStrip(script);
    LStripSkips(script, lead);
    IsQueryByLeadingText(script);
    assert Upper(t)[0] == UpperChar(script[lead]);
    assert !StartsWith(Upper(t), Select) by {
      assert Select[0] == 'S';
    }
  }

  /** What the driver did with the script. */
  datatype Execution =
    | ExecutionFailed(error: string)
      // an HdbError raised inside the try other than by the commit: opening
      // or closing the cursor, execute, or fetchall
    | Executed(columns: seq<string>, rows: seq<seq<Value>>, rowCount: int, commitError: Option<string>)
      // the statement ran; columns come from cursor.description; commitError
      // is an HdbError raised by the commit that follows a command

  const NoConnectionError := "Database connection failed."
  const FailurePrefix := "Execution failed: "

  /** The HdbError the endpoint catches, if any. */
  function Failure(script: string, run: Execution): Option<string> {
    match run
    case ExecutionFailed(e) => Some(e)
    case Executed(_, _, _, commitError) => if IsQuery(script) then None else commitError
  }

  /** The response /api/execute-script sends. */
  function ExecuteScript(connected: bool, script: string, run: Execution): (resp: Response<Envelope>)
    ensures WellFormed(resp.body)
    ensures resp.body.success.None? <==> !connected
    ensures resp.status == 200 <==> resp.body.success == Some(true)
    ensures resp.status != 200 ==> resp.status == 500
    ensures resp.body.rows.Some? <==> connected && run.Executed? && IsQuery(script)
    ensures resp.body.rows.Some? ==>
      resp.body.columns == Some(run.columns) && |resp.body.rows.value| == |run.rows|
      && forall i :: 0 <= i < |run.rows| ==> resp.body.rows.value[i] == Zip(run.columns, run.rows[i])
    ensures resp.body.message.Some? ==>
      run.Executed? && resp.body.message.value == IntToString(run.rowCount) + " rows affected."
    ensures !connected ==> resp.body.error == Some(NoConnectionError)
    ensures connected && Failure(script, run).Some? ==>
      resp.body == Envelope(Some(false), None, Some(FailurePrefix + Failure(script, run).value), None, None)
    ensures connected && Failure(script, run).None? ==> resp.body.success == Some(true)
  {
    if !connected then
      Response(500, Envelope(None, None, Some(NoConnectionError), None, None))
    else match run
      case ExecutionFailed(e) =>
        Response(500, Envelope(Some(false), None, Some(FailurePrefix + e), None, None))
      case Executed(columns, rows, rowCount, commitError) =>
        if IsQuery(script) then
          Response(200, Envelope(Some(true), None, None, Some(columns), Some(Records(columns, rows))))
        else if commitError.Some? then
          Response(500, Envelope(Some(false), None, Some(FailurePrefix + commitError.value), None, None))
        else
          Response(200, Envelope(Some(true), Some(IntToString(rowCount) + " rows affected."), None, None, None))
  }
}
