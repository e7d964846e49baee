/** The loop of `run_vpn` that reads the process's output line by line, as
    a function of the lines it is given, and the message it leaves when the
    process ends before a terminal line was seen. */
module ReadLoop {
  import opened Wrappers
  import opened Text
  import opened ConnectionState
  import opened Classifier

  /** One `readline()` and what the world answers around it: the line (the
      empty string is end of stream), the address lookup and clock used if
      the line is the success line, and `poll()` after the line is handled
      (`None` while the process runs, its exit code once it has exited). */
  datatype Observation = Observation(line: string, ip: string, now: int, poll: Option<int>)

  /** The state when the loop ends, and the process's `returncode` then:
      the exit code if a poll saw the exit, `None` if the stream ended
      first. */
  datatype LoopResult = LoopResult(conn: Conn, returncode: Option<int>)

  /** The loop over `stream` with `step` as its body: stop at end of
      stream, otherwise handle the line and stop if the poll saw the
      process exit. */
  function Run(step: (Conn, Observation) -> Conn, c: Conn, stream: seq<Observation>): LoopResult
    decreases |stream|
  {
    if stream == [] || stream[0].line == "" then LoopResult(c, None)
    else
      var next := step(c, stream[0]);
      if stream[0].poll.Some? then LoopResult(next, stream[0].poll)
      else Run(step, next, stream[1..])
  }

  /** The body of `run_vpn`'s loop for one observation. */
  function StepOn(c: Conn, o: Observation): Conn {
    Step(c, o.line, o.ip, o.now)
  }

  /** The read loop of `run_vpn`. */
  function ReadAll(c: Conn, stream: seq<Observation>): LoopResult {
    Run(StepOn, c, stream)
  }

  /** One turn of the loop. */
  lemma ReadAllStep(c: Conn, stream: seq<Observation>)
    requires stream != [] && stream[0].line != ""
    ensures var next := Step(c, stream[0].line, stream[0].ip, stream[0].now);
      ReadAll(c, stream) == if stream[0].poll.Some? then LoopResult(next, stream[0].poll)
                            else ReadAll(next, stream[1..])
  {
    assert StepOn(c, stream[0]) == Step(c, stream[0].line, stream[0].ip, stream[0].now);
  }

  /** Whatever the body does, nothing past the line after which the loop
      breaks is ever read. */
  lemma {:induction false} RunStopsAtBreak(step: (Conn, Observation) -> Conn, c: Conn,
                                           stream: seq<Observation>, rest: seq<Observation>)
    requires stream != []
    requires stream[|stream| - 1].line == "" || stream[|stream| - 1].poll.Some?
    ensures Run(step, c, stream + rest) == Run(step, c, stream)
    decreases |stream|
  {
    var s := stream + rest;
    assert s[0] == stream[0];
    if |stream| > 1 && stream[0].line != "" && stream[0].poll.None? {
      assert s[1..] == stream[1..] + rest;
      RunStopsAtBreak(step, step(c, stream[0]), stream[1..], rest);
    }
  }

  /** Nothing past the line after which the loop breaks (end of stream, or
      a poll that saw the exit) is ever read. */
  lemma ReadAllStopsAtBreak(c: Conn, stream: seq<Observation>, rest: seq<Observation>)
    requires stream != []
    requires stream[|stream| - 1].line == "" || stream[|stream| - 1].poll.Some?
    ensures ReadAll(c, stream + rest) == ReadAll(c, stream)
  {
    RunStopsAtBreak(StepOn, c, stream, rest);
  }

  /** The `returncode` the loop ends with: it depends only on where the
      stream ends and what the polls return, not on the lines' contents. */
  function StopCode(stream: seq<Observation>): Option<int>
    decreases |stream|
  {
    if stream == [] || stream[0].line == "" then None
    else if stream[0].poll.Some? then stream[0].poll
    else StopCode(stream[1..])
  }

  lemma {:induction false} RunStopCode(step: (Conn, Observation) -> Conn, c: Conn, stream: seq<Observation>)
    ensures Run(step, c, stream).returncode == StopCode(stream)
    decreases |stream|
  {
    if stream != [] && stream[0].line != "" && stream[0].poll.None? {
      RunStopCode(step, step(c, stream[0]), stream[1..]);
    }
  }

  /** `StopCode` is decided at the first observation that ends the stream
      or whose poll saw the exit. */
  lemma {:induction false} StopCodeAt(stream: seq<Observation>, k: nat)
    requires k <= |stream|
    requires forall j :: 0 <= j < k ==> stream[j].line != "" && stream[j].poll.None?
    ensures StopCode(stream) == StopCode(stream[k..])
    decreases k
  {
    if k > 0 {
      assert stream[1..][k - 1..] == stream[k..];
      assert forall j :: 0 <= j < k - 1 ==> stream[1..][j] == stream[j + 1];
      StopCodeAt(stream[1..], k - 1);
    }
  }

  /** When the first poll that sees the exit comes after line `k`, and no
      earlier line ended the stream, `returncode` is what that poll
      returned. */
  lemma ReadAllBreaksAt(c: Conn, stream: seq<Observation>, k: nat)
    requires k < |stream| && stream[k].line != "" && stream[k].poll.Some?
    requires forall j :: 0 <= j < k ==> stream[j].line != "" && stream[j].poll.None?
    ensures ReadAll(c, stream).returncode == stream[k].poll
  {
    RunStopCode(StepOn, c, stream);
    StopCodeAt(stream, k);
  }

  /** When the stream ends (an empty line, or no more observations at
      position `k`) before any poll has seen the exit, `returncode` stays
      unknown. */
  lemma ReadAllEndsAt(c: Conn, stream: seq<Observation>, k: nat)
    requires k <= |stream| && (k == |stream| || stream[k].line == "")
    requires forall j :: 0 <= j < k ==> stream[j].line != "" && stream[j].poll.None?
    ensures ReadAll(c, stream).returncode == None
  {
    RunStopCode(StepOn, c, stream);
    StopCodeAt(stream, k);
  }

  /** `returncode` is known only if some poll saw the process exit, and is
      then what that poll returned. */
  lemma {:induction false} StopCodeFromPoll(stream: seq<Observation>)
    ensures StopCode(stream).Some? ==> exists k :: 0 <= k < |stream| && stream[k].poll == StopCode(stream)
    decreases |stream|
  {
    if stream != [] && stream[0].line != "" && stream[0].poll.None? {
      StopCodeFromPoll(stream[1..]);
      if StopCode(stream).Some? {
        var k :| 0 <= k < |stream[1..]| && stream[1..][k].poll == StopCode(stream[1..]);
        assert stream[k + 1].poll == StopCode(stream);
      }
    }
  }

  lemma ReadAllReturncode(c: Conn, stream: seq<Observation>)
    ensures ReadAll(c, stream).returncode.Some? ==>
              exists k :: 0 <= k < |stream| && stream[k].poll == ReadAll(c, stream).returncode
  {
    RunStopCode(StepOn, c, stream);
    StopCodeFromPoll(stream);
  }

  /** Output in which no line matches any marker leaves status and details
      as they were, and a log within the bound stays within it. */
  lemma {:induction false} ReadAllQuiet(c: Conn, stream: seq<Observation>)
    requires forall k :: 0 <= k < |stream| ==> Classify(stream[k].line) == NoMatch
    ensures ReadAll(c, stream).conn.status == c.status
    ensures ReadAll(c, stream).conn.details == c.details
    ensures |c.log| <= MaxLog ==> |ReadAll(c, stream).conn.log| <= MaxLog
    decreases |stream|
  {
    if stream != [] && stream[0].line != "" {
      var next := Step(c, stream[0].line, stream[0].ip, stream[0].now);
      assert Classify(stream[0].line) == NoMatch;
      ReadAllStep(c, stream);
      if stream[0].poll.None? {
        ReadAllQuiet(next, stream[1..]);
      }
    }
  }

  /** Once the loop reads the success line it never again reports a
      disconnect: the status is `Connected` or `Error` from then on. */
  lemma {:induction false} ReadAllAfterConnect(c: Conn, stream: seq<Observation>)
    requires c.status == Connected || c.status == Error
    ensures ReadAll(c, stream).conn.status == Connected || ReadAll(c, stream).conn.status == Error
    decreases |stream|
  {
    if stream != [] && stream[0].line != "" {
      var next := Step(c, stream[0].line, stream[0].ip, stream[0].now);
      StepStatus(c, stream[0].line, stream[0].ip, stream[0].now);
      ReadAllStep(c, stream);
      if stream[0].poll.None? {
        ReadAllAfterConnect(next, stream[1..]);
      }
    }
  }

  /** `str(returncode)`: the exit code, or "None" when it is not known. */
  function ReturncodeText(returncode: Option<int>): string {
    match returncode
    case None => "None"
    case Some(code) => IntToString(code)
  }

  /** The error recorded when the output ends while still connecting. */
  function UnexpectedExitMessage(returncode: Option<int>): (m: string)
    ensures Contains(m, ReturncodeText(returncode))
  {
    var m := "Process exited unexpectedly with code: " + ReturncodeText(returncode);
    ContainsInside("Process exited unexpectedly with code: ", ReturncodeText(returncode), "");
    assert "Process exited unexpectedly with code: " + ReturncodeText(returncode) + "" == m;
    m
  }

  /** The log entry added on that path. */
  function ExitEntry(returncode: Option<int>): string {
    "Process exited with code: " + ReturncodeText(returncode)
  }
}
