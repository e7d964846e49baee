# VPN controller: connection-state model

A Dafny model of the part of `Flask/App.py` that turns OpenVPN's output
into connection state. The Flask application starts `sudo openvpn` on a
fixed configuration and reads its output on a worker thread. A second
thread watches whether the process is still alive. Both keep three
globals up to date:

- `vpn_status`: one of `Disconnected`, `Connecting...`, `Connected`, `Error`;
- `vpn_output`: the log, trimmed to about 200 entries;
- `connection_details`: start time, public address, location and error.

The model has these parts:

- `Text`: the Python string operations used: `in`, `strip()`, `lower()`,
  `join` and `str(int)`.
- `ConnectionState`: the status, the details record, the bounded log
  append and the `[-15:]` slice.
- `Classifier`: the `if`/`elif` chain over one output line. It is stated
  once as written and once as a first-match rule over a priority list,
  and the two are proved equal. Also the effect of each outcome on the
  state.
- `ReadLoop`: the read loop as a function of the lines it receives, and
  the message left when the process ends while still connecting. The
  loop is written once over any per-line body (`Run`), so that the facts
  about where it stops and which exit code it returns are proved without
  looking at the body.
- `Launch`: the argument vector and the credentials file. The file is
  proved to read back as the user name and password that were written.
- `Monitor`: the decision taken on each tick of the status monitor.
- `App`: class `Vpn`. Its fields are the globals plus `hasProcess`
  (whether `vpn_process` is set) and `authFile` (the credentials file
  on disk). Its methods are `connect_vpn`, `run_vpn`, one monitor tick,
  `disconnect_vpn` and the `/status` report. `run_vpn` is split into
  start-up, the read loop and end-of-stream, so that a caller can run a
  monitor tick or a disconnect between the parts. `HandleLine`,
  `ReadOutput` and `MonitorTick` are proved equal to the functions
  `Step`, `ReadAll` and `Tick` above. `Start` is proved equal to the
  function `StartConn`, and `Supervise` and `RunVpn` give their final
  state in terms of `StartConn` and `ReadAll`. `ConnectVpn`, `Prepare`,
  `LaunchProcess`, `EndOfStream` and `DisconnectVpn` state their effect on
  every field directly.

The process and the outside world are replaced by the answers they give,
passed in as parameters:

- each output line together with the `poll()` result after it, and the
  address lookup and clock reading used if it is the success line;
- the two start-up checks;
- whether writing the credentials file, restricting its permissions,
  launching or removing raised, and with what text;
- whether the process is still alive after the grace period.

Behaviour of the code worth knowing (the model follows the code):

- The chain of tests does not look at the current status, so a later
  `Initialization Sequence Completed` line turns `Error` back into
  `Connected` (`Classifier.SuccessAfterError`). `disconnect_vpn` also
  replaces `Error` with `Disconnected`. So `Error` is not final until
  the next start.
- The comment at `Flask/App.py:143` speaks of limiting the size of the
  log, but only the read loop's own append is bounded. The success entry,
  the start-up entries and the disconnect entries bypass the bound, and
  only one entry is dropped per line. So the log can stay above 200
  entries. `ConnectionState.BoundedAppendKeepsBound` shows the bound does
  hold when nothing else appends.
- The comment at `Flask/App.py:172` covers a process that exited without
  the expected output. Python only sets `returncode` once `poll()` has
  seen the exit, so if the stream closes before a poll sees it, the
  message reads `code: None`. In the model, where nothing runs
  concurrently, the message names the exit code only when the loop broke
  on a poll (`ReadLoop.ReadAllBreaksAt`, `ReadLoop.ReadAllEndsAt`,
  `ReadLoop.UnexpectedExitMessage`). In the program, the polls of the
  monitor (`Flask/App.py:200`) and of `disconnect_vpn`
  (`Flask/App.py:277`) also set `returncode` on the same process object.
- `disconnect_vpn` does not clear `vpn_process`. A new connect stays
  rejected until the read loop ends (`App.Vpn.DisconnectVpn` keeps
  `hasProcess`).
- The clean-up under the comment at `Flask/App.py:178` runs only after
  the read loop. When the launch raises, the handler at
  `Flask/App.py:189-193` does not remove the credentials file
  (`App.Vpn.LaunchProcess` keeps `authFile`). The handler of the
  credentials block (`Flask/App.py:106-116`) does not remove it either:
  when `os.chmod` raises after a complete write, start-up stops with the
  file left on disk (`App.AbortedAuthFile`).

## Model

| member | source | states |
|---|---|---|
| `Text.ContainsIff` | Flask/App.py:148-164 | the substring test holds exactly when some window of the line equals the marker |
| `Text.Strip` | Flask/App.py:141 | the stored entry is a middle slice of the line, only whitespace is cut on either side, and it neither starts nor ends with whitespace |
| `Text.Lower` | Flask/App.py:164 | each upper-case ASCII letter becomes its lower-case partner and every other character is kept, so the length is kept and no upper-case ASCII letter is left |
| `Text.JoinAppend` | Flask/App.py:122 | joining one more word appends the separator and then that word to the joined text |
| `Text.NatToStringRoundTrip` | Flask/App.py:137 | the decimal text of a number reads back as that number |
| `Text.IntToString` | Flask/App.py:175-176 | a non-negative exit code prints as its decimal digits, which read back as the code; a negative one as a minus sign followed by the digits of its magnitude |
| `ConnectionState.LabelInjective` | Flask/App.py:19 | the four statuses are reported as four distinct strings |
| `ConnectionState.BoundedAppend` | Flask/App.py:141-145 | one append grows the log by one below 200 entries and keeps its length otherwise; the new entry is last and the survivors are the newest old entries in order |
| `ConnectionState.BoundedAppendKeepsBound` | Flask/App.py:140-145 | a log of at most 200 entries stays within 200 under any number of bounded appends, and is unchanged apart from the appends while they fit |
| `ConnectionState.LastEntries` | Flask/App.py:300 | the report carries the last 15 entries (all of them when fewer), in order |
| `Classifier.ClassifyIsFirstMatch` | Flask/App.py:148-166 | the chain equals the first matching rule of the priority list |
| `Classifier.FirstMatchIff` | Flask/App.py:148-166 | a first-match rule list picks rule k exactly when rule k fires and no earlier rule does |
| `Classifier.ClassifyPriority` | Flask/App.py:148-166 | a line gets the outcome of rule k exactly when rule k fires and none before it does, and no outcome exactly when no rule fires |
| `Classifier.SuccessWins` | Flask/App.py:148-149 | a line with the success marker is a success whatever failure text it also holds |
| `Classifier.CommandFailedAnyCase` | Flask/App.py:164-166 | "command failed" in any letter case gives the generic failure once no earlier marker is present |
| `Classifier.FailureMessagesDistinct` | Flask/App.py:155-166 | each failure branch stores its own message |
| `Classifier.ApplyEffects` | Flask/App.py:148-166 | success sets Connected, start time and address and adds exactly one entry; a failure sets Error and its own message and keeps start time, address and log; no match changes nothing |
| `Classifier.StepEffects` | Flask/App.py:140-166 | success sets Connected, start time and address and adds exactly one extra entry; a failure sets Error and its message and keeps start time and address; no match keeps status and details; the stripped line is logged first and only the oldest entry may be dropped |
| `Classifier.SuccessAfterError` | Flask/App.py:148-156 | a success line after an error sets Connected again |
| `Classifier.StepStatus` | Flask/App.py:140-166 | one line either keeps the status or sets Connected or Error, so it never moves the status to Disconnected or Connecting |
| `ReadLoop.ReadAllStopsAtBreak` | Flask/App.py:140-171 | no line after end of stream or after a poll that saw the exit is read |
| `ReadLoop.ReadAllReturncode` | Flask/App.py:169-175 | a known exit code is the value some observation's poll returned |
| `ReadLoop.ReadAllBreaksAt` | Flask/App.py:140-175 | when the first poll that sees the exit follows line k and no earlier line ended the stream, the exit code is what that poll returned |
| `ReadLoop.ReadAllEndsAt` | Flask/App.py:140-175 | when the stream ends before any poll has seen the exit, the exit code stays unknown (`None`) |
| `ReadLoop.ReadAllQuiet` | Flask/App.py:140-166 | output in which no marker appears keeps status and details and keeps a log of at most 200 entries within 200 |
| `ReadLoop.ReadAllAfterConnect` | Flask/App.py:147-166 | once Connected or Error, reading never leads back to Disconnected or Connecting |
| `ReadLoop.UnexpectedExitMessage` | Flask/App.py:173-175 | the unexpected-exit error contains the text of the return code |
| `Launch.Command` | Flask/App.py:101-120 | the vector begins sudo, openvpn, --config, the config path, ends --verb, 4, and holds --auth-user-pass and the credentials path exactly when credentials were staged |
| `Launch.CommandLine` | Flask/App.py:101-122 | the logged command is the words sudo, openvpn, --config, the config path, then --auth-user-pass and the credentials path when credentials were staged, then --verb 4, separated by single spaces |
| `Launch.AuthFileRoundTrip` | Flask/App.py:104-108 | the credentials file reads back as the user name and password written, when neither contains a newline |
| `Monitor.TickAlive` | Flask/App.py:200-204 | with a live process the tick only moves to Connecting, exactly when the status is neither Connected nor Error and the log holds more than five entries |
| `Monitor.TickDead` | Flask/App.py:205-208 | with no process or a dead one, every status but Error becomes Disconnected |
| `Monitor.TickKeepsError` | Flask/App.py:200-208 | a tick neither produces Error nor changes it |
| `Monitor.TickIdempotent` | Flask/App.py:198-210 | a second tick on the same inputs changes nothing |
| `Monitor.TicksSettle` | Flask/App.py:198-210 | any number of ticks on unchanged inputs gives the same status as one |
| `App.Vpn.constructor` | Flask/App.py:17-27 | the service starts Disconnected, with an empty log, default details, no process and no credentials file |
| `App.Vpn.ConnectVpn` | Flask/App.py:231-248 | a connect with a process handle changes nothing; otherwise it resets the details and sets Connecting |
| `App.Vpn.Prepare` | Flask/App.py:73-97 | the log and error are cleared; a failing check logs its message and sets Error with that message; otherwise the three informational entries are logged |
| `App.Vpn.LaunchProcess` | Flask/App.py:99-137 | a credentials write or permission change that raises logs, sets Error and launches nothing, and the file stays on disk when only the permission change raised; otherwise the file holds user name, newline, password, the command is built and logged, and the launch either records a process and sets Connecting or, when it raises, logs the error and sets Error without removing the file |
| `App.Vpn.Start` | Flask/App.py:70-137 | a command is launched exactly when both checks pass and any requested credentials file was written and restricted; it carries the credentials option exactly when credentials were given; the new status, log and details are those `StartConn` gives: each failing check, a failed write or permission change, a launch that raises, or the launched process |
| `App.Vpn.HandleLine` | Flask/App.py:141-166 | one pass of the loop body has exactly the effect of the classifier step |
| `App.Vpn.ReadOutput` | Flask/App.py:140-171 | the loop leaves the state and return code the read-loop function gives |
| `App.Vpn.EndOfStream` | Flask/App.py:172-187 | Connecting becomes Error with the unexpected-exit message and a log entry; an existing Error stays; anything else becomes Disconnected; the staged file is removed if present; the handle is cleared |
| `App.Vpn.Supervise` | Flask/App.py:140-187 | after the launch, the final status, details, log and credentials file are the read loop's result reconciled at end of stream: Connecting becomes Error with the exit message and entry, Error stays, anything else becomes Disconnected, the staged file is removed if present, and the handle is cleared |
| `App.Vpn.RunVpn` | Flask/App.py:70-193 | the process is launched exactly when both checks pass, any requested credentials file was written and restricted and the launch did not raise; start-up leaves the state `StartConn` gives for each of those exits, which is the final state when nothing was launched; an aborted start keeps the handle and leaves the credentials file as it was, except that a permission change that raises leaves the written file behind, a launch that raises clears the handle and leaves the file it wrote on disk; a launched run starts the loop Connecting with the start-up log, and its final status, details, log and credentials file are the loop's result reconciled at end of stream, with no handle left; every run ends Disconnected or Error |
| `App.Vpn.MonitorTick` | Flask/App.py:198-208 | the tick sets the status the monitor decision gives and changes nothing else |
| `App.Vpn.DisconnectVpn` | Flask/App.py:267-287 | with no process nothing changes; otherwise it logs the disconnect and exactly one of force-killed or gracefully-terminated, sets Disconnected even from Error and clears the start time |
| `App.Vpn.Report` | Flask/App.py:291-307 | the report gives the status string, the last 15 log entries in order, and the address, location and error |

## Left out

- The Flask layer is not modelled: routes, `render_template`, `flash`,
  `redirect`, `jsonify`, `request.form`, and the `index` and
  `check_system` endpoints. Only the state effects of the route bodies
  are modelled.
- The threads are not modelled: the worker and monitor threads,
  `stop_status_thread`, the monitor's one-second sleep and the `cleanup`
  join. Operations run one at a time, so the race is not captured: the
  connect guard tests `vpn_process` before the worker has assigned it.
- Starting the monitor thread from `connect_vpn` is left out, because it
  is thread plumbing.
- Process I/O is replaced by inputs: `subprocess.Popen`, `readline`,
  `poll`, `terminate`, `kill` and `time.sleep`. A launch that raises is
  modelled. An exception raised while reading the output is not.
- The four collaborator functions become inputs: `get_current_ip`,
  `get_system_info`, `check_openvpn_installed` and `check_ovpn_file`.
- The uptime in the `/status` report is left out: it is a float
  wall-clock difference. `App.Vpn.Report` omits it. Clock readings
  enter as integers.
- Only the file's content and presence are kept from the file system.
  The permissions that `chmod 0o600` sets are not; only whether it
  raised is. A file left half-written by a failed write is not tracked. `os.path.exists` is answered by the
  model's own record of the file.
- `Text.Lower` maps only ASCII letters. Python's `lower()` also maps
  other letters.
- `signal_handler`, `cleanup` and `os._exit` are left out: they are
  process teardown.
- `Monitor.TicksSettle` holds the inputs fixed between ticks. Changes
  made by the other thread between ticks are not modelled.
