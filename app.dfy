/** The controller's global state and the operations that change it:
    `connect_vpn`, `run_vpn` (start-up, read loop, end of stream), one tick
    of `monitor_vpn_status`, `disconnect_vpn` and the `status` report. The
    process, the clock, the network and the file system are replaced by the
    answers they give, passed in as parameters. */
module App {
  import opened Wrappers
  import opened Text
  import opened ConnectionState
  import opened Classifier
  import opened Launch
  import opened ReadLoop
  import opened Monitor

  /** The answer of one of the start-up checks and its message. */
  datatype Check = Check(ok: bool, message: string)

  datatype SystemInfo = SystemInfo(os: string, release: string, architecture: string)

  /** What the outside world answers while `run_vpn` starts the process:
      the two checks, the system description, the address before
      connecting, whether writing the credentials file raised and, once it
      was written, whether restricting its permissions raised (each with
      its text), whether launching raised, and the process id. */
  datatype StartEnv = StartEnv(
    openvpn: Check, config: Check, system: SystemInfo, ipBefore: string,
    authWriteError: Option<string>, authChmodError: Option<string>,
    launchError: Option<string>, pid: int)

  /** The exception that ends the credentials block, if any: the write's,
      or else the permission change's. */
  function AuthFailure(env: StartEnv): Option<string> {
    if env.authWriteError.Some? then env.authWriteError else env.authChmodError
  }

  /** Start-up stops at the credentials block: credentials were given and
      writing the file or restricting its permissions raised. */
  predicate AuthAborts(username: string, password: string, env: StartEnv) {
    AuthRequested(username, password) && AuthFailure(env).Some?
  }

  /** The credentials file after the block raised: a permission change that
      raised comes after a complete write, so that file stays on disk. */
  function AbortedAuthFile(username: string, password: string, env: StartEnv, authFile0: Option<string>): Option<string> {
    if env.authWriteError.None? then Some(AuthFileContent(username, password)) else authFile0
  }

  /** How start-up ended: before any command was built, with a command whose
      launch raised, or with a running process; `staged` says the
      credentials file was written for this run. */
  datatype StartResult = Aborted | LaunchFailed(cmd: seq<string>) | Launched(cmd: seq<string>, staged: bool)

  /** The three informational entries logged once both checks pass. */
  function Preamble(env: StartEnv): seq<string> {
    ["System: " + env.system.os + " " + env.system.release + " (" + env.system.architecture + ")",
     "Current IP before connection: " + env.ipBefore,
     "Using config file: " + ConfigPath]
  }

  const CredentialsEntry := "Using provided authentication credentials"
  const SudoNote := "NOTE: OpenVPN requires admin privileges. You may need to enter your sudo password in the terminal where the Flask app is running."
  const DisconnectingEntry := "Disconnecting VPN..."
  const ForceKilledEntry := "Force killed OpenVPN process"
  const GracefulEntry := "Gracefully terminated OpenVPN process"

  /** The log once the process has been launched: the preamble, the
      credentials entry when the file was written, the command, the note
      about administrator rights and the process id. */
  function LaunchedLog(env: StartEnv, withAuth: bool): seq<string> {
    Preamble(env) + (if withAuth then [CredentialsEntry] else [])
    + ["Starting OpenVPN with command: " + Join(Command(withAuth), " "), SudoNote,
       "Process started with PID: " + IntToString(env.pid)]
  }

  /** The state start-up leaves, from the details it started with: a
      failing check, a failed credentials write, a launch that raises, or a
      launched process. */
  function StartConn(username: string, password: string, env: StartEnv, details0: Details): Conn {
    var withAuth := AuthRequested(username, password);
    if !env.openvpn.ok then
      Conn(Error, ["ERROR: " + env.openvpn.message], details0.(error := Some(env.openvpn.message)))
    else if !env.config.ok then
      Conn(Error, ["ERROR: " + env.config.message], details0.(error := Some(env.config.message)))
    else if AuthAborts(username, password, env) then
      Conn(Error, Preamble(env) + ["Error creating auth file: " + AuthFailure(env).value],
           details0.(error := Some("Auth file error: " + AuthFailure(env).value)))
    else if env.launchError.Some? then
      Conn(Error, Preamble(env) + (if withAuth then [CredentialsEntry] else [])
                  + ["Starting OpenVPN with command: " + Join(Command(withAuth), " "), SudoNote,
                     "Error: " + env.launchError.value],
           details0.(error := env.launchError))
    else
      Conn(Connecting, LaunchedLog(env, withAuth), details0.(error := None))
  }

  /** The JSON body of the `/status` endpoint, without the uptime. */
  datatype StatusReport = StatusReport(status: string, logs: seq<string>, ip: string, location: string, error: Option<string>)

  /** The number of log entries the status report carries. */
  const ReportedEntries := 15

  class Vpn {
    /** `vpn_status` */
    var status: Status
    /** `vpn_output` */
    var log: seq<string>
    /** `connection_details` */
    var details: Details
    /** `vpn_process is not None` */
    var hasProcess: bool
    /** The contents of the credentials file, if it is on disk. */
    var authFile: Option<string>

    /** The state at service start. */
    constructor ()
      ensures status == Disconnected && log == [] && details == InitialDetails
      ensures !hasProcess && authFile == None
    {
      status := Disconnected;
      log := [];
      details := InitialDetails;
      hasProcess := false;
      authFile := None;
    }

    /** The part of the state the read loop changes. */
    function State(): Conn
      reads this
    {
      Conn(status, log, details)
    }

    /** `connect_vpn`: rejected while a process handle exists; otherwise the
        details are reset and the status becomes `Connecting...` before the
        worker is started. */
    method ConnectVpn() returns (accepted: bool)
      modifies this
      ensures accepted == !old(hasProcess)
      ensures !accepted ==> unchanged(this)
      ensures accepted ==> status == Connecting && details == InitialDetails
      ensures log == old(log) && hasProcess == old(hasProcess) && authFile == old(authFile)
    {
      if hasProcess {
        return false;
      }
      details := InitialDetails;
      status := Connecting;
      accepted := true;
    }

    /** The first part of `run_vpn`: clear the log and the error, run the
        two checks (a failing one is logged and sets `Error`), then log the
        system description, the address and the configuration path. */
    method Prepare(env: StartEnv) returns (passed: bool)
      modifies this
      ensures passed == (env.openvpn.ok && env.config.ok)
      ensures !env.openvpn.ok ==>
        status == Error && log == ["ERROR: " + env.openvpn.message]
        && details == old(details).(error := Some(env.openvpn.message))
      ensures env.openvpn.ok && !env.config.ok ==>
        status == Error && log == ["ERROR: " + env.config.message]
        && details == old(details).(error := Some(env.config.message))
      ensures passed ==> status == old(status) && log == Preamble(env) && details == old(details).(error := None)
      ensures hasProcess == old(hasProcess) && authFile == old(authFile)
    {
      log := [];
      details := details.(error := None);
      if !env.openvpn.ok {
        log := log + ["ERROR: " + env.openvpn.message];
        status := Error;
        details := details.(error := Some(env.openvpn.message));
        return false;
      }
      if !env.config.ok {
        log := log + ["ERROR: " + env.config.message];
        status := Error;
        details := details.(error := Some(env.config.message));
        return false;
      }
      log := log + Preamble(env);
      passed := true;
    }

    /** The second part: write the credentials file when both credentials
        are given and restrict its permissions (a write or permission change
        that raises is logged, sets `Error` and launches nothing), build the command, set `Connecting...` and launch it (a
        launch that raises is logged and sets `Error`). */
    method LaunchProcess(username: string, password: string, env: StartEnv) returns (r: StartResult)
      modifies this
      ensures AuthAborts(username, password, env) ==>
        r == Aborted && status == Error
        && log == old(log) + ["Error creating auth file: " + AuthFailure(env).value]
        && details == old(details).(error := Some("Auth file error: " + AuthFailure(env).value))
        && hasProcess == old(hasProcess)
        && authFile == AbortedAuthFile(username, password, env, old(authFile))
      ensures !AuthAborts(username, password, env) ==>
        var withAuth := AuthRequested(username, password);
        && !r.Aborted? && r.cmd == Command(withAuth)
        && authFile == (if withAuth then Some(AuthFileContent(username, password)) else old(authFile))
        && log == old(log) + (if withAuth then [CredentialsEntry] else [])
                  + ["Starting OpenVPN with command: " + Join(r.cmd, " "), SudoNote]
                  + [if env.launchError.Some? then "Error: " + env.launchError.value
                     else "Process started with PID: " + IntToString(env.pid)]
        && (env.launchError.Some? ==>
              r.LaunchFailed? && status == Error && details == old(details).(error := env.launchError) && !hasProcess)
        && (env.launchError.None? ==>
              r == Launched(r.cmd, withAuth) && status == Connecting && details == old(details) && hasProcess)
    {
      var withAuth := false;
      if AuthRequested(username, password) {
        if env.authWriteError.None? {
          authFile := Some(AuthFileContent(username, password));
        }
        match AuthFailure(env) {
          case Some(e) =>
            log := log + ["Error creating auth file: " + e];
            status := Error;
            details := details.(error := Some("Auth file error: " + e));
            return Aborted;
          case None =>
            withAuth := true;
            log := log + [CredentialsEntry];
        }
      }
      ghost var staged := log;
      assert staged == old(log) + (if withAuth then [CredentialsEntry] else []);
      var cmd := Command(withAuth);
      log := log + ["Starting OpenVPN with command: " + Join(cmd, " ")];
      status := Connecting;
      log := log + [SudoNote];
      assert log == staged + ["Starting OpenVPN with command: " + Join(cmd, " "), SudoNote];
      match env.launchError {
        case Some(e) =>
          log := log + ["Error: " + e];
          status := Error;
          details := details.(error := Some(e));
          hasProcess := false;
          r := LaunchFailed(cmd);
        case None =>
          hasProcess := true;
          log := log + ["Process started with PID: " + IntToString(env.pid)];
          r := Launched(cmd, withAuth);
      }
    }

    /** The start-up part of `run_vpn`, lines before the read loop. A command
        is launched only when both checks pass and, if credentials were
        given, the credentials file was written; it carries the credentials
        option exactly when that file was written. */
    method Start(username: string, password: string, env: StartEnv) returns (r: StartResult)
      modifies this
      ensures !(env.openvpn.ok && env.config.ok) ==>
        var message := if !env.openvpn.ok then env.openvpn.message else env.config.message;
        r == Aborted && status == Error && log == ["ERROR: " + message]
        && details == old(details).(error := Some(message))
        && hasProcess == old(hasProcess) && authFile == old(authFile)
      ensures env.openvpn.ok && env.config.ok && AuthAborts(username, password, env) ==>
        r == Aborted && status == Error
        && log == Preamble(env) + ["Error creating auth file: " + AuthFailure(env).value]
        && details == old(details).(error := Some("Auth file error: " + AuthFailure(env).value))
        && hasProcess == old(hasProcess)
        && authFile == AbortedAuthFile(username, password, env, old(authFile))
      ensures r.Aborted? <==> !(env.openvpn.ok && env.config.ok) || AuthAborts(username, password, env)
      ensures !r.Aborted? ==>
        var withAuth := AuthRequested(username, password);
        && r.cmd == Command(withAuth)
        && (AuthFilePath in r.cmd <==> withAuth)
        && authFile == (if withAuth then Some(AuthFileContent(username, password)) else old(authFile))
        && log == Preamble(env) + (if withAuth then [CredentialsEntry] else [])
                  + ["Starting OpenVPN with command: " + Join(r.cmd, " "), SudoNote]
                  + [if env.launchError.Some? then "Error: " + env.launchError.value
                     else "Process started with PID: " + IntToString(env.pid)]
        && (r.Launched? <==> env.launchError.None?)
        && (env.launchError.Some? ==> status == Error && details == old(details).(error := env.launchError) && !hasProcess)
        && (r.Launched? ==> r.staged == withAuth && status == Connecting && details == old(details).(error := None) && hasProcess)
      ensures State() == StartConn(username, password, env, old(details))
    {
      var passed := Prepare(env);
      if !passed {
        return Aborted;
      }
      r := LaunchProcess(username, password, env);
    }

    /** The body of the read loop for one line: log the stripped line,
        dropping the oldest entry once past the bound, then run the chain of
        tests on the raw line. */
    method HandleLine(line: string, ip: string, now: int)
      modifies this
      ensures State() == Step(old(State()), line, ip, now)
      ensures hasProcess == old(hasProcess) && authFile == old(authFile)
    {
      log := log + [Strip(line)];
      if |log| > MaxLog {
        log := log[1..];
      }
      if Contains(line, SuccessMarker) {
        status := Connected;
        details := details.(startTime := Some(now), publicIp := ip);
        log := log + [ConnectedEntry(ip)];
      } else if Contains(line, AuthMarker) {
        status := Error;
        details := details.(error := Some(FailureMessage(AuthFailed)));
      } else if Contains(line, TunOpenMarker) {
        status := Error;
        details := details.(error := Some(FailureMessage(TunOpenFailed)));
      } else if Contains(line, TunAllocMarker) {
        status := Error;
        details := details.(error := Some(FailureMessage(TunAllocFailed)));
      } else if Contains(Lower(line), CommandFailedMarker) {
        status := Error;
        details := details.(error := Some(FailureMessage(CommandFailed)));
      }
    }

    /** The read loop of `run_vpn`: each line is stripped into the bounded
        log and classified, and the loop stops at end of stream or once a
        poll sees the process exit. Returns the process's `returncode`. */
    method ReadOutput(stream: seq<Observation>) returns (returncode: Option<int>)
      modifies this
      ensures State() == ReadAll(old(State()), stream).conn
      ensures returncode == ReadAll(old(State()), stream).returncode
      ensures hasProcess == old(hasProcess) && authFile == old(authFile)
    {
      returncode := None;
      var rest := stream;
      while rest != []
        invariant ReadAll(old(State()), stream) == ReadAll(State(), rest)
        invariant returncode == None
        invariant hasProcess == old(hasProcess) && authFile == old(authFile)
        decreases |rest|
      {
        var o := rest[0];
        if o.line == "" {
          break;
        }
        ReadAllStep(State(), rest);
        HandleLine(o.line, o.ip, o.now);
        if o.poll.Some? {
          returncode := o.poll;
          break;
        }
        rest := rest[1..];
      }
    }

    /** The end-of-stream part of `run_vpn`: a run still connecting becomes
        an error naming the exit code, the credentials file written for this
        run is removed if it is still there, the status is forced to
        `Disconnected` unless it is `Error`, and the handle is dropped.
        `removeError` is what removing the file raised, if anything. */
    method EndOfStream(returncode: Option<int>, staged: bool, removeError: Option<string>)
      modifies this
      ensures status == (if old(status) == Connecting || old(status) == Error then Error else Disconnected)
      ensures old(status) == Connecting ==>
        details == old(details).(error := Some(UnexpectedExitMessage(returncode)))
      ensures old(status) != Connecting ==> details == old(details)
      ensures var removing := staged && old(authFile).Some?;
        && log == old(log)
                  + (if old(status) == Connecting then [ExitEntry(returncode)] else [])
                  + (if !removing then []
                     else if removeError.None? then ["Auth file removed"]
                     else ["Warning: Could not remove auth file: " + removeError.value])
        && authFile == (if removing && removeError.None? then None else old(authFile))
      ensures !hasProcess
    {
      if status == Connecting {
        status := Error;
        details := details.(error := Some(UnexpectedExitMessage(returncode)));
        log := log + [ExitEntry(returncode)];
      }
      if staged && authFile.Some? {
        match removeError {
          case None =>
            authFile := None;
            log := log + ["Auth file removed"];
          case Some(e) =>
            log := log + ["Warning: Could not remove auth file: " + e];
        }
      }
      status := if status != Error then Disconnected else Error;
      hasProcess := false;
    }

    /** The part of `run_vpn` after a successful launch: the read loop, then
        the end-of-stream handling applied to the state the loop leaves. */
    method Supervise(stream: seq<Observation>, staged: bool, removeError: Option<string>)
      modifies this
      ensures var end := ReadAll(old(State()), stream);
        var c := end.conn;
        var removing := staged && old(authFile).Some?;
        && status == (if c.status == Connecting || c.status == Error then Error else Disconnected)
        && details == (if c.status == Connecting
                       then c.details.(error := Some(UnexpectedExitMessage(end.returncode)))
                       else c.details)
        && log == c.log
                  + (if c.status == Connecting then [ExitEntry(end.returncode)] else [])
                  + (if !removing then []
                     else if removeError.None? then ["Auth file removed"]
                     else ["Warning: Could not remove auth file: " + removeError.value])
        && authFile == (if removing && removeError.None? then None else old(authFile))
      ensures !hasProcess
    {
      var returncode := ReadOutput(stream);
      EndOfStream(returncode, staged, removeError);
    }

    /** `run_vpn` from start to finish, with nothing else running meanwhile:
        start-up, then (if the process was launched) the read loop and the
        end-of-stream handling. However it ends, the status is
        `Disconnected` or `Error`, and a run that got as far as launching
        leaves no process handle. `afterStart` is the state the read loop
        starts from; the final state is the read loop's result reconciled
        at end of stream. */
    method RunVpn(username: string, password: string, env: StartEnv,
                  stream: seq<Observation>, removeError: Option<string>)
      returns (r: StartResult, ghost afterStart: Conn)
      modifies this
      ensures status == Disconnected || status == Error
      ensures !r.Aborted? ==> !hasProcess
      ensures r.Aborted? ==> hasProcess == old(hasProcess) && status == Error
      ensures r.LaunchFailed? ==>
        status == Error && details == old(details).(error := env.launchError)
      ensures r.Launched? <==>
        env.openvpn.ok && env.config.ok && !AuthAborts(username, password, env) && env.launchError.None?
      ensures r.Launched? ==> (AuthFilePath in r.cmd) == r.staged == AuthRequested(username, password)
      ensures afterStart == StartConn(username, password, env, old(details))
      ensures !r.Launched? ==> State() == afterStart
      ensures r.Aborted? ==>
        authFile == if env.openvpn.ok && env.config.ok && AuthAborts(username, password, env)
                    then AbortedAuthFile(username, password, env, old(authFile)) else old(authFile)
      ensures r.LaunchFailed? ==>
        authFile == if AuthRequested(username, password) then Some(AuthFileContent(username, password)) else old(authFile)
      ensures r.Launched? ==>
        afterStart == Conn(Connecting, LaunchedLog(env, r.staged), old(details).(error := None))
      ensures r.Launched? ==>
        var end := ReadAll(afterStart, stream);
        var c := end.conn;
        && status == (if c.status == Connecting || c.status == Error then Error else Disconnected)
        && details == (if c.status == Connecting
                       then c.details.(error := Some(UnexpectedExitMessage(end.returncode)))
                       else c.details)
        && log == c.log
                  + (if c.status == Connecting then [ExitEntry(end.returncode)] else [])
                  + (if !r.staged then []
                     else if removeError.None? then ["Auth file removed"]
                     else ["Warning: Could not remove auth file: " + removeError.value])
        && authFile == (if !r.staged then old(authFile)
                        else if removeError.None? then None
                        else Some(AuthFileContent(username, password)))
    {
      r := Start(username, password, env);
      afterStart := State();
      if r.Launched? {
        Supervise(stream, r.staged, removeError);
      }
    }

    /** One tick of `monitor_vpn_status`; `running` is what polling the
        process would say (it is still running). */
    method MonitorTick(running: bool)
      modifies this
      ensures status == Tick(hasProcess && running, old(status), |log|)
      ensures log == old(log) && details == old(details) && hasProcess == old(hasProcess)
      ensures authFile == old(authFile)
    {
      if hasProcess && running {
        if status != Connected && status != Error && |log| > Threshold {
          status := Connecting;
        }
      } else {
        if status != Error {
          status := Disconnected;
        }
      }
    }

    /** `disconnect_vpn`: with no process handle nothing changes; otherwise
        the process is asked to terminate, killed if it is still alive after
        the grace period, the path taken is logged, the status becomes
        `Disconnected` (whatever it was) and the start time is cleared. The
        handle itself stays until the read loop ends. */
    method DisconnectVpn(aliveAfterGrace: bool) returns (wasRunning: bool)
      modifies this
      ensures wasRunning == old(hasProcess)
      ensures !wasRunning ==> unchanged(this)
      ensures wasRunning ==>
        log == old(log) + [DisconnectingEntry, if aliveAfterGrace then ForceKilledEntry else GracefulEntry]
        && status == Disconnected && details == old(details).(startTime := None)
      ensures hasProcess == old(hasProcess) && authFile == old(authFile)
    {
      wasRunning := hasProcess;
      if hasProcess {
        log := log + [DisconnectingEntry];
        if aliveAfterGrace {
          log := log + [ForceKilledEntry];
        } else {
          log := log + [GracefulEntry];
        }
        status := Disconnected;
        details := details.(startTime := None);
      }
    }

    /** The `/status` report: the status string, the last fifteen log
        entries in order, and the address, location and error. */
    function Report(): (r: StatusReport)
      reads this
      ensures r.status == status.Label()
      ensures |r.logs| == (if |log| < ReportedEntries then |log| else ReportedEntries)
      ensures log == log[..|log| - |r.logs|] + r.logs
      ensures r.ip == details.publicIp && r.location == details.location && r.error == details.error
    {
      StatusReport(status.Label(), LastEntries(log, ReportedEntries),
                   details.publicIp, details.location, details.error)
    }
  }
}
