/** The command line `run_vpn` hands to the process launcher and the
    credentials file it writes beforehand. */
module Launch {
  import opened Text

  /** The OpenVPN configuration the controller always uses. */
  const ConfigPath := "/Users/apple/Desktop/Sample Tunnelblick VPN Configuration/vpnconfig.ovpn"

  /** Where the credentials are written for `--auth-user-pass`. */
  const AuthFilePath := "/tmp/vpn_auth.txt"

  /** Python's `username and password`: both strings are non-empty. */
  predicate AuthRequested(username: string, password: string) {
    username != "" && password != ""
  }

  /** The argument vector: the fixed prefix, the credentials option when
      the credentials file was written, and the verbosity option last. */
  function Command(withAuth: bool): (cmd: seq<string>)
    ensures |cmd| >= 6 && cmd[..4] == ["sudo", "openvpn", "--config", ConfigPath]
    ensures cmd[|cmd| - 2..] == ["--verb", "4"]
    ensures (AuthFilePath in cmd) <==> withAuth
    ensures ("--auth-user-pass" in cmd) <==> withAuth
    ensures withAuth ==> |cmd| == 8 && cmd[4..6] == ["--auth-user-pass", AuthFilePath]
    ensures !withAuth ==> |cmd| == 6
  {
    var base := ["sudo", "openvpn", "--config", ConfigPath];
    var auth := if withAuth then ["--auth-user-pass", AuthFilePath] else [];
    var cmd := base + auth + ["--verb", "4"];
    assert !withAuth ==> cmd == ["sudo", "openvpn", "--config", ConfigPath, "--verb", "4"];
    assert withAuth ==> cmd[5] == AuthFilePath && cmd[4] == "--auth-user-pass";
    cmd
  }

  /** The command as logged: its words in order, separated by single
      spaces, the credentials option appearing exactly when requested. */
  lemma CommandLine(withAuth: bool)
    ensures Join(Command(withAuth), " ") == if withAuth then
      "sudo" + " " + "openvpn" + " " + "--config" + " " + ConfigPath
      + " " + "--auth-user-pass" + " " + AuthFilePath + " " + "--verb" + " " + "4"
    else
      "sudo" + " " + "openvpn" + " " + "--config" + " " + ConfigPath + " " + "--verb" + " " + "4"
  {
    var base := ["sudo", "openvpn", "--config", ConfigPath];
    var auth := if withAuth then ["--auth-user-pass", AuthFilePath] else [];
    var middle := base + auth;
    assert Command(withAuth) == middle + ["--verb"] + ["4"];
    var w1, w2, w3 := ["sudo"], ["sudo", "openvpn"], ["sudo", "openvpn", "--config"];
    assert w1 + ["openvpn"] == w2 && w2 + ["--config"] == w3 && w3 + [ConfigPath] == base;
    JoinAppend(w1, "openvpn", " ");
    JoinAppend(w2, "--config", " ");
    JoinAppend(w3, ConfigPath, " ");
    if withAuth {
      assert middle == base + ["--auth-user-pass"] + [AuthFilePath];
      JoinAppend(base, "--auth-user-pass", " ");
      JoinAppend(base + ["--auth-user-pass"], AuthFilePath, " ");
    } else {
      assert middle == base;
    }
    JoinAppend(middle, "--verb", " ");
    JoinAppend(middle + ["--verb"], "4", " ");
  }

  /** The text written to the credentials file. */
  function AuthFileContent(username: string, password: string): string {
    username + "\n" + password
  }

  /** The text before the first newline, and what follows that newline
      (everything, when there is none). */
  function SplitLine(s: string): (r: (string, string))
    ensures |r.0| <= |s| && r.0 == s[..|r.0|]
    ensures '\n' !in r.0
    decreases |s|
  {
    if s == [] then ("", "")
    else if s[0] == '\n' then ("", s[1..])
    else
      var (line, rest) := SplitLine(s[1..]);
      ([s[0]] + line, rest)
  }

  /** How a credentials file is read back: the first line is the user name
      and the second line the password. */
  function ReadAuthFile(content: string): (string, string) {
    var (user, rest) := SplitLine(content);
    (user, SplitLine(rest).0)
  }

  /** Splitting a line off text that starts with it gives it back. */
  lemma {:induction false} SplitLineOf(line: string, rest: string)
    requires '\n' !in line
    ensures SplitLine(line + "\n" + rest) == (line, rest)
    ensures SplitLine(line) == (line, "")
    decreases |line|
  {
    if line != [] {
      SplitLineOf(line[1..], rest);
      assert (line + "\n" + rest)[1..] == line[1..] + "\n" + rest;
      assert [line[0]] + line[1..] == line;
    }
  }

  /** The file gives back the user name and the password that were written,
      as long as neither contains a newline. */
  lemma AuthFileRoundTrip(username: string, password: string)
    requires '\n' !in username && '\n' !in password
    ensures ReadAuthFile(AuthFileContent(username, password)) == (username, password)
  {
    SplitLineOf(username, password);
    SplitLineOf(password, "");
  }
}
