/** The classification of one line of OpenVPN output (the `if`/`elif` chain
    of `run_vpn`), and the effect of each outcome on the connection state. */
module Classifier {
  import opened Wrappers
  import opened Text
  import opened ConnectionState

  /** Which branch of the chain a line takes. */
  datatype Outcome = NoMatch | Success | AuthFailed | TunOpenFailed | TunAllocFailed | CommandFailed

  const SuccessMarker := "Initialization Sequence Completed"
  const AuthMarker := "AUTH_FAILED"
  const TunOpenMarker := "Cannot open TUN/TAP dev"
  const TunAllocMarker := "Cannot allocate TUN/TAP dev dynamically"
  /** Compared against the lower-cased line. */
  const CommandFailedMarker := "command failed"

  /** The chain as written: the success marker first, then the failure
      markers, the first test that holds deciding the outcome. */
  function Classify(line: string): Outcome {
    if Contains(line, SuccessMarker) then Success
    else if Contains(line, AuthMarker) then AuthFailed
    else if Contains(line, TunOpenMarker) then TunOpenFailed
    else if Contains(line, TunAllocMarker) then TunAllocFailed
    else if Contains(Lower(line), CommandFailedMarker) then CommandFailed
    else NoMatch
  }

  /** One test of the chain: a marker, whether it is looked for in the
      lower-cased line, and the outcome it selects. */
  datatype Rule = Rule(marker: string, lowered: bool, outcome: Outcome)

  /** The tests in priority order. */
  const Rules := [
    Rule(SuccessMarker, false, Success),
    Rule(AuthMarker, false, AuthFailed),
    Rule(TunOpenMarker, false, TunOpenFailed),
    Rule(TunAllocMarker, false, TunAllocFailed),
    Rule(CommandFailedMarker, true, CommandFailed)
  ]

  predicate Fires(rule: Rule, line: string) {
    Contains(if rule.lowered then Lower(line) else line, rule.marker)
  }

  /** The outcome of the first rule that fires, if any. */
  function FirstMatch(rules: seq<Rule>, line: string): Outcome {
    if rules == [] then NoMatch
    else if Fires(rules[0], line) then rules[0].outcome
    else FirstMatch(rules[1..], line)
  }

  /** A rule list in which no rule selects `NoMatch` and no two rules
      select the same outcome. */
  ghost predicate DistinctOutcomes(rules: seq<Rule>) {
    (forall k :: 0 <= k < |rules| ==> rules[k].outcome != NoMatch)
    && (forall j, k :: 0 <= j < k < |rules| ==> rules[j].outcome != rules[k].outcome)
  }

  /** `FirstMatch` selects nothing or the outcome of one of its rules. */
  lemma {:induction false} FirstMatchFromRules(rules: seq<Rule>, line: string)
    ensures FirstMatch(rules, line) == NoMatch
            || exists j :: 0 <= j < |rules| && FirstMatch(rules, line) == rules[j].outcome
    decreases |rules|
  {
    if rules != [] && !Fires(rules[0], line) {
      FirstMatchFromRules(rules[1..], line);
      if FirstMatch(rules, line) != NoMatch {
        var j :| 0 <= j < |rules[1..]| && FirstMatch(rules, line) == rules[1..][j].outcome;
        assert FirstMatch(rules, line) == rules[j + 1].outcome;
      }
    }
  }

  /** With distinct outcomes, `FirstMatch` picks rule `k` exactly when rule
      `k` fires and no earlier rule does. */
  lemma {:induction false} FirstMatchIff(rules: seq<Rule>, line: string, k: nat)
    requires DistinctOutcomes(rules)
    requires k < |rules|
    ensures FirstMatch(rules, line) == rules[k].outcome
            <==> Fires(rules[k], line) && forall j :: 0 <= j < k ==> !Fires(rules[j], line)
    decreases k
  {
    if k == 0 {
      if !Fires(rules[0], line) {
        FirstMatchFromRules(rules[1..], line);
        if FirstMatch(rules, line) != NoMatch {
          var j :| 0 <= j < |rules[1..]| && FirstMatch(rules, line) == rules[1..][j].outcome;
          assert rules[1..][j] == rules[j + 1];
        }
      }
    } else {
      var tail := rules[1..];
      assert DistinctOutcomes(tail) by {
        forall j, i | 0 <= j < i < |tail| ensures tail[j].outcome != tail[i].outcome {
          assert rules[j + 1].outcome != rules[i + 1].outcome;
        }
      }
      FirstMatchIff(tail, line, k - 1);
      assert rules[0].outcome != rules[k].outcome;
      assert forall j :: 0 <= j < k - 1 ==> tail[j] == rules[j + 1];
      if Fires(rules[k], line) && forall j :: 0 <= j < k ==> !Fires(rules[j], line) {
        assert !Fires(rules[0], line);
        assert forall j :: 0 <= j < k - 1 ==> !Fires(tail[j], line) by {
          forall j | 0 <= j < k - 1 ensures !Fires(tail[j], line) {
            assert !Fires(rules[j + 1], line);
          }
        }
      }
      if FirstMatch(rules, line) == rules[k].outcome {
        assert !Fires(rules[0], line);
        forall j | 0 <= j < k ensures !Fires(rules[j], line) {
          if j > 0 { assert tail[j - 1] == rules[j]; }
        }
      }
    }
  }

  /** `FirstMatch` gives `NoMatch` exactly when no rule fires. */
  lemma {:induction false} FirstMatchNone(rules: seq<Rule>, line: string)
    requires DistinctOutcomes(rules)
    ensures FirstMatch(rules, line) == NoMatch <==> forall j :: 0 <= j < |rules| ==> !Fires(rules[j], line)
    decreases |rules|
  {
    if rules != [] {
      var tail := rules[1..];
      assert DistinctOutcomes(tail) by {
        forall j, i | 0 <= j < i < |tail| ensures tail[j].outcome != tail[i].outcome {
          assert rules[j + 1].outcome != rules[i + 1].outcome;
        }
      }
      FirstMatchNone(tail, line);
      assert forall j :: 0 <= j < |tail| ==> tail[j] == rules[j + 1];
      if FirstMatch(rules, line) == NoMatch {
        assert !Fires(rules[0], line);
        forall j | 0 <= j < |rules| ensures !Fires(rules[j], line) {
          if j > 0 { assert tail[j - 1] == rules[j]; }
        }
      }
    }
  }

  /** `FirstMatch` from rule `i` on either takes rule `i` or moves to the
      next. */
  lemma FirstMatchAt(rules: seq<Rule>, line: string, i: nat)
    requires i < |rules|
    ensures FirstMatch(rules[i..], line)
            == if Fires(rules[i], line) then rules[i].outcome else FirstMatch(rules[i + 1..], line)
  {
    assert rules[i..][1..] == rules[i + 1..];
  }

  /** The chain is the first-match rule over `Rules`. */
  lemma ClassifyIsFirstMatch(line: string)
    ensures Classify(line) == FirstMatch(Rules, line)
  {
    FirstMatchAt(Rules, line, 4);
    FirstMatchAt(Rules, line, 3);
    FirstMatchAt(Rules, line, 2);
    FirstMatchAt(Rules, line, 1);
    FirstMatchAt(Rules, line, 0);
    assert Rules[5..] == [];
    assert Rules[0..] == Rules;
  }

  /** Priority of the chain, stated per outcome: a line gets the outcome of
      rule `k` exactly when rule `k` fires and no earlier rule does, and
      `NoMatch` exactly when no rule fires. */
  lemma ClassifyPriority(line: string, k: nat)
    requires k < |Rules|
    ensures Classify(line) == Rules[k].outcome
            <==> Fires(Rules[k], line) && forall j :: 0 <= j < k ==> !Fires(Rules[j], line)
    ensures Classify(line) == NoMatch <==> forall j :: 0 <= j < |Rules| ==> !Fires(Rules[j], line)
  {
    ClassifyIsFirstMatch(line);
    FirstMatchIff(Rules, line, k);
    FirstMatchNone(Rules, line);
  }

  /** The success marker wins over every failure marker on the same line. */
  lemma SuccessWins(line: string)
    requires Contains(line, SuccessMarker)
    ensures Classify(line) == Success
  {
  }

  /** Lowering distributes over concatenation. */
  lemma LowerConcat(a: string, b: string)
    ensures Lower(a + b) == Lower(a) + Lower(b)
  {
  }

  /** The generic failure marker is found whatever the case of its letters
      ("Command Failed", "COMMAND FAILED", ...), once no earlier marker is
      on the line. */
  lemma CommandFailedAnyCase(pre: string, word: string, post: string)
    requires Lower(word) == CommandFailedMarker
    requires var line := pre + word + post;
      !Contains(line, SuccessMarker) && !Contains(line, AuthMarker)
      && !Contains(line, TunOpenMarker) && !Contains(line, TunAllocMarker)
    ensures Classify(pre + word + post) == CommandFailed
  {
    LowerConcat(pre + word, post);
    LowerConcat(pre, word);
    ContainsInside(Lower(pre), CommandFailedMarker, Lower(post));
  }

  const AuthFailedMessage := "Authentication failed. Please check your username and password."
  const TunOpenMessage := "Cannot open TUN/TAP device. May need admin privileges."
  const TunAllocMessage := "Cannot allocate TUN/TAP device. May need admin privileges."
  const CommandFailedMessage := "Command failed. Check permissions and configuration."

  /** The fixed message stored in `error` for each failure outcome. */
  function FailureMessage(o: Outcome): string
    requires o != NoMatch && o != Success
  {
    match o
    case AuthFailed => AuthFailedMessage
    case TunOpenFailed => TunOpenMessage
    case TunAllocFailed => TunAllocMessage
    case CommandFailed => CommandFailedMessage
  }

  /** Each failure outcome has its own message. */
  lemma FailureMessagesDistinct(a: Outcome, b: Outcome)
    requires a != NoMatch && a != Success && b != NoMatch && b != Success
    requires FailureMessage(a) == FailureMessage(b)
    ensures a == b
  {
    // The four messages have four different lengths.
    assert |AuthFailedMessage| == 63 && |TunOpenMessage| == 54;
    assert |TunAllocMessage| == 58 && |CommandFailedMessage| == 52;
  }

  /** The log entry added when the tunnel comes up. */
  function ConnectedEntry(ip: string): string {
    "Connected! New IP: " + ip
  }

  /** The effect of an outcome on the connection state; `ip` is what the
      address lookup returns and `now` the clock reading at that moment. */
  function Apply(c: Conn, o: Outcome, ip: string, now: int): Conn {
    match o
    case NoMatch => c
    case Success =>
      Conn(Connected, c.log + [ConnectedEntry(ip)],
           c.details.(startTime := Some(now), publicIp := ip))
    case _ => c.(status := Error, details := c.details.(error := Some(FailureMessage(o))))
  }

  /** One pass of the read loop's body over a line: the stripped line goes
      into the bounded log, then the raw line is classified. */
  function Step(c: Conn, line: string, ip: string, now: int): Conn {
    Apply(c.(log := BoundedAppend(c.log, Strip(line))), Classify(line), ip, now)
  }

  /** What an outcome does to the state: success sets `Connected`, the
      start time and the address and adds exactly one entry; a failure sets
      `Error` and its message and keeps the start time and address; no
      match changes nothing. */
  lemma ApplyEffects(c: Conn, o: Outcome, ip: string, now: int)
    ensures var r := Apply(c, o, ip, now);
      && (o == Success ==>
            r.status == Connected && r.details.startTime == Some(now) && r.details.publicIp == ip
            && r.details.location == c.details.location && r.details.error == c.details.error
            && r.log == c.log + [ConnectedEntry(ip)])
      && (o != Success && o != NoMatch ==>
            r.status == Error && r.details.error == Some(FailureMessage(o))
            && r.details.startTime == c.details.startTime && r.details.publicIp == c.details.publicIp
            && r.details.location == c.details.location && r.log == c.log)
      && (o == NoMatch ==> r == c)
  {
  }

  /** What one line does to the state, outcome by outcome, after the
      stripped line has gone into the bounded log; at most the oldest
      entry is dropped. */
  lemma StepEffects(c: Conn, line: string, ip: string, now: int)
    ensures var r := Step(c, line, ip, now);
      var logged := BoundedAppend(c.log, Strip(line));
      && (Classify(line) == Success ==>
            r.status == Connected && r.details.startTime == Some(now) && r.details.publicIp == ip
            && r.details.location == c.details.location && r.details.error == c.details.error
            && r.log == logged + [ConnectedEntry(ip)])
      && (Classify(line) != Success && Classify(line) != NoMatch ==>
            r.status == Error && r.details.error == Some(FailureMessage(Classify(line)))
            && r.details.startTime == c.details.startTime && r.details.publicIp == c.details.publicIp
            && r.details.location == c.details.location && r.log == logged)
      && (Classify(line) == NoMatch ==>
            r.status == c.status && r.details == c.details && r.log == logged)
      && |logged| == (if |c.log| < MaxLog then |c.log| + 1 else |c.log|)
      && logged == c.log[|c.log| - (|logged| - 1)..] + [Strip(line)]
  {
    var logged := BoundedAppend(c.log, Strip(line));
    ApplyEffects(c.(log := logged), Classify(line), ip, now);
    assert logged == logged[..|logged| - 1] + [logged[|logged| - 1]];
  }

  /** The chain never gives `Error` precedence over a later success line:
      `Error` is not final while output is still being read. */
  lemma SuccessAfterError(c: Conn, line: string, ip: string, now: int)
    requires c.status == Error && Contains(line, SuccessMarker)
    ensures Step(c, line, ip, now).status == Connected
  {
  }

  /** A step either keeps the status or sets `Connected` or `Error`. */
  lemma StepStatus(c: Conn, line: string, ip: string, now: int)
    ensures var s := Step(c, line, ip, now).status;
      s == Connected || s == Error || s == c.status
  {
  }
}
