/** Python's `None` or a value. */
module Wrappers {
  datatype Option<+T> = None | Some(value: T)
}

/** The shared connection state of the controller: the status string, the
    output log and the connection details, and the operations on them that
    do not depend on where the state lives. */
module ConnectionState {
  import opened Wrappers

  /** The four values the global `vpn_status` ever takes. */
  datatype Status = Disconnected | Connecting | Connected | Error {
    /** The string the controller stores and reports. */
    function Label(): string {
      match this
      case Disconnected => "Disconnected"
      case Connecting => "Connecting..."
      case Connected => "Connected"
      case Error => "Error"
    }
  }

  /** Distinct statuses are reported as distinct strings, so a datatype may
      stand for the strings. */
  lemma LabelInjective(a: Status, b: Status)
    requires a.Label() == b.Label()
    ensures a == b
  {
  }

  /** The `connection_details` dictionary; `startTime` is the clock reading
      taken when the tunnel came up. */
  datatype Details = Details(startTime: Option<int>, publicIp: string, location: string, error: Option<string>)

  /** The details a new connection attempt starts from. */
  const InitialDetails := Details(None, "Unknown", "Unknown", None)

  /** What the read loop changes: status, output log and details. */
  datatype Conn = Conn(status: Status, log: seq<string>, details: Details)

  /** The number of entries above which the read loop drops the oldest one. */
  const MaxLog := 200

  /** Append `entry`, then drop the oldest entry once if the log has grown
      past `MaxLog`. Only one entry is ever dropped, so a log that other
      appends pushed past the bound stays past it. */
  function BoundedAppend(log: seq<string>, entry: string): (r: seq<string>)
    ensures |r| == if |log| < MaxLog then |log| + 1 else |log|
    ensures r[|r| - 1] == entry
    ensures r[..|r| - 1] == log[|log| - (|r| - 1)..]
    ensures |r| <= if |log| < MaxLog then MaxLog else |log|
  {
    var appended := log + [entry];
    if |appended| > MaxLog then appended[1..] else appended
  }

  /** A log within the bound stays within it. */
  lemma {:induction false} BoundedAppendKeepsBound(log: seq<string>, entries: seq<string>)
    requires |log| <= MaxLog
    ensures |AppendAll(log, entries)| <= MaxLog
    ensures |log| + |entries| <= MaxLog ==> AppendAll(log, entries) == log + entries
    decreases |entries|
  {
    if entries != [] {
      var next := BoundedAppend(log, entries[0]);
      assert AppendAll(log, entries) == AppendAll(next, entries[1..]);
      BoundedAppendKeepsBound(next, entries[1..]);
      if |log| + |entries| <= MaxLog {
        AppendFits(log, entries[0]);
        assert next + entries[1..] == log + entries;
      }
    }
  }

  /** Below the bound, a bounded append is a plain append. */
  lemma AppendFits(log: seq<string>, entry: string)
    requires |log| < MaxLog
    ensures BoundedAppend(log, entry) == log + [entry]
  {
  }

  /** Several bounded appends in a row. */
  function AppendAll(log: seq<string>, entries: seq<string>): seq<string>
    decreases |entries|
  {
    if entries == [] then log else AppendAll(BoundedAppend(log, entries[0]), entries[1..])
  }

  /** The last `n` entries, or all of them when there are fewer. For the
      positive `n` used here this is Python's `log[-n:]`; Python gives the
      whole list for `n == 0`, where this gives none. */
  function LastEntries(log: seq<string>, n: nat): (r: seq<string>)
    ensures |r| == if |log| < n then |log| else n
    ensures log == log[..|log| - |r|] + r
  {
    if |log| <= n then log else log[|log| - n..]
  }
}
