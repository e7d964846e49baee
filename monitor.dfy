/** The decision the status monitor takes on each tick, comparing the
    process's liveness with the status the read loop derived. */
module Monitor {
  import opened ConnectionState

  /** The log length above which a live process is reported as connecting. */
  const Threshold := 5

  /** The status after one tick. `alive` is "a process handle exists and
      polling it says it is still running". */
  function Tick(alive: bool, s: Status, logLength: nat): Status {
    if alive then
      if s != Connected && s != Error && logLength > Threshold then Connecting else s
    else
      if s != Error then Disconnected else s
  }

  /** With a live process, the tick only ever moves to `Connecting`, and
      does so exactly when the status is neither `Connected` nor `Error` and
      the log holds more than five entries. */
  lemma TickAlive(s: Status, logLength: nat)
    ensures Tick(true, s, logLength) == Connecting
            <==> s == Connecting || (s == Disconnected && logLength > Threshold)
    ensures Tick(true, s, logLength) != s ==> s == Disconnected && logLength > Threshold
  {
  }

  /** Without a live process, every status but `Error` becomes
      `Disconnected`. */
  lemma TickDead(s: Status, logLength: nat)
    ensures Tick(false, s, logLength) == (if s == Error then Error else Disconnected)
  {
  }

  /** The tick neither produces nor clears `Error`. */
  lemma TickKeepsError(alive: bool, s: Status, logLength: nat)
    ensures (Tick(alive, s, logLength) == Error) <==> (s == Error)
  {
  }

  /** A second tick on unchanged inputs changes nothing. */
  lemma TickIdempotent(alive: bool, s: Status, logLength: nat)
    ensures Tick(alive, Tick(alive, s, logLength), logLength) == Tick(alive, s, logLength)
  {
  }

  /** Running the monitor tick after tick on unchanged inputs. */
  function Ticks(n: nat, alive: bool, s: Status, logLength: nat): Status {
    if n == 0 then s else Ticks(n - 1, alive, Tick(alive, s, logLength), logLength)
  }

  /** However many ticks run, the status settles after the first: a
      silent exit is reported within one polling interval and never
      revisited. */
  lemma {:induction false} TicksSettle(n: nat, alive: bool, s: Status, logLength: nat)
    requires n >= 1
    ensures Ticks(n, alive, s, logLength) == Tick(alive, s, logLength)
  {
    if n > 1 {
      TicksSettle(n - 1, alive, Tick(alive, s, logLength), logLength);
      TickIdempotent(alive, s, logLength);
    }
  }
}
