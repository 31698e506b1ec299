/** Waiting for the machine's pod to run: an initial look at the pod, then, unless it
    already runs, a watch whose signals race against the bounded wait. The outcome is
    single-assignment: the first signal that resolves it decides, later ones do nothing. */
module Readiness {
  import opened Wrappers
  import opened Resources

  /** The pod phase that counts as started. */
  const RunningPhase := "Running"

  datatype WatchAction = Added | Modified | Deleted | WatchError

  /** What can happen while the caller waits: the watch delivers an event carrying the
      pod's phase, the watch closes, the wait's bound elapses, or the waiting thread is
      interrupted. */
  datatype Signal =
    | PodEvent(action: WatchAction, phase: Option<string>)
    | WatchClosed
    | TimeoutElapsed
    | CallerInterrupted

  /** The single-assignment outcome cell. */
  datatype Wait = Waiting | Resolved(outcome: Result<(), Error>)

  /** Whether a signal resolves a wait that is still open; the action of an event is
      ignored, only its phase counts. */
  predicate Settles(signal: Signal) {
    match signal
    case PodEvent(_, phase) => phase == Some(RunningPhase)
    case _ => true
  }

  /** The outcome a resolving signal sets for the machine named `machine`. */
  function SignalOutcome(signal: Signal, machine: string): Result<(), Error>
    requires Settles(signal)
  {
    match signal
    case PodEvent(_, _) => Success(())
    case WatchClosed => Failure(WatchInterrupted)
    case TimeoutElapsed => Failure(StartTimedOut(machine))
    case CallerInterrupted => Failure(StartInterrupted(machine))
  }

  /** One signal delivered to the cell: an open wait takes the signal's outcome if the
      signal resolves it; a resolved one keeps its outcome. */
  function Step(w: Wait, signal: Signal, machine: string): Wait {
    match w
    case Resolved(_) => w
    case Waiting => if Settles(signal) then Resolved(SignalOutcome(signal, machine)) else Waiting
  }

  /** The signals delivered in order. */
  function Deliver(w: Wait, signals: seq<Signal>, machine: string): Wait
    decreases |signals|
  {
    if signals == [] then w else Deliver(Step(w, signals[0], machine), signals[1..], machine)
  }

  /** Signal `i` is the first that resolves. */
  predicate FirstResolving(signals: seq<Signal>, i: int) {
    && 0 <= i < |signals|
    && Settles(signals[i])
    && forall j :: 0 <= j < i ==> !Settles(signals[j])
  }

  /** A resolved outcome is final: no later signal changes it. */
  lemma {:induction false} ResolvedIsFinal(outcome: Result<(), Error>, signals: seq<Signal>, machine: string)
    ensures Deliver(Resolved(outcome), signals, machine) == Resolved(outcome)
    decreases |signals|
  {
    if signals != [] {
      ResolvedIsFinal(outcome, signals[1..], machine);
    }
  }

  /** Delivering `a` then `b` is delivering `a + b`. */
  lemma {:induction false} DeliverAppend(w: Wait, a: seq<Signal>, b: seq<Signal>, machine: string)
    ensures Deliver(w, a + b, machine) == Deliver(Deliver(w, a, machine), b, machine)
    decreases |a|
  {
    if a != [] {
      assert (a + b)[0] == a[0];
      assert (a + b)[1..] == a[1..] + b;
      DeliverAppend(Step(w, a[0], machine), a[1..], b, machine);
    } else {
      assert a + b == b;
    }
  }

  /** The first resolving signal decides the outcome; with none, the wait stays open. */
  lemma {:induction false} FirstResolvingDecides(signals: seq<Signal>, machine: string)
    ensures forall i :: FirstResolving(signals, i) ==>
              Deliver(Waiting, signals, machine) == Resolved(SignalOutcome(signals[i], machine))
    ensures (forall i :: 0 <= i < |signals| ==> !Settles(signals[i])) ==>
              Deliver(Waiting, signals, machine) == Waiting
    decreases |signals|
  {
    if signals != [] {
      var rest := signals[1..];
      FirstResolvingDecides(rest, machine);
      if Settles(signals[0]) {
        ResolvedIsFinal(SignalOutcome(signals[0], machine), rest, machine);
      } else {
        forall i | FirstResolving(signals, i)
          ensures Deliver(Waiting, signals, machine) == Resolved(SignalOutcome(signals[i], machine))
        {
          assert FirstResolving(rest, i - 1);
        }
        if forall i :: 0 <= i < |signals| ==> !Settles(signals[i]) {
          assert forall i :: 0 <= i < |rest| ==> !Settles(rest[i]) by {
            forall i | 0 <= i < |rest| ensures !Settles(rest[i]) {
              assert rest[i] == signals[i + 1];
            }
          }
        }
      }
    }
  }

  /** Once some prefix of the signals has resolved the wait, whatever follows is ignored. */
  lemma FirstResolutionWins(prefix: seq<Signal>, later: seq<Signal>, machine: string)
    requires Deliver(Waiting, prefix, machine).Resolved?
    ensures Deliver(Waiting, prefix + later, machine) == Deliver(Waiting, prefix, machine)
  {
    DeliverAppend(Waiting, prefix, later, machine);
    ResolvedIsFinal(Deliver(Waiting, prefix, machine).outcome, later, machine);
  }

  /** What a wait for the pod yields, and whether a pod watch was opened and later closed. */
  datatype WaitReport = WaitReport(outcome: Result<(), Error>, watchOpened: bool, watchClosed: bool)

  /** Waits for the machine's pod to run. A missing pod is an error; a pod already running
      succeeds without a watch. Otherwise a watch is opened and the first resolving signal
      decides; if the signals run out first the bound has elapsed. The watch is closed only
      when the wait succeeds. */
  function WaitRunning(h: Handle, pod: Option<Pod>, signals: seq<Signal>): (r: WaitReport)
    ensures pod.None? ==> r == WaitReport(Failure(PodNotFound(h.podName)), false, false)
    ensures pod.Some? && pod.value.phase == Some(RunningPhase) ==> r == WaitReport(Success(()), false, false)
    ensures pod.Some? && pod.value.phase != Some(RunningPhase) ==>
              && r.watchOpened
              && (forall i :: FirstResolving(signals, i) ==> r.outcome == SignalOutcome(signals[i], GetName(h)))
              && ((forall i :: 0 <= i < |signals| ==> !Settles(signals[i])) ==>
                    r.outcome == Failure(StartTimedOut(GetName(h))))
    ensures r.watchClosed <==> r.watchOpened && r.outcome.Success?
  {
    match pod
    case None => WaitReport(Failure(PodNotFound(h.podName)), false, false)
    case Some(p) =>
      if p.phase == Some(RunningPhase) then WaitReport(Success(()), false, false)
      else
        FirstResolvingDecides(signals, GetName(h));
        var outcome := match Deliver(Waiting, signals, GetName(h))
          case Resolved(o) => o
          case Waiting => Failure(StartTimedOut(GetName(h)));
        WaitReport(outcome, true, outcome.Success?)
  }

  /** Once watching, the wait succeeds exactly when a Running event arrives before any
      close, timeout or interruption. */
  lemma WatchSucceedsIffRunningFirst(h: Handle, pod: Pod, signals: seq<Signal>)
    requires pod.phase != Some(RunningPhase)
    ensures WaitRunning(h, Some(pod), signals).outcome.Success? <==>
              exists i :: FirstResolving(signals, i) && signals[i].PodEvent?
  {
    if exists i :: FirstResolving(signals, i) {
      var i :| FirstResolving(signals, i);
      forall k | FirstResolving(signals, k) ensures k == i {
      }
    } else {
      forall i | 0 <= i < |signals| ensures !Settles(signals[i]) {
        if Settles(signals[i]) {
          FirstExists(signals, i);
        }
      }
    }
  }

  /** A resolving signal at `k` means some signal at or before `k` is the first resolving one. */
  lemma {:induction false} FirstExists(signals: seq<Signal>, k: int)
    requires 0 <= k < |signals| && Settles(signals[k])
    ensures exists i :: 0 <= i <= k && FirstResolving(signals, i)
    decreases k
  {
    if !FirstResolving(signals, k) {
      var j :| 0 <= j < k && Settles(signals[j]);
      FirstExists(signals, j);
    }
  }
}
