/** How an exit reaches a linked actor, and how a managed shutdown is signalled. */
module ExitSignals {
  import opened Types

  datatype ExitDisposition = KillNow | Ignore | Enqueue

  /** Whether a linked exit for `reason` takes the receiver down with it. */
  predicate Dies(trapExit: bool, reason: ExitReason) {
    reason == Kill || (!trapExit && reason != Normal)
  }

  function ClassifyExitSignal(trapExit: bool, signal: ExitSignal): (r: ExitDisposition)
    ensures signal.linked ==> (r == KillNow <==> Dies(trapExit, signal.reason)) && (r == Enqueue ==> trapExit)
    ensures !signal.linked ==> (r == KillNow <==> signal.reason == Kill) && r != Ignore
  {
    if signal.reason == Kill || (signal.linked && !trapExit && signal.reason != Normal) then KillNow
    else if signal.linked && !trapExit && signal.reason == Normal then Ignore
    else Enqueue
  }

  datatype ShutdownMode = ForceKill | Linked(timeout: Option<nat>)

  function ModeOf(policy: ShutdownPolicy): ShutdownMode {
    match policy
    case BrutalKill => ForceKill
    case Timeout(delay) => Linked(Some(delay))
    case Infinity => Linked(None)
  }

  function ShutdownSignal(requester: ActorId): ExitSignal { ExitSignal(requester, Shutdown, true) }

  /** A requested kill is passed on to linked actors as an orderly shutdown. */
  function ShutdownLinkReason(requested: bool, final: ExitReason): (r: ExitReason)
    ensures r == Kill ==> !requested
    ensures r != final ==> r == Shutdown && final == Kill
  {
    if requested && final == Kill then Shutdown else final
  }
}
