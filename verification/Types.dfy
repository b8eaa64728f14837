/** Identifiers, exit reasons and envelopes shared by every part of the model. */
module Types {

  datatype Option<+T> = None | Some(value: T)

  /** Subtraction that stops at zero. */
  function Monus(a: nat, b: nat): nat { if b <= a then a - b else 0 }

  /** A slot plus the generation that tells reuses of the slot apart. */
  datatype ActorId = ActorId(localId: nat, generation: nat)

  /** Monitor, call and timer references; the runtime hands them out in increasing order. */
  type Ref = nat

  /** The causes the runtime itself turns into an error reason; message texts are not modelled. */
  datatype ErrorDetail =
    | Text(message: string)
    | Panicked(actor: ActorId)
    | MailboxOverflow(actor: ActorId, delivering: string)
    | Supervision(failure: string, child: Option<nat>)

  datatype ExitReason = Normal | Shutdown | Kill | NoProc | NoConnection | Error(detail: ErrorDetail)

  datatype ExitSignal = ExitSignal(from: ActorId, reason: ExitReason, linked: bool)

  datatype Status = Starting | Runnable | Waiting | Running | Exiting | Dead

  datatype SystemMessage =
    | Suspend | Resume | GetState | ReplaceState | TraceOn | TraceOff | ShutdownRequest
    | CodeChange(targetVersion: nat)

  datatype Envelope =
    | User(payload: nat)
    | Request(reference: Ref, sender: ActorId)
    | Reply(reference: Ref)
    | Task(reference: Ref)
    | CallTimeout(reference: Ref)
    | Exit(signal: ExitSignal)
    | Down(reference: Ref, actor: ActorId, reason: ExitReason)
    | Timer(token: Ref)
    | System(message: SystemMessage)
  {
    predicate UsesRuntimeReserve() { !User? && !Request? }

    predicate IsSystemMessage() { System? }

    predicate CanRunWhileSuspended() { System? || Exit? || Down? }

    predicate BypassesUserSelectiveReceive() { System? || Exit? || Down? }
  }

  datatype ShutdownPolicy = BrutalKill | Timeout(delay: nat) | Infinity
}
