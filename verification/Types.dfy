/** The vocabulary of the delegate journal: identities, packets, outcomes and events. */
module Types {

  datatype Option<+T> = None | Some(value: T)

  /** A delegate id. Zero stands for the empty id: the root session owns what names it. */
  type Id = nat
  const NO_ID: Id := 0

  /** A process-local token. Zero is never minted. */
  type Token = nat

  /** An opaque resident runtime. Zero is no runtime. */
  type Runtime = nat

  /** The ids of queued deliveries: a generation's report, or a mid-work update named by its journal sequence. */
  datatype DeliveryId = Report(id: Id, generation: nat) | Update(id: Id, seqNo: nat)

  datatype Phase = Idle | Running | Settling | Stopping | Closed

  datatype Trigger = InitialTrigger | OwnerInput | AttentionTrigger

  datatype Disposition = ReportedRun | TerminalErrorRun | CompletedNoAction

  datatype Status = Completed | Failed | Exhausted | Cancelled | Stopped

  /** Outcome reasons: the codes the controller writes, and any other text. */
  datatype Reason =
    | NoReason
    | StoppedByParent
    | RuntimeLost
    | MissingTerminal
    | TerminalErrorCode
    | CancelledCode
    | ToolRoundsExhausted
    | TurnsExhausted
    | AttentionConsumed
    | OtherReason(text: string)

  datatype Budget = ToolRounds | Turns

  datatype Exhaustion = Exhaustion(budget: Budget, limit: int, resumable: bool)

  datatype Outcome = Outcome(status: Status, reason: Reason, endedAt: nat, exhaustion: Option<Exhaustion>)

  datatype PacketKind = ReportedPacket | TerminalErrorPacket | UpdatePacket

  datatype Message = MissingTerminalText | StoppedText | LostText | OtherText(text: string)

  /** Decoded packet metadata. */
  datatype Metadata = Metadata(
    endedAt: Option<nat>,
    outcome: Option<Status>,
    reason: Reason,
    error: string,
    budget: Option<Budget>,
    limit: int,
    resumable: Option<bool>)

  datatype MetadataField = NoMetadata | Unreadable | Decoded(meta: Metadata)

  /** A terminal packet. `bare` says that it carries no structured result and no warnings. */
  datatype Packet = Packet(kind: PacketKind, message: Message, bare: bool, metadata: MetadataField)

  datatype Pending = Pending(did: DeliveryId, generation: nat, owner: Id, packet: Packet)

  /** One delegate's durable record. `born` is the journal sequence that created it. */
  datatype Aggregate = Aggregate(
    parent: Id,
    born: nat,
    generation: nat,
    trigger: Trigger,
    phase: Phase,
    open: bool,
    prepared: Option<Packet>,
    resumable: bool,
    outcome: Option<Outcome>,
    queue: seq<Pending>,
    pendingStop: nat)

  type Durable = map<Id, Aggregate>

  datatype Event =
    | Created(id: Id, parent: Id, resumable: bool)
    | RunStarted(id: Id, generation: nat, trigger: Trigger)
    | TerminalPrepared(id: Id, generation: nat, packet: Packet)
    | RunFinished(id: Id, generation: nat, outcome: Outcome, disposition: Disposition,
                  did: Option<DeliveryId>, finishPacket: Option<Packet>)
    | ResumabilityClosed(id: Id)
    | StopRequested(id: Id)
    | StopCompleted(id: Id, requestSeq: nat)
    | DeliveryAcknowledged(id: Id, acked: DeliveryId)
    | UpdatePosted(id: Id, generation: nat, note: Packet)

  datatype Lease = Lease(id: Id, generation: nat)
}
