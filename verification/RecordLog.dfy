/**
 The events that threads log, the entries that carry them, and the checks that replay makes against
 them (src/recordlog.rs, and the `check_recorded_event` functions of the channel modules).
 `type_name` strings are never compared and are not modelled.
 */
module RecordLog {
  import opened Identities

  datatype ChannelVariant =
    | CbUnbounded | CbBounded | CbAfter | CbNever | CbSelect
    | Ipc | IpcSelect | MpscBounded | MpscUnbounded | Select | NoVariant

  /** The errors that a receive can report to the user. */
  datatype RecvError = Disconnected | Empty | Timeout | Io | Bincode

  /** recv, try_recv and recv_timeout. */
  datatype RecvKind = Blocking | Try | Timed

  datatype SelectEvent = Success(sender: Path, index: nat) | RecvFailed(index: nat)

  datatype IpcSelectEvent = MessageReceived(index: nat, sender: Path) | ChannelClosed(index: nat)

  datatype TivoEvent =
    | CrossbeamSender
    | CrossbeamRecvSucc(sender: Path)
    | CrossbeamRecvErr
    | CrossbeamTryRecvSucc(sender: Path)
    | CrossbeamTryRecvErr(error: RecvError)
    | CrossbeamRecvTimeoutSucc(sender: Path)
    | CrossbeamRecvTimeoutErr(error: RecvError)
    | CrossbeamSelect(select: SelectEvent)
    | CrossbeamSelectAdd(index: nat)
    | IpcSender
    | IpcRecvSucc(sender: Path)
    | IpcError(error: RecvError)
    | IpcTryRecvErrorEmpty
    | IpcTryRecvIpcError(error: RecvError)
    | IpcSelectAdd(index: nat)
    | IpcSelectBatch(events: seq<IpcSelectEvent>)
    | ThreadInitialized(child: Path)
    | ChannelCreation

  /** What an operation expects of its log entry besides the event. */
  datatype Metadata = Metadata(variant: ChannelVariant, id: DetChannelId)

  /** Metadata of events that belong to no channel. */
  const NO_CHANNEL := Metadata(NoVariant, FAKE_CHANNEL)

  datatype RecordEntry = RecordEntry(event: TivoEvent, variant: ChannelVariant, chan: DetChannelId)

  datatype DesyncError =
    | NoEntryInLog
    | ChannelVariantMismatch(logged: ChannelVariant, actual: ChannelVariant)
    | ChannelMismatch(loggedId: DetChannelId, actualId: DetChannelId)
    | EventMismatch(loggedEvent: TivoEvent)
    | MissingReceiver(index: nat)
    | SelectExistingEntry(index: nat)
    | Desynchronized
    | ChannelClosedExpected
    | DisconnectedWhileWaiting
    | ChannelClosedUnexpected(index: nat)
    | TimedOutWaiting
    | DesynchronizedWakeup
    | CannotWriteEventToLog

  datatype Checked = Fine | Bad(error: DesyncError)

  /** `RecordEntry::check_mismatch`: the variant first, then the channel. */
  function CheckMismatch(entry: RecordEntry, metadata: Metadata): Checked {
    if entry.variant != metadata.variant then Bad(ChannelVariantMismatch(entry.variant, metadata.variant))
    else if entry.chan != metadata.id then Bad(ChannelMismatch(entry.chan, metadata.id))
    else Fine
  }

  /** `check_event_mismatch`: the event first, then the metadata. */
  function CheckEntry(accepted: bool, entry: RecordEntry, metadata: Metadata): Checked {
    if !accepted then Bad(EventMismatch(entry.event)) else CheckMismatch(entry, metadata)
  }

  predicate IsIpc(variant: ChannelVariant) {
    variant == Ipc
  }

  /** `EVENT_VARIANT` of the sender. */
  function SendEvent(variant: ChannelVariant): TivoEvent {
    if IsIpc(variant) then IpcSender else CrossbeamSender
  }

  /** `recorded_event_succ`. */
  function SuccEvent(variant: ChannelVariant, kind: RecvKind, sender: Path): TivoEvent {
    if IsIpc(variant) then IpcRecvSucc(sender)
    else match kind
      case Blocking => CrossbeamRecvSucc(sender)
      case Try => CrossbeamTryRecvSucc(sender)
      case Timed => CrossbeamRecvTimeoutSucc(sender)
  }

  /** The errors that the channel's receive function can return; the ipc receivers have no recv_timeout. */
  predicate CanFailWith(variant: ChannelVariant, kind: RecvKind, e: RecvError) {
    if IsIpc(variant) then
      match kind
      case Blocking => e in {Disconnected, Io, Bincode}
      case Try => e in {Disconnected, Io, Bincode, Empty}
      case Timed => false
    else
      match kind
      case Blocking => e == Disconnected
      case Try => e in {Disconnected, Empty}
      case Timed => e in {Disconnected, Timeout}
  }

  /** `recorded_event_err`. */
  function ErrEvent(variant: ChannelVariant, kind: RecvKind, e: RecvError): TivoEvent {
    if IsIpc(variant) then
      if kind == Try then (if e == Empty then IpcTryRecvErrorEmpty else IpcTryRecvIpcError(e)) else IpcError(e)
    else
      match kind
      case Blocking => CrossbeamRecvErr
      case Try => CrossbeamTryRecvErr(e)
      case Timed => CrossbeamRecvTimeoutErr(e)
  }

  /** `check_recorded_event` of the receivers. */
  predicate AcceptsRecv(variant: ChannelVariant, kind: RecvKind, event: TivoEvent) {
    if IsIpc(variant) then
      match kind
      case Blocking => event.IpcRecvSucc? || event.IpcError?
      case Try => event.IpcRecvSucc? || event.IpcTryRecvIpcError? || event.IpcTryRecvErrorEmpty?
      case Timed => false
    else
      match kind
      case Blocking => event.CrossbeamRecvSucc? || event.CrossbeamRecvErr?
      case Try => event.CrossbeamTryRecvSucc? || event.CrossbeamTryRecvErr?
      case Timed => event.CrossbeamRecvTimeoutSucc? || event.CrossbeamRecvTimeoutErr?
  }

  /** A receive is replayed either by waiting for a sender or by reporting an error. */
  datatype Replay = WaitFor(sender: Path) | Report(error: RecvError)

  /** `replay_recorded_event`, for the events that pass the check. */
  function ReplayOf(event: TivoEvent): Replay {
    match event
    case CrossbeamRecvSucc(s) => WaitFor(s)
    case CrossbeamTryRecvSucc(s) => WaitFor(s)
    case CrossbeamRecvTimeoutSucc(s) => WaitFor(s)
    case IpcRecvSucc(s) => WaitFor(s)
    case CrossbeamTryRecvErr(e) => Report(e)
    case CrossbeamRecvTimeoutErr(e) => Report(e)
    case IpcError(e) => Report(e)
    case IpcTryRecvIpcError(e) => Report(e)
    case IpcTryRecvErrorEmpty => Report(Empty)
    case _ => Report(Disconnected)
  }

  /** The errors that the event types can carry. */
  predicate Loggable(event: TivoEvent) {
    match event
    case CrossbeamTryRecvErr(e) => e in {Disconnected, Empty}
    case CrossbeamRecvTimeoutErr(e) => e in {Disconnected, Timeout}
    case IpcError(e) => e in {Disconnected, Io, Bincode}
    case IpcTryRecvIpcError(e) => e in {Disconnected, Io, Bincode}
    case _ => true
  }

  /** The event is what a receive of this kind logs of a message or of an error. */
  ghost predicate IsOfRecv(variant: ChannelVariant, kind: RecvKind, event: TivoEvent) {
    || (exists s :: event == SuccEvent(variant, kind, s))
    || (exists x :: CanFailWith(variant, kind, x) && event == ErrEvent(variant, kind, x))
  }

  /** A replayed receive accepts the events that the same receive can log, and refuses all others. */
  lemma AcceptsExactly(variant: ChannelVariant, kind: RecvKind, event: TivoEvent)
    requires Loggable(event) && !(IsIpc(variant) && kind == Timed)
    ensures AcceptsRecv(variant, kind, event) <==> IsOfRecv(variant, kind, event)
  {
    if AcceptsRecv(variant, kind, event) {
      match ReplayOf(event) {
        case WaitFor(s) => assert event == SuccEvent(variant, kind, s);
        case Report(x) => assert CanFailWith(variant, kind, x) && event == ErrEvent(variant, kind, x);
      }
    }
  }

  /** No event is accepted by receives of two kinds, but that the ipc receivers log all their messages alike. */
  lemma NoOtherReceive(v: ChannelVariant, k: RecvKind, w: ChannelVariant, l: RecvKind, event: TivoEvent)
    requires AcceptsRecv(v, k, event) && AcceptsRecv(w, l, event)
    ensures IsIpc(v) == IsIpc(w) && (k == l || (IsIpc(v) && event.IpcRecvSucc?))
    ensures event != SendEvent(v) && !event.CrossbeamSelect? && !event.IpcSelectBatch? && !event.ChannelCreation?
    ensures !event.ThreadInitialized? && !event.CrossbeamSelectAdd? && !event.IpcSelectAdd?
  {
  }

  /** What a receive logs passes the check of the same receive and replays as the result that was recorded. */
  lemma ReceiveEventsRoundTrip(variant: ChannelVariant, kind: RecvKind, s: Path, e: RecvError)
    requires !(IsIpc(variant) && kind == Timed)
    ensures AcceptsRecv(variant, kind, SuccEvent(variant, kind, s))
    ensures ReplayOf(SuccEvent(variant, kind, s)) == WaitFor(s)
    ensures CanFailWith(variant, kind, e) ==>
              AcceptsRecv(variant, kind, ErrEvent(variant, kind, e)) && ReplayOf(ErrEvent(variant, kind, e)) == Report(e)
  {
  }
}
