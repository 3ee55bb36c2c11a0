/**
 Selecting over crossbeam receivers (src/crossbeam_select.rs). A selection is made in two phases: `select`
 returns an operation with an index, and the user completes it with `recv` on the receiver of that index.
 Replay makes the first phase poll, so that the second cannot fail.

 The real selector is the list of the receivers registered with it; which of them it picks is up to the
 environment. All receivers have one message type here.
 */
module CrossbeamSelect {
  import opened Channels
  import opened EventLog
  import opened Identities
  import opened RecordLog
  import opened ReplayEngine

  /** An operation between the two phases (`SelectedOperationImpl`). */
  datatype Operation =
    | ReplayOp(event: SelectEvent, variant: ChannelVariant, chan: DetChannelId)
    | DesyncBufferEntry(entry: nat)
    | RecordOp(picked: nat)
    | NoRROp(picked: nat)
    | DesyncOp(picked: nat)
  {
    /** The index that the user sees. */
    function Index(): nat {
      match this
      case ReplayOp(event, _, _) => event.index
      case DesyncBufferEntry(i) => i
      case RecordOp(i) => i
      case NoRROp(i) => i
      case DesyncOp(i) => i
    }
  }

  datatype SelectResult = Selected(op: Operation) | SelectDesynced(error: DesyncError) | SelectPanicked

  class Selector<T> {
    var selector: seq<Receiver<T>>
    var receivers: map<nat, Receiver<T>>
    const recorder: EventRecorder
    const mode: RRMode

    /** The wrapper numbers the receivers as the real selector does. */
    ghost predicate Numbered()
      reads this
    {
      && (forall i: nat :: i in receivers <==> i < |selector|)
      && (forall i: nat | i < |selector| :: receivers[i] == selector[i])
    }

    ghost function Repr(): set<object>
      reads this
    {
      set r | r in selector
    }

    ghost predicate Valid()
      reads this, recorder, Repr()
    {
      && Numbered() && recorder.Valid()
      && (forall r | r in selector :: r.Valid() && r.mode == mode)
    }

    constructor (recorder: EventRecorder, mode: RRMode)
      requires recorder.Valid()
      ensures Valid() && this.recorder == recorder && this.mode == mode && selector == []
    {
      this.recorder, this.mode := recorder, mode;
      selector, receivers := [], map[];
    }

    /**
     `Select::recv`: registers a receiver, with the real selector too, and gives it the next index. The index
     and the channel must be the logged ones. None is a panic; that includes the end of the log.
     */
    method Recv(r: Receiver<T>) returns (index: Maybe<nat>)
      requires Valid() && r.Valid() && r.mode == mode
      modifies this, recorder
      ensures Valid()
      ensures selector == old(selector) + [r]
      ensures index.Some? ==> index.value == |old(selector)|
      ensures var event := CrossbeamSelectAdd(|old(selector)|);
              && recorder.written == old(recorder.written) +
                   (if mode == RecordMode && !recorder.flushed
                    then [RecordEntry(event, r.metadata.variant, r.metadata.id)] else [])
              && (index.Some? <==>
                   match mode
                   case RecordMode => !recorder.flushed
                   case ReplayMode =>
                     && old(recorder.next) < |recorder.log|
                     && recorder.log[old(recorder.next)] == RecordEntry(event, r.metadata.variant, r.metadata.id)
                   case NoRR => true)
      ensures recorder.next == old(recorder.next) + if mode == ReplayMode && old(recorder.next) < |recorder.log| then 1 else 0
    {
      var i := |selector|;
      selector := selector + [r];
      assert i !in receivers;
      receivers := receivers[i := r];
      index := Some(i);
      match mode {
        case RecordMode =>
          var c := recorder.WriteEventToRecord(CrossbeamSelectAdd(i), r.metadata);
          if c.Bad? {
            index := None;
          }
        case ReplayMode =>
          var fetched := recorder.GetLogEntry();
          if fetched.NoEntry? || CheckEntry(fetched.entry.event == CrossbeamSelectAdd(i), fetched.entry, r.metadata).Bad? {
            index := None;
          }
        case NoRR =>
      }
    }

    /** Nothing about the receivers has changed as far as a user could tell. */
    twostate predicate NothingLost()
      reads this, Repr()
    {
      && selector == old(selector)
      && forall r | r in selector ::
           && SamePending(r.buffer, r.wire, old(r.buffer), old(r.wire))
           && r.delivered == old(r.delivered) && r.sent == old(r.sent)
    }

    /** The next log entry names a receiver whose channel hangs up during the poll: nothing is left to wait for. */
    ghost predicate PollHangsUp(patience: nat)
      reads this, recorder, Repr()
    {
      && recorder.next < |recorder.log|
      && var event := recorder.log[recorder.next].event;
         && event.CrossbeamSelect? && event.select.Success? && event.select.index < |selector|
         && var rc := selector[event.select.index];
            rc.SeesHangUp() && Pending(rc.buffer, rc.wire, event.select.sender) == [] && patience > |rc.wire|
    }

    /** The next log entry is a select that can be replayed: if it succeeded, its message is buffered or within reach. */
    ghost predicate SelectReplays(patience: nat)
      reads this, recorder, Repr()
    {
      recorder.next < |recorder.log| &&
      match recorder.log[recorder.next].event
      case CrossbeamSelect(Success(s, i)) =>
        i < |selector| && (Buffered(selector[i].buffer, s) != [] || InReach(s, selector[i].wire, patience))
      case CrossbeamSelect(RecvFailed(i)) => true
      case _ => false
    }

    twostate predicate Untouched()
      reads this, Repr()
    {
      && selector == old(selector)
      && forall r | r in selector :: r.buffer == old(r.buffer) && r.wire == old(r.wire)
    }

    /**
     `rr_select`. Polling is the only thing that touches a receiver, and it touches only the one that the log
     names. `pick` is the receiver that the real selector finds ready; in record and NoRR mode it must have one.
     */
    method RrSelect(programDesynced: bool, pick: nat, patience: nat) returns (r: SelectResult)
      requires Valid()
      modifies Repr(), recorder`next, recorder`eventNumber
      ensures Valid() && NothingLost()
      ensures programDesynced ==> r == SelectDesynced(Desynchronized)
      ensures programDesynced || mode != ReplayMode ==> Untouched()
      ensures !programDesynced && mode == RecordMode ==> r == Selected(RecordOp(pick))
      ensures !programDesynced && mode == NoRR ==> r == Selected(NoRROp(pick))
      ensures recorder.next == old(recorder.next) +
                if !programDesynced && mode == ReplayMode && old(recorder.next) < |recorder.log| then 1 else 0
      ensures !programDesynced && mode == ReplayMode ==>
                if old(recorder.next) == |recorder.log| then r == SelectDesynced(DesynchronizedWakeup)
                else
                  var entry := recorder.log[old(recorder.next)];
                     match entry.event
                     case CrossbeamSelect(Success(s, i)) =>
                       if i >= |selector| then r == SelectDesynced(MissingReceiver(i))
                       else
                         var rc := selector[i];
                         if Buffered(old(rc.buffer), s) != [] || InReach(s, old(rc.wire), patience) then
                           && r == Selected(ReplayOp(Success(s, i), entry.variant, entry.chan))
                           && Buffered(rc.buffer, s) != []
                         else
                           && r == (if old(PollHangsUp(patience)) then SelectPanicked else SelectDesynced(TimedOutWaiting))
                           && (r.SelectPanicked? ==> old(rc.hungUp) && Pending(rc.buffer, rc.wire, s) == [])
                     case CrossbeamSelect(RecvFailed(i)) => r == Selected(ReplayOp(RecvFailed(i), entry.variant, entry.chan))
                     case _ => r == SelectDesynced(EventMismatch(entry.event))
    {
      if programDesynced {
        return SelectDesynced(Desynchronized);
      }
      match mode {
        case RecordMode => return Selected(RecordOp(pick));
        case NoRR => return Selected(NoRROp(pick));
        case ReplayMode =>
          var fetched := recorder.GetLogEntry();
          if fetched.NoEntry? {
            // the thread sleeps here until some thread desynchronises
            return SelectDesynced(DesynchronizedWakeup);
          }
          var entry := fetched.entry;
          if !entry.event.CrossbeamSelect? {
            return SelectDesynced(EventMismatch(entry.event));
          }
          match entry.event.select {
            case RecvFailed(_) =>
            case Success(s, i) =>
              if i !in receivers {
                return SelectDesynced(MissingReceiver(i));
              }
              var p := receivers[i].PollEntry(s, patience);
              match p {
                case Found =>
                case NotFound => return SelectDesynced(TimedOutWaiting);
                case PollPanicked => return SelectPanicked;
              }
          }
          return Selected(ReplayOp(entry.event.select, entry.variant, entry.chan));
      }
    }

    /**
     `select`. After a desynchronisation a receiver with buffered messages is chosen if there is one; only
     when nothing is buffered anywhere is the real selector used.
     */
    method SelectOp(programDesynced: bool, desyncMode: DesyncMode, pick: nat, patience: nat) returns (r: SelectResult)
      requires Valid()
      modifies Repr(), recorder`next, recorder`eventNumber
      ensures Valid() && NothingLost()
      ensures !r.SelectDesynced?
      ensures programDesynced || mode != ReplayMode ==> Untouched()
      ensures programDesynced && desyncMode.KeepGoing? ==> r.Selected? && (r.op.DesyncBufferEntry? || r.op.DesyncOp?)
      ensures !programDesynced && mode != ReplayMode ==>
                r == Selected(if mode == RecordMode then RecordOp(pick) else NoRROp(pick))
      ensures r.SelectPanicked? <==>
                match desyncMode
                case KeepGoing => !programDesynced && mode == ReplayMode && old(PollHangsUp(patience))
                case PanicOnDesync => programDesynced || (mode == ReplayMode && !old(SelectReplays(patience)))
      ensures recorder.next == old(recorder.next) +
                if !programDesynced && mode == ReplayMode && old(recorder.next) < |recorder.log| then 1 else 0
      ensures r.Selected? && r.op.DesyncBufferEntry? ==>
                desyncMode.KeepGoing? && r.op.entry < |selector| && !Drained(selector[r.op.entry].buffer)
      ensures r.Selected? && r.op.DesyncOp? ==>
                && desyncMode.KeepGoing? && r.op.picked == pick
                && forall rc | rc in selector :: Drained(rc.buffer)
      ensures r.Selected? && (r.op.RecordOp? || r.op.NoRROp?) ==> !programDesynced && mode != ReplayMode && r.op.picked == pick
      ensures r.Selected? && r.op.ReplayOp? ==>
                && mode == ReplayMode && !programDesynced && old(recorder.next) < |recorder.log|
                && var entry := recorder.log[old(recorder.next)];
                   && entry == RecordEntry(CrossbeamSelect(r.op.event), r.op.variant, r.op.chan)
                   && (r.op.event.Success? ==>
                         && r.op.event.index < |selector|
                         && Buffered(selector[r.op.event.index].buffer, r.op.event.sender) != [])
      ensures !programDesynced && mode == ReplayMode && old(SelectReplays(patience)) ==> r.Selected? && r.op.ReplayOp?
    {
      r := RrSelect(programDesynced, pick, patience);
      if r.SelectDesynced? {
        if desyncMode.PanicOnDesync? {
          return SelectPanicked;
        }
        var entry := BufferedEntry();
        r := Selected(if entry.Some? then DesyncBufferEntry(entry.value) else DesyncOp(pick));
      }
    }

    /** Looks for a receiver with buffered messages. */
    method BufferedEntry() returns (entry: Maybe<nat>)
      requires Numbered()
      ensures entry.None? ==> forall rc | rc in selector :: Drained(rc.buffer)
      ensures entry.Some? ==> entry.value < |selector| && !Drained(selector[entry.value].buffer)
    {
      var left := receivers.Keys;
      while left != {}
        invariant left <= receivers.Keys
        invariant forall i | i in receivers && i !in left :: Drained(receivers[i].buffer)
        decreases |left|
      {
        var i :| i in left;
        var found := receivers[i].BufferedValue();
        if found {
          return Some(i);
        }
        left := left - {i};
      }
      return None;
    }
  }

  /** What the user gets of a message read from the real channel, or of its disconnection. */
  function Given<T>(m: Maybe<DetMessage<T>>): UserResult<T> {
    if m.None? then UserError(Disconnected) else UserValue(m.value.value)
  }

  /** Completes a replayed operation: the variant and the channel could not be checked before. */
  method ReplaySelected<T>(event: SelectEvent, variant: ChannelVariant, chan: DetChannelId, r: Receiver<T>,
      patience: nat)
    returns (u: UserResult<T>)
    requires r.Valid() && r.mode == ReplayMode
    modifies r`buffer, r`wire, r`delivered
    ensures r.Valid()
    ensures u.Panicked? <==>
              || Metadata(variant, chan) != r.metadata
              || (event.Success? && Buffered(old(r.buffer), event.sender) == [] && !InReach(event.sender, old(r.wire), patience))
    ensures u.UserValue? ==>
              && event.Success?
              && r.delivered == old(r.delivered) + [DetMessage(event.sender, u.value)]
              && DequeuesOnly(event.sender, old(r.buffer), old(r.wire), Received(Got(u.value), r.buffer, r.wire))
    ensures u.UserError? ==>
              && u.error == Disconnected && event.RecvFailed?
              && r.delivered == old(r.delivered) && r.buffer == old(r.buffer) && r.wire == old(r.wire)
  {
    if variant != r.metadata.variant || chan != r.metadata.id {
      return Panicked;
    }
    if event.RecvFailed? {
      return UserError(Disconnected);
    }
    ghost var buffer0, wire0 := r.buffer, r.wire;
    RecvExpectedRefines(event.sender, r.buffer, r.wire, patience, r.SeesHangUp());
    var got := r.RecvExpectedMessage(event.sender, patience);
    if got.Nothing? {
      SameAccount(r.sent, r.delivered, buffer0, wire0, r.buffer, r.wire);
      return Panicked;
    }
    r.Delivered(DetMessage(event.sender, got.value), buffer0, wire0);
    return UserValue(got.value);
  }

  /**
   `SelectedOperation::recv`: completes an operation on the receiver that the user passes. A mismatch here
   cannot be recovered from.
   */
  method SelectedRecv<T>(op: Operation, r: Receiver<T>, recorder: EventRecorder, patience: nat)
    returns (u: UserResult<T>)
    requires r.Valid() && recorder.Valid()
    requires if op.ReplayOp? then r.mode == ReplayMode else op.DesyncBufferEntry? || Drained(r.buffer)
    modifies r`buffer, r`wire, r`delivered, recorder`written, recorder`eventNumber
    ensures recorder.Valid()
    ensures u.Panicked? <==>
              match op
              case ReplayOp(event, variant, chan) =>
                || Metadata(variant, chan) != r.metadata
                || (event.Success? && Buffered(old(r.buffer), event.sender) == [] && !InReach(event.sender, old(r.wire), patience))
              case DesyncBufferEntry(_) => Drained(old(r.buffer))
              case RecordOp(_) => recorder.flushed
              case _ => false
    ensures !(op.RecordOp? && recorder.flushed) ==> r.Valid()
    // One message at most, off the head of its sender's pending queue.
    ensures u.UserValue? ==> exists s ::
              && r.delivered == old(r.delivered) + [DetMessage(s, u.value)]
              && DequeuesOnly(s, old(r.buffer), old(r.wire), Received(Got(u.value), r.buffer, r.wire))
              && (op.ReplayOp? ==> op.event == Success(s, op.event.index))
              && (op.RecordOp? ==>
                    recorder.written == old(recorder.written) +
                      [RecordEntry(CrossbeamSelect(Success(s, op.picked)), r.metadata.variant, r.metadata.id)])
    ensures u.UserError? ==>
              && u.error == Disconnected && r.delivered == old(r.delivered)
              && r.buffer == old(r.buffer) && r.wire == old(r.wire)
              && !op.DesyncBufferEntry? && (if op.ReplayOp? then op.event.RecvFailed? else old(r.wire) == [])
              && (op.RecordOp? ==>
                    recorder.written == old(recorder.written) +
                      [RecordEntry(CrossbeamSelect(RecvFailed(op.picked)), r.metadata.variant, r.metadata.id)])
    ensures !op.RecordOp? ==> recorder.written == old(recorder.written)
    ensures !u.Panicked? && !op.ReplayOp? && !op.DesyncBufferEntry? ==>
              u == if old(r.wire) == [] then UserError(Disconnected) else UserValue(old(r.wire)[0].value)
  {
    match op {
      case DesyncBufferEntry(_) =>
        var v := r.GetBufferedValue();
        return if v.None? then Panicked else UserValue(v.value);
      case ReplayOp(event, variant, chan) =>
        u := ReplaySelected(event, variant, chan, r, patience);
      case RecordOp(picked) =>
        var m := r.ReadAndDeliver();
        var event := if m.Some? then Success(m.value.sender, picked) else RecvFailed(picked);
        var c := recorder.WriteEventToRecord(CrossbeamSelect(event), r.metadata);
        return if c.Bad? then Panicked else Given(m);
      case NoRROp(_) =>
        var m := r.ReadAndDeliver();
        return Given(m);
      case DesyncOp(_) =>
        var m := r.ReadAndDeliver();
        return Given(m);
    }
  }

  lemma ArrivalsAfterPoll<T>(b1: Buffer<T>, w1: Wire<T>, b2: Buffer<T>, w2: Wire<T>, arrivals: Wire<T>)
    requires SamePending(b2, w2, b1, w1)
    ensures SamePending(b2, w2 + arrivals, b1, w1 + arrivals)
  {
    forall s
      ensures Pending(b2, w2 + arrivals, s) == Pending(b1, w1 + arrivals, s)
    {
      Arrivals(b1, w1, arrivals, s);
      Arrivals(b2, w2, arrivals, s);
      assert Pending(b2, w2, s) == Pending(b1, w1, s);
    }
  }

  /**
   The two phases together are one dequeue, whatever arrives on the channel between them: if the log names
   sender `s` and the receiver with its own metadata, and the message is buffered or within reach, then the
   user gets the head of the pending queue of `s`, and nothing else about any receiver changes.
   */
  method SelectThenRecv<T>(select: Selector<T>, desyncMode: DesyncMode, patience: nat, later: nat, arrivals: Wire<T>)
    returns (index: nat, u: UserResult<T>)
    requires select.Valid() && select.mode == ReplayMode && select.recorder.next < |select.recorder.log|
    requires var entry := select.recorder.log[select.recorder.next];
             && entry.event.CrossbeamSelect? && entry.event.select.Success? && entry.event.select.index < |select.selector|
             && var r := select.selector[entry.event.select.index];
                && Metadata(entry.variant, entry.chan) == r.metadata
                && (Buffered(r.buffer, entry.event.select.sender) != [] || InReach(entry.event.select.sender, r.wire, patience))
    modifies select.Repr(), select.recorder
    ensures var event := select.recorder.log[old(select.recorder.next)].event.select;
            var r := select.selector[event.index];
            && select.recorder.next == old(select.recorder.next) + 1
            && index == event.index
            && u.UserValue?
            && DequeuesOnly(event.sender, old(r.buffer), old(r.wire) + arrivals, Received(Got(u.value), r.buffer, r.wire))
            && r.delivered == old(r.delivered) + [DetMessage(event.sender, u.value)]
    ensures select.Valid()
  {
    ghost var event := select.recorder.log[select.recorder.next].event.select;
    var selected := select.SelectOp(false, desyncMode, 0, patience);
    var op := selected.op;
    index := op.Index();
    var r: Receiver<T> := select.receivers[index];
    ghost var polled := (r.buffer, r.wire);
    r.ArriveAll(arrivals);
    ghost var before := (r.buffer, r.wire);
    u := SelectedRecv(op, r, select.recorder, later);
    ArrivalsAfterPoll(old(r.buffer), old(r.wire), polled.0, polled.1, arrivals);
    SameDequeue(event.sender, old(r.buffer), old(r.wire) + arrivals, before.0, before.1, Received(Got(u.value), r.buffer, r.wire));
  }

  /**
   After a desynchronisation the two phases still are at most one dequeue and do not panic: a chosen buffered
   message is there to be taken, and the real channel of a receiver is read only when no receiver has
   anything buffered, so that no message overtakes an older one of its sender, whatever arrives between the phases.
   */
  method DesyncedSelectThenRecv<T>(select: Selector<T>, pick: nat, patience: nat, arrivals: Wire<T>)
    returns (index: nat, u: UserResult<T>)
    requires select.Valid() && pick < |select.selector|
    modifies select.Repr(), select.recorder
    ensures select.Valid() && index < |select.selector|
    ensures (exists rc | rc in select.selector :: !Drained(old(rc.buffer))) ==>
              u.UserValue? && !Drained(old(select.selector[index].buffer))
    ensures (forall rc | rc in select.selector :: Drained(old(rc.buffer))) ==>
              && index == pick
              && var wire := old(select.selector[pick].wire) + arrivals;
                 u == if wire == [] then UserError(Disconnected) else UserValue(wire[0].value)
    ensures u.UserValue? ==> exists s ::
              var r := select.selector[index];
              && r.delivered == old(r.delivered) + [DetMessage(s, u.value)]
              && DequeuesOnly(s, old(r.buffer), old(r.wire) + arrivals, Received(Got(u.value), r.buffer, r.wire))
  {
    var selected := select.SelectOp(true, KeepGoing, pick, patience);
    index := selected.op.Index();
    var r: Receiver<T> := select.receivers[index];
    r.ArriveAll(arrivals);
    u := SelectedRecv(selected.op, r, select.recorder, patience);
  }

  /** A message from this sender is buffered or within reach. */
  ghost predicate CanWaitFor<T>(r: Receiver<T>, s: Path, patience: nat)
    reads r
  {
    Buffered(r.buffer, s) != [] || InReach(s, r.wire, patience)
  }

  /** Both phases of a replaying select, for a log entry that is one of receiver `i`. */
  method ReplayNext<T>(i: nat, event: SelectEvent, select: Selector<T>, desyncMode: DesyncMode, patience: nat,
      later: nat)
    returns (u: UserResult<T>)
    requires select.Valid() && select.mode == ReplayMode && select.recorder.next < |select.recorder.log|
    requires i < |select.selector| && event.index == i
    requires var metadata := select.selector[i].metadata;
             select.recorder.log[select.recorder.next] == RecordEntry(CrossbeamSelect(event), metadata.variant, metadata.id)
    modifies select.Repr(), select.recorder
    ensures event.Success? && old(CanWaitFor(select.selector[i], event.sender, patience)) ==>
              var rc := select.selector[i];
              && u.UserValue?
              && rc.delivered == old(rc.delivered) + [DetMessage(event.sender, u.value)]
              && DequeuesOnly(event.sender, old(rc.buffer), old(rc.wire), Received(Got(u.value), rc.buffer, rc.wire))
    ensures event.RecvFailed? ==> u == UserError(Disconnected)
  {
    u := Panicked;
    var selected := select.SelectOp(false, desyncMode, 0, patience);
    if selected.Selected? && selected.op.ReplayOp? {
      var rc: Receiver<T> := select.receivers[i];
      ghost var polled := (rc.buffer, rc.wire);
      u := SelectedRecv(selected.op, rc, select.recorder, later);
      if u.UserValue? {
        SameDequeue(event.sender, old(rc.buffer), old(rc.wire), polled.0, polled.1, Received(Got(u.value), rc.buffer, rc.wire));
      }
    }
  }

  /**
   The round trip of a select: what the second phase of a recording select on receiver `i` writes is what both phases
   of the replaying select need. If it is the next entry of that log, the replaying receiver `i` has the metadata of the
   recording one, and, if there was a message, one of its sender can be waited for, then the two phases give a message
   of that sender, the next one, or the disconnection that was recorded. They do not panic.
   */
  method RecordedSelectReplays<T>(i: nat, r: Receiver<T>, recorder: EventRecorder, select: Selector<T>,
      desyncMode: DesyncMode, patience: nat, later: nat)
    returns (recorded: UserResult<T>, replayed: UserResult<T>)
    requires r.Valid() && r.mode == RecordMode && recorder.Valid() && !recorder.flushed
    requires select.Valid() && select.mode == ReplayMode && select.recorder.next < |select.recorder.log|
    requires i < |select.selector| && select.selector[i].metadata == r.metadata
    requires r !in select.Repr() && recorder != select.recorder
    modifies r`buffer, r`wire, r`delivered, recorder`written, recorder`eventNumber, select.Repr(), select.recorder
    ensures !recorded.Panicked? && |recorder.written| == |old(recorder.written)| + 1
    ensures var entry, replaying := recorder.written[|old(recorder.written)|], select.selector[i];
            select.recorder.log[old(select.recorder.next)] == entry ==>
              match recorded
              case UserValue(v) => exists s ::
                && r.delivered == old(r.delivered) + [DetMessage(s, v)]
                && (old(CanWaitFor(replaying, s, patience)) ==>
                      && replayed.UserValue?
                      && replaying.delivered == old(replaying.delivered) + [DetMessage(s, replayed.value)]
                      && DequeuesOnly(s, old(replaying.buffer), old(replaying.wire),
                                      Received(Got(replayed.value), replaying.buffer, replaying.wire)))
              case UserError(_) => replayed == UserError(Disconnected)
              case Panicked => false
  {
    recorded := SelectedRecv(RecordOp(i), r, recorder, 0);
    replayed := Panicked;
    var entry := recorder.written[|recorder.written| - 1];
    if select.recorder.log[select.recorder.next] == entry {
      replayed := ReplayNext(i, entry.event.select, select, desyncMode, patience, later);
    }
  }
}
