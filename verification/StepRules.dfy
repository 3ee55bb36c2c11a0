/**
 When a step is possible, and what comes of it for threads and receivers.

 The machines compute with log checks, picks and moves of receivers; here the same is said in plain terms, for all
 operations: which entries an operation accepts and how it reports the others, which messages and receivers it waits
 for, which threads exist after a run, and where every receiver is.
 */
module StepRules {
  import opened Confluence
  import opened Identities
  import IpcReceiverSets
  import opened Protocol
  import opened Recording
  import opened RecordLog
  import opened Refinement
  import opened ReplayEngine
  import opened Replaying
  import opened ReplayOrder
  import opened Values

  // ---- Entries ----

  /** The entry tells of this operation. */
  ghost predicate Describes(op: Op, t: Path, th: Thread, e: RecordEntry) {
    match op
    case Send(to, _, _) =>
      e == RecordEntry(if to.variant == Ipc then IpcSender else CrossbeamSender, to.variant, to.id)
    case Recv(from, kind) =>
      && !(from.variant == Ipc && kind == Timed)
      && IsOfRecv(from.variant, kind, e.event) && e.variant == from.variant && e.chan == from.id
    case SelectAdd(i, r) => e == RecordEntry(CrossbeamSelectAdd(i), r.variant, r.id)
    case IpcAdd(i, r) => e == RecordEntry(IpcSelectAdd(i), r.variant, r.id)
    case NewChannel(v) => e == RecordEntry(ChannelCreation, v, DetChannelId(t, th.channels + 1))
    case Spawn(_, _) => e == RecordEntry(ThreadInitialized(t + [th.children + 1]), NoVariant, DetChannelId([], 0))
    case SelectOp(rs) =>
      e.event.CrossbeamSelect? && (e.event.select.RecvFailed? || e.event.select.index < |rs|)
    case Complete(which, from) =>
      && which < |th.open| && e == th.open[which]
      && e.event.CrossbeamSelect? && e.variant == from.variant && e.chan == from.id
    case IpcSelectOp(rs) =>
      e.event.IpcSelectBatch? && forall k | 0 <= k < |e.event.events| :: e.event.events[k].index < |rs|
    case Exit => false
  }

  /** The batch check names the first event whose receiver was not added. */
  lemma {:induction false} MissingExactly(events: seq<IpcSelectEvent>, added: nat)
    ensures FirstMissing(events, added).Fine? <==> forall k | 0 <= k < |events| :: events[k].index < added
    ensures FirstMissing(events, added).Bad? ==>
              exists k | 0 <= k < |events| ::
                && FirstMissing(events, added) == Bad(MissingReceiver(events[k].index)) && events[k].index >= added
                && forall j | 0 <= j < k :: events[j].index < added
  {
    if events != [] && events[0].index < added {
      var rest := events[1..];
      MissingExactly(rest, added);
      if FirstMissing(rest, added).Bad? {
        var k :| 0 <= k < |rest| && FirstMissing(rest, added) == Bad(MissingReceiver(rest[k].index))
                 && rest[k].index >= added && forall j | 0 <= j < k :: rest[j].index < added;
        assert events[k + 1] == rest[k];
        assert forall j | 0 < j < k + 1 :: events[j] == rest[j - 1];
      } else {
        assert forall j | 0 < j < |events| :: events[j] == rest[j - 1];
      }
    } else if events != [] {
      assert events[0].index >= added;
    }
  }

  /** The replay check accepts the entries that tell of the operation, and no others. */
  lemma CheckedExactly(op: Op, t: Path, th: Thread, e: RecordEntry)
    requires Loggable(e.event)
    ensures Check(op, t, th, e).Fine? <==> Describes(op, t, th, e)
  {
    if op.IpcSelectOp? && e.event.IpcSelectBatch? {
      MissingExactly(e.event.events, |op.receivers|);
    }
    if op.Recv? && !(op.from.variant == Ipc && op.kind == Timed) {
      AcceptsExactly(op.from.variant, op.kind, e.event);
    }
  }

  /**
   The error names what is wrong: an event that no entry of the operation has, or, the event being right, the variant,
   or, both being right, the channel; and it gives the logged value and the one that would do.
   */
  lemma ErrorNamesTheCause(op: Op, t: Path, th: Thread, e: RecordEntry)
    requires Loggable(e.event) && Check(op, t, th, e).Bad? && !op.Complete?
    ensures match Check(op, t, th, e).error
            case EventMismatch(x) => x == e.event && forall v, c :: !Describes(op, t, th, RecordEntry(x, v, c))
            case ChannelVariantMismatch(logged, actual) =>
              logged == e.variant && actual != logged && exists c :: Describes(op, t, th, RecordEntry(e.event, actual, c))
            case ChannelMismatch(logged, actual) =>
              logged == e.chan && actual != logged && Describes(op, t, th, RecordEntry(e.event, e.variant, actual))
            case MissingReceiver(i) => (op.SelectOp? || op.IpcSelectOp?) && i >= |op.receivers|
            case _ => false
  {
    forall v, c
      ensures Check(op, t, th, RecordEntry(e.event, v, c)).Fine? <==> Describes(op, t, th, RecordEntry(e.event, v, c))
    {
      CheckedExactly(op, t, th, RecordEntry(e.event, v, c));
    }
    if op.IpcSelectOp? && e.event.IpcSelectBatch? {
      MissingExactly(e.event.events, |op.receivers|);
    }
    var right := Wanted(op, t, th);
    if Check(op, t, th, e).error.ChannelVariantMismatch? {
      assert Describes(op, t, th, RecordEntry(e.event, right.variant, right.id));
    }
  }

  /** The variant and the channel of the operation's entries. */
  function Wanted(op: Op, t: Path, th: Thread): Metadata {
    match op
    case Send(to, _, _) => to
    case Recv(from, _) => from
    case SelectAdd(_, r) => r
    case IpcAdd(_, r) => r
    case NewChannel(v) => Metadata(v, ChannelOf(t, th))
    case _ => NO_CHANNEL
  }

  // ---- Messages and receivers that a step needs ----

  /** The messages that an operation waits for: those its entry tells of, and that of the select it begins. */
  function Awaited(op: Op, e: RecordEntry): seq<QueueId> {
    match op
    case SelectOp(rs) =>
      (match e.event
       case CrossbeamSelect(Success(s, i)) => if i < |rs| then [QueueId(rs[i].id, s)] else []
       case _ => [])
    case _ => Sources(op, e)
  }

  function CountOf(qs: seq<QueueId>, q: QueueId): nat {
    if qs == [] then 0 else (if qs[0] == q then 1 else 0) + CountOf(qs[1..], q)
  }

  /** The thread holds every receiver that the operation names, and a new thread has room for its id. */
  ghost predicate MayUse(home: Home, t: Path, op: Op) {
    match op
    case Send(_, _, moved) => forall c | c in moved :: c in home && home[c] == Held(t)
    case Spawn(_, childGets) => |t| < 10 && forall c | c in childGets :: c in home && home[c] == Held(t)
    case Recv(from, _) => from.id in home && home[from.id] == Held(t)
    case SelectAdd(_, r) => r.id in home && home[r.id] == Held(t)
    case IpcAdd(_, r) => r.id in home && home[r.id] == Held(t)
    case SelectOp(rs) => forall k | 0 <= k < |rs| :: rs[k].id in home && home[rs[k].id] == Held(t)
    case Complete(_, from) => from.id in home && home[from.id] == Held(t)
    case IpcSelectOp(rs) => forall k | 0 <= k < |rs| :: rs[k].id in home && home[rs[k].id] == Held(t)
    case NewChannel(_) => true
    case Exit => true
  }

  lemma MayUseExactly(home: Home, t: Path, op: Op)
    ensures MayAttempt(home, t, op) <==> MayUse(home, t, op)
  {
    forall c | c in Uses(op)
      ensures IsHeld(home, t, c) <==> c in home && home[c] == Held(t)
    {
    }
    match op {
      case Send(_, _, moved) => assert Uses(op) == moved;
      case Spawn(_, childGets) => assert Uses(op) == childGets;
      case SelectOp(rs) => assert forall k | 0 <= k < |rs| :: rs[k].id in Uses(op);
      case IpcSelectOp(rs) => assert forall k | 0 <= k < |rs| :: rs[k].id in Uses(op);
      case Recv(from, _) => assert from.id in Uses(op);
      case Complete(_, from) => assert from.id in Uses(op);
      case SelectAdd(_, r) => assert r.id in Uses(op);
      case IpcAdd(_, r) => assert r.id in Uses(op);
      case _ =>
    }
  }

  /** There are messages for a sequence of picks exactly if each queue has as many as are picked from it. */
  lemma {:induction false} AvailableExactly(queues: Queues, picks: seq<QueueId>)
    ensures Available(queues, picks) <==> forall q :: CountOf(picks, q) <= |Queue(queues, q)|
  {
    if picks != [] {
      var p := picks[0];
      if Queue(queues, p) != [] {
        var rest := Pop(queues, p);
        AvailableExactly(rest, picks[1..]);
        forall q
          ensures CountOf(picks, q) <= |Queue(queues, q)| <==> CountOf(picks[1..], q) <= |Queue(rest, q)|
        {
          assert |Queue(rest, q)| == |Queue(queues, q)| - (if q == p then 1 else 0);
        }
      } else {
        assert CountOf(picks, p) > |Queue(queues, p)|;
      }
    }
  }

  /**
   A thread can do what its log says exactly if the entry tells of its next operation, it holds the receivers that the
   operation names, and in every queue there are as many messages as the operation waits for.
   */
  lemma StepsExactlyWhen(P: Program, S: State, t: Path, e: RecordEntry)
    requires Loggable(e.event) && t in S.threads
    ensures var th := S.threads[t];
            var op := OpOf(P, t, th);
            Ready(P, S, t, e) <==>
            (&& Describes(op, t, th, e) && MayUse(S.home, t, op)
             && forall q :: CountOf(Awaited(op, e), q) <= |Queue(S.queues, q)|)
  {
    var th := S.threads[t];
    var op := OpOf(P, t, th);
    CheckedExactly(op, t, th, e);
    MayUseExactly(S.home, t, op);
    if Check(op, t, th, e).Fine? {
      SourcesArePicks(op, t, th, e);
      AvailableExactly(S.queues, Awaited(op, e));
      assert Awaited(op, e) == if op.SelectOp? then Polls(op, t, th, e) else Picks(op, t, th, e);
    }
  }

  // ---- What a recorded receive logs ----

  lemma OneInOrder(wires: Wires, q: QueueId)
    ensures InOrder(wires, [], [q]) <==> WireOf(wires, q.chan) != [] && WireOf(wires, q.chan)[0].sender == q.sender
    ensures InOrder(wires, [], [])
  {
    assert [q][1..] == [];
    assert ReservedOn([], q.chan) == 0;
  }

  /** A recording receive logs a message exactly of the thread that sent the one at the front of the channel. */
  lemma RecordsWhoSent(P: Program, R: Recorder, t: Path, s: Path)
    requires t in R.threads && OpOf(P, t, R.threads[t]).Recv? && R.threads[t].open == []
    requires var op := OpOf(P, t, R.threads[t]); MayUse(R.home, t, op) && !(op.from.variant == Ipc && op.kind == Timed)
    ensures var op := OpOf(P, t, R.threads[t]);
            var e := RecordEntry(SuccEvent(op.from.variant, op.kind, s), op.from.variant, op.from.id);
            var wire := WireOf(R.wires, op.from.id);
            CanRecord(P, R, t, e) <==> wire != [] && wire[0].sender == s
  {
    var op := OpOf(P, t, R.threads[t]);
    MayUseExactly(R.home, t, op);
    ReceiveEventsRoundTrip(op.from.variant, op.kind, s, Disconnected);
    var e := RecordEntry(SuccEvent(op.from.variant, op.kind, s), op.from.variant, op.from.id);
    assert CanWrite(op, t, R.threads[t], e) && Check(op, t, R.threads[t], e).Fine?;
    assert Picks(op, t, R.threads[t], e) == [QueueId(op.from.id, s)] && Polls(op, t, R.threads[t], e) == [];
    assert Ahead(op, R.threads[t]) == [];
    OneInOrder(R.wires, QueueId(op.from.id, s));
  }

  /** A recording select chooses a receiver exactly if a message is there, of the sender that it will log. */
  lemma RecordsWhatIsReady(P: Program, R: Recorder, t: Path, s: Path, i: nat)
    requires t in R.threads && OpOf(P, t, R.threads[t]).SelectOp? && R.threads[t].open == []
    requires var op := OpOf(P, t, R.threads[t]); MayUse(R.home, t, op) && i < |op.receivers|
    ensures var r := OpOf(P, t, R.threads[t]).receivers[i];
            var wire := WireOf(R.wires, r.id);
            CanRecord(P, R, t, RecordEntry(CrossbeamSelect(Success(s, i)), r.variant, r.id)) <==>
            wire != [] && wire[0].sender == s
  {
    var op := OpOf(P, t, R.threads[t]);
    MayUseExactly(R.home, t, op);
    var r := op.receivers[i];
    var e := RecordEntry(CrossbeamSelect(Success(s, i)), r.variant, r.id);
    assert CanWrite(op, t, R.threads[t], e) && Check(op, t, R.threads[t], e).Fine?;
    assert Polls(op, t, R.threads[t], e) == [QueueId(r.id, s)] && Picks(op, t, R.threads[t], e) == [];
    assert Ahead(op, R.threads[t]) == [];
    OneInOrder(R.wires, QueueId(r.id, s));
  }

  /** The creation of a dummy, which a desynchronised set looks for in the log, is that of any ipc channel. */
  lemma DummiesAreChannels(t: Path, th: Thread, e: RecordEntry)
    ensures Describes(NewChannel(Ipc), t, th, e) <==> e == IpcReceiverSets.CreationEntry(t, th.channels + 1)
  {
  }
}
