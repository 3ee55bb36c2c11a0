/**
 What threads receive is what threads have sent.

 A run of either machine is told as a sequence of deeds: who did which operation, and what it learnt. The statements
 here speak of deeds only, and of the log entries that go with them: every receive, completed select and batch yields
 one payload for each message that its entry tells of, and the payloads from one sender on one channel are the payloads
 of its sends to that channel, in order, up to what has not been received yet.
 */
module Values {
  import opened Confluence
  import opened Following
  import opened Identities
  import opened Promises
  import opened Protocol
  import opened Recording
  import opened RecordLog
  import opened Refinement
  import opened ReplayEngine
  import opened Replaying
  import opened ReplayOrder

  datatype Deed = Deed(thread: Path, op: Op, outcome: Outcome)

  /** The channel and the sender of each message that a log entry tells of, in order. */
  function Sources(op: Op, e: RecordEntry): seq<QueueId> {
    match op
    case Recv(from, _) =>
      (match e.event
       case CrossbeamRecvSucc(s) => [QueueId(from.id, s)]
       case CrossbeamTryRecvSucc(s) => [QueueId(from.id, s)]
       case CrossbeamRecvTimeoutSucc(s) => [QueueId(from.id, s)]
       case IpcRecvSucc(s) => [QueueId(from.id, s)]
       case _ => [])
    case Complete(_, from) =>
      (match e.event
       case CrossbeamSelect(Success(s, _)) => [QueueId(from.id, s)]
       case _ => [])
    case IpcSelectOp(rs) => if e.event.IpcSelectBatch? then BatchSources(rs, e.event.events) else []
    case _ => []
  }

  function BatchSources(rs: seq<Metadata>, events: seq<IpcSelectEvent>): seq<QueueId> {
    if events == [] then []
    else
      (match events[0]
       case MessageReceived(i, s) => if i < |rs| then [QueueId(rs[i].id, s)] else []
       case ChannelClosed(_) => [])
      + BatchSources(rs, events[1..])
  }

  /** The thread learns what the entry says, and one payload for each message that it tells of. */
  predicate Learns(d: Deed, e: RecordEntry) {
    if d.op.SelectOp? then e.event.CrossbeamSelect? && d.outcome == Chosen(e.event.select.index)
    else d.outcome.Outcome? && d.outcome.entry == e && |d.outcome.payloads| == |Sources(d.op, e)|
  }

  /** The payloads that come from one queue. */
  function PayloadsFrom(sources: seq<QueueId>, payloads: seq<Payload>, q: QueueId): seq<Payload>
    requires |sources| == |payloads|
  {
    if sources == [] then []
    else (if sources[0] == q then [payloads[0]] else []) + PayloadsFrom(sources[1..], payloads[1..], q)
  }

  function ReceivedBy(d: Deed, q: QueueId): seq<Payload> {
    if d.outcome.Outcome? && |d.outcome.payloads| == |Sources(d.op, d.outcome.entry)|
    then PayloadsFrom(Sources(d.op, d.outcome.entry), d.outcome.payloads, q)
    else []
  }

  function SentBy(d: Deed, q: QueueId): seq<Payload> {
    if d.op.Send? && d.thread == q.sender && d.op.to.id == q.chan then [d.op.payload] else []
  }

  function AllReceived(deeds: seq<Deed>, q: QueueId): seq<Payload> {
    if deeds == [] then [] else ReceivedBy(deeds[0], q) + AllReceived(deeds[1..], q)
  }

  function AllSent(deeds: seq<Deed>, q: QueueId): seq<Payload> {
    if deeds == [] then [] else SentBy(deeds[0], q) + AllSent(deeds[1..], q)
  }

  // ---- The deeds of a run ----

  /** What `t` has done between the two states, if it has done anything. */
  function DeedOf(P: Program, before: map<Path, Thread>, after: map<Path, Thread>, t: Path): seq<Deed> {
    if t in before && t in after && |after[t].history| > |before[t].history|
    then [Deed(t, OpOf(P, t, before[t]), after[t].history[|before[t].history|])]
    else []
  }

  ghost function RecordDeeds(P: Program, R: Recorder, trace: seq<Logged>): seq<Deed>
    requires Runs(Recordings(P), R, trace)
    decreases |trace|
  {
    if trace == [] then []
    else
      var R' := Recordings(P)(R, trace[0]).value;
      DeedOf(P, R.threads, R'.threads, trace[0].thread) + RecordDeeds(P, R', trace[1..])
  }

  ghost function ReplayDeeds(P: Program, logs: Logs, C: Replayer, turns: seq<Turn>): seq<Deed>
    requires Runs(Replays(P, logs), C, turns)
    decreases |turns|
  {
    if turns == [] then []
    else
      var C' := Replays(P, logs)(C, turns[0]).value;
      DeedOf(P, C.threads, C'.threads, turns[0].thread) + ReplayDeeds(P, logs, C', turns[1..])
  }

  // ---- One step ----

  lemma {:induction false} BatchSourcesArePicks(rs: seq<Metadata>, events: seq<IpcSelectEvent>)
    requires FirstMissing(events, |rs|).Fine?
    ensures BatchSources(rs, events) == BatchPicks(rs, events)
  {
    if events != [] {
      BatchSourcesArePicks(rs, events[1..]);
    }
  }

  lemma SourcesArePicks(op: Op, t: Path, th: Thread, e: RecordEntry)
    requires Check(op, t, th, e).Fine?
    ensures Sources(op, e) == Picks(op, t, th, e)
  {
    if op.IpcSelectOp? {
      BatchSourcesArePicks(op.receivers, e.event.events);
    }
  }

  /** The deed of a step. */
  lemma StepIsDeed(P: Program, threads: map<Path, Thread>, t: Path, e: RecordEntry, ms: seq<Message>) returns (d: Deed)
    requires t in threads && ChildId(t, threads[t]) !in threads
    requires Check(OpOf(P, t, threads[t]), t, threads[t], e).Fine?
    requires |ms| == |Picks(OpOf(P, t, threads[t]), t, threads[t], e)|
    ensures var op := OpOf(P, t, threads[t]);
            var threads' := ThreadsAfter(threads, t, op, e, ms);
            && DeedOf(P, threads, threads', t) == [d] && d.thread == t && d.op == op && Learns(d, e)
            && (!op.SelectOp? ==> d.outcome.payloads == Payloads(ms))
  {
    var th := threads[t];
    var op := OpOf(P, t, th);
    var threads' := ThreadsAfter(threads, t, op, e, ms);
    assert threads'[t] == Advanced(op, th, e, ms);
    d := Deed(t, op, threads'[t].history[|th.history|]);
    SourcesArePicks(op, t, th, e);
  }

  /** What is in a queue, as payloads. */
  function Contents(queues: Queues, q: QueueId): seq<Payload> {
    Payloads(Queue(queues, q))
  }

  lemma PayloadsAppend(a: seq<Message>, b: seq<Message>)
    ensures Payloads(a + b) == Payloads(a) + Payloads(b)
  {
  }

  lemma FirstTaken(queues: Queues, p: QueueId, q: QueueId)
    requires Queue(queues, p) != []
    ensures (if p == q then [queues[p][0].payload] else []) + Contents(Pop(queues, p), q) == Contents(queues, q)
  {
    if p == q {
      assert queues[p] == [queues[p][0]] + queues[p][1..];
      PayloadsAppend([queues[p][0]], queues[p][1..]);
      assert Payloads([queues[p][0]]) == [queues[p][0].payload];
    } else {
      NothingAdded(Contents(queues, q));
    }
  }

  /** What the picks take from a queue and what they leave there is what was there. */
  lemma {:induction false} TakenPayloads(queues: Queues, picks: seq<QueueId>, q: QueueId)
    requires Available(queues, picks)
    ensures PayloadsFrom(picks, Payloads(Taken(queues, picks)), q) + Contents(Remaining(queues, picks), q)
         == Contents(queues, q)
  {
    if picks == [] {
      NothingAdded(Contents(queues, q));
    } else {
      var rest := Pop(queues, picks[0]);
      FirstTaken(queues, picks[0], q);
      TakenPayloads(rest, picks[1..], q);
      assert Taken(queues, picks) == [queues[picks[0]][0]] + Taken(rest, picks[1..]);
      assert Payloads(Taken(queues, picks))[1..] == Payloads(Taken(rest, picks[1..]));
      Regroup(if picks[0] == q then [queues[picks[0]][0].payload] else [],
              PayloadsFrom(picks[1..], Payloads(Taken(rest, picks[1..])), q), Contents(Remaining(rest, picks[1..]), q));
    }
  }

  lemma SendAdds(queues: Queues, t: Path, op: Op, stamp: nat, q: QueueId, o: Outcome)
    requires op.Send?
    ensures Contents(Push(queues, QueueId(op.to.id, t), Message(op.payload, stamp)), q)
         == Contents(queues, q) + SentBy(Deed(t, op, o), q)
  {
    NothingAdded(Contents(queues, q));
    PayloadsAppend(Queue(queues, q), [Message(op.payload, stamp)]);
    assert Payloads([Message(op.payload, stamp)]) == [op.payload];
  }

  /** What the deed of a step receives, in terms of what the step takes. */
  lemma DeedReceives(t: Path, th: Thread, op: Op, e: RecordEntry, ms: seq<Message>, d: Deed, q: QueueId)
    requires Check(op, t, th, e).Fine? && |ms| == |Picks(op, t, th, e)|
    requires d.thread == t && d.op == op && Learns(d, e) && (!op.SelectOp? ==> d.outcome.payloads == Payloads(ms))
    ensures ReceivedBy(d, q) == PayloadsFrom(Picks(op, t, th, e), Payloads(ms), q)
    ensures op.Send? || op.SelectOp? ==> ReceivedBy(d, q) == []
    ensures !op.Send? ==> SentBy(d, q) == []
  {
    SourcesArePicks(op, t, th, e);
  }

  /** A step moves payloads: what was sent joins the queue, what was received has left it. */
  lemma StepMovesPayloads(P: Program, S: State, t: Path, e: RecordEntry, q: QueueId) returns (d: Deed)
    requires Inv(S) && Ready(P, S, t, e)
    ensures DeedOf(P, S.threads, Apply(P, S, t, e).threads, t) == [d] && Learns(d, e)
    ensures Contents(S.queues, q) + SentBy(d, q) == ReceivedBy(d, q) + Contents(Apply(P, S, t, e).queues, q)
  {
    var th := S.threads[t];
    var op := OpOf(P, t, th);
    var picks := Picks(op, t, th, e);
    var ms := Taken(S.queues, picks);
    ChildIsNew(S, t);
    d := StepIsDeed(P, S.threads, t, e, ms);
    DeedReceives(t, th, op, e, ms, d, q);
    NothingAdded(Contents(S.queues, q));
    if op.Send? {
      SendAdds(S.queues, t, op, |th.history|, q, d.outcome);
      NothingAdded(Contents(Apply(P, S, t, e).queues, q));
    } else {
      TakenPayloads(S.queues, picks, q);
    }
  }

  // ---- Record runs ----

  /** What the thread reads is at the front of its channels: no select that was made before is still open. */
  predicate AtTheFront(op: Op, th: Thread) {
    match op
    case Recv(_, _) => th.open == []
    case IpcSelectOp(_) => th.open == []
    case Complete(which, _) => which == 0
    case _ => true
  }

  /** Selects are completed oldest first, and nothing else is received while one is open. */
  ghost predicate InTurn(P: Program, R: Recorder, trace: seq<Logged>)
    requires Runs(Recordings(P), R, trace)
    decreases |trace|
  {
    trace == [] ||
    (&& AtTheFront(OpOf(P, trace[0].thread, R.threads[trace[0].thread]), R.threads[trace[0].thread])
     && InTurn(P, Recordings(P)(R, trace[0]).value, trace[1..]))
  }

  /** What is on a channel from a sender, as payloads. */
  function OnWire(wires: Wires, q: QueueId): seq<Payload> {
    Payloads(From(WireOf(wires, q.chan), q.sender))
  }

  lemma FirstRead(wires: Wires, p: QueueId, q: QueueId)
    requires WireOf(wires, p.chan) != [] && wires[p.chan][0].sender == p.sender
    ensures (if p == q then [wires[p.chan][0].value.payload] else []) + OnWire(Dequeue(wires, p.chan, 0), q) == OnWire(wires, q)
  {
    NothingAdded(OnWire(wires, q));
    var wire := wires[p.chan];
    assert Without(wire, 0) == wire[1..];
    if p.chan == q.chan {
      assert From(wire, q.sender) == (if wire[0].sender == q.sender then [wire[0].value] else []) + From(wire[1..], q.sender);
      NothingAdded(From(wire[1..], q.sender));
      if p == q {
        PayloadsAppend([wire[0].value], From(wire[1..], q.sender));
        assert Payloads([wire[0].value]) == [wire[0].value.payload];
      }
    }
  }

  lemma {:induction false} ReadPayloads(wires: Wires, picks: seq<QueueId>, q: QueueId)
    requires InOrder(wires, [], picks)
    ensures PayloadsFrom(picks, Payloads(Read(wires, [], picks)), q) + OnWire(Unread(wires, [], picks), q) == OnWire(wires, q)
  {
    if picks == [] {
      NothingAdded(OnWire(wires, q));
    } else {
      var rest := Dequeue(wires, picks[0].chan, 0);
      FirstRead(wires, picks[0], q);
      ReadPayloads(rest, picks[1..], q);
      assert Read(wires, [], picks) == [wires[picks[0].chan][0].value] + Read(rest, [], picks[1..]);
      assert Payloads(Read(wires, [], picks))[1..] == Payloads(Read(rest, [], picks[1..]));
      Regroup(if picks[0] == q then [wires[picks[0].chan][0].value.payload] else [],
              PayloadsFrom(picks[1..], Payloads(Read(rest, [], picks[1..])), q), OnWire(Unread(rest, [], picks[1..]), q));
    }
  }

  lemma SendGoesOut(wires: Wires, t: Path, op: Op, stamp: nat, q: QueueId, o: Outcome)
    requires op.Send?
    ensures OnWire(wires[op.to.id := WireOf(wires, op.to.id) + [DetMessage(t, Message(op.payload, stamp))]], q)
         == OnWire(wires, q) + SentBy(Deed(t, op, o), q)
  {
    var m := DetMessage(t, Message(op.payload, stamp));
    NothingAdded(OnWire(wires, q));
    NothingAdded(From(WireOf(wires, q.chan), q.sender));
    if q.chan == op.to.id {
      FromAppend(WireOf(wires, q.chan), [m], q.sender);
      FromOne(m, q.sender);
      if q.sender == t {
        PayloadsAppend(From(WireOf(wires, q.chan), q.sender), [m.value]);
        assert Payloads([m.value]) == [op.payload];
      }
    }
  }

  /** A recording step. */
  lemma RecordIsDeed(P: Program, R: Recorder, l: Logged) returns (R': Recorder, d: Deed)
    requires RecordInv(R) && Recordings(P)(R, l).Some?
    ensures R' == Recordings(P)(R, l).value && RecordInv(R')
    ensures DeedOf(P, R.threads, R'.threads, l.thread) == [d] && d.thread == l.thread && Learns(d, l.entry)
  {
    var op, ms;
    R', op, ms := RecordStep(P, R, l);
    var picks := Picks(op, l.thread, R.threads[l.thread], l.entry);
    d := StepIsDeed(P, R.threads, l.thread, l.entry, Read(R.wires, Ahead(op, R.threads[l.thread]), picks));
  }

  lemma RecordMovesPayloads(P: Program, R: Recorder, l: Logged, q: QueueId) returns (R': Recorder, d: Deed)
    requires RecordInv(R) && Recordings(P)(R, l).Some? && AtTheFront(OpOf(P, l.thread, R.threads[l.thread]), R.threads[l.thread])
    ensures R' == Recordings(P)(R, l).value && RecordInv(R')
    ensures DeedOf(P, R.threads, R'.threads, l.thread) == [d]
    ensures OnWire(R.wires, q) + SentBy(d, q) == ReceivedBy(d, q) + OnWire(R'.wires, q)
  {
    var op, ms;
    R', op, ms := RecordStep(P, R, l);
    var t, e, th := l.thread, l.entry, R.threads[l.thread];
    var picks := Picks(op, t, th, e);
    var read := Read(R.wires, Ahead(op, th), picks);
    d := StepIsDeed(P, R.threads, t, e, read);
    DeedReceives(t, th, op, e, read, d, q);
    NothingAdded(OnWire(R.wires, q));
    if op.Send? {
      SendGoesOut(R.wires, t, op, |th.history|, q, d.outcome);
      NothingAdded(OnWire(R'.wires, q));
    } else if picks != [] {
      assert Ahead(op, th) == [];
      ReadPayloads(R.wires, picks, q);
    } else {
      NothingAdded(OnWire(R'.wires, q));
    }
  }

  lemma Through<T>(w: seq<T>, s: seq<T>, r: seq<T>, w': seq<T>, s': seq<T>, r': seq<T>, w'': seq<T>)
    requires w + s == r + w' && w' + s' == r' + w''
    ensures w + (s + s') == (r + r') + w''
  {
    Regroup(w, s, s');
    Regroup(r, w', s');
    Regroup(r, r', w'');
  }

  lemma {:induction false} RecordedPayloads(P: Program, R: Recorder, trace: seq<Logged>, q: QueueId)
    requires RecordInv(R) && Runs(Recordings(P), R, trace) && InTurn(P, R, trace)
    ensures var deeds, R' := RecordDeeds(P, R, trace), After(Recordings(P), R, trace);
            OnWire(R.wires, q) + AllSent(deeds, q) == AllReceived(deeds, q) + OnWire(R'.wires, q)
    decreases |trace|
  {
    if trace == [] {
      NothingAdded(OnWire(R.wires, q));
    } else {
      var R', d := RecordMovesPayloads(P, R, trace[0], q);
      RecordedPayloads(P, R', trace[1..], q);
      var rest := RecordDeeds(P, R', trace[1..]);
      FirstDeed(d, rest, q);
      Through(OnWire(R.wires, q), SentBy(d, q), ReceivedBy(d, q), OnWire(R'.wires, q), AllSent(rest, q),
              AllReceived(rest, q), OnWire(After(Recordings(P), R', trace[1..]).wires, q));
    }
  }

  lemma FirstDeed(d: Deed, rest: seq<Deed>, q: QueueId)
    ensures AllSent([d] + rest, q) == SentBy(d, q) + AllSent(rest, q)
    ensures AllReceived([d] + rest, q) == ReceivedBy(d, q) + AllReceived(rest, q)
  {
    assert ([d] + rest)[1..] == rest;
  }

  /** The deeds of a record run are its steps, each with what its entry says. */
  lemma {:induction false} RecordedDeeds(P: Program, R: Recorder, trace: seq<Logged>)
    requires RecordInv(R) && Runs(Recordings(P), R, trace)
    ensures var deeds := RecordDeeds(P, R, trace);
            && |deeds| == |trace|
            && forall k | 0 <= k < |trace| :: deeds[k].thread == trace[k].thread && Learns(deeds[k], trace[k].entry)
    decreases |trace|
  {
    if trace != [] {
      var R', d := RecordIsDeed(P, R, trace[0]);
      RecordedDeeds(P, R', trace[1..]);
      OneDeedMore(d, RecordDeeds(P, R', trace[1..]), trace);
    }
  }

  lemma OneDeedMore(d: Deed, rest: seq<Deed>, trace: seq<Logged>)
    requires trace != [] && |rest| == |trace| - 1 && d.thread == trace[0].thread && Learns(d, trace[0].entry)
    requires forall k | 0 <= k < |rest| :: rest[k].thread == trace[1..][k].thread && Learns(rest[k], trace[1..][k].entry)
    ensures forall k | 0 <= k < |trace| :: ([d] + rest)[k].thread == trace[k].thread && Learns(([d] + rest)[k], trace[k].entry)
  {
    forall k | 0 <= k < |trace|
      ensures ([d] + rest)[k].thread == trace[k].thread && Learns(([d] + rest)[k], trace[k].entry)
    {
      if k > 0 {
        assert ([d] + rest)[k] == rest[k - 1] && trace[k] == trace[1..][k - 1];
      }
    }
  }

  /**
   Record: every operation learns what its entry says, a receive one payload for each message. From each sender on
   each channel the payloads received, by whichever threads, are those sent, in order; the rest is still on the channel.
   */
  lemma RecordGivesWhatWasSent(P: Program, arg: Payload, trace: seq<Logged>, q: QueueId)
    requires Recorded(P, arg, trace) && InTurn(P, Start(arg), trace)
    ensures var deeds := RecordDeeds(P, Start(arg), trace);
            && |deeds| == |trace|
            && (forall k | 0 <= k < |trace| :: deeds[k].thread == trace[k].thread && Learns(deeds[k], trace[k].entry))
            && AllReceived(deeds, q) <= AllSent(deeds, q)
            && AllSent(deeds, q)[|AllReceived(deeds, q)|..] == OnWire(RecordEnd(P, arg, trace).wires, q)
  {
    StartInv(arg);
    RecordedDeeds(P, Start(arg), trace);
    RecordedPayloads(P, Start(arg), trace, q);
    var deeds := RecordDeeds(P, Start(arg), trace);
    NothingAdded(AllSent(deeds, q));
  }

  // ---- Replays ----

  /** The deed says as much as its entry does; a select says an index. */
  predicate IsWhole(d: Deed) {
    if d.op.SelectOp? then d.outcome.Chosen? else d.outcome.Outcome? && Learns(d, d.outcome.entry)
  }

  lemma OneDeed(d: Deed, q: QueueId)
    ensures AllSent([d], q) == SentBy(d, q) && AllReceived([d], q) == ReceivedBy(d, q)
  {
    FirstDeed(d, [], q);
    NothingAdded(SentBy(d, q));
    NothingAdded(ReceivedBy(d, q));
  }

  lemma NextMovesPayloads(P: Program, logs: Logs, S: State, S': State, t: Path, q: QueueId) returns (deeds: seq<Deed>)
    requires Inv(S) && Stepping(P, logs)(S, t) == Some(S')
    ensures Inv(S') && deeds == DeedOf(P, S.threads, S'.threads, t)
    ensures Contents(S.queues, q) + AllSent(deeds, q) == AllReceived(deeds, q) + Contents(S'.queues, q)
    ensures forall d | d in deeds :: IsWhole(d)
  {
    var e := NextEntry(P, logs, S.threads, t);
    var d := StepMovesPayloads(P, S, t, e, q);
    StepKeepsInv(P, S, t, e);
    OneDeed(d, q);
    deeds := [d];
  }

  /** A turn is a deed, or nothing has happened to the queues. */
  lemma TurnMovesPayloads(P: Program, logs: Logs, C: Replayer, S: State, turn: Turn, q: QueueId)
    returns (S': State, deeds: seq<Deed>)
    requires Inv(S) && StandsFor(P, logs, C, S) && Replays(P, logs)(C, turn).Some?
    ensures var C' := Replays(P, logs)(C, turn).value;
            Inv(S') && StandsFor(P, logs, C', S') && deeds == DeedOf(P, C.threads, C'.threads, turn.thread)
    ensures Contents(S.queues, q) + AllSent(deeds, q) == AllReceived(deeds, q) + Contents(S'.queues, q)
    ensures forall d | d in deeds :: IsWhole(d)
  {
    S' := TurnRefines(P, logs, C, S, turn);
    if S' == S {
      deeds := [];
      NothingAdded(Contents(S.queues, q));
    } else {
      deeds := NextMovesPayloads(P, logs, S, S', turn.thread, q);
    }
  }

  lemma DeedsJoin(a: seq<Deed>, b: seq<Deed>, q: QueueId)
    requires |a| <= 1
    ensures AllSent(a + b, q) == AllSent(a, q) + AllSent(b, q)
    ensures AllReceived(a + b, q) == AllReceived(a, q) + AllReceived(b, q)
  {
    NothingAdded(b);
    NothingAdded(AllSent(b, q));
    NothingAdded(AllReceived(b, q));
    if a == [] {
      assert a + b == b;
    } else {
      assert a == [a[0]];
      FirstDeed(a[0], b, q);
      FirstDeed(a[0], [], q);
      NothingAdded(SentBy(a[0], q));
      NothingAdded(ReceivedBy(a[0], q));
    }
  }

  lemma {:induction false} ReplayedPayloads(P: Program, logs: Logs, C: Replayer, S: State, turns: seq<Turn>, q: QueueId)
    returns (S': State)
    requires Inv(S) && StandsFor(P, logs, C, S) && Runs(Replays(P, logs), C, turns)
    ensures var deeds := ReplayDeeds(P, logs, C, turns);
            && Contents(S.queues, q) + AllSent(deeds, q) == AllReceived(deeds, q) + Contents(S'.queues, q)
            && (forall d | d in deeds :: IsWhole(d))
    decreases |turns|
  {
    if turns == [] {
      S' := S;
      NothingAdded(Contents(S.queues, q));
    } else {
      var C1 := Replays(P, logs)(C, turns[0]).value;
      var S1, first := TurnMovesPayloads(P, logs, C, S, turns[0], q);
      S' := ReplayedPayloads(P, logs, C1, S1, turns[1..], q);
      var rest := ReplayDeeds(P, logs, C1, turns[1..]);
      DeedsJoin(first, rest, q);
      Through(Contents(S.queues, q), AllSent(first, q), AllReceived(first, q), Contents(S1.queues, q),
              AllSent(rest, q), AllReceived(rest, q), Contents(S'.queues, q));
    }
  }

  /**
   Replay, of any logs and as far as it gets: every operation learns one payload for each message of its entry, and from
   each sender on each channel the payloads received are the first of those sent, in order.
   */
  lemma ReplayGivesWhatWasSent(P: Program, arg: Payload, logs: Logs, turns: seq<Turn>, q: QueueId)
    requires Runs(Replays(P, logs), Begin(arg), turns)
    ensures var deeds := ReplayDeeds(P, logs, Begin(arg), turns);
            && AllReceived(deeds, q) <= AllSent(deeds, q)
            && forall d | d in deeds :: IsWhole(d)
  {
    InitialInv(arg);
    assert StandsFor(P, logs, Begin(arg), Initial(arg));
    var S := ReplayedPayloads(P, logs, Begin(arg), Initial(arg), turns, q);
    var deeds := ReplayDeeds(P, logs, Begin(arg), turns);
    NothingAdded(AllSent(deeds, q));
  }

  // ---- Deeds and histories ----

  /** What one thread has learnt. */
  function OutcomesOf(deeds: seq<Deed>, t: Path): seq<Outcome> {
    if deeds == [] then [] else (if deeds[0].thread == t then [deeds[0].outcome] else []) + OutcomesOf(deeds[1..], t)
  }

  function HistoryOf(threads: map<Path, Thread>, t: Path): seq<Outcome> {
    if t in threads then threads[t].history else []
  }

  /** A step adds its deed to the history of its thread, and nothing to others. */
  lemma StepHistory(P: Program, threads: map<Path, Thread>, t: Path, e: RecordEntry, ms: seq<Message>, u: Path)
    requires t in threads && ChildId(t, threads[t]) !in threads
    ensures var threads' := ThreadsAfter(threads, t, OpOf(P, t, threads[t]), e, ms);
            HistoryOf(threads', u) == HistoryOf(threads, u) + OutcomesOf(DeedOf(P, threads, threads', t), u)
  {
    var op := OpOf(P, t, threads[t]);
    var threads' := ThreadsAfter(threads, t, op, e, ms);
    assert threads'[t] == Advanced(op, threads[t], e, ms);
    var deeds := DeedOf(P, threads, threads', t);
    assert OutcomesOf(deeds[1..], u) == [];
    NothingAdded(HistoryOf(threads, u));
    NothingAdded([deeds[0].outcome]);
    if u in threads && u != t {
      OthersUntouched(threads, t, op, e, ms, u);
    }
  }

  lemma OutcomesJoin(a: seq<Deed>, b: seq<Deed>, t: Path)
    requires |a| <= 1
    ensures OutcomesOf(a + b, t) == OutcomesOf(a, t) + OutcomesOf(b, t)
  {
    NothingAdded(OutcomesOf(b, t));
    if a == [] {
      NothingAdded(b);
    } else {
      assert (a + b)[1..] == b && OutcomesOf(a[1..], t) == [];
      NothingAdded([a[0].outcome]);
    }
  }

  /** The history of a thread is what its deeds have told it. */
  lemma {:induction false} RecordedHistories(P: Program, R: Recorder, trace: seq<Logged>, t: Path)
    requires RecordInv(R) && Runs(Recordings(P), R, trace)
    ensures HistoryOf(After(Recordings(P), R, trace).threads, t)
         == HistoryOf(R.threads, t) + OutcomesOf(RecordDeeds(P, R, trace), t)
    decreases |trace|
  {
    if trace == [] {
      NothingAdded(HistoryOf(R.threads, t));
    } else {
      var R', op, ms := RecordStep(P, R, trace[0]);
      StepHistory(P, R.threads, trace[0].thread, trace[0].entry, ms, t);
      RecordedHistories(P, R', trace[1..], t);
      var first, rest := DeedOf(P, R.threads, R'.threads, trace[0].thread), RecordDeeds(P, R', trace[1..]);
      OutcomesJoin(first, rest, t);
      Regroup(HistoryOf(R.threads, t), OutcomesOf(first, t), OutcomesOf(rest, t));
    }
  }

  lemma TurnHistory(P: Program, logs: Logs, C: Replayer, S: State, turn: Turn, t: Path) returns (S': State)
    requires Inv(S) && StandsFor(P, logs, C, S) && Replays(P, logs)(C, turn).Some?
    ensures Inv(S') && StandsFor(P, logs, Replays(P, logs)(C, turn).value, S')
    ensures var threads' := Replays(P, logs)(C, turn).value.threads;
            HistoryOf(threads', t) == HistoryOf(C.threads, t) + OutcomesOf(DeedOf(P, C.threads, threads', turn.thread), t)
  {
    S' := TurnRefines(P, logs, C, S, turn);
    if S' == S {
      NothingAdded(HistoryOf(C.threads, t));
    } else {
      var u := turn.thread;
      var e := NextEntry(P, logs, S.threads, u);
      ChildIsNew(S, u);
      StepHistory(P, S.threads, u, e, Taken(S.queues, Picks(OpOf(P, u, S.threads[u]), u, S.threads[u], e)), t);
      StepKeepsInv(P, S, u, e);
    }
  }

  lemma {:induction false} ReplayedHistories(P: Program, logs: Logs, C: Replayer, S: State, turns: seq<Turn>, t: Path)
    requires Inv(S) && StandsFor(P, logs, C, S) && Runs(Replays(P, logs), C, turns)
    ensures HistoryOf(After(Replays(P, logs), C, turns).threads, t)
         == HistoryOf(C.threads, t) + OutcomesOf(ReplayDeeds(P, logs, C, turns), t)
    decreases |turns|
  {
    if turns == [] {
      NothingAdded(HistoryOf(C.threads, t));
    } else {
      var C' := Replays(P, logs)(C, turns[0]).value;
      var S' := TurnHistory(P, logs, C, S, turns[0], t);
      ReplayedHistories(P, logs, C', S', turns[1..], t);
      var first, rest := DeedOf(P, C.threads, C'.threads, turns[0].thread), ReplayDeeds(P, logs, C', turns[1..]);
      OutcomesJoin(first, rest, t);
      Regroup(HistoryOf(C.threads, t), OutcomesOf(first, t), OutcomesOf(rest, t));
    }
  }

  /** In record and in replay, the history of every thread is what its deeds have told it, in order. */
  lemma HistoriesAreDeeds(P: Program, arg: Payload, trace: seq<Logged>, logs: Logs, turns: seq<Turn>, t: Path)
    requires Recorded(P, arg, trace) && Runs(Replays(P, logs), Begin(arg), turns)
    ensures HistoryOf(RecordEnd(P, arg, trace).threads, t) == OutcomesOf(RecordDeeds(P, Start(arg), trace), t)
    ensures HistoryOf(After(Replays(P, logs), Begin(arg), turns).threads, t)
         == OutcomesOf(ReplayDeeds(P, logs, Begin(arg), turns), t)
  {
    StartInv(arg);
    InitialInv(arg);
    assert StandsFor(P, logs, Begin(arg), Initial(arg));
    RecordedHistories(P, Start(arg), trace, t);
    ReplayedHistories(P, logs, Begin(arg), Initial(arg), turns, t);
    NothingAdded(OutcomesOf(RecordDeeds(P, Start(arg), trace), t));
    NothingAdded(OutcomesOf(ReplayDeeds(P, logs, Begin(arg), turns), t));
  }

  // ---- Runs in turn ----

  lemma FrontWhenSettled(threads: map<Path, Thread>, trace: seq<Logged>, op: Op)
    requires trace != [] && trace[0].thread in threads && OpensSettle(threads, trace) && Fits(trace[0], op)
    requires Check(op, trace[0].thread, threads[trace[0].thread], trace[0].entry).Fine?
    ensures AtTheFront(op, threads[trace[0].thread])
  {
    NothingAhead(threads, trace, op);
  }

  /** Runs whose selects are completed at once are in turn. */
  lemma {:induction false} SettledRunsAreInTurn(P: Program, R: Recorder, trace: seq<Logged>)
    requires RecordInv(R) && Runs(Recordings(P), R, trace)
    requires OpensSettle(R.threads, trace) && SettlesUpTo(trace, |trace|)
    ensures InTurn(P, R, trace)
    decreases |trace|
  {
    if trace != [] {
      var R', op, ms := RecordStep(P, R, trace[0]);
      FrontWhenSettled(R.threads, trace, op);
      SettlesTail(trace, |trace|);
      OpensGoOn(R.threads, trace, op, ms);
      SettledRunsAreInTurn(P, R', trace[1..]);
    }
  }

  lemma OrderlyRunsAreInTurn(P: Program, arg: Payload, trace: seq<Logged>)
    requires Recorded(P, arg, trace) && Orderly(trace)
    ensures InTurn(P, Start(arg), trace)
  {
    StartTracks(P, arg, trace);
    OrderlySettles(P, Start(arg), trace, |trace|);
    SettledRunsAreInTurn(P, Start(arg), trace);
  }
}
