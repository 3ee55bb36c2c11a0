/**
 The system in record mode: real FIFO channels, shared by all senders, and a log per thread.

 The scheduler picks any thread that can go on, and the channels deliver in order of arrival. The first phase
 of a select reserves a message, which stays on its wire here until the second phase takes it; other reads of
 the channel pass it by. The entry of a select is written in the second phase.

 If no thread does anything else while a select is open, a record run is a replay of its own logs on pending
 queues; that is what makes the logs replayable at all.
 */
module Recording {
  import opened Confluence
  import opened Identities
  import opened Protocol
  import opened RecordLog
  import opened ReplayEngine
  import opened ReplayOrder

  type Wires = map<DetChannelId, Wire<Message>>

  datatype Recorder = Recorder(threads: map<Path, Thread>, wires: Wires, home: Home, logs: Logs)

  function Start(arg: Payload): Recorder {
    Recorder(map[[] := NewThread(arg)], map[], map[], map[])
  }

  function WireOf(wires: Wires, c: DetChannelId): Wire<Message> {
    if c in wires then wires[c] else []
  }

  /** How many messages of a channel the open selects have reserved. They are the first on its wire. */
  function ReservedOn(open: seq<RecordEntry>, c: DetChannelId): nat {
    if open == [] then 0
    else
      var e := open[0];
      (if e.chan == c && e.event.CrossbeamSelect? && e.event.select.Success? then 1 else 0) + ReservedOn(open[1..], c)
  }

  /** The selects whose messages an operation leaves alone. */
  function Ahead(op: Op, th: Thread): seq<RecordEntry> {
    if op.Complete? && op.which <= |th.open| then th.open[..op.which] else th.open
  }

  function Dequeue(wires: Wires, c: DetChannelId, k: nat): Wires
    requires k < |WireOf(wires, c)|
  {
    wires[c := Without(wires[c], k)]
  }

  /** Reading the channels of the picks in turn gives messages of just the picks' senders. */
  predicate InOrder(wires: Wires, ahead: seq<RecordEntry>, picks: seq<QueueId>) {
    picks == [] ||
    var c, k := picks[0].chan, ReservedOn(ahead, picks[0].chan);
    && k < |WireOf(wires, c)|
    && wires[c][k].sender == picks[0].sender
    && InOrder(Dequeue(wires, c, k), ahead, picks[1..])
  }

  function Read(wires: Wires, ahead: seq<RecordEntry>, picks: seq<QueueId>): (ms: seq<Message>)
    requires InOrder(wires, ahead, picks)
    ensures |ms| == |picks|
  {
    if picks == [] then []
    else
      var c, k := picks[0].chan, ReservedOn(ahead, picks[0].chan);
      [wires[c][k].value] + Read(Dequeue(wires, c, k), ahead, picks[1..])
  }

  function Unread(wires: Wires, ahead: seq<RecordEntry>, picks: seq<QueueId>): Wires
    requires InOrder(wires, ahead, picks)
  {
    if picks == [] then wires
    else Unread(Dequeue(wires, picks[0].chan, ReservedOn(ahead, picks[0].chan)), ahead, picks[1..])
  }

  /**
   The entries that record mode can write for an operation; for the first phase of a select, that the second will
   write. Completing a select on another receiver than the one chosen panics. Which errors a channel reports, and when, is
   left to the scheduler: nothing below depends on it.
   */
  ghost predicate CanWrite(op: Op, t: Path, th: Thread, e: RecordEntry) {
    match op
    case Send(to, _, _) => e == RecordEntry(SendEvent(to.variant), to.variant, to.id)
    case Recv(from, kind) =>
      && e.variant == from.variant && e.chan == from.id
      && !(IsIpc(from.variant) && kind == Timed)
      && ((exists s :: e.event == SuccEvent(from.variant, kind, s)) ||
          (exists x :: CanFailWith(from.variant, kind, x) && e.event == ErrEvent(from.variant, kind, x)))
    case SelectAdd(i, r) => e == RecordEntry(CrossbeamSelectAdd(i), r.variant, r.id)
    case IpcAdd(i, r) => e == RecordEntry(IpcSelectAdd(i), r.variant, r.id)
    case NewChannel(v) => e == RecordEntry(ChannelCreation, v, ChannelOf(t, th))
    case Spawn(_, _) => e == RecordEntry(ThreadInitialized(ChildId(t, th)), NoVariant, FAKE_CHANNEL)
    case SelectOp(rs) =>
      && e.event.CrossbeamSelect? && e.event.select.index < |rs|
      && e.variant == rs[e.event.select.index].variant && e.chan == rs[e.event.select.index].id
    case Complete(which, from) =>
      && which < |th.open| && e == th.open[which] && e.event.CrossbeamSelect?
      && e.variant == from.variant && e.chan == from.id
    case IpcSelectOp(rs) =>
      && e.event.IpcSelectBatch? && FirstMissing(e.event.events, |rs|).Fine?
      && e.variant == IpcSelect && e.chan == FAKE_CHANNEL
    case Exit => false
  }

  /** What record writes passes the check that replay makes of the same operation. */
  lemma WrittenEntriesFit(op: Op, t: Path, th: Thread, e: RecordEntry)
    requires CanWrite(op, t, th, e)
    ensures Check(op, t, th, e).Fine?
  {
    if op.Recv? {
      if x :| CanFailWith(op.from.variant, op.kind, x) && e.event == ErrEvent(op.from.variant, op.kind, x) {
        ReceiveEventsRoundTrip(op.from.variant, op.kind, [], x);
      }
      if s :| e.event == SuccEvent(op.from.variant, op.kind, s) {
        ReceiveEventsRoundTrip(op.from.variant, op.kind, s, Disconnected);
      }
    }
  }

  ghost predicate CanRecord(P: Program, R: Recorder, t: Path, e: RecordEntry) {
    && t in R.threads
    && var th := R.threads[t];
       var op := OpOf(P, t, th);
    && CanWrite(op, t, th, e)
    && Check(op, t, th, e).Fine?
    && MayAttempt(R.home, t, op)
    && InOrder(R.wires, Ahead(op, th), Polls(op, t, th, e))
    && InOrder(R.wires, Ahead(op, th), Picks(op, t, th, e))
  }

  function WiresAfter(wires: Wires, t: Path, th: Thread, op: Op, picks: seq<QueueId>): Wires
    requires InOrder(wires, Ahead(op, th), picks)
  {
    if op.Send? then
      wires[op.to.id := WireOf(wires, op.to.id) + [DetMessage(t, Message(op.payload, |th.history|))]]
    else Unread(wires, Ahead(op, th), picks)
  }

  function LogOf(logs: Logs, t: Path): seq<RecordEntry> {
    if t in logs then logs[t] else []
  }

  function LogsAfter(logs: Logs, t: Path, op: Op, e: RecordEntry): Logs {
    if op.SelectOp? then logs else logs[t := LogOf(logs, t) + [e]]
  }

  ghost function Record(P: Program, R: Recorder, t: Path, e: RecordEntry): Recorder
    requires CanRecord(P, R, t, e)
  {
    var th := R.threads[t];
    var op := OpOf(P, t, th);
    var picks := Picks(op, t, th, e);
    var ms := Read(R.wires, Ahead(op, th), picks);
    Recorder(ThreadsAfter(R.threads, t, op, e, ms),
             WiresAfter(R.wires, t, th, op, picks),
             HomeAfter(R.home, t, th, op, picks, ms),
             LogsAfter(R.logs, t, op, e))
  }

  /** What a thread did: an operation with its log entry, or one of the phases of a select. */
  datatype Logged =
    | Wrote(thread: Path, entry: RecordEntry)
    | Picked(thread: Path, entry: RecordEntry)
    | Completed(thread: Path, entry: RecordEntry)

  predicate Fits(l: Logged, op: Op) {
    (l.Picked? <==> op.SelectOp?) && (l.Completed? <==> op.Complete?)
  }

  /** Record mode as a system in which the scheduler picks a thread and what it writes. */
  ghost function Recordings(P: Program): Stepper<Recorder, Logged> {
    (R: Recorder, l: Logged) =>
      if CanRecord(P, R, l.thread, l.entry) && Fits(l, OpOf(P, l.thread, R.threads[l.thread]))
      then Some(Record(P, R, l.thread, l.entry))
      else None
  }

  /** What holds of threads and receivers in every record run. */
  ghost predicate RecordInv(R: Recorder) {
    TreeShaped(R.threads) && ReceiversNumbered(R.threads, R.home)
  }

  /** A recording step, in terms of its label. */
  lemma RecordStep(P: Program, R: Recorder, l: Logged) returns (R': Recorder, op: Op, ms: seq<Message>)
    requires RecordInv(R) && Recordings(P)(R, l).Some?
    ensures R' == Recordings(P)(R, l).value && RecordInv(R')
    ensures l.thread in R.threads && op == OpOf(P, l.thread, R.threads[l.thread]) && Fits(l, op)
    ensures Check(op, l.thread, R.threads[l.thread], l.entry).Fine?
    ensures R'.threads == ThreadsAfter(R.threads, l.thread, op, l.entry, ms)
    ensures ChildId(l.thread, R.threads[l.thread]) !in R.threads
    ensures R'.logs == LogsAfter(R.logs, l.thread, op, l.entry)
  {
    var t, e := l.thread, l.entry;
    var th := R.threads[t];
    R', op := Record(P, R, t, e), OpOf(P, t, th);
    var picks := Picks(op, t, th, e);
    ms := Read(R.wires, Ahead(op, th), picks);
    TreeGrows(R.threads, t, op, e, ms);
    ReceiversStayNumbered(R.threads, R.home, t, op, e, picks, ms);
    var child := ChildId(t, th);
    assert child[..|child| - 1] == t;
  }

  lemma StartInv(arg: Payload)
    ensures RecordInv(Start(arg))
  {
  }

  // ---- The logs of a run ----

  /** The entries that one thread wrote, in order. */
  function WrittenBy(trace: seq<Logged>, t: Path): seq<RecordEntry> {
    if trace == [] then [] else WrittenIn(trace[0], t) + WrittenBy(trace[1..], t)
  }

  function WrittenIn(l: Logged, t: Path): seq<RecordEntry> {
    if l.thread == t && !l.Picked? then [l.entry] else []
  }

  lemma StepWrites(logs: Logs, l: Logged, op: Op, t: Path)
    requires Fits(l, op)
    ensures var logs' := LogsAfter(logs, l.thread, op, l.entry);
            && LogOf(logs', t) == LogOf(logs, t) + WrittenIn(l, t)
            && (t in logs' <==> t in logs || WrittenIn(l, t) != [])
  {
  }

  lemma WrittenFirst(trace: seq<Logged>, t: Path, log: seq<RecordEntry>)
    requires trace != []
    ensures log + WrittenIn(trace[0], t) + WrittenBy(trace[1..], t) == log + WrittenBy(trace, t)
    ensures WrittenBy(trace, t) != [] <==> WrittenIn(trace[0], t) != [] || WrittenBy(trace[1..], t) != []
  {
    assert WrittenBy(trace, t) == WrittenIn(trace[0], t) + WrittenBy(trace[1..], t);
    Regroup(log, WrittenIn(trace[0], t), WrittenBy(trace[1..], t));
  }

  /** The log of a thread is what it wrote, in the order in which it wrote it. */
  lemma {:induction false} LogsAreWhatWasWritten(P: Program, R: Recorder, trace: seq<Logged>, t: Path)
    requires RecordInv(R) && Runs(Recordings(P), R, trace)
    ensures var logs := After(Recordings(P), R, trace).logs;
            && LogOf(logs, t) == LogOf(R.logs, t) + WrittenBy(trace, t)
            && (t in logs <==> t in R.logs || WrittenBy(trace, t) != [])
    decreases |trace|
  {
    if trace != [] {
      var R', op, _ := RecordStep(P, R, trace[0]);
      StepWrites(R.logs, trace[0], op, t);
      WrittenFirst(trace, t, LogOf(R.logs, t));
      LogsAreWhatWasWritten(P, R', trace[1..], t);
    }
  }

  // ---- Selects that are completed at once ----

  /** The next thing that the thread does. */
  function NextOf(trace: seq<Logged>, t: Path): Maybe<Logged> {
    if trace == [] then None else if trace[0].thread == t then Some(trace[0]) else NextOf(trace[1..], t)
  }

  /** A select of `t` with this entry is completed before `t` does anything else, or `t` does nothing more. */
  predicate Settles(trace: seq<Logged>, t: Path, e: RecordEntry) {
    NextOf(trace, t) == None || NextOf(trace, t) == Some(Completed(t, e))
  }

  /** The selects among the first `m` steps are. */
  ghost predicate SettlesUpTo(trace: seq<Logged>, m: nat) {
    forall i | 0 <= i < m && i < |trace| && trace[i].Picked? :: Settles(trace[i + 1..], trace[i].thread, trace[i].entry)
  }

  /** No thread does anything else between the two phases of a select. */
  ghost predicate Orderly(trace: seq<Logged>) {
    forall i | 0 <= i < |trace| && trace[i].Picked? ::
      var next := NextOf(trace[i + 1..], trace[i].thread);
      next.None? || next.value.Completed?
  }

  /** A step of another thread leaves a thread as it is. */
  lemma OthersUntouched(threads: map<Path, Thread>, t: Path, op: Op, e: RecordEntry, ms: seq<Message>, u: Path)
    requires t in threads && u in threads && u != t && ChildId(t, threads[t]) !in threads
    ensures u in ThreadsAfter(threads, t, op, e, ms) && ThreadsAfter(threads, t, op, e, ms)[u] == threads[u]
  {
  }

  lemma CompletesThat(op: Op, th: Thread, l: Logged, e: RecordEntry)
    requires Check(op, l.thread, th, l.entry).Fine? && Fits(l, op) && th.open == [e]
    ensures l.Completed? ==> l.entry == e
  {
  }

  lemma {:induction false} NextCompletes(P: Program, R: Recorder, trace: seq<Logged>, t: Path, e: RecordEntry)
    requires RecordInv(R) && Runs(Recordings(P), R, trace) && t in R.threads && R.threads[t].open == [e]
    ensures var next := NextOf(trace, t); next.Some? && next.value.Completed? ==> next.value.entry == e
    decreases |trace|
  {
    if trace != [] {
      var R', op, ms := RecordStep(P, R, trace[0]);
      if trace[0].thread == t {
        CompletesThat(op, R.threads[t], trace[0], e);
      } else {
        OthersUntouched(R.threads, trace[0].thread, op, trace[0].entry, ms, t);
        NextCompletes(P, R', trace[1..], t, e);
      }
    }
  }
}
