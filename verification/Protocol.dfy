/**
 The whole system on pending queues.

 A program is a function that tells each thread what to do next from the results it has seen. One step
 of a thread consumes one log entry and has three effects: on the threads, on the pending queues and on
 the places where the receivers are. Replay is the machine in which every thread is given its log and
 steps in any order; this module proves that order irrelevant.
 */
module Protocol {
  import opened Confluence
  import opened Identities
  import opened RecordLog

  /** Messages as their serialised bytes. */
  type Payload = seq<nat>

  /** A message on its way. `stamp` is the sender's step number, which together with the queue names the message. */
  datatype Message = Message(payload: Payload, stamp: nat)

  /** The messages of one sender on one channel. */
  datatype QueueId = QueueId(chan: DetChannelId, sender: Path)

  type Queues = map<QueueId, seq<Message>>

  /**
   What a thread does next. `moved` are the receivers that leave with a message or with a new thread. A select
   has two phases: `SelectOp` chooses a receiver, and `Complete` receives from the receiver chosen; `which`
   tells the selects apart that are open, oldest first.
   */
  datatype Op =
    | Send(to: Metadata, payload: Payload, moved: set<DetChannelId>)
    | Recv(from: Metadata, kind: RecvKind)
    | SelectAdd(index: nat, receiver: Metadata)
    | SelectOp(receivers: seq<Metadata>)
    | Complete(which: nat, from: Metadata)
    | IpcAdd(index: nat, receiver: Metadata)
    | IpcSelectOp(receivers: seq<Metadata>)
    | NewChannel(variant: ChannelVariant)
    | Spawn(arg: Payload, childGets: set<DetChannelId>)
    | Exit

  /**
   What a thread learns from one operation: its log entry and the messages it was given, or, from the first phase
   of a select, the index chosen.
   */
  datatype Outcome = Outcome(entry: RecordEntry, payloads: seq<Payload>) | Chosen(index: nat)

  type Program = (Path, Payload, seq<Outcome>) -> Op

  /**
   `children` and `channels` count what the thread has spawned and created. `open` are the entries of the selects
   that it has not completed, and `taken` is its position in the log: replay takes the entry of a select in the
   first phase, where record writes it in the second.
   */
  datatype Thread = Thread(arg: Payload, history: seq<Outcome>, children: nat, channels: nat,
                           open: seq<RecordEntry>, taken: nat)

  /**
   Where a receiver is. It is in one place at a time: it is not clonable, and sending it or giving it to a
   new thread moves it.
   */
  datatype Place = Held(holder: Path) | InFlight(queue: QueueId, stamp: nat)

  type Home = map<DetChannelId, Place>

  datatype State = State(threads: map<Path, Thread>, queues: Queues, home: Home)

  function NewThread(arg: Payload): Thread {
    Thread(arg, [], 0, 0, [], 0)
  }

  function Initial(arg: Payload): State {
    State(map[[] := NewThread(arg)], map[], map[])
  }

  // ---- One step ----

  /** The next child's id: child indices start at 1. */
  function ChildId(t: Path, th: Thread): Path {
    t + [th.children + 1]
  }

  /** The next channel's id: channel numbers start at 1. */
  function ChannelOf(t: Path, th: Thread): DetChannelId {
    DetChannelId(t, th.channels + 1)
  }

  function OpOf(P: Program, t: Path, th: Thread): Op {
    P(t, th.arg, th.history)
  }

  /** A batch that names a receiver which was never added. */
  function FirstMissing(events: seq<IpcSelectEvent>, added: nat): Checked {
    if events == [] then Fine
    else if events[0].index >= added then Bad(MissingReceiver(events[0].index))
    else FirstMissing(events[1..], added)
  }

  /**
   The replay check of an operation against its log entry. The first phase of a select does not look at the
   entry's channel; the second has the entry that the first has taken.
   */
  function Check(op: Op, t: Path, th: Thread, e: RecordEntry): Checked {
    match op
    case Send(to, _, _) => CheckEntry(e.event == SendEvent(to.variant), e, to)
    case Recv(from, kind) => CheckEntry(AcceptsRecv(from.variant, kind, e.event), e, from)
    case SelectAdd(i, r) => CheckEntry(e.event == CrossbeamSelectAdd(i), e, r)
    case IpcAdd(i, r) => CheckEntry(e.event == IpcSelectAdd(i), e, r)
    case NewChannel(v) => CheckEntry(e.event == ChannelCreation, e, Metadata(v, ChannelOf(t, th)))
    case Spawn(_, _) => CheckEntry(e.event == ThreadInitialized(ChildId(t, th)), e, NO_CHANNEL)
    case SelectOp(rs) =>
      if !e.event.CrossbeamSelect? then Bad(EventMismatch(e.event))
      else if e.event.select.Success? && e.event.select.index >= |rs| then Bad(MissingReceiver(e.event.select.index))
      else Fine
    case Complete(which, from) =>
      if which >= |th.open| || e != th.open[which] || !e.event.CrossbeamSelect? then Bad(EventMismatch(e.event))
      else CheckMismatch(e, from)
    case IpcSelectOp(rs) =>
      if !e.event.IpcSelectBatch? then Bad(EventMismatch(e.event))
      else FirstMissing(e.event.events, |rs|)
    case Exit => Bad(EventMismatch(e.event))
  }

  /** The queues that a batch takes messages from, in order. A closed channel gives no message. */
  function BatchPicks(rs: seq<Metadata>, events: seq<IpcSelectEvent>): seq<QueueId>
    requires FirstMissing(events, |rs|).Fine?
  {
    if events == [] then []
    else
      (if events[0].MessageReceived? then [QueueId(rs[events[0].index].id, events[0].sender)] else [])
      + BatchPicks(rs, events[1..])
  }

  /** The queues that an operation takes its messages from, in order, given its log entry. */
  function Picks(op: Op, t: Path, th: Thread, e: RecordEntry): seq<QueueId>
    requires Check(op, t, th, e).Fine?
  {
    match op
    case Recv(from, _) => if ReplayOf(e.event).WaitFor? then [QueueId(from.id, ReplayOf(e.event).sender)] else []
    case Complete(_, from) => if e.event.select.Success? then [QueueId(from.id, e.event.select.sender)] else []
    case IpcSelectOp(rs) => BatchPicks(rs, e.event.events)
    case _ => []
  }

  /** The queue that the first phase of a select polls: it wants a message there, and leaves it. */
  function Polls(op: Op, t: Path, th: Thread, e: RecordEntry): seq<QueueId>
    requires Check(op, t, th, e).Fine?
  {
    match op
    case SelectOp(rs) =>
      if e.event.select.Success? then [QueueId(rs[e.event.select.index].id, e.event.select.sender)] else []
    case _ => []
  }

  predicate IsHeld(home: Home, t: Path, c: DetChannelId) {
    c in home && home[c] == Held(t)
  }

  /** The receivers that an operation uses or gives away: move semantics demand that the thread has them. */
  function Uses(op: Op): set<DetChannelId> {
    match op
    case Send(_, _, moved) => moved
    case Spawn(_, childGets) => childGets
    case Recv(from, _) => {from.id}
    case SelectAdd(_, r) => {r.id}
    case IpcAdd(_, r) => {r.id}
    case SelectOp(rs) => set r | r in rs :: r.id
    case Complete(_, from) => {from.id}
    case IpcSelectOp(rs) => set r | r in rs :: r.id
    case NewChannel(_) => {}
    case Exit => {}
  }

  /** The thread may attempt its operation: it has the receivers, and a spawn does not go too deep. */
  predicate MayAttempt(home: Home, t: Path, op: Op) {
    && (forall c | c in Uses(op) :: IsHeld(home, t, c))
    && (op.Spawn? ==> |t| < MAX_SIZE)
  }

  function Queue(queues: Queues, q: QueueId): seq<Message> {
    if q in queues then queues[q] else []
  }

  function Push(queues: Queues, q: QueueId, m: Message): Queues {
    queues[q := Queue(queues, q) + [m]]
  }

  function Pop(queues: Queues, q: QueueId): Queues
    requires Queue(queues, q) != []
  {
    queues[q := queues[q][1..]]
  }

  predicate Available(queues: Queues, picks: seq<QueueId>) {
    picks == [] || (Queue(queues, picks[0]) != [] && Available(Pop(queues, picks[0]), picks[1..]))
  }

  /** The messages that the picks take. */
  function Taken(queues: Queues, picks: seq<QueueId>): (ms: seq<Message>)
    requires Available(queues, picks)
    ensures |ms| == |picks|
  {
    if picks == [] then []
    else [queues[picks[0]][0]] + Taken(Pop(queues, picks[0]), picks[1..])
  }

  /** The queues that the picks leave. */
  function Remaining(queues: Queues, picks: seq<QueueId>): Queues
    requires Available(queues, picks)
  {
    if picks == [] then queues else Remaining(Pop(queues, picks[0]), picks[1..])
  }

  function Payloads(ms: seq<Message>): seq<Payload> {
    seq(|ms|, i requires 0 <= i < |ms| => ms[i].payload)
  }

  function Without<T>(s: seq<T>, i: nat): seq<T> {
    if i < |s| then s[..i] + s[i + 1..] else s
  }

  /** What the thread learns. */
  function Learnt(op: Op, e: RecordEntry, ms: seq<Message>): Outcome {
    if op.SelectOp? && e.event.CrossbeamSelect? then Chosen(e.event.select.index) else Outcome(e, Payloads(ms))
  }

  /** The thread after the step. */
  function Advanced(op: Op, th: Thread, e: RecordEntry, ms: seq<Message>): Thread {
    Thread(th.arg, th.history + [Learnt(op, e, ms)],
           th.children + (if op.Spawn? then 1 else 0),
           th.channels + (if op.NewChannel? then 1 else 0),
           if op.SelectOp? then th.open + [e] else if op.Complete? then Without(th.open, op.which) else th.open,
           th.taken + if op.Complete? then 0 else 1)
  }

  /** The thread that the step starts. */
  function Born(op: Op, t: Path, th: Thread): map<Path, Thread> {
    if op.Spawn? then map[ChildId(t, th) := NewThread(op.arg)] else map[]
  }

  function ThreadsAfter(threads: map<Path, Thread>, t: Path, op: Op, e: RecordEntry,
      ms: seq<Message>): map<Path, Thread>
    requires t in threads
  {
    threads[t := Advanced(op, threads[t], e, ms)] + Born(op, t, threads[t])
  }

  function QueuesAfter(queues: Queues, t: Path, th: Thread, op: Op, picks: seq<QueueId>): Queues
    requires Available(queues, picks)
  {
    if op.Send? then Push(queues, QueueId(op.to.id, t), Message(op.payload, |th.history|))
    else Remaining(queues, picks)
  }

  /** The receivers that arrive with the messages. */
  function Delivered(home: Home, picks: seq<QueueId>, ms: seq<Message>): set<DetChannelId>
    requires |picks| == |ms|
  {
    set c | c in home && exists i :: 0 <= i < |picks| && home[c] == InFlight(picks[i], ms[i].stamp)
  }

  /** The receivers that change place in the step, */
  function Movers(home: Home, t: Path, th: Thread, op: Op, picks: seq<QueueId>, ms: seq<Message>): set<DetChannelId>
    requires |picks| == |ms|
  {
    match op
    case Send(_, _, moved) => moved
    case Spawn(_, childGets) => childGets
    case NewChannel(_) => {ChannelOf(t, th)}
    case _ => Delivered(home, picks, ms)
  }

  /** and where they go. */
  function Destination(t: Path, th: Thread, op: Op): Place {
    match op
    case Send(to, _, _) => InFlight(QueueId(to.id, t), |th.history|)
    case Spawn(_, _) => Held(ChildId(t, th))
    case _ => Held(t)
  }

  function Rehome(home: Home, movers: set<DetChannelId>, dest: Place): Home {
    map c | c in home.Keys + movers :: if c in movers then dest else home[c]
  }

  function HomeAfter(home: Home, t: Path, th: Thread, op: Op, picks: seq<QueueId>, ms: seq<Message>): Home
    requires |picks| == |ms|
  {
    Rehome(home, Movers(home, t, th, op, picks, ms), Destination(t, th, op))
  }

  /** Thread `t` can make the step that entry `e` describes. */
  predicate Ready(P: Program, S: State, t: Path, e: RecordEntry) {
    && t in S.threads
    && var th := S.threads[t];
       var op := OpOf(P, t, th);
    && Check(op, t, th, e).Fine?
    && MayAttempt(S.home, t, op)
    && Available(S.queues, Polls(op, t, th, e))
    && Available(S.queues, Picks(op, t, th, e))
  }

  function Apply(P: Program, S: State, t: Path, e: RecordEntry): State
    requires Ready(P, S, t, e)
  {
    var th := S.threads[t];
    var op := OpOf(P, t, th);
    var picks := Picks(op, t, th, e);
    var ms := Taken(S.queues, picks);
    State(ThreadsAfter(S.threads, t, op, e, ms),
          QueuesAfter(S.queues, t, th, op, picks),
          HomeAfter(S.home, t, th, op, picks, ms))
  }

  // ---- Replay from logs ----

  type Logs = map<Path, seq<RecordEntry>>

  /** The thread has an entry to follow: the next of its log, or for the second phase of a select that of the first. */
  predicate HasEntry(P: Program, logs: Logs, threads: map<Path, Thread>, t: Path) {
    && t in threads
    && var op := OpOf(P, t, threads[t]);
       if op.Complete? then op.which < |threads[t].open| else t in logs && threads[t].taken < |logs[t]|
  }

  function NextEntry(P: Program, logs: Logs, threads: map<Path, Thread>, t: Path): RecordEntry
    requires HasEntry(P, logs, threads, t)
  {
    var op := OpOf(P, t, threads[t]);
    if op.Complete? then threads[t].open[op.which] else logs[t][threads[t].taken]
  }

  predicate CanStep(P: Program, logs: Logs, S: State, t: Path) {
    HasEntry(P, logs, S.threads, t) && Ready(P, S, t, NextEntry(P, logs, S.threads, t))
  }

  function Next(P: Program, logs: Logs, S: State, t: Path): State
    requires CanStep(P, logs, S, t)
  {
    Apply(P, S, t, NextEntry(P, logs, S.threads, t))
  }

  /** Replay as a system of threads that step when their logs let them. */
  function Stepping(P: Program, logs: Logs): Stepper<State, Path> {
    (S: State, t: Path) => if CanStep(P, logs, S, t) then Some(Next(P, logs, S, t)) else None
  }

  /** No thread has anything left to follow. */
  ghost predicate Exhausted(P: Program, logs: Logs, threads: map<Path, Thread>) {
    forall t :: !HasEntry(P, logs, threads, t)
  }

  // ---- What every step keeps ----

  /** The threads form a tree and every child index handed out is within its parent's count. */
  ghost predicate TreeShaped(threads: map<Path, Thread>) {
    && [] in threads
    && forall t | t in threads && t != [] ::
         && t[..|t| - 1] in threads
         && t[|t| - 1] <= threads[t[..|t| - 1]].children
  }

  /** Every receiver in existence was created by a thread, within its count of channels. */
  ghost predicate ReceiversNumbered(threads: map<Path, Thread>, home: Home) {
    forall c | c in home :: c.thread in threads && 1 <= c.number <= threads[c.thread].channels
  }

  /** Every message in a queue was sent by an earlier step of its sender. */
  ghost predicate SentEarlier(threads: map<Path, Thread>, queues: Queues) {
    forall q | q in queues :: SentBefore(threads, q.sender, queues[q])
  }

  ghost predicate SentBefore(threads: map<Path, Thread>, sender: Path, ms: seq<Message>) {
    forall m | m in ms :: sender in threads && m.stamp < |threads[sender].history|
  }

  ghost predicate Inv(S: State) {
    TreeShaped(S.threads) && ReceiversNumbered(S.threads, S.home) && SentEarlier(S.threads, S.queues)
  }

  lemma InitialInv(arg: Payload)
    ensures Inv(Initial(arg))
  {
  }

  lemma ChildIsNew(S: State, t: Path)
    requires Inv(S) && t in S.threads
    ensures ChildId(t, S.threads[t]) !in S.threads
  {
    var u := ChildId(t, S.threads[t]);
    assert u[..|u| - 1] == t;
  }

  lemma {:induction false} RemainingShrinks(queues: Queues, picks: seq<QueueId>, q: QueueId, m: Message)
    requires Available(queues, picks) && q in Remaining(queues, picks) && m in Remaining(queues, picks)[q]
    ensures q in queues && m in queues[q]
  {
    if picks != [] {
      RemainingShrinks(Pop(queues, picks[0]), picks[1..], q, m);
    }
  }

  /** Threads only grow: histories, and both counters. */
  lemma ThreadsGrow(P: Program, S: State, t: Path, e: RecordEntry, u: Path)
    requires Inv(S) && Ready(P, S, t, e) && u in S.threads
    ensures var S' := Apply(P, S, t, e);
            && u in S'.threads
            && (u != t ==> S'.threads[u] == S.threads[u])
            && S.threads[u].history <= S'.threads[u].history
            && S.threads[u].children <= S'.threads[u].children
            && S.threads[u].channels <= S'.threads[u].channels
  {
    ChildIsNew(S, t);
  }

  lemma TreeGrows(threads: map<Path, Thread>, t: Path, op: Op, e: RecordEntry, ms: seq<Message>)
    requires TreeShaped(threads) && t in threads
    ensures TreeShaped(ThreadsAfter(threads, t, op, e, ms))
  {
    var child := ChildId(t, threads[t]);
    assert child[..|child| - 1] == t;
    var threads' := ThreadsAfter(threads, t, op, e, ms);
    forall u | u in threads' && u != []
      ensures u[..|u| - 1] in threads' && u[|u| - 1] <= threads'[u[..|u| - 1]].children
    {
      if u in threads {
        assert u[..|u| - 1] in threads && u[..|u| - 1] != child;
      }
    }
  }

  /** Only a new channel's receiver appears out of nowhere. */
  lemma MoversExist(home: Home, t: Path, th: Thread, op: Op, picks: seq<QueueId>, ms: seq<Message>, c: DetChannelId)
    requires |picks| == |ms| && MayAttempt(home, t, op)
    requires c in Movers(home, t, th, op, picks, ms)
    ensures c in home || (op.NewChannel? && c == ChannelOf(t, th))
  {
    if op.Send? || op.Spawn? {
      assert c in Uses(op);
    }
  }

  lemma ReceiversStayNumbered(threads: map<Path, Thread>, home: Home, t: Path, op: Op, e: RecordEntry,
      picks: seq<QueueId>, ms: seq<Message>)
    requires TreeShaped(threads) && ReceiversNumbered(threads, home) && t in threads
    requires |picks| == |ms| && MayAttempt(home, t, op)
    ensures ReceiversNumbered(ThreadsAfter(threads, t, op, e, ms), HomeAfter(home, t, threads[t], op, picks, ms))
  {
    var threads', home' := ThreadsAfter(threads, t, op, e, ms), HomeAfter(home, t, threads[t], op, picks, ms);
    var child := ChildId(t, threads[t]);
    assert child[..|child| - 1] == t;
    forall c | c in home'
      ensures c.thread in threads' && 1 <= c.number <= threads'[c.thread].channels
    {
      if c !in home {
        MoversExist(home, t, threads[t], op, picks, ms, c);
      }
    }
  }

  lemma QueuedOrSent(queues: Queues, t: Path, th: Thread, op: Op, picks: seq<QueueId>, q: QueueId, m: Message)
    requires Available(queues, picks)
    requires var after := QueuesAfter(queues, t, th, op, picks); q in after && m in after[q]
    ensures (q in queues && m in queues[q]) || (q.sender == t && m.stamp == |th.history|)
  {
    if !op.Send? {
      RemainingShrinks(queues, picks, q, m);
    }
  }

  lemma QueuedMessageSent(P: Program, S: State, t: Path, e: RecordEntry, q: QueueId, m: Message)
    requires Inv(S) && Ready(P, S, t, e)
    requires q in Apply(P, S, t, e).queues && m in Apply(P, S, t, e).queues[q]
    ensures var S' := Apply(P, S, t, e); q.sender in S'.threads && m.stamp < |S'.threads[q.sender].history|
  {
    var th := S.threads[t];
    var op := OpOf(P, t, th);
    QueuedOrSent(S.queues, t, th, op, Picks(op, t, th, e), q, m);
    if q in S.queues && m in S.queues[q] {
      assert SentBefore(S.threads, q.sender, S.queues[q]);
      ThreadsGrow(P, S, t, e, q.sender);
    } else {
      ChildIsNew(S, t);
      assert |Apply(P, S, t, e).threads[t].history| == |th.history| + 1;
    }
  }

  lemma StepKeepsQueues(P: Program, S: State, t: Path, e: RecordEntry)
    requires Inv(S) && Ready(P, S, t, e)
    ensures SentEarlier(Apply(P, S, t, e).threads, Apply(P, S, t, e).queues)
  {
    var S' := Apply(P, S, t, e);
    forall q | q in S'.queues
      ensures SentBefore(S'.threads, q.sender, S'.queues[q])
    {
      forall m | m in S'.queues[q]
        ensures q.sender in S'.threads && m.stamp < |S'.threads[q.sender].history|
      {
        QueuedMessageSent(P, S, t, e, q, m);
      }
    }
  }

  lemma StepKeepsInv(P: Program, S: State, t: Path, e: RecordEntry)
    requires Inv(S) && Ready(P, S, t, e)
    ensures Inv(Apply(P, S, t, e))
  {
    var op := OpOf(P, t, S.threads[t]);
    var picks := Picks(op, t, S.threads[t], e);
    TreeGrows(S.threads, t, op, e, Taken(S.queues, picks));
    ReceiversStayNumbered(S.threads, S.home, t, op, e, picks, Taken(S.queues, picks));
    StepKeepsQueues(P, S, t, e);
  }
}
