/**
 The system in replay mode: real FIFO channels and, per receiver, the buffer of early messages.

 A thread replays an operation in several turns. Each turn is a stretch of its receive loop: it reads as
 far as its patience goes, and it either draws the message that it waits for or leaves what it read in
 the buffer. With all messages of its log entry in hand it concludes the operation. The first phase of a
 select polls in the same way until its message is in the buffer. When patience runs out the thread tries
 again in a later turn; that a read times out for good is not part of this machine. Turns of all threads
 interleave in any way. `Refinement` relates this to replay on pending queues.
 */
module Replaying {
  import opened Confluence
  import opened Following
  import opened Identities
  import opened Protocol
  import opened Recording
  import opened RecordLog
  import opened ReplayEngine
  import opened ReplayOrder

  type Buffers = map<DetChannelId, Buffer<Message>>

  type Hands = map<Path, seq<Message>>

  /** `hands` are the messages of a batch that a thread has already drawn. */
  datatype Replayer = Replayer(threads: map<Path, Thread>, wires: Wires, buffers: Buffers, hands: Hands, home: Home)

  function Begin(arg: Payload): Replayer {
    Replayer(map[[] := NewThread(arg)], map[], map[], map[], map[])
  }

  function BufferOf(buffers: Buffers, c: DetChannelId): Buffer<Message> {
    if c in buffers then buffers[c] else map[]
  }

  function Hand(hands: Hands, t: Path): seq<Message> {
    if t in hands then hands[t] else []
  }

  /** A thread takes a turn, with patience for so many reads. */
  datatype Turn = Turn(thread: Path, patience: nat)

  /** What a thread's next log entry tells it to wait for, in order. */
  function NextPicks(P: Program, logs: Logs, threads: map<Path, Thread>, t: Path): seq<QueueId> {
    if HasEntry(P, logs, threads, t)
       && Check(OpOf(P, t, threads[t]), t, threads[t], NextEntry(P, logs, threads, t)).Fine?
    then Picks(OpOf(P, t, threads[t]), t, threads[t], NextEntry(P, logs, threads, t))
    else []
  }

  /** The queue that a thread's next log entry tells it to poll. */
  function NextPolls(P: Program, logs: Logs, threads: map<Path, Thread>, t: Path): seq<QueueId> {
    if HasEntry(P, logs, threads, t)
       && Check(OpOf(P, t, threads[t]), t, threads[t], NextEntry(P, logs, threads, t)).Fine?
    then Polls(OpOf(P, t, threads[t]), t, threads[t], NextEntry(P, logs, threads, t))
    else []
  }

  /** The thread has a log entry, its operation passes the check, and its receivers are there. */
  predicate Admitted(P: Program, logs: Logs, threads: map<Path, Thread>, home: Home, t: Path) {
    && HasEntry(P, logs, threads, t)
    && Check(OpOf(P, t, threads[t]), t, threads[t], NextEntry(P, logs, threads, t)).Fine?
    && MayAttempt(home, t, OpOf(P, t, threads[t]))
  }

  /** One stretch of the receive loop for queue `q`. */
  function Draw(C: Replayer, t: Path, q: QueueId, patience: nat): Replayer {
    var r := RecvExpected(q.sender, BufferOf(C.buffers, q.chan), WireOf(C.wires, q.chan), patience, false);
    C.(buffers := C.buffers[q.chan := r.buffer],
       wires := C.wires[q.chan := r.wire],
       hands := if r.result.Got? then C.hands[t := Hand(C.hands, t) + [r.result.value]] else C.hands)
  }

  /** One stretch of `poll_entry`: a message that is found is put in the buffer. */
  function Poll(C: Replayer, q: QueueId, patience: nat): Replayer {
    var r := RecvExpected(q.sender, BufferOf(C.buffers, q.chan), WireOf(C.wires, q.chan), patience, false);
    C.(buffers := C.buffers[q.chan := if r.result.Got? then Put(r.buffer, q.sender, r.result.value) else r.buffer],
       wires := C.wires[q.chan := r.wire])
  }

  /** Every polled message is in its buffer. */
  predicate Polled(buffers: Buffers, polls: seq<QueueId>) {
    forall q | q in polls :: Buffered(BufferOf(buffers, q.chan), q.sender) != []
  }

  /** The operation is done: everything it waited for is in hand. */
  function Conclude(P: Program, logs: Logs, C: Replayer, t: Path): Replayer
    requires HasEntry(P, logs, C.threads, t)
    requires |Hand(C.hands, t)| == |NextPicks(P, logs, C.threads, t)|
  {
    var th := C.threads[t];
    var op := OpOf(P, t, th);
    var ms := Hand(C.hands, t);
    Replayer(ThreadsAfter(C.threads, t, op, NextEntry(P, logs, C.threads, t), ms),
             WiresAfter(C.wires, t, th, op, []),
             C.buffers,
             C.hands[t := []],
             HomeAfter(C.home, t, th, op, NextPicks(P, logs, C.threads, t), ms))
  }

  function TakeTurn(P: Program, logs: Logs, C: Replayer, turn: Turn): Replayer
    requires HasEntry(P, logs, C.threads, turn.thread)
    requires |Hand(C.hands, turn.thread)| <= |NextPicks(P, logs, C.threads, turn.thread)|
  {
    var picks := NextPicks(P, logs, C.threads, turn.thread);
    var polls := NextPolls(P, logs, C.threads, turn.thread);
    var n := |Hand(C.hands, turn.thread)|;
    if n < |picks| then Draw(C, turn.thread, picks[n], turn.patience)
    else if !Polled(C.buffers, polls) then Poll(C, polls[0], turn.patience)
    else Conclude(P, logs, C, turn.thread)
  }

  function Replays(P: Program, logs: Logs): Stepper<Replayer, Turn> {
    (C: Replayer, turn: Turn) =>
      if Admitted(P, logs, C.threads, C.home, turn.thread)
         && |Hand(C.hands, turn.thread)| <= |NextPicks(P, logs, C.threads, turn.thread)|
      then Some(TakeTurn(P, logs, C, turn))
      else None
  }

  // ---- The pending queues that a replay state stands for ----

  /** What a thread has drawn is the beginning of what its operation takes. */
  ghost predicate HandFits(P: Program, logs: Logs, S: State, t: Path, hand: seq<Message>) {
    && Admitted(P, logs, S.threads, S.home, t)
    && |hand| <= |NextPicks(P, logs, S.threads, t)|
    && Available(S.queues, NextPicks(P, logs, S.threads, t)[..|hand|])
    && Taken(S.queues, NextPicks(P, logs, S.threads, t)[..|hand|]) == hand
  }

  ghost predicate HandsFit(P: Program, logs: Logs, S: State, hands: Hands) {
    forall t | t in hands && hands[t] != [] :: HandFits(P, logs, S, t, hands[t])
  }

  /** The queues that a thread with this hand has drawn from. */
  ghost function Drawn(P: Program, logs: Logs, S: State, t: Path, hand: seq<Message>): (qs: seq<QueueId>)
    requires hand != [] ==> HandFits(P, logs, S, t, hand)
    ensures Available(S.queues, qs) && Taken(S.queues, qs) == hand
  {
    if hand == [] then [] else NextPicks(P, logs, S.threads, t)[..|hand|]
  }

  /** The pending queues without what the holder of `c` has in hand. */
  ghost function Undrawn(P: Program, logs: Logs, S: State, hands: Hands, c: DetChannelId): Queues
    requires HandsFit(P, logs, S, hands)
  {
    if c in S.home && S.home[c].Held? then
      Remaining(S.queues, Drawn(P, logs, S, S.home[c].holder, Hand(hands, S.home[c].holder)))
    else S.queues
  }

  ghost predicate QueuesMatch(P: Program, logs: Logs, C: Replayer, S: State)
    requires HandsFit(P, logs, S, C.hands)
  {
    forall c: DetChannelId, s: Path ::
      Pending(BufferOf(C.buffers, c), WireOf(C.wires, c), s) ==
      Queue(Undrawn(P, logs, S, C.hands, c), QueueId(c, s))
  }

  ghost predicate StandsFor(P: Program, logs: Logs, C: Replayer, S: State) {
    && C.threads == S.threads
    && C.home == S.home
    && HandsFit(P, logs, S, C.hands)
    && QueuesMatch(P, logs, C, S)
  }

  // ---- Drawing a message ----

  /** The receive loop does to the real channel what its specification says, and leaves other channels alone. */
  lemma DrawPending(C: Replayer, t: Path, q: QueueId, patience: nat, c: DetChannelId, s: Path)
    ensures var r := RecvExpected(q.sender, BufferOf(C.buffers, q.chan), WireOf(C.wires, q.chan), patience, false);
            var C' := Draw(C, t, q, patience);
            Pending(BufferOf(C.buffers, c), WireOf(C.wires, c), s) ==
            (if QueueId(c, s) == q && r.result.Got? then [r.result.value] else []) +
            Pending(BufferOf(C'.buffers, c), WireOf(C'.wires, c), s)
  {
    var b, w := BufferOf(C.buffers, q.chan), WireOf(C.wires, q.chan);
    RecvExpectedRefines(q.sender, b, w, patience, false);
    NothingAdded(Pending(b, w, s));
    NothingAdded(Pending(BufferOf(C.buffers, c), WireOf(C.wires, c), s));
    if c == q.chan {
      assert QueueId(c, s) == q <==> s == q.sender;
    }
  }

  lemma PollPending(C: Replayer, q: QueueId, patience: nat, c: DetChannelId, s: Path)
    requires Buffered(BufferOf(C.buffers, q.chan), q.sender) == []
    ensures var C' := Poll(C, q, patience);
            Pending(BufferOf(C'.buffers, c), WireOf(C'.wires, c), s) == Pending(BufferOf(C.buffers, c), WireOf(C.wires, c), s)
  {
    PollRefines(q.sender, BufferOf(C.buffers, q.chan), WireOf(C.wires, q.chan), patience, false);
  }

  /** Polling changes nothing that replay stands for. */
  lemma PollKeeps(P: Program, logs: Logs, C: Replayer, S: State, q: QueueId, patience: nat)
    requires StandsFor(P, logs, C, S) && Buffered(BufferOf(C.buffers, q.chan), q.sender) == []
    ensures StandsFor(P, logs, Poll(C, q, patience), S)
  {
    var C' := Poll(C, q, patience);
    forall c: DetChannelId, s: Path
      ensures Pending(BufferOf(C'.buffers, c), WireOf(C'.wires, c), s) ==
              Queue(Undrawn(P, logs, S, C.hands, c), QueueId(c, s))
    {
      PollPending(C, q, patience, c, s);
      assert Pending(BufferOf(C.buffers, c), WireOf(C.wires, c), s) ==
             Queue(Undrawn(P, logs, S, C.hands, c), QueueId(c, s));
    }
  }

  lemma DrawNothing(P: Program, logs: Logs, C: Replayer, S: State, t: Path, q: QueueId, patience: nat)
    requires StandsFor(P, logs, C, S)
    requires RecvExpected(q.sender, BufferOf(C.buffers, q.chan), WireOf(C.wires, q.chan), patience, false).result.Nothing?
    ensures StandsFor(P, logs, Draw(C, t, q, patience), S)
  {
    var C' := Draw(C, t, q, patience);
    assert C'.hands == C.hands;
    forall c: DetChannelId, s: Path
      ensures Pending(BufferOf(C'.buffers, c), WireOf(C'.wires, c), s) ==
              Queue(Undrawn(P, logs, S, C.hands, c), QueueId(c, s))
    {
      DrawPending(C, t, q, patience, c, s);
      SameRest([], Pending(BufferOf(C'.buffers, c), WireOf(C'.wires, c), s), Pending(BufferOf(C.buffers, c), WireOf(C.wires, c), s));
      assert Pending(BufferOf(C.buffers, c), WireOf(C.wires, c), s) ==
             Queue(Undrawn(P, logs, S, C.hands, c), QueueId(c, s));
    }
  }

  /** The queue that a thread draws from is a queue of a receiver that it holds. */
  lemma NextPickHeld(P: Program, logs: Logs, S: State, t: Path, i: nat)
    requires Admitted(P, logs, S.threads, S.home, t) && i < |NextPicks(P, logs, S.threads, t)|
    ensures IsHeld(S.home, t, NextPicks(P, logs, S.threads, t)[i].chan)
  {
    PicksHeld(S.home, OpOf(P, t, S.threads[t]), t, S.threads[t], NextEntry(P, logs, S.threads, t),
              NextPicks(P, logs, S.threads, t)[i]);
  }

  lemma DrawnHeld(P: Program, logs: Logs, S: State, t: Path, hand: seq<Message>, q: QueueId)
    requires hand != [] ==> HandFits(P, logs, S, t, hand)
    requires q in Drawn(P, logs, S, t, hand)
    ensures IsHeld(S.home, t, q.chan)
  {
    var qs := Drawn(P, logs, S, t, hand);
    var i :| 0 <= i < |qs| && qs[i] == q;
    NextPickHeld(P, logs, S, t, i);
  }

  /** A message drawn is the next one that the operation takes. */
  lemma HandGrows(P: Program, logs: Logs, S: State, t: Path, hand: seq<Message>, m: Message)
    requires Admitted(P, logs, S.threads, S.home, t)
    requires hand != [] ==> HandFits(P, logs, S, t, hand)
    requires |hand| < |NextPicks(P, logs, S.threads, t)|
    requires var rest := Queue(Remaining(S.queues, Drawn(P, logs, S, t, hand)), NextPicks(P, logs, S.threads, t)[|hand|]);
             rest != [] && rest[0] == m
    ensures HandFits(P, logs, S, t, hand + [m])
    ensures Remaining(S.queues, Drawn(P, logs, S, t, hand + [m])) ==
            Pop(Remaining(S.queues, Drawn(P, logs, S, t, hand)), NextPicks(P, logs, S.threads, t)[|hand|])
  {
    var picks := NextPicks(P, logs, S.threads, t);
    var q := picks[|hand|];
    var drawn := Drawn(P, logs, S, t, hand);
    var rest := Remaining(S.queues, drawn);
    TakeAppend(S.queues, drawn, [q]);
    assert picks[..|hand| + 1] == drawn + [q];
    assert Taken(rest, [q]) == [rest[q][0]] + Taken(Pop(rest, q), [q][1..]);
    assert Remaining(rest, [q]) == Remaining(Pop(rest, q), [q][1..]);
  }

  /** What the receive loop finds is at the head of the queue as it stands for this thread. */
  lemma FoundIsNext(P: Program, logs: Logs, C: Replayer, S: State, t: Path, q: QueueId, patience: nat, m: Message)
    requires StandsFor(P, logs, C, S) && IsHeld(S.home, t, q.chan)
    requires RecvExpected(q.sender, BufferOf(C.buffers, q.chan), WireOf(C.wires, q.chan), patience, false).result == Got(m)
    ensures var rest := Queue(Remaining(S.queues, Drawn(P, logs, S, t, Hand(C.hands, t))), q);
            rest != [] && rest[0] == m
  {
    DrawPending(C, t, q, patience, q.chan, q.sender);
    assert Pending(BufferOf(C.buffers, q.chan), WireOf(C.wires, q.chan), q.sender) ==
           Queue(Undrawn(P, logs, S, C.hands, q.chan), QueueId(q.chan, q.sender));
    assert QueueId(q.chan, q.sender) == q;
  }

  lemma DrawSomething(P: Program, logs: Logs, C: Replayer, S: State, t: Path, q: QueueId, patience: nat, m: Message)
    requires StandsFor(P, logs, C, S) && Admitted(P, logs, S.threads, S.home, t)
    requires |Hand(C.hands, t)| < |NextPicks(P, logs, S.threads, t)|
    requires q == NextPicks(P, logs, S.threads, t)[|Hand(C.hands, t)|]
    requires RecvExpected(q.sender, BufferOf(C.buffers, q.chan), WireOf(C.wires, q.chan), patience, false).result == Got(m)
    ensures StandsFor(P, logs, Draw(C, t, q, patience), S)
  {
    var hand := Hand(C.hands, t);
    var C' := Draw(C, t, q, patience);
    NextPickHeld(P, logs, S, t, |hand|);
    FoundIsNext(P, logs, C, S, t, q, patience, m);
    HandGrows(P, logs, S, t, hand, m);
    assert C'.hands == C.hands[t := hand + [m]];
    assert HandsFit(P, logs, S, C'.hands);
    forall c: DetChannelId, s: Path
      ensures Pending(BufferOf(C'.buffers, c), WireOf(C'.wires, c), s) ==
              Queue(Undrawn(P, logs, S, C'.hands, c), QueueId(c, s))
    {
      StillMatches(P, logs, C, S, t, q, patience, m, c, s);
    }
  }

  lemma StillMatches(P: Program, logs: Logs, C: Replayer, S: State, t: Path, q: QueueId, patience: nat, m: Message,
      c: DetChannelId, s: Path)
    requires StandsFor(P, logs, C, S) && Admitted(P, logs, S.threads, S.home, t)
    requires |Hand(C.hands, t)| < |NextPicks(P, logs, S.threads, t)|
    requires q == NextPicks(P, logs, S.threads, t)[|Hand(C.hands, t)|]
    requires RecvExpected(q.sender, BufferOf(C.buffers, q.chan), WireOf(C.wires, q.chan), patience, false).result == Got(m)
    requires HandsFit(P, logs, S, C.hands[t := Hand(C.hands, t) + [m]])
    ensures var C' := Draw(C, t, q, patience);
            Pending(BufferOf(C'.buffers, c), WireOf(C'.wires, c), s) ==
            Queue(Undrawn(P, logs, S, C.hands[t := Hand(C.hands, t) + [m]], c), QueueId(c, s))
  {
    NextPickHeld(P, logs, S, t, |Hand(C.hands, t)|);
    FoundIsNext(P, logs, C, S, t, q, patience, m);
    DrawPending(C, t, q, patience, c, s);
    assert Pending(BufferOf(C.buffers, c), WireOf(C.wires, c), s) ==
           Queue(Undrawn(P, logs, S, C.hands, c), QueueId(c, s));
    UndrawnAfterDraw(P, logs, S, C.hands, t, m, c, s);
    var C' := Draw(C, t, q, patience);
    SameRest(if QueueId(c, s) == q then [m] else [],
             Pending(BufferOf(C'.buffers, c), WireOf(C'.wires, c), s),
             Queue(Undrawn(P, logs, S, C.hands[t := Hand(C.hands, t) + [m]], c), QueueId(c, s)));
  }

  lemma SameRest<T>(a: seq<T>, b: seq<T>, c: seq<T>)
    requires a + b == a + c
    ensures b == c
  {
    assert (a + b)[|a|..] == b && (a + c)[|a|..] == c;
  }

  lemma UndrawnAfterDraw(P: Program, logs: Logs, S: State, hands: Hands, t: Path, m: Message, c: DetChannelId, s: Path)
    requires HandsFit(P, logs, S, hands) && Admitted(P, logs, S.threads, S.home, t)
    requires |Hand(hands, t)| < |NextPicks(P, logs, S.threads, t)|
    requires HandsFit(P, logs, S, hands[t := Hand(hands, t) + [m]])
    requires var q := NextPicks(P, logs, S.threads, t)[|Hand(hands, t)|];
             var rest := Queue(Remaining(S.queues, Drawn(P, logs, S, t, Hand(hands, t))), q);
             rest != [] && rest[0] == m && IsHeld(S.home, t, q.chan)
    ensures Queue(Undrawn(P, logs, S, hands, c), QueueId(c, s)) ==
            (if QueueId(c, s) == NextPicks(P, logs, S.threads, t)[|Hand(hands, t)|] then [m] else []) +
            Queue(Undrawn(P, logs, S, hands[t := Hand(hands, t) + [m]], c), QueueId(c, s))
  {
    HandGrows(P, logs, S, t, Hand(hands, t), m);
    var hands' := hands[t := Hand(hands, t) + [m]];
    if c in S.home && S.home[c] == Held(t) {
      var before := Remaining(S.queues, Drawn(P, logs, S, t, Hand(hands, t)));
      var q := NextPicks(P, logs, S.threads, t)[|Hand(hands, t)|];
      assert Undrawn(P, logs, S, hands', c) == Pop(before, q) && Undrawn(P, logs, S, hands, c) == before;
      assert QueueId(c, s) == q ==> before[q] == [m] + before[q][1..];
    } else {
      assert Undrawn(P, logs, S, hands', c) == Undrawn(P, logs, S, hands, c);
    }
  }
}
