/**
 Replay with wires and buffers refines replay on pending queues, and what that gives: a replay sees what
 the record saw, finds nothing to object to in its logs, and can always finish.
 */
module Refinement {
  import opened Confluence
  import opened Identities
  import opened Protocol
  import opened Recording
  import opened RecordLog
  import opened ReplayEngine
  import opened Replaying
  import opened ReplayOrder

  // ---- Concluding an operation ----

  /** The thread has everything in hand that its operation takes. */
  ghost predicate Full(P: Program, logs: Logs, C: Replayer, S: State, t: Path) {
    && StandsFor(P, logs, C, S)
    && Admitted(P, logs, S.threads, S.home, t)
    && |Hand(C.hands, t)| == |NextPicks(P, logs, S.threads, t)|
    && Polled(C.buffers, NextPolls(P, logs, S.threads, t))
  }

  /** A polled message is pending, so that the queue has one. */
  lemma PolledIsAvailable(P: Program, logs: Logs, C: Replayer, S: State, t: Path)
    requires Full(P, logs, C, S, t)
    ensures Available(S.queues, NextPolls(P, logs, S.threads, t))
  {
    var polls := NextPolls(P, logs, S.threads, t);
    if polls != [] {
      var q := polls[0];
      var op, e := OpOf(P, t, S.threads[t]), NextEntry(P, logs, S.threads, t);
      PollsHeld(S.home, op, t, S.threads[t], e, q);
      NothingDrawn(P, logs, S, C.hands, q.chan);
      assert Pending(BufferOf(C.buffers, q.chan), WireOf(C.wires, q.chan), q.sender) ==
             Queue(Undrawn(P, logs, S, C.hands, q.chan), QueueId(q.chan, q.sender));
      assert QueueId(q.chan, q.sender) == q;
    }
  }

  lemma FullIsReady(P: Program, logs: Logs, C: Replayer, S: State, t: Path)
    requires Full(P, logs, C, S, t)
    ensures CanStep(P, logs, S, t)
    ensures Drawn(P, logs, S, t, Hand(C.hands, t)) == NextPicks(P, logs, S.threads, t)
    ensures Taken(S.queues, NextPicks(P, logs, S.threads, t)) == Hand(C.hands, t)
    ensures Conclude(P, logs, C, t).threads == Next(P, logs, S, t).threads
    ensures Conclude(P, logs, C, t).home == Next(P, logs, S, t).home
  {
    var picks := NextPicks(P, logs, S.threads, t);
    assert picks[..|picks|] == picks;
    PolledIsAvailable(P, logs, C, S, t);
  }

  /** Another thread's hand goes on fitting. */
  lemma OtherHandFits(P: Program, logs: Logs, S: State, t: Path, u: Path, hand: seq<Message>)
    requires Inv(S) && CanStep(P, logs, S, t) && t != u && hand != [] && HandFits(P, logs, S, u, hand)
    ensures HandFits(P, logs, Next(P, logs, S, t), u, hand)
    ensures Drawn(P, logs, Next(P, logs, S, t), u, hand) == Drawn(P, logs, S, u, hand)
  {
    var e := NextEntry(P, logs, S.threads, t);
    ThreadsGrow(P, S, t, e, u);
    var qs := Drawn(P, logs, S, u, hand);
    forall q | q in qs
      ensures IsHeld(S.home, u, q.chan)
    {
      DrawnHeld(P, logs, S, u, hand, q);
    }
    HeldQueuesUndisturbed(P, S, t, e, u, qs);
    forall c | c in Uses(OpOf(P, u, S.threads[u]))
      ensures IsHeld(Apply(P, S, t, e).home, u, c)
    {
      HoldingsUnmoved(P, S, t, e, u, c);
    }
  }

  lemma HandsFitAfter(P: Program, logs: Logs, S: State, t: Path, hands: Hands)
    requires Inv(S) && CanStep(P, logs, S, t) && HandsFit(P, logs, S, hands)
    ensures HandsFit(P, logs, Next(P, logs, S, t), hands[t := []])
  {
    var hands' := hands[t := []];
    forall u | u in hands' && hands'[u] != []
      ensures HandFits(P, logs, Next(P, logs, S, t), u, hands'[u])
    {
      OtherHandFits(P, logs, S, t, u, hands[u]);
    }
  }

  /** What a step adds to a queue that it does not take from. */
  lemma QueueAfterStep(queues: Queues, t: Path, th: Thread, op: Op, picks: seq<QueueId>, q: QueueId)
    requires Available(queues, picks) && q !in picks
    ensures Queue(QueuesAfter(queues, t, th, op, picks), q) ==
            Queue(queues, q) + if op.Send? && q == QueueId(op.to.id, t) then [Message(op.payload, |th.history|)] else []
  {
    if !op.Send? {
      TakeElsewhere(queues, picks, q);
    }
  }

  /** What the step of `t` adds to the queue of `s` on `c`. */
  ghost function Added(P: Program, S: State, t: Path, c: DetChannelId, s: Path): seq<Message>
    requires t in S.threads
  {
    var op := OpOf(P, t, S.threads[t]);
    if op.Send? && op.to.id == c && t == s then [Message(op.payload, |S.threads[t].history|)] else []
  }

  /** Channels that the stepping thread holds: what is in hand was all it took. */
  lemma UndrawnOwn(P: Program, logs: Logs, S: State, hands: Hands, t: Path, c: DetChannelId, s: Path)
    requires Inv(S) && CanStep(P, logs, S, t) && HandsFit(P, logs, S, hands) && IsHeld(S.home, t, c)
    requires Drawn(P, logs, S, t, Hand(hands, t)) == NextPicks(P, logs, S.threads, t)
    ensures Queue(Next(P, logs, S, t).queues, QueueId(c, s)) ==
            Queue(Undrawn(P, logs, S, hands, c), QueueId(c, s)) + Added(P, S, t, c, s)
  {
    var op := OpOf(P, t, S.threads[t]);
    if op.Send? {
      QueueAfterStep(S.queues, t, S.threads[t], op, [], QueueId(c, s));
    }
  }

  lemma NotPicked(P: Program, logs: Logs, S: State, t: Path, c: DetChannelId, s: Path)
    requires Admitted(P, logs, S.threads, S.home, t) && !IsHeld(S.home, t, c)
    ensures QueueId(c, s) !in NextPicks(P, logs, S.threads, t)
  {
    var picks := NextPicks(P, logs, S.threads, t);
    if QueueId(c, s) in picks {
      var i :| 0 <= i < |picks| && picks[i] == QueueId(c, s);
      NextPickHeld(P, logs, S, t, i);
    }
  }

  /** Channels that nobody holds, or whose holder has nothing in hand. */
  lemma UndrawnFree(P: Program, logs: Logs, S: State, t: Path, c: DetChannelId, s: Path)
    requires Inv(S) && CanStep(P, logs, S, t) && !IsHeld(S.home, t, c)
    ensures Queue(Next(P, logs, S, t).queues, QueueId(c, s)) == Queue(S.queues, QueueId(c, s)) + Added(P, S, t, c, s)
  {
    NotPicked(P, logs, S, t, c, s);
    QueueAfterStep(S.queues, t, S.threads[t], OpOf(P, t, S.threads[t]), NextPicks(P, logs, S.threads, t), QueueId(c, s));
  }

  /** Channels that another thread holds: what it has in hand stays what it was. */
  lemma UndrawnOther(P: Program, logs: Logs, S: State, t: Path, u: Path, c: DetChannelId, s: Path, qs: seq<QueueId>)
    requires Inv(S) && CanStep(P, logs, S, t) && t != u && IsHeld(S.home, u, c)
    requires Available(S.queues, qs) && forall q | q in qs :: IsHeld(S.home, u, q.chan)
    ensures Available(Next(P, logs, S, t).queues, qs)
    ensures Queue(Remaining(Next(P, logs, S, t).queues, qs), QueueId(c, s)) ==
            Queue(Remaining(S.queues, qs), QueueId(c, s)) + Added(P, S, t, c, s)
  {
    var e := NextEntry(P, logs, S.threads, t);
    HeldQueuesUndisturbed(P, S, t, e, u, qs);
    NotPicked(P, logs, S, t, c, s);
    QueueAfterStep(Remaining(S.queues, qs), t, S.threads[t], OpOf(P, t, S.threads[t]),
                   NextPicks(P, logs, S.threads, t), QueueId(c, s));
  }

  /** The holder after the step: the other threads keep what they hold, and get nothing. */
  lemma HolderAfter(P: Program, logs: Logs, S: State, t: Path, c: DetChannelId)
    requires Inv(S) && CanStep(P, logs, S, t)
    ensures var home' := Next(P, logs, S, t).home;
            if c in S.home && S.home[c].Held? && S.home[c].holder != t
            then c in home' && home'[c] == S.home[c]
            else c in home' && home'[c].Held? && home'[c].holder != t ==> home'[c].holder !in S.threads
  {
    var e := NextEntry(P, logs, S.threads, t);
    var op := OpOf(P, t, S.threads[t]);
    var ps := Picks(op, t, S.threads[t], e);
    ChildIsNew(S, t);
    if c in Movers(S.home, t, S.threads[t], op, ps, Taken(S.queues, ps)) {
      MoversClaimed(S, op, t, e, Taken(S.queues, ps), c);
    }
  }

  lemma UndrawnOfOther(P: Program, logs: Logs, S: State, t: Path, u: Path, hand: seq<Message>, c: DetChannelId, s: Path)
    requires Inv(S) && CanStep(P, logs, S, t) && t != u && IsHeld(S.home, u, c)
    requires hand != [] ==> HandFits(P, logs, S, u, hand)
    ensures hand != [] ==> HandFits(P, logs, Next(P, logs, S, t), u, hand)
    ensures Queue(Remaining(Next(P, logs, S, t).queues, Drawn(P, logs, Next(P, logs, S, t), u, hand)), QueueId(c, s)) ==
            Queue(Remaining(S.queues, Drawn(P, logs, S, u, hand)), QueueId(c, s)) + Added(P, S, t, c, s)
  {
    forall q | q in Drawn(P, logs, S, u, hand)
      ensures IsHeld(S.home, u, q.chan)
    {
      DrawnHeld(P, logs, S, u, hand, q);
    }
    UndrawnOther(P, logs, S, t, u, c, s, Drawn(P, logs, S, u, hand));
    if hand != [] {
      OtherHandFits(P, logs, S, t, u, hand);
    }
  }

  lemma StrangersHaveNothing(P: Program, logs: Logs, S: State, hands: Hands, u: Path)
    requires HandsFit(P, logs, S, hands) && u !in S.threads
    ensures Hand(hands, u) == []
  {
  }

  lemma NothingDrawn(P: Program, logs: Logs, S: State, hands: Hands, c: DetChannelId)
    requires HandsFit(P, logs, S, hands)
    requires c in S.home && S.home[c].Held? ==> Hand(hands, S.home[c].holder) == []
    ensures Undrawn(P, logs, S, hands, c) == S.queues
  {
  }

  /** Channels that the stepping thread holds or nobody does: afterwards their holder has nothing in hand. */
  lemma UndrawnOfNone(P: Program, logs: Logs, S: State, hands: Hands, t: Path, c: DetChannelId)
    requires Inv(S) && CanStep(P, logs, S, t) && HandsFit(P, logs, S, hands)
    requires c in S.home && S.home[c].Held? ==> S.home[c].holder == t
    requires HandsFit(P, logs, Next(P, logs, S, t), hands[t := []])
    ensures Undrawn(P, logs, Next(P, logs, S, t), hands[t := []], c) == Next(P, logs, S, t).queues
  {
    HolderAfter(P, logs, S, t, c);
    var home' := Next(P, logs, S, t).home;
    if c in home' && home'[c].Held? && home'[c].holder != t {
      StrangersHaveNothing(P, logs, S, hands, home'[c].holder);
    }
    NothingDrawn(P, logs, Next(P, logs, S, t), hands[t := []], c);
  }

  lemma UndrawnElsewhere(P: Program, logs: Logs, S: State, hands: Hands, t: Path, u: Path, c: DetChannelId, s: Path)
    requires Inv(S) && CanStep(P, logs, S, t) && HandsFit(P, logs, S, hands) && t != u && IsHeld(S.home, u, c)
    requires HandsFit(P, logs, Next(P, logs, S, t), hands[t := []])
    ensures Queue(Undrawn(P, logs, Next(P, logs, S, t), hands[t := []], c), QueueId(c, s)) ==
            Queue(Undrawn(P, logs, S, hands, c), QueueId(c, s)) + Added(P, S, t, c, s)
  {
    HolderAfter(P, logs, S, t, c);
    UndrawnOfOther(P, logs, S, t, u, Hand(hands, u), c, s);
    assert Hand(hands[t := []], u) == Hand(hands, u);
  }

  lemma UndrawnAfter(P: Program, logs: Logs, S: State, hands: Hands, t: Path, c: DetChannelId, s: Path)
    requires Inv(S) && CanStep(P, logs, S, t) && HandsFit(P, logs, S, hands)
    requires Drawn(P, logs, S, t, Hand(hands, t)) == NextPicks(P, logs, S.threads, t)
    requires HandsFit(P, logs, Next(P, logs, S, t), hands[t := []])
    ensures Queue(Undrawn(P, logs, Next(P, logs, S, t), hands[t := []], c), QueueId(c, s)) ==
            Queue(Undrawn(P, logs, S, hands, c), QueueId(c, s)) + Added(P, S, t, c, s)
  {
    if c in S.home && S.home[c].Held? && S.home[c].holder != t {
      UndrawnElsewhere(P, logs, S, hands, t, S.home[c].holder, c, s);
    } else {
      UndrawnOfNone(P, logs, S, hands, t, c);
      if IsHeld(S.home, t, c) {
        UndrawnOwn(P, logs, S, hands, t, c, s);
      } else {
        UndrawnFree(P, logs, S, t, c, s);
      }
    }
  }

  /** Concluding an operation is one step on pending queues. */
  lemma ConcludeRefines(P: Program, logs: Logs, C: Replayer, S: State, t: Path)
    requires Inv(S) && Full(P, logs, C, S, t)
    ensures CanStep(P, logs, S, t)
    ensures StandsFor(P, logs, Conclude(P, logs, C, t), Next(P, logs, S, t))
  {
    FullIsReady(P, logs, C, S, t);
    HandsFitAfter(P, logs, S, t, C.hands);
    var C', S' := Conclude(P, logs, C, t), Next(P, logs, S, t);
    forall c: DetChannelId, s: Path
      ensures Pending(BufferOf(C'.buffers, c), WireOf(C'.wires, c), s) ==
              Queue(Undrawn(P, logs, S', C'.hands, c), QueueId(c, s))
    {
      PendingAfterConclude(P, logs, C, t, c, s);
      UndrawnAfter(P, logs, S, C.hands, t, c, s);
      assert Pending(BufferOf(C.buffers, c), WireOf(C.wires, c), s) ==
             Queue(Undrawn(P, logs, S, C.hands, c), QueueId(c, s));
    }
  }

  lemma PendingAfterConclude(P: Program, logs: Logs, C: Replayer, t: Path, c: DetChannelId, s: Path)
    requires HasEntry(P, logs, C.threads, t)
    requires |Hand(C.hands, t)| == |NextPicks(P, logs, C.threads, t)|
    ensures var C' := Conclude(P, logs, C, t);
            var op := OpOf(P, t, C.threads[t]);
            Pending(BufferOf(C'.buffers, c), WireOf(C'.wires, c), s) ==
            Pending(BufferOf(C.buffers, c), WireOf(C.wires, c), s) +
            if op.Send? && op.to.id == c && t == s then [Message(op.payload, |C.threads[t].history|)] else []
  {
    var op := OpOf(P, t, C.threads[t]);
    if op.Send? && op.to.id == c {
      Arrival(BufferOf(C.buffers, c), WireOf(C.wires, c), DetMessage(t, Message(op.payload, |C.threads[t].history|)), s);
    }
  }

  // ---- Runs ----

  lemma DrawKeeps(P: Program, logs: Logs, C: Replayer, S: State, t: Path, patience: nat)
    requires StandsFor(P, logs, C, S) && Admitted(P, logs, S.threads, S.home, t)
    requires |Hand(C.hands, t)| < |NextPicks(P, logs, S.threads, t)|
    ensures StandsFor(P, logs, Draw(C, t, NextPicks(P, logs, S.threads, t)[|Hand(C.hands, t)|], patience), S)
  {
    var q := NextPicks(P, logs, S.threads, t)[|Hand(C.hands, t)|];
    var r := RecvExpected(q.sender, BufferOf(C.buffers, q.chan), WireOf(C.wires, q.chan), patience, false);
    if r.result.Got? {
      DrawSomething(P, logs, C, S, t, q, patience, r.result.value);
    } else {
      DrawNothing(P, logs, C, S, t, q, patience);
    }
  }

  /** What the turn of an admitted thread is. */
  lemma TurnTaken(P: Program, logs: Logs, C: Replayer, turn: Turn)
    requires Replays(P, logs)(C, turn).Some?
    ensures var t := turn.thread;
            var picks, polls, n := NextPicks(P, logs, C.threads, t), NextPolls(P, logs, C.threads, t), |Hand(C.hands, t)|;
            && Admitted(P, logs, C.threads, C.home, t) && n <= |picks|
            && Replays(P, logs)(C, turn).value ==
               if n < |picks| then Draw(C, t, picks[n], turn.patience)
               else if !Polled(C.buffers, polls) then Poll(C, polls[0], turn.patience)
               else Conclude(P, logs, C, t)
  {
  }

  /** One turn of replay is at most one step on pending queues, by the same thread. */
  lemma TurnRefines(P: Program, logs: Logs, C: Replayer, S: State, turn: Turn) returns (S': State)
    requires Inv(S) && StandsFor(P, logs, C, S) && Replays(P, logs)(C, turn).Some?
    ensures StandsFor(P, logs, Replays(P, logs)(C, turn).value, S')
    ensures S' == S || Stepping(P, logs)(S, turn.thread) == Some(S')
  {
    TurnTaken(P, logs, C, turn);
    var t := turn.thread;
    S' := S;
    if |Hand(C.hands, t)| < |NextPicks(P, logs, C.threads, t)| {
      DrawKeeps(P, logs, C, S, t, turn.patience);
    } else if !Polled(C.buffers, NextPolls(P, logs, C.threads, t)) {
      PollKeeps(P, logs, C, S, NextPolls(P, logs, C.threads, t)[0], turn.patience);
    } else {
      S' := ConcludeTurn(P, logs, C, S, t);
    }
  }

  lemma ConcludeTurn(P: Program, logs: Logs, C: Replayer, S: State, t: Path) returns (S': State)
    requires Inv(S) && StandsFor(P, logs, C, S) && Admitted(P, logs, C.threads, C.home, t)
    requires |Hand(C.hands, t)| == |NextPicks(P, logs, C.threads, t)| && Polled(C.buffers, NextPolls(P, logs, C.threads, t))
    ensures StandsFor(P, logs, Conclude(P, logs, C, t), S')
    ensures Stepping(P, logs)(S, t) == Some(S')
  {
    ConcludeRefines(P, logs, C, S, t);
    S' := Next(P, logs, S, t);
  }

  /** Every replay run is a run on pending queues; the schedule lists the threads as they complete operations. */
  lemma {:induction false} ReplayRefines(P: Program, logs: Logs, C: Replayer, S: State, turns: seq<Turn>)
    returns (schedule: seq<Path>)
    requires Inv(S) && StandsFor(P, logs, C, S) && Runs(Replays(P, logs), C, turns)
    ensures Runs(Stepping(P, logs), S, schedule)
    ensures StandsFor(P, logs, After(Replays(P, logs), C, turns), After(Stepping(P, logs), S, schedule))
    decreases |turns|
  {
    if turns == [] {
      schedule := [];
    } else {
      var turn := turns[0];
      var S' := TurnRefines(P, logs, C, S, turn);
      if S' == S {
        schedule := ReplayRefines(P, logs, Replays(P, logs)(C, turn).value, S, turns[1..]);
      } else {
        StepKeepsInv(P, S, turn.thread, NextEntry(P, logs, S.threads, turn.thread));
        var rest := ReplayRefines(P, logs, Replays(P, logs)(C, turn).value, S', turns[1..]);
        schedule := [turn.thread] + rest;
        RunFirst(Stepping(P, logs), S, S', turn.thread, rest);
      }
    }
  }
}
