/**
 Steps of different threads commute, so every order of replay leads to the same end.

 `Diamond` is the local statement; `Join` makes a global one of it: whatever schedule replay has
 followed, the rest of some schedule takes it exactly where the recorded one leads.
 */
module ReplayOrder {
  import opened Confluence
  import opened Identities
  import opened RecordLog
  import opened Protocol

  // ---- Taking and sending ----

  lemma PopPush(queues: Queues, p: QueueId, q: QueueId, m: Message)
    requires Queue(queues, p) != []
    ensures Pop(Push(queues, q, m), p) == Push(Pop(queues, p), q, m)
  {
    if p == q {
      assert (queues[p] + [m])[1..] == queues[p][1..] + [m];
    }
  }

  lemma {:induction false} TakePush(queues: Queues, picks: seq<QueueId>, q: QueueId, m: Message)
    requires Available(queues, picks)
    ensures Available(Push(queues, q, m), picks)
    ensures Taken(Push(queues, q, m), picks) == Taken(queues, picks)
    ensures Remaining(Push(queues, q, m), picks) == Push(Remaining(queues, picks), q, m)
  {
    if picks != [] {
      PopPush(queues, picks[0], q, m);
      TakePush(Pop(queues, picks[0]), picks[1..], q, m);
    }
  }

  lemma {:induction false} TakePop(queues: Queues, picks: seq<QueueId>, q: QueueId)
    requires Available(queues, picks) && Queue(queues, q) != [] && q !in picks
    ensures Available(Pop(queues, q), picks)
    ensures Taken(Pop(queues, q), picks) == Taken(queues, picks)
    ensures Queue(Remaining(queues, picks), q) == Queue(queues, q)
    ensures Remaining(Pop(queues, q), picks) == Pop(Remaining(queues, picks), q)
  {
    if picks != [] {
      assert Pop(Pop(queues, q), picks[0]) == Pop(Pop(queues, picks[0]), q);
      TakePop(Pop(queues, picks[0]), picks[1..], q);
    }
  }

  lemma {:induction false} TakeTake(queues: Queues, ps: seq<QueueId>, qs: seq<QueueId>)
    requires Available(queues, ps) && Available(queues, qs)
    requires forall q | q in ps :: q !in qs
    ensures Available(Remaining(queues, ps), qs)
    ensures Taken(Remaining(queues, ps), qs) == Taken(queues, qs)
    ensures Available(Remaining(queues, qs), ps)
    ensures Remaining(Remaining(queues, ps), qs) == Remaining(Remaining(queues, qs), ps)
  {
    if ps != [] {
      TakePop(queues, qs, ps[0]);
      TakeTake(Pop(queues, ps[0]), ps[1..], qs);
    }
  }

  lemma {:induction false} TakeAppend(queues: Queues, ps: seq<QueueId>, qs: seq<QueueId>)
    requires Available(queues, ps)
    ensures Available(queues, ps + qs) <==> Available(Remaining(queues, ps), qs)
    ensures Available(queues, ps + qs) ==>
              && Taken(queues, ps + qs) == Taken(queues, ps) + Taken(Remaining(queues, ps), qs)
              && Remaining(queues, ps + qs) == Remaining(Remaining(queues, ps), qs)
  {
    if ps == [] {
      assert ps + qs == qs;
    } else {
      assert (ps + qs)[0] == ps[0] && (ps + qs)[1..] == ps[1..] + qs;
      TakeAppend(Pop(queues, ps[0]), ps[1..], qs);
    }
  }

  lemma {:induction false} TakeElsewhere(queues: Queues, picks: seq<QueueId>, q: QueueId)
    requires Available(queues, picks) && q !in picks
    ensures Queue(Remaining(queues, picks), q) == Queue(queues, q)
  {
    if picks != [] {
      TakeElsewhere(Pop(queues, picks[0]), picks[1..], q);
    }
  }

  lemma {:induction false} TakenFromQueues(queues: Queues, picks: seq<QueueId>, i: nat)
    requires Available(queues, picks) && i < |picks|
    ensures picks[i] in queues && Taken(queues, picks)[i] in queues[picks[i]]
  {
    if i > 0 {
      TakenFromQueues(Pop(queues, picks[0]), picks[1..], i - 1);
    }
  }

  // ---- Who may touch what ----

  lemma {:induction false} BatchPicksUsed(rs: seq<Metadata>, events: seq<IpcSelectEvent>, q: QueueId)
    requires FirstMissing(events, |rs|).Fine? && q in BatchPicks(rs, events)
    ensures q.chan in set r | r in rs :: r.id
  {
    if q !in BatchPicks(rs, events[1..]) {
      assert rs[events[0].index] in rs;
    } else {
      BatchPicksUsed(rs, events[1..], q);
    }
  }

  /** A step takes messages only from receivers that the thread holds. */
  lemma PicksHeld(home: Home, op: Op, t: Path, th: Thread, e: RecordEntry, q: QueueId)
    requires Check(op, t, th, e).Fine? && MayAttempt(home, t, op) && q in Picks(op, t, th, e)
    ensures IsHeld(home, t, q.chan)
  {
    if op.IpcSelectOp? {
      BatchPicksUsed(op.receivers, e.event.events, q);
    }
    assert q.chan in Uses(op);
  }

  /** So does a poll. */
  lemma PollsHeld(home: Home, op: Op, t: Path, th: Thread, e: RecordEntry, q: QueueId)
    requires Check(op, t, th, e).Fine? && MayAttempt(home, t, op) && q in Polls(op, t, th, e)
    ensures IsHeld(home, t, q.chan)
  {
    assert op.receivers[e.event.select.index] in op.receivers;
    assert q.chan in Uses(op);
  }

  /** A receiver that moves in a step of `t` was held by `t`, is new, or was on its way to a receiver held by `t`. */
  ghost predicate Claims(home: Home, t: Path, c: DetChannelId) {
    || IsHeld(home, t, c)
    || (c !in home && c.thread == t)
    || (c in home && home[c].InFlight? && IsHeld(home, t, home[c].queue.chan))
  }

  lemma MoversClaimed(S: State, op: Op, t: Path, e: RecordEntry, ms: seq<Message>, c: DetChannelId)
    requires Inv(S) && t in S.threads
    requires Check(op, t, S.threads[t], e).Fine? && MayAttempt(S.home, t, op)
    requires |ms| == |Picks(op, t, S.threads[t], e)|
    requires c in Movers(S.home, t, S.threads[t], op, Picks(op, t, S.threads[t], e), ms)
    ensures Claims(S.home, t, c)
  {
    var th := S.threads[t];
    var picks := Picks(op, t, th, e);
    if op.Send? || op.Spawn? {
      assert c in Uses(op);
    } else if !op.NewChannel? {
      var i :| 0 <= i < |picks| && S.home[c] == InFlight(picks[i], ms[i].stamp);
      PicksHeld(S.home, op, t, th, e, picks[i]);
    }
  }

  lemma ClaimsExclusive(home: Home, t: Path, u: Path, c: DetChannelId)
    requires t != u && Claims(home, t, c)
    ensures !Claims(home, u, c)
  {
  }

  // ---- A step of another thread changes nothing for this one ----

  /** What thread `u` is about to do with entry `f`. */
  ghost predicate SameAttempt(P: Program, S: State, S': State, u: Path, f: RecordEntry)
    requires Ready(P, S, u, f)
  {
    && u in S'.threads && S'.threads[u] == S.threads[u]
    && Ready(P, S', u, f)
    && var th := S.threads[u];
       var op := OpOf(P, u, th);
       var picks := Picks(op, u, th, f);
       var ms := Taken(S.queues, picks);
    && Taken(S'.queues, picks) == ms
    && Movers(S'.home, u, th, op, picks, ms) == Movers(S.home, u, th, op, picks, ms)
  }

  lemma AttemptAllowed(P: Program, S: State, t: Path, e: RecordEntry, u: Path, f: RecordEntry)
    requires Inv(S) && Ready(P, S, t, e) && Ready(P, S, u, f) && t != u
    ensures MayAttempt(Apply(P, S, t, e).home, u, OpOf(P, u, S.threads[u]))
  {
    var th := S.threads[t];
    var op := OpOf(P, t, th);
    var ms := Taken(S.queues, Picks(op, t, th, e));
    var home' := Apply(P, S, t, e).home;
    forall c | c in Uses(OpOf(P, u, S.threads[u]))
      ensures IsHeld(home', u, c)
    {
      assert IsHeld(S.home, u, c);
      if c in Movers(S.home, t, th, op, Picks(op, t, th, e), ms) {
        MoversClaimed(S, op, t, e, ms, c);
        ClaimsExclusive(S.home, t, u, c);
      }
    }
  }

  lemma PicksDisjoint(P: Program, S: State, t: Path, e: RecordEntry, u: Path, f: RecordEntry, q: QueueId)
    requires Ready(P, S, t, e) && Ready(P, S, u, f) && t != u
    requires q in Picks(OpOf(P, t, S.threads[t]), t, S.threads[t], e)
    ensures q !in Picks(OpOf(P, u, S.threads[u]), u, S.threads[u], f)
  {
    PicksHeld(S.home, OpOf(P, t, S.threads[t]), t, S.threads[t], e, q);
    if q in Picks(OpOf(P, u, S.threads[u]), u, S.threads[u], f) {
      PicksHeld(S.home, OpOf(P, u, S.threads[u]), u, S.threads[u], f, q);
    }
  }

  /** Queues of receivers that `u` holds: a step of another thread leaves their heads where they are. */
  lemma HeldQueuesUndisturbed(P: Program, S: State, t: Path, e: RecordEntry, u: Path, qs: seq<QueueId>)
    requires Ready(P, S, t, e) && t != u && Available(S.queues, qs)
    requires forall q | q in qs :: IsHeld(S.home, u, q.chan)
    ensures var th := S.threads[t];
            var op := OpOf(P, t, th);
            var after := Apply(P, S, t, e).queues;
            && Available(after, qs)
            && Taken(after, qs) == Taken(S.queues, qs)
            && Available(Remaining(S.queues, qs), Picks(op, t, th, e))
            && Remaining(after, qs) == QueuesAfter(Remaining(S.queues, qs), t, th, op, Picks(op, t, th, e))
  {
    var th := S.threads[t];
    var op := OpOf(P, t, th);
    var ps := Picks(op, t, th, e);
    if op.Send? {
      TakePush(S.queues, qs, QueueId(op.to.id, t), Message(op.payload, |th.history|));
    } else {
      forall q | q in ps
        ensures q !in qs
      {
        PicksHeld(S.home, op, t, th, e, q);
      }
      TakeTake(S.queues, ps, qs);
      TakeTake(S.queues, qs, ps);
    }
  }

  /** A receiver that moves in a step of `t` is not one that arrives with a message taken by `u`, before or after. */
  lemma NotDelivered(P: Program, S: State, t: Path, e: RecordEntry, u: Path, c: DetChannelId, q: QueueId, m: Message)
    requires Inv(S) && Ready(P, S, t, e) && t != u
    requires IsHeld(S.home, u, q.chan) && q in S.queues && m in S.queues[q]
    requires var op := OpOf(P, t, S.threads[t]);
             var picks := Picks(op, t, S.threads[t], e);
             c in Movers(S.home, t, S.threads[t], op, picks, Taken(S.queues, picks))
    ensures c in S.home ==> S.home[c] != InFlight(q, m.stamp)
    ensures Destination(t, S.threads[t], OpOf(P, t, S.threads[t])) != InFlight(q, m.stamp)
  {
    var op := OpOf(P, t, S.threads[t]);
    MoversClaimed(S, op, t, e, Taken(S.queues, Picks(op, t, S.threads[t], e)), c);
    ClaimsExclusive(S.home, t, u, c);
  }

  /** Moving these receivers there has nothing to do with the receivers that arrive with these messages. */
  ghost predicate Apart(home: Home, movers: set<DetChannelId>, dest: Place, picks: seq<QueueId>, ms: seq<Message>)
    requires |picks| == |ms|
  {
    forall c, i | c in movers && 0 <= i < |picks| ::
      && (c in home ==> home[c] != InFlight(picks[i], ms[i].stamp))
      && dest != InFlight(picks[i], ms[i].stamp)
  }

  lemma RehomeElsewhere(home: Home, movers: set<DetChannelId>, dest: Place, picks: seq<QueueId>, ms: seq<Message>)
    requires |picks| == |ms| && Apart(home, movers, dest, picks, ms)
    ensures Delivered(Rehome(home, movers, dest), picks, ms) == Delivered(home, picks, ms)
  {
  }

  lemma MoversApart(P: Program, S: State, t: Path, e: RecordEntry, u: Path, qs: seq<QueueId>)
    requires Inv(S) && Ready(P, S, t, e) && t != u && Available(S.queues, qs)
    requires forall q | q in qs :: IsHeld(S.home, u, q.chan)
    ensures var op := OpOf(P, t, S.threads[t]);
            var ps := Picks(op, t, S.threads[t], e);
            Apart(S.home, Movers(S.home, t, S.threads[t], op, ps, Taken(S.queues, ps)),
                  Destination(t, S.threads[t], op), qs, Taken(S.queues, qs))
  {
    var op := OpOf(P, t, S.threads[t]);
    var ps := Picks(op, t, S.threads[t], e);
    forall c, i | c in Movers(S.home, t, S.threads[t], op, ps, Taken(S.queues, ps)) && 0 <= i < |qs|
      ensures c in S.home ==> S.home[c] != InFlight(qs[i], Taken(S.queues, qs)[i].stamp)
      ensures Destination(t, S.threads[t], op) != InFlight(qs[i], Taken(S.queues, qs)[i].stamp)
    {
      TakenFromQueues(S.queues, qs, i);
      NotDelivered(P, S, t, e, u, c, qs[i], Taken(S.queues, qs)[i]);
    }
  }

  lemma OtherStepHarmless(P: Program, S: State, t: Path, e: RecordEntry, u: Path, f: RecordEntry)
    requires Inv(S) && Ready(P, S, t, e) && Ready(P, S, u, f) && t != u
    ensures SameAttempt(P, S, Apply(P, S, t, e), u, f)
  {
    var op, th := OpOf(P, t, S.threads[t]), S.threads[t];
    var ps := Picks(op, t, th, e);
    var qs := Picks(OpOf(P, u, S.threads[u]), u, S.threads[u], f);
    forall q | q in qs
      ensures IsHeld(S.home, u, q.chan)
    {
      PicksHeld(S.home, OpOf(P, u, S.threads[u]), u, S.threads[u], f, q);
    }
    var polls := Polls(OpOf(P, u, S.threads[u]), u, S.threads[u], f);
    forall q | q in polls
      ensures IsHeld(S.home, u, q.chan)
    {
      PollsHeld(S.home, OpOf(P, u, S.threads[u]), u, S.threads[u], f, q);
    }
    ThreadsGrow(P, S, t, e, u);
    AttemptAllowed(P, S, t, e, u, f);
    HeldQueuesUndisturbed(P, S, t, e, u, polls);
    HeldQueuesUndisturbed(P, S, t, e, u, qs);
    MoversApart(P, S, t, e, u, qs);
    RehomeElsewhere(S.home, Movers(S.home, t, th, op, ps, Taken(S.queues, ps)), Destination(t, th, op),
                    qs, Taken(S.queues, qs));
  }

  // ---- The diamond ----

  lemma UpdatesCommute<K, V>(m: map<K, V>, t: K, a: V, x: map<K, V>, u: K, b: V, y: map<K, V>)
    requires t != u && t !in y && u !in x && x.Keys !! y.Keys
    ensures m[t := a] + x + map[u := b] + y == m[u := b] + y + map[t := a] + x
  {
  }

  lemma UpdateIsAddition<K, V>(m: map<K, V>, t: K, a: V)
    ensures m[t := a] == m + map[t := a]
  {
  }

  lemma ThreadsCommute(S: State, t: Path, op: Op, e: RecordEntry, ms: seq<Message>, u: Path, oq: Op, f: RecordEntry,
      ns: seq<Message>)
    requires Inv(S) && t in S.threads && u in S.threads && t != u
    ensures ThreadsAfter(ThreadsAfter(S.threads, t, op, e, ms), u, oq, f, ns) ==
            ThreadsAfter(ThreadsAfter(S.threads, u, oq, f, ns), t, op, e, ms)
  {
    var m, tt, uu := S.threads, S.threads[t], S.threads[u];
    ChildIsNew(S, t);
    ChildIsNew(S, u);
    var x, y := ChildId(t, tt), ChildId(u, uu);
    assert x[..|x| - 1] == t && y[..|y| - 1] == u;
    var m1, m2 := ThreadsAfter(m, t, op, e, ms), ThreadsAfter(m, u, oq, f, ns);
    assert m1[u] == uu && m2[t] == tt;
    UpdatesCommute(m, t, Advanced(op, tt, e, ms), Born(op, t, tt), u, Advanced(oq, uu, f, ns), Born(oq, u, uu));
    UpdateIsAddition(m1, u, Advanced(oq, uu, f, ns));
    UpdateIsAddition(m2, t, Advanced(op, tt, e, ms));
  }

  lemma QueuesCommute(queues: Queues, t: Path, th: Thread, op: Op, ps: seq<QueueId>, u: Path, uh: Thread, oq: Op,
      qs: seq<QueueId>)
    requires Available(queues, ps) && Available(queues, qs) && t != u
    requires forall q | q in ps :: q !in qs
    requires (op.Send? ==> ps == []) && (oq.Send? ==> qs == [])
    ensures Available(QueuesAfter(queues, t, th, op, ps), qs) && Available(QueuesAfter(queues, u, uh, oq, qs), ps)
    ensures QueuesAfter(QueuesAfter(queues, t, th, op, ps), u, uh, oq, qs) ==
            QueuesAfter(QueuesAfter(queues, u, uh, oq, qs), t, th, op, ps)
  {
    if op.Send? && !oq.Send? {
      TakePush(queues, qs, QueueId(op.to.id, t), Message(op.payload, |th.history|));
    } else if oq.Send? && !op.Send? {
      TakePush(queues, ps, QueueId(oq.to.id, u), Message(oq.payload, |uh.history|));
    } else if !op.Send? && !oq.Send? {
      TakeTake(queues, ps, qs);
      TakeTake(queues, qs, ps);
    }
  }

  lemma RehomeCommutes(home: Home, a: set<DetChannelId>, d: Place, b: set<DetChannelId>, f: Place)
    requires a !! b
    ensures Rehome(Rehome(home, a, d), b, f) == Rehome(Rehome(home, b, f), a, d)
  {
  }

  lemma MoversDisjoint(P: Program, S: State, t: Path, e: RecordEntry, u: Path, f: RecordEntry, ms: seq<Message>,
      ns: seq<Message>)
    requires Inv(S) && Ready(P, S, t, e) && Ready(P, S, u, f) && t != u
    requires |ms| == |Picks(OpOf(P, t, S.threads[t]), t, S.threads[t], e)|
    requires |ns| == |Picks(OpOf(P, u, S.threads[u]), u, S.threads[u], f)|
    ensures var op, oq := OpOf(P, t, S.threads[t]), OpOf(P, u, S.threads[u]);
            var ps, qs := Picks(op, t, S.threads[t], e), Picks(oq, u, S.threads[u], f);
            Movers(S.home, t, S.threads[t], op, ps, ms) !! Movers(S.home, u, S.threads[u], oq, qs, ns)
  {
    var op, oq := OpOf(P, t, S.threads[t]), OpOf(P, u, S.threads[u]);
    forall c | c in Movers(S.home, t, S.threads[t], op, Picks(op, t, S.threads[t], e), ms)
      ensures c !in Movers(S.home, u, S.threads[u], oq, Picks(oq, u, S.threads[u], f), ns)
    {
      MoversClaimed(S, op, t, e, ms, c);
      ClaimsExclusive(S.home, t, u, c);
      if c in Movers(S.home, u, S.threads[u], oq, Picks(oq, u, S.threads[u], f), ns) {
        MoversClaimed(S, oq, u, f, ns, c);
      }
    }
  }

  /** Two threads that can both step can step in either order, with the same entries, to the same state. */
  lemma Diamond(P: Program, S: State, t: Path, e: RecordEntry, u: Path, f: RecordEntry)
    requires Inv(S) && Ready(P, S, t, e) && Ready(P, S, u, f) && t != u
    ensures Ready(P, Apply(P, S, t, e), u, f) && Ready(P, Apply(P, S, u, f), t, e)
    ensures Apply(P, Apply(P, S, t, e), u, f) == Apply(P, Apply(P, S, u, f), t, e)
  {
    OtherStepHarmless(P, S, t, e, u, f);
    OtherStepHarmless(P, S, u, f, t, e);
    var th, uh := S.threads[t], S.threads[u];
    var op, oq := OpOf(P, t, th), OpOf(P, u, uh);
    var ps, qs := Picks(op, t, th, e), Picks(oq, u, uh, f);
    var ms, ns := Taken(S.queues, ps), Taken(S.queues, qs);
    forall q | q in ps
      ensures q !in qs
    {
      PicksDisjoint(P, S, t, e, u, f, q);
    }
    ThreadsCommute(S, t, op, e, ms, u, oq, f, ns);
    QueuesCommute(S.queues, t, th, op, ps, u, uh, oq, qs);
    MoversDisjoint(P, S, t, e, u, f, ms, ns);
    RehomeCommutes(S.home, Movers(S.home, t, th, op, ps, ms), Destination(t, th, op),
                   Movers(S.home, u, uh, oq, qs, ns), Destination(u, uh, oq));
  }

  // ---- From one step to whole runs ----

  lemma EntryUnmoved(P: Program, logs: Logs, S: State, t: Path, u: Path)
    requires Inv(S) && CanStep(P, logs, S, t) && HasEntry(P, logs, S.threads, u) && t != u
    ensures HasEntry(P, logs, Next(P, logs, S, t).threads, u)
    ensures NextEntry(P, logs, Next(P, logs, S, t).threads, u) == NextEntry(P, logs, S.threads, u)
  {
    ThreadsGrow(P, S, t, NextEntry(P, logs, S.threads, t), u);
  }

  lemma NextCommutes(P: Program, logs: Logs, S: State, t: Path, u: Path)
    requires Inv(S) && CanStep(P, logs, S, t) && CanStep(P, logs, S, u) && t != u
    ensures CanStep(P, logs, Next(P, logs, S, t), u) && CanStep(P, logs, Next(P, logs, S, u), t)
    ensures Next(P, logs, Next(P, logs, S, t), u) == Next(P, logs, Next(P, logs, S, u), t)
  {
    EntryUnmoved(P, logs, S, t, u);
    EntryUnmoved(P, logs, S, u, t);
    Diamond(P, S, t, NextEntry(P, logs, S.threads, t), u, NextEntry(P, logs, S.threads, u));
  }

  lemma SteppingKeeps(P: Program, logs: Logs)
    ensures Keeps(Stepping(P, logs), Inv)
  {
    var step := Stepping(P, logs);
    forall S, t | Inv(S) && step(S, t).Some?
      ensures Inv(step(S, t).value)
    {
      StepKeepsInv(P, S, t, NextEntry(P, logs, S.threads, t));
    }
  }

  lemma SteppingCommutes(P: Program, logs: Logs)
    ensures Commutes(Stepping(P, logs), Inv)
  {
    var step := Stepping(P, logs);
    forall S, t, u | Inv(S) && t != u && step(S, t).Some? && step(S, u).Some?
      ensures step(step(S, t).value, u).Some?
      ensures step(step(S, u).value, t).Some?
      ensures step(step(S, t).value, u).value == step(step(S, u).value, t).value
    {
      NextCommutes(P, logs, S, t, u);
    }
  }

  lemma {:induction false} RunGrows(P: Program, logs: Logs, S: State, schedule: seq<Path>, u: Path)
    requires Inv(S) && Runs(Stepping(P, logs), S, schedule) && u in S.threads
    ensures var S' := After(Stepping(P, logs), S, schedule);
            && u in S'.threads
            && S.threads[u].arg == S'.threads[u].arg
            && S.threads[u].history <= S'.threads[u].history
            && (S.threads[u].history == S'.threads[u].history ==> S.threads[u] == S'.threads[u])
    decreases |schedule|
  {
    if schedule != [] {
      var t := schedule[0];
      var e := NextEntry(P, logs, S.threads, t);
      ThreadsGrow(P, S, t, e, u);
      StepKeepsInv(P, S, t, e);
      if u == t {
        ChildIsNew(S, t);
        assert |Apply(P, S, t, e).threads[t].history| == |S.threads[t].history| + 1;
      }
      RunGrows(P, logs, Apply(P, S, t, e), schedule[1..], u);
    }
  }

  /** A thread with nothing left to follow stays as it is. */
  lemma {:induction false} WithoutEntry(P: Program, logs: Logs, S: State, schedule: seq<Path>, t: Path)
    requires Inv(S) && Runs(Stepping(P, logs), S, schedule) && t in S.threads && !HasEntry(P, logs, S.threads, t)
    ensures t in After(Stepping(P, logs), S, schedule).threads
    ensures After(Stepping(P, logs), S, schedule).threads[t] == S.threads[t]
    decreases |schedule|
  {
    if schedule != [] {
      var u := schedule[0];
      var e := NextEntry(P, logs, S.threads, u);
      ThreadsGrow(P, S, u, e, t);
      StepKeepsInv(P, S, u, e);
      WithoutEntry(P, logs, Apply(P, S, u, e), schedule[1..], t);
    }
  }

  /** What a thread holds changes only in its own steps. */
  lemma HoldingsUnmoved(P: Program, S: State, u: Path, e: RecordEntry, t: Path, c: DetChannelId)
    requires Inv(S) && Ready(P, S, u, e) && t in S.threads && t != u
    ensures IsHeld(Apply(P, S, u, e).home, t, c) <==> IsHeld(S.home, t, c)
  {
    var op := OpOf(P, u, S.threads[u]);
    var ps := Picks(op, u, S.threads[u], e);
    ChildIsNew(S, u);
    if c in Movers(S.home, u, S.threads[u], op, ps, Taken(S.queues, ps)) {
      MoversClaimed(S, op, u, e, Taken(S.queues, ps), c);
    }
  }

  /** A thread whose log is read to the end in some run has nothing wrong with its next entry now, and has the
      receivers that it needs for it: all it may still wait for is messages. */
  lemma {:induction false} NextEntryFits(P: Program, logs: Logs, S: State, schedule: seq<Path>, t: Path)
    requires Inv(S) && Runs(Stepping(P, logs), S, schedule)
    requires Exhausted(P, logs, After(Stepping(P, logs), S, schedule).threads)
    requires HasEntry(P, logs, S.threads, t)
    ensures Check(OpOf(P, t, S.threads[t]), t, S.threads[t], NextEntry(P, logs, S.threads, t)).Fine?
    ensures MayAttempt(S.home, t, OpOf(P, t, S.threads[t]))
    decreases |schedule|
  {
    if schedule == [] {
      assert false;
    } else if schedule[0] != t {
      var u := schedule[0];
      var e := NextEntry(P, logs, S.threads, u);
      ThreadsGrow(P, S, u, e, t);
      StepKeepsInv(P, S, u, e);
      NextEntryFits(P, logs, Apply(P, S, u, e), schedule[1..], t);
      forall c | c in Uses(OpOf(P, t, S.threads[t]))
        ensures IsHeld(S.home, t, c)
      {
        HoldingsUnmoved(P, S, u, e, t, c);
      }
    }
  }
}
