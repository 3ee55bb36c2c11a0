/**
 Where receivers are.

 A receiver is held by one thread, or it travels: it is on its way with a message that has been sent and not received.
 Here the travels are told from the states before and after a step, for pending queues and for FIFO channels alike,
 and over runs: every receiver that was ever created is somewhere, and none is without its message.
 */
module Receivers {
  import opened Confluence
  import opened Following
  import opened Identities
  import opened Promises
  import opened Protocol
  import opened Recording
  import opened RecordLog
  import opened Refinement
  import opened ReplayEngine
  import opened Replaying
  import opened ReplayOrder

  /** What is on its way in each queue. */
  type Traffic = QueueId -> seq<Message>

  function InQueues(queues: Queues): Traffic {
    (q: QueueId) => Queue(queues, q)
  }

  function OnWires(wires: Wires): Traffic {
    (q: QueueId) => From(WireOf(wires, q.chan), q.sender)
  }

  /** A message with this stamp is among them. */
  ghost predicate Carries(ms: seq<Message>, stamp: nat) {
    exists i :: 0 <= i < |ms| && ms[i].stamp == stamp
  }

  /** Messages of one queue have growing stamps, all of earlier steps of the sender. */
  ghost predicate Stamped(threads: map<Path, Thread>, traffic: Traffic) {
    forall q :: StampsGrow(traffic(q)) && SentBefore(threads, q.sender, traffic(q))
  }

  ghost predicate StampsGrow(ms: seq<Message>) {
    forall i, j | 0 <= i < j < |ms| :: ms[i].stamp < ms[j].stamp
  }

  /** Every receiver that has been created is held by a thread or travels with a message. */
  ghost predicate Placed(threads: map<Path, Thread>, home: Home, traffic: Traffic) {
    && (forall c :: c in home <==> c.thread in threads && 1 <= c.number <= threads[c.thread].channels)
    && (forall c | c in home ::
          match home[c]
          case Held(t) => t in threads
          case InFlight(q, stamp) => Carries(traffic(q), stamp))
  }

  // ---- Taking messages ----

  /** `s'` is `s` without one message. */
  ghost predicate TakesOne(s: seq<Message>, m: Message, s': seq<Message>) {
    exists i: nat :: i < |s| && s[i] == m && s' == Without(s, i)
  }

  /** The picks have taken these messages, and nothing else has changed. */
  ghost predicate Takes(before: Traffic, picks: seq<QueueId>, ms: seq<Message>, after: Traffic)
    requires |picks| == |ms|
  {
    forall q ::
      && StampsGrow(after(q))
      && (forall m | m in before(q) :: m in after(q) || Took(picks, ms, q, m.stamp))
      && (forall m | m in after(q) :: m in before(q) && !Took(picks, ms, q, m.stamp))
  }

  ghost predicate Took(picks: seq<QueueId>, ms: seq<Message>, q: QueueId, stamp: nat)
    requires |picks| == |ms|
  {
    exists i :: 0 <= i < |picks| && picks[i] == q && ms[i].stamp == stamp
  }

  lemma WithoutAt(s: seq<Message>, i: nat, s': seq<Message>)
    requires i < |s| && s' == Without(s, i)
    ensures |s'| == |s| - 1
    ensures forall k | 0 <= k < |s'| :: s'[k] == s[if k < i then k else k + 1]
  {
  }

  lemma StillGrows(s: seq<Message>, i: nat, s': seq<Message>)
    requires StampsGrow(s) && i < |s| && s' == Without(s, i)
    ensures StampsGrow(s')
  {
    WithoutAt(s, i, s');
    forall a, b | 0 <= a < b < |s'|
      ensures s'[a].stamp < s'[b].stamp
    {
      assert s'[a] == s[if a < i then a else a + 1] && s'[b] == s[if b < i then b else b + 1];
    }
  }

  lemma LeftIn(s: seq<Message>, i: nat, s': seq<Message>, x: Message)
    requires StampsGrow(s) && i < |s| && s' == Without(s, i) && x in s && x.stamp != s[i].stamp
    ensures x in s'
  {
    WithoutAt(s, i, s');
    var j :| 0 <= j < |s| && s[j] == x;
    assert s'[if j < i then j else j - 1] == x;
  }

  lemma TakenOut(s: seq<Message>, i: nat, s': seq<Message>, x: Message)
    requires StampsGrow(s) && i < |s| && s' == Without(s, i) && x in s'
    ensures x in s && x.stamp != s[i].stamp
  {
    WithoutAt(s, i, s');
    var k :| 0 <= k < |s'| && s'[k] == x;
    assert x == s[if k < i then k else k + 1];
  }

  /** The one with its stamp is gone, and all others are left. */
  lemma OneTaken(s: seq<Message>, m: Message, s': seq<Message>, x: Message)
    requires StampsGrow(s) && TakesOne(s, m, s')
    ensures StampsGrow(s')
    ensures x in s' <==> x in s && x.stamp != m.stamp
  {
    var i: nat :| i < |s| && s[i] == m && s' == Without(s, i);
    StillGrows(s, i, s');
    if x in s && x.stamp != m.stamp {
      LeftIn(s, i, s', x);
    }
    if x in s' {
      TakenOut(s, i, s', x);
    }
  }

  lemma TookFirst(p: QueueId, m: Message, picks: seq<QueueId>, ms: seq<Message>, q: QueueId, stamp: nat)
    requires |picks| == |ms|
    ensures Took([p] + picks, [m] + ms, q, stamp) <==> (p == q && m.stamp == stamp) || Took(picks, ms, q, stamp)
  {
    if Took(picks, ms, q, stamp) {
      var i :| 0 <= i < |picks| && picks[i] == q && ms[i].stamp == stamp;
      assert ([p] + picks)[i + 1] == q && ([m] + ms)[i + 1].stamp == stamp;
    }
    if p == q && m.stamp == stamp {
      assert ([p] + picks)[0] == q && ([m] + ms)[0].stamp == stamp;
    }
    if Took([p] + picks, [m] + ms, q, stamp) {
      var i :| 0 <= i < |[p] + picks| && ([p] + picks)[i] == q && ([m] + ms)[i].stamp == stamp;
      if i > 0 {
        assert picks[i - 1] == q && ms[i - 1].stamp == stamp;
      }
    }
  }

  lemma TakesFirst(before: Traffic, mid: Traffic, after: Traffic, p: QueueId, m: Message, picks: seq<QueueId>,
      ms: seq<Message>)
    requires |picks| == |ms| && forall q :: StampsGrow(before(q))
    requires TakesOne(before(p), m, mid(p)) && forall q | q != p :: mid(q) == before(q)
    requires Takes(mid, picks, ms, after)
    ensures Takes(before, [p] + picks, [m] + ms, after)
  {
    forall q
      ensures forall x | x in before(q) :: x in after(q) || Took([p] + picks, [m] + ms, q, x.stamp)
      ensures forall x | x in after(q) :: x in before(q) && !Took([p] + picks, [m] + ms, q, x.stamp)
    {
      forall x
        ensures x in before(q) ==> x in after(q) || Took([p] + picks, [m] + ms, q, x.stamp)
        ensures x in after(q) ==> x in before(q) && !Took([p] + picks, [m] + ms, q, x.stamp)
      {
        TookFirst(p, m, picks, ms, q, x.stamp);
        OneTaken(before(p), m, mid(p), x);
      }
    }
  }

  lemma PopTakes(queues: Queues, p: QueueId, q: QueueId)
    requires Queue(queues, p) != []
    ensures if q == p then TakesOne(Queue(queues, p), queues[p][0], Queue(Pop(queues, p), p))
            else Queue(Pop(queues, p), q) == Queue(queues, q)
  {
    assert Without(queues[p], 0) == queues[p][1..];
  }

  lemma {:induction false} QueuesTake(queues: Queues, picks: seq<QueueId>)
    requires Available(queues, picks) && forall q :: StampsGrow(InQueues(queues)(q))
    ensures Takes(InQueues(queues), picks, Taken(queues, picks), InQueues(Remaining(queues, picks)))
  {
    if picks != [] {
      var p, rest := picks[0], Pop(queues, picks[0]);
      var m := queues[p][0];
      forall q
        ensures if q == p then TakesOne(InQueues(queues)(q), m, InQueues(rest)(q))
                else InQueues(rest)(q) == InQueues(queues)(q)
        ensures StampsGrow(InQueues(rest)(q))
      {
        PopTakes(queues, p, q);
        if q == p {
          OneTaken(InQueues(queues)(q), m, InQueues(rest)(q), m);
        }
      }
      QueuesTake(rest, picks[1..]);
      assert picks == [p] + picks[1..];
      TakesFirst(InQueues(queues), InQueues(rest), InQueues(Remaining(rest, picks[1..])), p, m, picks[1..],
                 Taken(rest, picks[1..]));
    }
  }

  lemma {:induction false} WireWithout(wire: Wire<Message>, k: nat, s: Path)
    requires k < |wire|
    ensures if wire[k].sender == s then TakesOne(From(wire, s), wire[k].value, From(Without(wire, k), s))
            else From(Without(wire, k), s) == From(wire, s)
  {
    var front, back := wire[..k], wire[k + 1..];
    FromAppend(front, back, s);
    assert wire == front + ([wire[k]] + back);
    FromAppend(front, [wire[k]] + back, s);
    FromAppend([wire[k]], back, s);
    FromOne(wire[k], s);
    if wire[k].sender == s {
      var i := |From(front, s)|;
      assert From(wire, s)[i] == wire[k].value;
      assert Without(From(wire, s), i) == From(front, s) + From(back, s);
    }
  }

  lemma {:induction false} WiresTake(wires: Wires, ahead: seq<RecordEntry>, picks: seq<QueueId>)
    requires InOrder(wires, ahead, picks) && forall q :: StampsGrow(OnWires(wires)(q))
    ensures Takes(OnWires(wires), picks, Read(wires, ahead, picks), OnWires(Unread(wires, ahead, picks)))
  {
    if picks != [] {
      var p, k := picks[0], ReservedOn(ahead, picks[0].chan);
      var rest, m := Dequeue(wires, p.chan, k), wires[p.chan][k].value;
      forall q
        ensures if q == p then TakesOne(OnWires(wires)(q), m, OnWires(rest)(q)) else OnWires(rest)(q) == OnWires(wires)(q)
        ensures StampsGrow(OnWires(rest)(q))
      {
        if q.chan == p.chan {
          WireWithout(wires[p.chan], k, q.sender);
        }
        if q == p {
          OneTaken(OnWires(wires)(q), m, OnWires(rest)(q), m);
        }
      }
      WiresTake(rest, ahead, picks[1..]);
      assert picks == [p] + picks[1..];
      TakesFirst(OnWires(wires), OnWires(rest), OnWires(Unread(rest, ahead, picks[1..])), p, m, picks[1..],
                 Read(rest, ahead, picks[1..]));
    }
  }

  // ---- One step ----

  /** What a step does to the traffic. */
  ghost predicate Shifts(before: Traffic, t: Path, th: Thread, op: Op, picks: seq<QueueId>, ms: seq<Message>,
      after: Traffic)
    requires |picks| == |ms|
  {
    if op.Send? then
      picks == [] &&
      forall q :: after(q) == before(q) + if q == QueueId(op.to.id, t) then [Message(op.payload, |th.history|)] else []
    else Takes(before, picks, ms, after)
  }

  /** Where receiver `c` is after a step of `t`, from where it was before. */
  ghost predicate Travels(home: Home, t: Path, th: Thread, op: Op, after: Traffic, home': Home, c: DetChannelId) {
    if op.Send? && c in op.moved then
      && c in home && home[c] == Held(t)
      && c in home' && home'[c] == InFlight(QueueId(op.to.id, t), |th.history|)
    else if op.Spawn? && c in op.childGets then
      && c in home && home[c] == Held(t)
      && c in home' && home'[c] == Held(t + [th.children + 1])
    else if op.NewChannel? && c == DetChannelId(t, th.channels + 1) then
      c !in home && c in home' && home'[c] == Held(t)
    else if c in home && home[c].InFlight? && !Carries(after(home[c].queue), home[c].stamp) then
      c in home' && home'[c] == Held(t)
    else
      (c in home' <==> c in home) && (c in home ==> home'[c] == home[c])
  }

  /** A message that was on its way has been taken, or is still on its way. */
  lemma TakenOrThere(before: Traffic, picks: seq<QueueId>, ms: seq<Message>, after: Traffic, q: QueueId, stamp: nat)
    requires |picks| == |ms| && Takes(before, picks, ms, after) && Carries(before(q), stamp)
    ensures Took(picks, ms, q, stamp) <==> !Carries(after(q), stamp)
  {
    var i :| 0 <= i < |before(q)| && before(q)[i].stamp == stamp;
    if !Took(picks, ms, q, stamp) {
      assert before(q)[i] in after(q);
    }
  }

  lemma StepTravels(threads: map<Path, Thread>, home: Home, before: Traffic, t: Path, op: Op, picks: seq<QueueId>,
      ms: seq<Message>, after: Traffic, c: DetChannelId)
    requires t in threads && |picks| == |ms| && MayAttempt(home, t, op) && Placed(threads, home, before)
    requires Shifts(before, t, threads[t], op, picks, ms, after)
    requires op.Spawn? || op.NewChannel? ==> picks == []
    ensures Travels(home, t, threads[t], op, after, HomeAfter(home, t, threads[t], op, picks, ms), c)
  {
    var th := threads[t];
    assert c in Uses(op) ==> IsHeld(home, t, c);
    if c in home && home[c].InFlight? {
      var q, stamp := home[c].queue, home[c].stamp;
      assert Carries(before(q), stamp);
      if op.Send? {
        var i :| 0 <= i < |before(q)| && before(q)[i].stamp == stamp;
        assert after(q)[i].stamp == stamp;
      } else {
        TakenOrThere(before, picks, ms, after, q, stamp);
        assert c in Delivered(home, picks, ms) <==> Took(picks, ms, q, stamp);
      }
    }
  }

  lemma StepStamps(threads: map<Path, Thread>, before: Traffic, t: Path, op: Op, e: RecordEntry, picks: seq<QueueId>,
      ms: seq<Message>, after: Traffic)
    requires t in threads && |picks| == |ms| && ChildId(t, threads[t]) !in threads && Stamped(threads, before)
    requires Shifts(before, t, threads[t], op, picks, ms, after)
    ensures Stamped(ThreadsAfter(threads, t, op, e, ms), after)
  {
    var threads' := ThreadsAfter(threads, t, op, e, ms);
    forall q
      ensures StampsGrow(after(q)) && SentBefore(threads', q.sender, after(q))
    {
      assert StampsGrow(before(q)) && SentBefore(threads, q.sender, before(q));
      assert forall u | u in threads :: u in threads' && |threads[u].history| <= |threads'[u].history|;
      if op.Send? {
        assert |threads'[t].history| == |threads[t].history| + 1;
        assert forall m | m in after(q) :: m in before(q) || (q.sender == t && m.stamp == |threads[t].history|);
        assert forall i | 0 <= i < |before(q)| :: after(q)[i] == before(q)[i] && before(q)[i] in before(q);
      }
    }
  }

  lemma StepPlaces(threads: map<Path, Thread>, home: Home, before: Traffic, t: Path, op: Op, e: RecordEntry,
      picks: seq<QueueId>, ms: seq<Message>, after: Traffic)
    requires t in threads && |picks| == |ms| && ChildId(t, threads[t]) !in threads
    requires MayAttempt(home, t, op) && Placed(threads, home, before)
    requires Shifts(before, t, threads[t], op, picks, ms, after)
    requires op.Spawn? || op.NewChannel? ==> picks == []
    ensures Placed(ThreadsAfter(threads, t, op, e, ms), HomeAfter(home, t, threads[t], op, picks, ms), after)
  {
    var th, child := threads[t], ChildId(t, threads[t]);
    var threads', home' := ThreadsAfter(threads, t, op, e, ms), HomeAfter(home, t, th, op, picks, ms);
    assert threads'[t].channels == th.channels + if op.NewChannel? then 1 else 0;
    assert op.Spawn? ==> threads'[child].channels == 0;
    forall c: DetChannelId
      ensures c in home' <==> c.thread in threads' && 1 <= c.number <= threads'[c.thread].channels
      ensures c in home' ==>
                match home'[c]
                case Held(u) => u in threads'
                case InFlight(q, stamp) => Carries(after(q), stamp)
    {
      StepTravels(threads, home, before, t, op, picks, ms, after, c);
      if op.Send? && c in op.moved {
        var q := QueueId(op.to.id, t);
        assert after(q)[|before(q)|].stamp == |th.history|;
      }
    }
  }

  // ---- Record runs ----

  ghost predicate RecordPlaced(R: Recorder) {
    RecordInv(R) && Stamped(R.threads, OnWires(R.wires)) && Placed(R.threads, R.home, OnWires(R.wires))
  }

  lemma SentOn(wires: Wires, c: DetChannelId, m: DetMessage<Message>, q: QueueId)
    ensures OnWires(wires[c := WireOf(wires, c) + [m]])(q)
         == OnWires(wires)(q) + if q == QueueId(c, m.sender) then [m.value] else []
  {
    NothingAdded(OnWires(wires)(q));
    if q.chan == c {
      FromAppend(WireOf(wires, c), [m], q.sender);
      FromOne(m, q.sender);
    }
  }

  lemma RecordShifts(R: Recorder, t: Path, op: Op, e: RecordEntry)
    requires t in R.threads && Check(op, t, R.threads[t], e).Fine? && Stamped(R.threads, OnWires(R.wires))
    requires InOrder(R.wires, Ahead(op, R.threads[t]), Picks(op, t, R.threads[t], e))
    ensures var picks := Picks(op, t, R.threads[t], e);
            Shifts(OnWires(R.wires), t, R.threads[t], op, picks, Read(R.wires, Ahead(op, R.threads[t]), picks),
                   OnWires(WiresAfter(R.wires, t, R.threads[t], op, picks)))
  {
    var th := R.threads[t];
    var picks := Picks(op, t, th, e);
    if op.Send? {
      forall q {
        SentOn(R.wires, op.to.id, DetMessage(t, Message(op.payload, |th.history|)), q);
      }
    } else {
      WiresTake(R.wires, Ahead(op, th), picks);
    }
  }

  /** The travels of a receiver in a recording step. */
  lemma RecordTravels(P: Program, R: Recorder, l: Logged, c: DetChannelId)
    requires RecordPlaced(R) && Recordings(P)(R, l).Some?
    ensures var R' := Recordings(P)(R, l).value;
            && RecordPlaced(R')
            && Travels(R.home, l.thread, R.threads[l.thread], OpOf(P, l.thread, R.threads[l.thread]), OnWires(R'.wires),
                       R'.home, c)
  {
    var R', op, _ := RecordStep(P, R, l);
    var t, e := l.thread, l.entry;
    var picks := Picks(op, t, R.threads[t], e);
    var ms := Read(R.wires, Ahead(op, R.threads[t]), picks);
    RecordShifts(R, t, op, e);
    StepTravels(R.threads, R.home, OnWires(R.wires), t, op, picks, ms, OnWires(R'.wires), c);
    StepStamps(R.threads, OnWires(R.wires), t, op, e, picks, ms, OnWires(R'.wires));
    StepPlaces(R.threads, R.home, OnWires(R.wires), t, op, e, picks, ms, OnWires(R'.wires));
  }

  lemma {:induction false} RecordKeepsPlaces(P: Program, R: Recorder, trace: seq<Logged>)
    requires RecordPlaced(R) && Runs(Recordings(P), R, trace)
    ensures RecordPlaced(After(Recordings(P), R, trace))
    decreases |trace|
  {
    if trace != [] {
      RecordTravels(P, R, trace[0], FAKE_CHANNEL);
      RecordKeepsPlaces(P, Recordings(P)(R, trace[0]).value, trace[1..]);
    }
  }

  /**
   No receiver is lost in a record run: those in existence are the ones that threads have created, each of them is
   held by a thread or in a message, and that message is still on its channel.
   */
  lemma NoReceiverIsLost(P: Program, arg: Payload, trace: seq<Logged>, c: DetChannelId)
    requires Recorded(P, arg, trace)
    ensures var R := RecordEnd(P, arg, trace);
            && (c in R.home <==> c.thread in R.threads && 1 <= c.number <= R.threads[c.thread].channels)
            && (c in R.home ==>
                  match R.home[c]
                  case Held(t) => t in R.threads
                  case InFlight(q, stamp) =>
                    exists i :: 0 <= i < |From(WireOf(R.wires, q.chan), q.sender)|
                                && From(WireOf(R.wires, q.chan), q.sender)[i].stamp == stamp)
  {
    StartInv(arg);
    RecordKeepsPlaces(P, Start(arg), trace);
  }

  // ---- Replays ----

  ghost predicate StatePlaced(S: State) {
    Inv(S) && Stamped(S.threads, InQueues(S.queues)) && Placed(S.threads, S.home, InQueues(S.queues))
  }

  lemma QueuesShift(S: State, t: Path, op: Op, e: RecordEntry)
    requires t in S.threads && Check(op, t, S.threads[t], e).Fine? && Stamped(S.threads, InQueues(S.queues))
    requires Available(S.queues, Picks(op, t, S.threads[t], e))
    ensures var picks := Picks(op, t, S.threads[t], e);
            Shifts(InQueues(S.queues), t, S.threads[t], op, picks, Taken(S.queues, picks),
                   InQueues(QueuesAfter(S.queues, t, S.threads[t], op, picks)))
  {
    if op.Send? {
      var q := QueueId(op.to.id, t);
      forall p | p != q
        ensures Queue(S.queues, p) + [] == Queue(S.queues, p)
      {
      }
    } else {
      QueuesTake(S.queues, Picks(op, t, S.threads[t], e));
    }
  }

  /** The travels of a receiver in a step that the log describes. */
  lemma ReceiversTravel(P: Program, S: State, t: Path, e: RecordEntry, c: DetChannelId)
    requires StatePlaced(S) && Ready(P, S, t, e)
    ensures var S' := Apply(P, S, t, e);
            && StatePlaced(S')
            && Travels(S.home, t, S.threads[t], OpOf(P, t, S.threads[t]), InQueues(S'.queues), S'.home, c)
  {
    var op, S' := OpOf(P, t, S.threads[t]), Apply(P, S, t, e);
    var picks := Picks(op, t, S.threads[t], e);
    var ms := Taken(S.queues, picks);
    ChildIsNew(S, t);
    StepKeepsInv(P, S, t, e);
    QueuesShift(S, t, op, e);
    StepTravels(S.threads, S.home, InQueues(S.queues), t, op, picks, ms, InQueues(S'.queues), c);
    StepStamps(S.threads, InQueues(S.queues), t, op, e, picks, ms, InQueues(S'.queues));
    StepPlaces(S.threads, S.home, InQueues(S.queues), t, op, e, picks, ms, InQueues(S'.queues));
  }

  lemma {:induction false} ReplayKeepsPlaces(P: Program, logs: Logs, C: Replayer, S: State, turns: seq<Turn>)
    returns (S': State)
    requires StatePlaced(S) && StandsFor(P, logs, C, S) && Runs(Replays(P, logs), C, turns)
    ensures StatePlaced(S') && StandsFor(P, logs, After(Replays(P, logs), C, turns), S')
    decreases |turns|
  {
    if turns == [] {
      S' := S;
    } else {
      var S1 := TurnRefines(P, logs, C, S, turns[0]);
      if S1 != S {
        ReceiversTravel(P, S, turns[0].thread, NextEntry(P, logs, S.threads, turns[0].thread), FAKE_CHANNEL);
      }
      S' := ReplayKeepsPlaces(P, logs, Replays(P, logs)(C, turns[0]).value, S1, turns[1..]);
    }
  }

  lemma DrawnOrThere(queues: Queues, qs: seq<QueueId>, hand: seq<Message>, q: QueueId, stamp: nat)
    requires Available(queues, qs) && Taken(queues, qs) == hand && forall p :: StampsGrow(InQueues(queues)(p))
    requires Carries(Queue(queues, q), stamp)
    ensures Carries(Queue(Remaining(queues, qs), q), stamp) || Carries(hand, stamp)
  {
    QueuesTake(queues, qs);
    TakenOrThere(InQueues(queues), qs, hand, InQueues(Remaining(queues, qs)), q, stamp);
    if Took(qs, hand, q, stamp) {
      var i :| 0 <= i < |qs| && qs[i] == q && hand[i].stamp == stamp;
    }
  }

  /** A message in a pending queue is on the channel, in its buffer, or in the hand of the thread that reads it. */
  lemma WhereMessagesAre(P: Program, logs: Logs, C: Replayer, S: State, q: QueueId, stamp: nat)
    requires StatePlaced(S) && StandsFor(P, logs, C, S) && Carries(Queue(S.queues, q), stamp)
    ensures Carries(Pending(BufferOf(C.buffers, q.chan), WireOf(C.wires, q.chan), q.sender), stamp)
         || exists u :: u in C.hands && Carries(C.hands[u], stamp)
  {
    var c := q.chan;
    if c in S.home && S.home[c].Held? {
      var u := S.home[c].holder;
      DrawnOrThere(S.queues, Drawn(P, logs, S, u, Hand(C.hands, u)), Hand(C.hands, u), q, stamp);
      if Carries(Hand(C.hands, u), stamp) {
        assert u in C.hands && C.hands[u] == Hand(C.hands, u);
      }
    }
  }

  /** Nor in a replay, of any logs and as far as it gets: the message is on its channel, buffered, or in a hand. */
  lemma NoReceiverIsLostInReplay(P: Program, arg: Payload, logs: Logs, turns: seq<Turn>, c: DetChannelId)
    requires Runs(Replays(P, logs), Begin(arg), turns)
    ensures var C := After(Replays(P, logs), Begin(arg), turns);
            && (c in C.home <==> c.thread in C.threads && 1 <= c.number <= C.threads[c.thread].channels)
            && (c in C.home ==>
                  match C.home[c]
                  case Held(t) => t in C.threads
                  case InFlight(q, stamp) =>
                    || Carries(Pending(BufferOf(C.buffers, q.chan), WireOf(C.wires, q.chan), q.sender), stamp)
                    || exists u :: u in C.hands && Carries(C.hands[u], stamp))
  {
    InitialInv(arg);
    assert StandsFor(P, logs, Begin(arg), Initial(arg));
    var S := ReplayKeepsPlaces(P, logs, Begin(arg), Initial(arg), turns);
    var C := After(Replays(P, logs), Begin(arg), turns);
    if c in C.home && C.home[c].InFlight? {
      assert Carries(InQueues(S.queues)(C.home[c].queue), C.home[c].stamp);
      WhereMessagesAre(P, logs, C, S, C.home[c].queue, C.home[c].stamp);
    }
  }
}
