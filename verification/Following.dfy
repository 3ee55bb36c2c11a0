/**
 Following a record run from its own logs.

 As long as threads complete their selects before they do anything else, every step of the record run is a step
 on pending queues that takes the next entry of the thread's final log. A select that is never completed writes
 no entry; replay sleeps where record made it. So the replay of a run ends with these selects undone, and is
 otherwise where the run ended.
 */
module Following {
  import opened Confluence
  import opened Identities
  import opened Protocol
  import opened Recording
  import opened RecordLog
  import opened ReplayEngine
  import opened ReplayOrder

  // ---- A record run on pending queues ----

  ghost predicate SameQueues(wires: Wires, queues: Queues) {
    forall q: QueueId :: Queue(queues, q) == From(WireOf(wires, q.chan), q.sender)
  }

  ghost predicate Simulates(R: Recorder, S: State) {
    R.threads == S.threads && R.home == S.home && SameQueues(R.wires, S.queues)
  }

  lemma HeadOut(wires: Wires, queues: Queues, p: QueueId)
    requires SameQueues(wires, queues) && WireOf(wires, p.chan) != [] && wires[p.chan][0].sender == p.sender
    ensures Queue(queues, p) != [] && queues[p][0] == wires[p.chan][0].value
    ensures SameQueues(Dequeue(wires, p.chan, 0), Pop(queues, p))
  {
    var wire := wires[p.chan];
    assert Without(wire, 0) == wire[1..];
    assert From(wire, p.sender) == [wire[0].value] + From(wire[1..], p.sender);
    assert Queue(queues, p) == From(WireOf(wires, p.chan), p.sender);
    forall q: QueueId
      ensures Queue(Pop(queues, p), q) == From(WireOf(Dequeue(wires, p.chan, 0), q.chan), q.sender)
    {
      assert Queue(queues, q) == From(WireOf(wires, q.chan), q.sender);
    }
  }

  lemma {:induction false} ReadingTakes(wires: Wires, queues: Queues, picks: seq<QueueId>)
    requires SameQueues(wires, queues) && InOrder(wires, [], picks)
    ensures Available(queues, picks)
    ensures Taken(queues, picks) == Read(wires, [], picks)
    ensures SameQueues(Unread(wires, [], picks), Remaining(queues, picks))
  {
    if picks != [] {
      HeadOut(wires, queues, picks[0]);
      ReadingTakes(Dequeue(wires, picks[0].chan, 0), Pop(queues, picks[0]), picks[1..]);
    }
  }

  lemma SendingPushes(wires: Wires, queues: Queues, c: DetChannelId, t: Path, m: Message)
    requires SameQueues(wires, queues)
    ensures SameQueues(wires[c := WireOf(wires, c) + [DetMessage(t, m)]], Push(queues, QueueId(c, t), m))
  {
    forall q: QueueId
      ensures Queue(Push(queues, QueueId(c, t), m), q)
           == From(WireOf(wires[c := WireOf(wires, c) + [DetMessage(t, m)]], q.chan), q.sender)
    {
      FromAppend(WireOf(wires, c), [DetMessage(t, m)], q.sender);
      assert Queue(queues, q) == From(WireOf(wires, q.chan), q.sender);
      assert QueueId(q.chan, q.sender) == q;
    }
  }

  lemma RecordSimulates(P: Program, R: Recorder, S: State, t: Path, e: RecordEntry)
    requires Simulates(R, S) && CanRecord(P, R, t, e) && Ahead(OpOf(P, t, R.threads[t]), R.threads[t]) == []
    ensures Ready(P, S, t, e)
    ensures Simulates(Record(P, R, t, e), Apply(P, S, t, e))
  {
    var th := R.threads[t];
    var op := OpOf(P, t, th);
    ReadingTakes(R.wires, S.queues, Polls(op, t, th, e));
    ReadingTakes(R.wires, S.queues, Picks(op, t, th, e));
    if op.Send? {
      SendingPushes(R.wires, S.queues, op.to.id, t, Message(op.payload, |th.history|));
    }
  }

  /** Steps on pending queues, each with the entry that describes it. */
  function Applying(P: Program): Stepper<State, Logged> {
    (S: State, l: Logged) =>
      if Ready(P, S, l.thread, l.entry) && Fits(l, OpOf(P, l.thread, S.threads[l.thread]))
      then Some(Apply(P, S, l.thread, l.entry))
      else None
  }

  /** At most one select of a thread is open, and it is completed next. */
  ghost predicate OpensSettle(threads: map<Path, Thread>, trace: seq<Logged>) {
    forall t | t in threads ::
      threads[t].open == [] || (|threads[t].open| == 1 && Settles(trace, t, threads[t].open[0]))
  }

  lemma NothingAhead(threads: map<Path, Thread>, trace: seq<Logged>, op: Op)
    requires trace != [] && trace[0].thread in threads && OpensSettle(threads, trace) && Fits(trace[0], op)
    requires Check(op, trace[0].thread, threads[trace[0].thread], trace[0].entry).Fine?
    ensures Ahead(op, threads[trace[0].thread]) == []
    ensures threads[trace[0].thread].open == if op.Complete? then [trace[0].entry] else []
  {
    var th := threads[trace[0].thread];
    assert th.open != [] ==> NextOf(trace, trace[0].thread) == Some(Completed(trace[0].thread, th.open[0]));
  }

  lemma OpensGoOn(threads: map<Path, Thread>, trace: seq<Logged>, op: Op, ms: seq<Message>)
    requires trace != [] && trace[0].thread in threads && OpensSettle(threads, trace) && Fits(trace[0], op)
    requires Check(op, trace[0].thread, threads[trace[0].thread], trace[0].entry).Fine?
    requires trace[0].Picked? ==> Settles(trace[1..], trace[0].thread, trace[0].entry)
    requires ChildId(trace[0].thread, threads[trace[0].thread]) !in threads
    ensures OpensSettle(ThreadsAfter(threads, trace[0].thread, op, trace[0].entry, ms), trace[1..])
  {
    NothingAhead(threads, trace, op);
    var t := trace[0].thread;
    var threads' := ThreadsAfter(threads, t, op, trace[0].entry, ms);
    forall u | u in threads'
      ensures threads'[u].open == [] || (|threads'[u].open| == 1 && Settles(trace[1..], u, threads'[u].open[0]))
    {
      if u in threads && u != t {
        OthersUntouched(threads, t, op, trace[0].entry, ms, u);
        assert NextOf(trace, u) == NextOf(trace[1..], u);
      } else if u == t {
        assert threads'[t] == Advanced(op, threads[t], trace[0].entry, ms);
      }
    }
  }

  lemma SettlesTail(trace: seq<Logged>, m: nat)
    requires SettlesUpTo(trace, m) && m > 0 && trace != []
    ensures SettlesUpTo(trace[1..], m - 1)
    ensures trace[0].Picked? ==> Settles(trace[1..], trace[0].thread, trace[0].entry)
  {
    forall i | 0 <= i < m - 1 && i < |trace[1..]| && trace[1..][i].Picked?
      ensures Settles(trace[1..][i + 1..], trace[1..][i].thread, trace[1..][i].entry)
    {
      assert trace[1..][i] == trace[i + 1] && trace[1..][i + 1..] == trace[i + 2..];
    }
  }

  /** The first `m` steps of a record run are steps on pending queues, if their selects are settled. */
  lemma {:induction false} RunSimulates(P: Program, R: Recorder, S: State, trace: seq<Logged>, m: nat)
    requires RecordInv(R) && Simulates(R, S) && m <= |trace| && Runs(Recordings(P), R, trace[..m])
    requires OpensSettle(R.threads, trace) && SettlesUpTo(trace, m)
    ensures Runs(Applying(P), S, trace[..m])
    ensures Simulates(After(Recordings(P), R, trace[..m]), After(Applying(P), S, trace[..m]))
    ensures OpensSettle(After(Recordings(P), R, trace[..m]).threads, trace[m..])
    decreases m
  {
    if m > 0 {
      Peel(trace, m);
      var R', op, ms := RecordStep(P, R, trace[0]);
      SettlesTail(trace, m);
      NothingAhead(R.threads, trace, op);
      OpensGoOn(R.threads, trace, op, ms);
      RecordSimulates(P, R, S, trace[0].thread, trace[0].entry);
      RunSimulates(P, R', Apply(P, S, trace[0].thread, trace[0].entry), trace[1..], m - 1);
    }
  }

  // ---- Following the final logs ----

  /** A thread without its select that is never completed. */
  function SettledThread(th: Thread): Thread {
    if th.open == [] || th.history == [] || th.taken == 0 then th
    else th.(history := th.history[..|th.history| - 1], open := [], taken := th.taken - 1)
  }

  function SettledThreads(threads: map<Path, Thread>): map<Path, Thread> {
    map t | t in threads :: SettledThread(threads[t])
  }

  /** The threads with a select that is never completed. */
  function Unfinished(threads: map<Path, Thread>): set<Path> {
    set t | t in threads && threads[t].open != []
  }

  /** `behind` is `S`, but for the threads in `idle`: they have made a select in `S` and do nothing any more. */
  ghost predicate Lags(behind: State, S: State, idle: set<Path>, trace: seq<Logged>) {
    && behind.queues == S.queues && behind.home == S.home
    && behind.threads.Keys == S.threads.Keys
    && idle <= S.threads.Keys
    && (forall t | t in S.threads :: LagsAt(behind.threads[t], S.threads[t], t in idle, NextOf(trace, t)))
  }

  ghost predicate LagsAt(behind: Thread, th: Thread, idle: bool, next: Maybe<Logged>) {
    if idle then th.open != [] && behind == SettledThread(th) && behind.open == [] && next.None?
    else behind == th && (th.open != [] ==> next.Some?)
  }

  /** How much of its log a thread has been through, not counting the entry of an open select. */
  function Position(threads: map<Path, Thread>, t: Path): nat {
    if t in threads && threads[t].taken >= |threads[t].open| then threads[t].taken - |threads[t].open| else 0
  }

  /** What is left of every log is what the rest of the run writes. */
  ghost predicate Tracks(threads: map<Path, Thread>, trace: seq<Logged>, logs: Logs) {
    && (forall t | t in threads :: threads[t].taken >= |threads[t].open|)
    && (forall t :: TracksAt(Position(threads, t), trace, logs, t))
  }

  ghost predicate TracksAt(position: nat, trace: seq<Logged>, logs: Logs, t: Path) {
    position <= |LogOf(logs, t)| && LogOf(logs, t)[position..] == WrittenBy(trace, t)
  }

  lemma TracksOn(position: nat, trace: seq<Logged>, logs: Logs, t: Path)
    requires trace != [] && TracksAt(position, trace, logs, t)
    ensures TracksAt(position + |WrittenIn(trace[0], t)|, trace[1..], logs, t)
    ensures WrittenIn(trace[0], t) != [] ==>
              position < |LogOf(logs, t)| && LogOf(logs, t)[position] == trace[0].entry && t in logs
  {
    var log, w := LogOf(logs, t), WrittenIn(trace[0], t);
    assert log[position..] == w + WrittenBy(trace[1..], t);
    assert log[position + |w|..] == log[position..][|w|..];
    if w != [] {
      assert log[position] == log[position..][0];
    }
  }

  lemma {:induction false} NextIsWritten(trace: seq<Logged>, t: Path)
    requires NextOf(trace, t).Some? && !NextOf(trace, t).value.Picked?
    ensures WrittenBy(trace, t) != [] && WrittenBy(trace, t)[0] == NextOf(trace, t).value.entry
  {
    assert WrittenBy(trace, t) == WrittenIn(trace[0], t) + WrittenBy(trace[1..], t);
    if trace[0].thread == t {
      assert WrittenIn(trace[0], t) == [trace[0].entry];
    } else {
      NextIsWritten(trace[1..], t);
      NothingAdded(WrittenBy(trace[1..], t));
    }
  }

  /** The first phase of a select changes nothing but its thread. */
  lemma PickIsLocal(P: Program, S: State, t: Path, e: RecordEntry)
    requires Ready(P, S, t, e) && OpOf(P, t, S.threads[t]).SelectOp? && S.threads[t].open == []
    ensures Apply(P, S, t, e).queues == S.queues && Apply(P, S, t, e).home == S.home
    ensures exists th :: Apply(P, S, t, e).threads == S.threads[t := th] && SettledThread(th) == S.threads[t] && th.open != []
  {
    var op, th := OpOf(P, t, S.threads[t]), S.threads[t];
    var th' := Advanced(op, th, e, []);
    assert Apply(P, S, t, e).threads == S.threads[t := th'];
    assert th'.history[..|th'.history| - 1] == th.history;
  }

  lemma IdleFromNow(behind: State, S: State, idle: set<Path>, trace: seq<Logged>, th: Thread)
    requires trace != [] && trace[0].thread in S.threads && NextOf(trace[1..], trace[0].thread).None?
    requires Lags(behind, S, idle, trace)
    requires SettledThread(th) == S.threads[trace[0].thread] && th.open != [] && S.threads[trace[0].thread].open == []
    ensures trace[0].thread !in idle
    ensures Lags(behind, S.(threads := S.threads[trace[0].thread := th]), idle + {trace[0].thread}, trace[1..])
  {
    var t := trace[0].thread;
    var threads' := S.threads[t := th];
    assert LagsAt(behind.threads[t], S.threads[t], t in idle, NextOf(trace, t));
    forall u | u in threads'
      ensures LagsAt(behind.threads[u], threads'[u], u in idle + {t}, NextOf(trace[1..], u))
    {
      assert LagsAt(behind.threads[u], S.threads[u], u in idle, NextOf(trace, u));
    }
  }

  lemma UnwrittenTracks(threads: map<Path, Thread>, trace: seq<Logged>, logs: Logs)
    requires Tracks(threads, trace, logs) && trace != [] && trace[0].Picked?
    ensures Tracks(threads, trace[1..], logs)
  {
    forall u
      ensures TracksAt(Position(threads, u), trace[1..], logs, u)
    {
      TracksOn(Position(threads, u), trace, logs, u);
    }
  }

  /** The select that is made here is never completed: replay leaves its thread where it is. */
  lemma SleepHere(P: Program, behind: State, S: State, idle: set<Path>, trace: seq<Logged>)
    requires Lags(behind, S, idle, trace)
    requires trace != [] && trace[0].Picked? && NextOf(trace[1..], trace[0].thread).None?
    requires Applying(P)(S, trace[0]).Some? && S.threads[trace[0].thread].open == []
    ensures trace[0].thread !in idle
    ensures Lags(behind, Applying(P)(S, trace[0]).value, idle + {trace[0].thread}, trace[1..])
  {
    var t, e := trace[0].thread, trace[0].entry;
    PickIsLocal(P, S, t, e);
    var th :| Apply(P, S, t, e).threads == S.threads[t := th] && SettledThread(th) == S.threads[t] && th.open != [];
    IdleFromNow(behind, S, idle, trace, th);
    assert Apply(P, S, t, e) == S.(threads := S.threads[t := th]);
  }

  /** Any other step: the thread's log has its entry next. */
  lemma EntryIsNext(P: Program, behind: State, S: State, idle: set<Path>, trace: seq<Logged>, logs: Logs)
    requires Lags(behind, S, idle, trace) && Tracks(behind.threads, trace, logs)
    requires trace != [] && Applying(P)(S, trace[0]).Some?
    requires S.threads[trace[0].thread].open == if trace[0].Completed? then [trace[0].entry] else []
    requires trace[0].Picked? ==> NextOf(trace[1..], trace[0].thread) == Some(Completed(trace[0].thread, trace[0].entry))
    ensures trace[0].thread !in idle && behind.threads[trace[0].thread] == S.threads[trace[0].thread]
    ensures CanStep(P, logs, behind, trace[0].thread)
    ensures NextEntry(P, logs, behind.threads, trace[0].thread) == trace[0].entry
  {
    var t, e := trace[0].thread, trace[0].entry;
    assert LagsAt(behind.threads[t], S.threads[t], t in idle, NextOf(trace, t));
    TracksOn(Position(behind.threads, t), trace, logs, t);
    if trace[0].Picked? {
      NextIsWritten(trace[1..], t);
      var log := LogOf(logs, t);
      assert log[Position(behind.threads, t)..] == WrittenBy(trace[1..], t);
      assert log[Position(behind.threads, t)] == log[Position(behind.threads, t)..][0];
    }
  }

  /** The step with that entry keeps the lag, */
  lemma StepKeepsLag(P: Program, behind: State, S: State, idle: set<Path>, trace: seq<Logged>)
    requires Inv(S) && Lags(behind, S, idle, trace) && trace != [] && Applying(P)(S, trace[0]).Some?
    requires trace[0].thread !in idle && behind.threads[trace[0].thread] == S.threads[trace[0].thread]
    requires trace[0].Picked? ==> NextOf(trace[1..], trace[0].thread).Some?
    requires S.threads[trace[0].thread].open == if trace[0].Completed? then [trace[0].entry] else []
    ensures Ready(P, behind, trace[0].thread, trace[0].entry)
    ensures Lags(Apply(P, behind, trace[0].thread, trace[0].entry), Applying(P)(S, trace[0]).value, idle, trace[1..])
  {
    var t, e := trace[0].thread, trace[0].entry;
    var op, th := OpOf(P, t, S.threads[t]), S.threads[t];
    var ms := Taken(S.queues, Picks(op, t, th, e));
    ChildIsNew(S, t);
    LagSpreads(behind.threads, S.threads, idle, trace, op, ms);
    assert Apply(P, behind, t, e).queues == Apply(P, S, t, e).queues;
    assert Apply(P, behind, t, e).home == Apply(P, S, t, e).home;
  }

  lemma OwnLag(th: Thread, op: Op, l: Logged, ms: seq<Message>, next: Maybe<Logged>)
    requires Fits(l, op) && Check(op, l.thread, th, l.entry).Fine?
    requires th.open == (if l.Completed? then [l.entry] else []) && (l.Picked? ==> next.Some?)
    ensures LagsAt(Advanced(op, th, l.entry, ms), Advanced(op, th, l.entry, ms), false, next)
  {
  }

  lemma LagSpreads(behind: map<Path, Thread>, threads: map<Path, Thread>, idle: set<Path>, trace: seq<Logged>, op: Op,
      ms: seq<Message>)
    requires behind.Keys == threads.Keys && idle <= threads.Keys
    requires forall t | t in threads :: LagsAt(behind[t], threads[t], t in idle, NextOf(trace, t))
    requires trace != [] && trace[0].thread in threads && trace[0].thread !in idle
    requires behind[trace[0].thread] == threads[trace[0].thread] && Fits(trace[0], op)
    requires Check(op, trace[0].thread, threads[trace[0].thread], trace[0].entry).Fine?
    requires ChildId(trace[0].thread, threads[trace[0].thread]) !in threads
    requires trace[0].Picked? ==> NextOf(trace[1..], trace[0].thread).Some?
    requires threads[trace[0].thread].open == if trace[0].Completed? then [trace[0].entry] else []
    ensures var t, e := trace[0].thread, trace[0].entry;
            var behind', threads' := ThreadsAfter(behind, t, op, e, ms), ThreadsAfter(threads, t, op, e, ms);
            && behind'.Keys == threads'.Keys && idle <= threads'.Keys
            && forall u | u in threads' :: LagsAt(behind'[u], threads'[u], u in idle, NextOf(trace[1..], u))
  {
    var t, e := trace[0].thread, trace[0].entry;
    var behind', threads' := ThreadsAfter(behind, t, op, e, ms), ThreadsAfter(threads, t, op, e, ms);
    forall u | u in threads'
      ensures LagsAt(behind'[u], threads'[u], u in idle, NextOf(trace[1..], u))
    {
      if u in threads && u != t {
        OthersUntouched(threads, t, op, e, ms, u);
        OthersUntouched(behind, t, op, e, ms, u);
        assert LagsAt(behind[u], threads[u], u in idle, NextOf(trace, u));
        assert NextOf(trace, u) == NextOf(trace[1..], u);
      } else if u == t {
        assert threads'[t] == Advanced(op, threads[t], e, ms) == behind'[t];
        OwnLag(threads[t], op, trace[0], ms, NextOf(trace[1..], t));
      }
    }
  }

  lemma StepPosition(threads: map<Path, Thread>, l: Logged, op: Op, ms: seq<Message>, u: Path)
    requires l.thread in threads && Fits(l, op) && Check(op, l.thread, threads[l.thread], l.entry).Fine?
    requires ChildId(l.thread, threads[l.thread]) !in threads
    requires u in threads ==> threads[u].taken >= |threads[u].open|
    ensures var threads' := ThreadsAfter(threads, l.thread, op, l.entry, ms);
            && (u in threads' ==> threads'[u].taken >= |threads'[u].open|)
            && Position(threads', u) == Position(threads, u) + |WrittenIn(l, u)|
  {
    var threads' := ThreadsAfter(threads, l.thread, op, l.entry, ms);
    if u in threads && u != l.thread {
      OthersUntouched(threads, l.thread, op, l.entry, ms, u);
    } else if u == l.thread {
      var th := threads[u];
      assert threads'[u] == Advanced(op, th, l.entry, ms);
      assert op.Complete? ==> |Without(th.open, op.which)| == |th.open| - 1;
    }
  }

  /** and the logs go on as the run does. */
  lemma StepTracks(threads: map<Path, Thread>, trace: seq<Logged>, logs: Logs, op: Op, ms: seq<Message>)
    requires Tracks(threads, trace, logs) && trace != [] && trace[0].thread in threads && Fits(trace[0], op)
    requires Check(op, trace[0].thread, threads[trace[0].thread], trace[0].entry).Fine?
    requires ChildId(trace[0].thread, threads[trace[0].thread]) !in threads
    ensures Tracks(ThreadsAfter(threads, trace[0].thread, op, trace[0].entry, ms), trace[1..], logs)
  {
    var threads' := ThreadsAfter(threads, trace[0].thread, op, trace[0].entry, ms);
    forall u | u in threads'
      ensures threads'[u].taken >= |threads'[u].open|
    {
      StepPosition(threads, trace[0], op, ms, u);
    }
    forall u
      ensures TracksAt(Position(threads', u), trace[1..], logs, u)
    {
      StepPosition(threads, trace[0], op, ms, u);
      TracksOn(Position(threads, u), trace, logs, u);
    }
  }

  lemma RunGoesOn(P: Program, S: State, trace: seq<Logged>) returns (S': State)
    requires Inv(S) && trace != [] && Applying(P)(S, trace[0]).Some? && OpensSettle(S.threads, trace)
    requires trace[0].Picked? ==> Settles(trace[1..], trace[0].thread, trace[0].entry)
    ensures Applying(P)(S, trace[0]) == Some(S') && Inv(S') && OpensSettle(S'.threads, trace[1..])
    ensures S.threads[trace[0].thread].open == if trace[0].Completed? then [trace[0].entry] else []
  {
    var t, e := trace[0].thread, trace[0].entry;
    var op := OpOf(P, t, S.threads[t]);
    ChildIsNew(S, t);
    NothingAhead(S.threads, trace, op);
    OpensGoOn(S.threads, trace, op, Taken(S.queues, Picks(op, t, S.threads[t], e)));
    StepKeepsInv(P, S, t, e);
    S' := Apply(P, S, t, e);
  }

  lemma ReplayGoesOn(P: Program, behind: State, S: State, idle: set<Path>, trace: seq<Logged>, logs: Logs)
    returns (behind': State)
    requires Inv(S) && Inv(behind) && trace != [] && Applying(P)(S, trace[0]).Some?
    requires S.threads[trace[0].thread].open == if trace[0].Completed? then [trace[0].entry] else []
    requires trace[0].Picked? ==> NextOf(trace[1..], trace[0].thread) == Some(Completed(trace[0].thread, trace[0].entry))
    requires Lags(behind, S, idle, trace) && Tracks(behind.threads, trace, logs)
    ensures Stepping(P, logs)(behind, trace[0].thread) == Some(behind') && Inv(behind')
    ensures Lags(behind', Applying(P)(S, trace[0]).value, idle, trace[1..]) && Tracks(behind'.threads, trace[1..], logs)
  {
    var t, e := trace[0].thread, trace[0].entry;
    var op := OpOf(P, t, S.threads[t]);
    EntryIsNext(P, behind, S, idle, trace, logs);
    StepKeepsLag(P, behind, S, idle, trace);
    ChildIsNew(behind, t);
    StepTracks(behind.threads, trace, logs, op, Taken(behind.queues, Picks(op, t, behind.threads[t], e)));
    StepKeepsInv(P, behind, t, e);
    behind' := Apply(P, behind, t, e);
  }

  lemma SleepsOn(P: Program, behind: State, S: State, S': State, idle: set<Path>, trace: seq<Logged>, logs: Logs)
    returns (idle': set<Path>)
    requires Lags(behind, S, idle, trace) && Tracks(behind.threads, trace, logs)
    requires trace != [] && trace[0].Picked? && NextOf(trace[1..], trace[0].thread).None?
    requires Applying(P)(S, trace[0]) == Some(S') && S.threads[trace[0].thread].open == []
    ensures Lags(behind, S', idle', trace[1..]) && Tracks(behind.threads, trace[1..], logs) && |idle'| == |idle| + 1
  {
    SleepHere(P, behind, S, idle, trace);
    UnwrittenTracks(behind.threads, trace, logs);
    idle' := idle + {trace[0].thread};
  }

  /** What one step of the run is in replay: a step, or nothing. */
  lemma FollowOne(P: Program, behind: State, S: State, idle: set<Path>, trace: seq<Logged>, logs: Logs)
    returns (S': State, behind': State, idle': set<Path>)
    requires Inv(S) && Inv(behind) && trace != [] && Applying(P)(S, trace[0]).Some?
    requires OpensSettle(S.threads, trace)
    requires trace[0].Picked? ==> Settles(trace[1..], trace[0].thread, trace[0].entry)
    requires Lags(behind, S, idle, trace) && Tracks(behind.threads, trace, logs)
    ensures Applying(P)(S, trace[0]) == Some(S') && Inv(S') && Inv(behind') && OpensSettle(S'.threads, trace[1..])
    ensures Lags(behind', S', idle', trace[1..]) && Tracks(behind'.threads, trace[1..], logs)
    ensures if |idle'| == |idle| then Stepping(P, logs)(behind, trace[0].thread) == Some(behind')
            else behind' == behind && |idle'| == |idle| + 1
  {
    S' := RunGoesOn(P, S, trace);
    if trace[0].Picked? && NextOf(trace[1..], trace[0].thread).None? {
      behind' := behind;
      idle' := SleepsOn(P, behind, S, S', idle, trace, logs);
    } else {
      behind' := ReplayGoesOn(P, behind, S, idle, trace, logs);
      idle' := idle;
    }
  }

  /** The schedule follows the steps: where both end, replay lags only for the selects that are never completed. */
  ghost predicate Followed(P: Program, logs: Logs, behind: State, S: State, steps: seq<Logged>, rest: seq<Logged>,
      schedule: seq<Path>, idle: set<Path>) {
    && Runs(Applying(P), S, steps) && Runs(Stepping(P, logs), behind, schedule)
    && var behind' := After(Stepping(P, logs), behind, schedule);
    && Lags(behind', After(Applying(P), S, steps), idle, rest) && Tracks(behind'.threads, rest, logs)
  }

  lemma FollowedFirst(P: Program, logs: Logs, behind: State, behind': State, S: State, S': State, l: Logged,
      steps: seq<Logged>, rest: seq<Logged>, stepped: bool, schedule: seq<Path>, idle: set<Path>)
    returns (schedule': seq<Path>)
    requires if stepped then Stepping(P, logs)(behind, l.thread) == Some(behind') else behind' == behind
    requires Applying(P)(S, l) == Some(S') && Followed(P, logs, behind', S', steps, rest, schedule, idle)
    ensures Followed(P, logs, behind, S, [l] + steps, rest, schedule', idle)
    ensures |schedule'| == |schedule| + if stepped then 1 else 0
  {
    RunFirst(Applying(P), S, S', l, steps);
    schedule' := schedule;
    if stepped {
      RunFirst(Stepping(P, logs), behind, behind', l.thread, schedule);
      schedule' := [l.thread] + schedule;
    }
  }

  lemma Behead<A>(steps: seq<A>, rest: seq<A>)
    requires steps != []
    ensures (steps + rest)[0] == steps[0] && (steps + rest)[1..] == steps[1..] + rest && [steps[0]] + steps[1..] == steps
  {
  }

  /** `FollowOne`, where a name is given to what comes later. */
  lemma FollowFirst(P: Program, behind: State, S: State, idle: set<Path>, trace: seq<Logged>, m: nat,
      later: seq<Logged>,
      logs: Logs)
    returns (S': State, behind': State, idle': set<Path>)
    requires Inv(S) && Inv(behind) && trace != [] && later == trace[1..] && Applying(P)(S, trace[0]).Some?
    requires OpensSettle(S.threads, trace) && SettlesUpTo(trace, m) && m > 0
    requires Lags(behind, S, idle, trace) && Tracks(behind.threads, trace, logs)
    ensures Applying(P)(S, trace[0]) == Some(S') && Inv(S') && Inv(behind')
    ensures OpensSettle(S'.threads, later) && SettlesUpTo(later, m - 1)
    ensures Lags(behind', S', idle', later) && Tracks(behind'.threads, later, logs)
    ensures if |idle'| == |idle| then Stepping(P, logs)(behind, trace[0].thread) == Some(behind')
            else behind' == behind && |idle'| == |idle| + 1
  {
    SettlesTail(trace, m);
    S', behind', idle' := FollowOne(P, behind, S, idle, trace, logs);
  }

  lemma FollowNothing(P: Program, behind: State, S: State, idle: set<Path>, trace: seq<Logged>, rest: seq<Logged>,
      logs: Logs)
    requires trace == [] + rest && Lags(behind, S, idle, trace) && Tracks(behind.threads, trace, logs)
    ensures Followed(P, logs, behind, S, [], rest, [], idle)
  {
    assert trace == rest;
  }

  /**
   The first steps of a run, if their selects are settled, are a replay of any logs that go on as the run does; the
   selects that are never completed are left out.
   */
  lemma {:induction false} Follow(P: Program, behind: State, S: State, idle: set<Path>, steps: seq<Logged>,
      rest: seq<Logged>, logs: Logs) returns (schedule: seq<Path>, idle': set<Path>)
    requires Inv(S) && Inv(behind) && Runs(Applying(P), S, steps)
    requires OpensSettle(S.threads, steps + rest) && SettlesUpTo(steps + rest, |steps|)
    requires Lags(behind, S, idle, steps + rest) && Tracks(behind.threads, steps + rest, logs)
    ensures Followed(P, logs, behind, S, steps, rest, schedule, idle')
    ensures |schedule| + |idle'| == |steps| + |idle|
    decreases |steps|
  {
    if steps == [] {
      schedule, idle' := [], idle;
      FollowNothing(P, behind, S, idle, steps + rest, rest, logs);
    } else {
      Behead(steps, rest);
      var S', behind', idle1 := FollowFirst(P, behind, S, idle, steps + rest, |steps|, steps[1..] + rest, logs);
      var tail;
      tail, idle' := Follow(P, behind', S', idle1, steps[1..], rest, logs);
      schedule := FollowedFirst(P, logs, behind, behind', S, S', steps[0], steps[1..], rest, |idle1| == |idle|, tail, idle');
    }
  }

  lemma Peel<A>(s: seq<A>, m: nat)
    requires 0 < m <= |s|
    ensures s[..m][0] == s[0] && s[..m][1..] == s[1..][..m - 1] && s[1..][m - 1..] == s[m..]
  {
  }

  // ---- Whole runs ----

  /** The selects among the first `m` steps are completed before their threads do anything else, or are not completed
      and their threads do nothing else. */
  ghost predicate OrderlyUpTo(trace: seq<Logged>, m: nat) {
    forall i | 0 <= i < m && i < |trace| && trace[i].Picked? ::
      var next := NextOf(trace[i + 1..], trace[i].thread);
      next.None? || next.value.Completed?
  }

  lemma OrderlyTail(trace: seq<Logged>, m: nat)
    requires OrderlyUpTo(trace, m) && m > 0 && trace != []
    ensures OrderlyUpTo(trace[1..], m - 1)
  {
    forall i | 0 <= i < m - 1 && i < |trace[1..]| && trace[1..][i].Picked?
      ensures var next := NextOf(trace[1..][i + 1..], trace[1..][i].thread); next.None? || next.value.Completed?
    {
      assert trace[1..][i] == trace[i + 1] && trace[1..][i + 1..] == trace[i + 2..];
    }
  }

  lemma SettlesFirst(trace: seq<Logged>, m: nat)
    requires m > 0 && trace != [] && SettlesUpTo(trace[1..], m - 1)
    requires trace[0].Picked? ==> Settles(trace[1..], trace[0].thread, trace[0].entry)
    ensures SettlesUpTo(trace, m)
  {
    forall i | 0 <= i < m && i < |trace| && trace[i].Picked?
      ensures Settles(trace[i + 1..], trace[i].thread, trace[i].entry)
    {
      if i > 0 {
        assert trace[1..][i - 1] == trace[i] && trace[1..][i..] == trace[i + 1..];
      }
    }
  }

  /** In a record run a completion carries the entry of the select that it completes. */
  lemma {:induction false} OrderlySettles(P: Program, R: Recorder, trace: seq<Logged>, m: nat)
    requires RecordInv(R) && Runs(Recordings(P), R, trace) && OpensSettle(R.threads, trace)
    requires OrderlyUpTo(trace, m) && m <= |trace|
    ensures SettlesUpTo(trace, m)
    decreases m
  {
    if m > 0 {
      var R', op, ms := RecordStep(P, R, trace[0]);
      var t, e := trace[0].thread, trace[0].entry;
      NothingAhead(R.threads, trace, op);
      if trace[0].Picked? {
        assert R'.threads[t] == Advanced(op, R.threads[t], e, ms);
        NextCompletes(P, R', trace[1..], t, e);
        NextIsOf(trace[1..], t);
      }
      OpensGoOn(R.threads, trace, op, ms);
      OrderlyTail(trace, m);
      OrderlySettles(P, R', trace[1..], m - 1);
      SettlesFirst(trace, m);
    }
  }

  lemma {:induction false} NextIsOf(trace: seq<Logged>, t: Path)
    ensures NextOf(trace, t).Some? ==> NextOf(trace, t).value.thread == t
  {
    if trace != [] && trace[0].thread != t {
      NextIsOf(trace[1..], t);
    }
  }

  /** The final logs are what the whole run writes. */
  lemma StartTracks(P: Program, arg: Payload, trace: seq<Logged>)
    requires Runs(Recordings(P), Start(arg), trace)
    ensures RecordInv(Start(arg)) && Inv(Initial(arg)) && Simulates(Start(arg), Initial(arg))
    ensures OpensSettle(Start(arg).threads, trace)
    ensures Lags(Initial(arg), Initial(arg), {}, trace)
    ensures Tracks(Initial(arg).threads, trace, After(Recordings(P), Start(arg), trace).logs)
  {
    InitialInv(arg);
    var logs := After(Recordings(P), Start(arg), trace).logs;
    forall t
      ensures TracksAt(Position(Initial(arg).threads, t), trace, logs, t)
    {
      LogsAreWhatWasWritten(P, Start(arg), trace, t);
    }
  }

  lemma EndReached(P: Program, behind: State, S: State, idle: set<Path>, logs: Logs)
    requires Lags(behind, S, idle, []) && Tracks(behind.threads, [], logs)
    ensures behind.threads == SettledThreads(S.threads) && idle == Unfinished(S.threads)
    ensures Exhausted(P, logs, behind.threads)
  {
    forall t | t in S.threads
      ensures behind.threads[t] == SettledThread(S.threads[t]) && behind.threads[t].open == []
      ensures t in idle <==> S.threads[t].open != []
    {
      assert LagsAt(behind.threads[t], S.threads[t], t in idle, NextOf([], t));
    }
    forall t
      ensures !HasEntry(P, logs, behind.threads, t)
    {
      assert TracksAt(Position(behind.threads, t), [], logs, t);
    }
  }

  /** The first steps of a record run, on wires and on pending queues. */
  lemma FollowStart(P: Program, arg: Payload, steps: seq<Logged>, rest: seq<Logged>)
    requires Runs(Recordings(P), Start(arg), steps + rest) && OrderlyUpTo(steps + rest, |steps|)
    ensures Runs(Recordings(P), Start(arg), steps) && Runs(Applying(P), Initial(arg), steps)
    ensures SettlesUpTo(steps + rest, |steps|)
    ensures Simulates(After(Recordings(P), Start(arg), steps), After(Applying(P), Initial(arg), steps))
    ensures OpensSettle(After(Recordings(P), Start(arg), steps).threads, rest)
  {
    StartTracks(P, arg, steps + rest);
    OrderlySettles(P, Start(arg), steps + rest, |steps|);
    RunSplit(Recordings(P), Start(arg), steps, rest);
    assert (steps + rest)[..|steps|] == steps && (steps + rest)[|steps|..] == rest;
    RunSimulates(P, Start(arg), Initial(arg), steps + rest, |steps|);
  }

  /** Follows the beginning of a record run, from its final logs. */
  lemma FollowRecord(P: Program, arg: Payload, trace: seq<Logged>, steps: seq<Logged>, rest: seq<Logged>)
    returns (schedule: seq<Path>, idle: set<Path>)
    requires trace == steps + rest && Runs(Recordings(P), Start(arg), trace)
    requires Runs(Applying(P), Initial(arg), steps) && SettlesUpTo(trace, |steps|)
    ensures Followed(P, After(Recordings(P), Start(arg), trace).logs, Initial(arg), Initial(arg), steps, rest, schedule, idle)
    ensures |schedule| + |idle| == |steps|
  {
    StartTracks(P, arg, trace);
    schedule, idle := Follow(P, Initial(arg), Initial(arg), {}, steps, rest, After(Recordings(P), Start(arg), trace).logs);
  }

  /**
   A record run in which selects are completed at once is a replay of its own logs, to the end of all logs. The
   replay ends where the run did, but for the selects that were never completed.
   */
  lemma RecordedRunReplays(P: Program, arg: Payload, trace: seq<Logged>) returns (schedule: seq<Path>)
    requires Runs(Recordings(P), Start(arg), trace) && Orderly(trace)
    ensures var R := After(Recordings(P), Start(arg), trace);
            && Runs(Stepping(P, R.logs), Initial(arg), schedule)
            && var S := After(Stepping(P, R.logs), Initial(arg), schedule);
            && S.threads == SettledThreads(R.threads) && S.home == R.home && SameQueues(R.wires, S.queues)
            && Exhausted(P, R.logs, S.threads)
            && |schedule| + |Unfinished(R.threads)| == |trace|
  {
    var R := After(Recordings(P), Start(arg), trace);
    assert trace + [] == trace;
    FollowStart(P, arg, trace, []);
    var idle;
    schedule, idle := FollowRecord(P, arg, trace, trace, []);
    EndReached(P, After(Stepping(P, R.logs), Initial(arg), schedule), After(Applying(P), Initial(arg), trace), idle, R.logs);
  }

  /** An operation other than a select has no select entry. */
  lemma OtherEntry(op: Op, t: Path, th: Thread, e: RecordEntry)
    requires Check(op, t, th, e).Fine? && !op.SelectOp? && !op.Complete?
    ensures !e.event.CrossbeamSelect?
  {
  }

  lemma {:induction false} NextWrites(P: Program, R: Recorder, trace: seq<Logged>, t: Path)
    requires RecordInv(R) && Runs(Recordings(P), R, trace)
    requires NextOf(trace, t).Some? && NextOf(trace, t).value.Wrote?
    ensures !NextOf(trace, t).value.entry.event.CrossbeamSelect?
    decreases |trace|
  {
    var R', op, _ := RecordStep(P, R, trace[0]);
    if trace[0].thread == t {
      OtherEntry(op, t, R.threads[t], trace[0].entry);
    } else {
      NextWrites(P, R', trace[1..], t);
    }
  }

  lemma {:induction false} RecordKeepsInv(P: Program, R: Recorder, trace: seq<Logged>)
    requires RecordInv(R) && Runs(Recordings(P), R, trace)
    ensures RecordInv(After(Recordings(P), R, trace))
    decreases |trace|
  {
    if trace != [] {
      var R', _, _ := RecordStep(P, R, trace[0]);
      RecordKeepsInv(P, R', trace[1..]);
    }
  }

  /** A select takes what its thread writes next, whatever that is. */
  lemma SelectEntry(P: Program, behind: State, S: State, idle: set<Path>, trace: seq<Logged>, logs: Logs)
    requires Lags(behind, S, idle, trace) && Tracks(behind.threads, trace, logs)
    requires trace != [] && trace[0].Picked? && trace[0].thread in S.threads
    requires S.threads[trace[0].thread].open == [] && OpOf(P, trace[0].thread, S.threads[trace[0].thread]).SelectOp?
    requires NextOf(trace[1..], trace[0].thread).Some? && !NextOf(trace[1..], trace[0].thread).value.Picked?
    ensures behind.threads[trace[0].thread] == S.threads[trace[0].thread]
    ensures HasEntry(P, logs, behind.threads, trace[0].thread)
    ensures NextEntry(P, logs, behind.threads, trace[0].thread) == NextOf(trace[1..], trace[0].thread).value.entry
  {
    var t := trace[0].thread;
    assert LagsAt(behind.threads[t], S.threads[t], t in idle, NextOf(trace, t));
    TracksOn(Position(behind.threads, t), trace, logs, t);
    NextIsWritten(trace[1..], t);
    var log := LogOf(logs, t);
    assert log[Position(behind.threads, t)..] == WrittenBy(trace[1..], t);
    assert log[Position(behind.threads, t)] == log[Position(behind.threads, t)..][0];
  }

  /** What a record run shows where a select is made and something else is logged before its completion. */
  lemma SelectInterrupted(P: Program, R: Recorder, trace: seq<Logged>)
    requires RecordInv(R) && trace != [] && trace[0].Picked? && OpensSettle(R.threads, trace)
    requires Runs(Recordings(P), R, trace)
    requires NextOf(trace[1..], trace[0].thread).Some? && NextOf(trace[1..], trace[0].thread).value.Wrote?
    ensures trace[0].thread in R.threads && OpOf(P, trace[0].thread, R.threads[trace[0].thread]).SelectOp?
    ensures R.threads[trace[0].thread].open == []
    ensures !NextOf(trace[1..], trace[0].thread).value.entry.event.CrossbeamSelect?
  {
    var R', op, _ := RecordStep(P, R, trace[0]);
    NothingAhead(R.threads, trace, op);
    NextWrites(P, R', trace[1..], trace[0].thread);
  }

  /** That, after the first steps of a run. */
  lemma InterruptedAfter(P: Program, arg: Payload, steps: seq<Logged>, rest: seq<Logged>)
    requires Runs(Recordings(P), Start(arg), steps + rest) && rest != [] && rest[0].Picked?
    requires Runs(Recordings(P), Start(arg), steps) && OpensSettle(After(Recordings(P), Start(arg), steps).threads, rest)
    requires NextOf(rest[1..], rest[0].thread).Some? && NextOf(rest[1..], rest[0].thread).value.Wrote?
    ensures var t, threads := rest[0].thread, After(Recordings(P), Start(arg), steps).threads;
            && t in threads && OpOf(P, t, threads[t]).SelectOp? && threads[t].open == []
            && !NextOf(rest[1..], t).value.entry.event.CrossbeamSelect?
  {
    RunSplit(Recordings(P), Start(arg), steps, rest);
    StartInv(arg);
    RecordKeepsInv(P, Start(arg), steps);
    SelectInterrupted(P, After(Recordings(P), Start(arg), steps), rest);
  }

  /** Where the steps have been followed, the select finds the entry that its thread writes next. */
  lemma FollowedToSelect(P: Program, logs: Logs, behind: State, S: State, steps: seq<Logged>, rest: seq<Logged>,
      schedule: seq<Path>, idle: set<Path>)
    requires Followed(P, logs, behind, S, steps, rest, schedule, idle) && rest != [] && rest[0].Picked?
    requires var t, threads := rest[0].thread, After(Applying(P), S, steps).threads;
             t in threads && OpOf(P, t, threads[t]).SelectOp? && threads[t].open == []
    requires NextOf(rest[1..], rest[0].thread).Some? && NextOf(rest[1..], rest[0].thread).value.Wrote?
    ensures Runs(Stepping(P, logs), behind, schedule)
    ensures var S', t := After(Stepping(P, logs), behind, schedule), rest[0].thread;
            && HasEntry(P, logs, S'.threads, t) && OpOf(P, t, S'.threads[t]).SelectOp?
            && NextEntry(P, logs, S'.threads, t) == NextOf(rest[1..], t).value.entry
  {
    SelectEntry(P, After(Stepping(P, logs), behind, schedule), After(Applying(P), S, steps), idle, rest, logs);
  }

  /**
   If a thread logs something else before it completes a select, and all selects made before that one are
   completed at once, then a replay of the final logs gets to the select and finds the other entry there.
   */
  lemma SelectFindsOtherEntry(P: Program, arg: Payload, steps: seq<Logged>, rest: seq<Logged>)
    returns (schedule: seq<Path>)
    requires Runs(Recordings(P), Start(arg), steps + rest) && OrderlyUpTo(steps + rest, |steps|)
    requires rest != [] && rest[0].Picked?
    requires NextOf(rest[1..], rest[0].thread).Some? && NextOf(rest[1..], rest[0].thread).value.Wrote?
    ensures var logs, t := After(Recordings(P), Start(arg), steps + rest).logs, rest[0].thread;
            && Runs(Stepping(P, logs), Initial(arg), schedule)
            && var S := After(Stepping(P, logs), Initial(arg), schedule);
            && HasEntry(P, logs, S.threads, t) && OpOf(P, t, S.threads[t]).SelectOp?
            && NextEntry(P, logs, S.threads, t) == NextOf(rest[1..], t).value.entry
            && !NextEntry(P, logs, S.threads, t).event.CrossbeamSelect?
  {
    FollowStart(P, arg, steps, rest);
    var idle;
    schedule, idle := FollowRecord(P, arg, steps + rest, steps, rest);
    InterruptedAfter(P, arg, steps, rest);
    FollowedToSelect(P, After(Recordings(P), Start(arg), steps + rest).logs, Initial(arg), Initial(arg), steps, rest,
                     schedule, idle);
  }
}
