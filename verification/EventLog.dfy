/**
 Writing and reading the log (`EventRecorder` in src/lib.rs, `GlobalRecorder` and `GlobalReplayer` in
 src/recordlog.rs).
 */
module EventLog {
  import opened Confluence
  import opened Following
  import opened Identities
  import opened Promises
  import opened Protocol
  import opened Recording
  import opened RecordLog
  import opened ReplayEngine

  datatype Fetched = Entry(entry: RecordEntry) | NoEntry

  /** A thread of the operating system: the root, or the one that a step of the run spawned. */
  datatype Instance = Root | SpawnedAt(step: nat)

  /** One thread's end of the log: the channel it writes to in record mode, the entries it reads in replay mode. */
  class EventRecorder {
    var written: seq<RecordEntry>
    var flushed: bool                 // the global recorder has been taken away
    const log: seq<RecordEntry>
    var next: nat                     // position of the iterator
    var eventNumber: nat

    ghost predicate Valid()
      reads this
    {
      next <= |log|
    }

    constructor (log: seq<RecordEntry>)
      ensures Valid() && this.log == log && next == 0 && written == [] && !flushed && eventNumber == 0
    {
      this.log := log;
      next, written, flushed, eventNumber := 0, [], false, 0;
    }

    /** Fails, with the event lost, once the log has been flushed. */
    method WriteEventToRecord(event: TivoEvent, metadata: Metadata) returns (c: Checked)
      requires Valid()
      modifies `written, `eventNumber
      ensures Valid()
      ensures c == if flushed then Bad(CannotWriteEventToLog) else Fine
      ensures written == old(written) + if flushed then [] else [RecordEntry(event, metadata.variant, metadata.id)]
      ensures eventNumber == old(eventNumber) + 1
    {
      eventNumber := eventNumber + 1;
      if flushed {
        return Bad(CannotWriteEventToLog);
      }
      written := written + [RecordEntry(event, metadata.variant, metadata.id)];
      return Fine;
    }

    /** The entries of the log come out once each and in order; then there are none. */
    method GetLogEntry() returns (r: Fetched)
      requires Valid()
      modifies `next, `eventNumber
      ensures Valid()
      ensures r == if old(next) < |log| then Entry(log[old(next)]) else NoEntry
      ensures next == old(next) + if r.Entry? then 1 else 0
      ensures eventNumber == old(eventNumber) + 1
    {
      eventNumber := eventNumber + 1;
      if next == |log| {
        return NoEntry;
      }
      r := Entry(log[next]);
      next := next + 1;
    }
  }

  /**
   All logs of a record run, by thread id. `connected` are the threads of the operating system that have made their
   EVENT_SENDER, which they do when they write for the first time.
   */
  class GlobalRecorder {
    var recorder: Logs
    var connected: set<Instance>

    function Contents(): Sink
      reads this
    {
      Sink(recorder, connected)
    }

    constructor ()
      ensures Contents() == Sink(map[], {})
    {
      recorder, connected := map[], {};
    }

    /** Called when a thread writes for the first time. False is the panic "Entry already present". */
    method AddReceiver(id: Path) returns (ok: bool)
      modifies `recorder
      ensures ok <==> id !in old(recorder)
      ensures recorder == if ok then old(recorder)[id := []] else old(recorder)
    {
      if id in recorder {
        return false;
      }
      recorder := recorder[id := []];
      return true;
    }

    /** A thread's write, which registers the thread if it is its first. */
    method Write(who: Instance, id: Path, entry: RecordEntry) returns (ok: bool)
      modifies this
      ensures ok <==> Written(old(Contents()), who, id, entry).Some?
      ensures Contents() == if ok then Written(old(Contents()), who, id, entry).value else old(Contents())
      ensures ok <==> who in old(connected) || id !in old(recorder)
      ensures ok ==>
                && connected == old(connected) + {who} && recorder.Keys == old(recorder).Keys + {id}
                && recorder[id] == (if id in old(recorder) then old(recorder)[id] else []) + [entry]
                && forall other | other in old(recorder) && other != id :: recorder[other] == old(recorder)[other]
    {
      if who !in connected {
        ok := AddReceiver(id);
        if !ok {
          return;
        }
        connected := connected + {who};
      }
      recorder := recorder[id := LogOf(recorder, id) + [entry]];
      return true;
    }

    /** Drains every thread's channel; `duplicate` is the branch that is called unreachable. */
    method GetAllEntries() returns (logs: Logs, duplicate: bool)
      ensures logs == recorder && !duplicate
    {
      logs, duplicate := map[], false;
      var left := recorder.Keys;
      while left != {}
        invariant left <= recorder.Keys
        invariant logs.Keys == recorder.Keys - left
        invariant forall id | id in logs :: logs[id] == recorder[id]
        invariant !duplicate
        decreases |left|
      {
        var id :| id in left;
        duplicate := duplicate || id in logs;
        logs := logs[id := recorder[id]];
        left := left - {id};
      }
    }
  }

  /** The logs that replay starts from. A log is handed out once. */
  class GlobalReplayer {
    var replayer: Logs

    constructor (logs: Logs)
      ensures replayer == logs
    {
      replayer := logs;
    }

    /** None is the panic "GlobalReplayer has no entry". */
    method TakeEntry(id: Path) returns (log: Maybe<seq<RecordEntry>>)
      modifies this
      ensures log == if id in old(replayer) then Some(old(replayer)[id]) else None
      ensures replayer == old(replayer) - {id}
    {
      if id !in replayer {
        return None;
      }
      log := Some(replayer[id]);
      replayer := replayer - {id};
    }
  }

  // ---- Writing the logs of a run ----

  datatype Sink = Sink(recorder: Logs, connected: set<Instance>)

  /** One write; None is the panic "Entry already present". */
  function Written(sink: Sink, who: Instance, id: Path, entry: RecordEntry): Maybe<Sink> {
    if who !in sink.connected && id in sink.recorder then None
    else Some(Sink(sink.recorder[id := LogOf(sink.recorder, id) + [entry]], sink.connected + {who}))
  }

  /** The thread of the operating system that has the id `t` before step `n`: the last one that was given it. */
  function Holder(trace: seq<Logged>, t: Path, n: nat): Instance
    requires n <= |trace|
  {
    if n == 0 then Root
    else if trace[n - 1].entry.event == ThreadInitialized(t) then SpawnedAt(n - 1)
    else Holder(trace, t, n - 1)
  }

  /** The recorder after the writes of the first `n` steps of a run. */
  function WriteRun(trace: seq<Logged>, n: nat): Maybe<Sink>
    requires n <= |trace|
  {
    if n == 0 then Some(Sink(map[], {}))
    else
      var before := WriteRun(trace, n - 1);
      if before.None? || trace[n - 1].Picked? then before
      else Written(before.value, Holder(trace, trace[n - 1].thread, n - 1), trace[n - 1].thread, trace[n - 1].entry)
  }

  lemma {:induction false} WrittenByAppend(a: seq<Logged>, b: seq<Logged>, t: Path)
    ensures WrittenBy(a + b, t) == WrittenBy(a, t) + WrittenBy(b, t)
  {
    if a == [] {
      assert a + b == b;
    } else {
      assert (a + b)[0] == a[0] && (a + b)[1..] == a[1..] + b;
      WrittenByAppend(a[1..], b, t);
    }
  }

  lemma WrittenByOneMore(trace: seq<Logged>, n: nat, t: Path)
    requires n < |trace|
    ensures WrittenBy(trace[..n + 1], t) == WrittenBy(trace[..n], t) + WrittenIn(trace[n], t)
  {
    WrittenByAppend(trace[..n], [trace[n]], t);
    assert trace[..n + 1] == trace[..n] + [trace[n]];
    assert WrittenBy([trace[n]], t) == WrittenIn(trace[n], t) + WrittenBy([], t);
  }

  /** However the threads' writes interleave, each log is that thread's writes in program order, and a thread
      that never wrote has none. */
  lemma {:induction false} LogsByThread(trace: seq<Logged>, n: nat, t: Path)
    requires n <= |trace| && WriteRun(trace, n).Some?
    ensures var recorder := WriteRun(trace, n).value.recorder;
            && (t in recorder <==> WrittenBy(trace[..n], t) != [])
            && LogOf(recorder, t) == WrittenBy(trace[..n], t)
  {
    if n > 0 {
      LogsByThread(trace, n - 1, t);
      WrittenByOneMore(trace, n - 1, t);
    }
  }

  lemma BornIsSpawned(threads: map<Path, Thread>, t: Path, op: Op, e: RecordEntry, ms: seq<Message>, u: Path)
    requires t in threads && Check(op, t, threads[t], e).Fine?
    requires u in ThreadsAfter(threads, t, op, e, ms) && u !in threads
    ensures e.event == ThreadInitialized(u)
  {
    assert op.Spawn? && u == ChildId(t, threads[t]);
  }

  lemma NewThreadIsSpawned(P: Program, R: Recorder, l: Logged, t: Path) returns (R': Recorder)
    requires RecordInv(R) && Recordings(P)(R, l).Some?
    ensures R' == Recordings(P)(R, l).value && RecordInv(R')
    ensures t in R'.threads ==> t in R.threads || l.entry.event == ThreadInitialized(t)
  {
    var op, ms;
    R', op, ms := RecordStep(P, R, l);
    if t in R'.threads && t !in R.threads {
      BornIsSpawned(R.threads, l.thread, op, l.entry, ms, t);
    }
  }

  /** Every thread but those at the start has been spawned. */
  lemma {:induction false} ThreadsAreSpawned(P: Program, R: Recorder, trace: seq<Logged>, t: Path) returns (k: nat)
    requires RecordInv(R) && Runs(Recordings(P), R, trace)
    ensures t in After(Recordings(P), R, trace).threads ==>
              t in R.threads || (k < |trace| && trace[k].entry.event == ThreadInitialized(t))
    decreases |trace|
  {
    k := 0;
    if trace != [] {
      var R' := NewThreadIsSpawned(P, R, trace[0], t);
      k := ThreadsAreSpawned(P, R', trace[1..], t);
      k := if trace[0].entry.event == ThreadInitialized(t) then 0 else k + 1;
    }
  }

  lemma {:induction false} HolderWasGivenIt(trace: seq<Logged>, t: Path, n: nat)
    requires n <= |trace|
    ensures match Holder(trace, t, n)
            case Root => forall k | 0 <= k < n :: trace[k].entry.event != ThreadInitialized(t)
            case SpawnedAt(k) => k < n && trace[k].entry.event == ThreadInitialized(t)
  {
    if n > 0 {
      HolderWasGivenIt(trace, t, n - 1);
    }
  }

  /** No later step gives the id of a thread that has run to a new thread. */
  lemma IdIsTaken(P: Program, arg: Payload, trace: seq<Logged>, i: nat, k: nat)
    requires Recorded(P, arg, trace) && i <= k < |trace|
    ensures trace[k].entry.event != ThreadInitialized(trace[i].thread)
  {
    if k == i {
      var R, _ := RecorderAt(P, arg, trace, i);
      IdIsTakenNow(P, R, trace[i]);
    } else {
      StartInv(arg);
      IdsAreOwn(P, Start(arg), trace);
      assert OwnId(trace[i], trace[k]);
    }
  }

  lemma IdIsTakenNow(P: Program, R: Recorder, l: Logged)
    requires RecordInv(R) && Recordings(P)(R, l).Some?
    ensures l.entry.event != ThreadInitialized(l.thread)
  {
    var R' := StepMakesId(P, R, l);
  }

  /** A thread that has run keeps its id to itself. */
  lemma {:induction false} HolderStays(P: Program, arg: Payload, trace: seq<Logged>, i: nat, n: nat)
    requires Recorded(P, arg, trace) && i <= n <= |trace| && i < |trace|
    ensures Holder(trace, trace[i].thread, n) == Holder(trace, trace[i].thread, i)
  {
    if n > i {
      HolderStays(P, arg, trace, i, n - 1);
      IdIsTaken(P, arg, trace, i, n - 1);
    }
  }

  /** Thread ids are given out once: steps have the same id exactly if they are steps of the same thread. */
  lemma OneThreadPerId(P: Program, arg: Payload, trace: seq<Logged>, i: nat, j: nat)
    requires Recorded(P, arg, trace) && i <= j < |trace|
    ensures Holder(trace, trace[i].thread, i) == Holder(trace, trace[j].thread, j) <==> trace[i].thread == trace[j].thread
  {
    if trace[i].thread == trace[j].thread {
      HolderStays(P, arg, trace, i, j);
    } else {
      HolderWasGivenIt(trace, trace[i].thread, i);
      HolderWasGivenIt(trace, trace[j].thread, j);
      UnspawnedIsRoot(P, arg, trace, i);
      UnspawnedIsRoot(P, arg, trace, j);
    }
  }

  lemma UnspawnedIsRoot(P: Program, arg: Payload, trace: seq<Logged>, i: nat)
    requires Recorded(P, arg, trace) && i < |trace|
    ensures Holder(trace, trace[i].thread, i) == Root ==> trace[i].thread == []
  {
    StartInv(arg);
    var R := RunAt(Recordings(P), Start(arg), trace, i);
    var k := ThreadsAreSpawned(P, Start(arg), trace[..i], trace[i].thread);
    HolderWasGivenIt(trace, trace[i].thread, i);
  }

  /** The threads that have written are those that have made their senders. */
  lemma {:induction false} ConnectedHaveWritten(trace: seq<Logged>, n: nat, who: Instance)
    requires n <= |trace| && WriteRun(trace, n).Some?
    ensures who in WriteRun(trace, n).value.connected <==>
            exists i :: 0 <= i < n && !trace[i].Picked? && Holder(trace, trace[i].thread, i) == who
  {
    if n > 0 {
      ConnectedHaveWritten(trace, n - 1, who);
      assert !trace[n - 1].Picked? && Holder(trace, trace[n - 1].thread, n - 1) == who ==>
               who in WriteRun(trace, n).value.connected;
    }
  }

  lemma {:induction false} WritersAreListed(trace: seq<Logged>, n: nat, t: Path)
    requires n <= |trace|
    ensures WrittenBy(trace[..n], t) != [] <==> exists i :: 0 <= i < n && !trace[i].Picked? && trace[i].thread == t
  {
    if n > 0 {
      WritersAreListed(trace, n - 1, t);
      WrittenByOneMore(trace, n - 1, t);
    }
  }

  /**
   In every record run, up to any point, the panic "Entry already present" has not happened, and a write is the first
   of its thread exactly if the recorder has no entry under the thread's id yet.
   */
  lemma {:induction false} EntryNeverPresent(P: Program, arg: Payload, trace: seq<Logged>, n: nat)
    requires Recorded(P, arg, trace) && n <= |trace|
    ensures WriteRun(trace, n).Some?
    ensures n < |trace| ==>
              (Holder(trace, trace[n].thread, n) in WriteRun(trace, n).value.connected <==>
               trace[n].thread in WriteRun(trace, n).value.recorder)
  {
    if n > 0 {
      EntryNeverPresent(P, arg, trace, n - 1);
    }
    if n < |trace| {
      FirstWriteIsFirst(P, arg, trace, n);
    }
  }

  lemma FirstWriteIsFirst(P: Program, arg: Payload, trace: seq<Logged>, n: nat)
    requires Recorded(P, arg, trace) && n < |trace| && WriteRun(trace, n).Some?
    ensures Holder(trace, trace[n].thread, n) in WriteRun(trace, n).value.connected <==>
            trace[n].thread in WriteRun(trace, n).value.recorder
  {
    var who, t := Holder(trace, trace[n].thread, n), trace[n].thread;
    ConnectedHaveWritten(trace, n, who);
    LogsByThread(trace, n, t);
    WritersAreListed(trace, n, t);
    forall i | 0 <= i < n
      ensures Holder(trace, trace[i].thread, i) == who <==> trace[i].thread == t
    {
      OneThreadPerId(P, arg, trace, i, n);
    }
  }

  /** A thread's log is there exactly if it wrote anything, and is what it wrote. */
  lemma LogIsThere(P: Program, arg: Payload, trace: seq<Logged>, id: Path)
    requires Recorded(P, arg, trace)
    ensures var logs := RecordedLogs(P, arg, trace);
            && (id in logs <==> WrittenBy(trace, id) != []) && LogOf(logs, id) == WrittenBy(trace, id)
  {
    StartInv(arg);
    LogsAreWhatWasWritten(P, Start(arg), trace, id);
    NothingAdded(WrittenBy(trace, id));
  }

  /** Log round trip: what the recorder holds after a record run is what replay of that run starts from. */
  lemma RecorderHoldsTheLogs(P: Program, arg: Payload, trace: seq<Logged>)
    requires Recorded(P, arg, trace)
    ensures WriteRun(trace, |trace|).Some? && WriteRun(trace, |trace|).value.recorder == RecordedLogs(P, arg, trace)
  {
    EntryNeverPresent(P, arg, trace, |trace|);
    assert trace[..|trace|] == trace;
    var recorder, logs := WriteRun(trace, |trace|).value.recorder, RecordedLogs(P, arg, trace);
    forall t
      ensures (t in recorder <==> t in logs) && LogOf(recorder, t) == LogOf(logs, t)
    {
      LogsByThread(trace, |trace|, t);
      LogIsThere(P, arg, trace, t);
    }
  }

  // ---- Reading them back ----

  /** What the k-th call for an entry returns. */
  function Fetch(log: seq<RecordEntry>, k: nat): Fetched {
    if k < |log| then Entry(log[k]) else NoEntry
  }

  /** A thread that asks for an entry so many times. */
  method FetchAll(log: seq<RecordEntry>, calls: nat) returns (got: seq<Fetched>)
    ensures |got| == calls && forall k | 0 <= k < calls :: got[k] == Fetch(log, k)
  {
    got := [];
    var reader := new EventRecorder(log);
    while |got| < calls
      invariant reader.Valid() && reader.log == log && fresh(reader)
      invariant |got| <= calls && reader.next == if |got| < |log| then |got| else |log|
      invariant forall k | 0 <= k < |got| :: got[k] == Fetch(log, k)
    {
      var r := reader.GetLogEntry();
      got := got + [r];
    }
  }

  /**
   A replaying thread takes its log and asks for an entry so many times. It gets what the thread with its id wrote in
   the record run, once each and in order, and then nothing. The log is there exactly if that thread wrote anything, and
   nobody gets it again.
   */
  method ReadBack(ghost P: Program, ghost arg: Payload, ghost trace: seq<Logged>, replayer: GlobalReplayer, id: Path,
      calls: nat)
    returns (taken: bool, got: seq<Fetched>, again: Maybe<seq<RecordEntry>>)
    requires Recorded(P, arg, trace) && replayer.replayer == RecordedLogs(P, arg, trace)
    modifies replayer
    ensures taken <==> WrittenBy(trace, id) != []
    ensures taken ==> |got| == calls && forall k | 0 <= k < calls :: got[k] == Fetch(WrittenBy(trace, id), k)
    ensures again == None
    ensures replayer.replayer == old(replayer.replayer) - {id}
  {
    LogIsThere(P, arg, trace, id);
    var log := replayer.TakeEntry(id);
    taken, got := log.Some?, [];
    if taken {
      got := FetchAll(log.value, calls);
    }
    again := replayer.TakeEntry(id);
  }
}
