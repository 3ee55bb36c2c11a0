/**
 What happens to a program that does something else between the two phases of a crossbeam select.

 Record mode writes the entry of a select when the second phase receives (src/crossbeam_select.rs:225-234 and
 445-463), replay takes it in the first (src/crossbeam_select.rs:240). If the thread logs an operation in
 between, its log has that operation where replay looks for the select.
 */
module SplitSelects {
  import opened Confluence
  import opened Following
  import opened Identities
  import opened Promises
  import opened Protocol
  import opened Recording
  import opened RecordLog
  import opened Refinement
  import opened ReplayEngine
  import opened Replaying

  /** No thread logs another operation between a select and its completion. */
  ghost predicate NothingBetween(trace: seq<Logged>) {
    forall i | 0 <= i < |trace| && trace[i].Picked? ::
      var next := NextOf(trace[i + 1..], trace[i].thread);
      !(next.Some? && next.value.Wrote?)
  }

  /** No thread makes a select while another one of its own is open. */
  ghost predicate OneAtATime(trace: seq<Logged>) {
    forall i | 0 <= i < |trace| && trace[i].Picked? ::
      var next := NextOf(trace[i + 1..], trace[i].thread);
      !(next.Some? && next.value.Picked?)
  }

  /** Some replay of the log comes to an operation that its log entry does not fit. */
  ghost predicate CanDesync(P: Program, arg: Payload, trace: seq<Logged>)
    requires Recorded(P, arg, trace)
  {
    exists C, t ::
      Reaches(P, arg, trace, C) && t in C.threads && StatusOf(P, RecordedLogs(P, arg, trace), C.threads, t).Desyncs?
  }

  /** The first select that is not completed at once. */
  lemma FirstInterrupted(trace: seq<Logged>) returns (j: nat)
    requires !Orderly(trace)
    ensures j < |trace| && OrderlyUpTo(trace, j) && trace[j].Picked?
    ensures NextOf(trace[j + 1..], trace[j].thread).Some? && !NextOf(trace[j + 1..], trace[j].thread).value.Completed?
  {
    j := 0;
    while j < |trace|
          && !(trace[j].Picked?
               && NextOf(trace[j + 1..], trace[j].thread).Some?
               && !NextOf(trace[j + 1..], trace[j].thread).value.Completed?)
      invariant j <= |trace| && OrderlyUpTo(trace, j)
    {
      j := j + 1;
    }
  }

  /** A replay that gets to a select with another entry in the log: the concrete replay gets there too. */
  lemma OtherEntryDesyncs(P: Program, arg: Payload, trace: seq<Logged>, schedule: seq<Path>, t: Path)
    returns (C: Replayer)
    requires Recorded(P, arg, trace) && Runs(Stepping(P, RecordedLogs(P, arg, trace)), Initial(arg), schedule)
    requires var logs := RecordedLogs(P, arg, trace);
             var S := After(Stepping(P, logs), Initial(arg), schedule);
             && HasEntry(P, logs, S.threads, t) && OpOf(P, t, S.threads[t]).SelectOp?
             && !NextEntry(P, logs, S.threads, t).event.CrossbeamSelect?
    ensures var logs := RecordedLogs(P, arg, trace);
            var S := After(Stepping(P, logs), Initial(arg), schedule);
            && Reaches(P, arg, trace, C) && t in C.threads
            && OpOf(P, t, C.threads[t]).SelectOp?
            && StatusOf(P, logs, C.threads, t) == Desyncs(EventMismatch(NextEntry(P, logs, S.threads, t).event))
  {
    var logs := RecordedLogs(P, arg, trace);
    InitialInv(arg);
    assert StandsFor(P, logs, Begin(arg), Initial(arg));
    var turns := RealiseAll(P, logs, Begin(arg), Initial(arg), schedule);
    C := After(Replays(P, logs), Begin(arg), turns);
  }

  /**
   The first select that is interrupted by a logged operation desynchronises its own replay: the thread gets there
   as it did when recording, and finds the entry of that operation.
   */
  lemma InterruptedSelectDesyncs(P: Program, arg: Payload, trace: seq<Logged>, j: nat) returns (C: Replayer)
    requires Recorded(P, arg, trace) && OrderlyUpTo(trace, j) && j < |trace| && trace[j].Picked?
    requires NextOf(trace[j + 1..], trace[j].thread).Some? && NextOf(trace[j + 1..], trace[j].thread).value.Wrote?
    ensures var t := trace[j].thread;
            && Reaches(P, arg, trace, C) && t in C.threads
            && OpOf(P, t, C.threads[t]).SelectOp?
            && StatusOf(P, RecordedLogs(P, arg, trace), C.threads, t)
               == Desyncs(EventMismatch(NextOf(trace[j + 1..], t).value.entry.event))
  {
    var steps, rest := trace[..j], trace[j..];
    assert steps + rest == trace && rest[0] == trace[j] && rest[1..] == trace[j + 1..];
    var schedule := SelectFindsOtherEntry(P, arg, steps, rest);
    C := OtherEntryDesyncs(P, arg, trace, schedule, trace[j].thread);
  }

  /**
   Replay of a record run meets a mismatch in some interleaving if and only if some thread of the record run logged
   an operation between a select and its completion.
   */
  lemma DesyncsIffInterrupted(P: Program, arg: Payload, trace: seq<Logged>)
    requires Recorded(P, arg, trace) && OneAtATime(trace)
    ensures CanDesync(P, arg, trace) <==> !NothingBetween(trace)
  {
    if !NothingBetween(trace) {
      var j := FirstInterrupted(trace);
      var C := InterruptedSelectDesyncs(P, arg, trace, j);
    } else if CanDesync(P, arg, trace) {
      var C, t :| Reaches(P, arg, trace, C) && t in C.threads
                  && StatusOf(P, RecordedLogs(P, arg, trace), C.threads, t).Desyncs?;
      assert Orderly(trace);
      ReplayNeverDesyncs(P, arg, trace, C, t);
    }
  }

  // ---- Such a program ----

  const OWN := Metadata(CbUnbounded, DetChannelId([], 1))

  /** One thread: it makes a channel, sends itself a message, selects, sends another one, and only then receives. */
  function SendsBetween(t: Path, arg: Payload, history: seq<Outcome>): Op {
    if |history| == 0 then NewChannel(CbUnbounded)
    else if |history| == 1 || |history| == 3 then Send(OWN, [], {})
    else if |history| == 2 then SelectOp([OWN])
    else if |history| == 4 then Complete(0, OWN)
    else Exit
  }

  const CREATION := RecordEntry(ChannelCreation, CbUnbounded, DetChannelId([], 1))
  const SENDING := RecordEntry(CrossbeamSender, CbUnbounded, DetChannelId([], 1))
  const SELECTING := RecordEntry(CrossbeamSelect(Success([], 0)), CbUnbounded, DetChannelId([], 1))

  const RUN := [Wrote([], CREATION), Wrote([], SENDING), Picked([], SELECTING), Wrote([], SENDING),
                Completed([], SELECTING)]

  const CREATED := Outcome(CREATION, [])
  const SENT := Outcome(SENDING, [])
  const FIRST := DetMessage([], Message([], 1))
  const SECOND := DetMessage([], Message([], 3))

  /** The recorder after some steps of the run: what the thread has learnt, its open selects, wires and log. */
  function OneThread(history: seq<Outcome>, open: seq<RecordEntry>, taken: nat, wires: Wires,
      log: seq<RecordEntry>): Recorder {
    Recorder(map[[] := Thread([], history, 0, 1, open, taken)], wires, map[OWN.id := Held([])], map[[] := log])
  }

  function After1(): Recorder {
    OneThread([CREATED], [], 1, map[], [CREATION])
  }

  function After2(): Recorder {
    OneThread([CREATED, SENT], [], 2, map[OWN.id := [FIRST]], [CREATION, SENDING])
  }

  function After3(): Recorder {
    OneThread([CREATED, SENT, Chosen(0)], [SELECTING], 3, map[OWN.id := [FIRST]], [CREATION, SENDING])
  }

  function After4(): Recorder {
    OneThread([CREATED, SENT, Chosen(0), SENT], [SELECTING], 4, map[OWN.id := [FIRST, SECOND]], [CREATION, SENDING, SENDING])
  }

  /** What a step that spawns nothing makes of the only thread and of its log. */
  lemma Alone(P: Program, R: Recorder, e: RecordEntry, before: Thread, log: seq<RecordEntry>)
    requires R.threads == map[[] := before] && LogOf(R.logs, []) == log && R.logs.Keys <= {[]}
    requires CanRecord(P, R, [], e) && !OpOf(P, [], before).Spawn?
    ensures var op := OpOf(P, [], before);
            var R' := Record(P, R, [], e);
            && R'.threads == map[[] := Advanced(op, before, e, Read(R.wires, Ahead(op, before), Picks(op, [], before, e)))]
            && R'.logs == if op.SelectOp? then R.logs else map[[] := log + [e]]
  {
    var op := OpOf(P, [], before);
    var R' := Record(P, R, [], e);
    assert R'.threads == R.threads[[] := Advanced(op, before, e, Read(R.wires, Ahead(op, before), Picks(op, [], before, e)))]
                         + map[];
  }

  lemma NothingPaid()
    ensures Payloads([]) == []
  {
  }

  lemma Creates()
    ensures Recordings(SendsBetween)(Start([]), Wrote([], CREATION)) == Some(After1())
  {
    assert CanRecord(SendsBetween, Start([]), [], CREATION);
    Alone(SendsBetween, Start([]), CREATION, NewThread([]), []);
    NothingPaid();
    NothingAdded([CREATED]);
    NothingAdded([CREATION]);
    var R := Record(SendsBetween, Start([]), [], CREATION);
    assert R.wires == map[] && R.home == map[OWN.id := Held([])];
  }

  lemma SendsFirst()
    ensures Recordings(SendsBetween)(After1(), Wrote([], SENDING)) == Some(After2())
  {
    assert OpOf(SendsBetween, [], After1().threads[[]]) == Send(OWN, [], {});
    assert CanRecord(SendsBetween, After1(), [], SENDING);
    Alone(SendsBetween, After1(), SENDING, After1().threads[[]], [CREATION]);
    NothingPaid();
    NothingAdded([FIRST]);
    assert [CREATED] + [SENT] == [CREATED, SENT] && [CREATION] + [SENDING] == [CREATION, SENDING];
    var R := Record(SendsBetween, After1(), [], SENDING);
    assert R.wires == map[OWN.id := [FIRST]] && R.home == map[OWN.id := Held([])];
  }

  lemma MaySelect()
    ensures OpOf(SendsBetween, [], After2().threads[[]]) == SelectOp([OWN])
    ensures CanRecord(SendsBetween, After2(), [], SELECTING)
  {
    var th := After2().threads[[]];
    assert Picks(SelectOp([OWN]), [], th, SELECTING) == [];
    assert Polls(SelectOp([OWN]), [], th, SELECTING) == [QueueId(OWN.id, [])];
    assert InOrder(After2().wires, [], [QueueId(OWN.id, [])]);
  }

  lemma PickLeavesMessages()
    requires CanRecord(SendsBetween, After2(), [], SELECTING)
    ensures Record(SendsBetween, After2(), [], SELECTING).wires == After2().wires
    ensures Record(SendsBetween, After2(), [], SELECTING).home == After2().home
  {
    assert Picks(SelectOp([OWN]), [], After2().threads[[]], SELECTING) == [];
  }

  lemma Selects()
    ensures Recordings(SendsBetween)(After2(), Picked([], SELECTING)) == Some(After3())
  {
    MaySelect();
    Alone(SendsBetween, After2(), SELECTING, After2().threads[[]], [CREATION, SENDING]);
    NothingAdded([SELECTING]);
    assert [CREATED, SENT] + [Chosen(0)] == [CREATED, SENT, Chosen(0)];
    PickLeavesMessages();
  }

  lemma SendArrives()
    requires CanRecord(SendsBetween, After3(), [], SENDING)
    ensures Record(SendsBetween, After3(), [], SENDING).wires == After4().wires
    ensures Record(SendsBetween, After3(), [], SENDING).home == After4().home
  {
    assert [FIRST] + [SECOND] == [FIRST, SECOND];
    assert OpOf(SendsBetween, [], After3().threads[[]]) == Send(OWN, [], {});
  }

  lemma SendsAgain()
    ensures Recordings(SendsBetween)(After3(), Wrote([], SENDING)) == Some(After4())
  {
    assert OpOf(SendsBetween, [], After3().threads[[]]) == Send(OWN, [], {});
    assert CanRecord(SendsBetween, After3(), [], SENDING);
    Alone(SendsBetween, After3(), SENDING, After3().threads[[]], [CREATION, SENDING]);
    NothingPaid();
    assert [CREATED, SENT, Chosen(0)] + [SENT] == [CREATED, SENT, Chosen(0), SENT];
    assert [CREATION, SENDING] + [SENDING] == [CREATION, SENDING, SENDING];
    SendArrives();
  }

  lemma Completes()
    ensures Recordings(SendsBetween)(After4(), Completed([], SELECTING)).Some?
  {
    assert OpOf(SendsBetween, [], After4().threads[[]]) == Complete(0, OWN);
    assert CanRecord(SendsBetween, After4(), [], SELECTING);
  }

  /** The last three steps of the run. */
  lemma EndOfRun()
    ensures Runs(Recordings(SendsBetween), After2(),
                 [Picked([], SELECTING)] + ([Wrote([], SENDING)] + [Completed([], SELECTING)]))
  {
    var step := Recordings(SendsBetween);
    Selects();
    SendsAgain();
    Completes();
    RunOne(step, After4(), step(After4(), Completed([], SELECTING)).value, Completed([], SELECTING));
    RunFirst(step, After3(), After4(), Wrote([], SENDING), [Completed([], SELECTING)]);
    RunFirst(step, After2(), After3(), Picked([], SELECTING), [Wrote([], SENDING)] + [Completed([], SELECTING)]);
  }

  lemma WholeRun()
    ensures Runs(Recordings(SendsBetween), Start([]),
                 [Wrote([], CREATION)] + ([Wrote([], SENDING)]
                 + ([Picked([], SELECTING)] + ([Wrote([], SENDING)] + [Completed([], SELECTING)]))))
  {
    var step := Recordings(SendsBetween);
    Creates();
    SendsFirst();
    EndOfRun();
    var last := [Picked([], SELECTING)] + ([Wrote([], SENDING)] + [Completed([], SELECTING)]);
    RunFirst(step, After1(), After2(), Wrote([], SENDING), last);
    RunFirst(step, Start([]), After1(), Wrote([], CREATION), [Wrote([], SENDING)] + last);
  }

  lemma RunListed()
    ensures RUN == [Wrote([], CREATION)] + ([Wrote([], SENDING)]
                   + ([Picked([], SELECTING)] + ([Wrote([], SENDING)] + [Completed([], SELECTING)])))
  {
  }

  lemma RunIsInterrupted()
    ensures OneAtATime(RUN) && !NothingBetween(RUN) && OrderlyUpTo(RUN, 2)
    ensures RUN[2].Picked? && NextOf(RUN[3..], []) == Some(Wrote([], SENDING))
  {
    assert RUN[3..][0] == RUN[3] == Wrote([], SENDING);
    assert RUN[2] == Picked([], SELECTING) && NextOf(RUN[2 + 1..], RUN[2].thread) == Some(Wrote([], SENDING));
  }

  /** The program records without trouble, and its own log desynchronises its replay. */
  lemma SendsBetweenDesyncs() returns (C: Replayer)
    ensures Recorded(SendsBetween, [], RUN) && OneAtATime(RUN) && !NothingBetween(RUN)
    ensures Reaches(SendsBetween, [], RUN, C) && [] in C.threads
    ensures StatusOf(SendsBetween, RecordedLogs(SendsBetween, [], RUN), C.threads, []) == Desyncs(EventMismatch(CrossbeamSender))
  {
    WholeRun();
    RunListed();
    RunIsInterrupted();
    C := InterruptedSelectDesyncs(SendsBetween, [], RUN, 2);
  }
}
