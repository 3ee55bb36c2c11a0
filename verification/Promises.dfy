/**
 What record and replay promise together (src/test.rs:130-147 asks it of every test program): a replay
 sees what the record saw.

 All statements are about one record run, in any interleaving and with any errors that the channels
 report, and any replay run of its logs, in any interleaving of the threads' turns and with any timing
 of the messages.
 */
module Promises {
  import opened Confluence
  import opened Following
  import opened Identities
  import opened Protocol
  import opened Recording
  import opened RecordLog
  import opened ReplayEngine
  import opened Replaying
  import opened ReplayOrder
  import opened Refinement

  /** A record run of the program, to its present end. */
  ghost predicate Recorded(P: Program, arg: Payload, trace: seq<Logged>) {
    Runs(Recordings(P), Start(arg), trace)
  }

  ghost function RecordEnd(P: Program, arg: Payload, trace: seq<Logged>): Recorder
    requires Recorded(P, arg, trace)
  {
    After(Recordings(P), Start(arg), trace)
  }

  ghost function RecordedLogs(P: Program, arg: Payload, trace: seq<Logged>): Logs
    requires Recorded(P, arg, trace)
  {
    RecordEnd(P, arg, trace).logs
  }

  /** Replay of the recorded logs can reach `C`. */
  ghost predicate Reaches(P: Program, arg: Payload, trace: seq<Logged>, C: Replayer)
    requires Recorded(P, arg, trace)
  {
    exists turns ::
      Runs(Replays(P, RecordedLogs(P, arg, trace)), Begin(arg), turns) &&
      After(Replays(P, RecordedLogs(P, arg, trace)), Begin(arg), turns) == C
  }

  /** A reachable replay state stands for pending queues that some schedule reaches. */
  lemma ReachedStandsFor(P: Program, arg: Payload, trace: seq<Logged>, C: Replayer)
    returns (S: State, schedule: seq<Path>)
    requires Recorded(P, arg, trace) && Reaches(P, arg, trace, C)
    ensures var logs := RecordedLogs(P, arg, trace);
            && Runs(Stepping(P, logs), Initial(arg), schedule)
            && S == After(Stepping(P, logs), Initial(arg), schedule)
            && StandsFor(P, logs, C, S)
  {
    var logs := RecordedLogs(P, arg, trace);
    var turns :| Runs(Replays(P, logs), Begin(arg), turns) && After(Replays(P, logs), Begin(arg), turns) == C;
    InitialInv(arg);
    assert StandsFor(P, logs, Begin(arg), Initial(arg));
    schedule := ReplayRefines(P, logs, Begin(arg), Initial(arg), turns);
    S := After(Stepping(P, logs), Initial(arg), schedule);
  }

  /** Where the logs of a record run lead: to its end, but for selects that were never completed. */
  ghost predicate IsRecordedEnd(R: Recorder, S: State) {
    S.threads == SettledThreads(R.threads) && S.home == R.home && SameQueues(R.wires, S.queues)
  }

  /**
   A reachable replay state stands for pending queues that completed operations have led to, and from which the
   rest of the logs leads to the recorded end.
   */
  lemma Course(P: Program, arg: Payload, trace: seq<Logged>, C: Replayer)
    returns (S: State, completed: seq<Path>, rest: seq<Path>)
    requires Recorded(P, arg, trace) && Orderly(trace) && Reaches(P, arg, trace, C)
    ensures var logs, R := RecordedLogs(P, arg, trace), RecordEnd(P, arg, trace);
            && Inv(Initial(arg)) && Runs(Stepping(P, logs), Initial(arg), completed)
            && S == After(Stepping(P, logs), Initial(arg), completed)
            && Inv(S) && StandsFor(P, logs, C, S)
            && |completed| + |rest| + |Unfinished(R.threads)| == |trace|
            && Runs(Stepping(P, logs), S, rest)
            && IsRecordedEnd(R, After(Stepping(P, logs), S, rest))
            && Exhausted(P, logs, After(Stepping(P, logs), S, rest).threads)
  {
    S, completed := ReachedStandsFor(P, arg, trace, C);
    var schedule := RecordedRunReplays(P, arg, trace);
    InitialInv(arg);
    rest := JoinReplay(P, RecordedLogs(P, arg, trace), Initial(arg), schedule, completed);
  }

  /** A replay on pending queues can be completed to the end that another one has reached. */
  lemma JoinReplay(P: Program, logs: Logs, S: State, schedule: seq<Path>, other: seq<Path>) returns (rest: seq<Path>)
    requires Inv(S) && Runs(Stepping(P, logs), S, schedule) && Runs(Stepping(P, logs), S, other)
    requires Exhausted(P, logs, After(Stepping(P, logs), S, schedule).threads)
    ensures |other| + |rest| == |schedule|
    ensures Inv(After(Stepping(P, logs), S, other))
    ensures Runs(Stepping(P, logs), After(Stepping(P, logs), S, other), rest)
    ensures After(Stepping(P, logs), After(Stepping(P, logs), S, other), rest) == After(Stepping(P, logs), S, schedule)
  {
    InvOnRun(P, logs, S, other);
    SteppingKeeps(P, logs);
    SteppingCommutes(P, logs);
    ExhaustedIsStuck(P, logs, After(Stepping(P, logs), S, schedule));
    rest := Join(Stepping(P, logs), Inv, S, schedule, other);
  }

  lemma InvOnRun(P: Program, logs: Logs, S: State, schedule: seq<Path>)
    requires Inv(S) && Runs(Stepping(P, logs), S, schedule)
    ensures Inv(After(Stepping(P, logs), S, schedule))
  {
    SteppingKeeps(P, logs);
    RunKeeps(Stepping(P, logs), Inv, S, schedule);
  }

  lemma ExhaustedIsStuck(P: Program, logs: Logs, S: State)
    requires Exhausted(P, logs, S.threads)
    ensures Stuck(Stepping(P, logs), S)
  {
  }

  lemma OnCourse(P: Program, arg: Payload, trace: seq<Logged>, C: Replayer) returns (S: State, rest: seq<Path>)
    requires Recorded(P, arg, trace) && Orderly(trace) && Reaches(P, arg, trace, C)
    ensures var logs := RecordedLogs(P, arg, trace);
            && Inv(S) && StandsFor(P, logs, C, S)
            && Runs(Stepping(P, logs), S, rest)
            && IsRecordedEnd(RecordEnd(P, arg, trace), After(Stepping(P, logs), S, rest))
            && Exhausted(P, logs, After(Stepping(P, logs), S, rest).threads)
  {
    var completed;
    S, completed, rest := Course(P, arg, trace, C);
  }

  /**
   Determinism: in every state that replay can reach, every thread is a thread of the record run and has
   seen just what that thread saw there, as far as it has got.
   */
  lemma ReplayDeterminism(P: Program, arg: Payload, trace: seq<Logged>, C: Replayer, t: Path)
    requires Recorded(P, arg, trace) && Orderly(trace) && Reaches(P, arg, trace, C) && t in C.threads
    ensures var R := RecordEnd(P, arg, trace);
            && t in R.threads
            && C.threads[t].arg == R.threads[t].arg
            && C.threads[t].history <= R.threads[t].history
  {
    var S, rest := OnCourse(P, arg, trace, C);
    RunGrows(P, RecordedLogs(P, arg, trace), S, rest, t);
  }

  /** What becomes of a replaying thread at its next operation. */
  datatype Status =
    | Proceeds                      // its log entry passes the checks; it may wait for messages
    | Desyncs(error: DesyncError)   // its log entry fails them
    | Sleeps                        // no entry left: parked until some thread desynchronises
    | Panics                        // no entry left, for an operation that cannot be put to sleep
    | Finished

  /**
   The end of a log. Sends, receives and selects go to sleep. Creating a channel, spawning a thread and
   adding to a select panic, and so does any operation of a thread that has no log at all. Only a select that is
   open can be completed.
   */
  function EndOfLog(op: Op, hasLog: bool): Status {
    if op.Exit? || op.Complete? then Finished
    else if hasLog && (op.Send? || op.Recv? || op.SelectOp? || op.IpcSelectOp?) then Sleeps
    else Panics
  }

  function StatusOf(P: Program, logs: Logs, threads: map<Path, Thread>, t: Path): Status
    requires t in threads
  {
    var op := OpOf(P, t, threads[t]);
    if !HasEntry(P, logs, threads, t) then EndOfLog(op, t in logs)
    else match Check(op, t, threads[t], NextEntry(P, logs, threads, t))
      case Fine => Proceeds
      case Bad(e) => Desyncs(e)
  }

  /** A thread has an entry to follow exactly while it is short of its end, and that entry passes the checks. */
  lemma FollowsToItsEnd(P: Program, logs: Logs, S: State, rest: seq<Path>, t: Path)
    requires Inv(S) && Runs(Stepping(P, logs), S, rest) && t in S.threads
    requires Exhausted(P, logs, After(Stepping(P, logs), S, rest).threads)
    ensures t in After(Stepping(P, logs), S, rest).threads
    ensures HasEntry(P, logs, S.threads, t) <==> S.threads[t] != After(Stepping(P, logs), S, rest).threads[t]
    ensures HasEntry(P, logs, S.threads, t) ==>
              && StatusOf(P, logs, S.threads, t) == Proceeds
              && MayAttempt(S.home, t, OpOf(P, t, S.threads[t]))
  {
    if HasEntry(P, logs, S.threads, t) {
      RunGrows(P, logs, S, rest, t);
      assert !HasEntry(P, logs, After(Stepping(P, logs), S, rest).threads, t);
      NextEntryFits(P, logs, S, rest, t);
    } else {
      WithoutEntry(P, logs, S, rest, t);
    }
  }

  /**
   No mismatch: a replaying thread never finds an event, a variant, a channel id or an index in its log
   other than its own, and it has the receivers that it needs. When it reaches the end of its log it is
   the recorded thread at the point where recording stopped, or at the select that was never completed, so
   that what becomes of it there, a panic in particular, can be read off the record run.
   */
  lemma ReplayNeverDesyncs(P: Program, arg: Payload, trace: seq<Logged>, C: Replayer, t: Path)
    requires Recorded(P, arg, trace) && Orderly(trace) && Reaches(P, arg, trace, C) && t in C.threads
    ensures var R, logs := RecordEnd(P, arg, trace), RecordedLogs(P, arg, trace);
            && t in R.threads
            && var end := SettledThread(R.threads[t]);
            && (StatusOf(P, logs, C.threads, t) == Proceeds <==> C.threads[t] != end)
            && (StatusOf(P, logs, C.threads, t).Proceeds? ==> MayAttempt(C.home, t, OpOf(P, t, C.threads[t])))
            && (C.threads[t] == end ==>
                  var op, status := OpOf(P, t, end), StatusOf(P, logs, C.threads, t);
                  && (status.Finished? <==> op.Exit? || op.Complete?)
                  && (status.Sleeps? <==> t in logs && (op.Send? || op.Recv? || op.SelectOp? || op.IpcSelectOp?))
                  && (status.Panics? <==> !status.Finished? && !status.Sleeps?))
  {
    var R, logs := RecordEnd(P, arg, trace), RecordedLogs(P, arg, trace);
    var S, rest := OnCourse(P, arg, trace, C);
    FollowsToItsEnd(P, logs, S, rest, t);
  }

  // ---- Progress ----

  /** The thread draws the next message that is missing, in one turn. */
  lemma DrawOne(P: Program, logs: Logs, C: Replayer, S: State, t: Path) returns (turn: Turn, C': Replayer)
    requires StandsFor(P, logs, C, S) && CanStep(P, logs, S, t)
    requires |Hand(C.hands, t)| < |NextPicks(P, logs, S.threads, t)|
    ensures Replays(P, logs)(C, turn) == Some(C') && turn.thread == t
    ensures StandsFor(P, logs, C', S) && |Hand(C'.hands, t)| == |Hand(C.hands, t)| + 1
  {
    var q := NextPicks(P, logs, S.threads, t)[|Hand(C.hands, t)|];
    turn := Turn(t, |WireOf(C.wires, q.chan)|);
    var m := MissingIsThere(P, logs, C, S, t, q, turn.patience);
    DrawSomething(P, logs, C, S, t, q, turn.patience, m);
    C' := Draw(C, t, q, turn.patience);
  }

  /** The thread draws what is still missing, one message a turn. */
  lemma {:induction false} DrawAll(P: Program, logs: Logs, C: Replayer, S: State, t: Path) returns (turns: seq<Turn>)
    requires StandsFor(P, logs, C, S) && CanStep(P, logs, S, t)
    requires |Hand(C.hands, t)| <= |NextPicks(P, logs, S.threads, t)|
    ensures Runs(Replays(P, logs), C, turns)
    ensures Full(P, logs, After(Replays(P, logs), C, turns), S, t)
    ensures forall turn | turn in turns :: turn.thread == t
    decreases |NextPicks(P, logs, S.threads, t)| - |Hand(C.hands, t)|
  {
    if |Hand(C.hands, t)| == |NextPicks(P, logs, S.threads, t)| {
      turns := PollAll(P, logs, C, S, t);
    } else {
      var turn, C' := DrawOne(P, logs, C, S, t);
      var rest := DrawAll(P, logs, C', S, t);
      turns := [turn] + rest;
      RunFirst(Replays(P, logs), C, C', turn, rest);
    }
  }

  /** A select polls once, with patience for the whole wire. */
  lemma PollAll(P: Program, logs: Logs, C: Replayer, S: State, t: Path) returns (turns: seq<Turn>)
    requires StandsFor(P, logs, C, S) && CanStep(P, logs, S, t)
    requires |Hand(C.hands, t)| == |NextPicks(P, logs, S.threads, t)|
    ensures Runs(Replays(P, logs), C, turns)
    ensures Full(P, logs, After(Replays(P, logs), C, turns), S, t)
    ensures forall turn | turn in turns :: turn.thread == t
  {
    var polls := NextPolls(P, logs, S.threads, t);
    if Polled(C.buffers, polls) {
      turns := [];
    } else {
      var q := polls[0];
      var patience := |WireOf(C.wires, q.chan)|;
      PollKeeps(P, logs, C, S, q, patience);
      PolledMessageIsThere(P, logs, C, S, t, patience);
      turns := [Turn(t, patience)];
      assert Replays(P, logs)(C, turns[0]) == Some(Poll(C, q, patience));
      RunOne(Replays(P, logs), C, Poll(C, q, patience), turns[0]);
    }
  }

  lemma PolledMessageIsThere(P: Program, logs: Logs, C: Replayer, S: State, t: Path, patience: nat)
    requires StandsFor(P, logs, C, S) && CanStep(P, logs, S, t)
    requires |Hand(C.hands, t)| == |NextPicks(P, logs, S.threads, t)|
    requires !Polled(C.buffers, NextPolls(P, logs, S.threads, t))
    requires patience >= |WireOf(C.wires, NextPolls(P, logs, S.threads, t)[0].chan)|
    ensures Polled(Poll(C, NextPolls(P, logs, S.threads, t)[0], patience).buffers, NextPolls(P, logs, S.threads, t))
  {
    var polls := NextPolls(P, logs, S.threads, t);
    var q := polls[0];
    var b, w := BufferOf(C.buffers, q.chan), WireOf(C.wires, q.chan);
    PollsHeld(S.home, OpOf(P, t, S.threads[t]), t, S.threads[t], NextEntry(P, logs, S.threads, t), q);
    NothingDrawn(P, logs, S, C.hands, q.chan);
    assert Pending(b, w, q.sender) == Queue(Undrawn(P, logs, S, C.hands, q.chan), QueueId(q.chan, q.sender));
    assert QueueId(q.chan, q.sender) == q;
    PatientRecv(q.sender, b, w, patience, false);
    PollRefines(q.sender, b, w, patience, false);
  }

  /** If the whole operation is possible on pending queues, the queue of its next message has one, */
  lemma MissingIsPending(P: Program, logs: Logs, S: State, t: Path, hand: seq<Message>)
    requires CanStep(P, logs, S, t) && |hand| < |NextPicks(P, logs, S.threads, t)|
    requires hand != [] ==> HandFits(P, logs, S, t, hand)
    ensures Queue(Remaining(S.queues, Drawn(P, logs, S, t, hand)), NextPicks(P, logs, S.threads, t)[|hand|]) != []
  {
    var picks, drawn := NextPicks(P, logs, S.threads, t), Drawn(P, logs, S, t, hand);
    TakeAppend(S.queues, drawn, picks[|hand|..]);
    assert picks == drawn + picks[|hand|..];
  }

  /** and the message is on the wire or in the buffer. */
  lemma MissingIsThere(P: Program, logs: Logs, C: Replayer, S: State, t: Path, q: QueueId, patience: nat)
    returns (m: Message)
    requires StandsFor(P, logs, C, S) && CanStep(P, logs, S, t)
    requires |Hand(C.hands, t)| < |NextPicks(P, logs, S.threads, t)|
    requires q == NextPicks(P, logs, S.threads, t)[|Hand(C.hands, t)|]
    requires patience >= |WireOf(C.wires, q.chan)|
    ensures RecvExpected(q.sender, BufferOf(C.buffers, q.chan), WireOf(C.wires, q.chan), patience, false).result == Got(m)
  {
    var hand := Hand(C.hands, t);
    MissingIsPending(P, logs, S, t, hand);
    NextPickHeld(P, logs, S, t, |hand|);
    assert Pending(BufferOf(C.buffers, q.chan), WireOf(C.wires, q.chan), q.sender) ==
           Queue(Undrawn(P, logs, S, C.hands, q.chan), QueueId(q.chan, q.sender));
    assert QueueId(q.chan, q.sender) == q;
    PatientRecv(q.sender, BufferOf(C.buffers, q.chan), WireOf(C.wires, q.chan), patience, false);
    m := RecvExpected(q.sender, BufferOf(C.buffers, q.chan), WireOf(C.wires, q.chan), patience, false).result.value;
  }

  /** A step that is possible on pending queues is possible with wires and buffers, in turns of that thread alone. */
  lemma Realise(P: Program, logs: Logs, C: Replayer, S: State, t: Path) returns (turns: seq<Turn>)
    requires Inv(S) && StandsFor(P, logs, C, S) && CanStep(P, logs, S, t)
    ensures Runs(Replays(P, logs), C, turns)
    ensures StandsFor(P, logs, After(Replays(P, logs), C, turns), Next(P, logs, S, t))
    ensures forall turn | turn in turns :: turn.thread == t
  {
    var draws := DrawAll(P, logs, C, S, t);
    var C1 := After(Replays(P, logs), C, draws);
    var last := CompleteTurn(P, logs, C1, S, t);
    RunAppend(Replays(P, logs), C, draws, last);
    turns := draws + last;
  }

  lemma CompleteTurn(P: Program, logs: Logs, C: Replayer, S: State, t: Path) returns (turns: seq<Turn>)
    requires Inv(S) && Full(P, logs, C, S, t)
    ensures CanStep(P, logs, S, t)
    ensures Runs(Replays(P, logs), C, turns)
    ensures StandsFor(P, logs, After(Replays(P, logs), C, turns), Next(P, logs, S, t))
    ensures forall turn | turn in turns :: turn.thread == t
  {
    ConcludeRefines(P, logs, C, S, t);
    turns := [Turn(t, 0)];
    CompletesInOneTurn(P, logs, C, S, t);
    RunOne(Replays(P, logs), C, Conclude(P, logs, C, t), Turn(t, 0));
  }

  lemma CompletesInOneTurn(P: Program, logs: Logs, C: Replayer, S: State, t: Path)
    requires Full(P, logs, C, S, t)
    ensures Replays(P, logs)(C, Turn(t, 0)) == Some(Conclude(P, logs, C, t))
  {
  }

  lemma {:induction false} RealiseAll(P: Program, logs: Logs, C: Replayer, S: State, schedule: seq<Path>)
    returns (turns: seq<Turn>)
    requires Inv(S) && StandsFor(P, logs, C, S) && Runs(Stepping(P, logs), S, schedule)
    ensures Runs(Replays(P, logs), C, turns)
    ensures StandsFor(P, logs, After(Replays(P, logs), C, turns), After(Stepping(P, logs), S, schedule))
    decreases |schedule|
  {
    if schedule == [] {
      turns := [];
    } else {
      var t := schedule[0];
      var first := Realise(P, logs, C, S, t);
      StepKeepsInv(P, S, t, NextEntry(P, logs, S.threads, t));
      var rest := RealiseAll(P, logs, After(Replays(P, logs), C, first), Next(P, logs, S, t), schedule[1..]);
      RunAppend(Replays(P, logs), C, first, rest);
      turns := first + rest;
    }
  }

  /** Progress: from every state that replay can reach, it can go on to where the record run ended. */
  lemma ReplayCanFinish(P: Program, arg: Payload, trace: seq<Logged>, C: Replayer) returns (turns: seq<Turn>)
    requires Recorded(P, arg, trace) && Orderly(trace) && Reaches(P, arg, trace, C)
    ensures var logs := RecordedLogs(P, arg, trace);
            && Runs(Replays(P, logs), C, turns)
            && After(Replays(P, logs), C, turns).threads == SettledThreads(RecordEnd(P, arg, trace).threads)
  {
    var S, rest := OnCourse(P, arg, trace, C);
    turns := RealiseAll(P, RecordedLogs(P, arg, trace), C, S, rest);
  }

  lemma StepAddsOne(P: Program, logs: Logs, S: State, u: Path, t: Path)
    requires Inv(S) && CanStep(P, logs, S, u)
    ensures var S' := Next(P, logs, S, u);
            && (t in S.threads ==> t in S'.threads)
            && (t in S'.threads ==>
                  |S'.threads[t].history| == (if t in S.threads then |S.threads[t].history| else 0) + if u == t then 1 else 0)
  {
    ChildIsNew(S, u);
  }

  /** No deadlock: while some log has entries left, some thread completes its next operation in turns of its own. */
  lemma NoDeadlock(P: Program, arg: Payload, trace: seq<Logged>, C: Replayer) returns (t: Path, turns: seq<Turn>)
    requires Recorded(P, arg, trace) && Orderly(trace) && Reaches(P, arg, trace, C)
    requires !Exhausted(P, RecordedLogs(P, arg, trace), C.threads)
    ensures var logs := RecordedLogs(P, arg, trace);
            && (forall turn | turn in turns :: turn.thread == t)
            && Runs(Replays(P, logs), C, turns)
            && t in C.threads && t in After(Replays(P, logs), C, turns).threads
            && |After(Replays(P, logs), C, turns).threads[t].history| == |C.threads[t].history| + 1
  {
    var logs := RecordedLogs(P, arg, trace);
    var S, rest := OnCourse(P, arg, trace, C);
    assert rest != [];
    t := rest[0];
    turns := Realise(P, logs, C, S, t);
    StepAddsOne(P, logs, S, t, t);
  }

  function StepsOf(schedule: seq<Path>, t: Path): nat {
    if schedule == [] then 0 else (if schedule[0] == t then 1 else 0) + StepsOf(schedule[1..], t)
  }

  lemma {:induction false} StepsAreCounted(P: Program, logs: Logs, S: State, schedule: seq<Path>, t: Path)
    requires Inv(S) && Runs(Stepping(P, logs), S, schedule) && t in After(Stepping(P, logs), S, schedule).threads
    ensures |After(Stepping(P, logs), S, schedule).threads[t].history| ==
            (if t in S.threads then |S.threads[t].history| else 0) + StepsOf(schedule, t)
    decreases |schedule|
  {
    if schedule != [] {
      var u := schedule[0];
      StepKeepsInv(P, S, u, NextEntry(P, logs, S.threads, u));
      StepAddsOne(P, logs, S, u, t);
      StepsAreCounted(P, logs, Next(P, logs, S, u), schedule[1..], t);
    }
  }

  /**
   Termination: the operations completed and those left add up to the record steps. So a replay completes at
   most as many operations as were recorded, each completed one leaves one less, and when none is left all logs
   have been read.
   */
  lemma OperationsLeft(P: Program, arg: Payload, trace: seq<Logged>, C: Replayer)
    returns (completed: seq<Path>, left: seq<Path>)
    requires Recorded(P, arg, trace) && Orderly(trace) && Reaches(P, arg, trace, C)
    ensures |completed| + |left| + |Unfinished(RecordEnd(P, arg, trace).threads)| == |trace|
    ensures forall t | t in C.threads :: |C.threads[t].history| == StepsOf(completed, t)
    ensures left == [] <==> Exhausted(P, RecordedLogs(P, arg, trace), C.threads)
  {
    var S;
    S, completed, left := Course(P, arg, trace, C);
    forall t | t in C.threads
      ensures |C.threads[t].history| == StepsOf(completed, t)
    {
      StepsAreCounted(P, RecordedLogs(P, arg, trace), Initial(arg), completed, t);
    }
  }

  /**
   The same output: a replay that has read all logs is where the record run ended. Every thread has seen
   the same results, every receiver is in the same place, and the same messages are left, sender by sender.
   */
  lemma FinishedReplayIsTheRecord(P: Program, arg: Payload, trace: seq<Logged>, C: Replayer)
    requires Recorded(P, arg, trace) && Orderly(trace) && Reaches(P, arg, trace, C)
    requires Exhausted(P, RecordedLogs(P, arg, trace), C.threads)
    ensures var R := RecordEnd(P, arg, trace);
            && C.threads == SettledThreads(R.threads)
            && C.home == R.home
            && forall c, s :: Pending(BufferOf(C.buffers, c), WireOf(C.wires, c), s) == From(WireOf(R.wires, c), s)
  {
    var R, logs := RecordEnd(P, arg, trace), RecordedLogs(P, arg, trace);
    var S, rest := OnCourse(P, arg, trace, C);
    assert rest == [];
    forall c: DetChannelId, s: Path
      ensures Pending(BufferOf(C.buffers, c), WireOf(C.wires, c), s) == From(WireOf(R.wires, c), s)
    {
      NothingDrawn(P, logs, S, C.hands, c);
      assert Pending(BufferOf(C.buffers, c), WireOf(C.wires, c), s) ==
             Queue(Undrawn(P, logs, S, C.hands, c), QueueId(c, s));
      var q := QueueId(c, s);
      assert Queue(S.queues, q) == From(WireOf(R.wires, q.chan), q.sender);
    }
  }

  // ---- Identities ----

  /** The id that an entry brings into the world was not there before. */
  ghost predicate BringsNewId(threads: map<Path, Thread>, home: Home, e: RecordEntry) {
    && (e.event.ChannelCreation? ==> e.chan !in home && e.chan != FAKE_CHANNEL)
    && (e.event.ThreadInitialized? ==> e.event.child !in threads)
  }

  ghost predicate HasId(threads: map<Path, Thread>, home: Home, e: RecordEntry) {
    && (e.event.ChannelCreation? ==> e.chan in home)
    && (e.event.ThreadInitialized? ==> e.event.child in threads)
  }

  /** Both entries create a channel, or a thread, under one id. */
  predicate SameId(e: RecordEntry, f: RecordEntry) {
    || (e.event.ChannelCreation? && f.event.ChannelCreation? && e.chan == f.chan)
    || (e.event.ThreadInitialized? && f.event.ThreadInitialized? && e.event.child == f.event.child)
  }

  lemma OnlyMakersMakeIds(op: Op, t: Path, th: Thread, e: RecordEntry)
    requires Check(op, t, th, e).Fine?
    ensures e.event.ChannelCreation? ==> op.NewChannel? && e.chan == ChannelOf(t, th)
    ensures e.event.ThreadInitialized? ==> op.Spawn? && e.event.child == ChildId(t, th)
  {
  }

  lemma IdsMade(threads: map<Path, Thread>, home: Home, t: Path, op: Op, e: RecordEntry, picks: seq<QueueId>,
      ms: seq<Message>)
    requires t in threads && |picks| == |ms|
    requires TreeShaped(threads) && ReceiversNumbered(threads, home)
    requires Check(op, t, threads[t], e).Fine?
    ensures BringsNewId(threads, home, e)
    ensures HasId(ThreadsAfter(threads, t, op, e, ms), HomeAfter(home, t, threads[t], op, picks, ms), e)
    ensures threads.Keys <= ThreadsAfter(threads, t, op, e, ms).Keys
    ensures home.Keys <= HomeAfter(home, t, threads[t], op, picks, ms).Keys
  {
    OnlyMakersMakeIds(op, t, threads[t], e);
    var child := ChildId(t, threads[t]);
    assert child[..|child| - 1] == t;
  }

  lemma StepMakesId(P: Program, R: Recorder, l: Logged) returns (R': Recorder)
    requires RecordInv(R) && Recordings(P)(R, l).Some?
    ensures R' == Recordings(P)(R, l).value && RecordInv(R')
    ensures BringsNewId(R.threads, R.home, l.entry) && HasId(R'.threads, R'.home, l.entry)
    ensures R.threads.Keys <= R'.threads.Keys && R.home.Keys <= R'.home.Keys
  {
    var op, ms;
    R', op, ms := RecordStep(P, R, l);
    var t, e := l.thread, l.entry;
    var picks := Picks(op, t, R.threads[t], e);
    IdsMade(R.threads, R.home, t, op, e, picks, Read(R.wires, Ahead(op, R.threads[t]), picks));
  }

  lemma {:induction false} LaterIdsAreNew(P: Program, R: Recorder, trace: seq<Logged>, j: nat)
    requires RecordInv(R) && Runs(Recordings(P), R, trace) && j < |trace|
    ensures BringsNewId(R.threads, R.home, trace[j].entry)
    decreases |trace|
  {
    var R' := StepMakesId(P, R, trace[0]);
    if j > 0 {
      LaterIdsAreNew(P, R', trace[1..], j - 1);
    }
  }

  /** The recorder before and after a step of a run. */
  lemma RecorderAt(P: Program, arg: Payload, trace: seq<Logged>, i: nat) returns (R: Recorder, R': Recorder)
    requires Recorded(P, arg, trace) && i < |trace|
    ensures RecordInv(R) && Recordings(P)(R, trace[i]) == Some(R') && Runs(Recordings(P), R', trace[i + 1..])
  {
    StartInv(arg);
    R := RunAt(Recordings(P), Start(arg), trace, i);
    R' := Recordings(P)(R, trace[i]).value;
    RecordKeepsInv(P, Start(arg), trace[..i]);
  }

  /** The second step makes no id that the first has made, nor that of its thread. */
  ghost predicate OwnId(l: Logged, m: Logged) {
    !SameId(l.entry, m.entry) && m.entry.event != ThreadInitialized(l.thread)
  }

  lemma FirstIdIsOwn(P: Program, R: Recorder, trace: seq<Logged>, j: nat)
    requires RecordInv(R) && Runs(Recordings(P), R, trace) && 0 < j < |trace|
    ensures OwnId(trace[0], trace[j])
  {
    var R' := StepMakesId(P, R, trace[0]);
    LaterIdsAreNew(P, R', trace[1..], j - 1);
  }

  ghost predicate OwnIds(trace: seq<Logged>) {
    forall i, j | 0 <= i < j < |trace| :: OwnId(trace[i], trace[j])
  }

  lemma OneStepMore(trace: seq<Logged>)
    requires trace != [] && OwnIds(trace[1..])
    requires forall j | 0 < j < |trace| :: OwnId(trace[0], trace[j])
    ensures OwnIds(trace)
  {
    var rest := trace[1..];
    forall i, j | 0 <= i < j < |trace|
      ensures OwnId(trace[i], trace[j])
    {
      if i > 0 {
        assert rest[i - 1] == trace[i] && rest[j - 1] == trace[j];
      }
    }
  }

  lemma {:induction false} IdsAreOwn(P: Program, R: Recorder, trace: seq<Logged>)
    requires RecordInv(R) && Runs(Recordings(P), R, trace)
    ensures OwnIds(trace)
    decreases |trace|
  {
    if trace != [] {
      var R' := StepMakesId(P, R, trace[0]);
      IdsAreOwn(P, R', trace[1..]);
      forall j | 0 < j < |trace|
        ensures OwnId(trace[0], trace[j])
      {
        FirstIdIsOwn(P, R, trace, j);
      }
      OneStepMore(trace);
    }
  }

  lemma IdIsOrdinary(P: Program, arg: Payload, trace: seq<Logged>, j: nat)
    requires Recorded(P, arg, trace) && j < |trace|
    ensures trace[j].entry.event.ChannelCreation? ==> trace[j].entry.chan != FAKE_CHANNEL
    ensures trace[j].entry.event.ThreadInitialized? ==> trace[j].entry.event.child != []
  {
    StartInv(arg);
    LaterIdsAreNew(P, Start(arg), trace, j);
  }

  /**
   Identities: over a whole record run, in any interleaving of the threads, no two created channels and no
   two spawned threads get the same id, no channel gets the fake id and no thread that of the root. The
   replaying threads give out the same ids again, since their logs hold them to it.
   */
  lemma IdsNeverRepeat(P: Program, arg: Payload, trace: seq<Logged>, i: nat, j: nat)
    requires Recorded(P, arg, trace) && i < j < |trace|
    ensures !SameId(trace[i].entry, trace[j].entry)
    ensures trace[j].entry.event.ChannelCreation? ==> trace[j].entry.chan != FAKE_CHANNEL
    ensures trace[j].entry.event.ThreadInitialized? ==> trace[j].entry.event.child != []
  {
    IdIsOrdinary(P, arg, trace, j);
    StartInv(arg);
    IdsAreOwn(P, Start(arg), trace);
    assert OwnId(trace[i], trace[j]);
  }
}
