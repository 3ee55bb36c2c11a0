/**
 Every fair replay ends.

 An operation that is possible on pending queues stays possible until its own thread completes it, and each turn of
 that thread that has patience for what is on the wires brings it nearer. So if every thread that has something to
 follow gets its turns again and again, all logs are read to the end, and the number of rounds that this takes is
 bounded by the number of recorded steps.
 */
module FairReplay {
  import opened Confluence
  import opened Following
  import opened Identities
  import opened Promises
  import opened Protocol
  import opened Recording
  import opened RecordLog
  import opened Refinement
  import opened ReplayEngine
  import opened Replaying
  import opened ReplayOrder

  /** Patience for all that is on any wire. */
  ghost predicate Patient(C: Replayer, patience: nat) {
    forall c :: patience >= |WireOf(C.wires, c)|
  }

  /** How many patient turns a thread takes in a run. */
  ghost function PatientTurns(P: Program, logs: Logs, C: Replayer, turns: seq<Turn>, t: Path): nat
    requires Runs(Replays(P, logs), C, turns)
    decreases |turns|
  {
    if turns == [] then 0
    else
      (if turns[0].thread == t && Patient(C, turns[0].patience) then 1 else 0)
      + PatientTurns(P, logs, Replays(P, logs)(C, turns[0]).value, turns[1..], t)
  }

  /** The patient turns that an operation needs: one for each message that is not in hand, and one to conclude. */
  function MissingFor(picks: seq<QueueId>, polls: seq<QueueId>, hand: seq<Message>, buffers: Buffers): nat {
    (if |hand| <= |picks| then |picks| - |hand| else 0) + (if Polled(buffers, polls) then 0 else 1) + 1
  }

  function Missing(P: Program, logs: Logs, C: Replayer, t: Path): nat {
    MissingFor(NextPicks(P, logs, C.threads, t), NextPolls(P, logs, C.threads, t), Hand(C.hands, t), C.buffers)
  }

  /** `C` stands for `S`, where the thread can complete its next operation. */
  ghost predicate CanComplete(P: Program, logs: Logs, C: Replayer, S: State, t: Path) {
    Inv(S) && StandsFor(P, logs, C, S) && CanStep(P, logs, S, t)
  }

  // ---- A turn of the thread itself ----

  /** An operation that takes messages polls none. */
  lemma PicksOrPolls(P: Program, logs: Logs, threads: map<Path, Thread>, t: Path)
    ensures NextPicks(P, logs, threads, t) == [] || NextPolls(P, logs, threads, t) == []
  {
  }

  /** The thread has completed its operation, or it still can and is as near to it, nearer after a patient turn of its own. */
  ghost predicate GoesOn(P: Program, logs: Logs, C: Replayer, S: State, t: Path, turn: Turn, C': Replayer, S': State)
    requires CanComplete(P, logs, C, S, t)
  {
    || (Inv(S') && StandsFor(P, logs, C', S') && S' == Next(P, logs, S, t))
    || (&& CanComplete(P, logs, C', S', t) && S'.threads[t] == S.threads[t]
        && Missing(P, logs, C', t) <= Missing(P, logs, C, t)
        && (turn.thread == t && Patient(C, turn.patience) ==> Missing(P, logs, C', t) < Missing(P, logs, C, t)))
  }

  lemma OwnReading(P: Program, logs: Logs, C: Replayer, S: State, t: Path, patience: nat, C': Replayer)
    requires CanComplete(P, logs, C, S, t)
    requires CanComplete(P, logs, C', S, t) && Missing(P, logs, C', t) <= Missing(P, logs, C, t)
    requires Patient(C, patience) ==> Missing(P, logs, C', t) < Missing(P, logs, C, t)
    ensures GoesOn(P, logs, C, S, t, Turn(t, patience), C', S)
  {
  }

  lemma DrawCounts(P: Program, logs: Logs, C: Replayer, t: Path, q: QueueId, patience: nat)
    requires t in C.threads && NextPolls(P, logs, C.threads, t) == []
    requires |Hand(C.hands, t)| < |NextPicks(P, logs, C.threads, t)|
    ensures var r := RecvExpected(q.sender, BufferOf(C.buffers, q.chan), WireOf(C.wires, q.chan), patience, false);
            Missing(P, logs, Draw(C, t, q, patience), t) == Missing(P, logs, C, t) - if r.result.Got? then 1 else 0
  {
  }

  lemma OwnDraw(P: Program, logs: Logs, C: Replayer, S: State, t: Path, patience: nat)
    requires CanComplete(P, logs, C, S, t) && |Hand(C.hands, t)| < |NextPicks(P, logs, S.threads, t)|
    ensures var C' := Draw(C, t, NextPicks(P, logs, S.threads, t)[|Hand(C.hands, t)|], patience);
            GoesOn(P, logs, C, S, t, Turn(t, patience), C', S)
  {
    DrawKeeps(P, logs, C, S, t, patience);
    PicksOrPolls(P, logs, S.threads, t);
    var q := NextPicks(P, logs, S.threads, t)[|Hand(C.hands, t)|];
    DrawCounts(P, logs, C, t, q, patience);
    if Patient(C, patience) {
      assert patience >= |WireOf(C.wires, q.chan)|;
      var m := MissingIsThere(P, logs, C, S, t, q, patience);
    }
    OwnReading(P, logs, C, S, t, patience, Draw(C, t, q, patience));
  }

  lemma PollCounts(P: Program, logs: Logs, C: Replayer, t: Path, patience: nat)
    requires t in C.threads && !Polled(C.buffers, NextPolls(P, logs, C.threads, t))
    ensures var C' := Poll(C, NextPolls(P, logs, C.threads, t)[0], patience);
            Missing(P, logs, C', t) ==
            Missing(P, logs, C, t) - if Polled(C'.buffers, NextPolls(P, logs, C.threads, t)) then 1 else 0
  {
  }

  lemma OwnPoll(P: Program, logs: Logs, C: Replayer, S: State, t: Path, patience: nat)
    requires CanComplete(P, logs, C, S, t) && |Hand(C.hands, t)| == |NextPicks(P, logs, S.threads, t)|
    requires !Polled(C.buffers, NextPolls(P, logs, S.threads, t))
    ensures var C' := Poll(C, NextPolls(P, logs, S.threads, t)[0], patience);
            GoesOn(P, logs, C, S, t, Turn(t, patience), C', S)
  {
    var q := NextPolls(P, logs, S.threads, t)[0];
    PollKeeps(P, logs, C, S, q, patience);
    PollCounts(P, logs, C, t, patience);
    if Patient(C, patience) {
      assert patience >= |WireOf(C.wires, q.chan)|;
      PolledMessageIsThere(P, logs, C, S, t, patience);
    }
    OwnReading(P, logs, C, S, t, patience, Poll(C, q, patience));
  }

  // ---- A turn of another thread ----

  lemma SameMissing(P: Program, logs: Logs, C: Replayer, C': Replayer, t: Path)
    requires t in C.threads && t in C'.threads && C'.threads[t] == C.threads[t] && Hand(C'.hands, t) == Hand(C.hands, t)
    requires Polled(C'.buffers, NextPolls(P, logs, C.threads, t)) <==> Polled(C.buffers, NextPolls(P, logs, C.threads, t))
    ensures Missing(P, logs, C', t) == Missing(P, logs, C, t)
  {
  }

  /** Buffers of channels that another thread holds stay as they are. */
  lemma PolledElsewhere(buffers: Buffers, c: DetChannelId, b: Buffer<Message>, polls: seq<QueueId>)
    requires forall q | q in polls :: q.chan != c
    ensures Polled(buffers[c := b], polls) <==> Polled(buffers, polls)
  {
    forall q | q in polls
      ensures BufferOf(buffers[c := b], q.chan) == BufferOf(buffers, q.chan)
    {
    }
  }

  lemma PollsAreOwn(P: Program, logs: Logs, S: State, t: Path, u: Path, c: DetChannelId)
    requires Admitted(P, logs, S.threads, S.home, t) && IsHeld(S.home, u, c) && t != u
    ensures forall q | q in NextPolls(P, logs, S.threads, t) :: q.chan != c
  {
    forall q | q in NextPolls(P, logs, S.threads, t)
      ensures q.chan != c
    {
      PollsHeld(S.home, OpOf(P, t, S.threads[t]), t, S.threads[t], NextEntry(P, logs, S.threads, t), q);
    }
  }

  lemma OtherDraw(P: Program, logs: Logs, C: Replayer, S: State, t: Path, u: Path, patience: nat)
    requires CanComplete(P, logs, C, S, t) && t != u
    requires Admitted(P, logs, S.threads, S.home, u) && |Hand(C.hands, u)| < |NextPicks(P, logs, S.threads, u)|
    ensures var C' := Draw(C, u, NextPicks(P, logs, S.threads, u)[|Hand(C.hands, u)|], patience);
            CanComplete(P, logs, C', S, t) && Missing(P, logs, C', t) == Missing(P, logs, C, t)
  {
    DrawKeeps(P, logs, C, S, u, patience);
    NextPickHeld(P, logs, S, u, |Hand(C.hands, u)|);
    var q := NextPicks(P, logs, S.threads, u)[|Hand(C.hands, u)|];
    PollsAreOwn(P, logs, S, t, u, q.chan);
    DrawElsewhere(P, logs, C, t, u, q, patience);
  }

  lemma DrawElsewhere(P: Program, logs: Logs, C: Replayer, t: Path, u: Path, q: QueueId, patience: nat)
    requires t in C.threads && t != u && forall p | p in NextPolls(P, logs, C.threads, t) :: p.chan != q.chan
    ensures Missing(P, logs, Draw(C, u, q, patience), t) == Missing(P, logs, C, t)
  {
    var C' := Draw(C, u, q, patience);
    PolledElsewhere(C.buffers, q.chan, BufferOf(C'.buffers, q.chan), NextPolls(P, logs, C.threads, t));
    SameMissing(P, logs, C, C', t);
  }

  lemma PollElsewhere(P: Program, logs: Logs, C: Replayer, t: Path, q: QueueId, patience: nat)
    requires t in C.threads && forall p | p in NextPolls(P, logs, C.threads, t) :: p.chan != q.chan
    ensures Missing(P, logs, Poll(C, q, patience), t) == Missing(P, logs, C, t)
  {
    var C' := Poll(C, q, patience);
    PolledElsewhere(C.buffers, q.chan, BufferOf(C'.buffers, q.chan), NextPolls(P, logs, C.threads, t));
    SameMissing(P, logs, C, C', t);
  }

  lemma OtherPoll(P: Program, logs: Logs, C: Replayer, S: State, t: Path, u: Path, patience: nat)
    requires CanComplete(P, logs, C, S, t) && t != u
    requires Admitted(P, logs, S.threads, S.home, u) && !Polled(C.buffers, NextPolls(P, logs, S.threads, u))
    ensures var C' := Poll(C, NextPolls(P, logs, S.threads, u)[0], patience);
            CanComplete(P, logs, C', S, t) && Missing(P, logs, C', t) == Missing(P, logs, C, t)
  {
    var q := NextPolls(P, logs, S.threads, u)[0];
    PollKeeps(P, logs, C, S, q, patience);
    PollsHeld(S.home, OpOf(P, u, S.threads[u]), u, S.threads[u], NextEntry(P, logs, S.threads, u), q);
    PollsAreOwn(P, logs, S, t, u, q.chan);
    PollElsewhere(P, logs, C, t, q, patience);
  }

  lemma OtherStays(P: Program, logs: Logs, S: State, t: Path, u: Path)
    requires Inv(S) && CanStep(P, logs, S, t) && CanStep(P, logs, S, u) && t != u
    ensures var S' := Next(P, logs, S, u);
            Inv(S') && CanStep(P, logs, S', t) && S'.threads[t] == S.threads[t]
  {
    NextCommutes(P, logs, S, u, t);
    StepKeepsInv(P, S, u, NextEntry(P, logs, S.threads, u));
    ThreadsGrow(P, S, u, NextEntry(P, logs, S.threads, u), t);
  }

  lemma ConcludeElsewhere(P: Program, logs: Logs, C: Replayer, t: Path, u: Path)
    requires HasEntry(P, logs, C.threads, u) && |Hand(C.hands, u)| == |NextPicks(P, logs, C.threads, u)|
    requires t in C.threads && t != u && ChildId(u, C.threads[u]) != t
    ensures Missing(P, logs, Conclude(P, logs, C, u), t) == Missing(P, logs, C, t)
  {
    SameMissing(P, logs, C, Conclude(P, logs, C, u), t);
  }

  lemma OtherConclude(P: Program, logs: Logs, C: Replayer, S: State, t: Path, u: Path)
    requires CanComplete(P, logs, C, S, t) && t != u && Full(P, logs, C, S, u)
    ensures CanStep(P, logs, S, u)
    ensures CanComplete(P, logs, Conclude(P, logs, C, u), Next(P, logs, S, u), t)
    ensures Next(P, logs, S, u).threads[t] == S.threads[t]
    ensures Missing(P, logs, Conclude(P, logs, C, u), t) == Missing(P, logs, C, t)
  {
    ConcludeRefines(P, logs, C, S, u);
    OtherStays(P, logs, S, t, u);
    ChildIsNew(S, u);
    ConcludeElsewhere(P, logs, C, t, u);
  }

  lemma OwnConclude(P: Program, logs: Logs, C: Replayer, S: State, t: Path, turn: Turn)
    requires CanComplete(P, logs, C, S, t) && |Hand(C.hands, t)| == |NextPicks(P, logs, S.threads, t)|
    requires Polled(C.buffers, NextPolls(P, logs, S.threads, t))
    ensures GoesOn(P, logs, C, S, t, turn, Conclude(P, logs, C, t), Next(P, logs, S, t))
  {
    ConcludeRefines(P, logs, C, S, t);
    StepKeepsInv(P, S, t, NextEntry(P, logs, S.threads, t));
  }

  lemma OwnTurn(P: Program, logs: Logs, C: Replayer, S: State, t: Path, patience: nat) returns (S': State)
    requires CanComplete(P, logs, C, S, t) && Replays(P, logs)(C, Turn(t, patience)).Some?
    ensures GoesOn(P, logs, C, S, t, Turn(t, patience), Replays(P, logs)(C, Turn(t, patience)).value, S')
  {
    TurnTaken(P, logs, C, Turn(t, patience));
    S' := S;
    if |Hand(C.hands, t)| < |NextPicks(P, logs, C.threads, t)| {
      OwnDraw(P, logs, C, S, t, patience);
    } else if !Polled(C.buffers, NextPolls(P, logs, C.threads, t)) {
      OwnPoll(P, logs, C, S, t, patience);
    } else {
      OwnConclude(P, logs, C, S, t, Turn(t, patience));
      S' := Next(P, logs, S, t);
    }
  }

  lemma OtherTurn(P: Program, logs: Logs, C: Replayer, S: State, t: Path, turn: Turn) returns (S': State)
    requires CanComplete(P, logs, C, S, t) && Replays(P, logs)(C, turn).Some? && turn.thread != t
    ensures GoesOn(P, logs, C, S, t, turn, Replays(P, logs)(C, turn).value, S')
  {
    TurnTaken(P, logs, C, turn);
    var u := turn.thread;
    S' := S;
    if |Hand(C.hands, u)| < |NextPicks(P, logs, S.threads, u)| {
      OtherDraw(P, logs, C, S, t, u, turn.patience);
    } else if !Polled(C.buffers, NextPolls(P, logs, S.threads, u)) {
      OtherPoll(P, logs, C, S, t, u, turn.patience);
    } else {
      OtherConclude(P, logs, C, S, t, u);
      S' := Next(P, logs, S, u);
    }
  }

  /** Whatever turn is taken. */
  lemma TurnGoesOn(P: Program, logs: Logs, C: Replayer, S: State, t: Path, turn: Turn) returns (S': State)
    requires CanComplete(P, logs, C, S, t) && Replays(P, logs)(C, turn).Some?
    ensures GoesOn(P, logs, C, S, t, turn, Replays(P, logs)(C, turn).value, S')
  {
    if turn.thread == t {
      S' := OwnTurn(P, logs, C, S, t, turn.patience);
    } else {
      S' := OtherTurn(P, logs, C, S, t, turn);
    }
  }

  // ---- Runs ----

  lemma HistoriesGrow(P: Program, logs: Logs, C: Replayer, S: State, turns: seq<Turn>, t: Path)
    requires Inv(S) && StandsFor(P, logs, C, S) && Runs(Replays(P, logs), C, turns) && t in S.threads
    ensures var C' := After(Replays(P, logs), C, turns);
            t in C'.threads && |C'.threads[t].history| >= |S.threads[t].history|
  {
    var schedule := ReplayRefines(P, logs, C, S, turns);
    RunGrows(P, logs, S, schedule, t);
  }

  lemma NextGrows(P: Program, logs: Logs, S: State, t: Path)
    requires Inv(S) && CanStep(P, logs, S, t)
    ensures t in Next(P, logs, S, t).threads
    ensures |Next(P, logs, S, t).threads[t].history| == |S.threads[t].history| + 1
  {
    ChildIsNew(S, t);
  }

  lemma CompletedIsSeen(P: Program, logs: Logs, S: State, t: Path, C': Replayer, S': State, turns: seq<Turn>)
    requires Inv(S) && CanStep(P, logs, S, t) && S' == Next(P, logs, S, t)
    requires Inv(S') && StandsFor(P, logs, C', S') && Runs(Replays(P, logs), C', turns)
    ensures t in After(Replays(P, logs), C', turns).threads
    ensures |After(Replays(P, logs), C', turns).threads[t].history| > |S.threads[t].history|
  {
    NextGrows(P, logs, S, t);
    HistoriesGrow(P, logs, C', S', turns, t);
  }

  lemma PatienceLeft(P: Program, logs: Logs, C: Replayer, turns: seq<Turn>, t: Path, C': Replayer)
    requires turns != [] && Replays(P, logs)(C, turns[0]) == Some(C') && Runs(Replays(P, logs), C', turns[1..])
    requires PatientTurns(P, logs, C, turns, t) >= Missing(P, logs, C, t)
    requires Missing(P, logs, C', t) <= Missing(P, logs, C, t)
    requires turns[0].thread == t && Patient(C, turns[0].patience) ==> Missing(P, logs, C', t) < Missing(P, logs, C, t)
    ensures PatientTurns(P, logs, C', turns[1..], t) >= Missing(P, logs, C', t)
  {
  }

  /**
   A thread that can complete its operation does so in every run in which it gets its turns: one patient turn for each
   message that it still waits for, and one to conclude, in between any turns of others and impatient ones of its own.
   */
  lemma {:induction false} PatientThreadCompletes(P: Program, logs: Logs, C: Replayer, S: State, t: Path,
      turns: seq<Turn>)
    requires CanComplete(P, logs, C, S, t)
    requires Runs(Replays(P, logs), C, turns) && PatientTurns(P, logs, C, turns, t) >= Missing(P, logs, C, t)
    ensures t in After(Replays(P, logs), C, turns).threads
    ensures |After(Replays(P, logs), C, turns).threads[t].history| > |S.threads[t].history|
    decreases |turns|, 1
  {
    if turns == [] {
      assert false;
    } else {
      var C' := Replays(P, logs)(C, turns[0]).value;
      var S' := TurnGoesOn(P, logs, C, S, t, turns[0]);
      RestCompletes(P, logs, C, S, t, turns, C', S');
    }
  }

  lemma {:induction false} RestCompletes(P: Program, logs: Logs, C: Replayer, S: State, t: Path, turns: seq<Turn>,
      C': Replayer, S': State)
    requires CanComplete(P, logs, C, S, t) && turns != [] && GoesOn(P, logs, C, S, t, turns[0], C', S')
    requires Replays(P, logs)(C, turns[0]) == Some(C') && Runs(Replays(P, logs), C', turns[1..])
    requires PatientTurns(P, logs, C, turns, t) >= Missing(P, logs, C, t)
    ensures t in After(Replays(P, logs), C', turns[1..]).threads
    ensures |After(Replays(P, logs), C', turns[1..]).threads[t].history| > |S.threads[t].history|
    decreases |turns|, 0
  {
    if Inv(S') && StandsFor(P, logs, C', S') && S' == Next(P, logs, S, t) {
      CompletedIsSeen(P, logs, S, t, C', S', turns[1..]);
    } else {
      PatienceLeft(P, logs, C, turns, t, C');
      PatientThreadCompletes(P, logs, C', S', t, turns[1..]);
    }
  }

  /** A round gives every thread that has something to follow the turns that it needs for one operation. */
  ghost predicate Round(P: Program, logs: Logs, C: Replayer, turns: seq<Turn>) {
    && Runs(Replays(P, logs), C, turns)
    && forall t | HasEntry(P, logs, C.threads, t) :: PatientTurns(P, logs, C, turns, t) >= Missing(P, logs, C, t)
  }

  /** A fair run, as a sequence of rounds. */
  ghost predicate Rounds(P: Program, logs: Logs, C: Replayer, rounds: seq<seq<Turn>>)
    decreases |rounds|
  {
    rounds == [] ||
    (Round(P, logs, C, rounds[0]) && Rounds(P, logs, After(Replays(P, logs), C, rounds[0]), rounds[1..]))
  }

  ghost function AfterRounds(P: Program, logs: Logs, C: Replayer, rounds: seq<seq<Turn>>): Replayer
    requires Rounds(P, logs, C, rounds)
    decreases |rounds|
  {
    if rounds == [] then C else AfterRounds(P, logs, After(Replays(P, logs), C, rounds[0]), rounds[1..])
  }

  /** Turns are there to be given: a thread can take one, with any patience, exactly while it has something to follow. */
  lemma TurnsArePossible(P: Program, arg: Payload, trace: seq<Logged>, C: Replayer, turn: Turn)
    requires Recorded(P, arg, trace) && Orderly(trace) && Reaches(P, arg, trace, C)
    ensures var logs := RecordedLogs(P, arg, trace);
            Replays(P, logs)(C, turn).Some? <==> HasEntry(P, logs, C.threads, turn.thread)
  {
    var S, rest := OnCourse(P, arg, trace, C);
    if turn.thread in S.threads {
      FollowsToItsEnd(P, RecordedLogs(P, arg, trace), S, rest, turn.thread);
      AdmittedTurn(P, RecordedLogs(P, arg, trace), C, S, turn);
    }
  }

  lemma AdmittedTurn(P: Program, logs: Logs, C: Replayer, S: State, turn: Turn)
    requires StandsFor(P, logs, C, S) && turn.thread in S.threads
    requires HasEntry(P, logs, S.threads, turn.thread) ==>
               StatusOf(P, logs, S.threads, turn.thread) == Proceeds
               && MayAttempt(S.home, turn.thread, OpOf(P, turn.thread, S.threads[turn.thread]))
    ensures Replays(P, logs)(C, turn).Some? <==> HasEntry(P, logs, C.threads, turn.thread)
  {
    var hand := Hand(C.hands, turn.thread);
    assert hand != [] ==> HandFits(P, logs, S, turn.thread, hand);
  }

  /** A round completes at least one operation, if any is left. */
  lemma RoundCompletes(P: Program, logs: Logs, C: Replayer, S: State, rest: seq<Path>, turns: seq<Turn>)
    returns (S': State, rest': seq<Path>)
    requires Inv(S) && StandsFor(P, logs, C, S) && Runs(Stepping(P, logs), S, rest)
    requires Exhausted(P, logs, After(Stepping(P, logs), S, rest).threads)
    requires Round(P, logs, C, turns)
    ensures Inv(S') && StandsFor(P, logs, After(Replays(P, logs), C, turns), S') && Runs(Stepping(P, logs), S', rest')
    ensures After(Stepping(P, logs), S', rest') == After(Stepping(P, logs), S, rest)
    ensures rest != [] ==> |rest'| < |rest|
    ensures rest == [] ==> rest' == []
  {
    var schedule := ReplayRefines(P, logs, C, S, turns);
    S' := After(Stepping(P, logs), S, schedule);
    rest' := JoinReplay(P, logs, S, rest, schedule);
    if rest != [] {
      PatientThreadCompletes(P, logs, C, S, rest[0], turns);
      assert schedule != [];
    }
  }

  lemma {:induction false} RoundsEnd(P: Program, logs: Logs, C: Replayer, S: State, rest: seq<Path>,
      rounds: seq<seq<Turn>>)
    requires Inv(S) && StandsFor(P, logs, C, S) && Runs(Stepping(P, logs), S, rest)
    requires Exhausted(P, logs, After(Stepping(P, logs), S, rest).threads)
    requires Rounds(P, logs, C, rounds) && |rounds| >= |rest|
    ensures StandsFor(P, logs, AfterRounds(P, logs, C, rounds), After(Stepping(P, logs), S, rest))
    decreases |rounds|
  {
    if rounds != [] {
      var S', rest' := RoundCompletes(P, logs, C, S, rest, rounds[0]);
      RoundsEnd(P, logs, After(Replays(P, logs), C, rounds[0]), S', rest', rounds[1..]);
    }
  }

  /**
   Every fair replay ends: from any reachable state, after at most as many rounds as the record run had steps, all
   logs have been read and the replay is where the record run ended. In between, any thread may take any turns, patient
   or not.
   */
  lemma FairReplayEnds(P: Program, arg: Payload, trace: seq<Logged>, C: Replayer, rounds: seq<seq<Turn>>)
    requires Recorded(P, arg, trace) && Orderly(trace) && Reaches(P, arg, trace, C)
    requires Rounds(P, RecordedLogs(P, arg, trace), C, rounds) && |rounds| >= |trace|
    ensures var logs, C' := RecordedLogs(P, arg, trace), AfterRounds(P, RecordedLogs(P, arg, trace), C, rounds);
            Exhausted(P, logs, C'.threads) && C'.threads == SettledThreads(RecordEnd(P, arg, trace).threads)
  {
    var S, completed, rest := Course(P, arg, trace, C);
    RoundsEnd(P, RecordedLogs(P, arg, trace), C, S, rest, rounds);
  }
}
