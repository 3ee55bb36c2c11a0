/**
 Which threads there are: the k-th spawn of a thread starts the thread with its path and k, with the argument given,
 and no other threads exist than these and the first.
 */
module Spawning {
  import opened Confluence
  import opened Following
  import opened Identities
  import opened Promises
  import opened Protocol
  import opened Recording
  import opened RecordLog
  import opened Refinement
  import opened ReplayEngine
  import opened Replaying
  import opened ReplayOrder
  import opened Values

  function Spawns(deeds: seq<Deed>, t: Path): nat {
    if deeds == [] then 0 else (if deeds[0].thread == t && deeds[0].op.Spawn? then 1 else 0) + Spawns(deeds[1..], t)
  }

  function Creations(deeds: seq<Deed>, t: Path): nat {
    if deeds == [] then 0
    else (if deeds[0].thread == t && deeds[0].op.NewChannel? then 1 else 0) + Creations(deeds[1..], t)
  }

  function ChildrenOf(threads: map<Path, Thread>, t: Path): nat {
    if t in threads then threads[t].children else 0
  }

  function ChannelsOf(threads: map<Path, Thread>, t: Path): nat {
    if t in threads then threads[t].channels else 0
  }

  /** The thread that the k-th deed starts, if it is a spawn. */
  function Started(before: map<Path, Thread>, deeds: seq<Deed>, k: nat): Path
    requires k < |deeds|
  {
    var t := deeds[k].thread;
    t + [ChildrenOf(before, t) + Spawns(deeds[..k], t) + 1]
  }

  /** The deeds account for the threads that have come and for the counters of all threads. */
  ghost predicate Accounts(before: map<Path, Thread>, deeds: seq<Deed>, after: map<Path, Thread>) {
    && (forall u :: ChildrenOf(after, u) == ChildrenOf(before, u) + Spawns(deeds, u))
    && (forall u :: ChannelsOf(after, u) == ChannelsOf(before, u) + Creations(deeds, u))
    && (forall u | u in before :: u in after && after[u].arg == before[u].arg)
    && (forall k: nat | k < |deeds| && deeds[k].op.Spawn? ::
          Started(before, deeds, k) in after && after[Started(before, deeds, k)].arg == deeds[k].op.arg)
    && (forall u | u in after && u !in before ::
          exists k: nat :: k < |deeds| && deeds[k].op.Spawn? && u == Started(before, deeds, k))
  }

  lemma NothingDone(threads: map<Path, Thread>)
    ensures Accounts(threads, [], threads)
  {
  }

  lemma StepAccounts(P: Program, threads: map<Path, Thread>, t: Path, e: RecordEntry, ms: seq<Message>, d: Deed)
    requires t in threads && ChildId(t, threads[t]) !in threads
    requires d.thread == t && d.op == OpOf(P, t, threads[t])
    ensures Accounts(threads, [d], ThreadsAfter(threads, t, OpOf(P, t, threads[t]), e, ms))
  {
    var after := ThreadsAfter(threads, t, d.op, e, ms);
    assert [d][1..] == [];
    assert [d][..0] == [];
    assert Started(threads, [d], 0) == t + [threads[t].children + 1];
    forall u
      ensures ChildrenOf(after, u) == ChildrenOf(threads, u) + Spawns([d], u)
      ensures ChannelsOf(after, u) == ChannelsOf(threads, u) + Creations([d], u)
    {
    }
  }

  lemma FirstCounts(d: Deed, rest: seq<Deed>, t: Path)
    ensures Spawns([d] + rest, t) == Spawns([d], t) + Spawns(rest, t)
    ensures Creations([d] + rest, t) == Creations([d], t) + Creations(rest, t)
  {
    assert ([d] + rest)[1..] == rest;
  }

  lemma StartedLater(before: map<Path, Thread>, d: Deed, mid: map<Path, Thread>, rest: seq<Deed>, k: nat)
    requires Accounts(before, [d], mid) && k < |rest|
    ensures Started(before, [d] + rest, k + 1) == Started(mid, rest, k)
  {
    assert ([d] + rest)[..k + 1] == [d] + rest[..k];
    FirstCounts(d, rest[..k], rest[k].thread);
  }

  lemma StartedFirst(before: map<Path, Thread>, d: Deed, rest: seq<Deed>)
    ensures Started(before, [d] + rest, 0) == Started(before, [d], 0)
  {
    assert ([d] + rest)[..0] == [d][..0];
  }

  lemma StartsLater(before: map<Path, Thread>, d: Deed, mid: map<Path, Thread>, rest: seq<Deed>,
      after: map<Path, Thread>, k: nat)
    requires Accounts(before, [d], mid) && Accounts(mid, rest, after) && k < |[d] + rest| && ([d] + rest)[k].op.Spawn?
    ensures var u := Started(before, [d] + rest, k); u in after && after[u].arg == ([d] + rest)[k].op.arg
  {
    if k > 0 {
      StartedLater(before, d, mid, rest, k - 1);
      assert rest[k - 1] == ([d] + rest)[k];
    } else {
      StartedFirst(before, d, rest);
      assert [d][0].op.Spawn?;
    }
  }

  lemma StartedBy(before: map<Path, Thread>, d: Deed, mid: map<Path, Thread>, rest: seq<Deed>,
      after: map<Path, Thread>, u: Path) returns (k: nat)
    requires Accounts(before, [d], mid) && Accounts(mid, rest, after) && u in after && u !in before
    ensures k < |[d] + rest| && ([d] + rest)[k].op.Spawn? && u == Started(before, [d] + rest, k)
  {
    if u in mid {
      k := 0;
      var j: nat :| j < |[d]| && [d][j].op.Spawn? && u == Started(before, [d], j);
      StartedFirst(before, d, rest);
    } else {
      var j: nat :| j < |rest| && rest[j].op.Spawn? && u == Started(mid, rest, j);
      StartedLater(before, d, mid, rest, j);
      k := j + 1;
    }
  }

  lemma AccountsFirst(before: map<Path, Thread>, d: Deed, mid: map<Path, Thread>, rest: seq<Deed>,
      after: map<Path, Thread>)
    requires Accounts(before, [d], mid) && Accounts(mid, rest, after)
    ensures Accounts(before, [d] + rest, after)
  {
    forall u {
      FirstCounts(d, rest, u);
    }
    forall k: nat | k < |[d] + rest| && ([d] + rest)[k].op.Spawn? {
      StartsLater(before, d, mid, rest, after, k);
    }
    forall u | u in after && u !in before
      ensures exists k: nat :: k < |[d] + rest| && ([d] + rest)[k].op.Spawn? && u == Started(before, [d] + rest, k)
    {
      var k := StartedBy(before, d, mid, rest, after, u);
    }
  }

  lemma {:induction false} RecordAccounts(P: Program, R: Recorder, trace: seq<Logged>)
    requires RecordInv(R) && Runs(Recordings(P), R, trace)
    ensures Accounts(R.threads, RecordDeeds(P, R, trace), After(Recordings(P), R, trace).threads)
    decreases |trace|
  {
    if trace == [] {
      NothingDone(R.threads);
    } else {
      var R', d := RecordAccountsOne(P, R, trace[0]);
      RecordAccounts(P, R', trace[1..]);
      AccountsFirst(R.threads, d, R'.threads, RecordDeeds(P, R', trace[1..]), After(Recordings(P), R', trace[1..]).threads);
    }
  }

  lemma RecordAccountsOne(P: Program, R: Recorder, l: Logged) returns (R': Recorder, d: Deed)
    requires RecordInv(R) && Recordings(P)(R, l).Some?
    ensures R' == Recordings(P)(R, l).value && RecordInv(R')
    ensures DeedOf(P, R.threads, R'.threads, l.thread) == [d] && Accounts(R.threads, [d], R'.threads)
  {
    R', d := RecordIsDeed(P, R, l);
    var R1, op, ms := RecordStep(P, R, l);
    StepAccounts(P, R.threads, l.thread, l.entry, ms, d);
  }

  lemma NextAccounts(P: Program, logs: Logs, S: State, S': State, t: Path) returns (d: Deed)
    requires Inv(S) && Stepping(P, logs)(S, t) == Some(S')
    ensures Inv(S') && DeedOf(P, S.threads, S'.threads, t) == [d] && Accounts(S.threads, [d], S'.threads)
  {
    var e := NextEntry(P, logs, S.threads, t);
    var ms := Taken(S.queues, Picks(OpOf(P, t, S.threads[t]), t, S.threads[t], e));
    ChildIsNew(S, t);
    d := StepIsDeed(P, S.threads, t, e, ms);
    StepAccounts(P, S.threads, t, e, ms, d);
    StepKeepsInv(P, S, t, e);
  }

  lemma {:induction false} ReplayAccounts(P: Program, logs: Logs, C: Replayer, S: State, turns: seq<Turn>)
    requires Inv(S) && StandsFor(P, logs, C, S) && Runs(Replays(P, logs), C, turns)
    ensures Accounts(C.threads, ReplayDeeds(P, logs, C, turns), After(Replays(P, logs), C, turns).threads)
    decreases |turns|
  {
    if turns == [] {
      NothingDone(C.threads);
    } else {
      var C' := Replays(P, logs)(C, turns[0]).value;
      var S' := TurnRefines(P, logs, C, S, turns[0]);
      var rest := ReplayDeeds(P, logs, C', turns[1..]);
      if S' == S {
        ReplayAccounts(P, logs, C', S', turns[1..]);
        NothingAdded(rest);
      } else {
        var d := NextAccounts(P, logs, S, S', turns[0].thread);
        ReplayAccounts(P, logs, C', S', turns[1..]);
        AccountsFirst(C.threads, d, C'.threads, rest, After(Replays(P, logs), C', turns[1..]).threads);
      }
    }
  }

  /** What the deeds of a run from the start say of its threads. */
  ghost predicate ThreadsOf(arg: Payload, deeds: seq<Deed>, threads: map<Path, Thread>) {
    && [] in threads && threads[[]].arg == arg
    && (forall k: nat | k < |deeds| && deeds[k].op.Spawn? ::
          var u := deeds[k].thread + [1 + Spawns(deeds[..k], deeds[k].thread)];
          u in threads && threads[u].arg == deeds[k].op.arg)
    && (forall u | u in threads && u != [] ::
          exists k: nat :: k < |deeds| && deeds[k].op.Spawn?
                           && u == deeds[k].thread + [1 + Spawns(deeds[..k], deeds[k].thread)])
    && (forall t | t in threads :: threads[t].channels == Creations(deeds, t))
  }

  lemma StartedFromTheStart(arg: Payload, deeds: seq<Deed>, k: nat)
    requires k < |deeds|
    ensures Started(map[[] := NewThread(arg)], deeds, k) == deeds[k].thread + [1 + Spawns(deeds[..k], deeds[k].thread)]
  {
  }

  lemma FromTheStart(arg: Payload, deeds: seq<Deed>, threads: map<Path, Thread>)
    requires Accounts(map[[] := NewThread(arg)], deeds, threads)
    ensures ThreadsOf(arg, deeds, threads)
  {
    var first := map[[] := NewThread(arg)];
    assert [] in first;
    forall k: nat | k < |deeds| {
      StartedFromTheStart(arg, deeds, k);
    }
    forall t | t in threads
      ensures threads[t].channels == Creations(deeds, t)
    {
      assert ChannelsOf(threads, t) == ChannelsOf(first, t) + Creations(deeds, t);
    }
  }

  /**
   In record and in replay, of any logs and as far as it gets: the k-th spawn of a thread starts the thread with its
   path and k, with the argument that it gives; all threads but the first are started so; and a thread has numbered as
   many channels as it has created.
   */
  lemma ThreadsAreSpawned(P: Program, arg: Payload, trace: seq<Logged>, logs: Logs, turns: seq<Turn>)
    requires Recorded(P, arg, trace) && Runs(Replays(P, logs), Begin(arg), turns)
    ensures ThreadsOf(arg, RecordDeeds(P, Start(arg), trace), RecordEnd(P, arg, trace).threads)
    ensures ThreadsOf(arg, ReplayDeeds(P, logs, Begin(arg), turns), After(Replays(P, logs), Begin(arg), turns).threads)
  {
    StartInv(arg);
    InitialInv(arg);
    assert StandsFor(P, logs, Begin(arg), Initial(arg));
    RecordAccounts(P, Start(arg), trace);
    ReplayAccounts(P, logs, Begin(arg), Initial(arg), turns);
    FromTheStart(arg, RecordDeeds(P, Start(arg), trace), RecordEnd(P, arg, trace).threads);
    FromTheStart(arg, ReplayDeeds(P, logs, Begin(arg), turns), After(Replays(P, logs), Begin(arg), turns).threads);
  }
}
